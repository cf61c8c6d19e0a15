# Bond yield calculator front end: a Dafny model of its client-side logic

The bond yield calculator front end collects five bond parameters in a
form. It sends them to a remote calculation service and shows the metrics
and the cash-flow schedule that come back. The bond mathematics runs on
that service, not in this code. What the front end decides for itself is
modelled here, one Dafny module per source file modelled, plus `Decimal`,
a shared helper for rendering numbers as text:

- `BondTypes` (src/types/bond.ts): the records `BondInputs`,
  `CashFlowScheduleItem` and `BondCalculationResponse`, and the two string
  enums. Each enum has its wire spelling and a parse function that is the
  exact inverse of it.
- `BondForm` (src/components/BondForm.tsx): the validation schema, one
  predicate per field. The class `BondFormState` holds the values kept by
  the form library, the errors of the last validation, and the list of
  calls made to `onSubmit`. `HandleSubmit` validates, records the errors
  and calls `onSubmit` only when every field passed. `HandleReset`
  overwrites the values with `BOND_DEFAULTS` (src/lib/constants.ts).
- `CashFlowTable` (src/components/CashFlowTable.tsx): the placeholder for
  a missing or empty schedule, and the copy of the schedule sorted on
  `period`. It is proved sorted in the chosen direction, a permutation of
  the input, and stable. The class `CashFlowTableState` holds the
  `sortAscending` flag that `ToggleSort` flips. Also modelled: the arrow
  on the sort button and the pluralised "Showing N payment period(s)".
- `Actions` (src/app/actions.ts): `calculateBondAction` as a pure
  decision. Its input is the outcome of the request: a response (ok with a
  parsed body, or not ok with a status, a status text and an error body),
  or a thrown value. Its output is exactly one of
  `Success(data)` and `Failure(error)`.
- `Utils` (src/lib/utils.ts): `capitalizeFirst`, `getBadgeColor` and
  `getBondStatusDescription`.
- `Decimal`: how JavaScript renders a non-negative integer into text. This
  is used for the HTTP status in the server-error line and for the period
  count. A lemma proves the digits read back as the number.

JavaScript numbers are modelled as `real` (amounts, rates, years) and as
`int` (the schedule period, the HTTP status). A JavaScript `null` schedule
is `None`.

## Model

| member | source | states |
|---|---|---|
| `BondTypes.ParseFrequency` | src/components/BondForm.tsx:14 | only "annual" and "semiAnnual" are frequencies; a recognised string is the wire name of the frequency it gives |
| `BondTypes.ParseIndicator` | src/types/bond.ts:3 | only "premium", "discount" and "par" are indicators; a recognised string is the wire name of the indicator it gives |
| `BondTypes.ParseIndicatorName` | src/types/bond.ts:3 | reading the wire name of each indicator gives that indicator back |
| `BondTypes.ParseFrequencyName` | src/types/bond.ts:1 | reading the wire name of each frequency gives that frequency back |
| `BondForm.CheckPositive` | src/components/BondForm.tsx:10 | `positive(msg)` passes iff the value is > 0, otherwise it reports exactly `msg` |
| `BondForm.CheckNonNegative` | src/components/BondForm.tsx:11 | `min(0, msg)` passes iff the value is >= 0, otherwise it reports exactly `msg` |
| `BondForm.Errors` | src/components/BondForm.tsx:9-15 | each numeric field reports its own message ("Face value must be greater than 0", "Coupon rate must be 0 or greater", "Market price must be greater than 0", "Years to maturity must be greater than 0") exactly when its predicate fails; the frequency is flagged exactly when it is neither "annual" nor "semiAnnual"; the schema reports no error iff faceValue > 0, annualCouponRate >= 0, marketPrice > 0, yearsToMaturity > 0 and the frequency is "annual" or "semiAnnual" |
| `BondForm.Parse` | src/components/BondForm.tsx:9-15 | parsing succeeds iff no field has an error, and the parsed inputs carry the form's values unchanged |
| `BondForm.DefaultsAccepted` | src/lib/constants.ts:12-18 | the defaults (1000, 5, 950, 5, semiAnnual) pass every check and parse to exactly those inputs |
| `BondForm.ZeroBoundaries` | src/components/BondForm.tsx:10-13 | a coupon rate of 0 passes; a face value, market price or maturity of 0 fails with its own message and blocks parsing |
| `BondForm.NegativeFaceValueRejected` | src/components/BondForm.tsx:10 | a negative face value reports "Face value must be greater than 0" and blocks parsing, whatever the other fields hold |
| `BondForm.EmptyFrequencyRejected` | src/components/BondForm.tsx:156 | the empty "Select frequency" option fails the enum check and blocks parsing |
| `BondForm.ErrorsAreFieldwise` | src/components/BondForm.tsx:10-14 | each field's error depends only on that field's value |
| `BondForm.BondFormState.constructor` | src/components/BondForm.tsx:28-31 | a new form holds `BOND_DEFAULTS`, with no errors and no submissions |
| `BondForm.BondFormState.Edit` | src/components/BondForm.tsx:52 | editing the registered inputs changes the values only |
| `BondForm.BondFormState.HandleSubmit` | src/components/BondForm.tsx:38 | a submission records the schema's errors for the current values; it calls `onSubmit` iff there are none, with the parsed inputs; the values are unchanged |
| `BondForm.BondFormState.HandleReset` | src/components/BondForm.tsx:33-35 | reset sets every value to `BOND_DEFAULTS` and clears the errors, whatever the form held; nothing is submitted |
| `BondForm.ResetTwice` | src/components/BondForm.tsx:33-35 | resetting twice leaves the same state as resetting once |
| `BondForm.SubmitUntouchedForm` | src/components/__tests__/BondForm.test.tsx:83-101 | submitting the untouched form calls `onSubmit` once, with (1000, 5, 950, 5, semiAnnual) |
| `BondForm.SubmitNegativeFaceValue` | src/components/__tests__/BondForm.test.tsx:53-71 | a negative face value shows its message and `onSubmit` is not called |
| `CashFlowTable.Compare` | src/components/CashFlowTable.tsx:27 | the comparator is zero iff the periods are equal, and negative iff the first row's period comes first in the chosen direction |
| `CashFlowTable.Insert` | src/components/CashFlowTable.tsx:26 | inserting a row adds one to the length and adds exactly that row to the multiset of rows |
| `CashFlowTable.SortByPeriod` | src/components/CashFlowTable.tsx:26 | the sorted copy has the schedule's length and is a permutation of it (equal multisets) |
| `CashFlowTable.SortByPeriodSorted` | src/components/CashFlowTable.tsx:26-28 | the copy's periods are non-decreasing when ascending and non-increasing when descending |
| `CashFlowTable.InsertSorted` | src/components/CashFlowTable.tsx:27 | inserting a row into rows in the comparator's order keeps them in that order |
| `CashFlowTable.SortByPeriodStable` | src/components/CashFlowTable.tsx:26-28 | rows that share a period keep their relative order in the sorted copy |
| `CashFlowTable.InsertWithPeriod` | src/components/CashFlowTable.tsx:27 | inserting a row puts it ahead of the rows with its period and leaves every other period's rows unchanged |
| `CashFlowTable.SortLabel` | src/components/CashFlowTable.tsx:44 | the button reads "Sort ↓" exactly when ascending and "Sort ↑" exactly when descending |
| `CashFlowTable.CountText` | src/components/CashFlowTable.tsx:115-116 | the count text starts "Showing ", continues after the number with " payment period", and ends in "s" iff the length is not 1 |
| `CashFlowTable.CountTextReports` | src/components/CashFlowTable.tsx:115 | after "Showing " comes a run of digits, ended by a space, that reads back as the schedule length |
| `CashFlowTable.CountTextThree` | src/components/__tests__/CashFlowTable.test.tsx:64-68 | three rows read "Showing 3 payment periods" |
| `CashFlowTable.CountTextOne` | src/components/CashFlowTable.tsx:115-116 | one row reads "Showing 1 payment period", without the "s" |
| `CashFlowTable.Render` | src/components/CashFlowTable.tsx:16-28 | the placeholder is shown iff the schedule is null or empty; otherwise the rows are a sorted permutation of the schedule with the direction's label and the count |
| `CashFlowTable.RenderStable` | src/components/CashFlowTable.tsx:26 | the rendered rows keep the schedule's order among rows with the same period |
| `CashFlowTable.CashFlowTableState.constructor` | src/components/CashFlowTable.tsx:14 | a new table sorts ascending |
| `CashFlowTable.CashFlowTableState.Receive` | src/components/CashFlowTable.tsx:11-13 | a new schedule from the parent keeps the sort direction |
| `CashFlowTable.CashFlowTableState.ToggleSort` | src/components/CashFlowTable.tsx:30-32 | toggling flips the direction and changes nothing else |
| `CashFlowTable.ToggleTwice` | src/components/CashFlowTable.tsx:30-32 | two toggles restore the direction and the rendered view |
| `CashFlowTable.FirstToggle` | src/components/__tests__/CashFlowTable.test.tsx:70-83 | a new table shows "↓"; after one click it shows "↑" |
| `Actions.Join` | src/app/actions.ts:38 | joining no items gives "", one item gives that item, and the length is the items' total length plus one separator between each pair |
| `Actions.JoinAppend` | src/app/actions.ts:38 | appending an item to a non-empty list appends ", " and then that item to the join, so items appear in order with one separator between each pair |
| `Actions.Contains` | src/app/actions.ts:60 | `includes` holds iff the text occurs at some position of the string |
| `Actions.JoinEmpty` | src/app/actions.ts:38 | a join with ", " is empty iff there are no items or one empty item |
| `Actions.ServerErrorText` | src/app/actions.ts:33 | the fallback text is "Server error: ", then digits that read back as the status, then a space and the status text |
| `Actions.NotOkError` | src/app/actions.ts:29-48 | an array message is joined with ", ", a non-empty string is kept verbatim, another truthy message gives "Failed to calculate bond metrics", and no usable message gives the status line |
| `Actions.ThrownError` | src/app/actions.ts:57-73 | a TypeError mentioning "fetch" gives the unreachable-server text, any other Error its message, a non-Error "An unexpected error occurred" |
| `Actions.CalculateBondResult` | src/app/actions.ts:11-14 | the action succeeds iff the response came back ok; every other outcome is a failure |
| `Actions.OkIsSuccess` | src/app/actions.ts:51-56 | an ok response yields success carrying the parsed body itself |
| `Actions.ArrayMessageJoined` | src/app/actions.ts:35-40 | an array message yields its elements joined by ", "; an empty array yields "" |
| `Actions.StringMessageVerbatim` | src/app/actions.ts:42-47 | a non-empty string message is the error verbatim |
| `Actions.MissingMessageReportsStatus` | src/app/actions.ts:30-33 | an unparseable body, an absent message or a falsy one (including "") yields the status line of `ServerErrorText` |
| `Actions.OtherMessageGeneric` | src/app/actions.ts:43-47 | a truthy message that is neither a string nor an array yields "Failed to calculate bond metrics" |
| `Actions.FetchTypeErrorUnreachable` | src/app/actions.ts:60-66 | a thrown TypeError whose message contains "fetch" yields the fixed unreachable-server text |
| `Actions.OtherThrownReported` | src/app/actions.ts:68-72 | any other thrown Error yields its own message; a thrown non-Error yields "An unexpected error occurred" |
| `Actions.FetchFailedRecognised` | src/app/actions.ts:60 | the message "fetch failed" is recognised as a connection failure |
| `Actions.EmptyErrorText` | src/app/actions.ts:29-73 | the error text is empty exactly for an array message with no element or one empty element, or a thrown Error with an empty message |
| `Utils.ToUpperAscii` | src/lib/utils.ts:40 | a lower-case ASCII letter becomes its upper-case letter; any other character is unchanged; the result is never lower-case |
| `Utils.CapitalizeFirst` | src/lib/utils.ts:39-41 | the length is kept, "" stays "", the first character is upper-cased and the rest is unchanged |
| `Utils.CapitalizeFirstIdempotent` | src/lib/utils.ts:40 | capitalising twice equals capitalising once |
| `Utils.CapitalizeFirstChangesOnlyFirst` | src/lib/utils.ts:40 | a character changes only at position 0, and only when it is a lower-case letter |
| `Utils.CapitalizedIndicators` | src/components/ResultsSummary.tsx:66 | "discount", "premium" and "par" become "Discount", "Premium" and "Par" |
| `Utils.BadgeColor` | src/lib/utils.ts:46-57 | each of the green, red and blue classes goes to exactly one of premium, discount and par; the gray classes go to exactly the other strings |
| `Utils.BadgeColorsDistinct` | src/lib/utils.ts:46-57 | premium, discount and par get pairwise different classes |
| `Utils.StatusDescription` | src/lib/utils.ts:62-73 | the description is non-empty iff the indicator is "premium", "discount" or "par" |
| `Utils.StatusDescriptions` | src/lib/utils.ts:62-73 | premium, discount and par read "Trading above face value", "Trading below face value" and "Trading at face value" |
| `Utils.IndicatorsDescribed` | src/types/bond.ts:3 | every indicator the response type allows gets a non-gray badge and a non-empty description |
| `Decimal.NatToString` | src/app/actions.ts:33 | a number renders as a non-empty run of digits with no leading zero |
| `Decimal.ParseNatToString` | src/app/actions.ts:33 | the rendered digits read back as the number |
| `Decimal.NatToStringInjective` | src/components/CashFlowTable.tsx:115 | different numbers render differently |

## Left out

- The HTTP request, JSON encoding and decoding, and `console` logging in src/app/actions.ts. The action takes the request's outcome as an input datatype. An ok response whose body fails to parse is the `Raised(Error(m))` outcome, because that exception reaches the same `catch`.
- The API base URL. It is read from the process environment in src/app/actions.ts and src/lib/env.ts, and the two files fall back to different defaults. This is configuration, not logic.
- The axios client in src/lib/api/bonds.ts. It is a thin call into a library whose code is not available.
- `formatPercentage`, `formatCurrency` and `formatDate`. They depend on floating-point `toFixed`, `Intl.NumberFormat` and locale date formatting.
- src/components/BondCalculator.tsx. Its transition, toasts and logging are UI plumbing around concurrency.
- All JSX and CSS rendering: ResultsSummary, page, layout, loading, error and not-found pages, and the Next.js configuration. The badge and description helpers they call are modelled.
- The internals of the validation and form libraries. Not modelled: NaN from an empty numeric input, re-validation on change after a first submission, disabling inputs while loading, and the library's own text for a bad frequency. Only the presence of a frequency error is modelled.
- IEEE double arithmetic. Numbers are exact reals and integers. The comparisons of the schema and the period subtraction of the comparator are exact at the values the form and the schedule hold.
- `Actions.Join`: array elements are modelled as strings. JavaScript's `join` would also turn `null` elements into "" and other values into their string forms.
- `Utils.CapitalizeFirst`: upper-cases ASCII letters only. JavaScript's `toUpperCase` also maps non-ASCII letters, and some of them to more than one character.
- `Utils.ToUpperAscii`: the same ASCII-only restriction as `Utils.CapitalizeFirst`.
- Any yield-to-maturity solver or cash-flow generator. This code has none; the remote service computes them.
