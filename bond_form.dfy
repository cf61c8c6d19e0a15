/** The bond input form (src/components/BondForm.tsx): the validation
    schema, one predicate per field, and the form state that react-hook-form
    keeps, which a submission validates and a reset overwrites. */
module BondForm {
  import opened BondTypes

  /** The values the form currently holds. The numeric inputs are read as
      numbers; the frequency is whatever the select holds, including the
      empty "Select frequency" option. */
  datatype FormValues = FormValues(
    faceValue: real,
    annualCouponRate: real,
    marketPrice: real,
    yearsToMaturity: real,
    couponFrequency: string)

  /** BOND_DEFAULTS. */
  const BondDefaults: FormValues := FormValues(1000.0, 5.0, 950.0, 5.0, "semiAnnual")

  /** VALIDATION_MESSAGES used by the schema. */
  const FaceValuePositive: string := "Face value must be greater than 0"
  const CouponRateMin: string := "Coupon rate must be 0 or greater"
  const MarketPricePositive: string := "Market price must be greater than 0"
  const YearsPositive: string := "Years to maturity must be greater than 0"

  /** The schema's verdict, field by field: the message shown under each
      numeric input, and whether the frequency failed its enum check (that
      message is the validation library's own text, so only its presence is
      modelled). */
  datatype FormErrors = FormErrors(
    faceValue: Option<string>,
    annualCouponRate: Option<string>,
    marketPrice: Option<string>,
    yearsToMaturity: Option<string>,
    couponFrequencyInvalid: bool)

  const NoErrors: FormErrors := FormErrors(None, None, None, None, false)

  /** `z.number().positive(msg)`. */
  function CheckPositive(x: real, msg: string): (e: Option<string>)
    ensures e.None? <==> x > 0.0
    ensures e.Some? ==> e.value == msg
  {
    if x > 0.0 then None else Some(msg)
  }

  /** `z.number().min(0, msg)`. */
  function CheckNonNegative(x: real, msg: string): (e: Option<string>)
    ensures e.None? <==> x >= 0.0
    ensures e.Some? ==> e.value == msg
  {
    if x >= 0.0 then None else Some(msg)
  }

  /** The errors the schema reports for a set of values. */
  function Errors(v: FormValues): (e: FormErrors)
    ensures e.faceValue == if v.faceValue > 0.0 then None else Some(FaceValuePositive)
    ensures e.annualCouponRate == if v.annualCouponRate >= 0.0 then None else Some(CouponRateMin)
    ensures e.marketPrice == if v.marketPrice > 0.0 then None else Some(MarketPricePositive)
    ensures e.yearsToMaturity == if v.yearsToMaturity > 0.0 then None else Some(YearsPositive)
    ensures e.couponFrequencyInvalid <==>
      v.couponFrequency != "annual" && v.couponFrequency != "semiAnnual"
    ensures e == NoErrors <==>
      v.faceValue > 0.0 && v.annualCouponRate >= 0.0 && v.marketPrice > 0.0 &&
      v.yearsToMaturity > 0.0 && (v.couponFrequency == "annual" || v.couponFrequency == "semiAnnual")
  {
    FormErrors(
      CheckPositive(v.faceValue, FaceValuePositive),
      CheckNonNegative(v.annualCouponRate, CouponRateMin),
      CheckPositive(v.marketPrice, MarketPricePositive),
      CheckPositive(v.yearsToMaturity, YearsPositive),
      ParseFrequency(v.couponFrequency).None?)
  }

  /** The schema's parse: the typed inputs handed to `onSubmit`, or nothing
      when any field fails. */
  function Parse(v: FormValues): (r: Option<BondInputs>)
    ensures r.Some? <==> Errors(v) == NoErrors
    ensures r.Some? ==>
      r.value.faceValue == v.faceValue &&
      r.value.annualCouponRate == v.annualCouponRate &&
      r.value.marketPrice == v.marketPrice &&
      r.value.yearsToMaturity == v.yearsToMaturity &&
      FrequencyName(r.value.couponFrequency) == v.couponFrequency
  {
    match ParseFrequency(v.couponFrequency)
    case None => None
    case Some(f) =>
      if Errors(v) == NoErrors
      then Some(BondInputs(v.faceValue, v.annualCouponRate, v.marketPrice, v.yearsToMaturity, f))
      else None
  }

  /** The untouched form passes validation and hands exactly the defaults
      to `onSubmit`. */
  lemma DefaultsAccepted()
    ensures Errors(BondDefaults) == NoErrors
    ensures Parse(BondDefaults) == Some(BondInputs(1000.0, 5.0, 950.0, 5.0, SemiAnnual))
  {
  }

  /** The boundary of each numeric check: a zero coupon rate is accepted,
      a zero face value, market price or maturity is rejected with its
      message. */
  lemma ZeroBoundaries(v: FormValues)
    ensures Errors(v.(annualCouponRate := 0.0)).annualCouponRate == None
    ensures Errors(v.(faceValue := 0.0)).faceValue == Some(FaceValuePositive)
    ensures Errors(v.(marketPrice := 0.0)).marketPrice == Some(MarketPricePositive)
    ensures Errors(v.(yearsToMaturity := 0.0)).yearsToMaturity == Some(YearsPositive)
    ensures Parse(v.(faceValue := 0.0)).None?
    ensures Parse(v.(marketPrice := 0.0)).None?
    ensures Parse(v.(yearsToMaturity := 0.0)).None?
  {
  }

  /** A negative face value is reported with its message and blocks the
      submission, whatever the other fields hold. */
  lemma NegativeFaceValueRejected(v: FormValues)
    requires v.faceValue < 0.0
    ensures Errors(v).faceValue == Some(FaceValuePositive)
    ensures Parse(v) == None
  {
  }

  /** The empty "Select frequency" option fails the enum check. */
  lemma EmptyFrequencyRejected(v: FormValues)
    requires v.couponFrequency == ""
    ensures Errors(v).couponFrequencyInvalid
    ensures Parse(v) == None
  {
  }

  /** Each field's error depends on that field's value alone. */
  lemma ErrorsAreFieldwise(v: FormValues, w: FormValues)
    ensures v.faceValue == w.faceValue ==> Errors(v).faceValue == Errors(w).faceValue
    ensures v.annualCouponRate == w.annualCouponRate ==>
      Errors(v).annualCouponRate == Errors(w).annualCouponRate
    ensures v.marketPrice == w.marketPrice ==> Errors(v).marketPrice == Errors(w).marketPrice
    ensures v.yearsToMaturity == w.yearsToMaturity ==>
      Errors(v).yearsToMaturity == Errors(w).yearsToMaturity
    ensures v.couponFrequency == w.couponFrequency ==>
      Errors(v).couponFrequencyInvalid == Errors(w).couponFrequencyInvalid
  {
  }

  /** What `useForm` holds for one mounted form: the current values, the
      errors of the last validation, and the arguments of every call the
      form has made to `onSubmit`. */
  class BondFormState {
    var values: FormValues
    var errors: FormErrors
    var submitted: seq<BondInputs>

    /** `useForm({ defaultValues: BOND_DEFAULTS })`. */
    constructor ()
      ensures values == BondDefaults && errors == NoErrors && submitted == []
    {
      values := BondDefaults;
      errors := NoErrors;
      submitted := [];
    }

    /** The user changes the inputs registered with the form. */
    method Edit(v: FormValues)
      modifies this
      ensures values == v
      ensures errors == old(errors) && submitted == old(submitted)
    {
      values := v;
    }

    /** `handleSubmit(onSubmit)`: validate the current values, record the
        errors, and call `onSubmit` with the parsed inputs only when every
        field passed. */
    method HandleSubmit() returns (called: bool)
      modifies this
      ensures values == old(values)
      ensures errors == Errors(values)
      ensures called <==> errors == NoErrors
      ensures submitted ==
        if called then old(submitted) + [Parse(values).value] else old(submitted)
    {
      errors := Errors(values);
      var parsed := Parse(values);
      called := parsed.Some?;
      if called {
        submitted := submitted + [parsed.value];
      }
    }

    /** `handleReset`: `reset(BOND_DEFAULTS)` replaces every value and
        clears the errors, whatever the form held before; nothing is
        submitted. */
    method HandleReset()
      modifies this
      ensures values == BondDefaults && errors == NoErrors
      ensures submitted == old(submitted)
    {
      values := BondDefaults;
      errors := NoErrors;
    }
  }

  /** Submitting the untouched form calls `onSubmit` once, with the
      defaults. */
  method SubmitUntouchedForm() returns (f: BondFormState, called: bool)
    ensures fresh(f) && called
    ensures f.submitted == [BondInputs(1000.0, 5.0, 950.0, 5.0, SemiAnnual)]
  {
    f := new BondFormState();
    DefaultsAccepted();
    called := f.HandleSubmit();
  }

  /** Typing a negative face value and submitting shows the face-value
      message and does not call `onSubmit`. */
  method SubmitNegativeFaceValue(f: BondFormState, x: real) returns (called: bool)
    requires x < 0.0
    modifies f
    ensures !called && f.submitted == old(f.submitted)
    ensures f.errors.faceValue == Some(FaceValuePositive)
  {
    f.Edit(f.values.(faceValue := x));
    called := f.HandleSubmit();
  }

  /** Resetting twice leaves the same state as resetting once. */
  method ResetTwice(f: BondFormState)
    modifies f
    ensures f.values == BondDefaults && f.errors == NoErrors
    ensures f.submitted == old(f.submitted)
  {
    f.HandleReset();
    ghost var once := (f.values, f.errors, f.submitted);
    f.HandleReset();
    assert (f.values, f.errors, f.submitted) == once;
  }
}
