/** The records exchanged with the calculation backend (src/types/bond.ts).
    JavaScript numbers are modelled as `real` (amounts and rates) or `int`
    (the period index); dates stay strings, as the source keeps them. */
module BondTypes {

  datatype Option<+T> = None | Some(value: T)

  /** CouponFrequency: "annual" | "semiAnnual". */
  datatype CouponFrequency = Annual | SemiAnnual

  /** PremiumDiscountIndicator: "premium" | "discount" | "par". */
  datatype PremiumDiscountIndicator = Premium | Discount | Par

  datatype BondInputs = BondInputs(
    faceValue: real,
    annualCouponRate: real,
    marketPrice: real,
    yearsToMaturity: real,
    couponFrequency: CouponFrequency)

  datatype CashFlowScheduleItem = CashFlowScheduleItem(
    period: int,
    paymentDate: string,
    couponPayment: real,
    cumulativeInterest: real,
    remainingPrincipal: real)

  datatype BondCalculationResponse = BondCalculationResponse(
    currentYield: real,
    ytm: real,
    totalInterest: real,
    premiumOrDiscount: PremiumDiscountIndicator,
    cashFlowSchedule: seq<CashFlowScheduleItem>,
    inputsEcho: BondInputs)

  /** The wire spelling of a frequency. */
  function FrequencyName(f: CouponFrequency): (s: string)
  {
    match f
    case Annual => "annual"
    case SemiAnnual => "semiAnnual"
  }

  /** Reading a wire string as a frequency: only the two enum spellings are
      recognised, so FrequencyName is its exact inverse. */
  function ParseFrequency(s: string): (r: Option<CouponFrequency>)
    ensures r.Some? ==> FrequencyName(r.value) == s
    ensures r.None? ==> s != "annual" && s != "semiAnnual"
  {
    if s == "annual" then Some(Annual)
    else if s == "semiAnnual" then Some(SemiAnnual)
    else None
  }

  lemma ParseFrequencyName(f: CouponFrequency)
    ensures ParseFrequency(FrequencyName(f)) == Some(f)
  {
  }

  /** The wire spelling of an indicator. */
  function IndicatorName(p: PremiumDiscountIndicator): (s: string)
  {
    match p
    case Premium => "premium"
    case Discount => "discount"
    case Par => "par"
  }

  /** Reading a wire string as an indicator: only the three enum spellings
      are recognised, so IndicatorName is its exact inverse. */
  function ParseIndicator(s: string): (r: Option<PremiumDiscountIndicator>)
    ensures r.Some? ==> IndicatorName(r.value) == s
    ensures r.None? ==> s != "premium" && s != "discount" && s != "par"
  {
    if s == "premium" then Some(Premium)
    else if s == "discount" then Some(Discount)
    else if s == "par" then Some(Par)
    else None
  }

  lemma ParseIndicatorName(p: PremiumDiscountIndicator)
    ensures ParseIndicator(IndicatorName(p)) == Some(p)
  {
  }
}
