/** The display helpers of src/lib/utils.ts that do not depend on number
    or date formatting: capitalising a label, and the badge colour and
    description of a premium/discount/par indicator. */
module Utils {
  import opened BondTypes

  predicate IsAsciiLower(c: char) { 'a' <= c <= 'z' }

  /** `toUpperCase` of one character, on the ASCII letters. */
  function ToUpperAscii(c: char): (u: char)
    ensures IsAsciiLower(c) ==> 'A' <= u <= 'Z' && u as int - 'A' as int == c as int - 'a' as int
    ensures !IsAsciiLower(c) ==> u == c
    ensures !IsAsciiLower(u)
  {
    if IsAsciiLower(c) then (c as int - 'a' as int + 'A' as int) as char else c
  }

  /** `str.charAt(0).toUpperCase() + str.slice(1)`. */
  function CapitalizeFirst(s: string): (r: string)
    ensures |r| == |s|
    ensures s == [] ==> r == []
    ensures s != [] ==> r[0] == ToUpperAscii(s[0]) && r[1..] == s[1..]
  {
    if s == [] then [] else [ToUpperAscii(s[0])] + s[1..]
  }

  /** Capitalising is idempotent. */
  lemma CapitalizeFirstIdempotent(s: string)
    ensures CapitalizeFirst(CapitalizeFirst(s)) == CapitalizeFirst(s)
  {
  }

  /** Only the first character can change, and only from a lower-case to
      the matching upper-case letter. */
  lemma CapitalizeFirstChangesOnlyFirst(s: string, i: nat)
    requires i < |s|
    ensures CapitalizeFirst(s)[i] != s[i] ==> i == 0 && IsAsciiLower(s[0])
  {
  }

  /** The three indicator labels as the results badge shows them. */
  lemma CapitalizedIndicators()
    ensures CapitalizeFirst("discount") == "Discount"
    ensures CapitalizeFirst("premium") == "Premium"
    ensures CapitalizeFirst("par") == "Par"
  {
  }

  const PremiumBadge: string := "bg-green-100 text-green-800 border-green-200"
  const DiscountBadge: string := "bg-red-100 text-red-800 border-red-200"
  const ParBadge: string := "bg-blue-100 text-blue-800 border-blue-200"
  const DefaultBadge: string := "bg-gray-100 text-gray-800 border-gray-200"

  /** `getBadgeColor(indicator)`. */
  function BadgeColor(indicator: string): (r: string)
    ensures r == PremiumBadge <==> indicator == "premium"
    ensures r == DiscountBadge <==> indicator == "discount"
    ensures r == ParBadge <==> indicator == "par"
    ensures r == DefaultBadge <==>
      indicator != "premium" && indicator != "discount" && indicator != "par"
  {
    assert PremiumBadge[3] != DiscountBadge[3] && PremiumBadge[3] != ParBadge[3];
    assert DiscountBadge[3] != ParBadge[3];
    assert DefaultBadge[5] != PremiumBadge[5];
    assert DefaultBadge[3] != DiscountBadge[3] && DefaultBadge[3] != ParBadge[3];
    if indicator == "premium" then PremiumBadge
    else if indicator == "discount" then DiscountBadge
    else if indicator == "par" then ParBadge
    else DefaultBadge
  }

  /** The three known indicators get three different colours, none of
      them the gray one, and every other string gets gray. */
  lemma BadgeColorsDistinct()
    ensures BadgeColor("premium") != BadgeColor("discount")
    ensures BadgeColor("premium") != BadgeColor("par")
    ensures BadgeColor("discount") != BadgeColor("par")
  {
  }

  /** `getBondStatusDescription(indicator)`. */
  function StatusDescription(indicator: string): (r: string)
    ensures r != "" <==> indicator == "premium" || indicator == "discount" || indicator == "par"
  {
    if indicator == "premium" then "Trading above face value"
    else if indicator == "discount" then "Trading below face value"
    else if indicator == "par" then "Trading at face value"
    else ""
  }

  /** Every indicator the backend can send has a badge colour of its own
      and a non-empty description. */
  lemma IndicatorsDescribed(p: PremiumDiscountIndicator)
    ensures StatusDescription(IndicatorName(p)) != ""
    ensures BadgeColor(IndicatorName(p)) != DefaultBadge
  {
  }

  /** The descriptions of the three indicators, as the results summary shows
      them. */
  lemma StatusDescriptions()
    ensures StatusDescription("premium") == "Trading above face value"
    ensures StatusDescription("discount") == "Trading below face value"
    ensures StatusDescription("par") == "Trading at face value"
  {
  }
}
