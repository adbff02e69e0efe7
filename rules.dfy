/**
 * The parking-lot record as the pricing engine reads it, and the lookup of
 * its `standard` and `special` pricing rules (client/src/App.jsx).
 */
module Rules {
  import opened Wrappers

  /**
   * One entry of `lot.pricing_rules`. Every numeric field a rule may carry is
   * optional; `day` and `free_windows` rules carry other fields that no
   * strategy reads, so only their type tag is kept.
   */
  datatype Rule = Rule(
    ruleType: string,
    firstBlockDuration: Option<real>,
    firstBlockPrice: Option<real>,
    additionalBlockDuration: Option<real>,
    additionalBlockPrice: Option<real>,
    maxDailyPrice: Option<real>,
    residentDiscount: Option<real>,
    disabledDiscount: Option<real>)

  /** The `{}` used when no rule of the wanted type exists: it carries no field. */
  const EmptyRule := Rule("", None, None, None, None, None, None, None)

  /**
   * A parking lot as far as pricing is concerned. `pricingRules` is None when
   * the stored value is absent or is not an array.
   */
  datatype Lot = Lot(pricingStrategy: Option<string>, pricingRules: Option<seq<Rule>>)

  /** `Array.isArray(lot.pricing_rules) ? lot.pricing_rules : []` */
  function RulesOf(lot: Lot): seq<Rule>
  {
    if lot.pricingRules.Some? then lot.pricingRules.value else []
  }

  /** `rules.find(r => r.type === tag) || {}`: the first rule with that tag, else the empty rule. */
  function FindRule(rules: seq<Rule>, tag: string): (r: Rule)
    ensures forall i | 0 <= i < |rules| && rules[i].ruleType == tag &&
      (forall j :: 0 <= j < i ==> rules[j].ruleType != tag) :: r == rules[i]
    ensures (forall i :: 0 <= i < |rules| ==> rules[i].ruleType != tag) ==> r == EmptyRule
  {
    if |rules| == 0 then EmptyRule
    else if rules[0].ruleType == tag then rules[0]
    else FindRule(rules[1..], tag)
  }

  function StandardRule(lot: Lot): Rule
  {
    FindRule(RulesOf(lot), "standard")
  }

  function SpecialRule(lot: Lot): Rule
  {
    FindRule(RulesOf(lot), "special")
  }

  /** JavaScript truthiness of a stored number: present and not zero. */
  predicate Truthy(field: Option<real>)
  {
    field.Some? && field.value != 0.0
  }

  /** `field || fallback`: a stored 0 is treated exactly like an absent field. */
  function OrElse(field: Option<real>, fallback: real): (r: real)
    ensures Truthy(field) ==> r == field.value
    ensures !Truthy(field) ==> r == fallback
  {
    if Truthy(field) then field.value else fallback
  }

  /** `standardRule.max_daily_price || Infinity`: None stands for Infinity. */
  function DailyCap(standard: Rule): (cap: Option<real>)
    ensures cap.Some? <==> Truthy(standard.maxDailyPrice)
    ensures cap.Some? ==> cap == standard.maxDailyPrice
  {
    if Truthy(standard.maxDailyPrice) then standard.maxDailyPrice else None
  }

  /** `Math.min(price, cap)`, where an absent cap is Infinity. */
  function CapAt(price: real, cap: Option<real>): (r: real)
    ensures r <= price
    ensures cap.Some? ==> r <= cap.value && (r == price || r == cap.value)
    ensures cap.None? ==> r == price
  {
    if cap.Some? && cap.value < price then cap.value else price
  }
}
