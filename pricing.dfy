/**
 * `calculatePrice` of client/src/App.jsx: clamp the duration, price it with
 * the lot's strategy, apply the resident or disabled discount of the lot's
 * `special` rule, and return the four-field price breakdown.
 */
module Pricing {
  import opened Wrappers
  import opened Rules
  import opened Strategies

  /** The value `calculatePrice` returns. */
  datatype PriceBreakdown = PriceBreakdown(
    dayPrice: real,
    nightPrice: real,
    singleEntrancePrice: Option<real>,
    resetTime: Option<string>)

  /** `Math.max(1, hours * 60 + minutes)`: a request is never shorter than one minute. */
  function TotalMinutes(hours: real, minutes: real): (total: real)
    ensures total >= 1.0
    ensures total >= hours * 60.0 + minutes
    ensures total == 1.0 || total == hours * 60.0 + minutes
  {
    if hours * 60.0 + minutes > 1.0 then hours * 60.0 + minutes else 1.0
  }

  /**
   * The discount a vehicle type gets from the lot's special rule: the resident
   * discount for `telAvivResident`, the disabled discount for `disabled`, and
   * nothing otherwise; a missing or 0 discount field gives 0.
   */
  function DiscountFor(special: Rule, vehicleType: string): (discount: real)
    ensures vehicleType == "telAvivResident" && Truthy(special.residentDiscount) ==>
      discount == special.residentDiscount.value
    ensures vehicleType == "disabled" && Truthy(special.disabledDiscount) ==>
      discount == special.disabledDiscount.value
    ensures discount != 0.0 ==>
      || (vehicleType == "telAvivResident" && special.residentDiscount == Some(discount))
      || (vehicleType == "disabled" && special.disabledDiscount == Some(discount))
  {
    if vehicleType == "telAvivResident" && Truthy(special.residentDiscount) then special.residentDiscount.value
    else if vehicleType == "disabled" && Truthy(special.disabledDiscount) then special.disabledDiscount.value
    else 0.0
  }

  /** `if (discount > 0) price *= (1 - discount)`: a zero or negative discount changes nothing. */
  function Discounted(price: real, discount: real): (r: real)
    ensures discount <= 0.0 ==> r == price
    ensures discount > 0.0 ==> r == price * (1.0 - discount)
  {
    if discount > 0.0 then price * (1.0 - discount) else price
  }

  /** The whole number of cents nearest to a non-negative amount, a tie going up. */
  function NearestCents(amount: real): (cents: int)
    requires amount >= 0.0
    ensures amount * 100.0 - 0.5 < cents as real <= amount * 100.0 + 0.5
  {
    (amount * 100.0 + 0.5).Floor
  }

  /**
   * `Number(price.toFixed(2))` on an exact value: the nearest multiple of
   * 0.01, a tie going away from zero (toFixed rounds the magnitude and keeps
   * the sign).
   */
  function RoundCents(price: real): (r: real)
    ensures (r * 100.0).Floor as real == r * 100.0
    ensures price >= 0.0 ==> price - 0.005 < r <= price + 0.005
    ensures price < 0.0 ==> price - 0.005 <= r < price + 0.005
  {
    var cents := if price < 0.0 then -NearestCents(-price) else NearestCents(price);
    assert (cents as real).Floor == cents;
    cents as real / 100.0
  }

  /** An amount already in whole cents is left as it is, so rounding twice is rounding once. */
  lemma RoundCentsKeepsCents(amount: real)
    requires (amount * 100.0).Floor as real == amount * 100.0
    ensures RoundCents(amount) == amount
    ensures RoundCents(RoundCents(amount)) == RoundCents(amount)
  {
    var n := (amount * 100.0).Floor;
    if amount < 0.0 {
      assert (-amount) * 100.0 + 0.5 == (-n) as real + 0.5;
      assert NearestCents(-amount) == -n;
    } else {
      assert amount * 100.0 + 0.5 == n as real + 0.5;
      assert NearestCents(amount) == n;
    }
  }

  /** `calculatePrice(lot, hours, minutes, vehicleType)`, as a specification. */
  function Quote(lot: Lot, hours: real, minutes: real, vehicleType: string): (b: PriceBreakdown)
    // No day/night distinction is made, and the two reserved fields stay null.
    ensures b.dayPrice == b.nightPrice
    ensures b.singleEntrancePrice == None && b.resetTime == None
  {
    var base := BasePrice(lot, TotalMinutes(hours, minutes));
    var price := RoundCents(Discounted(base, DiscountFor(SpecialRule(lot), vehicleType)));
    PriceBreakdown(price, price, None, None)
  }

  /** `calculatePrice`, updating `price` step by step as the source does. */
  method CalculatePrice(lot: Lot, hours: real, minutes: real, vehicleType: string) returns (b: PriceBreakdown)
    ensures b == Quote(lot, hours, minutes, vehicleType)
  {
    var totalMinutes := if 1.0 < hours * 60.0 + minutes then hours * 60.0 + minutes else 1.0;
    var price := ComputeBasePrice(lot, totalMinutes);
    price := ApplyDiscount(price, SpecialRule(lot), vehicleType);
    var rounded := RoundCents(price);
    b := PriceBreakdown(rounded, rounded, None, None);
  }

  /** The discount step of `calculatePrice`: pick `discount`, then scale `price` if it is positive. */
  method ApplyDiscount(price: real, specialRule: Rule, vehicleType: string) returns (discounted: real)
    ensures discounted == Discounted(price, DiscountFor(specialRule, vehicleType))
  {
    discounted := price;
    var discount := 0.0;
    if vehicleType == "telAvivResident" && Truthy(specialRule.residentDiscount) {
      discount := specialRule.residentDiscount.value;
    } else if vehicleType == "disabled" && Truthy(specialRule.disabledDiscount) {
      discount := specialRule.disabledDiscount.value;
    }
    if discount > 0.0 {
      discounted := discounted * (1.0 - discount);
    }
  }

  // ----- Properties of the discount -----

  /**
   * Discounts never stack: the price is multiplied by at most one factor, the
   * resident one winning when a resident's lot also has a disabled discount.
   */
  lemma DiscountsNeverStack(price: real, special: Rule, vehicleType: string)
    ensures var r := Discounted(price, DiscountFor(special, vehicleType));
            || r == price
            || (special.residentDiscount.Some? && r == price * (1.0 - special.residentDiscount.value))
            || (special.disabledDiscount.Some? && r == price * (1.0 - special.disabledDiscount.value))
    ensures vehicleType == "telAvivResident" ==>
      Discounted(price, DiscountFor(special, vehicleType))
      == Discounted(price, OrElse(special.residentDiscount, 0.0))
  {
  }

  /** A resident discount of 0 is the same as no resident discount, whatever the base price. */
  lemma ZeroResidentDiscountIsNone(price: real, special: Rule, vehicleType: string)
    ensures Discounted(price, DiscountFor(special.(residentDiscount := Some(0.0)), vehicleType))
         == Discounted(price, DiscountFor(special.(residentDiscount := None), vehicleType))
    ensures vehicleType == "telAvivResident" ==>
      Discounted(price, DiscountFor(special.(residentDiscount := Some(0.0)), vehicleType)) == price
  {
  }

  /** Only the exact strings `telAvivResident` and `disabled` can earn a discount. */
  lemma OtherVehiclesPayFull(price: real, special: Rule, vehicleType: string)
    requires vehicleType != "telAvivResident" && vehicleType != "disabled"
    ensures Discounted(price, DiscountFor(special, vehicleType)) == price
  {
  }

  // ----- Properties of the whole calculation -----

  /** An unknown or missing strategy name gives exactly the `hourly_blocks` breakdown. */
  lemma UnknownStrategyQuotesAsHourly(lot: Lot, hours: real, minutes: real, vehicleType: string)
    requires lot.pricingStrategy != Some("minute_blocks")
    requires lot.pricingStrategy != Some("flat_daily")
    requires lot.pricingStrategy != Some("progressive")
    ensures Quote(lot, hours, minutes, vehicleType)
         == Quote(lot.(pricingStrategy := Some("hourly_blocks")), hours, minutes, vehicleType)
  {
    UnknownStrategyIsHourly(lot, TotalMinutes(hours, minutes));
  }

  /** Requests of zero or negative length are priced as one minute. */
  lemma EmptyRequestIsOneMinute(lot: Lot, hours: real, minutes: real, vehicleType: string)
    requires hours * 60.0 + minutes <= 1.0
    ensures Quote(lot, hours, minutes, vehicleType) == Quote(lot, 0.0, 1.0, vehicleType)
  {
  }

  /** The lot of the worked examples: hourly blocks, 60 minutes for 10, then 2.5 per quarter hour, at most 60; residents get 20% off. */
  const ExampleLot := Lot(
    Some("hourly_blocks"),
    Some([
      Rule("standard", Some(60.0), Some(10.0), Some(15.0), Some(2.5), Some(60.0), None, None),
      Rule("special", None, None, None, None, None, Some(0.2), None)
    ]))

  /** 90 minutes for a resident: 10 + 2 quarter hours at 2.5 = 15, less 20%, is 12. */
  lemma ResidentNinetyMinutes()
    ensures Quote(ExampleLot, 1.0, 30.0, "telAvivResident") == PriceBreakdown(12.0, 12.0, None, None)
  {
    assert StandardRule(ExampleLot) == ExampleLot.pricingRules.value[0];
    assert SpecialRule(ExampleLot) == ExampleLot.pricingRules.value[1];
    assert Ceil(30.0 / 15.0) == 2;
    assert BasePrice(ExampleLot, 90.0) == 15.0;
    assert RoundCents(12.0) == 12.0;
  }

  /** Zero hours and zero minutes count as one minute, inside the first block: 10. */
  lemma StandardZeroDuration()
    ensures Quote(ExampleLot, 0.0, 0.0, "standard") == PriceBreakdown(10.0, 10.0, None, None)
  {
    assert StandardRule(ExampleLot) == ExampleLot.pricingRules.value[0];
    assert BasePrice(ExampleLot, 1.0) == 10.0;
    assert RoundCents(10.0) == 10.0;
  }

  /** Ten hours at 100 per extra hour far exceed the daily maximum of 60, which is charged instead. */
  lemma DailyMaximumClamps()
    ensures var lot := Lot(None, Some([Rule("standard", None, Some(10.0), Some(60.0), Some(100.0), Some(60.0), None, None)]));
            Quote(lot, 10.0, 0.0, "standard") == PriceBreakdown(60.0, 60.0, None, None)
  {
    var lot := Lot(None, Some([Rule("standard", None, Some(10.0), Some(60.0), Some(100.0), Some(60.0), None, None)]));
    assert StandardRule(lot) == lot.pricingRules.value[0];
    assert Ceil(540.0 / 60.0) == 9;
    assert BasePrice(lot, 600.0) == 60.0;
    assert RoundCents(60.0) == 60.0;
  }
}
