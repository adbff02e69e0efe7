/**
 * The `pricingStrategies` table of client/src/App.jsx: four ways of turning
 * the lot's standard rule and a parking duration in minutes into a base price
 * (before any discount), and the dispatch on `lot.pricing_strategy`.
 */
module Strategies {
  import opened Wrappers
  import opened Rules

  /** `Math.ceil(x)`. */
  function Ceil(x: real): (n: int)
    ensures (n - 1) as real < x <= n as real
  {
    -((-x).Floor)
  }

  // Field defaults of the block strategies, with JavaScript `||` semantics.

  function FirstBlockDuration(standard: Rule): real
  {
    OrElse(standard.firstBlockDuration, 60.0)
  }

  function FirstBlockPrice(standard: Rule): real
  {
    OrElse(standard.firstBlockPrice, 0.0)
  }

  function AdditionalBlockDuration(standard: Rule, fallback: real): real
  {
    OrElse(standard.additionalBlockDuration, fallback)
  }

  function AdditionalBlockPrice(standard: Rule): real
  {
    OrElse(standard.additionalBlockPrice, 0.0)
  }

  /** The block price before the daily cap: the `price` of the source just before `Math.min`. */
  function UncappedBlockPrice(standard: Rule, totalMinutes: real, fallback: real): real
    requires fallback > 0.0
  {
    if totalMinutes > FirstBlockDuration(standard) then
      FirstBlockPrice(standard)
      + Ceil((totalMinutes - FirstBlockDuration(standard)) / AdditionalBlockDuration(standard, fallback)) as real
        * AdditionalBlockPrice(standard)
    else
      FirstBlockPrice(standard)
  }

  /**
   * The shared algorithm of `hourly_blocks` and `minute_blocks`: the first
   * block's price, plus one additional-block price for every started
   * additional block, clamped to the daily maximum. The two strategies differ
   * only in `fallback`, the default additional-block duration.
   */
  function BlockPrice(standard: Rule, totalMinutes: real, fallback: real): (price: real)
    requires fallback > 0.0
    // Inside the first block nothing but the first block is charged.
    ensures totalMinutes <= FirstBlockDuration(standard) ==>
      price == CapAt(FirstBlockPrice(standard), DailyCap(standard))
    // A set, nonzero daily maximum is never exceeded.
    ensures Truthy(standard.maxDailyPrice) ==> price <= standard.maxDailyPrice.value
  {
    CapAt(UncappedBlockPrice(standard, totalMinutes, fallback), DailyCap(standard))
  }

  /** Strategy `hourly_blocks`: additional blocks default to 60 minutes. */
  function HourlyBlocksPrice(standard: Rule, totalMinutes: real): (price: real)
    ensures Truthy(standard.maxDailyPrice) ==> price <= standard.maxDailyPrice.value
  {
    BlockPrice(standard, totalMinutes, 60.0)
  }

  /** Strategy `minute_blocks`: additional blocks default to 15 minutes. */
  function MinuteBlocksPrice(standard: Rule, totalMinutes: real): (price: real)
    ensures Truthy(standard.maxDailyPrice) ==> price <= standard.maxDailyPrice.value
  {
    BlockPrice(standard, totalMinutes, 15.0)
  }

  /** Strategy `flat_daily`: `max_daily_price || first_block_price || 0`, whatever the duration. */
  function FlatDailyPrice(standard: Rule, totalMinutes: real): (price: real)
    ensures Truthy(standard.maxDailyPrice) ==> price == standard.maxDailyPrice.value
    ensures !Truthy(standard.maxDailyPrice) && Truthy(standard.firstBlockPrice) ==>
      price == standard.firstBlockPrice.value
    ensures !Truthy(standard.maxDailyPrice) && !Truthy(standard.firstBlockPrice) ==> price == 0.0
  {
    OrElse(standard.maxDailyPrice, OrElse(standard.firstBlockPrice, 0.0))
  }

  /** `Math.max(0.5, 1 - i * 0.1)`: hour i costs 10% less per hour, but never less than half. */
  function HourFactor(i: int): (factor: real)
    ensures factor >= 0.5
    ensures factor >= 1.0 - i as real * 0.1
    ensures factor == 0.5 || factor == 1.0 - i as real * 0.1
  {
    if 1.0 - i as real * 0.1 > 0.5 then 1.0 - i as real * 0.1 else 0.5
  }

  /**
   * The value of `price` once the `progressive` loop has run for hours
   * 2..hours: the first hour at full price, each later hour at its factor.
   */
  function ProgressiveTotal(firstHourPrice: real, hours: int): real
    decreases hours
  {
    if hours <= 1 then firstHourPrice
    else ProgressiveTotal(firstHourPrice, hours - 1) + firstHourPrice * HourFactor(hours)
  }

  /** `standardRule.first_block_price || 10`: progressive's own default. */
  function FirstHourPrice(standard: Rule): real
  {
    OrElse(standard.firstBlockPrice, 10.0)
  }

  /** `Math.ceil(totalMinutes / 60)`: every started hour is charged. */
  function HoursCharged(totalMinutes: real): (hours: int)
    ensures (hours - 1) as real * 60.0 < totalMinutes <= hours as real * 60.0
  {
    Ceil(totalMinutes / 60.0)
  }

  /** Strategy `progressive`, as a specification. */
  function ProgressivePrice(standard: Rule, totalMinutes: real): (price: real)
    ensures Truthy(standard.maxDailyPrice) ==> price <= standard.maxDailyPrice.value
  {
    CapAt(ProgressiveTotal(FirstHourPrice(standard), HoursCharged(totalMinutes)), DailyCap(standard))
  }

  /** Strategy `progressive`, as the loop the source runs. */
  method ComputeProgressivePrice(standard: Rule, totalMinutes: real) returns (price: real)
    ensures price == ProgressivePrice(standard, totalMinutes)
  {
    var hours := Ceil(totalMinutes / 60.0);
    var firstHourPrice := OrElse(standard.firstBlockPrice, 10.0);
    price := firstHourPrice;
    var i := 2;
    while i <= hours
      invariant 2 <= i
      invariant i <= hours + 1 || i == 2
      invariant price == ProgressiveTotal(firstHourPrice, i - 1)
    {
      var discountFactor := if 0.5 < 1.0 - i as real * 0.1 then 1.0 - i as real * 0.1 else 0.5;
      price := price + firstHourPrice * discountFactor;
      i := i + 1;
    }
    var cap := DailyCap(standard);
    if cap.Some? && cap.value < price {
      price := cap.value;
    }
  }

  /** The four entries of the `pricingStrategies` table. */
  datatype Strategy = HourlyBlocks | MinuteBlocks | FlatDaily | Progressive

  /**
   * `lot.pricing_strategy || 'hourly_blocks'`, then the table lookup with
   * its `|| pricingStrategies.hourly_blocks` fallback.
   */
  function StrategyOf(name: Option<string>): (s: Strategy)
    ensures s == MinuteBlocks <==> name == Some("minute_blocks")
    ensures s == FlatDaily <==> name == Some("flat_daily")
    ensures s == Progressive <==> name == Some("progressive")
    ensures s == HourlyBlocks <==>
      name != Some("minute_blocks") && name != Some("flat_daily") && name != Some("progressive")
  {
    var strategy := if name.Some? && name.value != "" then name.value else "hourly_blocks";
    if strategy == "minute_blocks" then MinuteBlocks
    else if strategy == "flat_daily" then FlatDaily
    else if strategy == "progressive" then Progressive
    else HourlyBlocks
  }

  /** The base price of a lot for a duration, before discounts (the specification). */
  function BasePrice(lot: Lot, totalMinutes: real): real
  {
    var standard := StandardRule(lot);
    match StrategyOf(lot.pricingStrategy)
    case HourlyBlocks => HourlyBlocksPrice(standard, totalMinutes)
    case MinuteBlocks => MinuteBlocksPrice(standard, totalMinutes)
    case FlatDaily => FlatDailyPrice(standard, totalMinutes)
    case Progressive => ProgressivePrice(standard, totalMinutes)
  }

  /** `pricingFunction(lot, totalMinutes, vehicleType)`: the dispatch itself. */
  method ComputeBasePrice(lot: Lot, totalMinutes: real) returns (price: real)
    ensures price == BasePrice(lot, totalMinutes)
  {
    var standard := StandardRule(lot);
    match StrategyOf(lot.pricingStrategy)
    case HourlyBlocks => price := HourlyBlocksPrice(standard, totalMinutes);
    case MinuteBlocks => price := MinuteBlocksPrice(standard, totalMinutes);
    case FlatDaily => price := FlatDailyPrice(standard, totalMinutes);
    case Progressive => price := ComputeProgressivePrice(standard, totalMinutes);
  }

  // ----- Properties of the block strategies -----

  /** Bounds on a quotient scale back to the dividend when the divisor is positive. */
  lemma ScaleBounds(x: real, d: real, n: int)
    requires d > 0.0
    requires (n - 1) as real < x / d <= n as real
    ensures (n - 1) as real * d < x <= n as real * d
  {
    assert x == (x / d) * d;
  }

  /**
   * Beyond the first block, the number of additional blocks charged is the
   * number of additional-block durations needed to cover the remaining
   * minutes: a partially used block is billed in full.
   */
  lemma BlocksBilledInFull(standard: Rule, totalMinutes: real, fallback: real)
    requires fallback > 0.0
    requires totalMinutes > FirstBlockDuration(standard)
    requires AdditionalBlockDuration(standard, fallback) > 0.0
    ensures var remaining := totalMinutes - FirstBlockDuration(standard);
            var blocks := Ceil(remaining / AdditionalBlockDuration(standard, fallback));
            && blocks >= 1
            && (blocks - 1) as real * AdditionalBlockDuration(standard, fallback) < remaining
            && remaining <= blocks as real * AdditionalBlockDuration(standard, fallback)
            && BlockPrice(standard, totalMinutes, fallback)
               == CapAt(FirstBlockPrice(standard) + blocks as real * AdditionalBlockPrice(standard), DailyCap(standard))
  {
    var remaining := totalMinutes - FirstBlockDuration(standard);
    var duration := AdditionalBlockDuration(standard, fallback);
    var blocks := Ceil(remaining / duration);
    ScaleBounds(remaining, duration, blocks);
    assert remaining / duration > 0.0;
  }

  /** `Math.ceil` never decreases. */
  lemma CeilMonotone(x: real, y: real)
    requires x <= y
    ensures Ceil(x) <= Ceil(y)
  {
  }

  /**
   * With positive block durations and non-negative block prices, parking
   * longer never costs less under the block strategies.
   */
  lemma BlockPriceMonotone(standard: Rule, t1: real, t2: real, fallback: real)
    requires fallback > 0.0
    requires AdditionalBlockDuration(standard, fallback) > 0.0
    requires AdditionalBlockPrice(standard) >= 0.0
    requires t1 <= t2
    ensures BlockPrice(standard, t1, fallback) <= BlockPrice(standard, t2, fallback)
  {
    var first := FirstBlockDuration(standard);
    var duration := AdditionalBlockDuration(standard, fallback);
    var price := AdditionalBlockPrice(standard);
    var u1 := UncappedBlockPrice(standard, t1, fallback);
    var u2 := UncappedBlockPrice(standard, t2, fallback);
    if t2 <= first {
      assert u1 == FirstBlockPrice(standard) == u2;
    } else {
      var n2 := Ceil((t2 - first) / duration);
      assert (t2 - first) / duration > 0.0;
      assert u2 == FirstBlockPrice(standard) + n2 as real * price;
      NonNegativeProduct(n2 as real, price);
      if t1 <= first {
        assert u1 == FirstBlockPrice(standard);
        assert u1 <= u2;
      } else {
        var n1 := Ceil((t1 - first) / duration);
        assert u1 == FirstBlockPrice(standard) + n1 as real * price;
        QuotientMonotone(t1 - first, t2 - first, duration);
        CeilMonotone((t1 - first) / duration, (t2 - first) / duration);
        ProductMonotone(n1 as real, n2 as real, price);
        assert u1 <= u2;
      }
    }
    CapAtMonotone(u1, u2, DailyCap(standard));
  }

  lemma NonNegativeProduct(a: real, b: real)
    requires a >= 0.0 && b >= 0.0
    ensures a * b >= 0.0
  {
  }

  lemma ProductMonotone(a: real, b: real, c: real)
    requires a <= b && c >= 0.0
    ensures a * c <= b * c
  {
    NonNegativeProduct(b - a, c);
  }

  lemma QuotientMonotone(x: real, y: real, d: real)
    requires x <= y && d > 0.0
    ensures x / d <= y / d
  {
    assert y / d - x / d == (y - x) / d;
  }

  lemma CapAtMonotone(p1: real, p2: real, cap: Option<real>)
    requires p1 <= p2
    ensures CapAt(p1, cap) <= CapAt(p2, cap)
  {
  }

  /**
   * `minute_blocks` is `hourly_blocks` on the same rule with a missing (or 0)
   * additional-block duration filled in as 15 minutes; when the rule sets
   * that duration the two strategies agree.
   */
  lemma MinuteBlocksIsHourlyWithQuarterHours(standard: Rule, totalMinutes: real)
    ensures MinuteBlocksPrice(standard, totalMinutes)
         == HourlyBlocksPrice(standard.(additionalBlockDuration := Some(AdditionalBlockDuration(standard, 15.0))), totalMinutes)
    ensures Truthy(standard.additionalBlockDuration) ==>
      MinuteBlocksPrice(standard, totalMinutes) == HourlyBlocksPrice(standard, totalMinutes)
  {
    var quarter := standard.(additionalBlockDuration := Some(AdditionalBlockDuration(standard, 15.0)));
    BlockPriceReadsOnlyTerms(standard, quarter, totalMinutes, 15.0, 60.0);
    if Truthy(standard.additionalBlockDuration) {
      BlockPriceReadsOnlyTerms(standard, standard, totalMinutes, 15.0, 60.0);
    }
  }

  /** The block price depends on the rule only through its defaulted fields. */
  lemma BlockPriceReadsOnlyTerms(r1: Rule, r2: Rule, totalMinutes: real, f1: real, f2: real)
    requires f1 > 0.0 && f2 > 0.0
    requires FirstBlockDuration(r1) == FirstBlockDuration(r2)
    requires FirstBlockPrice(r1) == FirstBlockPrice(r2)
    requires AdditionalBlockDuration(r1, f1) == AdditionalBlockDuration(r2, f2)
    requires AdditionalBlockPrice(r1) == AdditionalBlockPrice(r2)
    requires DailyCap(r1) == DailyCap(r2)
    ensures BlockPrice(r1, totalMinutes, f1) == BlockPrice(r2, totalMinutes, f2)
  {
  }

  /** 60 minutes for 10, then 5 per started hour: 61 minutes cost 15. */
  lemma HourlyBlocksSixtyOneMinutes()
    ensures HourlyBlocksPrice(Rule("standard", Some(60.0), Some(10.0), Some(60.0), Some(5.0), None, None, None), 61.0)
         == 15.0
  {
    assert Ceil(1.0 / 60.0) == 1;
  }

  /** `flat_daily` does not depend on the duration. */
  lemma FlatDailyIgnoresDuration(standard: Rule, t1: real, t2: real)
    ensures FlatDailyPrice(standard, t1) == FlatDailyPrice(standard, t2)
  {
  }

  // ----- Properties of the progressive strategy -----

  /**
   * With a non-negative first-hour price, every hour after the first adds
   * between half the first-hour price and the first-hour price, so the total
   * lies between those two linear bounds.
   */
  lemma {:induction false} ProgressiveTotalBounds(first: real, hours: int)
    requires first >= 0.0
    requires hours >= 1
    ensures first + (hours - 1) as real * (first * 0.5) <= ProgressiveTotal(first, hours)
    ensures ProgressiveTotal(first, hours) <= hours as real * first
  {
    if hours > 1 {
      ProgressiveTotalBounds(first, hours - 1);
      var f := HourFactor(hours);
      assert 0.5 <= f <= 1.0;
      assert first * 0.5 <= first * f <= first;
      assert (hours - 1) as real * (first * 0.5) == (hours - 2) as real * (first * 0.5) + first * 0.5;
      assert hours as real * first == (hours - 1) as real * first + first;
    }
  }

  /**
   * From the fifth hour each hour adds half the first-hour price, so from
   * four hours on the total has a closed form.
   */
  lemma {:induction false} ProgressiveTotalLongStay(first: real, hours: int)
    requires hours >= 4
    ensures ProgressiveTotal(first, hours) == first * (1.1 + 0.5 * hours as real)
  {
    if hours == 4 {
      assert ProgressiveTotal(first, 2) == first + first * 0.8;
      assert ProgressiveTotal(first, 3) == first + first * 0.8 + first * 0.7;
      assert ProgressiveTotal(first, 4) == first + first * 0.8 + first * 0.7 + first * 0.6;
    } else {
      ProgressiveTotalLongStay(first, hours - 1);
      assert HourFactor(hours) == 0.5;
    }
  }

  /** With a non-negative first-hour price, charging more hours never costs less. */
  lemma {:induction false} ProgressiveTotalMonotone(first: real, h1: int, h2: int)
    requires first >= 0.0
    requires h1 <= h2
    ensures ProgressiveTotal(first, h1) <= ProgressiveTotal(first, h2)
    decreases h2 - h1
  {
    if h1 < h2 {
      ProgressiveTotalMonotone(first, h1, h2 - 1);
      if h2 > 1 {
        assert first * HourFactor(h2) >= 0.0;
      }
    }
  }

  /**
   * `progressive` is non-decreasing in the duration when the first-hour price
   * is not negative (a stored negative `first_block_price` makes it decrease).
   */
  lemma ProgressivePriceMonotone(standard: Rule, t1: real, t2: real)
    requires FirstHourPrice(standard) >= 0.0
    requires t1 <= t2
    ensures ProgressivePrice(standard, t1) <= ProgressivePrice(standard, t2)
  {
    CeilMonotone(t1 / 60.0, t2 / 60.0);
    ProgressiveTotalMonotone(FirstHourPrice(standard), HoursCharged(t1), HoursCharged(t2));
  }

  // ----- Properties of the dispatch -----

  /** Any strategy name other than the three non-default ones is priced as `hourly_blocks`. */
  lemma UnknownStrategyIsHourly(lot: Lot, totalMinutes: real)
    requires lot.pricingStrategy != Some("minute_blocks")
    requires lot.pricingStrategy != Some("flat_daily")
    requires lot.pricingStrategy != Some("progressive")
    ensures BasePrice(lot, totalMinutes) == HourlyBlocksPrice(StandardRule(lot), totalMinutes)
    ensures BasePrice(lot, totalMinutes) == BasePrice(lot.(pricingStrategy := Some("hourly_blocks")), totalMinutes)
  {
  }

  /**
   * The admin form also offers `time_of_day` and `event_based`; neither is in
   * the table, so both price exactly like `hourly_blocks`.
   */
  lemma FormOnlyStrategiesFallBack(lot: Lot, totalMinutes: real)
    ensures BasePrice(lot.(pricingStrategy := Some("time_of_day")), totalMinutes)
         == HourlyBlocksPrice(StandardRule(lot), totalMinutes)
    ensures BasePrice(lot.(pricingStrategy := Some("event_based")), totalMinutes)
         == HourlyBlocksPrice(StandardRule(lot), totalMinutes)
  {
  }

  /**
   * A lot with no usable pricing rules is free under every strategy except
   * `progressive`, whose first hour then defaults to 10.
   */
  lemma NoRulesBasePrice(lot: Lot, totalMinutes: real)
    requires RulesOf(lot) == []
    ensures StrategyOf(lot.pricingStrategy) != Progressive ==> BasePrice(lot, totalMinutes) == 0.0
    ensures StrategyOf(lot.pricingStrategy) == Progressive ==>
      BasePrice(lot, totalMinutes) == ProgressiveTotal(10.0, HoursCharged(totalMinutes))
  {
  }
}
