# Parking price calculator

A Dafny model of the pricing engine of the parking-finder web client
(`client/src/App.jsx`). Given a parking lot's stored `pricing_strategy` and
`pricing_rules`, a requested duration (`hours`, `minutes`) and a vehicle type,
`calculatePrice` computes a base price with one of four strategies, applies a
resident or disabled discount, rounds to cents and returns a four-field price
breakdown. The model also covers `normalizeLanguage`, which maps a locale tag
to a supported base language.

Modules:

- `Wrappers` (`wrappers.dfy`): `Option`, for fields that may be absent.
- `Rules` (`rules.dfy`): the lot and rule records; the lookup of the first
  `standard` or `special` rule (`rules.find(...) || {}`); JavaScript `||`
  defaulting, under which a stored 0 counts as absent; the daily cap, where a
  missing or 0 `max_daily_price` means no cap (`Infinity` in the source).
- `Strategies` (`strategies.dfy`): `hourly_blocks`, `minute_blocks`,
  `flat_daily` and `progressive`; the dispatch on `pricing_strategy` with its
  `hourly_blocks` fallback. `progressive` is a method with the source's loop,
  proved against the recursive specification `ProgressiveTotal`; the
  dispatch is a method proved against `BasePrice`.
- `Pricing` (`pricing.dfy`): the one-minute floor on the duration, the
  discount, rounding with `toFixed(2)`, and `calculatePrice` as the method
  `CalculatePrice`, proved against the specification `Quote`.
- `Language` (`language.dfy`): `normalizeLanguage`.

Every number the source handles (rule fields, hours, minutes, prices) is a
Dafny `real`, and `Math.ceil` is written out on reals. Stored rule fields are
`Option<real>`. A `pricing_rules` value that is absent or not an array is
`None`.

Behaviour of the code that the model keeps:

- A lot without pricing rules costs 0 under every strategy except
  `progressive`, whose first-hour price defaults to 10, so such a lot costs 10
  for the first hour (`Strategies.NoRulesBasePrice`).
- Inside the first block, `hourly_blocks` and `minute_blocks` charge the
  first-block price clamped to the daily maximum (`Strategies.BlockPrice`).
- Vehicle types are compared as exact strings. Only `telAvivResident` earns
  the resident discount, and only `disabled` earns the disabled discount
  (`Pricing.DiscountFor`).
- Rounding follows the definition of `toFixed`: the nearest multiple of 0.01,
  with a tie going to the larger magnitude (`Pricing.RoundCents`).

## Model

| member | source | states |
|---|---|---|
| `Rules.FindRule` | client/src/App.jsx:168-169 | the result is the first rule whose type equals the tag; if no rule has that tag, it is the empty rule `{}`. `Rules.RulesOf` supplies the list (`Array.isArray(...) ? ... : []`, lines 168 and 247: an absent or non-array value is `[]`), and `Rules.StandardRule` and `Rules.SpecialRule` are this lookup with the tags `standard` (line 169) and `special` (line 248) |
| `Rules.OrElse` | client/src/App.jsx:171-175 | JavaScript or-defaulting: the stored value when present and nonzero (`Rules.Truthy`), the fallback otherwise, so 0 counts as absent |
| `Rules.DailyCap` | client/src/App.jsx:175 | a cap exists exactly when `max_daily_price` is present and nonzero, and it is that value; otherwise the cap is Infinity |
| `Rules.CapAt` | client/src/App.jsx:185 | `Math.min(price, cap)`: never above the price or a present cap, and equal to one of them; equal to the price when there is no cap |
| `Strategies.Ceil` | client/src/App.jsx:181 | `Math.ceil`: the least integer not below x |
| `Strategies.BlockPrice` | client/src/App.jsx:171-185 | up to the first-block duration the price is the first-block price clamped to the cap, whatever the additional-block settings; a set nonzero daily maximum is never exceeded. The field defaults of lines 171-174 are `Strategies.FirstBlockDuration` (60), `Strategies.FirstBlockPrice` (0), `Strategies.AdditionalBlockDuration` (the strategy's fallback) and `Strategies.AdditionalBlockPrice` (0); `Strategies.UncappedBlockPrice` is the value of `price` after lines 177-183, before the `Math.min` of line 185 |
| `Strategies.HourlyBlocksPrice` | client/src/App.jsx:167-186 | `hourly_blocks` (additional blocks default to 60 minutes) never exceeds a set nonzero daily maximum |
| `Strategies.MinuteBlocksPrice` | client/src/App.jsx:189-208 | `minute_blocks` (additional blocks default to 15 minutes) never exceeds a set nonzero daily maximum |
| `Strategies.FlatDailyPrice` | client/src/App.jsx:211-215 | the daily maximum if set, else the first-block price if set, else 0 |
| `Strategies.HourFactor` | client/src/App.jsx:229 | `Math.max(0.5, 1 - 0.1 i)`: at least 0.5, at least `1 - 0.1 i`, and equal to one of the two |
| `Strategies.HoursCharged` | client/src/App.jsx:222 | the number of hours charged is the least whole number of hours covering the duration |
| `Strategies.ProgressivePrice` | client/src/App.jsx:218-234 | `progressive` never exceeds a set nonzero daily maximum; its first-hour price is `Strategies.FirstHourPrice`, the first-block price or-defaulted to 10 at line 223 |
| `Strategies.ComputeProgressivePrice` | client/src/App.jsx:222-233 | the `for` loop over hours 2..ceil(t/60), then the cap, yields exactly `ProgressivePrice`; the loop invariant ties `price` after hour i-1 to `Strategies.ProgressiveTotal`, the recursive specification of lines 226-231 (the first-hour price, plus the first-hour price times `HourFactor(i)` for each hour i from 2) |
| `Strategies.StrategyOf` | client/src/App.jsx:240-243 | the strategy is `minute_blocks`, `flat_daily` or `progressive` exactly when the stored name is that string; every other name, empty or absent, gives `hourly_blocks` |
| `Strategies.ComputeBasePrice` | client/src/App.jsx:243-244 | the dispatch yields exactly `Strategies.BasePrice`, the specification of lines 240-244: the price of the strategy `StrategyOf` picks, computed on the lot's standard rule |
| `Strategies.BlocksBilledInFull` | client/src/App.jsx:179-183 | beyond the first block with a positive block duration, n additional blocks are charged where (n-1)·duration < remaining ≤ n·duration and n ≥ 1, so a partial block is billed in full |
| `Strategies.BlockPriceMonotone` | client/src/App.jsx:177-185 | with a positive additional-block duration and non-negative additional-block price, a longer stay never costs less under the block strategies |
| `Strategies.MinuteBlocksIsHourlyWithQuarterHours` | client/src/App.jsx:189-208 | `minute_blocks` equals `hourly_blocks` on the rule with a missing or 0 additional duration filled in as 15; when that duration is set the two agree |
| `Strategies.HourlyBlocksSixtyOneMinutes` | client/src/App.jsx:177-185 | 60 minutes for 10 and 5 per started hour after that: 61 minutes cost 15 |
| `Strategies.FlatDailyIgnoresDuration` | client/src/App.jsx:211-215 | `flat_daily` gives the same price for any two durations |
| `Strategies.ProgressiveTotalBounds` | client/src/App.jsx:226-231 | with a non-negative first-hour price p, h hours cost between p + (h-1)·p/2 and h·p: every later hour adds at least half and at most all of p |
| `Strategies.ProgressiveTotalLongStay` | client/src/App.jsx:226-231 | from the fifth hour each hour adds half the first-hour price p, so from four hours on h hours cost exactly p·(1.1 + 0.5·h) |
| `Strategies.ProgressiveTotalMonotone` | client/src/App.jsx:226-231 | with a non-negative first-hour price, more hours never cost less |
| `Strategies.ProgressivePriceMonotone` | client/src/App.jsx:222-233 | with a non-negative first-hour price (default 10), `progressive` is non-decreasing in the duration, cap included |
| `Strategies.UnknownStrategyIsHourly` | client/src/App.jsx:240-243 | a lot whose strategy name is none of the three non-default ones is priced exactly as with `hourly_blocks` |
| `Strategies.FormOnlyStrategiesFallBack` | client/src/App.jsx:777-782 | the admin form's `time_of_day` and `event_based` are priced exactly as `hourly_blocks` |
| `Strategies.NoRulesBasePrice` | client/src/App.jsx:165-235 | without pricing rules every strategy but `progressive` gives 0; `progressive` charges its default 10 for the first hour and the discounted rate after it |
| `Pricing.TotalMinutes` | client/src/App.jsx:239 | the duration used is max(1, 60·hours + minutes): at least one minute, never below the request, and equal to one of the two |
| `Pricing.DiscountFor` | client/src/App.jsx:250-255 | `telAvivResident` with a nonzero resident discount gets that discount, `disabled` with a nonzero disabled discount gets that one; any nonzero discount comes from one of these two cases |
| `Pricing.Discounted` | client/src/App.jsx:257-259 | a zero or negative discount leaves the price unchanged; a positive one scales it by (1 - d) |
| `Pricing.NearestCents` | client/src/App.jsx:262-263 | the whole number of cents within half a cent of a non-negative amount, a tie going up |
| `Pricing.RoundCents` | client/src/App.jsx:262-263 | the result is a whole number of cents within half a cent of the price, a tie going away from zero |
| `Pricing.RoundCentsKeepsCents` | client/src/App.jsx:262-263 | an amount in whole cents is unchanged by rounding, so rounding twice equals rounding once |
| `Pricing.Quote` | client/src/App.jsx:238-267 | `dayPrice` equals `nightPrice`, and `singleEntrancePrice` and `resetTime` are always null |
| `Pricing.CalculatePrice` | client/src/App.jsx:238-267 | the step-by-step computation of the duration, base price, discount and rounding yields exactly `Quote` |
| `Pricing.ApplyDiscount` | client/src/App.jsx:247-259 | choosing `discount` and scaling `price` when it is positive yields exactly `Discounted(price, DiscountFor(...))` |
| `Pricing.DiscountsNeverStack` | client/src/App.jsx:250-259 | the discounted price is the price, or the price times one discount factor; a resident always gets the resident factor, even when a disabled discount is also set |
| `Pricing.ZeroResidentDiscountIsNone` | client/src/App.jsx:251-259 | a stored resident discount of 0 prices exactly as no resident discount, and leaves a resident's price unchanged |
| `Pricing.OtherVehiclesPayFull` | client/src/App.jsx:250-255 | any vehicle type other than the two exact strings pays the undiscounted price |
| `Pricing.UnknownStrategyQuotesAsHourly` | client/src/App.jsx:240-244 | with an unknown or missing strategy name, the whole breakdown equals the one for `hourly_blocks` |
| `Pricing.EmptyRequestIsOneMinute` | client/src/App.jsx:239 | every request of one minute or less, including zero and negative ones, is quoted as a one-minute request |
| `Pricing.ResidentNinetyMinutes` | client/src/App.jsx:238-267 | 60 min for 10, 2.5 per quarter hour, cap 60, 20% resident discount: 1h30 for `telAvivResident` gives 12 for day and night |
| `Pricing.StandardZeroDuration` | client/src/App.jsx:238-267 | on the same lot, 0h00 for a standard vehicle counts as one minute and gives 10 |
| `Pricing.DailyMaximumClamps` | client/src/App.jsx:175-185 | first block 10, then 100 per hour, cap 60: ten hours give 60 |
| `Language.BaseLanguage` | client/src/App.jsx:60 | the result is the prefix of the tag before its first `-`: a prefix without `-`, followed in the tag by `-` unless it is the whole tag |
| `Language.NormalizeLanguage` | client/src/App.jsx:58-74 | the result is always a supported language; an absent or empty tag gives `en`; a supported base language is returned as is; any result other than `en` is the tag's base language |
| `Language.SupportedAreTwoLetter` | client/src/App.jsx:61-72 | every supported language is a two-letter code, so the empty tag is not supported |
| `Language.BaseOfPlainTag` | client/src/App.jsx:60 | a tag without `-` is its own base language |
| `Language.NormalizeLanguageIdempotent` | client/src/App.jsx:58-73 | normalizing a normalized tag changes nothing |

## Left out

- Floating point: every amount is an exact real. The source's binary doubles (`i * 0.1`, `price * (1 - discount)`, the value `toFixed` rounds, and the double `Number(...)` parses back) can differ from the model in the last bits.
- `Pricing.RoundCents`: does not model `toFixed`'s switch to exponent notation for magnitudes of 10^21 and more, because no parking price reaches it.
- Prototype lookup: `pricingStrategies[strategy]` also finds inherited members such as `toString` or `constructor`, which the source would then call as a strategy. The model treats every name other than the four strategies as unknown and prices it as `hourly_blocks`.
- Non-numeric stored values (strings, booleans, NaN), a non-string `pricing_strategy`, a non-string language tag and `null` entries in `pricing_rules` (on which `find` would throw) are not modelled. Every field is a number or absent.
- The unused `vehicleType` argument of the strategy functions is dropped.
- `day` and `free_windows` rules, and rule fields no strategy reads (`minimum_price`, `single_entrance_price`, the `app_*` prices, `app_discount`, `custom_tags`), are kept only as a type tag or dropped. They never affect a price.
- The UI's clamping of the hour and minute inputs (client/src/App.jsx:972, 983) happens before `calculatePrice` and is not modelled. The model prices any real hours and minutes.
- `searchParkingLots` (filtering by `dayPrice <= maxPrice`, sorting by distance), `calculateDistance`, `calculateWalkingTime`, React state and rendering, `fetch` calls, admin form handling, and all server code are outside this model. They are I/O, UI and floating-point geometry.
