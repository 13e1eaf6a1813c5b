# Rental pricing and commission batch, modelled in Dafny

This project models the core of a car-rental batch job written in Ruby. The job prices every rental from its car's daily and per-kilometre rates. It splits each price into insurance, assistance and platform fees. It writes one ledger of five lines per rental: driver, owner, insurer, assistance and platform. The model covers four successive levels of the job:

- `Level1`: flat price, days × daily rate plus kilometres × rate per kilometre.
- `Level2` and `Pricing`: the `DISCOUNT_PER_DAY` ladder applied to the daily rate.
- `Fees` and `Level5`: the `Commission` split and the `ActorsFee` ledger.
- `Overlay` and `Level6`: rental modifications applied in place to the shared, cached `Rental` objects before each ledger is computed.

`Records` holds the shared pieces:

- the car and rental records;
- first-match lookup by id;
- `Duration` (`time_period_in_days`, end date minus start date, no `+1`);
- `CollectAll`, the `each_with_object` loop that every report is built with.

A `nil` dereference aborts the Ruby batch. The model turns it into a `Failure` naming the lookup that failed: `RentalNotFound` or `CarNotFound`.

Level 6 is imperative, as the source is:

- `Level6.Rental` is a class with the five attributes and the `@days` memo.
- `UpdateAttributes` loops over the updateable attributes, setting fields.
- `AdjustedRentalById` mutates the stored object in place.
- `DoTheJob` loops over the modifications and is proved equal to `Level6.Report`, a function of the rentals as loaded. This holds even though the objects are mutated over and over and the duration memo is filled part-way through.

Two behaviours of the code that its names do not suggest. The model follows the code in both:

- **Discount ladder.** Despite its name, `DISCOUNT_PER_DAY` divides the daily rate by the tier's percentage and multiplies the result by 100 (`backend/level2/main.rb:91-94`). For daily rates of at least 10, `Pricing.DiscountNeverLowersRate` proves the ladder never yields a lower rate. Below 10 it can lower it: a rate of 5 over 2 days becomes 0.
- **Modifications.** They update the cached `Rental` object in place (`backend/level6/main.rb:207-216`). A second modification of the same rental therefore replays every modification of that rental on the already adjusted object. `Overlay.OverlayIdempotent` proves that the replay changes nothing.

## Model

| member | source | states |
|---|---|---|
| Records.Duration | backend/level1/main.rb:77-79 | `time_period_in_days`: the end date lies the duration after the start date; the duration is 0 exactly for a same-day rental and non-negative exactly when the rental does not end before it starts |
| Records.FindCarIndex | backend/level1/main.rb:64-66 | `Car.find_by_id`: the index of a car with that id and no earlier one, or none when no car has it |
| Records.FindRentalIndex | backend/level1/main.rb:87-89 | `Rental.find_by_id`: the index of the first rental with that id, or none when no rental has it |
| Records.FindOwnId | backend/level2/main.rb:106-108 | looking up a stored rental's own id never gives `nil`, and finds it or an earlier rental with the same id |
| Records.FindRentalIndexByIds | backend/level6/main.rb:110-112 | the lookup depends on the ids alone, so stores that agree on ids answer alike |
| Records.CollectAll | backend/level1/main.rb:110-113 | `each_with_object` with a step that may raise: succeeds iff every step does, giving one result per item in order; otherwise fails with the error of an item whose whole prefix succeeded |
| Records.CollectAllFirstFailure | backend/level1/main.rb:110-113 | the batch aborts at the first failing item, with that item's error |
| Level1.Price | backend/level1/main.rb:94-103 | `RentalPricingService.price`: a missing rental or a missing car aborts; otherwise days × daily rate + distance × rate per km |
| Level1.Report | backend/level1/main.rb:108-113 | one `{id, price}` per stored rental in order, priced from the first rental with that id; fails exactly when some such rental's car is missing |
| Level1.DistanceStep | backend/level1/main.rb:100-102 | one more kilometre adds exactly the car's rate per kilometre |
| Level1.PriceNonNegative | backend/level1/main.rb:100-102 | non-negative rates, distance and duration give a non-negative price |
| Level1.SameDayCostsDistanceOnly | backend/level1/main.rb:77-79 | a rental ending on its start day lasts 0 days and costs its distance only |
| Pricing.PriceOf | backend/level2/main.rb:88-98 | `Rental#price` with its car lookup: fails with `CarNotFound` exactly when the car is missing; otherwise the price less the distance charge is days × the laddered rate, and up to one day it is the undiscounted price |
| Pricing.Price | backend/level2/main.rb:88-98 | the ladder loop that reassigns the daily rate gives days × `DiscountedRate` + distance × rate per km |
| Pricing.DiscountSteps | backend/level2/main.rb:72-94 | no tier up to 1 day; the 10% tier for 2–4 days; also the 30% tier for 5–10 days; all three from 11 days, each as `(rate / pct) * 100` |
| Pricing.DiscountedRateIsRound | backend/level2/main.rb:91-94 | beyond one day the rate is a multiple of 100 |
| Pricing.StepNeverLowers | backend/level2/main.rb:93 | one step with a percentage up to 50 never lowers a rate of at least that percentage |
| Pricing.DiscountNeverLowersRate | backend/level2/main.rb:72-94 | for daily rates of at least 10 the ladder never yields a lower rate, for any duration |
| Pricing.WorkedExample | backend/level2/main.rb:88-98 | 2000 per day and 10 per km, over 2 days and 100 km, give rate 20000 and price 41000 |
| Level2.RentalPrice | backend/level2/main.rb:88-98 | `Rental#price`: `CarNotFound` for a missing car, otherwise the discounted price of the rental's duration and distance |
| Level2.Report | backend/level2/main.rb:113-118 | one `{id, price}` per stored rental in order, each the discounted price of the first rental with that id; fails exactly when such a rental's car is missing |
| Level2.ShortRentalIsUndiscounted | backend/level2/main.rb:88-98 | up to one day, the level-2 price equals the level-1 flat price |
| Level2.SameDayCostsDistanceOnly | backend/level2/main.rb:84-86 | a same-day rental costs its distance only |
| Fees.CommissionOf | backend/level5/main.rb:122-136 | insurance is half the price rounded down, assistance 1 per day, the platform the rest; the three fees sum to the price; the deductible reduction is 4 per day |
| Fees.Amount | backend/level6/main.rb:189-204 | `ActorsFee.amount`: the driver pays the price plus the deductible reduction; the owner gets the price less the three fees; insurer and assistance get their fees; the platform gets its fee plus the deductible reduction (balanced by `Fees.LedgerBalances`) |
| Fees.Actions | backend/level5/main.rb:180-186 | five lines in `ACTORS` order, the driver's a debit and every other a credit, each carrying `ActorsFee.amount` |
| Fees.OwnerGetsNothing | backend/level5/main.rb:138-160 | the fees add up to the price, so the owner is credited 0 |
| Fees.LedgerBalances | backend/level5/main.rb:154-168 | the ledger is balanced: the driver's debit equals the four credits together; the driver pays price + 4 × days and the platform gets its fee + 4 × days |
| Fees.WorkedExample | backend/level5/main.rb:112-168 | price 41000 over 2 days splits 20500 / 2 / 20498 / 8, and the exact five ledger lines |
| Level5.EntryFor | backend/level5/main.rb:176-187 | the entry exists iff the rental is found and its car is; it carries the rental's id and the ledger `Actions` of the found rental's discounted price and duration, which is balanced |
| Level5.Report | backend/level5/main.rb:173-189 | one entry per stored rental in order with that rental's id and the ledger of the first rental with that id, priced by `PriceOf`; the ledger is balanced; fails exactly when some rental's car is missing |
| Overlay.Reject | backend/level6/main.rb:115 | the kept attributes are exactly those of the list other than the excluded one |
| Overlay.With | backend/level6/main.rb:118 | setting one attribute changes it and leaves every other attribute unchanged |
| Overlay.CopyAttributesGet | backend/level6/main.rb:116-120 | visiting distinct attributes sets each visited one for which the modification has a non-nil reader, and nothing else |
| Overlay.ApplyGet | backend/level6/main.rb:114-121 | after `update_attributes`, every attribute holds the modification's value if it supplies one, else its old value; `id` and `car_id` are never written |
| Overlay.ApplyFields | backend/level6/main.rb:114-121 | `update_attributes` replaces the dates and the distance by the modification's non-nil values and keeps `id` and `car_id` |
| Overlay.OverlayAll | backend/level6/main.rb:211-213 | applying modifications in turn never changes `id` or `car_id` |
| Overlay.FindByRentalId | backend/level6/main.rb:141-145 | `find_by_rental_id` keeps only that rental's modifications, and none when there are none |
| Overlay.FindByRentalIdKeeps | backend/level6/main.rb:141-145 | every modification of that rental is kept |
| Overlay.FindByRentalIdConcat | backend/level6/main.rb:141-145 | the filter keeps the listed order: filtering a concatenation concatenates the filtered parts |
| Overlay.OverlayAllLatest | backend/level6/main.rb:211-213 | after the overlay, each attribute holds the last value written to it, or its original value |
| Overlay.LatestNoWrite | backend/level6/main.rb:211-213 | with no modification writing an attribute, it keeps its original value |
| Overlay.LatestLastWriter | backend/level6/main.rb:211-213 | the value kept is the one from the last modification writing the attribute |
| Overlay.LatestIdempotent | backend/level6/main.rb:211-213 | replaying the writes over their own result changes nothing |
| Overlay.OverlayLastWriteWins | backend/level6/main.rb:207-215 | last write wins per attribute; unwritten attributes and `id`/`car_id` keep the rental's values |
| Overlay.OverlayIdempotent | backend/level6/main.rb:207-215 | re-applying a rental's modifications to the already adjusted object changes nothing |
| Overlay.NoModificationNoChange | backend/level6/main.rb:207-215 | a rental without modifications is left as loaded |
| Overlay.OtherRentalsIgnored | backend/level6/main.rb:207-215 | modifications of other rentals, wherever they are listed, do not affect a rental |
| Overlay.DistanceOnlyKeepsEarlierDates | backend/level6/main.rb:114-121 | a later modification giving only a distance keeps the dates of an earlier one |
| Level6.Rental.constructor | backend/level6/main.rb:104-107 | a loaded rental object holds the record's attributes and no memoised duration |
| Level6.Rental.TimePeriodInDays | backend/level6/main.rb:88-90 | `@days ||=`: the memo if set, else end minus start, which is then memoised; a fresh memo gives the current duration |
| Level6.Rental.SetAttribute | backend/level6/main.rb:118 | `send("#{key}=", v)` sets exactly that attribute |
| Level6.Rental.UpdateAttributes | backend/level6/main.rb:114-121 | leaves the object's attributes equal to `Apply` of the old ones over the updateable attributes (all but `id`); the memo is untouched |
| Level6.Rental.CopyEach | backend/level6/main.rb:116-120 | the `each` loop over a list of attributes leaves the attributes equal to `CopyAttributes` of the old ones |
| Level6.Rental.Price | backend/level6/main.rb:92-102 | `CarNotFound` for a missing car, memo untouched; otherwise the discounted price over the memoised duration, and the memo is then set to that duration; with a fresh memo, the price of the current attributes |
| Level6.AdjustedRentalById | backend/level6/main.rb:207-216 | finds the first stored object with the id and overlays all its modifications in place, memo untouched, every other object unchanged; `nil` when no rental has the id, failing on the first update if it has modifications |
| Level6.EffectiveRental | backend/level6/main.rb:207-216 | the adjusted rental exists iff a rental with that id is stored, and is that rental with its modifications applied |
| Level6.EntryFor | backend/level6/main.rb:233-245 | an entry carries the modification's id and rental id and a balanced ledger |
| Level6.Report | backend/level6/main.rb:228-247 | one entry per modification in order; fails exactly when a modification's rental or its car is missing |
| Level6.SameRentalSameActions | backend/level6/main.rb:230-245 | two modifications of the same rental get identical ledgers |
| Level6.EntryUsesAllModifications | backend/level6/main.rb:230-245 | each entry is priced from the rental with all of its modifications applied, not only those listed so far |
| Level6.TrackedIds | backend/level6/main.rb:110-112 | adjusted objects keep their ids, so lookups find the same object as on the loaded rentals |
| Level6.LedgerOf | backend/level6/main.rb:234-245 | with a fresh memo, the entry is the ledger of the object's current attributes; on success the memo holds the current duration, on failure it is untouched |
| Level6.EntryOf | backend/level6/main.rb:233-245 | one pass of the loop yields `EntryFor` on the loaded rentals; the object of the modification's rental is now `Adjusted` with a fresh memo, holding its duration on success; every other object is unchanged |
| Level6.DoTheJob | backend/level6/main.rb:228-247 | the in-place loop over freshly loaded objects returns exactly `Level6.Report` of the rentals as loaded |

## Left out

- Reading `data.json` (`JsonSource`, `Model#assign_params`) and writing `foobar.json`. Cars, rentals and modifications are parameters; reports are return values.
- `Date.parse` and `.round`: dates are whole day numbers, and a duration is their difference.
- The class-level `@all` caches. The loaded cars and rentals are the parameters. In level 6 the sequence of `Rental` objects plays the part of `Rental.all`.
- Levels 1, 2 and 5 never mutate a rental, so their rentals are values. Their `@days` memo cannot go stale and is not modelled.
- The `||=` memos on the `Commission` fee readers, and the repeated calls to `rental.price`: each is computed once per entry, which gives the same values because nothing changes in between.
- `Commission#to_h`: no report uses it.
- The output field names `amout` and `type` appear as `amount` and `kind`. The actor and line-type symbols are enumerations.
- Ruby's dynamic typing: every attribute is taken to be an integer; absent or `nil` modification fields are `None`.
- The exception a `nil` dereference raises is modelled as a `Failure` naming the missing lookup, not as Ruby's `NoMethodError`.
- Levels 3 and 4 are not part of this model.
- Level6.DoTheJob: requires distinct rental objects with no memoised duration, as a fresh `Rental.all` provides. It does not cover running the batch a second time over the same cached objects; there a memo filled before a modification could be stale.
- Level6.AdjustedRentalById: when no rental has the id and there are no modifications, the model returns the `nil` (`None`) the source returns. The `nil` dereference then happens in the caller.
