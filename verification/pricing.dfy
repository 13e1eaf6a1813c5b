/** `Rental#price` of levels 2, 5 and 6: the daily rate goes through the
    `DISCOUNT_PER_DAY` ladder and is then charged per day, plus a charge per
    kilometre. Each qualifying tier divides the rate by the tier's percentage
    (integer division) and multiplies it by 100; tiers stack. */
module Pricing {
  import opened Records

  type Percent = p: int | 0 < p witness 10

  /** One entry of `DISCOUNT_PER_DAY`: a tier applies when the rental lasts
      strictly more than `threshold` days. */
  datatype Tier = Tier(threshold: int, percent: Percent)

  /** The ladder in the order the source's hash lists it. */
  const DISCOUNT_PER_DAY: seq<Tier> := [Tier(1, 10), Tier(4, 30), Tier(10, 50)]

  /** One pass of the loop body. */
  function Step(rate: int, days: int, tier: Tier): int {
    if days > tier.threshold then (rate / tier.percent) * 100 else rate
  }

  /** The rate after the tiers have been visited in order. */
  function Ladder(rate: int, days: int, tiers: seq<Tier>): int {
    if tiers == [] then rate
    else Step(Ladder(rate, days, tiers[..|tiers| - 1]), days, tiers[|tiers| - 1])
  }

  function DiscountedRate(pricePerDay: int, days: int): int {
    Ladder(pricePerDay, days, DISCOUNT_PER_DAY)
  }

  /** `period_price + distance_price` once the car is known. */
  function DiscountedPrice(car: Car, days: int, distance: int): int {
    days * DiscountedRate(car.pricePerDay, days) + distance * car.pricePerKm
  }

  /** `Rental#price` with its car lookup: a missing car makes the source
      dereference `nil`. */
  function PriceOf(cars: seq<Car>, rental: RentalRecord): (r: Result<int, Error>)
    ensures r.Failure? <==> FindCar(cars, rental.carId).None?
    ensures r.Failure? ==> r.error == CarNotFound(rental.carId)
    ensures r.Success? ==>
      var car := FindCar(cars, rental.carId).value;
      r.value - rental.distance * car.pricePerKm == Duration(rental) * DiscountedRate(car.pricePerDay, Duration(rental))
    ensures r.Success? && Duration(rental) <= 1 ==>
      var car := FindCar(cars, rental.carId).value;
      r.value == Duration(rental) * car.pricePerDay + rental.distance * car.pricePerKm
  {
    DiscountSteps(FindCar(cars, rental.carId).GetOr(Car(0, 0, 0)).pricePerDay, Duration(rental));
    match FindCar(cars, rental.carId)
    case None => Failure(CarNotFound(rental.carId))
    case Some(car) => Success(DiscountedPrice(car, Duration(rental), rental.distance))
  }

  /** The loop of `Rental#price`, reassigning the local daily rate. */
  method Price(car: Car, days: int, distance: int) returns (price: int)
    ensures price == days * DiscountedRate(car.pricePerDay, days) + distance * car.pricePerKm
  {
    var rate := car.pricePerDay;
    for i := 0 to |DISCOUNT_PER_DAY|
      invariant rate == Ladder(car.pricePerDay, days, DISCOUNT_PER_DAY[..i])
    {
      assert DISCOUNT_PER_DAY[..i + 1][..i] == DISCOUNT_PER_DAY[..i];
      var tier := DISCOUNT_PER_DAY[i];
      if days > tier.threshold {
        rate := (rate / tier.percent) * 100;
      }
    }
    assert DISCOUNT_PER_DAY[..|DISCOUNT_PER_DAY|] == DISCOUNT_PER_DAY;
    var periodPrice := days * rate;
    var distancePrice := distance * car.pricePerKm;
    price := periodPrice + distancePrice;
  }

  /** How many tiers apply, by duration: none up to 1 day, the 10% tier for
      2 to 4 days, also the 30% tier for 5 to 10 days, all three from 11 days. */
  lemma {:induction false} DiscountSteps(rate: int, days: int)
    ensures days <= 1 ==> DiscountedRate(rate, days) == rate
    ensures 1 < days <= 4 ==> DiscountedRate(rate, days) == (rate / 10) * 100
    ensures 4 < days <= 10 ==> DiscountedRate(rate, days) == (((rate / 10) * 100) / 30) * 100
    ensures 10 < days ==> DiscountedRate(rate, days) == (((((rate / 10) * 100) / 30) * 100) / 50) * 100
  {
    var t := DISCOUNT_PER_DAY;
    assert t[..3] == t;
    assert t[..3][..2] == t[..2];
    assert t[..2][..1] == t[..1];
    assert t[..1][..0] == [];
    assert Ladder(rate, days, t[..1]) == Step(rate, days, Tier(1, 10));
    assert Ladder(rate, days, t[..2]) == Step(Ladder(rate, days, t[..1]), days, Tier(4, 30));
  }

  /** Every qualifying step floors before multiplying by 100, so once one
      tier applies the rate is a whole multiple of 100. */
  lemma DiscountedRateIsRound(rate: int, days: int)
    requires days > 1
    ensures DiscountedRate(rate, days) % 100 == 0
  {
    DiscountSteps(rate, days);
    var r1 := (rate / 10) * 100;
    var r2 := (r1 / 30) * 100;
    if days <= 4 {
      HundredfoldIsRound(rate / 10);
    } else if days <= 10 {
      HundredfoldIsRound(r1 / 30);
    } else {
      HundredfoldIsRound(r2 / 50);
    }
  }

  lemma HundredfoldIsRound(q: int)
    ensures (q * 100) % 100 == 0
  {
  }

  /** A single step with a percentage of at most 50 never lowers a rate that
      is at least that percentage. */
  lemma StepNeverLowers(x: int, p: int)
    requires 0 < p <= 50 && x >= p
    ensures (x / p) * 100 >= x
    ensures (x / p) * 100 >= 100
  {
    var q := x / p;
    assert q >= 1;
    assert x < p * (q + 1);
    assert p * (q + 1) <= 100 * q by {
      assert p * (q + 1) == p * q + p;
      assert p * q <= 50 * q;
    }
  }

  /** Despite its name the ladder is a markup: for any daily rate of at
      least 10 it never yields a lower rate, whatever the duration. */
  lemma DiscountNeverLowersRate(rate: int, days: int)
    requires rate >= 10
    ensures DiscountedRate(rate, days) >= rate
  {
    DiscountSteps(rate, days);
    if days > 1 {
      var r1 := (rate / 10) * 100;
      StepNeverLowers(rate, 10);
      if days > 4 {
        var r2 := (r1 / 30) * 100;
        StepNeverLowers(r1, 30);
        if days > 10 {
          StepNeverLowers(r2, 50);
        }
      }
    }
  }

  /** A worked example: 2000 per day, 10 per km, 2 days and 100 km give a
      daily rate of 20000 and a price of 41000. */
  lemma WorkedExample()
    ensures DiscountedRate(2000, 2) == 20000
    ensures DiscountedPrice(Car(1, 2000, 10), 2, 100) == 41000
  {
    DiscountSteps(2000, 2);
  }
}
