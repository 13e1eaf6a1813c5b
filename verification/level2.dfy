/** Level 2: the price goes through the discount ladder of `Pricing`, and
    the report lists `{id, price}` for every rental. */
module Level2 {
  import opened Records
  import opened Pricing
  import Level1

  /** `Rental#price`: looks the car up, dereferences it unchecked, and runs
      the ladder loop over the rental's duration. */
  method RentalPrice(cars: seq<Car>, rental: RentalRecord) returns (r: Result<int, Error>)
    ensures FindCar(cars, rental.carId).None? ==> r == Failure(CarNotFound(rental.carId))
    ensures FindCar(cars, rental.carId).Some? ==>
      var car := FindCar(cars, rental.carId).value;
      r == Success(Duration(rental) * DiscountedRate(car.pricePerDay, Duration(rental)) + rental.distance * car.pricePerKm)
  {
    var car := FindCar(cars, rental.carId);
    if car.None? {
      return Failure(CarNotFound(rental.carId));
    }
    var price := Price(car.value, Duration(rental), rental.distance);
    r := Success(price);
  }

  /** `{ id: rental.id, price: Rental.find_by_id(rental.id).price }`. */
  function LineFor(cars: seq<Car>, rentals: seq<RentalRecord>, rental: RentalRecord): Result<PriceLine, Error> {
    match FindRental(rentals, rental.id)
    case None => Failure(RentalNotFound(rental.id))
    case Some(found) =>
      match PriceOf(cars, found)
      case Failure(e) => Failure(e)
      case Success(p) => Success(PriceLine(rental.id, p))
  }

  /** `Main.do_the_job`: one line per rental in store order, priced from the
      first stored rental with that id; fails only on a missing car. */
  function Report(cars: seq<Car>, rentals: seq<RentalRecord>): (r: Result<seq<PriceLine>, Error>)
    ensures r.Success? <==>
      forall i :: 0 <= i < |rentals| ==> FindCar(cars, FindRental(rentals, rentals[i].id).value.carId).Some?
    ensures r.Success? ==> |r.value| == |rentals|
    ensures r.Success? ==> forall i :: 0 <= i < |rentals| ==>
      r.value[i].id == rentals[i].id && Success(r.value[i].price) == PriceOf(cars, FindRental(rentals, rentals[i].id).value)
  {
    forall i | 0 <= i < |rentals| ensures FindRental(rentals, rentals[i].id).Some? {
      FindOwnId(rentals, i);
    }
    CollectAll(rentals, (rental: RentalRecord) => LineFor(cars, rentals, rental))
  }

  /** Up to one day no tier applies, so the level-2 price is the undiscounted
      level-1 price. */
  lemma ShortRentalIsUndiscounted(car: Car, days: int, distance: int)
    requires days <= 1
    ensures DiscountedPrice(car, days, distance) == Level1.FlatPrice(car, days, distance)
  {
    DiscountSteps(car.pricePerDay, days);
  }

  /** A rental returned on the day it starts has no period price. */
  lemma SameDayCostsDistanceOnly(car: Car, rental: RentalRecord)
    requires rental.startDate == rental.endDate
    ensures DiscountedPrice(car, Duration(rental), rental.distance) == rental.distance * car.pricePerKm
  {
  }
}
