/** Level 1: `RentalPricingService.price` charges the car's daily rate for
    every day and its rate per kilometre, with no discount, and the report
    lists `{id, price}` for every rental. */
module Level1 {
  import opened Records

  /** `period_price + distance_price`. */
  function FlatPrice(car: Car, days: int, distance: int): int {
    days * car.pricePerDay + distance * car.pricePerKm
  }

  /** `RentalPricingService.price(rental_id)`: both lookups are dereferenced
      without a check, so a missing rental or car aborts. */
  function Price(cars: seq<Car>, rentals: seq<RentalRecord>, rentalId: int): (r: Result<int, Error>)
    ensures FindRental(rentals, rentalId).None? ==> r == Failure(RentalNotFound(rentalId))
    ensures FindRental(rentals, rentalId).Some? ==>
      var rental := FindRental(rentals, rentalId).value;
      && (FindCar(cars, rental.carId).None? ==> r == Failure(CarNotFound(rental.carId)))
      && (FindCar(cars, rental.carId).Some? ==>
            r == Success(FlatPrice(FindCar(cars, rental.carId).value, Duration(rental), rental.distance)))
  {
    match FindRental(rentals, rentalId)
    case None => Failure(RentalNotFound(rentalId))
    case Some(rental) =>
      match FindCar(cars, rental.carId)
      case None => Failure(CarNotFound(rental.carId))
      case Some(car) => Success(FlatPrice(car, Duration(rental), rental.distance))
  }

  function LineFor(cars: seq<Car>, rentals: seq<RentalRecord>, rental: RentalRecord): Result<PriceLine, Error> {
    match Price(cars, rentals, rental.id)
    case Failure(e) => Failure(e)
    case Success(p) => Success(PriceLine(rental.id, p))
  }

  /** `Main.do_the_job`: one line per rental in store order, or the failure
      of the first rental whose car is missing. */
  function Report(cars: seq<Car>, rentals: seq<RentalRecord>): (r: Result<seq<PriceLine>, Error>)
    ensures r.Success? <==>
      forall i :: 0 <= i < |rentals| ==> FindCar(cars, FindRental(rentals, rentals[i].id).value.carId).Some?
    ensures r.Success? ==> |r.value| == |rentals|
    ensures r.Success? ==> forall i :: 0 <= i < |rentals| ==>
      r.value[i].id == rentals[i].id && Success(r.value[i].price) == Price(cars, rentals, rentals[i].id)
  {
    forall i | 0 <= i < |rentals| ensures FindRental(rentals, rentals[i].id).Some? {
      FindOwnId(rentals, i);
    }
    CollectAll(rentals, (rental: RentalRecord) => LineFor(cars, rentals, rental))
  }

  /** One more kilometre costs exactly the car's rate per kilometre. */
  lemma DistanceStep(car: Car, days: int, distance: int)
    ensures FlatPrice(car, days, distance + 1) == FlatPrice(car, days, distance) + car.pricePerKm
  {
    assert (distance + 1) * car.pricePerKm == distance * car.pricePerKm + car.pricePerKm;
  }

  /** Non-negative rates, distance and duration give a non-negative price. */
  lemma PriceNonNegative(car: Car, rental: RentalRecord)
    requires car.pricePerDay >= 0 && car.pricePerKm >= 0
    requires rental.distance >= 0 && rental.startDate <= rental.endDate
    ensures FlatPrice(car, Duration(rental), rental.distance) >= 0
  {
    assert Duration(rental) * car.pricePerDay >= 0;
    assert rental.distance * car.pricePerKm >= 0;
  }

  /** A rental returned on the day it starts costs only its distance. */
  lemma SameDayCostsDistanceOnly(car: Car, rental: RentalRecord)
    requires rental.startDate == rental.endDate
    ensures Duration(rental) == 0
    ensures FlatPrice(car, Duration(rental), rental.distance) == rental.distance * car.pricePerKm
  {
  }
}
