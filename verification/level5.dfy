/** Level 5: for every rental, the five actors' ledger lines. */
module Level5 {
  import opened Records
  import opened Pricing
  import opened Fees

  /** One `{id, actions}` record of the report. */
  datatype RentalEntry = RentalEntry(id: int, actions: seq<Action>)

  /** The body of the report loop for one stored rental: look it up again by
      id, price it and split the price. */
  function EntryFor(cars: seq<Car>, rentals: seq<RentalRecord>, rental: RentalRecord): (r: Result<RentalEntry, Error>)
    ensures r.Success? <==>
      FindRental(rentals, rental.id).Some? && PriceOf(cars, FindRental(rentals, rental.id).value).Success?
    ensures r.Success? ==>
      var found := FindRental(rentals, rental.id).value;
      var price := PriceOf(cars, found).value;
      && r.value.id == rental.id
      && Balanced(r.value.actions)
      && r.value.actions == Actions(price, CommissionOf(price, Duration(found)))
  {
    match FindRental(rentals, rental.id)
    case None => Failure(RentalNotFound(rental.id))
    case Some(found) =>
      match PriceOf(cars, found)
      case Failure(e) => Failure(e)
      case Success(price) =>
        LedgerBalances(price, Duration(found));
        Success(RentalEntry(found.id, Actions(price, CommissionOf(price, Duration(found)))))
  }

  /** `Main.do_the_job`: one entry per rental in store order, each holding
      the five actors' lines in `ACTORS` order with the driver alone debited
      and the driver's debit equal to the four credits together. */
  function Report(cars: seq<Car>, rentals: seq<RentalRecord>): (r: Result<seq<RentalEntry>, Error>)
    ensures r.Success? <==>
      forall i :: 0 <= i < |rentals| ==> FindCar(cars, FindRental(rentals, rentals[i].id).value.carId).Some?
    ensures r.Success? ==> |r.value| == |rentals|
    ensures r.Success? ==> forall i :: 0 <= i < |rentals| ==>
      r.value[i].id == rentals[i].id && Balanced(r.value[i].actions)
    ensures r.Success? ==> forall i :: 0 <= i < |rentals| ==>
      var found := FindRental(rentals, rentals[i].id).value;
      var price := PriceOf(cars, found).value;
      r.value[i].actions == Actions(price, CommissionOf(price, Duration(found)))
  {
    forall i | 0 <= i < |rentals| ensures FindRental(rentals, rentals[i].id).Some? {
      FindOwnId(rentals, i);
    }
    CollectAll(rentals, (rental: RentalRecord) => EntryFor(cars, rentals, rental))
  }
}
