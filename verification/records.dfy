/** The record store shared by every level of the batch job: cars and rentals
    as values, first-match lookup by id, and the "collect or abort" iteration
    that every report is built with. Dates are whole day numbers. */
module Records {

  datatype Option<T> = None | Some(value: T) {
    function GetOr(default: T): T {
      match this
      case Some(v) => v
      case None => default
    }
  }

  datatype Result<T, E> = Success(value: T) | Failure(error: E)

  /** Dereferencing a `nil` returned by a lookup raises in the source and
      aborts the whole batch; the model reports which lookup failed. */
  datatype Error = RentalNotFound(rentalId: int) | CarNotFound(carId: int)

  /** Prices are integers in minor currency units. */
  datatype Car = Car(id: int, pricePerDay: int, pricePerKm: int)

  /** A rental as loaded; `startDate` and `endDate` are day numbers. */
  datatype RentalRecord = RentalRecord(id: int, carId: int, startDate: int, endDate: int, distance: int)

  /** `time_period_in_days`: the difference of the two dates in whole days,
      without adding one, so a same-day rental lasts 0 days. */
  function Duration(r: RentalRecord): (d: int)
    ensures r.startDate + d == r.endDate
    ensures d == 0 <==> r.startDate == r.endDate
    ensures d >= 0 <==> r.startDate <= r.endDate
  {
    r.endDate - r.startDate
  }

  /** One `{id, price}` record of the level 1 and level 2 reports. */
  datatype PriceLine = PriceLine(id: int, price: int)

  /** `Car.find_by_id`: the position of the first car with that id. */
  function FindCarIndex(cars: seq<Car>, id: int): (r: Option<nat>)
    ensures r.Some? ==> r.value < |cars| && cars[r.value].id == id
    ensures r.Some? ==> forall j :: 0 <= j < r.value ==> cars[j].id != id
    ensures r.None? ==> forall j :: 0 <= j < |cars| ==> cars[j].id != id
  {
    if cars == [] then None
    else if cars[0].id == id then Some(0)
    else match FindCarIndex(cars[1..], id)
      case None => None
      case Some(k) => Some(k + 1)
  }

  function FindCar(cars: seq<Car>, id: int): Option<Car> {
    match FindCarIndex(cars, id)
    case None => None
    case Some(i) => Some(cars[i])
  }

  /** `Rental.find_by_id`: the position of the first rental with that id. */
  function FindRentalIndex(rentals: seq<RentalRecord>, id: int): (r: Option<nat>)
    ensures r.Some? ==> r.value < |rentals| && rentals[r.value].id == id
    ensures r.Some? ==> forall j :: 0 <= j < r.value ==> rentals[j].id != id
    ensures r.None? ==> forall j :: 0 <= j < |rentals| ==> rentals[j].id != id
  {
    if rentals == [] then None
    else if rentals[0].id == id then Some(0)
    else match FindRentalIndex(rentals[1..], id)
      case None => None
      case Some(k) => Some(k + 1)
  }

  function FindRental(rentals: seq<RentalRecord>, id: int): Option<RentalRecord> {
    match FindRentalIndex(rentals, id)
    case None => None
    case Some(i) => Some(rentals[i])
  }

  /** Looking up the id of a stored rental always succeeds, and finds that
      rental or an earlier one carrying the same id. */
  lemma FindOwnId(rentals: seq<RentalRecord>, i: nat)
    requires i < |rentals|
    ensures FindRentalIndex(rentals, rentals[i].id).Some?
    ensures FindRentalIndex(rentals, rentals[i].id).value <= i
    ensures FindRental(rentals, rentals[i].id).Some?
    ensures FindRental(rentals, rentals[i].id).value.id == rentals[i].id
  {
  }

  /** The lookup only looks at ids: two stores that agree on the id at every
      position answer every lookup alike. */
  lemma {:induction false} FindRentalIndexByIds(a: seq<RentalRecord>, b: seq<RentalRecord>, id: int)
    requires |a| == |b|
    requires forall k :: 0 <= k < |a| ==> a[k].id == b[k].id
    ensures FindRentalIndex(a, id) == FindRentalIndex(b, id)
  {
    if a != [] && a[0].id != id {
      FindRentalIndexByIds(a[1..], b[1..], id);
    }
  }

  /** `each_with_object([])` over a collection whose per-item step may raise:
      the list of results in input order, or the error of the first item that
      fails. */
  function CollectAll<T, U, E>(xs: seq<T>, f: T -> Result<U, E>): (r: Result<seq<U>, E>)
    ensures r.Success? <==> forall i :: 0 <= i < |xs| ==> f(xs[i]).Success?
    ensures r.Success? ==> |r.value| == |xs|
    ensures r.Success? ==> forall i :: 0 <= i < |xs| ==> f(xs[i]) == Success(r.value[i])
    ensures r.Failure? ==> exists i :: 0 <= i < |xs| && f(xs[i]) == Failure(r.error) && AllSucceed(xs[..i], f)
  {
    if xs == [] then Success([])
    else
      var init := xs[..|xs| - 1];
      match CollectAll(init, f)
      case Failure(e) =>
        assert forall i :: 0 <= i < |init| ==> init[..i] == xs[..i];
        Failure(e)
      case Success(us) =>
        match f(xs[|xs| - 1])
        case Failure(e) => Failure(e)
        case Success(u) => Success(us + [u])
  }

  predicate AllSucceed<T, U, E>(xs: seq<T>, f: T -> Result<U, E>) {
    forall i :: 0 <= i < |xs| ==> f(xs[i]).Success?
  }

  /** Collecting stops at the first failure: once a prefix succeeds and the
      next item fails, the whole collection fails with that item's error. */
  lemma {:induction false} CollectAllFirstFailure<T, U, E>(xs: seq<T>, f: T -> Result<U, E>, i: nat)
    requires i < |xs|
    requires CollectAll(xs[..i], f).Success?
    requires f(xs[i]).Failure?
    ensures CollectAll(xs, f) == Failure(f(xs[i]).error)
  {
    if |xs| == i + 1 {
      assert xs[..|xs| - 1] == xs[..i];
    } else {
      CollectAllFirstFailure(xs[..|xs| - 1], f, i);
      assert xs[..|xs| - 1][..i] == xs[..i];
    }
  }
}
