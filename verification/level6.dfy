/** Level 6: the report is keyed by modification. For each modification the
    shared, cached `Rental` object of its rental is brought up to date in
    place with all of that rental's modifications, then priced and split
    among the five actors. */
module Level6 {
  import opened Records
  import opened Pricing
  import opened Fees
  import opened Overlay

  /** A rental object of the `Rental.all` cache. */
  class Rental {
    var id: int
    var carId: int
    var startDate: int
    var endDate: int
    var distance: int
    /** `@days`, the memoised `time_period_in_days`. */
    var days: Option<int>

    /** `new.assign_params(rental)`. */
    constructor (r: RentalRecord)
      ensures Snapshot() == r && days == None
    {
      id, carId, startDate, endDate, distance := r.id, r.carId, r.startDate, r.endDate, r.distance;
      days := None;
    }

    /** The rental's attributes as a value. */
    function Snapshot(): RentalRecord
      reads this`id, this`carId, this`startDate, this`endDate, this`distance
    {
      RentalRecord(id, carId, startDate, endDate, distance)
    }

    /** The memo, if set, agrees with the current dates. */
    predicate CacheFresh()
      reads this
    {
      days.None? || days.value == Duration(Snapshot())
    }

    /** `time_period_in_days`: `@days ||= end_date - start_date`. */
    method TimePeriodInDays() returns (d: int)
      modifies this`days
      ensures d == old(days).GetOr(Duration(Snapshot()))
      ensures days == Some(d)
      ensures old(CacheFresh()) ==> d == Duration(Snapshot()) && CacheFresh()
    {
      if days.None? {
        days := Some(endDate - startDate);
      }
      d := days.value;
    }

    /** `send("#{a}=", v)`. */
    method SetAttribute(a: Attribute, v: int)
      modifies this`id, this`carId, this`startDate, this`endDate, this`distance
      ensures Snapshot() == With(old(Snapshot()), a, v)
    {
      match a
      case Id => id := v;
      case CarId => carId := v;
      case StartDate => startDate := v;
      case EndDate => endDate := v;
      case Distance => distance := v;
    }

    /** `update_attributes(m)`: every updateable attribute for which the
        modification has a reader giving a non-nil value is overwritten. The
        memo is not touched. */
    method UpdateAttributes(m: Modification)
      modifies this`id, this`carId, this`startDate, this`endDate, this`distance
      ensures Snapshot() == Apply(old(Snapshot()), m)
    {
      CopyEach(m, UPDATEABLE);
    }

    /** The `updateable_attrs.each` loop of `update_attributes`, over any
        list of attributes. */
    method CopyEach(m: Modification, attrs: seq<Attribute>)
      modifies this`id, this`carId, this`startDate, this`endDate, this`distance
      ensures Snapshot() == CopyAttributes(old(Snapshot()), m, attrs)
    {
      assert attrs[0..] == attrs;
      for i := 0 to |attrs|
        invariant CopyAttributes(Snapshot(), m, attrs[i..]) == CopyAttributes(old(Snapshot()), m, attrs)
      {
        var key := attrs[i];
        CopyAttributesStep(Snapshot(), m, attrs, i);
        var read := Reader(m, key);
        if read.Some? && read.value.Some? {
          SetAttribute(key, read.value.value);
        }
      }
    }

    /** `price`: the car lookup is dereferenced unchecked, then the ladder
        loop runs over the memoised duration. */
    method Price(cars: seq<Car>) returns (r: Result<int, Error>)
      modifies this`days
      ensures FindCar(cars, carId).None? ==> r == Failure(CarNotFound(carId)) && days == old(days)
      ensures FindCar(cars, carId).Some? ==>
        r == Success(DiscountedPrice(FindCar(cars, carId).value, old(days).GetOr(Duration(Snapshot())), distance))
      ensures FindCar(cars, carId).Some? ==> days == Some(old(days).GetOr(Duration(Snapshot())))
      ensures old(CacheFresh()) ==> r == PriceOf(cars, Snapshot()) && CacheFresh()
    {
      var car := FindCar(cars, carId);
      if car.None? {
        return Failure(CarNotFound(carId));
      }
      var d := TimePeriodInDays();
      var price := Pricing.Price(car.value, d, distance);
      r := Success(price);
    }
  }

  /** The attributes of every rental object, in store order. */
  function Snapshots(rentals: seq<Rental>): (s: seq<RentalRecord>)
    reads rentals
    ensures |s| == |rentals|
    ensures forall k :: 0 <= k < |rentals| ==> s[k] == rentals[k].Snapshot()
  {
    seq(|rentals|, k requires 0 <= k < |rentals| reads rentals => rentals[k].Snapshot())
  }

  /** `RentalManager.adjusted_rental_by_id`: the first stored rental with
      that id, updated in place with each of its modifications in listed
      order. A missing rental is `nil`, on which the first update raises. */
  method AdjustedRentalById(rentals: seq<Rental>, mods: seq<Modification>, id: int)
    returns (r: Result<Option<Rental>, Error>)
    modifies rentals
    ensures FindRentalIndex(old(Snapshots(rentals)), id).None? ==>
      r == (if FindByRentalId(mods, id) == [] then Success(None) else Failure(RentalNotFound(id)))
    ensures FindRentalIndex(old(Snapshots(rentals)), id).Some? ==>
      var rental := rentals[FindRentalIndex(old(Snapshots(rentals)), id).value];
      && r == Success(Some(rental))
      && rental.Snapshot() == OverlayAll(old(rental.Snapshot()), FindByRentalId(mods, id))
      && rental.days == old(rental.days)
    ensures forall k :: 0 <= k < |rentals| && r != Success(Some(rentals[k])) ==> unchanged(rentals[k])
  {
    var found := FindRentalIndex(Snapshots(rentals), id);
    var modifications := FindByRentalId(mods, id);
    if found.None? {
      if modifications == [] {
        return Success(None);
      }
      return Failure(RentalNotFound(id));
    }
    var rental: Rental := rentals[found.value];
    for j := 0 to |modifications|
      invariant rental.Snapshot() == OverlayAll(old(rental.Snapshot()), modifications[..j])
      modifies rental`id, rental`carId, rental`startDate, rental`endDate, rental`distance
    {
      assert modifications[..j + 1][..j] == modifications[..j];
      rental.UpdateAttributes(modifications[j]);
    }
    assert modifications[..|modifications|] == modifications;
    r := Success(Some(rental));
  }

  /** One `{id, rental_id, actions}` record of the report. */
  datatype ModificationEntry = ModificationEntry(id: int, rentalId: int, actions: seq<Action>)

  /** The effective rental: the first stored rental with that id after all
      of its modifications. */
  function EffectiveRental(rentals: seq<RentalRecord>, mods: seq<Modification>, id: int): (r: Option<RentalRecord>)
    ensures r.Some? <==> FindRental(rentals, id).Some?
    ensures r.Some? ==> r.value == Adjusted(FindRental(rentals, id).value, mods)
  {
    match FindRental(rentals, id)
    case None => None
    case Some(base) => Some(OverlayAll(base, FindByRentalId(mods, id)))
  }

  /** The body of the report loop for one modification, computed from the
      rentals as loaded. */
  function EntryFor(cars: seq<Car>, rentals: seq<RentalRecord>, mods: seq<Modification>, m: Modification)
    : (r: Result<ModificationEntry, Error>)
    ensures r.Success? ==> r.value.id == m.id && r.value.rentalId == m.rentalId && Balanced(r.value.actions)
  {
    match EffectiveRental(rentals, mods, m.rentalId)
    case None => Failure(RentalNotFound(m.rentalId))
    case Some(rental) =>
      match PriceOf(cars, rental)
      case Failure(e) => Failure(e)
      case Success(price) =>
        LedgerBalances(price, Duration(rental));
        Success(ModificationEntry(m.id, m.rentalId, Actions(price, CommissionOf(price, Duration(rental)))))
  }

  function EntryStep(cars: seq<Car>, rentals: seq<RentalRecord>, mods: seq<Modification>)
    : Modification -> Result<ModificationEntry, Error>
  {
    m => EntryFor(cars, rentals, mods, m)
  }

  /** The report `do_the_job` produces from the rentals as loaded: one entry
      per modification in listed order, carrying that modification's id and
      rental id and the five actors' lines of its effective rental. */
  function Report(cars: seq<Car>, rentals: seq<RentalRecord>, mods: seq<Modification>)
    : (r: Result<seq<ModificationEntry>, Error>)
    ensures r.Success? <==> forall i :: 0 <= i < |mods| ==>
      && EffectiveRental(rentals, mods, mods[i].rentalId).Some?
      && FindCar(cars, EffectiveRental(rentals, mods, mods[i].rentalId).value.carId).Some?
    ensures r.Success? ==> |r.value| == |mods|
    ensures r.Success? ==> forall i :: 0 <= i < |mods| ==>
      && r.value[i].id == mods[i].id
      && r.value[i].rentalId == mods[i].rentalId
      && Balanced(r.value[i].actions)
  {
    CollectAll(mods, EntryStep(cars, rentals, mods))
  }

  /** Two modifications of the same rental get the same lines: each entry
      reflects all of the rental's modifications, not only its own. */
  lemma SameRentalSameActions(cars: seq<Car>, rentals: seq<RentalRecord>, mods: seq<Modification>, i: nat, j: nat)
    requires i < |mods| && j < |mods| && mods[i].rentalId == mods[j].rentalId
    requires Report(cars, rentals, mods).Success?
    ensures Report(cars, rentals, mods).value[i].actions == Report(cars, rentals, mods).value[j].actions
  {
    var r := Report(cars, rentals, mods);
    assert EntryStep(cars, rentals, mods)(mods[i]) == Success(r.value[i]);
    assert EntryStep(cars, rentals, mods)(mods[j]) == Success(r.value[j]);
  }

  /** The entry of a modification is priced from the rental with all of its
      modifications applied, in listed order, whatever the position of the
      modification in the list. */
  lemma EntryUsesAllModifications(cars: seq<Car>, rentals: seq<RentalRecord>, mods: seq<Modification>, i: nat)
    requires i < |mods|
    requires Report(cars, rentals, mods).Success?
    ensures FindRental(rentals, mods[i].rentalId).Some?
    ensures var rental := Adjusted(FindRental(rentals, mods[i].rentalId).value, mods);
      var price := PriceOf(cars, rental).value;
      Report(cars, rentals, mods).value[i].actions == Actions(price, CommissionOf(price, Duration(rental)))
  {
    var r := Report(cars, rentals, mods);
    assert EntryStep(cars, rentals, mods)(mods[i]) == Success(r.value[i]);
  }

  /** A rental object of the batch is either as loaded with an empty memo,
      or fully adjusted with a memo that agrees with its dates. */
  ghost predicate Tracked(o: Rental, loaded: RentalRecord, mods: seq<Modification>)
    reads o
  {
    || (o.Snapshot() == loaded && o.days.None?)
    || (o.Snapshot() == Adjusted(loaded, mods) && o.CacheFresh())
  }

  /** `Rental.all` allocates one object per loaded rental. */
  predicate Distinct(rentals: seq<Rental>) {
    forall k, k' :: 0 <= k < k' < |rentals| ==> rentals[k] != rentals[k']
  }

  /** Every object of the batch is tracked against its loaded attributes. */
  ghost predicate BatchTracked(rentals: seq<Rental>, loaded: seq<RentalRecord>, mods: seq<Modification>)
    reads rentals
  {
    && |loaded| == |rentals|
    && (forall k :: 0 <= k < |rentals| ==> Tracked(rentals[k], loaded[k], mods))
  }

  /** Tracked objects keep the ids they were loaded with. */
  lemma TrackedIds(rentals: seq<Rental>, loaded: seq<RentalRecord>, mods: seq<Modification>, id: int)
    requires BatchTracked(rentals, loaded, mods)
    ensures FindRentalIndex(Snapshots(rentals), id) == FindRentalIndex(loaded, id)
  {
    var now := Snapshots(rentals);
    forall k | 0 <= k < |rentals| ensures now[k].id == loaded[k].id {
      assert Tracked(rentals[k], loaded[k], mods);
    }
    FindRentalIndexByIds(now, loaded, id);
  }

  /** The body of the `do_the_job` loop for one modification of the list:
      adjust the cached rental in place, price it, split the price. */
  method EntryOf(cars: seq<Car>, rentals: seq<Rental>, mods: seq<Modification>, m: Modification,
                 ghost loaded: seq<RentalRecord>, ghost i: nat)
    returns (r: Result<ModificationEntry, Error>)
    requires i < |mods| && mods[i] == m
    requires Distinct(rentals) && |loaded| == |rentals|
    requires FindRentalIndex(Snapshots(rentals), m.rentalId) == FindRentalIndex(loaded, m.rentalId)
    requires FindRentalIndex(loaded, m.rentalId).Some? ==>
      var k0 := FindRentalIndex(loaded, m.rentalId).value;
      Tracked(rentals[k0], loaded[k0], mods)
    modifies rentals
    ensures r == EntryFor(cars, loaded, mods, m)
    ensures FindRentalIndex(loaded, m.rentalId).Some? ==>
      var k0 := FindRentalIndex(loaded, m.rentalId).value;
      && rentals[k0].Snapshot() == Adjusted(loaded[k0], mods)
      && rentals[k0].CacheFresh()
      && (r.Success? ==> rentals[k0].days == Some(Duration(rentals[k0].Snapshot())))
      && (forall k :: 0 <= k < |rentals| && k != k0 ==> unchanged(rentals[k]))
    ensures FindRentalIndex(loaded, m.rentalId).None? ==> forall k :: 0 <= k < |rentals| ==> unchanged(rentals[k])
  {
    FindByRentalIdKeeps(mods, m.rentalId, i);
    ghost var found := FindRentalIndex(loaded, m.rentalId);
    ghost var before := if found.Some? then rentals[found.value].Snapshot() else RentalRecord(0, 0, 0, 0, 0);
    var adjusted := AdjustedRentalById(rentals, mods, m.rentalId);
    if !adjusted.Success? || adjusted.value.None? {
      return Failure(RentalNotFound(m.rentalId));
    }
    var rental := adjusted.value.value;
    ghost var k0 := found.value;
    ghost var effective := Adjusted(loaded[k0], mods);
    OverlayIdempotent(loaded[k0], FindByRentalId(mods, m.rentalId));
    assert rental == rentals[k0];
    assert before == loaded[k0] || before == effective;
    assert rental.Snapshot() == effective && rental.CacheFresh();
    label Adjusted:
    r := LedgerOf(cars, rental, m);
    forall k | 0 <= k < |rentals| && k != k0 ensures unchanged(rentals[k]) {
      assert rentals[k] != rental;
      assert unchanged@Adjusted(rentals[k]);
    }
  }

  /** `Commission.new(rental)` and the `ACTORS.map` block: price the
      adjusted rental and give each actor its line. */
  method LedgerOf(cars: seq<Car>, rental: Rental, m: Modification) returns (r: Result<ModificationEntry, Error>)
    requires rental.CacheFresh()
    modifies rental`days
    ensures r == match PriceOf(cars, rental.Snapshot())
      case Failure(e) => Failure(e)
      case Success(price) =>
        Success(ModificationEntry(m.id, m.rentalId, Actions(price, CommissionOf(price, Duration(rental.Snapshot())))))
    ensures r.Success? ==> rental.days == Some(Duration(rental.Snapshot()))
    ensures r.Failure? ==> rental.days == old(rental.days)
    ensures rental.CacheFresh()
  {
    var price := rental.Price(cars);
    if price.Failure? {
      return Failure(price.error);
    }
    var days := rental.TimePeriodInDays();
    var commission := CommissionOf(price.value, days);
    r := Success(ModificationEntry(m.id, m.rentalId, Actions(price.value, commission)));
  }

  /** `Main.do_the_job`. The rental objects start freshly loaded, with no
      memoised duration; adjusting a rental again for each of its
      modifications replays the same list, and the memo, first filled after
      the first adjustment, is never stale, so the result is the report
      computed from the rentals as loaded. */
  method DoTheJob(cars: seq<Car>, rentals: seq<Rental>, mods: seq<Modification>)
    returns (res: Result<seq<ModificationEntry>, Error>)
    requires Distinct(rentals)
    requires forall k :: 0 <= k < |rentals| ==> rentals[k].days.None?
    modifies rentals
    ensures res == Report(cars, old(Snapshots(rentals)), mods)
  {
    ghost var loaded := Snapshots(rentals);
    ghost var step := EntryStep(cars, loaded, mods);
    var entries: seq<ModificationEntry> := [];
    for i := 0 to |mods|
      invariant loaded == old(Snapshots(rentals))
      invariant BatchTracked(rentals, loaded, mods)
      invariant CollectAll(mods[..i], step) == Success(entries)
    {
      assert mods[..i + 1][..i] == mods[..i];
      TrackedIds(rentals, loaded, mods, mods[i].rentalId);
      label Before:
      var entry := EntryOf(cars, rentals, mods, mods[i], loaded, i);
      forall k | 0 <= k < |rentals| ensures Tracked(rentals[k], loaded[k], mods) {
        if unchanged@Before(rentals[k]) {
          assert old@Before(Tracked(rentals[k], loaded[k], mods));
        }
      }
      if entry.Failure? {
        CollectAllFirstFailure(mods, step, i);
        return Failure(entry.error);
      }
      entries := entries + [entry.value];
    }
    assert mods[..|mods|] == mods;
    res := Success(entries);
  }
}
