/** Level 6's modification overlay as values: what `Rental#update_attributes`
    does to a rental's attributes, and what applying every modification of a
    rental in listed order (`RentalManager.adjusted_rental_by_id`) yields. */
module Overlay {
  import opened Records

  /** `Rental::ATTRIBUTES`. */
  datatype Attribute = Id | CarId | StartDate | EndDate | Distance

  const ATTRIBUTES: seq<Attribute> := [Id, CarId, StartDate, EndDate, Distance]

  /** `ATTRIBUTES.reject { |attr| attr == excluded }`. */
  function Reject(attrs: seq<Attribute>, excluded: Attribute): (r: seq<Attribute>)
    ensures forall a :: a in r <==> a in attrs && a != excluded
  {
    if attrs == [] then []
    else (if attrs[0] == excluded then [] else [attrs[0]]) + Reject(attrs[1..], excluded)
  }

  /** The attributes `update_attributes` visits. The source rejects
      `(:id || :rental_id)`, which evaluates to `:id`. */
  const UPDATEABLE: seq<Attribute> := Reject(ATTRIBUTES, Id)

  /** A `RentalModification`; a field absent from the data is `None`. */
  datatype Modification = Modification(
    id: int, rentalId: int, startDate: Option<int>, endDate: Option<int>, distance: Option<int>)

  /** `hash.respond_to?(key)` and `hash.send(key)`: `None` when a
      modification has no reader for the attribute (it has none for
      `car_id`), otherwise the reader's value, `None` standing for `nil`. */
  function Reader(m: Modification, a: Attribute): Option<Option<int>> {
    match a
    case Id => Some(Some(m.id))
    case CarId => None
    case StartDate => Some(m.startDate)
    case EndDate => Some(m.endDate)
    case Distance => Some(m.distance)
  }

  function Get(r: RentalRecord, a: Attribute): int {
    match a
    case Id => r.id
    case CarId => r.carId
    case StartDate => r.startDate
    case EndDate => r.endDate
    case Distance => r.distance
  }

  /** `send("#{a}=", v)`. */
  function With(r: RentalRecord, a: Attribute, v: int): (r': RentalRecord)
    ensures Get(r', a) == v
    ensures forall b :: b != a ==> Get(r', b) == Get(r, b)
  {
    match a
    case Id => r.(id := v)
    case CarId => r.(carId := v)
    case StartDate => r.(startDate := v)
    case EndDate => r.(endDate := v)
    case Distance => r.(distance := v)
  }

  /** Records that agree on every attribute are equal. */
  lemma RecordsAgree(x: RentalRecord, y: RentalRecord)
    requires forall a :: Get(x, a) == Get(y, a)
    ensures x == y
  {
    assert Get(x, Id) == Get(y, Id) && Get(x, CarId) == Get(y, CarId);
    assert Get(x, StartDate) == Get(y, StartDate) && Get(x, EndDate) == Get(y, EndDate);
    assert Get(x, Distance) == Get(y, Distance);
  }

  /** One pass of the loop in `update_attributes`. */
  function CopyAttribute(r: RentalRecord, m: Modification, a: Attribute): RentalRecord {
    match Reader(m, a)
    case Some(Some(v)) => With(r, a, v)
    case _ => r
  }

  /** The loop in `update_attributes` over the given attributes. */
  function CopyAttributes(r: RentalRecord, m: Modification, attrs: seq<Attribute>): RentalRecord
    decreases |attrs|
  {
    if attrs == [] then r else CopyAttributes(CopyAttribute(r, m, attrs[0]), m, attrs[1..])
  }

  /** One pass of the `update_attributes` loop. */
  lemma CopyAttributesStep(r: RentalRecord, m: Modification, attrs: seq<Attribute>, i: nat)
    requires i < |attrs|
    ensures CopyAttributes(r, m, attrs[i..]) == CopyAttributes(CopyAttribute(r, m, attrs[i]), m, attrs[i + 1..])
  {
    assert attrs[i..][0] == attrs[i] && attrs[i..][1..] == attrs[i + 1..];
  }

  /** `update_attributes(m)` as a function of the rental's attributes. */
  function Apply(r: RentalRecord, m: Modification): RentalRecord {
    CopyAttributes(r, m, UPDATEABLE)
  }

  /** The value `update_attributes(m)` writes into attribute `a`, if any:
      only the dates and the distance, and only when not `nil`. */
  function Copied(m: Modification, a: Attribute): Option<int> {
    match a
    case StartDate => m.startDate
    case EndDate => m.endDate
    case Distance => m.distance
    case _ => None
  }

  /** Visiting distinct attributes one after another sets each visited one
      from the modification when its reader gives a value, and leaves every
      other attribute alone. */
  lemma {:induction false} CopyAttributesGet(r: RentalRecord, m: Modification, attrs: seq<Attribute>, a: Attribute)
    requires forall i, j :: 0 <= i < j < |attrs| ==> attrs[i] != attrs[j]
    decreases |attrs|
    ensures Get(CopyAttributes(r, m, attrs), a) ==
      if a in attrs && Reader(m, a).Some? && Reader(m, a).value.Some? then Reader(m, a).value.value else Get(r, a)
  {
    if attrs != [] {
      var r' := CopyAttribute(r, m, attrs[0]);
      CopyAttributesGet(r', m, attrs[1..], a);
      if a != attrs[0] {
        assert a in attrs <==> a in attrs[1..];
      } else {
        assert a !in attrs[1..];
      }
    }
  }

  /** `update_attributes(m)` replaces each attribute by the value the
      modification supplies for it, if any. */
  lemma ApplyGet(r: RentalRecord, m: Modification, a: Attribute)
    ensures Get(Apply(r, m), a) == Copied(m, a).GetOr(Get(r, a))
  {
    assert UPDATEABLE == [CarId, StartDate, EndDate, Distance];
    CopyAttributesGet(r, m, UPDATEABLE, a);
  }

  /** `update_attributes` copies `start_date`, `end_date` and `distance`
      when the modification gives them, and never touches `id` or `car_id`. */
  lemma ApplyFields(r: RentalRecord, m: Modification)
    ensures Apply(r, m) == RentalRecord(r.id, r.carId,
      m.startDate.GetOr(r.startDate), m.endDate.GetOr(r.endDate), m.distance.GetOr(r.distance))
  {
    var x := Apply(r, m);
    var y := RentalRecord(r.id, r.carId,
      m.startDate.GetOr(r.startDate), m.endDate.GetOr(r.endDate), m.distance.GetOr(r.distance));
    forall a ensures Get(x, a) == Get(y, a) {
      ApplyGet(r, m, a);
    }
    RecordsAgree(x, y);
  }

  /** The modifications applied one after another, in listed order. */
  function OverlayAll(r: RentalRecord, ms: seq<Modification>): (r': RentalRecord)
    ensures r'.id == r.id && r'.carId == r.carId
  {
    if ms == [] then r
    else
      var before := OverlayAll(r, ms[..|ms| - 1]);
      ApplyFields(before, ms[|ms| - 1]);
      Apply(before, ms[|ms| - 1])
  }

  /** `RentalModification.find_by_rental_id`: the modifications of one
      rental, in listed order. */
  function FindByRentalId(mods: seq<Modification>, rentalId: int): (r: seq<Modification>)
    ensures |r| <= |mods|
    ensures forall k :: 0 <= k < |r| ==> r[k].rentalId == rentalId
    ensures (forall k :: 0 <= k < |mods| ==> mods[k].rentalId != rentalId) ==> r == []
  {
    if mods == [] then []
    else (if mods[0].rentalId == rentalId then [mods[0]] else []) + FindByRentalId(mods[1..], rentalId)
  }

  /** Every modification of the rental is kept. */
  lemma {:induction false} FindByRentalIdKeeps(mods: seq<Modification>, rentalId: int, k: nat)
    requires k < |mods| && mods[k].rentalId == rentalId
    ensures mods[k] in FindByRentalId(mods, rentalId)
  {
    if k > 0 {
      FindByRentalIdKeeps(mods[1..], rentalId, k - 1);
    }
  }

  /** The rental as `adjusted_rental_by_id` leaves it. */
  function Adjusted(r: RentalRecord, mods: seq<Modification>): RentalRecord {
    OverlayAll(r, FindByRentalId(mods, r.id))
  }

  /** The last value written into `a` by `ms`, or `default` if none is. */
  function Latest(ms: seq<Modification>, a: Attribute, default: int): int {
    if ms == [] then default
    else match Copied(ms[|ms| - 1], a)
      case Some(v) => v
      case None => Latest(ms[..|ms| - 1], a, default)
  }

  lemma {:induction false} OverlayAllLatest(r: RentalRecord, ms: seq<Modification>, a: Attribute)
    ensures Get(OverlayAll(r, ms), a) == Latest(ms, a, Get(r, a))
  {
    if ms != [] {
      OverlayAllLatest(r, ms[..|ms| - 1], a);
      ApplyGet(OverlayAll(r, ms[..|ms| - 1]), ms[|ms| - 1], a);
    }
  }

  /** `ms[k]` is the last of `ms` to write attribute `a`. */
  predicate LastWriter(ms: seq<Modification>, a: Attribute, k: int) {
    && 0 <= k < |ms|
    && Copied(ms[k], a).Some?
    && forall j :: k < j < |ms| ==> Copied(ms[j], a).None?
  }

  /** With no modification writing the attribute, `Latest` is the default. */
  lemma {:induction false} LatestNoWrite(ms: seq<Modification>, a: Attribute, default: int)
    requires forall k :: 0 <= k < |ms| ==> Copied(ms[k], a).None?
    ensures Latest(ms, a, default) == default
  {
    if ms != [] {
      var init := ms[..|ms| - 1];
      assert forall k :: 0 <= k < |init| ==> init[k] == ms[k];
      LatestNoWrite(init, a, default);
    }
  }

  /** `Latest` is the value of the last modification writing the attribute. */
  lemma {:induction false} LatestLastWriter(ms: seq<Modification>, a: Attribute, default: int, k: int)
    requires LastWriter(ms, a, k)
    ensures Latest(ms, a, default) == Copied(ms[k], a).value
  {
    var n := |ms| - 1;
    if k < n {
      var init := ms[..n];
      assert Copied(ms[n], a).None?;
      assert Latest(ms, a, default) == Latest(init, a, default);
      assert LastWriter(init, a, k) by {
        forall j | k < j < |init| ensures Copied(init[j], a).None? {
          assert init[j] == ms[j];
        }
      }
      LatestLastWriter(init, a, default, k);
    }
  }

  lemma {:induction false} LatestIdempotent(ms: seq<Modification>, a: Attribute, default: int)
    ensures Latest(ms, a, Latest(ms, a, default)) == Latest(ms, a, default)
  {
    if ms != [] && Copied(ms[|ms| - 1], a).None? {
      LatestIdempotent(ms[..|ms| - 1], a, default);
    }
  }

  /** After the overlay every date and the distance hold the value of the
      last modification that supplies one, or the rental's own value when
      none does; `id` and `car_id` keep the rental's values. */
  lemma OverlayLastWriteWins(r: RentalRecord, ms: seq<Modification>, a: Attribute)
    ensures a == Id || a == CarId ==> Get(OverlayAll(r, ms), a) == Get(r, a)
    ensures (forall k :: 0 <= k < |ms| ==> Copied(ms[k], a).None?) ==> Get(OverlayAll(r, ms), a) == Get(r, a)
    ensures forall k :: LastWriter(ms, a, k) ==> Get(OverlayAll(r, ms), a) == Copied(ms[k], a).value
  {
    OverlayAllLatest(r, ms, a);
    if forall k :: 0 <= k < |ms| ==> Copied(ms[k], a).None? {
      LatestNoWrite(ms, a, Get(r, a));
    }
    forall k | LastWriter(ms, a, k) ensures Get(OverlayAll(r, ms), a) == Copied(ms[k], a).value {
      LatestLastWriter(ms, a, Get(r, a), k);
    }
  }

  /** Replaying the same modifications on an already adjusted rental
      changes nothing. */
  lemma OverlayIdempotent(r: RentalRecord, ms: seq<Modification>)
    ensures OverlayAll(OverlayAll(r, ms), ms) == OverlayAll(r, ms)
  {
    var once := OverlayAll(r, ms);
    forall a ensures Get(OverlayAll(once, ms), a) == Get(once, a) {
      OverlayAllLatest(once, ms, a);
      OverlayAllLatest(r, ms, a);
      LatestIdempotent(ms, a, Get(r, a));
    }
    RecordsAgree(OverlayAll(once, ms), once);
  }

  /** The filter keeps the listed order: filtering a concatenation is
      concatenating the filtered parts. */
  lemma {:induction false} FindByRentalIdConcat(a: seq<Modification>, b: seq<Modification>, rentalId: int)
    ensures FindByRentalId(a + b, rentalId) == FindByRentalId(a, rentalId) + FindByRentalId(b, rentalId)
  {
    if a == [] {
      assert a + b == b;
    } else {
      var head := if a[0].rentalId == rentalId then [a[0]] else [];
      calc {
        FindByRentalId(a + b, rentalId);
      == { assert (a + b)[0] == a[0]; assert (a + b)[1..] == a[1..] + b; }
        head + FindByRentalId(a[1..] + b, rentalId);
      == { FindByRentalIdConcat(a[1..], b, rentalId); }
        head + (FindByRentalId(a[1..], rentalId) + FindByRentalId(b, rentalId));
      ==
        (head + FindByRentalId(a[1..], rentalId)) + FindByRentalId(b, rentalId);
      }
    }
  }

  /** A rental with no modification is left as it is. */
  lemma NoModificationNoChange(r: RentalRecord, mods: seq<Modification>)
    requires forall k :: 0 <= k < |mods| ==> mods[k].rentalId != r.id
    ensures Adjusted(r, mods) == r
  {
  }

  /** Modifications of other rentals, wherever they stand in the list, have
      no effect on a rental. */
  lemma OtherRentalsIgnored(r: RentalRecord, before: seq<Modification>, others: seq<Modification>, after: seq<Modification>)
    requires forall k :: 0 <= k < |others| ==> others[k].rentalId != r.id
    ensures Adjusted(r, before + others + after) == Adjusted(r, before + after)
  {
    var id := r.id;
    FindByRentalIdConcat(before + others, after, id);
    FindByRentalIdConcat(before, others, id);
    FindByRentalIdConcat(before, after, id);
    assert FindByRentalId(before + others, id) == FindByRentalId(before, id);
    assert FindByRentalId(before + others + after, id) == FindByRentalId(before + after, id);
  }

  /** Two modifications of one rental, the second giving only a distance:
      the dates are those of the first, the distance that of the second. */
  lemma DistanceOnlyKeepsEarlierDates(r: RentalRecord, first: Modification, second: Modification)
    requires first.startDate.Some? && first.endDate.Some?
    requires second.startDate.None? && second.endDate.None? && second.distance.Some?
    ensures OverlayAll(r, [first, second]) ==
      r.(startDate := first.startDate.value, endDate := first.endDate.value, distance := second.distance.value)
  {
    var ms := [first, second];
    assert ms[..1] == [first];
    assert ms[..1][..0] == [];
    assert OverlayAll(r, ms[..1]) == Apply(r, first);
    ApplyFields(r, first);
    ApplyFields(Apply(r, first), second);
  }
}
