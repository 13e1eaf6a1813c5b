/** `Commission` and `ActorsFee` of levels 5 and 6: the price is split into
    insurance, assistance and platform ("drivy") fees, a deductible-reduction
    fee is charged on top, and each of the five actors gets a ledger line. */
module Fees {

  const ASSISTANCE_FEE_PER_DAY: int := 1
  const DEDUCTIBLE_REDUCTION_FEE: int := 4

  /** The memoised fields of one `Commission`, computed from the rental's
      price and duration. */
  datatype Commission = Commission(insurance: int, assistance: int, drivy: int, deductibleReduction: int)

  function CommissionOf(price: int, days: int): (c: Commission)
    ensures c.insurance + c.assistance + c.drivy == price
    ensures 2 * c.insurance <= price < 2 * c.insurance + 2
    ensures c.assistance == days
    ensures c.deductibleReduction == 4 * days
  {
    var insurance := price / 2;
    var assistance := ASSISTANCE_FEE_PER_DAY * days;
    Commission(insurance, assistance, price - insurance - assistance, days * DEDUCTIBLE_REDUCTION_FEE)
  }

  function TotalFee(c: Commission): int {
    c.insurance + c.assistance + c.drivy
  }

  datatype Actor = Driver | Owner | Insurance | Assistance | Drivy

  /** `ACTORS`: the order of the ledger lines. */
  const ACTORS: seq<Actor> := [Driver, Owner, Insurance, Assistance, Drivy]

  /** The `type` of a ledger line. */
  datatype EntryType = Debit | Credit

  /** One `{who, type, amout}` ledger line. */
  datatype Action = Action(who: Actor, kind: EntryType, amount: int)

  /** `ActorsFee.amount`. */
  function Amount(actor: Actor, price: int, c: Commission): (r: int)
    ensures actor == Driver ==> r == price + c.deductibleReduction
    ensures actor == Owner ==> r + TotalFee(c) == price
    ensures actor == Insurance ==> r == c.insurance
    ensures actor == Assistance ==> r == c.assistance
    ensures actor == Drivy ==> r == c.drivy + c.deductibleReduction
  {
    match actor
    case Driver => price + c.deductibleReduction
    case Owner => price - TotalFee(c)
    case Insurance => c.insurance
    case Assistance => c.assistance
    case Drivy => c.drivy + c.deductibleReduction
  }

  /** `ACTORS.map`: one line per actor in `ACTORS` order, the driver's a
      debit and every other a credit. */
  function Actions(price: int, c: Commission): (r: seq<Action>)
    ensures |r| == |ACTORS| == 5
    ensures forall i :: 0 <= i < 5 ==> r[i].who == ACTORS[i]
    ensures forall i :: 0 <= i < 5 ==> (r[i].kind == Debit <==> i == 0)
    ensures forall i :: 0 <= i < 5 ==> r[i].amount == Amount(ACTORS[i], price, c)
  {
    seq(|ACTORS|, i requires 0 <= i < |ACTORS| =>
      Action(ACTORS[i], if ACTORS[i] == Driver then Debit else Credit, Amount(ACTORS[i], price, c)))
  }

  /** A well-formed ledger: one line per actor in `ACTORS` order, the driver
      alone debited, the driver's debit equal to the four credits together,
      and nothing for the owner. */
  predicate Balanced(a: seq<Action>) {
    && |a| == 5
    && (forall j :: 0 <= j < 5 ==> a[j].who == ACTORS[j])
    && (forall j :: 0 <= j < 5 ==> (a[j].kind == Debit <==> j == 0))
    && a[0].amount == a[1].amount + a[2].amount + a[3].amount + a[4].amount
    && a[1].amount == 0
  }

  /** The split is exact, so the owner is always credited 0. */
  lemma OwnerGetsNothing(price: int, days: int)
    ensures TotalFee(CommissionOf(price, days)) == price
    ensures Amount(Owner, price, CommissionOf(price, days)) == 0
  {
  }

  /** Money is conserved: what the driver pays is exactly what the owner,
      the insurer, the assistance and the platform receive. */
  lemma LedgerBalances(price: int, days: int)
    ensures Balanced(Actions(price, CommissionOf(price, days)))
    ensures var c := CommissionOf(price, days);
      && Amount(Driver, price, c) == price + 4 * days
      && Amount(Drivy, price, c) == c.drivy + 4 * days
  {
  }

  /** Price 41000 over 2 days: insurance 20500, assistance 2, platform
      20498; the driver pays 41008 and the platform receives 20506. */
  lemma WorkedExample()
    ensures CommissionOf(41000, 2) == Commission(20500, 2, 20498, 8)
    ensures Actions(41000, CommissionOf(41000, 2)) ==
      [Action(Driver, Debit, 41008), Action(Owner, Credit, 0), Action(Insurance, Credit, 20500),
       Action(Assistance, Credit, 2), Action(Drivy, Credit, 20506)]
  {
  }
}
