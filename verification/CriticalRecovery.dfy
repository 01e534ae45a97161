/** Recovering a critical basket: flatten what it left open, look at the broker's
    positions afterwards, and clear the latch only if they are flat. */
module CriticalRecovery {
  import opened Options
  import opened ContractKey
  import Orders

  const QTY_EPSILON: real := 0.000001
  const MAX_ATTEMPTS: nat := 2

  /** An order row of the basket. */
  datatype OrderRow = OrderRow(contract: string, fillQty: Option<real>, isCompensation: bool)

  predicate LeftOpen(o: OrderRow) {
    !o.isCompensation && o.fillQty.GetOr(0.0) > Orders.FILL_EPS
  }

  function ConIdOf(o: OrderRow): Option<int> {
    ParseIbkrContract(o.contract).conId
  }

  /** Contract ids of filled legs, each once, in order of appearance. */
  function Leftovers(orders: seq<OrderRow>): seq<int> {
    if orders == [] then []
    else
      var o := orders[|orders| - 1];
      var earlier := Leftovers(orders[..|orders| - 1]);
      if LeftOpen(o) && ConIdOf(o).Some? && ConIdOf(o).value !in earlier then earlier + [ConIdOf(o).value] else earlier
  }

  /** The row is a fill to be undone, of the contract with this id. */
  predicate IsFillOf(o: OrderRow, id: int) {
    && !o.isCompensation && o.fillQty.Some? && o.fillQty.value > 0.00000001
    && ParseIbkrContract(o.contract).conId == Some(id)
  }

  lemma {:induction false} LeftoversAre(orders: seq<OrderRow>, id: int)
    ensures id in Leftovers(orders) <==> exists k :: 0 <= k < |orders| && IsFillOf(orders[k], id)
    ensures forall i, j :: 0 <= i < j < |Leftovers(orders)| ==> Leftovers(orders)[i] != Leftovers(orders)[j]
  {
    hide ParseIbkrContract;
    if orders != [] {
      var n := |orders| - 1;
      LeftoversAre(orders[..n], id);
      assert forall k :: 0 <= k < n ==> orders[..n][k] == orders[k];
    }
  }

  /** Broker positions of the account by contract id. */
  type Snapshot = map<int, real>

  predicate FlatFor(snapshot: Snapshot, ids: seq<int>) {
    forall k :: 0 <= k < |ids| ==> FlatAt(snapshot, ids[k])
  }

  /** Where an attempt raises: before anything is cleared, or, once the row is recovered
      and the latch dropped, in writing the event of it. */
  datatype Failure = NoFailure | Early | AfterClearing

  /** What one attempt meets. A snapshot is None when the broker did not deliver one. */
  datatype Attempt = Attempt(
    stillCritical: bool, accountKnown: bool, orders: seq<OrderRow>,
    before: Option<Snapshot>, after: Option<Snapshot>, coordinatorKnown: bool, failure: Failure)

  datatype Outcome = Done | Retry

  /** Nothing identifiable is left open, or both snapshots came and the later is flat. */
  predicate Clearable(a: Attempt) {
    || Leftovers(a.orders) == []
    || (a.before.Some? && a.after.Some? && FlatFor(a.after.value, Leftovers(a.orders)))
  }

  /** The attempt gets as far as judging the basket. */
  predicate Judges(a: Attempt) {
    a.failure != Early && a.stillCritical && a.accountKnown
  }

  predicate MayRelease(a: Attempt) {
    Judges(a) && Clearable(a) && a.coordinatorKnown
  }

  predicate Raises(a: Attempt) {
    a.failure == Early || (a.failure == AfterClearing && MayRelease(a))
  }

  /** The attempt asks for another one, if there is another. */
  predicate AsksAgain(a: Attempt) {
    Raises(a) || (Judges(a) && !Clearable(a))
  }

  method CollectLeftoverLegs(orders: seq<OrderRow>) returns (ids: seq<int>)
    ensures ids == Leftovers(orders)
  {
    hide ConIdOf, LeftOpen;
    ids := [];
    for k := 0 to |orders|
      invariant ids == Leftovers(orders[..k])
    {
      assert orders[..k + 1][..k] == orders[..k];
      var id := ConIdOf(orders[k]);
      if LeftOpen(orders[k]) && id.Some? && id.value !in ids {
        ids := ids + [id.value];
      }
    }
    assert orders[..|orders|] == orders;
  }

  method BrokerFlatFor(snapshot: Snapshot, ids: seq<int>) returns (flat: bool)
    ensures flat <==> FlatFor(snapshot, ids)
    ensures flat <==> forall k :: 0 <= k < |ids| && ids[k] in snapshot ==> -0.000001 <= snapshot[ids[k]] <= 0.000001
  {
    for k := 0 to |ids|
      invariant forall j :: 0 <= j < k ==> FlatAt(snapshot, ids[j])
    {
      if ids[k] in snapshot && (snapshot[ids[k]] > QTY_EPSILON || snapshot[ids[k]] < -QTY_EPSILON) {
        return false;
      }
    }
    flat := true;
  }

  /** Releases exactly when it may, also when it raises after that; asks for another
      attempt when it raises, or found the basket not clearable with attempts left. */
  method RecoverOnce(a: Attempt, number: nat) returns (outcome: Outcome, released: bool)
    requires 1 <= number <= MAX_ATTEMPTS
    ensures released <==> MayRelease(a)
    ensures outcome == Retry <==> Raises(a) || (Judges(a) && !Clearable(a) && number < MAX_ATTEMPTS)
    ensures outcome == Retry
      <==> || a.failure == Early || (a.failure == AfterClearing && released)
           || (a.stillCritical && a.accountKnown && !Clearable(a) && number < 2)
  {
    if a.failure == Early {
      return Retry, false;
    }
    if !a.stillCritical || !a.accountKnown {
      return Done, false;
    }
    var ids := CollectLeftoverLegs(a.orders);
    var clearable := ids == [];
    if !clearable && a.before.Some? && a.after.Some? {
      clearable := BrokerFlatFor(a.after.value, ids);
    }
    if !clearable {
      return if number < MAX_ATTEMPTS then Retry else Done, false;
    }
    if !a.coordinatorKnown {
      return Done, false;
    }
    return if a.failure == AfterClearing then Retry else Done, true;
  }

  /** Tries again while an attempt asks for it, at most twice. The basket is released
      exactly when an attempt that is made may release it. */
  method RunRecovery(attempts: nat -> Attempt) returns (released: bool, used: nat)
    ensures 1 <= used <= MAX_ATTEMPTS
    ensures released <==> exists k :: 1 <= k <= used && MayRelease(attempts(k))
    ensures forall k :: 1 <= k < used ==> AsksAgain(attempts(k))
    ensures used < MAX_ATTEMPTS ==> !AsksAgain(attempts(used))
  {
    hide MayRelease, Judges, Clearable, Raises;
    used, released := 0, false;
    while used < MAX_ATTEMPTS
      invariant used <= MAX_ATTEMPTS
      invariant released <==> exists k :: 1 <= k <= used && MayRelease(attempts(k))
      invariant forall k :: 1 <= k <= used && used < MAX_ATTEMPTS ==> AsksAgain(attempts(k))
      invariant forall k :: 1 <= k < used ==> AsksAgain(attempts(k))
    {
      ghost var before, was := used, released;
      used := used + 1;
      var outcome, now := RecoverOnce(attempts(used), used);
      released := released || now;
      assert (exists k :: 1 <= k <= used && MayRelease(attempts(k)))
        <==> (exists k :: 1 <= k <= before && MayRelease(attempts(k))) || MayRelease(attempts(used));
      if outcome == Done {
        break;
      }
    }
  }

  predicate FlatAt(snapshot: Snapshot, id: int) {
    id in snapshot ==> -QTY_EPSILON <= snapshot[id] <= QTY_EPSILON
  }

  /** A basket is released exactly when it is still critical, its account and coordinator
      are known and nothing failed before it was judged, and either no filled leg carries a
      contract id, or both snapshots came and the later shows every such id as missing or
      flat. */
  lemma ReleaseIff(a: Attempt)
    ensures MayRelease(a)
      <==> && a.failure != Early && a.stillCritical && a.accountKnown && a.coordinatorKnown
           && (|| (forall k, id :: 0 <= k < |a.orders| ==> !IsFillOf(a.orders[k], id))
               || (a.before.Some? && a.after.Some?
                   && forall k, id :: 0 <= k < |a.orders| && IsFillOf(a.orders[k], id) ==>
                        id !in a.after.value || -0.000001 <= a.after.value[id] <= 0.000001))
  {
    hide IsFillOf, Leftovers, FlatFor;
    NothingLeftIff(a.orders);
    if a.after.Some? {
      FlatLeftIff(a.orders, a.after.value);
    }
  }

  lemma NothingLeftIff(orders: seq<OrderRow>)
    ensures Leftovers(orders) == [] <==> forall k, id :: 0 <= k < |orders| ==> !IsFillOf(orders[k], id)
  {
    hide IsFillOf, Leftovers;
    var ids := Leftovers(orders);
    if ids == [] {
      forall k, id | 0 <= k < |orders| ensures !IsFillOf(orders[k], id) {
        LeftoversAre(orders, id);
      }
    } else {
      assert ids[0] in ids;
      LeftoversAre(orders, ids[0]);
    }
  }

  lemma FlatLeftIff(orders: seq<OrderRow>, snapshot: Snapshot)
    ensures FlatFor(snapshot, Leftovers(orders))
      <==> forall k, id :: 0 <= k < |orders| && IsFillOf(orders[k], id) ==>
             id !in snapshot || -0.000001 <= snapshot[id] <= 0.000001
  {
    hide IsFillOf, Leftovers;
    var ids := Leftovers(orders);
    if FlatFor(snapshot, ids) {
      forall k, id | 0 <= k < |orders| && IsFillOf(orders[k], id)
        ensures id !in snapshot || -0.000001 <= snapshot[id] <= 0.000001
      {
        LeftoversAre(orders, id);
        var i :| 0 <= i < |ids| && ids[i] == id;
        assert FlatAt(snapshot, ids[i]);
      }
    } else {
      var i :| 0 <= i < |ids| && !FlatAt(snapshot, ids[i]);
      assert ids[i] in ids;
      LeftoversAre(orders, ids[i]);
    }
  }
}
