/** Orders of one basket as the coordinator sees them: the OMS order table, what the
    broker may do to it between two coordinator steps, and the sums taken over it. */
module Orders {
  import opened Sides

  datatype Status = Pending | Submitted | PartiallyFilled | Filled | Cancelled | Rejected | Error

  type Quantity = q: real | 0.0 <= q

  const FILL_EPS: real := 0.00000001

  datatype Leg = Leg(side: Side, quantity: Quantity)

  /** `parked` tells an Error whose message starts with "Connection closed". */
  datatype Order = Order(
    leg: nat, side: Side, quantity: Quantity, filled: real, status: Status, parked: bool, isCompensation: bool)
  {
    predicate IsParked() {
      status == Error && parked
    }

    /** No longer waited for: filled, cancelled, rejected or a real error, not a park. */
    predicate IsSettled() {
      status == Filled || status == Cancelled || status == Rejected || (status == Error && !parked)
    }
  }

  predicate Sane(o: Order) {
    0.0 <= o.filled <= o.quantity
  }

  /** What any sequence of broker callbacks may do to an order: fills only grow and stay
      within its quantity, and nothing lands on a settled order. */
  predicate Evolves(before: Order, after: Order) {
    && after == before.(filled := after.filled, status := after.status, parked := after.parked)
    && before.filled <= after.filled <= before.quantity
    && (before.IsSettled() ==> after == before)
  }

  predicate AllSane(orders: seq<Order>) {
    forall i :: 0 <= i < |orders| ==> Sane(orders[i])
  }

  /** The whole table moves on; other baskets may append to it. */
  predicate TableEvolves(before: seq<Order>, after: seq<Order>) {
    && |before| <= |after|
    && forall i :: 0 <= i < |before| ==> Evolves(before[i], after[i])
  }

  lemma EvolvesSelf(a: seq<Order>)
    requires AllSane(a)
    ensures TableEvolves(a, a)
  {}

  lemma EvolvesOn(a: seq<Order>, b: seq<Order>, c: seq<Order>)
    requires TableEvolves(a, b) && TableEvolves(b, c)
    ensures TableEvolves(a, c)
  {}

  predicate Increasing(ids: seq<nat>) {
    forall i, j :: 0 <= i < j < |ids| ==> ids[i] < ids[j]
  }

  // ---- Sums over a basket's orders ----

  /** Indices into the table. */
  predicate InTable(orders: seq<Order>, ids: seq<nat>) {
    forall j :: 0 <= j < |ids| ==> ids[j] < |orders|
  }

  predicate OnLeg(o: Order, leg: nat) {
    o.leg == leg && !o.isCompensation
  }

  function FilledForLeg(orders: seq<Order>, ids: seq<nat>, leg: nat): real
    requires InTable(orders, ids)
  {
    if ids == [] then 0.0
    else
      var o := orders[ids[|ids| - 1]];
      FilledForLeg(orders, ids[..|ids| - 1], leg) + (if OnLeg(o, leg) then o.filled else 0.0)
  }

  /** What the orders of a leg can still come to: fills of settled orders and the whole
      quantity of those still working. */
  function ExposureForLeg(orders: seq<Order>, ids: seq<nat>, leg: nat): real
    requires InTable(orders, ids)
  {
    if ids == [] then 0.0
    else
      var o := orders[ids[|ids| - 1]];
      ExposureForLeg(orders, ids[..|ids| - 1], leg)
      + (if !OnLeg(o, leg) then 0.0 else if o.IsSettled() then o.filled else o.quantity)
  }

  predicate HasOrder(orders: seq<Order>, ids: seq<nat>, leg: nat)
    requires InTable(orders, ids)
  {
    exists j :: 0 <= j < |ids| && OnLeg(orders[ids[j]], leg)
  }

  predicate BasketComplete(legs: seq<Leg>, orders: seq<Order>, ids: seq<nat>)
    requires InTable(orders, ids)
  {
    forall i :: 0 <= i < |legs| ==> FilledForLeg(orders, ids, i) + FILL_EPS >= legs[i].quantity
  }

  predicate AllSettled(orders: seq<Order>, ids: seq<nat>)
    requires InTable(orders, ids)
  {
    forall j :: 0 <= j < |ids| ==> orders[ids[j]].IsSettled()
  }

  predicate LegSettled(orders: seq<Order>, ids: seq<nat>, leg: nat)
    requires InTable(orders, ids)
  {
    forall j :: 0 <= j < |ids| && OnLeg(orders[ids[j]], leg) ==> orders[ids[j]].IsSettled()
  }

  lemma {:induction false} FilledNotNegative(orders: seq<Order>, ids: seq<nat>, leg: nat)
    requires InTable(orders, ids) && AllSane(orders)
    ensures 0.0 <= FilledForLeg(orders, ids, leg)
  {
    if ids != [] {
      FilledNotNegative(orders, ids[..|ids| - 1], leg);
    }
  }

  /** Fills of a leg never go down, and stand still once its orders are settled. */
  lemma {:induction false} FilledEvolves(before: seq<Order>, after: seq<Order>, ids: seq<nat>, leg: nat)
    requires InTable(before, ids) && TableEvolves(before, after)
    ensures FilledForLeg(before, ids, leg) <= FilledForLeg(after, ids, leg)
    ensures LegSettled(before, ids, leg) ==> FilledForLeg(before, ids, leg) == FilledForLeg(after, ids, leg)
  {
    if ids != [] {
      FilledEvolves(before, after, ids[..|ids| - 1], leg);
      assert Evolves(before[ids[|ids| - 1]], after[ids[|ids| - 1]]);
    }
  }

  lemma SettledStaysSettled(before: seq<Order>, after: seq<Order>, ids: seq<nat>)
    requires InTable(before, ids) && TableEvolves(before, after)
    ensures AllSettled(before, ids) ==> AllSettled(after, ids)
    ensures forall leg :: LegSettled(before, ids, leg) ==> LegSettled(after, ids, leg)
  {
    forall j | 0 <= j < |ids| ensures Evolves(before[ids[j]], after[ids[j]]) {}
  }

  lemma FilledOneMore(orders: seq<Order>, ids: seq<nat>, k: nat, leg: nat)
    requires InTable(orders, ids) && k < |orders|
    ensures FilledForLeg(orders, ids + [k], leg)
         == FilledForLeg(orders, ids, leg) + (if OnLeg(orders[k], leg) then orders[k].filled else 0.0)
  {
    assert (ids + [k])[..|ids|] == ids;
  }

  lemma {:induction false} NoOrderNoFill(orders: seq<Order>, ids: seq<nat>, leg: nat)
    requires InTable(orders, ids)
    requires forall j :: 0 <= j < |ids| ==> orders[ids[j]].leg != leg
    ensures FilledForLeg(orders, ids, leg) == 0.0
  {
    if ids != [] {
      NoOrderNoFill(orders, ids[..|ids| - 1], leg);
    }
  }

  lemma HasOrderEvolves(before: seq<Order>, after: seq<Order>, ids: seq<nat>, leg: nat)
    requires InTable(before, ids) && TableEvolves(before, after) && HasOrder(before, ids, leg)
    ensures HasOrder(after, ids, leg)
  {
    var j :| 0 <= j < |ids| && OnLeg(before[ids[j]], leg);
    assert Evolves(before[ids[j]], after[ids[j]]) && OnLeg(after[ids[j]], leg);
  }

  lemma CompleteStaysComplete(legs: seq<Leg>, before: seq<Order>, after: seq<Order>, ids: seq<nat>)
    requires InTable(before, ids) && TableEvolves(before, after) && BasketComplete(legs, before, ids)
    ensures BasketComplete(legs, after, ids)
  {
    forall i | 0 <= i < |legs| ensures FilledForLeg(after, ids, i) + FILL_EPS >= legs[i].quantity {
      FilledEvolves(before, after, ids, i);
    }
  }

  // ---- The chain of orders on each leg ----

  /** How a basket's orders arise: each order asks for exactly what the earlier orders
      of its leg left unfilled, and is placed only once those are settled. */
  ghost predicate Chain(legs: seq<Leg>, orders: seq<Order>, ids: seq<nat>) {
    && InTable(orders, ids)
    && (forall j :: 0 <= j < |ids| ==> Linked(legs, orders, ids, j))
  }

  ghost predicate Linked(legs: seq<Leg>, orders: seq<Order>, ids: seq<nat>, j: nat)
    requires InTable(orders, ids) && j < |ids|
  {
    var o := orders[ids[j]];
    && !o.isCompensation
    && o.leg < |legs|
    && o.side == legs[o.leg].side
    && o.quantity == legs[o.leg].quantity - FilledForLeg(orders, ids[..j], o.leg)
    && LegSettled(orders, ids[..j], o.leg)
  }

  lemma ChainEvolves(legs: seq<Leg>, before: seq<Order>, after: seq<Order>, ids: seq<nat>)
    requires Chain(legs, before, ids) && TableEvolves(before, after)
    ensures Chain(legs, after, ids)
  {
    forall j | 0 <= j < |ids| ensures Linked(legs, after, ids, j) {
      assert Linked(legs, before, ids, j);
      assert Evolves(before[ids[j]], after[ids[j]]);
      FilledEvolves(before, after, ids[..j], before[ids[j]].leg);
      forall i | 0 <= i < j && OnLeg(after[ids[i]], before[ids[j]].leg)
        ensures after[ids[..j][i]].IsSettled()
      {
        assert OnLeg(before[ids[..j][i]], before[ids[j]].leg);
      }
    }
  }

  lemma ChainExtends(legs: seq<Leg>, orders: seq<Order>, ids: seq<nat>, k: nat)
    requires Chain(legs, orders, ids) && k < |orders|
    requires Linked(legs, orders, ids + [k], |ids|)
    ensures Chain(legs, orders, ids + [k])
  {
    forall j | 0 <= j < |ids + [k]| ensures Linked(legs, orders, ids + [k], j) {
      assert j < |ids| ==> Linked(legs, orders, ids, j);
      assert j < |ids| ==> (ids + [k])[..j] == ids[..j];
    }
  }

  lemma {:induction false} SettledExposure(orders: seq<Order>, ids: seq<nat>, leg: nat)
    requires InTable(orders, ids) && LegSettled(orders, ids, leg)
    ensures ExposureForLeg(orders, ids, leg) == FilledForLeg(orders, ids, leg)
  {
    if ids != [] {
      SettledExposure(orders, ids[..|ids| - 1], leg);
    }
  }

  /** Retries never over-order: fills plus everything still working on a leg stay within
      the quantity the intent asked for. */
  lemma {:induction false} NeverOverOrdered(legs: seq<Leg>, orders: seq<Order>, ids: seq<nat>, leg: nat)
    requires Chain(legs, orders, ids) && AllSane(orders) && leg < |legs|
    ensures FilledForLeg(orders, ids, leg) <= ExposureForLeg(orders, ids, leg) <= legs[leg].quantity
  {
    if ids != [] {
      var n := |ids| - 1;
      var o := orders[ids[n]];
      assert Linked(legs, orders, ids, n);
      forall j | 0 <= j < n ensures Linked(legs, orders, ids[..n], j) {
        assert Linked(legs, orders, ids, j);
        assert ids[..n][..j] == ids[..j];
      }
      NeverOverOrdered(legs, orders, ids[..n], leg);
      if o.leg == leg {
        SettledExposure(orders, ids[..n], leg);
      }
    }
  }
}
