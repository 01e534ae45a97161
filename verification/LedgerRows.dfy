/** The restart check over order rows, and its agreement with the in-memory check. */
module LedgerRows {
  import opened Orders

  datatype Row = Row(leg: nat, isCompensation: bool, fillQty: real, quantity: real)

  function MirrorOf(o: Order): Row {
    Row(o.leg, o.isCompensation, o.filled, o.quantity)
  }

  /** The rows of a basket that mirror its in-memory orders. */
  function Mirror(orders: seq<Order>, ids: seq<nat>): seq<Row>
    requires InTable(orders, ids)
  {
    if ids == [] then [] else Mirror(orders, ids[..|ids| - 1]) + [MirrorOf(orders[ids[|ids| - 1]])]
  }

  function RowFills(rows: seq<Row>, leg: nat): real {
    if rows == [] then 0.0
    else
      var r := rows[|rows| - 1];
      RowFills(rows[..|rows| - 1], leg) + (if r.leg == leg && !r.isCompensation then r.fillQty else 0.0)
  }

  /** The largest quantity any row of the leg asked for. */
  function RowTarget(rows: seq<Row>, leg: nat): real {
    if rows == [] then 0.0
    else
      var r, most := rows[|rows| - 1], RowTarget(rows[..|rows| - 1], leg);
      if r.leg == leg && !r.isCompensation && most < r.quantity then r.quantity else most
  }

  function RowLegs(rows: seq<Row>): set<nat> {
    if rows == [] then {}
    else
      var r := rows[|rows| - 1];
      RowLegs(rows[..|rows| - 1]) + (if r.isCompensation then {} else {r.leg})
  }

  lemma OneMoreRow(rows: seq<Row>, i: nat, leg: nat)
    requires i < |rows|
    ensures var r, mine := rows[i], rows[i].leg == leg && !rows[i].isCompensation;
      && RowLegs(rows[..i + 1]) == RowLegs(rows[..i]) + (if r.isCompensation then {} else {r.leg})
      && RowFills(rows[..i + 1], leg) == RowFills(rows[..i], leg) + (if mine then r.fillQty else 0.0)
      && RowTarget(rows[..i + 1], leg)
         == if mine && RowTarget(rows[..i], leg) < r.quantity then r.quantity else RowTarget(rows[..i], leg)
  {
    assert rows[..i + 1][..i] == rows[..i];
  }

  predicate RowsComplete(intended: nat, rows: seq<Row>) {
    && |RowLegs(rows)| >= intended
    && forall leg :: leg in RowLegs(rows) ==> RowFills(rows, leg) + FILL_EPS >= RowTarget(rows, leg)
  }

  /** Both dictionaries hold what the rows add up to, leg by leg. */
  ghost predicate Collected(legFills: map<nat, real>, legTargets: map<nat, real>, rows: seq<Row>) {
    && legFills.Keys == legTargets.Keys == RowLegs(rows)
    && (forall leg :: leg in legFills ==> legFills[leg] == RowFills(rows, leg))
    && (forall leg :: leg in legTargets ==> legTargets[leg] == RowTarget(rows, leg))
    && (forall leg: nat :: leg !in legTargets ==> RowFills(rows, leg) == 0.0 == RowTarget(rows, leg))
  }

  lemma CollectedOneMore(legFills: map<nat, real>, legTargets: map<nat, real>, rows: seq<Row>, i: nat)
    requires i < |rows| && Collected(legFills, legTargets, rows[..i])
    ensures
      var r := rows[i];
      var fills := if r.leg in legFills then legFills[r.leg] else 0.0;
      var target := if r.leg in legTargets then legTargets[r.leg] else 0.0;
      if r.isCompensation then Collected(legFills, legTargets, rows[..i + 1])
      else
        Collected(legFills[r.leg := fills + r.fillQty], legTargets[r.leg := if target < r.quantity then r.quantity else target],
                  rows[..i + 1])
  {
    hide RowLegs, RowFills, RowTarget;
    forall leg: nat {
      OneMoreRow(rows, i, leg);
    }
  }

  method BasketCompleteFromDbOrders(intended: nat, rows: seq<Row>) returns (complete: bool)
    ensures complete <==> RowsComplete(intended, rows)
  {
    var legFills: map<nat, real>, legTargets: map<nat, real> := map[], map[];
    for i := 0 to |rows|
      invariant Collected(legFills, legTargets, rows[..i])
    {
      var r := rows[i];
      CollectedOneMore(legFills, legTargets, rows, i);
      if r.isCompensation {
        continue;
      }
      var fills := if r.leg in legFills then legFills[r.leg] else 0.0;
      var target := if r.leg in legTargets then legTargets[r.leg] else 0.0;
      legFills := legFills[r.leg := fills + r.fillQty];
      legTargets := legTargets[r.leg := if target < r.quantity then r.quantity else target];
    }
    assert rows[..|rows|] == rows;
    assert |legTargets| == |legTargets.Keys|;
    if |legTargets| < intended {
      return false;
    }
    complete := forall leg :: leg in legTargets.Keys ==> legFills[leg] + FILL_EPS >= legTargets[leg];
  }

  lemma {:induction false} MirrorSums(orders: seq<Order>, ids: seq<nat>, leg: nat)
    requires InTable(orders, ids)
    ensures RowFills(Mirror(orders, ids), leg) == FilledForLeg(orders, ids, leg)
    ensures leg in RowLegs(Mirror(orders, ids)) <==> HasOrder(orders, ids, leg)
    ensures !HasOrder(orders, ids, leg) ==> FilledForLeg(orders, ids, leg) == 0.0
  {
    if ids != [] {
      var n := |ids| - 1;
      var front := Mirror(orders, ids[..n]);
      MirrorSums(orders, ids[..n], leg);
      assert Mirror(orders, ids)[..|front|] == front;
      HasOrderOneMore(orders, ids, leg);
    }
  }

  lemma HasOrderOneMore(orders: seq<Order>, ids: seq<nat>, leg: nat)
    requires InTable(orders, ids) && ids != []
    ensures HasOrder(orders, ids, leg)
      <==> HasOrder(orders, ids[..|ids| - 1], leg) || OnLeg(orders[ids[|ids| - 1]], leg)
  {
    var n := |ids| - 1;
    if HasOrder(orders, ids[..n], leg) {
      var j :| 0 <= j < n && OnLeg(orders[ids[..n][j]], leg);
      assert OnLeg(orders[ids[j]], leg);
    }
    if HasOrder(orders, ids, leg) && !OnLeg(orders[ids[n]], leg) {
      var j :| 0 <= j < |ids| && OnLeg(orders[ids[j]], leg);
      assert OnLeg(orders[ids[..n][j]], leg);
    }
  }

  /** Along a chain the largest row of a leg is its first order: the leg's quantity. */
  lemma {:induction false} TargetIsLegQuantity(legs: seq<Leg>, orders: seq<Order>, ids: seq<nat>, leg: nat)
    requires Chain(legs, orders, ids) && AllSane(orders) && leg < |legs|
    ensures RowTarget(Mirror(orders, ids), leg)
         == if HasOrder(orders, ids, leg) then legs[leg].quantity else 0.0
  {
    if ids != [] {
      var n := |ids| - 1;
      var front := Mirror(orders, ids[..n]);
      assert Linked(legs, orders, ids, n);
      ChainPrefix(legs, orders, ids, n);
      TargetIsLegQuantity(legs, orders, ids[..n], leg);
      assert Mirror(orders, ids)[..|front|] == front;
      FilledNotNegative(orders, ids[..n], leg);
      MirrorSums(orders, ids[..n], leg);
      HasOrderOneMore(orders, ids, leg);
    }
  }

  /** For a basket built by the coordinator, with its rows mirroring its orders, the
      restart check says complete exactly when the in-memory check does and every leg
      was submitted. */
  lemma RowCheckAgrees(legs: seq<Leg>, orders: seq<Order>, ids: seq<nat>)
    requires Chain(legs, orders, ids) && AllSane(orders)
    ensures RowsComplete(|legs|, Mirror(orders, ids))
      <==> BasketComplete(legs, orders, ids) && forall i :: 0 <= i < |legs| ==> HasOrder(orders, ids, i)
  {
    var rows := Mirror(orders, ids);
    var all := Below(|legs|);
    LegCount(|legs|);
    forall leg | leg in RowLegs(rows) ensures leg in all {
      MirrorSums(orders, ids, leg);
      var j :| 0 <= j < |ids| && OnLeg(orders[ids[j]], leg);
      assert Linked(legs, orders, ids, j);
    }
    forall leg: nat | leg < |legs|
      ensures RowFills(rows, leg) == FilledForLeg(orders, ids, leg)
      ensures leg in RowLegs(rows) <==> HasOrder(orders, ids, leg)
      ensures HasOrder(orders, ids, leg) ==> RowTarget(rows, leg) == legs[leg].quantity
    {
      MirrorSums(orders, ids, leg);
      TargetIsLegQuantity(legs, orders, ids, leg);
    }
    if |RowLegs(rows)| >= |legs| {
      FullSubset(RowLegs(rows), all);
    }
    if forall i :: 0 <= i < |legs| ==> HasOrder(orders, ids, i) {
      assert all <= RowLegs(rows);
      assert RowLegs(rows) == all;
    }
  }

  /** Rows of reversing orders, which come last, do not matter to the check. */
  lemma {:induction false} CompensationRowsIgnored(intended: nat, rows: seq<Row>, comps: seq<Row>)
    requires forall i :: 0 <= i < |comps| ==> comps[i].isCompensation
    ensures RowsComplete(intended, rows + comps) <==> RowsComplete(intended, rows)
  {
    if comps == [] {
      assert rows + comps == rows;
    } else {
      var n := |comps| - 1;
      CompensationRowsIgnored(intended, rows, comps[..n]);
      assert (rows + comps)[..|rows| + n] == rows + comps[..n];
    }
  }

  /** With every leg asking for more than the fill tolerance the two checks agree. */
  lemma RowCheckAgreesForPositiveLegs(legs: seq<Leg>, orders: seq<Order>, ids: seq<nat>)
    requires Chain(legs, orders, ids) && AllSane(orders)
    requires forall i :: 0 <= i < |legs| ==> legs[i].quantity > FILL_EPS
    ensures RowsComplete(|legs|, Mirror(orders, ids)) <==> BasketComplete(legs, orders, ids)
  {
    RowCheckAgrees(legs, orders, ids);
    forall i: nat | i < |legs| && BasketComplete(legs, orders, ids) ensures HasOrder(orders, ids, i) {
      MirrorSums(orders, ids, i);
    }
  }

  lemma ChainPrefix(legs: seq<Leg>, orders: seq<Order>, ids: seq<nat>, n: nat)
    requires Chain(legs, orders, ids) && n <= |ids|
    ensures Chain(legs, orders, ids[..n])
  {
    forall j | 0 <= j < n ensures Linked(legs, orders, ids[..n], j) {
      assert Linked(legs, orders, ids, j);
      assert ids[..n][..j] == ids[..j];
    }
  }

  lemma {:induction false} LegCount(n: nat)
    ensures |Below(n)| == n && forall i: nat :: i in Below(n) <==> i < n
  {
    if n > 0 {
      LegCount(n - 1);
    }
  }

  function Below(n: nat): set<nat> {
    if n == 0 then {} else Below(n - 1) + {n - 1}
  }

  lemma FullSubset(a: set<nat>, b: set<nat>)
    requires a <= b && |a| >= |b|
    ensures a == b
  {
    if a != b {
      var x :| x in b && x !in a;
      SubsetSize(a, b - {x});
    }
  }

  lemma {:induction false} SubsetSize(a: set<nat>, b: set<nat>)
    requires a <= b
    ensures |a| <= |b|
  {
    if a != {} {
      var x :| x in a;
      SubsetSize(a - {x}, b - {x});
    }
  }
}
