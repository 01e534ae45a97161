/** The adapter object: callbacks update its tables in place under one lock. */
module IbkrAdapter {
  import opened Sides
  import opened Options
  import opened Orders
  import opened OmsOrders
  import opened Text
  import opened Adapter

  class IbkrExecutionAdapter {
    var orders: seq<OmsOrder>
    var ordersByTwsId: map<int, nat>
    var twsIdToInternalId: map<int, string>
    var execIdToOrder: map<ExecKey, nat>
    var seenExecIds: set<ExecKey>
    var commissionedExecIds: set<ExecKey>
    var pendingCommissions: map<ExecKey, real>
    var brokerAcked: set<nat>
    var fillEventEmitted: set<nat>
    var partialQtyEmitted: map<nat, real>
    /** What the state listeners have been called with. */
    var emitted: seq<Event>

    ghost function Tables(): State
      reads this
    {
      State(orders, ordersByTwsId, twsIdToInternalId, execIdToOrder, seenExecIds, commissionedExecIds,
            pendingCommissions, brokerAcked, fillEventEmitted, partialQtyEmitted, emitted)
    }

    ghost predicate Valid()
      reads this
    {
      IdsConsistent(Tables())
    }

    constructor ()
      ensures Valid() && Tables() == EMPTY
    {
      orders, ordersByTwsId, twsIdToInternalId, execIdToOrder := [], map[], map[], map[];
      seenExecIds, commissionedExecIds, pendingCommissions := {}, {}, map[];
      brokerAcked, fillEventEmitted, partialQtyEmitted, emitted := {}, {}, map[], [];
    }

    // ---- Which order a broker id means ----

    method BindTwsId(k: nat, id: int)
      requires k < |orders|
      modifies this`orders, this`ordersByTwsId, this`twsIdToInternalId
      ensures Tables() == Bind(old(Tables()), k, id) && |orders| == |old(orders)|
    {
      var o := orders[k];
      if o.twsId.Some? && o.twsId.value != id {
        ordersByTwsId := ordersByTwsId - {o.twsId.value};
        twsIdToInternalId := twsIdToInternalId - {o.twsId.value};
      }
      orders := orders[k := o.(twsId := Some(id))];
      ordersByTwsId := ordersByTwsId[id := k];
      twsIdToInternalId := twsIdToInternalId[id := o.internalId];
    }

    method FindByPermId(permId: int) returns (found: Option<nat>)
      ensures found == FirstWithPermId(orders, permId)
    {
      for k := 0 to |orders|
        invariant forall j :: 0 <= j < k ==> orders[j].permId != permId
      {
        if orders[k].permId == permId {
          return Some(k);
        }
      }
      found := None;
    }

    method CouldBeMeant(k: nat, conId: int, side: Side, quantity: real) returns (could: bool)
      requires k < |orders|
      ensures could == IsCandidate(Tables(), k, conId, side, quantity)
    {
      var o := orders[k];
      var gap := if o.quantity < quantity then quantity - o.quantity else o.quantity - quantity;
      var mapped := exists id :: id in ordersByTwsId && ordersByTwsId[id] == k;
      could := !mapped && !Terminal(o.status) && o.conId == Some(conId) && o.side == side && gap <= QTY_MATCH;
    }

    /** The live orders without a broker id that could be meant. */
    method FindCandidates(conId: int, side: Side, quantity: real) returns (found: seq<nat>)
      ensures found == Candidates(Tables(), |orders|, conId, side, quantity)
    {
      hide IsCandidate;
      found := [];
      for k := 0 to |orders|
        invariant found == Candidates(Tables(), k, conId, side, quantity)
      {
        var could := CouldBeMeant(k, conId, side, quantity);
        if could {
          found := found + [k];
        }
      }
    }

    /** The order a callback is about, if any. */
    method FindOrder(id: int, permId: int, conId: int, side: Option<Side>, quantity: Option<real>) returns (found: Option<nat>)
      requires InRange(Tables())
      ensures found == Target(Tables(), id, permId, conId, side, quantity)
    {
      hide IsCandidate, Candidates, FirstWithPermId;
      if id in ordersByTwsId {
        return Some(ordersByTwsId[id]);
      }
      found := None;
      if permId != 0 {
        found := FindByPermId(permId);
      }
      if found.None? && conId != 0 && side.Some? && quantity.Some? {
        var candidates := FindCandidates(conId, side.value, quantity.value);
        if |candidates| == 1 {
          found := Some(candidates[0]);
        }
      }
    }

    method ResolveOrder(id: int, permId: int, conId: int, side: Option<Side>, quantity: Option<real>)
      returns (found: Option<nat>)
      requires Valid()
      modifies this`orders, this`ordersByTwsId, this`twsIdToInternalId
      ensures Valid()
      ensures found == Target(old(Tables()), id, permId, conId, side, quantity)
      ensures Tables() == Resolve(old(Tables()), id, permId, conId, side, quantity)
      ensures |orders| == |old(orders)| && (found.Some? ==> found.value < |orders|)
      ensures found.None? ==> Tables() == old(Tables())
    {
      hide IdsConsistent, Target, Bind;
      ResolveConsistent(Tables(), id, permId, conId, side, quantity);
      InRangeHolds(Tables());
      found := FindOrder(id, permId, conId, side, quantity);
      if id !in ordersByTwsId && found.Some? {
        BindTwsId(found.value, id);
      }
    }

    lemma InRangeHolds(s: State)
      requires IdsConsistent(s)
      ensures InRange(s)
    {}

    // ---- Applying a callback to its order ----

    method ApplyMappedStatus(k: nat, mapped: Status, filled: Option<real>, remaining: Option<real>)
      requires k < |orders|
      modifies this`orders
      ensures orders == old(orders)[k := ApplyStatus(old(orders)[k], mapped, filled, remaining)]
    {
      var o := orders[k];
      if Terminal(o.status) {
        return;
      }
      if filled.Some? && o.filled < filled.value {
        o := o.(filled := filled.value);
      }
      if remaining.Some? {
        o := o.(remaining := remaining.value);
      }
      if mapped == Cancelled || mapped == Rejected || mapped == Error {
        o := o.(status := mapped);
      } else if o.filled > 0.0 && o.remaining > 0.0 {
        o := o.(status := PartiallyFilled);
      } else if o.filled >= o.quantity || (mapped == Filled && o.filled > 0.0) {
        o := o.(status := Filled);
      } else if mapped == Filled {
        if o.status == Pending {
          o := o.(status := Submitted);
        }
      } else {
        o := o.(status := mapped);
      }
      orders := orders[k := o];
    }

    /** The acknowledgement first, then the fill event the order is due. */
    method EmitCallbackEvents(k: nat, source: Source, isNew: bool)
      requires k < |orders|
      modifies this`brokerAcked, this`fillEventEmitted, this`partialQtyEmitted, this`emitted
      ensures Tables() == Announce(old(Tables()), k, source, isNew)
    {
      hide Tag, TellsPartialByStatus;
      var ack: seq<Kind> := if k in brokerAcked then [] else [AckEvent];
      var due := DueFillEvent(k, source, isNew);
      brokerAcked := brokerAcked + {k};
      emitted := emitted + Tag(k, ack + due);
    }

    method DueFillEvent(k: nat, source: Source, isNew: bool) returns (due: seq<Kind>)
      requires k < |orders|
      modifies this`fillEventEmitted, this`partialQtyEmitted
      ensures due == FillKinds(old(Tables()), k, source, isNew)
      ensures fillEventEmitted == if orders[k].status == Filled then old(fillEventEmitted) + {k} else old(fillEventEmitted)
      ensures partialQtyEmitted
           == if TellsPartialByStatus(old(Tables()), k, source) then old(partialQtyEmitted)[k := orders[k].filled]
              else old(partialQtyEmitted)
    {
      due := [];
      var o := orders[k];
      if o.status == Filled {
        if k !in fillEventEmitted {
          due := [FillEvent];
        }
        fillEventEmitted := fillEventEmitted + {k};
      } else if o.status == PartiallyFilled {
        if source == FromExecution {
          if isNew {
            due := [PartialFillEvent];
          }
        } else if source == FromStatus && o.executions == [] {
          var told := if k in partialQtyEmitted then partialQtyEmitted[k] else 0.0;
          if o.filled > told {
            partialQtyEmitted := partialQtyEmitted[k := o.filled];
            due := [PartialFillEvent];
          }
        }
      }
    }

    // ---- Callbacks ----

    method OnOrderStatus(id: int, raw: string, filled: real, remaining: real, average: Option<real>, permId: int, last: Option<real>)
      requires Valid()
      modifies this
      ensures Valid() && Tables() == Step(old(Tables()), OrderStatus(id, raw, filled, remaining, average, permId, last))
    {
      hide IdsConsistent, Target, Resolve, Announce, ApplyStatus, MapStatus, WeightedAverage;
      ghost var c := OrderStatus(id, raw, filled, remaining, average, permId, last);
      StepConsistent(Tables(), c);
      InRangeHolds(Tables());
      var found := ResolveOrder(id, permId, 0, None, None);
      if found.None? {
        return;
      }
      var k := found.value;
      ghost var bound := Tables();
      var o := NoteReport(orders[k], average, permId, last);
      orders := orders[k := o];
      ApplyMappedStatus(k, MapStatus(raw), Some(filled), Some(remaining));
      assert orders == bound.orders[k := OnStatusReport(bound.orders[k], raw, filled, remaining, average, permId, last)];
      assert Tables() == bound.(orders := orders);
      EmitCallbackEvents(k, FromStatus, false);
    }

    /** The permanent id and the prices of a status report. */
    method NoteReport(o: OmsOrder, average: Option<real>, permId: int, last: Option<real>) returns (noted: OmsOrder)
      ensures noted == NotePrices(LearnPermId(o, permId), ReportedAverage(LearnPermId(o, permId), average), Usable(last, None))
    {
      hide WeightedAverage, Usable;
      noted := o;
      if permId != 0 {
        noted := noted.(permId := permId);
      }
      var derived := ExecutionsWeightedAverage(noted.executions);
      var reported := Usable(average, noted.limitPrice);
      if derived.Some? {
        noted := noted.(average := derived);
      } else if reported.Some? {
        noted := noted.(average := reported);
      }
      var usableLast := Usable(last, None);
      if usableLast.Some? {
        noted := noted.(last := usableLast);
      }
    }

    method OnOpenOrder(id: int, raw: string, permId: int, conId: int, side: Option<Side>, quantity: real)
      requires Valid()
      modifies this
      ensures Valid() && Tables() == Step(old(Tables()), OpenOrder(id, raw, permId, conId, side, quantity))
    {
      hide IdsConsistent, Target, Resolve, Announce, ApplyStatus, MapStatus;
      StepConsistent(Tables(), OpenOrder(id, raw, permId, conId, side, quantity));
      InRangeHolds(Tables());
      if raw == "" {
        return;
      }
      var found := ResolveOrder(id, permId, conId, side, if quantity > 0.0 then Some(quantity) else None);
      if found.None? {
        return;
      }
      ghost var bound := Tables();
      var k := found.value;
      if permId != 0 {
        orders := orders[k := orders[k].(permId := permId)];
      }
      ApplyMappedStatus(k, MapStatus(raw), None, None);
      assert orders == bound.orders[k := OnOpenOrderReport(bound.orders[k], raw, permId)];
      assert Tables() == bound.(orders := orders);
      EmitCallbackEvents(k, FromOpenOrder, false);
    }

    method OnExecDetails(id: int, execId: string, conId: int, side: Option<Side>, r: Report)
      requires Valid()
      modifies this
      ensures Valid() && Tables() == Step(old(Tables()), ExecDetails(id, execId, conId, side, r))
    {
      hide IdsConsistent, Target, Resolve, Execute;
      StepConsistent(Tables(), ExecDetails(id, execId, conId, side, r));
      InRangeHolds(Tables());
      var found := ResolveOrder(id, r.permId, conId, side, if r.shares > 0.0 then Some(r.shares) else None);
      if found.Some? {
        RecordExecution(found.value, execId, r);
      }
    }

    method RecordExecution(k: nat, execId: string, r: Report)
      requires k < |orders|
      modifies this
      ensures Tables() == Execute(old(Tables()), k, execId, r)
    {
      hide Announce, SharesOf, WeightedAverage, CommissionTotal, CommissionOf, Counted, KeyFor;
      var key := KeyFor(orders[k], execId, r);
      var isNew := key !in seenExecIds;
      seenExecIds := seenExecIds + {key};
      execIdToOrder := execIdToOrder[key := k];
      var o := CountReport(orders[k], r, isNew);
      if isNew && Usable(r.price, None).Some? && r.shares > 0.0 {
        var commission := None;
        if key in pendingCommissions {
          commission := Some(pendingCommissions[key]);
          commissionedExecIds := commissionedExecIds + {key};
        }
        pendingCommissions := pendingCommissions - {key};
        o := AppendRecord(o, Record(key, r.shares, r.price.value, commission));
      }
      orders := orders[k := o];
      EmitCallbackEvents(k, FromExecution, isNew);
    }

    method AppendRecord(o: OmsOrder, record: Record) returns (after: OmsOrder)
      ensures after == Recorded(o, record)
    {
      after := o.(executions := o.executions + [record]);
      var total := ExecutionsCommissionTotal(after.executions);
      after := after.(commission := if total == 0.0 then None else Some(total));
      var derived := ExecutionsWeightedAverage(after.executions);
      if derived.Some? {
        after := after.(average := derived);
      }
    }

    method CountReport(o: OmsOrder, r: Report, isNew: bool) returns (counted: OmsOrder)
      ensures counted == Counted(o, r, isNew)
    {
      hide CountExecution, Usable;
      counted := CountShares(o, r, isNew);
      var price, average := Usable(r.price, None), Usable(r.average, None);
      if price.Some? {
        counted := counted.(last := price);
      }
      if average.Some? {
        counted := counted.(average := average);
      }
      if !Terminal(counted.status) {
        if counted.filled >= counted.quantity {
          counted := counted.(status := Filled);
        } else if counted.filled > 0.0 {
          counted := counted.(status := PartiallyFilled);
        }
      }
      if r.permId != 0 {
        counted := counted.(permId := r.permId);
      }
    }

    /** The filled and remaining quantities after an execution report. */
    method CountShares(o: OmsOrder, r: Report, isNew: bool) returns (counted: OmsOrder)
      ensures counted == CountExecution(o, r, isNew)
    {
      counted := o;
      if r.cumQty > 0.0 {
        counted := counted.(filled := if o.filled < r.cumQty then r.cumQty else o.filled);
      } else if r.shares > 0.0 {
        var shares := 0.0;
        for i := 0 to |o.executions|
          invariant shares == SharesOf(o.executions[..i])
        {
          assert o.executions[..i + 1][..i] == o.executions[..i];
          shares := shares + o.executions[i].quantity;
        }
        assert o.executions[..|o.executions|] == o.executions;
        if isNew {
          shares := shares + r.shares;
        }
        counted := counted.(filled := if o.filled < shares then shares else o.filled);
      } else {
        return;
      }
      counted := counted.(remaining := if counted.quantity < counted.filled then 0.0 else counted.quantity - counted.filled);
    }

    method OnCommissionReport(execId: string, raw: Option<real>)
      requires Valid()
      modifies this
      ensures Valid() && Tables() == Step(old(Tables()), CommissionReport(execId, raw))
    {
      hide IdsConsistent, OmsOrders.OnCommission, RecordIndex;
      StepConsistent(Tables(), CommissionReport(execId, raw));
      InRangeHolds(Tables());
      var key := Given(execId);
      var commission := Usable(raw, Some(0.0)).value;
      if execId == "" || key in commissionedExecIds {
        return;
      }
      if key !in execIdToOrder {
        pendingCommissions := pendingCommissions[key := commission];
        return;
      }
      var k := execIdToOrder[key];
      var o := orders[k];
      var at := RecordIndex(o.executions, key);
      if at.None? {
        pendingCommissions := pendingCommissions[key := commission];
        return;
      }
      o := ChargeRecord(o, at.value, commission);
      commissionedExecIds := commissionedExecIds + {key};
      orders := orders[k := o];
      emitted := emitted + [Event(k, CommissionEvent)];
    }

    /** The order with the commission of one record and the new total. */
    method ChargeRecord(o: OmsOrder, i: nat, commission: real) returns (after: OmsOrder)
      requires i < |o.executions|
      ensures after == OmsOrders.OnCommission(o, i, commission)
    {
      after := o.(executions := o.executions[i := o.executions[i].(commission := Some(commission))]);
      var total := ExecutionsCommissionTotal(after.executions);
      after := after.(commission := if total == 0.0 then None else Some(total));
    }

    method OnError(id: int, code: int, text: string)
      requires Valid()
      modifies this
      ensures Valid() && Tables() == Step(old(Tables()), BrokerError(id, code, text))
    {
      hide IdsConsistent, ErrorText, Blank, IsRejection;
      StepConsistent(Tables(), BrokerError(id, code, text));
      InRangeHolds(Tables());
      if id !in ordersByTwsId {
        return;
      }
      var k := ordersByTwsId[id];
      var o := orders[k];
      var message := ErrorText(code, text);
      if message.None? || !Blank(o.message) {
        return;
      }
      o := o.(message := message.value);
      if !Terminal(o.status) {
        if code == 202 {
          o := o.(status := Cancelled);
        } else if IsRejection(code) {
          o := o.(status := Rejected);
        } else {
          o := o.(status := Error);
        }
      }
      orders := orders[k := o];
      emitted := emitted + [Event(k, StatusEvent(o.status))];
    }

    method OnConnectionClosed()
      requires Valid()
      modifies this`orders
      ensures Valid() && Tables() == Step(old(Tables()), ConnectionClosed)
    {
      hide IdsConsistent;
      StepConsistent(Tables(), ConnectionClosed);
      ghost var was := orders;
      for k := 0 to |orders|
        invariant |orders| == |was|
        invariant forall j :: 0 <= j < |was| ==> orders[j] == if j < k then Park(was[j]) else was[j]
      {
        if !Terminal(orders[k].status) {
          orders := orders[k := orders[k].(status := Error, message := CLOSED)];
        }
      }
      assert orders == ParkAll(was);
    }

    method OnConnectionRestored()
      requires Valid()
      modifies this`orders
      ensures Valid() && Tables() == Step(old(Tables()), ConnectionRestored)
    {
      hide IdsConsistent;
      StepConsistent(Tables(), ConnectionRestored);
      ghost var was := orders;
      for k := 0 to |orders|
        invariant |orders| == |was|
        invariant forall j :: 0 <= j < |was| ==> orders[j] == if j < k then Unpark(was[j]) else was[j]
      {
        if orders[k].status == Error && "Connection closed" <= orders[k].message {
          orders := orders[k := orders[k].(status := Submitted, message := "")];
        }
      }
      assert orders == UnparkAll(was);
    }

    /** Files the order under its allocated id before it is placed. Refuses an internal id
        it has seen. */
    method SubmitOrder(o: OmsOrder, id: int) returns (accepted: bool)
      requires Valid() && Admissible(Tables(), Submit(o, id))
      modifies this
      ensures Valid() && Tables() == Step(old(Tables()), Submit(o, id))
      ensures accepted <==> !Registered(old(Tables()), o.internalId)
    {
      hide IdsConsistent, Admissible;
      StepConsistent(Tables(), Submit(o, id));
      InRangeHolds(Tables());
      if exists k :: 0 <= k < |orders| && orders[k].internalId == o.internalId {
        return false;
      }
      ordersByTwsId := ordersByTwsId[id := |orders|];
      twsIdToInternalId := twsIdToInternalId[id := o.internalId];
      orders := orders + [o.(twsId := Some(id))];
      return true;
    }

    /** Registers an existing order under the id it carries, in place of one with its
        internal id. */
    method AdoptOrder(o: OmsOrder)
      requires Valid() && IdIsFree(Tables(), o)
      modifies this
      ensures Tables() == OnAdopt(old(Tables()), o)
      ensures Valid() <==>
        !exists k :: 0 <= k < |old(orders)| && old(orders)[k].internalId == o.internalId && LeavesStale(old(orders)[k], o)
    {
      hide IdsConsistent, IdIsFree, LeavesStale, Bind, Registering, PlaceOf;
      AdoptConsistentIff(Tables(), o);
      InRangeHolds(Tables());
      var k := RegisterOrder(o);
      if o.twsId.Some? {
        BindTwsId(k, o.twsId.value);
      }
    }

    /** The new order at the end, or in place of the one with its internal id. */
    method RegisterOrder(o: OmsOrder) returns (k: nat)
      requires InRange(Tables())
      modifies this`orders, this`ordersByTwsId
      ensures Tables() == Registering(old(Tables()), o)
      ensures k == PlaceOf(old(orders), o.internalId).GetOr(|old(orders)|) && k < |orders|
    {
      hide PlaceOf;
      var at := FindByInternalId(o.internalId);
      k := at.GetOr(|orders|);
      if at.None? {
        orders := orders + [o];
        return;
      }
      var was := orders[k];
      orders := orders[k := o];
      if was.twsId.Some? && was.twsId != o.twsId {
        ordersByTwsId := ordersByTwsId[was.twsId.value := |orders|];
        orders := orders + [was];
      }
    }

    method FindByInternalId(internalId: string) returns (found: Option<nat>)
      ensures found == PlaceOf(orders, internalId)
    {
      found := None;
      for k := 0 to |orders|
        invariant found == PlaceOf(orders[..k], internalId)
      {
        assert orders[..k + 1][..k] == orders[..k];
        if orders[k].internalId == internalId {
          found := Some(k);
        }
      }
      assert orders[..|orders|] == orders;
    }
  }
}
