/** The listener object: callbacks update its tables in place. A handler's transaction
    is one step; its effect is the corresponding step on the books. */
module ManualListener {
  import opened Sides
  import opened Options
  import opened Ledger
  import opened ManualLedger
  import opened ManualOutcomes

  class ManualExecutionListener {
    const accounts: map<string, nat>
    var orders: seq<ManualOrder>
    var rows: seq<ExecRow>
    var positions: map<Lot, StoredPosition>
    var pendingCommissions: map<string, real>

    ghost function State(): Books
      reads this
    {
      Books(orders, rows, positions, pendingCommissions)
    }

    /** Starts over the stored tables, with nothing buffered. */
    constructor (accounts: map<string, nat>, orders: seq<ManualOrder>, rows: seq<ExecRow>, positions: map<Lot, StoredPosition>)
      ensures State() == Books(orders, rows, positions, map[]) && this.accounts == accounts
      ensures rows == [] && positions == map[] ==> Replays(State())
    {
      this.accounts, this.orders, this.rows, this.positions := accounts, orders, rows, positions;
      pendingCommissions := map[];
      new;
      EmptyBooksReplay(orders);
    }

    /** Returns the correlated order and whether the execution was new to it. */
    method HandleExecDetails(ev: Execution) returns (order: Option<nat>, isNew: bool)
      modifies this
      ensures State() == OnExecution(old(State()), accounts, ev)
      ensures forall k: nat :: order == Some(k) <==> ev.execId != "" && Named(old(orders), accounts, ev, k)
      ensures isNew <==> Accepts(old(State()), accounts, ev).Some? && ev.side.Some?
    {
      hide BookFill, Correlate, RowIndex, Newest, Named;
      CorrelatesIff(orders, accounts, ev);
      order, isNew := None, false;
      if ev.execId == "" {
        return;
      }
      var commission := None;
      if ev.execId in pendingCommissions {
        commission := Some(pendingCommissions[ev.execId]);
      }
      pendingCommissions := pendingCommissions - {ev.execId};
      order := Correlate(orders, accounts, ev);
      if order.None? {
        return;
      }
      var k := order.value;
      if ev.permId != 0 && orders[k].permId.None? {
        orders := orders[k := orders[k].(permId := Some(ev.permId))];
      }
      var lot := LotOf(orders[k]);
      if lot in positions && positions[lot].status == Closed && positions[lot].book.signedQty == 0.0 {
        return;
      }
      if RowIndex(rows, ev.execId).Some? {
        return;
      }
      if ev.side.None? {
        rows := rows + [ExecRow(k, ev.execId, ev.shares, ev.price, commission)];
        return;
      }
      BookExecution(k, ev, ev.side.value, commission);
      isNew := true;
    }

    /** The row, the position and the order's status of an accepted execution. */
    method BookExecution(k: nat, ev: Execution, side: Side, commission: Option<real>)
      requires k < |orders| && !IsClosed(PositionOf(State(), LotOf(orders[k])))
      modifies this`orders, this`rows, this`positions
      ensures State() == BookFill(old(State()), k, ev, side, commission)
    {
      hide PositionAfter, FilledOf;
      rows := rows + [ExecRow(k, ev.execId, ev.shares, ev.price, commission)];
      ApplyExecution(LotOf(orders[k]), Fill(side, ev.shares, ev.price, commission.GetOr(0.0)));
      var filled := FilledOf(rows, k);
      var status := orders[k].status;
      if filled >= orders[k].quantity {
        status := Filled;
      } else if status != Cancelled && status != Rejected && status != Error {
        status := PartiallyFilled;
      }
      orders := orders[k := orders[k].(status := status)];
    }

    /** The position repository's eight transitions on one lot. */
    method ApplyExecution(lot: Lot, f: Fill)
      requires !IsClosed(PositionOf(State(), lot))
      modifies this`positions
      ensures positions == old(positions)[lot := PositionAfter(PositionOf(old(State()), lot), f)]
      ensures LotTakes(old(State()), State(), lot, f)
    {
      hide JoinedAverage, GrossOnClose, LotTakes;
      LotTakesFill(State(), lot, f);
      var d := f.Signed();
      if lot !in positions {
        positions := positions[lot := StoredPosition(Position(d, f.price, 0.0 - f.commission), Open)];
        return;
      }
      var p := positions[lot].book;
      var held := Abs(p.signedQty);
      if p.signedQty == 0.0 {
        positions := positions[lot := StoredPosition(Position(d, f.price, p.realized - f.commission), Open)];
      } else if SameDirection(p.signedQty, d) {
        var total := p.signedQty + d;
        var average := JoinedAverage(held, p.avgCost, f.quantity, f.price, Abs(total));
        positions := positions[lot := StoredPosition(Position(total, average, p.realized - f.commission), Open)];
      } else {
        var closed := if held < f.quantity then held else f.quantity;
        p := p.(realized := p.realized + GrossOnClose(p.signedQty, p.avgCost, closed, f.price) - f.commission);
        if held > f.quantity {
          positions := positions[lot := StoredPosition(p.(signedQty := p.signedQty + d), Open)];
        } else if held == f.quantity {
          positions := positions[lot := StoredPosition(p.(signedQty := 0.0), Closed)];
        } else {
          var flipped := (if d > 0.0 then 1.0 else -1.0) * (f.quantity - held);
          positions := positions[lot := StoredPosition(p.(signedQty := flipped, avgCost := f.price), Open)];
        }
      }
    }

    method HandleCommissionReport(execId: string, commission: real) returns (handled: bool)
      modifies this
      ensures State() == OnCommission(old(State()), execId, commission)
      ensures handled
        <==> execId != "" && (var at := RowIndex(old(rows), execId); at.None? || old(rows)[at.value].commission in {None, Some(0.0)})
    {
      if execId == "" {
        return false;
      }
      var at := RowIndex(rows, execId);
      if at.None? {
        pendingCommissions := pendingCommissions[execId := commission];
        return true;
      }
      var row := rows[at.value];
      if row.commission.Some? && row.commission.value != 0.0 {
        return false;
      }
      rows := rows[at.value := row.(commission := Some(commission))];
      if row.orderId < |orders| {
        var lot := LotOf(orders[row.orderId]);
        if lot in positions {
          var book := positions[lot].book;
          positions := positions[lot := positions[lot].(book := book.(realized := book.realized - commission))];
        }
      }
      return true;
    }

    method HandleOrderStatus(brokerId: int, permId: int, raw: string)
      modifies this
      ensures State() == OnStatus(old(State()), brokerId, permId, raw)
    {
      hide MapStatus, WithBrokerId;
      var found := WithBrokerId(orders, brokerId);
      if found.None? && permId > 0 {
        found := WithPermId(orders, permId);
      }
      if found.None? {
        return;
      }
      var o := orders[found.value];
      if o.permId.None? && permId > 0 {
        o := o.(permId := Some(permId));
      }
      if !Terminal(o.status) {
        var mapped := MapStatus(raw);
        if o.status == PartiallyFilled && mapped == Submitted {
          mapped := PartiallyFilled;
        }
        o := o.(status := mapped);
      }
      orders := orders[found.value := o];
    }

    method HandleOpenOrder(brokerId: int, orderRef: string, permId: int, raw: string)
      modifies this
      ensures State() == OnOpenOrder(old(State()), brokerId, orderRef, permId, raw)
    {
      hide WithReference, WithBrokerId, WithPermId, MapStatus;
      var found := FindForOpenOrder(brokerId, orderRef, permId);
      if found.None? {
        return;
      }
      var o := orders[found.value];
      if !Terminal(o.status) {
        var mapped := if raw == "" then o.status else MapStatus(raw);
        if o.status == PartiallyFilled && mapped == Submitted {
          mapped := PartiallyFilled;
        }
        o := o.(status := mapped);
      }
      if o.brokerId.None? && brokerId > 0 {
        o := o.(brokerId := Some(brokerId));
      }
      if o.permId.None? && permId > 0 {
        o := o.(permId := Some(permId));
      }
      orders := orders[found.value := o];
    }

    /** By reference, else by broker id, else by permanent id. */
    method FindForOpenOrder(brokerId: int, orderRef: string, permId: int) returns (found: Option<nat>)
      ensures found == NamedByOpenOrder(orders, brokerId, orderRef, permId)
    {
      hide WithReference, WithBrokerId, Newest;
      found := None;
      if orderRef != "" {
        found := WithReference(orders, orderRef);
      }
      if found.None? && brokerId > 0 {
        found := WithBrokerId(orders, brokerId);
      }
      if found.None? && permId > 0 {
        found := WithPermId(orders, permId);
      }
    }

    method HandleError(brokerId: int, code: int)
      modifies this
      ensures State() == OnBrokerError(old(State()), brokerId, code)
    {
      if 2000 <= code < 3000 || code == 10349 || code == 399 || code == 100 {
        return;
      }
      var found := WithBrokerId(orders, brokerId);
      if found.None? || Terminal(orders[found.value].status) {
        return;
      }
      orders := orders[found.value := orders[found.value].(status := Rejected)];
    }
  }
}
