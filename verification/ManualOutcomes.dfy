/** What each callback of the manual listener does, told over the stored rows and the
    callback's own fields. */
module ManualOutcomes {
  import opened Sides
  import opened Options
  import opened Ledger
  import opened ManualLedger
  import Text

  // ---- The order an execution belongs to ----

  /** The account is the order's, as far as the callback names one that is known. */
  predicate InKnownAccount(o: ManualOrder, accounts: map<string, nat>, ev: Execution) {
    ev.account != "" && ev.account in accounts ==> o.accountId == accounts[ev.account]
  }

  predicate OfAccount(o: ManualOrder, ev: Execution) {
    ev.account in {"", o.ibkrAccount}
  }

  predicate OfContract(o: ManualOrder, ev: Execution) {
    ev.contract.Some? ==>
      && ev.contract.value.conId in {0, o.contract.conId}
      && ev.contract.value.symbol in {"", o.contract.symbol}
      && ev.contract.value.secType in {"", o.contract.secType}
  }

  predicate OfPermId(o: ManualOrder, ev: Execution) {
    ev.permId != 0 ==> o.permId in {None, Some(ev.permId)}
  }

  /** The newest row of the reference, and everything else about it agrees. */
  ghost predicate NamedByReference(orders: seq<ManualOrder>, accounts: map<string, nat>, ev: Execution, k: nat) {
    && k < |orders| && ev.orderRef != "" && orders[k].internalId == ev.orderRef
    && (forall j :: k < j < |orders| ==> orders[j].internalId != ev.orderRef)
    && InKnownAccount(orders[k], accounts, ev) && OfAccount(orders[k], ev)
    && OfContract(orders[k], ev) && OfPermId(orders[k], ev)
  }

  ghost predicate NamedByPermId(orders: seq<ManualOrder>, accounts: map<string, nat>, ev: Execution, k: nat) {
    && k < |orders| && 0 < ev.permId && orders[k].permId == Some(ev.permId) && InKnownAccount(orders[k], accounts, ev)
    && (forall j :: k < j < |orders| ==> orders[j].permId != Some(ev.permId) || !InKnownAccount(orders[j], accounts, ev))
    && OfContract(orders[k], ev)
  }

  ghost predicate NamedByBrokerId(orders: seq<ManualOrder>, accounts: map<string, nat>, ev: Execution, k: nat) {
    && k < |orders| && 0 < ev.brokerId && orders[k].brokerId == Some(ev.brokerId) && InKnownAccount(orders[k], accounts, ev)
    && (forall j :: k < j < |orders| ==> orders[j].brokerId != Some(ev.brokerId) || !InKnownAccount(orders[j], accounts, ev))
    && OfContract(orders[k], ev) && OfPermId(orders[k], ev)
  }

  /** By reference, else by permanent id, else by order id, and of the callback's account. */
  ghost predicate Named(orders: seq<ManualOrder>, accounts: map<string, nat>, ev: Execution, k: nat) {
    && k < |orders| && OfAccount(orders[k], ev)
    && (|| NamedByReference(orders, accounts, ev, k)
        || ((forall j: nat :: !NamedByReference(orders, accounts, ev, j))
            && (|| NamedByPermId(orders, accounts, ev, k)
                || ((forall j: nat :: !NamedByPermId(orders, accounts, ev, j)) && NamedByBrokerId(orders, accounts, ev, k)))))
  }

  function KnownAccount(accounts: map<string, nat>, ev: Execution): Option<nat> {
    if ev.account != "" && ev.account in accounts then Some(accounts[ev.account]) else None
  }

  lemma ByReferenceIff(orders: seq<ManualOrder>, accounts: map<string, nat>, ev: Execution, k: nat)
    ensures ByReference(orders, KnownAccount(accounts, ev), ev) == Some(k) <==> NamedByReference(orders, accounts, ev, k)
  {}

  lemma ByPermIdIff(orders: seq<ManualOrder>, accounts: map<string, nat>, ev: Execution, k: nat)
    ensures ByPermId(orders, KnownAccount(accounts, ev), ev) == Some(k) <==> NamedByPermId(orders, accounts, ev, k)
  {}

  lemma ByBrokerIdIff(orders: seq<ManualOrder>, accounts: map<string, nat>, ev: Execution, k: nat)
    ensures ByBrokerId(orders, KnownAccount(accounts, ev), ev) == Some(k) <==> NamedByBrokerId(orders, accounts, ev, k)
  {}

  /** An execution is attached to an order exactly when it names it, and to none exactly
      when it names none. */
  lemma CorrelatesIff(orders: seq<ManualOrder>, accounts: map<string, nat>, ev: Execution)
    ensures forall k: nat :: Correlate(orders, accounts, ev) == Some(k) <==> Named(orders, accounts, ev, k)
    ensures Correlate(orders, accounts, ev).None? <==> forall k: nat :: !Named(orders, accounts, ev, k)
  {
    hide ByReference, ByPermId, ByBrokerId, NamedByReference, NamedByPermId, NamedByBrokerId;
    forall k: nat
      ensures ByReference(orders, KnownAccount(accounts, ev), ev) == Some(k) <==> NamedByReference(orders, accounts, ev, k)
      ensures ByPermId(orders, KnownAccount(accounts, ev), ev) == Some(k) <==> NamedByPermId(orders, accounts, ev, k)
      ensures ByBrokerId(orders, KnownAccount(accounts, ev), ev) == Some(k) <==> NamedByBrokerId(orders, accounts, ev, k)
    {
      ByReferenceIff(orders, accounts, ev, k);
      ByPermIdIff(orders, accounts, ev, k);
      ByBrokerIdIff(orders, accounts, ev, k);
    }
    forall k: nat ensures Correlate(orders, accounts, ev) == Some(k) <==> Named(orders, accounts, ev, k) {
      NamedInRange(orders, accounts, ev);
    }
  }

  lemma NamedInRange(orders: seq<ManualOrder>, accounts: map<string, nat>, ev: Execution)
    ensures forall k: nat :: NamedByReference(orders, accounts, ev, k) ==> k < |orders| && OfAccount(orders[k], ev)
    ensures forall k: nat :: NamedByPermId(orders, accounts, ev, k) ==> k < |orders|
    ensures forall k: nat :: NamedByBrokerId(orders, accounts, ev, k) ==> k < |orders|
  {}

  // ---- What an execution leaves ----

  /** A lot takes fills unless it was closed. */
  predicate TakesFills(b: Books, o: ManualOrder) {
    var lot := (o.accountId, o.tradeId);
    lot in b.positions ==> b.positions[lot].status == Open || b.positions[lot].book.signedQty != 0.0
  }

  predicate IsNew(b: Books, execId: string) {
    execId != "" && forall i :: 0 <= i < |b.rows| ==> b.rows[i].execId != execId
  }

  /** The order an execution is booked on. */
  lemma AcceptsIff(b: Books, accounts: map<string, nat>, ev: Execution)
    ensures forall k: nat ::
      Accepts(b, accounts, ev) == Some(k)
      <==> IsNew(b, ev.execId) && Named(b.orders, accounts, ev, k) && TakesFills(b, b.orders[k])
  {
    hide Correlate, Named;
    CorrelatesIff(b.orders, accounts, ev);
    forall k: nat ensures Named(b.orders, accounts, ev, k) ==> k < |b.orders| {
      if Named(b.orders, accounts, ev, k) {
        NamedIsInRange(b.orders, accounts, ev, k);
      }
    }
  }

  /** The lot's position takes the fill; it closes exactly when the fill brings it back to
      nothing. */
  ghost predicate LotTakes(b: Books, after: Books, lot: Lot, f: Fill) {
    && after.positions.Keys == b.positions.Keys + {lot}
    && (forall other :: other in b.positions && other != lot ==> after.positions[other] == b.positions[other])
    && var was := if lot in b.positions then b.positions[lot].book else Position(0.0, 0.0, 0.0);
       var now := after.positions[lot];
    && now.book.signedQty == was.signedQty + (if f.side == Buy then f.quantity else 0.0 - f.quantity)
    && BooksProfit(was, f, now.book)
    && (now.status == Closed <==> was.signedQty != 0.0 && now.book.signedQty == 0.0)
  }

  lemma LotTakesFill(b: Books, lot: Lot, f: Fill)
    ensures LotTakes(b, b.(positions := b.positions[lot := PositionAfter(PositionOf(b, lot), f)]), lot, f)
  {
    var was := if lot in b.positions then b.positions[lot].book else FLAT;
    StepMovesCash(was, f);
    StepBooksProfit(was, f);
    hide ApplyFill, BooksProfit;
  }

  /** An execution that names an order gets its row and moves the order's lot, if its id is
      new, its side known and the lot takes fills. */
  lemma NamedExecutionIsBooked(b: Books, accounts: map<string, nat>, ev: Execution, k: nat)
    requires Named(b.orders, accounts, ev, k) && IsNew(b, ev.execId) && TakesFills(b, b.orders[k]) && ev.side.Some?
    ensures
      var after, o := OnExecution(b, accounts, ev), b.orders[k];
      var commission := if ev.execId in b.pending then Some(b.pending[ev.execId]) else None;
      && after.rows == b.rows + [ExecRow(k, ev.execId, ev.shares, ev.price, commission)]
      && after.pending == b.pending - {ev.execId}
      && LotTakes(b, after, (o.accountId, o.tradeId), Fill(ev.side.value, ev.shares, ev.price, commission.GetOr(0.0)))
      && |after.orders| == |b.orders|
      && (forall j :: 0 <= j < |b.orders| && j != k ==> after.orders[j] == b.orders[j])
      && after.orders[k].(status := o.status) == o.(permId := if o.permId.None? && ev.permId != 0 then Some(ev.permId) else o.permId)
  {
    hide Named, IsNew, Accepts, OnExecution, PositionAfter, StatusAfterFill, LotTakes, FilledOf;
    NamedIsInRange(b.orders, accounts, ev, k);
    AcceptsIff(b, accounts, ev);
    AcceptedIsBooked(b, accounts, ev, k);
    var commission := if ev.execId in b.pending then Some(b.pending[ev.execId]) else None;
    var fill := Fill(ev.side.value, ev.shares, ev.price, commission.GetOr(0.0));
    LotTakesFill(b, LotOf(b.orders[k]), fill);
    OnlyPositionsMatter(b, b.(positions := b.positions[LotOf(b.orders[k]) := PositionAfter(PositionOf(b, LotOf(b.orders[k])), fill)]),
      OnExecution(b, accounts, ev), LotOf(b.orders[k]), fill);
  }

  lemma AcceptedIsBooked(b: Books, accounts: map<string, nat>, ev: Execution, k: nat)
    requires Accepts(b, accounts, ev) == Some(k) && k < |b.orders| && ev.side.Some?
    ensures
      var commission := if ev.execId in b.pending then Some(b.pending[ev.execId]) else None;
      OnExecution(b, accounts, ev)
      == BookFill(LearnPermId(b.(pending := b.pending - {ev.execId}), k, ev.permId), k, ev, ev.side.value, commission)
  {
    hide BookFill, Correlate, RowIndex;
  }

  lemma RowsAfter(b: Books, accounts: map<string, nat>, ev: Execution)
    ensures OnExecution(b, accounts, ev).rows != b.rows <==> Accepts(b, accounts, ev).Some?
    ensures Accepts(b, accounts, ev).None? ==> OnExecution(b, accounts, ev).positions == b.positions
  {
    hide Correlate, RowIndex, PositionAfter, StatusAfterFill, FilledOf;
  }

  lemma NamedIsInRange(orders: seq<ManualOrder>, accounts: map<string, nat>, ev: Execution, k: nat)
    requires Named(orders, accounts, ev, k)
    ensures k < |orders|
  {}

  lemma OnlyPositionsMatter(b: Books, one: Books, other: Books, lot: Lot, f: Fill)
    requires LotTakes(b, one, lot, f) && one.positions == other.positions
    ensures LotTakes(b, other, lot, f)
  {}

  /** Rows are inserted for nothing else: an execution leaves a row exactly when its id is
      new and it names an order whose lot takes fills. */
  lemma RowInsertedIff(b: Books, accounts: map<string, nat>, ev: Execution)
    ensures
      var after := OnExecution(b, accounts, ev);
      && (after.rows != b.rows
          <==> IsNew(b, ev.execId) && exists k: nat :: Named(b.orders, accounts, ev, k) && TakesFills(b, b.orders[k]))
      && (after.rows == b.rows ==> after.positions == b.positions)
  {
    hide Named, IsNew, TakesFills, Accepts, OnExecution;
    AcceptsIff(b, accounts, ev);
    RowsAfter(b, accounts, ev);
    forall k: nat | Named(b.orders, accounts, ev, k) ensures k < |b.orders| {
      NamedIsInRange(b.orders, accounts, ev, k);
    }
    var found := Accepts(b, accounts, ev);
    if found.Some? {
      AcceptedInTable(b, accounts, ev);
      assert Named(b.orders, accounts, ev, found.value);
    }
  }

  lemma AcceptedInTable(b: Books, accounts: map<string, nat>, ev: Execution)
    requires Accepts(b, accounts, ev).Some?
    ensures Accepts(b, accounts, ev).value < |b.orders|
  {}

  /** The rows of one order, oldest first. */
  function RowsOf(rows: seq<ExecRow>, k: nat): (r: seq<ExecRow>)
    ensures forall row :: row in r <==> row in rows && row.orderId == k
  {
    if rows == [] then []
    else
      var n := |rows| - 1;
      assert rows == rows[..n] + [rows[n]];
      RowsOf(rows[..n], k) + (if rows[n].orderId == k then [rows[n]] else [])
  }

  function TotalQuantity(rows: seq<ExecRow>): real {
    if rows == [] then 0.0 else TotalQuantity(rows[..|rows| - 1]) + rows[|rows| - 1].quantity
  }

  /** What counts as filled on an order is the total of its own rows. */
  lemma {:induction false} FilledIsOwnTotal(rows: seq<ExecRow>, k: nat)
    ensures FilledOf(rows, k) == TotalQuantity(RowsOf(rows, k))
  {
    if rows != [] {
      var n := |rows| - 1;
      FilledIsOwnTotal(rows[..n], k);
      var own := RowsOf(rows[..n], k);
      assert own + [] == own && (own + [rows[n]])[..|own|] == own;
    }
  }

  // ---- What a commission leaves ----

  /** A commission without a row of its execution waits for one. */
  lemma CommissionWaits(b: Books, execId: string, commission: real)
    requires IsNew(b, execId)
    ensures OnCommission(b, execId, commission) == b.(pending := b.pending[execId := commission])
  {}

  /** Otherwise it is written to the row and comes off the lot's realized profit, unless
      another than zero stands there already. */
  lemma CommissionReaches(b: Books, i: nat, commission: real)
    requires i < |b.rows| && b.rows[i].execId != "" && b.rows[i].orderId < |b.orders|
    requires forall j :: 0 <= j < |b.rows| && j != i ==> b.rows[j].execId != b.rows[i].execId
    ensures
      var after, row := OnCommission(b, b.rows[i].execId, commission), b.rows[i];
      var lot := (b.orders[row.orderId].accountId, b.orders[row.orderId].tradeId);
      if row.commission !in {None, Some(0.0)} then after == b
      else
        && after.rows == b.rows[i := row.(commission := Some(commission))]
        && after.orders == b.orders && after.pending == b.pending && after.positions.Keys == b.positions.Keys
        && (forall other :: other in b.positions && other != lot ==> after.positions[other] == b.positions[other])
        && (lot in b.positions ==>
              && after.positions[lot].status == b.positions[lot].status
              && after.positions[lot].book
                 == b.positions[lot].book.(realized := b.positions[lot].book.realized - commission))
  {
    assert RowIndex(b.rows, b.rows[i].execId) == Some(i);
    hide RowIndex;
  }

  // ---- What a report leaves ----

  predicate Says(raw: string, word: string) {
    Text.Spells(Text.Strip(raw), word)
  }

  /** What a status text makes of an order. */
  ghost predicate StatusFollows(was: OrderStatus, raw: string, now: OrderStatus) {
    if was in {Filled, Cancelled, Rejected, Error} then now == was
    else
      && (now == Cancelled <==> Says(raw, "CANCELLED") || Says(raw, "APICANCELLED"))
      && (now == Rejected <==> Says(raw, "INACTIVE") || Says(raw, "REJECTED"))
      && (now == Filled <==> Says(raw, "FILLED"))
      && (now !in {Cancelled, Rejected, Filled} ==>
            now == if was == PartiallyFilled || Says(raw, "PARTIALLYFILLED") then PartiallyFilled else Submitted)
  }

  lemma MappedFollows(was: OrderStatus, raw: string)
    ensures StatusFollows(was, raw, StatusAfterReport(was, MapStatus(raw)))
  {
    hide Text.Spells, Text.Squeezed, Text.Strip;
    var t := Text.Strip(raw);
    Text.SpellsIff(t, "CANCELLED");
    Text.SpellsIff(t, "APICANCELLED");
    Text.SpellsIff(t, "INACTIVE");
    Text.SpellsIff(t, "REJECTED");
    Text.SpellsIff(t, "FILLED");
    Text.SpellsIff(t, "PARTIALLYFILLED");
  }

  /** The newest row with the order id, or without one the newest with the permanent id. */
  ghost predicate ReportedOn(orders: seq<ManualOrder>, brokerId: int, permId: int, k: nat) {
    && k < |orders|
    && (|| (orders[k].brokerId == Some(brokerId) && forall j :: k < j < |orders| ==> orders[j].brokerId != Some(brokerId))
        || (&& (forall j :: 0 <= j < |orders| ==> orders[j].brokerId != Some(brokerId))
            && 0 < permId && orders[k].permId == Some(permId)
            && forall j :: k < j < |orders| ==> orders[j].permId != Some(permId)))
  }

  lemma ReportedOnIff(orders: seq<ManualOrder>, brokerId: int, permId: int)
    ensures forall k: nat ::
      OrElse(WithBrokerId(orders, brokerId), WithPermId(orders, permId)) == Some(k) <==> ReportedOn(orders, brokerId, permId, k)
  {}

  /** Only the order changes, in its status and the ids it learns. */
  ghost predicate OnlyLearns(before: Books, after: Books, k: nat, brokerId: int, permId: int) {
    && k < |before.orders| && after == before.(orders := after.orders) && |after.orders| == |before.orders|
    && (forall j :: 0 <= j < |before.orders| && j != k ==> after.orders[j] == before.orders[j])
    && var o, now := before.orders[k], after.orders[k];
    && now == o.(status := now.status, brokerId := now.brokerId, permId := now.permId)
    && now.brokerId == (if o.brokerId.None? && 0 < brokerId then Some(brokerId) else o.brokerId)
    && now.permId == (if o.permId.None? && 0 < permId then Some(permId) else o.permId)
  }

  /** A status report moves the order it is about by its text and teaches it a permanent
      id; about no order it changes nothing. */
  lemma StatusReportOutcome(b: Books, brokerId: int, permId: int, raw: string)
    ensures
      var after := OnStatus(b, brokerId, permId, raw);
      && (forall k: nat :: ReportedOn(b.orders, brokerId, permId, k) ==>
            OnlyLearns(b, after, k, 0, permId) && StatusFollows(b.orders[k].status, raw, after.orders[k].status))
      && ((forall k: nat :: !ReportedOn(b.orders, brokerId, permId, k)) ==> after == b)
  {
    hide MapStatus, StatusAfterReport, StatusFollows, ReportedOn, WithBrokerId, WithPermId;
    ReportedOnIff(b.orders, brokerId, permId);
    forall k: nat | ReportedOn(b.orders, brokerId, permId, k)
      ensures k < |b.orders| && StatusFollows(b.orders[k].status, raw, StatusAfterReport(b.orders[k].status, MapStatus(raw)))
    {
      MappedFollows(b.orders[k].status, raw);
    }
    var found := OrElse(WithBrokerId(b.orders, brokerId), WithPermId(b.orders, permId));
    assert found.Some? ==> ReportedOn(b.orders, brokerId, permId, found.value);
  }

  /** By reference, else by order id, else by permanent id, each time the newest row. */
  ghost predicate OpenOrderOf(orders: seq<ManualOrder>, brokerId: int, orderRef: string, permId: int, k: nat) {
    var noRef := orderRef == "" || forall j :: 0 <= j < |orders| ==> orders[j].internalId != orderRef;
    var noId := brokerId <= 0 || forall j :: 0 <= j < |orders| ==> orders[j].brokerId != Some(brokerId);
    && k < |orders|
    && (|| (!noRef && orders[k].internalId == orderRef && forall j :: k < j < |orders| ==> orders[j].internalId != orderRef)
        || (noRef && !noId && orders[k].brokerId == Some(brokerId)
            && forall j :: k < j < |orders| ==> orders[j].brokerId != Some(brokerId))
        || (noRef && noId && 0 < permId && orders[k].permId == Some(permId)
            && forall j :: k < j < |orders| ==> orders[j].permId != Some(permId)))
  }

  lemma OpenOrderOfIff(orders: seq<ManualOrder>, brokerId: int, orderRef: string, permId: int)
    ensures forall k: nat ::
      NamedByOpenOrder(orders, brokerId, orderRef, permId) == Some(k) <==> OpenOrderOf(orders, brokerId, orderRef, permId, k)
  {}

  /** An open-order report does the same, keeps the status if it brings no text, and also
      teaches the order id. */
  lemma OpenOrderOutcome(b: Books, brokerId: int, orderRef: string, permId: int, raw: string)
    ensures
      var after := OnOpenOrder(b, brokerId, orderRef, permId, raw);
      && (forall k: nat :: OpenOrderOf(b.orders, brokerId, orderRef, permId, k) ==>
            && OnlyLearns(b, after, k, brokerId, permId)
            && if raw == "" then after.orders[k].status == b.orders[k].status
               else StatusFollows(b.orders[k].status, raw, after.orders[k].status))
      && ((forall k: nat :: !OpenOrderOf(b.orders, brokerId, orderRef, permId, k)) ==> after == b)
  {
    hide MapStatus, StatusFollows, OpenOrderOf, NamedByOpenOrder;
    OpenOrderOfIff(b.orders, brokerId, orderRef, permId);
    forall k: nat | OpenOrderOf(b.orders, brokerId, orderRef, permId, k)
      ensures k < |b.orders| && StatusFollows(b.orders[k].status, raw, StatusAfterReport(b.orders[k].status, MapStatus(raw)))
    {
      MappedFollows(b.orders[k].status, raw);
    }
    var found := NamedByOpenOrder(b.orders, brokerId, orderRef, permId);
    assert found.Some? ==> OpenOrderOf(b.orders, brokerId, orderRef, permId, found.value);
  }

  /** An error rejects the newest order of its id, unless that order has ended or the code
      is a warning or about pacing. */
  lemma ErrorOutcome(b: Books, brokerId: int, code: int)
    ensures
      var after := OnBrokerError(b, brokerId, code);
      && after == b.(orders := after.orders) && |after.orders| == |b.orders|
      && forall k :: 0 <= k < |b.orders| ==>
        if && b.orders[k].brokerId == Some(brokerId) && (forall j :: k < j < |b.orders| ==> b.orders[j].brokerId != Some(brokerId))
           && b.orders[k].status in {PendingSubmit, Submitted, PartiallyFilled}
           && code !in {100, 399, 10349} && !(2000 <= code <= 2999)
        then after.orders[k] == b.orders[k].(status := Rejected)
        else after.orders[k] == b.orders[k]
  {}
}
