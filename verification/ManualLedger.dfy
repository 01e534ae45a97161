/** The manual-trading callback listener: correlation of broker callbacks with manual
    orders, unique execution rows, and the stored average-cost position per trade. */
module ManualLedger {
  import opened Sides
  import opened Options
  import opened Ledger
  import Text

  datatype OrderStatus = PendingSubmit | Submitted | PartiallyFilled | Filled | Cancelled | Rejected | Error

  /** Contract fields, already trimmed and upper-cased. `conId` 0 and empty text mean
      that the broker left the field out. */
  datatype Contract = Contract(conId: int, symbol: string, secType: string)

  /** A manual order row. Its id is its index in the table. */
  datatype ManualOrder = ManualOrder(
    internalId: string, accountId: nat, ibkrAccount: string, tradeId: string,
    side: Side, quantity: real, contract: Contract,
    status: OrderStatus, permId: Option<int>, brokerId: Option<int>)

  datatype ExecRow = ExecRow(orderId: nat, execId: string, quantity: Shares, price: real, commission: Option<real>)

  datatype Lifecycle = Open | Closed
  datatype StoredPosition = StoredPosition(book: Position, status: Lifecycle)

  /** (account, trade): the lot a fill belongs to. */
  type Lot = (nat, string)

  datatype Books = Books(
    orders: seq<ManualOrder>,
    rows: seq<ExecRow>,
    positions: map<Lot, StoredPosition>,
    pending: map<string, real>)

  /** An execDetails callback. `side` is None when the broker's side is neither a buy
      nor a sell; ids that are 0 or empty were not sent. */
  datatype Execution = Execution(
    execId: string, brokerId: int, permId: int, orderRef: string, account: string,
    contract: Option<Contract>, side: Option<Side>, shares: Shares, price: real)

  function LotOf(o: ManualOrder): Lot {
    (o.accountId, o.tradeId)
  }

  predicate Terminal(s: OrderStatus) {
    s == Filled || s == Cancelled || s == Rejected || s == Error
  }

  // ---- Correlation ----

  predicate ContractMatches(o: ManualOrder, contract: Option<Contract>) {
    contract.Some? ==>
      && (contract.value.conId == 0 || contract.value.conId == o.contract.conId)
      && (contract.value.symbol == "" || contract.value.symbol == o.contract.symbol)
      && (contract.value.secType == "" || contract.value.secType == o.contract.secType)
  }

  predicate PermMatches(o: ManualOrder, permId: int) {
    permId == 0 || o.permId == None || o.permId == Some(permId)
  }

  predicate AccountMatches(o: ManualOrder, account: string) {
    account == "" || account == o.ibkrAccount
  }

  /** The newest order row satisfying `p`. */
  function Newest(orders: seq<ManualOrder>, p: ManualOrder -> bool): (r: Option<nat>)
    ensures r.Some? ==> r.value < |orders| && p(orders[r.value])
    ensures r.Some? ==> forall i :: r.value < i < |orders| ==> !p(orders[i])
    ensures r.None? ==> forall i :: 0 <= i < |orders| ==> !p(orders[i])
  {
    if orders == [] then None
    else if p(orders[|orders| - 1]) then Some(|orders| - 1)
    else Newest(orders[..|orders| - 1], p)
  }

  predicate InAccount(o: ManualOrder, accountId: Option<nat>) {
    accountId == None || accountId == Some(o.accountId)
  }

  function ByReference(orders: seq<ManualOrder>, accountId: Option<nat>, ev: Execution): Option<nat> {
    if ev.orderRef == "" then None
    else
      var found := Newest(orders, (o: ManualOrder) => o.internalId == ev.orderRef);
      if && found.Some?
         && var o := orders[found.value];
            InAccount(o, accountId) && AccountMatches(o, ev.account)
            && ContractMatches(o, ev.contract) && PermMatches(o, ev.permId)
      then found else None
  }

  function ByPermId(orders: seq<ManualOrder>, accountId: Option<nat>, ev: Execution): Option<nat> {
    if ev.permId <= 0 then None
    else
      var found := Newest(orders, (o: ManualOrder) => o.permId == Some(ev.permId) && InAccount(o, accountId));
      if found.Some? && ContractMatches(orders[found.value], ev.contract) then found else None
  }

  function ByBrokerId(orders: seq<ManualOrder>, accountId: Option<nat>, ev: Execution): Option<nat> {
    if ev.brokerId <= 0 then None
    else
      var found := Newest(orders, (o: ManualOrder) => o.brokerId == Some(ev.brokerId) && InAccount(o, accountId));
      if found.Some? && ContractMatches(orders[found.value], ev.contract) && PermMatches(orders[found.value], ev.permId)
      then found else None
  }

  /** Strongest identity first: order reference, then permanent id, then order id. */
  function Correlate(orders: seq<ManualOrder>, accounts: map<string, nat>, ev: Execution): (r: Option<nat>)
    ensures r.Some? ==> r.value < |orders|
  {
    var accountId := if ev.account != "" && ev.account in accounts then Some(accounts[ev.account]) else None;
    var byRef := ByReference(orders, accountId, ev);
    var byPerm := if byRef.Some? then byRef else ByPermId(orders, accountId, ev);
    var found := if byPerm.Some? then byPerm else ByBrokerId(orders, accountId, ev);
    if found.Some? && AccountMatches(orders[found.value], ev.account) then found else None
  }

  /** An execution is never attached to an order of another contract or account, and
      only to one it names. */
  lemma CorrelationIsSound(orders: seq<ManualOrder>, accounts: map<string, nat>, ev: Execution)
    ensures var r := Correlate(orders, accounts, ev);
      r.Some? ==>
        && r.value < |orders|
        && var o := orders[r.value];
           && ContractMatches(o, ev.contract)
           && AccountMatches(o, ev.account)
           && (ev.permId > 0 ==> PermMatches(o, ev.permId))
           && ((ev.orderRef != "" && o.internalId == ev.orderRef)
               || (ev.permId > 0 && o.permId == Some(ev.permId))
               || (ev.brokerId > 0 && o.brokerId == Some(ev.brokerId)))
  {}

  // ---- Handlers as steps on the books ----

  function RowIndex(rows: seq<ExecRow>, execId: string): (r: Option<nat>)
    ensures r.Some? ==> r.value < |rows| && rows[r.value].execId == execId
    ensures r.None? ==> forall i :: 0 <= i < |rows| ==> rows[i].execId != execId
  {
    if rows == [] then None
    else if rows[|rows| - 1].execId == execId then Some(|rows| - 1)
    else RowIndex(rows[..|rows| - 1], execId)
  }

  function FilledOf(rows: seq<ExecRow>, orderId: nat): real {
    if rows == [] then 0.0
    else FilledOf(rows[..|rows| - 1], orderId)
         + (if rows[|rows| - 1].orderId == orderId then rows[|rows| - 1].quantity else 0.0)
  }

  /** Status after a newly booked execution brings the order's fills to `filled`. */
  function StatusAfterFill(o: ManualOrder, filled: real): OrderStatus {
    if filled >= o.quantity then Filled
    else if o.status == Cancelled || o.status == Rejected || o.status == Error then o.status
    else PartiallyFilled
  }

  predicate IsClosed(p: Option<StoredPosition>) {
    p.Some? && p.value.status == Closed && p.value.book.signedQty == 0.0
  }

  function PositionOf(b: Books, lot: Lot): Option<StoredPosition> {
    if lot in b.positions then Some(b.positions[lot]) else None
  }

  /** The stored position after one fill; a fresh lot opens at the fill. */
  function PositionAfter(p: Option<StoredPosition>, f: Fill): StoredPosition {
    var was := if p.Some? then p.value.book else FLAT;
    var now := ApplyFill(was, f);
    StoredPosition(now, if was.signedQty != 0.0 && now.signedQty == 0.0 then Closed else Open)
  }

  function LearnPermId(b: Books, k: nat, permId: int): Books
    requires k < |b.orders|
  {
    if permId != 0 && b.orders[k].permId.None? then
      b.(orders := b.orders[k := b.orders[k].(permId := Some(permId))])
    else b
  }

  /** Books the execution on order `k`: a row, the lot's position, the order's status. */
  function BookFill(b: Books, k: nat, ev: Execution, side: Side, commission: Option<real>): Books
    requires k < |b.orders|
  {
    var rows := b.rows + [ExecRow(k, ev.execId, ev.shares, ev.price, commission)];
    var lot := LotOf(b.orders[k]);
    var fill := Fill(side, ev.shares, ev.price, commission.GetOr(0.0));
    var status := StatusAfterFill(b.orders[k], FilledOf(rows, k));
    Books(b.orders[k := b.orders[k].(status := status)], rows,
          b.positions[lot := PositionAfter(PositionOf(b, lot), fill)], b.pending)
  }

  /** execDetails. A buffered commission is taken out of the buffer first, whatever
      happens next. Fills on a closed lot are refused before anything is inserted; a
      side that is neither buy nor sell is refused only after its row is inserted. */
  function OnExecution(b: Books, accounts: map<string, nat>, ev: Execution): Books {
    if ev.execId == "" then b
    else
      var commission := if ev.execId in b.pending then Some(b.pending[ev.execId]) else None;
      var taken := b.(pending := b.pending - {ev.execId});
      var found := Correlate(taken.orders, accounts, ev);
      if found.None? then taken
      else
        var k := found.value;
        var known := LearnPermId(taken, k, ev.permId);
        if IsClosed(PositionOf(known, LotOf(known.orders[k]))) || RowIndex(known.rows, ev.execId).Some? then known
        else if ev.side.None? then
          known.(rows := known.rows + [ExecRow(k, ev.execId, ev.shares, ev.price, commission)])
        else BookFill(known, k, ev, ev.side.value, commission)
  }

  /** commissionReport. Unknown executions are buffered; a stored commission other than
      zero is never replaced. */
  function OnCommission(b: Books, execId: string, commission: real): Books {
    if execId == "" then b
    else
      var at := RowIndex(b.rows, execId);
      if at.None? then b.(pending := b.pending[execId := commission])
      else
        var row := b.rows[at.value];
        if row.commission.Some? && row.commission.value != 0.0 then b
        else
          var booked := b.(rows := b.rows[at.value := row.(commission := Some(commission))]);
          if row.orderId < |b.orders| && LotOf(b.orders[row.orderId]) in b.positions then
            var lot := LotOf(b.orders[row.orderId]);
            var p := b.positions[lot];
            booked.(positions := b.positions[lot := p.(book := p.book.(realized := p.book.realized - commission))])
          else booked
  }

  /** Canonical status of a broker status text, trimmed and read without blanks and in
      upper case. */
  function MapStatus(raw: string): OrderStatus {
    var s := Text.Squeezed(Text.Strip(raw));
    if s == "PARTIALLYFILLED" then PartiallyFilled
    else if s == "FILLED" then Filled
    else if s == "CANCELLED" || s == "APICANCELLED" then Cancelled
    else if s == "INACTIVE" || s == "REJECTED" then Rejected
    else Submitted
  }

  /** Terminal statuses stay, and a partial fill is not taken back to submitted. */
  function StatusAfterReport(was: OrderStatus, mapped: OrderStatus): OrderStatus {
    if Terminal(was) then was
    else if was == PartiallyFilled && mapped == Submitted then PartiallyFilled
    else mapped
  }

  function OrElse(first: Option<nat>, second: Option<nat>): Option<nat> {
    if first.Some? then first else second
  }

  function WithReference(orders: seq<ManualOrder>, orderRef: string): (r: Option<nat>)
    ensures r.Some? ==> r.value < |orders|
  {
    Newest(orders, (o: ManualOrder) => o.internalId == orderRef)
  }

  function WithBrokerId(orders: seq<ManualOrder>, brokerId: int): (r: Option<nat>)
    ensures r.Some? ==> r.value < |orders|
  {
    Newest(orders, (o: ManualOrder) => o.brokerId == Some(brokerId))
  }

  function WithPermId(orders: seq<ManualOrder>, permId: int): (r: Option<nat>)
    ensures r.Some? ==> r.value < |orders|
  {
    if permId <= 0 then None else Newest(orders, (o: ManualOrder) => o.permId == Some(permId))
  }

  function OnStatus(b: Books, brokerId: int, permId: int, raw: string): Books {
    var found := OrElse(WithBrokerId(b.orders, brokerId), WithPermId(b.orders, permId));
    if found.None? then b
    else
      var o := b.orders[found.value];
      b.(orders := b.orders[found.value := o.(
        status := StatusAfterReport(o.status, MapStatus(raw)),
        permId := if o.permId.None? && permId > 0 then Some(permId) else o.permId)])
  }

  function NamedByOpenOrder(orders: seq<ManualOrder>, brokerId: int, orderRef: string, permId: int): (r: Option<nat>)
    ensures r.Some? ==> r.value < |orders|
  {
    var byRef := if orderRef == "" then None else WithReference(orders, orderRef);
    var byId := if brokerId <= 0 then None else WithBrokerId(orders, brokerId);
    OrElse(OrElse(byRef, byId), WithPermId(orders, permId))
  }

  function OnOpenOrder(b: Books, brokerId: int, orderRef: string, permId: int, raw: string): Books {
    var found := NamedByOpenOrder(b.orders, brokerId, orderRef, permId);
    if found.None? then b
    else
      var o := b.orders[found.value];
      b.(orders := b.orders[found.value := o.(
        status := StatusAfterReport(o.status, if raw == "" then o.status else MapStatus(raw)),
        brokerId := if o.brokerId.None? && brokerId > 0 then Some(brokerId) else o.brokerId,
        permId := if o.permId.None? && permId > 0 then Some(permId) else o.permId)])
  }

  /** Warnings and pacing notices are dropped; any other code rejects a live order. */
  function OnBrokerError(b: Books, brokerId: int, code: int): Books {
    var found := WithBrokerId(b.orders, brokerId);
    if 2000 <= code < 3000 || code == 10349 || code == 399 || code == 100 || found.None? then b
    else if Terminal(b.orders[found.value].status) then b
    else b.(orders := b.orders[found.value := b.orders[found.value].(status := Rejected)])
  }

  datatype Callback =
    | ExecDetails(execution: Execution)
    | CommissionReport(execId: string, commission: real)
    | StatusReport(brokerId: int, permId: int, status: string)
    | OpenOrder(brokerId: int, orderRef: string, permId: int, status: string)
    | BrokerError(brokerId: int, code: int)

  function Step(b: Books, accounts: map<string, nat>, c: Callback): Books {
    match c
    case ExecDetails(ev) => OnExecution(b, accounts, ev)
    case CommissionReport(execId, commission) => OnCommission(b, execId, commission)
    case StatusReport(brokerId, permId, status) => OnStatus(b, brokerId, permId, status)
    case OpenOrder(brokerId, orderRef, permId, status) => OnOpenOrder(b, brokerId, orderRef, permId, status)
    case BrokerError(brokerId, code) => OnBrokerError(b, brokerId, code)
  }

  function Run(b: Books, accounts: map<string, nat>, cs: seq<Callback>): Books {
    if cs == [] then b
    else Step(Run(b, accounts, cs[..|cs| - 1]), accounts, cs[|cs| - 1])
  }

  // ---- The stored position is the replay of the stored rows ----

  /** The fills of a lot as the repair script reads them back: rows in insertion order,
      the order's side, a missing commission as zero. */
  function FillsOf(orders: seq<ManualOrder>, rows: seq<ExecRow>, lot: Lot): seq<Fill> {
    if rows == [] then []
    else FillsOf(orders, rows[..|rows| - 1], lot) + FillOf(orders, rows[|rows| - 1], lot)
  }

  function FillOf(orders: seq<ManualOrder>, row: ExecRow, lot: Lot): seq<Fill> {
    if row.orderId < |orders| && LotOf(orders[row.orderId]) == lot then
      [Fill(orders[row.orderId].side, row.quantity, row.price, row.commission.GetOr(0.0))]
    else []
  }

  ghost predicate LotReplays(b: Books, lot: Lot) {
    var fills := FillsOf(b.orders, b.rows, lot);
    && (lot in b.positions <==> fills != [])
    && (lot in b.positions ==> b.positions[lot].book == Fold(fills))
    && (lot in b.positions && b.positions[lot].status == Closed ==> b.positions[lot].book.signedQty == 0.0)
  }

  ghost predicate Replays(b: Books) {
    && (forall i :: 0 <= i < |b.rows| ==> b.rows[i].orderId < |b.orders|)
    && (forall i, j :: 0 <= i < j < |b.rows| ==> b.rows[i].execId != b.rows[j].execId)
    && (forall i :: 0 <= i < |b.rows| ==> b.rows[i].execId !in b.pending)
    && "" !in b.pending
    && forall lot :: LotReplays(b, lot)
  }

  /** Orders keep who they are for: account, trade and side. */
  ghost predicate SameIdentity(before: seq<ManualOrder>, after: seq<ManualOrder>) {
    && |before| == |after|
    && forall i :: 0 <= i < |before| ==> LotOf(before[i]) == LotOf(after[i]) && before[i].side == after[i].side
  }

  lemma {:induction false} FillsOfSameIdentity(before: seq<ManualOrder>, after: seq<ManualOrder>, rows: seq<ExecRow>, lot: Lot)
    requires SameIdentity(before, after)
    ensures FillsOf(before, rows, lot) == FillsOf(after, rows, lot)
  {
    if rows != [] {
      FillsOfSameIdentity(before, after, rows[..|rows| - 1], lot);
    }
  }

  lemma OrdersRelabelled(b: Books, orders: seq<ManualOrder>)
    requires Replays(b) && SameIdentity(b.orders, orders)
    ensures Replays(b.(orders := orders))
  {
    forall lot ensures LotReplays(b.(orders := orders), lot) {
      FillsOfSameIdentity(b.orders, orders, b.rows, lot);
      assert LotReplays(b, lot);
    }
  }

  /** Writing a commission into row `k` rewrites just that fill of its lot. */
  lemma {:induction false} FillsOfCommission(orders: seq<ManualOrder>, rows: seq<ExecRow>, k: nat, commission: real, lot: Lot)
    requires k < |rows| && rows[k].orderId < |orders|
    ensures var at := |FillsOf(orders, rows[..k], lot)|;
      var was, now := FillsOf(orders, rows, lot), FillsOf(orders, rows[k := rows[k].(commission := Some(commission))], lot);
      if LotOf(orders[rows[k].orderId]) == lot then
        at < |was| && was[at].commission == rows[k].commission.GetOr(0.0)
        && now == was[at := was[at].(commission := commission)]
      else now == was
  {
    var n := |rows| - 1;
    var changed := rows[k := rows[k].(commission := Some(commission))];
    if k == n {
      assert changed[..n] == rows[..n];
    } else {
      FillsOfCommission(orders, rows[..n], k, commission, lot);
      assert changed[..n] == rows[..n][k := rows[k].(commission := Some(commission))];
      assert rows[..n][..k] == rows[..k];
    }
  }

  lemma CommissionKeepsLot(b: Books, at: nat, execId: string, commission: real, lot: Lot)
    requires Replays(b) && RowIndex(b.rows, execId) == Some(at) && OnCommission(b, execId, commission) != b
    ensures LotReplays(OnCommission(b, execId, commission), lot)
  {
    hide Fold, FillsOf;
    assert LotReplays(b, lot);
    FillsOfCommission(b.orders, b.rows, at, commission, lot);
    if LotOf(b.orders[b.rows[at].orderId]) == lot {
      LateCommission(FillsOf(b.orders, b.rows, lot), |FillsOf(b.orders, b.rows[..at], lot)|, commission);
    }
  }

  lemma CommissionKeepsReplay(b: Books, execId: string, commission: real)
    requires Replays(b)
    ensures Replays(OnCommission(b, execId, commission))
  {
    var at := RowIndex(b.rows, execId);
    var after := OnCommission(b, execId, commission);
    forall lot ensures LotReplays(after, lot) {
      assert LotReplays(b, lot);
      if at.Some? && after != b {
        CommissionKeepsLot(b, at.value, execId, commission, lot);
      }
    }
  }

  lemma BookFillKeepsLot(b: Books, k: nat, ev: Execution, commission: Option<real>, lot: Lot)
    requires Replays(b) && k < |b.orders|
    ensures LotReplays(BookFill(b, k, ev, b.orders[k].side, commission), lot)
  {
    hide Fold, ApplyFill, FilledOf, StatusAfterFill;
    var after := BookFill(b, k, ev, b.orders[k].side, commission);
    var fills := FillsOf(b.orders, b.rows, lot);
    var fill := Fill(b.orders[k].side, ev.shares, ev.price, commission.GetOr(0.0));
    assert after.rows[..|b.rows|] == b.rows;
    assert LotReplays(b, lot);
    FillsOfSameIdentity(b.orders, after.orders, b.rows, lot);
    if lot == LotOf(b.orders[k]) {
      assert FillsOf(after.orders, after.rows, lot) == fills + [fill];
      FoldOne(fills, fill);
      FoldNothing();
    } else {
      assert FillsOf(after.orders, after.rows, lot) == fills;
    }
  }

  lemma BookFillKeepsReplay(b: Books, k: nat, ev: Execution, commission: Option<real>)
    requires Replays(b) && k < |b.orders|
    requires RowIndex(b.rows, ev.execId).None? && ev.execId !in b.pending
    ensures Replays(BookFill(b, k, ev, b.orders[k].side, commission))
  {
    var after := BookFill(b, k, ev, b.orders[k].side, commission);
    hide BookFill, LotReplays;
    forall lot ensures LotReplays(after, lot) {
      BookFillKeepsLot(b, k, ev, commission, lot);
    }
  }

  // ---- execDetails ----

  /** The order an execution would be booked on: it correlates, its lot is not closed
      and its id is new. */
  function Accepts(b: Books, accounts: map<string, nat>, ev: Execution): Option<nat> {
    if ev.execId == "" then None
    else
      var found := Correlate(b.orders, accounts, ev);
      if found.Some? && !IsClosed(PositionOf(b, LotOf(b.orders[found.value]))) && RowIndex(b.rows, ev.execId).None?
      then found else None
  }

  ghost predicate SideAgrees(b: Books, accounts: map<string, nat>, ev: Execution) {
    var k := Accepts(b, accounts, ev);
    k.Some? ==> ev.side == Some(b.orders[k.value].side)
  }

  /** The books once the buffered commission is taken out and the permanent id learnt. */
  function Prepared(b: Books, accounts: map<string, nat>, ev: Execution): Books {
    if ev.execId == "" then b
    else
      var taken := b.(pending := b.pending - {ev.execId});
      var found := Correlate(b.orders, accounts, ev);
      if found.None? then taken else LearnPermId(taken, found.value, ev.permId)
  }

  function BufferedFor(b: Books, execId: string): Option<real> {
    if execId in b.pending then Some(b.pending[execId]) else None
  }

  /** execDetails only prepares the books, inserts a lone row, or books a fill. */
  lemma ExecutionCases(b: Books, accounts: map<string, nat>, ev: Execution)
    requires "" !in b.pending
    ensures var after, ready, k := OnExecution(b, accounts, ev), Prepared(b, accounts, ev), Accepts(b, accounts, ev);
      && SameIdentity(b.orders, ready.orders)
      && ready.rows == b.rows && ready.positions == b.positions && ready.pending.Keys == b.pending.Keys - {ev.execId}
      && (k.None? ==> after == ready)
      && (k.Some? ==> k.value < |b.orders| && RowIndex(b.rows, ev.execId).None?)
      && (k.Some? && ev.side.None? ==>
            after == ready.(rows := b.rows + [ExecRow(k.value, ev.execId, ev.shares, ev.price, BufferedFor(b, ev.execId))]))
      && (k.Some? && ev.side.Some? ==>
            after == BookFill(ready, k.value, ev, ev.side.value, BufferedFor(b, ev.execId)))
  {
    hide BookFill, Correlate, IsClosed, RowIndex;
  }

  lemma NoEmptyIdPending(b: Books)
    requires Replays(b)
    ensures "" !in b.pending
  {}

  /** A buffered commission is of an execution without a row. */
  lemma BufferedHasNoRow(b: Books, execId: string)
    requires Replays(b) && execId in b.pending
    ensures RowIndex(b.rows, execId).None?
  {}

  lemma PreparedKeepsReplay(b: Books, ready: Books)
    requires Replays(b) && SameIdentity(b.orders, ready.orders)
    requires ready.rows == b.rows && ready.positions == b.positions && ready.pending.Keys <= b.pending.Keys
    ensures Replays(ready)
  {
    forall lot ensures LotReplays(ready, lot) {
      assert LotReplays(b, lot);
      FillsOfSameIdentity(b.orders, ready.orders, b.rows, lot);
    }
  }

  lemma ExecutionKeepsReplay(b: Books, accounts: map<string, nat>, ev: Execution)
    requires Replays(b) && SideAgrees(b, accounts, ev)
    ensures Replays(OnExecution(b, accounts, ev))
  {
    ExecutionCases(b, accounts, ev);
    var ready, k := Prepared(b, accounts, ev), Accepts(b, accounts, ev);
    PreparedKeepsReplay(b, ready);
    hide OnExecution, Accepts, Prepared, BookFill, Replays;
    if k.Some? {
      BookFillKeepsReplay(ready, k.value, ev, BufferedFor(b, ev.execId));
    }
  }

  lemma WrongSideBreaksReplay(b: Books, accounts: map<string, nat>, ev: Execution)
    requires Replays(b) && Accepts(b, accounts, ev).Some? && ev.shares > 0.0
    requires !SideAgrees(b, accounts, ev)
    ensures !Replays(OnExecution(b, accounts, ev))
  {
    hide OnExecution, Accepts, Prepared, BookFill, FillsOf, Replays;
    NoEmptyIdPending(b);
    ExecutionCases(b, accounts, ev);
    var k, ready, after := Accepts(b, accounts, ev).value, Prepared(b, accounts, ev), OnExecution(b, accounts, ev);
    var row := ExecRow(k, ev.execId, ev.shares, ev.price, BufferedFor(b, ev.execId));
    var lot := LotOf(b.orders[k]);
    if ev.side.Some? {
      BookedShares(ready, k, ev, ev.side.value, row.commission);
    }
    RowAppended(b.orders, after.orders, b.rows, b.rows + [row], lot);
    SharesMismatch(b, after, lot, FillOf(b.orders, row, lot)[0]);
  }

  lemma BookedShares(b: Books, k: nat, ev: Execution, side: Side, commission: Option<real>)
    requires k < |b.orders|
    ensures var after, lot := BookFill(b, k, ev, side, commission), LotOf(b.orders[k]);
      && after.rows == b.rows + [ExecRow(k, ev.execId, ev.shares, ev.price, commission)]
      && SameIdentity(b.orders, after.orders)
      && lot in after.positions
      && after.positions[lot].book.signedQty
         == (if lot in b.positions then b.positions[lot].book.signedQty else 0.0)
            + (if side == Buy then ev.shares else 0.0 - ev.shares)
  {
    hide ApplyFill;
    var was := if LotOf(b.orders[k]) in b.positions then b.positions[LotOf(b.orders[k])].book else FLAT;
    StepMovesCash(was, Fill(side, ev.shares, ev.price, commission.GetOr(0.0)));
  }

  lemma SharesMismatch(b: Books, after: Books, lot: Lot, f: Fill)
    requires Replays(b)
    requires FillsOf(after.orders, after.rows, lot) == FillsOf(b.orders, b.rows, lot) + [f]
    requires lot in after.positions ==>
      after.positions[lot].book.signedQty !=
        (if lot in b.positions then b.positions[lot].book.signedQty else 0.0) + f.Signed()
    ensures !Replays(after)
  {
    hide Fold;
    assert LotReplays(b, lot);
    FoldNothing();
    SharesAfterOne(FillsOf(b.orders, b.rows, lot), f);
    assert !LotReplays(after, lot);
  }

  lemma SharesAfterOne(fills: seq<Fill>, f: Fill)
    ensures Fold(fills + [f]).signedQty == Fold(fills).signedQty + f.Signed()
  {
    FoldOne(fills, f);
    StepMovesCash(Fold(fills), f);
  }

  lemma RowAppended(before: seq<ManualOrder>, after: seq<ManualOrder>, rows: seq<ExecRow>, longer: seq<ExecRow>, lot: Lot)
    requires SameIdentity(before, after) && |longer| == |rows| + 1 && longer[..|rows|] == rows
    ensures FillsOf(after, longer, lot) == FillsOf(before, rows, lot) + FillOf(before, longer[|rows|], lot)
  {
    FillsOfSameIdentity(before, after, rows, lot);
  }

  /** For an accepted execution of at least some shares, the stored position stays the
      replay of the stored rows exactly when the execution's side is the order's. An
      unknown side leaves a row behind that the position never saw. */
  lemma ReplayKeptIffSideAgrees(b: Books, accounts: map<string, nat>, ev: Execution)
    requires Replays(b) && Accepts(b, accounts, ev).Some? && ev.shares > 0.0
    ensures Replays(OnExecution(b, accounts, ev)) <==> SideAgrees(b, accounts, ev)
  {
    if SideAgrees(b, accounts, ev) {
      ExecutionKeepsReplay(b, accounts, ev);
    } else {
      WrongSideBreaksReplay(b, accounts, ev);
    }
  }

  /** A commission buffered before its fill reaches the execution's row exactly when the
      first execDetails naming it is accepted; the buffer entry is spent either way. */
  lemma BufferedCommissionReachesRowIffAccepted(b: Books, accounts: map<string, nat>, ev: Execution)
    requires Replays(b) && ev.execId != "" && ev.execId in b.pending
    ensures var after := OnExecution(b, accounts, ev);
      && ev.execId !in after.pending
      && (Accepts(b, accounts, ev).Some? <==>
            RowIndex(after.rows, ev.execId).Some?
            && after.rows[RowIndex(after.rows, ev.execId).value].commission == Some(b.pending[ev.execId]))
  {
    hide Replays;
    BufferedHasNoRow(b, ev.execId);
    NoEmptyIdPending(b);
    hide OnExecution, Accepts, Prepared, PositionAfter, StatusAfterFill, FilledOf;
    ExecutionCases(b, accounts, ev);
    var k := Accepts(b, accounts, ev);
    if k.Some? {
      var row := ExecRow(k.value, ev.execId, ev.shares, ev.price, BufferedFor(b, ev.execId));
      assert (b.rows + [row])[..|b.rows|] == b.rows;
    }
  }

  // ---- Runs ----

  /** Every execution accepted along the run is reported with its order's side. */
  ghost predicate SidesAgreeAlong(b: Books, accounts: map<string, nat>, cs: seq<Callback>) {
    forall i :: 0 <= i < |cs| && cs[i].ExecDetails? ==>
      SideAgrees(Run(b, accounts, cs[..i]), accounts, cs[i].execution)
  }

  /** After any callbacks, repeated and reordered at will, with commissions before or
      after their fills, every stored position is the replay of its stored rows. */
  lemma {:induction false} LiveEqualsReplay(b: Books, accounts: map<string, nat>, cs: seq<Callback>)
    requires Replays(b) && SidesAgreeAlong(b, accounts, cs)
    ensures Replays(Run(b, accounts, cs))
  {
    if cs != [] {
      var n := |cs| - 1;
      forall i | 0 <= i < n && cs[..n][i].ExecDetails?
        ensures SideAgrees(Run(b, accounts, cs[..n][..i]), accounts, cs[..n][i].execution)
      {
        assert cs[..n][..i] == cs[..i];
      }
      LiveEqualsReplay(b, accounts, cs[..n]);
      StepKeepsReplay(Run(b, accounts, cs[..n]), accounts, cs[n]);
    }
  }

  lemma StepKeepsReplay(b: Books, accounts: map<string, nat>, c: Callback)
    requires Replays(b) && (c.ExecDetails? ==> SideAgrees(b, accounts, c.execution))
    ensures Replays(Step(b, accounts, c))
  {
    hide Replays, SideAgrees, OnExecution, OnCommission, OnStatus, OnOpenOrder, OnBrokerError;
    if c.StatusReport? || c.OpenOrder? || c.BrokerError? {
      ReportsKeepIdentity(b, accounts, c);
    }
    match c
    case ExecDetails(ev) => ExecutionKeepsReplay(b, accounts, ev);
    case CommissionReport(execId, commission) => CommissionKeepsReplay(b, execId, commission);
    case StatusReport(brokerId, permId, status) => OrdersRelabelled(b, OnStatus(b, brokerId, permId, status).orders);
    case OpenOrder(brokerId, orderRef, permId, status) =>
      OrdersRelabelled(b, OnOpenOrder(b, brokerId, orderRef, permId, status).orders);
    case BrokerError(brokerId, code) => OrdersRelabelled(b, OnBrokerError(b, brokerId, code).orders);
  }

  /** A fresh trade book satisfies the invariant. */
  lemma EmptyBooksReplay(orders: seq<ManualOrder>)
    ensures Replays(Books(orders, [], map[], map[]))
  {}

  /** A closed lot never trades again: over any run only late commissions touch it. */
  lemma {:induction false} ClosedLotStaysClosed(b: Books, accounts: map<string, nat>, cs: seq<Callback>, lot: Lot)
    requires "" !in b.pending
    requires IsClosed(PositionOf(b, lot))
    ensures var after := Run(b, accounts, cs);
      && "" !in after.pending
      && IsClosed(PositionOf(after, lot))
      && after.positions[lot].book == b.positions[lot].book.(realized := after.positions[lot].book.realized)
      && |FillsOf(after.orders, after.rows, lot)| == |FillsOf(b.orders, b.rows, lot)|
  {
    if cs != [] {
      ClosedLotStaysClosed(b, accounts, cs[..|cs| - 1], lot);
      ClosedLotStep(Run(b, accounts, cs[..|cs| - 1]), accounts, cs[|cs| - 1], lot);
    }
  }

  lemma ClosedLotStep(b: Books, accounts: map<string, nat>, c: Callback, lot: Lot)
    requires "" !in b.pending
    requires IsClosed(PositionOf(b, lot))
    ensures var after := Step(b, accounts, c);
      && "" !in after.pending
      && IsClosed(PositionOf(after, lot))
      && after.positions[lot].book == b.positions[lot].book.(realized := after.positions[lot].book.realized)
      && |FillsOf(after.orders, after.rows, lot)| == |FillsOf(b.orders, b.rows, lot)|
  {
    hide OnExecution, FillsOf, OnCommission, OnStatus, OnOpenOrder, OnBrokerError;
    match c
    case ExecDetails(ev) => ClosedLotRefusesFills(b, accounts, ev, lot);
    case CommissionReport(execId, commission) => ClosedLotTakesCommission(b, execId, commission, lot);
    case _ =>
      ReportsKeepIdentity(b, accounts, c);
      FillsOfSameIdentity(b.orders, Step(b, accounts, c).orders, b.rows, lot);
  }

  lemma ReportsKeepIdentity(b: Books, accounts: map<string, nat>, c: Callback)
    requires c.StatusReport? || c.OpenOrder? || c.BrokerError?
    ensures var after := Step(b, accounts, c);
      SameIdentity(b.orders, after.orders) && after == b.(orders := after.orders)
  {
    hide WithReference, WithBrokerId, WithPermId, MapStatus;
  }

  lemma ClosedLotTakesCommission(b: Books, execId: string, commission: real, lot: Lot)
    requires "" !in b.pending && IsClosed(PositionOf(b, lot))
    ensures var after := OnCommission(b, execId, commission);
      && "" !in after.pending
      && IsClosed(PositionOf(after, lot))
      && after.positions[lot].book == b.positions[lot].book.(realized := after.positions[lot].book.realized)
      && |FillsOf(after.orders, after.rows, lot)| == |FillsOf(b.orders, b.rows, lot)|
  {
    hide FillsOf;
    if RowIndex(b.rows, execId).Some? {
      SameFillCount(b.orders, b.rows, RowIndex(b.rows, execId).value, commission, lot);
    }
  }

  lemma ClosedLotRefusesFills(b: Books, accounts: map<string, nat>, ev: Execution, lot: Lot)
    requires "" !in b.pending
    requires IsClosed(PositionOf(b, lot))
    ensures var after := OnExecution(b, accounts, ev);
      && "" !in after.pending
      && PositionOf(after, lot) == PositionOf(b, lot)
      && |FillsOf(after.orders, after.rows, lot)| == |FillsOf(b.orders, b.rows, lot)|
  {
    ExecutionCases(b, accounts, ev);
    var k, after := Accepts(b, accounts, ev), OnExecution(b, accounts, ev);
    assert k.Some? ==> LotOf(b.orders[k.value]) != lot;
    hide OnExecution, Accepts, Prepared, ApplyFill, Correlate;
    if k.Some? {
      RowAppended(b.orders, after.orders, b.rows, after.rows, lot);
    } else {
      FillsOfSameIdentity(b.orders, after.orders, b.rows, lot);
    }
  }

  lemma {:induction false} SameFillCount(orders: seq<ManualOrder>, rows: seq<ExecRow>, k: nat, commission: real, lot: Lot)
    requires k < |rows|
    ensures |FillsOf(orders, rows[k := rows[k].(commission := Some(commission))], lot)| == |FillsOf(orders, rows, lot)|
  {
    var n := |rows| - 1;
    var changed := rows[k := rows[k].(commission := Some(commission))];
    if k == n {
      assert changed[..n] == rows[..n];
    } else {
      SameFillCount(orders, rows[..n], k, commission, lot);
      assert changed[..n] == rows[..n][k := rows[k].(commission := Some(commission))];
    }
  }

  // ---- Splitting a fill on the live ledger ----

  /** One fill on a lot, behind the guard against reusing a closed lot. */
  function LotStep(p: Option<StoredPosition>, f: Fill): Option<StoredPosition> {
    if IsClosed(p) then p else Some(PositionAfter(p, f))
  }

  /** Unlike the replay, the live ledger tells a fill from the same fill in two pieces
      in exactly one case: the first piece lands on flat, closes the lot, and the
      second piece is refused. */
  lemma LiveSplitMattersIffFirstPieceCloses(p: Option<StoredPosition>, f: Fill, first: Fill, second: Fill)
    requires IsSplit(f, first, second)
    requires p.Some? && p.value.status == Closed ==> p.value.book.signedQty == 0.0
    ensures LotStep(LotStep(p, first), second) == LotStep(p, f)
      <==> !(p.Some? && p.value.book.signedQty != 0.0 && p.value.book.signedQty + first.Signed() == 0.0)
  {
    var was := if p.Some? then p.value.book else FLAT;
    SplitStep(was, f, first, second);
    StepMovesCash(was, first);
    StepMovesCash(was, f);
    StepMovesCash(ApplyFill(was, first), second);
    hide ApplyFill;
  }

  // ---- Order status ----

  /** Once an execution is booked the order is filled exactly when its rows cover its
      quantity, whatever status reports said before; short of that a cancelled,
      rejected or errored order keeps its status. */
  lemma BookedStatus(b: Books, accounts: map<string, nat>, ev: Execution)
    requires Accepts(b, accounts, ev).Some? && ev.side.Some?
    ensures var k := Accepts(b, accounts, ev).value;
      var after := OnExecution(b, accounts, ev);
      && k < |after.orders|
      && FilledOf(after.rows, k) == FilledOf(b.rows, k) + ev.shares
      && (after.orders[k].status == Filled <==> FilledOf(after.rows, k) >= b.orders[k].quantity)
      && (after.orders[k].status != Filled ==>
            after.orders[k].status ==
              if b.orders[k].status in {Cancelled, Rejected, Error} then b.orders[k].status else PartiallyFilled)
  {
    var after := OnExecution(b, accounts, ev);
    assert after.rows[..|b.rows|] == b.rows;
  }

  /** Status reports, open-order reports and broker errors never move a terminal order
      and never touch rows, positions or buffered commissions. */
  lemma ReportsKeepTerminal(b: Books, accounts: map<string, nat>, c: Callback)
    requires c.StatusReport? || c.OpenOrder? || c.BrokerError?
    ensures var after := Step(b, accounts, c);
      && after == b.(orders := after.orders)
      && |after.orders| == |b.orders|
      && forall i :: 0 <= i < |b.orders| && Terminal(b.orders[i].status) ==> after.orders[i].status == b.orders[i].status
  {
    hide MapStatus, WithReference, WithBrokerId, WithPermId;
  }
}
