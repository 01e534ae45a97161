/** One OMS order under broker callbacks: what each callback does to the order itself,
    and what no callback can do to it. */
module OmsOrders {
  import opened Sides
  import opened Options
  import opened Orders
  import Text

  /** Identity of an execution. A callback without an execution id gets one made of what
      it reports. */
  datatype ExecKey =
    | Given(id: string)
    | Synthetic(internalId: string, shares: real, price: Option<real>, cumQty: real)

  datatype Record = Record(key: ExecKey, quantity: real, price: real, commission: Option<real>)

  /** `permId` 0 means that none is known yet, an empty `message` that there is none.
      `executions` is in the order of recording. */
  datatype OmsOrder = OmsOrder(
    internalId: string, side: Side, quantity: real, conId: Option<int>, limitPrice: Option<real>,
    twsId: Option<int>, permId: int, status: Status, filled: real, remaining: real,
    average: Option<real>, last: Option<real>, message: string,
    commission: Option<real>, executions: seq<Record>)

  predicate Terminal(s: Status) {
    s == Filled || s == Cancelled || s == Rejected || s == Error
  }

  function Max(x: real, y: real): real {
    if x < y then y else x
  }

  // ---- Prices, averages and commissions ----

  const MAX_SANE_PRICE: real := 1000000000000.0

  /** A raw price is None when it is not a finite number. */
  function Usable(raw: Option<real>, fallback: Option<real>): Option<real> {
    if raw.Some? && 0.0 < raw.value < MAX_SANE_PRICE then raw else fallback
  }

  function QuantityOf(records: seq<Record>): real {
    if records == [] then 0.0
    else
      QuantityOf(records[..|records| - 1])
      + (var q := records[|records| - 1].quantity; if q <= 0.0 then 0.0 else q)
  }

  function CostOf(r: Record): real {
    if r.quantity <= 0.0 then 0.0 else r.quantity * r.price
  }

  function NotionalOf(records: seq<Record>): real {
    if records == [] then 0.0 else NotionalOf(records[..|records| - 1]) + CostOf(records[|records| - 1])
  }

  function SharesOf(records: seq<Record>): real {
    if records == [] then 0.0 else SharesOf(records[..|records| - 1]) + records[|records| - 1].quantity
  }

  function CommissionTotal(records: seq<Record>): real {
    if records == [] then 0.0
    else CommissionTotal(records[..|records| - 1]) + records[|records| - 1].commission.GetOr(0.0)
  }

  function WeightedAverage(records: seq<Record>): Option<real> {
    if QuantityOf(records) <= 0.0 then None else Some(NotionalOf(records) / QuantityOf(records))
  }

  /** A zero total is stored as no commission. */
  function CommissionOf(records: seq<Record>): Option<real> {
    var total := CommissionTotal(records);
    if total == 0.0 then None else Some(total)
  }

  method ExecutionsWeightedAverage(records: seq<Record>) returns (average: Option<real>)
    ensures average == WeightedAverage(records)
  {
    var quantity, notional := 0.0, 0.0;
    for i := 0 to |records|
      invariant quantity == QuantityOf(records[..i]) && notional == NotionalOf(records[..i])
    {
      assert records[..i + 1][..i] == records[..i];
      if 0.0 < records[i].quantity {
        quantity := quantity + records[i].quantity;
        notional := notional + records[i].quantity * records[i].price;
      }
    }
    assert records[..|records|] == records;
    average := if quantity <= 0.0 then None else Some(notional / quantity);
  }

  method ExecutionsCommissionTotal(records: seq<Record>) returns (total: real)
    ensures total == CommissionTotal(records)
  {
    total := 0.0;
    for i := 0 to |records|
      invariant total == CommissionTotal(records[..i])
    {
      assert records[..i + 1][..i] == records[..i];
      if records[i].commission.Some? {
        total := total + records[i].commission.value;
      }
    }
    assert records[..|records|] == records;
  }

  /** `notional` is what `quantity` costs at some price between `low` and `high`. */
  predicate Priced(low: real, high: real, quantity: real, notional: real) {
    0.0 <= quantity && low * quantity <= notional <= high * quantity
  }

  lemma {:induction false} AverageBetween(records: seq<Record>, low: real, high: real)
    requires forall i :: 0 <= i < |records| ==> low <= records[i].price <= high
    ensures Priced(low, high, QuantityOf(records), NotionalOf(records))
  {
    hide Priced, CostOf;
    NothingPriced(low, high);
    if records != [] {
      var n := |records| - 1;
      AverageBetween(records[..n], low, high);
      OneMorePriced(low, high, QuantityOf(records[..n]), NotionalOf(records[..n]), records[n]);
    }
  }

  lemma NothingPriced(low: real, high: real)
    ensures Priced(low, high, 0.0, 0.0)
  {}

  lemma OneMorePriced(low: real, high: real, total: real, notional: real, r: Record)
    requires low <= r.price <= high && Priced(low, high, total, notional)
    ensures Priced(low, high, total + (if r.quantity <= 0.0 then 0.0 else r.quantity), notional + CostOf(r))
  {
    if 0.0 < r.quantity {
      assert 0.0 <= (r.price - low) * r.quantity;
      assert 0.0 <= (high - r.price) * r.quantity;
    }
  }

  /** The derived average lies between the lowest and the highest execution price. */
  lemma AverageWithinPrices(records: seq<Record>, low: real, high: real)
    requires forall i :: 0 <= i < |records| ==> low <= records[i].price <= high
    ensures var a := WeightedAverage(records); a.Some? ==> low <= a.value <= high
  {
    AverageBetween(records, low, high);
    var q := QuantityOf(records);
    if 0.0 < q {
      Quotient(NotionalOf(records), q, low, high);
    }
  }

  /** At the derived average the shares cost what was paid for them; there is one exactly
      if some execution has shares. */
  lemma AverageIsPaid(records: seq<Record>)
    ensures var a := WeightedAverage(records); a.Some? ==> a.value * QuantityOf(records) == NotionalOf(records)
    ensures WeightedAverage(records).None? <==> forall r :: r in records ==> r.quantity <= 0.0
  {
    SomeSharesIff(records);
    var q, n := QuantityOf(records), NotionalOf(records);
    assert 0.0 < q ==> (n / q) * q == n;
  }

  lemma {:induction false} SomeSharesIff(records: seq<Record>)
    ensures 0.0 <= QuantityOf(records)
    ensures 0.0 < QuantityOf(records) <==> exists r :: r in records && 0.0 < r.quantity
  {
    if records != [] {
      var n := |records| - 1;
      SomeSharesIff(records[..n]);
      assert records == records[..n] + [records[n]];
    }
  }

  lemma Quotient(n: real, q: real, low: real, high: real)
    requires 0.0 < q && low * q <= n <= high * q
    ensures low <= n / q <= high
  {
    Cancel(low, n / q, q);
    Cancel(n / q, high, q);
  }

  lemma Cancel(x: real, y: real, q: real)
    requires 0.0 < q && x * q <= y * q
    ensures x <= y
  {
    assert 0.0 <= (y - x) * q;
  }

  // ---- Status reports ----

  function MapStatus(raw: string): Status {
    var s := Text.Squeezed(raw);
    if s in {"PENDINGSUBMIT", "PRESUBMITTED", "APIPENDING"} then Pending
    else if s in {"SUBMITTED", "PENDINGCANCEL"} then Submitted
    else if s == "PARTIALLYFILLED" then PartiallyFilled
    else if s == "FILLED" then Filled
    else if s in {"CANCELLED", "APICANCELLED"} then Cancelled
    else if s in {"INACTIVE", "REJECTED"} then Rejected
    else Pending
  }

  /** The status of a live order holding `filled` and `remaining` once the broker reports
      `mapped`. Quantities outrank the broker's word. */
  function Promoted(o: OmsOrder, mapped: Status): Status {
    if mapped in {Cancelled, Rejected, Error} then mapped
    else if o.filled > 0.0 && o.remaining > 0.0 then PartiallyFilled
    else if o.filled >= o.quantity || (mapped == Filled && o.filled > 0.0) then Filled
    else if mapped == Filled then (if o.status == Pending then Submitted else o.status)
    else mapped
  }

  function ApplyStatus(o: OmsOrder, mapped: Status, filled: Option<real>, remaining: Option<real>): OmsOrder {
    if Terminal(o.status) then o
    else
      var counted := o.(filled := if filled.Some? then Max(o.filled, filled.value) else o.filled,
                        remaining := remaining.GetOr(o.remaining));
      counted.(status := Promoted(counted, mapped))
  }

  function LearnPermId(o: OmsOrder, permId: int): OmsOrder {
    if permId != 0 then o.(permId := permId) else o
  }

  function NotePrices(o: OmsOrder, average: Option<real>, last: Option<real>): OmsOrder {
    o.(average := if average.Some? then average else o.average, last := if last.Some? then last else o.last)
  }

  /** The derived average outranks the reported one. */
  function ReportedAverage(o: OmsOrder, raw: Option<real>): Option<real> {
    var derived := WeightedAverage(o.executions);
    if derived.Some? then derived else Usable(raw, o.limitPrice)
  }

  function OnStatusReport(o: OmsOrder, raw: string, filled: real, remaining: real, average: Option<real>, permId: int,
                          last: Option<real>): OmsOrder
  {
    var known := LearnPermId(o, permId);
    ApplyStatus(NotePrices(known, ReportedAverage(known, average), Usable(last, None)),
                MapStatus(raw), Some(filled), Some(remaining))
  }

  function OnOpenOrderReport(o: OmsOrder, raw: string, permId: int): OmsOrder {
    ApplyStatus(LearnPermId(o, permId), MapStatus(raw), None, None)
  }

  // ---- Executions and commissions ----

  /** What one execDetails callback reports. */
  datatype Report = Report(shares: real, price: Option<real>, cumQty: real, average: Option<real>, permId: int)

  predicate Recordable(r: Report) {
    Usable(r.price, None).Some? && r.shares > 0.0
  }

  /** The cumulative quantity, or the recorded shares plus those of a new execution. */
  function FilledAfter(o: OmsOrder, r: Report, isNew: bool): real {
    if r.cumQty > 0.0 then Max(o.filled, r.cumQty)
    else if r.shares > 0.0 then Max(o.filled, SharesOf(o.executions) + (if isNew then r.shares else 0.0))
    else o.filled
  }

  function CountExecution(o: OmsOrder, r: Report, isNew: bool): OmsOrder {
    if r.cumQty > 0.0 || r.shares > 0.0 then
      var filled := FilledAfter(o, r, isNew);
      o.(filled := filled, remaining := Max(0.0, o.quantity - filled))
    else o
  }

  function StatusAfterExecution(o: OmsOrder): Status {
    if Terminal(o.status) then o.status
    else if o.filled >= o.quantity then Filled
    else if o.filled > 0.0 then PartiallyFilled
    else o.status
  }

  function Recorded(o: OmsOrder, record: Record): OmsOrder {
    var executions := o.executions + [record];
    var derived := WeightedAverage(executions);
    o.(executions := executions, commission := CommissionOf(executions),
       average := if derived.Some? then derived else o.average)
  }

  /** Quantities, prices and status, before the execution itself is recorded. */
  function Counted(o: OmsOrder, r: Report, isNew: bool): OmsOrder {
    var counted := NotePrices(CountExecution(o, r, isNew), Usable(r.average, None), Usable(r.price, None));
    LearnPermId(counted.(status := StatusAfterExecution(counted)), r.permId)
  }

  function OnExecution(o: OmsOrder, key: ExecKey, isNew: bool, r: Report, buffered: Option<real>): OmsOrder {
    var settled := Counted(o, r, isNew);
    if isNew && Recordable(r) then Recorded(settled, Record(key, r.shares, r.price.value, buffered)) else settled
  }

  /** Where an execution is recorded. */
  function RecordIndex(records: seq<Record>, key: ExecKey): (i: Option<nat>)
    ensures i.Some? ==> i.value < |records| && records[i.value].key == key
    ensures i.None? ==> forall j :: 0 <= j < |records| ==> records[j].key != key
  {
    if records == [] then None
    else if records[|records| - 1].key == key then Some(|records| - 1)
    else RecordIndex(records[..|records| - 1], key)
  }

  function OnCommission(o: OmsOrder, i: nat, commission: real): OmsOrder
    requires i < |o.executions|
  {
    var executions := o.executions[i := o.executions[i].(commission := Some(commission))];
    o.(executions := executions, commission := CommissionOf(executions))
  }

  /** The average stays the derived one exactly when the callback records something, or
      reports no average, or reports that very average. */
  lemma AverageStaysDerivedIff(o: OmsOrder, key: ExecKey, isNew: bool, r: Report, buffered: Option<real>)
    requires o.average == WeightedAverage(o.executions)
    ensures var after := OnExecution(o, key, isNew, r, buffered);
      after.average == WeightedAverage(after.executions)
      <==> (isNew && Recordable(r)) || Usable(r.average, None) in {None, WeightedAverage(o.executions)}
  {
    hide WeightedAverage, CommissionOf, SharesOf;
    if isNew && Recordable(r) {
      RecordedHasAverage(o.executions, Record(key, r.shares, r.price.value, buffered));
    }
  }

  lemma RecordedHasAverage(records: seq<Record>, record: Record)
    requires 0.0 < record.quantity
    ensures WeightedAverage(records + [record]).Some?
  {
    hide NotionalOf;
    assert (records + [record])[..|records|] == records;
    QuantityNotNegative(records);
  }

  lemma {:induction false} QuantityNotNegative(records: seq<Record>)
    ensures 0.0 <= QuantityOf(records)
  {
    if records != [] {
      QuantityNotNegative(records[..|records| - 1]);
    }
  }

  // ---- Errors and the connection ----

  const CLOSED: string := "Connection closed unexpectedly"


  predicate IsRejection(code: int) {
    code in {200, 201, 10147, 10148, 10243}
  }

  predicate IsWarning(code: int) {
    !IsRejection(code) && (code in {399, 2109} || 2000 <= code < 3000 || 10000 <= code < 11000)
  }

  /** The text of a broker error; None for pacing and warnings. */
  function ErrorText(code: int, text: string): Option<string> {
    if code == 100 || IsWarning(code) then None
    else if code == 202 then Some("Canceled: " + text)
    else Some("TWS Error " + (if code < 0 then "-" + Text.Digits(0 - code) else Text.Digits(code)) + ": " + text)
  }

  function ErrorStatus(code: int): Status {
    if code == 202 then Cancelled else if IsRejection(code) then Rejected else Error
  }

  /** An error keeps the first text an order got, and moves the order only if it was
      still live. */
  function OnErrorReport(o: OmsOrder, code: int, text: string): OmsOrder {
    var message := ErrorText(code, text);
    if message.None? || !Text.Blank(o.message) then o
    else o.(message := message.value, status := if Terminal(o.status) then o.status else ErrorStatus(code))
  }

  predicate IsParked(o: OmsOrder) {
    o.status == Error && "Connection closed" <= o.message
  }

  function Park(o: OmsOrder): OmsOrder {
    if Terminal(o.status) then o else o.(status := Error, message := CLOSED)
  }

  function Unpark(o: OmsOrder): OmsOrder {
    if IsParked(o) then o.(status := Submitted, message := "") else o
  }

  // ---- What every callback keeps ----

  /** Records stay, in place; only a missing commission may be filled in. */
  ghost predicate RecordsKept(before: seq<Record>, after: seq<Record>) {
    && |before| <= |after|
    && forall i :: 0 <= i < |before| ==>
      && before[i].(commission := None) == after[i].(commission := None)
      && (before[i].commission.Some? ==> after[i].commission == before[i].commission)
  }

  /** Fills never go down, records are never lost, and a terminal order never moves. */
  ghost predicate Moves(before: OmsOrder, after: OmsOrder) {
    && after.internalId == before.internalId && after.side == before.side
    && after.quantity == before.quantity && after.conId == before.conId && after.limitPrice == before.limitPrice
    && before.filled <= after.filled
    && RecordsKept(before.executions, after.executions)
    && (before.status in {Filled, Cancelled, Rejected} ==> after.status == before.status)
    && (before.status == Error && !IsParked(before) ==> after.status == Error && !IsParked(after))
  }

  lemma MovesTrans(a: OmsOrder, b: OmsOrder, c: OmsOrder)
    requires Moves(a, b) && Moves(b, c)
    ensures Moves(a, c)
  {}

  lemma StatusReportMoves(o: OmsOrder, raw: string, filled: real, remaining: real, average: Option<real>, permId: int,
                          last: Option<real>)
    ensures Moves(o, OnStatusReport(o, raw, filled, remaining, average, permId, last))
  {
    hide ReportedAverage, MapStatus;
  }

  lemma ExecutionMoves(o: OmsOrder, key: ExecKey, isNew: bool, r: Report, buffered: Option<real>)
    ensures Moves(o, OnExecution(o, key, isNew, r, buffered))
  {
    hide WeightedAverage, CommissionOf, SharesOf;
  }

  lemma CommissionMoves(o: OmsOrder, i: nat, commission: real)
    requires i < |o.executions| && o.executions[i].commission.None?
    ensures Moves(o, OnCommission(o, i, commission))
  {}

  /** No error text can make an order look parked. */
  lemma ErrorMoves(o: OmsOrder, code: int, text: string)
    ensures Moves(o, OnErrorReport(o, code, text))
    ensures OnErrorReport(o, code, text).message != o.message ==> !IsParked(OnErrorReport(o, code, text))
  {
    var message := ErrorText(code, text);
    if message.Some? {
      assert message.value[0] in {'C', 'T'} && message.value[1] in {'a', 'W'};
      assert "Connection closed"[1] == 'o';
    }
  }

  /** Closing and restoring the connection returns a live order to Submitted, with its
      quantities untouched, and leaves every other order as it was. */
  lemma ParkThenUnpark(o: OmsOrder)
    ensures Moves(o, Park(o)) && Moves(o, Unpark(o))
    ensures Unpark(Park(o)) == if Terminal(o.status) then Unpark(o) else o.(status := Submitted, message := "")
    ensures !Terminal(o.status) ==> IsParked(Park(o))
  {
    assert CLOSED[..|"Connection closed"|] == "Connection closed";
  }

  // ---- No false fill ----

  /** The order's quantities cover what was asked for, and Filled means filled. */
  predicate Honest(o: OmsOrder) {
    && 0.0 <= o.filled && o.filled + o.remaining >= o.quantity
    && (o.status == Filled ==> o.filled >= o.quantity)
  }

  lemma StatusReportHonest(o: OmsOrder, raw: string, filled: real, remaining: real, average: Option<real>, permId: int,
                           last: Option<real>)
    requires Honest(o) && 0.0 <= filled && 0.0 <= remaining && filled + remaining >= o.quantity
    ensures Honest(OnStatusReport(o, raw, filled, remaining, average, permId, last))
  {}

  lemma ExecutionHonest(o: OmsOrder, key: ExecKey, isNew: bool, r: Report, buffered: Option<real>)
    requires Honest(o)
    ensures Honest(OnExecution(o, key, isNew, r, buffered))
  {
    hide CommissionOf, WeightedAverage, SharesOf, IsParked;
  }

  lemma OtherCallbacksHonest(o: OmsOrder, raw: string, code: int, text: string, permId: int)
    requires Honest(o)
    ensures Honest(OnOpenOrderReport(o, raw, permId))
    ensures Honest(OnErrorReport(o, code, text))
    ensures Honest(Park(o)) && Honest(Unpark(o))
  {
    hide MapStatus, ErrorText, Text.Blank, IsParked, CommissionOf;
  }

  /** A status report turns a live order Filled short of its quantity exactly when it
      says Filled, some but not all is filled, and nothing is reported as remaining. */
  lemma FalseFillIff(o: OmsOrder, mapped: Status, filled: real, remaining: real)
    requires !Terminal(o.status)
    ensures
      var after := ApplyStatus(o, mapped, Some(filled), Some(remaining));
      (after.status == Filled && after.filled < o.quantity)
      <==> (mapped == Filled && remaining <= 0.0 && 0.0 < Max(o.filled, filled) < o.quantity)
  {}

  /** A Filled report, with or without a quantity, never promotes an order of which
      nothing is filled. */
  lemma EmptyFilledDoesNotPromote(o: OmsOrder, filled: Option<real>, remaining: Option<real>)
    requires !Terminal(o.status) && o.filled <= 0.0 < o.quantity
    requires filled.Some? ==> filled.value <= 0.0
    ensures var after := ApplyStatus(o, Filled, filled, remaining);
      !Terminal(after.status) && after.status != Pending && o.filled <= after.filled <= 0.0
  {}

  // ---- The coordinator's view ----

  /** What the basket coordinator sees of an OMS order. */
  function View(o: OmsOrder, leg: nat, isCompensation: bool): Orders.Order
    requires 0.0 <= o.quantity
  {
    Orders.Order(leg, o.side, o.quantity, o.filled, o.status, IsParked(o), isCompensation)
  }

  /** Any callback is a step the coordinator allows for, provided the broker neither
      fills beyond the quantity nor fills what is already settled. */
  lemma MovesAreEvolution(before: OmsOrder, after: OmsOrder, leg: nat, isCompensation: bool)
    requires Moves(before, after) && 0.0 <= before.quantity
    requires after.filled <= after.quantity
    requires Terminal(before.status) && !IsParked(before) ==> after.filled == before.filled
    ensures Evolves(View(before, leg, isCompensation), View(after, leg, isCompensation))
  {}
}
