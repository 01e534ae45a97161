/** What every run of callbacks keeps: quantities and terminal states, no false fill,
    and the discipline of the events that listeners see. */
module AdapterRuns {
  import opened Sides
  import opened Options
  import opened Orders
  import opened OmsOrders
  import opened Text
  import opened Adapter

  // ---- One step, order by order ----

  /** What a callback does to an order that was already registered. */
  ghost predicate OrderStep(c: Callback, before: OmsOrder, after: OmsOrder) {
    var bound := before.(twsId := after.twsId);
    || after == before
    || match c
       case OrderStatus(_, raw, filled, remaining, average, permId, last) =>
         after == OnStatusReport(bound, raw, filled, remaining, average, permId, last)
       case OpenOrder(_, raw, permId, _, _, _) => after == OnOpenOrderReport(bound, raw, permId)
       case ExecDetails(_, execId, _, _, report) =>
         exists isNew, buffered ::
           after == OmsOrders.OnExecution(bound, KeyFor(bound, execId, report), isNew, report, buffered)
       case CommissionReport(_, raw) =>
         exists i: nat :: i < |before.executions| && before.executions[i].commission.None?
           && after == OmsOrders.OnCommission(before, i, Usable(raw, Some(0.0)).value)
       case BrokerError(_, code, text) => after == OnErrorReport(before, code, text)
       case ConnectionClosed => after == Park(before)
       case ConnectionRestored => after == Unpark(before)
       case _ => false
  }

  /** A record carries a commission only if its execution is marked as commissioned, and
      every order's commission is the total over its records. */
  ghost predicate CommissionsTotalled(s: State) {
    forall k :: 0 <= k < |s.orders| ==> Totalled(s.orders[k], s.commissioned)
  }

  lemma StatusOrderwise(s: State, c: Callback, k: nat)
    requires c.OrderStatus? && IdsConsistent(s) && k < |s.orders|
    ensures var after := OnOrderStatus(s, c); |after.orders| == |s.orders| && OrderStep(c, s.orders[k], after.orders[k])
    ensures OnOrderStatus(s, c).orders[k] != s.orders[k] ==> Target(s, c.id, c.permId, 0, None, None) == Some(k)
  {
    hide OnStatusReport, Target;
    ResolveTouchesOnlyTarget(s, c.id, c.permId, 0, None, None);
    var found := Target(s, c.id, c.permId, 0, None, None);
    if found == Some(k) {
      var bound := s.orders[k].(twsId := Some(c.id));
      StatusKeepsBinding(bound, c);
    }
  }

  lemma StatusKeepsBinding(o: OmsOrder, c: Callback)
    requires c.OrderStatus?
    ensures OnStatusReport(o, c.raw, c.filled, c.remaining, c.average, c.permId, c.last).twsId == o.twsId
  {
    hide MapStatus, ReportedAverage;
  }

  lemma OpenOrderOrderwise(s: State, c: Callback, k: nat)
    requires c.OpenOrder? && IdsConsistent(s) && k < |s.orders|
    ensures var after := OnOpenOrder(s, c); |after.orders| == |s.orders| && OrderStep(c, s.orders[k], after.orders[k])
  {
    hide Target, MapStatus;
    ResolveTouchesOnlyTarget(s, c.id, c.permId, c.conId, c.side, Offered(c.quantity));
  }

  lemma ExecutionOrderwise(s: State, c: Callback, k: nat)
    requires c.ExecDetails? && IdsConsistent(s) && k < |s.orders|
    ensures var after := OnExecDetails(s, c); |after.orders| == |s.orders| && OrderStep(c, s.orders[k], after.orders[k])
  {
    hide Target, Resolve, OmsOrders.OnExecution, KeyFor;
    ResolveTouchesOnlyTarget(s, c.id, c.report.permId, c.conId, c.side, Offered(c.report.shares));
    var found := Target(s, c.id, c.report.permId, c.conId, c.side, Offered(c.report.shares));
    var bound := Resolve(s, c.id, c.report.permId, c.conId, c.side, Offered(c.report.shares));
    if found == Some(k) {
      ExecuteOne(bound, k, c.execId, c.report);
    }
  }

  lemma ExecuteOne(s: State, k: nat, execId: string, r: Report)
    requires k < |s.orders|
    ensures
      var key := KeyFor(s.orders[k], execId, r);
      var isNew := key !in s.seen;
      var buffered := if isNew && Recordable(r) && key in s.pending then Some(s.pending[key]) else None;
      var o := OmsOrders.OnExecution(s.orders[k], key, isNew, r, buffered);
      Execute(s, k, execId, r).orders == s.orders[k := o] && o.twsId == s.orders[k].twsId
  {
    hide WeightedAverage, CommissionOf, SharesOf, Usable;
  }

  lemma CommissionOrderwise(s: State, execId: string, raw: Option<real>, k: nat)
    requires IdsConsistent(s) && CommissionsTotalled(s) && k < |s.orders|
    ensures
      var after := OnCommissionReport(s, execId, raw);
      |after.orders| == |s.orders| && OrderStep(CommissionReport(execId, raw), s.orders[k], after.orders[k])
  {
    hide OmsOrders.OnCommission, CommissionOf;
  }

  lemma StepOrderwise(s: State, c: Callback, k: nat)
    requires IdsConsistent(s) && Admissible(s, c) && CommissionsTotalled(s) && k < |s.orders|
    ensures k < |Step(s, c).orders| && OrderStep(c, s.orders[k], Step(s, c).orders[k])
  {
    hide OnOrderStatus, OnOpenOrder, OnExecDetails, OnCommissionReport, CommissionsTotalled, OrderStep;
    match c
    case OrderStatus(_, _, _, _, _, _, _) => StatusOrderwise(s, c, k);
    case OpenOrder(_, _, _, _, _, _) => OpenOrderOrderwise(s, c, k);
    case ExecDetails(_, _, _, _, _) => ExecutionOrderwise(s, c, k);
    case CommissionReport(execId, raw) => CommissionOrderwise(s, execId, raw, k);
    case _ => OthersOrderwise(s, c, k);
  }

  lemma OthersOrderwise(s: State, c: Callback, k: nat)
    requires IdsConsistent(s) && Admissible(s, c) && k < |s.orders|
    requires c.BrokerError? || c.ConnectionClosed? || c.ConnectionRestored? || c.Submit? || c.Adopt?
    ensures k < |Step(s, c).orders| && OrderStep(c, s.orders[k], Step(s, c).orders[k])
  {
    hide ErrorText, Blank, Park, Unpark, Newborn, PlaceOf, LeavesStale;
    if c.Adopt? {
      assert PlaceOf(s.orders, c.order.internalId).None?;
      assert OnAdopt(s, c.order).orders[k] == s.orders[k];
    }
  }

  /** Orders that a step adds are newborn. */
  lemma AddedAreNewborn(s: State, c: Callback, k: nat)
    requires IdsConsistent(s) && Admissible(s, c) && |s.orders| <= k < |Step(s, c).orders|
    ensures c.Submit? || c.Adopt?
    ensures Newborn(Step(s, c).orders[k])
    ensures Step(s, c).commissioned == s.commissioned
  {
    hide Target, OmsOrders.OnExecution, OnStatusReport, ErrorText, Blank, CommissionOf, RecordOf, MapStatus;
    ResolveSizes(s, c);
  }

  lemma ResolveSizes(s: State, c: Callback)
    requires IdsConsistent(s)
    ensures !c.Submit? && !c.Adopt? ==> |Step(s, c).orders| == |s.orders|
  {
    hide Target, OmsOrders.OnExecution, OnStatusReport, ErrorText, Blank, CommissionOf, RecordOf, MapStatus;
  }

  // ---- Commissions add up ----

  ghost predicate Totalled(o: OmsOrder, commissioned: set<ExecKey>) {
    && o.commission == CommissionOf(o.executions)
    && forall i :: 0 <= i < |o.executions| ==> (o.executions[i].commission.Some? ==> o.executions[i].key in commissioned)
  }

  lemma CommissionSet(s: State, c: Callback)
    requires IdsConsistent(s)
    ensures s.commissioned <= Step(s, c).commissioned
  {
    if c.Adopt? {
      AdoptFrame(s, c.order);
    }
    hide OnAdopt, Target, OmsOrders.OnExecution, OnStatusReport, ErrorText, Blank, CommissionOf, RecordOf, MapStatus, Usable;
  }

  // ---- Runs keep orders moving forward ----

  ghost predicate TableMoves(before: seq<OmsOrder>, after: seq<OmsOrder>) {
    && |before| <= |after|
    && forall k :: 0 <= k < |before| ==> Moves(before[k], after[k])
  }

  lemma OrderStepMoves(c: Callback, before: OmsOrder, after: OmsOrder)
    requires OrderStep(c, before, after)
    ensures Moves(before, after)
  {
    hide OnStatusReport, OnOpenOrderReport, OmsOrders.OnExecution, OmsOrders.OnCommission, OnErrorReport, Park, Unpark;
    var bound := before.(twsId := after.twsId);
    assert Moves(before, bound) by {
      BindingMoves(before, after.twsId);
    }
    if after != before {
      match c
      case OrderStatus(_, raw, filled, remaining, average, permId, last) =>
        StatusReportMoves(bound, raw, filled, remaining, average, permId, last);
        MovesTrans(before, bound, after);
      case OpenOrder(_, raw, permId, _, _, _) =>
        OpenOrderReportMoves(bound, raw, permId);
        MovesTrans(before, bound, after);
      case ExecDetails(_, execId, _, _, report) =>
        var isNew, buffered :|
          after == OmsOrders.OnExecution(bound, KeyFor(bound, execId, report), isNew, report, buffered);
        ExecutionMoves(bound, KeyFor(bound, execId, report), isNew, report, buffered);
        MovesTrans(before, bound, after);
      case CommissionReport(_, raw) =>
        var i: nat :| i < |before.executions| && before.executions[i].commission.None?
          && after == OmsOrders.OnCommission(before, i, Usable(raw, Some(0.0)).value);
        CommissionMoves(before, i, Usable(raw, Some(0.0)).value);
      case BrokerError(_, code, text) => ErrorMoves(before, code, text);
      case ConnectionClosed => ParkThenUnpark(before);
      case ConnectionRestored => ParkThenUnpark(before);
      case _ =>
    }
  }

  lemma BindingMoves(o: OmsOrder, id: Option<int>)
    ensures Moves(o, o.(twsId := id))
  {}

  lemma OpenOrderReportMoves(o: OmsOrder, raw: string, permId: int)
    ensures Moves(o, OnOpenOrderReport(o, raw, permId))
  {
    hide MapStatus;
  }

  lemma StepMoves(s: State, c: Callback)
    requires IdsConsistent(s) && Admissible(s, c) && CommissionsTotalled(s)
    ensures TableMoves(s.orders, Step(s, c).orders)
  {
    hide Step, OrderStep, Moves;
    forall k | 0 <= k < |s.orders| ensures k < |Step(s, c).orders| && Moves(s.orders[k], Step(s, c).orders[k]) {
      StepOrderwise(s, c, k);
      OrderStepMoves(c, s.orders[k], Step(s, c).orders[k]);
    }
    StepGrows(s, c);
  }

  lemma StepGrows(s: State, c: Callback)
    requires IdsConsistent(s)
    ensures |s.orders| <= |Step(s, c).orders|
  {
    if c.Adopt? {
      AdoptFrame(s, c.order);
    }
    hide OnAdopt, Target, OmsOrders.OnExecution, OnStatusReport, ErrorText, Blank, CommissionOf, RecordOf, MapStatus;
    ResolveSizes(s, c);
  }

  lemma ExecutionTotals(s: State, c: Callback, k: nat)
    requires c.ExecDetails? && IdsConsistent(s) && CommissionsTotalled(s) && k < |s.orders|
    ensures |OnExecDetails(s, c).orders| == |s.orders|
    ensures Totalled(OnExecDetails(s, c).orders[k], OnExecDetails(s, c).commissioned)
  {
    hide Target, Resolve, CommissionOf, WeightedAverage, SharesOf, KeyFor, Totalled;
    ResolveTouchesOnlyTarget(s, c.id, c.report.permId, c.conId, c.side, Offered(c.report.shares));
    ResolveKeepsCommissions(s, c.id, c.report.permId, c.conId, c.side, Offered(c.report.shares));
    var found := Target(s, c.id, c.report.permId, c.conId, c.side, Offered(c.report.shares));
    var bound := Resolve(s, c.id, c.report.permId, c.conId, c.side, Offered(c.report.shares));
    assert Totalled(s.orders[k], s.commissioned);
    if found.Some? {
      assert Totalled(bound.orders[k], bound.commissioned) by { RebindingTotals(s.orders[k], s.commissioned, bound.orders[k]); }
      ExecuteTotals(bound, found.value, c.execId, c.report, k);
    }
  }

  lemma RebindingTotals(o: OmsOrder, commissioned: set<ExecKey>, rebound: OmsOrder)
    requires Totalled(o, commissioned) && rebound == o.(twsId := rebound.twsId)
    ensures Totalled(rebound, commissioned)
  {}

  lemma ResolveKeepsCommissions(s: State, id: int, permId: int, conId: int, side: Option<Side>, quantity: Option<real>)
    requires InRange(s)
    ensures Resolve(s, id, permId, conId, side, quantity).commissioned == s.commissioned
  {}

  lemma ExecuteTotals(s: State, k: nat, execId: string, r: Report, other: nat)
    requires k < |s.orders| && other < |s.orders| && Totalled(s.orders[other], s.commissioned)
    ensures var after := Execute(s, k, execId, r);
      |after.orders| == |s.orders| && Totalled(after.orders[other], after.commissioned)
  {
    hide WeightedAverage, CommissionOf, SharesOf, Usable, KeyFor;
  }

  lemma CommissionReportTotals(s: State, execId: string, raw: Option<real>)
    requires IdsConsistent(s) && CommissionsTotalled(s)
    ensures CommissionsTotalled(OnCommissionReport(s, execId, raw))
  {
    hide CommissionOf, Usable;
    forall k | 0 <= k < |s.orders|
      ensures Totalled(OnCommissionReport(s, execId, raw).orders[k], OnCommissionReport(s, execId, raw).commissioned)
    {
      assert Totalled(s.orders[k], s.commissioned);
    }
  }

  lemma QuietKeepsRecords(c: Callback, before: OmsOrder, after: OmsOrder)
    requires OrderStep(c, before, after) && !c.ExecDetails? && !c.CommissionReport?
    ensures after.executions == before.executions && after.commission == before.commission
  {
    hide MapStatus, ReportedAverage, ErrorText, Blank;
  }

  lemma StepTotals(s: State, c: Callback)
    requires IdsConsistent(s) && Admissible(s, c) && CommissionsTotalled(s)
    ensures CommissionsTotalled(Step(s, c))
  {
    var after := Step(s, c);
    if c.CommissionReport? {
      CommissionReportTotals(s, c.execId, c.commission);
    } else {
      CommissionSet(s, c);
      forall k | 0 <= k < |after.orders| ensures Totalled(after.orders[k], after.commissioned) {
        hide Step, OrderStep, IdsConsistent;
        if |s.orders| <= k {
          AddedAreNewborn(s, c, k);
        } else if c.ExecDetails? {
          ExecutionTotals(s, c, k);
          StepIsExecution(s, c);
        } else {
          StepOrderwise(s, c, k);
          QuietKeepsRecords(c, s.orders[k], after.orders[k]);
          assert Totalled(s.orders[k], s.commissioned);
        }
      }
    }
  }

  lemma StepIsExecution(s: State, c: Callback)
    requires c.ExecDetails? && InRange(s)
    ensures Step(s, c) == OnExecDetails(s, c)
  {}

  /** Over any run fills never go down, recorded executions are never lost, a filled,
      cancelled or rejected order never changes status, and each order's commission is
      the total over its records. */
  lemma {:induction false} RunMoves(s: State, cs: seq<Callback>)
    requires IdsConsistent(s) && AdmissibleAlong(s, cs) && CommissionsTotalled(s)
    ensures TableMoves(s.orders, Run(s, cs).orders) && CommissionsTotalled(Run(s, cs))
    decreases |cs|
  {
    hide Step, Admissible, Moves, CommissionsTotalled;
    if cs == [] {
      forall k | 0 <= k < |s.orders| ensures Moves(s.orders[k], s.orders[k]) {
        BindingMoves(s.orders[k], s.orders[k].twsId);
      }
    } else {
      var next := Step(s, cs[0]);
      StepConsistent(s, cs[0]);
      StepMoves(s, cs[0]);
      StepTotals(s, cs[0]);
      RunMoves(next, cs[1..]);
      forall k | 0 <= k < |s.orders| ensures Moves(s.orders[k], Run(s, cs).orders[k]) {
        MovesTrans(s.orders[k], next.orders[k], Run(s, cs).orders[k]);
      }
    }
  }

  /** Only a restored connection takes an order out of its park. */
  lemma ParkedUntilRestored(s: State, c: Callback, k: nat)
    requires IdsConsistent(s) && Admissible(s, c) && CommissionsTotalled(s) && k < |s.orders|
    requires IsParked(s.orders[k])
    ensures k < |Step(s, c).orders|
    ensures IsParked(Step(s, c).orders[k]) <==> !c.ConnectionRestored?
  {
    hide Step, OrderStep;
    StepOrderwise(s, c, k);
    if !c.ConnectionRestored? {
      ParkedStays(c, s.orders[k], Step(s, c).orders[k]);
    } else {
      RestoredUnparks(s, k);
    }
  }

  lemma ParkedStays(c: Callback, before: OmsOrder, after: OmsOrder)
    requires OrderStep(c, before, after) && IsParked(before) && !c.ConnectionRestored?
    ensures IsParked(after)
  {
    hide MapStatus, ReportedAverage, ErrorText, WeightedAverage, CommissionOf, SharesOf, Usable, Blank;
    ParkedIsNotBlank(before);
  }

  lemma ParkedIsNotBlank(o: OmsOrder)
    requires IsParked(o)
    ensures !Blank(o.message)
  {
    assert o.message[0] == "Connection closed"[0] == 'C';
  }

  lemma RestoredUnparks(s: State, k: nat)
    requires InRange(s) && k < |s.orders| && IsParked(s.orders[k])
    ensures !IsParked(Step(s, ConnectionRestored).orders[k])
  {}

  // ---- No false fill ----

  ghost predicate AllHonest(s: State) {
    forall k :: 0 <= k < |s.orders| ==> Honest(s.orders[k])
  }

  /** A status report accounts for the whole order it is about. */
  predicate HonestReport(s: State, c: Callback)
    requires InRange(s)
  {
    c.OrderStatus? ==>
      var found := Target(s, c.id, c.permId, 0, None, None);
      found.Some? ==> 0.0 <= c.filled && 0.0 <= c.remaining && c.filled + c.remaining >= s.orders[found.value].quantity
  }

  ghost predicate HonestAlong(s: State, cs: seq<Callback>)
    requires IdsConsistent(s) && AdmissibleAlong(s, cs)
    decreases |cs|
  {
    cs == [] || (HonestReport(s, cs[0]) && (StepConsistent(s, cs[0]); HonestAlong(Step(s, cs[0]), cs[1..])))
  }

  lemma OrderStepHonest(c: Callback, before: OmsOrder, after: OmsOrder)
    requires OrderStep(c, before, after) && Honest(before)
    requires c.OrderStatus? && after != before ==>
      0.0 <= c.filled && 0.0 <= c.remaining && c.filled + c.remaining >= before.quantity
    ensures Honest(after)
  {
    hide OnStatusReport, OnOpenOrderReport, OmsOrders.OnExecution, OnErrorReport, Park, Unpark;
    var bound := before.(twsId := after.twsId);
    assert Honest(bound);
    if after != before {
      match c
      case OrderStatus(_, raw, filled, remaining, average, permId, last) =>
        StatusReportHonest(bound, raw, filled, remaining, average, permId, last);
      case OpenOrder(_, raw, permId, _, _, _) => OtherCallbacksHonest(bound, raw, 0, "", permId);
      case ExecDetails(_, execId, _, _, report) =>
        var isNew, buffered :|
          after == OmsOrders.OnExecution(bound, KeyFor(bound, execId, report), isNew, report, buffered);
        ExecutionHonest(bound, KeyFor(bound, execId, report), isNew, report, buffered);
      case BrokerError(_, code, text) => OtherCallbacksHonest(before, "", code, text, 0);
      case _ => OtherCallbacksHonest(before, "", 0, "", 0);
    }
  }

  lemma StepHonest(s: State, c: Callback)
    requires IdsConsistent(s) && Admissible(s, c) && CommissionsTotalled(s) && AllHonest(s) && HonestReport(s, c)
    ensures AllHonest(Step(s, c))
  {
    hide Step, OrderStep, Honest;
    var after := Step(s, c);
    forall k | 0 <= k < |after.orders| ensures Honest(after.orders[k]) {
      if |s.orders| <= k {
        AddedAreNewborn(s, c, k);
      } else {
        StepOrderwise(s, c, k);
        if c.OrderStatus? {
          StatusOrderwise(s, c, k);
          StepIsStatus(s, c);
        }
        OrderStepHonest(c, s.orders[k], after.orders[k]);
      }
    }
  }

  lemma StepIsStatus(s: State, c: Callback)
    requires c.OrderStatus? && InRange(s)
    ensures Step(s, c) == OnOrderStatus(s, c)
  {}

  /** If every status report accounts for its whole order, then whatever else happens,
      filled plus remaining covers each order's quantity and Filled means filled. */
  lemma {:induction false} RunHonest(s: State, cs: seq<Callback>)
    requires IdsConsistent(s) && AdmissibleAlong(s, cs) && CommissionsTotalled(s)
    requires AllHonest(s) && HonestAlong(s, cs)
    ensures AllHonest(Run(s, cs))
    decreases |cs|
  {
    hide Step, Admissible, CommissionsTotalled, HonestReport, AllHonest;
    if cs != [] {
      StepConsistent(s, cs[0]);
      StepTotals(s, cs[0]);
      StepHonest(s, cs[0]);
      RunHonest(Step(s, cs[0]), cs[1..]);
    }
  }

  // ---- What the coordinator sees of a run ----

  /** Which leg an order works on, and whether it reverses one. */
  datatype Role = Role(leg: nat, isCompensation: bool)

  predicate Viewable(orders: seq<OmsOrder>) {
    forall k :: 0 <= k < |orders| ==> 0.0 <= orders[k].quantity
  }

  function Views(orders: seq<OmsOrder>, roles: nat -> Role): (r: seq<Orders.Order>)
    requires Viewable(orders)
    ensures |r| == |orders|
    ensures forall k :: 0 <= k < |orders| ==> r[k] == View(orders[k], roles(k).leg, roles(k).isCompensation)
  {
    if orders == [] then []
    else
      var n := |orders| - 1;
      Views(orders[..n], roles) + [View(orders[n], roles(n).leg, roles(n).isCompensation)]
  }

  /** The broker neither fills beyond an order's quantity nor fills what is settled. */
  ghost predicate FillsFairly(before: seq<OmsOrder>, after: seq<OmsOrder>) {
    && Viewable(after)
    && forall k :: 0 <= k < |before| && k < |after| ==>
         && after[k].filled <= after[k].quantity
         && (Terminal(before[k].status) && !IsParked(before[k]) ==> after[k].filled == before[k].filled)
  }

  ghost predicate FillsFairlyAlong(s: State, cs: seq<Callback>)
    requires IdsConsistent(s) && AdmissibleAlong(s, cs)
    decreases |cs|
  {
    cs == [] || (StepConsistent(s, cs[0]);
                 FillsFairly(s.orders, Step(s, cs[0]).orders) && FillsFairlyAlong(Step(s, cs[0]), cs[1..]))
  }

  lemma FairMovesAreEvolution(before: seq<OmsOrder>, after: seq<OmsOrder>, roles: nat -> Role)
    requires Viewable(before) && FillsFairly(before, after) && TableMoves(before, after)
    ensures Orders.TableEvolves(Views(before, roles), Views(after, roles))
  {
    forall k | 0 <= k < |before| ensures Evolves(Views(before, roles)[k], Views(after, roles)[k]) {
      MovesAreEvolution(before[k], after[k], roles(k).leg, roles(k).isCompensation);
    }
  }

  predicate NotOverfilled(orders: seq<OmsOrder>) {
    forall k :: 0 <= k < |orders| ==> orders[k].filled <= orders[k].quantity
  }

  lemma FairStart(orders: seq<OmsOrder>)
    requires Viewable(orders) && NotOverfilled(orders)
    ensures FillsFairly(orders, orders)
  {}

  /** Over any run of a broker that fills fairly, what the coordinator sees of the orders
      evolves as it assumes. */
  lemma {:induction false} RunIsEvolution(s: State, cs: seq<Callback>, roles: nat -> Role)
    requires IdsConsistent(s) && AdmissibleAlong(s, cs) && CommissionsTotalled(s)
    requires Viewable(s.orders) && NotOverfilled(s.orders) && FillsFairlyAlong(s, cs)
    ensures Viewable(Run(s, cs).orders) && Orders.TableEvolves(Views(s.orders, roles), Views(Run(s, cs).orders, roles))
    decreases |cs|
  {
    if cs == [] {
      FairStart(s.orders);
      RunMoves(s, cs);
      FairMovesAreEvolution(s.orders, s.orders, roles);
    } else {
      FairRun(s, cs, roles);
    }
  }

  /** The same without a start to look at: every step is fair by assumption. */
  lemma {:induction false} FairRun(s: State, cs: seq<Callback>, roles: nat -> Role)
    requires IdsConsistent(s) && AdmissibleAlong(s, cs) && CommissionsTotalled(s) && cs != []
    requires Viewable(s.orders) && FillsFairlyAlong(s, cs)
    ensures Viewable(Run(s, cs).orders) && Orders.TableEvolves(Views(s.orders, roles), Views(Run(s, cs).orders, roles))
    decreases |cs|
  {
    hide Step, Admissible, CommissionsTotalled, Moves, FillsFairly, Orders.TableEvolves, Views, TableMoves;
    var next := Step(s, cs[0]);
    StepConsistent(s, cs[0]);
    StepMoves(s, cs[0]);
    StepTotals(s, cs[0]);
    FairIsViewable(s.orders, next.orders);
    FairMovesAreEvolution(s.orders, next.orders, roles);
    if |cs| == 1 {
      assert cs[1..] == [];
      assert Run(s, cs) == next;
    } else {
      FairRun(next, cs[1..], roles);
      EvolvesOn(Views(s.orders, roles), Views(next.orders, roles), Views(Run(s, cs).orders, roles));
    }
  }

  lemma FairIsViewable(before: seq<OmsOrder>, after: seq<OmsOrder>)
    requires FillsFairly(before, after)
    ensures Viewable(after)
  {}
}
