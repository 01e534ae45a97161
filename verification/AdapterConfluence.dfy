/** Executions and commissions are confluent: what the adapter has recorded depends only
    on which of them were delivered, not on order, repetition or what came in between. */
module AdapterConfluence {
  import opened Sides
  import opened Options
  import opened Orders
  import opened OmsOrders
  import opened Text
  import opened Adapter
  import opened AdapterRuns

  /** What the broker has to tell: for every execution its order and report, for every
      execution id its commission. */
  datatype Plan = Plan(owner: ExecKey -> nat, report: ExecKey -> Report, commission: string -> real)

  predicate SamePayload(a: Report, b: Report) {
    a.shares == b.shares && a.price == b.price && a.cumQty == b.cumQty
  }

  /** Every execution finds its order and says what it always says; so do commissions. */
  ghost predicate Follows(plan: Plan, s: State, c: Callback)
    requires InRange(s)
  {
    match c
    case ExecDetails(id, execId, conId, side, r) =>
      && execId != "" && Recordable(r) && SamePayload(r, plan.report(Given(execId)))
      && Target(s, id, r.permId, conId, side, Offered(r.shares)) == Some(plan.owner(Given(execId)))
    case CommissionReport(execId, raw) => Usable(raw, Some(0.0)).value == plan.commission(execId)
    case _ => true
  }

  ghost predicate FollowsAlong(plan: Plan, s: State, cs: seq<Callback>)
    requires IdsConsistent(s) && AdmissibleAlong(s, cs)
    decreases |cs|
  {
    cs == [] || (Follows(plan, s, cs[0]) && (StepConsistent(s, cs[0]); FollowsAlong(plan, Step(s, cs[0]), cs[1..])))
  }

  function ExecutionOf(c: Callback): set<ExecKey> {
    if c.ExecDetails? then {Given(c.execId)} else {}
  }

  function CommissionOfCallback(c: Callback): set<ExecKey> {
    if c.CommissionReport? && c.execId != "" then {Given(c.execId)} else {}
  }

  /** The executions and the commissions that a run delivers. */
  function Executed(cs: seq<Callback>): set<ExecKey> {
    if cs == [] then {} else ExecutionOf(cs[0]) + Executed(cs[1..])
  }

  function Commissioned(cs: seq<Callback>): set<ExecKey> {
    if cs == [] then {} else CommissionOfCallback(cs[0]) + Commissioned(cs[1..])
  }

  // ---- What the tables hold, given what was delivered ----

  function Charge(plan: Plan, charged: set<ExecKey>, key: ExecKey): Option<real> {
    if key in charged && key.Given? then Some(plan.commission(key.id)) else None
  }

  function Expected(plan: Plan, charged: set<ExecKey>, key: ExecKey): Record {
    var r := plan.report(key);
    Record(key, r.shares, r.price.GetOr(0.0), Charge(plan, charged, key))
  }

  predicate DistinctKeys(records: seq<Record>) {
    forall i, j :: 0 <= i < j < |records| ==> records[i].key != records[j].key
  }

  /** Order `k` holds exactly the expected records of its delivered executions. */
  ghost predicate Holds(plan: Plan, records: seq<Record>, k: nat, done: set<ExecKey>, charged: set<ExecKey>) {
    && DistinctKeys(records)
    && (forall i :: 0 <= i < |records| ==>
          && records[i].key in done && plan.owner(records[i].key) == k
          && records[i] == Expected(plan, charged, records[i].key))
    && (forall key :: key in done && plan.owner(key) == k ==> RecordIndex(records, key).Some?)
  }

  ghost predicate TablesTrack(plan: Plan, s: State, done: set<ExecKey>, charged: set<ExecKey>) {
    && s.seen == done && s.execOrder.Keys == done
    && (forall key :: key in done ==> s.execOrder[key] == plan.owner(key) && plan.owner(key) < |s.orders|)
    && s.commissioned == done * charged
    && s.pending.Keys == charged - done
    && (forall key :: key in s.pending ==> Charge(plan, charged, key) == Some(s.pending[key]))
    && (forall key :: key in charged ==> key.Given?)
  }

  ghost predicate Tracks(plan: Plan, s: State, done: set<ExecKey>, charged: set<ExecKey>) {
    && TablesTrack(plan, s, done, charged)
    && forall k :: 0 <= k < |s.orders| ==> Holds(plan, s.orders[k].executions, k, done, charged)
  }

  // ---- One order ----

  lemma HoldsElsewhere(plan: Plan, records: seq<Record>, k: nat, done: set<ExecKey>, charged: set<ExecKey>, key: ExecKey)
    requires Holds(plan, records, k, done, charged) && plan.owner(key) != k
    ensures Holds(plan, records, k, done + {key}, charged)
  {}

  lemma HoldsOneMore(plan: Plan, records: seq<Record>, k: nat, done: set<ExecKey>, charged: set<ExecKey>, key: ExecKey)
    requires Holds(plan, records, k, done, charged) && plan.owner(key) == k && key !in done
    ensures Holds(plan, records + [Expected(plan, charged, key)], k, done + {key}, charged)
  {
    var all := records + [Expected(plan, charged, key)];
    assert all[..|all| - 1] == records;
  }

  /** An execution that is not among the records may be charged without touching them. */
  lemma HoldsUncharged(plan: Plan, records: seq<Record>, k: nat, done: set<ExecKey>, charged: set<ExecKey>, key: ExecKey)
    requires Holds(plan, records, k, done, charged) && (key in done ==> plan.owner(key) != k || key in charged)
    ensures Holds(plan, records, k, done, charged + {key})
  {
    forall i | 0 <= i < |records| ensures records[i] == Expected(plan, charged + {key}, records[i].key) {}
  }

  lemma {:induction false} IndexSurvives(records: seq<Record>, after: seq<Record>, key: ExecKey)
    requires |after| == |records| && forall i :: 0 <= i < |records| ==> after[i].key == records[i].key
    ensures RecordIndex(after, key) == RecordIndex(records, key)
  {
    if records != [] {
      var n := |records| - 1;
      assert after[..n] == after[..|after| - 1];
      IndexSurvives(records[..n], after[..n], key);
    }
  }

  lemma HoldsCharged(plan: Plan, records: seq<Record>, k: nat, done: set<ExecKey>, charged: set<ExecKey>, key: ExecKey)
    requires Holds(plan, records, k, done, charged) && key.Given? && key in done && plan.owner(key) == k
    requires RecordIndex(records, key).Some?
    ensures
      var i := RecordIndex(records, key).value;
      Holds(plan, records[i := records[i].(commission := Some(plan.commission(key.id)))], k, done, charged + {key})
  {
    hide RecordIndex;
    var at := RecordIndex(records, key).value;
    var after := records[at := records[at].(commission := Some(plan.commission(key.id)))];
    forall i | 0 <= i < |after| ensures after[i] == Expected(plan, charged + {key}, after[i].key) {
      if i != at {
        assert records[i].key != key;
      }
    }
    forall other | other in done && plan.owner(other) == k ensures RecordIndex(after, other).Some? {
      IndexSurvives(records, after, other);
    }
  }

  // ---- Steps ----

  lemma ResolveTables(s: State, id: int, permId: int, conId: int, side: Option<Side>, quantity: Option<real>)
    requires IdsConsistent(s)
    ensures var after := Resolve(s, id, permId, conId, side, quantity);
      && after.seen == s.seen && after.execOrder == s.execOrder && after.commissioned == s.commissioned
      && after.pending == s.pending && |after.orders| == |s.orders|
      && forall k :: 0 <= k < |s.orders| ==> after.orders[k].executions == s.orders[k].executions
  {
    hide Target;
  }

  lemma ExecuteTracks(plan: Plan, s: State, k: nat, execId: string, r: Report, done: set<ExecKey>, charged: set<ExecKey>)
    requires Tracks(plan, s, done, charged) && k < |s.orders| && plan.owner(Given(execId)) == k
    requires execId != "" && Recordable(r) && SamePayload(r, plan.report(Given(execId)))
    ensures Tracks(plan, Execute(s, k, execId, r), done + {Given(execId)}, charged)
  {
    hide Holds, WeightedAverage, CommissionOf, SharesOf, Announce;
    var key := Given(execId);
    var after := Execute(s, k, execId, r);
    ExecuteTables(s, k, execId, r);
    forall j | 0 <= j < |after.orders| ensures Holds(plan, after.orders[j].executions, j, done + {key}, charged) {
      assert Holds(plan, s.orders[j].executions, j, done, charged);
      if j != k {
        HoldsElsewhere(plan, s.orders[j].executions, j, done, charged, key);
      } else if key in done {
        assert done + {key} == done;
      } else {
        HoldsOneMore(plan, s.orders[j].executions, j, done, charged, key);
      }
    }
  }

  lemma ExecuteTables(s: State, k: nat, execId: string, r: Report)
    requires k < |s.orders| && execId != "" && Recordable(r)
    ensures
      var key, after := Given(execId), Execute(s, k, execId, r);
      var buffered := if key !in s.seen && key in s.pending then Some(s.pending[key]) else None;
      && |after.orders| == |s.orders|
      && after.seen == s.seen + {key} && after.execOrder == s.execOrder[key := k]
      && (forall j :: 0 <= j < |s.orders| && j != k ==> after.orders[j] == s.orders[j])
      && (key in s.seen ==>
            && after.orders[k].executions == s.orders[k].executions
            && after.pending == s.pending && after.commissioned == s.commissioned)
      && (key !in s.seen ==>
            && after.orders[k].executions == s.orders[k].executions + [Record(key, r.shares, r.price.value, buffered)]
            && after.pending == s.pending - {key}
            && after.commissioned == s.commissioned + (if buffered.Some? then {key} else {}))
  {
    hide WeightedAverage, CommissionOf, SharesOf, Kinds, TellsPartialByStatus;
  }

  lemma CommissionTracks(plan: Plan, s: State, execId: string, raw: Option<real>, done: set<ExecKey>, charged: set<ExecKey>)
    requires IdsConsistent(s) && Tracks(plan, s, done, charged)
    requires Usable(raw, Some(0.0)).value == plan.commission(execId)
    ensures Tracks(plan, OnCommissionReport(s, execId, raw), done, charged + (if execId == "" then {} else {Given(execId)}))
  {
    hide Holds, CommissionOf, RecordIndex, Usable;
    var key := Given(execId);
    if execId == "" {
      assert charged + {} == charged;
    } else if key in s.commissioned {
      assert charged + {key} == charged;
    } else if key in done {
      CommissionLands(plan, s, execId, raw, done, charged);
    } else {
      var after := OnCommissionReport(s, execId, raw);
      forall k | 0 <= k < |after.orders| ensures Holds(plan, after.orders[k].executions, k, done, charged + {key}) {
        HoldsUncharged(plan, s.orders[k].executions, k, done, charged, key);
      }
      assert after.pending.Keys == charged + {key} - done;
    }
  }

  lemma CommissionLands(plan: Plan, s: State, execId: string, raw: Option<real>, done: set<ExecKey>, charged: set<ExecKey>)
    requires IdsConsistent(s) && Tracks(plan, s, done, charged)
    requires Usable(raw, Some(0.0)).value == plan.commission(execId)
    requires execId != "" && Given(execId) in done && Given(execId) !in s.commissioned
    ensures Tracks(plan, OnCommissionReport(s, execId, raw), done, charged + {Given(execId)})
  {
    hide Holds, CommissionOf, RecordIndex, Usable;
    var key := Given(execId);
    var owner := plan.owner(key);
    assert RecordIndex(s.orders[owner].executions, key).Some? by {
      HoldsHas(plan, s.orders[owner].executions, owner, done, charged, key);
    }
    var after := OnCommissionReport(s, execId, raw);
    forall k | 0 <= k < |after.orders| ensures Holds(plan, after.orders[k].executions, k, done, charged + {key}) {
      assert Holds(plan, s.orders[k].executions, k, done, charged);
      if k == owner {
        HoldsCharged(plan, s.orders[k].executions, k, done, charged, key);
      } else {
        HoldsUncharged(plan, s.orders[k].executions, k, done, charged, key);
      }
    }
  }

  lemma HoldsHas(plan: Plan, records: seq<Record>, k: nat, done: set<ExecKey>, charged: set<ExecKey>, key: ExecKey)
    requires Holds(plan, records, k, done, charged) && key in done && plan.owner(key) == k
    ensures RecordIndex(records, key).Some?
  {}

  lemma ExecutionStepTracks(plan: Plan, s: State, c: Callback, done: set<ExecKey>, charged: set<ExecKey>)
    requires c.ExecDetails? && IdsConsistent(s) && Tracks(plan, s, done, charged) && Follows(plan, s, c)
    ensures Tracks(plan, OnExecDetails(s, c), done + {Given(c.execId)}, charged)
  {
    hide Target, Resolve, Holds, Execute;
    ResolveTables(s, c.id, c.report.permId, c.conId, c.side, Offered(c.report.shares));
    var k := plan.owner(Given(c.execId));
    var bound := Resolve(s, c.id, c.report.permId, c.conId, c.side, Offered(c.report.shares));
    assert Tracks(plan, bound, done, charged);
    ExecuteTracks(plan, bound, k, c.execId, c.report, done, charged);
  }

  /** Every other callback leaves records and tables alone, and adds only empty orders. */
  lemma QuietTables(s: State, c: Callback)
    requires IdsConsistent(s) && !c.ExecDetails? && !c.CommissionReport?
    ensures var after := Step(s, c);
      && after.seen == s.seen && after.execOrder == s.execOrder && after.commissioned == s.commissioned
      && after.pending == s.pending
  {
    hide Target, Resolve, OnStatusReport, OnOpenOrderReport, ErrorText, Blank, Registered, Offered, TellsPartialByStatus,
         Kinds, OnAdopt;
    if c.Adopt? {
      AdoptFrame(s, c.order);
    } else if c.OrderStatus? {
      ResolveTables(s, c.id, c.permId, 0, None, None);
    } else if c.OpenOrder? {
      ResolveTables(s, c.id, c.permId, c.conId, c.side, Offered(c.quantity));
    }
  }

  lemma QuietStepTracks(plan: Plan, s: State, c: Callback, done: set<ExecKey>, charged: set<ExecKey>)
    requires IdsConsistent(s) && Admissible(s, c) && CommissionsTotalled(s) && Tracks(plan, s, done, charged)
    requires !c.ExecDetails? && !c.CommissionReport?
    ensures Tracks(plan, Step(s, c), done, charged)
  {
    hide Step, Holds, Admissible, OrderStep, CommissionsTotalled;
    var after := Step(s, c);
    QuietTables(s, c);
    StepGrows(s, c);
    forall k | 0 <= k < |after.orders| ensures Holds(plan, after.orders[k].executions, k, done, charged) {
      if k < |s.orders| {
        StepOrderwise(s, c, k);
        QuietKeepsRecords(c, s.orders[k], after.orders[k]);
      } else {
        AddedAreNewborn(s, c, k);
        NothingHeld(plan, k, done, charged);
      }
    }
  }

  lemma NothingHeld(plan: Plan, k: nat, done: set<ExecKey>, charged: set<ExecKey>)
    requires forall key :: key in done ==> plan.owner(key) != k
    ensures Holds(plan, [], k, done, charged)
  {}

  lemma StepTracks(plan: Plan, s: State, c: Callback, done: set<ExecKey>, charged: set<ExecKey>)
    requires IdsConsistent(s) && Admissible(s, c) && CommissionsTotalled(s)
    requires Tracks(plan, s, done, charged) && Follows(plan, s, c)
    ensures Tracks(plan, Step(s, c), done + ExecutionOf(c), charged + CommissionOfCallback(c))
  {
    if c.ExecDetails? {
      assert charged + {} == charged;
      ExecutionStepTracks(plan, s, c, done, charged);
    } else if c.CommissionReport? {
      assert done + {} == done;
      CommissionTracks(plan, s, c.execId, c.commission, done, charged);
    } else {
      assert charged + {} == charged && done + {} == done;
      QuietStepTracks(plan, s, c, done, charged);
    }
  }

  lemma {:induction false} RunTracks(plan: Plan, s: State, cs: seq<Callback>, done: set<ExecKey>, charged: set<ExecKey>)
    requires IdsConsistent(s) && AdmissibleAlong(s, cs) && CommissionsTotalled(s)
    requires Tracks(plan, s, done, charged) && FollowsAlong(plan, s, cs)
    ensures Tracks(plan, Run(s, cs), done + Executed(cs), charged + Commissioned(cs))
    decreases |cs|
  {
    hide Step, Admissible, CommissionsTotalled, Tracks, Follows, ExecutionOf, CommissionOfCallback;
    if cs == [] {
      assert done + {} == done && charged + {} == charged;
    } else {
      StepConsistent(s, cs[0]);
      StepTotals(s, cs[0]);
      StepTracks(plan, s, cs[0], done, charged);
      RunTracks(plan, Step(s, cs[0]), cs[1..], done + ExecutionOf(cs[0]), charged + CommissionOfCallback(cs[0]));
      assert done + ExecutionOf(cs[0]) + Executed(cs[1..]) == done + Executed(cs);
      assert charged + CommissionOfCallback(cs[0]) + Commissioned(cs[1..]) == charged + Commissioned(cs);
    }
  }

  // ---- Sums do not depend on the order of recording ----

  function Without(records: seq<Record>, i: nat): seq<Record>
    requires i < |records|
  {
    records[..i] + records[i + 1..]
  }

  /** Taking `r` out of `records` leaves `less`, as far as the sums can tell. */
  ghost predicate SumsDifferBy(records: seq<Record>, less: seq<Record>, r: Record) {
    && CommissionTotal(records) == CommissionTotal(less) + r.commission.GetOr(0.0)
    && QuantityOf(records) == QuantityOf(less) + (if r.quantity <= 0.0 then 0.0 else r.quantity)
    && NotionalOf(records) == NotionalOf(less) + CostOf(r)
    && SharesOf(records) == SharesOf(less) + r.quantity
  }

  lemma {:induction false} SumsWithout(records: seq<Record>, i: nat)
    requires i < |records|
    ensures SumsDifferBy(records, Without(records, i), records[i])
  {
    hide CostOf;
    var n := |records| - 1;
    if i == n {
      assert Without(records, i) == records[..n];
    } else {
      SumsWithout(records[..n], i);
      assert Without(records, i)[..n - 1] == Without(records[..n], i);
      assert Without(records, i)[n - 1] == records[n];
    }
  }

  lemma Inhabited(records: seq<Record>)
    ensures records == [] || exists r :: r in records
  {
    if records != [] {
      assert records[0] in records;
    }
  }

  /** Two lists of the same records, each with distinct keys, have the same sums. */
  lemma {:induction false} SameRecordsSameSums(a: seq<Record>, b: seq<Record>)
    requires DistinctKeys(a) && DistinctKeys(b) && (forall r :: r in a <==> r in b)
    ensures CommissionTotal(a) == CommissionTotal(b)
    ensures QuantityOf(a) == QuantityOf(b) && NotionalOf(a) == NotionalOf(b) && SharesOf(a) == SharesOf(b)
  {
    if a == [] {
      Inhabited(b);
    } else {
      var n := |a| - 1;
      assert a[n] in b;
      var i :| 0 <= i < |b| && b[i] == a[n];
      SumsWithout(a, n);
      SumsWithout(b, i);
      assert Without(a, n) == a[..n];
      forall r ensures r in a[..n] <==> r in Without(b, i) {
        assert r in a[..n] ==> r in a && r.key != a[n].key;
        assert r in Without(b, i) <==> r in b && r != a[n] by {
          WithoutOnlyOne(b, i, r);
        }
      }
      SameRecordsSameSums(a[..n], Without(b, i));
    }
  }

  lemma WithoutOnlyOne(records: seq<Record>, i: nat, r: Record)
    requires DistinctKeys(records) && i < |records|
    ensures r in Without(records, i) <==> r in records && r != records[i]
  {
    if r in records && r != records[i] {
      var j :| 0 <= j < |records| && records[j] == r;
      assert Without(records, i)[if j < i then j else j - 1] == r;
    }
  }

  // ---- Confluence ----

  lemma HeldExactly(plan: Plan, records: seq<Record>, k: nat, done: set<ExecKey>, charged: set<ExecKey>, r: Record)
    requires Holds(plan, records, k, done, charged)
    ensures r in records <==> r.key in done && plan.owner(r.key) == k && r == Expected(plan, charged, r.key)
  {
    if r.key in done && plan.owner(r.key) == k && r == Expected(plan, charged, r.key) {
      var i := RecordIndex(records, r.key).value;
      assert records[i] == r;
    }
  }

  /** No execution or commission has been delivered yet. */
  predicate Untouched(s: State) {
    && s.seen == {} && s.execOrder == map[] && s.commissioned == {} && s.pending == map[]
    && forall k :: 0 <= k < |s.orders| ==> s.orders[k].executions == []
  }

  lemma UntouchedTracks(plan: Plan, s: State)
    requires Untouched(s)
    ensures Tracks(plan, s, {}, {})
  {}

  /** Two runs from one state that deliver the same executions and the same commissions,
      in whatever order, however often and whatever else happens in between, leave the
      same records on every order, the same commission total, the same derived average
      and the same commissions still waiting for their execution. */
  lemma DeliveriesAreConfluent(plan: Plan, s: State, a: seq<Callback>, b: seq<Callback>, k: nat)
    requires IdsConsistent(s) && CommissionsTotalled(s) && Untouched(s)
    requires AdmissibleAlong(s, a) && AdmissibleAlong(s, b) && FollowsAlong(plan, s, a) && FollowsAlong(plan, s, b)
    requires Executed(a) == Executed(b) && Commissioned(a) == Commissioned(b)
    requires k < |Run(s, a).orders| && k < |Run(s, b).orders|
    ensures
      var x, y := Run(s, a).orders[k], Run(s, b).orders[k];
      && (forall r :: r in x.executions <==> r in y.executions) && |x.executions| == |y.executions|
      && x.commission == y.commission
      && WeightedAverage(x.executions) == WeightedAverage(y.executions)
    ensures Run(s, a).pending == Run(s, b).pending
  {
    hide Run, Holds;
    UntouchedTracks(plan, s);
    RunTracks(plan, s, a, {}, {});
    RunTracks(plan, s, b, {}, {});
    RunMoves(s, a);
    RunMoves(s, b);
    var done, charged := {} + Executed(a), {} + Commissioned(a);
    var x, y := Run(s, a).orders[k], Run(s, b).orders[k];
    forall r ensures r in x.executions <==> r in y.executions {
      HeldExactly(plan, x.executions, k, done, charged, r);
      HeldExactly(plan, y.executions, k, done, charged, r);
    }
    HoldsDistinct(plan, x.executions, k, done, charged);
    HoldsDistinct(plan, y.executions, k, done, charged);
    SameRecordsSameSums(x.executions, y.executions);
    SameRecordsSameLength(x.executions, y.executions);
    assert Totalled(x, Run(s, a).commissioned) && Totalled(y, Run(s, b).commissioned);
    SamePending(plan, Run(s, a), Run(s, b), done, charged);
  }

  lemma HoldsDistinct(plan: Plan, records: seq<Record>, k: nat, done: set<ExecKey>, charged: set<ExecKey>)
    requires Holds(plan, records, k, done, charged)
    ensures DistinctKeys(records)
  {}

  lemma {:induction false} SameRecordsSameLength(a: seq<Record>, b: seq<Record>)
    requires DistinctKeys(a) && DistinctKeys(b) && (forall r :: r in a <==> r in b)
    ensures |a| == |b|
  {
    if a == [] {
      Inhabited(b);
    } else {
      var n := |a| - 1;
      assert a[n] in b;
      var i :| 0 <= i < |b| && b[i] == a[n];
      assert Without(a, n) == a[..n];
      forall r ensures r in a[..n] <==> r in Without(b, i) {
        WithoutOnlyOne(a, n, r);
        WithoutOnlyOne(b, i, r);
      }
      SameRecordsSameLength(a[..n], Without(b, i));
    }
  }

  lemma SamePending(plan: Plan, x: State, y: State, done: set<ExecKey>, charged: set<ExecKey>)
    requires TablesTrack(plan, x, done, charged) && TablesTrack(plan, y, done, charged)
    ensures x.pending == y.pending
  {
    forall key | key in x.pending ensures key in y.pending && x.pending[key] == y.pending[key] {
      assert key in charged - done;
      assert Charge(plan, charged, key) == Some(x.pending[key]);
      assert Charge(plan, charged, key) == Some(y.pending[key]);
    }
  }

  /** The average field itself is not confluent: a repeated execution overwrites the
      derived average with the one the broker reported back then. */
  lemma AverageIsNotConfluent(o: OmsOrder, first: Report, second: Report)
    requires o.executions == []
    requires first == Report(1.0, Some(10.0), 1.0, Some(10.0), 0)
    requires second == Report(1.0, Some(20.0), 2.0, Some(15.0), 0)
    ensures
      var once := OmsOrders.OnExecution(OmsOrders.OnExecution(o, Given("a"), true, first, None), Given("b"), true, second, None);
      var again := OmsOrders.OnExecution(once, Given("a"), false, first, None);
      once.executions == again.executions && once.average == Some(15.0) && again.average == Some(10.0)
  {
    var x, y := Record(Given("a"), 1.0, 10.0, None), Record(Given("b"), 1.0, 20.0, None);
    assert [x, y][..1] == [x] && [x][..0] == [];
    assert QuantityOf([x]) == 1.0 && NotionalOf([x]) == CostOf(x);
    assert CostOf(x) == 10.0 && CostOf(y) == 20.0;
    assert QuantityOf([x, y]) == 2.0 && NotionalOf([x, y]) == 30.0;
  }
}
