/** The discipline of the events listeners see: one acknowledgement, before any fill
    event; one fill event, exactly when the order is filled; no partial fill after it. */
module AdapterEvents {
  import opened Sides
  import opened Options
  import opened Orders
  import opened OmsOrders
  import opened Text
  import opened Adapter

  /** How far an order's events have come. */
  datatype Phase = Silent | Acknowledged | Done | Broken

  function Next(p: Phase, kind: Kind): Phase {
    match kind
    case AckEvent => if p == Silent then Acknowledged else Broken
    case PartialFillEvent => if p == Acknowledged then Acknowledged else Broken
    case FillEvent => if p == Acknowledged then Done else Broken
    case _ => p
  }

  function PhaseOf(log: seq<Event>, k: nat): Phase {
    if log == [] then Silent
    else
      var p := PhaseOf(log[..|log| - 1], k);
      if log[|log| - 1].order == k then Next(p, log[|log| - 1].kind) else p
  }

  predicate Happened(log: seq<Event>, k: nat, kind: Kind) {
    Event(k, kind) in log
  }

  /** What listeners may rely on for one order. */
  ghost predicate Orderly(log: seq<Event>, k: nat) {
    && (forall i, j :: 0 <= i < j < |log| && log[i] == Event(k, AckEvent) ==> log[j] != Event(k, AckEvent))
    && (forall j :: 0 <= j < |log| && log[j] in {Event(k, PartialFillEvent), Event(k, FillEvent)} ==>
          Happened(log[..j], k, AckEvent))
    && (forall i, j :: 0 <= i < j < |log| && log[i] == Event(k, FillEvent) ==>
          log[j] !in {Event(k, FillEvent), Event(k, PartialFillEvent)})
  }

  /** The phases say exactly that: unbroken means orderly, and the phase tells which of
      the two events have happened. */
  lemma {:induction false} UnbrokenIsOrderly(log: seq<Event>, k: nat)
    requires PhaseOf(log, k) != Broken
    ensures Orderly(log, k)
    ensures PhaseOf(log, k) == Silent <==> !Happened(log, k, AckEvent)
    ensures PhaseOf(log, k) == Done <==> Happened(log, k, FillEvent)
  {
    if log != [] {
      var n := |log| - 1;
      UnbrokenIsOrderly(log[..n], k);
      OrderlyOneMore(log[..n], k, log[n]);
      assert log == log[..n] + [log[n]];
    }
  }

  lemma OrderlyOneMore(log: seq<Event>, k: nat, e: Event)
    requires Orderly(log, k)
    requires e == Event(k, AckEvent) ==> !Happened(log, k, AckEvent)
    requires e in {Event(k, PartialFillEvent), Event(k, FillEvent)} ==>
      Happened(log, k, AckEvent) && !Happened(log, k, FillEvent)
    ensures Orderly(log + [e], k)
  {
    var all := log + [e];
    forall j | 0 <= j < |all| && all[j] in {Event(k, PartialFillEvent), Event(k, FillEvent)}
      ensures Happened(all[..j], k, AckEvent)
    {
      assert all[..j] == log[..j];
      assert log[..|log|] == log;
    }
  }

  lemma PhaseOneMore(log: seq<Event>, k: nat, e: Event)
    ensures PhaseOf(log + [e], k) == if e.order == k then Next(PhaseOf(log, k), e.kind) else PhaseOf(log, k)
  {
    assert (log + [e])[..|log|] == log;
  }

  /** At most two events are told at once. */
  lemma PhaseAfterTag(log: seq<Event>, j: nat, k: nat, kinds: seq<Kind>)
    requires |kinds| <= 2
    ensures PhaseOf(log + Tag(k, kinds), j)
         == if j != k || kinds == [] then PhaseOf(log, j)
            else if |kinds| == 1 then Next(PhaseOf(log, j), kinds[0])
            else Next(Next(PhaseOf(log, j), kinds[0]), kinds[1])
  {
    if |kinds| == 1 {
      assert Tag(k, kinds) == [Event(k, kinds[0])];
      PhaseOneMore(log, j, Event(k, kinds[0]));
    } else if |kinds| == 2 {
      assert log + Tag(k, kinds) == log + [Event(k, kinds[0])] + [Event(k, kinds[1])];
      PhaseOneMore(log, j, Event(k, kinds[0]));
      PhaseOneMore(log + [Event(k, kinds[0])], j, Event(k, kinds[1]));
    } else {
      assert log + Tag(k, kinds) == log;
    }
  }

  // ---- The tables agree with the log ----

  predicate FilledAt(s: State, k: nat) {
    k < |s.orders| && s.orders[k].status == Filled
  }

  ghost predicate Told(s: State, k: nat) {
    && PhaseOf(s.log, k) == (if k !in s.acked then Silent else if k in s.fillEmitted then Done else Acknowledged)
    && (k in s.fillEmitted ==> k in s.acked)
  }

  ghost predicate Disciplined(s: State) {
    forall k: nat :: Told(s, k) && (k in s.fillEmitted <==> FilledAt(s, k))
  }

  /** Disciplined but for a fill of order `k` that has not been told yet. */
  ghost predicate DisciplinedBut(s: State, k: nat) {
    && (forall j: nat :: Told(s, j))
    && (forall j: nat :: j != k ==> (j in s.fillEmitted <==> FilledAt(s, j)))
    && (k in s.fillEmitted ==> FilledAt(s, k))
  }

  lemma AnnounceTells(s: State, k: nat, source: Source, isNew: bool)
    requires k < |s.orders| && DisciplinedBut(s, k)
    ensures Disciplined(Announce(s, k, source, isNew))
  {
    hide TellsPartialByStatus, PhaseOf;
    var after := Announce(s, k, source, isNew);
    forall j: nat ensures Told(after, j) && (j in after.fillEmitted <==> FilledAt(after, j)) {
      PhaseAfterTag(s.log, j, k, Kinds(s, k, source, isNew));
      assert Told(s, j);
    }
  }

  lemma QuietKeepsDiscipline(before: State, after: State)
    requires Disciplined(before) && after.acked == before.acked && after.fillEmitted == before.fillEmitted
    requires forall k: nat :: FilledAt(before, k) <==> FilledAt(after, k)
    requires
      || after.log == before.log
      || exists e: Event :: after.log == before.log + [e] && e.kind !in {AckEvent, PartialFillEvent, FillEvent}
    ensures Disciplined(after)
  {
    hide PhaseOf;
    forall k: nat ensures Told(after, k) && (k in after.fillEmitted <==> FilledAt(after, k)) {
      assert Told(before, k);
      if after.log != before.log {
        var e :| after.log == before.log + [e] && e.kind !in {AckEvent, PartialFillEvent, FillEvent};
        PhaseOneMore(before.log, k, e);
      }
    }
  }

  // ---- Steps ----

  lemma ResolveIsSilent(s: State, id: int, permId: int, conId: int, side: Option<Side>, quantity: Option<real>)
    requires IdsConsistent(s)
    ensures var after := Resolve(s, id, permId, conId, side, quantity);
      && after.acked == s.acked && after.fillEmitted == s.fillEmitted && after.log == s.log
      && |after.orders| == |s.orders|
      && forall k :: 0 <= k < |s.orders| ==> after.orders[k].status == s.orders[k].status
  {
    hide Target;
  }

  /** Replacing one order by a later version of it leaves at most its fill untold. */
  lemma ReplacedBut(before: State, s: State, k: nat)
    requires Disciplined(before) && k < |s.orders| && |s.orders| == |before.orders|
    requires s.acked == before.acked && s.fillEmitted == before.fillEmitted && s.log == before.log
    requires forall j :: 0 <= j < |s.orders| && j != k ==> s.orders[j].status == before.orders[j].status
    requires before.orders[k].status == Filled ==> s.orders[k].status == Filled
    ensures DisciplinedBut(s, k)
  {
    hide PhaseOf;
    forall j: nat ensures Told(s, j) && (j != k ==> (j in s.fillEmitted <==> FilledAt(s, j))) {
      assert Told(before, j);
    }
  }

  lemma StatusDisciplined(s: State, c: Callback)
    requires c.OrderStatus? && IdsConsistent(s) && Disciplined(s)
    ensures Disciplined(OnOrderStatus(s, c))
  {
    hide Target, Resolve, MapStatus, ReportedAverage, Disciplined, DisciplinedBut, Kinds, TellsPartialByStatus;
    var found, bound := Target(s, c.id, c.permId, 0, None, None), Resolve(s, c.id, c.permId, 0, None, None);
    ResolveIsSilent(s, c.id, c.permId, 0, None, None);
    if found.Some? {
      var k := found.value;
      var o := OnStatusReport(bound.orders[k], c.raw, c.filled, c.remaining, c.average, c.permId, c.last);
      var next := bound.(orders := bound.orders[k := o]);
      ReplacedBut(s, next, k);
      AnnounceTells(next, k, FromStatus, false);
    }
  }

  lemma OpenOrderDisciplined(s: State, c: Callback)
    requires c.OpenOrder? && IdsConsistent(s) && Disciplined(s)
    ensures Disciplined(OnOpenOrder(s, c))
  {
    hide Target, Resolve, MapStatus, Disciplined, DisciplinedBut, Kinds, TellsPartialByStatus, Offered;
    var found := Target(s, c.id, c.permId, c.conId, c.side, Offered(c.quantity));
    var bound := Resolve(s, c.id, c.permId, c.conId, c.side, Offered(c.quantity));
    ResolveIsSilent(s, c.id, c.permId, c.conId, c.side, Offered(c.quantity));
    if c.raw != "" && found.Some? {
      var k := found.value;
      var next := bound.(orders := bound.orders[k := OnOpenOrderReport(bound.orders[k], c.raw, c.permId)]);
      ReplacedBut(s, next, k);
      AnnounceTells(next, k, FromOpenOrder, false);
    }
  }

  lemma ExecutionDisciplined(s: State, c: Callback)
    requires c.ExecDetails? && IdsConsistent(s) && Disciplined(s)
    ensures Disciplined(OnExecDetails(s, c))
  {
    hide Target, Resolve, Disciplined, DisciplinedBut, Execute, Offered;
    var found := Target(s, c.id, c.report.permId, c.conId, c.side, Offered(c.report.shares));
    var bound := Resolve(s, c.id, c.report.permId, c.conId, c.side, Offered(c.report.shares));
    ResolveIsSilent(s, c.id, c.report.permId, c.conId, c.side, Offered(c.report.shares));
    if found.Some? {
      ExecuteDisciplined(s, bound, found.value, c.execId, c.report);
    }
  }

  lemma ExecuteDisciplined(before: State, s: State, k: nat, execId: string, r: Report)
    requires Disciplined(before) && k < |s.orders| && |s.orders| == |before.orders|
    requires s.acked == before.acked && s.fillEmitted == before.fillEmitted && s.log == before.log
    requires forall j :: 0 <= j < |s.orders| ==> s.orders[j].status == before.orders[j].status
    ensures Disciplined(Execute(s, k, execId, r))
  {
    hide WeightedAverage, CommissionOf, SharesOf, Usable, Disciplined, DisciplinedBut, Kinds, TellsPartialByStatus, KeyFor;
    var key := KeyFor(s.orders[k], execId, r);
    var isNew := key !in s.seen;
    var recorded := isNew && Recordable(r);
    var buffered := if recorded && key in s.pending then Some(s.pending[key]) else None;
    var o := OmsOrders.OnExecution(s.orders[k], key, isNew, r, buffered);
    var next := s.(orders := s.orders[k := o], seen := s.seen + {key}, execOrder := s.execOrder[key := k],
                   pending := if recorded then s.pending - {key} else s.pending,
                   commissioned := if buffered.Some? then s.commissioned + {key} else s.commissioned);
    ReplacedBut(before, next, k);
    AnnounceTells(next, k, FromExecution, isNew);
  }

  lemma CommissionDisciplined(s: State, execId: string, raw: Option<real>)
    requires IdsConsistent(s) && Disciplined(s)
    ensures Disciplined(OnCommissionReport(s, execId, raw))
  {
    hide Disciplined, Usable, CommissionOf, RecordOf;
    var after := OnCommissionReport(s, execId, raw);
    if after.log != s.log {
      assert after.log == s.log + [Event(s.execOrder[Given(execId)], CommissionEvent)];
    }
    QuietKeepsDiscipline(s, after);
  }

  lemma ErrorDisciplined(s: State, id: int, code: int, text: string)
    requires IdsConsistent(s) && Disciplined(s)
    ensures Disciplined(OnBrokerError(s, id, code, text))
  {
    hide Disciplined, ErrorText, Blank;
    var after := OnBrokerError(s, id, code, text);
    if after.log != s.log {
      var k := s.byTws[id];
      assert after.log == s.log + [Event(k, StatusEvent(after.orders[k].status))];
    }
    QuietKeepsDiscipline(s, after);
  }

  lemma ConnectionDisciplined(s: State)
    requires Disciplined(s)
    ensures Disciplined(s.(orders := ParkAll(s.orders)))
    ensures Disciplined(s.(orders := UnparkAll(s.orders)))
  {
    hide Disciplined;
    QuietKeepsDiscipline(s, s.(orders := ParkAll(s.orders)));
    QuietKeepsDiscipline(s, s.(orders := UnparkAll(s.orders)));
  }

  lemma SubmitDisciplined(s: State, o: OmsOrder, id: int)
    requires Disciplined(s) && (Registered(s, o.internalId) || o.status != Filled)
    ensures Disciplined(OnSubmit(s, o, id))
  {
    hide Disciplined, Registered;
    QuietKeepsDiscipline(s, OnSubmit(s, o, id));
  }

  lemma AdoptDisciplined(s: State, o: OmsOrder)
    requires InRange(s) && Disciplined(s) && o.status != Filled && !Registered(s, o.internalId)
    ensures Disciplined(OnAdopt(s, o))
  {
    hide Disciplined;
    QuietKeepsDiscipline(s, OnAdopt(s, o));
  }

  lemma StepDisciplined(s: State, c: Callback)
    requires IdsConsistent(s) && Admissible(s, c) && Disciplined(s)
    ensures Disciplined(Step(s, c))
  {
    hide OnOrderStatus, OnOpenOrder, OnExecDetails, OnCommissionReport, OnBrokerError, OnSubmit, OnAdopt, Disciplined;
    match c
    case OrderStatus(_, _, _, _, _, _, _) => StatusDisciplined(s, c);
    case OpenOrder(_, _, _, _, _, _) => OpenOrderDisciplined(s, c);
    case ExecDetails(_, _, _, _, _) => ExecutionDisciplined(s, c);
    case CommissionReport(execId, raw) => CommissionDisciplined(s, execId, raw);
    case BrokerError(id, code, text) => ErrorDisciplined(s, id, code, text);
    case Submit(o, id) => SubmitDisciplined(s, o, id);
    case Adopt(o) => AdoptDisciplined(s, o);
    case _ => ConnectionDisciplined(s);
  }

  lemma {:induction false} RunDisciplined(s: State, cs: seq<Callback>)
    requires IdsConsistent(s) && AdmissibleAlong(s, cs) && Disciplined(s)
    ensures Disciplined(Run(s, cs))
    decreases |cs|
  {
    hide Step, Admissible, Disciplined;
    if cs != [] {
      StepConsistent(s, cs[0]);
      StepDisciplined(s, cs[0]);
      RunDisciplined(Step(s, cs[0]), cs[1..]);
    }
  }

  /** In every run of the adapter, listeners see each order's events in order, and the
      fill event has been told exactly for the orders that are filled. */
  lemma ListenersSeeOrderlyEvents(cs: seq<Callback>, k: nat)
    requires IdsConsistent(EMPTY) && AdmissibleAlong(EMPTY, cs)
    ensures var s := Run(EMPTY, cs);
      && Orderly(s.log, k)
      && (Happened(s.log, k, FillEvent) <==> k < |s.orders| && s.orders[k].status == Filled)
  {
    RunDisciplined(EMPTY, cs);
    var s := Run(EMPTY, cs);
    assert Told(s, k);
    UnbrokenIsOrderly(s.log, k);
  }
}
