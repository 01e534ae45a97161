/** Coalesced persistence of broker callbacks: at most one write per order in flight,
    and callbacks that arrive meanwhile are remembered by kind. A coroutine runs without
    interruption between two writes, so each stretch of it is one step. */
module Persistence {

  type OrderId = string
  type Kind = string

  /** What happened so far. */
  datatype Entry =
    | Reported(id: OrderId, kind: Kind)
    | Started(id: OrderId, kinds: set<Kind>)
    | Finished(id: OrderId)
    | Failed(id: OrderId)

  /** `first` is the kind the running coroutine of an order was called with. */
  datatype State = State(
    inflight: set<OrderId>, dirty: set<OrderId>, kinds: map<OrderId, set<Kind>>, first: map<OrderId, Kind>, log: seq<Entry>)

  const IDLE := State({}, {}, map[], map[], [])

  datatype Event = Callback(id: OrderId, kind: Kind) | WriteDone(id: OrderId) | WriteFailed(id: OrderId)

  function Remembered(s: State, id: OrderId): set<Kind> {
    if id in s.kinds then s.kinds[id] else {}
  }

  /** The next write of an order: what is remembered, or else the coroutine's own kind. */
  function StartWrite(s: State, id: OrderId, first: Kind): State {
    var remembered := Remembered(s, id);
    var taken := if remembered == {} then {first} else remembered;
    s.(dirty := s.dirty - {id}, kinds := s.kinds[id := {}], log := s.log + [Started(id, taken)])
  }

  function OnCallback(s: State, id: OrderId, kind: Kind): State {
    var noted := s.(kinds := s.kinds[id := Remembered(s, id) + {kind}], log := s.log + [Reported(id, kind)]);
    if id in s.inflight then noted.(dirty := s.dirty + {id})
    else StartWrite(noted.(inflight := s.inflight + {id}, first := s.first[id := kind]), id, kind)
  }

  function OnWriteDone(s: State, id: OrderId): State
    requires id in s.first
  {
    var done := s.(log := s.log + [Finished(id)]);
    if id in s.dirty then StartWrite(done, id, s.first[id])
    else done.(kinds := s.kinds - {id}, inflight := s.inflight - {id}, first := s.first - {id})
  }

  function OnWriteFailed(s: State, id: OrderId): State {
    s.(inflight := s.inflight - {id}, first := s.first - {id}, log := s.log + [Failed(id)])
  }

  /** Only a write in flight can end. */
  predicate Possible(s: State, e: Event) {
    e.Callback? || (e.id in s.inflight && e.id in s.first)
  }

  function Step(s: State, e: Event): State
    requires Possible(s, e)
  {
    match e
    case Callback(id, kind) => OnCallback(s, id, kind)
    case WriteDone(id) => OnWriteDone(s, id)
    case WriteFailed(id) => OnWriteFailed(s, id)
  }

  predicate PossibleAlong(s: State, es: seq<Event>)
    decreases |es|
  {
    es == [] || (Possible(s, es[0]) && PossibleAlong(Step(s, es[0]), es[1..]))
  }

  function Run(s: State, es: seq<Event>): State
    requires PossibleAlong(s, es)
    decreases |es|
  {
    if es == [] then s else Run(Step(s, es[0]), es[1..])
  }

  // ---- Readings of the log ----

  /** Writes of an order that have started and not ended. */
  function Running(log: seq<Entry>, id: OrderId): int {
    if log == [] then 0
    else
      var n := |log| - 1;
      Running(log[..n], id)
      + if log[n].id != id || log[n].Reported? then 0 else if log[n].Started? then 1 else -1
  }

  /** Kinds reported that no write has taken up since. */
  function Waiting(log: seq<Entry>, id: OrderId): set<Kind> {
    if log == [] then {}
    else
      var n := |log| - 1;
      var before := Waiting(log[..n], id);
      if log[n].id != id then before
      else match log[n]
        case Reported(_, kind) => before + {kind}
        case Started(_, kinds) => before - kinds
        case _ => before
  }

  predicate HasFailed(log: seq<Entry>, id: OrderId) {
    Failed(id) in log
  }

  /** A kind reported at `i` is part of a write that starts after it. */
  ghost predicate TakenUp(log: seq<Entry>, i: nat)
    requires i < |log| && log[i].Reported?
  {
    exists j :: i < j < |log| && log[j].Started? && log[j].id == log[i].id && log[i].kind in log[j].kinds
  }

  /** Nothing waiting means that every reported kind was taken up. */
  lemma {:induction false} NothingWaitingMeansTakenUp(log: seq<Entry>, i: nat)
    requires i < |log| && log[i].Reported? && log[i].kind !in Waiting(log, log[i].id)
    ensures TakenUp(log, i)
  {
    var n := |log| - 1;
    if i == n {
    } else if log[n].Started? && log[n].id == log[i].id && log[i].kind in log[n].kinds {
    } else {
      NothingWaitingMeansTakenUp(log[..n], i);
      var j :| i < j < n && log[j].Started? && log[j].id == log[i].id && log[i].kind in log[j].kinds;
    }
  }

  /** Reported at `i`, and no write of the order that started later took it up. */
  ghost predicate ReportedLast(log: seq<Entry>, id: OrderId, kind: Kind, i: nat)
    requires i < |log|
  {
    && log[i] == Reported(id, kind)
    && forall j :: i < j < |log| && log[j].Started? && log[j].id == id ==> kind !in log[j].kinds
  }

  /** What waits was reported, with no write of the order started since. */
  lemma {:induction false} WaitingWasReported(log: seq<Entry>, id: OrderId, kind: Kind)
    requires kind in Waiting(log, id)
    ensures exists i :: 0 <= i < |log| && ReportedLast(log, id, kind, i)
  {
    var n := |log| - 1;
    if log[n] == Reported(id, kind) {
      assert ReportedLast(log, id, kind, n);
    } else {
      WaitingWasReported(log[..n], id, kind);
      var i :| 0 <= i < n && ReportedLast(log[..n], id, kind, i);
      assert ReportedLast(log, id, kind, i);
    }
  }

  // ---- What every run keeps ----

  /** One order's entries in the tables, as the log tells them. */
  ghost predicate Kept(s: State, id: OrderId) {
    && Running(s.log, id) == (if id in s.inflight then 1 else 0)
    && (id in s.inflight <==> id in s.first)
    && Remembered(s, id) == Waiting(s.log, id)
    && (id in s.dirty <==> Waiting(s.log, id) != {})
    && (id !in s.inflight && !HasFailed(s.log, id) ==> id !in s.dirty && id !in s.kinds)
  }

  ghost predicate AllKept(s: State) {
    forall id :: Kept(s, id)
  }

  /** Every write takes up exactly what was waiting, which is never nothing. */
  ghost predicate WritesExact(log: seq<Entry>) {
    forall j :: 0 <= j < |log| ==> WriteExact(log[..j], log[j])
  }

  predicate WriteExact(before: seq<Entry>, e: Entry) {
    e.Started? ==> e.kinds != {} && e.kinds == Waiting(before, e.id)
  }

  lemma OneMore(log: seq<Entry>, e: Entry, id: OrderId)
    ensures Running(log + [e], id)
         == Running(log, id) + if e.id != id || e.Reported? then 0 else if e.Started? then 1 else -1
    ensures Waiting(log + [e], id)
         == if e.id != id then Waiting(log, id)
            else if e.Reported? then Waiting(log, id) + {e.kind}
            else if e.Started? then Waiting(log, id) - e.kinds
            else Waiting(log, id)
    ensures HasFailed(log + [e], id) <==> HasFailed(log, id) || e == Failed(id)
    ensures WritesExact(log) && WriteExact(log, e) ==> WritesExact(log + [e])
  {
    var all := log + [e];
    assert all[..|log|] == log;
    if WritesExact(log) && WriteExact(log, e) {
      ExactOneMore(log, e);
    }
  }

  lemma ExactOneMore(log: seq<Entry>, e: Entry)
    requires WritesExact(log) && WriteExact(log, e)
    ensures WritesExact(log + [e])
  {
    hide Waiting;
    var all := log + [e];
    forall j | 0 <= j < |all| ensures WriteExact(all[..j], all[j]) {
      if j < |log| {
        assert all[..j] == log[..j] && all[j] == log[j];
      } else {
        assert all[..j] == log && all[j] == e;
      }
    }
  }

  /** Starting a write, as it happens after a callback or after a write. */
  lemma StartKeeps(s: State, id: OrderId, first: Kind)
    requires Remembered(s, id) == Waiting(s.log, id) != {} && WritesExact(s.log)
    requires Running(s.log, id) == 0 && id in s.inflight && id in s.first
    requires forall other :: other != id ==> Kept(s, other)
    ensures AllKept(StartWrite(s, id, first)) && WritesExact(StartWrite(s, id, first).log)
  {
    hide Running, Waiting, HasFailed, WritesExact;
    var e := Started(id, Remembered(s, id));
    assert Waiting(s.log, id) - e.kinds == {};
    forall other ensures Kept(StartWrite(s, id, first), other) {
      assert other != id ==> Kept(s, other);
      OneMore(s.log, e, other);
    }
    OneMore(s.log, e, id);
  }

  lemma CallbackKeeps(s: State, id: OrderId, kind: Kind)
    requires AllKept(s) && WritesExact(s.log)
    ensures AllKept(OnCallback(s, id, kind)) && WritesExact(OnCallback(s, id, kind).log)
  {
    hide Running, Waiting, HasFailed, WritesExact, StartWrite;
    var e := Reported(id, kind);
    var noted := s.(kinds := s.kinds[id := Remembered(s, id) + {kind}], log := s.log + [e]);
    forall other ensures other != id ==> Kept(noted, other) {
      assert Kept(s, other);
      OneMore(s.log, e, other);
    }
    assert Kept(s, id);
    OneMore(s.log, e, id);
    if id in s.inflight {
      forall other ensures Kept(OnCallback(s, id, kind), other) {
        assert Kept(s, other) && (other != id ==> Kept(noted, other));
      }
    } else {
      var starting := noted.(inflight := s.inflight + {id}, first := s.first[id := kind]);
      forall other ensures other != id ==> Kept(starting, other) {
        assert other != id ==> Kept(noted, other);
      }
      StartKeeps(starting, id, kind);
    }
  }

  lemma WriteDoneKeeps(s: State, id: OrderId)
    requires AllKept(s) && WritesExact(s.log) && id in s.inflight && id in s.first
    ensures AllKept(OnWriteDone(s, id)) && WritesExact(OnWriteDone(s, id).log)
  {
    hide Running, Waiting, HasFailed, WritesExact, StartWrite;
    var e := Finished(id);
    var done := s.(log := s.log + [e]);
    forall other ensures other != id ==> Kept(done, other) {
      assert Kept(s, other);
      OneMore(s.log, e, other);
    }
    assert Kept(s, id);
    OneMore(s.log, e, id);
    if id in s.dirty {
      StartKeeps(done, id, s.first[id]);
    } else {
      forall other ensures Kept(OnWriteDone(s, id), other) {
        assert other != id ==> Kept(done, other);
      }
    }
  }

  lemma WriteFailedKeeps(s: State, id: OrderId)
    requires AllKept(s) && WritesExact(s.log) && id in s.inflight && id in s.first
    ensures AllKept(OnWriteFailed(s, id)) && WritesExact(OnWriteFailed(s, id).log)
  {
    hide Running, Waiting, HasFailed, WritesExact;
    forall other ensures Kept(OnWriteFailed(s, id), other) {
      assert Kept(s, other);
      OneMore(s.log, Failed(id), other);
    }
    OneMore(s.log, Failed(id), id);
  }

  lemma StepKeeps(s: State, e: Event)
    requires AllKept(s) && WritesExact(s.log) && Possible(s, e)
    ensures AllKept(Step(s, e)) && WritesExact(Step(s, e).log)
  {
    hide AllKept, WritesExact, OnCallback, OnWriteDone, OnWriteFailed;
    match e
    case Callback(id, kind) => CallbackKeeps(s, id, kind);
    case WriteDone(id) => WriteDoneKeeps(s, id);
    case WriteFailed(id) => WriteFailedKeeps(s, id);
  }

  lemma {:induction false} RunKeeps(s: State, es: seq<Event>)
    requires AllKept(s) && WritesExact(s.log) && PossibleAlong(s, es)
    ensures AllKept(Run(s, es)) && WritesExact(Run(s, es).log)
    decreases |es|
  {
    hide AllKept, WritesExact, Step, Possible;
    if es != [] {
      StepKeeps(s, es[0]);
      RunKeeps(Step(s, es[0]), es[1..]);
    }
  }

  /** In every interleaving of callbacks and writes: at most one write of an order runs,
      each write takes up exactly what was reported and not yet taken up, and once no
      write of an order runs and none has failed, all it was told has been taken up by a
      later write and none of the tables mentions it any more. */
  lemma NothingIsLost(es: seq<Event>, id: OrderId)
    requires PossibleAlong(IDLE, es)
    ensures
      var s := Run(IDLE, es);
      && 0 <= Running(s.log, id) <= 1 && WritesExact(s.log)
      && (Running(s.log, id) == 0 && !HasFailed(s.log, id) ==>
            && id !in s.inflight && id !in s.dirty && id !in s.kinds
            && forall i :: 0 <= i < |s.log| && s.log[i].Reported? && s.log[i].id == id ==> TakenUp(s.log, i))
  {
    var s := Run(IDLE, es);
    assert AllKept(IDLE);
    RunKeeps(IDLE, es);
    assert Kept(s, id);
    if Running(s.log, id) == 0 && !HasFailed(s.log, id) {
      forall i | 0 <= i < |s.log| && s.log[i].Reported? && s.log[i].id == id ensures TakenUp(s.log, i) {
        NothingWaitingMeansTakenUp(s.log, i);
      }
    }
  }

  /** A failed write strands what was reported while it ran: with no write in flight,
      kinds wait exactly when the order is left marked dirty. */
  lemma StrandedIffDirty(es: seq<Event>, id: OrderId)
    requires PossibleAlong(IDLE, es)
    ensures var s := Run(IDLE, es); Waiting(s.log, id) != {} <==> id in s.dirty
  {
    var s := Run(IDLE, es);
    assert AllKept(IDLE);
    RunKeeps(IDLE, es);
    assert Kept(s, id);
  }

  /** The next callback of the order, if one comes, takes the stranded kinds along. */
  lemma NextCallbackRescues(es: seq<Event>, id: OrderId, kind: Kind)
    requires PossibleAlong(IDLE, es) && id !in Run(IDLE, es).inflight
    ensures
      var s := Run(IDLE, es);
      var after := OnCallback(s, id, kind);
      && after.log[|after.log| - 1] == Started(id, Waiting(s.log, id) + {kind})
      && Waiting(after.log, id) == {} && id in after.inflight
  {
    var s := Run(IDLE, es);
    assert AllKept(IDLE);
    RunKeeps(IDLE, es);
    assert Kept(s, id);
    CallbackKeeps(s, id, kind);
    assert Kept(OnCallback(s, id, kind), id);
  }

  /** Reported at `i`, and no write of the order has started since. */
  ghost predicate ReportedSinceStart(log: seq<Entry>, id: OrderId, kind: Kind, i: nat)
    requires i < |log|
  {
    && log[i] == Reported(id, kind)
    && forall j :: i < j < |log| && log[j].id == id ==> !log[j].Started?
  }

  lemma ExactSoFar(log: seq<Entry>)
    requires log != [] && WritesExact(log)
    ensures WritesExact(log[..|log| - 1]) && WriteExact(log[..|log| - 1], log[|log| - 1])
  {
    hide Waiting, WriteExact;
    var n := |log| - 1;
    forall j | 0 <= j < n ensures WriteExact(log[..n][..j], log[..n][j]) {
      assert log[..n][..j] == log[..j];
    }
  }

  /** As writes take up all that waits, what waits is what was reported since the last one
      started. */
  lemma {:induction false} WaitingIsSinceStart(log: seq<Entry>, id: OrderId, kind: Kind)
    requires WritesExact(log)
    ensures kind in Waiting(log, id) <==> exists i :: 0 <= i < |log| && ReportedSinceStart(log, id, kind, i)
  {
    hide WritesExact;
    if log != [] {
      var n := |log| - 1;
      var front := log[..n];
      ExactSoFar(log);
      WaitingIsSinceStart(front, id, kind);
      if log[n] == Reported(id, kind) {
        assert ReportedSinceStart(log, id, kind, n);
      } else if log[n].id != id || !log[n].Started? {
        if i :| 0 <= i < n && ReportedSinceStart(front, id, kind, i) {
          assert ReportedSinceStart(log, id, kind, i);
        }
        if i :| 0 <= i < |log| && ReportedSinceStart(log, id, kind, i) {
          assert ReportedSinceStart(front, id, kind, i);
        }
      }
    }
  }

  /** Whenever a write fails, what it had taken up is gone: just the kinds reported since
      it started are remembered, and the order is left dirty if there are any. */
  lemma FailedKindsAreGone(es: seq<Event>, id: OrderId, kind: Kind)
    requires PossibleAlong(IDLE, es) && id in Run(IDLE, es).inflight
    ensures
      var s := Run(IDLE, es);
      var after := OnWriteFailed(s, id);
      && Running(after.log, id) == 0 && id !in after.inflight
      && (kind in Remembered(after, id) <==> exists i :: 0 <= i < |s.log| && ReportedSinceStart(s.log, id, kind, i))
      && (id in after.dirty <==> Remembered(after, id) != {})
  {
    hide Run, Running, Waiting, HasFailed, WritesExact, AllKept;
    var s := Run(IDLE, es);
    IdleIsKept();
    RunKeeps(IDLE, es);
    KeptOne(s, id);
    WriteFailedKeeps(s, id);
    KeptOne(OnWriteFailed(s, id), id);
    WaitingIsSinceStart(s.log, id, kind);
  }

  lemma IdleIsKept()
    ensures AllKept(IDLE) && WritesExact(IDLE.log)
  {}

  lemma KeptOne(s: State, id: OrderId)
    requires AllKept(s)
    ensures Kept(s, id)
  {}

  /** Once callbacks of an order stop, two finished writes at most bring it to rest. */
  lemma TwoWritesSettle(s: State, id: OrderId)
    requires AllKept(s) && WritesExact(s.log) && id in s.inflight
    ensures id in s.first
    ensures var once := OnWriteDone(s, id);
      if id in s.dirty then id in once.inflight && id in once.first && id !in OnWriteDone(once, id).inflight
      else id !in once.inflight
  {
    assert Kept(s, id);
  }

  // ---- The queue object ----

  class PersistQueue {
    var inflight: set<OrderId>
    var dirty: set<OrderId>
    var kinds: map<OrderId, set<Kind>>
    /** The argument each running coroutine was called with. */
    var first: map<OrderId, Kind>
    ghost var log: seq<Entry>

    ghost function Tables(): State
      reads this
    {
      State(inflight, dirty, kinds, first, log)
    }

    ghost predicate Valid()
      reads this
    {
      AllKept(Tables()) && WritesExact(log)
    }

    constructor ()
      ensures Valid() && Tables() == IDLE
    {
      inflight, dirty, kinds, first, log := {}, {}, map[], map[], [];
    }

    /** Takes up what is remembered for the next write. The fallback to the coroutine's
        own kind is never needed. */
    method TakeKinds(id: OrderId, own: Kind) returns (taken: set<Kind>)
      modifies this`dirty, this`kinds, this`log
      ensures Tables() == StartWrite(old(Tables()), id, own)
      ensures Remembered(old(Tables()), id) != {} ==> taken == Remembered(old(Tables()), id)
    {
      dirty := dirty - {id};
      taken := if id in kinds && kinds[id] != {} then kinds[id] else {own};
      kinds := kinds[id := {}];
      log := log + [Started(id, taken)];
    }

    /** Returns the kinds to write now, or nothing if a write is already running. */
    method OnBrokerCallback(id: OrderId, kind: Kind) returns (taken: set<Kind>)
      requires Valid()
      modifies this
      ensures Valid() && Tables() == Step(old(Tables()), Callback(id, kind))
      ensures if id in old(inflight) then taken == {} else taken == Waiting(old(log), id) + {kind}
    {
      hide AllKept, WritesExact, StartWrite, Waiting;
      KeptAt(Tables(), id);
      CallbackKeeps(Tables(), id, kind);
      kinds := kinds[id := (if id in kinds then kinds[id] else {}) + {kind}];
      log := log + [Reported(id, kind)];
      if id in inflight {
        dirty := dirty + {id};
        return {};
      }
      inflight := inflight + {id};
      first := first[id := kind];
      taken := TakeKinds(id, kind);
    }

    lemma KeptAt(s: State, id: OrderId)
      requires AllKept(s)
      ensures Kept(s, id)
    {}

    /** Returns the kinds of a further write, or nothing when the order is at rest. */
    method OnWriteFinished(id: OrderId) returns (taken: set<Kind>)
      requires Valid() && id in inflight && id in first
      modifies this
      ensures Valid() && Tables() == Step(old(Tables()), WriteDone(id))
      ensures taken == Waiting(old(log), id) && (id in inflight <==> taken != {})
    {
      hide AllKept, WritesExact, StartWrite, Waiting;
      KeptAt(Tables(), id);
      WriteDoneKeeps(Tables(), id);
      log := log + [Finished(id)];
      if id in dirty {
        taken := TakeKinds(id, first[id]);
      } else {
        kinds := kinds - {id};
        inflight := inflight - {id};
        first := first - {id};
        taken := {};
      }
    }

    method OnWriteRaised(id: OrderId)
      requires Valid() && id in inflight && id in first
      modifies this
      ensures Valid() && Tables() == Step(old(Tables()), WriteFailed(id))
    {
      WriteFailedKeeps(Tables(), id);
      inflight := inflight - {id};
      first := first - {id};
      log := log + [Failed(id)];
    }
  }
}
