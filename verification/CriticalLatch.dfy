/** The OPEN latch of (account, strategy) pairs and the CRITICAL basket rows it stands
    for. Marking and storing, storing and marking, committing and discarding are separate
    steps of their coroutines, so others may come in between. */
module CriticalLatch {
  import opened Options
  import opened Baskets

  datatype Pair = Pair(accountId: nat, strategyId: string)
  datatype Row = Row(strategyId: string, state: BasketState)

  /** What a suspended coroutine still has to do. */
  datatype Task =
    | StoreCritical(key: BasketKey, strategyId: string)
    | MarkEscalated(pair: Pair)
    | Discard(pair: Pair)

  datatype State = State(rows: map<BasketKey, Row>, latched: set<Pair>, tasks: seq<Task>)

  function PairOf(key: BasketKey, row: Row): Pair {
    Pair(key.accountId, row.strategyId)
  }

  predicate HasCritical(rows: map<BasketKey, Row>, p: Pair) {
    exists key :: key in rows && rows[key].state == CRITICAL && PairOf(key, rows[key]) == p
  }

  function CriticalPairs(rows: map<BasketKey, Row>): set<Pair> {
    set key | key in rows && rows[key].state == CRITICAL :: PairOf(key, rows[key])
  }

  datatype Event =
    /** A basket fails: the pair is marked, the row is stored next. */
    | Fail(key: BasketKey, strategyId: string)
    /** A restart finds a partly filled basket: the row is stored, the pair marked next. */
    | Escalate(key: BasketKey)
    /** Recovery marks its row recovered and, when no critical row is left, discards next. */
    | Clear(key: BasketKey)
    /** A suspended coroutine goes on. */
    | Resume(i: nat)
    /** Any other write of a basket row. */
    | Store(key: BasketKey, strategyId: string, state: BasketState)
    /** One of the two reapers, of aged baskets and of aged orders, escalates a basket
        without marking it. */
    | Reap(key: BasketKey)
    /** The process starts again and loads the latch from the rows. */
    | Restart

  const INCOMPLETE := {PENDING, EXECUTING, UNWINDING}

  predicate Possible(s: State, e: Event) {
    match e
    case Escalate(key) => key in s.rows && s.rows[key].state in INCOMPLETE
    case Clear(key) => key in s.rows
    case Resume(i) => i < |s.tasks|
    case Store(_, _, state) => state != CRITICAL
    case Reap(key) => key in s.rows
    case _ => true
  }

  function Drop(tasks: seq<Task>, i: nat): seq<Task>
    requires i < |tasks|
  {
    tasks[..i] + tasks[i + 1..]
  }

  function Finish(s: State, t: Task): State {
    match t
    case StoreCritical(key, strategyId) => s.(rows := s.rows[key := Row(strategyId, CRITICAL)])
    case MarkEscalated(p) => s.(latched := s.latched + {p})
    case Discard(p) => s.(latched := s.latched - {p})
  }

  function Step(s: State, e: Event): State
    requires Possible(s, e)
  {
    match e
    case Fail(key, strategyId) =>
      s.(latched := s.latched + {Pair(key.accountId, strategyId)}, tasks := s.tasks + [StoreCritical(key, strategyId)])
    case Escalate(key) =>
      var row := s.rows[key];
      s.(rows := s.rows[key := row.(state := CRITICAL)], tasks := s.tasks + [MarkEscalated(PairOf(key, row))])
    case Clear(key) =>
      var p := PairOf(key, s.rows[key]);
      var rows := s.rows[key := s.rows[key].(state := RECOVERED)];
      s.(rows := rows, tasks := if HasCritical(rows, p) then s.tasks else s.tasks + [Discard(p)])
    case Resume(i) => Finish(s.(tasks := Drop(s.tasks, i)), s.tasks[i])
    case Store(key, strategyId, state) => s.(rows := s.rows[key := Row(strategyId, state)])
    case Reap(key) => s.(rows := s.rows[key := s.rows[key].(state := CRITICAL)])
    case Restart => State(s.rows, CriticalPairs(s.rows), [])
  }

  // ---- Critical means blocked ----

  /** Latched, or about to be by an escalation under way. */
  predicate Guarded(s: State, p: Pair) {
    p in s.latched || MarkEscalated(p) in s.tasks
  }

  ghost predicate Covered(s: State) {
    forall key :: key in s.rows && s.rows[key].state == CRITICAL ==> Guarded(s, PairOf(key, s.rows[key]))
  }

  /** The only ways to leave a critical row unguarded. */
  predicate Hazard(s: State, e: Event) {
    match e
    case Resume(i) =>
      i < |s.tasks| &&
      (match s.tasks[i]
       case StoreCritical(key, strategyId) => !Guarded(s, Pair(key.accountId, strategyId))
       case Discard(p) => HasCritical(s.rows, p) && MarkEscalated(p) !in s.tasks
       case MarkEscalated(_) => false)
    case Reap(key) => key in s.rows && !Guarded(s, PairOf(key, s.rows[key]))
    case _ => false
  }

  lemma DropKeeps(tasks: seq<Task>, i: nat, t: Task)
    requires i < |tasks|
    ensures t in Drop(tasks, i) ==> t in tasks
    ensures t in tasks && t != tasks[i] ==> t in Drop(tasks, i)
  {
    if t in tasks && t != tasks[i] {
      var j :| 0 <= j < |tasks| && tasks[j] == t;
      assert Drop(tasks, i)[if j < i then j else j - 1] == t;
    }
  }

  lemma ResumeCoveredIff(s: State, i: nat)
    requires Covered(s) && i < |s.tasks|
    ensures Covered(Step(s, Resume(i))) <==> !Hazard(s, Resume(i))
  {
    var after := Step(s, Resume(i));
    forall p ensures MarkEscalated(p) in after.tasks ==> MarkEscalated(p) in s.tasks
      ensures MarkEscalated(p) in s.tasks && MarkEscalated(p) != s.tasks[i] ==> MarkEscalated(p) in after.tasks
    {
      DropKeeps(s.tasks, i, MarkEscalated(p));
    }
    match s.tasks[i]
    case StoreCritical(key, strategyId) =>
      assert after.rows[key] == Row(strategyId, CRITICAL);
    case MarkEscalated(p) =>
      assert s.tasks[i] == MarkEscalated(p);
    case Discard(p) =>
      if HasCritical(s.rows, p) {
        var key :| key in s.rows && s.rows[key].state == CRITICAL && PairOf(key, s.rows[key]) == p;
        assert after.rows[key] == s.rows[key];
      }
  }

  lemma OthersCoveredIff(s: State, e: Event)
    requires Covered(s) && Possible(s, e) && !e.Resume?
    ensures Covered(Step(s, e)) <==> !Hazard(s, e)
  {
    var after := Step(s, e);
    assert e.Reap? ==> after.rows[e.key].state == CRITICAL;
    forall p | MarkEscalated(p) in s.tasks && !e.Restart? ensures MarkEscalated(p) in after.tasks {
      var j :| 0 <= j < |s.tasks| && s.tasks[j] == MarkEscalated(p);
      assert after.tasks[j] == s.tasks[j];
    }
    if e.Escalate? {
      assert after.tasks[|s.tasks|] == MarkEscalated(PairOf(e.key, s.rows[e.key]));
    }
  }

  /** A step leaves some critical row unguarded exactly in three cases: a failed basket is
      stored after its mark was discarded, a mark is discarded although a critical row
      came up since, or a reaped basket was never marked. */
  lemma StepCoveredIff(s: State, e: Event)
    requires Covered(s) && Possible(s, e)
    ensures Covered(Step(s, e)) <==> !Hazard(s, e)
  {
    if e.Resume? {
      ResumeCoveredIff(s, e.i);
    } else {
      OthersCoveredIff(s, e);
    }
  }

  /** Concretely: a recovery of one basket discards the mark that a failing basket of the
      same pair has just set and relies on. */
  lemma ClearOvertakesFail(a: BasketKey, b: BasketKey, strategy: string)
    requires a != b && a.accountId == b.accountId
    ensures
      var p := Pair(a.accountId, strategy);
      var s0 := State(map[a := Row(strategy, CRITICAL)], {p}, []);
      var s1 := Step(s0, Fail(b, strategy));
      var s2 := Step(s1, Clear(a));
      && Possible(s1, Clear(a)) && |s2.tasks| == 2
      && var s3 := Step(s2, Resume(1));
      && |s3.tasks| == 1
      && var s4 := Step(s3, Resume(0));
      && Covered(s0) && s4.tasks == [] && !Covered(s4) && s4.rows[b].state == CRITICAL && p !in s4.latched
  {
    var p := Pair(a.accountId, strategy);
    var s0 := State(map[a := Row(strategy, CRITICAL)], {p}, []);
    var s1 := Step(s0, Fail(b, strategy));
    var s2 := Step(s1, Clear(a));
    assert s2.rows == map[a := Row(strategy, RECOVERED)];
    assert !HasCritical(s2.rows, p);
    assert s2.tasks == [StoreCritical(b, strategy), Discard(p)];
    var s3 := Step(s2, Resume(1));
    assert s3.tasks == [StoreCritical(b, strategy)];
    var s4 := Step(s3, Resume(0));
    assert s4.rows[b] == Row(strategy, CRITICAL);
  }

  /** Concretely: recovery commits, another basket of the pair fails and is stored, and
      only then recovery discards the mark. */
  lemma DiscardOvertakesStore(a: BasketKey, b: BasketKey, strategy: string)
    requires a != b && a.accountId == b.accountId
    ensures
      var p := Pair(a.accountId, strategy);
      var s0 := State(map[a := Row(strategy, CRITICAL)], {p}, []);
      var s1 := Step(Step(s0, Clear(a)), Fail(b, strategy));
      && |s1.tasks| == 2
      && var s2 := Step(s1, Resume(1));
      && |s2.tasks| == 1 && Covered(s0) && Covered(s2) && Hazard(s2, Resume(0))
      && var s3 := Step(s2, Resume(0));
      && s3.tasks == [] && !Covered(s3) && s3.rows[b].state == CRITICAL && p !in s3.latched
  {
    var p := Pair(a.accountId, strategy);
    var s0 := State(map[a := Row(strategy, CRITICAL)], {p}, []);
    var cleared := Step(s0, Clear(a));
    assert cleared.rows == map[a := Row(strategy, RECOVERED)];
    assert !HasCritical(cleared.rows, p);
    var s1 := Step(cleared, Fail(b, strategy));
    assert s1.tasks == [Discard(p), StoreCritical(b, strategy)];
    var s2 := Step(s1, Resume(1));
    assert s2.tasks == [Discard(p)];
    assert s2.rows[b] == Row(strategy, CRITICAL) && PairOf(b, s2.rows[b]) == p;
    var s3 := Step(s2, Resume(0));
    assert s3.rows[b] == Row(strategy, CRITICAL);
  }

  /** Concretely: an aged basket of a pair that was never marked is reaped. */
  lemma ReapedIsUnmarked(a: BasketKey, strategy: string)
    ensures
      var s0 := State(map[a := Row(strategy, EXECUTING)], {}, []);
      && Possible(s0, Reap(a)) && Covered(s0) && Hazard(s0, Reap(a))
      && !Covered(Step(s0, Reap(a)))
  {
    var s1 := Step(State(map[a := Row(strategy, EXECUTING)], {}, []), Reap(a));
    assert s1.rows[a] == Row(strategy, CRITICAL);
  }

  // ---- Whole runs ----

  predicate PossibleAlong(s: State, es: seq<Event>)
    decreases |es|
  {
    es == [] || (Possible(s, es[0]) && PossibleAlong(Step(s, es[0]), es[1..]))
  }

  function Run(s: State, es: seq<Event>): State
    requires PossibleAlong(s, es)
    decreases |es|
  {
    if es == [] then s else Run(Step(s, es[0]), es[1..])
  }

  ghost predicate CoveredAlong(s: State, es: seq<Event>)
    requires PossibleAlong(s, es)
    decreases |es|
  {
    Covered(s) && (es == [] || CoveredAlong(Step(s, es[0]), es[1..]))
  }

  predicate HazardAlong(s: State, es: seq<Event>)
    requires PossibleAlong(s, es)
    decreases |es|
  {
    es != [] && (Hazard(s, es[0]) || HazardAlong(Step(s, es[0]), es[1..]))
  }

  /** In any run every critical row is guarded at every point exactly when none of the
      three cases occurs on the way. */
  lemma {:induction false} CoveredAlongIff(s: State, es: seq<Event>)
    requires Covered(s) && PossibleAlong(s, es)
    ensures CoveredAlong(s, es) <==> !HazardAlong(s, es)
    decreases |es|
  {
    if es != [] {
      hide Covered, Hazard, Possible, Step;
      StepCoveredIff(s, es[0]);
      var next := Step(s, es[0]);
      if Covered(next) {
        CoveredAlongIff(next, es[1..]);
      }
    }
  }

  // ---- When no run meets one of them ----

  function TaskPair(t: Task): Pair {
    match t
    case StoreCritical(key, strategyId) => Pair(key.accountId, strategyId)
    case MarkEscalated(p) => p
    case Discard(p) => p
  }

  /** A basket of the pair is failing or being escalated. */
  predicate Latching(tasks: seq<Task>, p: Pair) {
    exists i :: 0 <= i < |tasks| && !tasks[i].Discard? && TaskPair(tasks[i]) == p
  }

  /** Clearing a pair keeps out of the way of failing and escalating it, and the other way
      round; the reaper only touches pairs that are latched already. */
  predicate TakesTurns(s: State, e: Event) {
    match e
    case Fail(key, strategyId) => Discard(Pair(key.accountId, strategyId)) !in s.tasks
    case Escalate(key) => key in s.rows ==> Discard(PairOf(key, s.rows[key])) !in s.tasks
    case Clear(key) => key in s.rows ==> !Latching(s.tasks, PairOf(key, s.rows[key]))
    case Reap(key) =>
      key in s.rows && PairOf(key, s.rows[key]) in s.latched && Discard(PairOf(key, s.rows[key])) !in s.tasks
    case _ => true
  }

  /** Suspended coroutines find things as they left them: a store its mark, a discard no
      critical row and nobody failing or escalating. */
  ghost predicate Orderly(s: State) {
    && (forall i :: 0 <= i < |s.tasks| && s.tasks[i].StoreCritical? ==> TaskPair(s.tasks[i]) in s.latched)
    && (forall i :: 0 <= i < |s.tasks| && s.tasks[i].Discard? ==> !HasCritical(s.rows, s.tasks[i].pair))
    && (forall i, j :: 0 <= i < |s.tasks| && 0 <= j < |s.tasks| && s.tasks[i].Discard? && !s.tasks[j].Discard? ==>
          TaskPair(s.tasks[i]) != TaskPair(s.tasks[j]))
  }

  ghost predicate Safe(s: State) {
    Covered(s) && Orderly(s)
  }

  lemma CriticalSurvives(before: map<BasketKey, Row>, after: map<BasketKey, Row>, p: Pair)
    requires !HasCritical(before, p)
    requires forall key :: key in after && after[key].state == CRITICAL && PairOf(key, after[key]) == p ==>
      key in before && before[key] == after[key]
    ensures !HasCritical(after, p)
  {}

  lemma ResumeOrderly(s: State, i: nat)
    requires Safe(s) && i < |s.tasks|
    ensures Orderly(Step(s, Resume(i))) && !Hazard(s, Resume(i))
  {
    var after := Step(s, Resume(i));
    forall j | 0 <= j < |after.tasks|
      ensures after.tasks[j] == s.tasks[if j < i then j else j + 1]
    {}
    forall j | 0 <= j < |after.tasks| && after.tasks[j].Discard? ensures !HasCritical(after.rows, after.tasks[j].pair) {
      CriticalSurvives(s.rows, after.rows, after.tasks[j].pair);
    }
  }

  lemma OthersOrderly(s: State, e: Event)
    requires Safe(s) && Possible(s, e) && !e.Resume? && TakesTurns(s, e)
    ensures Orderly(Step(s, e)) && !Hazard(s, e)
  {
    var after := Step(s, e);
    forall j | 0 <= j < |after.tasks| && after.tasks[j].Discard? ensures !HasCritical(after.rows, after.tasks[j].pair) {
      if j < |s.tasks| {
        assert after.tasks[j] == s.tasks[j] && s.tasks[j] in s.tasks;
        CriticalSurvives(s.rows, after.rows, after.tasks[j].pair);
      }
    }
  }

  predicate TakesTurnsAlong(s: State, es: seq<Event>)
    requires PossibleAlong(s, es)
    decreases |es|
  {
    es == [] || (TakesTurns(s, es[0]) && TakesTurnsAlong(Step(s, es[0]), es[1..]))
  }

  /** If clearing a pair and latching it take turns, however many baskets of it fail at
      once, then at every point a critical row is guarded, and whenever no coroutine is
      under way its pair is latched and opening is blocked. */
  lemma {:induction false} CriticalMeansBlocked(s: State, es: seq<Event>, key: BasketKey)
    requires Safe(s) && PossibleAlong(s, es) && TakesTurnsAlong(s, es)
    ensures Safe(Run(s, es)) && CoveredAlong(s, es) && !HazardAlong(s, es)
    ensures
      var after := Run(s, es);
      after.tasks == [] && key in after.rows && after.rows[key].state == CRITICAL ==>
        PairOf(key, after.rows[key]) in after.latched
    decreases |es|
  {
    if es != [] {
      hide Covered, Orderly, Possible, TakesTurns, Hazard, Step;
      SafeStep(s, es[0]);
      CriticalMeansBlocked(Step(s, es[0]), es[1..], key);
    }
  }

  lemma SafeStep(s: State, e: Event)
    requires Safe(s) && Possible(s, e) && TakesTurns(s, e)
    ensures Safe(Step(s, e)) && !Hazard(s, e)
  {
    hide Covered, Orderly, Hazard, TakesTurns, Possible;
    StepCoveredIff(s, e);
    if e.Resume? {
      ResumePossible(s, e);
      ResumeOrderly(s, e.i);
    } else {
      OthersOrderly(s, e);
    }
  }

  lemma ResumePossible(s: State, e: Event)
    requires Possible(s, e) && e.Resume?
    ensures e.i < |s.tasks|
  {}

  // ---- Releasing ----

  /** Clearing recovers its row alone, and goes on to release the pair exactly when no
      other row of it is critical. */
  lemma ClearReleasesIff(s: State, key: BasketKey)
    requires key in s.rows
    ensures
      var after, p := Step(s, Clear(key)), Pair(key.accountId, s.rows[key].strategyId);
      && after.rows == s.rows[key := Row(s.rows[key].strategyId, RECOVERED)] && after.latched == s.latched
      && after.tasks ==
         if exists k :: k in s.rows && k != key && s.rows[k].state == CRITICAL
              && k.accountId == key.accountId && s.rows[k].strategyId == s.rows[key].strategyId
         then s.tasks
         else s.tasks + [Discard(p)]
  {
    var after, p := Step(s, Clear(key)), Pair(key.accountId, s.rows[key].strategyId);
    if k :| k in s.rows && k != key && s.rows[k].state == CRITICAL
              && k.accountId == key.accountId && s.rows[k].strategyId == s.rows[key].strategyId {
      assert after.rows[k] == s.rows[k] && PairOf(k, after.rows[k]) == p;
    }
  }

  /** And releasing takes the pair out of the latch and no other. */
  lemma ReleaseOutcome(s: State, i: nat, p: Pair)
    requires i < |s.tasks| && s.tasks[i] == Discard(p)
    ensures var after := Step(s, Resume(i));
      after.rows == s.rows && forall q :: q in after.latched <==> q in s.latched && q != p
  {}

  // ---- The coordinator's share of it ----

  class CriticalRegistry {
    var rows: map<BasketKey, Row>
    var latched: set<Pair>
    /** The coroutines suspended between their two halves. */
    ghost var tasks: seq<Task>

    ghost function Now(): State
      reads this
    {
      State(rows, latched, tasks)
    }

    constructor (rows: map<BasketKey, Row>)
      ensures Now() == State(rows, {}, [])
    {
      this.rows, latched, tasks := rows, {}, [];
    }

    /** Between coroutines a critical row of a known account blocks opening. */
    method IsOpenBlocked(accountId: Option<nat>, strategyId: string) returns (blocked: bool)
      ensures accountId.Some? && Covered(Now()) && tasks == [] && HasCritical(rows, Pair(accountId.value, strategyId)) ==> blocked
      ensures blocked <==> accountId.Some? && Pair(accountId.value, strategyId) in latched
    {
      blocked := accountId.Some? && Pair(accountId.value, strategyId) in latched;
    }

    /** First half of failing a basket. */
    method FailCritical(key: BasketKey, strategyId: string)
      modifies this
      ensures Now() == Step(old(Now()), Fail(key, strategyId))
    {
      latched := latched + {Pair(key.accountId, strategyId)};
      tasks := tasks + [StoreCritical(key, strategyId)];
    }

    /** Second half of failing a basket. */
    method PersistCritical(key: BasketKey, strategyId: string, ghost i: nat)
      requires i < |tasks| && tasks[i] == StoreCritical(key, strategyId)
      modifies this
      ensures Now() == Step(old(Now()), Resume(i))
    {
      rows := rows[key := Row(strategyId, CRITICAL)];
      tasks := Drop(tasks, i);
    }

    /** First half of an escalation at restart. */
    method PersistEscalated(key: BasketKey)
      requires Possible(Now(), Escalate(key))
      modifies this
      ensures Now() == Step(old(Now()), Escalate(key))
    {
      tasks := tasks + [MarkEscalated(PairOf(key, rows[key]))];
      rows := rows[key := rows[key].(state := CRITICAL)];
    }

    /** Second half of an escalation at restart. */
    method MarkCritical(p: Pair, ghost i: nat)
      requires i < |tasks| && tasks[i] == MarkEscalated(p)
      modifies this
      ensures Now() == Step(old(Now()), Resume(i))
    {
      latched := latched + {p};
      tasks := Drop(tasks, i);
    }

    /** First half of clearing: the row is recovered, and the transaction sees whether
        another row of the pair is still critical. */
    method CommitRecovered(key: BasketKey) returns (stillCritical: bool)
      requires key in rows
      modifies this
      ensures Now() == Step(old(Now()), Clear(key))
      ensures stillCritical <==> HasCritical(rows, PairOf(key, rows[key]))
    {
      var p := PairOf(key, rows[key]);
      rows := rows[key := rows[key].(state := RECOVERED)];
      stillCritical := exists k :: k in rows && rows[k].state == CRITICAL && PairOf(k, rows[k]) == p;
      if !stillCritical {
        tasks := tasks + [Discard(p)];
      }
    }

    /** Second half of clearing. */
    method DiscardLatch(p: Pair, ghost i: nat)
      requires i < |tasks| && tasks[i] == Discard(p)
      modifies this
      ensures Now() == Step(old(Now()), Resume(i))
    {
      latched := latched - {p};
      tasks := Drop(tasks, i);
    }

    /** Loads the latch after a restart, row by row. */
    method HydrateCriticalFromDb()
      modifies this
      ensures Now() == Step(old(Now()), Restart) && rows == old(rows) && tasks == []
      ensures forall p :: p in latched <==>
        exists key :: key in rows && rows[key].state == CRITICAL && Pair(key.accountId, rows[key].strategyId) == p
    {
      latched, tasks := {}, [];
      var left := rows.Keys;
      while left != {}
        invariant left <= rows.Keys && rows == old(rows) && tasks == []
        invariant forall p :: p in latched <==>
          exists key :: key in rows && key !in left && rows[key].state == CRITICAL && PairOf(key, rows[key]) == p
        decreases |left|
      {
        var key :| key in left;
        ghost var before, was := latched, left;
        left := left - {key};
        if rows[key].state == CRITICAL {
          latched := latched + {PairOf(key, rows[key])};
        }
        forall p
          ensures p in latched <==>
            exists k :: k in rows && k !in left && rows[k].state == CRITICAL && PairOf(k, rows[k]) == p
        {
          assert p in before <==>
            exists k :: k in rows && k !in was && rows[k].state == CRITICAL && PairOf(k, rows[k]) == p;
        }
      }
      assert latched == CriticalPairs(rows);
    }
  }
}
