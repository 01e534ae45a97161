/** The rekeying of signal jobs: every key is parked first, then each job gets its
    normalized key, and later duplicates get a suffixed one. */
module Migration {
  import opened Options
  import opened Text

  datatype Job = Job(
    jobId: string, strategyId: Option<string>, signalId: string, action: string, status: string, key: string, note: Option<string>)

  const DEFAULT_STRATEGY: string := "default_strategy"

  function LowerChar(c: char): char {
    if 'A' <= c <= 'Z' then c - 'A' + 'a' else c
  }

  function Lower(t: string): (r: string)
    ensures |r| == |t| && forall i :: 0 <= i < |t| ==> r[i] == LowerChar(t[i])
  {
    if t == "" then "" else [LowerChar(t[0])] + Lower(t[1..])
  }

  function NormalizeStrategy(id: Option<string>): (r: string)
    ensures r != ""
  {
    var text := if id.Some? then Lower(Strip(id.value)) else "";
    if text == "" then DEFAULT_STRATEGY else text
  }

  function NormalizeAction(action: string): string {
    Upper(Strip(action))
  }

  function RawKey(strategy: string, signal: string, action: string): string {
    strategy + ":" + signal + ":" + action
  }

  /** The digest is a parameter; all that is used of it is that it prints no colon. */
  ghost predicate ColonFree(digest: string -> string) {
    forall t :: ':' !in digest(t)
  }

  function RawKeyOf(j: Job): string {
    RawKey(NormalizeStrategy(j.strategyId), j.signalId, NormalizeAction(j.action))
  }

  function NewKey(digest: string -> string, j: Job): string {
    digest(RawKeyOf(j))
  }

  function ParkedKey(j: Job): string {
    "migrating:" + j.jobId
  }

  function DuplicateKey(key: string, j: Job): string {
    key + ":dup:" + j.jobId
  }

  function NewKeys(digest: string -> string, rows: seq<Job>): (r: seq<string>)
    ensures |r| == |rows| && forall i :: 0 <= i < |rows| ==> r[i] == NewKey(digest, rows[i])
  {
    seq(|rows|, i requires 0 <= i < |rows| => NewKey(digest, rows[i]))
  }

  /** Where a key comes up first. */
  function First(keys: seq<string>, key: string): (r: Option<nat>)
    ensures r.Some? ==> r.value < |keys| && keys[r.value] == key
    ensures r.Some? ==> forall i :: 0 <= i < r.value ==> keys[i] != key
    ensures r.None? ==> forall i :: 0 <= i < |keys| ==> keys[i] != key
  {
    if keys == [] then None
    else
      var n := |keys| - 1;
      var earlier := First(keys[..n], key);
      if earlier.Some? then earlier else if keys[n] == key then Some(n) else None
  }

  function Note(kept: string): string {
    "Parked by migration a4c7e2f10938: duplicate of job " + kept + " once strategy_id casing was normalized."
  }

  /** What becomes of row `i`; rows are in order of receipt. */
  function Rekeyed(digest: string -> string, rows: seq<Job>, i: nat): Job
    requires i < |rows|
  {
    var j, key := rows[i], NewKey(digest, rows[i]);
    var first := First(NewKeys(digest, rows)[..i], key);
    var moved := j.(strategyId := Some(NormalizeStrategy(j.strategyId)));
    if first.None? then moved.(key := key)
    else moved.(key := DuplicateKey(key, j), status := "DEAD_LETTER", note := Some(Note(rows[first.value].jobId)))
  }

  ghost predicate KeysDistinct(rows: seq<Job>) {
    forall i, j :: 0 <= i < j < |rows| ==> rows[i].key != rows[j].key
  }

  /** Job ids are distinct and contain no colon, and the keys in use are distinct and none
      is the temporary key of another job. */
  ghost predicate TableOk(rows: seq<Job>) {
    && (forall i, j :: 0 <= i < j < |rows| ==> rows[i].jobId != rows[j].jobId)
    && (forall i :: 0 <= i < |rows| ==> ':' !in rows[i].jobId)
    && (forall i, j :: 0 <= i < |rows| && 0 <= j < |rows| && i != j ==> rows[i].key != ParkedKey(rows[j]))
    && KeysDistinct(rows)
  }

  // ---- Keys never clash ----

  /** What follows the last colon is determined by the text. */
  lemma SameTail(a: string, x: string, b: string, y: string)
    requires a + ":" + x == b + ":" + y && ':' !in x && ':' !in y
    ensures x == y && a == b
  {
    var t := a + ":" + x;
    assert t[|a|] == ':' && t[|b|] == ':';
    assert forall i :: |a| < i < |t| ==> t[i] == x[i - |a| - 1];
    assert forall i :: |b| < i < |t| ==> (b + ":" + y)[i] == y[i - |b| - 1];
    assert |a| == |b|;
    assert t[..|a|] == a && t[|a| + 1..] == x;
    assert (b + ":" + y)[..|b|] == b && (b + ":" + y)[|b| + 1..] == y;
  }

  lemma ParkedIsTail(j: Job)
    ensures ParkedKey(j) == "migrating" + ":" + j.jobId
  {}

  lemma DuplicateIsTail(key: string, j: Job)
    ensures DuplicateKey(key, j) == key + ":dup" + ":" + j.jobId
  {}

  /** A parked key differs from every parked or duplicate key of another job, and from
      every key without a colon. */
  lemma ParkedDiffers(a: Job, b: Job, key: string)
    requires a.jobId != b.jobId && ':' !in a.jobId && ':' !in b.jobId
    ensures ParkedKey(a) != ParkedKey(b) && ParkedKey(a) != DuplicateKey(key, b)
    ensures forall plain: string :: ':' !in plain ==> ParkedKey(a) != plain
  {
    ParkedIsTail(a);
    ParkedIsTail(b);
    DuplicateIsTail(key, b);
    if ParkedKey(a) == ParkedKey(b) {
      SameTail("migrating", a.jobId, "migrating", b.jobId);
    }
    if ParkedKey(a) == DuplicateKey(key, b) {
      SameTail("migrating", a.jobId, key + ":dup", b.jobId);
    }
    assert ParkedKey(a)[9] == ':';
  }

  lemma DuplicateDiffers(a: Job, b: Job, x: string, y: string)
    requires a.jobId != b.jobId && ':' !in a.jobId && ':' !in b.jobId
    ensures DuplicateKey(x, a) != DuplicateKey(y, b)
    ensures forall plain: string :: ':' !in plain ==> DuplicateKey(x, a) != plain
  {
    DuplicateIsTail(x, a);
    DuplicateIsTail(y, b);
    if DuplicateKey(x, a) == DuplicateKey(y, b) {
      SameTail(x + ":dup", a.jobId, y + ":dup", b.jobId);
    }
    assert DuplicateKey(x, a)[|x|] == ':';
  }

  /** Where a row stands: not touched, parked, or given its new key. */
  datatype Stage = Old | Parked | Done

  function At(digest: string -> string, rows: seq<Job>, i: nat, stage: Stage): Job
    requires i < |rows|
  {
    match stage
    case Old => rows[i]
    case Parked => rows[i].(key := ParkedKey(rows[i]))
    case Done => Rekeyed(digest, rows, i)
  }

  /** Any two rows have different keys, unless one is still old while the other is done. */
  lemma StagesDiffer(digest: string -> string, rows: seq<Job>, i: nat, j: nat, x: Stage, y: Stage)
    requires ColonFree(digest) && TableOk(rows) && i < j < |rows|
    requires x != Old || y != Done
    requires x != Done || y != Old
    ensures At(digest, rows, i, x).key != At(digest, rows, j, y).key
  {
    hide ParkedKey, DuplicateKey, RawKey, NormalizeStrategy, NormalizeAction, Note;
    var a, b := rows[i], rows[j];
    assert a.jobId != b.jobId;
    var p, q := NewKey(digest, a), NewKey(digest, b);
    ParkedDiffers(a, b, q);
    ParkedDiffers(b, a, p);
    DuplicateDiffers(a, b, p, q);
    DuplicateDiffers(b, a, q, p);
    if x == Done && y == Done && p == q {
      assert NewKeys(digest, rows)[..j][i] == q;
    }
  }

  // ---- The migration ----

  ghost predicate AllAt(digest: string -> string, rows: seq<Job>, now: seq<Job>, stages: seq<Stage>) {
    && |now| == |rows| == |stages|
    && forall i :: 0 <= i < |rows| ==> now[i] == At(digest, rows, i, stages[i])
  }

  ghost predicate NoOldBesideDone(stages: seq<Stage>) {
    forall i, j :: 0 <= i < |stages| && 0 <= j < |stages| ==> stages[i] != Old || stages[j] != Done
  }

  lemma StagedKeysDistinct(digest: string -> string, rows: seq<Job>, now: seq<Job>, stages: seq<Stage>)
    requires ColonFree(digest) && TableOk(rows) && AllAt(digest, rows, now, stages) && NoOldBesideDone(stages)
    ensures KeysDistinct(now)
  {
    forall i, j | 0 <= i < j < |now| ensures now[i].key != now[j].key {
      StagesDiffer(digest, rows, i, j, stages[i], stages[j]);
    }
  }

  /** The table after the migration. */
  function Migrated(digest: string -> string, rows: seq<Job>): (r: seq<Job>)
    ensures |r| == |rows| && forall i :: 0 <= i < |rows| ==> r[i] == Rekeyed(digest, rows, i)
  {
    seq(|rows|, i requires 0 <= i < |rows| => Rekeyed(digest, rows, i))
  }

  /** Of the rows with one new key exactly the earliest holds it plain and keeps its
      status; every other one is dead-lettered. No row is lost. */
  lemma EarliestKeepsPlainKey(digest: string -> string, rows: seq<Job>, i: nat)
    requires ColonFree(digest) && TableOk(rows) && i < |rows|
    ensures
      var key, after := NewKey(digest, rows[i]), Migrated(digest, rows);
      && |after| == |rows| && after[i].jobId == rows[i].jobId
      && (after[i].key == key <==> forall j :: 0 <= j < i ==> NewKey(digest, rows[j]) != key)
      && (after[i].key == key ==> after[i].status == rows[i].status && after[i].note == rows[i].note)
      && (after[i].key != key ==> after[i].status == "DEAD_LETTER")
  {
    hide ParkedKey, DuplicateKey, RawKey, NormalizeStrategy, NormalizeAction, Note;
    var key := NewKey(digest, rows[i]);
    DuplicateHasColon(key, rows[i]);
    assert forall j :: 0 <= j < i ==> NewKeys(digest, rows)[..i][j] == NewKey(digest, rows[j]);
  }

  /** The strategy id a text stands for: trimmed and in lower case, or the default. */
  ghost predicate StrategyOf(id: Option<string>, strategy: string) {
    if id.None? || OnlySpaces(id.value) then strategy == "default_strategy"
    else exists i: nat, j: nat :: Core(id.value, i, j) && LowerOf(id.value[i..j], strategy)
  }

  ghost predicate ActionOf(raw: string, action: string) {
    if OnlySpaces(raw) then action == ""
    else exists i: nat, j: nat :: Core(raw, i, j) && UpperOf(raw[i..j], action)
  }

  predicate LowerOf(t: string, lower: string) {
    |lower| == |t| && forall k :: 0 <= k < |t| ==> lower[k] == LowerChar(t[k])
  }

  predicate UpperOf(t: string, upper: string) {
    |upper| == |t| && forall k :: 0 <= k < |t| ==> upper[k] == UpperChar(t[k])
  }

  lemma NormalizedIs(id: Option<string>, raw: string)
    ensures StrategyOf(id, NormalizeStrategy(id)) && ActionOf(raw, NormalizeAction(raw))
  {
    hide Strip, OnlySpaces, LowerChar, UpperChar, IsSpace;
    StripIsCore(raw);
    if !OnlySpaces(raw) {
      var i: nat, j: nat :| Core(raw, i, j) && Strip(raw) == raw[i..j];
      assert UpperOf(raw[i..j], NormalizeAction(raw));
    }
    if id.Some? {
      var t := id.value;
      StripIsCore(t);
      if !OnlySpaces(t) {
        var i: nat, j: nat :| Core(t, i, j) && Strip(t) == t[i..j];
        assert |t[i..j]| == j - i && LowerOf(t[i..j], NormalizeStrategy(id));
      }
    }
  }

  /** A row ends up as its own but for the normalized strategy id, and with the digest of
      its signal as key if no earlier row got that. */
  lemma RowOutcome(digest: string -> string, rows: seq<Job>, i: nat)
    requires i < |rows|
    ensures
      var was, now := rows[i], Migrated(digest, rows)[i];
      && now == was.(strategyId := now.strategyId, key := now.key, status := now.status, note := now.note)
      && now.strategyId.Some? && StrategyOf(was.strategyId, now.strategyId.value)
      && ((forall j :: 0 <= j < i ==> NewKey(digest, rows[j]) != NewKey(digest, was)) ==>
            now.key == NewKey(digest, was) && now.status == was.status && now.note == was.note)
  {
    hide NormalizeStrategy, NormalizeAction, StrategyOf, ActionOf, First, NewKey, DuplicateKey, Note;
    NormalizedIs(rows[i].strategyId, rows[i].action);
    FirstOfKey(digest, rows, i);
  }

  /** Otherwise it is parked behind the first that did, and says so. */
  lemma DuplicateOutcome(digest: string -> string, rows: seq<Job>, j: nat, i: nat)
    requires j < i < |rows| && NewKey(digest, rows[j]) == NewKey(digest, rows[i])
    requires forall m :: 0 <= m < j ==> NewKey(digest, rows[m]) != NewKey(digest, rows[i])
    ensures
      var now := Migrated(digest, rows)[i];
      && now.key == NewKey(digest, rows[i]) + ":dup:" + rows[i].jobId && now.status == "DEAD_LETTER"
      && now.note == Some("Parked by migration a4c7e2f10938: duplicate of job " + rows[j].jobId
                          + " once strategy_id casing was normalized.")
  {
    hide NormalizeStrategy, First, NewKey;
    FirstOfKey(digest, rows, i);
  }

  lemma KeyOutcome(digest: string -> string, j: Job)
    ensures NewKey(digest, j) == digest(NormalizeStrategy(j.strategyId) + ":" + j.signalId + ":" + NormalizeAction(j.action))
    ensures StrategyOf(j.strategyId, NormalizeStrategy(j.strategyId)) && ActionOf(j.action, NormalizeAction(j.action))
  {
    hide NormalizeStrategy, NormalizeAction, StrategyOf, ActionOf;
    NormalizedIs(j.strategyId, j.action);
  }

  lemma FirstOfKey(digest: string -> string, rows: seq<Job>, i: nat)
    requires i < |rows|
    ensures
      var key := NewKey(digest, rows[i]);
      var first := First(NewKeys(digest, rows)[..i], key);
      && ((forall j :: 0 <= j < i ==> NewKey(digest, rows[j]) != key) ==> first.None?)
      && (forall j :: 0 <= j < i && NewKey(digest, rows[j]) == key && (forall m :: 0 <= m < j ==> NewKey(digest, rows[m]) != key) ==>
            first == Some(j))
  {
    hide NewKey, First;
    var keys := NewKeys(digest, rows)[..i];
    assert forall j :: 0 <= j < i ==> keys[j] == NewKey(digest, rows[j]);
  }

  lemma DuplicateHasColon(key: string, j: Job)
    ensures ':' in DuplicateKey(key, j)
  {
    assert DuplicateKey(key, j)[|key|] == ':';
  }

  function AllOld(n: nat): (r: seq<Stage>)
    ensures |r| == n && forall i :: 0 <= i < n ==> r[i] == Old
  {
    if n == 0 then [] else AllOld(n - 1) + [Old]
  }

  /** One planned update: the row, what it gets, and the job it duplicates if any. */
  datatype Item = Item(row: nat, strategyId: string, key: string, kept: Option<string>)

  function Applied(j: Job, x: Item): Job {
    var moved := j.(strategyId := Some(x.strategyId), key := x.key);
    if x.kept.None? then moved else moved.(status := "DEAD_LETTER", note := Some(Note(x.kept.value)))
  }

  /** Applied to its row, parked or done already, the item makes it what it is to become. */
  ghost predicate Fits(digest: string -> string, rows: seq<Job>, x: Item) {
    && x.row < |rows|
    && Applied(At(digest, rows, x.row, Parked), x) == Rekeyed(digest, rows, x.row)
    && Applied(Rekeyed(digest, rows, x.row), x) == Rekeyed(digest, rows, x.row)
  }

  predicate Covers(items: seq<Item>, row: nat) {
    exists k :: 0 <= k < |items| && items[k].row == row
  }

  ghost predicate AllFit(digest: string -> string, rows: seq<Job>, items: seq<Item>) {
    forall k :: 0 <= k < |items| ==> Fits(digest, rows, items[k])
  }

  /** The planned items for the first `n` rows. */
  ghost predicate Planned(digest: string -> string, rows: seq<Job>, updates: seq<Item>, collisions: seq<Item>, n: nat) {
    && AllFit(digest, rows, updates) && AllFit(digest, rows, collisions)
    && forall i :: 0 <= i < n ==> Covers(updates, i) || Covers(collisions, i)
  }

  function ItemFor(digest: string -> string, rows: seq<Job>, i: nat, first: Option<nat>): Item
    requires i < |rows| && (first.Some? ==> first.value < |rows|)
  {
    var key, strategy := NewKey(digest, rows[i]), NormalizeStrategy(rows[i].strategyId);
    if first.None? then Item(i, strategy, key, None)
    else Item(i, strategy, DuplicateKey(key, rows[i]), Some(rows[first.value].jobId))
  }

  lemma ItemFits(digest: string -> string, rows: seq<Job>, i: nat)
    requires i < |rows|
    ensures
      var first := First(NewKeys(digest, rows)[..i], NewKey(digest, rows[i]));
      Fits(digest, rows, ItemFor(digest, rows, i, first))
  {
    hide NewKey, NormalizeStrategy, DuplicateKey, ParkedKey, NewKeys, First, Note;
  }

  lemma CoversMore(items: seq<Item>, x: Item)
    ensures forall row :: Covers(items + [x], row) <==> Covers(items, row) || x.row == row
  {
    forall row ensures Covers(items + [x], row) <==> Covers(items, row) || x.row == row {
      var all := items + [x];
      assert all[|items|] == x;
      if Covers(items, row) {
        var k :| 0 <= k < |items| && items[k].row == row;
        assert all[k].row == row;
      }
    }
  }

  lemma NothingPlanned(digest: string -> string, rows: seq<Job>)
    ensures Planned(digest, rows, [], [], 0)
  {}

  lemma PlanOneMore(digest: string -> string, rows: seq<Job>, updates: seq<Item>, collisions: seq<Item>, x: Item)
    requires Planned(digest, rows, updates, collisions, x.row) && x.row < |rows|
    requires x == ItemFor(digest, rows, x.row, First(NewKeys(digest, rows)[..x.row], NewKey(digest, rows[x.row])))
    ensures Planned(digest, rows, updates + [x], collisions, x.row + 1)
    ensures Planned(digest, rows, updates, collisions + [x], x.row + 1)
  {
    hide NewKey, NormalizeStrategy, DuplicateKey, Fits, NewKeys, Covers, First;
    ItemFits(digest, rows, x.row);
    CoversMore(updates, x);
    CoversMore(collisions, x);
  }

  /** `seen` tells where each key came up first. */
  ghost predicate SeenFirst(keys: seq<string>, seen: map<string, nat>) {
    forall key :: First(keys, key) == if key in seen then Some(seen[key]) else None
  }

  lemma SeenOneMore(keys: seq<string>, i: nat, seen: map<string, nat>)
    requires i < |keys| && SeenFirst(keys[..i], seen)
    ensures First(keys[..i], keys[i]) == if keys[i] in seen then Some(seen[keys[i]]) else None
    ensures keys[i] in seen ==> seen[keys[i]] < i
    ensures SeenFirst(keys[..i + 1], if keys[i] in seen then seen else seen[keys[i] := i])
  {
    assert keys[..i + 1][..i] == keys[..i];
  }

  ghost predicate AllDistinctIn(history: seq<seq<Job>>, from: nat, size: nat) {
    forall h :: from <= h < |history| ==> KeysDistinct(history[h]) && |history[h]| == size
  }

  class SignalJobs {
    var rows: seq<Job>
    /** The table after every single UPDATE of one row. */
    ghost var history: seq<seq<Job>>

    constructor (rows: seq<Job>)
      ensures this.rows == rows && history == []
    {
      this.rows, history := rows, [];
    }

    /** UPDATE ... WHERE job_id = ... */
    method Update(i: nat, j: Job)
      requires i < |rows|
      modifies this
      ensures rows == old(rows)[i := j] && history == old(history) + [rows]
    {
      rows := rows[i := j];
      history := history + [rows];
    }

    /** Sorts the rows into those that get the plain key and those that duplicate one. */
    method Plan(digest: string -> string) returns (updates: seq<Item>, collisions: seq<Item>)
      ensures Planned(digest, rows, updates, collisions, |rows|)
      ensures forall k :: 0 <= k < |updates| ==> updates[k].kept.None?
      ensures forall k :: 0 <= k < |collisions| ==> collisions[k].kept.Some?
    {
      hide NewKey, NormalizeStrategy, DuplicateKey, Fits, NewKeys, Covers, First, Planned;
      updates, collisions := [], [];
      NothingPlanned(digest, rows);
      var seen: map<string, nat> := map[];
      ghost var keys := NewKeys(digest, rows);
      for i := 0 to |rows|
        invariant SeenFirst(keys[..i], seen)
        invariant Planned(digest, rows, updates, collisions, i)
        invariant forall k :: 0 <= k < |updates| ==> updates[k].kept.None?
        invariant forall k :: 0 <= k < |collisions| ==> collisions[k].kept.Some?
      {
        var key, strategy := NewKey(digest, rows[i]), NormalizeStrategy(rows[i].strategyId);
        SeenOneMore(keys, i, seen);
        if key in seen {
          var item := Item(i, strategy, DuplicateKey(key, rows[i]), Some(rows[seen[key]].jobId));
          PlanOneMore(digest, rows, updates, collisions, item);
          collisions := collisions + [item];
        } else {
          var item := Item(i, strategy, key, None);
          PlanOneMore(digest, rows, updates, collisions, item);
          seen := seen[key := i];
          updates := updates + [item];
        }
      }
    }

    /** Applies the planned items one UPDATE at a time. */
    method Rewrite(digest: string -> string, ghost was: seq<Job>, items: seq<Item>, ghost stages: seq<Stage>, ghost before: nat)
      returns (ghost after: seq<Stage>)
      requires ColonFree(digest) && TableOk(was) && AllAt(digest, was, rows, stages) && Old !in stages
      requires AllFit(digest, was, items) && AllDistinctIn(history, before, |was|) && before <= |history|
      modifies this
      ensures AllAt(digest, was, rows, after) && Old !in after && AllDistinctIn(history, before, |was|)
      ensures old(history) <= history
      ensures forall i :: 0 <= i < |was| && (Covers(items, i) || stages[i] == Done) ==> after[i] == Done
    {
      hide TableOk, ColonFree, Rekeyed, Applied, KeysDistinct;
      after := stages;
      for m := 0 to |items|
        invariant AllAt(digest, was, rows, after) && Old !in after && AllDistinctIn(history, before, |was|)
        invariant old(history) <= history
        invariant forall k :: 0 <= k < m ==> after[items[k].row] == Done
        invariant forall i :: 0 <= i < |was| && stages[i] == Done ==> after[i] == Done
      {
        var x := items[m];
        assert Fits(digest, was, x) && after[x.row] in after;
        Update(x.row, Applied(rows[x.row], x));
        after := after[x.row := Done];
        StagedKeysDistinct(digest, was, rows, after);
      }
    }

    /** Gives every job its temporary key. */
    method ParkAll(digest: string -> string, ghost before: nat) returns (ghost stages: seq<Stage>)
      requires ColonFree(digest) && TableOk(rows) && AllDistinctIn(history, before, |rows|) && before <= |history|
      modifies this
      ensures AllAt(digest, old(rows), rows, stages) && Old !in stages && AllDistinctIn(history, before, |rows|)
      ensures old(history) <= history
    {
      hide TableOk, ColonFree, Rekeyed, ParkedKey, KeysDistinct;
      ghost var was := rows;
      stages := AllOld(|rows|);
      for i := 0 to |rows|
        invariant AllAt(digest, was, rows, stages) && AllDistinctIn(history, before, |was|) && old(history) <= history
        invariant forall k :: 0 <= k < |was| ==> stages[k] == if k < i then Parked else Old
      {
        Update(i, rows[i].(key := ParkedKey(rows[i])));
        stages := stages[i := Parked];
        StagedKeysDistinct(digest, was, rows, stages);
      }
    }

    /** Parks every key, then gives the plain keys, then the suffixed ones. */
    method Upgrade(digest: string -> string)
      requires ColonFree(digest) && TableOk(rows)
      modifies this
      ensures rows == Migrated(digest, old(rows))
      ensures old(history) <= history && AllDistinctIn(history, |old(history)|, |old(rows)|)
    {
      hide TableOk, ColonFree, Rekeyed, KeysDistinct, Covers, AllFit;
      ghost var was := rows;
      var updates, collisions := Plan(digest);
      ghost var stages := ParkAll(digest, |history|);
      stages := Rewrite(digest, was, updates, stages, |old(history)|);
      stages := Rewrite(digest, was, collisions, stages, |old(history)|);
      assert forall i :: 0 <= i < |was| ==> stages[i] == Done;
      assert rows == Migrated(digest, was);
    }
  }

  // ---- Keys and signals ----

  /** Two signals share the raw key exactly when they are the same signal, as long as
      neither strategies nor actions contain a colon. */
  lemma RawKeyInjective(s: string, g: string, a: string, t: string, h: string, b: string)
    requires ':' !in s && ':' !in t && ':' !in a && ':' !in b
    ensures RawKey(s, g, a) == RawKey(t, h, b) <==> (s, g, a) == (t, h, b)
  {
    if RawKey(s, g, a) == RawKey(t, h, b) {
      SameTail(s + ":" + g, a, t + ":" + h, b);
      SameHead(s, g, t, h);
    }
  }

  lemma SameHead(s: string, g: string, t: string, h: string)
    requires s + ":" + g == t + ":" + h && ':' !in s && ':' !in t
    ensures s == t && g == h
  {
    var x := s + ":" + g;
    assert x[|s|] == ':' && x[|t|] == ':';
    assert forall i :: 0 <= i < |s| ==> x[i] == s[i];
    assert forall i :: 0 <= i < |t| ==> (t + ":" + h)[i] == t[i];
    assert |s| == |t|;
    assert x[..|s|] == s && x[|s| + 1..] == g;
    assert (t + ":" + h)[..|t|] == t && (t + ":" + h)[|t| + 1..] == h;
  }

  function SignalOf(j: Job): (string, string, string) {
    (NormalizeStrategy(j.strategyId), j.signalId, NormalizeAction(j.action))
  }

  // ---- What normalizing yields ----

  predicate Trimmed(t: string) {
    t != "" ==> !IsSpace(t[0]) && !IsSpace(t[|t| - 1])
  }

  predicate IsLower(t: string) {
    forall i :: 0 <= i < |t| ==> LowerChar(t[i]) == t[i]
  }

  predicate IsUpper(t: string) {
    forall i :: 0 <= i < |t| ==> UpperChar(t[i]) == t[i]
  }

  predicate IsStrategy(s: string) {
    s != "" && IsLower(s) && Trimmed(s)
  }

  predicate IsAction(a: string) {
    IsUpper(a) && Trimmed(a)
  }

  lemma StripIsTrimmed(t: string)
    ensures Trimmed(Strip(t)) && (Trimmed(t) ==> Strip(t) == t)
  {
    if t != "" && !IsSpace(t[0]) {
      assert LStrip(t) == t;
    }
  }

  lemma CaseOfChar(c: char)
    ensures LowerChar(LowerChar(c)) == LowerChar(c) && (IsSpace(LowerChar(c)) <==> IsSpace(c))
    ensures UpperChar(UpperChar(c)) == UpperChar(c) && (IsSpace(UpperChar(c)) <==> IsSpace(c))
  {}

  lemma LowerKeepsTrim(t: string)
    requires Trimmed(t)
    ensures IsLower(Lower(t)) && Trimmed(Lower(t))
  {
    hide IsSpace, LowerChar, UpperChar;
    forall i | 0 <= i < |t| ensures LowerChar(Lower(t)[i]) == Lower(t)[i] && IsSpace(Lower(t)[i]) == IsSpace(t[i]) {
      CaseOfChar(t[i]);
    }
  }

  lemma UpperKeepsTrim(t: string)
    requires Trimmed(t)
    ensures IsUpper(Upper(t)) && Trimmed(Upper(t))
  {
    hide IsSpace, LowerChar, UpperChar;
    forall i | 0 <= i < |t| ensures UpperChar(Upper(t)[i]) == Upper(t)[i] && IsSpace(Upper(t)[i]) == IsSpace(t[i]) {
      CaseOfChar(t[i]);
    }
  }

  lemma StrategyIff(s: string)
    ensures IsStrategy(s) <==> exists id :: NormalizeStrategy(id) == s
  {
    hide Strip, IsSpace;
    if IsStrategy(s) {
      StripIsTrimmed(s);
      assert Lower(s) == s;
      assert NormalizeStrategy(Some(s)) == s;
    }
    forall id | NormalizeStrategy(id) == s ensures IsStrategy(s) {
      if id.Some? {
        StripIsTrimmed(id.value);
        LowerKeepsTrim(Strip(id.value));
      }
      DefaultIsStrategy();
    }
  }

  lemma DefaultIsStrategy()
    ensures IsStrategy(DEFAULT_STRATEGY)
  {}

  lemma ActionIff(a: string)
    ensures IsAction(a) <==> exists raw :: NormalizeAction(raw) == a
  {
    hide Strip, IsSpace;
    if IsAction(a) {
      StripIsTrimmed(a);
      assert NormalizeAction(a) == a;
    }
    forall raw | NormalizeAction(raw) == a ensures IsAction(a) {
      StripIsTrimmed(raw);
      UpperKeepsTrim(Strip(raw));
    }
  }

  // ---- The exact condition on one signal ----

  predicate EndsHead(t: string, i: nat)
    requires i <= |t|
  {
    i == 0 || !IsSpace(t[i - 1])
  }

  predicate StartsTail(t: string, i: nat)
    requires i <= |t|
  {
    i == |t| || !IsSpace(t[i])
  }

  /** The strategy can be cut at a colon. */
  predicate CutsStrategy(s: string) {
    exists i :: 0 < i < |s| && s[i] == ':' && EndsHead(s, i)
  }

  /** The action can be cut at a colon. */
  predicate CutsAction(a: string) {
    exists i :: 0 <= i < |a| && a[i] == ':' && StartsTail(a, i + 1)
  }

  /** What stands before some colon of the signal id can join the strategy. */
  predicate JoinsStrategy(g: string) {
    exists i :: 0 <= i < |g| && g[i] == ':' && EndsHead(g, i) && IsLower(g[..i])
  }

  /** What stands behind some colon of the signal id can join the action. */
  predicate JoinsAction(g: string) {
    exists i :: 0 <= i < |g| && g[i] == ':' && StartsTail(g, i + 1) && IsUpper(g[i + 1..])
  }

  predicate Ambiguous(s: string, g: string, a: string) {
    CutsStrategy(s) || CutsAction(a) || JoinsStrategy(g) || JoinsAction(g)
  }

  predicate SharesRawKey(s: string, g: string, a: string, t: string, h: string, b: string) {
    RawKey(t, h, b) == RawKey(s, g, a) && (t, h, b) != (s, g, a)
  }

  ghost predicate Shared(s: string, g: string, a: string) {
    exists t, h, b :: IsStrategy(t) && IsAction(b) && SharesRawKey(s, g, a, t, h, b)
  }

  lemma Regroup(x: string, y: string, z: string, w: string)
    ensures RawKey(x, y + ":" + z, w) == RawKey(x + ":" + y, z, w)
    ensures RawKey(x, y + ":" + z, w) == RawKey(x, y, z + ":" + w)
  {
    assert RawKey(x, y + ":" + z, w) == x + ":" + y + ":" + z + ":" + w;
    assert RawKey(x + ":" + y, z, w) == x + ":" + y + ":" + z + ":" + w;
    assert RawKey(x, y, z + ":" + w) == x + ":" + y + ":" + z + ":" + w;
  }

  lemma CutStrategyIsShared(s: string, i: nat, g: string, a: string)
    requires IsStrategy(s) && IsAction(a) && 0 < i < |s| && s[i] == ':' && EndsHead(s, i)
    ensures Shared(s, g, a)
  {
    hide RawKey, IsSpace, LowerChar, IsAction;
    Regroup(s[..i], s[i + 1..], g, a);
    assert s == s[..i] + ":" + s[i + 1..];
    assert SharesRawKey(s, g, a, s[..i], s[i + 1..] + ":" + g, a);
  }

  lemma CutActionIsShared(s: string, g: string, a: string, i: nat)
    requires IsStrategy(s) && IsAction(a) && i < |a| && a[i] == ':' && StartsTail(a, i + 1)
    ensures Shared(s, g, a)
  {
    hide RawKey, IsSpace, UpperChar, IsStrategy;
    Regroup(s, g, a[..i], a[i + 1..]);
    assert a == a[..i] + ":" + a[i + 1..];
    assert SharesRawKey(s, g, a, s, g + ":" + a[..i], a[i + 1..]);
  }

  lemma JoinStrategyIsShared(s: string, g: string, i: nat, a: string)
    requires IsStrategy(s) && IsAction(a) && i < |g| && g[i] == ':' && EndsHead(g, i) && IsLower(g[..i])
    ensures Shared(s, g, a)
  {
    hide RawKey, IsSpace, LowerChar, IsAction;
    Regroup(s, g[..i], g[i + 1..], a);
    assert g == g[..i] + ":" + g[i + 1..];
    ColonIsPlain();
    assert IsStrategy(s + ":" + g[..i]);
    assert SharesRawKey(s, g, a, s + ":" + g[..i], g[i + 1..], a);
  }

  lemma JoinActionIsShared(s: string, g: string, i: nat, a: string)
    requires IsStrategy(s) && IsAction(a) && i < |g| && g[i] == ':' && StartsTail(g, i + 1) && IsUpper(g[i + 1..])
    ensures Shared(s, g, a)
  {
    hide RawKey, IsSpace, UpperChar, IsStrategy;
    Regroup(s, g[..i], g[i + 1..], a);
    assert g == g[..i] + ":" + g[i + 1..];
    ColonIsPlain();
    assert IsAction(g[i + 1..] + ":" + a);
    assert SharesRawKey(s, g, a, s, g[..i], g[i + 1..] + ":" + a);
  }

  lemma AmbiguousIsShared(s: string, g: string, a: string)
    requires IsStrategy(s) && IsAction(a) && Ambiguous(s, g, a)
    ensures Shared(s, g, a)
  {
    hide IsStrategy, IsAction, Shared, IsLower, IsUpper, EndsHead, StartsTail;
    if CutsStrategy(s) {
      var i :| 0 < i < |s| && s[i] == ':' && EndsHead(s, i);
      CutStrategyIsShared(s, i, g, a);
    } else if CutsAction(a) {
      var i :| 0 <= i < |a| && a[i] == ':' && StartsTail(a, i + 1);
      CutActionIsShared(s, g, a, i);
    } else if JoinsStrategy(g) {
      var i :| 0 <= i < |g| && g[i] == ':' && EndsHead(g, i) && IsLower(g[..i]);
      JoinStrategyIsShared(s, g, i, a);
    } else {
      var i :| 0 <= i < |g| && g[i] == ':' && StartsTail(g, i + 1) && IsUpper(g[i + 1..]);
      JoinActionIsShared(s, g, i, a);
    }
  }

  lemma ColonIsPlain()
    ensures !IsSpace(':') && LowerChar(':') == ':' && UpperChar(':') == ':'
  {}

  /** Where the colons of a raw key stand. */
  lemma ColonsOfRawKey(s: string, g: string, a: string)
    ensures var x := RawKey(s, g, a);
      && |x| == |s| + |g| + |a| + 2 && x[|s|] == ':' && x[|s| + 1 + |g|] == ':'
      && x[..|s|] == s && x[|s| + 1..|s| + 1 + |g|] == g && x[|s| + |g| + 2..] == a
  {
    var x := RawKey(s, g, a);
    assert forall i :: 0 <= i < |s| ==> x[i] == s[i];
    assert forall i :: 0 <= i < |g| ==> x[|s| + 1 + i] == g[i];
    assert forall i :: 0 <= i < |a| ==> x[|s| + |g| + 2 + i] == a[i];
    assert forall i :: |s| < i < |s| + 1 + |g| ==> x[i] == g[i - |s| - 1];
    assert forall i :: |s| + |g| + 2 <= i < |x| ==> x[i] == a[i - |s| - |g| - 2];
  }

  lemma LongerStrategyJoins(s: string, g: string, i: nat, t: string)
    requires IsStrategy(t) && i < |g| && g[i] == ':' && t == s + ":" + g[..i]
    ensures JoinsStrategy(g)
  {
    hide IsSpace, LowerChar;
    assert forall k :: 0 <= k < i ==> g[k] == t[|s| + 1 + k];
  }

  lemma LongerActionJoins(a: string, g: string, i: nat, b: string)
    requires IsAction(b) && i < |g| && g[i] == ':' && b == g[i + 1..] + ":" + a
    ensures JoinsAction(g)
  {
    hide IsSpace, UpperChar;
    var tail := g[i + 1..];
    assert forall k :: 0 <= k < |tail| ==> tail[k] == b[k];
    assert tail != "" ==> g[i + 1] == b[0];
    assert IsUpper(tail);
  }

  lemma SharedIsAmbiguous(s: string, g: string, a: string, t: string, h: string, b: string)
    requires IsStrategy(t) && IsAction(b) && SharesRawKey(s, g, a, t, h, b)
    ensures Ambiguous(s, g, a)
  {
    hide RawKey, IsSpace, LowerChar, UpperChar, JoinsStrategy, JoinsAction;
    ColonsOfRawKey(s, g, a);
    ColonsOfRawKey(t, h, b);
    var x := RawKey(s, g, a);
    var p, q, p0, q0 := |t|, |t| + 1 + |h|, |s|, |s| + 1 + |g|;
    if p < p0 {
      assert s[p] == x[p] && s[p - 1] == x[p - 1] == t[p - 1];
    } else if p0 < p < q0 {
      var i := p - p0 - 1;
      assert g[i] == x[p];
      assert t == s + ":" + g[..i];
      LongerStrategyJoins(s, g, i, t);
    } else if q0 < q {
      var i := q - q0 - 1;
      assert a[i] == x[q];
      assert i + 1 < |a| ==> a[i + 1] == x[q + 1] == b[0];
      assert CutsAction(a);
    } else if q < q0 {
      var i := q - p0 - 1;
      assert g[i] == x[q];
      assert b == g[i + 1..] + ":" + a;
      LongerActionJoins(a, g, i, b);
    }
  }

  predicate AmbiguousJob(j: Job) {
    var (s, g, a) := SignalOf(j);
    Ambiguous(s, g, a)
  }

  /** Some job of another signal gets a job's raw key exactly when its strategy or action
      can be cut at a colon, or its signal id at one where the piece can join them. */
  lemma RawKeyUniqueIff(j: Job)
    ensures (exists k: Job :: RawKeyOf(k) == RawKeyOf(j) && SignalOf(k) != SignalOf(j)) <==> AmbiguousJob(j)
  {
    hide RawKey, NormalizeStrategy, NormalizeAction, IsStrategy, IsAction, Ambiguous;
    var (s, g, a) := SignalOf(j);
    StrategyIff(s);
    ActionIff(a);
    if Ambiguous(s, g, a) {
      AmbiguousIsShared(s, g, a);
      var t, h, b :| IsStrategy(t) && IsAction(b) && SharesRawKey(s, g, a, t, h, b);
      StrategyIff(t);
      ActionIff(b);
      var id :| NormalizeStrategy(id) == t;
      var raw :| NormalizeAction(raw) == b;
      var k := j.(strategyId := id, signalId := h, action := raw);
      assert RawKeyOf(k) == RawKeyOf(j) && SignalOf(k) != SignalOf(j);
    }
    forall k: Job | RawKeyOf(k) == RawKeyOf(j) && SignalOf(k) != SignalOf(j) ensures Ambiguous(s, g, a) {
      var (t, h, b) := SignalOf(k);
      StrategyIff(t);
      ActionIff(b);
      SharedIsAmbiguous(s, g, a, t, h, b);
    }
  }

  /** With a colon in the strategy two different signals collide, and the later one is
      dead-lettered although it duplicates nothing. */
  lemma ColonCollides(digest: string -> string, x: Job, y: Job)
    requires NormalizeStrategy(x.strategyId) == "a:b" && x.signalId == "c"
    requires NormalizeStrategy(y.strategyId) == "a" && y.signalId == "b:c"
    requires NormalizeAction(x.action) == NormalizeAction(y.action)
    ensures Migrated(digest, [x, y])[1].status == "DEAD_LETTER"
  {
    hide NormalizeStrategy, NormalizeAction, Note, DuplicateKey;
    var action := NormalizeAction(x.action);
    assert RawKey("a:b", "c", action) == RawKey("a", "b:c", action);
    assert NewKeys(digest, [x, y])[..1][0] == NewKey(digest, [x, y][1]);
  }

  /** No two rows of the table have one digest for different raw keys. */
  predicate NoDigestCollision(digest: string -> string, rows: seq<Job>) {
    forall i, j :: 0 <= i < j < |rows| && NewKey(digest, rows[i]) == NewKey(digest, rows[j]) ==>
      RawKeyOf(rows[i]) == RawKeyOf(rows[j])
  }

  predicate PlainSignal(j: Job) {
    ':' !in NormalizeStrategy(j.strategyId) && ':' !in NormalizeAction(j.action)
  }

  /** Without digest collisions in the table the plain key goes to exactly one row of each
      logical signal, the earliest, if the signal is unambiguous or no strategy and action
      of the table has a colon. */
  lemma OnePlainRowPerSignal(digest: string -> string, rows: seq<Job>, i: nat)
    requires ColonFree(digest) && TableOk(rows) && NoDigestCollision(digest, rows) && i < |rows|
    requires !AmbiguousJob(rows[i]) || forall k :: 0 <= k < |rows| ==> PlainSignal(rows[k])
    ensures Migrated(digest, rows)[i].key == NewKey(digest, rows[i])
       <==> forall j :: 0 <= j < i ==> SignalOf(rows[j]) != SignalOf(rows[i])
  {
    hide NormalizeStrategy, NormalizeAction, RawKey, AmbiguousJob;
    EarliestKeepsPlainKey(digest, rows, i);
    forall j | 0 <= j < i ensures NewKey(digest, rows[j]) == NewKey(digest, rows[i]) <==> SignalOf(rows[j]) == SignalOf(rows[i]) {
      if AmbiguousJob(rows[i]) {
        var a, b := SignalOf(rows[j]), SignalOf(rows[i]);
        assert PlainSignal(rows[j]) && PlainSignal(rows[i]);
        RawKeyInjective(a.0, a.1, a.2, b.0, b.1, b.2);
      } else {
        RawKeyUniqueIff(rows[i]);
      }
    }
  }
}
