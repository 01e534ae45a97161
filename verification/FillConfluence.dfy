/** Filled quantity, remaining quantity and status under reordered and repeated
    executions, some counted by their cumulative quantity and some by their shares: when
    the order of delivery does not matter. */
module FillConfluence {
  import opened Options
  import opened Orders
  import opened OmsOrders
  import opened Adapter
  import opened AdapterRuns
  import opened AdapterConfluence

  // ---- Sums over delivered executions ----

  /** Without a cumulative quantity an execution counts by its shares. */
  predicate ShareOnly(plan: Plan, key: ExecKey) {
    plan.report(key).cumQty <= 0.0
  }

  predicate AllRecordable(plan: Plan, keys: seq<ExecKey>) {
    forall i :: 0 <= i < |keys| ==> Recordable(plan.report(keys[i]))
  }

  predicate NoneTwice(keys: seq<ExecKey>) {
    forall i, j :: 0 <= i < j < |keys| ==> keys[i] != keys[j]
  }

  function Weight(plan: Plan, loneOnly: bool, key: ExecKey): real {
    if loneOnly && !ShareOnly(plan, key) then 0.0 else plan.report(key).shares
  }

  /** The shares of all executions, or only of those without a cumulative quantity. */
  function Shares(plan: Plan, loneOnly: bool, keys: seq<ExecKey>): real {
    if keys == [] then 0.0
    else Shares(plan, loneOnly, keys[..|keys| - 1]) + Weight(plan, loneOnly, keys[|keys| - 1])
  }

  /** The largest cumulative quantity, 0 if there is none. */
  function LargestCum(plan: Plan, keys: seq<ExecKey>): real {
    if keys == [] then 0.0 else Max(LargestCum(plan, keys[..|keys| - 1]), plan.report(keys[|keys| - 1]).cumQty)
  }

  /** Each execution once, in the order of its first delivery. */
  function Firsts(keys: seq<ExecKey>): (r: seq<ExecKey>)
    ensures forall key :: key in r <==> key in keys
    ensures NoneTwice(r)
  {
    if keys == [] then []
    else
      var n := |keys| - 1;
      assert keys == keys[..n] + [keys[n]];
      if keys[n] in keys[..n] then Firsts(keys[..n]) else Firsts(keys[..n]) + [keys[n]]
  }

  ghost predicate SameKeys(a: seq<ExecKey>, b: seq<ExecKey>) {
    forall key :: key in a <==> key in b
  }

  function Dropping(keys: seq<ExecKey>, i: nat): seq<ExecKey>
    requires i < |keys|
  {
    keys[..i] + keys[i + 1..]
  }

  lemma {:induction false} SharesDropping(plan: Plan, loneOnly: bool, keys: seq<ExecKey>, i: nat)
    requires i < |keys|
    ensures Shares(plan, loneOnly, keys) == Shares(plan, loneOnly, Dropping(keys, i)) + Weight(plan, loneOnly, keys[i])
  {
    hide Weight;
    var n := |keys| - 1;
    if i == n {
      assert Dropping(keys, i) == keys[..n];
    } else {
      SharesDropping(plan, loneOnly, keys[..n], i);
      assert Dropping(keys, i)[..n - 1] == Dropping(keys[..n], i) && Dropping(keys, i)[n - 1] == keys[n];
    }
  }

  lemma DroppingKeys(keys: seq<ExecKey>, i: nat, key: ExecKey)
    requires NoneTwice(keys) && i < |keys|
    ensures NoneTwice(Dropping(keys, i))
    ensures key in Dropping(keys, i) <==> key in keys && key != keys[i]
  {
    if key in keys && key != keys[i] {
      var j :| 0 <= j < |keys| && keys[j] == key;
      assert Dropping(keys, i)[if j < i then j else j - 1] == key;
    }
  }

  /** The sums do not depend on the order. */
  lemma {:induction false} SharesOfSet(plan: Plan, loneOnly: bool, a: seq<ExecKey>, b: seq<ExecKey>)
    requires NoneTwice(a) && NoneTwice(b) && SameKeys(a, b)
    ensures Shares(plan, loneOnly, a) == Shares(plan, loneOnly, b)
  {
    hide Weight;
    if a == [] {
      NoKeys(b);
    } else {
      var n := |a| - 1;
      assert a[n] in b;
      var i :| 0 <= i < |b| && b[i] == a[n];
      SharesDropping(plan, loneOnly, b, i);
      assert Dropping(a, n) == a[..n];
      forall key ensures key in a[..n] <==> key in Dropping(b, i) {
        DroppingKeys(a, n, key);
        DroppingKeys(b, i, key);
      }
      DroppingKeys(b, i, a[n]);
      SharesOfSet(plan, loneOnly, a[..n], Dropping(b, i));
    }
  }

  lemma NoKeys(keys: seq<ExecKey>)
    ensures keys == [] || exists key :: key in keys
  {
    if keys != [] {
      assert keys[0] in keys;
    }
  }

  lemma {:induction false} LargestCumIs(plan: Plan, keys: seq<ExecKey>)
    ensures 0.0 <= LargestCum(plan, keys)
    ensures forall key :: key in keys ==> plan.report(key).cumQty <= LargestCum(plan, keys)
    ensures LargestCum(plan, keys) == 0.0 || exists key :: key in keys && plan.report(key).cumQty == LargestCum(plan, keys)
  {
    if keys != [] {
      var n := |keys| - 1;
      LargestCumIs(plan, keys[..n]);
      assert keys == keys[..n] + [keys[n]];
      assert keys[n] in keys;
    }
  }

  lemma LargestCumOfSet(plan: Plan, a: seq<ExecKey>, b: seq<ExecKey>)
    requires SameKeys(a, b)
    ensures LargestCum(plan, a) == LargestCum(plan, b)
  {
    LargestCumIs(plan, a);
    LargestCumIs(plan, b);
  }

  lemma {:induction false} SharesGrow(plan: Plan, keys: seq<ExecKey>)
    requires AllRecordable(plan, keys)
    ensures 0.0 <= Shares(plan, true, keys) <= Shares(plan, false, keys)
  {
    if keys != [] {
      var n := |keys| - 1;
      assert Recordable(plan.report(keys[n]));
      SharesGrow(plan, keys[..n]);
    }
  }

  lemma SharesOneMore(plan: Plan, loneOnly: bool, keys: seq<ExecKey>, key: ExecKey)
    ensures Shares(plan, loneOnly, keys + [key]) == Shares(plan, loneOnly, keys) + Weight(plan, loneOnly, key)
    ensures LargestCum(plan, keys + [key]) == Max(LargestCum(plan, keys), plan.report(key).cumQty)
  {
    assert (keys + [key])[..|keys|] == keys;
  }

  lemma FirstsOneMore(keys: seq<ExecKey>, key: ExecKey)
    ensures Firsts(keys + [key]) == if key in keys then Firsts(keys) else Firsts(keys) + [key]
  {
    assert (keys + [key])[..|keys|] == keys;
  }

  lemma {:induction false} FirstsOfDistinct(keys: seq<ExecKey>)
    requires NoneTwice(keys)
    ensures Firsts(keys) == keys
  {
    if keys != [] {
      var n := |keys| - 1;
      FirstsOfDistinct(keys[..n]);
      assert keys == keys[..n] + [keys[n]];
    }
  }

  // ---- The filled quantity of a delivery ----

  /** Filled after delivering `keys` to an order that stood at `from` with `base` shares
      recorded. A cumulative quantity counts as it is, shares with all recorded so far. */
  function Tallied(plan: Plan, from: real, base: real, keys: seq<ExecKey>): real {
    if keys == [] then from
    else
      var n := |keys| - 1;
      var before := Tallied(plan, from, base, keys[..n]);
      if ShareOnly(plan, keys[n]) then Max(before, base + Shares(plan, false, Firsts(keys)))
      else Max(before, plan.report(keys[n]).cumQty)
  }

  function Most(x: real, y: real, z: real): real {
    Max(x, Max(y, z))
  }

  lemma TalliedOneMore(plan: Plan, from: real, base: real, keys: seq<ExecKey>, key: ExecKey)
    ensures Tallied(plan, from, base, keys + [key])
         == if ShareOnly(plan, key) then Max(Tallied(plan, from, base, keys), base + Shares(plan, false, Firsts(keys + [key])))
            else Max(Tallied(plan, from, base, keys), plan.report(key).cumQty)
  {
    assert (keys + [key])[..|keys|] == keys;
  }

  predicate SomeShareOnly(plan: Plan, keys: seq<ExecKey>) {
    exists i :: 0 <= i < |keys| && ShareOnly(plan, keys[i])
  }

  lemma SomeShareOnlyOneMore(plan: Plan, keys: seq<ExecKey>, key: ExecKey)
    ensures SomeShareOnly(plan, keys + [key]) <==> SomeShareOnly(plan, keys) || ShareOnly(plan, key)
  {
    assert (keys + [key])[|keys|] == key;
    if SomeShareOnly(plan, keys) {
      var i :| 0 <= i < |keys| && ShareOnly(plan, keys[i]);
      assert (keys + [key])[i] == keys[i];
    }
  }

  lemma FirstsRecordable(plan: Plan, keys: seq<ExecKey>)
    requires AllRecordable(plan, keys)
    ensures AllRecordable(plan, Firsts(keys))
  {
    forall i | 0 <= i < |Firsts(keys)| ensures Recordable(plan.report(Firsts(keys)[i])) {
      assert Firsts(keys)[i] in keys;
    }
  }

  /** How one more delivery changes the sums. */
  lemma SumsOneMore(plan: Plan, keys: seq<ExecKey>, key: ExecKey)
    requires AllRecordable(plan, keys + [key])
    ensures AllRecordable(plan, keys)
    ensures var before, after := Firsts(keys), Firsts(keys + [key]);
      && Shares(plan, false, before) <= Shares(plan, false, after)
      && (!ShareOnly(plan, key) ==> Shares(plan, true, after) == Shares(plan, true, before))
      && 0.0 <= Shares(plan, true, after) <= Shares(plan, false, after)
  {
    assert AllRecordable(plan, keys) by {
      assert forall i :: 0 <= i < |keys| ==> (keys + [key])[i] == keys[i];
    }
    assert Recordable(plan.report((keys + [key])[|keys|]));
    FirstsRecordable(plan, keys + [key]);
    SharesGrow(plan, Firsts(keys + [key]));
    FirstsOneMore(keys, key);
    SharesOneMore(plan, false, Firsts(keys), key);
    SharesOneMore(plan, true, Firsts(keys), key);
  }

  /** Between these two if some execution is counted by its shares, fixed otherwise. */
  predicate Bounded(some: bool, from: real, most: real, low: real, high: real, tallied: real) {
    if some then Most(from, most, low) <= tallied <= Most(from, most, high) else tallied == Max(from, most)
  }

  ghost predicate TallyBounded(plan: Plan, from: real, base: real, keys: seq<ExecKey>) {
    Bounded(SomeShareOnly(plan, keys), from, LargestCum(plan, keys), base + Shares(plan, true, Firsts(keys)),
            base + Shares(plan, false, Firsts(keys)), Tallied(plan, from, base, keys))
  }

  /** Whatever the order of delivery, the outcome lies within these bounds. */
  lemma {:induction false} TalliedBetween(plan: Plan, from: real, base: real, keys: seq<ExecKey>)
    requires AllRecordable(plan, keys) && 0.0 <= from
    ensures TallyBounded(plan, from, base, keys)
  {
    hide TallyBounded, AllRecordable;
    if keys == [] {
      NothingTallied(plan, from, base);
    } else {
      var n := |keys| - 1;
      assert keys == keys[..n] + [keys[n]];
      SumsOneMore(plan, keys[..n], keys[n]);
      TalliedBetween(plan, from, base, keys[..n]);
      TallyBoundedOneMore(plan, from, base, keys[..n], keys[n]);
    }
  }

  lemma NothingTallied(plan: Plan, from: real, base: real)
    requires 0.0 <= from
    ensures TallyBounded(plan, from, base, [])
  {}

  lemma TallyBoundedOneMore(plan: Plan, from: real, base: real, front: seq<ExecKey>, key: ExecKey)
    requires AllRecordable(plan, front + [key]) && 0.0 <= from && TallyBounded(plan, from, base, front)
    ensures TallyBounded(plan, from, base, front + [key])
  {
    hide ShareOnly, Recordable, Shares, LargestCum, Firsts, Tallied, SomeShareOnly, AllRecordable, Max, Bounded;
    var keys := front + [key];
    SumsOneMore(plan, front, key);
    TalliedOneMore(plan, from, base, front, key);
    SomeShareOnlyOneMore(plan, front, key);
    SharesOneMore(plan, false, front, key);
    ShareOnlyHasNoCum(plan, key);
    LargestCumIs(plan, front);
    BoundedOneMore(from, LargestCum(plan, front), plan.report(key).cumQty,
      base + Shares(plan, true, Firsts(front)), base + Shares(plan, false, Firsts(front)),
      base + Shares(plan, true, Firsts(keys)), base + Shares(plan, false, Firsts(keys)),
      Tallied(plan, from, base, front), SomeShareOnly(plan, front), ShareOnly(plan, key));
  }

  /** `low` and `high` are the shares without and with the rest before the delivery,
      `lower` and `higher` after it. */
  lemma BoundedOneMore(from: real, most: real, cum: real, low: real, high: real, lower: real, higher: real, before: real,
                       some: bool, lone: bool)
    requires 0.0 <= from && 0.0 <= most && (lone <==> cum <= 0.0)
    requires high <= higher && lower <= higher && (!lone ==> lower == low)
    requires Bounded(some, from, most, low, high, before)
    ensures Bounded(some || lone, from, Max(most, cum), lower, higher, if lone then Max(before, higher) else Max(before, cum))
  {}

  lemma ShareOnlyHasNoCum(plan: Plan, key: ExecKey)
    ensures ShareOnly(plan, key) <==> plan.report(key).cumQty <= 0.0
  {}

  // ---- When the order of delivery does not matter ----

  /** No execution lacks a cumulative quantity, or all shares together come to no more
      than what the order started with, the largest cumulative quantity, and the shares
      of the executions without one. */
  predicate Settled(plan: Plan, from: real, base: real, keys: seq<ExecKey>) {
    SomeShareOnly(plan, keys) ==>
      base + Shares(plan, false, keys) <= Most(from, LargestCum(plan, keys), base + Shares(plan, true, keys))
  }

  lemma SettledTally(plan: Plan, from: real, base: real, keys: seq<ExecKey>, es: seq<ExecKey>)
    requires AllRecordable(plan, es) && NoneTwice(es) && 0.0 <= from && SameKeys(keys, es) && Settled(plan, from, base, es)
    ensures Tallied(plan, from, base, keys)
         == if SomeShareOnly(plan, es) then Most(from, LargestCum(plan, es), base + Shares(plan, true, es))
            else Max(from, LargestCum(plan, es))
  {
    hide Recordable, Shares, LargestCum, Tallied, ShareOnly;
    SameKeysFacts(plan, keys, es);
    TalliedBetween(plan, from, base, keys);
    SharesOfSet(plan, true, Firsts(keys), es);
    SharesOfSet(plan, false, Firsts(keys), es);
    LargestCumOfSet(plan, keys, es);
  }

  lemma SameKeysFacts(plan: Plan, a: seq<ExecKey>, b: seq<ExecKey>)
    requires SameKeys(a, b)
    ensures AllRecordable(plan, b) ==> AllRecordable(plan, a)
    ensures SomeShareOnly(plan, a) <==> SomeShareOnly(plan, b)
  {
    hide Recordable, ShareOnly;
    if AllRecordable(plan, b) {
      forall i | 0 <= i < |a| ensures Recordable(plan.report(a[i])) {
        assert a[i] in b;
      }
    }
    if SomeShareOnly(plan, a) {
      var i :| 0 <= i < |a| && ShareOnly(plan, a[i]);
      assert a[i] in b;
    }
    if SomeShareOnly(plan, b) {
      var i :| 0 <= i < |b| && ShareOnly(plan, b[i]);
      assert b[i] in a;
    }
  }

  // ---- The two extreme orders ----

  /** The executions without a cumulative quantity, or those with one. */
  function Part(plan: Plan, lone: bool, keys: seq<ExecKey>): (r: seq<ExecKey>)
    ensures forall key :: key in r <==> key in keys && (ShareOnly(plan, key) <==> lone)
    ensures NoneTwice(keys) ==> NoneTwice(r)
  {
    if keys == [] then []
    else
      var n := |keys| - 1;
      assert keys == keys[..n] + [keys[n]];
      var front := Part(plan, lone, keys[..n]);
      if ShareOnly(plan, keys[n]) == lone then front + [keys[n]] else front
  }

  lemma PartsTogether(plan: Plan, lone: bool, keys: seq<ExecKey>)
    requires NoneTwice(keys)
    ensures var all := Part(plan, lone, keys) + Part(plan, !lone, keys); NoneTwice(all) && SameKeys(all, keys)
  {
    hide ShareOnly;
    var x, y := Part(plan, lone, keys), Part(plan, !lone, keys);
    forall i, j | 0 <= i < |x| && 0 <= j < |y| ensures x[i] != y[j] {
      assert x[i] in x && y[j] in y;
    }
  }

  lemma {:induction false} PartShares(plan: Plan, keys: seq<ExecKey>)
    ensures Shares(plan, false, Part(plan, true, keys)) == Shares(plan, true, keys)
  {
    hide ShareOnly;
    if keys != [] {
      var n := |keys| - 1;
      PartShares(plan, keys[..n]);
      SharesOneMore(plan, false, Part(plan, true, keys[..n]), keys[n]);
    }
  }

  /** Adding executions with a cumulative quantity to others counts no shares. */
  lemma {:induction false} CumsLast(plan: Plan, from: real, base: real, lone: seq<ExecKey>, cums: seq<ExecKey>)
    requires forall i :: 0 <= i < |cums| ==> !ShareOnly(plan, cums[i])
    ensures Tallied(plan, from, base, lone + cums) <= Max(Tallied(plan, from, base, lone), LargestCum(plan, cums))
  {
    if cums == [] {
      assert lone + cums == lone;
    } else {
      var n := |cums| - 1;
      assert lone + cums == lone + cums[..n] + [cums[n]];
      CumsLast(plan, from, base, lone, cums[..n]);
      TalliedOneMore(plan, from, base, lone + cums[..n], cums[n]);
    }
  }

  lemma {:induction false} NoCumsNoLargest(plan: Plan, keys: seq<ExecKey>)
    requires forall i :: 0 <= i < |keys| ==> ShareOnly(plan, keys[i])
    ensures LargestCum(plan, keys) == 0.0
  {
    if keys != [] {
      NoCumsNoLargest(plan, keys[..|keys| - 1]);
    }
  }

  lemma PartMembers(plan: Plan, lone: bool, keys: seq<ExecKey>)
    ensures forall i :: 0 <= i < |Part(plan, lone, keys)| ==> (ShareOnly(plan, Part(plan, lone, keys)[i]) <==> lone)
    ensures forall i :: 0 <= i < |Part(plan, lone, keys)| ==> Part(plan, lone, keys)[i] in keys
    ensures lone && SomeShareOnly(plan, keys) ==> Part(plan, lone, keys) != []
  {
    var part := Part(plan, lone, keys);
    forall i | 0 <= i < |part| ensures (ShareOnly(plan, part[i]) <==> lone) && part[i] in keys {
      assert part[i] in part;
    }
    if lone && SomeShareOnly(plan, keys) {
      var i :| 0 <= i < |keys| && ShareOnly(plan, keys[i]);
      assert keys[i] in keys && keys[i] in part;
    }
  }

  lemma PartRecordable(plan: Plan, lone: bool, keys: seq<ExecKey>)
    requires AllRecordable(plan, keys)
    ensures AllRecordable(plan, Part(plan, lone, keys))
  {
    PartMembers(plan, lone, keys);
  }

  lemma PartLargest(plan: Plan, keys: seq<ExecKey>)
    ensures LargestCum(plan, Part(plan, false, keys)) <= LargestCum(plan, keys)
  {
    hide ShareOnly;
    LargestCumIs(plan, Part(plan, false, keys));
    LargestCumIs(plan, keys);
  }

  /** Share-only executions first give the least. */
  lemma ShareOnlyFirst(plan: Plan, from: real, base: real, es: seq<ExecKey>)
    requires AllRecordable(plan, es) && NoneTwice(es) && 0.0 <= from
    ensures
      var keys := Part(plan, true, es) + Part(plan, false, es);
      Tallied(plan, from, base, keys) <= Most(from, LargestCum(plan, es), base + Shares(plan, true, es))
  {
    hide ShareOnly, Recordable, Tallied, LargestCum, Shares, NoneTwice, AllRecordable, SomeShareOnly, Part, Max;
    var lone, cums := Part(plan, true, es), Part(plan, false, es);
    PartMembers(plan, true, es);
    PartMembers(plan, false, es);
    PartRecordable(plan, true, es);
    FirstsOfDistinct(lone);
    TalliedBetween(plan, from, base, lone);
    NoCumsNoLargest(plan, lone);
    PartShares(plan, es);
    CumsLast(plan, from, base, lone, cums);
    PartLargest(plan, es);
    LargestCumIs(plan, es);
    AtMostMost(from, base + Shares(plan, true, es), Tallied(plan, from, base, lone), LargestCum(plan, cums), LargestCum(plan, es));
  }

  lemma AtMostMost(from: real, low: real, lone: real, some: real, most: real)
    requires 0.0 <= from && 0.0 <= most && some <= most
    requires lone <= Most(from, 0.0, low) || lone == Max(from, 0.0)
    ensures Max(lone, some) <= Most(from, most, low)
  {}

  /** Share-only executions last give the most. */
  lemma ShareOnlyLast(plan: Plan, from: real, base: real, es: seq<ExecKey>)
    requires NoneTwice(es) && SomeShareOnly(plan, es)
    ensures
      var keys := Part(plan, false, es) + Part(plan, true, es);
      base + Shares(plan, false, es) <= Tallied(plan, from, base, keys)
  {
    hide ShareOnly, LargestCum, Shares;
    var lone, cums := Part(plan, true, es), Part(plan, false, es);
    PartMembers(plan, true, es);
    PartsTogether(plan, false, es);
    var keys := cums + lone;
    assert keys[|keys| - 1] == lone[|lone| - 1];
    FirstsOfDistinct(keys);
    SharesOfSet(plan, false, keys, es);
  }

  /** Any two orders of delivery, with repetitions, come to the same exactly when the
      executions are settled. */
  lemma TallyIff(plan: Plan, from: real, base: real, es: seq<ExecKey>)
    requires AllRecordable(plan, es) && NoneTwice(es) && 0.0 <= from
    ensures Settled(plan, from, base, es)
       <==> forall a, b :: SameKeys(a, es) && SameKeys(b, es) ==> Tallied(plan, from, base, a) == Tallied(plan, from, base, b)
  {
    hide Tallied, LargestCum, Shares, Recordable, ShareOnly, SomeShareOnly, SameKeys, Part, NoneTwice, AllRecordable;
    if Settled(plan, from, base, es) {
      forall a, b | SameKeys(a, es) && SameKeys(b, es) ensures Tallied(plan, from, base, a) == Tallied(plan, from, base, b) {
        SettledTally(plan, from, base, a, es);
        SettledTally(plan, from, base, b, es);
      }
    } else {
      PartsTogether(plan, true, es);
      PartsTogether(plan, false, es);
      ShareOnlyFirst(plan, from, base, es);
      ShareOnlyLast(plan, from, base, es);
    }
  }

  // ---- Orders ----

  /** What one execution report does to the quantities, new or repeated. */
  lemma ExecutionQuantities(o: OmsOrder, key: ExecKey, isNew: bool, r: Report, buffered: Option<real>)
    requires Recordable(r)
    ensures var after := OmsOrders.OnExecution(o, key, isNew, r, buffered);
      && after.quantity == o.quantity
      && after.executions == (if isNew then o.executions + [Record(key, r.shares, r.price.value, buffered)] else o.executions)
      && after.filled == Max(o.filled, if r.cumQty > 0.0 then r.cumQty else SharesOf(after.executions))
      && after.remaining == Max(0.0, o.quantity - after.filled)
      && after.status == (if Terminal(o.status) then o.status else if after.filled >= o.quantity then Filled
                          else if after.filled > 0.0 then PartiallyFilled else o.status)
  {
    hide Counted, WeightedAverage, CommissionOf, SharesOf;
    CountedQuantities(o, r, isNew);
    NextShares(o.executions, Record(key, r.shares, r.price.value, buffered));
  }

  lemma NextShares(records: seq<Record>, r: Record)
    ensures SharesOf(records + [r]) == SharesOf(records) + r.quantity
  {
    assert (records + [r])[..|records|] == records;
  }

  lemma CountedQuantities(o: OmsOrder, r: Report, isNew: bool)
    requires r.shares > 0.0
    ensures var after := Counted(o, r, isNew);
      && after.quantity == o.quantity && after.executions == o.executions
      && after.filled
         == Max(o.filled, if r.cumQty > 0.0 then r.cumQty else SharesOf(o.executions) + (if isNew then r.shares else 0.0))
      && after.remaining == Max(0.0, o.quantity - after.filled)
      && after.status == (if Terminal(o.status) then o.status else if after.filled >= o.quantity then Filled
                          else if after.filled > 0.0 then PartiallyFilled else o.status)
  {
    hide SharesOf, Usable;
  }

  /** What an order comes to after these deliveries: filled as tallied, and remaining and
      status with it. */
  ghost predicate Tallies(plan: Plan, init: OmsOrder, o: OmsOrder, keys: seq<ExecKey>) {
    && o.quantity == init.quantity
    && o.filled == Tallied(plan, init.filled, SharesOf(init.executions), keys)
    && SharesOf(o.executions) == SharesOf(init.executions) + Shares(plan, false, Firsts(keys))
    && o.remaining == (if keys == [] then init.remaining else Max(0.0, o.quantity - o.filled))
    && o.status == (if keys == [] || Terminal(init.status) then init.status else if o.filled >= o.quantity then Filled
                    else if o.filled > 0.0 then PartiallyFilled else init.status)
  }

  lemma TalliesNothing(plan: Plan, o: OmsOrder)
    ensures Tallies(plan, o, o, [])
  {}

  lemma TalliesOneMore(plan: Plan, init: OmsOrder, o: OmsOrder, keys: seq<ExecKey>, key: ExecKey, isNew: bool, r: Report,
                       buffered: Option<real>)
    requires Tallies(plan, init, o, keys) && (isNew <==> key !in keys)
    requires Recordable(r) && SamePayload(r, plan.report(key))
    ensures Tallies(plan, init, OmsOrders.OnExecution(o, key, isNew, r, buffered), keys + [key])
  {
    hide OmsOrders.OnExecution, Recordable, Tallied, Firsts, Shares;
    var after := OmsOrders.OnExecution(o, key, isNew, r, buffered);
    ExecutionQuantities(o, key, isNew, r, buffered);
    TalliedOneMore(plan, init.filled, SharesOf(init.executions), keys, key);
    FirstsOneMore(keys, key);
    SharesOneMore(plan, false, Firsts(keys), key);
    if isNew {
      assert after.executions[..|o.executions|] == o.executions;
    }
  }

  /** The order after these deliveries, each new the first time. */
  function Delivered(plan: Plan, o: OmsOrder, keys: seq<ExecKey>): OmsOrder {
    if keys == [] then o
    else
      var n := |keys| - 1;
      OmsOrders.OnExecution(Delivered(plan, o, keys[..n]), keys[n], keys[n] !in keys[..n], plan.report(keys[n]), None)
  }

  lemma {:induction false} DeliveredTallies(plan: Plan, o: OmsOrder, keys: seq<ExecKey>)
    requires AllRecordable(plan, keys)
    ensures Tallies(plan, o, Delivered(plan, o, keys), keys)
  {
    hide Tallies, Recordable, OmsOrders.OnExecution;
    if keys == [] {
      TalliesNothing(plan, o);
    } else {
      var n := |keys| - 1;
      DeliveredTallies(plan, o, keys[..n]);
      assert keys == keys[..n] + [keys[n]];
      TalliesOneMore(plan, o, Delivered(plan, o, keys[..n]), keys[..n], keys[n], keys[n] !in keys[..n], plan.report(keys[n]), None);
    }
  }

  predicate SameQuantities(x: OmsOrder, y: OmsOrder) {
    x.filled == y.filled && x.remaining == y.remaining && x.status == y.status
  }

  lemma SameTallies(plan: Plan, init: OmsOrder, x: OmsOrder, y: OmsOrder, a: seq<ExecKey>, b: seq<ExecKey>)
    requires Tallies(plan, init, x, a) && Tallies(plan, init, y, b) && SameKeys(a, b)
    ensures var base := SharesOf(init.executions);
      SameQuantities(x, y) <==> Tallied(plan, init.filled, base, a) == Tallied(plan, init.filled, base, b)
  {
    NoKeys(a);
    NoKeys(b);
  }

  /** All deliveries of an order's executions, reordered and repeated at will, leave the
      same filled and remaining quantities and status exactly when no execution lacks a
      cumulative quantity, or all recorded shares come to no more than the filled quantity
      at the start, the largest cumulative quantity, and the shares recorded before with
      those of the executions without one. */
  lemma DeliveriesAgreeIff(plan: Plan, o: OmsOrder, es: seq<ExecKey>)
    requires AllRecordable(plan, es) && NoneTwice(es) && 0.0 <= o.filled
    ensures
      (forall a, b :: SameKeys(a, es) && SameKeys(b, es) ==> SameQuantities(Delivered(plan, o, a), Delivered(plan, o, b)))
      <==> Settled(plan, o.filled, SharesOf(o.executions), es)
  {
    hide Tallied, Settled, Delivered, Tallies, AllRecordable, NoneTwice, SameQuantities, SharesOf;
    TallyIff(plan, o.filled, SharesOf(o.executions), es);
    forall a, b | SameKeys(a, es) && SameKeys(b, es)
      ensures SameQuantities(Delivered(plan, o, a), Delivered(plan, o, b))
         <==> Tallied(plan, o.filled, SharesOf(o.executions), a) == Tallied(plan, o.filled, SharesOf(o.executions), b)
    {
      SameKeysFacts(plan, a, es);
      SameKeysFacts(plan, b, es);
      DeliveredTallies(plan, o, a);
      DeliveredTallies(plan, o, b);
      SameTallies(plan, o, Delivered(plan, o, a), Delivered(plan, o, b), a, b);
    }
  }

  // ---- Runs ----

  /** Only executions and commissions. */
  predicate FillsRun(cs: seq<Callback>) {
    forall i :: 0 <= i < |cs| ==> cs[i].ExecDetails? || cs[i].CommissionReport?
  }

  /** The executions of order `k` in a run, as delivered. */
  function KeysOf(plan: Plan, k: nat, cs: seq<Callback>): seq<ExecKey> {
    if cs == [] then []
    else (if cs[0].ExecDetails? && plan.owner(Given(cs[0].execId)) == k then [Given(cs[0].execId)] else []) + KeysOf(plan, k, cs[1..])
  }

  lemma {:induction false} KeysOfExecuted(plan: Plan, k: nat, cs: seq<Callback>)
    ensures forall key :: key in KeysOf(plan, k, cs) <==> key in Executed(cs) && plan.owner(key) == k
  {
    if cs != [] {
      KeysOfExecuted(plan, k, cs[1..]);
    }
  }

  /** The adapter has seen exactly these executions of order `k`. */
  ghost predicate SeenAre(plan: Plan, s: State, k: nat, keys: seq<ExecKey>) {
    forall key :: plan.owner(key) == k ==> (key in s.seen <==> key in keys)
  }

  lemma TalliesRebound(plan: Plan, init: OmsOrder, o: OmsOrder, rebound: OmsOrder, keys: seq<ExecKey>)
    requires Tallies(plan, init, o, keys) && rebound == o.(twsId := rebound.twsId)
    ensures Tallies(plan, init, rebound, keys)
  {}

  lemma ExecutionStepTallies(plan: Plan, init: OmsOrder, s: State, c: Callback, keys: seq<ExecKey>, k: nat)
    requires c.ExecDetails? && IdsConsistent(s) && Follows(plan, s, c) && k < |s.orders|
    requires Tallies(plan, init, s.orders[k], keys) && SeenAre(plan, s, k, keys)
    ensures
      var after, key := OnExecDetails(s, c), Given(c.execId);
      var now := if plan.owner(key) == k then keys + [key] else keys;
      |after.orders| == |s.orders| && Tallies(plan, init, after.orders[k], now) && SeenAre(plan, after, k, now)
  {
    hide Target, Resolve, Tallies, OmsOrders.OnExecution, Execute, Recordable;
    var q := Offered(c.report.shares);
    ResolveTouchesOnlyTarget(s, c.id, c.report.permId, c.conId, c.side, q);
    ResolveTables(s, c.id, c.report.permId, c.conId, c.side, q);
    var key := Given(c.execId);
    var owner, bound := plan.owner(key), Resolve(s, c.id, c.report.permId, c.conId, c.side, q);
    assert OnExecDetails(s, c) == Execute(bound, owner, c.execId, c.report);
    ExecuteOne(bound, owner, c.execId, c.report);
    ExecuteTables(bound, owner, c.execId, c.report);
    assert KeyFor(bound.orders[owner], c.execId, c.report) == key;
    if owner == k {
      TalliesRebound(plan, init, s.orders[k], bound.orders[k], keys);
      var isNew := key !in bound.seen;
      var buffered := if isNew && Recordable(c.report) && key in bound.pending then Some(bound.pending[key]) else None;
      TalliesOneMore(plan, init, bound.orders[k], keys, key, isNew, c.report, buffered);
    }
  }

  lemma {:induction false} SharesStand(before: seq<Record>, after: seq<Record>)
    requires |after| == |before| && forall i :: 0 <= i < |before| ==> after[i].quantity == before[i].quantity
    ensures SharesOf(after) == SharesOf(before)
  {
    if before != [] {
      SharesStand(before[..|before| - 1], after[..|after| - 1]);
    }
  }

  lemma CommissionStepTallies(plan: Plan, init: OmsOrder, s: State, execId: string, raw: Option<real>, keys: seq<ExecKey>, k: nat)
    requires IdsConsistent(s) && k < |s.orders| && Tallies(plan, init, s.orders[k], keys) && SeenAre(plan, s, k, keys)
    ensures
      var after := OnCommissionReport(s, execId, raw);
      |after.orders| == |s.orders| && Tallies(plan, init, after.orders[k], keys) && SeenAre(plan, after, k, keys)
  {
    hide Usable, CommissionOf, SharesOf, RecordIndex, Tallied, Shares, Firsts;
    SharesStand(s.orders[k].executions, OnCommissionReport(s, execId, raw).orders[k].executions);
  }

  lemma KeysOfOne(plan: Plan, k: nat, c: Callback)
    ensures KeysOf(plan, k, [c]) == if c.ExecDetails? && plan.owner(Given(c.execId)) == k then [Given(c.execId)] else []
  {
    assert [c][1..] == [];
    assert KeysOf(plan, k, []) == [];
  }

  lemma StepTallies(plan: Plan, init: OmsOrder, s: State, c: Callback, keys: seq<ExecKey>, k: nat)
    requires IdsConsistent(s) && Follows(plan, s, c) && FillsRun([c]) && k < |s.orders|
    requires Tallies(plan, init, s.orders[k], keys) && SeenAre(plan, s, k, keys)
    ensures
      var now := keys + KeysOf(plan, k, [c]);
      && |Step(s, c).orders| == |s.orders|
      && Tallies(plan, init, Step(s, c).orders[k], now) && SeenAre(plan, Step(s, c), k, now)
  {
    hide Tallies, OnExecDetails, OnCommissionReport, OnOrderStatus, OnOpenOrder, SeenAre;
    var now := keys + KeysOf(plan, k, [c]);
    KeysOfOne(plan, k, c);
    if c.ExecDetails? {
      var key := Given(c.execId);
      assert now == (if plan.owner(key) == k then keys + [key] else keys);
      ExecutionStepTallies(plan, init, s, c, keys, k);
    } else {
      assert c.CommissionReport?;
      assert now == keys;
      CommissionStepTallies(plan, init, s, c.execId, c.commission, keys, k);
    }
  }

  lemma {:induction false} RunTallies(plan: Plan, init: OmsOrder, s: State, cs: seq<Callback>, keys: seq<ExecKey>, k: nat)
    requires IdsConsistent(s) && AdmissibleAlong(s, cs) && FollowsAlong(plan, s, cs) && FillsRun(cs) && k < |s.orders|
    requires Tallies(plan, init, s.orders[k], keys) && SeenAre(plan, s, k, keys)
    ensures |Run(s, cs).orders| == |s.orders| && Tallies(plan, init, Run(s, cs).orders[k], keys + KeysOf(plan, k, cs))
    ensures AllRecordable(plan, KeysOf(plan, k, cs))
    decreases |cs|
  {
    hide Admissible, Tallies, Follows, Step, SeenAre, Recordable;
    if cs == [] {
      assert keys + [] == keys;
    } else {
      StepConsistent(s, cs[0]);
      assert [cs[0]][0] == cs[0] && [cs[0]][1..] == [];
      StepTallies(plan, init, s, cs[0], keys, k);
      var now := keys + KeysOf(plan, k, [cs[0]]);
      RunTallies(plan, init, Step(s, cs[0]), cs[1..], now, k);
      assert now + KeysOf(plan, k, cs[1..]) == keys + KeysOf(plan, k, cs);
      if cs[0].ExecDetails? {
        FollowedIsRecordable(plan, s, cs[0]);
      }
    }
  }

  lemma FollowedIsRecordable(plan: Plan, s: State, c: Callback)
    requires c.ExecDetails? && InRange(s) && Follows(plan, s, c)
    ensures Recordable(plan.report(Given(c.execId))) && c.report.cumQty == plan.report(Given(c.execId)).cumQty
  {}

  /** Two runs of the same executions, in any order and repetition and with commissions in
      between, leave the same filled and remaining quantities and status on every order
      whose executions are settled. */
  lemma SettledFillsAreConfluent(plan: Plan, s: State, a: seq<Callback>, b: seq<Callback>, k: nat)
    requires IdsConsistent(s) && s.seen == {} && k < |s.orders| && 0.0 <= s.orders[k].filled
    requires AdmissibleAlong(s, a) && AdmissibleAlong(s, b) && FollowsAlong(plan, s, a) && FollowsAlong(plan, s, b)
    requires FillsRun(a) && FillsRun(b) && Executed(a) == Executed(b)
    requires Settled(plan, s.orders[k].filled, SharesOf(s.orders[k].executions), Firsts(KeysOf(plan, k, a)))
    ensures |Run(s, a).orders| == |Run(s, b).orders| == |s.orders|
    ensures SameQuantities(Run(s, a).orders[k], Run(s, b).orders[k])
  {
    hide Run, Tallies, Settled, Tallied, AllRecordable, SameQuantities, SharesOf, Firsts, KeysOf, LargestCum, Shares, SomeShareOnly,
         Max, Most, NoneTwice, FollowsAlong, AdmissibleAlong;
    var o := s.orders[k];
    TalliesNothing(plan, o);
    RunTallies(plan, o, s, a, [], k);
    RunTallies(plan, o, s, b, [], k);
    var x, y := KeysOf(plan, k, a), KeysOf(plan, k, b);
    assert [] + x == x && [] + y == y;
    KeysOfExecuted(plan, k, a);
    KeysOfExecuted(plan, k, b);
    SameKeysFacts(plan, Firsts(x), x);
    SettledTally(plan, o.filled, SharesOf(o.executions), x, Firsts(x));
    SettledTally(plan, o.filled, SharesOf(o.executions), y, Firsts(x));
    SameTallies(plan, o, Run(s, a).orders[k], Run(s, b).orders[k], x, y);
  }

  /** Each execution with its cumulative quantity. */
  predicate CumulativeOnly(cs: seq<Callback>) {
    forall i :: 0 <= i < |cs| && cs[i].ExecDetails? ==> 0.0 < cs[i].report.cumQty
  }

  /** No execution with a cumulative quantity. */
  predicate SharesOnly(cs: seq<Callback>) {
    forall i :: 0 <= i < |cs| && cs[i].ExecDetails? ==> cs[i].report.cumQty <= 0.0
  }

  lemma {:induction false} KeysOfKind(plan: Plan, s: State, cs: seq<Callback>, k: nat)
    requires IdsConsistent(s) && AdmissibleAlong(s, cs) && FollowsAlong(plan, s, cs)
    ensures CumulativeOnly(cs) ==> forall i :: 0 <= i < |KeysOf(plan, k, cs)| ==> !ShareOnly(plan, KeysOf(plan, k, cs)[i])
    ensures SharesOnly(cs) ==> forall i :: 0 <= i < |KeysOf(plan, k, cs)| ==> ShareOnly(plan, KeysOf(plan, k, cs)[i])
    decreases |cs|
  {
    hide Admissible, Follows, Step;
    if cs != [] {
      StepConsistent(s, cs[0]);
      KeysOfKind(plan, Step(s, cs[0]), cs[1..], k);
      if cs[0].ExecDetails? {
        FollowedIsRecordable(plan, s, cs[0]);
      }
    }
  }

  /** Runs in which every execution carries its cumulative quantity are confluent. */
  lemma FillsAreConfluent(plan: Plan, s: State, a: seq<Callback>, b: seq<Callback>, k: nat)
    requires IdsConsistent(s) && s.seen == {} && k < |s.orders| && 0.0 <= s.orders[k].filled
    requires AdmissibleAlong(s, a) && AdmissibleAlong(s, b) && FollowsAlong(plan, s, a) && FollowsAlong(plan, s, b)
    requires FillsRun(a) && FillsRun(b) && Executed(a) == Executed(b) && CumulativeOnly(a)
    ensures |Run(s, a).orders| == |Run(s, b).orders| == |s.orders|
    ensures SameQuantities(Run(s, a).orders[k], Run(s, b).orders[k])
  {
    hide Run, SameQuantities, ShareOnly;
    KeysOfKind(plan, s, a, k);
    SameKeysFacts(plan, Firsts(KeysOf(plan, k, a)), KeysOf(plan, k, a));
    SettledFillsAreConfluent(plan, s, a, b, k);
  }

  lemma {:induction false} AllLone(plan: Plan, keys: seq<ExecKey>)
    requires forall i :: 0 <= i < |keys| ==> ShareOnly(plan, keys[i])
    ensures Shares(plan, true, keys) == Shares(plan, false, keys)
  {
    if keys != [] {
      AllLone(plan, keys[..|keys| - 1]);
    }
  }

  /** Runs in which none carries one are confluent: the recorded shares add up. */
  lemma ShareFillsAreConfluent(plan: Plan, s: State, a: seq<Callback>, b: seq<Callback>, k: nat)
    requires IdsConsistent(s) && s.seen == {} && k < |s.orders| && 0.0 <= s.orders[k].filled
    requires AdmissibleAlong(s, a) && AdmissibleAlong(s, b) && FollowsAlong(plan, s, a) && FollowsAlong(plan, s, b)
    requires FillsRun(a) && FillsRun(b) && Executed(a) == Executed(b) && SharesOnly(a)
    ensures |Run(s, a).orders| == |Run(s, b).orders| == |s.orders|
    ensures SameQuantities(Run(s, a).orders[k], Run(s, b).orders[k])
  {
    hide Run, SameQuantities, ShareOnly, LargestCum, Shares;
    KeysOfKind(plan, s, a, k);
    var keys := KeysOf(plan, k, a);
    forall i | 0 <= i < |Firsts(keys)| ensures ShareOnly(plan, Firsts(keys)[i]) {
      assert Firsts(keys)[i] in keys;
    }
    AllLone(plan, Firsts(keys));
    SettledFillsAreConfluent(plan, s, a, b, k);
  }

  // ---- Mixtures ----

  /** An execution of shares without a cumulative quantity and one of 5 shares at a
      cumulative 1: the order decides. */
  lemma MixedFillsAreNotConfluent(o: OmsOrder, first: Report, second: Report)
    requires o.executions == [] && o.filled == 0.0
    requires first == Report(1.0, Some(10.0), 0.0, None, 0) && second == Report(5.0, Some(10.0), 1.0, None, 0)
    ensures
      var there := OmsOrders.OnExecution(OmsOrders.OnExecution(o, Given("a"), true, first, None), Given("b"), true, second, None);
      var back := OmsOrders.OnExecution(OmsOrders.OnExecution(o, Given("b"), true, second, None), Given("a"), true, first, None);
      there.filled == 1.0 && back.filled == 6.0
  {
    TwoExecutions(o, Given("a"), first, Given("b"), second);
    TwoExecutions(o, Given("b"), second, Given("a"), first);
  }

  /** And so it does where the cumulative quantity agrees with its own shares. */
  lemma ConsistentFillsAreNotConfluent(o: OmsOrder, first: Report, second: Report)
    requires o.executions == [] && o.filled == 0.0
    requires first == Report(1.0, Some(10.0), 1.0, None, 0) && second == Report(5.0, Some(10.0), 0.0, None, 0)
    ensures
      var there := OmsOrders.OnExecution(OmsOrders.OnExecution(o, Given("a"), true, first, None), Given("b"), true, second, None);
      var back := OmsOrders.OnExecution(OmsOrders.OnExecution(o, Given("b"), true, second, None), Given("a"), true, first, None);
      there.filled == 6.0 && back.filled == 5.0
  {
    TwoExecutions(o, Given("a"), first, Given("b"), second);
    TwoExecutions(o, Given("b"), second, Given("a"), first);
  }

  lemma TwoExecutions(o: OmsOrder, a: ExecKey, x: Report, b: ExecKey, y: Report)
    requires o.executions == [] && Recordable(x) && Recordable(y)
    ensures
      var once := Max(o.filled, if x.cumQty > 0.0 then x.cumQty else x.shares);
      var one := OmsOrders.OnExecution(o, a, true, x, None);
      OmsOrders.OnExecution(one, b, true, y, None).filled == Max(once, if y.cumQty > 0.0 then y.cumQty else x.shares + y.shares)
  {
    hide OmsOrders.OnExecution;
    var one := OmsOrders.OnExecution(o, a, true, x, None);
    var p, q := Record(a, x.shares, x.price.value, None), Record(b, y.shares, y.price.value, None);
    ExecutionQuantities(o, a, true, x, None);
    ExecutionQuantities(one, b, true, y, None);
    NextShares([], p);
    NextShares(one.executions, q);
    assert one.executions == [] + [p];
    assert SharesOf(one.executions) == x.shares;
  }
}
