/** What a poll tells of each leg it reads: everything that changed, and nothing else. */
module StreamOutcomes {
  import opened Text
  import opened ChangeStream

  /** The leg is new to the reader or differs in what must not be missed. */
  predicate Changed(shot: map<Key, Payload>, p: Payload) {
    p.key in shot ==> !SameFields(shot[p.key], p)
  }

  /** Only its profit and loss differs from what was last told of it. */
  predicate PnlAlone(b: Bridge, shot: map<Key, Payload>, p: Payload) {
    !Changed(shot, p) && p.key in b.pnls && b.pnls[p.key] != p.pnl
  }

  lemma ChangedIff(b: Bridge, view: map<Key, Payload>, shot: map<Key, Payload>, p: Payload)
    requires Agrees(b, view, shot)
    ensures Changed(shot, p) <==> !SameStructure(b, p)
    ensures PnlAlone(b, shot, p) <==> OnlyPnlChanged(b, p)
  {
    assert AgreesAt(b, view, shot, p.key);
  }

  // ---- A changed leg is told ----

  /** Opening, closing under way, or an update. */
  function Told(b: Bridge, p: Payload): ChangeStream.Record {
    Record(if p.key !in b.status then PositionOpen else if p.closeInProgress then PositionPartialClose else PositionUpdate, p)
  }

  lemma {:induction false} ObserveLeavesLeg(b: Bridge, payloads: seq<Payload>, p: Payload)
    requires b.ready && p.key !in Keys(payloads)
    ensures var s := ObserveAll(b, payloads);
      && s.bridge.ready && (SameStructure(s.bridge, p) <==> SameStructure(b, p))
      && (p.key in s.bridge.status <==> p.key in b.status)
      && (p.key in b.status ==> s.bridge.status[p.key] == b.status[p.key])
  {
    if payloads != [] {
      hide Nominate, Classify, SamePnl;
      KeysOneMore(payloads, p.key);
      ObserveLeavesLeg(b, payloads[..|payloads| - 1], p);
    }
  }

  lemma {:induction false} ObserveTellsChanged(b: Bridge, payloads: seq<Payload>, p: Payload)
    requires b.ready && WellRead(payloads) && p in payloads && !SameStructure(b, p)
    ensures Told(b, p) in ObserveAll(b, payloads).emitted
  {
    hide Keys, SameStructure, SamePnl, Nominate, Remember;
    var n := |payloads| - 1;
    if payloads[n] == p {
      LastKeyIsNew(payloads);
      ObserveLeavesLeg(b, payloads[..n], p);
    } else {
      assert payloads == payloads[..n] + [payloads[n]];
      ObserveTellsChanged(b, payloads[..n], p);
    }
  }

  lemma {:induction false} TellsKeep(s: Polling, n: nat, payloads: seq<Payload>, now: real, interval: real)
    requires n <= |s.pnlOnly|
    ensures s.emitted <= TellPnls(s, n, payloads, now, interval).emitted
  {
    if n > 0 {
      TellsKeep(s, n - 1, payloads, now, interval);
    }
  }

  lemma {:induction false} ClosesKeep(s: Polling, keys: seq<Key>, reloaded: map<Key, Payload>)
    ensures s.emitted <= CloseAll(s, keys, reloaded).emitted
  {
    if keys != [] {
      ClosesKeep(s, keys[..|keys| - 1], reloaded);
    }
  }

  /** A leg that changed is told as what it is. */
  lemma ChangedIsTold(b: Bridge, view: map<Key, Payload>, shot: map<Key, Payload>, r: Reading, interval: real, p: Payload)
    requires b.ready && Agrees(b, view, shot) && WellRead(r.payloads) && p in r.payloads && Changed(shot, p)
    ensures Told(b, p) in Poll(b, r, interval).emitted
  {
    hide Agrees, Changed, ObserveAll, TellPnls, CloseAll, Vanished, WellRead, Told;
    ChangedIff(b, view, shot, p);
    ObserveTellsChanged(b, r.payloads, p);
    var s := ObserveAll(b, r.payloads);
    TellsKeep(s, |s.pnlOnly|, r.payloads, r.now, interval);
    var told := TellPnls(s, |s.pnlOnly|, r.payloads, r.now, interval);
    ClosesKeep(told, Vanished(told.bridge, told.bridge.known, Keys(r.payloads)), r.reloaded);
  }

  // ---- A leg that did not change is not ----

  lemma {:induction false} ObserveSkipsUnchanged(b: Bridge, payloads: seq<Payload>, p: Payload)
    requires b.ready && WellRead(payloads) && SameStructure(b, p)
    requires OnlyLegOfKey(payloads, p)
    ensures !Carries(ObserveAll(b, payloads).emitted, p.key)
  {
    hide Keys, SameStructure, SamePnl, Nominate, Remember, Carries, Classify;
    if payloads == [] {
      CarriesNothing(p.key);
    } else {
      var n := |payloads| - 1;
      var s, q := ObserveAll(b, payloads[..n]), payloads[n];
      ObserveSkipsUnchanged(b, payloads[..n], p);
      LastKeyIsNew(payloads);
      if q.key == p.key {
        assert q in payloads;
        ObserveLeavesLeg(b, payloads[..n], p);
      } else {
        ObserveCarries(s, q, p.key);
      }
    }
  }

  lemma {:induction false} TellsOnlyNominated(s: Polling, n: nat, payloads: seq<Payload>, now: real, interval: real, k: Key)
    requires n <= |s.pnlOnly| && forall i :: 0 <= i < |s.pnlOnly| ==> s.pnlOnly[i].key != k
    ensures Carries(TellPnls(s, n, payloads, now, interval).emitted, k) <==> Carries(s.emitted, k)
  {
    hide Carries, MarkTold;
    if n > 0 {
      TellsOnlyNominated(s, n - 1, payloads, now, interval, k);
      CarriesOneMore(TellPnls(s, n - 1, payloads, now, interval).emitted, Record(PositionUpdate, s.pnlOnly[n - 1]), k);
    }
  }

  lemma NominatedHaveChanged(b: Bridge, payloads: seq<Payload>, i: nat)
    requires b.ready && WellRead(payloads) && i < |ObserveAll(b, payloads).pnlOnly|
    ensures OnlyPnlChanged(b, ObserveAll(b, payloads).pnlOnly[i])
  {
    hide ObserveAll, WellRead, OnlyPnlChanged;
    var legs := ObserveAll(b, payloads).pnlOnly;
    NominatedIsLeast(b, payloads, legs[i].TradeOf());
    NomineeIs(legs, i);
  }

  /** A leg that changed in nothing is not told. */
  lemma UnchangedIsNotTold(b: Bridge, view: map<Key, Payload>, shot: map<Key, Payload>, r: Reading, interval: real, p: Payload)
    requires b.ready && Agrees(b, view, shot) && WellRead(r.payloads) && p in r.payloads
    requires !Changed(shot, p) && !PnlAlone(b, shot, p)
    ensures !Carries(Poll(b, r, interval).emitted, p.key)
  {
    hide Agrees, Changed, PnlAlone, ObserveAll, TellPnls, CloseAll, Vanished, WellRead, Carries, SameStructure, SamePnl, Nominated,
         OnlyLegOfKey, Keys, OnlyPnlChanged;
    ChangedIff(b, view, shot, p);
    WellReadOnlyLeg(r.payloads, p);
    ObserveSkipsUnchanged(b, r.payloads, p);
    var s := ObserveAll(b, r.payloads);
    forall i | 0 <= i < |s.pnlOnly| ensures s.pnlOnly[i].key != p.key {
      NominatedHaveChanged(b, r.payloads, i);
      NominatedLegs(b, r.payloads);
      SameKeySameLeg(r.payloads, s.pnlOnly, i, p);
    }
    TellsOnlyNominated(s, |s.pnlOnly|, r.payloads, r.now, interval, p.key);
    var told := TellPnls(s, |s.pnlOnly|, r.payloads, r.now, interval);
    assert p.key in Keys(r.payloads);
    CloseKeepsPending(told, Vanished(told.bridge, told.bridge.known, Keys(r.payloads)), r.reloaded, p);
  }

  lemma SameKeySameLeg(payloads: seq<Payload>, legs: seq<Payload>, i: nat, p: Payload)
    requires Nominated(legs, payloads) && OnlyLegOfKey(payloads, p) && i < |legs|
    ensures legs[i].key == p.key ==> legs[i] == p
  {}

  // ---- A leg whose profit and loss alone changed ----

  predicate SameTrade(p: Payload, q: Payload) {
    p.key.accountId == q.key.accountId && p.key.tradeId == q.key.tradeId
  }

  /** Such a leg is told exactly when its trade was last told on its own at least the
      interval ago and no such leg of the trade has a lesser symbol. */
  lemma PnlAloneToldIff(b: Bridge, view: map<Key, Payload>, shot: map<Key, Payload>, r: Reading, interval: real, p: Payload)
    requires b.ready && Agrees(b, view, shot) && WellRead(r.payloads) && p in r.payloads && PnlAlone(b, shot, p)
    ensures
      var t := Trade(p.key.accountId, p.key.tradeId);
      var last := if t in b.lastPnlEmit then b.lastPnlEmit[t] else 0.0;
      Carries(Poll(b, r, interval).emitted, p.key)
      <==> && r.now - last >= interval
           && forall q :: q in r.payloads && SameTrade(p, q) && PnlAlone(b, shot, q) ==> !Less(q.key.symbol, p.key.symbol)
  {
    hide Agrees, Poll, WellRead, OnlyPnlChanged, PnlAlone, Carries, Less;
    forall q: Payload ensures PnlAlone(b, shot, q) <==> OnlyPnlChanged(b, q) {
      ChangedIff(b, view, shot, q);
    }
    SwallowedIff(b, r, interval, p);
  }

  // ---- A leg that is gone ----

  predicate SameLast(b: Bridge, c: Bridge, k: Key) {
    (k in b.last <==> k in c.last) && (k in b.last ==> b.last[k] == c.last[k])
  }

  lemma {:induction false} ObserveLeavesLast(b: Bridge, payloads: seq<Payload>, k: Key)
    requires k !in Keys(payloads)
    ensures SameLast(b, ObserveAll(b, payloads).bridge, k)
  {
    if payloads != [] {
      hide Nominate, Classify, SamePnl, SameStructure;
      KeysOneMore(payloads, k);
      ObserveLeavesLast(b, payloads[..|payloads| - 1], k);
    }
  }

  lemma {:induction false} MarkLeavesLast(b: Bridge, payloads: seq<Payload>, t: Trade, k: Key)
    requires k !in Keys(payloads)
    ensures SameLast(b, MarkTold(b, payloads, t), k)
  {
    if payloads != [] {
      KeysOneMore(payloads, k);
      MarkLeavesLast(b, payloads[..|payloads| - 1], t, k);
    }
  }

  lemma {:induction false} TellsLeaveLast(s: Polling, n: nat, payloads: seq<Payload>, now: real, interval: real, k: Key)
    requires n <= |s.pnlOnly| && k !in Keys(payloads)
    ensures SameLast(s.bridge, TellPnls(s, n, payloads, now, interval).bridge, k)
  {
    if n > 0 {
      hide MarkTold, Keys;
      TellsLeaveLast(s, n - 1, payloads, now, interval, k);
      var before, t := TellPnls(s, n - 1, payloads, now, interval), s.pnlOnly[n - 1].TradeOf();
      MarkLeavesLast(before.bridge.(lastPnlEmit := before.bridge.lastPnlEmit[t := now]), payloads, t, k);
    }
  }

  /** The closing of a leg repeats its reloaded row, or else what was last read of it. */
  function Closing(b: Bridge, k: Key, reloaded: map<Key, Payload>): ChangeStream.Record
    requires k in reloaded || k in b.last
  {
    Record(PositionClosed, (if k in reloaded then reloaded[k] else b.last[k]).(key := k, status := "CLOSED"))
  }

  lemma {:induction false} ClosesTell(s: Polling, keys: seq<Key>, reloaded: map<Key, Payload>, k: Key)
    requires Distinct(keys) && (k in s.bridge.last || k in reloaded)
    ensures k in keys ==> Closing(s.bridge, k, reloaded) in CloseAll(s, keys, reloaded).emitted
    ensures k !in keys ==> SameLast(s.bridge, CloseAll(s, keys, reloaded).bridge, k)
  {
    if keys != [] {
      var n := |keys| - 1;
      ClosesTell(s, keys[..n], reloaded, k);
      assert keys == keys[..n] + [keys[n]];
      assert k == keys[n] ==> k !in keys[..n];
    }
  }

  /** Every leg that was there and is gone is told as closed. */
  lemma GoneIsClosed(b: Bridge, view: map<Key, Payload>, shot: map<Key, Payload>, r: Reading, interval: real, k: Key)
    requires b.ready && Agrees(b, view, shot) && WellRead(r.payloads) && k in shot && k !in Keys(r.payloads)
    ensures k in b.last && Closing(b, k, r.reloaded) in Poll(b, r, interval).emitted
  {
    hide Agrees, Fold, Nominated, ObserveAll, TellPnls, CloseAll, WellRead, Holds, Distinct, Vanished, Keys;
    LastIsKept(b, view, shot, k);
    var observed, grown := ObserveAll(b, r.payloads), SnapshotOf(shot, r.payloads);
    ObserveAllAgrees(b, view, shot, r.payloads);
    SnapshotHolds(shot, r.payloads);
    ObserveLeavesLast(b, r.payloads, k);
    var told := TellPnls(observed, |observed.pnlOnly|, r.payloads, r.now, interval);
    TellPnlsAgrees(observed, |observed.pnlOnly|, view, grown, r.payloads, r.now, interval);
    TellsLeaveLast(observed, |observed.pnlOnly|, r.payloads, r.now, interval, k);
    var keys := Vanished(told.bridge, told.bridge.known, Keys(r.payloads));
    VanishedAreGone(told.bridge, Fold(view, told.emitted), grown, r.payloads);
    assert k in keys <==> k in Elements(keys);
    ClosesTell(told, keys, r.reloaded, k);
  }

  lemma LastIsKept(b: Bridge, view: map<Key, Payload>, shot: map<Key, Payload>, k: Key)
    requires Agrees(b, view, shot) && k in shot
    ensures k in b.last
  {
    assert AgreesAt(b, view, shot, k);
  }
}
