/** The position change stream: polls are compared with what was last told, and only the
    differences are emitted. Folding the records gives back the snapshot. */
module ChangeStream {
  import opened Options
  import opened Text

  datatype Key = Key(accountId: nat, tradeId: string, symbol: string)
  datatype Trade = Trade(accountId: nat, tradeId: string)

  /** One leg as it is published. `details` stands for the remaining structural fields. */
  datatype Payload = Payload(
    key: Key, status: string, closeInProgress: bool, details: string,
    pnl: Option<string>, marketData: string, timestamp: nat)
  {
    function TradeOf(): Trade {
      Trade(key.accountId, key.tradeId)
    }

    /** Everything but the time and the fields that go with profit and loss. */
    function Structure(): Payload {
      this.(pnl := None, marketData := "", timestamp := 0)
    }
  }

  datatype Event = PositionOpen | PositionUpdate | PositionPartialClose | PositionClosed

  datatype Record = Record(event: Event, payload: Payload)

  function Classify(previous: Option<string>, current: string, closeInProgress: bool): Event {
    if previous == None && current == "OPEN" then PositionOpen
    else if previous == Some("OPEN") && current == "CLOSED" then PositionClosed
    else if current == "OPEN" && closeInProgress then PositionPartialClose
    else PositionUpdate
  }

  /** Alike in all that a reader must not miss. */
  predicate SameFields(p: Payload, q: Payload) {
    p.key == q.key && p.status == q.status && p.closeInProgress == q.closeInProgress && p.details == q.details
  }

  /** `known` lists the keys of `status` in the order they were first seen. */
  datatype Bridge = Bridge(
    structures: map<Key, Payload>,
    pnls: map<Key, Option<string>>,
    known: seq<Key>,
    status: map<Key, string>,
    last: map<Key, Payload>,
    lastPnlEmit: map<Trade, real>,
    ready: bool)

  const FRESH := Bridge(map[], map[], [], map[], map[], map[], false)

  /** A poll under way: records so far, per trade the leg whose profit and loss is to be
      told, and the trades for which it was. */
  datatype Polling = Polling(bridge: Bridge, emitted: seq<Record>, pnlOnly: seq<Payload>, told: seq<Trade>)

  function Remember(b: Bridge, p: Payload): Bridge {
    b.(structures := b.structures[p.key := p.Structure()],
       pnls := b.pnls[p.key := p.pnl],
       known := if p.key in b.status then b.known else b.known + [p.key],
       status := b.status[p.key := p.status],
       last := b.last[p.key := p])
  }

  function TradeIndex(legs: seq<Payload>, t: Trade): (r: Option<nat>)
    ensures r.Some? ==> r.value < |legs| && legs[r.value].TradeOf() == t
    ensures r.None? ==> forall i :: 0 <= i < |legs| ==> legs[i].TradeOf() != t
  {
    if legs == [] then None
    else if legs[|legs| - 1].TradeOf() == t then Some(|legs| - 1)
    else TradeIndex(legs[..|legs| - 1], t)
  }

  /** The leg with the least symbol speaks for its trade. */
  function Nominate(legs: seq<Payload>, p: Payload): seq<Payload> {
    var i := TradeIndex(legs, p.TradeOf());
    if i.None? then legs + [p]
    else if Less(p.key.symbol, legs[i.value].key.symbol) then legs[i.value := p]
    else legs
  }

  function StatusOf(b: Bridge, key: Key): Option<string> {
    if key in b.status then Some(b.status[key]) else None
  }

  predicate SameStructure(b: Bridge, p: Payload) {
    p.key in b.structures && b.structures[p.key] == p.Structure()
  }

  predicate SamePnl(b: Bridge, p: Payload) {
    if p.key in b.pnls then b.pnls[p.key] == p.pnl else p.pnl == None
  }

  function Observe(s: Polling, p: Payload): Polling {
    var b := s.bridge;
    if SameStructure(b, p) && SamePnl(b, p) then s.(bridge := b.(last := b.last[p.key := p]))
    else if !b.ready then s.(bridge := Remember(b, p))
    else if !SameStructure(b, p) then
      var event := Classify(StatusOf(b, p.key), p.status, p.closeInProgress);
      s.(bridge := Remember(b, p), emitted := s.emitted + [Record(event, p)])
    else s.(pnlOnly := Nominate(s.pnlOnly, p))
  }

  function ObserveAll(b: Bridge, payloads: seq<Payload>): Polling {
    if payloads == [] then Polling(b, [], [], [])
    else Observe(ObserveAll(b, payloads[..|payloads| - 1]), payloads[|payloads| - 1])
  }

  /** All legs of a trade count as told once one of them has been emitted. */
  function MarkTold(b: Bridge, payloads: seq<Payload>, t: Trade): Bridge {
    if payloads == [] then b
    else
      var p := payloads[|payloads| - 1];
      var marked := MarkTold(b, payloads[..|payloads| - 1], t);
      if p.TradeOf() == t then Mark(marked, p) else marked
  }

  predicate Throttled(b: Bridge, t: Trade, now: real, interval: real) {
    now - (if t in b.lastPnlEmit then b.lastPnlEmit[t] else 0.0) < interval
  }

  function TellPnl(s: Polling, p: Payload, payloads: seq<Payload>, now: real, interval: real): Polling {
    var t := p.TradeOf();
    if Throttled(s.bridge, t, now, interval) then s
    else
      s.(bridge := MarkTold(s.bridge.(lastPnlEmit := s.bridge.lastPnlEmit[t := now]), payloads, t),
         emitted := s.emitted + [Record(PositionUpdate, p)], told := s.told + [t])
  }

  /** The first `n` nominated legs told. */
  function TellPnls(s: Polling, n: nat, payloads: seq<Payload>, now: real, interval: real): Polling
    requires n <= |s.pnlOnly|
    ensures TellPnls(s, n, payloads, now, interval).pnlOnly == s.pnlOnly
  {
    if n == 0 then s else TellPnl(TellPnls(s, n - 1, payloads, now, interval), s.pnlOnly[n - 1], payloads, now, interval)
  }

  function Keys(payloads: seq<Payload>): (r: set<Key>)
    ensures forall p :: p in payloads ==> p.key in r
    ensures forall k :: k in r ==> exists p :: p in payloads && p.key == k
  {
    if payloads == [] then {}
    else
      var n := |payloads| - 1;
      assert payloads == payloads[..n] + [payloads[n]];
      Keys(payloads[..n]) + {payloads[n].key}
  }

  /** Keys that were open and are gone. */
  function Vanished(b: Bridge, keys: seq<Key>, seen: set<Key>): (r: seq<Key>)
    ensures forall k :: k in r <==> k in keys && k !in seen && StatusOf(b, k) == Some("OPEN")
  {
    if keys == [] then []
    else
      var n := |keys| - 1;
      var earlier := Vanished(b, keys[..n], seen);
      if keys[n] !in seen && StatusOf(b, keys[n]) == Some("OPEN") then earlier + [keys[n]] else earlier
  }

  /** The closing record, from the reloaded row if there is one. */
  function ClosingRecord(b: Bridge, key: Key, reloaded: map<Key, Payload>): Record {
    var base :=
      if key in reloaded then reloaded[key]
      else if key in b.last then b.last[key]
      else Payload(key, "", false, "", None, "", 0);
    Record(PositionClosed, base.(key := key, status := "CLOSED"))
  }

  function Close(s: Polling, key: Key, reloaded: map<Key, Payload>): Polling {
    var b := s.bridge;
    s.(bridge := b.(status := b.status[key := "CLOSED"], structures := b.structures - {key}, pnls := b.pnls - {key},
                    last := b.last - {key}),
       emitted := s.emitted + [ClosingRecord(b, key, reloaded)])
  }

  function CloseAll(s: Polling, keys: seq<Key>, reloaded: map<Key, Payload>): Polling {
    if keys == [] then s else Close(CloseAll(s, keys[..|keys| - 1], reloaded), keys[|keys| - 1], reloaded)
  }

  /** What one poll reads: the open legs, the clock, and the reloaded rows. */
  datatype Reading = Reading(payloads: seq<Payload>, now: real, reloaded: map<Key, Payload>)

  function Poll(b: Bridge, r: Reading, interval: real): Polling {
    var observed := ObserveAll(b, r.payloads);
    var told := TellPnls(observed, |observed.pnlOnly|, r.payloads, r.now, interval);
    var closed := CloseAll(told, Vanished(told.bridge, told.bridge.known, Keys(r.payloads)), r.reloaded);
    closed.(bridge := closed.bridge.(ready := true))
  }

  /** Loading the baseline tells nobody. */
  function Restore(b: Bridge, payloads: seq<Payload>): Bridge {
    if payloads == [] then b.(ready := true)
    else Remember(Restore(b, payloads[..|payloads| - 1]), payloads[|payloads| - 1])
  }

  // ---- The reader's view ----

  function Apply(view: map<Key, Payload>, r: Record): map<Key, Payload> {
    if r.event == PositionClosed then view - {r.payload.key} else view[r.payload.key := r.payload]
  }

  function Fold(view: map<Key, Payload>, records: seq<Record>): map<Key, Payload> {
    if records == [] then view else Apply(Fold(view, records[..|records| - 1]), records[|records| - 1])
  }

  function SnapshotOf(before: map<Key, Payload>, payloads: seq<Payload>): map<Key, Payload> {
    if payloads == [] then before
    else SnapshotOf(before, payloads[..|payloads| - 1])[payloads[|payloads| - 1].key := payloads[|payloads| - 1]]
  }

  /** Leg keys are unique, and only open positions are read. */
  predicate WellRead(payloads: seq<Payload>) {
    && (forall i, j :: 0 <= i < j < |payloads| ==> payloads[i].key != payloads[j].key)
    && (forall i :: 0 <= i < |payloads| ==> payloads[i].status == "OPEN")
  }

  /** For one key the bridge's tables and the reader's view tell what the snapshot says:
      whether it is there, and its structural fields. */
  ghost predicate AgreesAt(b: Bridge, view: map<Key, Payload>, shot: map<Key, Payload>, k: Key) {
    && (k in b.structures <==> k in shot) && (k in b.pnls <==> k in shot)
    && (k in b.last <==> k in shot) && (k in view <==> k in shot)
    && (k in shot <==> StatusOf(b, k) == Some("OPEN"))
    && (k in b.known <==> k in b.status)
    && (k in shot ==>
          && shot[k].key == view[k].key == k
          && b.structures[k] == shot[k].Structure() == view[k].Structure() == b.last[k].Structure())
  }

  ghost predicate Agrees(b: Bridge, view: map<Key, Payload>, shot: map<Key, Payload>) {
    Distinct(b.known) && forall k :: AgreesAt(b, view, shot, k)
  }

  ghost predicate Distinct(keys: seq<Key>) {
    forall i, j :: 0 <= i < j < |keys| ==> keys[i] != keys[j]
  }

  lemma DistinctOneMore(keys: seq<Key>, k: Key)
    requires Distinct(keys) && k !in keys
    ensures Distinct(keys + [k])
  {}

  lemma FoldOneMore(view: map<Key, Payload>, records: seq<Record>, r: Record)
    ensures Fold(view, records + [r]) == Apply(Fold(view, records), r)
  {
    assert (records + [r])[..|records|] == records;
  }

  lemma RememberAgrees(b: Bridge, view: map<Key, Payload>, shot: map<Key, Payload>, p: Payload)
    requires Agrees(b, view, shot) && p.status == "OPEN"
    ensures Agrees(Remember(b, p), view[p.key := p], shot[p.key := p])
  {
    hide Distinct, AgreesAt;
    assert AgreesAt(b, view, shot, p.key);
    var after, told, grown := Remember(b, p), view[p.key := p], shot[p.key := p];
    forall k ensures AgreesAt(after, told, grown, k) {
      assert AgreesAt(b, view, shot, k);
      RememberAgreesAt(b, view, shot, p, k);
    }
    NewKeyIsUnknown(b, view, shot, p.key);
    if p.key !in b.status {
      DistinctOneMore(b.known, p.key);
    }
  }

  lemma NewKeyIsUnknown(b: Bridge, view: map<Key, Payload>, shot: map<Key, Payload>, k: Key)
    requires AgreesAt(b, view, shot, k)
    ensures k in b.known <==> k in b.status
  {}

  lemma RememberAgreesAt(b: Bridge, view: map<Key, Payload>, shot: map<Key, Payload>, p: Payload, k: Key)
    requires AgreesAt(b, view, shot, k) && p.status == "OPEN"
    ensures AgreesAt(Remember(b, p), view[p.key := p], shot[p.key := p], k)
  {}

  lemma ObserveAgrees(s: Polling, view: map<Key, Payload>, shot: map<Key, Payload>, p: Payload)
    requires s.bridge.ready && p.status == "OPEN" && Agrees(s.bridge, Fold(view, s.emitted), shot)
    ensures Agrees(Observe(s, p).bridge, Fold(view, Observe(s, p).emitted), shot[p.key := p])
    ensures Observe(s, p).bridge.ready
  {
    hide Fold, Nominate, Agrees, Remember, SameStructure, SamePnl;
    var b, seen := s.bridge, Fold(view, s.emitted);
    if SameStructure(b, p) {
      SeenAgrees(b, seen, shot, p);
    } else {
      FoldOneMore(view, s.emitted, Record(Classify(StatusOf(b, p.key), p.status, p.closeInProgress), p));
      ToldOpen(b, p);
      RememberAgrees(b, seen, shot, p);
      RememberStaysReady(b, p);
    }
  }

  lemma RememberStaysReady(b: Bridge, p: Payload)
    ensures Remember(b, p).ready == b.ready
  {}

  /** An open leg is never told as closed. */
  lemma ToldOpen(b: Bridge, p: Payload)
    requires p.status == "OPEN"
    ensures Classify(StatusOf(b, p.key), p.status, p.closeInProgress) != PositionClosed
  {}

  lemma SeenAgrees(b: Bridge, view: map<Key, Payload>, shot: map<Key, Payload>, p: Payload)
    requires Agrees(b, view, shot) && SameStructure(b, p)
    ensures Agrees(b, view, shot[p.key := p]) && Agrees(b.(last := b.last[p.key := p]), view, shot[p.key := p])
  {
    hide AgreesAt, Distinct;
    var after, grown := b.(last := b.last[p.key := p]), shot[p.key := p];
    forall k ensures AgreesAt(b, view, grown, k) && AgreesAt(after, view, grown, k) {
      assert AgreesAt(b, view, shot, k);
      SeenAgreesAt(b, view, shot, p, k);
    }
  }

  lemma SeenAgreesAt(b: Bridge, view: map<Key, Payload>, shot: map<Key, Payload>, p: Payload, k: Key)
    requires AgreesAt(b, view, shot, k) && SameStructure(b, p)
    ensures AgreesAt(b, view, shot[p.key := p], k)
    ensures AgreesAt(b.(last := b.last[p.key := p]), view, shot[p.key := p], k)
  {}

  /** Nominated legs are legs of the poll whose structure is known; one per trade. */
  ghost predicate Nominated(legs: seq<Payload>, payloads: seq<Payload>) {
    && (forall i :: 0 <= i < |legs| ==> legs[i] in payloads)
    && (forall i, j :: 0 <= i < j < |legs| ==> legs[i].TradeOf() != legs[j].TradeOf())
  }

  lemma NothingToldYet(view: map<Key, Payload>)
    ensures Nominated([], []) && Fold(view, []) == view
  {}

  lemma ObserveNominates(s: Polling, p: Payload)
    ensures Observe(s, p).pnlOnly == s.pnlOnly || Observe(s, p).pnlOnly == Nominate(s.pnlOnly, p)
  {
    hide Nominate;
  }

  lemma NominateKeeps(legs: seq<Payload>, payloads: seq<Payload>, p: Payload)
    requires Nominated(legs, payloads)
    ensures Nominated(Nominate(legs, p), payloads + [p]) && Nominated(legs, payloads + [p])
  {
    hide Less;
    var after := Nominate(legs, p);
    forall i | 0 <= i < |after| ensures after[i] in payloads + [p] {
      assert after[i] == p || (i < |legs| && after[i] == legs[i]);
    }
  }

  lemma {:induction false} ObserveAllAgrees(b: Bridge, view: map<Key, Payload>, shot: map<Key, Payload>, payloads: seq<Payload>)
    requires b.ready && WellRead(payloads) && Agrees(b, view, shot)
    ensures var s := ObserveAll(b, payloads);
      s.bridge.ready && Agrees(s.bridge, Fold(view, s.emitted), SnapshotOf(shot, payloads)) && Nominated(s.pnlOnly, payloads)
  {
    hide Agrees, Fold, Nominate, Observe, Nominated;
    if payloads == [] {
      NothingToldYet(view);
    } else {
      var n := |payloads| - 1;
      var s := ObserveAll(b, payloads[..n]);
      ObserveAllAgrees(b, view, shot, payloads[..n]);
      ObserveNominates(s, payloads[n]);
      ObserveAgrees(s, view, SnapshotOf(shot, payloads[..n]), payloads[n]);
      assert payloads == payloads[..n] + [payloads[n]];
      NominateKeeps(s.pnlOnly, payloads[..n], payloads[n]);
    }
  }

  /** A snapshot that holds every leg of the poll as it was read. */
  ghost predicate Holds(shot: map<Key, Payload>, payloads: seq<Payload>) {
    forall p :: p in payloads ==> p.key in shot && shot[p.key] == p
  }

  lemma {:induction false} MarkToldAgrees(b: Bridge, view: map<Key, Payload>, shot: map<Key, Payload>, payloads: seq<Payload>, t: Trade)
    requires Agrees(b, view, shot) && Holds(shot, payloads)
    ensures Agrees(MarkTold(b, payloads, t), view, shot)
  {
    hide Agrees;
    if payloads != [] {
      var p := payloads[|payloads| - 1];
      MarkToldAgrees(b, view, shot, payloads[..|payloads| - 1], t);
      assert p in payloads;
      MarkOneAgrees(MarkTold(b, payloads[..|payloads| - 1], t), view, shot, p);
    }
  }

  function Mark(b: Bridge, p: Payload): Bridge {
    b.(structures := b.structures[p.key := p.Structure()], pnls := b.pnls[p.key := p.pnl], last := b.last[p.key := p])
  }

  lemma MarkOneAgrees(b: Bridge, view: map<Key, Payload>, shot: map<Key, Payload>, p: Payload)
    requires Agrees(b, view, shot) && p.key in shot && shot[p.key] == p
    ensures Agrees(Mark(b, p), view, shot)
  {
    hide AgreesAt, Distinct;
    forall k ensures AgreesAt(Mark(b, p), view, shot, k) {
      assert AgreesAt(b, view, shot, k);
      MarkOneAgreesAt(b, view, shot, p, k);
    }
  }

  lemma MarkOneAgreesAt(b: Bridge, view: map<Key, Payload>, shot: map<Key, Payload>, p: Payload, k: Key)
    requires AgreesAt(b, view, shot, k) && p.key in shot && shot[p.key] == p
    ensures AgreesAt(Mark(b, p), view, shot, k)
  {}

  lemma ToldAgrees(b: Bridge, view: map<Key, Payload>, shot: map<Key, Payload>, p: Payload, now: real)
    requires Agrees(b, view, shot) && p.key in shot && shot[p.key] == p
    ensures Agrees(b.(lastPnlEmit := b.lastPnlEmit[p.TradeOf() := now]), view[p.key := p], shot)
  {
    hide AgreesAt, Distinct;
    var after, told := b.(lastPnlEmit := b.lastPnlEmit[p.TradeOf() := now]), view[p.key := p];
    forall k ensures AgreesAt(after, told, shot, k) {
      assert AgreesAt(b, view, shot, k);
      ToldAgreesAt(b, view, shot, p, now, k);
    }
  }

  lemma ToldAgreesAt(b: Bridge, view: map<Key, Payload>, shot: map<Key, Payload>, p: Payload, now: real, k: Key)
    requires AgreesAt(b, view, shot, k) && p.key in shot && shot[p.key] == p
    ensures AgreesAt(b.(lastPnlEmit := b.lastPnlEmit[p.TradeOf() := now]), view[p.key := p], shot, k)
  {}

  lemma TellPnlAgrees(s: Polling, view: map<Key, Payload>, shot: map<Key, Payload>, p: Payload, payloads: seq<Payload>, now: real, interval: real)
    requires Agrees(s.bridge, Fold(view, s.emitted), shot) && Holds(shot, payloads) && p in payloads
    ensures var after := TellPnl(s, p, payloads, now, interval); Agrees(after.bridge, Fold(view, after.emitted), shot)
  {
    hide Fold, MarkTold, Agrees, Throttled;
    if !Throttled(s.bridge, p.TradeOf(), now, interval) {
      FoldOneMore(view, s.emitted, Record(PositionUpdate, p));
      var b := s.bridge.(lastPnlEmit := s.bridge.lastPnlEmit[p.TradeOf() := now]);
      ToldAgrees(s.bridge, Fold(view, s.emitted), shot, p, now);
      MarkToldAgrees(b, Fold(view, s.emitted)[p.key := p], shot, payloads, p.TradeOf());
    }
  }

  lemma {:induction false} TellPnlsAgrees(s: Polling, n: nat, view: map<Key, Payload>, shot: map<Key, Payload>, payloads: seq<Payload>, now: real, interval: real)
    requires n <= |s.pnlOnly| && Nominated(s.pnlOnly, payloads)
    requires Agrees(s.bridge, Fold(view, s.emitted), shot) && Holds(shot, payloads)
    ensures var after := TellPnls(s, n, payloads, now, interval); Agrees(after.bridge, Fold(view, after.emitted), shot)
  {
    hide Agrees, Fold, TellPnl, Holds;
    if n > 0 {
      TellPnlsAgrees(s, n - 1, view, shot, payloads, now, interval);
      TellPnlAgrees(TellPnls(s, n - 1, payloads, now, interval), view, shot, s.pnlOnly[n - 1], payloads, now, interval);
    }
  }

  lemma CloseAgrees(s: Polling, view: map<Key, Payload>, shot: map<Key, Payload>, key: Key, reloaded: map<Key, Payload>)
    requires Agrees(s.bridge, Fold(view, s.emitted), shot) && key in shot
    ensures var after := Close(s, key, reloaded); Agrees(after.bridge, Fold(view, after.emitted), shot - {key})
  {
    hide Fold, AgreesAt, Distinct;
    var seen, after := Fold(view, s.emitted), Close(s, key, reloaded);
    FoldOneMore(view, s.emitted, ClosingRecord(s.bridge, key, reloaded));
    var left, kept := seen - {key}, shot - {key};
    forall k ensures AgreesAt(after.bridge, left, kept, k) {
      assert AgreesAt(s.bridge, seen, shot, k) && AgreesAt(s.bridge, seen, shot, key);
      CloseAgreesAt(s, seen, shot, key, reloaded, k);
    }
  }

  lemma CloseAgreesAt(s: Polling, view: map<Key, Payload>, shot: map<Key, Payload>, key: Key, reloaded: map<Key, Payload>, k: Key)
    requires AgreesAt(s.bridge, view, shot, k) && AgreesAt(s.bridge, view, shot, key) && key in shot
    ensures AgreesAt(Close(s, key, reloaded).bridge, view - {key}, shot - {key}, k)
  {}

  function Elements(keys: seq<Key>): (r: set<Key>)
    ensures forall k :: k in r <==> k in keys
  {
    if keys == [] then {}
    else
      var n := |keys| - 1;
      assert keys == keys[..n] + [keys[n]];
      Elements(keys[..n]) + {keys[n]}
  }

  lemma {:induction false} CloseAllAgrees(s: Polling, view: map<Key, Payload>, shot: map<Key, Payload>, keys: seq<Key>, reloaded: map<Key, Payload>)
    requires Agrees(s.bridge, Fold(view, s.emitted), shot) && Elements(keys) <= shot.Keys
    requires Distinct(keys)
    ensures var after := CloseAll(s, keys, reloaded); Agrees(after.bridge, Fold(view, after.emitted), shot - Elements(keys))
  {
    hide Agrees, Fold, Close;
    if keys == [] {
      assert shot - {} == shot;
    } else {
      var n := |keys| - 1;
      CloseAllAgrees(s, view, shot, keys[..n], reloaded);
      CloseAgrees(CloseAll(s, keys[..n], reloaded), view, shot - Elements(keys[..n]), keys[n], reloaded);
      assert shot - Elements(keys[..n]) - {keys[n]} == shot - Elements(keys);
    }
  }

  lemma {:induction false} VanishedDistinct(b: Bridge, keys: seq<Key>, seen: set<Key>)
    requires Distinct(keys)
    ensures Distinct(Vanished(b, keys, seen))
  {
    if keys != [] {
      var n := |keys| - 1;
      VanishedDistinct(b, keys[..n], seen);
      if Vanished(b, keys, seen) != Vanished(b, keys[..n], seen) {
        DistinctOneMore(Vanished(b, keys[..n], seen), keys[n]);
      }
    }
  }

  lemma {:induction false} SnapshotHolds(before: map<Key, Payload>, payloads: seq<Payload>)
    requires WellRead(payloads)
    ensures Holds(SnapshotOf(before, payloads), payloads)
    ensures SnapshotOf(before, payloads).Keys == before.Keys + Keys(payloads)
    ensures forall k :: k in before && k !in Keys(payloads) ==> SnapshotOf(before, payloads)[k] == before[k]
  {
    if payloads != [] {
      var n := |payloads| - 1;
      SnapshotHolds(before, payloads[..n]);
      forall p | p in payloads ensures p.key in SnapshotOf(before, payloads) && SnapshotOf(before, payloads)[p.key] == p {
        if p != payloads[n] {
          assert p in payloads[..n];
        }
      }
    }
  }

  lemma SameSnapshot(a: map<Key, Payload>, payloads: seq<Payload>)
    requires WellRead(payloads) && Holds(a, payloads) && a.Keys == Keys(payloads)
    ensures a == SnapshotOf(map[], payloads)
  {
    SnapshotHolds(map[], payloads);
    forall k | k in a ensures a[k] == SnapshotOf(map[], payloads)[k] {
      var p :| p in payloads && p.key == k;
    }
  }

  /** After every poll the reader who folds the records holds exactly the keys and
      structural fields of the snapshot just read. */
  lemma PollAgrees(b: Bridge, view: map<Key, Payload>, shot: map<Key, Payload>, r: Reading, interval: real)
    requires b.ready && Agrees(b, view, shot) && WellRead(r.payloads)
    ensures var after := Poll(b, r, interval);
      after.bridge.ready && Agrees(after.bridge, Fold(view, after.emitted), SnapshotOf(map[], r.payloads))
  {
    hide Agrees, Fold, Nominated, Holds, ObserveAll, TellPnls, CloseAll, WellRead;
    var observed := ObserveAll(b, r.payloads);
    var grown := SnapshotOf(shot, r.payloads);
    ObserveAllAgrees(b, view, shot, r.payloads);
    SnapshotHolds(shot, r.payloads);
    var told := TellPnls(observed, |observed.pnlOnly|, r.payloads, r.now, interval);
    TellPnlsAgrees(observed, |observed.pnlOnly|, view, grown, r.payloads, r.now, interval);
    var keys := Vanished(told.bridge, told.bridge.known, Keys(r.payloads));
    VanishedAreGone(told.bridge, Fold(view, told.emitted), grown, r.payloads);
    CloseAllAgrees(told, view, grown, keys, r.reloaded);
    SameSnapshot(grown - Elements(keys), r.payloads);
    var closed := CloseAll(told, keys, r.reloaded);
    ReadyAgrees(closed.bridge, Fold(view, closed.emitted), SnapshotOf(map[], r.payloads));
  }

  lemma ReadyAgrees(b: Bridge, view: map<Key, Payload>, shot: map<Key, Payload>)
    requires Agrees(b, view, shot)
    ensures Agrees(b.(ready := true), view, shot)
  {
    forall k ensures AgreesAt(b.(ready := true), view, shot, k) {
      assert AgreesAt(b, view, shot, k);
    }
  }

  lemma VanishedAreGone(b: Bridge, view: map<Key, Payload>, shot: map<Key, Payload>, payloads: seq<Payload>)
    requires Agrees(b, view, shot) && Holds(shot, payloads)
    ensures var keys := Vanished(b, b.known, Keys(payloads));
      && Elements(keys) == shot.Keys - Keys(payloads)
      && Distinct(keys)
      && Holds(shot - Elements(keys), payloads) && (shot - Elements(keys)).Keys == Keys(payloads)
  {
    VanishedDistinct(b, b.known, Keys(payloads));
    hide Distinct, AgreesAt;
    var keys := Vanished(b, b.known, Keys(payloads));
    forall k ensures k in keys <==> k in shot && k !in Keys(payloads) {
      assert AgreesAt(b, view, shot, k);
      OpenIsKnown(b, view, shot, k);
    }
    assert Elements(keys) == shot.Keys - Keys(payloads);
    forall k | k in Keys(payloads) ensures k in shot {
      var p :| p in payloads && p.key == k;
    }
    assert (shot - Elements(keys)).Keys == Keys(payloads);
  }

  lemma OpenIsKnown(b: Bridge, view: map<Key, Payload>, shot: map<Key, Payload>, k: Key)
    requires AgreesAt(b, view, shot, k)
    ensures k in shot <==> k in b.known && StatusOf(b, k) == Some("OPEN")
  {}

  /** Loading a baseline makes the bridge agree with a reader who holds it. */
  lemma {:induction false} RestoreAgrees(payloads: seq<Payload>)
    requires WellRead(payloads)
    ensures var b := Restore(FRESH, payloads);
      b.ready && Agrees(b, SnapshotOf(map[], payloads), SnapshotOf(map[], payloads))
  {
    hide Agrees, Remember;
    if payloads == [] {
      FreshAgrees();
    } else {
      var n := |payloads| - 1;
      RestoreAgrees(payloads[..n]);
      RememberAgrees(Restore(FRESH, payloads[..n]), SnapshotOf(map[], payloads[..n]), SnapshotOf(map[], payloads[..n]), payloads[n]);
      RememberStaysReady(Restore(FRESH, payloads[..n]), payloads[n]);
    }
  }

  lemma FreshAgrees()
    ensures Agrees(FRESH.(ready := true), map[], map[])
  {}

  // ---- Runs of polls ----

  predicate AllWellRead(rs: seq<Reading>) {
    forall i :: 0 <= i < |rs| ==> WellRead(rs[i].payloads)
  }

  datatype Told = Told(trade: Trade, time: real)

  /** The bridge, the reader's view, and every profit-and-loss-only record so far. */
  datatype Watch = Watch(bridge: Bridge, view: map<Key, Payload>, log: seq<Told>)

  function Stamp(trades: seq<Trade>, now: real): (r: seq<Told>)
    ensures |r| == |trades| && forall i :: 0 <= i < |r| ==> r[i] == Told(trades[i], now)
  {
    if trades == [] then [] else Stamp(trades[..|trades| - 1], now) + [Told(trades[|trades| - 1], now)]
  }

  function Run(w: Watch, rs: seq<Reading>, interval: real): Watch {
    if rs == [] then w
    else
      var before := Run(w, rs[..|rs| - 1], interval);
      var polled := Poll(before.bridge, rs[|rs| - 1], interval);
      Watch(polled.bridge, Fold(before.view, polled.emitted), before.log + Stamp(polled.told, rs[|rs| - 1].now))
  }

  /** Over any run of polls after the baseline the reader's view is the last snapshot, up
      to profit and loss and time. */
  lemma {:induction false} StreamRefinesSnapshot(payloads: seq<Payload>, rs: seq<Reading>, interval: real)
    requires WellRead(payloads) && AllWellRead(rs)
    ensures
      var shot := SnapshotOf(map[], if rs == [] then payloads else rs[|rs| - 1].payloads);
      var w := Run(Watch(Restore(FRESH, payloads), SnapshotOf(map[], payloads), []), rs, interval);
      && w.bridge.ready && Agrees(w.bridge, w.view, shot)
      && w.view.Keys == shot.Keys && forall k :: k in shot ==> SameFields(w.view[k], shot[k])
  {
    hide Agrees, Poll, Restore, SnapshotOf, Fold, WellRead;
    var start := Watch(Restore(FRESH, payloads), SnapshotOf(map[], payloads), []);
    var w := Run(start, rs, interval);
    var shot := SnapshotOf(map[], if rs == [] then payloads else rs[|rs| - 1].payloads);
    if rs == [] {
      RestoreAgrees(payloads);
    } else {
      var n := |rs| - 1;
      StreamRefinesSnapshot(payloads, rs[..n], interval);
      var before := SnapshotOf(map[], if rs[..n] == [] then payloads else rs[..n][n - 1].payloads);
      var earlier := Run(start, rs[..n], interval);
      PollAgrees(earlier.bridge, earlier.view, before, rs[n], interval);
    }
    AgreesMeans(w.bridge, w.view, shot);
  }

  lemma AgreesMeans(b: Bridge, view: map<Key, Payload>, shot: map<Key, Payload>)
    requires Agrees(b, view, shot)
    ensures view.Keys == shot.Keys && forall k :: k in shot ==> SameFields(view[k], shot[k])
  {
    forall k ensures (k in view <==> k in shot) && (k in shot ==> SameFields(view[k], shot[k])) {
      assert AgreesAt(b, view, shot, k);
    }
  }

  // ---- Throttling ----

  /** Records of one trade's profit and loss alone are `interval` apart. */
  ghost predicate Spaced(log: seq<Told>, interval: real) {
    forall i, j :: 0 <= i < j < |log| && log[i].trade == log[j].trade ==> log[j].time - log[i].time >= interval
  }

  ghost predicate Clocked(b: Bridge, log: seq<Told>) {
    forall i :: 0 <= i < |log| ==> log[i].trade in b.lastPnlEmit && log[i].time <= b.lastPnlEmit[log[i].trade]
  }

  lemma {:induction false} MarkToldKeepsClock(b: Bridge, payloads: seq<Payload>, t: Trade)
    ensures MarkTold(b, payloads, t).lastPnlEmit == b.lastPnlEmit
  {
    if payloads != [] {
      MarkToldKeepsClock(b, payloads[..|payloads| - 1], t);
    }
  }

  lemma {:induction false} ObserveKeepsClock(b: Bridge, payloads: seq<Payload>)
    ensures var s := ObserveAll(b, payloads); s.bridge.lastPnlEmit == b.lastPnlEmit && s.told == []
  {
    if payloads != [] {
      ObserveKeepsClock(b, payloads[..|payloads| - 1]);
    }
  }

  lemma {:induction false} CloseKeepsClock(s: Polling, keys: seq<Key>, reloaded: map<Key, Payload>)
    ensures var after := CloseAll(s, keys, reloaded);
      after.bridge.lastPnlEmit == s.bridge.lastPnlEmit && after.told == s.told
  {
    if keys != [] {
      CloseKeepsClock(s, keys[..|keys| - 1], reloaded);
    }
  }

  lemma {:induction false} TellsSpaced(s: Polling, n: nat, payloads: seq<Payload>, now: real, interval: real, log: seq<Told>)
    requires n <= |s.pnlOnly| && s.told == [] && 0.0 <= interval
    requires Spaced(log, interval) && Clocked(s.bridge, log)
    ensures var after := TellPnls(s, n, payloads, now, interval);
      Spaced(log + Stamp(after.told, now), interval) && Clocked(after.bridge, log + Stamp(after.told, now))
  {
    hide Spaced, Clocked, TellPnl;
    if n > 0 {
      TellsSpaced(s, n - 1, payloads, now, interval, log);
      TellOneSpaced(TellPnls(s, n - 1, payloads, now, interval), s.pnlOnly[n - 1], payloads, now, interval, log);
    } else {
      assert log + [] == log;
    }
  }

  lemma TellOneSpaced(s: Polling, p: Payload, payloads: seq<Payload>, now: real, interval: real, log: seq<Told>)
    requires 0.0 <= interval
    requires Spaced(log + Stamp(s.told, now), interval) && Clocked(s.bridge, log + Stamp(s.told, now))
    ensures var after := TellPnl(s, p, payloads, now, interval);
      Spaced(log + Stamp(after.told, now), interval) && Clocked(after.bridge, log + Stamp(after.told, now))
  {
    hide Spaced, Throttled, MarkTold;
    var t := p.TradeOf();
    if !Throttled(s.bridge, t, now, interval) {
      MarkToldKeepsClock(s.bridge.(lastPnlEmit := s.bridge.lastPnlEmit[t := now]), payloads, t);
      assert (s.told + [t])[..|s.told|] == s.told;
      assert log + Stamp(s.told + [t], now) == log + Stamp(s.told, now) + [Told(t, now)];
      OneMoreSpaced(s.bridge, log + Stamp(s.told, now), t, now, interval);
    }
  }

  lemma OneMoreSpaced(b: Bridge, log: seq<Told>, t: Trade, now: real, interval: real)
    requires Spaced(log, interval) && Clocked(b, log) && 0.0 <= interval && !Throttled(b, t, now, interval)
    ensures Spaced(log + [Told(t, now)], interval)
    ensures Clocked(b.(lastPnlEmit := b.lastPnlEmit[t := now]), log + [Told(t, now)])
  {}

  /** Over any run, and whatever the clock does, records that only tell profit and loss
      of one trade are at least the interval apart. */
  lemma {:induction false} PnlRecordsAreSpaced(w: Watch, rs: seq<Reading>, interval: real)
    requires 0.0 <= interval && Spaced(w.log, interval) && Clocked(w.bridge, w.log)
    ensures var after := Run(w, rs, interval); Spaced(after.log, interval) && Clocked(after.bridge, after.log)
  {
    if rs != [] {
      var n := |rs| - 1;
      PnlRecordsAreSpaced(w, rs[..n], interval);
      hide Spaced, Clocked, ObserveAll, TellPnls, CloseAll, Fold;
      PollSpaced(Run(w, rs[..n], interval).bridge, rs[n], interval, Run(w, rs[..n], interval).log);
    }
  }

  lemma PollSpaced(b: Bridge, r: Reading, interval: real, log: seq<Told>)
    requires 0.0 <= interval && Spaced(log, interval) && Clocked(b, log)
    ensures var after := Poll(b, r, interval);
      Spaced(log + Stamp(after.told, r.now), interval) && Clocked(after.bridge, log + Stamp(after.told, r.now))
  {
    hide Spaced, ObserveAll, TellPnls, CloseAll, Vanished;
    var s := ObserveAll(b, r.payloads);
    ObserveKeepsClock(b, r.payloads);
    TellsSpaced(s, |s.pnlOnly|, r.payloads, r.now, interval, log);
    var told := TellPnls(s, |s.pnlOnly|, r.payloads, r.now, interval);
    CloseKeepsClock(told, Vanished(told.bridge, told.bridge.known, Keys(r.payloads)), r.reloaded);
  }

  // ---- What is told, and how often ----

  function Count(records: seq<Record>, event: Event, k: Key): nat {
    if records == [] then 0
    else
      var r := records[|records| - 1];
      Count(records[..|records| - 1], event, k) + if r.event == event && r.payload.key == k then 1 else 0
  }

  lemma CountOneMore(records: seq<Record>, r: Record, event: Event, k: Key)
    ensures Count(records + [r], event, k) == Count(records, event, k) + if r.event == event && r.payload.key == k then 1 else 0
  {
    assert (records + [r])[..|records|] == records;
  }

  lemma KeysOneMore(payloads: seq<Payload>, k: Key)
    requires payloads != []
    ensures k in Keys(payloads) <==> k in Keys(payloads[..|payloads| - 1]) || payloads[|payloads| - 1].key == k
  {}

  lemma LastKeyIsNew(payloads: seq<Payload>)
    requires WellRead(payloads) && payloads != []
    ensures payloads[|payloads| - 1].key !in Keys(payloads[..|payloads| - 1])
  {}

  /** Watching the legs of a poll tells an opening exactly for keys never seen before, and
      never a closing; keys it has not come to are as before. */
  lemma {:induction false} ObserveTells(b: Bridge, payloads: seq<Payload>, k: Key)
    requires b.ready && WellRead(payloads) && forall key :: key !in b.status ==> key !in b.structures
    ensures var s := ObserveAll(b, payloads);
      && s.bridge.ready
      && Count(s.emitted, PositionOpen, k) == (if k in Keys(payloads) && k !in b.status then 1 else 0)
      && Count(s.emitted, PositionClosed, k) == 0
      && (k !in Keys(payloads) ==>
            && StatusOf(s.bridge, k) == StatusOf(b, k)
            && (k in s.bridge.structures <==> k in b.structures))
  {
    hide Observe, Keys, Count;
    if payloads == [] {
      NothingCounted(k);
    } else {
      var n := |payloads| - 1;
      ObserveTells(b, payloads[..n], k);
      ObserveTells(b, payloads[..n], payloads[n].key);
      KeysOneMore(payloads, k);
      LastKeyIsNew(payloads);
      ObserveOneTells(ObserveAll(b, payloads[..n]), payloads[n], k);
    }
  }

  lemma NothingCounted(k: Key)
    ensures Count([], PositionOpen, k) == Count([], PositionClosed, k) == 0 && k !in Keys([])
  {}

  lemma ObserveOneTells(s: Polling, p: Payload, k: Key)
    requires s.bridge.ready && p.status == "OPEN"
    requires StatusOf(s.bridge, p.key) == None ==> p.key !in s.bridge.structures
    ensures var after := Observe(s, p);
      && after.bridge.ready
      && Count(after.emitted, PositionOpen, k)
         == Count(s.emitted, PositionOpen, k) + (if k == p.key && StatusOf(s.bridge, k) == None then 1 else 0)
      && Count(after.emitted, PositionClosed, k) == Count(s.emitted, PositionClosed, k)
      && (k != p.key ==>
            && StatusOf(after.bridge, k) == StatusOf(s.bridge, k)
            && (k in after.bridge.structures <==> k in s.bridge.structures))
  {
    hide Count, SamePnl, SameStructure, Nominate, Remember, Classify;
    var event := Classify(StatusOf(s.bridge, p.key), p.status, p.closeInProgress);
    OpenIsTold(s.bridge, p);
    RememberTouchesOne(s.bridge, p, k);
    UnknownHasNoStructure(s.bridge, p);
    CountOneMore(s.emitted, Record(event, p), PositionOpen, k);
    CountOneMore(s.emitted, Record(event, p), PositionClosed, k);
  }

  lemma OpenIsTold(b: Bridge, p: Payload)
    requires p.status == "OPEN"
    ensures var event := Classify(StatusOf(b, p.key), p.status, p.closeInProgress);
      event != PositionClosed && (event == PositionOpen <==> StatusOf(b, p.key) == None)
  {}

  lemma RememberTouchesOne(b: Bridge, p: Payload, k: Key)
    ensures var after := Remember(b, p);
      && after.ready == b.ready
      && (k != p.key ==> StatusOf(after, k) == StatusOf(b, k) && (k in after.structures <==> k in b.structures))
  {}

  lemma UnknownHasNoStructure(b: Bridge, p: Payload)
    ensures p.key !in b.structures ==> !SameStructure(b, p)
  {}

  lemma {:induction false} TellsNoOpenOrClose(s: Polling, n: nat, payloads: seq<Payload>, now: real, interval: real, k: Key)
    requires n <= |s.pnlOnly|
    ensures var after := TellPnls(s, n, payloads, now, interval);
      && Count(after.emitted, PositionOpen, k) == Count(s.emitted, PositionOpen, k)
      && Count(after.emitted, PositionClosed, k) == Count(s.emitted, PositionClosed, k)
  {
    if n > 0 {
      TellsNoOpenOrClose(s, n - 1, payloads, now, interval, k);
      var before := TellPnls(s, n - 1, payloads, now, interval);
      CountOneMore(before.emitted, Record(PositionUpdate, s.pnlOnly[n - 1]), PositionOpen, k);
      CountOneMore(before.emitted, Record(PositionUpdate, s.pnlOnly[n - 1]), PositionClosed, k);
    }
  }

  lemma {:induction false} ClosesEachOnce(s: Polling, keys: seq<Key>, reloaded: map<Key, Payload>, k: Key)
    requires Distinct(keys)
    ensures var after := CloseAll(s, keys, reloaded);
      && Count(after.emitted, PositionOpen, k) == Count(s.emitted, PositionOpen, k)
      && Count(after.emitted, PositionClosed, k) == Count(s.emitted, PositionClosed, k) + if k in keys then 1 else 0
  {
    if keys != [] {
      var n := |keys| - 1;
      ClosesEachOnce(s, keys[..n], reloaded, k);
      var before := CloseAll(s, keys[..n], reloaded);
      CountOneMore(before.emitted, ClosingRecord(before.bridge, keys[n], reloaded), PositionOpen, k);
      CountOneMore(before.emitted, ClosingRecord(before.bridge, keys[n], reloaded), PositionClosed, k);
      assert k in keys <==> k in keys[..n] || k == keys[n];
    }
  }

  /** A poll tells one closing for each key that disappears and none else, and one
      opening for each key that was never seen before and none else. */
  lemma TellsOpenAndCloseOnce(b: Bridge, view: map<Key, Payload>, shot: map<Key, Payload>, r: Reading, interval: real, k: Key)
    requires b.ready && Agrees(b, view, shot) && WellRead(r.payloads)
    ensures var after := Poll(b, r, interval);
      && Count(after.emitted, PositionClosed, k) == (if k in shot && k !in Keys(r.payloads) then 1 else 0)
      && Count(after.emitted, PositionOpen, k) == (if k in Keys(r.payloads) && k !in b.status then 1 else 0)
  {
    hide Agrees, Fold, Nominated, ObserveAll, TellPnls, CloseAll, WellRead, Count, Holds, Distinct, Vanished;
    UnseenIsUnknown(b, view, shot);
    ObserveTells(b, r.payloads, k);
    var observed, grown := ObserveAll(b, r.payloads), SnapshotOf(shot, r.payloads);
    ObserveAllAgrees(b, view, shot, r.payloads);
    SnapshotHolds(shot, r.payloads);
    var told := TellPnls(observed, |observed.pnlOnly|, r.payloads, r.now, interval);
    TellPnlsAgrees(observed, |observed.pnlOnly|, view, grown, r.payloads, r.now, interval);
    TellsNoOpenOrClose(observed, |observed.pnlOnly|, r.payloads, r.now, interval, k);
    var keys := Vanished(told.bridge, told.bridge.known, Keys(r.payloads));
    VanishedAreGone(told.bridge, Fold(view, told.emitted), grown, r.payloads);
    ClosesEachOnce(told, keys, r.reloaded, k);
    assert k in Elements(keys) <==> k in keys;
  }

  lemma UnseenIsUnknown(b: Bridge, view: map<Key, Payload>, shot: map<Key, Payload>)
    requires Agrees(b, view, shot)
    ensures forall k :: k !in b.status ==> k !in b.structures
  {
    forall k ensures k !in b.status ==> k !in b.structures {
      assert AgreesAt(b, view, shot, k);
    }
  }

  // ---- Profit and loss ----

  predicate OnlyPnlChanged(b: Bridge, p: Payload) {
    SameStructure(b, p) && !SamePnl(b, p)
  }

  lemma {:induction false} ObserveNominatesTrades(b: Bridge, payloads: seq<Payload>, t: Trade)
    requires b.ready && WellRead(payloads)
    ensures TradeIndex(ObserveAll(b, payloads).pnlOnly, t).Some? <==> SomePnlChanged(b, payloads, t)
  {
    hide Observe, OnlyPnlChanged, Keys;
    if payloads != [] {
      var n := |payloads| - 1;
      var s, p := ObserveAll(b, payloads[..n]), payloads[n];
      ObserveNominatesTrades(b, payloads[..n], t);
      LastKeyIsNew(payloads);
      ObserveLeavesOthers(b, payloads[..n], p);
      NominateIndex(s.pnlOnly, p, t);
      ObserveOneNominates(s, p);
      assert payloads == payloads[..n] + [p];
      SomePnlOneMore(b, payloads[..n], p, t);
    }
  }

  predicate SomePnlChanged(b: Bridge, payloads: seq<Payload>, t: Trade) {
    exists p :: p in payloads && p.TradeOf() == t && OnlyPnlChanged(b, p)
  }

  lemma SomePnlOneMore(b: Bridge, payloads: seq<Payload>, p: Payload, t: Trade)
    ensures SomePnlChanged(b, payloads + [p], t)
       <==> SomePnlChanged(b, payloads, t) || (p.TradeOf() == t && OnlyPnlChanged(b, p))
  {
    assert p in payloads + [p];
  }

  lemma ObserveOneNominates(s: Polling, p: Payload)
    requires s.bridge.ready
    ensures Observe(s, p).pnlOnly == if OnlyPnlChanged(s.bridge, p) then Nominate(s.pnlOnly, p) else s.pnlOnly
  {
    hide Nominate;
  }

  /** Legs already seen do not change what is known of another. */
  lemma {:induction false} ObserveLeavesOthers(b: Bridge, payloads: seq<Payload>, p: Payload)
    requires b.ready && p.key !in Keys(payloads)
    ensures var s := ObserveAll(b, payloads);
      s.bridge.ready && (OnlyPnlChanged(s.bridge, p) <==> OnlyPnlChanged(b, p))
  {
    if payloads != [] {
      var n := |payloads| - 1;
      KeysOneMore(payloads, p.key);
      ObserveLeavesOthers(b, payloads[..n], p);
      hide ObserveAll, Keys;
      ObserveLeavesOther(ObserveAll(b, payloads[..n]), payloads[n], p);
      ObservedLast(b, payloads);
    }
  }

  lemma ObservedLast(b: Bridge, payloads: seq<Payload>)
    requires payloads != []
    ensures ObserveAll(b, payloads) == Observe(ObserveAll(b, payloads[..|payloads| - 1]), payloads[|payloads| - 1])
  {}

  lemma ObserveLeavesOther(s: Polling, q: Payload, p: Payload)
    requires s.bridge.ready && q.key != p.key
    ensures Observe(s, q).bridge.ready
    ensures OnlyPnlChanged(Observe(s, q).bridge, p) <==> OnlyPnlChanged(s.bridge, p)
  {
    hide Nominate, Classify;
  }

  lemma {:induction false} TradeIndexOneMore(legs: seq<Payload>, p: Payload, t: Trade)
    ensures TradeIndex(legs + [p], t) == if p.TradeOf() == t then Some(|legs|) else TradeIndex(legs, t)
  {
    assert (legs + [p])[..|legs|] == legs;
  }

  lemma NominateIndex(legs: seq<Payload>, p: Payload, t: Trade)
    ensures TradeIndex(Nominate(legs, p), t).Some? <==> TradeIndex(legs, t).Some? || p.TradeOf() == t
  {
    TradeIndexOneMore(legs, p, t);
    var after, i := Nominate(legs, p), TradeIndex(legs, p.TradeOf());
    if i.Some? {
      assert after[i.value].TradeOf() == p.TradeOf();
      if TradeIndex(legs, t).Some? {
        assert after[TradeIndex(legs, t).value].TradeOf() == t;
      }
      if TradeIndex(after, t).Some? {
        assert legs[TradeIndex(after, t).value].TradeOf() == t;
      }
    }
  }

  lemma {:induction false} TellsUnlessThrottled(s: Polling, n: nat, payloads: seq<Payload>, now: real, interval: real, t: Trade)
    requires n <= |s.pnlOnly| && Nominated(s.pnlOnly, payloads) && t !in s.told
    ensures var after := TellPnls(s, n, payloads, now, interval);
      && (t in after.told <==>
            (exists i :: 0 <= i < n && s.pnlOnly[i].TradeOf() == t) && !Throttled(s.bridge, t, now, interval))
      && ((forall i :: 0 <= i < n ==> s.pnlOnly[i].TradeOf() != t) ==>
            (t in after.bridge.lastPnlEmit <==> t in s.bridge.lastPnlEmit)
            && (t in s.bridge.lastPnlEmit ==> after.bridge.lastPnlEmit[t] == s.bridge.lastPnlEmit[t]))
  {
    if n > 0 {
      TellsUnlessThrottled(s, n - 1, payloads, now, interval, t);
      var before := TellPnls(s, n - 1, payloads, now, interval);
      var other := s.pnlOnly[n - 1].TradeOf();
      MarkToldKeepsClock(before.bridge.(lastPnlEmit := before.bridge.lastPnlEmit[other := now]), payloads, other);
    }
  }

  /** A trade's profit and loss is told on its own exactly when it alone changed on some
      leg and the interval has passed. */
  lemma PnlToldIff(b: Bridge, r: Reading, interval: real, t: Trade)
    requires b.ready && WellRead(r.payloads)
    ensures
      t in Poll(b, r, interval).told <==> SomePnlChanged(b, r.payloads, t) && !Throttled(b, t, r.now, interval)
  {
    hide ObserveAll, TellPnls, CloseAll, Vanished, WellRead, OnlyPnlChanged, Nominated;
    var s := ObserveAll(b, r.payloads);
    ObserveNominatesTrades(b, r.payloads, t);
    ObserveKeepsClock(b, r.payloads);
    NominatedLegs(b, r.payloads);
    TellsUnlessThrottled(s, |s.pnlOnly|, r.payloads, r.now, interval, t);
    var told := TellPnls(s, |s.pnlOnly|, r.payloads, r.now, interval);
    CloseKeepsClock(told, Vanished(told.bridge, told.bridge.known, Keys(r.payloads)), r.reloaded);
  }

  lemma {:induction false} NominatedLegs(b: Bridge, payloads: seq<Payload>)
    ensures Nominated(ObserveAll(b, payloads).pnlOnly, payloads)
  {
    hide Nominated, Nominate, Observe;
    if payloads == [] {
      NothingToldYet(map[]);
    } else {
      var n := |payloads| - 1;
      NominatedLegs(b, payloads[..n]);
      ObserveNominates(ObserveAll(b, payloads[..n]), payloads[n]);
      assert payloads == payloads[..n] + [payloads[n]];
      NominateKeeps(ObserveAll(b, payloads[..n]).pnlOnly, payloads[..n], payloads[n]);
    }
  }

  // ---- When a leg's profit and loss is swallowed ----

  predicate Carries(records: seq<Record>, k: Key) {
    exists i :: 0 <= i < |records| && records[i].payload.key == k
  }

  lemma CarriesOneMore(records: seq<Record>, r: Record, k: Key)
    ensures Carries(records + [r], k) <==> Carries(records, k) || r.payload.key == k
  {
    var all := records + [r];
    assert all[|records|] == r;
    if Carries(records, k) {
      var i :| 0 <= i < |records| && records[i].payload.key == k;
      assert all[i].payload.key == k;
    }
  }

  /** The leg that speaks for a trade. */
  function Nominee(legs: seq<Payload>, t: Trade): Option<Payload> {
    var i := TradeIndex(legs, t);
    if i.None? then None else Some(legs[i.value])
  }

  ghost predicate OnePerTrade(legs: seq<Payload>) {
    forall i, j :: 0 <= i < j < |legs| ==> legs[i].TradeOf() != legs[j].TradeOf()
  }

  lemma NomineeIs(legs: seq<Payload>, i: nat)
    requires OnePerTrade(legs) && i < |legs|
    ensures Nominee(legs, legs[i].TradeOf()) == Some(legs[i])
  {}

  /** Nominating changes only the leg's own trade, and takes the lesser symbol. */
  lemma NomineeAfter(legs: seq<Payload>, p: Payload, t: Trade)
    requires OnePerTrade(legs)
    ensures OnePerTrade(Nominate(legs, p))
    ensures
      Nominee(Nominate(legs, p), t)
      == if p.TradeOf() != t then Nominee(legs, t)
         else match Nominee(legs, t)
              case None => Some(p)
              case Some(m) => if Less(p.key.symbol, m.key.symbol) then Some(p) else Some(m)
  {
    hide Less;
    var after, i := Nominate(legs, p), TradeIndex(legs, t);
    if p.TradeOf() == t {
      NomineeIs(after, if i.None? then |legs| else i.value);
    } else if i.Some? {
      NomineeIs(after, i.value);
    } else {
      NominateIndex(legs, p, t);
    }
  }

  /** No leg of the trade that alone changed profit and loss has a lesser symbol. */
  ghost predicate Least(b: Bridge, payloads: seq<Payload>, m: Payload) {
    && m in payloads && OnlyPnlChanged(b, m)
    && forall n :: n in payloads && n.TradeOf() == m.TradeOf() && OnlyPnlChanged(b, n) ==> !Less(n.key.symbol, m.key.symbol)
  }

  ghost predicate NomineeLeast(b: Bridge, payloads: seq<Payload>, t: Trade, m: Option<Payload>) {
    if m.None? then !SomePnlChanged(b, payloads, t) else m.value.TradeOf() == t && Least(b, payloads, m.value)
  }

  lemma LeastOneMore(b: Bridge, payloads: seq<Payload>, t: Trade, m: Option<Payload>, p: Payload)
    requires NomineeLeast(b, payloads, t, m)
    ensures p.TradeOf() != t || !OnlyPnlChanged(b, p) ==> NomineeLeast(b, payloads + [p], t, m)
    ensures p.TradeOf() == t && OnlyPnlChanged(b, p) ==>
      NomineeLeast(b, payloads + [p], t, if m.None? || Less(p.key.symbol, m.value.key.symbol) then Some(p) else m)
  {
    hide OnlyPnlChanged, Less;
    assert p in payloads + [p];
    LessIsStrictTotal(p.key.symbol, p.key.symbol);
    forall n: Payload | m.Some? && Less(n.key.symbol, p.key.symbol) && Less(p.key.symbol, m.value.key.symbol)
      ensures Less(n.key.symbol, m.value.key.symbol)
    {
      LessTransitive(n.key.symbol, p.key.symbol, m.value.key.symbol);
    }
  }

  lemma {:induction false} NominatedIsLeast(b: Bridge, payloads: seq<Payload>, t: Trade)
    requires b.ready && WellRead(payloads)
    ensures var s := ObserveAll(b, payloads);
      OnePerTrade(s.pnlOnly) && NomineeLeast(b, payloads, t, Nominee(s.pnlOnly, t))
  {
    hide Observe, OnlyPnlChanged, Keys, Nominate, NomineeLeast, OnePerTrade, Less;
    if payloads == [] {
      NobodyIsLeast(b, t);
    } else {
      var n := |payloads| - 1;
      var s, p := ObserveAll(b, payloads[..n]), payloads[n];
      NominatedIsLeast(b, payloads[..n], t);
      LastKeyIsNew(payloads);
      ObserveLeavesOthers(b, payloads[..n], p);
      ObserveOneNominates(s, p);
      NomineeAfter(s.pnlOnly, p, t);
      LeastOneMore(b, payloads[..n], t, Nominee(s.pnlOnly, t), p);
      NomineeOfTrade(s.pnlOnly, t);
      assert payloads == payloads[..n] + [p];
    }
  }

  lemma NomineeOfTrade(legs: seq<Payload>, t: Trade)
    ensures Nominee(legs, t).Some? ==> Nominee(legs, t).value.TradeOf() == t
  {}

  lemma NobodyIsLeast(b: Bridge, t: Trade)
    ensures OnePerTrade([]) && NomineeLeast(b, [], t, Nominee([], t))
  {}

  ghost predicate OnlyLegOfKey(payloads: seq<Payload>, p: Payload) {
    forall q :: q in payloads && q.key == p.key ==> q == p
  }

  lemma WellReadOnlyLeg(payloads: seq<Payload>, p: Payload)
    requires WellRead(payloads) && p in payloads
    ensures OnlyLegOfKey(payloads, p)
  {}

  /** Watching the legs neither tells nor forgets a change of profit and loss alone. */
  lemma {:induction false} ObserveKeepsPending(b: Bridge, payloads: seq<Payload>, p: Payload)
    requires b.ready && OnlyLegOfKey(payloads, p) && OnlyPnlChanged(b, p)
    ensures var s := ObserveAll(b, payloads);
      s.bridge.ready && OnlyPnlChanged(s.bridge, p) && !Carries(s.emitted, p.key)
  {
    hide OnlyPnlChanged, Observe, Carries;
    if payloads == [] {
      CarriesNothing(p.key);
    } else {
      var n := |payloads| - 1;
      var s, q := ObserveAll(b, payloads[..n]), payloads[n];
      ObserveKeepsPending(b, payloads[..n], p);
      if q.key == p.key {
        assert q in payloads;
        ObservePending(s, p);
      } else {
        ObserveLeavesOther(s, q, p);
        ObserveCarries(s, q, p.key);
      }
    }
  }

  lemma CarriesNothing(k: Key)
    ensures !Carries([], k)
  {}

  lemma ObservePending(s: Polling, p: Payload)
    requires s.bridge.ready && OnlyPnlChanged(s.bridge, p)
    ensures Observe(s, p).bridge == s.bridge && Observe(s, p).emitted == s.emitted
  {
    hide Nominate;
  }

  lemma ObserveCarries(s: Polling, q: Payload, k: Key)
    requires q.key != k
    ensures Carries(Observe(s, q).emitted, k) <==> Carries(s.emitted, k)
  {
    hide Carries, Classify, Nominate, SameStructure, SamePnl, Remember;
    CarriesOneMore(s.emitted, Record(Classify(StatusOf(s.bridge, q.key), q.status, q.closeInProgress), q), k);
  }

  /** Marking a trade as told brings exactly its own legs up to date. */
  lemma {:induction false} MarkToldPnl(b: Bridge, payloads: seq<Payload>, t: Trade, p: Payload)
    requires OnlyLegOfKey(payloads, p)
    ensures SamePnl(MarkTold(b, payloads, t), p) <==> (t == p.TradeOf() && p in payloads) || SamePnl(b, p)
  {
    if payloads != [] {
      var n := |payloads| - 1;
      MarkToldPnl(b, payloads[..n], t, p);
      assert payloads == payloads[..n] + [payloads[n]];
      assert payloads[n].key == p.key ==> payloads[n] == p;
    }
  }

  lemma {:induction false} TellsPending(s: Polling, n: nat, payloads: seq<Payload>, now: real, interval: real, p: Payload)
    requires n <= |s.pnlOnly| && Nominated(s.pnlOnly, payloads) && p.TradeOf() !in s.told
    requires OnlyLegOfKey(payloads, p) && p in payloads && !SamePnl(s.bridge, p) && !Carries(s.emitted, p.key)
    ensures var after := TellPnls(s, n, payloads, now, interval);
      && (SamePnl(after.bridge, p) <==> p.TradeOf() in after.told)
      && (Carries(after.emitted, p.key) <==> p.TradeOf() in after.told && p in s.pnlOnly[..n])
  {
    hide SamePnl, Carries, MarkTold, Throttled, OnlyLegOfKey, Nominated;
    if n > 0 {
      var before, m := TellPnls(s, n - 1, payloads, now, interval), s.pnlOnly[n - 1];
      var t := m.TradeOf();
      TellsPending(s, n - 1, payloads, now, interval, p);
      MarkToldPnl(before.bridge.(lastPnlEmit := before.bridge.lastPnlEmit[t := now]), payloads, t, p);
      SamePnlOnly(before.bridge, before.bridge.(lastPnlEmit := before.bridge.lastPnlEmit[t := now]), p);
      CarriesOneMore(before.emitted, Record(PositionUpdate, m), p.key);
      LegOfKey(payloads, s.pnlOnly, n - 1, p);
      TellsOnce(s, n - 1, payloads, now, interval, t);
      assert s.pnlOnly[..n] == s.pnlOnly[..n - 1] + [m];
    }
  }

  lemma SamePnlOnly(b: Bridge, c: Bridge, p: Payload)
    requires c.pnls == b.pnls
    ensures SamePnl(c, p) <==> SamePnl(b, p)
  {}

  /** A nominated leg with the key is the leg, and no other nominated leg has its trade. */
  lemma LegOfKey(payloads: seq<Payload>, legs: seq<Payload>, i: nat, p: Payload)
    requires Nominated(legs, payloads) && OnlyLegOfKey(payloads, p) && i < |legs|
    ensures legs[i].key == p.key ==> legs[i] == p
    ensures legs[i].TradeOf() == p.TradeOf() ==> p !in legs[..i]
    ensures p in legs[..i] ==> legs[i] != p
  {}

  /** A trade is told at most once in a poll. */
  lemma TellsOnce(s: Polling, n: nat, payloads: seq<Payload>, now: real, interval: real, t: Trade)
    requires n < |s.pnlOnly| && Nominated(s.pnlOnly, payloads) && s.pnlOnly[n].TradeOf() == t
    ensures t !in s.told ==> t !in TellPnls(s, n, payloads, now, interval).told
  {
    if t !in s.told {
      TellsUnlessThrottled(s, n, payloads, now, interval, t);
    }
  }

  lemma {:induction false} CloseKeepsPending(s: Polling, keys: seq<Key>, reloaded: map<Key, Payload>, p: Payload)
    requires p.key !in keys
    ensures var after := CloseAll(s, keys, reloaded);
      && (SamePnl(after.bridge, p) <==> SamePnl(s.bridge, p))
      && (Carries(after.emitted, p.key) <==> Carries(s.emitted, p.key))
  {
    hide Carries;
    if keys != [] {
      var n := |keys| - 1;
      assert keys[n] in keys;
      CloseKeepsPending(s, keys[..n], reloaded, p);
      var before := CloseAll(s, keys[..n], reloaded);
      CarriesOneMore(before.emitted, ClosingRecord(before.bridge, keys[n], reloaded), p.key);
    }
  }

  /** Another leg of the trade with a lesser symbol changed profit and loss alone. */
  predicate Outranked(b: Bridge, payloads: seq<Payload>, p: Payload) {
    exists n :: n in payloads && n.TradeOf() == p.TradeOf() && OnlyPnlChanged(b, n) && Less(n.key.symbol, p.key.symbol)
  }

  lemma OutrankedIff(b: Bridge, payloads: seq<Payload>, p: Payload, m: Payload)
    requires OnlyLegOfKey(payloads, p) && p in payloads && OnlyPnlChanged(b, p)
    requires Least(b, payloads, m) && m.TradeOf() == p.TradeOf()
    ensures Outranked(b, payloads, p) <==> m != p
  {
    hide OnlyPnlChanged, Less;
    LessIsStrictTotal(m.key.symbol, p.key.symbol);
    assert m.key.symbol == p.key.symbol ==> m.key == p.key;
  }

  /** A change of a leg's profit and loss alone is marked as told although no record
      carries it exactly when its trade is not throttled and another leg of the trade with
      a lesser symbol has such a change too. */
  lemma SwallowedIff(b: Bridge, r: Reading, interval: real, p: Payload)
    requires b.ready && WellRead(r.payloads) && p in r.payloads && OnlyPnlChanged(b, p)
    ensures var after := Poll(b, r, interval);
      SamePnl(after.bridge, p) && !Carries(after.emitted, p.key)
      <==> !Throttled(b, p.TradeOf(), r.now, interval) && Outranked(b, r.payloads, p)
    ensures Carries(Poll(b, r, interval).emitted, p.key)
      <==> !Throttled(b, p.TradeOf(), r.now, interval) && !Outranked(b, r.payloads, p)
  {
    hide ObserveAll, TellPnls, CloseAll, Vanished, WellRead, SamePnl, SameStructure, Nominated, Carries, Least, Outranked, Keys;
    var s, t := ObserveAll(b, r.payloads), p.TradeOf();
    WellReadOnlyLeg(r.payloads, p);
    ObserveKeepsPending(b, r.payloads, p);
    ObserveKeepsClock(b, r.payloads);
    NominatedLegs(b, r.payloads);
    NominatedIsLeast(b, r.payloads, t);
    var m := Nominee(s.pnlOnly, t).value;
    OutrankedIff(b, r.payloads, p, m);
    NomineeInLegs(s.pnlOnly, r.payloads, p, m);
    TellsPending(s, |s.pnlOnly|, r.payloads, r.now, interval, p);
    TellsUnlessThrottled(s, |s.pnlOnly|, r.payloads, r.now, interval, t);
    assert s.pnlOnly[..|s.pnlOnly|] == s.pnlOnly;
    var told := TellPnls(s, |s.pnlOnly|, r.payloads, r.now, interval);
    var keys := Vanished(told.bridge, told.bridge.known, Keys(r.payloads));
    assert p.key in Keys(r.payloads);
    CloseKeepsPending(told, keys, r.reloaded, p);
    var closed := CloseAll(told, keys, r.reloaded);
    SamePnlOnly(closed.bridge, closed.bridge.(ready := true), p);
  }

  lemma NomineeInLegs(legs: seq<Payload>, payloads: seq<Payload>, p: Payload, m: Payload)
    requires Nominated(legs, payloads) && Nominee(legs, p.TradeOf()) == Some(m)
    ensures p in legs <==> m == p
    ensures exists i :: 0 <= i < |legs| && legs[i].TradeOf() == p.TradeOf()
  {
    var i := TradeIndex(legs, p.TradeOf()).value;
    assert legs[i] == m;
  }

  /** When two legs of a trade change profit and loss together, only the lesser symbol is
      told; the other counts as told although no record carried it. */
  lemma SiblingPnlIsSwallowed(b: Bridge, p: Payload, n: Payload, now: real, interval: real)
    requires b.ready && n.key != p.key && n.TradeOf() == p.TradeOf() && Less(n.key.symbol, p.key.symbol)
    requires OnlyPnlChanged(b, n) && OnlyPnlChanged(b, p) && !Throttled(b, n.TradeOf(), now, interval)
    requires forall k :: k in b.known && StatusOf(b, k) == Some("OPEN") ==> k in {n.key, p.key}
    ensures var after := Poll(b, Reading([p, n], now, map[]), interval);
      && after.emitted == [Record(PositionUpdate, n)]
      && SamePnl(after.bridge, p) && SamePnl(after.bridge, n)
  {
    hide ObserveAll, TellPnls, Throttled, Less, Vanished, Keys, OnlyPnlChanged, Mark;
    var legs := [p, n];
    BothObserved(b, p, n);
    BothTold(b, p, n, now, interval);
    var marked := Mark(Mark(b.(lastPnlEmit := b.lastPnlEmit[n.TradeOf() := now]), p), n);
    MarkedBoth(b, p, n, now);
    KeysOfTwo(p, n);
    NothingVanished(marked, marked.known, Keys(legs));
  }

  lemma BothObserved(b: Bridge, p: Payload, n: Payload)
    requires b.ready && n.TradeOf() == p.TradeOf() && Less(n.key.symbol, p.key.symbol)
    requires OnlyPnlChanged(b, n) && OnlyPnlChanged(b, p)
    ensures ObserveAll(b, [p, n]) == Polling(b, [], [n], [])
  {
    hide OnlyPnlChanged, Less, Nominate, ObserveAll;
    NominateBoth(p, n);
    ObserveOne(b, p);
    ObserveTwo(b, p, n);
  }

  lemma BothTold(b: Bridge, p: Payload, n: Payload, now: real, interval: real)
    requires n.TradeOf() == p.TradeOf() && n.key != p.key && !Throttled(b, n.TradeOf(), now, interval)
    ensures
      TellPnls(Polling(b, [], [n], []), 1, [p, n], now, interval)
      == Polling(Mark(Mark(b.(lastPnlEmit := b.lastPnlEmit[n.TradeOf() := now]), p), n),
                 [Record(PositionUpdate, n)], [n], [n.TradeOf()])
  {
    hide Throttled, MarkTold, Mark;
    MarkBoth(b.(lastPnlEmit := b.lastPnlEmit[n.TradeOf() := now]), p, n);
    var s := Polling(b, [], [n], []);
    assert TellPnls(s, 0, [p, n], now, interval) == s;
  }

  lemma MarkedBoth(b: Bridge, p: Payload, n: Payload, now: real)
    requires n.key != p.key
    ensures var marked := Mark(Mark(b.(lastPnlEmit := b.lastPnlEmit[n.TradeOf() := now]), p), n);
      && SamePnl(marked, p) && SamePnl(marked, n) && marked.known == b.known && marked.status == b.status
  {}

  lemma NominateBoth(p: Payload, n: Payload)
    requires n.TradeOf() == p.TradeOf() && Less(n.key.symbol, p.key.symbol)
    ensures Nominate([], p) == [p] && Nominate([p], n) == [n]
  {}

  lemma ObserveOne(b: Bridge, p: Payload)
    requires b.ready && OnlyPnlChanged(b, p)
    ensures ObserveAll(b, [p]) == Polling(b, [], Nominate([], p), [])
  {
    assert [p][..0] == [];
  }

  lemma ObserveTwo(b: Bridge, p: Payload, n: Payload)
    requires b.ready && OnlyPnlChanged(b, n) && ObserveAll(b, [p]) == Polling(b, [], [p], [])
    ensures ObserveAll(b, [p, n]) == Polling(b, [], Nominate([p], n), [])
  {
    hide Nominate;
    assert [p, n][..1] == [p];
  }

  lemma MarkBoth(b: Bridge, p: Payload, n: Payload)
    requires n.TradeOf() == p.TradeOf() && n.key != p.key
    ensures MarkTold(b, [p, n], n.TradeOf()) == Mark(Mark(b, p), n)
  {
    assert [p, n][..1] == [p] && [p][..0] == [];
    assert MarkTold(b, [p], n.TradeOf()) == Mark(b, p);
  }

  lemma KeysOfTwo(p: Payload, n: Payload)
    ensures Keys([p, n]) == {p.key, n.key}
  {
    assert p in [p, n] && n in [p, n];
  }

  lemma {:induction false} NothingVanished(b: Bridge, keys: seq<Key>, seen: set<Key>)
    requires forall k :: k in keys && StatusOf(b, k) == Some("OPEN") ==> k in seen
    ensures Vanished(b, keys, seen) == []
  {
    if keys != [] {
      NothingVanished(b, keys[..|keys| - 1], seen);
    }
  }

  // ---- The bridge object ----

  class PositionBridge {
    const pnlEmitInterval: real
    var structuralFingerprints: map<Key, Payload>
    var pnlFingerprints: map<Key, Option<string>>
    var known: seq<Key>
    var status: map<Key, string>
    var lastPayload: map<Key, Payload>
    var lastPnlEmit: map<Trade, real>
    var baselineReady: bool

    ghost function State(): Bridge
      reads this
    {
      Bridge(structuralFingerprints, pnlFingerprints, known, status, lastPayload, lastPnlEmit, baselineReady)
    }

    constructor (pnlEmitInterval: real)
      ensures State() == FRESH && this.pnlEmitInterval == pnlEmitInterval
    {
      this.pnlEmitInterval := pnlEmitInterval;
      structuralFingerprints, pnlFingerprints, known, status := map[], map[], [], map[];
      lastPayload, lastPnlEmit, baselineReady := map[], map[], false;
    }

    method SetFingerprints(p: Payload)
      modifies this`structuralFingerprints, this`pnlFingerprints, this`lastPayload
      ensures State() == Mark(old(State()), p)
    {
      structuralFingerprints := structuralFingerprints[p.key := p.Structure()];
      pnlFingerprints := pnlFingerprints[p.key := p.pnl];
      lastPayload := lastPayload[p.key := p];
    }

    method RememberLeg(p: Payload)
      modifies this
      ensures State() == Remember(old(State()), p)
    {
      SetFingerprints(p);
      if p.key !in status {
        known := known + [p.key];
      }
      status := status[p.key := p.status];
    }

    method RestoreBaseline(payloads: seq<Payload>)
      modifies this
      ensures State() == Restore(old(State()), payloads)
    {
      baselineReady := true;
      for i := 0 to |payloads|
        invariant State() == Restore(old(State()), payloads[..i])
      {
        assert payloads[..i + 1][..i] == payloads[..i];
        RememberLeg(payloads[i]);
      }
      assert payloads[..|payloads|] == payloads;
    }

    /** Compares every leg with what was last told of it. */
    method WatchLegs(payloads: seq<Payload>) returns (emitted: seq<Record>, pnlOnly: seq<Payload>)
      modifies this
      ensures Polling(State(), emitted, pnlOnly, []) == ObserveAll(old(State()), payloads)
    {
      hide Remember, Nominate, Classify, Payload.Structure;
      emitted, pnlOnly := [], [];
      for i := 0 to |payloads|
        invariant Polling(State(), emitted, pnlOnly, []) == ObserveAll(old(State()), payloads[..i])
      {
        assert payloads[..i + 1][..i] == payloads[..i];
        var p := payloads[i];
        var structureChanged := !(p.key in structuralFingerprints && structuralFingerprints[p.key] == p.Structure());
        var previousPnl := if p.key in pnlFingerprints then pnlFingerprints[p.key] else None;
        if !structureChanged && previousPnl == p.pnl {
          lastPayload := lastPayload[p.key := p];
        } else if !baselineReady {
          RememberLeg(p);
        } else if structureChanged {
          var previous := if p.key in status then Some(status[p.key]) else None;
          emitted := emitted + [Record(Classify(previous, p.status, p.closeInProgress), p)];
          RememberLeg(p);
        } else {
          pnlOnly := Nominate(pnlOnly, p);
        }
      }
      assert payloads[..|payloads|] == payloads;
    }

    /** Emits the nominated legs whose trade is not throttled. */
    method TellProfitAndLoss(soFar: seq<Record>, pnlOnly: seq<Payload>, payloads: seq<Payload>, now: real)
      returns (emitted: seq<Record>, ghost told: seq<Trade>)
      modifies this
      ensures Polling(State(), emitted, pnlOnly, told)
           == TellPnls(Polling(old(State()), soFar, pnlOnly, []), |pnlOnly|, payloads, now, pnlEmitInterval)
    {
      emitted, told := soFar, [];
      ghost var observed := Polling(State(), soFar, pnlOnly, []);
      for i := 0 to |pnlOnly|
        invariant Polling(State(), emitted, pnlOnly, told) == TellPnls(observed, i, payloads, now, pnlEmitInterval)
      {
        var p := pnlOnly[i];
        var t := p.TradeOf();
        var last := if t in lastPnlEmit then lastPnlEmit[t] else 0.0;
        if now - last >= pnlEmitInterval {
          emitted := emitted + [Record(PositionUpdate, p)];
          told := told + [t];
          lastPnlEmit := lastPnlEmit[t := now];
          MarkTrade(payloads, t);
        }
      }
    }

    method MarkTrade(payloads: seq<Payload>, t: Trade)
      modifies this
      ensures State() == MarkTold(old(State()), payloads, t)
    {
      for i := 0 to |payloads|
        invariant State() == MarkTold(old(State()), payloads[..i], t)
      {
        assert payloads[..i + 1][..i] == payloads[..i];
        if payloads[i].TradeOf() == t {
          SetFingerprints(payloads[i]);
        }
      }
      assert payloads[..|payloads|] == payloads;
    }

    method FindVanished(seen: set<Key>) returns (keys: seq<Key>)
      ensures keys == Vanished(State(), known, seen)
    {
      keys := [];
      for i := 0 to |known|
        invariant keys == Vanished(State(), known[..i], seen)
      {
        assert known[..i + 1][..i] == known[..i];
        if known[i] !in seen && known[i] in status && status[known[i]] == "OPEN" {
          keys := keys + [known[i]];
        }
      }
      assert known[..|known|] == known;
    }

    method CloseVanished(soFar: seq<Record>, ghost before: Polling, keys: seq<Key>, reloaded: map<Key, Payload>)
      returns (emitted: seq<Record>)
      requires State() == before.bridge && soFar == before.emitted
      modifies this
      ensures Polling(State(), emitted, before.pnlOnly, before.told) == CloseAll(before, keys, reloaded)
    {
      hide Close;
      emitted := soFar;
      for i := 0 to |keys|
        invariant Polling(State(), emitted, before.pnlOnly, before.told) == CloseAll(before, keys[..i], reloaded)
      {
        assert keys[..i + 1][..i] == keys[..i];
        emitted := CloseKey(emitted, Polling(State(), emitted, before.pnlOnly, before.told), keys[i], reloaded);
      }
      assert keys[..|keys|] == keys;
    }

    method CloseKey(soFar: seq<Record>, ghost before: Polling, k: Key, reloaded: map<Key, Payload>) returns (emitted: seq<Record>)
      requires State() == before.bridge && soFar == before.emitted
      modifies this
      ensures Polling(State(), emitted, before.pnlOnly, before.told) == Close(before, k, reloaded)
    {
      hide ClosingRecord;
      var record := MakeClosing(k, reloaded);
      emitted := soFar + [record];
      status := status[k := "CLOSED"];
      structuralFingerprints := structuralFingerprints - {k};
      pnlFingerprints := pnlFingerprints - {k};
      lastPayload := lastPayload - {k};
    }

    method MakeClosing(k: Key, reloaded: map<Key, Payload>) returns (r: Record)
      ensures r == ClosingRecord(State(), k, reloaded)
    {
      var p := Payload(k, "", false, "", None, "", 0);
      if k in reloaded {
        p := reloaded[k];
      } else if k in lastPayload {
        p := lastPayload[k];
      }
      r := Record(PositionClosed, p.(key := k, status := "CLOSED"));
    }

    /** One poll: structural changes, then profit and loss, then closings. */
    method PollOnce(r: Reading) returns (emitted: seq<Record>, ghost told: seq<Trade>)
      modifies this
      ensures State() == Poll(old(State()), r, pnlEmitInterval).bridge
      ensures emitted == Poll(old(State()), r, pnlEmitInterval).emitted
      ensures told == Poll(old(State()), r, pnlEmitInterval).told
    {
      hide ObserveAll, TellPnls, Vanished, CloseAll;
      var pnlOnly: seq<Payload>;
      emitted, pnlOnly := WatchLegs(r.payloads);
      emitted, told := TellProfitAndLoss(emitted, pnlOnly, r.payloads, r.now);
      ghost var tells := Polling(State(), emitted, pnlOnly, told);
      var keys := FindVanished(Keys(r.payloads));
      emitted := CloseVanished(emitted, tells, keys, r.reloaded);
      baselineReady := true;
    }
  }
}
