/** The broker adapter's tables as one value, and each callback as a step on it. Orders
    are known by their place in the registration order. */
module Adapter {
  import opened Sides
  import opened Options
  import opened Orders
  import opened OmsOrders
  import opened Text

  datatype Kind = AckEvent | PartialFillEvent | FillEvent | CommissionEvent | StatusEvent(status: Status)

  /** What listeners were told. */
  datatype Event = Event(order: nat, kind: Kind)

  datatype State = State(
    orders: seq<OmsOrder>,
    byTws: map<int, nat>,
    internalByTws: map<int, string>,
    execOrder: map<ExecKey, nat>,
    seen: set<ExecKey>,
    commissioned: set<ExecKey>,
    pending: map<ExecKey, real>,
    acked: set<nat>,
    fillEmitted: set<nat>,
    partialEmitted: map<nat, real>,
    log: seq<Event>)

  const EMPTY := State([], map[], map[], map[], {}, {}, map[], {}, {}, map[], [])

  /** Ids that are 0 or empty were not sent; `side` is None when it is neither a buy nor
      a sell, and a price is None when it is not finite. */
  datatype Callback =
    | OrderStatus(id: int, raw: string, filled: real, remaining: real, average: Option<real>, permId: int, last: Option<real>)
    | OpenOrder(id: int, raw: string, permId: int, conId: int, side: Option<Side>, quantity: real)
    | ExecDetails(id: int, execId: string, conId: int, side: Option<Side>, report: Report)
    | CommissionReport(execId: string, commission: Option<real>)
    | BrokerError(id: int, code: int, text: string)
    | ConnectionClosed
    | ConnectionRestored
    | Submit(order: OmsOrder, id: int)
    | Adopt(order: OmsOrder)

  // ---- Which order a broker id means ----

  predicate InRange(s: State) {
    && (forall id :: id in s.byTws ==> s.byTws[id] < |s.orders|)
    && (forall key :: key in s.execOrder ==> s.execOrder[key] < |s.orders|)
  }

  function Bind(s: State, k: nat, id: int): State
    requires k < |s.orders|
  {
    var o := s.orders[k];
    var stale := if o.twsId.Some? && o.twsId.value != id then {o.twsId.value} else {};
    s.(orders := s.orders[k := o.(twsId := Some(id))],
       byTws := (s.byTws - stale)[id := k],
       internalByTws := (s.internalByTws - stale)[id := o.internalId])
  }

  function FirstWithPermId(orders: seq<OmsOrder>, permId: int): (r: Option<nat>)
    ensures r.Some? ==> r.value < |orders| && orders[r.value].permId == permId
    ensures r.Some? ==> forall j :: 0 <= j < r.value ==> orders[j].permId != permId
    ensures r.None? ==> forall j :: 0 <= j < |orders| ==> orders[j].permId != permId
  {
    if orders == [] then None
    else
      var n := |orders| - 1;
      var earlier := FirstWithPermId(orders[..n], permId);
      if earlier.Some? then earlier else if orders[n].permId == permId then Some(n) else None
  }

  const QTY_MATCH: real := 0.000001

  /** A live order without a broker id, for the same contract, side and quantity. */
  predicate IsCandidate(s: State, k: nat, conId: int, side: Side, quantity: real) {
    && k < |s.orders| && (forall id :: id in s.byTws ==> s.byTws[id] != k)
    && var o := s.orders[k];
    && !Terminal(o.status) && o.conId == Some(conId) && o.side == side
    && -QTY_MATCH <= o.quantity - quantity <= QTY_MATCH
  }

  function Candidates(s: State, n: nat, conId: int, side: Side, quantity: real): (r: seq<nat>)
    ensures forall k: nat :: k in r <==> k < n && IsCandidate(s, k, conId, side, quantity)
    ensures forall i :: 0 <= i < |r| ==> r[i] < n && IsCandidate(s, r[i], conId, side, quantity)
    ensures forall i, j :: 0 <= i < j < |r| ==> r[i] < r[j]
  {
    if n == 0 then []
    else
      var earlier := Candidates(s, n - 1, conId, side, quantity);
      if IsCandidate(s, n - 1, conId, side, quantity) then earlier + [n - 1] else earlier
  }

  /** The order a callback is about, by id, else by permanent id, else by contract, side
      and quantity when that leaves one choice. None otherwise. */
  function Target(s: State, id: int, permId: int, conId: int, side: Option<Side>, quantity: Option<real>): (r: Option<nat>)
    requires InRange(s)
    ensures r.Some? ==> r.value < |s.orders|
  {
    if id in s.byTws then Some(s.byTws[id])
    else if permId != 0 && FirstWithPermId(s.orders, permId).Some? then FirstWithPermId(s.orders, permId)
    else if conId != 0 && side.Some? && quantity.Some? then
      var candidates := Candidates(s, |s.orders|, conId, side.value, quantity.value);
      if |candidates| == 1 then Some(candidates[0]) else None
    else None
  }

  /** The state once that order carries the id. */
  function Resolve(s: State, id: int, permId: int, conId: int, side: Option<Side>, quantity: Option<real>): State
    requires InRange(s)
  {
    var found := Target(s, id, permId, conId, side, quantity);
    if id in s.byTws || found.None? then s else Bind(s, found.value, id)
  }

  // ---- What listeners are told ----

  datatype Source = FromStatus | FromOpenOrder | FromExecution

  predicate TellsPartialByStatus(s: State, k: nat, source: Source)
    requires k < |s.orders|
  {
    && s.orders[k].status == PartiallyFilled && source == FromStatus && s.orders[k].executions == []
    && s.orders[k].filled > (if k in s.partialEmitted then s.partialEmitted[k] else 0.0)
  }

  function FillKinds(s: State, k: nat, source: Source, isNew: bool): seq<Kind>
    requires k < |s.orders|
  {
    if s.orders[k].status == Filled then (if k in s.fillEmitted then [] else [FillEvent])
    else if s.orders[k].status == PartiallyFilled && source == FromExecution && isNew then [PartialFillEvent]
    else if TellsPartialByStatus(s, k, source) then [PartialFillEvent]
    else []
  }

  function Kinds(s: State, k: nat, source: Source, isNew: bool): seq<Kind>
    requires k < |s.orders|
  {
    (if k in s.acked then [] else [AckEvent]) + FillKinds(s, k, source, isNew)
  }

  function Tag(k: nat, kinds: seq<Kind>): (r: seq<Event>)
    ensures |r| == |kinds| && forall i :: 0 <= i < |r| ==> r[i] == Event(k, kinds[i])
  {
    if kinds == [] then [] else Tag(k, kinds[..|kinds| - 1]) + [Event(k, kinds[|kinds| - 1])]
  }

  function Announce(s: State, k: nat, source: Source, isNew: bool): State
    requires k < |s.orders|
  {
    s.(acked := s.acked + {k},
       fillEmitted := if s.orders[k].status == Filled then s.fillEmitted + {k} else s.fillEmitted,
       partialEmitted := if TellsPartialByStatus(s, k, source) then s.partialEmitted[k := s.orders[k].filled]
                         else s.partialEmitted,
       log := s.log + Tag(k, Kinds(s, k, source, isNew)))
  }

  // ---- Callbacks ----

  function OnOrderStatus(s: State, c: Callback): State
    requires c.OrderStatus? && InRange(s)
  {
    var found := Target(s, c.id, c.permId, 0, None, None);
    if found.None? then s
    else
      var k, bound := found.value, Resolve(s, c.id, c.permId, 0, None, None);
      var o := OnStatusReport(bound.orders[k], c.raw, c.filled, c.remaining, c.average, c.permId, c.last);
      Announce(bound.(orders := bound.orders[k := o]), k, FromStatus, false)
  }

  function Offered(quantity: real): Option<real> {
    if quantity > 0.0 then Some(quantity) else None
  }

  function OnOpenOrder(s: State, c: Callback): State
    requires c.OpenOrder? && InRange(s)
  {
    var found := Target(s, c.id, c.permId, c.conId, c.side, Offered(c.quantity));
    if c.raw == "" || found.None? then s
    else
      var k, bound := found.value, Resolve(s, c.id, c.permId, c.conId, c.side, Offered(c.quantity));
      var o := OnOpenOrderReport(bound.orders[k], c.raw, c.permId);
      Announce(bound.(orders := bound.orders[k := o]), k, FromOpenOrder, false)
  }

  function KeyFor(o: OmsOrder, execId: string, r: Report): ExecKey {
    if execId != "" then Given(execId) else Synthetic(o.internalId, r.shares, Usable(r.price, None), r.cumQty)
  }

  function Execute(s: State, k: nat, execId: string, r: Report): State
    requires k < |s.orders|
  {
    var key := KeyFor(s.orders[k], execId, r);
    var isNew := key !in s.seen;
    var recorded := isNew && Recordable(r);
    var buffered := if recorded && key in s.pending then Some(s.pending[key]) else None;
    var o := OmsOrders.OnExecution(s.orders[k], key, isNew, r, buffered);
    Announce(
      s.(orders := s.orders[k := o], seen := s.seen + {key}, execOrder := s.execOrder[key := k],
         pending := if recorded then s.pending - {key} else s.pending,
         commissioned := if buffered.Some? then s.commissioned + {key} else s.commissioned),
      k, FromExecution, isNew)
  }

  function OnExecDetails(s: State, c: Callback): State
    requires c.ExecDetails? && InRange(s)
  {
    var found := Target(s, c.id, c.report.permId, c.conId, c.side, Offered(c.report.shares));
    if found.None? then s
    else
      Execute(Resolve(s, c.id, c.report.permId, c.conId, c.side, Offered(c.report.shares)), found.value, c.execId, c.report)
  }

  function RecordOf(s: State, key: ExecKey): (r: Option<nat>)
    requires InRange(s)
    ensures r.Some? ==> key in s.execOrder && r.value < |s.orders[s.execOrder[key]].executions|
  {
    if key in s.execOrder then RecordIndex(s.orders[s.execOrder[key]].executions, key) else None
  }

  function OnCommissionReport(s: State, execId: string, raw: Option<real>): State
    requires InRange(s)
  {
    var key, commission := Given(execId), Usable(raw, Some(0.0)).value;
    if execId == "" || key in s.commissioned then s
    else if RecordOf(s, key).None? then s.(pending := s.pending[key := commission])
    else
      var k := s.execOrder[key];
      s.(orders := s.orders[k := OmsOrders.OnCommission(s.orders[k], RecordOf(s, key).value, commission)],
         commissioned := s.commissioned + {key},
         log := s.log + [Event(k, CommissionEvent)])
  }

  function OnBrokerError(s: State, id: int, code: int, text: string): State
    requires InRange(s)
  {
    if id !in s.byTws || ErrorText(code, text).None? || !Blank(s.orders[s.byTws[id]].message) then s
    else
      var k := s.byTws[id];
      var o := OnErrorReport(s.orders[k], code, text);
      s.(orders := s.orders[k := o], log := s.log + [Event(k, StatusEvent(o.status))])
  }

  function ParkAll(orders: seq<OmsOrder>): (r: seq<OmsOrder>)
    ensures |r| == |orders| && forall i :: 0 <= i < |r| ==> r[i] == Park(orders[i])
  {
    if orders == [] then [] else ParkAll(orders[..|orders| - 1]) + [Park(orders[|orders| - 1])]
  }

  function UnparkAll(orders: seq<OmsOrder>): (r: seq<OmsOrder>)
    ensures |r| == |orders| && forall i :: 0 <= i < |r| ==> r[i] == Unpark(orders[i])
  {
    if orders == [] then [] else UnparkAll(orders[..|orders| - 1]) + [Unpark(orders[|orders| - 1])]
  }

  predicate Registered(s: State, internalId: string) {
    exists k :: 0 <= k < |s.orders| && s.orders[k].internalId == internalId
  }

  /** The tables after submitting under an allocated id; a second submission is refused. */
  function OnSubmit(s: State, o: OmsOrder, id: int): State {
    if Registered(s, o.internalId) then s
    else
      s.(orders := s.orders + [o.(twsId := Some(id))],
         byTws := s.byTws[id := |s.orders|],
         internalByTws := s.internalByTws[id := o.internalId])
  }

  /** The registered order with the internal id. */
  function PlaceOf(orders: seq<OmsOrder>, internalId: string): (r: Option<nat>)
    ensures r.Some? ==> r.value < |orders| && orders[r.value].internalId == internalId
    ensures r.None? ==> forall k :: 0 <= k < |orders| ==> orders[k].internalId != internalId
  {
    if orders == [] then None
    else if orders[|orders| - 1].internalId == internalId then Some(|orders| - 1)
    else PlaceOf(orders[..|orders| - 1], internalId)
  }

  /** Replacing an order leaves it filed under a broker id that the new one does not take
      over. */
  predicate LeavesStale(was: OmsOrder, o: OmsOrder) {
    was.twsId.Some? && was.twsId != o.twsId
  }

  /** Registering an existing order. One with the same internal id gives up its place; if
      it stays filed under a broker id, it lives on behind the registered ones. */
  function Registering(s: State, o: OmsOrder): State
    requires InRange(s)
  {
    var at := PlaceOf(s.orders, o.internalId);
    if at.None? then s.(orders := s.orders + [o])
    else
      var was := s.orders[at.value];
      var orders := s.orders[at.value := o];
      if LeavesStale(was, o) then s.(orders := orders + [was], byTws := s.byTws[was.twsId.value := |orders|])
      else s.(orders := orders)
  }

  function OnAdopt(s: State, o: OmsOrder): State
    requires InRange(s)
  {
    var added := Registering(s, o);
    if o.twsId.Some? then Bind(added, PlaceOf(s.orders, o.internalId).GetOr(|s.orders|), o.twsId.value) else added
  }

  function Step(s: State, c: Callback): State
    requires InRange(s)
  {
    match c
    case OrderStatus(_, _, _, _, _, _, _) => OnOrderStatus(s, c)
    case OpenOrder(_, _, _, _, _, _) => OnOpenOrder(s, c)
    case ExecDetails(_, _, _, _, _) => OnExecDetails(s, c)
    case CommissionReport(execId, commission) => OnCommissionReport(s, execId, commission)
    case BrokerError(id, code, text) => OnBrokerError(s, id, code, text)
    case ConnectionClosed => s.(orders := ParkAll(s.orders))
    case ConnectionRestored => s.(orders := UnparkAll(s.orders))
    case Submit(o, id) => OnSubmit(s, o, id)
    case Adopt(o) => OnAdopt(s, o)
  }

  // ---- Order ids ----

  /** An order fresh from the OMS or from the ledger after a restart. */
  predicate Newborn(o: OmsOrder) {
    && o.executions == [] && o.commission == None && Honest(o)
    && o.status !in {Filled, Cancelled, Rejected}
  }

  /** What the OMS promises about the orders it hands over: new internal ids, allocated
      broker ids that are fresh, adopted ones that are nobody else's. */
  predicate Admissible(s: State, c: Callback) {
    match c
    case Submit(o, id) =>
      Registered(s, o.internalId) || (Newborn(o) && forall k :: 0 <= k < |s.orders| ==> s.orders[k].twsId != Some(id))
    case Adopt(o) =>
      && Newborn(o)
      && !Registered(s, o.internalId)
      && (o.twsId.Some? ==> forall k :: 0 <= k < |s.orders| ==> s.orders[k].twsId != Some(o.twsId.value))
    case _ => true
  }

  /** An order is filed under an id exactly when it carries that id, and the two id maps
      agree. So no order sits under two ids and no id belongs to two orders. */
  ghost predicate IdsConsistent(s: State) {
    && InRange(s)
    && s.byTws.Keys == s.internalByTws.Keys
    && (forall id :: id in s.byTws ==>
          s.orders[s.byTws[id]].twsId == Some(id) && s.internalByTws[id] == s.orders[s.byTws[id]].internalId)
    && (forall k :: 0 <= k < |s.orders| ==>
          (s.orders[k].twsId.Some? ==> s.orders[k].twsId.value in s.byTws && s.byTws[s.orders[k].twsId.value] == k))
    && DistinctInternalIds(s.orders)
  }

  ghost predicate DistinctInternalIds(orders: seq<OmsOrder>) {
    forall i, j :: 0 <= i < j < |orders| ==> orders[i].internalId != orders[j].internalId
  }

  lemma InternalIdsStay(before: seq<OmsOrder>, after: seq<OmsOrder>)
    requires DistinctInternalIds(before) && |after| == |before|
    requires forall k :: 0 <= k < |before| ==> after[k].internalId == before[k].internalId
    ensures DistinctInternalIds(after)
  {
    forall i, j | 0 <= i < j < |after| ensures after[i].internalId != after[j].internalId {
      assert before[i].internalId != before[j].internalId;
    }
  }

  lemma InternalIdsExtend(orders: seq<OmsOrder>, o: OmsOrder)
    requires DistinctInternalIds(orders) && forall k :: 0 <= k < |orders| ==> orders[k].internalId != o.internalId
    ensures DistinctInternalIds(orders + [o])
  {}

  /** Orders keep who they are and the id they carry. */
  ghost predicate SameIds(before: seq<OmsOrder>, after: seq<OmsOrder>) {
    |after| == |before| &&
    forall k :: 0 <= k < |before| ==> after[k].internalId == before[k].internalId && after[k].twsId == before[k].twsId
  }

  lemma SameIdsConsistent(before: State, after: State)
    requires IdsConsistent(before) && SameIds(before.orders, after.orders) && InRange(after)
    requires after.byTws == before.byTws && after.internalByTws == before.internalByTws
    ensures IdsConsistent(after)
  {
    InternalIdsStay(before.orders, after.orders);
  }

  lemma BindConsistent(s: State, k: nat, id: int)
    requires IdsConsistent(s) && k < |s.orders| && id !in s.byTws
    ensures IdsConsistent(Bind(s, k, id))
  {
    hide DistinctInternalIds;
    InternalIdsStay(s.orders, Bind(s, k, id).orders);
  }

  lemma ResolveConsistent(s: State, id: int, permId: int, conId: int, side: Option<Side>, quantity: Option<real>)
    requires IdsConsistent(s)
    ensures IdsConsistent(Resolve(s, id, permId, conId, side, quantity))
  {
    var found := Target(s, id, permId, conId, side, quantity);
    if id !in s.byTws && found.Some? {
      BindConsistent(s, found.value, id);
    }
  }

  /** Resolving never touches the binding of any order but the one it returns, files
      that one under the id, and changes nothing else about it. */
  lemma ResolveTouchesOnlyTarget(s: State, id: int, permId: int, conId: int, side: Option<Side>, quantity: Option<real>)
    requires IdsConsistent(s)
    ensures
      var found, after := Target(s, id, permId, conId, side, quantity), Resolve(s, id, permId, conId, side, quantity);
      && (found.None? ==> after == s)
      && (found.Some? ==>
            && after.orders == s.orders[found.value := s.orders[found.value].(twsId := Some(id))]
            && id in after.byTws && after.byTws[id] == found.value)
      && (forall other :: other in s.byTws && Some(s.byTws[other]) != found ==>
            other in after.byTws && after.byTws[other] == s.byTws[other])
  {}

  /** An id nobody carries is guessed from contract, side and quantity exactly when there
      is one candidate and the permanent id names no order. */
  lemma GuessIffUnique(s: State, id: int, permId: int, conId: int, side: Side, quantity: real, k: nat)
    requires InRange(s) && id !in s.byTws && conId != 0
    requires permId == 0 || forall j :: 0 <= j < |s.orders| ==> s.orders[j].permId != permId
    ensures Target(s, id, permId, conId, Some(side), Some(quantity)) == Some(k)
       <==> IsCandidate(s, k, conId, side, quantity)
            && forall j: nat :: IsCandidate(s, j, conId, side, quantity) ==> j == k
  {
    hide IsCandidate, Candidates;
    OnlyCandidate(s, conId, side, quantity, k);
  }

  lemma OnlyCandidate(s: State, conId: int, side: Side, quantity: real, k: nat)
    ensures
      var candidates := Candidates(s, |s.orders|, conId, side, quantity);
      |candidates| == 1 && candidates[0] == k
      <==> IsCandidate(s, k, conId, side, quantity) && forall j: nat :: IsCandidate(s, j, conId, side, quantity) ==> j == k
  {
    CandidatesInRange(s, conId, side, quantity);
    hide IsCandidate, Candidates;
    var candidates := Candidates(s, |s.orders|, conId, side, quantity);
    if IsCandidate(s, k, conId, side, quantity) && (forall j: nat :: IsCandidate(s, j, conId, side, quantity) ==> j == k) {
      assert k in candidates;
      FirstTwoDiffer(candidates);
    }
    if |candidates| == 1 {
      forall j: nat | IsCandidate(s, j, conId, side, quantity) ensures j == candidates[0] {
        assert j in candidates;
      }
    }
  }

  lemma FirstTwoDiffer(ks: seq<nat>)
    requires forall i, j :: 0 <= i < j < |ks| ==> ks[i] < ks[j]
    ensures |ks| > 1 ==> ks[0] != ks[1]
  {}

  lemma CandidatesInRange(s: State, conId: int, side: Side, quantity: real)
    ensures forall j: nat :: IsCandidate(s, j, conId, side, quantity) ==> j < |s.orders|
  {}

  lemma StepConsistent(s: State, c: Callback)
    requires IdsConsistent(s) && Admissible(s, c)
    ensures IdsConsistent(Step(s, c))
  {
    hide OnOrderStatus, OnOpenOrder, OnExecDetails, OnCommissionReport, OnBrokerError, OnSubmit, OnAdopt, Admissible,
         SameIds, Resolve, Target;
    match c
    case OrderStatus(_, _, _, _, _, _, _) =>
      ResolveConsistent(s, c.id, c.permId, 0, None, None);
      StatusKeepsIds(s, c);
    case OpenOrder(_, _, _, _, _, _) =>
      ResolveConsistent(s, c.id, c.permId, c.conId, c.side, Offered(c.quantity));
      OpenOrderKeepsIds(s, c);
    case ExecDetails(_, _, _, _, _) =>
      ResolveConsistent(s, c.id, c.report.permId, c.conId, c.side, Offered(c.report.shares));
      ExecDetailsKeepsIds(s, c);
    case CommissionReport(execId, commission) =>
      CommissionKeepsIds(s, execId, commission);
      SameIdsConsistent(s, Step(s, c));
    case BrokerError(id, code, text) =>
      ErrorKeepsIds(s, id, code, text);
      SameIdsConsistent(s, Step(s, c));
    case ConnectionClosed =>
      ConnectionKeepsIds(s.orders);
      SameIdsConsistent(s, Step(s, c));
    case ConnectionRestored =>
      ConnectionKeepsIds(s.orders);
      SameIdsConsistent(s, Step(s, c));
    case Submit(o, id) =>
      SubmitConsistent(s, o, id);
    case Adopt(o) =>
      AdoptAdmissible(s, o);
  }

  lemma AdoptAdmissible(s: State, o: OmsOrder)
    requires IdsConsistent(s) && Admissible(s, Adopt(o))
    ensures IdsConsistent(OnAdopt(s, o))
  {
    hide OnAdopt, PlaceOf;
    assert forall k :: 0 <= k < |s.orders| ==> s.orders[k].internalId != o.internalId;
    AdoptNewConsistent(s, o);
  }

  lemma CommissionKeepsIds(s: State, execId: string, raw: Option<real>)
    requires InRange(s)
    ensures var after := OnCommissionReport(s, execId, raw);
      InRange(after) && SameIds(s.orders, after.orders) && after.byTws == s.byTws && after.internalByTws == s.internalByTws
  {
    hide OmsOrders.OnCommission, Usable, RecordOf;
    CommissionKeepsIdsOf(s, execId, raw);
  }

  lemma CommissionKeepsIdsOf(s: State, execId: string, raw: Option<real>)
    requires InRange(s)
    ensures forall k, i: nat, c :: 0 <= k < |s.orders| && i < |s.orders[k].executions| ==>
      var o := OmsOrders.OnCommission(s.orders[k], i, c);
      o.internalId == s.orders[k].internalId && o.twsId == s.orders[k].twsId
  {
    hide CommissionOf;
  }

  lemma ResolveInRange(s: State, id: int, permId: int, conId: int, side: Option<Side>, quantity: Option<real>)
    requires InRange(s)
    ensures var after := Resolve(s, id, permId, conId, side, quantity);
      InRange(after) && |after.orders| == |s.orders|
  {}

  lemma StatusKeepsIds(s: State, c: Callback)
    requires c.OrderStatus? && InRange(s)
    requires IdsConsistent(Resolve(s, c.id, c.permId, 0, None, None)) && IdsConsistent(s)
    ensures IdsConsistent(OnOrderStatus(s, c))
  {
    hide Resolve, Target, MapStatus, ReportedAverage;
    var bound := Resolve(s, c.id, c.permId, 0, None, None);
    ResolveInRange(s, c.id, c.permId, 0, None, None);
    if Target(s, c.id, c.permId, 0, None, None).Some? {
      SameIdsConsistent(bound, OnOrderStatus(s, c));
    }
  }

  lemma OpenOrderKeepsIds(s: State, c: Callback)
    requires c.OpenOrder? && InRange(s)
    requires IdsConsistent(Resolve(s, c.id, c.permId, c.conId, c.side, Offered(c.quantity))) && IdsConsistent(s)
    ensures IdsConsistent(OnOpenOrder(s, c))
  {
    hide Resolve, Target, MapStatus;
    var bound := Resolve(s, c.id, c.permId, c.conId, c.side, Offered(c.quantity));
    ResolveInRange(s, c.id, c.permId, c.conId, c.side, Offered(c.quantity));
    if c.raw != "" && Target(s, c.id, c.permId, c.conId, c.side, Offered(c.quantity)).Some? {
      SameIdsConsistent(bound, OnOpenOrder(s, c));
    }
  }

  lemma ExecDetailsKeepsIds(s: State, c: Callback)
    requires c.ExecDetails? && InRange(s)
    requires IdsConsistent(Resolve(s, c.id, c.report.permId, c.conId, c.side, Offered(c.report.shares))) && IdsConsistent(s)
    ensures IdsConsistent(OnExecDetails(s, c))
  {
    hide Resolve, Target, Execute;
    var bound := Resolve(s, c.id, c.report.permId, c.conId, c.side, Offered(c.report.shares));
    ResolveInRange(s, c.id, c.report.permId, c.conId, c.side, Offered(c.report.shares));
    var found := Target(s, c.id, c.report.permId, c.conId, c.side, Offered(c.report.shares));
    if found.Some? {
      ExecuteKeepsIds(bound, found.value, c.execId, c.report);
      SameIdsConsistent(bound, OnExecDetails(s, c));
    }
  }

  lemma ExecuteKeepsIds(s: State, k: nat, execId: string, r: Report)
    requires InRange(s) && k < |s.orders|
    ensures var after := Execute(s, k, execId, r);
      InRange(after) && SameIds(s.orders, after.orders) && after.byTws == s.byTws && after.internalByTws == s.internalByTws
  {
    hide WeightedAverage, CommissionOf, SharesOf, Usable, KeyFor, Kinds, TellsPartialByStatus;
  }

  lemma ErrorKeepsIds(s: State, id: int, code: int, text: string)
    requires InRange(s)
    ensures var after := OnBrokerError(s, id, code, text);
      InRange(after) && SameIds(s.orders, after.orders) && after.byTws == s.byTws && after.internalByTws == s.internalByTws
  {
    hide ErrorText, Blank;
  }

  lemma ConnectionKeepsIds(orders: seq<OmsOrder>)
    ensures SameIds(orders, ParkAll(orders)) && SameIds(orders, UnparkAll(orders))
  {}

  lemma SubmitConsistent(s: State, o: OmsOrder, id: int)
    requires IdsConsistent(s) && Admissible(s, Submit(o, id))
    ensures IdsConsistent(OnSubmit(s, o, id))
  {
    if !Registered(s, o.internalId) {
      assert id !in s.byTws;
      hide DistinctInternalIds;
      InternalIdsExtend(s.orders, o.(twsId := Some(id)));
    }
  }

  lemma RegisteringFrame(s: State, o: OmsOrder)
    requires InRange(s)
    ensures var after := Registering(s, o); SameBooks(s, after) && |s.orders| <= |after.orders|
  {
    hide PlaceOf, LeavesStale;
  }

  /** Apart from orders and id maps nothing differs. */
  predicate SameBooks(s: State, after: State) {
    && after.seen == s.seen && after.execOrder == s.execOrder && after.commissioned == s.commissioned
    && after.pending == s.pending && after.acked == s.acked && after.fillEmitted == s.fillEmitted
    && after.partialEmitted == s.partialEmitted && after.log == s.log
  }

  lemma AdoptFrame(s: State, o: OmsOrder)
    requires InRange(s)
    ensures var after := OnAdopt(s, o); SameBooks(s, after) && |s.orders| <= |after.orders|
  {
    RegisteringFrame(s, o);
    if o.twsId.Some? {
      BindFrame(Registering(s, o), PlaceOf(s.orders, o.internalId).GetOr(|s.orders|), o.twsId.value);
    }
  }

  lemma BindFrame(s: State, k: nat, id: int)
    requires k < |s.orders|
    ensures SameBooks(s, Bind(s, k, id)) && |Bind(s, k, id).orders| == |s.orders|
  {}

  /** Nobody else carries the broker id of an order about to be adopted. */
  predicate IdIsFree(s: State, o: OmsOrder) {
    o.twsId.Some? ==>
      forall k :: 0 <= k < |s.orders| && s.orders[k].internalId != o.internalId ==> s.orders[k].twsId != Some(o.twsId.value)
  }

  lemma AdoptNewConsistent(s: State, o: OmsOrder)
    requires IdsConsistent(s) && IdIsFree(s, o) && PlaceOf(s.orders, o.internalId).None?
    ensures IdsConsistent(OnAdopt(s, o))
  {
    hide IdsConsistent, PlaceOf;
    var blank := s.(orders := s.orders + [o.(twsId := None)]);
    BlankConsistent(s, o.(twsId := None));
    if o.twsId.Some? {
      FreeIdIsUnused(s, o);
      BindConsistent(blank, |s.orders|, o.twsId.value);
      assert (s.orders + [o])[|s.orders| := o] == s.orders + [o] == blank.orders[|s.orders| := o];
    }
  }

  lemma BlankConsistent(s: State, o: OmsOrder)
    requires IdsConsistent(s) && o.twsId.None? && PlaceOf(s.orders, o.internalId).None?
    ensures InRange(s) && IdsConsistent(s.(orders := s.orders + [o]))
  {
    hide DistinctInternalIds;
    InternalIdsExtend(s.orders, o);
  }

  lemma FreeIdIsUnused(s: State, o: OmsOrder)
    requires IdsConsistent(s) && IdIsFree(s, o) && o.twsId.Some? && PlaceOf(s.orders, o.internalId).None?
    ensures o.twsId.value !in s.byTws
  {
    assert forall id :: id in s.byTws ==> Some(id) != o.twsId;
  }

  lemma ReplaceConsistent(s: State, o: OmsOrder)
    requires IdsConsistent(s) && IdIsFree(s, o) && PlaceOf(s.orders, o.internalId).Some?
    requires !LeavesStale(s.orders[PlaceOf(s.orders, o.internalId).value], o)
    ensures IdsConsistent(OnAdopt(s, o))
  {
    hide PlaceOf, IdsConsistent, DistinctInternalIds;
    var k := PlaceOf(s.orders, o.internalId).value;
    var was := s.orders[k];
    FiledAsCarried(s, k);
    if was.twsId == o.twsId {
      SameIdsConsistent(s, OnAdopt(s, o));
    } else {
      var blank := s.(orders := s.orders[k := o.(twsId := None)]);
      SameIdsConsistent(s, blank);
      UnusedId(s, o, k);
      BindConsistent(blank, k, o.twsId.value);
      var added := Registering(s, o);
      assert added == s.(orders := s.orders[k := o]);
      assert s.orders[k := o][k := o] == s.orders[k := o] == blank.orders[k := o];
      assert Bind(blank, k, o.twsId.value) == Bind(added, k, o.twsId.value);
    }
  }

  lemma FiledAsCarried(s: State, k: nat)
    requires IdsConsistent(s) && k < |s.orders|
    ensures InRange(s)
    ensures var id := s.orders[k].twsId;
      id.Some? ==> s.byTws[id.value := k] == s.byTws && s.internalByTws[id.value := s.orders[k].internalId] == s.internalByTws
  {
    var id := s.orders[k].twsId;
    if id.Some? {
      assert id.value in s.byTws && s.byTws[id.value] == k && id.value in s.internalByTws;
      assert forall i :: i in s.byTws ==> s.internalByTws[i] == s.orders[s.byTws[i]].internalId;
    }
  }

  lemma UnusedId(s: State, o: OmsOrder, k: nat)
    requires IdsConsistent(s) && IdIsFree(s, o) && k < |s.orders| && s.orders[k].internalId == o.internalId
    requires s.orders[k].twsId.None? && o.twsId.Some?
    ensures o.twsId.value !in s.byTws
  {
    assert forall j :: 0 <= j < |s.orders| && j != k ==> s.orders[j].internalId != o.internalId;
    assert forall id :: id in s.byTws ==> Some(id) != o.twsId;
  }

  lemma StaleIsInconsistent(s: State, o: OmsOrder)
    requires IdsConsistent(s) && PlaceOf(s.orders, o.internalId).Some?
    requires LeavesStale(s.orders[PlaceOf(s.orders, o.internalId).value], o)
    ensures !IdsConsistent(OnAdopt(s, o))
  {
    hide PlaceOf;
    var k, after := PlaceOf(s.orders, o.internalId).value, OnAdopt(s, o);
    assert after.orders[k].internalId == after.orders[|s.orders|].internalId == o.internalId;
  }

  /** Adopting an order whose broker id is nobody else's keeps the maps consistent exactly
      when it does not replace one that is filed under another id. */
  lemma AdoptConsistentIff(s: State, o: OmsOrder)
    requires IdsConsistent(s) && IdIsFree(s, o)
    ensures IdsConsistent(OnAdopt(s, o))
       <==> !exists k :: 0 <= k < |s.orders| && s.orders[k].internalId == o.internalId && LeavesStale(s.orders[k], o)
  {
    hide IdsConsistent, IdIsFree, OnAdopt, LeavesStale, PlaceOf;
    var at := PlaceOf(s.orders, o.internalId);
    if at.None? {
      AdoptNewConsistent(s, o);
    } else {
      OnlyPlace(s, o.internalId);
      if LeavesStale(s.orders[at.value], o) {
        StaleIsInconsistent(s, o);
      } else {
        ReplaceConsistent(s, o);
      }
    }
  }

  lemma OnlyPlace(s: State, internalId: string)
    requires IdsConsistent(s)
    ensures forall k :: 0 <= k < |s.orders| && s.orders[k].internalId == internalId ==> PlaceOf(s.orders, internalId) == Some(k)
  {
    hide PlaceOf;
    forall k | 0 <= k < |s.orders| && s.orders[k].internalId == internalId ensures PlaceOf(s.orders, internalId) == Some(k) {
      SamePlace(s.orders, PlaceOf(s.orders, internalId).value, k);
    }
  }

  lemma SamePlace(orders: seq<OmsOrder>, i: nat, j: nat)
    requires DistinctInternalIds(orders) && i < |orders| && j < |orders| && orders[i].internalId == orders[j].internalId
    ensures i == j
  {}

  // ---- Runs ----

  /** The state after a run. */
  ghost function Run(s: State, cs: seq<Callback>): (r: State)
    requires IdsConsistent(s) && AdmissibleAlong(s, cs)
    ensures IdsConsistent(r)
    decreases |cs|
  {
    if cs == [] then s else StepConsistent(s, cs[0]); Run(Step(s, cs[0]), cs[1..])
  }

  ghost predicate AdmissibleAlong(s: State, cs: seq<Callback>)
    requires IdsConsistent(s)
    decreases |cs|
  {
    cs == [] || (Admissible(s, cs[0]) && (StepConsistent(s, cs[0]); AdmissibleAlong(Step(s, cs[0]), cs[1..])))
  }
}
