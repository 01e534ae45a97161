/** What each callback of the adapter does, told over the registered orders and the
    callback's own fields. */
module AdapterOutcomes {
  import opened Sides
  import opened Options
  import opened Orders
  import opened OmsOrders
  import opened Adapter
  import opened AdapterEvents
  import Text

  predicate IsLive(o: OmsOrder) {
    o.status in {Pending, Submitted, PartiallyFilled}
  }

  predicate IsPrice(p: Option<real>) {
    p.Some? && 0.0 < p.value < 1000000000000.0
  }

  function Greater(x: real, y: real): real {
    if x < y then y else x
  }

  // ---- The order a callback is about ----

  /** Could be the order behind a contract, side and quantity. */
  predicate CouldBe(o: OmsOrder, conId: int, side: Side, quantity: real) {
    o.twsId.None? && IsLive(o) && o.conId == Some(conId) && o.side == side && -0.000001 <= o.quantity - quantity <= 0.000001
  }

  predicate NobodyCarries(orders: seq<OmsOrder>, id: int) {
    forall j :: 0 <= j < |orders| ==> orders[j].twsId != Some(id)
  }

  predicate FirstOfPermId(orders: seq<OmsOrder>, permId: int, k: nat)
    requires k < |orders|
  {
    permId != 0 && orders[k].permId == permId && forall j :: 0 <= j < k ==> orders[j].permId != permId
  }

  predicate NobodyHasPermId(orders: seq<OmsOrder>, permId: int) {
    permId == 0 || forall j :: 0 <= j < |orders| ==> orders[j].permId != permId
  }

  predicate OnlyOneToBe(orders: seq<OmsOrder>, conId: int, side: Option<Side>, quantity: Option<real>, k: nat)
    requires k < |orders|
  {
    && conId != 0 && side.Some? && quantity.Some?
    && CouldBe(orders[k], conId, side.value, quantity.value)
    && forall j :: 0 <= j < |orders| && j != k ==> !CouldBe(orders[j], conId, side.value, quantity.value)
  }

  /** The order carries the id; else it is the first with the permanent id; else the only
      one it could be. */
  predicate About(orders: seq<OmsOrder>, id: int, permId: int, conId: int, side: Option<Side>, quantity: Option<real>, k: nat) {
    && k < |orders|
    && (|| orders[k].twsId == Some(id)
        || (NobodyCarries(orders, id)
            && (FirstOfPermId(orders, permId, k)
                || (NobodyHasPermId(orders, permId) && OnlyOneToBe(orders, conId, side, quantity, k)))))
  }

  /** The order a report or an execution is about; a quantity of nothing is not offered. */
  predicate IsAbout(orders: seq<OmsOrder>, c: Callback, k: nat) {
    match c
    case OrderStatus(id, _, _, _, _, permId, _) => About(orders, id, permId, 0, None, None, k)
    case OpenOrder(id, _, permId, conId, side, quantity) =>
      About(orders, id, permId, conId, side, if quantity > 0.0 then Some(quantity) else None, k)
    case ExecDetails(id, _, conId, side, r) =>
      About(orders, id, r.permId, conId, side, if r.shares > 0.0 then Some(r.shares) else None, k)
    case _ => false
  }

  lemma CandidateIff(s: State, k: nat, conId: int, side: Side, quantity: real)
    requires IdsConsistent(s)
    ensures IsCandidate(s, k, conId, side, quantity) <==> k < |s.orders| && CouldBe(s.orders[k], conId, side, quantity)
  {
    if k < |s.orders| {
      if s.orders[k].twsId.Some? {
        var id := s.orders[k].twsId.value;
        assert id in s.byTws && s.byTws[id] == k;
      } else {
        assert forall id :: id in s.byTws ==> s.orders[s.byTws[id]].twsId == Some(id);
        assert forall id :: id in s.byTws ==> s.byTws[id] != k;
      }
    }
  }

  lemma FiledIff(s: State, id: int)
    requires IdsConsistent(s)
    ensures InRange(s)
    ensures id !in s.byTws <==> NobodyCarries(s.orders, id)
    ensures forall k: nat :: (id in s.byTws && s.byTws[id] == k) <==> (k < |s.orders| && s.orders[k].twsId == Some(id))
  {}

  lemma OnlyOneIff(s: State, conId: int, side: Option<Side>, quantity: Option<real>, k: nat)
    requires IdsConsistent(s) && conId != 0 && side.Some? && quantity.Some?
    ensures
      var candidates := Candidates(s, |s.orders|, conId, side.value, quantity.value);
      |candidates| == 1 && candidates[0] == k <==> k < |s.orders| && OnlyOneToBe(s.orders, conId, side, quantity, k)
  {
    hide IdsConsistent, IsCandidate, Candidates, CouldBe;
    OnlyCandidate(s, conId, side.value, quantity.value, k);
    forall j: nat
      ensures IsCandidate(s, j, conId, side.value, quantity.value)
         <==> j < |s.orders| && CouldBe(s.orders[j], conId, side.value, quantity.value)
    {
      CandidateIff(s, j, conId, side.value, quantity.value);
    }
  }

  /** A callback is taken to be about an order exactly if one of the three ways leads to
      it. */
  lemma TargetIff(s: State, id: int, permId: int, conId: int, side: Option<Side>, quantity: Option<real>, k: nat)
    requires IdsConsistent(s)
    ensures InRange(s)
    ensures Target(s, id, permId, conId, side, quantity) == Some(k) <==> About(s.orders, id, permId, conId, side, quantity, k)
  {
    hide IdsConsistent, Candidates, CouldBe, NobodyCarries;
    FiledIff(s, id);
    if conId != 0 && side.Some? && quantity.Some? {
      OnlyOneIff(s, conId, side, quantity, k);
      hide OnlyOneToBe;
    }
  }

  /** A callback about no order changes nothing. */
  lemma AboutNobody(s: State, c: Callback)
    requires IdsConsistent(s)
    requires c.OrderStatus? || c.OpenOrder? || c.ExecDetails?
    requires forall k: nat :: !IsAbout(s.orders, c, k)
    ensures InRange(s) && Step(s, c) == s
  {
    hide About, Target, IdsConsistent;
    forall k: nat
      ensures c.OrderStatus? ==> !About(s.orders, c.id, c.permId, 0, None, None, k)
      ensures c.OpenOrder? ==> !About(s.orders, c.id, c.permId, c.conId, c.side, Offered(c.quantity), k)
      ensures c.ExecDetails? ==> !About(s.orders, c.id, c.report.permId, c.conId, c.side, Offered(c.report.shares), k)
    {
      assert !IsAbout(s.orders, c, k);
    }
    NobodyIsTarget(s);
  }

  lemma NobodyIsTarget(s: State)
    requires IdsConsistent(s)
    ensures InRange(s)
    ensures forall id, permId, conId, side, quantity ::
      (forall k: nat :: !About(s.orders, id, permId, conId, side, quantity, k)) ==>
        Target(s, id, permId, conId, side, quantity).None?
  {
    hide About, Target;
    forall id, permId, conId, side, quantity | forall k: nat :: !About(s.orders, id, permId, conId, side, quantity, k)
      ensures Target(s, id, permId, conId, side, quantity).None?
    {
      if Target(s, id, permId, conId, side, quantity).Some? {
        TargetIff(s, id, permId, conId, side, quantity, Target(s, id, permId, conId, side, quantity).value);
      }
    }
  }

  // ---- Status and open-order reports ----

  /** The status a broker's text leaves on an order that now holds these quantities. */
  ghost predicate StatusFollows(was: OmsOrder, raw: string, now: OmsOrder) {
    if !IsLive(was) then now.status == was.status
    else
      && (now.status == Cancelled <==> Text.Spells(raw, "CANCELLED") || Text.Spells(raw, "APICANCELLED"))
      && (now.status == Rejected <==> Text.Spells(raw, "INACTIVE") || Text.Spells(raw, "REJECTED"))
      && (now.status !in {Cancelled, Rejected} ==>
            now.status ==
              if 0.0 < now.filled && 0.0 < now.remaining then PartiallyFilled
              else if now.filled >= was.quantity then Filled
              else if Text.Spells(raw, "FILLED") then
                (if 0.0 < now.filled then Filled else if was.status == Pending then Submitted else was.status)
              else if Text.Spells(raw, "SUBMITTED") || Text.Spells(raw, "PENDINGCANCEL") then Submitted
              else if Text.Spells(raw, "PARTIALLYFILLED") then PartiallyFilled
              else Pending)
  }

  /** Quantities move only on a live order: filled never down, remaining as reported. */
  ghost predicate QuantitiesFollow(was: OmsOrder, filled: Option<real>, remaining: Option<real>, now: OmsOrder) {
    if !IsLive(was) then now.filled == was.filled && now.remaining == was.remaining
    else
      && now.filled == (if filled.Some? then Greater(was.filled, filled.value) else was.filled)
      && now.remaining == (if remaining.Some? then remaining.value else was.remaining)
  }

  /** The derived average outranks the reported one, and that the limit price. */
  ghost predicate PricesFollow(was: OmsOrder, average: Option<real>, last: Option<real>, now: OmsOrder) {
    && now.last == (if IsPrice(last) then last else was.last)
    && now.average ==
       (if WeightedAverage(was.executions).Some? then WeightedAverage(was.executions)
        else if IsPrice(average) then average
        else if was.limitPrice.Some? then was.limitPrice
        else was.average)
  }

  /** Nothing else about the order changes, but for the ids it learns. */
  predicate OnlyLearns(was: OmsOrder, id: int, permId: int, now: OmsOrder) {
    now == was.(twsId := Some(id), permId := if permId != 0 then permId else was.permId,
                status := now.status, filled := now.filled, remaining := now.remaining,
                average := now.average, last := now.last, message := now.message,
                commission := now.commission, executions := now.executions)
  }

  /** Only order `k` changes. */
  predicate OthersStay(before: seq<OmsOrder>, after: seq<OmsOrder>, k: nat) {
    |after| == |before| && forall j :: 0 <= j < |before| && j != k ==> after[j] == before[j]
  }

  lemma MappedFollows(o: OmsOrder, raw: string, filled: Option<real>, remaining: Option<real>)
    ensures StatusFollows(o, raw, ApplyStatus(o, MapStatus(raw), filled, remaining))
    ensures QuantitiesFollow(o, filled, remaining, ApplyStatus(o, MapStatus(raw), filled, remaining))
  {
    hide Text.Spells, Text.Squeezed;
    Text.SpellsIff(raw, "CANCELLED");
    Text.SpellsIff(raw, "APICANCELLED");
    Text.SpellsIff(raw, "INACTIVE");
    Text.SpellsIff(raw, "REJECTED");
    Text.SpellsIff(raw, "FILLED");
    Text.SpellsIff(raw, "SUBMITTED");
    Text.SpellsIff(raw, "PENDINGCANCEL");
    Text.SpellsIff(raw, "PARTIALLYFILLED");
  }

  /** What a status report makes of the order it is about. */
  lemma StatusReportOutcome(s: State, c: Callback, k: nat)
    requires c.OrderStatus? && IdsConsistent(s) && IsAbout(s.orders, c, k)
    ensures
      var after := Step(s, c);
      && OthersStay(s.orders, after.orders, k)
      && var was, now := s.orders[k], after.orders[k];
      && OnlyLearns(was, c.id, c.permId, now)
      && StatusFollows(was, c.raw, now) && QuantitiesFollow(was, Some(c.filled), Some(c.remaining), now)
      && PricesFollow(was, c.average, c.last, now)
      && now.message == was.message && now.commission == was.commission && now.executions == was.executions
  {
    hide About, Target, Resolve, StatusFollows, QuantitiesFollow, MapStatus, ApplyStatus, WeightedAverage;
    TargetIff(s, c.id, c.permId, 0, None, None, k);
    ResolveTouchesOnlyTarget(s, c.id, c.permId, 0, None, None);
    StatusReportOnOrder(s.orders[k].(twsId := Some(c.id)), c);
    SameBefore(s.orders[k], c.id, c.raw, Some(c.filled), Some(c.remaining), Step(s, c).orders[k]);
  }

  lemma StatusReportOnOrder(o: OmsOrder, c: Callback)
    requires c.OrderStatus?
    ensures
      var now := OnStatusReport(o, c.raw, c.filled, c.remaining, c.average, c.permId, c.last);
      && now == o.(permId := if c.permId != 0 then c.permId else o.permId, status := now.status, filled := now.filled,
                   remaining := now.remaining, average := now.average, last := now.last)
      && StatusFollows(o, c.raw, now) && QuantitiesFollow(o, Some(c.filled), Some(c.remaining), now)
      && PricesFollow(o, c.average, c.last, now)
  {
    hide StatusFollows, MapStatus, WeightedAverage, Promoted;
    var noted := NotePrices(LearnPermId(o, c.permId), ReportedAverage(LearnPermId(o, c.permId), c.average), Usable(c.last, None));
    MappedFollows(noted, c.raw, Some(c.filled), Some(c.remaining));
    SameOrder(o, noted, c.raw, OnStatusReport(o, c.raw, c.filled, c.remaining, c.average, c.permId, c.last));
  }

  lemma SameOrder(o: OmsOrder, noted: OmsOrder, raw: string, now: OmsOrder)
    requires noted.status == o.status && noted.quantity == o.quantity && StatusFollows(noted, raw, now)
    ensures StatusFollows(o, raw, now)
  {}

  lemma SameBefore(o: OmsOrder, id: int, raw: string, filled: Option<real>, remaining: Option<real>, now: OmsOrder)
    ensures StatusFollows(o.(twsId := Some(id)), raw, now) <==> StatusFollows(o, raw, now)
    ensures QuantitiesFollow(o.(twsId := Some(id)), filled, remaining, now) <==> QuantitiesFollow(o, filled, remaining, now)
  {}

  /** And an open-order report with a text; one without changes nothing. */
  lemma OpenOrderOutcome(s: State, c: Callback, k: nat)
    requires c.OpenOrder? && IdsConsistent(s) && IsAbout(s.orders, c, k)
    ensures
      var after := Step(s, c);
      if c.raw == "" then after == s
      else
        && OthersStay(s.orders, after.orders, k)
        && var was, now := s.orders[k], after.orders[k];
        && now == was.(twsId := Some(c.id), permId := if c.permId != 0 then c.permId else was.permId, status := now.status)
        && StatusFollows(was, c.raw, now)
  {
    hide About, Target, Resolve, StatusFollows, QuantitiesFollow, MapStatus;
    var quantity := if c.quantity > 0.0 then Some(c.quantity) else None;
    TargetIff(s, c.id, c.permId, c.conId, c.side, quantity, k);
    ResolveTouchesOnlyTarget(s, c.id, c.permId, c.conId, c.side, quantity);
    var bound := s.orders[k].(twsId := Some(c.id));
    MappedFollows(LearnPermId(bound, c.permId), c.raw, None, None);
    SameOrder(s.orders[k], LearnPermId(bound, c.permId), c.raw, OnOpenOrderReport(bound, c.raw, c.permId));
    hide Promoted;
  }

  // ---- Executions ----

  /** What one execution report makes of an order: `isNew` on its first delivery, with the
      commission that waited for it. */
  ghost predicate ExecutionFollows(was: OmsOrder, key: ExecKey, isNew: bool, r: Report, waiting: Option<real>, now: OmsOrder) {
    var recorded := isNew && IsPrice(r.price) && 0.0 < r.shares;
    && now.executions == (if recorded then was.executions + [Record(key, r.shares, r.price.value, waiting)] else was.executions)
    && now.filled ==
       (if 0.0 < r.cumQty then Greater(was.filled, r.cumQty)
        else if 0.0 < r.shares then Greater(was.filled, SharesOf(was.executions) + (if isNew then r.shares else 0.0))
        else was.filled)
    && now.remaining == (if 0.0 < r.cumQty || 0.0 < r.shares then Greater(0.0, was.quantity - now.filled) else was.remaining)
    && now.status ==
       (if !IsLive(was) then was.status
        else if now.filled >= was.quantity then Filled
        else if 0.0 < now.filled then PartiallyFilled
        else was.status)
    && now.last == (if IsPrice(r.price) then r.price else was.last)
    && now.average ==
       (if recorded then WeightedAverage(now.executions) else if IsPrice(r.average) then r.average else was.average)
    && now.commission == (if recorded then CommissionOf(now.executions) else was.commission)
    && now.message == was.message
  }

  lemma ExecutionOnOrder(o: OmsOrder, key: ExecKey, isNew: bool, r: Report, waiting: Option<real>)
    ensures ExecutionFollows(o, key, isNew, r, waiting, OmsOrders.OnExecution(o, key, isNew, r, waiting))
  {
    hide WeightedAverage, CommissionOf, SharesOf;
    if isNew && Recordable(r) {
      RecordedHasAverage(o.executions, Record(key, r.shares, r.price.value, waiting));
    }
  }

  /** A report without an execution id is known by what it says. */
  function Identity(o: OmsOrder, execId: string, r: Report): ExecKey {
    if execId != "" then Given(execId)
    else Synthetic(o.internalId, r.shares, if IsPrice(r.price) then r.price else None, r.cumQty)
  }

  lemma ExecutionOutcome(s: State, c: Callback, k: nat)
    requires c.ExecDetails? && IdsConsistent(s) && IsAbout(s.orders, c, k)
    ensures
      var after, r := Step(s, c), c.report;
      && OthersStay(s.orders, after.orders, k)
      && var was, now := s.orders[k], after.orders[k];
      && var key := Identity(was, c.execId, r);
      && OnlyLearns(was, c.id, r.permId, now)
      && ExecutionFollows(was, key, key !in s.seen, r, if key in s.pending then Some(s.pending[key]) else None, now)
      && after.seen == s.seen + {key}
      && after.pending == (if key !in s.seen && IsPrice(r.price) && 0.0 < r.shares then s.pending - {key} else s.pending)
  {
    hide About, Target, Resolve, Execute, ExecutionFollows;
    var r := c.report;
    var quantity := if r.shares > 0.0 then Some(r.shares) else None;
    TargetIff(s, c.id, r.permId, c.conId, c.side, quantity, k);
    ResolveTouchesOnlyTarget(s, c.id, r.permId, c.conId, c.side, quantity);
    ResolveKeepsBooks(s, c.id, r.permId, c.conId, c.side, quantity);
    var bound := Resolve(s, c.id, r.permId, c.conId, c.side, quantity);
    ExecuteOutcome(bound, k, c.execId, r);
    ExecutionOnBound(s.orders[k], c.id, Identity(s.orders[k], c.execId, r), Identity(s.orders[k], c.execId, r) !in s.seen, r,
      if Identity(s.orders[k], c.execId, r) in s.pending then Some(s.pending[Identity(s.orders[k], c.execId, r)]) else None,
      Step(s, c).orders[k]);
  }

  lemma ResolveKeepsBooks(s: State, id: int, permId: int, conId: int, side: Option<Side>, quantity: Option<real>)
    requires InRange(s)
    ensures SameBooks(s, Resolve(s, id, permId, conId, side, quantity))
  {}

  lemma ExecuteOutcome(s: State, k: nat, execId: string, r: Report)
    requires k < |s.orders|
    ensures
      var after, was, key := Execute(s, k, execId, r), s.orders[k], Identity(s.orders[k], execId, r);
      var now := after.orders[k];
      && OthersStay(s.orders, after.orders, k)
      && now == was.(permId := if r.permId != 0 then r.permId else was.permId, status := now.status, filled := now.filled,
                     remaining := now.remaining, average := now.average, last := now.last, commission := now.commission,
                     executions := now.executions)
      && ExecutionFollows(was, key, key !in s.seen, r, if key in s.pending then Some(s.pending[key]) else None, now)
      && after.seen == s.seen + {key}
      && after.pending == (if key !in s.seen && IsPrice(r.price) && 0.0 < r.shares then s.pending - {key} else s.pending)
  {
    hide ExecutionFollows, OmsOrders.OnExecution, Tag, Kinds, TellsPartialByStatus;
    var o, key := s.orders[k], KeyFor(s.orders[k], execId, r);
    var isNew := key !in s.seen;
    var buffered := if isNew && Recordable(r) && key in s.pending then Some(s.pending[key]) else None;
    ExecutionOnOrder(o, key, isNew, r, buffered);
    ExecutionFrame(o, key, isNew, r, buffered);
    WaitingMattersOnlyIfRecorded(o, key, isNew, r, buffered, if key in s.pending then Some(s.pending[key]) else None,
      OmsOrders.OnExecution(o, key, isNew, r, buffered));
  }

  lemma ExecutionFrame(o: OmsOrder, key: ExecKey, isNew: bool, r: Report, buffered: Option<real>)
    ensures
      var now := OmsOrders.OnExecution(o, key, isNew, r, buffered);
      now == o.(permId := if r.permId != 0 then r.permId else o.permId, status := now.status, filled := now.filled,
                remaining := now.remaining, average := now.average, last := now.last, commission := now.commission,
                executions := now.executions)
  {
    hide WeightedAverage, CommissionOf, SharesOf, Usable, FilledAfter;
  }

  lemma WaitingMattersOnlyIfRecorded(o: OmsOrder, key: ExecKey, isNew: bool, r: Report, x: Option<real>, y: Option<real>, now: OmsOrder)
    requires ExecutionFollows(o, key, isNew, r, x, now)
    requires isNew && IsPrice(r.price) && 0.0 < r.shares ==> x == y
    ensures ExecutionFollows(o, key, isNew, r, y, now)
  {}

  lemma ExecutionOnBound(o: OmsOrder, id: int, key: ExecKey, isNew: bool, r: Report, waiting: Option<real>, now: OmsOrder)
    requires ExecutionFollows(o.(twsId := Some(id)), key, isNew, r, waiting, now)
    ensures ExecutionFollows(o, key, isNew, r, waiting, now)
  {}

  // ---- Commissions, errors and the connection ----

  /** A commission without a recorded execution waits for one. */
  lemma CommissionWaits(s: State, execId: string, raw: Option<real>)
    requires InRange(s) && execId != "" && Given(execId) !in s.commissioned
    requires Given(execId) in s.execOrder ==>
      forall r :: r in s.orders[s.execOrder[Given(execId)]].executions ==> r.key != Given(execId)
    ensures Step(s, CommissionReport(execId, raw))
         == s.(pending := s.pending[Given(execId) := if IsPrice(raw) then raw.value else 0.0])
  {
    hide OmsOrders.OnCommission;
  }

  /** Otherwise it is written to its record once, and the order's total follows. */
  lemma CommissionReaches(s: State, execId: string, raw: Option<real>, k: nat, i: nat)
    requires InRange(s) && execId != "" && Given(execId) in s.execOrder && s.execOrder[Given(execId)] == k
    requires i < |s.orders[k].executions| && s.orders[k].executions[i].key == Given(execId)
    requires forall j :: 0 <= j < |s.orders[k].executions| && j != i ==> s.orders[k].executions[j].key != Given(execId)
    ensures
      var after, was := Step(s, CommissionReport(execId, raw)), s.orders[k];
      if Given(execId) in s.commissioned then after == s
      else
        var records := was.executions[i := was.executions[i].(commission := Some(if IsPrice(raw) then raw.value else 0.0))];
        && after.orders == s.orders[k := was.(executions := records, commission := CommissionOf(records))]
        && after.commissioned == s.commissioned + {Given(execId)} && after.pending == s.pending
        && after.log == s.log + [Event(k, CommissionEvent)]
  {
    hide CommissionOf;
    assert RecordIndex(s.orders[k].executions, Given(execId)) == Some(i);
    hide RecordIndex;
  }

  /** An error gives an order its first text and ends it if it was live: cancelled by code
      202, rejected by a code of refusal, in error otherwise. Pacing and warnings pass. */
  lemma ErrorOutcome(s: State, id: int, code: int, text: string, k: nat)
    requires IdsConsistent(s) && k < |s.orders| && s.orders[k].twsId == Some(id)
    ensures
      var after, was := Step(s, BrokerError(id, code, text)), s.orders[k];
      var refuses := code in {200, 201, 10147, 10148, 10243};
      var passes := code in {100, 399} || 2000 <= code <= 2999 || (10000 <= code <= 10999 && !refuses);
      if passes || !Text.OnlySpaces(was.message) then after == s
      else
        && OthersStay(s.orders, after.orders, k)
        && var now := after.orders[k];
        && now == was.(message := now.message, status := now.status)
        && now.status == (if !IsLive(was) then was.status else if code == 202 then Cancelled else if refuses then Rejected else Error)
        && (code == 202 ==> now.message == "Canceled: " + text)
        && (code != 202 && 0 <= code ==> now.message == "TWS Error " + Text.Digits(code) + ": " + text)
        && after.log == s.log + [Event(k, StatusEvent(now.status))]
  {
    hide Text.Blank, Text.OnlySpaces, ErrorText, IsWarning, IsRejection, ErrorStatus, Text.Digits, IdsConsistent;
    FiledIff(s, id);
    Text.BlankIff(s.orders[k].message);
    CodesRead(code, text);
  }

  lemma CodesRead(code: int, text: string)
    ensures
      var refuses := code in {200, 201, 10147, 10148, 10243};
      var message := ErrorText(code, text);
      && (message.None? <==> code in {100, 399} || 2000 <= code <= 2999 || (10000 <= code <= 10999 && !refuses))
      && (message.Some? && code == 202 ==> message.value == "Canceled: " + text)
      && (message.Some? && code != 202 && 0 <= code ==> message.value == "TWS Error " + Text.Digits(code) + ": " + text)
      && ErrorStatus(code) == (if code == 202 then Cancelled else if refuses then Rejected else Error)
  {
    hide Text.Digits;
  }

  lemma ErrorOfNobody(s: State, id: int, code: int, text: string)
    requires IdsConsistent(s) && NobodyCarries(s.orders, id)
    ensures Step(s, BrokerError(id, code, text)) == s
  {
    FiledIff(s, id);
  }

  /** Losing the connection parks the live orders and restoring it unparks the parked. */
  lemma ConnectionOutcome(s: State, k: nat)
    requires InRange(s) && k < |s.orders|
    ensures
      var was, lost, back := s.orders[k], Step(s, ConnectionClosed), Step(s, ConnectionRestored);
      && |lost.orders| == |back.orders| == |s.orders|
      && lost.orders[k] == (if IsLive(was) then was.(status := Error, message := "Connection closed unexpectedly") else was)
      && back.orders[k] == (if was.status == Error && "Connection closed" <= was.message
                            then was.(status := Submitted, message := "") else was)
  {}

  // ---- New orders ----

  lemma SubmitOutcome(s: State, o: OmsOrder, id: int)
    requires InRange(s)
    ensures
      var after := Step(s, Submit(o, id));
      if exists k :: 0 <= k < |s.orders| && s.orders[k].internalId == o.internalId then after == s
      else after.orders == s.orders + [o.(twsId := Some(id))] && id in after.byTws && after.byTws[id] == |s.orders|
  {}

  lemma AdoptNewOutcome(s: State, o: OmsOrder)
    requires InRange(s) && forall k :: 0 <= k < |s.orders| ==> s.orders[k].internalId != o.internalId
    ensures
      var after := Step(s, Adopt(o));
      after.orders == s.orders + [o] && (o.twsId.Some? ==> o.twsId.value in after.byTws && after.byTws[o.twsId.value] == |s.orders|)
  {
    hide PlaceOf;
    assert s.orders + [o] == (s.orders + [o])[|s.orders| := o];
  }

  /** It takes the place of one with its internal id. */
  lemma AdoptInPlaceOutcome(s: State, o: OmsOrder, k: nat)
    requires IdsConsistent(s) && k < |s.orders| && s.orders[k].internalId == o.internalId
    ensures
      var after := Step(s, Adopt(o));
      && |s.orders| <= |after.orders| && after.orders[..|s.orders|] == s.orders[k := o]
      && (o.twsId.Some? ==> o.twsId.value in after.byTws && after.byTws[o.twsId.value] == k)
  {
    OnlyPlace(s, o.internalId);
    hide IdsConsistent, PlaceOf;
  }

  // ---- What listeners are told ----

  /** The events told about an order: the acknowledgement unless it was told, the fill of a
      filled order unless it was told, a partial fill for a new execution, or for a status
      report of more than was told before on an order without executions. Nothing else. */
  ghost predicate Tells(s: State, after: State, k: nat, source: Source, isNew: bool)
    requires k < |after.orders|
  {
    && s.log <= after.log
    && var news, o := after.log[|s.log|..], after.orders[k];
    var told := if k in s.partialEmitted then s.partialEmitted[k] else 0.0;
    var grows := source == FromStatus && o.executions == [] && told < o.filled;
    && (Event(k, AckEvent) in news <==> !Happened(s.log, k, AckEvent))
    && (Event(k, FillEvent) in news <==> o.status == Filled && !Happened(s.log, k, FillEvent))
    && (Event(k, PartialFillEvent) in news <==> o.status == PartiallyFilled && ((source == FromExecution && isNew) || grows))
    && (forall e :: e in news ==> e.order == k && e.kind in {AckEvent, FillEvent, PartialFillEvent})
    && after.partialEmitted == (if o.status == PartiallyFilled && grows then s.partialEmitted[k := o.filled] else s.partialEmitted)
  }

  lemma AnnounceOutcome(s: State, k: nat, source: Source, isNew: bool)
    requires k < |s.orders| && Told(s, k)
    ensures Tells(s, Announce(s, k, source, isNew), k, source, isNew)
  {
    HappenedIff(s, k);
    hide Told, PhaseOf, Happened, Kinds, FillKinds, Tag, Announce;
    var kinds := Kinds(s, k, source, isNew);
    Announced(s, k, source, isNew);
    TagHas(k, kinds);
    KindsAre(s, k, source, isNew);
  }

  lemma Announced(s: State, k: nat, source: Source, isNew: bool)
    requires k < |s.orders|
    ensures
      var after, o := Announce(s, k, source, isNew), s.orders[k];
      var told := if k in s.partialEmitted then s.partialEmitted[k] else 0.0;
      && after.orders == s.orders && s.log <= after.log && after.log[|s.log|..] == Tag(k, Kinds(s, k, source, isNew))
      && after.partialEmitted
         == if o.status == PartiallyFilled && source == FromStatus && o.executions == [] && told < o.filled
            then s.partialEmitted[k := o.filled] else s.partialEmitted
  {
    hide Tag, Kinds;
  }

  lemma HappenedIff(s: State, k: nat)
    requires Told(s, k)
    ensures Happened(s.log, k, AckEvent) <==> k in s.acked
    ensures Happened(s.log, k, FillEvent) <==> k in s.fillEmitted
  {
    UnbrokenIsOrderly(s.log, k);
  }

  lemma KindsAre(s: State, k: nat, source: Source, isNew: bool)
    requires k < |s.orders|
    ensures
      var kinds, o := Kinds(s, k, source, isNew), s.orders[k];
      var told := if k in s.partialEmitted then s.partialEmitted[k] else 0.0;
      var grows := source == FromStatus && o.executions == [] && told < o.filled;
      && (AckEvent in kinds <==> k !in s.acked)
      && (FillEvent in kinds <==> o.status == Filled && k !in s.fillEmitted)
      && (PartialFillEvent in kinds <==> o.status == PartiallyFilled && ((source == FromExecution && isNew) || grows))
      && (forall kind :: kind in kinds ==> kind in {AckEvent, FillEvent, PartialFillEvent})
  {}

  lemma TagHas(k: nat, kinds: seq<Kind>)
    ensures Event(k, AckEvent) in Tag(k, kinds) <==> AckEvent in kinds
    ensures Event(k, FillEvent) in Tag(k, kinds) <==> FillEvent in kinds
    ensures Event(k, PartialFillEvent) in Tag(k, kinds) <==> PartialFillEvent in kinds
    ensures forall e :: e in Tag(k, kinds) ==> e.order == k && e.kind in kinds
  {
    forall kind | kind in kinds ensures Event(k, kind) in Tag(k, kinds) {
      var i :| 0 <= i < |kinds| && kinds[i] == kind;
      assert Tag(k, kinds)[i] == Event(k, kind);
    }
  }

  /** So it is after each of the callbacks that tell: about an order, and in a state whose
      log is in order. */
  lemma StatusReportTells(s: State, c: Callback, k: nat)
    requires c.OrderStatus? && IdsConsistent(s) && Disciplined(s) && IsAbout(s.orders, c, k)
    ensures k < |Step(s, c).orders| && Tells(s, Step(s, c), k, FromStatus, false)
  {
    hide About, Target, Resolve, Tells, Announce, OnStatusReport, PhaseOf;
    TargetIff(s, c.id, c.permId, 0, None, None, k);
    ResolveTouchesOnlyTarget(s, c.id, c.permId, 0, None, None);
    ResolveKeepsBooks(s, c.id, c.permId, 0, None, None);
    var bound := Resolve(s, c.id, c.permId, 0, None, None);
    var o := OnStatusReport(bound.orders[k], c.raw, c.filled, c.remaining, c.average, c.permId, c.last);
    AnnouncedTells(s, bound.(orders := bound.orders[k := o]), k, FromStatus, false);
  }

  lemma OpenOrderTells(s: State, c: Callback, k: nat)
    requires c.OpenOrder? && c.raw != "" && IdsConsistent(s) && Disciplined(s) && IsAbout(s.orders, c, k)
    ensures k < |Step(s, c).orders| && Tells(s, Step(s, c), k, FromOpenOrder, false)
  {
    hide About, Target, Resolve, Tells, Announce, OnOpenOrderReport, PhaseOf;
    var quantity := if c.quantity > 0.0 then Some(c.quantity) else None;
    TargetIff(s, c.id, c.permId, c.conId, c.side, quantity, k);
    ResolveTouchesOnlyTarget(s, c.id, c.permId, c.conId, c.side, quantity);
    ResolveKeepsBooks(s, c.id, c.permId, c.conId, c.side, quantity);
    var bound := Resolve(s, c.id, c.permId, c.conId, c.side, quantity);
    var o := OnOpenOrderReport(bound.orders[k], c.raw, c.permId);
    AnnouncedTells(s, bound.(orders := bound.orders[k := o]), k, FromOpenOrder, false);
  }

  lemma ExecutionTells(s: State, c: Callback, k: nat)
    requires c.ExecDetails? && IdsConsistent(s) && Disciplined(s) && IsAbout(s.orders, c, k)
    ensures
      && k < |s.orders| && k < |Step(s, c).orders|
      && Tells(s, Step(s, c), k, FromExecution, Identity(s.orders[k], c.execId, c.report) !in s.seen)
  {
    hide About, Target, Resolve, Tells, Announce, OmsOrders.OnExecution, PhaseOf;
    var r := c.report;
    var quantity := if r.shares > 0.0 then Some(r.shares) else None;
    TargetIff(s, c.id, r.permId, c.conId, c.side, quantity, k);
    ResolveTouchesOnlyTarget(s, c.id, r.permId, c.conId, c.side, quantity);
    ResolveKeepsBooks(s, c.id, r.permId, c.conId, c.side, quantity);
    ExecuteTells(s, Resolve(s, c.id, r.permId, c.conId, c.side, quantity), k, c.execId, r);
  }

  lemma ExecuteTells(s: State, bound: State, k: nat, execId: string, r: Report)
    requires k < |bound.orders| && k < |s.orders| && SameBooks(s, bound) && Told(s, k)
    requires bound.orders[k].internalId == s.orders[k].internalId
    ensures
      var after := Execute(bound, k, execId, r);
      k < |after.orders| && Tells(s, after, k, FromExecution, Identity(s.orders[k], execId, r) !in s.seen)
  {
    hide Tells, Announce, OmsOrders.OnExecution, PhaseOf, Told;
    var key := KeyFor(bound.orders[k], execId, r);
    var isNew := key !in bound.seen;
    var recorded := isNew && Recordable(r);
    var buffered := if recorded && key in bound.pending then Some(bound.pending[key]) else None;
    var o := OmsOrders.OnExecution(bound.orders[k], key, isNew, r, buffered);
    AnnouncedTells(s,
      bound.(orders := bound.orders[k := o], seen := bound.seen + {key}, execOrder := bound.execOrder[key := k],
             pending := if recorded then bound.pending - {key} else bound.pending,
             commissioned := if buffered.Some? then bound.commissioned + {key} else bound.commissioned),
      k, FromExecution, isNew);
  }

  lemma AnnouncedTells(s: State, ready: State, k: nat, source: Source, isNew: bool)
    requires k < |ready.orders| && Told(s, k)
    requires ready.log == s.log && ready.acked == s.acked && ready.fillEmitted == s.fillEmitted
    requires ready.partialEmitted == s.partialEmitted
    ensures
      var after := Announce(ready, k, source, isNew);
      after.orders == ready.orders && Tells(s, after, k, source, isNew)
  {
    hide Tells, Announce, PhaseOf;
    AnnounceOutcome(ready, k, source, isNew);
    Announced(ready, k, source, isNew);
    TellsSince(s, ready, Announce(ready, k, source, isNew), k, source, isNew);
  }

  lemma TellsSince(s: State, ready: State, after: State, k: nat, source: Source, isNew: bool)
    requires k < |after.orders| && Tells(ready, after, k, source, isNew)
    requires ready.log == s.log && ready.partialEmitted == s.partialEmitted
    ensures Tells(s, after, k, source, isNew)
  {
    hide Happened;
  }

  // ---- No ending is made up ----

  /** A report of a cancelled order, or the error that says so. */
  predicate SaysCancelled(c: Callback) {
    || ((c.OrderStatus? || c.OpenOrder?) && (Text.Spells(c.raw, "CANCELLED") || Text.Spells(c.raw, "APICANCELLED")))
    || (c.BrokerError? && c.code == 202)
  }

  predicate SaysRejected(c: Callback) {
    || ((c.OrderStatus? || c.OpenOrder?) && (Text.Spells(c.raw, "INACTIVE") || Text.Spells(c.raw, "REJECTED")))
    || (c.BrokerError? && c.code in {200, 201, 10147, 10148, 10243})
  }

  /** Whatever becomes cancelled or rejected was said to be. */
  ghost predicate EndsAsSaid(before: seq<OmsOrder>, after: seq<OmsOrder>, c: Callback) {
    && |before| <= |after|
    && forall k :: 0 <= k < |after| ==>
      && (after[k].status == Cancelled ==> (k < |before| && before[k].status == Cancelled) || SaysCancelled(c))
      && (after[k].status == Rejected ==> (k < |before| && before[k].status == Rejected) || SaysRejected(c))
  }

  lemma ReportEndsAsSaid(s: State, c: Callback)
    requires IdsConsistent(s) && (c.OrderStatus? || c.OpenOrder?)
    ensures EndsAsSaid(s.orders, Step(s, c).orders, c)
  {
    hide About, Text.Spells, OnOrderStatus, OnOpenOrder, IdsConsistent, QuantitiesFollow, PricesFollow, OnlyLearns;
    if k: nat :| IsAbout(s.orders, c, k) {
      AboutInRange(s.orders, c, k);
      if c.OrderStatus? {
        StatusReportOutcome(s, c, k);
      } else {
        OpenOrderOutcome(s, c, k);
      }
    } else {
      AboutNobody(s, c);
    }
  }

  lemma AboutInRange(orders: seq<OmsOrder>, c: Callback, k: nat)
    requires IsAbout(orders, c, k)
    ensures k < |orders|
  {}

  lemma ExecutionEndsAsSaid(s: State, c: Callback)
    requires IdsConsistent(s) && c.ExecDetails?
    ensures EndsAsSaid(s.orders, Step(s, c).orders, c)
  {
    hide About, Text.Spells, OnExecDetails, IdsConsistent, OnlyLearns, WeightedAverage, CommissionOf, SharesOf;
    if k: nat :| IsAbout(s.orders, c, k) {
      AboutInRange(s.orders, c, k);
      ExecutionOutcome(s, c, k);
    } else {
      AboutNobody(s, c);
    }
  }

  lemma ErrorEndsAsSaid(s: State, id: int, code: int, text: string)
    requires IdsConsistent(s)
    ensures EndsAsSaid(s.orders, Step(s, BrokerError(id, code, text)).orders, BrokerError(id, code, text))
  {
    hide Text.Spells, OnBrokerError, IdsConsistent, Text.OnlySpaces, Text.Digits;
    if k: nat :| k < |s.orders| && s.orders[k].twsId == Some(id) {
      ErrorOutcome(s, id, code, text, k);
    } else {
      ErrorOfNobody(s, id, code, text);
    }
  }

  lemma StepEndsAsSaid(s: State, c: Callback)
    requires IdsConsistent(s) && Admissible(s, c)
    ensures EndsAsSaid(s.orders, Step(s, c).orders, c)
  {
    hide SaysCancelled, SaysRejected, OnOrderStatus, OnOpenOrder, OnExecDetails, OnBrokerError, EndsAsSaid;
    match c
    case OrderStatus(_, _, _, _, _, _, _) => ReportEndsAsSaid(s, c);
    case OpenOrder(_, _, _, _, _, _) => ReportEndsAsSaid(s, c);
    case ExecDetails(_, _, _, _, _) => ExecutionEndsAsSaid(s, c);
    case BrokerError(id, code, text) => ErrorEndsAsSaid(s, id, code, text);
    case _ => OthersEndAsSaid(s, c);
  }

  lemma OthersEndAsSaid(s: State, c: Callback)
    requires IdsConsistent(s) && Admissible(s, c)
    requires c.CommissionReport? || c.ConnectionClosed? || c.ConnectionRestored? || c.Submit? || c.Adopt?
    ensures EndsAsSaid(s.orders, Step(s, c).orders, c)
  {
    hide SaysCancelled, SaysRejected, OnCommissionReport, OnSubmit, OnAdopt, ParkAll, UnparkAll, IdsConsistent;
    if c.Adopt? {
      FiledIff(s, 0);
      AdoptNewOutcome(s, c.order);
    } else if c.Submit? {
      FiledIff(s, 0);
      SubmitOutcome(s, c.order, c.id);
    } else if c.CommissionReport? {
      FiledIff(s, 0);
      CommissionKeepsStatus(s, c.execId, c.commission);
    }
  }

  lemma CommissionKeepsStatus(s: State, execId: string, raw: Option<real>)
    requires InRange(s)
    ensures var after := OnCommissionReport(s, execId, raw);
      |after.orders| == |s.orders| && forall k :: 0 <= k < |s.orders| ==> after.orders[k].status == s.orders[k].status
  {
    hide CommissionOf, RecordOf;
  }

  /** Over any run no order is cancelled or rejected unless a report or an error said so. */
  lemma {:induction false} RunEndsAsSaid(s: State, cs: seq<Callback>, k: nat)
    requires IdsConsistent(s) && AdmissibleAlong(s, cs) && k < |Run(s, cs).orders|
    ensures
      var o := Run(s, cs).orders[k];
      && (o.status == Cancelled ==>
            (k < |s.orders| && s.orders[k].status == Cancelled) || exists i :: 0 <= i < |cs| && SaysCancelled(cs[i]))
      && (o.status == Rejected ==>
            (k < |s.orders| && s.orders[k].status == Rejected) || exists i :: 0 <= i < |cs| && SaysRejected(cs[i]))
    decreases |cs|
  {
    hide Admissible, Step, SaysCancelled, SaysRejected;
    if cs != [] {
      StepConsistent(s, cs[0]);
      StepEndsAsSaid(s, cs[0]);
      RunEndsAsSaid(Step(s, cs[0]), cs[1..], k);
    }
  }
}
