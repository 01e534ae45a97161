/** The basket coordinator: submits the legs of an intent, retries what is missing,
    otherwise reverses what filled, otherwise latches the account as critical. The
    broker is adversarial: at every await it may do anything its contract allows. */
module Coordinator {
  import opened Sides
  import opened Options
  import opened Orders
  import opened Baskets

  datatype Intent = Intent(signalId: string, strategyId: string, action: Action, accountId: Option<nat>, legs: seq<Leg>)

  datatype RetryKey = RetryKey(accountId: Option<nat>, signalId: string, leg: nat, attempt: nat)

  /** `enabled` also stands for a wired risk engine and an allowed port. */
  datatype RetryPolicy = RetryPolicy(enabled: bool, maxRetries: nat)

  /** What the coordinator reads from outside while it runs: the account's kill switch,
      the clock, the risk check and whether placing an order raises, by leg and attempt. */
  datatype Conditions = Conditions(
    killSwitchAtRetry: bool,
    killSwitchAtReversal: bool,
    windowOver: nat -> bool,
    windowOverAfterPause: nat -> bool,
    riskPasses: (nat, nat) -> bool,
    placementRaises: (nat, nat) -> bool)

  /** Why the retries ended. */
  datatype RetryStop = Disabled | CancelFailed | WindowExpired | Complete | Exhausted

  /** The kill switch stops retries and reversals of opening baskets only. */
  predicate Killed(intent: Intent, killSwitch: bool) {
    intent.action == OPEN && intent.accountId.Some? && killSwitch
  }

  /** The basket's own row has the state and every other row is as it was; nothing is
      stored without a database or an account. */
  ghost predicate Upserted(before: map<BasketKey, BasketState>, after: map<BasketKey, BasketState>, persistent: bool,
                           intent: Intent, state: BasketState)
  {
    forall accountId: nat, tradeId, action ::
      var key := BasketKey(accountId, tradeId, action);
      if persistent && intent.accountId == Some(accountId) && tradeId == intent.signalId && action == intent.action then
        key in after && after[key] == state
      else (key in after <==> key in before) && (key in before ==> after[key] == before[key])
  }

  /** `orders` and `compensation` are indices into the order table. */
  datatype Result = Result(state: BasketState, orders: seq<nat>, compensation: seq<nat>)

  /** What is open after reversing: fills of the basket less fills of its reversals. */
  function NetForLeg(orders: seq<Order>, ids: seq<nat>, reversals: seq<nat>, leg: nat): real
    requires InTable(orders, ids) && InTable(orders, reversals)
  {
    FilledForLeg(orders, ids, leg) - ReversedForLeg(orders, reversals, leg)
  }

  function ReversedForLeg(orders: seq<Order>, reversals: seq<nat>, leg: nat): real
    requires InTable(orders, reversals)
  {
    if reversals == [] then 0.0
    else
      var o := orders[reversals[|reversals| - 1]];
      ReversedForLeg(orders, reversals[..|reversals| - 1], leg) + (if o.leg == leg then o.filled else 0.0)
  }

  /** Every reversal was placed against the whole fill of its leg; one per leg. */
  ghost predicate Reverses(legs: seq<Leg>, orders: seq<Order>, ids: seq<nat>, reversals: seq<nat>) {
    && InTable(orders, ids) && InTable(orders, reversals)
    && (forall j :: 0 <= j < |reversals| ==>
          var o := orders[reversals[j]];
          && o.isCompensation && o.leg < |legs|
          && o.side == legs[o.leg].side.Opposite()
          && o.quantity == FilledForLeg(orders, ids, o.leg) && o.quantity > FILL_EPS)
    && (forall i, j :: 0 <= i < j < |reversals| ==> orders[reversals[i]].leg < orders[reversals[j]].leg)
  }

  predicate SomeParked(orders: seq<Order>, ids: seq<nat>)
    requires InTable(orders, ids)
  {
    exists j :: 0 <= j < |ids| && orders[ids[j]].IsParked()
  }

  predicate NothingFilled(orders: seq<Order>, ids: seq<nat>)
    requires InTable(orders, ids)
  {
    forall j :: 0 <= j < |ids| && !orders[ids[j]].isCompensation ==> orders[ids[j]].filled <= FILL_EPS
  }

  /** Without reversals the basket is flat only if nothing filled; with reversals all of
      them must have filled. */
  predicate CompensationComplete(orders: seq<Order>, reversals: seq<nat>, ids: seq<nat>)
    requires InTable(orders, ids) && InTable(orders, reversals)
  {
    if reversals == [] then NothingFilled(orders, ids)
    else forall j :: 0 <= j < |reversals| ==>
      var o := orders[reversals[j]];
      o.status == Filled && o.filled + FILL_EPS >= o.quantity
  }

  /** Every order still working was asked to be cancelled. */
  predicate AllAsked(orders: seq<Order>, ids: seq<nat>, asked: set<nat>)
    requires InTable(orders, ids)
  {
    forall j :: 0 <= j < |ids| ==> orders[ids[j]].IsSettled() || ids[j] in asked
  }

  class BasketCoordinator {
    const policy: RetryPolicy
    /** Whether a database is configured. */
    const persistent: bool
    var orders: seq<Order>
    var critical: set<(nat, string)>
    var retryIds: set<RetryKey>
    var baskets: map<BasketKey, BasketState>
    /** The orders the broker was asked to cancel. */
    ghost var asked: set<nat>
    /** Those of them for which that was refused. */
    ghost var refusals: set<nat>

    constructor (policy: RetryPolicy, persistent: bool)
      ensures Valid() && orders == [] && critical == {} && retryIds == {} && baskets == map[]
    {
      this.policy, this.persistent := policy, persistent;
      orders, critical, retryIds, baskets, asked, refusals := [], {}, {}, map[], {}, {};
    }

    predicate Valid()
      reads this`orders
    {
      AllSane(orders)
    }

    predicate IsOpenBlocked(accountId: Option<nat>, strategyId: string)
      reads this`critical
    {
      accountId.Some? && (accountId.value, strategyId) in critical
    }

    // ---- The broker and the database, as far as the coordinator can rely on them ----

    /** Any await: callbacks arrive and other baskets place orders. */
    method Await()
      requires Valid()
      modifies this`orders
      ensures Valid() && TableEvolves(old(orders), orders)
    {
    }

    /** One leg handed to the OMS. The order exists afterwards in any status, filled to
        any extent; a failure to place it shows as an order in error. */
    method SubmitOneLeg(leg: nat, side: Side, quantity: Quantity) returns (k: nat)
      requires Valid()
      modifies this`orders
      ensures Valid() && TableEvolves(old(orders), orders)
      ensures |old(orders)| <= k < |orders|
      ensures var o := orders[k]; o.leg == leg && o.side == side && o.quantity == quantity && !o.isCompensation
    {
      k := |orders|;
      orders := orders + [Order(leg, side, quantity, 0.0, Pending, false, false)];
    }

    /** A cancel request, which may be refused; even if sent it promises nothing. */
    method CancelOrder(k: nat) returns (refused: bool)
      requires Valid() && k < |orders|
      modifies this`orders, this`asked, this`refusals
      ensures Valid() && TableEvolves(old(orders), orders)
      ensures asked == old(asked) + {k}
      ensures refusals == if refused then old(refusals) + {k} else old(refusals)
    {
      asked := asked + {k};
      refused := *;
      if refused {
        refusals := refusals + {k};
      }
    }

    method PersistBasket(intent: Intent, state: BasketState)
      requires Valid()
      modifies this`orders, this`baskets
      ensures Valid() && TableEvolves(old(orders), orders)
      ensures Upserted(old(baskets), baskets, persistent, intent, state)
    {
      if persistent && intent.accountId.Some? {
        baskets := baskets[BasketKey(intent.accountId.value, intent.signalId, intent.action) := state];
      }
      Await();
    }

    // ---- Cancelling ----

    /** Asks to cancel everything still working and waits. Succeeds only with every
        order settled. */
    method CancelWorking(ids: seq<nat>) returns (cancelled: bool)
      requires Valid() && InTable(orders, ids)
      modifies this`orders, this`asked, this`refusals
      ensures Valid() && TableEvolves(old(orders), orders)
      ensures old(asked) <= asked
      ensures cancelled ==> AllSettled(orders, ids) && AllAsked(old(orders), ids, asked)
      ensures !cancelled ==> !AllSettled(old(orders), ids)
      ensures !cancelled ==> !AllSettled(orders, ids) || exists j :: 0 <= j < |ids| && ids[j] in refusals
    {
      var working := Working(ids);
      for i := 0 to |working|
        invariant Valid() && TableEvolves(old(orders), orders) && old(asked) <= asked
        invariant forall k :: k in working[..i] ==> k in asked
      {
        var refused := CancelOrder(working[i]);
        if refused {
          assert working[i] in ids;
          return false;
        }
      }
      Await();
      cancelled := forall i :: 0 <= i < |working| ==> orders[working[i]].IsSettled();
      if cancelled {
        assert forall j :: 0 <= j < |ids| ==> ids[j] in working || old(orders)[ids[j]].IsSettled();
        Await();
      } else {
        var i :| 0 <= i < |working| && !orders[working[i]].IsSettled();
        assert working[i] in ids;
      }
    }

    /** The orders still waited for, in order. */
    method Working(ids: seq<nat>) returns (working: seq<nat>)
      requires InTable(orders, ids)
      ensures InTable(orders, working)
      ensures forall k :: k in working <==> k in ids && !orders[k].IsSettled()
      ensures forall k :: k in working <==>
        k in ids && (orders[k].status in {Pending, Submitted, PartiallyFilled} || (orders[k].status == Error && orders[k].parked))
      ensures AllSettled(orders, ids) <==> working == []
    {
      working := [];
      for i := 0 to |ids|
        invariant InTable(orders, working)
        invariant forall k :: k in working <==> k in ids[..i] && !orders[k].IsSettled()
        invariant working == [] <==> forall j :: 0 <= j < i ==> orders[ids[j]].IsSettled()
      {
        if !orders[ids[i]].IsSettled() {
          working := working + [ids[i]];
        }
      }
    }

    // ---- Retrying ----

    /** What the retries rely on and keep: the basket's chain of orders. */
    ghost predicate Building(legs: seq<Leg>, ids: seq<nat>)
      reads this`orders
    {
      Valid() && InTable(orders, ids) && Chain(legs, orders, ids) && Increasing(ids)
    }

    lemma BuildingEvolves(legs: seq<Leg>, before: seq<Order>, ids: seq<nat>)
      requires Valid() && InTable(before, ids) && Chain(legs, before, ids) && Increasing(ids)
      requires TableEvolves(before, orders)
      ensures Building(legs, ids)
    {
      ChainEvolves(legs, before, orders, ids);
    }

    /** Submits one order for what the settled orders of a leg left unfilled. */
    method SubmitRemainder(legs: seq<Leg>, ids: seq<nat>, leg: nat, remaining: Quantity) returns (k: nat)
      requires Building(legs, ids) && leg < |legs| && LegSettled(orders, ids, leg)
      requires remaining == legs[leg].quantity - FilledForLeg(orders, ids, leg)
      modifies this`orders
      ensures TableEvolves(old(orders), orders)
      ensures Building(legs, ids + [k])
      ensures k < |orders| && OnLeg(orders[k], leg)
      ensures forall other :: other != leg && LegSettled(old(orders), ids, other) ==> LegSettled(orders, ids + [k], other)
    {
      ghost var before := orders;
      k := SubmitOneLeg(leg, legs[leg].side, remaining);
      SettledStaysSettled(before, orders, ids);
      FilledEvolves(before, orders, ids, leg);
      BuildingEvolves(legs, before, ids);
      assert (ids + [k])[..|ids|] == ids;
      ChainExtends(legs, orders, ids, k);
      ghost var placed := orders;
      Await();
      BuildingEvolves(legs, placed, ids + [k]);
      SettledStaysSettled(placed, orders, ids + [k]);
      assert Evolves(placed[k], orders[k]);
    }

    /** One pass over the legs. A leg gets one order for exactly what it lacks, unless it
        is covered, blocked by the risk check, already retried under this key, or its
        submission raised. */
    method RetryRound(intent: Intent, c: Conditions, ids: seq<nat>, attempt: nat, blocked: set<nat>)
      returns (round: seq<nat>, nowBlocked: set<nat>)
      requires Building(intent.legs, ids) && AllSettled(orders, ids)
      modifies this`orders, this`retryIds
      ensures TableEvolves(old(orders), orders)
      ensures Building(intent.legs, ids + round) && InTable(orders, round) && |round| <= |intent.legs|
      ensures old(retryIds) <= retryIds
      ensures forall key :: key in retryIds ==> key in old(retryIds) || key.attempt == attempt
      ensures InTable(orders, ids)
      ensures TriedAll(intent, c, old(retryIds), orders, ids, round, attempt, blocked, nowBlocked)
    {
      hide Chain, TableEvolves, FilledForLeg, LegSettled, AllSane, TriedBelow, KeysFrom;
      ghost var start := orders;
      round, nowBlocked := [], blocked;
      assert ids + round == ids;
      EvolvesSelf(orders);
      AllSettledFrom(orders, ids);
      NothingTriedYet(intent, c, retryIds, orders, ids, attempt, blocked);
      for leg := 0 to |intent.legs|
        invariant TableEvolves(start, orders) && InTable(orders, ids) && InTable(orders, round)
        invariant Building(intent.legs, ids + round) && |round| <= leg && SettledFrom(orders, ids + round, leg)
        invariant KeysFrom(old(retryIds), retryIds, attempt, leg)
        invariant TriedBelow(intent, c, old(retryIds), orders, ids, round, attempt, blocked, nowBlocked, leg)
      {
        ghost var before := orders;
        round, nowBlocked := RetryLeg(intent, c, ids, round, leg, attempt, nowBlocked, blocked, old(retryIds));
        EvolvesOn(start, before, orders);
      }
      KeysOfRound(old(retryIds), retryIds, attempt, |intent.legs|);
    }

    /** One leg of a round. */
    method RetryLeg(intent: Intent, c: Conditions, ids: seq<nat>, round: seq<nat>, leg: nat, attempt: nat, nowBlocked: set<nat>,
                    ghost blocked: set<nat>, ghost keys: set<RetryKey>)
      returns (nextRound: seq<nat>, nextBlocked: set<nat>)
      requires leg < |intent.legs| && InTable(orders, ids) && InTable(orders, round)
      requires Building(intent.legs, ids + round) && SettledFrom(orders, ids + round, leg)
      requires KeysFrom(keys, retryIds, attempt, leg)
      requires TriedBelow(intent, c, keys, orders, ids, round, attempt, blocked, nowBlocked, leg)
      modifies this`orders, this`retryIds
      ensures TableEvolves(old(orders), orders) && InTable(orders, ids) && InTable(orders, nextRound)
      ensures Building(intent.legs, ids + nextRound) && |nextRound| <= |round| + 1
      ensures SettledFrom(orders, ids + nextRound, leg + 1)
      ensures KeysFrom(keys, retryIds, attempt, leg + 1)
      ensures TriedBelow(intent, c, keys, orders, ids, nextRound, attempt, blocked, nextBlocked, leg + 1)
    {
      hide Chain, TableEvolves, FilledForLeg, LegSettled, AllSane, TriedBelow, KeysFrom;
      nextRound, nextBlocked := round, nowBlocked;
      EvolvesSelf(orders);
      var remaining := intent.legs[leg].quantity - FilledForLeg(orders, ids + round, leg);
      var key := KeyOf(intent, leg, attempt);
      KeysFromNext(keys, retryIds, attempt, leg, key);
      if leg in nowBlocked || remaining <= FILL_EPS || key in retryIds {
        TriedWithout(intent, c, keys, orders, ids, round, attempt, blocked, nowBlocked, nowBlocked, leg);
        return;
      }
      retryIds := retryIds + {key};
      if !c.riskPasses(leg, attempt) {
        nextBlocked := nowBlocked + {leg};
        TriedWithout(intent, c, keys, orders, ids, round, attempt, blocked, nowBlocked, nextBlocked, leg);
      } else if c.placementRaises(leg, attempt) {
        TriedWithout(intent, c, keys, orders, ids, round, attempt, blocked, nowBlocked, nowBlocked, leg);
      } else {
        ghost var before := orders;
        var k := SubmitRemainder(intent.legs, ids + round, leg, remaining);
        assert ids + round + [k] == ids + (round + [k]);
        nextRound := round + [k];
        TriedWith(intent, c, keys, before, orders, ids, round, k, attempt, blocked, nowBlocked, leg);
      }
    }

    method CancelAndPause(intent: Intent, ids: seq<nat>) returns (cancelled: bool)
      requires Building(intent.legs, ids)
      modifies this`orders, this`asked, this`refusals
      ensures TableEvolves(old(orders), orders) && Building(intent.legs, ids)
      ensures if cancelled then AllSettled(orders, ids) && AllAsked(old(orders), ids, asked) else !AllSettled(old(orders), ids)
    {
      hide Chain, TableEvolves, FilledForLeg, LegSettled, AllSane, AllSettled;
      ghost var start := orders;
      cancelled := CancelWorking(ids);
      BuildingEvolves(intent.legs, start, ids);
      if cancelled {
        ghost var before := orders;
        Await();
        SettledStaysSettled(before, orders, ids);
        BuildingEvolves(intent.legs, before, ids);
        EvolvesOn(start, before, orders);
      }
    }

    method RetryRoundAndWait(intent: Intent, c: Conditions, ids: seq<nat>, attempt: nat, blocked: set<nat>)
      returns (round: seq<nat>, nowBlocked: set<nat>)
      requires Building(intent.legs, ids) && AllSettled(orders, ids)
      modifies this`orders, this`retryIds
      ensures TableEvolves(old(orders), orders) && old(retryIds) <= retryIds
      ensures Building(intent.legs, ids + round) && |round| <= |intent.legs|
      ensures forall key :: key in retryIds ==> key in old(retryIds) || key.attempt == attempt
      ensures InTable(orders, round) && TriedAll(intent, c, old(retryIds), orders, ids, round, attempt, blocked, nowBlocked)
    {
      hide Chain, TableEvolves, FilledForLeg, LegSettled, AllSane, AllSettled, TriedAll;
      ghost var start := orders;
      round, nowBlocked := RetryRound(intent, c, ids, attempt, blocked);
      if round != [] {
        ghost var before := orders;
        Await();
        BuildingEvolves(intent.legs, before, ids + round);
        EvolvesOn(start, before, orders);
        TriedEvolves(intent, c, old(retryIds), before, orders, ids, round, attempt, blocked, nowBlocked);
      }
    }

    /** Cancels what is working and retries the remainders, round by round, within the
        policy's attempts and window. */
    method RetryIncomplete(intent: Intent, c: Conditions, ids: seq<nat>)
      returns (created: seq<nat>, stop: RetryStop, attempts: nat, ghost stopped: seq<Order>, ghost rounds: seq<Round>)
      requires Building(intent.legs, ids)
      modifies this`orders, this`retryIds, this`asked, this`refusals
      ensures TableEvolves(old(orders), orders) && old(retryIds) <= retryIds
      ensures Building(intent.legs, ids + created)
      ensures attempts <= policy.maxRetries && |created| <= Rounds(attempts, |intent.legs|)
      ensures TableEvolves(old(orders), stopped) && TableEvolves(stopped, orders) && InTable(stopped, ids + created)
      ensures StopJustified(intent, policy, c, stop, attempts, stopped, ids + created)
      ensures |rounds| == attempts && RoundsTried(intent, c, old(retryIds), orders, ids, created, rounds)
    {
      hide Chain, TableEvolves, FilledForLeg, LegSettled, AllSane, AllSettled, BasketComplete, Increasing, Rounds,
           TriedAll, RoundsTried, AllAsked;
      RoundsStep(0, |intent.legs|);
      created, attempts, rounds := [], 0, [];
      assert ids + created == ids;
      ghost var start := orders;
      stopped := orders;
      EvolvesSelf(orders);
      NoRoundsTried(intent, c, retryIds, orders, ids);
      if Killed(intent, c.killSwitchAtRetry) || !policy.enabled || policy.maxRetries == 0 {
        return created, Disabled, 0, stopped, rounds;
      }
      var cancelled := CancelWorking(ids);
      BuildingEvolves(intent.legs, start, ids);
      NoRoundsTried(intent, c, retryIds, orders, ids);
      if !cancelled {
        return created, CancelFailed, 0, stopped, rounds;
      }
      var blocked: set<nat> := {};
      while attempts < policy.maxRetries
        invariant TableEvolves(start, orders) && old(retryIds) <= retryIds
        invariant Building(intent.legs, ids + created)
        invariant attempts == 0 ==> AllSettled(orders, ids + created)
        invariant attempts <= policy.maxRetries && |created| <= Rounds(attempts, |intent.legs|)
        invariant |rounds| == attempts && RoundsTried(intent, c, old(retryIds), orders, ids, created, rounds)
        invariant blocked == BlockedAfter(rounds)
        invariant KeysOfAttempts(old(retryIds), retryIds, attempts)
      {
        ghost var before := orders;
        EvolvesSelf(orders);
        if c.windowOver(attempts) {
          return created, WindowExpired, attempts, orders, rounds;
        }
        if BasketComplete(intent.legs, orders, ids + created) {
          return created, Complete, attempts, orders, rounds;
        }
        if attempts > 0 {
          cancelled := CancelAndPause(intent, ids + created);
          EvolvesOn(start, before, orders);
          RoundsTriedEvolve(intent, c, old(retryIds), before, orders, ids, created, rounds);
          if !cancelled {
            return created, CancelFailed, attempts, before, rounds;
          }
          if c.windowOverAfterPause(attempts) {
            EvolvesSelf(orders);
            return created, WindowExpired, attempts, orders, rounds;
          }
        }
        RoundsStep(attempts, |intent.legs|);
        attempts := attempts + 1;
        before := orders;
        ghost var keys := retryIds;
        var round, nowBlocked := RetryRoundAndWait(intent, c, ids + created, attempts, blocked);
        EvolvesOn(start, before, orders);
        assert ids + created + round == ids + (created + round);
        RoundsTriedEvolve(intent, c, old(retryIds), before, orders, ids, created, rounds);
        RoundsTriedOneMore(intent, c, old(retryIds), keys, orders, ids, created, rounds, round, blocked, nowBlocked);
        rounds := rounds + [Round(|created|, |created| + |round|, blocked, nowBlocked)];
        created, blocked := created + round, nowBlocked;
      }
      EvolvesSelf(orders);
      stop, stopped := Exhausted, orders;
    }

    // ---- Reversing ----

    /** Reverses the whole fill of every leg, one order per leg. `refused` is the raised
        failure of a reversal that came back rejected or in error. */
    method CompensateFilled(intent: Intent, c: Conditions, ids: seq<nat>)
      returns (reversals: seq<nat>, refused: bool)
      requires Building(intent.legs, ids) && AllSettled(orders, ids)
      modifies this`orders
      ensures TableEvolves(old(orders), orders) && Building(intent.legs, ids)
      ensures InTable(orders, ids) && InTable(orders, reversals)
      ensures Reverses(intent.legs, orders, ids, reversals)
      ensures refused <==> reversals != [] && orders[reversals[|reversals| - 1]].status in {Rejected, Error}
      ensures !refused ==> AllReversed(intent, c, orders, ids, reversals)
      ensures refused ==> SomeFill(intent.legs, orders, ids)
    {
      hide Chain, FilledForLeg, LegSettled, Increasing;
      ghost var start := orders;
      reversals, refused := [], false;
      if Killed(intent, c.killSwitchAtReversal) {
        return;
      }
      for leg := 0 to |intent.legs|
        invariant TableEvolves(start, orders) && Building(intent.legs, ids) && AllSettled(orders, ids)
        invariant Reverses(intent.legs, orders, ids, reversals)
        invariant forall j :: 0 <= j < |reversals| ==> orders[reversals[j]].leg < leg
        invariant CoveredBelow(orders, ids, reversals, leg)
        invariant !RefusedLast(orders, reversals)
      {
        var filled := FilledForLeg(orders, ids, leg);
        if filled > FILL_EPS {
          ghost var before := orders;
          var k := SubmitOneLeg(leg, intent.legs[leg].side.Opposite(), filled);
          orders := orders[k := orders[k].(isCompensation := true)];
          ghost var placed := orders;
          Await();
          EvolvesOn(before, placed, orders);
          assert Evolves(placed[k], orders[k]);
          BuildingEvolves(intent.legs, before, ids);
          SettledStaysSettled(before, orders, ids);
          ReversesOneMore(intent.legs, before, orders, ids, reversals, k, leg);
          FilledEvolves(before, orders, ids, leg);
          reversals := reversals + [k];
          if orders[k].status == Rejected || orders[k].status == Error {
            refused := true;
            return;
          }
        } else {
          CoveredOneMore(orders, ids, reversals, leg);
        }
      }
    }

    // ---- Executing ----

    method FailCritical(intent: Intent)
      requires Valid()
      modifies this`orders, this`critical, this`baskets
      ensures Valid() && TableEvolves(old(orders), orders)
      ensures forall pair: (nat, string) ::
        pair in critical
        <==> pair in old(critical) || (intent.accountId == Some(pair.0) && intent.strategyId == pair.1)
      ensures Upserted(old(baskets), baskets, persistent, intent, CRITICAL)
    {
      if intent.accountId.Some? {
        critical := critical + {(intent.accountId.value, intent.strategyId)};
      }
      PersistBasket(intent, CRITICAL);
    }

    /** Submits the legs in order; a rejected or failed one stops the rest. `seen` are the
        orders as they came back. */
    method SubmitLegs(intent: Intent) returns (ids: seq<nat>, ghost seen: seq<Order>)
      requires Valid()
      modifies this`orders
      ensures TableEvolves(old(orders), orders)
      ensures Building(intent.legs, ids) && |ids| <= |intent.legs|
      ensures forall j :: 0 <= j < |ids| ==> orders[ids[j]].leg == j
      ensures |ids| < |intent.legs| ==>
        ids != [] && InTable(orders, ids) && orders[ids[|ids| - 1]].status in {Rejected, Error}
      ensures CameBack(orders, ids, seen)
      ensures forall j :: 0 <= j < |ids| - 1 ==> seen[j].status !in {Rejected, Error}
    {
      hide CameBack;
      ids, seen := [], [];
      NothingCameBack(orders);
      ghost var start := orders;
      var abortRemaining := false;
      while |ids| < |intent.legs| && !abortRemaining
        invariant TableEvolves(start, orders)
        invariant Building(intent.legs, ids) && |ids| <= |intent.legs|
        invariant forall j :: 0 <= j < |ids| ==> orders[ids[j]].leg == j
        invariant abortRemaining ==> ids != [] && orders[ids[|ids| - 1]].status in {Rejected, Error}
        invariant CameBack(orders, ids, seen) && |seen| == |ids|
        invariant forall j :: 0 <= j < |seen| && (j < |ids| - 1 || !abortRemaining) ==> seen[j].status !in {Rejected, Error}
        decreases |intent.legs| - |ids|
      {
        ghost var before := orders;
        var leg := |ids|;
        NoOrderNoFill(orders, ids, leg);
        var k := SubmitRemainder(intent.legs, ids, leg, intent.legs[leg].quantity);
        LegsStay(before, orders, ids);
        OneMoreCameBack(before, orders, ids, seen, k);
        ids, seen := ids + [k], seen + [orders[k]];
        abortRemaining := orders[k].status == Rejected || orders[k].status == Error;
      }
    }

    /** Reverses what filled and waits; succeeds exactly when no reversal was refused on
        placing and all read as filled afterwards. A refusal raises, and the list of those
        placed so far is lost with it. */
    method Reverse(intent: Intent, c: Conditions, ids: seq<nat>)
      returns (done: bool, reversals: seq<nat>, ghost p: Placing, ghost judged: seq<Order>)
      requires Building(intent.legs, ids) && AllSettled(orders, ids)
      modifies this`orders
      ensures Building(intent.legs, ids) && judged == orders && InTable(orders, reversals)
      ensures InTable(p.table, p.placed) && InTable(orders, p.placed)
      ensures TableEvolves(old(orders), p.table) && TableEvolves(p.table, orders)
      ensures reversals == Reported(p)
      ensures done <==> !Refused(p) && CompensationComplete(orders, p.placed, ids)
      ensures done ==> Flat(intent.legs, orders, ids, reversals)
      ensures !done ==> ReversalFailed(intent, c, orders, ids, p)
    {
      hide Chain, TableEvolves, FilledForLeg, LegSettled, AllSettled, Order.IsSettled, Flat, Reverses, CompensationComplete,
           SomeFill, AllReversed, AllSane, Increasing;
      ghost var start := orders;
      var refused;
      reversals, refused := CompensateFilled(intent, c, ids);
      p, judged := Placing(orders, reversals), orders;
      SettledStaysSettled(start, orders, ids);
      EvolvesSelf(orders);
      if refused {
        return false, [], p, judged;
      }
      ghost var before := orders;
      Await();
      EvolvesOn(start, before, orders);
      BuildingEvolves(intent.legs, before, ids);
      SettledStaysSettled(before, orders, ids);
      AllReversedEvolves(intent, c, before, orders, ids, reversals);
      judged := orders;
      done := CompensationComplete(orders, reversals, ids);
      if done {
        CompletedReversalsFlatten(intent, c, orders, ids, reversals);
      } else {
        IncompleteMeansFilled(intent.legs, orders, ids, reversals);
      }
    }

    /** Cancels what is still working, reverses what filled, and otherwise latches. */
    method Unwind(intent: Intent, c: Conditions, ids: seq<nat>)
      returns (state: BasketState, reversals: seq<nat>, ghost u: Unwinding)
      requires Building(intent.legs, ids)
      modifies this`orders, this`critical, this`baskets, this`asked, this`refusals
      ensures Building(intent.legs, ids)
      ensures Upserted(old(baskets), baskets, persistent, intent, state)
      ensures forall pair: (nat, string) ::
        pair in critical
        <==> pair in old(critical) || (state == CRITICAL && intent.accountId == Some(pair.0) && intent.strategyId == pair.1)
      ensures Unwound(intent, c, old(orders), u, orders, ids, state, reversals)
    {
      hide Chain, TableEvolves, FilledForLeg, LegSettled, Order.IsSettled, Flat, Linked, AllSettled, ReversalFailed, Refused,
           CompensationComplete;
      ghost var start := orders;
      PersistBasket(intent, UNWINDING);
      BuildingEvolves(intent.legs, start, ids);
      ghost var begun := orders;
      reversals := [];
      var done := CancelWorking(ids);
      ghost var p, judged, cancelled := Placing(orders, []), orders, orders;
      EvolvesSelf(orders);
      BuildingEvolves(intent.legs, begun, ids);
      if done {
        done, reversals, p, judged := Reverse(intent, c, ids);
        EvolvesOn(begun, cancelled, p.table);
      }
      state := if done then COMPENSATED else CRITICAL;
      if done {
        PersistBasket(intent, COMPENSATED);
        FlatEvolves(intent.legs, judged, orders, ids, reversals);
      } else {
        FailCritical(intent);
      }
      BuildingEvolves(intent.legs, judged, ids);
      u := Unwinding(begun, p, judged, asked);
    }

    /** Records the basket, submits its legs and waits for them. */
    method SubmitAndWait(intent: Intent) returns (ids: seq<nat>)
      requires Valid()
      modifies this`orders, this`baskets
      ensures TableEvolves(old(orders), orders) && Building(intent.legs, ids) && |ids| <= |intent.legs|
      ensures Upserted(old(baskets), baskets, persistent, intent, EXECUTING)
    {
      hide Chain, TableEvolves, FilledForLeg, AllSane;
      ghost var start := orders;
      PersistBasket(intent, EXECUTING);
      ghost var before := orders;
      ghost var seen;
      ids, seen := SubmitLegs(intent);
      EvolvesOn(start, before, orders);
      before := orders;
      Await();
      BuildingEvolves(intent.legs, before, ids);
      EvolvesOn(start, before, orders);
    }

    /** Retries a basket that is not complete after the first wait. */
    method CompleteByRetrying(intent: Intent, c: Conditions, ids: seq<nat>) returns (all: seq<nat>, ghost e: Retrying)
      requires Building(intent.legs, ids) && |ids| <= |intent.legs|
      modifies this`orders, this`retryIds, this`asked, this`refusals
      ensures TableEvolves(old(orders), orders) && old(retryIds) <= retryIds && Building(intent.legs, all)
      ensures |all| <= MostOrders(|intent.legs|, policy.maxRetries)
      ensures ids <= all && Retried(intent, policy, c, old(retryIds), old(orders), e, orders, ids, all)
    {
      hide Chain, TableEvolves, FilledForLeg, AllSane, StopJustified, Rounds, MostOrders, RoundsTried;
      RoundsStep(0, |intent.legs|);
      EvolvesSelf(orders);
      MostOrdersBounds(|intent.legs|, 0, policy.maxRetries);
      all, e := ids, NotNeeded;
      if !BasketComplete(intent.legs, orders, ids) {
        var created, stop, attempts, stopped, rounds := RetryIncomplete(intent, c, ids);
        MostOrdersBounds(|intent.legs|, attempts, policy.maxRetries);
        all, e := ids + created, Stopped(stop, rounds, stopped);
        assert all[|ids|..] == created;
      }
    }

    /** The whole execution of an intent. Whatever the broker does, the run ends in one
        of five ways, each with what it promises about the fills and the latch. */
    method Execute(intent: Intent, c: Conditions) returns (r: Result, ghost t: Trace)
      requires Valid()
      modifies this
      ensures Valid() && TableEvolves(old(orders), orders) && old(retryIds) <= retryIds
      ensures Building(intent.legs, r.orders) && InTable(orders, r.compensation)
      ensures |r.orders| <= MostOrders(|intent.legs|, policy.maxRetries)
      ensures Upserted(old(baskets), baskets, persistent, intent, r.state)
      ensures forall pair: (nat, string) ::
        pair in critical
        <==> pair in old(critical) || (r.state == CRITICAL && intent.accountId == Some(pair.0) && intent.strategyId == pair.1)
      ensures r.state == CRITICAL && intent.accountId.Some? ==> IsOpenBlocked(intent.accountId, intent.strategyId)
      ensures Faithful(intent, policy, c, old(retryIds), r, t, orders)
    {
      hide Chain, TableEvolves, FilledForLeg, LegSettled, AllSane, AllSettled, BasketComplete, Increasing, Flat, SomeFill,
           SomeParked, MostOrders, Retried, Unwound;
      ghost var start := orders;
      var ids := SubmitAndWait(intent);
      MostOrdersBounds(|intent.legs|, 0, policy.maxRetries);
      ghost var waited, submitted := orders, |ids|;
      assert ids[..submitted] == ids;
      if SomeParked(orders, ids) {
        return Result(EXECUTING, ids, []), Trace(waited, submitted, NotNeeded, waited, Unwinding(waited, Placing(waited, []), waited, {}));
      }
      var all, e := CompleteByRetrying(intent, c, ids);
      assert all[..submitted] == ids;
      ghost var decided := orders;
      EvolvesOn(start, waited, decided);
      if BasketComplete(intent.legs, orders, all) {
        var state := if intent.action == CLOSE then CLOSED else OPENED;
        PersistBasket(intent, state);
        BuildingEvolves(intent.legs, decided, all);
        EvolvesOn(start, decided, orders);
        CompleteStaysComplete(intent.legs, decided, orders, all);
        return Result(state, all, []), Trace(waited, submitted, e, decided, Unwinding(decided, Placing(decided, []), decided, {}));
      }
      var state, reversals, u := Unwind(intent, c, all);
      UnwoundEvolves(intent, c, decided, u, orders, all, state, reversals);
      EvolvesOn(start, decided, orders);
      return Result(state, all, reversals), Trace(waited, submitted, e, decided, u);
    }
  }

  // ---- The first orders ----

  /** Each order was once as seen when it came back. */
  ghost predicate CameBack(orders: seq<Order>, ids: seq<nat>, seen: seq<Order>) {
    |seen| == |ids| && InTable(orders, ids) && forall j :: 0 <= j < |ids| ==> Evolves(seen[j], orders[ids[j]])
  }

  lemma NothingCameBack(orders: seq<Order>)
    ensures CameBack(orders, [], [])
  {}

  lemma OneMoreCameBack(before: seq<Order>, after: seq<Order>, ids: seq<nat>, seen: seq<Order>, k: nat)
    requires CameBack(before, ids, seen) && TableEvolves(before, after) && AllSane(after) && k < |after|
    ensures CameBack(after, ids + [k], seen + [after[k]])
  {
    forall j | 0 <= j < |ids| ensures Evolves(seen[j], after[ids[j]]) {
      assert Evolves(before[ids[j]], after[ids[j]]);
    }
  }

  lemma LegsStay(before: seq<Order>, after: seq<Order>, ids: seq<nat>)
    requires InTable(before, ids) && TableEvolves(before, after)
    ensures InTable(after, ids) && forall j :: 0 <= j < |ids| ==> after[ids[j]].leg == before[ids[j]].leg
  {
    forall j | 0 <= j < |ids| ensures after[ids[j]].leg == before[ids[j]].leg {
      assert Evolves(before[ids[j]], after[ids[j]]);
    }
  }

  /** One order per leg, and one more per leg and retry. */
  function MostOrders(legs: nat, maxRetries: nat): nat {
    legs * (1 + maxRetries)
  }

  function Rounds(attempts: nat, legs: nat): nat {
    attempts * legs
  }

  lemma RoundsStep(attempts: nat, legs: nat)
    ensures Rounds(0, legs) == 0 && Rounds(attempts + 1, legs) == Rounds(attempts, legs) + legs
  {}

  lemma MostOrdersBounds(legs: nat, attempts: nat, maxRetries: nat)
    requires attempts <= maxRetries
    ensures legs + Rounds(attempts, legs) <= MostOrders(legs, maxRetries)
  {}

  function KeyOf(intent: Intent, leg: nat, attempt: nat): RetryKey {
    RetryKey(intent.accountId, intent.signalId, leg, attempt)
  }

  /** The leg is covered or has an order of this round. */
  ghost predicate Served(legs: seq<Leg>, orders: seq<Order>, ids: seq<nat>, round: seq<nat>, leg: nat)
    requires leg < |legs| && InTable(orders, ids) && InTable(orders, round)
  {
    FilledForLeg(orders, ids + round, leg) + FILL_EPS >= legs[leg].quantity || HasOrder(orders, round, leg)
  }

  lemma ServedStays(legs: seq<Leg>, before: seq<Order>, after: seq<Order>, ids: seq<nat>, round: seq<nat>, k: nat, leg: nat)
    requires leg < |legs| && InTable(before, ids) && InTable(before, round) && k < |after|
    requires TableEvolves(before, after) && AllSane(after)
    requires Served(legs, before, ids, round, leg)
    ensures Served(legs, after, ids, round + [k], leg)
  {
    FilledEvolves(before, after, ids + round, leg);
    FilledOneMore(after, ids + round, k, leg);
    assert ids + round + [k] == ids + (round + [k]);
    if HasOrder(before, round, leg) {
      HasOrderEvolves(before, after, round, leg);
      var j :| 0 <= j < |round| && OnLeg(after[round[j]], leg);
      assert OnLeg(after[(round + [k])[j]], leg);
    }
  }

  // ---- What the retry rounds tried ----

  /** The risk check passed the legs of these orders, and had refused none of them in an
      earlier round, and none had been retried under this attempt's key before. */
  predicate AllCleared(intent: Intent, c: Conditions, keys: set<RetryKey>, orders: seq<Order>, round: seq<nat>, attempt: nat,
                       blocked: set<nat>)
    requires InTable(orders, round)
  {
    forall j :: 0 <= j < |round| ==>
      var leg := orders[round[j]].leg;
      && leg !in blocked && c.riskPasses(leg, attempt)
      && RetryKey(intent.accountId, intent.signalId, leg, attempt) !in keys
  }

  lemma ClearedOneMore(intent: Intent, c: Conditions, keys: set<RetryKey>, orders: seq<Order>, round: seq<nat>, k: nat, attempt: nat,
                       blocked: set<nat>)
    requires InTable(orders, round) && k < |orders| && AllCleared(intent, c, keys, orders, round, attempt, blocked)
    requires orders[k].leg !in blocked && c.riskPasses(orders[k].leg, attempt)
    requires RetryKey(intent.accountId, intent.signalId, orders[k].leg, attempt) !in keys
    ensures AllCleared(intent, c, keys, orders, round + [k], attempt, blocked)
  {}

  lemma ClearedStays(intent: Intent, c: Conditions, keys: set<RetryKey>, before: seq<Order>, after: seq<Order>, round: seq<nat>,
                     attempt: nat, blocked: set<nat>)
    requires InTable(before, round) && TableEvolves(before, after)
    requires AllCleared(intent, c, keys, before, round, attempt, blocked)
    ensures AllCleared(intent, c, keys, after, round, attempt, blocked)
  {
    forall j | 0 <= j < |round| ensures after[round[j]].leg == before[round[j]].leg {
      assert Evolves(before[round[j]], after[round[j]]);
    }
  }

  /** One round: legs are refused only by the risk check, orders only placed where it
      passed, and every leg is refused, failed to place, was retried before under this
      key, is covered, or has its order. */
  ghost predicate TriedAll(intent: Intent, c: Conditions, keys: set<RetryKey>, orders: seq<Order>, ids: seq<nat>, round: seq<nat>,
                           attempt: nat, blocked: set<nat>, nowBlocked: set<nat>)
    requires InTable(orders, ids) && InTable(orders, round)
  {
    TriedBelow(intent, c, keys, orders, ids, round, attempt, blocked, nowBlocked, |intent.legs|)
  }

  /** The same for the first `n` legs. */
  ghost predicate TriedBelow(intent: Intent, c: Conditions, keys: set<RetryKey>, orders: seq<Order>, ids: seq<nat>, round: seq<nat>,
                             attempt: nat, blocked: set<nat>, nowBlocked: set<nat>, n: nat)
    requires InTable(orders, ids) && InTable(orders, round) && n <= |intent.legs|
  {
    && blocked <= nowBlocked
    && (forall leg :: leg in nowBlocked ==> leg in blocked || !c.riskPasses(leg, attempt))
    && AllCleared(intent, c, keys, orders, round, attempt, blocked)
    && (forall leg: nat :: leg < n ==> LegTried(intent, c, keys, orders, ids, round, attempt, nowBlocked, leg))
  }

  ghost predicate LegTried(intent: Intent, c: Conditions, keys: set<RetryKey>, orders: seq<Order>, ids: seq<nat>, round: seq<nat>,
                           attempt: nat, nowBlocked: set<nat>, leg: nat)
    requires InTable(orders, ids) && InTable(orders, round) && leg < |intent.legs|
  {
    || leg in nowBlocked || c.placementRaises(leg, attempt)
    || RetryKey(intent.accountId, intent.signalId, leg, attempt) in keys
    || Served(intent.legs, orders, ids, round, leg)
  }

  lemma NothingTriedYet(intent: Intent, c: Conditions, keys: set<RetryKey>, orders: seq<Order>, ids: seq<nat>, attempt: nat, blocked: set<nat>)
    requires InTable(orders, ids)
    ensures TriedBelow(intent, c, keys, orders, ids, [], attempt, blocked, blocked, 0)
    ensures KeysFrom(keys, keys, attempt, 0)
  {}

  /** A leg tried without placing an order. */
  lemma TriedWithout(intent: Intent, c: Conditions, keys: set<RetryKey>, orders: seq<Order>, ids: seq<nat>, round: seq<nat>,
                     attempt: nat, blocked: set<nat>, nowBlocked: set<nat>, nextBlocked: set<nat>, leg: nat)
    requires InTable(orders, ids) && InTable(orders, round) && leg < |intent.legs|
    requires TriedBelow(intent, c, keys, orders, ids, round, attempt, blocked, nowBlocked, leg)
    requires nextBlocked == nowBlocked || (nextBlocked == nowBlocked + {leg} && !c.riskPasses(leg, attempt))
    requires || leg in nextBlocked || c.placementRaises(leg, attempt)
             || RetryKey(intent.accountId, intent.signalId, leg, attempt) in keys
             || FilledForLeg(orders, ids + round, leg) + FILL_EPS >= intent.legs[leg].quantity
    ensures TriedBelow(intent, c, keys, orders, ids, round, attempt, blocked, nextBlocked, leg + 1)
  {
    hide AllCleared, HasOrder, FilledForLeg;
    forall done: nat | done < leg + 1 ensures LegTried(intent, c, keys, orders, ids, round, attempt, nextBlocked, done) {
      assert done < leg ==> LegTried(intent, c, keys, orders, ids, round, attempt, nowBlocked, done);
    }
  }

  /** A leg tried by placing an order. */
  lemma TriedWith(intent: Intent, c: Conditions, keys: set<RetryKey>, before: seq<Order>, after: seq<Order>, ids: seq<nat>,
                  round: seq<nat>, k: nat, attempt: nat, blocked: set<nat>, nowBlocked: set<nat>, leg: nat)
    requires InTable(before, ids) && InTable(before, round) && leg < |intent.legs| && k < |after|
    requires TableEvolves(before, after) && AllSane(after) && OnLeg(after[k], leg)
    requires TriedBelow(intent, c, keys, before, ids, round, attempt, blocked, nowBlocked, leg)
    requires leg !in nowBlocked && c.riskPasses(leg, attempt)
    requires RetryKey(intent.accountId, intent.signalId, leg, attempt) !in keys
    ensures InTable(after, ids) && InTable(after, round + [k])
    ensures TriedBelow(intent, c, keys, after, ids, round + [k], attempt, blocked, nowBlocked, leg + 1)
  {
    hide AllCleared, Served, Evolves;
    ClearedStays(intent, c, keys, before, after, round, attempt, blocked);
    ClearedOneMore(intent, c, keys, after, round, k, attempt, blocked);
    forall done: nat | done < leg + 1 ensures LegTried(intent, c, keys, after, ids, round + [k], attempt, nowBlocked, done) {
      if done < leg {
        assert LegTried(intent, c, keys, before, ids, round, attempt, nowBlocked, done);
        if Served(intent.legs, before, ids, round, done) {
          ServedStays(intent.legs, before, after, ids, round, k, done);
        }
      } else {
        NewOrderServes(intent.legs, after, ids, round, k, leg);
      }
    }
  }

  lemma NewOrderServes(legs: seq<Leg>, orders: seq<Order>, ids: seq<nat>, round: seq<nat>, k: nat, leg: nat)
    requires leg < |legs| && InTable(orders, ids) && InTable(orders, round) && k < |orders| && OnLeg(orders[k], leg)
    ensures Served(legs, orders, ids, round + [k], leg)
  {
    assert OnLeg(orders[(round + [k])[|round|]], leg);
  }

  /** From this leg on every order is settled. */
  ghost predicate SettledFrom(orders: seq<Order>, ids: seq<nat>, leg: nat) {
    InTable(orders, ids) && forall later: nat :: leg <= later ==> LegSettled(orders, ids, later)
  }

  lemma AllSettledFrom(orders: seq<Order>, ids: seq<nat>)
    requires InTable(orders, ids) && AllSettled(orders, ids)
    ensures SettledFrom(orders, ids, 0)
  {}

  /** Keys added in this round are of this attempt and of the legs before. */
  ghost predicate KeysFrom(keys: set<RetryKey>, now: set<RetryKey>, attempt: nat, leg: nat) {
    keys <= now && forall key :: key in now ==> key in keys || (key.attempt == attempt && key.leg < leg)
  }

  lemma KeysFromNext(keys: set<RetryKey>, now: set<RetryKey>, attempt: nat, leg: nat, key: RetryKey)
    requires KeysFrom(keys, now, attempt, leg) && key.attempt == attempt && key.leg == leg
    ensures key in now ==> key in keys
    ensures KeysFrom(keys, now, attempt, leg + 1) && KeysFrom(keys, now + {key}, attempt, leg + 1)
  {}

  lemma KeysOfRound(keys: set<RetryKey>, now: set<RetryKey>, attempt: nat, leg: nat)
    requires KeysFrom(keys, now, attempt, leg)
    ensures keys <= now && forall key :: key in now ==> key in keys || key.attempt == attempt
  {}

  lemma ServedEvolves(legs: seq<Leg>, before: seq<Order>, after: seq<Order>, ids: seq<nat>, round: seq<nat>, leg: nat)
    requires leg < |legs| && InTable(before, ids) && InTable(before, round) && TableEvolves(before, after)
    requires Served(legs, before, ids, round, leg)
    ensures Served(legs, after, ids, round, leg)
  {
    FilledEvolves(before, after, ids + round, leg);
    if HasOrder(before, round, leg) {
      HasOrderEvolves(before, after, round, leg);
    }
  }

  lemma TriedEvolves(intent: Intent, c: Conditions, keys: set<RetryKey>, before: seq<Order>, after: seq<Order>, ids: seq<nat>,
                     round: seq<nat>, attempt: nat, blocked: set<nat>, nowBlocked: set<nat>)
    requires InTable(before, ids) && InTable(before, round) && TableEvolves(before, after)
    requires TriedAll(intent, c, keys, before, ids, round, attempt, blocked, nowBlocked)
    ensures TriedAll(intent, c, keys, after, ids, round, attempt, blocked, nowBlocked)
  {
    hide Served;
    ClearedStays(intent, c, keys, before, after, round, attempt, blocked);
    forall leg: nat | leg < |intent.legs| ensures LegTried(intent, c, keys, after, ids, round, attempt, nowBlocked, leg) {
      assert LegTried(intent, c, keys, before, ids, round, attempt, nowBlocked, leg);
      if Served(intent.legs, before, ids, round, leg) {
        ServedEvolves(intent.legs, before, after, ids, round, leg);
      }
    }
  }

  /** Where a round's orders stand among the created ones, and the legs refused before
      and after it. */
  datatype Round = Round(from: nat, to: nat, blocked: set<nat>, nowBlocked: set<nat>)

  function BlockedAfter(rounds: seq<Round>): set<nat> {
    if rounds == [] then {} else rounds[|rounds| - 1].nowBlocked
  }

  function PlacedAfter(rounds: seq<Round>): nat {
    if rounds == [] then 0 else rounds[|rounds| - 1].to
  }

  ghost predicate RoundTried(intent: Intent, c: Conditions, keys: set<RetryKey>, orders: seq<Order>, ids: seq<nat>,
                             created: seq<nat>, rounds: seq<Round>, a: nat)
    requires InTable(orders, ids) && InTable(orders, created) && a < |rounds|
  {
    var r := rounds[a];
    && r.from <= r.to <= |created|
    && r.from == PlacedAfter(rounds[..a]) && r.blocked == BlockedAfter(rounds[..a])
    && TriedAll(intent, c, keys, orders, ids + created[..r.from], created[r.from..r.to], a + 1, r.blocked, r.nowBlocked)
  }

  /** The created orders are those of the rounds, one after the other; a leg once refused
      stays refused. */
  ghost predicate RoundsTried(intent: Intent, c: Conditions, keys: set<RetryKey>, orders: seq<Order>, ids: seq<nat>,
                              created: seq<nat>, rounds: seq<Round>)
  {
    && InTable(orders, ids) && InTable(orders, created)
    && PlacedAfter(rounds) == |created|
    && forall a :: 0 <= a < |rounds| ==> RoundTried(intent, c, keys, orders, ids, created, rounds, a)
  }

  lemma NoRoundsTried(intent: Intent, c: Conditions, keys: set<RetryKey>, orders: seq<Order>, ids: seq<nat>)
    requires InTable(orders, ids)
    ensures RoundsTried(intent, c, keys, orders, ids, [], [])
  {}

  lemma RoundsTriedEvolve(intent: Intent, c: Conditions, keys: set<RetryKey>, before: seq<Order>, after: seq<Order>, ids: seq<nat>,
                          created: seq<nat>, rounds: seq<Round>)
    requires RoundsTried(intent, c, keys, before, ids, created, rounds) && TableEvolves(before, after)
    ensures RoundsTried(intent, c, keys, after, ids, created, rounds)
  {
    hide TriedAll, Evolves;
    forall a | 0 <= a < |rounds| ensures RoundTried(intent, c, keys, after, ids, created, rounds, a) {
      var r := rounds[a];
      assert RoundTried(intent, c, keys, before, ids, created, rounds, a);
      TriedEvolves(intent, c, keys, before, after, ids + created[..r.from], created[r.from..r.to], a + 1, r.blocked, r.nowBlocked);
    }
  }

  /** Keys added since belong to attempts made. */
  ghost predicate KeysOfAttempts(keys: set<RetryKey>, now: set<RetryKey>, attempts: nat) {
    keys <= now && forall key :: key in now ==> key in keys || key.attempt <= attempts
  }

  lemma ForThisAttempt(intent: Intent, c: Conditions, keys: set<RetryKey>, now: set<RetryKey>, orders: seq<Order>,
                       ids: seq<nat>, round: seq<nat>, attempt: nat, blocked: set<nat>, nowBlocked: set<nat>)
    requires InTable(orders, ids) && InTable(orders, round) && 0 < attempt && KeysOfAttempts(keys, now, attempt - 1)
    requires TriedAll(intent, c, now, orders, ids, round, attempt, blocked, nowBlocked)
    ensures TriedAll(intent, c, keys, orders, ids, round, attempt, blocked, nowBlocked)
  {
    hide Served;
    assert AllCleared(intent, c, now, orders, round, attempt, blocked);
    forall leg: nat | leg < |intent.legs| ensures LegTried(intent, c, keys, orders, ids, round, attempt, nowBlocked, leg) {
      assert LegTried(intent, c, now, orders, ids, round, attempt, nowBlocked, leg);
    }
  }

  lemma RoundsTriedOneMore(intent: Intent, c: Conditions, keys: set<RetryKey>, now: set<RetryKey>, orders: seq<Order>,
                           ids: seq<nat>, created: seq<nat>, rounds: seq<Round>, round: seq<nat>, blocked: set<nat>,
                           nowBlocked: set<nat>)
    requires RoundsTried(intent, c, keys, orders, ids, created, rounds) && InTable(orders, round)
    requires KeysOfAttempts(keys, now, |rounds|) && blocked == BlockedAfter(rounds)
    requires TriedAll(intent, c, now, orders, ids + created, round, |rounds| + 1, blocked, nowBlocked)
    ensures
      RoundsTried(intent, c, keys, orders, ids, created + round,
                  rounds + [Round(|created|, |created| + |round|, blocked, nowBlocked)])
  {
    hide TriedAll;
    var all, grown := rounds + [Round(|created|, |created| + |round|, blocked, nowBlocked)], created + round;
    forall a | 0 <= a < |all| ensures RoundTried(intent, c, keys, orders, ids, grown, all, a) {
      if a < |rounds| {
        var r := rounds[a];
        assert RoundTried(intent, c, keys, orders, ids, created, rounds, a);
        assert all[a] == r && all[..a] == rounds[..a];
        assert grown[..r.from] == created[..r.from] && grown[r.from..r.to] == created[r.from..r.to];
      } else {
        assert all[..a] == rounds;
        assert grown[..|created|] == created && grown[|created|..|created| + |round|] == round;
        ForThisAttempt(intent, c, keys, now, orders, ids + created, round, a + 1, blocked, nowBlocked);
      }
    }
  }

  // ---- Reversals cover the fills ----

  ghost predicate HasReversal(orders: seq<Order>, reversals: seq<nat>, leg: nat)
    requires InTable(orders, reversals)
  {
    exists j :: 0 <= j < |reversals| && orders[reversals[j]].leg == leg
  }

  ghost predicate CoveredBelow(orders: seq<Order>, ids: seq<nat>, reversals: seq<nat>, n: nat)
    requires InTable(orders, ids) && InTable(orders, reversals)
  {
    forall leg: nat :: leg < n && FilledForLeg(orders, ids, leg) > FILL_EPS ==> HasReversal(orders, reversals, leg)
  }

  ghost predicate Covered(legs: seq<Leg>, orders: seq<Order>, ids: seq<nat>, reversals: seq<nat>)
    requires InTable(orders, ids) && InTable(orders, reversals)
  {
    CoveredBelow(orders, ids, reversals, |legs|)
  }

  lemma CoveredOneMore(orders: seq<Order>, ids: seq<nat>, reversals: seq<nat>, n: nat)
    requires InTable(orders, ids) && InTable(orders, reversals)
    requires CoveredBelow(orders, ids, reversals, n) && FilledForLeg(orders, ids, n) <= FILL_EPS
    ensures CoveredBelow(orders, ids, reversals, n + 1)
  {}

  lemma ReversesEvolve(legs: seq<Leg>, before: seq<Order>, after: seq<Order>, ids: seq<nat>, reversals: seq<nat>)
    requires Reverses(legs, before, ids, reversals) && AllSettled(before, ids) && TableEvolves(before, after)
    ensures Reverses(legs, after, ids, reversals)
    ensures forall n :: CoveredBelow(before, ids, reversals, n) ==> CoveredBelow(after, ids, reversals, n)
  {
    forall j | 0 <= j < |reversals| ensures Evolves(before[reversals[j]], after[reversals[j]]) {}
    forall leg ensures FilledForLeg(before, ids, leg) == FilledForLeg(after, ids, leg) {
      FilledEvolves(before, after, ids, leg);
    }
    forall leg | HasReversal(before, reversals, leg) ensures HasReversal(after, reversals, leg) {
      var j :| 0 <= j < |reversals| && before[reversals[j]].leg == leg;
      assert after[reversals[j]].leg == leg;
    }
  }

  lemma AllReversedEvolves(intent: Intent, c: Conditions, before: seq<Order>, after: seq<Order>, ids: seq<nat>, reversals: seq<nat>)
    requires Reverses(intent.legs, before, ids, reversals) && AllSettled(before, ids) && TableEvolves(before, after)
    requires AllReversed(intent, c, before, ids, reversals)
    ensures Reverses(intent.legs, after, ids, reversals) && AllReversed(intent, c, after, ids, reversals)
  {
    ReversesEvolve(intent.legs, before, after, ids, reversals);
  }

  lemma ReversesOneMore(legs: seq<Leg>, before: seq<Order>, after: seq<Order>, ids: seq<nat>, reversals: seq<nat>, k: nat, leg: nat)
    requires Reverses(legs, before, ids, reversals) && AllSettled(before, ids) && TableEvolves(before, after)
    requires CoveredBelow(before, ids, reversals, leg)
    requires forall j :: 0 <= j < |reversals| ==> before[reversals[j]].leg < leg
    requires leg < |legs| && k < |after|
    requires var o := after[k];
      && o.leg == leg && o.isCompensation && o.side == legs[leg].side.Opposite()
      && o.quantity == FilledForLeg(before, ids, leg) && o.quantity > FILL_EPS
    ensures Reverses(legs, after, ids, reversals + [k])
    ensures CoveredBelow(after, ids, reversals + [k], leg + 1)
    ensures forall j :: 0 <= j < |reversals + [k]| ==> after[(reversals + [k])[j]].leg < leg + 1
  {
    hide FilledForLeg, Order.IsSettled, CoveredBelow, AllSettled;
    ReversesEvolve(legs, before, after, ids, reversals);
    FillsStand(before, after, ids, leg);
    LegsStand(before, after, reversals, leg);
    ReversesAlso(legs, after, ids, reversals, k, leg);
    CoveredByOneMore(after, ids, reversals, k, leg);
  }

  lemma FillsStand(before: seq<Order>, after: seq<Order>, ids: seq<nat>, leg: nat)
    requires InTable(before, ids) && AllSettled(before, ids) && TableEvolves(before, after)
    ensures FilledForLeg(after, ids, leg) == FilledForLeg(before, ids, leg)
  {
    FilledEvolves(before, after, ids, leg);
  }

  lemma LegsStand(before: seq<Order>, after: seq<Order>, reversals: seq<nat>, leg: nat)
    requires InTable(before, reversals) && TableEvolves(before, after)
    requires forall j :: 0 <= j < |reversals| ==> before[reversals[j]].leg < leg
    ensures forall j :: 0 <= j < |reversals| ==> after[reversals[j]].leg < leg
  {
    forall j | 0 <= j < |reversals| ensures after[reversals[j]].leg < leg {
      assert Evolves(before[reversals[j]], after[reversals[j]]);
    }
  }

  lemma ReversesAlso(legs: seq<Leg>, orders: seq<Order>, ids: seq<nat>, reversals: seq<nat>, k: nat, leg: nat)
    requires Reverses(legs, orders, ids, reversals) && leg < |legs| && k < |orders|
    requires forall j :: 0 <= j < |reversals| ==> orders[reversals[j]].leg < leg
    requires var o := orders[k];
      && o.leg == leg && o.isCompensation && o.side == legs[leg].side.Opposite()
      && o.quantity == FilledForLeg(orders, ids, leg) && o.quantity > FILL_EPS
    ensures Reverses(legs, orders, ids, reversals + [k])
    ensures forall j :: 0 <= j < |reversals + [k]| ==> orders[(reversals + [k])[j]].leg < leg + 1
  {
    hide FilledForLeg;
  }

  lemma CoveredByOneMore(orders: seq<Order>, ids: seq<nat>, reversals: seq<nat>, k: nat, leg: nat)
    requires InTable(orders, ids) && InTable(orders, reversals) && k < |orders| && orders[k].leg == leg
    requires CoveredBelow(orders, ids, reversals, leg)
    ensures CoveredBelow(orders, ids, reversals + [k], leg + 1)
  {
    var all := reversals + [k];
    forall n: nat | n < leg + 1 && FilledForLeg(orders, ids, n) > FILL_EPS ensures HasReversal(orders, all, n) {
      if n == leg {
        assert orders[all[|reversals|]].leg == leg;
      } else {
        assert HasReversal(orders, reversals, n);
        var j :| 0 <= j < |reversals| && orders[reversals[j]].leg == n;
        assert orders[all[j]].leg == n;
      }
    }
  }

  // ---- What a run of Execute amounts to ----

  /** Everything settled and, leg by leg, the reversals undo the fills up to the fill
      tolerance. */
  ghost predicate Flat(legs: seq<Leg>, orders: seq<Order>, ids: seq<nat>, reversals: seq<nat>)
    requires InTable(orders, ids) && InTable(orders, reversals)
  {
    && AllSettled(orders, ids) && AllSettled(orders, reversals)
    && Reverses(legs, orders, ids, reversals)
    && forall leg: nat :: leg < |legs| ==>
      0.0 <= NetForLeg(orders, ids, reversals, leg) <= FILL_EPS * (|ids| as real)
  }

  /** The retries had a reason to stop when they did; `stopped` is the order table then. */
  ghost predicate StopJustified(intent: Intent, policy: RetryPolicy, c: Conditions, stop: RetryStop, attempts: nat,
                                stopped: seq<Order>, ids: seq<nat>)
    requires InTable(stopped, ids)
  {
    var off := (intent.action == OPEN && intent.accountId.Some? && c.killSwitchAtRetry) || !policy.enabled || policy.maxRetries == 0;
    && (stop == Disabled <==> off)
    && (off ==> attempts == 0)
    && (stop == CancelFailed ==> !AllSettled(stopped, ids))
    && (stop == WindowExpired ==> c.windowOver(attempts) || (attempts > 0 && c.windowOverAfterPause(attempts)))
    && (stop == Complete ==> BasketComplete(intent.legs, stopped, ids))
    && (stop == Exhausted ==> attempts == policy.maxRetries)
  }

  /** The rounds made, and the order table when the retries stopped. */
  datatype Retrying = NotNeeded | Stopped(stop: RetryStop, rounds: seq<Round>, stopped: seq<Order>)

  ghost predicate Retried(intent: Intent, policy: RetryPolicy, c: Conditions, keys: set<RetryKey>, before: seq<Order>, e: Retrying,
                          after: seq<Order>, ids: seq<nat>, all: seq<nat>)
    requires InTable(before, ids)
  {
    if BasketComplete(intent.legs, before, ids) then e == NotNeeded && all == ids && after == before
    else
      && e.Stopped? && InTable(e.stopped, all) && |ids| <= |all|
      && TableEvolves(before, e.stopped) && TableEvolves(e.stopped, after)
      && StopJustified(intent, policy, c, e.stop, |e.rounds|, e.stopped, all)
      && RoundsTried(intent, c, keys, after, ids, all[|ids|..], e.rounds)
  }

  /** The newest reversal came back rejected or in error. */
  predicate RefusedLast(orders: seq<Order>, reversals: seq<nat>)
    requires InTable(orders, reversals)
  {
    reversals != [] && orders[reversals[|reversals| - 1]].status in {Rejected, Error}
  }

  /** Reversals were placed for every leg with a fill, unless the kill switch forbade it. */
  ghost predicate AllReversed(intent: Intent, c: Conditions, orders: seq<Order>, ids: seq<nat>, reversals: seq<nat>)
    requires InTable(orders, ids) && InTable(orders, reversals)
  {
    if intent.action == OPEN && intent.accountId.Some? && c.killSwitchAtReversal then reversals == []
    else Covered(intent.legs, orders, ids, reversals)
  }

  /** The order table when the last reversal had been placed, and the reversals placed. */
  datatype Placing = Placing(table: seq<Order>, placed: seq<nat>)

  predicate Refused(p: Placing) {
    InTable(p.table, p.placed) && RefusedLast(p.table, p.placed)
  }

  /** What the result says was placed: nothing, if one of them was refused. */
  function Reported(p: Placing): (r: seq<nat>)
    ensures r == [] && p.placed != [] <==> Refused(p)
  {
    if Refused(p) then [] else p.placed
  }

  /** Something filled, and a reversal of it was refused on placing or not all of them
      read as filled afterwards. */
  ghost predicate ReversalFailed(intent: Intent, c: Conditions, orders: seq<Order>, ids: seq<nat>, p: Placing)
    requires InTable(orders, ids) && InTable(orders, p.placed)
  {
    && AllSettled(orders, ids) && Reverses(intent.legs, orders, ids, p.placed) && SomeFill(intent.legs, orders, ids)
    && (|| Refused(p)
        || (AllReversed(intent, c, orders, ids, p.placed) && !CompensationComplete(orders, p.placed, ids)))
  }

  /** The order table when unwinding begins, the reversals placed, the table when it is
      judged, and the orders asked to be cancelled. */
  datatype Unwinding = Unwinding(begun: seq<Order>, placing: Placing, judged: seq<Order>, asked: set<nat>)

  /** Unwinding ends compensated only when flat, and critical only when an order could not
      be settled or a reversal failed. */
  ghost predicate Unwound(intent: Intent, c: Conditions, before: seq<Order>, u: Unwinding, after: seq<Order>,
                          ids: seq<nat>, state: BasketState, reversals: seq<nat>)
  {
    var p := u.placing;
    && InTable(before, ids) && InTable(u.begun, ids) && InTable(u.judged, ids) && InTable(u.judged, p.placed)
    && InTable(after, ids) && InTable(after, reversals) && InTable(p.table, p.placed)
    && TableEvolves(before, u.begun) && TableEvolves(u.begun, p.table) && TableEvolves(p.table, u.judged)
    && TableEvolves(u.judged, after)
    && reversals == Reported(p)
    && (state == COMPENSATED ==>
          && AllAsked(u.begun, ids, u.asked) && !Refused(p) && CompensationComplete(u.judged, p.placed, ids)
          && Flat(intent.legs, after, ids, reversals))
    && (state == CRITICAL ==>
          || (!AllSettled(u.begun, ids) && p.placed == [])
          || (AllAsked(u.begun, ids, u.asked) && ReversalFailed(intent, c, u.judged, ids, p)))
    && (state == COMPENSATED || state == CRITICAL)
  }

  lemma UnwoundEvolves(intent: Intent, c: Conditions, before: seq<Order>, u: Unwinding, after: seq<Order>,
                       ids: seq<nat>, state: BasketState, reversals: seq<nat>)
    requires Unwound(intent, c, before, u, after, ids, state, reversals)
    ensures TableEvolves(before, after) && InTable(after, reversals) && (state == COMPENSATED || state == CRITICAL)
  {
    EvolvesOn(before, u.begun, u.placing.table);
    EvolvesOn(before, u.placing.table, u.judged);
    EvolvesOn(before, u.judged, after);
  }

  /** A run of Execute: the order table after the first wait over the first `submitted`
      orders, the retries, the table when completeness is decided, and the unwinding. */
  datatype Trace = Trace(waited: seq<Order>, submitted: nat, retrying: Retrying, decided: seq<Order>, unwinding: Unwinding)

  ghost predicate Faithful(intent: Intent, policy: RetryPolicy, c: Conditions, keys: set<RetryKey>, r: Result, t: Trace, orders: seq<Order>)
    requires InTable(orders, r.orders) && InTable(orders, r.compensation)
  {
    && t.submitted <= |r.orders|
    && var first := r.orders[..t.submitted];
    && InTable(t.waited, first)
    && (r.state == EXECUTING <==> SomeParked(t.waited, first))
    && (r.state == EXECUTING ==> orders == t.waited && first == r.orders && r.compensation == [])
    && (r.state != EXECUTING ==>
          && Retried(intent, policy, c, keys, t.waited, t.retrying, t.decided, first, r.orders)
          && InTable(t.decided, r.orders)
          && if BasketComplete(intent.legs, t.decided, r.orders) then
               && r.state == (if intent.action == OPEN then OPENED else CLOSED)
               && BasketComplete(intent.legs, orders, r.orders) && r.compensation == []
             else
               Unwound(intent, c, t.decided, t.unwinding, orders, r.orders, r.state, r.compensation))
  }

  // ---- Completed reversals leave the basket flat ----

  lemma {:induction false} FilledAtMost(orders: seq<Order>, ids: seq<nat>, leg: nat)
    requires InTable(orders, ids) && NothingFilled(orders, ids)
    ensures FilledForLeg(orders, ids, leg) <= FILL_EPS * (|ids| as real)
  {
    if ids != [] {
      FilledAtMost(orders, ids[..|ids| - 1], leg);
    }
  }

  /** With one reversal per leg, what is reversed of a leg is its reversal's fill. */
  lemma {:induction false} ReversedByOne(orders: seq<Order>, reversals: seq<nat>, leg: nat)
    requires InTable(orders, reversals)
    requires forall i, j :: 0 <= i < j < |reversals| ==> orders[reversals[i]].leg < orders[reversals[j]].leg
    ensures forall j :: 0 <= j < |reversals| && orders[reversals[j]].leg == leg ==>
      ReversedForLeg(orders, reversals, leg) == orders[reversals[j]].filled
    ensures !HasReversal(orders, reversals, leg) ==> ReversedForLeg(orders, reversals, leg) == 0.0
  {
    if reversals != [] {
      var n := |reversals| - 1;
      ReversedByOne(orders, reversals[..n], leg);
      if orders[reversals[n]].leg == leg {
        assert !HasReversal(orders, reversals[..n], leg);
      } else if !HasReversal(orders, reversals, leg) {
        forall j | 0 <= j < n ensures orders[reversals[..n][j]].leg != leg {
          assert orders[reversals[j]].leg != leg;
        }
      }
    }
  }

  /** Complete reversals leave every leg flat, whatever the kill switch said. */
  lemma CompletedReversalsFlatten(intent: Intent, c: Conditions, orders: seq<Order>, ids: seq<nat>, reversals: seq<nat>)
    requires InTable(orders, ids) && InTable(orders, reversals)
    requires AllSane(orders) && Reverses(intent.legs, orders, ids, reversals) && AllSettled(orders, ids)
    requires AllReversed(intent, c, orders, ids, reversals) && CompensationComplete(orders, reversals, ids)
    ensures Flat(intent.legs, orders, ids, reversals)
  {
    var legs := intent.legs;
    forall leg: nat | leg < |legs|
      ensures 0.0 <= NetForLeg(orders, ids, reversals, leg) <= FILL_EPS * (|ids| as real)
    {
      FilledNotNegative(orders, ids, leg);
      ReversedByOne(orders, reversals, leg);
      if reversals == [] {
        FilledAtMost(orders, ids, leg);
      } else {
        assert ids != [] by {
          assert orders[reversals[0]].quantity > FILL_EPS;
        }
        if HasReversal(orders, reversals, leg) {
          var j :| 0 <= j < |reversals| && orders[reversals[j]].leg == leg;
          assert Sane(orders[reversals[j]]);
        }
      }
    }
  }

  lemma {:induction false} ReversedEvolves(before: seq<Order>, after: seq<Order>, reversals: seq<nat>, leg: nat)
    requires InTable(before, reversals) && TableEvolves(before, after) && AllSettled(before, reversals)
    ensures ReversedForLeg(before, reversals, leg) == ReversedForLeg(after, reversals, leg)
  {
    if reversals != [] {
      ReversedEvolves(before, after, reversals[..|reversals| - 1], leg);
      assert Evolves(before[reversals[|reversals| - 1]], after[reversals[|reversals| - 1]]);
    }
  }

  lemma FlatEvolves(legs: seq<Leg>, before: seq<Order>, after: seq<Order>, ids: seq<nat>, reversals: seq<nat>)
    requires InTable(before, ids) && InTable(before, reversals) && TableEvolves(before, after)
    requires Flat(legs, before, ids, reversals)
    ensures Flat(legs, after, ids, reversals)
  {
    SettledStaysSettled(before, after, ids);
    SettledStaysSettled(before, after, reversals);
    ReversesEvolve(legs, before, after, ids, reversals);
    forall leg: nat ensures NetForLeg(before, ids, reversals, leg) == NetForLeg(after, ids, reversals, leg) {
      FilledEvolves(before, after, ids, leg);
      ReversedEvolves(before, after, reversals, leg);
    }
  }

  // ---- What a critical basket leaves open ----

  /** Some leg filled beyond the tolerance. */
  ghost predicate SomeFill(legs: seq<Leg>, orders: seq<Order>, ids: seq<nat>)
    requires InTable(orders, ids)
  {
    exists leg :: 0 <= leg < |legs| && FilledForLeg(orders, ids, leg) > FILL_EPS
  }

  lemma {:induction false} OrderWithinLeg(orders: seq<Order>, ids: seq<nat>, j: nat)
    requires InTable(orders, ids) && AllSane(orders) && j < |ids| && !orders[ids[j]].isCompensation
    ensures orders[ids[j]].filled <= FilledForLeg(orders, ids, orders[ids[j]].leg)
  {
    FilledNotNegative(orders, ids[..|ids| - 1], orders[ids[j]].leg);
    if j < |ids| - 1 {
      OrderWithinLeg(orders, ids[..|ids| - 1], j);
    }
  }

  /** Reversals are found incomplete only when there is something to reverse. */
  lemma IncompleteMeansFilled(legs: seq<Leg>, orders: seq<Order>, ids: seq<nat>, reversals: seq<nat>)
    requires InTable(orders, ids) && InTable(orders, reversals)
    requires Chain(legs, orders, ids) && AllSane(orders) && Reverses(legs, orders, ids, reversals)
    requires !CompensationComplete(orders, reversals, ids)
    ensures SomeFill(legs, orders, ids)
  {
    if reversals == [] {
      var j :| 0 <= j < |ids| && !orders[ids[j]].isCompensation && orders[ids[j]].filled > FILL_EPS;
      assert Linked(legs, orders, ids, j);
      OrderWithinLeg(orders, ids, j);
    } else {
      assert FilledForLeg(orders, ids, orders[reversals[0]].leg) > FILL_EPS;
    }
  }

  // ---- What the outcomes mean for the quantities ----

  /** An opened or closed basket holds each leg's quantity: never more, and short of it by
      no more than the tolerance. */
  lemma DoneMeansFilled(intent: Intent, policy: RetryPolicy, c: Conditions, keys: set<RetryKey>, r: Result, t: Trace, orders: seq<Order>, leg: nat)
    requires InTable(orders, r.orders) && InTable(orders, r.compensation) && AllSane(orders)
    requires Chain(intent.legs, orders, r.orders) && Faithful(intent, policy, c, keys, r, t, orders)
    requires r.state in {OPENED, CLOSED} && leg < |intent.legs|
    ensures intent.legs[leg].quantity - FILL_EPS <= FilledForLeg(orders, r.orders, leg) <= intent.legs[leg].quantity
  {
    NeverOverOrdered(intent.legs, orders, r.orders, leg);
  }

  /** How a run ends, by what the orders showed when it was decided: it stays executing
      with an order parked after the first wait, is done with every leg filled up to the
      tolerance, and is unwound otherwise. */
  lemma OutcomeIff(intent: Intent, policy: RetryPolicy, c: Conditions, keys: set<RetryKey>, r: Result, t: Trace, orders: seq<Order>)
    requires InTable(orders, r.orders) && InTable(orders, r.compensation) && Faithful(intent, policy, c, keys, r, t, orders)
    ensures t.submitted <= |r.orders| && InTable(t.waited, r.orders[..t.submitted])
    ensures r.state == EXECUTING
       <==> exists j :: 0 <= j < t.submitted && t.waited[r.orders[..t.submitted][j]].status == Error
              && t.waited[r.orders[..t.submitted][j]].parked
    ensures r.state != EXECUTING ==> InTable(t.decided, r.orders)
    ensures
      var filled := r.state != EXECUTING && forall leg :: 0 <= leg < |intent.legs| ==>
        FilledForLeg(t.decided, r.orders, leg) >= intent.legs[leg].quantity - 0.00000001;
      && (r.state == OPENED <==> filled && intent.action == OPEN)
      && (r.state == CLOSED <==> filled && intent.action == CLOSE)
      && (r.state in {COMPENSATED, CRITICAL} <==> r.state != EXECUTING && !filled)
  {}

  // ---- When a compensated basket is exactly flat ----

  /** The leg's reversal filled its whole quantity; without a reversal nothing filled. */
  ghost predicate ReversedInFull(orders: seq<Order>, ids: seq<nat>, reversals: seq<nat>, leg: nat)
    requires InTable(orders, ids) && InTable(orders, reversals)
  {
    if HasReversal(orders, reversals, leg) then
      forall j :: 0 <= j < |reversals| && orders[reversals[j]].leg == leg ==>
        orders[reversals[j]].filled == orders[reversals[j]].quantity
    else FilledForLeg(orders, ids, leg) == 0.0
  }

  /** A flat basket has nothing at all left on a leg exactly when the leg was reversed in
      full. */
  lemma ExactlyFlatIff(legs: seq<Leg>, orders: seq<Order>, ids: seq<nat>, reversals: seq<nat>, leg: nat)
    requires InTable(orders, ids) && InTable(orders, reversals) && Flat(legs, orders, ids, reversals) && leg < |legs|
    ensures NetForLeg(orders, ids, reversals, leg) == 0.0 <==> ReversedInFull(orders, ids, reversals, leg)
  {
    ReversedByOne(orders, reversals, leg);
  }

  /** Otherwise it keeps a rest: one order filled by less than the tolerance is not
      reversed, and the basket counts as compensated. */
  lemma ToleranceStaysOpen()
    ensures
      var legs := [Leg(Buy, 1.0)];
      var orders := [Orders.Order(0, Buy, 1.0, 0.000000005, Cancelled, false, false)];
      && Chain(legs, orders, [0]) && AllSane(orders)
      && CompensationComplete(orders, [], [0]) && Flat(legs, orders, [0], [])
      && NetForLeg(orders, [0], [], 0) == 0.000000005
  {
    var legs := [Leg(Buy, 1.0)];
    var orders := [Orders.Order(0, Buy, 1.0, 0.000000005, Cancelled, false, false)];
    assert [0][..0] == [];
    assert FilledForLeg(orders, [], 0) == 0.0;
    assert FilledForLeg(orders, [0], 0) == 0.000000005;
    assert Linked(legs, orders, [0], 0);
  }

  /** A reversal that does not read as filled, or leaves its leg open by more than the
      tolerance. */
  predicate SomeReversalShort(orders: seq<Order>, ids: seq<nat>, reversals: seq<nat>)
    requires InTable(orders, ids) && InTable(orders, reversals)
  {
    exists j :: 0 <= j < |reversals|
      && (orders[reversals[j]].status != Filled || NetForLeg(orders, ids, reversals, orders[reversals[j]].leg) > FILL_EPS)
  }

  /** A flat basket does not count as compensated exactly when some reversal does not read
      as filled or leaves more than the tolerance of a single order, or when the kill
      switch forbade reversals and some order filled. */
  lemma FlatIncompleteIff(intent: Intent, c: Conditions, orders: seq<Order>, ids: seq<nat>, reversals: seq<nat>)
    requires InTable(orders, ids) && InTable(orders, reversals)
    requires Chain(intent.legs, orders, ids) && AllSane(orders) && Flat(intent.legs, orders, ids, reversals)
    requires AllReversed(intent, c, orders, ids, reversals)
    ensures !CompensationComplete(orders, reversals, ids)
       <==> SomeReversalShort(orders, ids, reversals)
            || (&& intent.action == OPEN && intent.accountId.Some? && c.killSwitchAtReversal
                && exists j :: 0 <= j < |ids| && !orders[ids[j]].isCompensation && orders[ids[j]].filled > 0.00000001)
  {
    forall j | 0 <= j < |reversals|
      ensures var o := orders[reversals[j]]; NetForLeg(orders, ids, reversals, o.leg) == o.quantity - o.filled
    {
      ReversedByOne(orders, reversals, orders[reversals[j]].leg);
    }
    if reversals == [] && !CompensationComplete(orders, reversals, ids) {
      IncompleteMeansFilled(intent.legs, orders, ids, reversals);
    }
  }

  /** As here, where the reversal filled in full but reads as cancelled. */
  lemma FilledReversalMayReadCancelled()
    ensures
      var legs := [Leg(Buy, 1.0)];
      var orders := [Orders.Order(0, Buy, 1.0, 0.5, Cancelled, false, false), Orders.Order(0, Sell, 0.5, 0.5, Cancelled, false, true)];
      && Chain(legs, orders, [0]) && AllSane(orders) && Covered(legs, orders, [0], [1])
      && Flat(legs, orders, [0], [1]) && !CompensationComplete(orders, [1], [0])
  {
    var legs := [Leg(Buy, 1.0)];
    var orders := [Orders.Order(0, Buy, 1.0, 0.5, Cancelled, false, false), Orders.Order(0, Sell, 0.5, 0.5, Cancelled, false, true)];
    assert [0][..0] == [] && [1][..0] == [];
    assert FilledForLeg(orders, [], 0) == 0.0;
    assert FilledForLeg(orders, [0], 0) == 0.5;
    assert ReversedForLeg(orders, [], 0) == 0.0;
    assert ReversedForLeg(orders, [1], 0) == 0.5;
    assert Linked(legs, orders, [0], 0);
    assert orders[[1][0]].leg == 0 && HasReversal(orders, [1], 0);
  }

  // ---- Fills that come in lots ----

  predicate Whole(x: real) {
    x == x.Floor as real
  }

  /** A whole number of lots. */
  predicate InLots(x: real, lot: real)
    requires 0.0 < lot
  {
    Whole(x / lot)
  }

  lemma LotsAdd(x: real, y: real, lot: real)
    requires 0.0 < lot && InLots(x, lot) && InLots(y, lot)
    ensures InLots(x + y, lot) && InLots(x - y, lot)
  {
    hide Whole;
    Quotients(x, y, lot);
    WholeSum(x / lot, y / lot);
  }

  lemma Quotients(x: real, y: real, lot: real)
    requires 0.0 < lot
    ensures (x + y) / lot == x / lot + y / lot && (x - y) / lot == x / lot - y / lot
  {}

  lemma WholeSum(x: real, y: real)
    requires Whole(x) && Whole(y)
    ensures Whole(x + y) && Whole(x - y)
  {
    var a, b := x.Floor, y.Floor;
    hide Whole;
    WholeFloor(x);
    WholeFloor(y);
    WholeNumber(a + b);
    WholeNumber(a - b);
  }

  lemma WholeFloor(x: real)
    requires Whole(x)
    ensures x == x.Floor as real
  {}

  lemma WholeNumber(n: int)
    ensures Whole(n as real)
  {}

  predicate FilledInLots(orders: seq<Order>, ids: seq<nat>, lot: real)
    requires InTable(orders, ids) && 0.0 < lot
  {
    forall j :: 0 <= j < |ids| ==> InLots(orders[ids[j]].filled, lot)
  }

  lemma {:induction false} LotFills(orders: seq<Order>, ids: seq<nat>, leg: nat, lot: real)
    requires 0.0 < lot && InTable(orders, ids) && FilledInLots(orders, ids, lot)
    ensures InLots(FilledForLeg(orders, ids, leg), lot) && InLots(ReversedForLeg(orders, ids, leg), lot)
  {
    hide InLots;
    NoLots(lot);
    if ids != [] {
      var o, front := orders[ids[|ids| - 1]], ids[..|ids| - 1];
      LotFills(orders, front, leg, lot);
      LotsAdd(FilledForLeg(orders, front, leg), if OnLeg(o, leg) then o.filled else 0.0, lot);
      LotsAdd(ReversedForLeg(orders, front, leg), if o.leg == leg then o.filled else 0.0, lot);
    }
  }

  lemma NoLots(lot: real)
    requires 0.0 < lot
    ensures InLots(0.0, lot)
  {
    assert 0.0 / lot == 0.0;
  }

  lemma LessThanOneLot(x: real, lot: real)
    requires 0.0 < lot && InLots(x, lot) && 0.0 <= x < lot
    ensures x == 0.0
  {
    hide Whole;
    ProperFraction(x, lot);
    WholeFloor(x / lot);
    assert (x / lot).Floor == 0;
    assert x == (x / lot) * lot;
  }

  lemma ProperFraction(x: real, lot: real)
    requires 0.0 <= x < lot
    ensures 0.0 <= x / lot < 1.0
  {
    var q := x / lot;
    assert q * lot == x;
    assert (1.0 - q) * lot == lot - x;
  }

  /** Where fills come in lots larger than the tolerance can add up to, it disappears: a
      compensated basket is exactly flat on every leg. */
  lemma LotFillsReverseExactly(legs: seq<Leg>, orders: seq<Order>, ids: seq<nat>, reversals: seq<nat>, leg: nat, lot: real)
    requires InTable(orders, ids) && InTable(orders, reversals) && Flat(legs, orders, ids, reversals) && leg < |legs|
    requires 0.0 < lot && FilledInLots(orders, ids, lot) && FilledInLots(orders, reversals, lot)
    requires FILL_EPS * (|ids| as real) < lot
    ensures FilledForLeg(orders, ids, leg) == ReversedForLeg(orders, reversals, leg)
    ensures ReversedInFull(orders, ids, reversals, leg)
  {
    hide InLots, FilledInLots;
    LotFills(orders, ids, leg, lot);
    LotFills(orders, reversals, leg, lot);
    LotsAdd(FilledForLeg(orders, ids, leg), ReversedForLeg(orders, reversals, leg), lot);
    LessThanOneLot(NetForLeg(orders, ids, reversals, leg), lot);
    ExactlyFlatIff(legs, orders, ids, reversals, leg);
  }
}
