/** Whole live exit runs of one sheet against any broker. */
module ExitRun {
  import opened Wrappers
  import opened ExitModel
  import opened ExitProperties
  import opened ExitExecutor
  import opened Orders

  // ---------------------------------------------------------------- one live event

  /** A market tick that is evaluated, or a forced liquidation; with the control flags and the broker's
      answer should an order go out. */
  datatype Event =
    | Tick(o: Observation, c: Control, r: Reply)
    | Liquidate(c: Control, r: Reply)

  /** State after looking at the event, and what is decided. */
  ghost function Decide(rules: seq<ExitRule>, s: Position, e: Event): (r: Outcome)
    requires s.Valid()
    ensures r.0.Valid()
  {
    match e
    case Tick(o, _, _) => Evaluate(rules, s, o)
    case Liquidate(_, _) => (s, Some(CloseAll(ForcedLiquidation, NoMetadata)))
  }

  /** The decision, then either a plain save or its execution. */
  ghost function LiveTick(rules: seq<ExitRule>, l: Live, e: Event, maxExitFailures: int)
    : (r: (Live, Option<ExitDecision>, ExitOutcome))
    requires l.pos.Valid()
    ensures r.0.pos.Valid()
  {
    if !l.tracked then (l, None, NoDecision)
    else
      var (pos, d) := Decide(rules, l.pos, e);
      if d.None? then (WithPosition(l, pos), None, NoDecision)
      else
        RaiseKeepsStop(rules, l.pos, e);
        var (l', outcome) := Effect(l.(pos := pos), d.value, e.c, e.r, maxExitFailures);
        (l', d, outcome)
  }

  /** Where a run ends, what was decided and what came of it. */
  type Course = (Live, seq<Option<ExitDecision>>, seq<ExitOutcome>)

  ghost function LiveRun(rules: seq<ExitRule>, l: Live, events: seq<Event>, maxExitFailures: int): (r: Course)
    requires l.pos.Valid()
    ensures r.0.pos.Valid() && |r.1| == |r.2| == |events|
    decreases |events|
  {
    if events == [] then (l, [], [])
    else
      var k := |events| - 1;
      var (l1, ds, outcomes) := LiveRun(rules, l, events[..k], maxExitFailures);
      var (l2, d, outcome) := LiveTick(rules, l1, events[k], maxExitFailures);
      (l2, ds + [d], outcomes + [outcome])
  }

  /** Runs compose. */
  lemma {:induction false} LiveRunAppend(rules: seq<ExitRule>, l: Live, a: seq<Event>, b: seq<Event>,
                                         maxExitFailures: int)
    requires l.pos.Valid()
    ensures var (l1, ds1, xs1) := LiveRun(rules, l, a, maxExitFailures);
            var (l2, ds2, xs2) := LiveRun(rules, l1, b, maxExitFailures);
            LiveRun(rules, l, a + b, maxExitFailures) == (l2, ds1 + ds2, xs1 + xs2)
    decreases |b|
  {
    hide LiveTick;
    if b == [] {
      assert a + b == a;
      var (_, ds, xs) := LiveRun(rules, l, a, maxExitFailures);
      assert ds + [] == ds && xs + [] == xs;
    } else {
      var k := |b| - 1;
      LiveRunAppend(rules, l, a, b[..k], maxExitFailures);
      assert (a + b)[..|a + b| - 1] == a + b[..k];
      var (l1, ds1, xs1) := LiveRun(rules, l, a, maxExitFailures);
      var (l2, ds2, xs2) := LiveRun(rules, l1, b[..k], maxExitFailures);
      var (_, d, x) := LiveTick(rules, l2, b[k], maxExitFailures);
      assert (a + b)[|a + b| - 1] == b[k];
      assert (ds1 + ds2) + [d] == ds1 + (ds2 + [d]) && (xs1 + xs2) + [x] == xs1 + (xs2 + [x]);
    }
  }

  /** A decision that does not sell carries the stop the state already has. */
  lemma {:induction false} RaiseKeepsStopRules(rules: seq<ExitRule>, s: Position, o: Observation, ret: real)
    requires s.Valid()
    ensures var (s', d) := EvalRules(rules, s, o, ret);
            d.Some? && !d.value.shouldClose ==> d.value.newSlPrice == s'.breakevenSlPrice && s'.breakevenSlPrice.Some?
  {
    hide CheckRule;
    if rules != [] {
      RaiseKeepsStopRule(rules[0], s, o, ret);
      var (s1, d) := CheckRule(rules[0], s, o, ret);
      if d.None? {
        RaiseKeepsStopRules(rules[1..], s1, o, ret);
      }
    }
  }

  lemma RaiseKeepsStopRule(rule: ExitRule, s: Position, o: Observation, ret: real)
    requires s.Valid()
    ensures var (s', d) := CheckRule(rule, s, o, ret);
            d.Some? && !d.value.shouldClose ==> d.value.newSlPrice == s'.breakevenSlPrice && s'.breakevenSlPrice.Some?
  {
    hide CutoffReached, DateOf, NextLevel;
  }

  lemma RaiseKeepsStop(rules: seq<ExitRule>, s: Position, e: Event)
    requires s.Valid()
    ensures var (s', d) := Decide(rules, s, e);
            d.Some? && !d.value.shouldClose ==> d.value.newSlPrice == s'.breakevenSlPrice && s'.breakevenSlPrice.Some?
  {
    if e.Tick? {
      RaiseKeepsStopRules(rules, UpdateHigh(s, e.o.price), e.o, CurrentReturn(s, e.o.price));
    }
  }

  /** Deciding changes neither the holding nor the failure count. */
  lemma DecideKeepsHolding(rules: seq<ExitRule>, s: Position, e: Event)
    requires s.Valid()
    ensures var t := Decide(rules, s, e).0;
            t.quantity == s.quantity && t.exitFailCount == s.exitFailCount && t.entryPrice == s.entryPrice
  {
    if e.Tick? {
      EvalRulesLater(rules, UpdateHigh(s, e.o.price), e.o, CurrentReturn(s, e.o.price));
    }
  }

  // ---------------------------------------------------------------- conservation of reported fills

  /** Shares the event orders to sell, if an order goes out. */
  ghost function OrderAt(rules: seq<ExitRule>, l: Live, e: Event): Option<int>
    requires l.pos.Valid()
  {
    var d := Decide(rules, l.pos, e).1;
    if l.tracked && d.Some? && PlacesOrder(d.value, e.c) then Some(LiveSellQuantity(l.pos.quantity, d.value.portion))
    else None
  }

  /** A forced liquidation orders everything that is tracked, whatever the sheet says; and it leaves the position
      alone when everything is stopped or simulated. */
  lemma LiquidationOrders(rules: seq<ExitRule>, l: Live, c: Control, r: Reply, maxExitFailures: int)
    requires l.pos.Valid() && l.tracked && l.pos.quantity >= 1
    ensures OrderAt(rules, l, Liquidate(c, r)) == if c.stopped || c.dryrun then None else Some(l.pos.quantity)
    ensures c.stopped || c.dryrun ==> LiveTick(rules, l, Liquidate(c, r), maxExitFailures).0 == l
  {
    assert FractionOf(l.pos.quantity, 1.0) == l.pos.quantity as real;
  }

  /** No reported fill exceeds the order or is negative. */
  predicate ReplyWithin(r: Reply, ordered: int) {
    r.OrderTaken? ==>
      && (r.confirmed.Some? ==> 0 <= r.confirmed.value.filledQty <= ordered)
      && (r.afterCancel.Some? ==> 0 <= r.afterCancel.value.filledQty <= ordered)
  }

  /** The broker never reports more than was ordered, whatever else it does. */
  ghost predicate HonestFills(rules: seq<ExitRule>, l: Live, events: seq<Event>, maxExitFailures: int)
    requires l.pos.Valid()
  {
    forall k :: 0 <= k < |events| ==> HonestAt(rules, l, events, maxExitFailures, k)
  }

  ghost predicate HonestAt(rules: seq<ExitRule>, l: Live, events: seq<Event>, maxExitFailures: int, k: int)
    requires l.pos.Valid() && 0 <= k < |events|
  {
    var ordered := OrderAt(rules, LiveRun(rules, l, events[..k], maxExitFailures).0, events[k]);
    ordered.Some? ==> ReplyWithin(events[k].r, ordered.value)
  }

  /** Sum of the fills in a run's outcomes. */
  function FillSum(outcomes: seq<ExitOutcome>): int {
    if outcomes == [] then 0
    else
      var x := outcomes[|outcomes| - 1];
      FillSum(outcomes[..|outcomes| - 1]) + if x.Sold? then x.closedQty else 0
  }

  /** Failed sells since the last successful one; everything else leaves the count. */
  function FailStreak(start: int, outcomes: seq<ExitOutcome>): int {
    if outcomes == [] then start
    else
      var before := FailStreak(start, outcomes[..|outcomes| - 1]);
      match outcomes[|outcomes| - 1]
      case Sold(_, _, _) => 0
      case SellRejected => before + 1
      case NotFilled => before + 1
      case _ => before
  }

  lemma LiveSellInRange(remaining: int, portion: real)
    requires remaining >= 1
    ensures 1 <= LiveSellQuantity(remaining, portion) <= remaining
  {
  }

  /** One execution: the quantity drops by exactly the reported fill, the failure count follows the
      outcome, and the sheet stays tracked exactly while shares are left and the limit is not reached. */
  lemma EffectKeeps(l: Live, d: ExitDecision, c: Control, r: Reply, maxExitFailures: int)
    requires l.tracked && l.pos.quantity >= 1 && l.pos.exitFailCount < maxExitFailures && 1 <= maxExitFailures
    requires PlacesOrder(d, c) ==> ReplyWithin(r, LiveSellQuantity(l.pos.quantity, d.portion))
    ensures var (l', x) := Effect(l, d, c, r, maxExitFailures);
            && l'.pos.quantity == l.pos.quantity - (if x.Sold? then x.closedQty else 0)
            && (x.Sold? ==> 1 <= x.closedQty <= l.pos.quantity)
            && l'.pos.quantity >= 0
            && l'.pos.exitFailCount == FailStreak(l.pos.exitFailCount, [x])
            && (l'.tracked <==> l'.pos.quantity >= 1 && l'.pos.exitFailCount < maxExitFailures)
  {
    LiveSellInRange(l.pos.quantity, d.portion);
    var x := Effect(l, d, c, r, maxExitFailures).1;
    assert [x][..0] == [];
    assert FailStreak(l.pos.exitFailCount, [x][..0]) == l.pos.exitFailCount;
  }

  lemma FailStreakAppend(start: int, outcomes: seq<ExitOutcome>, x: ExitOutcome)
    ensures FailStreak(start, outcomes + [x]) == FailStreak(FailStreak(start, outcomes), [x])
    ensures FillSum(outcomes + [x]) == FillSum(outcomes) + if x.Sold? then x.closedQty else 0
  {
    assert (outcomes + [x])[..|outcomes|] == outcomes;
    assert [x][..0] == [];
    assert FailStreak(FailStreak(start, outcomes), [x][..0]) == FailStreak(start, outcomes);
  }

  lemma {:induction false} HonestPrefix(rules: seq<ExitRule>, l: Live, events: seq<Event>, maxExitFailures: int, n: nat)
    requires l.pos.Valid() && n <= |events| && HonestFills(rules, l, events, maxExitFailures)
    ensures HonestFills(rules, l, events[..n], maxExitFailures)
  {
    hide LiveRun, Evaluate;
    forall k | 0 <= k < n
      ensures HonestAt(rules, l, events[..n], maxExitFailures, k)
    {
      assert HonestAt(rules, l, events, maxExitFailures, k);
      assert events[..n][..k] == events[..k];
    }
  }

  /** Over any run against any broker that reports no more than was ordered, forced liquidations
      included: the tracked quantity is the entry quantity minus the reported fills and never negative;
      the failure count is the current streak of failed sells; and the sheet is tracked exactly while
      shares are left and the streak is below the limit. So it leaves only sold out or after the limit of
      consecutive failures. */
  lemma {:induction false} LiveRunConserves(rules: seq<ExitRule>, l: Live, events: seq<Event>, maxExitFailures: int)
    requires l.pos.Valid() && l.tracked && l.pos.quantity >= 1
    requires 1 <= maxExitFailures && l.pos.exitFailCount < maxExitFailures
    requires HonestFills(rules, l, events, maxExitFailures)
    ensures var (l', _, outcomes) := LiveRun(rules, l, events, maxExitFailures);
            && l'.pos.quantity == l.pos.quantity - FillSum(outcomes)
            && l'.pos.quantity >= 0
            && l'.pos.exitFailCount == FailStreak(l.pos.exitFailCount, outcomes)
            && (l'.tracked <==> l'.pos.quantity >= 1 && l'.pos.exitFailCount < maxExitFailures)
    decreases |events|
  {
    hide Effect, Decide, OrderAt;
    if events != [] {
      var k := |events| - 1;
      HonestPrefix(rules, l, events, maxExitFailures, k);
      LiveRunConserves(rules, l, events[..k], maxExitFailures);
      var (l1, _, outcomes) := LiveRun(rules, l, events[..k], maxExitFailures);
      FailStreakAppend(l.pos.exitFailCount, outcomes, LiveTick(rules, l1, events[k], maxExitFailures).2);
      TickConserves(rules, l1, events[k], maxExitFailures) by {
        assert HonestAt(rules, l, events, maxExitFailures, k);
      }
    }
  }

  lemma TickConserves(rules: seq<ExitRule>, l: Live, e: Event, maxExitFailures: int)
    requires l.pos.Valid() && l.pos.quantity >= 0 && 1 <= maxExitFailures
    requires l.tracked <==> l.pos.quantity >= 1 && l.pos.exitFailCount < maxExitFailures
    requires OrderAt(rules, l, e).Some? ==> ReplyWithin(e.r, OrderAt(rules, l, e).value)
    ensures var (l', _, x) := LiveTick(rules, l, e, maxExitFailures);
            && l'.pos.quantity == l.pos.quantity - (if x.Sold? then x.closedQty else 0)
            && l'.pos.quantity >= 0
            && l'.pos.exitFailCount == FailStreak(l.pos.exitFailCount, [x])
            && (l'.tracked <==> l'.pos.quantity >= 1 && l'.pos.exitFailCount < maxExitFailures)
  {
    hide Effect, Decide, ReplyWithin, LiveSellQuantity, PlacesOrder;
    DecideKeepsHolding(rules, l.pos, e);
    var (pos, d) := Decide(rules, l.pos, e);
    NeutralStreak(l.pos.exitFailCount);
    if l.tracked && d.Some? {
      EffectKeeps(l.(pos := pos), d.value, e.c, e.r, maxExitFailures);
    }
  }

  lemma NeutralStreak(start: int)
    ensures FailStreak(start, [NoDecision]) == start
  {
    assert [NoDecision][..0] == [];
  }

  // ---------------------------------------------------------------- tracked against real holdings

  /** Shares the account really holds after a run that starts with `real` of them. */
  ghost function RealHolding(rules: seq<ExitRule>, l: Live, events: seq<Event>, maxExitFailures: int, held: int): int
    requires l.pos.Valid()
    decreases |events|
  {
    if events == [] then held
    else
      var k := |events| - 1;
      var before := LiveRun(rules, l, events[..k], maxExitFailures).0;
      RealHolding(rules, l, events[..k], maxExitFailures, held)
        - if OrderAt(rules, before, events[k]).Some? then events[k].r.filled else 0
  }

  /** Every order of the run is answered truthfully. */
  ghost predicate TruthfulRun(rules: seq<ExitRule>, l: Live, events: seq<Event>, maxExitFailures: int)
    requires l.pos.Valid()
  {
    forall k :: 0 <= k < |events| ==> TruthfulAt(rules, l, events, maxExitFailures, k)
  }

  ghost predicate TruthfulAt(rules: seq<ExitRule>, l: Live, events: seq<Event>, maxExitFailures: int, k: int)
    requires l.pos.Valid() && 0 <= k < |events|
  {
    var ordered := OrderAt(rules, LiveRun(rules, l, events[..k], maxExitFailures).0, events[k]);
    ordered.Some? ==> Truthful(events[k].r, ordered.value)
  }

  /** The last word on every order of the run was heard. */
  ghost predicate AllHeard(rules: seq<ExitRule>, l: Live, events: seq<Event>, maxExitFailures: int)
    requires l.pos.Valid()
  {
    forall k :: 0 <= k < |events| ==> HeardAt(rules, l, events, maxExitFailures, k)
  }

  ghost predicate HeardAt(rules: seq<ExitRule>, l: Live, events: seq<Event>, maxExitFailures: int, k: int)
    requires l.pos.Valid() && 0 <= k < |events|
  {
    OrderAt(rules, LiveRun(rules, l, events[..k], maxExitFailures).0, events[k]).Some? ==> LastWordHeard(events[k].r)
  }

  /** One execution subtracts what is believed of its order. */
  lemma EffectSubtracts(l: Live, d: ExitDecision, c: Control, r: Reply, maxExitFailures: int)
    ensures var ordered := LiveSellQuantity(l.pos.quantity, d.portion);
            Effect(l, d, c, r, maxExitFailures).0.pos.quantity ==
            l.pos.quantity - (if PlacesOrder(d, c) then BelievedQty(r, ordered) else 0)
  {
    hide LiveSellQuantity;
  }

  lemma TickSubtracts(rules: seq<ExitRule>, l: Live, e: Event, maxExitFailures: int)
    requires l.pos.Valid()
    ensures var ordered := OrderAt(rules, l, e);
            LiveTick(rules, l, e, maxExitFailures).0.pos.quantity ==
            l.pos.quantity - (if ordered.Some? then BelievedQty(e.r, ordered.value) else 0)
  {
    hide Effect, Decide, LiveSellQuantity, PlacesOrder, BelievedQty;
    DecideKeepsHolding(rules, l.pos, e);
    var (pos, d) := Decide(rules, l.pos, e);
    if l.tracked && d.Some? {
      EffectSubtracts(l.(pos := pos), d.value, e.c, e.r, maxExitFailures);
    }
  }

  lemma RunPrefixes(rules: seq<ExitRule>, l: Live, events: seq<Event>, maxExitFailures: int, n: nat)
    requires l.pos.Valid() && n <= |events|
    ensures TruthfulRun(rules, l, events, maxExitFailures) ==> TruthfulRun(rules, l, events[..n], maxExitFailures)
    ensures AllHeard(rules, l, events, maxExitFailures) ==> AllHeard(rules, l, events[..n], maxExitFailures)
    ensures n + 1 == |events| && AllHeard(rules, l, events[..n], maxExitFailures) ==>
              (AllHeard(rules, l, events, maxExitFailures) <==> HeardAt(rules, l, events, maxExitFailures, n))
  {
    hide LiveRun, OrderAt, Truthful, LastWordHeard;
    forall k | 0 <= k < n
      ensures TruthfulAt(rules, l, events[..n], maxExitFailures, k) == TruthfulAt(rules, l, events, maxExitFailures, k)
      ensures HeardAt(rules, l, events[..n], maxExitFailures, k) == HeardAt(rules, l, events, maxExitFailures, k)
    {
      assert events[..n][..k] == events[..k];
    }
    hide TruthfulAt, HeardAt;
  }

  /** Against any truthful broker the tracked quantity never falls behind the real holding, and the two
      stay equal if and only if the last word on every order was heard. Otherwise shares are sold that the
      sheet still counts: an order that raised or was refused although shares were sold, a first status
      without shares (the order is not even cancelled), a status after the cancel that was not read or not
      the last one. */
  lemma {:induction false} TrackedAgainstReal(rules: seq<ExitRule>, l: Live, events: seq<Event>, maxExitFailures: int)
    requires l.pos.Valid() && TruthfulRun(rules, l, events, maxExitFailures)
    ensures var held := RealHolding(rules, l, events, maxExitFailures, l.pos.quantity);
            var tracked := LiveRun(rules, l, events, maxExitFailures).0.pos.quantity;
            held <= tracked && (held == tracked <==> AllHeard(rules, l, events, maxExitFailures))
    decreases |events|
  {
    hide LiveTick, OrderAt, Truthful, LastWordHeard, BelievedQty, TruthfulRun, AllHeard;
    if events == [] {
      NothingToHear(rules, l, maxExitFailures);
    } else {
      var k := |events| - 1;
      RunPrefixes(rules, l, events, maxExitFailures, k);
      TrackedAgainstReal(rules, l, events[..k], maxExitFailures);
      var before := LiveRun(rules, l, events[..k], maxExitFailures).0;
      TickSubtracts(rules, before, events[k], maxExitFailures);
      var ordered := OrderAt(rules, before, events[k]);
      if ordered.Some? {
        TruthfulLast(rules, l, events, maxExitFailures);
        BelievesNoMore(events[k].r, ordered.value);
      }
    }
  }

  lemma NothingToHear(rules: seq<ExitRule>, l: Live, maxExitFailures: int)
    requires l.pos.Valid()
    ensures AllHeard(rules, l, [], maxExitFailures)
  {
  }

  lemma TruthfulLast(rules: seq<ExitRule>, l: Live, events: seq<Event>, maxExitFailures: int)
    requires l.pos.Valid() && TruthfulRun(rules, l, events, maxExitFailures) && events != []
    ensures TruthfulAt(rules, l, events, maxExitFailures, |events| - 1)
  {
  }

  /** How they come apart: a sell order whose first status shows no shares, although all of them are sold
      later. The sheet still counts ten shares, and the next tick orders ten more to be sold, none of which
      is held. */
  lemma SoldSharesOrderedAgain()
    ensures var rules := [FixedSl(0.05)];
            var l := Live(NewPosition("ps", "005930", 100.0, 10, 0, 100.0), true, None);
            var e := Tick(Observation(90.0, None, 0, None, 0), Control(false, false), OrderTaken(None, None, 10));
            && OrderAt(rules, l, e) == Some(10) && Truthful(e.r, 10)
            && LiveTick(rules, l, e, 3).2 == NotFilled
            && LiveRun(rules, l, [e], 3).0.pos.quantity == 10 && RealHolding(rules, l, [e], 3, 10) == 0
            && OrderAt(rules, LiveRun(rules, l, [e], 3).0, e) == Some(10)
  {
    var rules := [FixedSl(0.05)];
    var s := NewPosition("ps", "005930", 100.0, 10, 0, 100.0);
    var o := Observation(90.0, None, 0, None, 0);
    var e := Tick(o, Control(false, false), OrderTaken(None, None, 10));
    var l := Live(s, true, None);
    StopLossFires(s, o);
    var l1 := LiveTick(rules, l, e, 3).0;
    assert l1.pos == s.(exitFailCount := 1) && l1.tracked;
    assert [e][..0] == [];
    assert LiveRun(rules, l, [e][..0], 3).0 == l;
    assert RealHolding(rules, l, [e][..0], 3, 10) == 10;
    StopLossFires(s.(exitFailCount := 1), o);
  }

  lemma StopLossFires(s: Position, o: Observation)
    requires s.Valid() && s.entryPrice == 100.0 && s.highWatermark == 100.0 && s.breakevenSlPrice == None
    requires o.price == 90.0
    requires s.quantity == 10
    ensures Evaluate([FixedSl(0.05)], s, o).0 == s
    ensures Evaluate([FixedSl(0.05)], s, o).1.Some? && Evaluate([FixedSl(0.05)], s, o).1.value.shouldClose
    ensures LiveSellQuantity(10, Evaluate([FixedSl(0.05)], s, o).1.value.portion) == 10
  {
    assert Lowered(100.0, 0.05) == 95.0;
    assert 10 as real * 1.0 == 10.0;
  }

  // ---------------------------------------------------------------- scale-out levels over live runs

  /** One event decides no level, or exactly the next one, which is then spent, however its sale goes. */
  lemma LiveTickLevels(rules: seq<ExitRule>, l: Live, e: Event, maxExitFailures: int, k: nat)
    requires l.pos.Valid() && l.pos.scaleOutExecuted == Below(k)
    ensures var (l', d, _) := LiveTick(rules, l, e, maxExitFailures);
            if d.Some? && d.value.metadata.LevelData?
            then d.value.metadata.levelIndex == k && l'.pos.scaleOutExecuted == Below(k + 1)
            else l'.pos.scaleOutExecuted == Below(k)
  {
    hide Effect, EvalRules;
    if e.Tick? {
      EvalRulesLevels(rules, UpdateHigh(l.pos, e.o.price), e.o, CurrentReturn(l.pos, e.o.price), k);
    }
    var (pos, d) := Decide(rules, l.pos, e);
    if l.tracked && d.Some? {
      EffectKeepsLevels(l.(pos := pos), d.value, e.c, e.r, maxExitFailures);
    }
  }

  lemma EffectKeepsLevels(l: Live, d: ExitDecision, c: Control, r: Reply, maxExitFailures: int)
    ensures Effect(l, d, c, r, maxExitFailures).0.pos.scaleOutExecuted == l.pos.scaleOutExecuted
  {
  }

  /** Over any live run, whatever the flags and the broker: the levels that are decided are the next ones
      in order, and exactly they are spent. So no level is decided twice and none is skipped; in particular a
      level whose sale was refused, not filled, blocked, simulated or raised is not tried again. */
  lemma {:induction false} LiveRunLevels(rules: seq<ExitRule>, l: Live, events: seq<Event>, maxExitFailures: int,
                                         j: nat)
    requires l.pos.Valid() && l.pos.scaleOutExecuted == Below(j)
    ensures var (l', ds, _) := LiveRun(rules, l, events, maxExitFailures);
            && ScaleIndices(ds) == seq(|ScaleIndices(ds)|, i => j + i)
            && l'.pos.scaleOutExecuted == Below(j + |ScaleIndices(ds)|)
    decreases |events|
  {
    hide LiveTick;
    if events != [] {
      var k := |events| - 1;
      LiveRunLevels(rules, l, events[..k], maxExitFailures, j);
      var (l1, ds, _) := LiveRun(rules, l, events[..k], maxExitFailures);
      LiveTickLevels(rules, l1, events[k], maxExitFailures, j + |ScaleIndices(ds)|);
      assert LiveRun(rules, l, events, maxExitFailures).1[..k] == ds;
    }
  }

  /** A spent level stays spent and silent in the rest of the run. */
  lemma {:induction false} LevelNotRetried(rules: seq<ExitRule>, l: Live, events: seq<Event>, maxExitFailures: int,
                                           k: nat)
    requires l.pos.Valid() && k in l.pos.scaleOutExecuted
    ensures k in LiveRun(rules, l, events, maxExitFailures).0.pos.scaleOutExecuted
    ensures events != [] ==>
              var before := LiveRun(rules, l, events[..|events| - 1], maxExitFailures).0;
              var d := LiveTick(rules, before, events[|events| - 1], maxExitFailures).1;
              d.Some? && d.value.metadata.LevelData? ==> d.value.metadata.levelIndex != k
    decreases |events|
  {
    hide Effect;
    if events != [] {
      var n := |events| - 1;
      LevelNotRetried(rules, l, events[..n], maxExitFailures, k);
      var before := LiveRun(rules, l, events[..n], maxExitFailures).0;
      var e := events[n];
      if before.tracked {
        if e.Tick? {
          EvalRulesLater(rules, UpdateHigh(before.pos, e.o.price), e.o, CurrentReturn(before.pos, e.o.price));
          SpentLevelSilent(rules, UpdateHigh(before.pos, e.o.price), e.o, CurrentReturn(before.pos, e.o.price), k);
        }
        var (pos, d) := Decide(rules, before.pos, e);
        if d.Some? {
          EffectKeepsLevels(before.(pos := pos), d.value, e.c, e.r, maxExitFailures);
        }
      }
    }
  }

  lemma {:induction false} SpentLevelSilent(rules: seq<ExitRule>, s: Position, o: Observation, ret: real, k: nat)
    requires s.Valid() && k in s.scaleOutExecuted
    ensures var d := EvalRules(rules, s, o, ret).1;
            d.Some? && d.value.metadata.LevelData? ==> d.value.metadata.levelIndex != k
  {
    if rules != [] {
      CheckRuleLater(rules[0], s, o, ret);
      var (s1, d) := CheckRule(rules[0], s, o, ret);
      if d.None? {
        SpentLevelSilent(rules[1..], s1, o, ret, k);
      }
    }
  }
}
