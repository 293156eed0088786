/** A live run in which every order is filled, next to the simulation of the same sheet on the same ticks. */
module LiveAndSimulated {
  import opened Wrappers
  import opened ExitModel
  import opened ExitProperties
  import opened ExitExecutor
  import opened ExitRun
  import opened Orders
  import Backtest
  import BacktestProperties

  datatype Hold = Hold(pos: Position, remaining: int)

  /** Shares and state of the simulator over one observation. */
  ghost function SimTick(rules: seq<ExitRule>, original: int, h: Hold, o: Observation): (r: Hold)
    requires h.pos.Valid()
    ensures r.pos.Valid()
  {
    if h.remaining <= 0 then h
    else
      var (pos, d) := Evaluate(rules, h.pos, o);
      if d.Some? && d.value.shouldClose
      then Hold(pos, h.remaining - Backtest.SellQuantity(original, h.remaining, d.value.portion))
      else Hold(pos, h.remaining)
  }

  /** It is the simulator's own tick. */
  lemma SimTickIsTickStep(env: Backtest.Env, st: Backtest.Sim, t: Backtest.DayTick, bar: Backtest.DailyBar, i: int)
    requires st.pos.Valid()
    ensures var after := Backtest.TickStep(env, st, t, bar, i);
            var o := Backtest.TickObservation(t, bar, st.dailyCloses, i);
            SimTick(env.sheet.rules, env.qty, Hold(st.pos, st.acct.remaining), o) ==
            Hold(after.pos, after.acct.remaining)
  {
    hide Evaluate;
  }

  ghost function SimRun(rules: seq<ExitRule>, original: int, h: Hold, obs: seq<Observation>): (r: Hold)
    requires h.pos.Valid()
    ensures r.pos.Valid()
    decreases |obs|
  {
    if obs == [] then h else SimTick(rules, original, SimRun(rules, original, h, obs[..|obs| - 1]), obs[|obs| - 1])
  }

  /** A broker that fills every order completely. */
  ghost function FullFill(rules: seq<ExitRule>, l: Live, o: Observation): Event
    requires l.pos.Valid()
  {
    var d := Evaluate(rules, l.pos, o).1;
    var ordered := if d.Some? then LiveSellQuantity(l.pos.quantity, d.value.portion) else 0;
    Tick(o, Control(false, false), OrderTaken(Some(OrderStatus(ordered, o.price)), None, ordered))
  }

  ghost function FullFillRun(rules: seq<ExitRule>, l: Live, obs: seq<Observation>, maxExitFailures: int): (r: Live)
    requires l.pos.Valid()
    ensures r.pos.Valid()
    decreases |obs|
  {
    if obs == [] then l
    else
      var before := FullFillRun(rules, l, obs[..|obs| - 1], maxExitFailures);
      LiveTick(rules, before, FullFill(rules, before, obs[|obs| - 1]), maxExitFailures).0
  }

  lemma TruncMonotone(a: real, b: real)
    requires a <= b
    ensures Trunc(a) <= Trunc(b)
  {
  }

  lemma LargerFraction(small: int, large: int, portion: real)
    requires small <= large && portion > 0.0
    ensures FractionOf(small, portion) <= FractionOf(large, portion)
  {
    Multiplied(small as real, large as real, portion);
  }

  lemma LargerShare(small: int, large: int, portion: real)
    requires small <= large && portion > 0.0
    ensures ShareOf(small, portion) <= ShareOf(large, portion)
  {
    hide FractionOf, Trunc;
    LargerFraction(small, large, portion);
    TruncMonotone(FractionOf(small, portion), FractionOf(large, portion));
  }

  lemma NoShare(quantity: int, portion: real)
    requires quantity >= 0 && portion <= 0.0
    ensures ShareOf(quantity, portion) <= 0
  {
    assert quantity as real * portion <= 0.0;
  }

  lemma WholeShare(quantity: int, portion: real)
    requires quantity >= 1 && portion >= 1.0
    ensures ShareOf(quantity, portion) >= quantity
  {
    WholeFraction(quantity, portion);
    hide FractionOf;
  }

  lemma WholeFraction(quantity: int, portion: real)
    requires quantity >= 1 && portion >= 1.0
    ensures FractionOf(quantity, portion) >= quantity as real
  {
    Multiplied(1.0, portion, quantity as real);
  }

  /** The live rule never orders more of a smaller rest than the simulator orders of the original. */
  lemma SellComparison(original: int, live: int, sim: int, portion: real)
    requires 1 <= sim <= live <= original
    ensures live - LiveSellQuantity(live, portion) >= sim - Backtest.SellQuantity(original, sim, portion) >= 0
  {
    hide ShareOf;
    if portion >= 1.0 {
      WholeShare(live, portion);
    } else if portion > 0.0 {
      LargerShare(live, original, portion);
    } else {
      NoShare(live, portion);
      NoShare(original, portion);
    }
  }

  /** Live and simulated holdings of the same sheet side by side. */
  ghost predicate SideBySide(l: Live, h: Hold, original: int) {
    && h.remaining >= 0 && h.remaining <= l.pos.quantity <= original
    && (h.remaining > 0 ==>
          l.tracked && l.pos.entryPrice >= 0.0
          && Alike(WithHolding(l.pos, 0, 0), WithHolding(h.pos, 0, 0)))
  }

  lemma AlikeDecisions(rules: seq<ExitRule>, s1: Position, s2: Position, o: Observation)
    requires WellFormedRules(rules) && s1.Valid() && s2.Valid() && s1.entryPrice >= 0.0
    requires Alike(WithHolding(s1, 0, 0), WithHolding(s2, 0, 0))
    ensures Evaluate(rules, s1, o).1 == Evaluate(rules, s2, o).1
    ensures Alike(WithHolding(Evaluate(rules, s1, o).0, 0, 0), WithHolding(Evaluate(rules, s2, o).0, 0, 0))
  {
    hide Evaluate, Alike;
    EvaluateFrame(rules, s1, o, 0, 0);
    EvaluateFrame(rules, s2, o, 0, 0);
    EvaluateAlike(rules, WithHolding(s1, 0, 0), WithHolding(s2, 0, 0), o);
  }

  lemma FullFillEffect(l: Live, d: ExitDecision, price: real, maxExitFailures: int)
    requires l.tracked && l.pos.quantity >= 1
    requires !d.shouldClose ==> d.newSlPrice == l.pos.breakevenSlPrice
    ensures var q := LiveSellQuantity(l.pos.quantity, d.portion);
            var r := OrderTaken(Some(OrderStatus(q, price)), None, q);
            var l' := Effect(l, d, Control(false, false), r, maxExitFailures).0;
            && l'.pos.quantity == l.pos.quantity - (if d.shouldClose then q else 0)
            && (l'.tracked <==> l'.pos.quantity > 0)
            && WithHolding(l'.pos, 0, 0) == WithHolding(l.pos, 0, 0)
  {
    LiveSellInRange(l.pos.quantity, d.portion);
  }

  lemma TickSideBySide(rules: seq<ExitRule>, l: Live, h: Hold, original: int, o: Observation, maxExitFailures: int)
    requires WellFormedRules(rules) && l.pos.Valid() && h.pos.Valid() && SideBySide(l, h, original)
    requires l.tracked ==> l.pos.quantity >= 1
    ensures var l' := LiveTick(rules, l, FullFill(rules, l, o), maxExitFailures).0;
            && SideBySide(l', SimTick(rules, original, h, o), original)
            && (l'.tracked ==> l'.pos.quantity >= 1)
    ensures h.remaining > 0 ==> Evaluate(rules, l.pos, o).1 == Evaluate(rules, h.pos, o).1
  {
    hide Evaluate, Effect, Alike, LiveSellQuantity, Backtest.SellQuantity;
    if l.tracked {
      RaiseKeepsStop(rules, l.pos, FullFill(rules, l, o));
      DecideKeepsHolding(rules, l.pos, FullFill(rules, l, o));
      var (pos, d) := Evaluate(rules, l.pos, o);
      if d.Some? {
        FullFillEffect(l.(pos := pos), d.value, o.price, maxExitFailures);
        LiveSellInRange(pos.quantity, d.value.portion);
        if h.remaining > 0 {
          SellComparison(original, l.pos.quantity, h.remaining, d.value.portion);
        }
      }
      if h.remaining > 0 {
        AlikeDecisions(rules, l.pos, h.pos, o);
      }
    }
  }

  /** Same sheet, same ticks, every order filled: as long as the simulator holds shares the live side
      holds the sheet too and decides the same, and it never holds fewer shares than the simulator. */
  lemma {:induction false} LiveNeverHoldsLess(rules: seq<ExitRule>, sheetId: string, ticker: string, entry: real,
                                              quantity: int, at: Time, obs: seq<Observation>, maxExitFailures: int)
    requires WellFormedRules(rules) && entry >= 0.0 && quantity >= 1
    ensures var l0 := Live(NewPosition(sheetId, ticker, entry, quantity, at, entry), true, None);
            var h0 := Hold(NewPosition(sheetId, ticker, entry, quantity, at, 0.0), quantity);
            var l, h := FullFillRun(rules, l0, obs, maxExitFailures), SimRun(rules, quantity, h0, obs);
            && SideBySide(l, h, quantity)
            && (l.tracked ==> l.pos.quantity >= 1)
            && (h.remaining > 0 ==> forall o :: Evaluate(rules, l.pos, o).1 == Evaluate(rules, h.pos, o).1)
    decreases |obs|
  {
    hide Evaluate, LiveTick, SimTick;
    var l0 := Live(NewPosition(sheetId, ticker, entry, quantity, at, entry), true, None);
    var h0 := Hold(NewPosition(sheetId, ticker, entry, quantity, at, 0.0), quantity);
    if obs != [] {
      var k := |obs| - 1;
      LiveNeverHoldsLess(rules, sheetId, ticker, entry, quantity, at, obs[..k], maxExitFailures);
      TickSideBySide(rules, FullFillRun(rules, l0, obs[..k], maxExitFailures),
                     SimRun(rules, quantity, h0, obs[..k]), quantity, obs[k], maxExitFailures);
    }
    var l, h := FullFillRun(rules, l0, obs, maxExitFailures), SimRun(rules, quantity, h0, obs);
    if h.remaining > 0 {
      forall o
        ensures Evaluate(rules, l.pos, o).1 == Evaluate(rules, h.pos, o).1
      {
        AlikeDecisions(rules, l.pos, h.pos, o);
      }
    }
  }

  // ---------------------------------------------------------------- when both hold the same

  /** A sale takes everything, one share is left, or the fraction of the original comes to no more shares than the
      fraction of what is held, a single share at least. */
  predicate SellsAlike(original: int, held: int, portion: real) {
    portion >= 1.0 || held == 1 || ShareOf(original, portion) <= MaxInt(1, ShareOf(held, portion))
  }

  /** One sale from equal holdings: exactly then both sell the same number of shares. */
  lemma SameSale(original: int, held: int, portion: real)
    requires 1 <= held <= original
    ensures LiveSellQuantity(held, portion) == Backtest.SellQuantity(original, held, portion) <==>
              SellsAlike(original, held, portion)
  {
    hide ShareOf;
    if portion >= 1.0 {
      WholeShare(held, portion);
    } else if portion > 0.0 {
      LargerShare(held, original, portion);
      ProperShare(held, portion);
    } else {
      NoShare(held, portion);
      NoShare(original, portion);
    }
  }

  lemma ProperShare(quantity: int, portion: real)
    requires quantity >= 1 && 0.0 < portion < 1.0
    ensures ShareOf(quantity, portion) < quantity
  {
    var q := quantity as real;
    assert q * portion < q by {
      Multiplied(1.0, portion, q);
    }
    assert q * portion >= 0.0;
  }

  /** Every scale-out level behind the first one sells everything that is left. So it is in particular when
      no scale-out rule has more than one level. */
  ghost predicate OnlyFirstPartial(rules: seq<ExitRule>) {
    forall i :: 0 <= i < |rules| ==> OnlyFirstPartialRule(rules[i])
  }

  ghost predicate OnlyFirstPartialRule(rule: ExitRule) {
    rule.ScaleOut? ==> forall k :: 1 <= k < |rule.levels| ==> rule.levels[k].portion >= 1.0
  }

  lemma {:induction false} OneLevelSuffices(rules: seq<ExitRule>)
    requires BacktestProperties.MaxLevels(rules) <= 1
    ensures OnlyFirstPartial(rules)
  {
    if rules != [] {
      OneLevelSuffices(rules[1..]);
      forall i | 0 <= i < |rules|
        ensures OnlyFirstPartialRule(rules[i])
      {
        if i > 0 {
          assert rules[i] == rules[1..][i - 1];
        }
      }
    }
  }

  lemma RulePartialIsFirst(rule: ExitRule, s: Position, o: Observation, ret: real, k: nat)
    requires s.Valid() && s.scaleOutExecuted == Below(k) && OnlyFirstPartialRule(rule)
    ensures var (s', d) := CheckRule(rule, s, o, ret);
            && (d.Some? && d.value.portion < 1.0 ==> k == 0 && d.value.metadata.LevelData?)
            && (d.None? ==> s'.scaleOutExecuted == Below(k))
  {
    if rule.ScaleOut? {
      NextLevelOfPrefix(|rule.levels|, k, 0);
    }
  }

  /** A partial sale is the first level's. */
  lemma {:induction false} PartialIsFirst(rules: seq<ExitRule>, s: Position, o: Observation, ret: real, k: nat)
    requires s.Valid() && s.scaleOutExecuted == Below(k) && OnlyFirstPartial(rules)
    ensures var d := EvalRules(rules, s, o, ret).1;
            d.Some? && d.value.portion < 1.0 ==> k == 0 && d.value.metadata.LevelData?
  {
    hide CheckRule, OnlyFirstPartialRule;
    if rules != [] {
      assert OnlyFirstPartialRule(rules[0]);
      RulePartialIsFirst(rules[0], s, o, ret, k);
      var (s1, d) := CheckRule(rules[0], s, o, ret);
      if d.None? {
        assert OnlyFirstPartial(rules[1..]);
        PartialIsFirst(rules[1..], s1, o, ret, k);
      }
    }
  }

  /** Both hold the same, the consumed levels are the first k, and without any the holding is whole. */
  ghost predicate Equal(l: Live, h: Hold, original: int, k: nat) {
    && l.pos.quantity == h.remaining
    && (h.remaining > 0 ==> h.pos.scaleOutExecuted == Below(k) && (k == 0 ==> h.remaining == original))
  }

  lemma TickEqual(rules: seq<ExitRule>, l: Live, h: Hold, original: int, o: Observation, maxExitFailures: int, k: nat)
    returns (k': nat)
    requires WellFormedRules(rules) && OnlyFirstPartial(rules)
    requires l.pos.Valid() && h.pos.Valid() && SideBySide(l, h, original) && (l.tracked ==> l.pos.quantity >= 1)
    requires Equal(l, h, original, k)
    ensures var l' := LiveTick(rules, l, FullFill(rules, l, o), maxExitFailures).0;
            Equal(l', SimTick(rules, original, h, o), original, k')
  {
    hide EvalRules, Effect, Alike, LiveSellQuantity, Backtest.SellQuantity, OnlyFirstPartial, ShareOf;
    k' := k;
    TickSideBySide(rules, l, h, original, o, maxExitFailures);
    if h.remaining > 0 {
      var u, ret := UpdateHigh(h.pos, o.price), CurrentReturn(h.pos, o.price);
      EvalRulesLevels(rules, u, o, ret, k);
      PartialIsFirst(rules, u, o, ret, k);
      var (pos, d) := Evaluate(rules, l.pos, o);
      DecideKeepsHolding(rules, l.pos, FullFill(rules, l, o));
      RaiseKeepsStop(rules, l.pos, FullFill(rules, l, o));
      if d.Some? {
        k' := if d.value.metadata.LevelData? then k + 1 else k;
        FullFillEffect(l.(pos := pos), d.value, o.price, maxExitFailures);
        SameSale(original, h.remaining, d.value.portion);
        SimSellsAll(original, h.remaining, d.value.portion);
      }
    }
  }

  lemma SimSellsAll(original: int, held: int, portion: real)
    ensures portion >= 1.0 ==> Backtest.SellQuantity(original, held, portion) == held
  {
  }

  /** Sheets whose partial sale is the first level's at most: on every tick sequence live and simulator hold
      exactly the same, all the time. */
  lemma {:induction false} SameHoldings(rules: seq<ExitRule>, sheetId: string, ticker: string, entry: real,
                                        quantity: int, at: Time, obs: seq<Observation>, maxExitFailures: int)
    returns (k: nat)
    requires WellFormedRules(rules) && OnlyFirstPartial(rules) && entry >= 0.0 && quantity >= 1
    ensures var l0 := Live(NewPosition(sheetId, ticker, entry, quantity, at, entry), true, None);
            var h0 := Hold(NewPosition(sheetId, ticker, entry, quantity, at, 0.0), quantity);
            var l, h := FullFillRun(rules, l0, obs, maxExitFailures), SimRun(rules, quantity, h0, obs);
            l.pos.quantity == h.remaining && Equal(l, h, quantity, k)
    decreases |obs|
  {
    hide Evaluate, LiveTick, SimTick, SideBySide;
    var l0 := Live(NewPosition(sheetId, ticker, entry, quantity, at, entry), true, None);
    var h0 := Hold(NewPosition(sheetId, ticker, entry, quantity, at, 0.0), quantity);
    k := 0;
    if obs != [] {
      var n := |obs| - 1;
      k := SameHoldings(rules, sheetId, ticker, entry, quantity, at, obs[..n], maxExitFailures);
      LiveNeverHoldsLess(rules, sheetId, ticker, entry, quantity, at, obs[..n], maxExitFailures);
      k := TickEqual(rules, FullFillRun(rules, l0, obs[..n], maxExitFailures),
                     SimRun(rules, quantity, h0, obs[..n]), quantity, obs[n], maxExitFailures, k);
    }
  }

  /** Holdings of both after the first k ticks. */
  ghost predicate EqualAt(rules: seq<ExitRule>, l0: Live, h0: Hold, original: int, obs: seq<Observation>,
                          maxExitFailures: int, k: nat)
    requires l0.pos.Valid() && h0.pos.Valid() && k <= |obs|
  {
    FullFillRun(rules, l0, obs[..k], maxExitFailures).pos.quantity == SimRun(rules, original, h0, obs[..k]).remaining
  }

  /** If the simulator sells at tick k, it sells alike. */
  ghost predicate AlikeAt(rules: seq<ExitRule>, h0: Hold, original: int, obs: seq<Observation>, k: nat)
    requires h0.pos.Valid() && k < |obs|
  {
    var h := SimRun(rules, original, h0, obs[..k]);
    var d := Evaluate(rules, h.pos, obs[k]).1;
    h.remaining > 0 && d.Some? && d.value.shouldClose ==> SellsAlike(original, h.remaining, d.value.portion)
  }

  lemma TickEqualIff(rules: seq<ExitRule>, l: Live, h: Hold, original: int, o: Observation, maxExitFailures: int)
    requires WellFormedRules(rules)
    requires l.pos.Valid() && h.pos.Valid() && SideBySide(l, h, original) && (l.tracked ==> l.pos.quantity >= 1)
    requires l.pos.quantity == h.remaining
    ensures var d := Evaluate(rules, h.pos, o).1;
            var l' := LiveTick(rules, l, FullFill(rules, l, o), maxExitFailures).0;
            l'.pos.quantity == SimTick(rules, original, h, o).remaining <==>
              (h.remaining > 0 && d.Some? && d.value.shouldClose ==>
                 SellsAlike(original, h.remaining, d.value.portion))
  {
    hide Evaluate, Effect, Alike, LiveSellQuantity, Backtest.SellQuantity, ShareOf;
    TickSideBySide(rules, l, h, original, o, maxExitFailures);
    if h.remaining > 0 {
      var (pos, d) := Evaluate(rules, l.pos, o);
      DecideKeepsHolding(rules, l.pos, FullFill(rules, l, o));
      RaiseKeepsStop(rules, l.pos, FullFill(rules, l, o));
      if d.Some? {
        FullFillEffect(l.(pos := pos), d.value, o.price, maxExitFailures);
        SameSale(original, h.remaining, d.value.portion);
      }
    }
  }

  /** For every sheet and every tick sequence: live and simulator hold the same all the time if and only if
      every sale of the simulator is one in which both sell alike. */
  lemma {:induction false} SameHoldingsIff(rules: seq<ExitRule>, sheetId: string, ticker: string, entry: real,
                                           quantity: int, at: Time, obs: seq<Observation>, maxExitFailures: int, n: nat)
    requires WellFormedRules(rules) && entry >= 0.0 && quantity >= 1 && n <= |obs|
    ensures var l0 := Live(NewPosition(sheetId, ticker, entry, quantity, at, entry), true, None);
            var h0 := Hold(NewPosition(sheetId, ticker, entry, quantity, at, 0.0), quantity);
            (forall k: nat :: k <= n ==> EqualAt(rules, l0, h0, quantity, obs, maxExitFailures, k)) <==>
            (forall k: nat :: k < n ==> AlikeAt(rules, h0, quantity, obs, k))
  {
    hide LiveTick, SimTick, Evaluate, SideBySide, SellsAlike;
    var l0 := Live(NewPosition(sheetId, ticker, entry, quantity, at, entry), true, None);
    var h0 := Hold(NewPosition(sheetId, ticker, entry, quantity, at, 0.0), quantity);
    if n == 0 {
      assert obs[..0] == [];
      assert EqualAt(rules, l0, h0, quantity, obs, maxExitFailures, 0);
    } else {
      SameHoldingsIff(rules, sheetId, ticker, entry, quantity, at, obs, maxExitFailures, n - 1);
      LiveNeverHoldsLess(rules, sheetId, ticker, entry, quantity, at, obs[..n - 1], maxExitFailures);
      assert obs[..n][..n - 1] == obs[..n - 1];
      var l := FullFillRun(rules, l0, obs[..n - 1], maxExitFailures);
      var h := SimRun(rules, quantity, h0, obs[..n - 1]);
      if EqualAt(rules, l0, h0, quantity, obs, maxExitFailures, n - 1) {
        TickEqualIff(rules, l, h, quantity, obs[n - 1], maxExitFailures);
        assert EqualAt(rules, l0, h0, quantity, obs, maxExitFailures, n) <==> AlikeAt(rules, h0, quantity, obs, n - 1);
      }
      hide EqualAt, AlikeAt;
    }
  }

  /** With two partial levels they come apart: of a hundred shares both sell fifty at the first level; at the
      second the simulator sells the other fifty, live only half of them. */
  lemma TwoLevelsDiffer()
    ensures var rules := [ScaleOut([Level(0.05, 0.5), Level(0.10, 0.5)]), FixedSl(0.05)];
            var obs := [Observation(106.0, None, 0, None, 0), Observation(112.0, None, 60, None, 0)];
            var l := FullFillRun(rules, Live(NewPosition("ps", "005930", 100.0, 100, 0, 100.0), true, None), obs, 3);
            var h := SimRun(rules, 100, Hold(NewPosition("ps", "005930", 100.0, 100, 0, 0.0), 100), obs);
            WellFormedRules(rules) && l.pos.quantity == 25 && h.remaining == 0
  {
    var rules := [ScaleOut([Level(0.05, 0.5), Level(0.10, 0.5)]), FixedSl(0.05)];
    var o1, o2 := Observation(106.0, None, 0, None, 0), Observation(112.0, None, 60, None, 0);
    var l0 := Live(NewPosition("ps", "005930", 100.0, 100, 0, 100.0), true, None);
    var h0 := Hold(NewPosition("ps", "005930", 100.0, 100, 0, 0.0), 100);
    Halves();
    TwoLevelTick(rules, l0, h0, o1, 0);
    var l1, h1 := LiveTick(rules, l0, FullFill(rules, l0, o1), 3).0, SimTick(rules, 100, h0, o1);
    TwoLevelTick(rules, l1, h1, o2, 1);
    hide Evaluate, LiveTick, SimTick, FullFill;
    assert [o1, o2][..1] == [o1] && [o1][..0] == [];
    assert FullFillRun(rules, l0, [o1][..0], 3) == l0 && SimRun(rules, 100, h0, [o1][..0]) == h0;
    assert FullFillRun(rules, l0, [o1], 3) == l1 && SimRun(rules, 100, h0, [o1]) == h1;
  }

  lemma Halves()
    ensures ShareOf(100, 0.5) == 50 && ShareOf(50, 0.5) == 25
  {
  }

  /** Level k of the two is hit: both sell half, by their own rule. */
  lemma TwoLevelTick(rules: seq<ExitRule>, l: Live, h: Hold, o: Observation, k: nat)
    requires rules == [ScaleOut([Level(0.05, 0.5), Level(0.10, 0.5)]), FixedSl(0.05)]
    requires l.pos.Valid() && h.pos.Valid() && l.tracked && l.pos.quantity >= 2 && h.remaining >= 1
    requires l.pos.entryPrice == h.pos.entryPrice == 100.0 && k < 2
    requires l.pos.scaleOutExecuted == h.pos.scaleOutExecuted == Below(k)
    requires o.price == if k == 0 then 106.0 else 112.0
    ensures var l' := LiveTick(rules, l, FullFill(rules, l, o), 3).0;
            var h' := SimTick(rules, 100, h, o);
            && l'.pos.quantity == l.pos.quantity - LiveSellQuantity(l.pos.quantity, 0.5) && l'.tracked
            && h'.remaining == h.remaining - Backtest.SellQuantity(100, h.remaining, 0.5)
            && l'.pos.scaleOutExecuted == h'.pos.scaleOutExecuted == Below(k + 1)
            && l'.pos.entryPrice == h'.pos.entryPrice == 100.0
  {
    hide LiveSellQuantity, Backtest.SellQuantity, ShareOf;
    LevelHit(rules, l.pos, o, k);
    LevelHit(rules, h.pos, o, k);
    var (pos, d) := Evaluate(rules, l.pos, o);
    hide Evaluate, Effect;
    LessThanAll(l.pos.quantity);
    FullFillEffect(l.(pos := pos), d.value, o.price, 3);
    EffectKeepsLevels(l.(pos := pos), d.value, Control(false, false),
                      OrderTaken(Some(OrderStatus(LiveSellQuantity(l.pos.quantity, 0.5), o.price)), None,
                                 LiveSellQuantity(l.pos.quantity, 0.5)), 3);
  }

  lemma LessThanAll(quantity: int)
    requires quantity >= 2
    ensures LiveSellQuantity(quantity, 0.5) < quantity
  {
    ProperShare(quantity, 0.5);
    hide ShareOf;
  }

  lemma LevelHit(rules: seq<ExitRule>, s: Position, o: Observation, k: nat)
    requires rules == [ScaleOut([Level(0.05, 0.5), Level(0.10, 0.5)]), FixedSl(0.05)]
    requires s.Valid() && s.entryPrice == 100.0 && k < 2 && s.scaleOutExecuted == Below(k)
    requires o.price == if k == 0 then 106.0 else 112.0
    ensures var (t, d) := Evaluate(rules, s, o);
            && d.Some? && d.value.shouldClose && d.value.portion == 0.5
            && t.scaleOutExecuted == Below(k + 1) && t.quantity == s.quantity && t.entryPrice == 100.0
  {
    NextLevelOfPrefix(2, k, 0);
    assert Below(k) + {k} == Below(k + 1);
    assert CurrentReturn(s, o.price) == if k == 0 then 0.06 else 0.12;
  }
}
