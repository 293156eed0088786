/** What the exit rules mean, and what holds along every run of evaluations. */
module ExitProperties {
  import opened Wrappers
  import opened Indicators
  import opened ExitModel

  // ---------------------------------------------------------------- meaning of one rule

  /** Gain of `price` over the entry price is at least `pct`. */
  predicate GainAtLeast(s: Position, price: real, pct: real)
  {
    price >= Raised(s.entryPrice, pct)
  }

  /** What the rules ask of the market: whether the current gain, and whether the gain at the peak, is at least
      a fraction, and whether the current loss is. */
  datatype Readings = Readings(gain: real -> bool, peak: real -> bool, loss: real -> bool)

  /** Answered in prices alone. */
  ghost function InPrices(s: Position, o: Observation): Readings {
    Readings(pct => GainAtLeast(s, o.price, pct), pct => GainAtLeast(s, s.highWatermark, pct),
             pct => o.price <= Lowered(s.entryPrice, pct))
  }

  /** Answered in the returns that the evaluation computes. */
  ghost function InReturns(s: Position, ret: real): Readings {
    Readings(pct => ret >= pct, pct => s.peakReturnPct >= pct, pct => ret <= -pct)
  }

  /** The time stop is due. */
  ghost predicate Due(rule: ExitRule, o: Observation) {
    && rule.TimeStop? && CutoffReached(o.now)
    && (rule.mode == HoldDays ==> rule.value.Some? && rule.value.value <= o.businessDays)
  }

  /** There are closes to look for a death cross in, and none were looked at today. */
  predicate CrossDay(s: Position, o: Observation) {
    && o.dailyCloses.Some? && o.dailyCloses.value != []
    && (s.deathCrossCheckedAt.Some? ==> DateOf(s.deathCrossCheckedAt.value) != DateOf(o.now))
  }

  /** When a rule decides, said of position and observation alone. */
  ghost predicate Condition(rule: ExitRule, s: Position, o: Observation, r: Readings) {
    match rule
    case FixedSl(pct) =>
      o.price <= Lowered(s.entryPrice, pct) || (s.breakevenSlPrice.Some? && o.price <= s.breakevenSlPrice.value)
    case FixedTp(pct) => r.gain(pct)
    case TrailingTp(activate, drop) =>
      (s.trailingActive || r.gain(activate)) && o.price < Lowered(s.highWatermark, drop)
    case Breakeven(activate, _) => s.breakevenActive || r.gain(activate)
    case ScaleOut(levels) => LevelDue(levels, s, r)
    case TimeStop(_, _) => Due(rule, o)
    case OverextensionExit(threshold) => !s.overextensionTriggered && o.rsi1m.Some? && o.rsi1m.value >= threshold
    case ProfitFloor(activate, floor) => (s.profitFloorActive || r.peak(activate)) && !r.gain(floor)
    case DeathCrossExit(short, long, minLoss) =>
      CrossDay(s, o) && r.loss(minLoss) && DeathCross(o.dailyCloses.value, short, long)
    case RecoveryExit(pct) => r.gain(pct)
  }

  /** The lowest level that is not executed is reached. */
  ghost predicate LevelDue(levels: seq<Level>, s: Position, r: Readings) {
    exists k: nat :: k < |levels| && k !in s.scaleOutExecuted
                     && (forall j: nat :: j < k ==> j in s.scaleOutExecuted) && r.gain(levels[k].trigger)
  }

  /** The recorded peak return is the one of the watermark. */
  ghost predicate PeakConsistent(s: Position)
  {
    s.entryPrice > 0.0 && s.peakReturnPct == ReturnOn(s.entryPrice, s.highWatermark)
  }

  lemma Multiplied(a: real, b: real, c: real)
    requires c > 0.0
    ensures a <= b <==> a * c <= b * c
  {
    var d := b - a;
    assert b * c - a * c == d * c;
    assert d >= 0.0 ==> d * c >= 0.0;
    assert d < 0.0 ==> d * c < 0.0;
  }

  /** A return threshold is a price threshold. */
  lemma ReturnIsPrice(entry: real, price: real, pct: real)
    requires entry > 0.0
    ensures ReturnOn(entry, price) >= pct <==> price >= Raised(entry, pct)
    ensures ReturnOn(entry, price) <= -pct <==> price <= Lowered(entry, pct)
  {
    var r := price / entry;
    assert r * entry == price;
    Multiplied(1.0 + pct, r, entry);
    Multiplied(r, 1.0 - pct, entry);
    Commuted(1.0 + pct, entry);
    Commuted(1.0 - pct, entry);
  }

  lemma Commuted(a: real, b: real)
    ensures a * b == b * a
  {
  }

  /** A rule's condition depends on its readings only. */
  lemma ConditionAlike(rule: ExitRule, s: Position, o: Observation, r: Readings, r': Readings)
    requires forall pct :: r.gain(pct) == r'.gain(pct)
    requires forall pct :: r.peak(pct) == r'.peak(pct)
    requires forall pct :: r.loss(pct) == r'.loss(pct)
    ensures Condition(rule, s, o, r) == Condition(rule, s, o, r')
  {
    hide Lowered, Due, CrossDay, DeathCross;
  }

  lemma LevelFires(levels: seq<Level>, s: Position, ret: real)
    ensures CheckScaleOut(levels, s, ret).1.Some? <==> LevelDue(levels, s, InReturns(s, ret))
  {
    var k := NextLevel(|levels|, s.scaleOutExecuted, 0);
  }

  /** The condition in returns. */
  ghost predicate Fires(rule: ExitRule, s: Position, o: Observation, ret: real) {
    Condition(rule, s, o, InReturns(s, ret))
  }

  /** A rule decides exactly when its condition holds of the returns. */
  lemma FiresMeaning(rule: ExitRule, s: Position, o: Observation, ret: real)
    requires s.Valid()
    ensures CheckRule(rule, s, o, ret).1.Some? <==> Fires(rule, s, o, ret)
  {
    hide DeathCross, Lowered, Raised, CutoffReached, DateOf, LevelDue;
    if rule.ScaleOut? {
      LevelFires(rule.levels, s, ret);
    }
  }

  lemma ReadingsAgree(s: Position, o: Observation)
    requires PeakConsistent(s)
    ensures var r, r' := InReturns(s, CurrentReturn(s, o.price)), InPrices(s, o);
            forall pct :: r.gain(pct) == r'.gain(pct) && r.peak(pct) == r'.peak(pct) && r.loss(pct) == r'.loss(pct)
  {
    var r, r' := InReturns(s, CurrentReturn(s, o.price)), InPrices(s, o);
    forall pct
      ensures r.gain(pct) == r'.gain(pct) && r.peak(pct) == r'.peak(pct) && r.loss(pct) == r'.loss(pct)
    {
      ReturnIsPrice(s.entryPrice, o.price, pct);
      ReturnIsPrice(s.entryPrice, s.highWatermark, pct);
      hide Raised, Lowered, ReturnOn;
    }
  }

  /** And of the prices. */
  lemma RuleMeaning(rule: ExitRule, s: Position, o: Observation)
    requires s.Valid() && PeakConsistent(s)
    ensures CheckRule(rule, s, o, CurrentReturn(s, o.price)).1.Some? <==> Condition(rule, s, o, InPrices(s, o))
  {
    hide CheckRule, Condition;
    FiresMeaning(rule, s, o, CurrentReturn(s, o.price));
    ReadingsAgree(s, o);
    ConditionAlike(rule, s, o, InReturns(s, CurrentReturn(s, o.price)), InPrices(s, o));
  }

  /** The return is the gain in parts of the entry price, and nothing for an entry price that is not positive. */
  lemma ReturnMeaning(s: Position, price: real)
    ensures s.entryPrice > 0.0 ==> CurrentReturn(s, price) * s.entryPrice == price - s.entryPrice
    ensures s.entryPrice <= 0.0 ==> CurrentReturn(s, price) == 0.0
  {
    if s.entryPrice > 0.0 {
      var r := price / s.entryPrice;
      assert r * s.entryPrice == price;
      assert (r - 1.0) * s.entryPrice == r * s.entryPrice - s.entryPrice;
    }
  }

  /** Once a positive price has been seen (or from the live start state) the peak is consistent. */
  lemma UpdateHighConsistent(s: Position, price: real)
    requires s.entryPrice > 0.0
    requires PeakConsistent(s) || price > s.highWatermark
    ensures PeakConsistent(UpdateHigh(s, price))
  {
  }

  // ---------------------------------------------------------------- first match

  /** State in which rule i is looked at, if the i rules before it all pass. */
  ghost function StateAt(rules: seq<ExitRule>, s: Position, o: Observation, ret: real, i: nat): (r: Position)
    requires s.Valid() && i <= |rules|
    ensures r.Valid()
  {
    if i == 0 then s else CheckRule(rules[i - 1], StateAt(rules, s, o, ret, i - 1), o, ret).0
  }

  ghost predicate Decides(rules: seq<ExitRule>, s: Position, o: Observation, ret: real, i: nat)
    requires s.Valid() && i < |rules|
  {
    CheckRule(rules[i], StateAt(rules, s, o, ret, i), o, ret).1.Some?
  }

  lemma {:induction false} StateAtTail(rules: seq<ExitRule>, s: Position, o: Observation, ret: real, i: nat)
    requires s.Valid() && 0 < |rules| && i < |rules|
    ensures StateAt(rules[1..], CheckRule(rules[0], s, o, ret).0, o, ret, i) == StateAt(rules, s, o, ret, i + 1)
  {
    if i > 0 {
      StateAtTail(rules, s, o, ret, i - 1);
      assert rules[1..][i - 1] == rules[i];
    }
  }

  /** If the first k rules pass, evaluation continues with the rest. */
  lemma {:induction false} EvalSkips(rules: seq<ExitRule>, s: Position, o: Observation, ret: real, k: nat)
    requires s.Valid() && k <= |rules|
    requires forall i: nat :: i < k ==> !Decides(rules, s, o, ret, i)
    ensures EvalRules(rules, s, o, ret) == EvalRules(rules[k..], StateAt(rules, s, o, ret, k), o, ret)
  {
    if k > 0 {
      EvalSkips(rules, s, o, ret, k - 1);
      assert !Decides(rules, s, o, ret, k - 1);
      assert rules[k - 1..][1..] == rules[k..];
    } else {
      assert rules[0..] == rules;
    }
  }

  lemma {:induction false} SomeRuleDecides(rules: seq<ExitRule>, s: Position, o: Observation, ret: real)
    returns (i: nat)
    requires s.Valid() && EvalRules(rules, s, o, ret).1.Some?
    ensures i < |rules| && Decides(rules, s, o, ret, i)
    ensures forall j: nat :: j < i ==> !Decides(rules, s, o, ret, j)
  {
    i := 0;
    while !Decides(rules, s, o, ret, i)
      invariant i < |rules|
      invariant forall j: nat :: j < i ==> !Decides(rules, s, o, ret, j)
      decreases |rules| - i
    {
      EvalSkips(rules, s, o, ret, i + 1);
      i := i + 1;
    }
  }

  /** First match, both ways: evaluation decides exactly when some rule does, and then its result is
      that of the first such rule, looked at in the state the rules before it left. */
  lemma FirstMatch(rules: seq<ExitRule>, s: Position, o: Observation, ret: real, i: nat)
    requires s.Valid() && i < |rules|
    requires forall j: nat :: j < i ==> !Decides(rules, s, o, ret, j)
    ensures Decides(rules, s, o, ret, i) ==>
              EvalRules(rules, s, o, ret) == CheckRule(rules[i], StateAt(rules, s, o, ret, i), o, ret)
    ensures EvalRules(rules, s, o, ret).1.None? <==>
              forall j: nat :: j < |rules| ==> !Decides(rules, s, o, ret, j)
  {
    EvalSkips(rules, s, o, ret, i);
    if EvalRules(rules, s, o, ret).1.Some? {
      var k := SomeRuleDecides(rules, s, o, ret);
    } else {
      forall j: nat | j < |rules|
        ensures !Decides(rules, s, o, ret, j)
      {
        NoneDecides(rules, s, o, ret, j);
      }
    }
  }

  lemma {:induction false} NoneDecides(rules: seq<ExitRule>, s: Position, o: Observation, ret: real, j: nat)
    requires s.Valid() && j < |rules|
    requires EvalRules(rules, s, o, ret).1.None?
    ensures forall i: nat :: i <= j ==> !Decides(rules, s, o, ret, i)
  {
    if j > 0 {
      NoneDecides(rules, s, o, ret, j - 1);
    }
    EvalSkips(rules, s, o, ret, j);
  }

  /** Rules after a deciding one cannot influence the result. */
  lemma {:induction false} LaterRulesIrrelevant(rules: seq<ExitRule>, more: seq<ExitRule>, s: Position,
                                                o: Observation, ret: real)
    requires s.Valid() && EvalRules(rules, s, o, ret).1.Some?
    ensures EvalRules(rules + more, s, o, ret) == EvalRules(rules, s, o, ret)
  {
    assert (rules + more)[0] == rules[0];
    assert (rules + more)[1..] == rules[1..] + more;
    var (s1, d) := CheckRule(rules[0], s, o, ret);
    if d.None? {
      LaterRulesIrrelevant(rules[1..], more, s1, o, ret);
    }
  }

  // ---------------------------------------------------------------- history: what only moves one way

  /** s2 can follow s1 in the life of one position. */
  ghost predicate Later(s1: Position, s2: Position)
  {
    && s2.sheetId == s1.sheetId && s2.ticker == s1.ticker && s2.entryPrice == s1.entryPrice
    && s2.quantity == s1.quantity && s2.enteredAt == s1.enteredAt && s2.exitFailCount == s1.exitFailCount
    && s1.highWatermark <= s2.highWatermark
    && (s1.trailingActive ==> s2.trailingActive)
    && (s1.profitFloorActive ==> s2.profitFloorActive)
    && (s1.breakevenActive ==> s2.breakevenActive && s2.breakevenSlPrice == s1.breakevenSlPrice)
    && (!s2.breakevenActive ==> s2.breakevenSlPrice == s1.breakevenSlPrice)
    && (s1.overextensionTriggered ==> s2.overextensionTriggered)
    && s1.scaleOutExecuted <= s2.scaleOutExecuted
  }

  lemma CheckRuleLater(rule: ExitRule, s: Position, o: Observation, ret: real)
    requires s.Valid()
    ensures Later(s, CheckRule(rule, s, o, ret).0)
    ensures CheckRule(rule, s, o, ret).0.highWatermark == s.highWatermark
    ensures CheckRule(rule, s, o, ret).0.peakReturnPct == s.peakReturnPct
  {
    hide DeathCross, Lowered, Raised, NextLevel, CutoffReached, DateOf;
  }

  lemma {:induction false} EvalRulesLater(rules: seq<ExitRule>, s: Position, o: Observation, ret: real)
    requires s.Valid()
    ensures Later(s, EvalRules(rules, s, o, ret).0)
    ensures EvalRules(rules, s, o, ret).0.highWatermark == s.highWatermark
    ensures EvalRules(rules, s, o, ret).0.peakReturnPct == s.peakReturnPct
  {
    if rules != [] {
      CheckRuleLater(rules[0], s, o, ret);
      var (s1, d) := CheckRule(rules[0], s, o, ret);
      if d.None? {
        EvalRulesLater(rules[1..], s1, o, ret);
      }
    }
  }

  /** The best of a start value and the prices seen. */
  function MaxPrice(start: real, obs: seq<Observation>): real {
    if obs == [] then start else MaxReal(MaxPrice(start, obs[..|obs| - 1]), obs[|obs| - 1].price)
  }

  /** Along every run the watermark is the running maximum, latches never reset, the raised stop is
      set at most once, consumed levels stay consumed. */
  lemma {:induction false} RunHistory(rules: seq<ExitRule>, s: Position, obs: seq<Observation>)
    requires s.Valid()
    ensures Later(s, Run(rules, s, obs).0)
    ensures Run(rules, s, obs).0.highWatermark == MaxPrice(s.highWatermark, obs)
    decreases |obs|
  {
    if obs != [] {
      var k := |obs| - 1;
      RunHistory(rules, s, obs[..k]);
      var s1 := Run(rules, s, obs[..k]).0;
      EvalRulesLater(rules, UpdateHigh(s1, obs[k].price), obs[k], CurrentReturn(s1, obs[k].price));
    }
  }

  /** The price at or below which a fixed stop loss of `pct` sells. */
  function EffectiveStop(pct: real, s: Position): real {
    var base := Lowered(s.entryPrice, pct);
    if s.breakevenSlPrice.Some? then MaxReal(base, s.breakevenSlPrice.value) else base
  }

  /** The effective stop never falls while evaluations run; the first latched price is final. */
  lemma StopNeverFalls(rules: seq<ExitRule>, s: Position, obs: seq<Observation>, pct: real)
    requires s.Valid() && (s.breakevenSlPrice.Some? ==> s.breakevenActive)
    ensures EffectiveStop(pct, s) <= EffectiveStop(pct, Run(rules, s, obs).0)
  {
    RunHistory(rules, s, obs);
  }

  // ---------------------------------------------------------------- scale-out levels

  function Below(k: nat): (r: set<nat>)
    ensures forall i: nat :: i in r <==> i < k
  {
    if k == 0 then {} else Below(k - 1) + {k - 1}
  }

  /** Level indices of the scale-outs in a decision sequence, in order. */
  function ScaleIndices(ds: seq<Option<ExitDecision>>): seq<nat> {
    if ds == [] then []
    else
      var d := ds[|ds| - 1];
      ScaleIndices(ds[..|ds| - 1])
      + if d.Some? && d.value.metadata.LevelData? then [d.value.metadata.levelIndex] else []
  }

  lemma {:induction false} NextLevelOfPrefix(count: nat, k: nat, from: nat)
    requires from <= count && from <= k
    ensures NextLevel(count, Below(k), from) == MinInt(k, count)
    decreases count - from
  {
    if from < count && from < k {
      NextLevelOfPrefix(count, k, from + 1);
    }
  }

  lemma CheckRuleLevels(rule: ExitRule, s: Position, o: Observation, ret: real, k: nat)
    requires s.Valid() && s.scaleOutExecuted == Below(k)
    ensures var (s', d) := CheckRule(rule, s, o, ret);
            if d.Some? && d.value.metadata.LevelData?
            then d.value.metadata.levelIndex == k && s'.scaleOutExecuted == Below(k + 1)
            else s'.scaleOutExecuted == Below(k)
  {
    if rule.ScaleOut? {
      NextLevelOfPrefix(|rule.levels|, k, 0);
      assert Below(k) + {k} == Below(k + 1);
    }
  }

  /** One evaluation consumes nothing, or exactly the next level, and reports it. */
  lemma {:induction false} EvalRulesLevels(rules: seq<ExitRule>, s: Position, o: Observation, ret: real, k: nat)
    requires s.Valid() && s.scaleOutExecuted == Below(k)
    ensures var (s', d) := EvalRules(rules, s, o, ret);
            if d.Some? && d.value.metadata.LevelData?
            then d.value.metadata.levelIndex == k && s'.scaleOutExecuted == Below(k + 1)
            else s'.scaleOutExecuted == Below(k)
  {
    hide CheckRule, Below;
    if rules != [] {
      CheckRuleLevels(rules[0], s, o, ret, k);
      var (s1, d) := CheckRule(rules[0], s, o, ret);
      if d.None? {
        EvalRulesLevels(rules[1..], s1, o, ret, k);
      }
    }
  }

  /** Along every run the consumed levels are a prefix 0..k-1 and the scale-outs are reported in
      exactly that order: each level fires at most once and none is skipped. */
  lemma {:induction false} RunLevels(rules: seq<ExitRule>, s: Position, obs: seq<Observation>)
    requires s.Valid() && s.scaleOutExecuted == Below(0)
    ensures var (s', ds) := Run(rules, s, obs);
            && s'.scaleOutExecuted == Below(|ScaleIndices(ds)|)
            && ScaleIndices(ds) == seq(|ScaleIndices(ds)|, i => i)
    decreases |obs|
  {
    if obs != [] {
      var k := |obs| - 1;
      RunLevels(rules, s, obs[..k]);
      var (s1, ds) := Run(rules, s, obs[..k]);
      EvalRulesLevels(rules, UpdateHigh(s1, obs[k].price), obs[k], CurrentReturn(s1, obs[k].price),
                      |ScaleIndices(ds)|);
      assert Run(rules, s, obs).1[..k] == ds;
    }
  }

  // ---------------------------------------------------------------- causality

  /** Each decision depends only on the observations up to its own. */
  lemma {:induction false} RunPrefix(rules: seq<ExitRule>, s: Position, obs: seq<Observation>, k: nat)
    requires s.Valid() && k <= |obs|
    ensures Run(rules, s, obs).1[..k] == Run(rules, s, obs[..k]).1
    decreases |obs|
  {
    if k < |obs| {
      var n := |obs| - 1;
      RunPrefix(rules, s, obs[..n], k);
      assert obs[..n][..k] == obs[..k];
      assert Run(rules, s, obs).1[..k] == Run(rules, s, obs[..n]).1[..k];
    } else {
      assert obs[..k] == obs;
    }
  }

  /** Runs compose: a run may be cut anywhere and resumed from the state reached. */
  lemma {:induction false} RunAppend(rules: seq<ExitRule>, s: Position, a: seq<Observation>, b: seq<Observation>)
    requires s.Valid()
    ensures Run(rules, s, a + b).0 == Run(rules, Run(rules, s, a).0, b).0
    ensures Run(rules, s, a + b).1 == Run(rules, s, a).1 + Run(rules, Run(rules, s, a).0, b).1
    decreases |b|
  {
    if b == [] {
      assert a + b == a;
    } else {
      var k := |b| - 1;
      RunAppend(rules, s, a, b[..k]);
      assert (a + b)[..|a + b| - 1] == a + b[..k];
    }
  }

  // ---------------------------------------------------------------- quantity plays no part

  function WithHolding(s: Position, quantity: int, fails: int): Position {
    s.(quantity := quantity, exitFailCount := fails)
  }

  lemma CheckRuleFrame(rule: ExitRule, s: Position, o: Observation, ret: real, q: int, f: int)
    requires s.Valid()
    ensures WithHolding(s, q, f).Valid()
    ensures var (s1, d) := CheckRule(rule, s, o, ret);
            CheckRule(rule, WithHolding(s, q, f), o, ret) == (WithHolding(s1, q, f), d)
  {
  }

  lemma {:induction false} EvalRulesFrame(rules: seq<ExitRule>, s: Position, o: Observation, ret: real, q: int, f: int)
    requires s.Valid()
    ensures WithHolding(s, q, f).Valid()
    ensures var (s1, d) := EvalRules(rules, s, o, ret);
            EvalRules(rules, WithHolding(s, q, f), o, ret) == (WithHolding(s1, q, f), d)
  {
    if rules != [] {
      CheckRuleFrame(rules[0], s, o, ret, q, f);
      var (s1, d) := CheckRule(rules[0], s, o, ret);
      if d.None? {
        EvalRulesFrame(rules[1..], s1, o, ret, q, f);
      }
    }
  }

  /** What is held, and how often selling failed, never influences a decision. */
  lemma EvaluateFrame(rules: seq<ExitRule>, s: Position, o: Observation, q: int, f: int)
    requires s.Valid()
    ensures WithHolding(s, q, f).Valid()
    ensures var (s1, d) := Evaluate(rules, s, o);
            Evaluate(rules, WithHolding(s, q, f), o) == (WithHolding(s1, q, f), d)
  {
    EvalRulesFrame(rules, UpdateHigh(s, o.price), o, CurrentReturn(s, o.price), q, f);
  }

  // ---------------------------------------------------------------- live and simulated start states

  /** Two states that no rule with positive activation thresholds can tell apart: equal but for the
      watermark and its return, and these differ only while nothing has risen above the entry. */
  ghost predicate Alike(s1: Position, s2: Position)
  {
    && s2 == s1.(highWatermark := s2.highWatermark, peakReturnPct := s2.peakReturnPct)
    && (s1 == s2 || (
          && s1.entryPrice > 0.0 && !s1.trailingActive && !s1.profitFloorActive
          && s1.highWatermark <= s1.entryPrice && s1.peakReturnPct <= 0.0
          && s2.highWatermark <= s1.entryPrice && s2.peakReturnPct <= 0.0))
  }

  lemma CheckRuleAlike(rule: ExitRule, s1: Position, s2: Position, o: Observation, ret: real)
    requires WellFormedRule(rule) && s1.Valid() && s2.Valid() && Alike(s1, s2)
    requires s1 != s2 ==> ret <= 0.0
    ensures var (t1, d1) := CheckRule(rule, s1, o, ret);
            var (t2, d2) := CheckRule(rule, s2, o, ret);
            d1 == d2 && Alike(t1, t2) && (t1 != t2 ==> s1 != s2)
  {
  }

  lemma {:induction false} EvalRulesAlike(rules: seq<ExitRule>, s1: Position, s2: Position, o: Observation, ret: real)
    requires WellFormedRules(rules) && s1.Valid() && s2.Valid() && Alike(s1, s2)
    requires s1 != s2 ==> ret <= 0.0
    ensures EvalRules(rules, s1, o, ret).1 == EvalRules(rules, s2, o, ret).1
    ensures Alike(EvalRules(rules, s1, o, ret).0, EvalRules(rules, s2, o, ret).0)
  {
    if rules != [] {
      CheckRuleAlike(rules[0], s1, s2, o, ret);
      var (t1, d) := CheckRule(rules[0], s1, o, ret);
      if d.None? {
        EvalRulesAlike(rules[1..], t1, CheckRule(rules[0], s2, o, ret).0, o, ret);
      }
    }
  }

  lemma ReturnSign(entry: real, price: real)
    requires entry > 0.0 && price <= entry
    ensures ReturnOn(entry, price) <= 0.0
  {
    var r := price / entry;
    assert r * entry == price;
  }

  lemma UpdateHighAlike(s1: Position, s2: Position, price: real)
    requires Alike(s1, s2) && s1.entryPrice >= 0.0
    ensures Alike(UpdateHigh(s1, price), UpdateHigh(s2, price))
    ensures UpdateHigh(s1, price) != UpdateHigh(s2, price) ==> CurrentReturn(s1, price) <= 0.0
  {
    if s1.entryPrice > 0.0 && price <= s1.entryPrice {
      ReturnSign(s1.entryPrice, price);
    }
  }

  lemma EvaluateAlike(rules: seq<ExitRule>, s1: Position, s2: Position, o: Observation)
    requires WellFormedRules(rules) && s1.Valid() && s2.Valid() && Alike(s1, s2) && s1.entryPrice >= 0.0
    ensures Evaluate(rules, s1, o).1 == Evaluate(rules, s2, o).1
    ensures Alike(Evaluate(rules, s1, o).0, Evaluate(rules, s2, o).0)
  {
    UpdateHighAlike(s1, s2, o.price);
    EvalRulesAlike(rules, UpdateHigh(s1, o.price), UpdateHigh(s2, o.price), o, CurrentReturn(s1, o.price));
  }

  lemma {:induction false} RunAlike(rules: seq<ExitRule>, s1: Position, s2: Position, obs: seq<Observation>)
    requires WellFormedRules(rules) && s1.Valid() && s2.Valid() && Alike(s1, s2) && s1.entryPrice >= 0.0
    ensures Run(rules, s1, obs).1 == Run(rules, s2, obs).1
    ensures Alike(Run(rules, s1, obs).0, Run(rules, s2, obs).0)
    decreases |obs|
  {
    if obs != [] {
      var k := |obs| - 1;
      RunAlike(rules, s1, s2, obs[..k]);
      RunHistory(rules, s1, obs[..k]);
      EvaluateAlike(rules, Run(rules, s1, obs[..k]).0, Run(rules, s2, obs[..k]).0, obs[k]);
    }
  }

  /** Live trading starts with the watermark at the entry price, the simulator with zero: on every
      sheet and every tick sequence both make the same decisions, metadata included. */
  lemma LiveAndSimulatedStartAgree(rules: seq<ExitRule>, sheetId: string, ticker: string, entry: real,
                                   quantity: int, at: Time, obs: seq<Observation>)
    requires WellFormedRules(rules) && entry >= 0.0
    ensures Run(rules, NewPosition(sheetId, ticker, entry, quantity, at, entry), obs).1
         == Run(rules, NewPosition(sheetId, ticker, entry, quantity, at, 0.0), obs).1
  {
    RunAlike(rules, NewPosition(sheetId, ticker, entry, quantity, at, entry),
             NewPosition(sheetId, ticker, entry, quantity, at, 0.0), obs);
  }

  // ---------------------------------------------------------------- break-even masks what follows it

  lemma {:induction false} MaskedEval(rules: seq<ExitRule>, b: nat, s: Position, o: Observation, ret: real)
    requires s.Valid() && s.breakevenActive && b < |rules| && rules[b].Breakeven?
    ensures EvalRules(rules, s, o, ret) == EvalRules(rules[..b + 1], s, o, ret)
    ensures EvalRules(rules, s, o, ret).1.Some?
  {
    assert rules[..b + 1][0] == rules[0];
    if b > 0 {
      var (s1, d) := CheckRule(rules[0], s, o, ret);
      CheckRuleLater(rules[0], s, o, ret);
      if d.None? {
        assert rules[..b + 1][1..] == rules[1..][..b];
        MaskedEval(rules[1..], b - 1, s1, o, ret);
      }
    }
  }

  /** Once a break-even rule is latched, every evaluation decides something and no rule after it has
      any influence, for good. */
  lemma {:induction false} ActiveBreakevenMasks(rules: seq<ExitRule>, b: nat, s: Position, obs: seq<Observation>)
    requires s.Valid() && s.breakevenActive && b < |rules| && rules[b].Breakeven?
    ensures Run(rules, s, obs) == Run(rules[..b + 1], s, obs)
    ensures forall i :: 0 <= i < |obs| ==> Run(rules, s, obs).1[i].Some?
    decreases |obs|
  {
    if obs != [] {
      var k := |obs| - 1;
      ActiveBreakevenMasks(rules, b, s, obs[..k]);
      RunHistory(rules, s, obs[..k]);
      var s1 := Run(rules, s, obs[..k]).0;
      MaskedEval(rules, b, UpdateHigh(s1, obs[k].price), obs[k], CurrentReturn(s1, obs[k].price));
    }
  }

  /** The exact price rule of a sheet that starts with break-even, once it is latched: a tick sells
      if and only if its price is at or below the latched floor; stop loss and time stop play no part. */
  lemma {:induction false} LatchedBreakevenFirst(rules: seq<ExitRule>, s: Position, obs: seq<Observation>, i: nat)
    requires s.Valid() && s.breakevenActive && |rules| > 0 && rules[0].Breakeven?
    requires i < |obs|
    ensures Run(rules, s, obs).1[i].Some?
    ensures Run(rules, s, obs).1[i].value.shouldClose <==> obs[i].price <= s.breakevenSlPrice.value
    decreases |obs|
  {
    var k := |obs| - 1;
    if i < k {
      LatchedBreakevenFirst(rules, s, obs[..k], i);
    } else {
      RunHistory(rules, s, obs[..k]);
    }
  }

  // ---------------------------------------------------------------- time stops that are due

  /** The death cross is looked at: on a day when it can be, and at a loss. */
  predicate CrossLooked(minLoss: real, s: Position, o: Observation, ret: real) {
    CrossDay(s, o) && ret <= -minLoss
  }

  /** The mark a rule leaves in a state when it does not fire: the trailing or profit-floor latch, or the
      time the death cross was looked at. */
  function Mark(rule: ExitRule, s: Position, o: Observation, ret: real): Position {
    match rule
    case TrailingTp(activate, _) => if ret >= activate then s.(trailingActive := true) else s
    case ProfitFloor(activate, _) => if s.peakReturnPct >= activate then s.(profitFloorActive := true) else s
    case DeathCrossExit(_, _, minLoss) =>
      if CrossLooked(minLoss, s, o, ret) then s.(deathCrossCheckedAt := Some(o.now)) else s
    case _ => s
  }

  /** The marks of the first i rules. */
  function Marked(rules: seq<ExitRule>, s: Position, o: Observation, ret: real, i: nat): Position
    requires i <= |rules|
  {
    if i == 0 then s else Mark(rules[i - 1], Marked(rules, s, o, ret, i - 1), o, ret)
  }

  lemma PassMarks(rule: ExitRule, s: Position, o: Observation, ret: real)
    requires s.Valid() && CheckRule(rule, s, o, ret).1.None?
    ensures CheckRule(rule, s, o, ret).0 == Mark(rule, s, o, ret)
  {
    hide DeathCross, Lowered, Raised, NextLevel;
  }

  lemma {:induction false} MarkedIsStateAt(rules: seq<ExitRule>, s: Position, o: Observation, ret: real, i: nat)
    requires s.Valid() && i <= |rules|
    requires AllPass(rules, s, o, ret, i)
    ensures StateAt(rules, s, o, ret, i) == Marked(rules, s, o, ret, i)
    ensures Marked(rules, s, o, ret, i).breakevenActive == s.breakevenActive
    ensures Marked(rules, s, o, ret, i).breakevenSlPrice == s.breakevenSlPrice
    ensures Marked(rules, s, o, ret, i).entryPrice == s.entryPrice
  {
    if i > 0 {
      MarkedIsStateAt(rules, s, o, ret, i - 1);
      assert !Decides(rules, s, o, ret, i - 1);
      hide CheckRule;
      PassMarks(rules[i - 1], StateAt(rules, s, o, ret, i - 1), o, ret);
    }
  }

  /** No rule in front of b fires, looked at one after the other. */
  ghost predicate NoneFires(rules: seq<ExitRule>, s: Position, o: Observation, ret: real, b: nat)
    requires b <= |rules|
  {
    forall j: nat :: j < b ==> !Fires(rules[j], Marked(rules, s, o, ret, j), o, ret)
  }

  /** The same, said of what the rules do. */
  ghost predicate AllPass(rules: seq<ExitRule>, s: Position, o: Observation, ret: real, b: nat)
    requires s.Valid() && b <= |rules|
  {
    forall j: nat :: j < b ==> !Decides(rules, s, o, ret, j)
  }

  lemma OneMore(rules: seq<ExitRule>, s: Position, o: Observation, ret: real, b: nat)
    requires s.Valid() && b < |rules|
    ensures AllPass(rules, s, o, ret, b + 1) <==> AllPass(rules, s, o, ret, b) && !Decides(rules, s, o, ret, b)
    ensures NoneFires(rules, s, o, ret, b + 1) <==>
              NoneFires(rules, s, o, ret, b) && !Fires(rules[b], Marked(rules, s, o, ret, b), o, ret)
  {
    hide Fires, Decides, Marked;
  }

  lemma {:induction false} NoneFiresMeaning(rules: seq<ExitRule>, s: Position, o: Observation, ret: real, b: nat)
    requires s.Valid() && b <= |rules|
    ensures NoneFires(rules, s, o, ret, b) <==> AllPass(rules, s, o, ret, b)
  {
    hide NoneFires, Fires, Marked, StateAt, CheckRule;
    if b > 0 {
      NoneFiresMeaning(rules, s, o, ret, b - 1);
      OneMore(rules, s, o, ret, b - 1);
      if AllPass(rules, s, o, ret, b - 1) {
        MarkedIsStateAt(rules, s, o, ret, b - 1);
        FiresMeaning(rules[b - 1], StateAt(rules, s, o, ret, b - 1), o, ret);
      }
    } else {
      EmptyFires(rules, s, o, ret);
    }
  }

  lemma EmptyFires(rules: seq<ExitRule>, s: Position, o: Observation, ret: real)
    requires s.Valid()
    ensures AllPass(rules, s, o, ret, 0) && NoneFires(rules, s, o, ret, 0)
  {
  }

  // ---------------------------------------------------------------- what a decision carries

  /** A sale of everything that moves no stop. */
  predicate SellsAll(d: ExitDecision, reason: Reason, metadata: Metadata) {
    d.shouldClose && d.reason == reason && d.portion == 1.0 && d.newSlPrice == None && d.metadata == metadata
  }

  /** The higher of the stop that the rule sets and the stop that break-even raised. */
  predicate IsStop(stop: real, pct: real, s: Position) {
    && stop >= Lowered(s.entryPrice, pct) && (s.breakevenSlPrice.Some? ==> stop >= s.breakevenSlPrice.value)
    && (stop == Lowered(s.entryPrice, pct) || Some(stop) == s.breakevenSlPrice)
  }

  /** Level k is the lowest that is not executed, and reached. */
  predicate IsNextLevel(levels: seq<Level>, k: nat, s: Position, ret: real) {
    && k < |levels| && k !in s.scaleOutExecuted && (forall j: nat :: j < k ==> j in s.scaleOutExecuted)
    && ret >= levels[k].trigger
  }

  /** What a rule decides when it fires in state s, and the state it leaves: everything the decision carries,
      and every field that changes. */
  ghost predicate Carries(rule: ExitRule, s: Position, o: Observation, ret: real, d: ExitDecision, s': Position) {
    match rule
    case FixedSl(pct) =>
      exists stop :: IsStop(stop, pct, s) && SellsAll(d, FixedSlHit, StopData(stop, ret)) && s' == s
    case FixedTp(_) => SellsAll(d, FixedTpHit, ReturnData(ret)) && s' == s
    case TrailingTp(_, drop) =>
      && SellsAll(d, TrailingTpHit, TrailingData(s.highWatermark, Lowered(s.highWatermark, drop)))
      && s' == s.(trailingActive := true)
    case Breakeven(_, floorPct) =>
      var floor := if s.breakevenActive && s.breakevenSlPrice.Some? then s.breakevenSlPrice.value
                   else Raised(s.entryPrice, floorPct);
      && d.shouldClose == (o.price <= floor)
      && d.reason == (if d.shouldClose then BreakevenHit else BreakevenSlRaise)
      && d.portion == 1.0 && d.newSlPrice == Some(floor) && d.metadata == FloorData(floor)
      && s' == s.(breakevenActive := true, breakevenSlPrice := Some(floor))
    case ScaleOut(levels) =>
      exists k: nat ::
        && IsNextLevel(levels, k, s, ret)
        && d == ExitDecision(true, ScaleOutHit, levels[k].portion, None, LevelData(k, levels[k].trigger, ret))
        && s' == s.(scaleOutExecuted := s.scaleOutExecuted + {k})
    case TimeStop(mode, value) =>
      && SellsAll(d, TimeStopHit, if mode == Eod then EodData(o.now) else HoldData(value.GetOr(0), o.businessDays))
      && s' == s
    case OverextensionExit(threshold) =>
      && SellsAll(d, OverextensionHit, RsiData(o.rsi1m.GetOr(0.0), threshold))
      && s' == s.(overextensionTriggered := true)
    case ProfitFloor(_, floor) =>
      SellsAll(d, ProfitFloorHit, PeakData(s.peakReturnPct, ret, floor)) && s' == s.(profitFloorActive := true)
    case DeathCrossExit(short, long, _) =>
      SellsAll(d, DeathCrossHit, CrossData(short, long, ret)) && s' == s.(deathCrossCheckedAt := Some(o.now))
    case RecoveryExit(pct) => SellsAll(d, RecoveryHit, StopData(pct, ret)) && s' == s
  }

  lemma FiringCarries(rule: ExitRule, s: Position, o: Observation, ret: real)
    requires s.Valid() && CheckRule(rule, s, o, ret).1.Some?
    ensures Carries(rule, s, o, ret, CheckRule(rule, s, o, ret).1.value, CheckRule(rule, s, o, ret).0)
  {
    hide DeathCross, Lowered, Raised, CutoffReached, DateOf;
    if rule.ScaleOut? {
      assert IsNextLevel(rule.levels, NextLevel(|rule.levels|, s.scaleOutExecuted, 0), s, ret);
    } else if rule.FixedSl? {
      var stop := CheckRule(rule, s, o, ret).1.value.metadata.threshold;
      assert IsStop(stop, rule.pct, s);
    }
  }

  /** The whole of one evaluation, for every sheet, position and tick. The new price is counted first. If no
      rule fires, nothing is decided and the rules leave their marks. Otherwise the first rule to fire, in the
      state with the marks of the rules before it, determines all that the decision carries and all that
      changes. */
  lemma EvaluationMeaning(rules: seq<ExitRule>, s: Position, o: Observation)
    requires s.Valid()
    ensures var u, ret, n := UpdateHigh(s, o.price), CurrentReturn(s, o.price), |rules|;
            var (s', d) := Evaluate(rules, s, o);
            && (d.None? <==> NoneFires(rules, u, o, ret, n))
            && (d.None? ==> s' == Marked(rules, u, o, ret, n))
            && forall i: nat ::
                 i < n && NoneFires(rules, u, o, ret, i) && Fires(rules[i], Marked(rules, u, o, ret, i), o, ret) ==>
                   d.Some? && Carries(rules[i], Marked(rules, u, o, ret, i), o, ret, d.value, s')
  {
    hide EvalRules, CheckRule, StateAt, Fires, NoneFires, Marked, Carries;
    var u, ret, n := UpdateHigh(s, o.price), CurrentReturn(s, o.price), |rules|;
    NothingDecided(rules, u, o, ret);
    forall i: nat | i < n && NoneFires(rules, u, o, ret, i) && Fires(rules[i], Marked(rules, u, o, ret, i), o, ret)
      ensures var (s', d) := EvalRules(rules, u, o, ret);
              d.Some? && Carries(rules[i], Marked(rules, u, o, ret, i), o, ret, d.value, s')
    {
      FirstCarries(rules, u, o, ret, i);
    }
  }

  lemma FirstCarries(rules: seq<ExitRule>, s: Position, o: Observation, ret: real, i: nat)
    requires s.Valid() && i < |rules|
    requires NoneFires(rules, s, o, ret, i) && Fires(rules[i], Marked(rules, s, o, ret, i), o, ret)
    ensures var (s', d) := EvalRules(rules, s, o, ret);
            d.Some? && Carries(rules[i], Marked(rules, s, o, ret, i), o, ret, d.value, s')
  {
    hide EvalRules, CheckRule, StateAt, Fires, NoneFires, Marked, Carries;
    NoneFiresMeaning(rules, s, o, ret, i);
    MarkedIsStateAt(rules, s, o, ret, i);
    FiresMeaning(rules[i], Marked(rules, s, o, ret, i), o, ret);
    FirstMatch(rules, s, o, ret, i);
    FiringCarries(rules[i], Marked(rules, s, o, ret, i), o, ret);
  }

  lemma NothingDecided(rules: seq<ExitRule>, s: Position, o: Observation, ret: real)
    requires s.Valid()
    ensures var (s', d) := EvalRules(rules, s, o, ret);
            && (d.None? <==> NoneFires(rules, s, o, ret, |rules|))
            && (d.None? ==> s' == Marked(rules, s, o, ret, |rules|))
  {
    hide EvalRules, CheckRule, StateAt, Fires, NoneFires, Marked;
    NoneFiresMeaning(rules, s, o, ret, |rules|);
    if NoneFires(rules, s, o, ret, |rules|) {
      MarkedIsStateAt(rules, s, o, ret, |rules|);
      EvalSkips(rules, s, o, ret, |rules|);
      NoRules(StateAt(rules, s, o, ret, |rules|), o, ret);
      assert rules[|rules|..] == [];
    } else if EvalRules(rules, s, o, ret).1.None? {
      NothingPassed(rules, s, o, ret);
    }
  }

  lemma NothingPassed(rules: seq<ExitRule>, s: Position, o: Observation, ret: real)
    requires s.Valid() && EvalRules(rules, s, o, ret).1.None?
    ensures AllPass(rules, s, o, ret, |rules|)
  {
    hide EvalRules, CheckRule, StateAt, Decides;
    if rules != [] {
      NoneDecides(rules, s, o, ret, |rules| - 1);
    }
  }

  lemma NoRules(s: Position, o: Observation, ret: real)
    requires s.Valid()
    ensures EvalRules([], s, o, ret) == (s, None)
  {
  }

  /** Some rule is the first to fire, unless none does. */
  lemma {:induction false} SomeFirst(rules: seq<ExitRule>, s: Position, o: Observation, ret: real, n: nat)
    requires n <= |rules|
    ensures NoneFires(rules, s, o, ret, n) || exists i: nat ::
              i < n && NoneFires(rules, s, o, ret, i) && Fires(rules[i], Marked(rules, s, o, ret, i), o, ret)
  {
    hide Fires, Marked;
    if n > 0 {
      SomeFirst(rules, s, o, ret, n - 1);
    }
  }

  /** A time stop's cutoff is twenty past three in the afternoon. */
  lemma CutoffMeaning(day: int, hour: int, minute: int, second: int)
    requires 0 <= hour < 24 && 0 <= minute < 60 && 0 <= second < 60
    ensures CutoffReached(day * 86400 + hour * 3600 + minute * 60 + second) <==>
              hour > 15 || (hour == 15 && minute >= 20)
    ensures DateOf(day * 86400 + hour * 3600 + minute * 60 + second) == day
  {
    var time := hour * 3600 + minute * 60 + second;
    assert 0 <= time < 86400;
    assert (day * 86400 + time) / 86400 == day && (day * 86400 + time) % 86400 == time;
  }

  /** The floor a break-even rule guards: the latched one, or the one it would latch now. */
  function FloorOf(floorPct: real, s: Position): real
    requires s.Valid()
  {
    if s.breakevenActive then s.breakevenSlPrice.value else Raised(s.entryPrice, floorPct)
  }

  /** A break-even rule in front of position t is latched, or reached by the current return; the price is
      above its floor; and no rule in front of it fires. */
  ghost predicate HeldByBreakeven(rules: seq<ExitRule>, t: nat, s: Position, o: Observation)
    requires s.Valid() && t <= |rules|
  {
    var ret := CurrentReturn(s, o.price);
    exists b: nat ::
      && b < t && rules[b].Breakeven?
      && (s.breakevenActive || ret >= rules[b].activatePct)
      && o.price > FloorOf(rules[b].floorPct, s)
      && NoneFires(rules, UpdateHigh(s, o.price), o, ret, b)
  }

  /** What the first rule to decide is, if it is a break-even rule. */
  lemma BreakevenFirst(rules: seq<ExitRule>, s: Position, o: Observation, ret: real, b: nat)
    requires s.Valid() && b < |rules| && rules[b].Breakeven? && NoneFires(rules, s, o, ret, b)
    ensures Decides(rules, s, o, ret, b) <==> s.breakevenActive || ret >= rules[b].activatePct
    ensures Decides(rules, s, o, ret, b) ==>
              && EvalRules(rules, s, o, ret) == CheckRule(rules[b], StateAt(rules, s, o, ret, b), o, ret)
              && EvalRules(rules, s, o, ret).1.Some?
              && (!EvalRules(rules, s, o, ret).1.value.shouldClose <==> o.price > FloorOf(rules[b].floorPct, s))
  {
    hide EvalRules, Fires;
    NoneFiresMeaning(rules, s, o, ret, b);
    MarkedIsStateAt(rules, s, o, ret, b);
    FirstMatch(rules, s, o, ret, b);
  }

  /** Of all rules only break-even decides without selling, and only above its floor. */
  lemma OnlyBreakevenHolds(rule: ExitRule, s: Position, o: Observation, ret: real)
    requires s.Valid() && CheckRule(rule, s, o, ret).1.Some?
    ensures !CheckRule(rule, s, o, ret).1.value.shouldClose <==>
              rule.Breakeven? && o.price > CheckRule(rule, s, o, ret).0.breakevenSlPrice.value
  {
  }

  lemma FirstDecider(rules: seq<ExitRule>, t: nat, s: Position, o: Observation, ret: real) returns (i: nat)
    requires s.Valid() && t < |rules| && Due(rules[t], o)
    ensures i <= t && Decides(rules, s, o, ret, i)
    ensures forall j: nat :: j < i ==> !Decides(rules, s, o, ret, j)
    ensures EvalRules(rules, s, o, ret) == CheckRule(rules[i], StateAt(rules, s, o, ret, i), o, ret)
  {
    assert Decides(rules, s, o, ret, t);
    if EvalRules(rules, s, o, ret).1.None? {
      NoneDecides(rules, s, o, ret, t);
    }
    i := SomeRuleDecides(rules, s, o, ret);
    FirstMatch(rules, s, o, ret, i);
  }

  /** On a tick where a time stop at index t is due, something is always decided, and the decision
      sells unless, and only unless, a break-even rule in front of it holds the position. */
  lemma DueTickSells(rules: seq<ExitRule>, t: nat, s: Position, o: Observation)
    requires s.Valid() && t < |rules| && Due(rules[t], o)
    ensures Evaluate(rules, s, o).1.Some?
    ensures !Evaluate(rules, s, o).1.value.shouldClose <==> HeldByBreakeven(rules, t, s, o)
  {
    hide EvalRules, CheckRule, StateAt, Fires, NoneFires;
    var u, ret := UpdateHigh(s, o.price), CurrentReturn(s, o.price);
    var i := FirstDecider(rules, t, u, o, ret);
    OnlyBreakevenHolds(rules[i], StateAt(rules, u, o, ret, i), o, ret);
    NoneFiresMeaning(rules, u, o, ret, i);
    if rules[i].Breakeven? {
      assert rules[t].TimeStop?;
      BreakevenFirst(rules, u, o, ret, i);
    }
    if HeldByBreakeven(rules, t, s, o) {
      var b: nat :| b < t && rules[b].Breakeven?
        && (s.breakevenActive || ret >= rules[b].activatePct)
        && o.price > FloorOf(rules[b].floorPct, s) && NoneFires(rules, u, o, ret, b);
      BreakevenFirst(rules, u, o, ret, b);
    }
  }

  /** The promise "always sold when the time stop is due" fails in general: with a break-even rule in
      front, a position up four per cent is kept at 15:30 of its last day. */
  lemma DueTickMayHold()
    ensures var rules := [Breakeven(0.03, 0.003), FixedSl(0.05), TimeStop(HoldDays, Some(1))];
            var s := NewPosition("ps", "005930", 100.0, 10, 0, 0.0);
            var o := Observation(104.0, None, 15 * 3600 + 30 * 60, None, 7);
            && Due(rules[2], o)
            && !Evaluate(rules, s, o).1.value.shouldClose
  {
    var rules := [Breakeven(0.03, 0.003), FixedSl(0.05), TimeStop(HoldDays, Some(1))];
    var s := NewPosition("ps", "005930", 100.0, 10, 0, 0.0);
    var o := Observation(104.0, None, 15 * 3600 + 30 * 60, None, 7);
    assert CurrentReturn(s, o.price) == 0.04;
    assert EvalRules(rules, UpdateHigh(s, o.price), o, 0.04).1
        == Some(ExitDecision(false, BreakevenSlRaise, 1.0, Some(100.3), FloorData(100.3)));
  }
}
