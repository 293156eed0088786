/** The five-level intraday risk throttle: worsening takes effect at once, recovery is delayed and
    goes one level at a time. */
module RiskThrottle {
  import opened Wrappers

  datatype Level = Normal | Caution | Warning | Danger | Critical

  function Severity(level: Level): (s: nat)
    ensures s <= 4
  {
    match level
    case Normal => 0
    case Caution => 1
    case Warning => 2
    case Danger => 3
    case Critical => 4
  }

  function LevelOf(severity: nat): (level: Level)
    requires severity <= 4
    ensures Severity(level) == severity
  {
    match severity
    case 0 => Normal
    case 1 => Caution
    case 2 => Warning
    case 3 => Danger
    case 4 => Critical
  }

  function Multiplier(level: Level): real {
    match level
    case Normal => 1.0
    case Caution => 0.8
    case Warning => 0.6
    case Danger => 0.3
    case Critical => 0.0
  }

  const CYCLE_SEC: int := 300

  /** Seconds of uninterrupted improvement before a level is left. */
  function RecoverySec(level: Level): int {
    match level
    case Critical => 6 * CYCLE_SEC
    case Danger => 4 * CYCLE_SEC
    case Warning => 2 * CYCLE_SEC
    case Caution => 1 * CYCLE_SEC
    case Normal => 1 * CYCLE_SEC
  }

  function CalcIntraday(kospi: real, vix: real): (Level, real) {
    if kospi <= -4.0 then (Critical, 0.0)
    else if kospi <= -3.0 || vix >= 40.0 then (Danger, 0.3)
    else if kospi <= -2.0 || vix >= 35.0 then (Warning, 0.6)
    else if kospi <= -1.0 || vix >= 30.0 then (Caution, 0.8)
    else (Normal, 1.0)
  }

  function ApplySoxFloor(raw: Level, sox: Option<real>): Level {
    var floor :=
      if sox.Some? && sox.value <= -3.0 then Warning
      else if sox.Some? && sox.value <= -2.0 then Caution
      else Normal;
    if Severity(floor) > Severity(raw) then floor else raw
  }

  /** Market readings of one update, and its time in seconds. */
  datatype Input = Input(kospi: real, vix: Option<real>, sox: Option<real>, now: int)

  /** The level the readings call for, SOX floor included. */
  function RawLevel(i: Input): Level {
    ApplySoxFloor(CalcIntraday(i.kospi, i.vix.GetOr(0.0)).0, i.sox)
  }

  /** The stored keys: a level name that may be unknown, a timer that may be unreadable. */
  datatype StoredLevel = Known(level: Level) | Unknown
  datatype StoredTimer = At(since: int) | Unreadable

  /** Memory of the throttle object and the two Redis keys. */
  datatype State = State(level: Level, mult: real, storedLevel: Option<StoredLevel>, timer: Option<StoredTimer>)

  function PrevLevel(s: State): Level {
    match s.storedLevel
    case Some(Known(level)) => level
    case _ => s.level
  }

  /** Recovery: new level, its multiplier, new timer. */
  function Recover(prev: Level, raw: Level, rawMult: real, timer: Option<StoredTimer>, now: int):
      (Level, real, Option<StoredTimer>)
  {
    if Severity(raw) >= Severity(prev) then (raw, rawMult, None)
    else
      match timer
      case Some(At(since)) =>
        if now - since >= RecoverySec(prev) then
          var next := LevelOf(MaxInt(Severity(prev) - 1, 0));
          (next, Multiplier(next), Some(At(now)))
        else (prev, Multiplier(prev), timer)
      case _ => (prev, Multiplier(prev), Some(At(now)))
  }

  function Update(s: State, i: Input): State {
    var (byMarket, marketMult) := CalcIntraday(i.kospi, i.vix.GetOr(0.0));
    var raw := RawLevel(i);
    var rawMult := if raw != byMarket then Multiplier(raw) else marketMult;
    var (level, mult, timer) := Recover(PrevLevel(s), raw, rawMult, s.timer, i.now);
    State(level, mult, Some(Known(level)), timer)
  }

  // ---------------------------------------------------------------- the object

  datatype UpdateResult = UpdateResult(level: Level, mult: real, prevLevel: Level, changed: bool, rawLevel: Level)

  class IntradayRiskThrottle {
    var currentLevel: Level
    var currentMult: real
    var redisLevel: Option<StoredLevel>
    var redisTimer: Option<StoredTimer>

    function View(): State
      reads this
    {
      State(currentLevel, currentMult, redisLevel, redisTimer)
    }

    constructor (redisLevel: Option<StoredLevel>, redisTimer: Option<StoredTimer>)
      ensures View() == State(Normal, 1.0, redisLevel, redisTimer)
    {
      currentLevel, currentMult := Normal, 1.0;
      this.redisLevel, this.redisTimer := redisLevel, redisTimer;
    }

    /** Restore after a restart. */
    method LoadState()
      modifies this`currentLevel, this`currentMult
      ensures redisLevel.Some? && redisLevel.value.Known? ==>
                currentLevel == redisLevel.value.level && currentMult == Multiplier(currentLevel)
      ensures !(redisLevel.Some? && redisLevel.value.Known?) ==> View() == old(View())
    {
      if redisLevel.None? {
        return;
      }
      match redisLevel.value
      case Known(level) =>
        currentLevel := level;
        currentMult := Multiplier(level);
      case Unknown =>
    }

    method ApplyRecoveryLogic(prev: Level, raw: Level, rawMult: real, now: int) returns (level: Level, mult: real)
      modifies this`redisTimer
      ensures (level, mult, redisTimer) == Recover(prev, raw, rawMult, old(redisTimer), now)
    {
      if Severity(raw) >= Severity(prev) {
        redisTimer := None;
        return raw, rawMult;
      }
      if redisTimer.None? || redisTimer.value.Unreadable? {
        redisTimer := Some(At(now));
        return prev, Multiplier(prev);
      }
      var elapsed := now - redisTimer.value.since;
      if elapsed >= RecoverySec(prev) {
        var next := LevelOf(MaxInt(Severity(prev) - 1, 0));
        redisTimer := Some(At(now));
        return next, Multiplier(next);
      }
      return prev, Multiplier(prev);
    }

    method UpdateLevel(i: Input) returns (r: UpdateResult)
      modifies this
      ensures View() == Update(old(View()), i)
      ensures r == UpdateResult(currentLevel, currentMult, PrevLevel(old(View())),
                                currentLevel != PrevLevel(old(View())), RawLevel(i))
    {
      var (raw, rawMult) := CalcIntraday(i.kospi, i.vix.GetOr(0.0));
      var effective := ApplySoxFloor(raw, i.sox);
      if effective != raw {
        rawMult := Multiplier(effective);
      }
      var prev := currentLevel;
      if redisLevel.Some? {
        match redisLevel.value
        case Known(level) => prev := level;
        case Unknown =>
      }
      var level, mult := ApplyRecoveryLogic(prev, effective, rawMult, i.now);
      redisLevel := Some(Known(level));
      currentLevel := level;
      currentMult := mult;
      return UpdateResult(level, mult, prev, level != prev, effective);
    }
  }

  // ---------------------------------------------------------------- whole runs

  function Run(s: State, inputs: seq<Input>): State {
    if inputs == [] then s else Update(Run(s, inputs[..|inputs| - 1]), inputs[|inputs| - 1])
  }

  /** State after the first k updates. */
  function After(s: State, inputs: seq<Input>, k: nat): State
    requires k <= |inputs|
  {
    Run(s, inputs[..k])
  }

  predicate TimeOrdered(inputs: seq<Input>) {
    forall a, b :: 0 <= a <= b < |inputs| ==> inputs[a].now <= inputs[b].now
  }

  lemma AfterStep(s: State, inputs: seq<Input>, k: nat)
    requires k < |inputs|
    ensures After(s, inputs, k + 1) == Update(After(s, inputs, k), inputs[k])
  {
    assert inputs[..k + 1][..k] == inputs[..k];
  }

  /** The table a reader of the thresholds expects: severity of the readings, and its multiplier. */
  lemma RawLevelMeaning(i: Input)
    ensures var vix := i.vix.GetOr(0.0);
            var severity := Severity(RawLevel(i));
            && (severity >= 1 <==> i.kospi <= -1.0 || vix >= 30.0 || (i.sox.Some? && i.sox.value <= -2.0))
            && (severity >= 2 <==> i.kospi <= -2.0 || vix >= 35.0 || (i.sox.Some? && i.sox.value <= -3.0))
            && (severity >= 3 <==> i.kospi <= -3.0 || vix >= 40.0)
            && (severity >= 4 <==> i.kospi <= -4.0)
    ensures var (market, mult) := CalcIntraday(i.kospi, i.vix.GetOr(0.0));
            mult == Multiplier(market)
  {
  }

  /** Worse readings anywhere never give a milder raw level. */
  lemma RawLevelMonotone(a: Input, b: Input)
    requires b.kospi <= a.kospi && a.vix.GetOr(0.0) <= b.vix.GetOr(0.0)
    requires a.sox.Some? ==> b.sox.Some? && b.sox.value <= a.sox.value
    ensures Severity(RawLevel(a)) <= Severity(RawLevel(b))
  {
  }

  /** One update: never milder than the readings; not milder readings take effect at once; milder
      ones move the level by at most one step; the multiplier is that of the level. */
  lemma UpdateMeaning(s: State, i: Input)
    ensures var t := Update(s, i);
            && Severity(t.level) >= Severity(RawLevel(i))
            && (Severity(RawLevel(i)) >= Severity(PrevLevel(s)) ==> t.level == RawLevel(i) && t.timer == None)
            && (Severity(RawLevel(i)) < Severity(PrevLevel(s)) ==>
                  t.level == PrevLevel(s) || Severity(t.level) == Severity(PrevLevel(s)) - 1)
            && t.mult == Multiplier(t.level)
            && PrevLevel(t) == t.level
  {
    RawLevelMeaning(i);
  }

  /** The whole recovery rule in seconds, for readings better than the level: the level improves by one step when
      the timer has run for the level's time, half an hour for Critical, twenty minutes for Danger, ten for Warning
      and five for Caution; then the timer starts again. Otherwise the level stays, and a timer that does not run
      starts. */
  lemma RecoveryMeaning(s: State, i: Input)
    requires Severity(RawLevel(i)) < Severity(PrevLevel(s))
    ensures var prev, t := PrevLevel(s), Update(s, i);
            var needed := [300, 300, 600, 1200, 1800][Severity(prev)];
            var due := s.timer.Some? && s.timer.value.At? && i.now - s.timer.value.since >= needed;
            && Severity(t.level) == Severity(prev) - (if due then 1 else 0)
            && t.timer == (if due || s.timer.None? || s.timer.value.Unreadable? then Some(At(i.now)) else s.timer)
  {
  }

  /** The share of the usual order size at each level. */
  lemma MultiplierMeaning(s: State, i: Input)
    ensures Update(s, i).mult == [1.0, 0.8, 0.6, 0.3, 0.0][Severity(Update(s, i).level)]
  {
    UpdateMeaning(s, i);
  }

  /** A restarted object that reloads behaves like the one it replaces. */
  lemma RestartTransparent(s: State, i: Input, level: Level)
    requires s.storedLevel == Some(Known(level))
    ensures Update(State(level, Multiplier(level), s.storedLevel, s.timer), i) == Update(s, i)
    ensures Update(State(Normal, 1.0, s.storedLevel, s.timer), i) == Update(s, i)
  {
  }

  // ---------------------------------------------------------------- recovery needs uninterrupted improvement

  /** At every update from a to b (inclusive) the readings were strictly better than the level before it. */
  ghost predicate BetterThroughout(s: State, inputs: seq<Input>, a: nat, b: nat) {
    a <= b < |inputs| &&
    forall k :: a <= k <= b ==> Severity(RawLevel(inputs[k])) < Severity(PrevLevel(After(s, inputs, k)))
  }

  /** What a running timer says about the past: it was set at some update, readings have been strictly
      better at every update since, and the level has not changed after that update. */
  lemma {:induction false} TimerMeaning(s: State, inputs: seq<Input>, n: nat) returns (m: nat)
    requires s.timer == None && n < |inputs|
    requires After(s, inputs, n + 1).timer.Some?
    ensures m <= n
    ensures After(s, inputs, n + 1).timer == Some(At(inputs[m].now))
    ensures BetterThroughout(s, inputs, m, n)
    ensures forall k :: m < k <= n + 1 ==> After(s, inputs, k).level == After(s, inputs, n + 1).level
  {
    hide RawLevel, Run;
    AfterStep(s, inputs, n);
    var before, after := After(s, inputs, n), After(s, inputs, n + 1);
    UpdateMeaning(before, inputs[n]);
    if n > 0 && before.timer.Some? && after.timer == before.timer {
      m := TimerMeaning(s, inputs, n - 1);
      KeptTimer(before, inputs[n]);
      AfterStep(s, inputs, n - 1);
      UpdateMeaning(After(s, inputs, n - 1), inputs[n - 1]);
    } else {
      m := n;
      if n == 0 {
        assert inputs[..0] == [];
        RunNone(s);
      }
      NewTimer(before, inputs[n]);
    }
  }

  lemma RunNone(s: State)
    ensures Run(s, []) == s
  {
  }

  /** An unchanged timer means an unchanged level under strictly better readings. */
  lemma KeptTimer(s: State, i: Input)
    requires s.timer.Some? && Update(s, i).timer == s.timer
    ensures Severity(RawLevel(i)) < Severity(PrevLevel(s)) && Update(s, i).level == PrevLevel(s)
  {
  }

  /** A changed timer is the time of the update, again under strictly better readings. */
  lemma NewTimer(s: State, i: Input)
    requires Update(s, i).timer.Some? && (s.timer == None || Update(s, i).timer != s.timer)
    ensures Update(s, i).timer == Some(At(i.now))
    ensures Severity(RawLevel(i)) < Severity(PrevLevel(s))
  {
  }

  /** An update that improves the level found a timer at least the recovery time old. */
  lemma ImprovementNeedsTimer(s: State, i: Input)
    requires Severity(Update(s, i).level) < Severity(PrevLevel(s))
    ensures Severity(RawLevel(i)) < Severity(PrevLevel(s))
    ensures Severity(Update(s, i).level) == Severity(PrevLevel(s)) - 1
    ensures s.timer.Some? && s.timer.value.At? && i.now - s.timer.value.since >= RecoverySec(PrevLevel(s))
  {
  }

  /** Delayed recovery: in any run that starts without a timer, an update that improves the level is
      preceded by an update at least the level's recovery time earlier such that at every update in
      between, both ends included, the readings were strictly better than the level. */
  lemma RecoveryIsEarned(s: State, inputs: seq<Input>, n: nat) returns (m: nat)
    requires s.timer == None && n < |inputs|
    requires Severity(After(s, inputs, n + 1).level) < Severity(PrevLevel(After(s, inputs, n)))
    ensures m < n && inputs[n].now - inputs[m].now >= RecoverySec(PrevLevel(After(s, inputs, n)))
    ensures BetterThroughout(s, inputs, m, n)
    ensures forall k :: m < k <= n ==> After(s, inputs, k).level == PrevLevel(After(s, inputs, n))
  {
    hide RawLevel, Run;
    AfterStep(s, inputs, n);
    var before := After(s, inputs, n);
    ImprovementNeedsTimer(before, inputs[n]);
    if n == 0 {
      assert inputs[..0] == [];
      RunNone(s);
    }
    m := TimerMeaning(s, inputs, n - 1);
    AfterStep(s, inputs, n - 1);
    UpdateMeaning(After(s, inputs, n - 1), inputs[n - 1]);
  }

  // ---------------------------------------------------------------- how long recovery takes

  /** Seconds of recovery between a level and Normal. */
  function Debt(level: Level): int {
    match level
    case Normal => 0
    case Caution => 300
    case Warning => 900
    case Danger => 2100
    case Critical => 3900
  }

  /** Time up to which the recovery already made is counted. */
  function CountedTo(s: State, now: int): int {
    match s.timer
    case Some(At(since)) => since
    case _ => now
  }

  /** No state can be reached in which more recovery is counted than time has passed. */
  lemma {:induction false} DebtIsPaid(s: State, inputs: seq<Input>, i: nat, j: nat)
    requires i <= j < |inputs| && TimeOrdered(inputs)
    requires After(s, inputs, i + 1).timer == None
    ensures var t := After(s, inputs, j + 1);
            && t.timer != Some(Unreadable)
            && CountedTo(t, inputs[j].now) <= inputs[j].now
            && CountedTo(t, inputs[j].now) - inputs[i].now + Debt(t.level)
               >= Debt(After(s, inputs, i + 1).level)
    decreases j
  {
    hide RawLevel, Run;
    if i < j {
      DebtIsPaid(s, inputs, i, j - 1);
      AfterStep(s, inputs, j);
      AfterStep(s, inputs, j - 1);
      UpdateMeaning(After(s, inputs, j - 1), inputs[j - 1]);
      DebtStep(After(s, inputs, j), inputs[j], inputs[j - 1].now);
    }
  }

  lemma DebtStep(s: State, i: Input, before: int)
    requires PrevLevel(s) == s.level && s.timer != Some(Unreadable)
    requires CountedTo(s, before) <= before <= i.now
    ensures var t := Update(s, i);
            && t.timer != Some(Unreadable)
            && CountedTo(t, i.now) <= i.now
            && CountedTo(t, i.now) + Debt(t.level) >= CountedTo(s, before) + Debt(s.level)
  {
    hide RawLevel;
  }

  /** From an update after which no timer runs, reaching a milder level takes at least the recovery
      times of all levels in between; from Critical to Normal at least 3900 seconds. */
  lemma RecoveryTakesTime(s: State, inputs: seq<Input>, i: nat, j: nat)
    requires i <= j < |inputs| && TimeOrdered(inputs)
    requires After(s, inputs, i + 1).timer == None
    ensures inputs[j].now - inputs[i].now
         >= Debt(After(s, inputs, i + 1).level) - Debt(After(s, inputs, j + 1).level)
    ensures After(s, inputs, i + 1).level == Critical && After(s, inputs, j + 1).level == Normal ==>
              inputs[j].now - inputs[i].now >= 3900
  {
    DebtIsPaid(s, inputs, i, j);
  }

  // ---------------------------------------------------------------- steady normal readings

  /** Calm readings every `CYCLE_SEC` seconds from time t0 on. */
  predicate SteadyCalm(inputs: seq<Input>, t0: int) {
    forall k :: 0 <= k < |inputs| ==> RawLevel(inputs[k]) == Normal && inputs[k].now == t0 + k * CYCLE_SEC
  }

  /** The level after n updates of steady calm, starting at Critical without a timer. */
  function SteadyLevel(n: nat): Level {
    if n <= 6 then Critical else if n <= 10 then Danger else if n <= 12 then Warning else if n <= 13 then Caution
    else Normal
  }

  /** Index of the update that set the running timer. */
  function SteadyTimer(n: nat): Option<nat> {
    if n == 0 || n >= 15 then None
    else if n <= 6 then Some(0) else if n <= 10 then Some(6) else if n <= 12 then Some(10) else if n <= 13 then Some(12)
    else Some(13)
  }

  lemma {:induction false} SteadyRecovery(s: State, inputs: seq<Input>, t0: int, n: nat)
    requires s.timer == None && PrevLevel(s) == Critical && SteadyCalm(inputs, t0) && n <= |inputs|
    ensures PrevLevel(After(s, inputs, n)) == SteadyLevel(n)
    ensures After(s, inputs, n).timer
         == if SteadyTimer(n).None? then None else Some(At(t0 + SteadyTimer(n).value * CYCLE_SEC))
  {
    hide RawLevel;
    if n > 0 {
      SteadyRecovery(s, inputs, t0, n - 1);
      AfterStep(s, inputs, n - 1);
      hide Run;
    } else {
      assert inputs[..0] == [];
    }
  }

  /** Under steady calm from Critical, Normal is reached by the fourteenth update and not before. */
  lemma FourteenUpdates(s: State, inputs: seq<Input>, t0: int, n: nat)
    requires s.timer == None && PrevLevel(s) == Critical && SteadyCalm(inputs, t0) && 1 <= n <= |inputs|
    ensures After(s, inputs, n).level == Normal <==> n >= 14
  {
    SteadyRecovery(s, inputs, t0, n);
    AfterStep(s, inputs, n - 1);
    UpdateMeaning(After(s, inputs, n - 1), inputs[n - 1]);
  }
}
