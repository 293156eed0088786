/** Position sheets' exit rules and what one evaluation of them does, as functions on values.
    The class methods of ExitEvaluator are proved against these functions. */
module ExitModel {
  import opened Wrappers
  import opened Indicators

  // ---------------------------------------------------------------- sheet side

  datatype TimeStopMode = Eod | HoldDays

  datatype Level = Level(trigger: real, portion: real)

  datatype ExitRule =
    | FixedSl(pct: real)
    | FixedTp(pct: real)
    | TrailingTp(activatePct: real, dropPct: real)
    | Breakeven(activatePct: real, floorPct: real)
    | ScaleOut(levels: seq<Level>)
    | TimeStop(mode: TimeStopMode, value: Option<int>)
    | OverextensionExit(rsiThreshold: real)
    | ProfitFloor(activatePct: real, floorPct: real)
    | DeathCrossExit(maShort: Period, maLong: Period, minLossPct: real)
    | RecoveryExit(pct: real)

  /** What the sheet schema checks of a rule. */
  predicate WellFormedRule(rule: ExitRule) {
    match rule
    case FixedSl(pct) => 0.0 < pct <= 0.1
    case FixedTp(pct) => 0.0 < pct
    case TrailingTp(activate, drop) => 0.0 < activate && 0.0 < drop
    case Breakeven(activate, floor) => 0.0 < activate && 0.0 < floor
    case ScaleOut(levels) => true
    case TimeStop(_, _) => true
    case OverextensionExit(threshold) => 0.0 < threshold <= 100.0
    case ProfitFloor(activate, floor) => 0.0 < activate && 0.0 < floor
    case DeathCrossExit(_, _, minLoss) => 0.0 < minLoss
    case RecoveryExit(pct) => -0.1 <= pct <= 0.0
  }

  predicate WellFormedRules(rules: seq<ExitRule>) {
    forall i :: 0 <= i < |rules| ==> WellFormedRule(rules[i])
  }

  // ---------------------------------------------------------------- state side

  /** Local wall-clock time in whole seconds. */
  type Time = int

  const SECONDS_PER_DAY: int := 86400

  /** 15:20, when time stops become due. */
  const TIME_STOP_CUTOFF: int := 15 * 3600 + 20 * 60

  function DateOf(t: Time): int {
    t / SECONDS_PER_DAY
  }

  predicate CutoffReached(t: Time) {
    t % SECONDS_PER_DAY >= TIME_STOP_CUTOFF
  }

  /** The value of a position's run-time state. */
  datatype Position = Position(
    sheetId: string,
    ticker: string,
    entryPrice: real,
    quantity: int,
    enteredAt: Time,
    highWatermark: real,
    peakReturnPct: real,
    trailingActive: bool,
    profitFloorActive: bool,
    breakevenActive: bool,
    breakevenSlPrice: Option<real>,
    scaleOutExecuted: set<nat>,
    deathCrossCheckedAt: Option<Time>,
    overextensionTriggered: bool,
    exitFailCount: int)
  {
    /** The break-even latch is never set without its price. */
    ghost predicate Valid() {
      breakevenActive ==> breakevenSlPrice.Some?
    }
  }

  /** A position as the constructor of the source leaves it: every other field at its default. */
  function NewPosition(sheetId: string, ticker: string, entryPrice: real, quantity: int,
                       enteredAt: Time, highWatermark: real): Position
  {
    Position(sheetId, ticker, entryPrice, quantity, enteredAt, highWatermark, 0.0,
             false, false, false, None, {}, None, false, 0)
  }

  /** A price `pct` above, or below, another one. */
  function Raised(price: real, pct: real): real {
    price * (1.0 + pct)
  }

  function Lowered(price: real, pct: real): real {
    price * (1.0 - pct)
  }

  /** Return of `price` on an entry price. */
  function ReturnOn(entry: real, price: real): real
    requires entry > 0.0
  {
    price / entry - 1.0
  }

  function UpdateHigh(s: Position, price: real): Position {
    if price > s.highWatermark then
      s.(highWatermark := price,
         peakReturnPct := if s.entryPrice > 0.0 then ReturnOn(s.entryPrice, price) else s.peakReturnPct)
    else s
  }

  function CurrentReturn(s: Position, price: real): real {
    if s.entryPrice <= 0.0 then 0.0 else ReturnOn(s.entryPrice, price)
  }

  /** Everything one evaluation looks at besides the rules and the state. */
  datatype Observation = Observation(
    price: real,
    rsi1m: Option<real>,
    now: Time,
    dailyCloses: Option<seq<real>>,
    businessDays: int)

  // ---------------------------------------------------------------- decisions

  datatype Reason =
    | FixedSlHit | FixedTpHit | TrailingTpHit | BreakevenHit | BreakevenSlRaise | ScaleOutHit
    | TimeStopHit | OverextensionHit | ProfitFloorHit | DeathCrossHit | RecoveryHit
    | ForcedLiquidation | DataEnd | MarketEntry | LimitEntry

  datatype Metadata =
    | NoMetadata
    | StopData(threshold: real, currentReturn: real)
    | ReturnData(currentReturn: real)
    | TrailingData(highWatermark: real, trailingStop: real)
    | FloorData(floorPrice: real)
    | LevelData(levelIndex: nat, triggerPct: real, currentReturn: real)
    | EodData(at: Time)
    | HoldData(value: int, enteredBusinessDays: int)
    | RsiData(rsi: real, rsiThreshold: real)
    | PeakData(peakReturnPct: real, currentReturn: real, floorPct: real)
    | CrossData(maShort: int, maLong: int, currentReturn: real)

  datatype ExitDecision = ExitDecision(
    shouldClose: bool,
    reason: Reason,
    portion: real,
    newSlPrice: Option<real>,
    metadata: Metadata)

  function CloseAll(reason: Reason, metadata: Metadata): ExitDecision {
    ExitDecision(true, reason, 1.0, None, metadata)
  }

  // ---------------------------------------------------------------- one rule

  /** State after looking at one rule, and what the rule decided. */
  type Outcome = (Position, Option<ExitDecision>)

  function CheckFixedSl(pct: real, s: Position, o: Observation, ret: real): Option<ExitDecision> {
    var base := Lowered(s.entryPrice, pct);
    var threshold :=
      if s.breakevenSlPrice.Some? && s.breakevenSlPrice.value > base then s.breakevenSlPrice.value else base;
    if o.price <= threshold then Some(CloseAll(FixedSlHit, StopData(threshold, ret))) else None
  }

  function CheckTrailingTp(activatePct: real, dropPct: real, s: Position, o: Observation, ret: real): Outcome {
    if !s.trailingActive && ret < activatePct then (s, None)
    else
      var s' := s.(trailingActive := true);
      var stop := Lowered(s.highWatermark, dropPct);
      (s', if o.price < stop then Some(CloseAll(TrailingTpHit, TrailingData(s.highWatermark, stop))) else None)
  }

  function CheckBreakeven(activatePct: real, floorPct: real, s: Position, o: Observation, ret: real): Outcome
    requires s.Valid()
  {
    if !s.breakevenActive && ret < activatePct then (s, None)
    else
      var s' := if s.breakevenActive then s
                else s.(breakevenActive := true, breakevenSlPrice := Some(Raised(s.entryPrice, floorPct)));
      var floorPrice := s'.breakevenSlPrice.value;
      (s', Some(if o.price <= floorPrice
                then ExitDecision(true, BreakevenHit, 1.0, Some(floorPrice), FloorData(floorPrice))
                else ExitDecision(false, BreakevenSlRaise, 1.0, Some(floorPrice), FloorData(floorPrice))))
  }

  /** The lowest level index from `from` on that has not been executed. */
  function NextLevel(count: nat, executed: set<nat>, from: nat): (k: nat)
    requires from <= count
    ensures from <= k <= count
    ensures forall i :: from <= i < k ==> i in executed
    ensures k < count ==> k !in executed
    decreases count - from
  {
    if from < count && from in executed then NextLevel(count, executed, from + 1) else from
  }

  function CheckScaleOut(levels: seq<Level>, s: Position, ret: real): Outcome {
    var k := NextLevel(|levels|, s.scaleOutExecuted, 0);
    if k < |levels| && ret >= levels[k].trigger then
      (s.(scaleOutExecuted := s.scaleOutExecuted + {k}),
       Some(ExitDecision(true, ScaleOutHit, levels[k].portion, None, LevelData(k, levels[k].trigger, ret))))
    else (s, None)
  }

  function CheckTimeStop(mode: TimeStopMode, value: Option<int>, o: Observation): Option<ExitDecision> {
    match mode
    case Eod =>
      if CutoffReached(o.now) then Some(CloseAll(TimeStopHit, EodData(o.now))) else None
    case HoldDays =>
      if value.Some? && o.businessDays >= value.value && CutoffReached(o.now)
      then Some(CloseAll(TimeStopHit, HoldData(value.value, o.businessDays))) else None
  }

  function CheckOverextension(threshold: real, s: Position, o: Observation): Outcome {
    if !s.overextensionTriggered && o.rsi1m.Some? && o.rsi1m.value >= threshold then
      (s.(overextensionTriggered := true), Some(CloseAll(OverextensionHit, RsiData(o.rsi1m.value, threshold))))
    else (s, None)
  }

  function CheckProfitFloor(activatePct: real, floorPct: real, s: Position, ret: real): Outcome {
    if !s.profitFloorActive && s.peakReturnPct < activatePct then (s, None)
    else
      (s.(profitFloorActive := true),
       if ret < floorPct then Some(CloseAll(ProfitFloorHit, PeakData(s.peakReturnPct, ret, floorPct))) else None)
  }

  ghost function CheckDeathCrossExit(maShort: Period, maLong: Period, minLossPct: real,
                                     s: Position, o: Observation, ret: real): Outcome
  {
    if o.dailyCloses.None? || o.dailyCloses.value == [] then (s, None)
    else if s.deathCrossCheckedAt.Some? && DateOf(s.deathCrossCheckedAt.value) == DateOf(o.now) then (s, None)
    else if ret > -minLossPct then (s, None)
    else
      (s.(deathCrossCheckedAt := Some(o.now)),
       if DeathCross(o.dailyCloses.value, maShort, maLong)
       then Some(CloseAll(DeathCrossHit, CrossData(maShort, maLong, ret))) else None)
  }

  ghost function CheckRule(rule: ExitRule, s: Position, o: Observation, ret: real): (r: Outcome)
    requires s.Valid()
    ensures r.0.Valid()
  {
    match rule
    case FixedSl(pct) => (s, CheckFixedSl(pct, s, o, ret))
    case FixedTp(pct) => (s, if ret >= pct then Some(CloseAll(FixedTpHit, ReturnData(ret))) else None)
    case TrailingTp(activate, drop) => CheckTrailingTp(activate, drop, s, o, ret)
    case Breakeven(activate, floor) => CheckBreakeven(activate, floor, s, o, ret)
    case ScaleOut(levels) => CheckScaleOut(levels, s, ret)
    case TimeStop(mode, value) => (s, CheckTimeStop(mode, value, o))
    case OverextensionExit(threshold) => CheckOverextension(threshold, s, o)
    case ProfitFloor(activate, floor) => CheckProfitFloor(activate, floor, s, ret)
    case DeathCrossExit(short, long, minLoss) => CheckDeathCrossExit(short, long, minLoss, s, o, ret)
    case RecoveryExit(pct) =>
      (s, if ret >= pct then Some(CloseAll(RecoveryHit, StopData(pct, ret))) else None)
  }

  // ---------------------------------------------------------------- a whole rule array, a whole run

  /** First match: rules are looked at in order until one decides. */
  ghost function EvalRules(rules: seq<ExitRule>, s: Position, o: Observation, ret: real): (r: Outcome)
    requires s.Valid()
    ensures r.0.Valid()
  {
    if rules == [] then (s, None)
    else
      var (s1, d) := CheckRule(rules[0], s, o, ret);
      if d.Some? then (s1, d) else EvalRules(rules[1..], s1, o, ret)
  }

  ghost function Evaluate(rules: seq<ExitRule>, s: Position, o: Observation): (r: Outcome)
    requires s.Valid()
    ensures r.0.Valid()
  {
    EvalRules(rules, UpdateHigh(s, o.price), o, CurrentReturn(s, o.price))
  }

  /** Evaluations one after the other on the same state, with nothing done in between. */
  ghost function Run(rules: seq<ExitRule>, s: Position, obs: seq<Observation>):
      (r: (Position, seq<Option<ExitDecision>>))
    requires s.Valid()
    ensures r.0.Valid() && |r.1| == |obs|
    decreases |obs|
  {
    if obs == [] then (s, [])
    else
      var k := |obs| - 1;
      var (s1, ds) := Run(rules, s, obs[..k]);
      var (s2, d) := Evaluate(rules, s1, obs[k]);
      (s2, ds + [d])
  }
}
