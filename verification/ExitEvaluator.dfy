/** The exit evaluator as the program runs it: one mutable state object per position, updated in
    place by the rule checks. Each method is proved against its function in ExitModel. */
module ExitEvaluator {
  import opened Wrappers
  import opened Indicators
  import opened ExitModel

  class PositionState {
    const sheetId: string
    const ticker: string
    const entryPrice: real
    const enteredAt: Time
    var quantity: int
    var highWatermark: real
    var peakReturnPct: real
    var trailingActive: bool
    var profitFloorActive: bool
    var breakevenActive: bool
    var breakevenSlPrice: Option<real>
    var scaleOutExecuted: set<nat>
    var deathCrossCheckedAt: Option<Time>
    var overextensionTriggered: bool
    var exitFailCount: int

    /** The value this object holds. */
    function View(): Position
      reads this
    {
      Position(sheetId, ticker, entryPrice, quantity, enteredAt, highWatermark, peakReturnPct,
               trailingActive, profitFloorActive, breakevenActive, breakevenSlPrice,
               scaleOutExecuted, deathCrossCheckedAt, overextensionTriggered, exitFailCount)
    }

    constructor (sheetId: string, ticker: string, entryPrice: real, quantity: int, enteredAt: Time,
                 highWatermark: real)
      ensures View() == NewPosition(sheetId, ticker, entryPrice, quantity, enteredAt, highWatermark)
    {
      this.sheetId, this.ticker, this.entryPrice, this.enteredAt := sheetId, ticker, entryPrice, enteredAt;
      this.quantity, this.highWatermark, this.peakReturnPct := quantity, highWatermark, 0.0;
      trailingActive, profitFloorActive, breakevenActive := false, false, false;
      breakevenSlPrice, scaleOutExecuted, deathCrossCheckedAt := None, {}, None;
      overextensionTriggered, exitFailCount := false, 0;
    }

    method UpdateHigh(price: real)
      modifies this`highWatermark, this`peakReturnPct
      ensures View() == ExitModel.UpdateHigh(old(View()), price)
    {
      if price > highWatermark {
        highWatermark := price;
        if entryPrice > 0.0 {
          peakReturnPct := ReturnOn(entryPrice, price);
        }
      }
    }

    method CurrentReturnPct(price: real) returns (r: real)
      ensures r == CurrentReturn(View(), price)
    {
      if entryPrice <= 0.0 {
        return 0.0;
      }
      return ReturnOn(entryPrice, price);
    }
  }

  method CheckFixedSl(pct: real, state: PositionState, o: Observation, ret: real) returns (d: Option<ExitDecision>)
    ensures d == ExitModel.CheckFixedSl(pct, state.View(), o, ret)
  {
    var threshold := Lowered(state.entryPrice, pct);
    if state.breakevenSlPrice.Some? && state.breakevenSlPrice.value > threshold {
      threshold := state.breakevenSlPrice.value;
    }
    if o.price <= threshold {
      return Some(CloseAll(FixedSlHit, StopData(threshold, ret)));
    }
    return None;
  }

  method CheckTrailingTp(activatePct: real, dropPct: real, state: PositionState, o: Observation, ret: real)
    returns (d: Option<ExitDecision>)
    modifies state`trailingActive
    ensures (state.View(), d) == ExitModel.CheckTrailingTp(activatePct, dropPct, old(state.View()), o, ret)
  {
    if !state.trailingActive {
      if ret >= activatePct {
        state.trailingActive := true;
      } else {
        return None;
      }
    }
    var trailingStop := Lowered(state.highWatermark, dropPct);
    if o.price < trailingStop {
      return Some(CloseAll(TrailingTpHit, TrailingData(state.highWatermark, trailingStop)));
    }
    return None;
  }

  method CheckBreakeven(activatePct: real, floorPct: real, state: PositionState, o: Observation, ret: real)
    returns (d: Option<ExitDecision>)
    requires state.View().Valid()
    modifies state`breakevenActive, state`breakevenSlPrice
    ensures (state.View(), d) == ExitModel.CheckBreakeven(activatePct, floorPct, old(state.View()), o, ret)
  {
    if !state.breakevenActive {
      if ret >= activatePct {
        state.breakevenActive := true;
        state.breakevenSlPrice := Some(Raised(state.entryPrice, floorPct));
      } else {
        return None;
      }
    }
    var floorPrice := state.breakevenSlPrice.value;
    if o.price <= floorPrice {
      return Some(ExitDecision(true, BreakevenHit, 1.0, Some(floorPrice), FloorData(floorPrice)));
    }
    return Some(ExitDecision(false, BreakevenSlRaise, 1.0, Some(floorPrice), FloorData(floorPrice)));
  }

  method CheckScaleOut(levels: seq<Level>, state: PositionState, ret: real) returns (d: Option<ExitDecision>)
    modifies state`scaleOutExecuted
    ensures (state.View(), d) == ExitModel.CheckScaleOut(levels, old(state.View()), ret)
  {
    for idx := 0 to |levels|
      invariant state.View() == old(state.View())
      invariant NextLevel(|levels|, state.scaleOutExecuted, 0) == NextLevel(|levels|, state.scaleOutExecuted, idx)
    {
      if idx in state.scaleOutExecuted {
        continue;
      }
      if ret >= levels[idx].trigger {
        state.scaleOutExecuted := state.scaleOutExecuted + {idx};
        return Some(ExitDecision(true, ScaleOutHit, levels[idx].portion, None,
                                 LevelData(idx, levels[idx].trigger, ret)));
      }
      return None;
    }
    return None;
  }

  method CheckOverextension(threshold: real, state: PositionState, o: Observation) returns (d: Option<ExitDecision>)
    modifies state`overextensionTriggered
    ensures (state.View(), d) == ExitModel.CheckOverextension(threshold, old(state.View()), o)
  {
    if state.overextensionTriggered {
      return None;
    }
    if o.rsi1m.None? {
      return None;
    }
    if o.rsi1m.value >= threshold {
      state.overextensionTriggered := true;
      return Some(CloseAll(OverextensionHit, RsiData(o.rsi1m.value, threshold)));
    }
    return None;
  }

  method CheckProfitFloor(activatePct: real, floorPct: real, state: PositionState, ret: real)
    returns (d: Option<ExitDecision>)
    modifies state`profitFloorActive
    ensures (state.View(), d) == ExitModel.CheckProfitFloor(activatePct, floorPct, old(state.View()), ret)
  {
    if !state.profitFloorActive {
      if state.peakReturnPct >= activatePct {
        state.profitFloorActive := true;
      } else {
        return None;
      }
    }
    if ret < floorPct {
      return Some(CloseAll(ProfitFloorHit, PeakData(state.peakReturnPct, ret, floorPct)));
    }
    return None;
  }

  method CheckDeathCrossExit(maShort: Period, maLong: Period, minLossPct: real, state: PositionState,
                             o: Observation, ret: real)
    returns (d: Option<ExitDecision>)
    modifies state`deathCrossCheckedAt
    ensures (state.View(), d)
         == ExitModel.CheckDeathCrossExit(maShort, maLong, minLossPct, old(state.View()), o, ret)
  {
    if o.dailyCloses.None? || o.dailyCloses.value == [] {
      return None;
    }
    if state.deathCrossCheckedAt.Some? && DateOf(state.deathCrossCheckedAt.value) == DateOf(o.now) {
      return None;
    }
    var lossOk := ret <= -minLossPct;
    if !lossOk {
      return None;
    }
    var crossed := CheckDeathCross(o.dailyCloses.value, maShort, maLong);
    state.deathCrossCheckedAt := Some(o.now);
    if crossed {
      return Some(CloseAll(DeathCrossHit, CrossData(maShort, maLong, ret)));
    }
    return None;
  }

  /** Dispatch on the rule type. */
  method EvaluateRule(rule: ExitRule, state: PositionState, o: Observation, ret: real)
    returns (d: Option<ExitDecision>)
    requires state.View().Valid()
    modifies state
    ensures (state.View(), d) == CheckRule(rule, old(state.View()), o, ret)
  {
    match rule
    case FixedSl(pct) => d := CheckFixedSl(pct, state, o, ret);
    case FixedTp(pct) => d := if ret >= pct then Some(CloseAll(FixedTpHit, ReturnData(ret))) else None;
    case TrailingTp(activate, drop) => d := CheckTrailingTp(activate, drop, state, o, ret);
    case Breakeven(activate, floor) => d := CheckBreakeven(activate, floor, state, o, ret);
    case ScaleOut(levels) => d := CheckScaleOut(levels, state, ret);
    case TimeStop(mode, value) => d := CheckTimeStop(mode, value, o);
    case OverextensionExit(threshold) => d := CheckOverextension(threshold, state, o);
    case ProfitFloor(activate, floor) => d := CheckProfitFloor(activate, floor, state, ret);
    case DeathCrossExit(short, long, minLoss) => d := CheckDeathCrossExit(short, long, minLoss, state, o, ret);
    case RecoveryExit(pct) => d := if ret >= pct then Some(CloseAll(RecoveryHit, StopData(pct, ret))) else None;
  }

  /** One evaluation of a sheet's rules on a tick. */
  method Evaluate(rules: seq<ExitRule>, state: PositionState, o: Observation) returns (d: Option<ExitDecision>)
    requires state.View().Valid()
    modifies state
    ensures (state.View(), d) == ExitModel.Evaluate(rules, old(state.View()), o)
    ensures state.View().Valid()
  {
    state.UpdateHigh(o.price);
    var ret := state.CurrentReturnPct(o.price);
    ghost var u := state.View();
    for i := 0 to |rules|
      invariant state.View().Valid()
      invariant EvalRules(rules, u, o, ret) == EvalRules(rules[i..], state.View(), o, ret)
    {
      assert rules[i..][1..] == rules[i + 1..];
      var decision := EvaluateRule(rules[i], state, o, ret);
      if decision.Some? {
        return decision;
      }
    }
    return None;
  }
}
