/** The simulation as the program runs it, proved against Backtest.Simulate. */
module BacktestRunner {
  import opened Wrappers
  import opened ExitModel
  import opened Backtest
  import ExitEvaluator

  method EntryConditionsOk(conditions: seq<EntryCondition>, bar: DailyBar, prior: seq<DailyBar>) returns (ok: bool)
    ensures ok == ConditionsOk(conditions, bar, prior)
  {
    for i := 0 to |conditions|
      invariant forall k :: 0 <= k < i ==> ConditionOk(conditions[k], bar, prior)
    {
      if !ConditionOk(conditions[i], bar, prior) {
        return false;
      }
    }
    return true;
  }

  /** One attempt to enter on a bar. */
  method AttemptEntry(sheet: Sheet, bar: DailyBar, prior: seq<DailyBar>, cfg: BacktestConfig, qtyHint: int)
    returns (r: EntryTry)
    ensures r == TryEntry(sheet, bar, prior, cfg, qtyHint)
  {
    hide EffectiveSlippagePct, ConditionsOk;
    var ok := EntryConditionsOk(sheet.conditions, bar, prior);
    if !ok {
      return NoFill(ConditionFailed);
    }
    var slip := EffectiveSlippagePct(cfg, qtyHint, bar.volume) / 100.0;
    var at := At(bar.priceDate, OPEN_TIME);
    if sheet.trigger == Market {
      return Fill(Raised(bar.open, slip), at, MarketEntry);
    }
    if sheet.price.None? {
      return NoFill(NoLimitPrice);
    }
    var limit := sheet.price.value;
    if bar.low > limit {
      return NoFill(LimitUnfilled);
    }
    return Fill(Raised(MinReal(limit, bar.open), slip), at, LimitEntry);
  }

  /** Both passes of the entry. */
  method OpenPosition(sheet: Sheet, bars: seq<DailyBar>, entryIndex: int, capital: real, cfg: BacktestConfig)
    returns (r: Opening)
    ensures r == Open(sheet, bars, entryIndex, capital, cfg)
  {
    hide TryEntry, Affordable;
    if bars == [] || entryIndex >= |bars| || entryIndex < 0 {
      return Failed(Unfilled(NoBars));
    }
    var prior, bar := bars[..entryIndex], bars[entryIndex];
    var first := AttemptEntry(sheet, bar, prior, cfg, 0);
    if first.NoFill? {
      return Failed(Unfilled(first.failure));
    }
    if first.price == 0.0 {
      return Failed(ZeroDivision);
    }
    var qtyHint := Affordable(capital, first.price);
    if qtyHint <= 0 {
      return Failed(Unfilled(CapitalTooSmall));
    }
    var second := AttemptEntry(sheet, bar, prior, cfg, qtyHint);
    if second.NoFill? {
      return Failed(Unfilled(second.failure));
    }
    if second.price == 0.0 {
      return Failed(ZeroDivision);
    }
    var qty := Affordable(capital, second.price);
    if qty <= 0 {
      return Failed(Unfilled(CapitalTooSmall));
    }
    return Opened(second.price, qty, second.ts, second.reason);
  }

  /** The four ticks of one bar. */
  method RunDay(env: Env, state: ExitEvaluator.PositionState, acct: Account, dailyCloses: seq<real>, bar: DailyBar,
                i: int)
    returns (r: Account)
    requires state.View().Valid()
    modifies state
    ensures state.View().Valid()
    ensures Sim(state.View(), r, dailyCloses) == TickSteps(env, Sim(old(state.View()), acct, dailyCloses), bar, i, 4)
  {
    hide ExitModel.Evaluate, Book, DayTicks;
    r := acct;
    var ticks := DayTicks(bar);
    ghost var before := Sim(state.View(), acct, dailyCloses);
    for k := 0 to 4
      invariant state.View().Valid()
      invariant Sim(state.View(), r, dailyCloses) == TickSteps(env, before, bar, i, k)
    {
      var t := ticks[k];
      if r.remaining <= 0 {
        continue;
      }
      var decision := ExitEvaluator.Evaluate(env.sheet.rules, state, TickObservation(t, bar, dailyCloses, i));
      if decision.None? || !decision.value.shouldClose {
        continue;
      }
      var d := decision.value;
      var sellQty := SellQuantity(env.qty, r.remaining, d.portion);
      r := Book(env, r, t.price, bar.volume, sellQty, t.ts, d.reason, d.metadata);
    }
  }

  /** The bars behind the entry bar, tick by tick; what is left at the end is closed out. */
  method HoldAndSell(env: Env, state: ExitEvaluator.PositionState, opening: Account, bootstrap: seq<real>,
                     bars: seq<DailyBar>,
                     entryIndex: nat)
    returns (acct: Account)
    requires entryIndex < |bars| && state.View().Valid()
    modifies state
    ensures var start := Sim(old(state.View()), opening, bootstrap);
            acct == CloseOut(env, AfterBars(env, start, bars, entryIndex, |bars| - 1 - entryIndex).acct,
                             bars[|bars| - 1])
  {
    hide TickSteps, Book;
    acct := opening;
    var dailyCloses := bootstrap;
    ghost var start := Sim(state.View(), opening, bootstrap);
    ghost var total := |bars| - 1 - entryIndex;
    var i := 0;
    while i < |bars| - 1 - entryIndex
      invariant 0 <= i <= total
      invariant state.View().Valid()
      invariant Sim(state.View(), acct, dailyCloses) == AfterBars(env, start, bars, entryIndex, i)
    {
      if acct.remaining <= 0 {
        StaysClosed(env, start, bars, entryIndex, i, total);
        break;
      }
      i := i + 1;
      var bar := bars[entryIndex + i];
      acct := RunDay(env, state, acct, dailyCloses, bar, i);
      dailyCloses := dailyCloses + [bar.close];
    }
    acct := CloseOut(env, acct, bars[|bars| - 1]);
  }

  method SimulateSheet(sheet: Sheet, bars: seq<DailyBar>, entryIndex: int, capital: real, cfg: BacktestConfig)
    returns (result: Result)
    ensures result == Simulate(sheet, bars, entryIndex, capital, cfg)
  {
    var opening := OpenPosition(sheet, bars, entryIndex, capital, cfg);
    hide Open;
    match opening
    case Failed(r) => return r;
    case Opened(price, qty, ts, reason) =>
      OpenedInRange(sheet, bars, entryIndex, capital, cfg);
      var env := Env(sheet, cfg, price, qty);
      var start := Start(sheet, bars, entryIndex, cfg, price, qty, ts, reason);
      var state := new ExitEvaluator.PositionState(sheet.sheetId, sheet.ticker, price, qty, ts, 0.0);
      var acct := HoldAndSell(env, state, start.acct, start.dailyCloses, bars, entryIndex);
      return Report(env, ts, acct);
  }

  lemma OpenedInRange(sheet: Sheet, bars: seq<DailyBar>, entryIndex: int, capital: real, cfg: BacktestConfig)
    requires Open(sheet, bars, entryIndex, capital, cfg).Opened?
    ensures 0 <= entryIndex < |bars|
  {
    hide TryEntry, Affordable;
  }
}
