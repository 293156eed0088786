/** The single-sheet backtest as functions on values: entry in two passes, then every daily bar as
    four ticks fed to the same exit rules as live trading. */
module Backtest {
  import opened Wrappers
  import opened ExitModel

  datatype DailyBar = DailyBar(priceDate: int, open: real, high: real, low: real, close: real, volume: int)

  datatype BacktestConfig = BacktestConfig(
    buyFeePct: real,
    sellFeePct: real,
    slippagePct: real,
    volumeBasedSlippage: bool,
    participationMultiplier: real,
    maxParticipation: real)

  datatype EntryCondition =
    | PriceBelow(value: real)
    | PriceAbove(value: real)
    | VolumeOverMa20(minRatio: real)
    | SpreadUnderBps(maxBps: real)
    | RsiUnder(threshold: real)
    | PriceAboveRecentHigh(lookback: int)

  datatype EntryTrigger = Market | Limit

  datatype Sheet = Sheet(
    sheetId: string,
    ticker: string,
    trigger: EntryTrigger,
    price: Option<real>,
    conditions: seq<EntryCondition>,
    rules: seq<ExitRule>)

  datatype Side = Buy | Sell

  datatype Trade = Trade(side: Side, qty: int, price: real, fee: real, ts: Time, reason: Reason, metadata: Metadata)

  datatype FailReason = NoBars | ConditionFailed | NoLimitPrice | LimitUnfilled | CapitalTooSmall

  datatype Result =
    | Unfilled(failure: FailReason)
    | ZeroDivision
    | Filled(trades: seq<Trade>, entryTs: Time, exitTs: Option<Time>, entryPrice: real, totalQty: int,
             grossPnl: real, fees: real, netPnl: real, pnlPct: real, exitReason: Option<Reason>)

  // ---------------------------------------------------------------- bars and ticks

  const OPEN_TIME: int := 9 * 3600
  const HIGH_TIME: int := 10 * 3600
  const LOW_TIME: int := 13 * 3600
  const CLOSE_TIME: int := 15 * 3600 + 30 * 60

  datatype DayTick = DayTick(price: real, ts: Time, isClose: bool)

  function At(date: int, timeOfDay: int): Time {
    date * SECONDS_PER_DAY + timeOfDay
  }

  function DayTicks(bar: DailyBar): (ticks: seq<DayTick>)
    ensures |ticks| == 4
  {
    [DayTick(bar.open, At(bar.priceDate, OPEN_TIME), false),
     DayTick(bar.high, At(bar.priceDate, HIGH_TIME), false),
     DayTick(bar.low, At(bar.priceDate, LOW_TIME), false),
     DayTick(bar.close, At(bar.priceDate, CLOSE_TIME), true)]
  }

  // ---------------------------------------------------------------- entry

  function VolumeSum(bars: seq<DailyBar>): int {
    if bars == [] then 0 else VolumeSum(bars[..|bars| - 1]) + bars[|bars| - 1].volume
  }

  /** One entry condition, approximated from the daily range; the ones a daily bar cannot answer pass. */
  predicate ConditionOk(cond: EntryCondition, bar: DailyBar, prior: seq<DailyBar>) {
    match cond
    case PriceBelow(value) => bar.low <= value
    case PriceAbove(value) => bar.high >= value
    case VolumeOverMa20(minRatio) =>
      if |prior| < 20 then true
      else
        var ma20 := VolumeSum(prior[|prior| - 20..]) as real / 20.0;
        ma20 <= 0.0 || bar.volume as real >= ma20 * minRatio
    case _ => true
  }

  predicate ConditionsOk(conditions: seq<EntryCondition>, bar: DailyBar, prior: seq<DailyBar>) {
    forall i :: 0 <= i < |conditions| ==> ConditionOk(conditions[i], bar, prior)
  }

  function EffectiveSlippagePct(cfg: BacktestConfig, qty: int, barVolume: int): real {
    if !cfg.volumeBasedSlippage || barVolume <= 0 || qty <= 0 then cfg.slippagePct
    else
      var participation := MinReal(qty as real / barVolume as real, cfg.maxParticipation);
      cfg.slippagePct + cfg.slippagePct * cfg.participationMultiplier * participation
  }

  datatype EntryTry = NoFill(failure: FailReason) | Fill(price: real, ts: Time, reason: Reason)

  function TryEntry(sheet: Sheet, bar: DailyBar, prior: seq<DailyBar>, cfg: BacktestConfig, qtyHint: int): EntryTry {
    var slip := EffectiveSlippagePct(cfg, qtyHint, bar.volume) / 100.0;
    var at := At(bar.priceDate, OPEN_TIME);
    if !ConditionsOk(sheet.conditions, bar, prior) then NoFill(ConditionFailed)
    else if sheet.trigger == Market then Fill(Raised(bar.open, slip), at, MarketEntry)
    else if sheet.price.None? then NoFill(NoLimitPrice)
    else if bar.low > sheet.price.value then NoFill(LimitUnfilled)
    else Fill(Raised(MinReal(sheet.price.value, bar.open), slip), at, LimitEntry)
  }

  function ExitFillPrice(price: real, cfg: BacktestConfig, qty: int, barVolume: int): real {
    Lowered(price, EffectiveSlippagePct(cfg, qty, barVolume) / 100.0)
  }

  /** How many shares the capital buys: floor of the quotient. */
  function Affordable(capital: real, price: real): int
    requires price != 0.0
  {
    (capital / price).Floor
  }

  datatype Opening = Failed(result: Result) | Opened(price: real, qty: int, ts: Time, reason: Reason)

  /** The two-pass entry: a first try with base slippage fixes a quantity, with which the fill price
      is computed again. */
  function Open(sheet: Sheet, bars: seq<DailyBar>, entryIndex: int, capital: real, cfg: BacktestConfig): Opening {
    if bars == [] || entryIndex >= |bars| || entryIndex < 0 then Failed(Unfilled(NoBars))
    else
      var prior, bar := bars[..entryIndex], bars[entryIndex];
      match TryEntry(sheet, bar, prior, cfg, 0)
      case NoFill(failure) => Failed(Unfilled(failure))
      case Fill(rawPrice, _, _) =>
        if rawPrice == 0.0 then Failed(ZeroDivision)
        else
          var qtyHint := Affordable(capital, rawPrice);
          if qtyHint <= 0 then Failed(Unfilled(CapitalTooSmall))
          else
            match TryEntry(sheet, bar, prior, cfg, qtyHint)
            case NoFill(failure) => Failed(Unfilled(failure))
            case Fill(price, ts, reason) =>
              if price == 0.0 then Failed(ZeroDivision)
              else if Affordable(capital, price) <= 0 then Failed(Unfilled(CapitalTooSmall))
              else Opened(price, Affordable(capital, price), ts, reason)
  }

  // ---------------------------------------------------------------- the simulation loop

  datatype Env = Env(sheet: Sheet, cfg: BacktestConfig, entryPrice: real, qty: int)

  /** The running books of a simulation. */
  datatype Account = Account(
    remaining: int,
    trades: seq<Trade>,
    grossPnl: real,
    fees: real,
    lastReason: Option<Reason>,
    exitTs: Option<Time>)

  datatype Sim = Sim(pos: Position, acct: Account, dailyCloses: seq<real>)

  /** Shares sold on a selling decision: a partial one takes its fraction of the original quantity. */
  function SellQuantity(original: int, remaining: int, portion: real): int {
    if portion >= 1.0 then remaining
    else MinInt(MaxInt(1, ShareOf(original, portion)), remaining)
  }

  /** Booking one sale. */
  function Book(env: Env, acct: Account, price: real, barVolume: int, sellQty: int, ts: Time, reason: Reason,
                metadata: Metadata): Account
  {
    var fill := ExitFillPrice(price, env.cfg, sellQty, barVolume);
    var fee := fill * sellQty as real * env.cfg.sellFeePct / 100.0;
    Account(acct.remaining - sellQty,
            acct.trades + [Trade(Sell, sellQty, fill, fee, ts, reason, metadata)],
            acct.grossPnl + (fill - env.entryPrice) * sellQty as real,
            acct.fees + fee,
            Some(reason),
            Some(ts))
  }

  function BookDecision(env: Env, acct: Account, d: ExitDecision, t: DayTick, barVolume: int): Account {
    Book(env, acct, t.price, barVolume, SellQuantity(env.qty, acct.remaining, d.portion), t.ts, d.reason, d.metadata)
  }

  function TickObservation(t: DayTick, bar: DailyBar, closes: seq<real>, i: int): Observation {
    Observation(t.price, None, t.ts, if t.isClose then Some(closes + [bar.close]) else None, i)
  }

  /** One tick of bar number i after the entry bar. */
  ghost function TickStep(env: Env, st: Sim, t: DayTick, bar: DailyBar, i: int): (r: Sim)
    requires st.pos.Valid()
    ensures r.pos.Valid()
  {
    if st.acct.remaining <= 0 then st
    else
      var (pos, d) := Evaluate(env.sheet.rules, st.pos, TickObservation(t, bar, st.dailyCloses, i));
      Sim(pos,
          if d.None? || !d.value.shouldClose then st.acct else BookDecision(env, st.acct, d.value, t, bar.volume),
          st.dailyCloses)
  }

  /** The first k ticks of a bar. */
  ghost function TickSteps(env: Env, st: Sim, bar: DailyBar, i: int, k: nat): (r: Sim)
    requires st.pos.Valid() && k <= 4
    ensures r.pos.Valid()
  {
    if k == 0 then st else TickStep(env, TickSteps(env, st, bar, i, k - 1), DayTicks(bar)[k - 1], bar, i)
  }

  ghost function BarStep(env: Env, st: Sim, bar: DailyBar, i: int): (r: Sim)
    requires st.pos.Valid()
    ensures r.pos.Valid()
  {
    if st.acct.remaining <= 0 then st
    else
      var r := TickSteps(env, st, bar, i, 4);
      r.(dailyCloses := r.dailyCloses + [bar.close])
  }

  /** State after the first n bars behind the entry bar. */
  ghost function AfterBars(env: Env, st: Sim, bars: seq<DailyBar>, entryIndex: nat, n: nat): (r: Sim)
    requires st.pos.Valid() && entryIndex + n < |bars|
    ensures r.pos.Valid()
    decreases n
  {
    if n == 0 then st else BarStep(env, AfterBars(env, st, bars, entryIndex, n - 1), bars[entryIndex + n], n)
  }

  /** A position that is fully sold stays as it is. */
  lemma {:induction false} StaysClosed(env: Env, start: Sim, bars: seq<DailyBar>, entryIndex: nat, n: nat, m: nat)
    requires start.pos.Valid() && n <= m && entryIndex + m < |bars|
    requires AfterBars(env, start, bars, entryIndex, n).acct.remaining <= 0
    ensures AfterBars(env, start, bars, entryIndex, m) == AfterBars(env, start, bars, entryIndex, n)
    decreases m
  {
    hide TickSteps;
    if n < m {
      StaysClosed(env, start, bars, entryIndex, n, m - 1);
    }
  }

  function Closes(bars: seq<DailyBar>): (closes: seq<real>)
    ensures |closes| == |bars|
  {
    seq(|bars|, k requires 0 <= k < |bars| => bars[k].close)
  }

  function Start(sheet: Sheet, bars: seq<DailyBar>, entryIndex: nat, cfg: BacktestConfig, price: real, qty: int,
                 ts: Time, reason: Reason): (st: Sim)
    requires entryIndex < |bars|
    ensures st.pos.Valid()
  {
    var fee := price * qty as real * cfg.buyFeePct / 100.0;
    Sim(NewPosition(sheet.sheetId, sheet.ticker, price, qty, ts, 0.0),
        Account(qty, [Trade(Buy, qty, price, fee, ts, reason, NoMetadata)], 0.0, fee, None, None),
        Closes(bars[..entryIndex + 1]))
  }

  /** What is still held after the last bar is sold at its close. */
  function CloseOut(env: Env, acct: Account, last: DailyBar): Account {
    if acct.remaining > 0 then
      Book(env, acct, last.close, last.volume, acct.remaining, At(last.priceDate, CLOSE_TIME), DataEnd, NoMetadata)
    else acct
  }

  function Report(env: Env, ts: Time, acct: Account): Result {
    var net := acct.grossPnl - acct.fees;
    var pct := if env.entryPrice > 0.0 && env.qty > 0 then net / (env.entryPrice * env.qty as real) * 100.0 else 0.0;
    Filled(acct.trades, ts, acct.exitTs, env.entryPrice, env.qty, acct.grossPnl, acct.fees, net, pct, acct.lastReason)
  }

  ghost function Simulate(sheet: Sheet, bars: seq<DailyBar>, entryIndex: int, capital: real, cfg: BacktestConfig)
    : Result {
    match Open(sheet, bars, entryIndex, capital, cfg)
    case Failed(result) => result
    case Opened(price, qty, ts, reason) =>
      var env := Env(sheet, cfg, price, qty);
      var st := Start(sheet, bars, entryIndex, cfg, price, qty, ts, reason);
      var held := AfterBars(env, st, bars, entryIndex, |bars| - 1 - entryIndex);
      Report(env, ts, CloseOut(env, held.acct, bars[|bars| - 1]))
  }
}
