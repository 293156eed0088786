/** What a simulation trades, at which moments, prices and fees, said of bars and settings alone. */
module BacktestFills {
  import opened Wrappers
  import opened ExitModel
  import opened Backtest
  import BacktestProperties

  // ---------------------------------------------------------------- prices

  /** The part of the day's volume that an order takes, cut at a maximum. */
  predicate IsParticipation(part: real, qty: int, volume: int, max: real) {
    && part <= max && part * volume as real <= qty as real
    && (part == max || part * volume as real == qty as real)
  }

  /** Slippage in per cent: the base; with volume slippage, raised in proportion to the participation. */
  ghost predicate IsSlippage(pct: real, cfg: BacktestConfig, qty: int, volume: int) {
    if !cfg.volumeBasedSlippage || volume <= 0 || qty <= 0 then pct == cfg.slippagePct
    else exists part ::
      && IsParticipation(part, qty, volume, cfg.maxParticipation)
      && pct == cfg.slippagePct * (1.0 + cfg.participationMultiplier * part)
  }

  lemma SlippageIs(cfg: BacktestConfig, qty: int, volume: int)
    ensures IsSlippage(EffectiveSlippagePct(cfg, qty, volume), cfg, qty, volume)
  {
    if cfg.volumeBasedSlippage && volume > 0 && qty > 0 {
      var share := qty as real / volume as real;
      var part := MinReal(share, cfg.maxParticipation);
      Participates(qty, volume, cfg.maxParticipation, share, part);
      Factored(cfg.slippagePct, cfg.participationMultiplier, part);
    }
  }

  lemma Participates(qty: int, volume: int, max: real, share: real, part: real)
    requires volume > 0 && share == qty as real / volume as real && part == MinReal(share, max)
    ensures IsParticipation(part, qty, volume, max)
  {
    var v := volume as real;
    assert share * v == qty as real;
    Distributed(v, share, part);
    ProductNotNegative(v, share - part);
  }

  lemma Factored(base: real, multiplier: real, part: real)
    ensures base + base * multiplier * part == base * (1.0 + multiplier * part)
  {
    Reassociated(base, multiplier, part);
    Distributed(base, 1.0, multiplier * part);
  }

  /** For settings that are not negative the slippage lies between the base and its highest raise; it is the base
      itself without volume slippage. */
  lemma SlippageBand(pct: real, cfg: BacktestConfig, qty: int, volume: int)
    requires IsSlippage(pct, cfg, qty, volume)
    requires cfg.slippagePct >= 0.0 && cfg.participationMultiplier >= 0.0 && cfg.maxParticipation >= 0.0
    ensures cfg.slippagePct <= pct <= cfg.slippagePct * (1.0 + cfg.participationMultiplier * cfg.maxParticipation)
    ensures !cfg.volumeBasedSlippage ==> pct == cfg.slippagePct
  {
    var base, multiplier, max := cfg.slippagePct, cfg.participationMultiplier, cfg.maxParticipation;
    RaisedWithin(base, multiplier, max, max);
    if cfg.volumeBasedSlippage && volume > 0 && qty > 0 {
      var part :| IsParticipation(part, qty, volume, max) && pct == base * (1.0 + multiplier * part);
      PartNotNegative(part, qty, volume, max);
      hide IsParticipation;
      RaisedWithin(base, multiplier, part, max);
    }
  }

  lemma PartNotNegative(part: real, qty: int, volume: int, max: real)
    requires IsParticipation(part, qty, volume, max) && qty > 0 && volume > 0 && max >= 0.0
    ensures 0.0 <= part <= max
  {
    if part < 0.0 {
      SignOfProduct(part, volume as real);
    }
  }

  lemma RaisedWithin(base: real, multiplier: real, part: real, max: real)
    requires base >= 0.0 && multiplier >= 0.0 && 0.0 <= part <= max
    ensures base <= base * (1.0 + multiplier * part) <= base * (1.0 + multiplier * max)
  {
    ProductNotNegative(multiplier, part);
    ProductNotNegative(multiplier, max - part);
    Distributed(multiplier, max, part);
    var a, b := multiplier * part, multiplier * max;
    Distributed(base, 1.0, a);
    Distributed(base, 1.0, b);
    Distributed(base, b, a);
    ProductNotNegative(base, a);
    ProductNotNegative(base, b - a);
  }

  /** The four moments of a bar, and what is quoted then: the open at nine, the high at ten, the low at one in the
      afternoon and the close at half past three. */
  predicate Quoted(bar: DailyBar, price: real, ts: Time) {
    var midnight := bar.priceDate * 86400;
    || (ts == midnight + 9 * 3600 && price == bar.open)
    || (ts == midnight + 10 * 3600 && price == bar.high)
    || (ts == midnight + 13 * 3600 && price == bar.low)
    || (ts == midnight + 15 * 3600 + 30 * 60 && price == bar.close)
  }

  /** A sale at one of the four moments, below the price quoted by the slippage, with the seller's fee. */
  ghost predicate IsSale(t: Trade, bar: DailyBar, cfg: BacktestConfig) {
    && t.side == Sell
    && (exists quoted, pct ::
          && Quoted(bar, quoted, t.ts) && IsSlippage(pct, cfg, t.qty, bar.volume)
          && t.price == quoted * (1.0 - pct / 100.0))
    && t.fee == t.price * t.qty as real * cfg.sellFeePct / 100.0
  }

  /** A sale of one bar is a sale of some bar behind the entry bar. */
  ghost predicate IsLaterSale(t: Trade, bars: seq<DailyBar>, entryIndex: nat, cfg: BacktestConfig) {
    exists n: nat :: entryIndex < n < |bars| && IsSale(t, bars[n], cfg)
  }

  lemma BookedSale(env: Env, acct: Account, quoted: real, bar: DailyBar, sellQty: int, ts: Time, reason: Reason,
                   metadata: Metadata)
    requires Quoted(bar, quoted, ts)
    ensures var after := Book(env, acct, quoted, bar.volume, sellQty, ts, reason, metadata);
            && |after.trades| == |acct.trades| + 1 && after.trades[..|acct.trades|] == acct.trades
            && var t := after.trades[|acct.trades|];
               && IsSale(t, bar, env.cfg) && t.qty == sellQty && t.ts == ts
               && t.reason == reason && t.metadata == metadata
  {
    hide EffectiveSlippagePct, Quoted, IsSlippage;
    SlippageIs(env.cfg, sellQty, bar.volume);
    var pct := EffectiveSlippagePct(env.cfg, sellQty, bar.volume);
    assert ExitFillPrice(quoted, env.cfg, sellQty, bar.volume) == quoted * (1.0 - pct / 100.0);
  }

  // ---------------------------------------------------------------- one tick

  /** How many shares a decision sells: everything for a whole portion, otherwise the whole shares of the portion of
      the bought quantity. */
  predicate IsSaleSize(q: int, bought: int, remaining: int, portion: real) {
    if portion >= 1.0 then q == remaining else IsWholePart(q, bought as real * portion, remaining)
  }

  lemma SellQuantityIs(bought: int, remaining: int, portion: real)
    requires remaining >= 1
    ensures IsSaleSize(SellQuantity(bought, remaining, portion), bought, remaining, portion)
  {
    var x := FractionOf(bought, portion);
    assert ShareOf(bought, portion) == Trunc(x);
    assert x == bought as real * portion;
    hide ShareOf, FractionOf;
    WholePart(x, remaining);
  }

  /** One tick books one sale exactly when shares are left and the evaluation of the tick decides to sell; the
      sale is that decision's. Otherwise the books stay as they are. */
  lemma TickTrade(env: Env, st: Sim, bar: DailyBar, i: int, k: nat)
    requires st.pos.Valid() && k < 4
    ensures var tick := DayTicks(bar)[k];
            var after := TickStep(env, st, tick, bar, i);
            var (pos, d) := Evaluate(env.sheet.rules, st.pos, TickObservation(tick, bar, st.dailyCloses, i));
            if st.acct.remaining > 0 && d.Some? && d.value.shouldClose then
              && |after.acct.trades| == |st.acct.trades| + 1 && after.acct.trades[..|st.acct.trades|] == st.acct.trades
              && var t := after.acct.trades[|st.acct.trades|];
                 && IsSale(t, bar, env.cfg) && t.ts == tick.ts && t.reason == d.value.reason
                 && t.metadata == d.value.metadata
                 && IsSaleSize(t.qty, env.qty, st.acct.remaining, d.value.portion)
                 && after.acct.remaining == st.acct.remaining - t.qty
            else after.acct == st.acct
  {
    hide Evaluate, SellQuantity, IsSaleSize, IsSale;
    TickQuoted(bar, k);
    var tick := DayTicks(bar)[k];
    var d := Evaluate(env.sheet.rules, st.pos, TickObservation(tick, bar, st.dailyCloses, i)).1;
    if st.acct.remaining > 0 && d.Some? && d.value.shouldClose {
      var q := SellQuantity(env.qty, st.acct.remaining, d.value.portion);
      SellQuantityIs(env.qty, st.acct.remaining, d.value.portion);
      BookedSale(env, st.acct, tick.price, bar, q, tick.ts, d.value.reason, d.value.metadata);
      BacktestProperties.RemainingAfterBook(env, st.acct, tick.price, bar.volume, q, tick.ts, d.value.reason,
                                            d.value.metadata);
      hide Book;
    }
  }

  lemma TickQuoted(bar: DailyBar, k: nat)
    requires k < 4
    ensures Quoted(bar, DayTicks(bar)[k].price, DayTicks(bar)[k].ts)
    ensures DayTicks(bar)[k].ts == bar.priceDate * 86400 + [9 * 3600, 10 * 3600, 13 * 3600, 15 * 3600 + 30 * 60][k]
  {
  }

  /** The simulation starts with a position as bought: at the fill price, with all shares, nothing latched. */
  lemma StartMeaning(sheet: Sheet, bars: seq<DailyBar>, entryIndex: nat, cfg: BacktestConfig, price: real, qty: int,
                     ts: Time, reason: Reason)
    requires entryIndex < |bars|
    ensures var st := Start(sheet, bars, entryIndex, cfg, price, qty, ts, reason);
            && st.pos == NewPosition(sheet.sheetId, sheet.ticker, price, qty, ts, 0.0)
            && st.acct.remaining == qty && |st.acct.trades| == 1
            && st.acct.trades[0] == BuyTrade(Env(sheet, cfg, price, qty), ts, reason)
            && HasCloses(st.dailyCloses, bars, entryIndex + 1)
  {
  }

  /** The closes of the first n bars. */
  predicate HasCloses(closes: seq<real>, bars: seq<DailyBar>, n: nat) {
    n <= |bars| && |closes| == n && forall k :: 0 <= k < n ==> closes[k] == bars[k].close
  }

  lemma {:induction false} ClosesSoFar(env: Env, st: Sim, bars: seq<DailyBar>, entryIndex: nat, n: nat)
    requires st.pos.Valid() && entryIndex + n < |bars| && HasCloses(st.dailyCloses, bars, entryIndex + 1)
    requires AfterBars(env, st, bars, entryIndex, n).acct.remaining > 0 || n == 0
    ensures HasCloses(AfterBars(env, st, bars, entryIndex, n).dailyCloses, bars, entryIndex + 1 + n)
    decreases n
  {
    hide TickStep;
    if n > 0 {
      var before := AfterBars(env, st, bars, entryIndex, n - 1);
      if before.acct.remaining > 0 {
        ClosesSoFar(env, st, bars, entryIndex, n - 1);
        TicksKeepCloses(env, before, bars[entryIndex + n], n, 4);
      }
    }
  }

  lemma {:induction false} TicksKeepCloses(env: Env, st: Sim, bar: DailyBar, i: int, k: nat)
    requires st.pos.Valid() && k <= 4
    ensures TickSteps(env, st, bar, i, k).dailyCloses == st.dailyCloses
  {
    if k > 0 {
      TicksKeepCloses(env, st, bar, i, k - 1);
      hide Evaluate, BookDecision;
    }
  }

  /** What the evaluation of tick k of bar n behind the entry sees, while shares are held: the price and time of that
      moment, no intraday RSI, n days held; and, at the close only, the daily closes up to and including its own. */
  lemma TickSees(env: Env, st: Sim, bars: seq<DailyBar>, entryIndex: nat, n: nat, k: nat)
    requires st.pos.Valid() && 0 < n && entryIndex + n < |bars| && k < 4
    requires HasCloses(st.dailyCloses, bars, entryIndex + 1)
    requires AfterBars(env, st, bars, entryIndex, n - 1).acct.remaining > 0
    ensures var before, bar := AfterBars(env, st, bars, entryIndex, n - 1), bars[entryIndex + n];
            var o := TickObservation(DayTicks(bar)[k], bar, TickSteps(env, before, bar, n, k).dailyCloses, n);
            && Quoted(bar, o.price, o.now) && o.rsi1m == None && o.businessDays == n
            && o.now == bar.priceDate * 86400 + [9 * 3600, 10 * 3600, 13 * 3600, 15 * 3600 + 30 * 60][k]
            && (o.dailyCloses.Some? <==> k == 3)
            && (o.dailyCloses.Some? ==> HasCloses(o.dailyCloses.value, bars, entryIndex + n + 1))
  {
    hide AfterBars, TickSteps;
    ClosesSoFar(env, st, bars, entryIndex, n - 1);
    TicksKeepCloses(env, AfterBars(env, st, bars, entryIndex, n - 1), bars[entryIndex + n], n, k);
    TickQuoted(bars[entryIndex + n], k);
  }

  /** Within a day nothing depends on what comes later: the first tick sees the open, the second also the high, the
      third also the low, and only the last one the close, in the price or in the daily closes. */
  lemma TicksSeeNoMore(env: Env, st: Sim, bar: DailyBar, other: DailyBar, i: int)
    requires st.pos.Valid() && other.priceDate == bar.priceDate && other.volume == bar.volume && other.open == bar.open
    ensures TickSteps(env, st, other, i, 1) == TickSteps(env, st, bar, i, 1)
    ensures other.high == bar.high ==> TickSteps(env, st, other, i, 2) == TickSteps(env, st, bar, i, 2)
    ensures other.high == bar.high && other.low == bar.low ==>
              TickSteps(env, st, other, i, 3) == TickSteps(env, st, bar, i, 3)
  {
    hide TickStep;
    TickSeesNoMore(env, st, bar, other, i, 0);
    assert TickSteps(env, st, other, i, 0) == st == TickSteps(env, st, bar, i, 0);
    if other.high == bar.high {
      TickSeesNoMore(env, TickSteps(env, st, bar, i, 1), bar, other, i, 1);
      if other.low == bar.low {
        TickSeesNoMore(env, TickSteps(env, st, bar, i, 2), bar, other, i, 2);
      }
    }
  }

  lemma TickSeesNoMore(env: Env, st: Sim, bar: DailyBar, other: DailyBar, i: int, k: nat)
    requires st.pos.Valid() && k < 3 && other.volume == bar.volume
    requires DayTicks(other)[k] == DayTicks(bar)[k]
    ensures TickStep(env, st, DayTicks(other)[k], other, i) == TickStep(env, st, DayTicks(bar)[k], bar, i)
  {
    hide Evaluate, Book;
  }

  // ---------------------------------------------------------------- all sales

  ghost predicate SalesFrom(before: seq<Trade>, after: seq<Trade>, bar: DailyBar, cfg: BacktestConfig) {
    before <= after && forall k :: |before| <= k < |after| ==> IsSale(after[k], bar, cfg)
  }

  lemma {:induction false} TicksSell(env: Env, st: Sim, bar: DailyBar, i: int, k: nat)
    requires st.pos.Valid() && k <= 4
    ensures SalesFrom(st.acct.trades, TickSteps(env, st, bar, i, k).acct.trades, bar, env.cfg)
  {
    hide TickStep, IsSale;
    if k > 0 {
      TicksSell(env, st, bar, i, k - 1);
      TickTrade(env, TickSteps(env, st, bar, i, k - 1), bar, i, k - 1);
    }
  }

  ghost predicate LaterSales(before: seq<Trade>, after: seq<Trade>, bars: seq<DailyBar>, entryIndex: nat,
                             cfg: BacktestConfig) {
    before <= after && forall k :: |before| <= k < |after| ==> IsLaterSale(after[k], bars, entryIndex, cfg)
  }

  lemma {:induction false} BarsSell(env: Env, st: Sim, bars: seq<DailyBar>, entryIndex: nat, n: nat)
    requires st.pos.Valid() && entryIndex + n < |bars|
    ensures LaterSales(st.acct.trades, AfterBars(env, st, bars, entryIndex, n).acct.trades, bars, entryIndex, env.cfg)
    decreases n
  {
    hide TickSteps, IsSale;
    if n > 0 {
      BarsSell(env, st, bars, entryIndex, n - 1);
      TicksSell(env, AfterBars(env, st, bars, entryIndex, n - 1), bars[entryIndex + n], n, 4);
    }
  }

  /** The entry: on the entry bar, at its open time; a market order at the open, a limit order at the limit or at
      the open, whichever is lower, and only if the low reaches the limit; above that by the slippage of the
      quantity that the capital would buy with base slippage; with the buyer's fee. */
  ghost predicate IsEntry(t: Trade, sheet: Sheet, bars: seq<DailyBar>, entryIndex: nat, capital: real,
                          cfg: BacktestConfig)
  {
    && entryIndex < |bars|
    && t.side == Buy && t.ts == bars[entryIndex].priceDate * 86400 + 9 * 3600
    && t.reason == (if sheet.trigger == Market then MarketEntry else LimitEntry)
    && (exists quoted, pct, estimate ::
          && IsEntryQuote(quoted, sheet, bars[entryIndex]) && IsSlippage(pct, cfg, estimate, bars[entryIndex].volume)
          && IsEstimate(estimate, capital, Raised(quoted, cfg.slippagePct / 100.0))
          && t.price == Raised(quoted, pct / 100.0))
    && t.fee == t.price * t.qty as real * cfg.buyFeePct / 100.0
  }

  predicate IsEntryQuote(quoted: real, sheet: Sheet, bar: DailyBar) {
    if sheet.trigger == Market then quoted == bar.open
    else
      && sheet.price.Some? && bar.low <= sheet.price.value
      && quoted <= sheet.price.value && quoted <= bar.open && (quoted == sheet.price.value || quoted == bar.open)
  }

  /** As many shares as the capital buys. */
  predicate IsEstimate(qty: int, capital: real, price: real) {
    qty >= 1 && (price > 0.0 ==> price * qty as real <= capital < price * (qty + 1) as real)
  }

  lemma TryEntryIs(sheet: Sheet, bar: DailyBar, prior: seq<DailyBar>, cfg: BacktestConfig, qtyHint: int)
    returns (quoted: real)
    requires TryEntry(sheet, bar, prior, cfg, qtyHint).Fill?
    ensures IsEntryQuote(quoted, sheet, bar)
    ensures var fill := TryEntry(sheet, bar, prior, cfg, qtyHint);
            && fill.price == Raised(quoted, EffectiveSlippagePct(cfg, qtyHint, bar.volume) / 100.0)
            && fill.ts == bar.priceDate * 86400 + 9 * 3600
            && fill.reason == (if sheet.trigger == Market then MarketEntry else LimitEntry)
    ensures quoted == if sheet.trigger == Market then bar.open else MinReal(sheet.price.value, bar.open)
  {
    hide EffectiveSlippagePct, Raised;
    quoted := if sheet.trigger == Market then bar.open else MinReal(sheet.price.value, bar.open);
  }

  function BuyTrade(env: Env, ts: Time, reason: Reason): Trade {
    Trade(Buy, env.qty, env.entryPrice, env.entryPrice * env.qty as real * env.cfg.buyFeePct / 100.0, ts, reason,
          NoMetadata)
  }

  lemma OpenedIs(sheet: Sheet, bars: seq<DailyBar>, entryIndex: int, capital: real, cfg: BacktestConfig)
    requires Open(sheet, bars, entryIndex, capital, cfg).Opened?
    ensures 0 <= entryIndex < |bars|
    ensures var o := Open(sheet, bars, entryIndex, capital, cfg);
            IsEntry(BuyTrade(Env(sheet, cfg, o.price, o.qty), o.ts, o.reason), sheet, bars, entryIndex, capital, cfg)
  {
    hide EffectiveSlippagePct, TryEntry, IsSlippage, IsEntryQuote, Raised, Affordable, IsEstimate;
    var bar, prior := bars[entryIndex], bars[..entryIndex];
    var raw := TryEntry(sheet, bar, prior, cfg, 0).price;
    var estimate := Affordable(capital, raw);
    var quoted := TryEntryIs(sheet, bar, prior, cfg, 0);
    var quoted' := TryEntryIs(sheet, bar, prior, cfg, estimate);
    BaseSlippage(cfg, bar.volume);
    SlippageIs(cfg, estimate, bar.volume);
    EstimateIs(capital, raw);
    var o := Open(sheet, bars, entryIndex, capital, cfg);
    assert o.price == Raised(quoted, EffectiveSlippagePct(cfg, estimate, bar.volume) / 100.0);
    assert IsEstimate(estimate, capital, Raised(quoted, cfg.slippagePct / 100.0));
  }

  lemma EstimateIs(capital: real, price: real)
    requires price != 0.0 && Affordable(capital, price) >= 1
    ensures IsEstimate(Affordable(capital, price), capital, price)
  {
    if price > 0.0 {
      BacktestProperties.AffordableBounds(capital, price);
    }
  }

  lemma BaseSlippage(cfg: BacktestConfig, volume: int)
    ensures EffectiveSlippagePct(cfg, 0, volume) == cfg.slippagePct
  {
  }

  /** Everything a filled simulation trades: the entry first; then sales of later bars, each at one of their four
      moments; last, if anything is left, a sale at the last close, marked as forced. */
  lemma SimulationTrades(sheet: Sheet, bars: seq<DailyBar>, entryIndex: int, capital: real, cfg: BacktestConfig)
    requires Simulate(sheet, bars, entryIndex, capital, cfg).Filled?
    ensures var r := Simulate(sheet, bars, entryIndex, capital, cfg);
            && 0 <= entryIndex < |bars| && |r.trades| >= 1
            && IsEntry(r.trades[0], sheet, bars, entryIndex, capital, cfg)
            && (forall k :: 1 <= k < |r.trades| ==>
                  || IsLaterSale(r.trades[k], bars, entryIndex, cfg)
                  || (k == |r.trades| - 1 && IsForcedSale(r.trades[k], bars[|bars| - 1], cfg)))
  {
    hide *;
    FilledIsReported(sheet, bars, entryIndex, capital, cfg);
    OpenedIs(sheet, bars, entryIndex, capital, cfg);
    var o := Open(sheet, bars, entryIndex, capital, cfg);
    var env := Env(sheet, cfg, o.price, o.qty);
    AllSales(env, bars, entryIndex, o.ts, o.reason);
    ReportedTrades(env, o.ts, FinalBooks(env, bars, entryIndex, o.ts, o.reason));
  }

  /** The sale of what is left at the last close. */
  ghost predicate IsForcedSale(t: Trade, last: DailyBar, cfg: BacktestConfig) {
    t.reason == DataEnd && t.ts == last.priceDate * 86400 + 15 * 3600 + 30 * 60 && IsSale(t, last, cfg)
  }

  /** The return is the net profit in per cent of what the entry cost. */
  lemma SimulationReturn(sheet: Sheet, bars: seq<DailyBar>, entryIndex: int, capital: real, cfg: BacktestConfig)
    requires Simulate(sheet, bars, entryIndex, capital, cfg).Filled?
    ensures var r := Simulate(sheet, bars, entryIndex, capital, cfg);
            var cost := r.entryPrice * r.totalQty as real;
            if r.entryPrice > 0.0 then r.pnlPct * cost == 100.0 * r.netPnl else r.pnlPct == 0.0
  {
    hide *;
    FilledIsReported(sheet, bars, entryIndex, capital, cfg);
    var o := Open(sheet, bars, entryIndex, capital, cfg);
    var env := Env(sheet, cfg, o.price, o.qty);
    ReportedReturn(env, o.ts, FinalBooks(env, bars, entryIndex, o.ts, o.reason));
  }

  lemma ReportedTrades(env: Env, ts: Time, acct: Account)
    ensures Report(env, ts, acct).trades == acct.trades
  {
  }

  /** The books in the end. */
  ghost function FinalBooks(env: Env, bars: seq<DailyBar>, entryIndex: nat, ts: Time, reason: Reason): Account
    requires entryIndex < |bars|
  {
    var st := Start(env.sheet, bars, entryIndex, env.cfg, env.entryPrice, env.qty, ts, reason);
    CloseOut(env, AfterBars(env, st, bars, entryIndex, |bars| - 1 - entryIndex).acct, bars[|bars| - 1])
  }

  lemma FilledIsReported(sheet: Sheet, bars: seq<DailyBar>, entryIndex: int, capital: real, cfg: BacktestConfig)
    requires Simulate(sheet, bars, entryIndex, capital, cfg).Filled?
    ensures var o := Open(sheet, bars, entryIndex, capital, cfg);
            && o.Opened? && o.qty >= 1 && 0 <= entryIndex < |bars|
            && var env := Env(sheet, cfg, o.price, o.qty);
               Simulate(sheet, bars, entryIndex, capital, cfg) ==
               Report(env, o.ts, FinalBooks(env, bars, entryIndex, o.ts, o.reason))
  {
    hide AfterBars, CloseOut, Open, Start, Report;
    BacktestProperties.FailedOpen(sheet, bars, entryIndex, capital, cfg);
    BacktestProperties.OpenedPositive(sheet, bars, entryIndex, capital, cfg);
  }

  /** The sales of a simulation, after the buy. */
  lemma AllSales(env: Env, bars: seq<DailyBar>, entryIndex: nat, ts: Time, reason: Reason)
    requires entryIndex < |bars|
    ensures var trades := FinalBooks(env, bars, entryIndex, ts, reason).trades;
            && |trades| >= 1 && trades[0] == BuyTrade(env, ts, reason)
            && (forall k :: 1 <= k < |trades| ==>
                  || IsLaterSale(trades[k], bars, entryIndex, env.cfg)
                  || (k == |trades| - 1 && IsForcedSale(trades[k], bars[|bars| - 1], env.cfg)))
  {
    hide AfterBars, CloseOut, IsSale, IsLaterSale;
    var st := Start(env.sheet, bars, entryIndex, env.cfg, env.entryPrice, env.qty, ts, reason);
    BarsSell(env, st, bars, entryIndex, |bars| - 1 - entryIndex);
    CloseOutSells(env, AfterBars(env, st, bars, entryIndex, |bars| - 1 - entryIndex).acct, bars[|bars| - 1]);
  }

  lemma CloseOutSells(env: Env, acct: Account, last: DailyBar)
    ensures var after := CloseOut(env, acct, last).trades;
            && acct.trades <= after && |after| <= |acct.trades| + 1
            && (|after| > |acct.trades| ==>
                  IsForcedSale(after[|acct.trades|], last, env.cfg))
  {
    hide IsSale;
    if acct.remaining > 0 {
      BookedSale(env, acct, last.close, last, acct.remaining, At(last.priceDate, CLOSE_TIME), DataEnd, NoMetadata);
      hide Book;
    }
  }

  lemma ReportedReturn(env: Env, ts: Time, acct: Account)
    requires env.qty >= 1
    ensures var r := Report(env, ts, acct);
            && r.trades == acct.trades && r.entryPrice == env.entryPrice && r.totalQty == env.qty
            && var cost := r.entryPrice * r.totalQty as real;
               if r.entryPrice > 0.0 then r.pnlPct * cost == 100.0 * r.netPnl else r.pnlPct == 0.0
  {
    if env.entryPrice > 0.0 {
      var cost, net := env.entryPrice * env.qty as real, acct.grossPnl - acct.fees;
      SignOfProduct(env.entryPrice, env.qty as real);
      InPercent(net, cost);
    }
  }

  lemma InPercent(net: real, cost: real)
    requires cost != 0.0
    ensures net / cost * 100.0 * cost == 100.0 * net
  {
    var x := net / cost;
    assert x * cost == net;
    assert x * 100.0 * cost == 100.0 * (x * cost);
  }

  // ---------------------------------------------------------------- entry conditions

  predicate InDay(bar: DailyBar, price: real) {
    bar.low <= price <= bar.high
  }

  /** What the conditions say of a bar whose low is not above its high: a price bound is met somewhere in the
      day's range; the volume bound compares with the mean of the last twenty volumes and passes while there are
      fewer, or none was traded; a daily bar passes all others. */
  lemma ConditionMeaning(cond: EntryCondition, bar: DailyBar, prior: seq<DailyBar>)
    requires bar.low <= bar.high
    ensures cond.PriceBelow? ==>
              (ConditionOk(cond, bar, prior) <==> exists price :: InDay(bar, price) && price <= cond.value)
    ensures cond.PriceAbove? ==>
              (ConditionOk(cond, bar, prior) <==> exists price :: InDay(bar, price) && price >= cond.value)
    ensures cond.VolumeOverMa20? && |prior| >= 20 ==>
              var sum := VolumeSum(prior[|prior| - 20..]);
              (ConditionOk(cond, bar, prior) <==> sum <= 0 || 20.0 * bar.volume as real >= sum as real * cond.minRatio)
    ensures cond.VolumeOverMa20? && |prior| < 20 ==> ConditionOk(cond, bar, prior)
    ensures !cond.PriceBelow? && !cond.PriceAbove? && !cond.VolumeOverMa20? ==> ConditionOk(cond, bar, prior)
  {
    match cond
    case PriceBelow(value) =>
      assert InDay(bar, bar.low);
    case PriceAbove(value) =>
      assert InDay(bar, bar.high);
    case VolumeOverMa20(minRatio) =>
      if |prior| >= 20 {
        MeanRatio(VolumeSum(prior[|prior| - 20..]), bar.volume, minRatio);
      }
    case _ =>
  }

  lemma MeanRatio(sum: int, volume: int, ratio: real)
    ensures var mean := sum as real / 20.0;
            mean <= 0.0 || volume as real >= mean * ratio <==> sum <= 0 || 20.0 * volume as real >= sum as real * ratio
  {
    var mean := sum as real / 20.0;
    assert sum as real == mean * 20.0;
    assert sum as real * ratio == 20.0 * (mean * ratio);
  }
}
