/** What every simulation keeps: money and shares add up, the future is not used, holding is bounded. */
module BacktestProperties {
  import opened Wrappers
  import opened ExitModel
  import opened Backtest
  import opened ExitProperties

  // ---------------------------------------------------------------- sums over trades

  function SoldQty(trades: seq<Trade>): int {
    if trades == [] then 0
    else
      var t := trades[|trades| - 1];
      SoldQty(trades[..|trades| - 1]) + if t.side == Sell then t.qty else 0
  }

  function Proceeds(trades: seq<Trade>): real {
    if trades == [] then 0.0
    else
      var t := trades[|trades| - 1];
      Proceeds(trades[..|trades| - 1]) + if t.side == Sell then t.price * t.qty as real else 0.0
  }

  function FeeSum(trades: seq<Trade>): real {
    if trades == [] then 0.0 else FeeSum(trades[..|trades| - 1]) + trades[|trades| - 1].fee
  }

  // ---------------------------------------------------------------- the books balance

  /** Shares bought are held or sold, the first trade is the only buy, every sale is at least one
      share, and profit and fees are those of the trades. */
  ghost predicate Balanced(env: Env, acct: Account) {
    && |acct.trades| >= 1
    && acct.trades[0].side == Buy && acct.trades[0].qty == env.qty && acct.trades[0].price == env.entryPrice
    && (forall k :: 1 <= k < |acct.trades| ==> acct.trades[k].side == Sell && acct.trades[k].qty >= 1)
    && acct.remaining >= 0
    && acct.remaining + SoldQty(acct.trades) == env.qty
    && acct.grossPnl == Proceeds(acct.trades) - env.entryPrice * SoldQty(acct.trades) as real
    && acct.fees == FeeSum(acct.trades)
    && (acct.remaining < env.qty ==> acct.lastReason == Some(acct.trades[|acct.trades| - 1].reason))
    && (acct.remaining < env.qty ==> acct.exitTs == Some(acct.trades[|acct.trades| - 1].ts))
  }

  lemma Distribute(price: real, entry: real, sold: int, q: int)
    ensures (price - entry) * q as real - entry * sold as real
         == price * q as real - entry * (sold + q) as real
  {
    assert (sold + q) as real == sold as real + q as real;
    assert entry * (sold as real + q as real) == entry * sold as real + entry * q as real;
  }

  lemma BookBalanced(env: Env, acct: Account, price: real, barVolume: int, sellQty: int, ts: Time,
                     reason: Reason, metadata: Metadata)
    requires Balanced(env, acct) && 1 <= sellQty <= acct.remaining
    ensures Balanced(env, Book(env, acct, price, barVolume, sellQty, ts, reason, metadata))
  {
    hide ExitFillPrice;
    var r := Book(env, acct, price, barVolume, sellQty, ts, reason, metadata);
    var n := |acct.trades|;
    assert r.trades[..n] == acct.trades;
    Distribute(r.trades[n].price, env.entryPrice, SoldQty(acct.trades), sellQty);
  }

  lemma SellQuantityInRange(original: int, remaining: int, portion: real)
    requires remaining >= 1
    ensures 1 <= SellQuantity(original, remaining, portion) <= remaining
    ensures portion >= 1.0 ==> SellQuantity(original, remaining, portion) == remaining
  {
  }

  lemma TickBalanced(env: Env, st: Sim, t: DayTick, bar: DailyBar, i: int)
    requires st.pos.Valid() && Balanced(env, st.acct)
    ensures Balanced(env, TickStep(env, st, t, bar, i).acct)
  {
    hide Evaluate, Book, Balanced, SellQuantity;
    if st.acct.remaining > 0 {
      var d := Evaluate(env.sheet.rules, st.pos, TickObservation(t, bar, st.dailyCloses, i)).1;
      if d.Some? && d.value.shouldClose {
        var q := SellQuantity(env.qty, st.acct.remaining, d.value.portion);
        SellQuantityInRange(env.qty, st.acct.remaining, d.value.portion);
        BookBalanced(env, st.acct, t.price, bar.volume, q, t.ts, d.value.reason, d.value.metadata);
      }
    }
  }

  lemma {:induction false} TicksBalanced(env: Env, st: Sim, bar: DailyBar, i: int, k: nat)
    requires st.pos.Valid() && Balanced(env, st.acct) && k <= 4
    ensures Balanced(env, TickSteps(env, st, bar, i, k).acct)
  {
    hide Balanced, TickStep;
    if k > 0 {
      TicksBalanced(env, st, bar, i, k - 1);
      TickBalanced(env, TickSteps(env, st, bar, i, k - 1), DayTicks(bar)[k - 1], bar, i);
    }
  }

  lemma {:induction false} BarsBalanced(env: Env, st: Sim, bars: seq<DailyBar>, entryIndex: nat, n: nat)
    requires st.pos.Valid() && Balanced(env, st.acct) && entryIndex + n < |bars|
    ensures Balanced(env, AfterBars(env, st, bars, entryIndex, n).acct)
    decreases n
  {
    hide Balanced, TickSteps;
    if n > 0 {
      BarsBalanced(env, st, bars, entryIndex, n - 1);
      TicksBalanced(env, AfterBars(env, st, bars, entryIndex, n - 1), bars[entryIndex + n], n, 4);
    }
  }

  lemma StartBalanced(env: Env, bars: seq<DailyBar>, entryIndex: nat, ts: Time, reason: Reason)
    requires entryIndex < |bars| && env.qty >= 1
    ensures Balanced(env, Start(env.sheet, bars, entryIndex, env.cfg, env.entryPrice, env.qty, ts, reason).acct)
  {
    var acct := Start(env.sheet, bars, entryIndex, env.cfg, env.entryPrice, env.qty, ts, reason).acct;
    assert acct.trades[..0] == [];
    assert SoldQty(acct.trades) == SoldQty(acct.trades[..0]) == 0;
    assert Proceeds(acct.trades) == Proceeds(acct.trades[..0]) == 0.0;
    assert FeeSum(acct.trades) == FeeSum(acct.trades[..0]) + acct.trades[0].fee;
  }

  lemma CloseOutBalanced(env: Env, acct: Account, last: DailyBar)
    requires Balanced(env, acct)
    ensures Balanced(env, CloseOut(env, acct, last)) && CloseOut(env, acct, last).remaining == 0
  {
    hide Book, Balanced;
    if acct.remaining > 0 {
      var r := CloseOut(env, acct, last);
      BookBalanced(env, acct, last.close, last.volume, acct.remaining, At(last.priceDate, CLOSE_TIME), DataEnd,
                   NoMetadata);
      assert r.remaining == 0 by { RemainingAfterBook(env, acct, last.close, last.volume, acct.remaining,
                                                     At(last.priceDate, CLOSE_TIME), DataEnd, NoMetadata); }
    } else {
      BalancedNotNegative(env, acct);
    }
  }

  lemma RemainingAfterBook(env: Env, acct: Account, price: real, barVolume: int, sellQty: int, ts: Time,
                           reason: Reason, metadata: Metadata)
    ensures Book(env, acct, price, barVolume, sellQty, ts, reason, metadata).remaining == acct.remaining - sellQty
  {
  }

  lemma BalancedNotNegative(env: Env, acct: Account)
    requires Balanced(env, acct)
    ensures acct.remaining >= 0
  {
  }

  /** A filled simulation: one buy first, every sale at least one share, what was bought is sold
      completely, and net profit is sale proceeds minus entry cost minus all fees. */
  lemma SimulationConserves(sheet: Sheet, bars: seq<DailyBar>, entryIndex: int, capital: real, cfg: BacktestConfig)
    requires Simulate(sheet, bars, entryIndex, capital, cfg).Filled?
    ensures var r := Simulate(sheet, bars, entryIndex, capital, cfg);
            && |r.trades| >= 2
            && r.trades[0].side == Buy && r.trades[0].qty == r.totalQty && r.trades[0].price == r.entryPrice
            && r.trades[0].ts == r.entryTs
            && (forall k :: 1 <= k < |r.trades| ==> r.trades[k].side == Sell && r.trades[k].qty >= 1)
            && SoldQty(r.trades) == r.totalQty
            && r.fees == FeeSum(r.trades)
            && r.netPnl == Proceeds(r.trades) - r.entryPrice * r.totalQty as real - FeeSum(r.trades)
            && r.exitReason == Some(r.trades[|r.trades| - 1].reason)
            && r.exitTs == Some(r.trades[|r.trades| - 1].ts)
  {
    hide AfterBars, CloseOut, Open, Balanced, SoldQty, Proceeds, FeeSum;
    var o := Open(sheet, bars, entryIndex, capital, cfg);
    FailedOpen(sheet, bars, entryIndex, capital, cfg);
    var env := Env(sheet, cfg, o.price, o.qty);
    OpenedPositive(sheet, bars, entryIndex, capital, cfg);
    var final := FinalAccount(env, bars, entryIndex, o.ts, o.reason);
    SettledReport(env, o.ts, final);
  }

  lemma OpenedPositive(sheet: Sheet, bars: seq<DailyBar>, entryIndex: int, capital: real, cfg: BacktestConfig)
    ensures Open(sheet, bars, entryIndex, capital, cfg).Opened? ==>
              Open(sheet, bars, entryIndex, capital, cfg).qty >= 1 && 0 <= entryIndex < |bars|
  {
  }

  /** The books after the close-out. */
  lemma FinalAccount(env: Env, bars: seq<DailyBar>, entryIndex: nat, ts: Time, reason: Reason) returns (final: Account)
    requires entryIndex < |bars| && env.qty >= 1
    ensures var st := Start(env.sheet, bars, entryIndex, env.cfg, env.entryPrice, env.qty, ts, reason);
            final == CloseOut(env, AfterBars(env, st, bars, entryIndex, |bars| - 1 - entryIndex).acct, bars[|bars| - 1])
    ensures Balanced(env, final) && final.remaining == 0
    ensures |final.trades| >= 1 && final.trades[0].ts == ts
  {
    hide AfterBars, CloseOut, Balanced;
    var st := Start(env.sheet, bars, entryIndex, env.cfg, env.entryPrice, env.qty, ts, reason);
    StartBalanced(env, bars, entryIndex, ts, reason);
    BarsBalanced(env, st, bars, entryIndex, |bars| - 1 - entryIndex);
    var held := AfterBars(env, st, bars, entryIndex, |bars| - 1 - entryIndex).acct;
    CloseOutBalanced(env, held, bars[|bars| - 1]);
    FirstTradeKept(env, st, bars, entryIndex, |bars| - 1 - entryIndex);
    CloseOutKeepsTrades(env, held, bars[|bars| - 1]);
    final := CloseOut(env, held, bars[|bars| - 1]);
  }

  lemma SettledReport(env: Env, ts: Time, acct: Account)
    requires Balanced(env, acct) && acct.remaining == 0 && env.qty >= 1
    ensures var r := Report(env, ts, acct);
            && |r.trades| >= 2
            && r.trades[0].side == Buy && r.trades[0].qty == r.totalQty && r.trades[0].price == r.entryPrice
            && (forall k :: 1 <= k < |r.trades| ==> r.trades[k].side == Sell && r.trades[k].qty >= 1)
            && SoldQty(r.trades) == r.totalQty
            && r.fees == FeeSum(r.trades)
            && r.netPnl == Proceeds(r.trades) - r.entryPrice * r.totalQty as real - FeeSum(r.trades)
            && r.exitReason == Some(r.trades[|r.trades| - 1].reason)
            && r.exitTs == Some(r.trades[|r.trades| - 1].ts)
  {
    SingleBuySellsNothing(acct.trades);
  }

  lemma SingleBuySellsNothing(trades: seq<Trade>)
    ensures |trades| == 1 && trades[0].side == Buy ==> SoldQty(trades) == 0
  {
    if |trades| == 1 {
      assert trades[..0] == [];
    }
  }

  lemma CloseOutKeepsTrades(env: Env, acct: Account, last: DailyBar)
    ensures acct.trades <= CloseOut(env, acct, last).trades
    ensures forall k :: |acct.trades| <= k < |CloseOut(env, acct, last).trades| ==>
              CloseOut(env, acct, last).trades[k].reason == DataEnd
  {
  }

  // ---------------------------------------------------------------- what each step appends

  /** A bar appends sales stamped on its own day, none of them a data-end sale, and forgets nothing. */
  ghost predicate Appends(before: seq<Trade>, after: seq<Trade>, date: int) {
    && before <= after
    && forall k :: |before| <= k < |after| ==>
         At(date, OPEN_TIME) <= after[k].ts <= At(date, CLOSE_TIME) && after[k].reason != DataEnd
  }

  lemma {:induction false} EvalRulesReason(rules: seq<ExitRule>, s: Position, o: Observation, ret: real)
    requires s.Valid() && EvalRules(rules, s, o, ret).1.Some?
    ensures EvalRules(rules, s, o, ret).1.value.reason != DataEnd
  {
    var (s1, d) := CheckRule(rules[0], s, o, ret);
    if d.None? {
      EvalRulesReason(rules[1..], s1, o, ret);
    }
  }

  lemma TickAppends(env: Env, st: Sim, t: DayTick, bar: DailyBar, i: int, date: int)
    requires st.pos.Valid()
    requires At(date, OPEN_TIME) <= t.ts <= At(date, CLOSE_TIME)
    ensures Appends(st.acct.trades, TickStep(env, st, t, bar, i).acct.trades, date)
  {
    hide EvalRules, ExitFillPrice, SellQuantity;
    if st.acct.remaining > 0 {
      var o := TickObservation(t, bar, st.dailyCloses, i);
      if Evaluate(env.sheet.rules, st.pos, o).1.Some? {
        EvalRulesReason(env.sheet.rules, UpdateHigh(st.pos, o.price), o, CurrentReturn(st.pos, o.price));
      }
    }
  }

  lemma {:induction false} TicksAppend(env: Env, st: Sim, bar: DailyBar, i: int, k: nat)
    requires st.pos.Valid() && k <= 4
    ensures Appends(st.acct.trades, TickSteps(env, st, bar, i, k).acct.trades, bar.priceDate)
  {
    hide TickStep;
    if k > 0 {
      TicksAppend(env, st, bar, i, k - 1);
      TickAppends(env, TickSteps(env, st, bar, i, k - 1), DayTicks(bar)[k - 1], bar, i, bar.priceDate);
    }
  }

  lemma {:induction false} FirstTradeKept(env: Env, st: Sim, bars: seq<DailyBar>, entryIndex: nat, n: nat)
    requires st.pos.Valid() && entryIndex + n < |bars|
    ensures st.acct.trades <= AfterBars(env, st, bars, entryIndex, n).acct.trades
    decreases n
  {
    hide TickSteps;
    if n > 0 {
      FirstTradeKept(env, st, bars, entryIndex, n - 1);
      TicksAppend(env, AfterBars(env, st, bars, entryIndex, n - 1), bars[entryIndex + n], n, 4);
    }
  }

  ghost predicate Ascending(bars: seq<DailyBar>) {
    forall a, b :: 0 <= a < b < |bars| ==> bars[a].priceDate < bars[b].priceDate
  }

  // ---------------------------------------------------------------- no look-ahead

  /** Trades stamped up to `cutoff`, the forced data-end sale left out. */
  function Visible(trades: seq<Trade>, cutoff: Time): seq<Trade> {
    if trades == [] then []
    else
      var t := trades[|trades| - 1];
      Visible(trades[..|trades| - 1], cutoff) + if t.ts <= cutoff && t.reason != DataEnd then [t] else []
  }

  function TradesOf(r: Result): seq<Trade> {
    if r.Filled? then r.trades else []
  }

  lemma {:induction false} VisibleOfExtension(trades: seq<Trade>, more: seq<Trade>, cutoff: Time)
    requires trades <= more
    requires forall k :: |trades| <= k < |more| ==> more[k].ts > cutoff || more[k].reason == DataEnd
    ensures Visible(more, cutoff) == Visible(trades, cutoff)
    decreases |more|
  {
    if |trades| < |more| {
      VisibleOfExtension(trades, more[..|more| - 1], cutoff);
    } else {
      assert trades == more;
    }
  }

  /** Trades of bars behind bar n are all later than bar n. */
  lemma {:induction false} LaterBarsTradeLater(env: Env, st: Sim, bars: seq<DailyBar>, entryIndex: nat, n: nat, m: nat)
    requires st.pos.Valid() && n <= m && entryIndex + m < |bars| && Ascending(bars)
    ensures var a := AfterBars(env, st, bars, entryIndex, n).acct.trades;
            var b := AfterBars(env, st, bars, entryIndex, m).acct.trades;
            a <= b && forall k :: |a| <= k < |b| ==> b[k].ts > At(bars[entryIndex + n].priceDate, CLOSE_TIME)
    decreases m
  {
    hide TickSteps;
    if n < m {
      LaterBarsTradeLater(env, st, bars, entryIndex, n, m - 1);
      TicksAppend(env, AfterBars(env, st, bars, entryIndex, m - 1), bars[entryIndex + m], m, 4);
    }
  }

  /** The state after n bars depends on those bars only. */
  lemma {:induction false} AfterBarsLocal(env: Env, st: Sim, bars1: seq<DailyBar>, bars2: seq<DailyBar>,
                                          entryIndex: nat, n: nat)
    requires st.pos.Valid() && entryIndex + n < |bars1| && entryIndex + n < |bars2|
    requires bars1[..entryIndex + n + 1] == bars2[..entryIndex + n + 1]
    ensures AfterBars(env, st, bars1, entryIndex, n) == AfterBars(env, st, bars2, entryIndex, n)
    decreases n
  {
    hide BarStep;
    assert bars1[entryIndex + n] == bars1[..entryIndex + n + 1][entryIndex + n];
    if n > 0 {
      assert bars1[..entryIndex + n] == bars1[..entryIndex + n + 1][..entryIndex + n];
      assert bars2[..entryIndex + n] == bars2[..entryIndex + n + 1][..entryIndex + n];
      AfterBarsLocal(env, st, bars1, bars2, entryIndex, n - 1);
    }
  }

  /** What of a simulation is visible at the close of bar j is what was booked up to bar j. */
  lemma VisibleAtBar(sheet: Sheet, bars: seq<DailyBar>, entryIndex: nat, capital: real, cfg: BacktestConfig, j: nat)
    requires Ascending(bars) && entryIndex <= j < |bars|
    requires Open(sheet, bars, entryIndex, capital, cfg).Opened?
    ensures var cutoff := At(bars[j].priceDate, CLOSE_TIME);
            var Opened(price, qty, ts, reason) := Open(sheet, bars, entryIndex, capital, cfg);
            var st := Start(sheet, bars, entryIndex, cfg, price, qty, ts, reason);
            Visible(TradesOf(Simulate(sheet, bars, entryIndex, capital, cfg)), cutoff) ==
            Visible(AfterBars(Env(sheet, cfg, price, qty), st, bars, entryIndex, j - entryIndex).acct.trades, cutoff)
  {
    hide AfterBars, Visible;
    var cutoff := At(bars[j].priceDate, CLOSE_TIME);
    var Opened(price, qty, ts, reason) := Open(sheet, bars, entryIndex, capital, cfg);
    var st := Start(sheet, bars, entryIndex, cfg, price, qty, ts, reason);
    var env := Env(sheet, cfg, price, qty);
    var n := |bars| - 1 - entryIndex;
    LaterBarsTradeLater(env, st, bars, entryIndex, j - entryIndex, n);
    var upTo := AfterBars(env, st, bars, entryIndex, j - entryIndex).acct.trades;
    var all := AfterBars(env, st, bars, entryIndex, n).acct;
    CloseOutKeepsTrades(env, all, bars[|bars| - 1]);
    VisibleOfExtension(upTo, CloseOut(env, all, bars[|bars| - 1]).trades, cutoff);
  }

  lemma {:induction false} NothingVisible(trades: seq<Trade>, cutoff: Time)
    requires forall k :: 0 <= k < |trades| ==> trades[k].ts > cutoff || trades[k].reason == DataEnd
    ensures Visible(trades, cutoff) == []
  {
    if trades != [] {
      NothingVisible(trades[..|trades| - 1], cutoff);
    }
  }

  lemma BeforeEntryNothing(sheet: Sheet, bars: seq<DailyBar>, entryIndex: int, capital: real, cfg: BacktestConfig,
                           j: nat)
    requires Ascending(bars) && j < |bars| && j < entryIndex
    ensures Visible(TradesOf(Simulate(sheet, bars, entryIndex, capital, cfg)), At(bars[j].priceDate, CLOSE_TIME)) == []
  {
    hide AfterBars, Visible;
    var cutoff := At(bars[j].priceDate, CLOSE_TIME);
    match Open(sheet, bars, entryIndex, capital, cfg)
    case Failed(_) =>
      NothingVisible([], cutoff);
    case Opened(price, qty, ts, reason) =>
      var st := Start(sheet, bars, entryIndex, cfg, price, qty, ts, reason);
      var env := Env(sheet, cfg, price, qty);
      var n := |bars| - 1 - entryIndex;
      assert AfterBars(env, st, bars, entryIndex, 0) == st by { AfterNone(env, st, bars, entryIndex); }
      LaterBarsTradeLater(env, st, bars, entryIndex, 0, n);
      var all := AfterBars(env, st, bars, entryIndex, n).acct;
      CloseOutKeepsTrades(env, all, bars[|bars| - 1]);
      NothingVisible(CloseOut(env, all, bars[|bars| - 1]).trades, cutoff);
  }

  lemma AfterNone(env: Env, st: Sim, bars: seq<DailyBar>, entryIndex: nat)
    requires st.pos.Valid() && entryIndex < |bars|
    ensures AfterBars(env, st, bars, entryIndex, 0) == st
  {
  }

  /** No look-ahead: two bar sequences that agree up to bar j give the same trades up to the close of
      bar j, the forced data-end sale aside. */
  lemma NoLookAhead(sheet: Sheet, bars1: seq<DailyBar>, bars2: seq<DailyBar>, entryIndex: int, capital: real,
                    cfg: BacktestConfig, j: nat)
    requires Ascending(bars1) && Ascending(bars2)
    requires j < |bars1| && j < |bars2| && bars1[..j + 1] == bars2[..j + 1]
    ensures var cutoff := At(bars1[j].priceDate, CLOSE_TIME);
            Visible(TradesOf(Simulate(sheet, bars1, entryIndex, capital, cfg)), cutoff) ==
            Visible(TradesOf(Simulate(sheet, bars2, entryIndex, capital, cfg)), cutoff)
  {
    hide AfterBars, Visible, Simulate;
    assert bars1[j] == bars1[..j + 1][j] == bars2[j];
    if entryIndex < 0 {
      EarlyIndex(sheet, bars1, entryIndex, capital, cfg);
      EarlyIndex(sheet, bars2, entryIndex, capital, cfg);
    } else if entryIndex > j {
      BeforeEntryNothing(sheet, bars1, entryIndex, capital, cfg, j);
      BeforeEntryNothing(sheet, bars2, entryIndex, capital, cfg, j);
    } else {
      assert bars1[entryIndex] == bars1[..j + 1][entryIndex] == bars2[entryIndex];
      assert bars1[..entryIndex] == bars1[..j + 1][..entryIndex] == bars2[..entryIndex];
      assert bars1[..entryIndex + 1] == bars1[..j + 1][..entryIndex + 1] == bars2[..entryIndex + 1];
      var o := Open(sheet, bars1, entryIndex, capital, cfg);
      assert o == Open(sheet, bars2, entryIndex, capital, cfg);
      if o.Opened? {
        VisibleAtBar(sheet, bars1, entryIndex, capital, cfg, j);
        VisibleAtBar(sheet, bars2, entryIndex, capital, cfg, j);
        var st := Start(sheet, bars1, entryIndex, cfg, o.price, o.qty, o.ts, o.reason);
        AfterBarsLocal(Env(sheet, cfg, o.price, o.qty), st, bars1, bars2, entryIndex, j - entryIndex);
      } else {
        FailedOpen(sheet, bars1, entryIndex, capital, cfg);
        FailedOpen(sheet, bars2, entryIndex, capital, cfg);
      }
    }
  }

  lemma EarlyIndex(sheet: Sheet, bars: seq<DailyBar>, entryIndex: int, capital: real, cfg: BacktestConfig)
    requires entryIndex < 0
    ensures Simulate(sheet, bars, entryIndex, capital, cfg) == Unfilled(NoBars)
  {
  }

  lemma FailedOpen(sheet: Sheet, bars: seq<DailyBar>, entryIndex: int, capital: real, cfg: BacktestConfig)
    ensures Open(sheet, bars, entryIndex, capital, cfg).Failed? <==>
              !Simulate(sheet, bars, entryIndex, capital, cfg).Filled?
    ensures Open(sheet, bars, entryIndex, capital, cfg).Failed? ==>
              Simulate(sheet, bars, entryIndex, capital, cfg) == Open(sheet, bars, entryIndex, capital, cfg).result
  {
  }

  // ---------------------------------------------------------------- entry price and quantity

  lemma Product3(a: real, b: real, c: real)
    requires a >= 0.0 && b >= 0.0 && c >= 0.0
    ensures a * b * c >= 0.0
  {
    ProductNotNegative(a, b);
    ProductNotNegative(a * b, c);
  }

  lemma SlippageGrows(cfg: BacktestConfig, qty: int, barVolume: int)
    requires cfg.slippagePct >= 0.0 && cfg.participationMultiplier >= 0.0 && cfg.maxParticipation >= 0.0
    ensures EffectiveSlippagePct(cfg, qty, barVolume) >= EffectiveSlippagePct(cfg, 0, barVolume) >= 0.0
  {
    if cfg.volumeBasedSlippage && barVolume > 0 && qty > 0 {
      var share := qty as real / barVolume as real;
      assert share >= 0.0;
      Product3(cfg.slippagePct, cfg.participationMultiplier, MinReal(share, cfg.maxParticipation));
    }
  }

  lemma RaisedMonotone(price: real, a: real, b: real)
    requires price >= 0.0 && a <= b
    ensures Raised(price, a) <= Raised(price, b)
  {
    ProductNotNegative(price, b - a);
    Distributed(price, 1.0 + b, 1.0 + a);
    assert (1.0 + b) - (1.0 + a) == b - a;
  }

  /** With non-negative slippage settings and prices the volume-aware second pass never fills below
      the first one. */
  lemma SecondPassNotCheaper(sheet: Sheet, bar: DailyBar, prior: seq<DailyBar>, cfg: BacktestConfig, qtyHint: int)
    requires cfg.slippagePct >= 0.0 && cfg.participationMultiplier >= 0.0 && cfg.maxParticipation >= 0.0
    requires bar.open >= 0.0 && (sheet.price.Some? ==> sheet.price.value >= 0.0)
    ensures TryEntry(sheet, bar, prior, cfg, qtyHint).Fill? <==> TryEntry(sheet, bar, prior, cfg, 0).Fill?
    ensures TryEntry(sheet, bar, prior, cfg, 0).Fill? ==>
              TryEntry(sheet, bar, prior, cfg, 0).price <= TryEntry(sheet, bar, prior, cfg, qtyHint).price
  {
    hide Raised, EffectiveSlippagePct;
    SlippageGrows(cfg, qtyHint, bar.volume);
    var a := EffectiveSlippagePct(cfg, 0, bar.volume) / 100.0;
    var b := EffectiveSlippagePct(cfg, qtyHint, bar.volume) / 100.0;
    RaisedMonotone(bar.open, a, b);
    if sheet.price.Some? {
      RaisedMonotone(MinReal(sheet.price.value, bar.open), a, b);
    }
  }

  lemma AffordableBounds(capital: real, price: real)
    requires price > 0.0
    ensures price * Affordable(capital, price) as real <= capital
    ensures capital < price * (Affordable(capital, price) + 1) as real
  {
    var q := capital / price;
    var n := q.Floor;
    assert q * price == capital;
    assert n as real <= q < n as real + 1.0;
    Multiplied(n as real, q, price);
    Multiplied(n as real + 1.0, q, price);
    assert (n + 1) as real == n as real + 1.0;
    assert price * (n as real + 1.0) == (n as real + 1.0) * price > capital;
    assert price * n as real == n as real * price;
  }

  /** The simulated purchase is paid for by the capital, and one share more would not be. */
  lemma EntryWithinCapital(sheet: Sheet, bars: seq<DailyBar>, entryIndex: int, capital: real, cfg: BacktestConfig)
    requires Simulate(sheet, bars, entryIndex, capital, cfg).Filled?
    requires Simulate(sheet, bars, entryIndex, capital, cfg).entryPrice > 0.0
    ensures var r := Simulate(sheet, bars, entryIndex, capital, cfg);
            && r.totalQty >= 1
            && r.entryPrice * r.totalQty as real <= capital < r.entryPrice * (r.totalQty + 1) as real
  {
    hide AfterBars, CloseOut, TryEntry, Affordable;
    var o := Open(sheet, bars, entryIndex, capital, cfg);
    AffordableBounds(capital, o.price);
  }

  // ---------------------------------------------------------------- bounded holding

  /** Most levels any scale-out rule of the sheet has. */
  function MaxLevels(rules: seq<ExitRule>): nat {
    if rules == [] then 0
    else MaxInt(MaxLevels(rules[1..]), if rules[0].ScaleOut? then |rules[0].levels| else 0)
  }

  /** Number of bars after which the time stop can first fire. */
  function HoldBars(rule: ExitRule): int
    requires rule.TimeStop?
  {
    match rule.mode
    case Eod => 1
    case HoldDays => if rule.value.Some? then MaxInt(1, rule.value.value) else 1
  }

  /** A live time stop with no break-even rule in front of it. */
  ghost predicate Bounded(rules: seq<ExitRule>, t: nat) {
    && t < |rules| && rules[t].TimeStop?
    && (rules[t].mode == HoldDays ==> rules[t].value.Some?)
    && forall b: nat :: b < t ==> !rules[b].Breakeven?
  }

  /** Only a scale-out sells a part, and it fires only on an existing level. */
  lemma RulePartial(rule: ExitRule, s: Position, o: Observation, ret: real, k: nat)
    requires s.Valid() && s.scaleOutExecuted == Below(k)
    ensures var d := CheckRule(rule, s, o, ret).1;
            d.Some? && (d.value.portion < 1.0 || d.value.metadata.LevelData?) ==>
              d.value.metadata.LevelData? && rule.ScaleOut? && k < |rule.levels|
    ensures CheckRule(rule, s, o, ret).1.None? ==> CheckRule(rule, s, o, ret).0.scaleOutExecuted == Below(k)
  {
    if rule.ScaleOut? {
      NextLevelOfPrefix(|rule.levels|, k, 0);
    }
  }

  lemma {:induction false} PartialIsLevel(rules: seq<ExitRule>, s: Position, o: Observation, ret: real, k: nat)
    requires s.Valid() && s.scaleOutExecuted == Below(k)
    ensures var d := EvalRules(rules, s, o, ret).1;
            d.Some? && (d.value.portion < 1.0 || d.value.metadata.LevelData?) ==>
              d.value.metadata.LevelData? && k < MaxLevels(rules)
  {
    hide CheckRule;
    if rules != [] {
      RulePartial(rules[0], s, o, ret, k);
      var (s1, d) := CheckRule(rules[0], s, o, ret);
      if d.None? {
        PartialIsLevel(rules[1..], s1, o, ret, k);
      }
    }
  }

  /** Consumed levels form a prefix, no longer than the longest level list, throughout a simulation. */
  ghost predicate LevelPrefix(rules: seq<ExitRule>, s: Position, k: nat) {
    s.scaleOutExecuted == Below(k) && k <= MaxLevels(rules)
  }

  lemma LevelsStay(rules: seq<ExitRule>, s: Position, o: Observation, ret: real, k: nat) returns (k': nat)
    requires s.Valid() && LevelPrefix(rules, s, k)
    ensures k <= k' && LevelPrefix(rules, EvalRules(rules, s, o, ret).0, k')
    ensures EvalRules(rules, s, o, ret).1.Some? && EvalRules(rules, s, o, ret).1.value.portion < 1.0 ==> k' == k + 1
  {
    hide EvalRules;
    EvalRulesLevels(rules, s, o, ret, k);
    PartialIsLevel(rules, s, o, ret, k);
    var d := EvalRules(rules, s, o, ret).1;
    k' := if d.Some? && d.value.metadata.LevelData? then k + 1 else k;
  }

  /** One tick: levels only grow; on a due close tick a position that stays open consumed a level. */
  lemma TickProgress(env: Env, st: Sim, t: DayTick, bar: DailyBar, i: int, stop: nat, k: nat) returns (k': nat)
    requires st.pos.Valid() && LevelPrefix(env.sheet.rules, st.pos, k) && Bounded(env.sheet.rules, stop)
    ensures k <= k' && LevelPrefix(env.sheet.rules, TickStep(env, st, t, bar, i).pos, k')
    ensures TickStep(env, st, t, bar, i).acct.remaining <= MaxInt(0, st.acct.remaining)
    ensures CutoffReached(t.ts) && i >= HoldBars(env.sheet.rules[stop]) ==>
              TickStep(env, st, t, bar, i).acct.remaining <= 0 || k' >= k + 1
  {
    hide EvalRules, ExitFillPrice, Below;
    var rules := env.sheet.rules;
    if st.acct.remaining <= 0 {
      k' := k;
      return;
    }
    var o := TickObservation(t, bar, st.dailyCloses, i);
    k' := LevelsStay(rules, UpdateHigh(st.pos, o.price), o, CurrentReturn(st.pos, o.price), k);
    if CutoffReached(t.ts) && i >= HoldBars(rules[stop]) {
      assert Due(rules[stop], o);
      DueTickSells(rules, stop, st.pos, o);
    }
  }

  lemma {:induction false} TicksProgress(env: Env, st: Sim, bar: DailyBar, i: int, n: nat, stop: nat, k: nat)
    returns (k': nat)
    requires st.pos.Valid() && n <= 4
    requires LevelPrefix(env.sheet.rules, st.pos, k) && Bounded(env.sheet.rules, stop)
    ensures k <= k' && LevelPrefix(env.sheet.rules, TickSteps(env, st, bar, i, n).pos, k')
    ensures TickSteps(env, st, bar, i, n).acct.remaining <= MaxInt(0, st.acct.remaining)
    ensures n == 4 && i >= HoldBars(env.sheet.rules[stop]) ==>
              TickSteps(env, st, bar, i, n).acct.remaining <= 0 || k' >= k + 1
  {
    hide TickStep, LevelPrefix, HoldBars, Bounded;
    k' := k;
    if n > 0 {
      var k1 := TicksProgress(env, st, bar, i, n - 1, stop, k);
      k' := TickProgress(env, TickSteps(env, st, bar, i, n - 1), DayTicks(bar)[n - 1], bar, i, stop, k1);
      CloseTickIsPastCutoff(bar);
    }
  }

  lemma CloseTickIsPastCutoff(bar: DailyBar)
    ensures CutoffReached(DayTicks(bar)[3].ts)
  {
  }

  /** After n bars, everything is sold or a level was consumed on every bar since the stop fell due. */
  lemma {:induction false} BarsProgress(env: Env, st: Sim, bars: seq<DailyBar>, entryIndex: nat, n: nat, stop: nat)
    returns (k: nat)
    requires st.pos.Valid() && entryIndex + n < |bars|
    requires LevelPrefix(env.sheet.rules, st.pos, 0) && Bounded(env.sheet.rules, stop)
    ensures LevelPrefix(env.sheet.rules, AfterBars(env, st, bars, entryIndex, n).pos, k)
    ensures AfterBars(env, st, bars, entryIndex, n).acct.remaining <= 0
            || k >= n - HoldBars(env.sheet.rules[stop]) + 1
    decreases n
  {
    hide TickSteps, LevelPrefix, HoldBars, Bounded;
    k := 0;
    if n == 0 {
      BoundedStop(env.sheet.rules, stop);
      HoldBarsPositive(env.sheet.rules[stop]);
    } else {
      k := BarsProgress(env, st, bars, entryIndex, n - 1, stop);
      var before := AfterBars(env, st, bars, entryIndex, n - 1);
      if before.acct.remaining > 0 {
        k := TicksProgress(env, before, bars[entryIndex + n], n, 4, stop, k);
      }
    }
  }

  lemma BoundedStop(rules: seq<ExitRule>, t: nat)
    requires Bounded(rules, t)
    ensures t < |rules| && rules[t].TimeStop?
  {
  }

  lemma HoldBarsPositive(rule: ExitRule)
    requires rule.TimeStop?
    ensures HoldBars(rule) >= 1
  {
  }

  /** All trades but the first are stamped no later than `cutoff` and are not data-end sales. */
  ghost predicate SalesBy(trades: seq<Trade>, cutoff: Time) {
    forall k :: 1 <= k < |trades| ==> trades[k].ts <= cutoff && trades[k].reason != DataEnd
  }

  lemma SalesByExtends(before: seq<Trade>, after: seq<Trade>, cutoff: Time, date: int)
    requires SalesBy(before, cutoff) && Appends(before, after, date) && cutoff <= At(date, CLOSE_TIME)
    ensures SalesBy(after, At(date, CLOSE_TIME))
  {
    forall k | 1 <= k < |after|
      ensures after[k].ts <= At(date, CLOSE_TIME) && after[k].reason != DataEnd
    {
      if k < |before| {
        assert after[k] == before[k];
      }
    }
  }

  lemma {:induction false} SalesStamped(env: Env, st: Sim, bars: seq<DailyBar>, entryIndex: nat, n: nat)
    requires st.pos.Valid() && entryIndex + n < |bars| && Ascending(bars) && |st.acct.trades| == 1
    ensures SalesBy(AfterBars(env, st, bars, entryIndex, n).acct.trades, At(bars[entryIndex + n].priceDate, CLOSE_TIME))
    decreases n
  {
    hide TickSteps;
    if n > 0 {
      SalesStamped(env, st, bars, entryIndex, n - 1);
      var before := AfterBars(env, st, bars, entryIndex, n - 1);
      var last, bar := bars[entryIndex + (n - 1)], bars[entryIndex + n];
      assert last.priceDate < bar.priceDate;
      TicksAppend(env, before, bar, n, 4);
      SalesByExtends(before.acct.trades, AfterBars(env, st, bars, entryIndex, n).acct.trades,
                     At(last.priceDate, CLOSE_TIME), bar.priceDate);
    }
  }

  /** If everything is sold after bar n, the simulation ends with the books of bar n. */
  lemma SoldMeansDone(env: Env, bars: seq<DailyBar>, entryIndex: nat, n: nat, ts: Time, reason: Reason)
    requires Ascending(bars) && env.qty >= 1 && entryIndex + n < |bars|
    requires var st := Start(env.sheet, bars, entryIndex, env.cfg, env.entryPrice, env.qty, ts, reason);
             AfterBars(env, st, bars, entryIndex, n).acct.remaining <= 0
    ensures var st := Start(env.sheet, bars, entryIndex, env.cfg, env.entryPrice, env.qty, ts, reason);
            var acct := AfterBars(env, st, bars, entryIndex, |bars| - 1 - entryIndex).acct;
            && CloseOut(env, acct, bars[|bars| - 1]) == acct
            && acct.lastReason != Some(DataEnd)
            && acct.exitTs.Some? && acct.exitTs.value <= At(bars[entryIndex + n].priceDate, CLOSE_TIME)
  {
    hide AfterBars, SoldQty, Proceeds, FeeSum, Book;
    var st := Start(env.sheet, bars, entryIndex, env.cfg, env.entryPrice, env.qty, ts, reason);
    StaysClosed(env, st, bars, entryIndex, n, |bars| - 1 - entryIndex);
    StartBalanced(env, bars, entryIndex, ts, reason);
    BarsBalanced(env, st, bars, entryIndex, n);
    SalesStamped(env, st, bars, entryIndex, n);
    SingleBuySellsNothing(AfterBars(env, st, bars, entryIndex, n).acct.trades);
  }

  /** Bounded holding: with a live time stop and no break-even rule in front of it, a simulated
      position is fully sold by the close of bar entry + v + L, where v is the holding bound and L
      the number of scale-out levels; in particular it is not the end of the data that sells it. */
  lemma BoundedHolding(sheet: Sheet, bars: seq<DailyBar>, entryIndex: nat, capital: real, cfg: BacktestConfig,
                       stop: nat)
    requires Ascending(bars) && Bounded(sheet.rules, stop)
    requires Simulate(sheet, bars, entryIndex, capital, cfg).Filled?
    requires entryIndex + HoldBars(sheet.rules[stop]) + MaxLevels(sheet.rules) < |bars|
    ensures var r := Simulate(sheet, bars, entryIndex, capital, cfg);
            var deadline := bars[entryIndex + HoldBars(sheet.rules[stop]) + MaxLevels(sheet.rules)];
            && r.exitReason != Some(DataEnd)
            && r.exitTs.Some? && r.exitTs.value <= At(deadline.priceDate, CLOSE_TIME)
  {
    hide AfterBars, Open, HoldBars, Bounded;
    var o := Open(sheet, bars, entryIndex, capital, cfg);
    FailedOpen(sheet, bars, entryIndex, capital, cfg);
    OpenedPositive(sheet, bars, entryIndex, capital, cfg);
    var env := Env(sheet, cfg, o.price, o.qty);
    var st := Start(sheet, bars, entryIndex, cfg, o.price, o.qty, o.ts, o.reason);
    BoundedStop(sheet.rules, stop);
    HoldBarsPositive(sheet.rules[stop]);
    var n := HoldBars(sheet.rules[stop]) + MaxLevels(sheet.rules);
    var k := BarsProgress(env, st, bars, entryIndex, n, stop);
    SoldMeansDone(env, bars, entryIndex, n, o.ts, o.reason);
  }
}
