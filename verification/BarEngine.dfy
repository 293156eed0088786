/** Aggregation of ticks into bars, one tick at a time, against the plain definition: cut the tick
    sequence into runs of equal time slot and summarise each run (bar_engine.py:79-144). */
module BarEngine {
  import opened Wrappers
  import opened Indicators

  /** `time` in whole seconds since the epoch. */
  datatype Tick = Tick(time: int, price: real, volume: Option<real>)
  datatype Bar = Bar(time: int, open: real, high: real, low: real, close: real, volume: real)

  const DAY: Period := 86400

  /** A missing or negative volume counts as nothing. */
  function Volume(t: Tick): real {
    match t.volume
    case None => 0.0
    case Some(v) => if v < 0.0 then 0.0 else v
  }

  function Slot(t: Tick, width: Period): int {
    t.time / width * width
  }

  // ---------------------------------------------------------------- the definition

  type Run = r: seq<Tick> | r != [] witness [Tick(0, 0.0, None)]

  function Last<T>(s: seq<T>): T
    requires s != []
  {
    s[|s| - 1]
  }

  function Init<T>(s: seq<T>): seq<T>
    requires s != []
  {
    s[..|s| - 1]
  }

  /** The tick sequence cut wherever the slot changes. */
  function Runs(ticks: seq<Tick>, width: Period): (r: seq<Run>)
    ensures r == [] <==> ticks == []
  {
    if ticks == [] then []
    else AddTick(Runs(Init(ticks), width), Last(ticks), width)
  }

  function AddTick(runs: seq<Run>, t: Tick, width: Period): (r: seq<Run>)
    ensures r != []
  {
    if runs != [] && Slot(Last(runs)[0], width) == Slot(t, width) then Init(runs) + [Last(runs) + [t]]
    else runs + [[t]]
  }

  function High(run: Run): real {
    if |run| == 1 then run[0].price else MaxReal(High(run[..|run| - 1]), run[|run| - 1].price)
  }

  function Low(run: Run): real {
    if |run| == 1 then run[0].price else MinReal(Low(run[..|run| - 1]), run[|run| - 1].price)
  }

  function TotalVolume(ticks: seq<Tick>): real {
    if ticks == [] then 0.0 else TotalVolume(Init(ticks)) + Volume(Last(ticks))
  }

  function BarOf(run: Run, width: Period): Bar {
    Bar(Slot(run[0], width), run[0].price, High(run), Low(run), Last(run).price, TotalVolume(run))
  }

  function Bars(runs: seq<Run>, width: Period): (r: seq<Bar>)
    ensures |r| == |runs|
    ensures forall k :: 0 <= k < |runs| ==> r[k] == BarOf(runs[k], width)
  {
    seq(|runs|, i requires 0 <= i < |runs| => BarOf(runs[i], width))
  }

  /** The last `n` elements, or all there are. */
  function Newest<T>(s: seq<T>, n: nat): seq<T> {
    if |s| <= n then s else s[|s| - n..]
  }

  // ---------------------------------------------------------------- what the definition means

  function Flatten(runs: seq<Run>): seq<Tick> {
    if runs == [] then [] else Flatten(Init(runs)) + Last(runs)
  }

  /** One slot per run, and a different slot in the next run. */
  ghost predicate IsCut(runs: seq<Run>, width: Period) {
    && (forall k, i :: 0 <= k < |runs| && 0 <= i < |runs[k]| ==> Slot(runs[k][i], width) == Slot(runs[k][0], width))
    && (forall k :: 0 < k < |runs| ==> Slot(runs[k - 1][0], width) != Slot(runs[k][0], width))
  }

  /** The runs lose, duplicate and reorder nothing. */
  lemma {:induction false} RunsCut(ticks: seq<Tick>, width: Period)
    ensures Flatten(Runs(ticks, width)) == ticks
    ensures IsCut(Runs(ticks, width), width)
  {
    if ticks != [] {
      RunsCut(Init(ticks), width);
      AddTickCut(Runs(Init(ticks), width), Last(ticks), width);
      assert ticks == Init(ticks) + [Last(ticks)];
    }
  }

  lemma AddTickCut(runs: seq<Run>, t: Tick, width: Period)
    requires IsCut(runs, width)
    ensures IsCut(AddTick(runs, t, width), width)
    ensures Flatten(AddTick(runs, t, width)) == Flatten(runs) + [t]
  {
    hide Slot;
    var r := AddTick(runs, t, width);
    if runs != [] && Slot(Last(runs)[0], width) == Slot(t, width) {
      assert Init(r) == Init(runs);
      assert Last(r) == Last(runs) + [t];
    } else {
      assert Init(r) == runs;
    }
  }

  /** The runs without their last tick. */
  function DropTick(cut: seq<Run>): seq<Run>
    requires cut != []
  {
    if |Last(cut)| == 1 then Init(cut) else Init(cut) + [Init(Last(cut))]
  }

  lemma DropTickCut(cut: seq<Run>, width: Period)
    requires cut != [] && IsCut(cut, width)
    ensures IsCut(DropTick(cut), width)
  {
    hide Slot;
    var r := DropTick(cut);
    forall k, i | 0 <= k < |r| && 0 <= i < |r[k]|
      ensures Slot(r[k][i], width) == Slot(r[k][0], width)
    {
      assert r[k][i] == cut[k][i] && r[k][0] == cut[k][0];
    }
    forall k | 0 < k < |r|
      ensures Slot(r[k - 1][0], width) != Slot(r[k][0], width)
    {
      assert r[k][0] == cut[k][0] && r[k - 1][0] == cut[k - 1][0];
    }
  }

  lemma DropThenAdd(cut: seq<Run>, width: Period)
    requires cut != [] && IsCut(cut, width)
    ensures AddTick(DropTick(cut), Last(Last(cut)), width) == cut
  {
    hide Slot;
    var last, t := Last(cut), Last(Last(cut));
    assert cut == Init(cut) + [last];
    if |last| == 1 {
      assert last == [t];
      if Init(cut) != [] {
        assert Last(Init(cut)) == cut[|cut| - 2];
      }
    } else {
      assert last == Init(last) + [t];
      assert Init(DropTick(cut)) == Init(cut);
      assert Slot(t, width) == Slot(last[0], width) by { assert cut[|cut| - 1] == last; }
    }
  }

  lemma FlattenDrop(cut: seq<Run>)
    requires cut != []
    ensures Flatten(cut) == Flatten(DropTick(cut)) + [Last(Last(cut))]
  {
    if |Last(cut)| > 1 {
      assert Init(DropTick(cut)) == Init(cut);
      assert Last(cut) == Init(Last(cut)) + [Last(Last(cut))];
    } else {
      assert Last(cut) == [Last(Last(cut))];
    }
  }

  /** There is no other way to cut the ticks. */
  lemma {:induction false} CutUnique(cut: seq<Run>, width: Period)
    requires IsCut(cut, width)
    ensures Runs(Flatten(cut), width) == cut
    decreases |Flatten(cut)|
  {
    if cut != [] {
      FlattenDrop(cut);
      DropTickCut(cut, width);
      DropThenAdd(cut, width);
      assert Init(Flatten(cut)) == Flatten(DropTick(cut));
      hide IsCut, AddTick, DropTick;
      CutUnique(DropTick(cut), width);
    }
  }

  /** A bar's high and low are the extreme prices of its run. */
  lemma {:induction false} Extremes(run: Run)
    ensures forall i :: 0 <= i < |run| ==> Low(run) <= run[i].price <= High(run)
    ensures exists i :: 0 <= i < |run| && run[i].price == High(run)
    ensures exists i :: 0 <= i < |run| && run[i].price == Low(run)
  {
    var n := |run| - 1;
    if n == 0 {
      assert run[0].price == High(run) == Low(run);
    } else {
      var r: Run := run[..n];
      Extremes(r);
      var h :| 0 <= h < |r| && r[h].price == High(r);
      var l :| 0 <= l < |r| && r[l].price == Low(r);
      assert run[h].price == High(r) && run[l].price == Low(r);
      assert run[n].price == High(run) || run[h].price == High(run);
      assert run[n].price == Low(run) || run[l].price == Low(run);
      forall i | 0 <= i < |run|
        ensures Low(run) <= run[i].price <= High(run)
      {
        assert i < n ==> r[i] == run[i];
      }
    }
  }

  ghost predicate Ordered(ticks: seq<Tick>) {
    forall i, j :: 0 <= i < j < |ticks| ==> ticks[i].time <= ticks[j].time
  }

  ghost predicate Rising(bars: seq<Bar>) {
    forall i, j :: 0 <= i < j < |bars| ==> bars[i].time < bars[j].time
  }

  lemma SlotMonotone(a: Tick, b: Tick, width: Period)
    requires a.time <= b.time
    ensures Slot(a, width) <= Slot(b, width)
  {
    DivMonotone(a.time, b.time, width);
    MulMonotone(a.time / width, b.time / width, width);
  }

  lemma DivMonotone(a: int, b: int, width: Period)
    requires a <= b
    ensures a / width <= b / width
  {
    var p, q := a / width, b / width;
    assert p * width <= a && b < q * width + width;
    if p > q {
      MulMonotone(q + 1, p, width);
    }
  }

  ghost predicate RisingSlots(runs: seq<Run>, width: Period) {
    forall i, j :: 0 <= i < j < |runs| ==> Slot(runs[i][0], width) < Slot(runs[j][0], width)
  }

  lemma RisingStep(runs: seq<Run>, t: Tick, width: Period)
    requires RisingSlots(runs, width)
    requires runs != [] ==> Slot(Last(runs)[0], width) <= Slot(t, width)
    ensures RisingSlots(AddTick(runs, t, width), width)
    ensures Slot(Last(AddTick(runs, t, width))[0], width) == Slot(t, width)
  {
    hide Slot;
    var r := AddTick(runs, t, width);
    forall i, j | 0 <= i < j < |r|
      ensures Slot(r[i][0], width) < Slot(r[j][0], width)
    {
      assert r[i][0] == runs[i][0];
      if j < |runs| {
        assert r[j][0] == runs[j][0];
      } else {
        assert Slot(runs[i][0], width) <= Slot(Last(runs)[0], width);
      }
    }
  }

  lemma {:induction false} SlotsRise(ticks: seq<Tick>, width: Period)
    requires Ordered(ticks)
    ensures RisingSlots(Runs(ticks, width), width)
    ensures ticks != [] ==> Slot(Last(Runs(ticks, width))[0], width) == Slot(Last(ticks), width)
  {
    hide Slot, RisingSlots;
    if ticks == [] {
      NoRunsRise(width);
    } else {
      var before := Init(ticks);
      SlotsRise(before, width);
      if before != [] {
        SlotMonotone(Last(before), Last(ticks), width);
      }
      hide AddTick;
      RisingStep(Runs(before, width), Last(ticks), width);
    }
  }

  lemma NoRunsRise(width: Period)
    ensures RisingSlots([], width)
  {
  }

  /** Ticks in time order give bars with strictly rising times. */
  lemma TimesRise(ticks: seq<Tick>, width: Period)
    requires Ordered(ticks)
    ensures Rising(Bars(Runs(ticks, width), width))
  {
    hide Slot, High, Low, TotalVolume;
    SlotsRise(ticks, width);
  }

  function BarVolume(bars: seq<Bar>): real {
    if bars == [] then 0.0 else BarVolume(Init(bars)) + Last(bars).volume
  }

  lemma {:induction false} VolumeOfAppend(a: seq<Tick>, b: seq<Tick>)
    ensures TotalVolume(a + b) == TotalVolume(a) + TotalVolume(b)
  {
    if b == [] {
      assert a + b == a;
    } else {
      VolumeOfAppend(a, Init(b));
      assert Init(a + b) == a + Init(b);
    }
  }

  lemma {:induction false} VolumeOfRuns(runs: seq<Run>, width: Period)
    ensures BarVolume(Bars(runs, width)) == TotalVolume(Flatten(runs))
  {
    if runs != [] {
      VolumeOfRuns(Init(runs), width);
      VolumeOfAppend(Flatten(Init(runs)), Last(runs));
      assert Init(Bars(runs, width)) == Bars(Init(runs), width);
    }
  }

  /** No volume is lost or counted twice. */
  lemma VolumeKept(ticks: seq<Tick>, width: Period)
    ensures BarVolume(Bars(Runs(ticks, width), width)) == TotalVolume(ticks)
  {
    RunsCut(ticks, width);
    VolumeOfRuns(Runs(ticks, width), width);
  }

  function DayVolume(ticks: seq<Tick>, day: int): real {
    if ticks == [] then 0.0
    else DayVolume(Init(ticks), day) + (if Slot(Last(ticks), DAY) == day then Volume(Last(ticks)) else 0.0)
  }

  lemma {:induction false} NothingYet(ticks: seq<Tick>, day: int)
    requires forall i :: 0 <= i < |ticks| ==> Slot(ticks[i], DAY) != day
    ensures DayVolume(ticks, day) == 0.0
  {
    if ticks != [] {
      NothingYet(Init(ticks), day);
    }
  }

  /** For ticks in time order the running volume of the last day is that day's whole volume. */
  lemma {:induction false} LastDayVolume(ticks: seq<Tick>)
    requires Ordered(ticks) && ticks != []
    ensures TotalVolume(Last(Runs(ticks, DAY))) == DayVolume(ticks, Slot(Last(ticks), DAY))
    ensures Slot(Last(Runs(ticks, DAY))[0], DAY) == Slot(Last(ticks), DAY)
  {
    hide Slot;
    var before, t := Init(ticks), Last(ticks);
    var runs := Runs(before, DAY);
    var today := Slot(t, DAY);
    if before != [] && Slot(Last(runs)[0], DAY) == today {
      LastDayVolume(before);
      VolumeOfAppend(Last(runs), [t]);
      assert TotalVolume([t]) == TotalVolume(Init([t])) + Volume(t);
    } else {
      if before != [] {
        LastDayVolume(before);
        forall i | 0 <= i < |before|
          ensures Slot(before[i], DAY) != today
        {
          SlotMonotone(before[i], Last(before), DAY);
          SlotMonotone(Last(before), t, DAY);
        }
      }
      NothingYet(before, today);
      assert TotalVolume([t]) == TotalVolume(Init([t])) + Volume(t);
    }
  }

  lemma BarOfOne(t: Tick, width: Period)
    ensures BarOf([t], width) == Bar(Slot(t, width), t.price, t.price, t.price, t.price, Volume(t))
  {
    assert TotalVolume([t]) == TotalVolume(Init([t])) + Volume(t);
  }

  lemma BarOfMore(run: Run, t: Tick, width: Period)
    ensures var bar := BarOf(run, width);
            BarOf(run + [t], width) ==
            Bar(bar.time, bar.open, MaxReal(bar.high, t.price), MinReal(bar.low, t.price), t.price,
                bar.volume + Volume(t))
  {
    var more: Run := run + [t];
    assert more[..|more| - 1] == run;
  }

  /** What one more tick does to the last bar and to the bars before it. */
  lemma CurrentStep(ticks: seq<Tick>, t: Tick, width: Period)
    ensures var runs, runs' := Runs(ticks, width), Runs(ticks + [t], width);
            if runs != [] && Slot(Last(runs)[0], width) == Slot(t, width) then
              && Init(runs') == Init(runs)
              && var bar := BarOf(Last(runs), width);
                 BarOf(Last(runs'), width) ==
                   Bar(bar.time, bar.open, MaxReal(bar.high, t.price), MinReal(bar.low, t.price), t.price,
                       bar.volume + Volume(t))
            else
              && Init(runs') == runs
              && BarOf(Last(runs'), width) == Bar(Slot(t, width), t.price, t.price, t.price, t.price, Volume(t))
  {
    hide Slot, BarOf;
    assert Init(ticks + [t]) == ticks;
    var runs := Runs(ticks, width);
    BarOfOne(t, width);
    if runs != [] {
      BarOfMore(Last(runs), t, width);
    }
  }

  lemma IntradayStep(ticks: seq<Tick>, t: Tick)
    ensures var runs, last := Runs(ticks, DAY), Last(Runs(ticks + [t], DAY));
            && Slot(last[0], DAY) == Slot(t, DAY)
            && TotalVolume(last) == (if runs != [] && Slot(Last(runs)[0], DAY) == Slot(t, DAY)
                                     then TotalVolume(Last(runs)) else 0.0) + Volume(t)
  {
    CurrentStep(ticks, t, DAY);
  }

  /** Completing a bar appends it to the history and trims. */
  lemma HistoryStep(runs: seq<Run>, width: Period, n: nat)
    requires runs != []
    ensures BarOf(Last(runs), width).time == Slot(Last(runs)[0], width)
    ensures Newest(Newest(Bars(Init(runs), width), n) + [BarOf(Last(runs), width)], n) == Newest(Bars(runs, width), n)
  {
    hide BarOf, Slot;
    assert Bars(runs, width) == Bars(Init(runs), width) + [BarOf(Last(runs), width)];
    NewestStep(Bars(Init(runs), width), BarOf(Last(runs), width), n);
    BarTime(Last(runs), width);
  }

  lemma BarTime(run: Run, width: Period)
    ensures BarOf(run, width).time == Slot(run[0], width)
  {
  }

  lemma NewestStep<T>(s: seq<T>, x: T, n: nat)
    ensures Newest(Newest(s, n) + [x], n) == Newest(s + [x], n)
  {
  }

  /** The newest n are the end of the sequence: n of them, or all there are. */
  lemma NewestMeaning<T>(s: seq<T>, n: nat) returns (older: seq<T>)
    ensures s == older + Newest(s, n)
    ensures |Newest(s, n)| == MinInt(|s|, n)
  {
    older := if |s| <= n then [] else s[..|s| - n];
  }

  /** A bar starts at the last multiple of its width that is not later than its first tick, opens at the price of
      the first tick and closes at that of the last one. */
  lemma BarMeaning(run: Run, width: Period)
    ensures var bar := BarOf(run, width);
            && bar.time % width == 0 && bar.time <= run[0].time < bar.time + width
            && bar.open == run[0].price && bar.close == run[|run| - 1].price
  {
    SlotMeaning(run[0].time, width);
    hide High, Low, TotalVolume;
  }

  lemma SlotMeaning(time: int, width: Period)
    ensures time / width * width <= time < time / width * width + width
    ensures (time / width * width) % width == 0
  {
    assert time == time / width * width + time % width;
    MultipleHasNoRest(time / width, width);
  }

  lemma MultipleHasNoRest(q: int, width: Period)
    ensures (q * width) % width == 0
  {
    var r := (q * width) % width;
    var d := q - (q * width) / width;
    assert q * width == (q * width) / width * width + r;
    assert d * width == r;
    if d >= 1 {
      MulMonotone(1, d, width);
    } else if d <= -1 {
      MulMonotone(d, -1, width);
    }
  }

  /** A tick counts with its volume, and not at all when that is missing or negative. */
  lemma VolumeMeaning(t: Tick)
    ensures Volume(t) >= 0.0
    ensures t.volume.Some? && t.volume.value >= 0.0 ==> Volume(t) == t.volume.value
    ensures t.volume.None? || t.volume.value < 0.0 ==> Volume(t) == 0.0
  {
  }

  // ---------------------------------------------------------------- the incremental engine

  /** The building bar and the history of one stock are what the definition makes of its ticks. */
  ghost predicate BarsOk(ticks: seq<Tick>, width: Period, maxHistory: nat, current: Option<Bar>, history: seq<Bar>) {
    var runs := Runs(ticks, width);
    if ticks == [] then current == None && history == []
    else current == Some(BarOf(Last(runs), width)) && history == Newest(Bars(Init(runs), width), maxHistory)
  }

  /** The running volume is that of the last run of ticks of one day. */
  ghost predicate DayOk(ticks: seq<Tick>, intraday: Option<(int, real)>) {
    var days := Runs(ticks, DAY);
    if ticks == [] then intraday == None
    else intraday == Some((Slot(Last(days)[0], DAY), TotalVolume(Last(days))))
  }

  function NextBar(current: Option<Bar>, t: Tick, width: Period): Bar {
    match current
    case Some(bar) =>
      if bar.time == Slot(t, width) then
        bar.(high := MaxReal(bar.high, t.price), low := MinReal(bar.low, t.price),
             close := t.price, volume := bar.volume + Volume(t))
      else Bar(Slot(t, width), t.price, t.price, t.price, t.price, Volume(t))
    case None => Bar(Slot(t, width), t.price, t.price, t.price, t.price, Volume(t))
  }

  function NextHistory(current: Option<Bar>, history: seq<Bar>, t: Tick, width: Period, maxHistory: nat): seq<Bar> {
    match current
    case Some(bar) => if bar.time == Slot(t, width) then history else Newest(history + [bar], maxHistory)
    case None => history
  }

  function NextIntraday(intraday: Option<(int, real)>, t: Tick): (int, real) {
    match intraday
    case Some(day) => (Slot(t, DAY), (if day.0 == Slot(t, DAY) then day.1 else 0.0) + Volume(t))
    case None => (Slot(t, DAY), Volume(t))
  }

  lemma BarsStep(ticks: seq<Tick>, t: Tick, width: Period, maxHistory: nat, current: Option<Bar>, history: seq<Bar>)
    requires BarsOk(ticks, width, maxHistory, current, history)
    ensures BarsOk(ticks + [t], width, maxHistory, Some(NextBar(current, t, width)),
                   NextHistory(current, history, t, width, maxHistory))
  {
    CurrentStep(ticks, t, width);
    var runs := Runs(ticks, width);
    hide Runs, Slot, Volume, TotalVolume, Newest, High, Low, Bars;
    if ticks == [] {
      NewestOfNone(maxHistory);
      assert Bars([], width) == [];
    } else {
      HistoryStep(runs, width, maxHistory);
      hide BarOf;
    }
  }

  lemma DayStep(ticks: seq<Tick>, t: Tick, intraday: Option<(int, real)>)
    requires DayOk(ticks, intraday)
    ensures DayOk(ticks + [t], Some(NextIntraday(intraday, t)))
  {
    IntradayStep(ticks, t);
    hide Runs, Slot, Volume, TotalVolume;
  }

  lemma NewestOfNone(n: nat)
    ensures Newest<Bar>([], n) == []
  {
  }

  ghost predicate StockOk(ticker: string, width: Period, maxHistory: nat, ticks: map<string, seq<Tick>>,
                          current: map<string, Bar>, completed: map<string, seq<Bar>>,
                          intraday: map<string, (int, real)>) {
    && BarsOk(Get(ticks, ticker).GetOr([]), width, maxHistory, Get(current, ticker), Get(completed, ticker).GetOr([]))
    && DayOk(Get(ticks, ticker).GetOr([]), Get(intraday, ticker))
  }

  /** The engine's three maps are what the definition makes of the ticks of every stock. */
  ghost predicate Consistent(width: Period, maxHistory: nat, ticks: map<string, seq<Tick>>,
                             current: map<string, Bar>, completed: map<string, seq<Bar>>,
                             intraday: map<string, (int, real)>) {
    forall ticker :: StockOk(ticker, width, maxHistory, ticks, current, completed, intraday)
  }

  lemma ConsistentStep(ticker: string, tick: Tick, width: Period, maxHistory: nat, ticks: map<string, seq<Tick>>,
                       current: map<string, Bar>, completed: map<string, seq<Bar>>, intraday: map<string, (int, real)>,
                       completed': map<string, seq<Bar>>)
    requires Consistent(width, maxHistory, ticks, current, completed, intraday)
    requires forall other :: other != ticker ==> Get(completed', other).GetOr([]) == Get(completed, other).GetOr([])
    requires Get(completed', ticker).GetOr([]) ==
             NextHistory(Get(current, ticker), Get(completed, ticker).GetOr([]), tick, width, maxHistory)
    ensures Consistent(width, maxHistory, ticks[ticker := Get(ticks, ticker).GetOr([]) + [tick]],
                       current[ticker := NextBar(Get(current, ticker), tick, width)], completed',
                       intraday[ticker := NextIntraday(Get(intraday, ticker), tick)])
  {
    var ticks' := ticks[ticker := Get(ticks, ticker).GetOr([]) + [tick]];
    var current' := current[ticker := NextBar(Get(current, ticker), tick, width)];
    var intraday' := intraday[ticker := NextIntraday(Get(intraday, ticker), tick)];
    hide BarsOk, DayOk, NextBar, NextHistory, NextIntraday;
    forall other
      ensures StockOk(other, width, maxHistory, ticks', current', completed', intraday')
    {
      assert StockOk(other, width, maxHistory, ticks, current, completed, intraday);
      if other == ticker {
        BarsStep(Get(ticks, ticker).GetOr([]), tick, width, maxHistory, Get(current, ticker),
                 Get(completed, ticker).GetOr([]));
        DayStep(Get(ticks, ticker).GetOr([]), tick, Get(intraday, ticker));
      }
    }
  }

  class BarEngine {
    const interval: Period
    const maxHistory: nat
    var current: map<string, Bar>
    var completed: map<string, seq<Bar>>
    var intraday: map<string, (int, real)>
    /** Every tick taken in so far, by stock. */
    ghost var ticks: map<string, seq<Tick>>

    function History(ticker: string): seq<Bar>
      reads this`completed
    {
      Get(completed, ticker).GetOr([])
    }

    ghost function Seen(ticker: string): seq<Tick>
      reads this`ticks
    {
      Get(ticks, ticker).GetOr([])
    }

    ghost predicate Valid()
      reads this
    {
      Consistent(interval, maxHistory, ticks, current, completed, intraday)
    }

    constructor (interval: Period, maxHistory: nat)
      ensures Valid() && ticks == map[]
      ensures this.interval == interval && this.maxHistory == maxHistory
    {
      this.interval := interval;
      this.maxHistory := maxHistory;
      current, completed, intraday, ticks := map[], map[], map[], map[];
    }

    method AccumulateIntraday(ticker: string, tick: Tick)
      modifies this`intraday
      ensures intraday == old(intraday)[ticker := NextIntraday(Get(old(intraday), ticker), tick)]
    {
      var today := Slot(tick, DAY);
      var total := 0.0;
      if ticker in intraday && intraday[ticker].0 == today {
        total := intraday[ticker].1;
      }
      intraday := intraday[ticker := (today, total + Volume(tick))];
    }

    /** Extend the building bar, or close it and start the next one. */
    method RollBar(ticker: string, tick: Tick) returns (done: Option<Bar>)
      modifies this`current, this`completed
      ensures current == old(current)[ticker := NextBar(Get(old(current), ticker), tick, interval)]
      ensures Get(completed, ticker).GetOr([]) ==
              NextHistory(Get(old(current), ticker), Get(old(completed), ticker).GetOr([]), tick, interval, maxHistory)
      ensures forall other :: other != ticker ==>
                Get(completed, other).GetOr([]) == Get(old(completed), other).GetOr([])
      ensures done == if ticker in old(current) && old(current)[ticker].time != Slot(tick, interval)
                      then Some(old(current)[ticker]) else None
    {
      hide Slot, Volume;
      var slot := Slot(tick, interval);
      done := None;
      if ticker !in current || current[ticker].time != slot {
        if ticker in current {
          done := Some(current[ticker]);
          var history := History(ticker) + [current[ticker]];
          if |history| > maxHistory {
            history := history[|history| - maxHistory..];
          }
          completed := completed[ticker := history];
        }
        current := current[ticker := Bar(slot, tick.price, tick.price, tick.price, tick.price, Volume(tick))];
      } else {
        var bar := current[ticker];
        current := current[ticker := bar.(high := MaxReal(bar.high, tick.price), low := MinReal(bar.low, tick.price),
                                          close := tick.price, volume := bar.volume + Volume(tick))];
      }
    }

    /** Take in one tick; the bar it completes, if any. */
    method Update(ticker: string, tick: Tick) returns (done: Option<Bar>)
      requires Valid()
      modifies this
      ensures Valid()
      ensures ticks == old(ticks)[ticker := Get(old(ticks), ticker).GetOr([]) + [tick]]
      ensures done == if ticker in old(current) && old(current)[ticker].time != Slot(tick, interval)
                      then Some(old(current)[ticker]) else None
    {
      hide Consistent, StockOk, NextBar, NextHistory, NextIntraday, Slot, Get;
      AccumulateIntraday(ticker, tick);
      done := RollBar(ticker, tick);
      ticks := ticks[ticker := Get(ticks, ticker).GetOr([]) + [tick]];
      ConsistentStep(ticker, tick, interval, maxHistory, old(ticks), old(current), old(completed), old(intraday),
                     completed);
    }

    /** The volume of the day so far, nothing on any other day. */
    method IntradayCumVolume(ticker: string, now: int) returns (r: real)
      requires Valid()
      ensures var today := Slot(Tick(now, 0.0, None), DAY);
              r == if Seen(ticker) != [] && Slot(Last(Runs(Seen(ticker), DAY))[0], DAY) == today
                   then TotalVolume(Last(Runs(Seen(ticker), DAY))) else 0.0
    {
      assert StockOk(ticker, interval, maxHistory, ticks, current, completed, intraday);
      if ticker !in intraday || intraday[ticker].0 != Slot(Tick(now, 0.0, None), DAY) {
        return 0.0;
      }
      return intraday[ticker].1;
    }

    method VolumeMa(ticker: string, period: Period) returns (r: Option<real>)
      ensures r == if |History(ticker)| < period then None
                   else Some(BarVolume(Newest(History(ticker), period)) / period as real)
    {
      var history := History(ticker);
      if |history| < period {
        return None;
      }
      var window := history[|history| - period..];
      var total := 0.0;
      for i := 0 to |window|
        invariant total == BarVolume(window[..i])
      {
        assert Init(window[..i + 1]) == window[..i];
        total := total + window[i].volume;
      }
      assert window[..|window|] == window;
      return Some(total / period as real);
    }

    /** The highest high of the last `lookback` bars. */
    method RecentHigh(ticker: string, lookback: Period) returns (r: Option<real>)
      ensures r.Some? <==> |History(ticker)| >= lookback
      ensures r.Some? ==> exists bar :: bar in Newest(History(ticker), lookback) && bar.high == r.value
      ensures r.Some? ==> forall bar :: bar in Newest(History(ticker), lookback) ==> bar.high <= r.value
    {
      var history := History(ticker);
      if |history| < lookback {
        return None;
      }
      var window := history[|history| - lookback..];
      var best := window[0].high;
      for i := 1 to |window|
        invariant exists k :: 0 <= k < i && window[k].high == best
        invariant forall k :: 0 <= k < i ==> window[k].high <= best
      {
        best := MaxReal(best, window[i].high);
      }
      r := Some(best);
    }

    method RsiLookup(ticker: string, period: Period) returns (r: Option<real>)
      ensures r == Rsi(Closes(History(ticker)), period)
    {
      var history := History(ticker);
      if |history| < period + 1 {
        return None;
      }
      r := ComputeRsi(Closes(history), period);
    }
  }

  function Closes(bars: seq<Bar>): (r: seq<real>)
    ensures |r| == |bars|
  {
    seq(|bars|, i requires 0 <= i < |bars| => bars[i].close)
  }

  /** The second RSI routine, written with min and abs; it agrees with the first on every input. */
  method ComputeRsi(closes: seq<real>, period: Period) returns (r: Option<real>)
    ensures r == Rsi(closes, period)
  {
    if |closes| < period + 1 {
      return None;
    }
    var gains: seq<real>, losses: seq<real> := [], [];
    for i := 1 to |closes|
      invariant |gains| == |losses| == i - 1
      invariant forall k :: 0 <= k < i - 1 ==> gains[k] == MaxReal(closes[k + 1] - closes[k], 0.0)
      invariant forall k :: 0 <= k < i - 1 ==> losses[k] == MaxReal(closes[k] - closes[k + 1], 0.0)
    {
      var delta := closes[i] - closes[i - 1];
      gains := gains + [MaxReal(delta, 0.0)];
      losses := losses + [Abs(MinReal(delta, 0.0))];
    }
    MovesArePointwise(closes, gains, losses);
    var avgGain, avgLoss := SmoothedAverages(gains, losses, period);
    WilderNonNegative(gains, period, |gains|);
    WilderNonNegative(losses, period, |losses|);
    return Some(RsiOf(avgGain, avgLoss));
  }

  function Abs(x: real): real {
    if x < 0.0 then -x else x
  }
}
