/** The trade ledger: integer position rows (persistence.py:325-398), the executions that feed them
    (persistence.py:170-255), and the outcome of a closed sheet (persistence.py:76-115). */
module Ledger {
  import opened Wrappers

  const BUY_FEE: real := 0.000140527
  const SELL_FEE: real := 0.000140527 + 0.0020

  /** A row of the positions table; all three columns are integers. */
  datatype Row = Row(quantity: int, average: int, total: int)

  /** Integer division as SQL does it: towards zero. */
  function SqlDiv(a: int, b: int): int
    requires b > 0
  {
    if a >= 0 then a / b else -((-a) / b)
  }

  /** The row after a buy of `qty` shares at the truncated price `price`. */
  function BuyRow(row: Option<Row>, qty: int, price: int): Row {
    match row
    case None => Row(qty, price, qty * price)
    case Some(r) =>
      var quantity, total := r.quantity + qty, r.total + qty * price;
      Row(quantity, if quantity > 0 then SqlDiv(total, quantity) else price, total)
  }

  /** The row after a sale; no row when nothing is left. */
  function SellRow(row: Option<Row>, qty: int): Option<Row> {
    match row
    case None => None
    case Some(r) =>
      var left := MaxInt(r.quantity - qty, 0);
      if left == 0 then None else Some(Row(left, r.average, left * r.average))
  }

  // ---------------------------------------------------------------- the row over whole runs

  datatype Trade =
    | Bought(qty: int, price: int)
    | Sold(qty: int)

  /** The row of one stock and, for the proof, the buy prices since it was opened. */
  datatype Account = Account(row: Option<Row>, prices: seq<int>)

  function Apply(a: Account, t: Trade): Account {
    match t
    case Bought(qty, price) =>
      Account(Some(BuyRow(a.row, qty, price)), if a.row == None then [price] else a.prices + [price])
    case Sold(qty) =>
      var row := SellRow(a.row, qty);
      Account(row, if row == None then [] else a.prices)
  }

  function RunTrades(trades: seq<Trade>): Account {
    if trades == [] then Account(None, [])
    else Apply(RunTrades(trades[..|trades| - 1]), trades[|trades| - 1])
  }

  /** What the recorder lets through: positive quantities, prices that are not negative. */
  predicate Recordable(t: Trade) {
    match t
    case Bought(qty, price) => qty > 0 && price >= 0
    case Sold(qty) => qty > 0
  }

  /** The amount is the average times the quantity, short of less than one unit per share; and it lies
      between what the shares would cost at `lo` and at `hi`. */
  ghost predicate RowOk(r: Row, lo: int, hi: int) {
    && r.quantity > 0 && 0 <= lo
    && 0 <= r.total - r.quantity * r.average < r.quantity
    && r.quantity * lo <= r.total <= r.quantity * hi
  }

  ghost predicate Bounds(prices: seq<int>, lo: int, hi: int) {
    forall k :: 0 <= k < |prices| ==> lo <= prices[k] <= hi
  }

  lemma DivFloor(a: int, b: int)
    requires b > 0 && a >= 0
    ensures 0 <= a - b * SqlDiv(a, b) < b
  {
  }

  lemma BuyKeeps(r: Row, qty: int, price: int, lo: int, hi: int)
    requires RowOk(r, lo, hi) && qty > 0 && lo <= price <= hi
    ensures RowOk(BuyRow(Some(r), qty, price), lo, hi)
  {
    hide SqlDiv;
    var quantity, total := r.quantity + qty, r.total + qty * price;
    MulMonotone(lo, price, qty);
    MulMonotone(price, hi, qty);
    MulMonotone(0, lo, quantity);
    Distribute(r.quantity, qty, lo);
    Distribute(r.quantity, qty, hi);
    DivFloor(total, quantity);
  }

  lemma Distribute(a: int, b: int, c: int)
    ensures (a + b) * c == a * c + b * c
  {
  }

  lemma OpenKeeps(qty: int, price: int, lo: int, hi: int)
    requires qty > 0 && 0 <= lo <= price <= hi
    ensures RowOk(BuyRow(None, qty, price), lo, hi)
  {
    MulMonotone(lo, price, qty);
    MulMonotone(price, hi, qty);
  }

  lemma AverageBetween(r: Row, lo: int, hi: int)
    requires RowOk(r, lo, hi)
    ensures lo <= r.average <= hi
  {
    if r.average < lo {
      MulMonotone(r.average + 1, lo, r.quantity);
      Distribute(r.average, 1, r.quantity);
    }
    if r.average > hi {
      MulMonotone(hi + 1, r.average, r.quantity);
      Distribute(hi, 1, r.quantity);
    }
  }

  lemma SellKeeps(r: Row, qty: int, lo: int, hi: int)
    requires RowOk(r, lo, hi) && SellRow(Some(r), qty).Some?
    ensures RowOk(SellRow(Some(r), qty).value, lo, hi)
  {
    AverageBetween(r, lo, hi);
    var left := r.quantity - qty;
    if qty >= 0 {
      MulMonotone(lo, r.average, left);
      MulMonotone(r.average, hi, left);
    } else {
      MulMonotone(lo, r.average, left);
      MulMonotone(r.average, hi, left);
    }
  }

  lemma {:induction false} OpenWhilePriced(trades: seq<Trade>)
    ensures RunTrades(trades).row.Some? <==> RunTrades(trades).prices != []
  {
    if trades != [] {
      OpenWhilePriced(trades[..|trades| - 1]);
    }
  }

  lemma {:induction false} RunKeeps(trades: seq<Trade>, lo: int, hi: int)
    requires forall k :: 0 <= k < |trades| ==> Recordable(trades[k])
    requires Bounds(RunTrades(trades).prices, lo, hi) && 0 <= lo
    requires RunTrades(trades).row.Some?
    ensures RowOk(RunTrades(trades).row.value, lo, hi)
  {
    var before, t := trades[..|trades| - 1], trades[|trades| - 1];
    var a, b := RunTrades(before), RunTrades(trades);
    assert Recordable(t);
    OpenWhilePriced(before);
    hide RowOk, BuyRow, SellRow;
    if t.Bought? && a.row == None {
      assert b.prices[0] == t.price;
      OpenKeeps(t.qty, t.price, lo, hi);
    } else if t.Bought? {
      assert b.prices[|a.prices|] == t.price;
      assert forall k :: 0 <= k < |a.prices| ==> a.prices[k] == b.prices[k];
      RunKeeps(before, lo, hi);
      BuyKeeps(a.row.value, t.qty, t.price, lo, hi);
    } else {
      assert a.row.Some? by { NothingFromNothing(t.qty); }
      RunKeeps(before, lo, hi);
      SellKeeps(a.row.value, t.qty, lo, hi);
    }
  }

  lemma NothingFromNothing(qty: int)
    ensures SellRow(None, qty) == None
  {
  }

  function Lowest(prices: seq<int>): (r: int)
    requires prices != []
    ensures r in prices && forall k :: 0 <= k < |prices| ==> r <= prices[k]
  {
    if |prices| == 1 then prices[0]
    else
      var rest := Lowest(prices[1..]);
      if prices[0] <= rest then prices[0] else rest
  }

  function Highest(prices: seq<int>): (r: int)
    requires prices != []
    ensures r in prices && forall k :: 0 <= k < |prices| ==> prices[k] <= r
  {
    if |prices| == 1 then prices[0]
    else
      var rest := Highest(prices[1..]);
      if prices[0] >= rest then prices[0] else rest
  }

  lemma {:induction false} PricesRecordable(trades: seq<Trade>)
    requires forall k :: 0 <= k < |trades| ==> Recordable(trades[k])
    ensures forall k :: 0 <= k < |RunTrades(trades).prices| ==> 0 <= RunTrades(trades).prices[k]
  {
    if trades != [] {
      PricesRecordable(trades[..|trades| - 1]);
      assert Recordable(trades[|trades| - 1]);
    }
  }

  /** After any trades, while the row exists: the recorded amount misses quantity * average by less than
      one unit per share, and the average lies between the lowest and the highest truncated price paid
      since the row was opened. */
  lemma LedgerSound(trades: seq<Trade>)
    requires forall k :: 0 <= k < |trades| ==> Recordable(trades[k])
    requires RunTrades(trades).row.Some?
    ensures var a := RunTrades(trades);
            var r := a.row.value;
            && r.quantity > 0 && a.prices != []
            && 0 <= r.total - r.quantity * r.average < r.quantity
            && Lowest(a.prices) <= r.average <= Highest(a.prices)
  {
    var a := RunTrades(trades);
    OpenWhilePriced(trades);
    PricesRecordable(trades);
    var lo, hi := Lowest(a.prices), Highest(a.prices);
    RunKeeps(trades, lo, hi);
    AverageBetween(a.row.value, lo, hi);
  }

  function Held(a: Account): int {
    match a.row
    case None => 0
    case Some(r) => r.quantity
  }

  function NetQuantity(trades: seq<Trade>): int {
    if trades == [] then 0
    else NetQuantity(trades[..|trades| - 1]) +
         match trades[|trades| - 1]
         case Bought(qty, _) => qty
         case Sold(qty) => -qty
  }

  /** At no moment more was sold than bought. */
  predicate NeverOversold(trades: seq<Trade>) {
    trades == [] || (NetQuantity(trades) >= 0 && NeverOversold(trades[..|trades| - 1]))
  }

  /** Shares are conserved: the row never holds less than was bought minus sold, and exactly that if and only
      if no sale exceeded what was held. */
  lemma {:induction false} QuantityConserved(trades: seq<Trade>)
    requires forall k :: 0 <= k < |trades| ==> Recordable(trades[k])
    ensures Held(RunTrades(trades)) >= 0 && Held(RunTrades(trades)) >= NetQuantity(trades)
    ensures Held(RunTrades(trades)) == NetQuantity(trades) <==> NeverOversold(trades)
  {
    if trades != [] {
      QuantityConserved(trades[..|trades| - 1]);
      assert Recordable(trades[|trades| - 1]);
    }
  }

  // ---------------------------------------------------------------- what the holding cost

  /** Shares held, and what they cost. */
  datatype Holding = Holding(shares: int, cost: int) {
    ghost predicate Ok() {
      shares >= 0 && cost >= 0 && (shares == 0 ==> cost == 0)
    }
  }

  /** A buy adds what it paid; a sale leaves each of the remaining shares at the whole units of the cost of one. */
  function AfterTrade(h: Holding, t: Trade): Holding {
    match t
    case Bought(qty, price) => Holding(h.shares + qty, h.cost + qty * price)
    case Sold(qty) =>
      if qty >= h.shares || h.shares <= 0 then Holding(0, 0)
      else Holding(h.shares - qty, (h.shares - qty) * (h.cost / h.shares))
  }

  function HoldingAfter(trades: seq<Trade>): Holding {
    if trades == [] then Holding(0, 0) else AfterTrade(HoldingAfter(trades[..|trades| - 1]), trades[|trades| - 1])
  }

  /** The row of a holding: none without shares, otherwise the average is the whole units of the cost of one
      share. */
  function RowOf(h: Holding): Option<Row> {
    if h.shares <= 0 then None else Some(Row(h.shares, h.cost / h.shares, h.cost))
  }

  lemma QuotientIs(a: int, b: int, q: int)
    requires b > 0 && 0 <= a - b * q < b
    ensures a / b == q
  {
    var d := a / b - q;
    assert a == b * (a / b) + a % b;
    assert b * d == (a - b * q) - a % b;
    if d >= 1 {
      MulMonotone(1, d, b);
    } else if d <= -1 {
      MulMonotone(d, -1, b);
    }
  }

  lemma BuyRowIs(h: Holding, qty: int, price: int)
    requires h.Ok() && qty > 0 && price >= 0
    ensures AfterTrade(h, Bought(qty, price)).Ok()
    ensures Some(BuyRow(RowOf(h), qty, price)) == RowOf(AfterTrade(h, Bought(qty, price)))
  {
    MulMonotone(0, price, qty);
    if h.shares == 0 {
      QuotientIs(qty * price, qty, price);
    }
  }

  lemma SellRowIs(h: Holding, qty: int)
    requires h.Ok() && qty > 0
    ensures AfterTrade(h, Sold(qty)).Ok()
    ensures SellRow(RowOf(h), qty) == RowOf(AfterTrade(h, Sold(qty)))
  {
    if qty < h.shares {
      var left, average := h.shares - qty, h.cost / h.shares;
      MulMonotone(0, average, left);
      QuotientIs(left * average, left, average);
    }
  }

  /** The row records the holding, for every history: it exists while shares are held, its amount is their
      cost, and its average the whole units of the cost of one share. */
  lemma {:induction false} RowIsHolding(trades: seq<Trade>)
    requires forall k :: 0 <= k < |trades| ==> Recordable(trades[k])
    ensures HoldingAfter(trades).Ok()
    ensures RunTrades(trades).row == RowOf(HoldingAfter(trades))
  {
    hide RowOf, AfterTrade, BuyRow, SellRow;
    if trades == [] {
      NoHolding();
    } else {
      var before, t := trades[..|trades| - 1], trades[|trades| - 1];
      RowIsHolding(before);
      assert Recordable(t);
      var h := HoldingAfter(before);
      match t
      case Bought(qty, price) => BuyRowIs(h, qty, price);
      case Sold(qty) => SellRowIs(h, qty);
    }
  }

  lemma NoHolding()
    ensures RowOf(Holding(0, 0)) == None
  {
  }

  /** What buys alone add: their shares and what they paid. */
  function BoughtShares(trades: seq<Trade>): int {
    if trades == [] then 0
    else BoughtShares(trades[..|trades| - 1]) + if trades[|trades| - 1].Bought? then trades[|trades| - 1].qty else 0
  }

  function Paid(trades: seq<Trade>): int {
    if trades == [] then 0
    else
      var t := trades[|trades| - 1];
      Paid(trades[..|trades| - 1]) + if t.Bought? then t.qty * t.price else 0
  }

  lemma {:induction false} HoldingAfterBuys(before: seq<Trade>, buys: seq<Trade>)
    requires forall k :: 0 <= k < |buys| ==> buys[k].Bought?
    ensures var h, h' := HoldingAfter(before), HoldingAfter(before + buys);
            h'.shares == h.shares + BoughtShares(buys) && h'.cost == h.cost + Paid(buys)
  {
    if buys == [] {
      assert before + buys == before;
    } else {
      var n := |buys| - 1;
      assert (before + buys)[..|before + buys| - 1] == before + buys[..n];
      HoldingAfterBuys(before, buys[..n]);
    }
  }

  /** Whatever happened before, buys raise the recorded amount by exactly what they paid, and the quantity by
      exactly their shares; for a new row that is all there is. */
  lemma BuysAddUp(before: seq<Trade>, buys: seq<Trade>)
    requires forall k :: 0 <= k < |before| ==> Recordable(before[k])
    requires forall k :: 0 <= k < |buys| ==> buys[k].Bought? && Recordable(buys[k])
    requires buys != []
    ensures var was, row := RunTrades(before).row, RunTrades(before + buys).row;
            var quantity := BoughtShares(buys) + if was.Some? then was.value.quantity else 0;
            var cost := Paid(buys) + if was.Some? then was.value.total else 0;
            && row.Some? && row.value.quantity == quantity > 0 && row.value.total == cost
            && IsWholeAverage(row.value.average, cost, quantity)
  {
    hide *;
    var all := before + buys;
    AllRecordable(before, buys);
    RowIsHolding(before);
    RowIsHolding(all);
    HoldingAfterBuys(before, buys);
    SharesBought(buys);
    RowOfShares(HoldingAfter(before));
    RowOfShares(HoldingAfter(all));
  }

  lemma AllRecordable(before: seq<Trade>, buys: seq<Trade>)
    requires forall k :: 0 <= k < |before| ==> Recordable(before[k])
    requires forall k :: 0 <= k < |buys| ==> Recordable(buys[k])
    ensures forall k :: 0 <= k < |before + buys| ==> Recordable((before + buys)[k])
  {
    hide Recordable;
  }

  /** The whole units of the cost of one share. */
  predicate IsWholeAverage(average: int, cost: int, quantity: int) {
    0 <= cost - quantity * average < quantity
  }

  lemma RowOfShares(h: Holding)
    requires h.Ok()
    ensures RowOf(h).None? <==> h.shares == 0
    ensures RowOf(h).None? ==> h.cost == 0
    ensures h.shares >= 0
    ensures RowOf(h).Some? ==>
              && RowOf(h).value.quantity == h.shares && RowOf(h).value.total == h.cost
              && IsWholeAverage(RowOf(h).value.average, h.cost, h.shares)
  {
    if h.shares > 0 {
      DivFloor(h.cost, h.shares);
    }
  }

  lemma {:induction false} SharesBought(buys: seq<Trade>)
    requires forall k :: 0 <= k < |buys| ==> buys[k].Bought? && Recordable(buys[k])
    ensures BoughtShares(buys) >= |buys|
  {
    if buys != [] {
      SharesBought(buys[..|buys| - 1]);
      assert Recordable(buys[|buys| - 1]);
    }
  }

  /** A sale keeps the average: what is left is recorded at it, and the row goes with the last share. */
  lemma SaleKeepsAverage(before: seq<Trade>, qty: int)
    requires RunTrades(before).row.Some?
    ensures var was, row := RunTrades(before).row.value, RunTrades(before + [Sold(qty)]).row;
            && (row.None? <==> qty >= was.quantity)
            && (row.Some? ==> row.value == Row(was.quantity - qty, was.average, (was.quantity - qty) * was.average))
  {
    assert (before + [Sold(qty)])[..|before|] == before;
  }

  // ---------------------------------------------------------------- the outcome of a sheet

  datatype Side = Buy | Sell

  /** A row of the executions table. */
  datatype Execution = Execution(side: Side, price: real, qty: int, at: int, reason: Option<string>)

  datatype Outcome = Outcome(
    entryPrice: real,
    exitPrice: real,
    holdingSeconds: int,
    pnl: real,
    pnlPct: real,
    exitReason: Option<string>,
    closedAt: int,
    gross: real,
    fees: real,
    matchedQty: int)

  function Only(side: Side, rows: seq<Execution>): (r: seq<Execution>)
    ensures forall e :: e in r <==> e in rows && e.side == side
  {
    if rows == [] then []
    else
      var rest := Only(side, rows[1..]);
      if rows[0].side == side then [rows[0]] + rest else rest
  }

  function Quantity(rows: seq<Execution>): int {
    if rows == [] then 0 else rows[0].qty + Quantity(rows[1..])
  }

  function Cost(e: Execution): real {
    e.price * e.qty as real
  }

  function Notional(rows: seq<Execution>): real {
    if rows == [] then 0.0 else Cost(rows[0]) + Notional(rows[1..])
  }

  function AveragePrice(rows: seq<Execution>): real
    requires Quantity(rows) > 0
  {
    Notional(rows) / Quantity(rows) as real
  }

  function FirstTime(rows: seq<Execution>): (r: int)
    requires rows != []
    ensures (forall e :: e in rows ==> r <= e.at) && exists e :: e in rows && e.at == r
  {
    if |rows| == 1 then rows[0].at
    else
      var rest := FirstTime(rows[1..]);
      assert exists e :: e in rows[1..] && e.at == rest;
      if rows[0].at <= rest then rows[0].at else rest
  }

  /** The first of the latest rows. */
  function Latest(rows: seq<Execution>): (r: Execution)
    requires rows != []
    ensures r in rows && forall e :: e in rows ==> e.at <= r.at
  {
    if |rows| == 1 then rows[0]
    else
      var rest := Latest(rows[1..]);
      if rows[0].at >= rest.at then rows[0] else rest
  }

  function ComputeOutcome(rows: seq<Execution>): Option<Outcome> {
    var buys, sells := Only(Buy, rows), Only(Sell, rows);
    if buys == [] || sells == [] then None
    else if Quantity(buys) <= 0 || Quantity(sells) <= 0 then None
    else
      var entry, exit := AveragePrice(buys), AveragePrice(sells);
      var matched := MinInt(Quantity(buys), Quantity(sells));
      var gross := (exit - entry) * matched as real;
      var fees := entry * matched as real * BUY_FEE + exit * matched as real * SELL_FEE;
      var pnl := gross - fees;
      var notional := entry * matched as real;
      var last := Latest(sells);
      Some(Outcome(entry, exit, MaxInt(0, last.at - FirstTime(buys)), pnl,
                   if notional > 0.0 then pnl / notional * 100.0 else 0.0,
                   last.reason, last.at, gross, fees, matched))
  }

  ghost predicate Priced(rows: seq<Execution>, lo: real, hi: real) {
    forall e :: e in rows ==> e.qty > 0 && lo <= e.price <= hi
  }

  ghost predicate CostBetween(notional: real, quantity: int, lo: real, hi: real) {
    lo * quantity as real <= notional <= hi * quantity as real
  }

  lemma {:induction false} NotionalBetween(rows: seq<Execution>, lo: real, hi: real)
    requires Priced(rows, lo, hi)
    ensures Quantity(rows) >= |rows|
    ensures CostBetween(Notional(rows), Quantity(rows), lo, hi)
  {
    hide Cost, CostBetween;
    if rows == [] {
      NothingBetween(lo, hi);
    } else {
      NotionalBetween(rows[1..], lo, hi);
      assert rows[0] in rows;
      FillBetween(rows[0], Notional(rows[1..]), Quantity(rows[1..]), lo, hi);
    }
  }

  lemma NothingBetween(lo: real, hi: real)
    ensures CostBetween(0.0, 0, lo, hi)
  {
  }

  lemma FillBetween(e: Execution, notional: real, quantity: int, lo: real, hi: real)
    requires e.qty > 0 && lo <= e.price <= hi
    requires CostBetween(notional, quantity, lo, hi)
    ensures CostBetween(Cost(e) + notional, e.qty + quantity, lo, hi)
  {
    var q, rest := e.qty as real, quantity as real;
    ScaleMono(lo, e.price, q);
    ScaleMono(e.price, hi, q);
    DistributeReal(lo, q, rest);
    DistributeReal(hi, q, rest);
    assert (e.qty + quantity) as real == q + rest;
  }

  lemma ScaleMono(a: real, b: real, k: real)
    requires a <= b && k >= 0.0
    ensures a * k <= b * k
  {
  }

  lemma DistributeReal(a: real, b: real, c: real)
    ensures a * (b + c) == a * b + a * c
  {
  }

  lemma QuotientBetween(n: real, q: real, lo: real, hi: real)
    requires q > 0.0 && lo * q <= n <= hi * q
    ensures lo <= n / q <= hi
  {
    var x := n / q;
    assert x * q == n;
    SignOfProduct(lo - x, q);
    SignOfProduct(x - hi, q);
  }

  lemma MeanBetween(notional: real, quantity: int, lo: real, hi: real)
    requires quantity > 0 && CostBetween(notional, quantity, lo, hi)
    ensures lo <= notional / quantity as real <= hi
  {
    QuotientBetween(notional, quantity as real, lo, hi);
  }

  /** A weighted mean price lies within the range of its fills. */
  lemma AverageWithinFills(rows: seq<Execution>, lo: real, hi: real)
    requires rows != [] && Priced(rows, lo, hi)
    ensures Quantity(rows) > 0 && lo <= AveragePrice(rows) <= hi
  {
    NotionalBetween(rows, lo, hi);
    hide Notional, Quantity, Priced;
    MeanBetween(Notional(rows), Quantity(rows), lo, hi);
  }

  /** For positive quantities there is an outcome exactly when something was bought and something sold,
      and its prices lie within the range of the buys and of the sells. */
  lemma OutcomePrices(rows: seq<Execution>, lo: real, hi: real, lo': real, hi': real)
    requires Priced(Only(Buy, rows), lo, hi) && Priced(Only(Sell, rows), lo', hi')
    ensures ComputeOutcome(rows).Some? <==>
              (exists e :: e in rows && e.side == Buy) && (exists e :: e in rows && e.side == Sell)
    ensures ComputeOutcome(rows).Some? ==>
              lo <= ComputeOutcome(rows).value.entryPrice <= hi && lo' <= ComputeOutcome(rows).value.exitPrice <= hi'
  {
    hide AveragePrice, Quantity, Notional, Only, Latest, FirstTime;
    var buys, sells := Only(Buy, rows), Only(Sell, rows);
    if buys != [] {
      assert buys[0] in rows;
      AverageWithinFills(buys, lo, hi);
    }
    if sells != [] {
      assert sells[0] in rows;
      AverageWithinFills(sells, lo', hi');
    }
  }

  /** When as much was sold as bought, the net profit is what the sales brought after their fees minus
      what the buys cost with theirs. */
  lemma ProfitIsCashFlow(rows: seq<Execution>)
    requires ComputeOutcome(rows).Some?
    requires Quantity(Only(Buy, rows)) == Quantity(Only(Sell, rows))
    ensures ComputeOutcome(rows).value.pnl ==
            Notional(Only(Sell, rows)) * (1.0 - SELL_FEE) - Notional(Only(Buy, rows)) * (1.0 + BUY_FEE)
  {
    hide Quantity, Notional, Only, Latest, FirstTime;
    var q := Quantity(Only(Buy, rows)) as real;
    assert AveragePrice(Only(Buy, rows)) * q == Notional(Only(Buy, rows));
    assert AveragePrice(Only(Sell, rows)) * q == Notional(Only(Sell, rows));
  }

  /** Buys and sales of a sheet are all of its executions, each once. */
  lemma {:induction false} OnlySplits(rows: seq<Execution>)
    ensures multiset(Only(Buy, rows)) + multiset(Only(Sell, rows)) == multiset(rows)
  {
    if rows != [] {
      OnlySplits(rows[1..]);
      assert rows == [rows[0]] + rows[1..];
    }
  }

  /** Their shares and costs add up. */
  lemma {:induction false} SumsSplit(rows: seq<Execution>)
    ensures Quantity(Only(Buy, rows)) + Quantity(Only(Sell, rows)) == Quantity(rows)
    ensures Notional(Only(Buy, rows)) + Notional(Only(Sell, rows)) == Notional(rows)
  {
    hide Cost;
    if rows != [] {
      SumsSplit(rows[1..]);
      OnlyFirst(rows, Buy);
      OnlyFirst(rows, Sell);
      hide Only;
    }
  }

  lemma OnlyFirst(rows: seq<Execution>, side: Side)
    requires rows != []
    ensures var rest := Only(side, rows[1..]);
            if rows[0].side == side
            then && Quantity(Only(side, rows)) == rows[0].qty + Quantity(rest)
                 && Notional(Only(side, rows)) == Cost(rows[0]) + Notional(rest)
            else Only(side, rows) == rest
  {
    hide Cost;
    assert ([rows[0]] + Only(side, rows[1..]))[1..] == Only(side, rows[1..]);
  }

  /** All of an outcome, in terms of the executions: prices that account for what was paid and received, the
      shares bought and sold again, both fees, the first buy, and the reason of a latest sale. */
  lemma OutcomeMeaning(rows: seq<Execution>)
    requires ComputeOutcome(rows).Some?
    ensures var o := ComputeOutcome(rows).value;
            var buys, sells := Only(Buy, rows), Only(Sell, rows);
            && o.entryPrice * Quantity(buys) as real == Notional(buys)
            && o.exitPrice * Quantity(sells) as real == Notional(sells)
            && 0 < o.matchedQty <= Quantity(buys) && o.matchedQty <= Quantity(sells)
            && (o.matchedQty == Quantity(buys) || o.matchedQty == Quantity(sells))
            && o.gross == (o.exitPrice - o.entryPrice) * o.matchedQty as real
            && o.fees == o.entryPrice * o.matchedQty as real * BUY_FEE + o.exitPrice * o.matchedQty as real * SELL_FEE
            && o.pnl == o.gross - o.fees
            && (o.entryPrice > 0.0 ==> o.pnlPct * (o.entryPrice * o.matchedQty as real) == 100.0 * o.pnl)
            && (o.entryPrice <= 0.0 ==> o.pnlPct == 0.0)
    ensures var o := ComputeOutcome(rows).value;
            && (forall e :: e in rows && e.side == Sell ==> e.at <= o.closedAt)
            && (exists e :: e in rows && e.side == Sell && e.at == o.closedAt && e.reason == o.exitReason)
            && (exists e :: e in rows && e.side == Buy && o.holdingSeconds == MaxInt(0, o.closedAt - e.at)
                            && forall e' :: e' in rows && e'.side == Buy ==> e.at <= e'.at)
  {
    hide Quantity, Notional, Only, Latest, FirstTime;
    var o := ComputeOutcome(rows).value;
    var buys, sells := Only(Buy, rows), Only(Sell, rows);
    QuotientTimes(Notional(buys), Quantity(buys) as real);
    QuotientTimes(Notional(sells), Quantity(sells) as real);
    OutcomeRate(rows);
  }

  lemma QuotientTimes(a: real, b: real)
    requires b != 0.0
    ensures a / b * b == a
  {
  }

  lemma OutcomeRate(rows: seq<Execution>)
    requires ComputeOutcome(rows).Some?
    ensures var o := ComputeOutcome(rows).value;
            && (o.entryPrice > 0.0 ==> o.pnlPct * (o.entryPrice * o.matchedQty as real) == 100.0 * o.pnl)
            && (o.entryPrice <= 0.0 ==> o.pnlPct == 0.0)
  {
    hide Quantity, Notional, Only, Latest, FirstTime, AveragePrice;
    var o := ComputeOutcome(rows).value;
    var notional := o.entryPrice * o.matchedQty as real;
    SignOfProduct(o.entryPrice, o.matchedQty as real);
    if notional > 0.0 {
      QuotientTimes(o.pnl, notional);
      assert o.pnlPct == o.pnl / notional * 100.0;
      assert o.pnlPct * notional == (o.pnl / notional * notional) * 100.0;
    }
  }

  /** A trade earns money exactly when the exit price covers both fees. */
  lemma ProfitableIff(rows: seq<Execution>)
    requires ComputeOutcome(rows).Some?
    ensures var o := ComputeOutcome(rows).value;
            o.pnl > 0.0 <==> o.exitPrice * (1.0 - SELL_FEE) > o.entryPrice * (1.0 + BUY_FEE)
  {
    hide AveragePrice, Quantity, Notional, Only, Latest, FirstTime;
    var o := ComputeOutcome(rows).value;
    SignOfProduct(o.exitPrice * (1.0 - SELL_FEE) - o.entryPrice * (1.0 + BUY_FEE), o.matchedQty as real);
  }

  // ---------------------------------------------------------------- the recorder

  /** Every stock's row is what its committed trades make of it. */
  ghost predicate RowsFollow(positions: map<string, Row>, trades: map<string, seq<Trade>>) {
    forall ticker :: RowFollows(ticker, positions, trades)
  }

  ghost predicate RowFollows(ticker: string, positions: map<string, Row>, trades: map<string, seq<Trade>>) {
    Get(positions, ticker) == RunTrades(Get(trades, ticker).GetOr([])).row
  }

  function RowAfter(row: Option<Row>, t: Trade): Option<Row> {
    match t
    case Bought(qty, price) => Some(BuyRow(row, qty, price))
    case Sold(qty) => SellRow(row, qty)
  }

  lemma RowsFollowStep(positions: map<string, Row>, positions': map<string, Row>, trades: map<string, seq<Trade>>,
                       ticker: string, t: Trade)
    requires RowsFollow(positions, trades)
    requires Get(positions', ticker) == RowAfter(Get(positions, ticker), t)
    requires forall other :: other != ticker ==> Get(positions', other) == Get(positions, other)
    ensures RowsFollow(positions', trades[ticker := Get(trades, ticker).GetOr([]) + [t]])
  {
    hide BuyRow, SellRow;
    var before := Get(trades, ticker).GetOr([]);
    var trades' := trades[ticker := before + [t]];
    assert (before + [t])[..|before + [t]| - 1] == before;
    forall other
      ensures RowFollows(other, positions', trades')
    {
      assert RowFollows(other, positions, trades);
    }
  }

  /** Tables as they stand after the recorder's transactions. `database` says whether a transaction
      commits; one that does not leaves every table alone. */
  class TradeRecorder {
    var executions: map<string, seq<Execution>>
    var positions: map<string, Row>
    var outcomes: map<string, Outcome>
    /** The committed trades of every stock. */
    ghost var trades: map<string, seq<Trade>>

    ghost predicate Valid()
      reads this`positions, this`trades, this`executions
    {
      && RowsFollow(positions, trades)
      && (forall sheet, e :: sheet in executions && e in executions[sheet] ==> e.qty > 0)
    }

    constructor ()
      ensures Valid() && executions == map[] && positions == map[] && outcomes == map[] && trades == map[]
    {
      executions, positions, outcomes, trades := map[], map[], map[], map[];
    }

    ghost predicate Frame(sheet: string, ticker: string, e: Execution, t: Trade,
                          rows: map<string, seq<Execution>>, history: map<string, seq<Trade>>)
      reads this
    {
      && executions == rows[sheet := Get(rows, sheet).GetOr([]) + [e]]
      && trades == history[ticker := Get(history, ticker).GetOr([]) + [t]]
    }

    method RecordBuy(sheet: string, ticker: string, qty: int, price: real, at: int, database: bool)
      requires Valid()
      modifies this
      ensures Valid() && outcomes == old(outcomes)
      ensures if qty > 0 && database then
                Frame(sheet, ticker, Execution(Buy, price, qty, at, None), Bought(qty, Trunc(price)),
                      old(executions), old(trades))
              else
                executions == old(executions) && positions == old(positions) && trades == old(trades)
    {
      if qty <= 0 || !database {
        return;
      }
      hide BuyRow, SellRow, RunTrades, RowsFollow;
      executions := executions[sheet := Get(executions, sheet).GetOr([]) + [Execution(Buy, price, qty, at, None)]];
      positions := positions[ticker := BuyRow(Get(positions, ticker), qty, Trunc(price))];
      trades := trades[ticker := Get(trades, ticker).GetOr([]) + [Bought(qty, Trunc(price))]];
      RowsFollowStep(old(positions), positions, old(trades), ticker, Bought(qty, Trunc(price)));
    }

    /** A sale of a stock without a row changes no row; the row disappears with its last share. */
    method UpdatePositionSell(ticker: string, qty: int)
      modifies this`positions
      ensures Get(positions, ticker) == SellRow(Get(old(positions), ticker), qty)
      ensures forall other :: other != ticker ==> Get(positions, other) == Get(old(positions), other)
    {
      if ticker !in positions {
        return;
      }
      var row := positions[ticker];
      var left := MaxInt(row.quantity - qty, 0);
      if left == 0 {
        positions := positions - {ticker};
      } else {
        positions := positions[ticker := row.(quantity := left, total := left * row.average)];
      }
    }

    method RecordOutcome(sheet: string)
      requires sheet in executions
      modifies this`outcomes
      ensures outcomes == if ComputeOutcome(executions[sheet]).Some?
                          then old(outcomes)[sheet := ComputeOutcome(executions[sheet]).value] else old(outcomes)
    {
      var outcome := ComputeOutcome(executions[sheet]);
      if outcome.Some? {
        outcomes := outcomes[sheet := outcome.value];
      }
    }

    /** A full sale also writes the sheet's outcome, from all its executions, in a second transaction. */
    method RecordSell(sheet: string, ticker: string, qty: int, price: real, at: int, reason: string,
                      fullyClosed: bool, database: bool, second: bool)
      requires Valid()
      modifies this
      ensures Valid()
      ensures if qty > 0 && database then
                Frame(sheet, ticker, Execution(Sell, price, qty, at, Some(reason)), Sold(qty), old(executions),
                      old(trades))
              else
                executions == old(executions) && positions == old(positions) && trades == old(trades)
      ensures outcomes == if qty > 0 && database && fullyClosed && second && ComputeOutcome(executions[sheet]).Some?
                          then old(outcomes)[sheet := ComputeOutcome(executions[sheet]).value] else old(outcomes)
    {
      if qty <= 0 || !database {
        return;
      }
      hide BuyRow, SellRow, ComputeOutcome, RunTrades, RowsFollow;
      var sold := Execution(Sell, price, qty, at, Some(reason));
      executions := executions[sheet := Get(executions, sheet).GetOr([]) + [sold]];
      UpdatePositionSell(ticker, qty);
      trades := trades[ticker := Get(trades, ticker).GetOr([]) + [Sold(qty)]];
      RowsFollowStep(old(positions), positions, old(trades), ticker, Sold(qty));
      if fullyClosed && second {
        RecordOutcome(sheet);
      }
    }
  }
}
