/** Live entries (entry_executor.py:81-262, 351-396): a sheet becomes a buy order, a partly filled order is
    cancelled and asked for once more, and what was filled becomes a tracked position. */
module EntryExecutor {
  import opened Wrappers
  import opened ExitModel
  import opened ExitEvaluator
  import opened PositionTracker
  import opened Orders

  datatype Trigger = Market | Limit(price: Option<real>)

  datatype EntrySheet = EntrySheet(id: string, ticker: string, trigger: Trigger)

  /** `price` is absent for a market order. */
  datatype Order = Order(ticker: string, quantity: int, price: Option<int>)

  datatype EntryOutcome =
    | InvalidOrder
    | SimulatedFill(qty: int)
    | EntryRaised
    | Refused
    | Unfilled
    | Entered(qty: int, price: real)

  // ---------------------------------------------------------------- tick size

  /** The exchange's price unit at a price. */
  function TickSize(price: int): int {
    if price < 2000 then 1
    else if price < 5000 then 5
    else if price < 20000 then 10
    else if price < 50000 then 50
    else if price < 200000 then 100
    else if price < 500000 then 500
    else 1000
  }

  function AlignTickSize(price: int): int {
    price / TickSize(price) * TickSize(price)
  }

  /** The aligned price is the highest multiple of the price's unit that is not above it. */
  lemma Aligned(price: int)
    ensures AlignTickSize(price) <= price < AlignTickSize(price) + TickSize(price)
    ensures AlignTickSize(price) % TickSize(price) == 0
  {
    var unit := TickSize(price);
    assert price == price / unit * unit + price % unit;
  }

  /** Aligning never falls into a lower price band, so the result is valid in its own band and aligning it
      again changes nothing. */
  lemma AlignedTwice(price: int)
    ensures TickSize(AlignTickSize(price)) == TickSize(price)
    ensures AlignTickSize(AlignTickSize(price)) == AlignTickSize(price)
  {
    Aligned(price);
    if price >= 2000 {
      BandStart(price);
    }
    Exact(AlignTickSize(price), TickSize(price));
  }

  lemma Exact(a: int, unit: int)
    requires unit > 0 && a % unit == 0
    ensures a / unit * unit == a
  {
  }

  /** The lowest price of the band that a price of at least 2000 lies in. */
  function BandFloor(price: int): int {
    if price < 5000 then 2000
    else if price < 20000 then 5000
    else if price < 50000 then 20000
    else if price < 200000 then 50000
    else if price < 500000 then 200000
    else 500000
  }

  lemma BandStart(price: int)
    requires price >= 2000
    ensures AlignTickSize(price) >= BandFloor(price)
  {
    var unit, start := TickSize(price), BandFloor(price);
    assert start % unit == 0;
    Exact(start, unit);
    Aligned(price);
    NoMultipleSkipped(price / unit, start / unit, unit);
  }

  lemma NoMultipleSkipped(q: int, s: int, unit: int)
    requires unit > 0 && s * unit < q * unit + unit
    ensures q * unit >= s * unit
  {
    if q < s {
      MulMonotone(q + 1, s, unit);
    }
  }

  // ---------------------------------------------------------------- entering

  /** No order without shares, and no limit order without a positive price. */
  function BuildOrder(sheet: EntrySheet, quantity: int): Option<Order> {
    if quantity <= 0 then None
    else
      match sheet.trigger
      case Market => Some(Order(sheet.ticker, quantity, None))
      case Limit(price) =>
        if price.None? || price.value <= 0.0 then None
        else Some(Order(sheet.ticker, quantity, Some(AlignTickSize(Trunc(price.value)))))
  }

  /** A limit order never bids above the sheet's price. */
  lemma NeverBidsAbove(sheet: EntrySheet, quantity: int)
    requires sheet.trigger.Limit? && BuildOrder(sheet, quantity).Some?
    ensures sheet.trigger.price.Some? && BuildOrder(sheet, quantity).value.price.Some?
    ensures BuildOrder(sheet, quantity).value.price.value as real <= sheet.trigger.price.value
    ensures BuildOrder(sheet, quantity).value.quantity == quantity > 0
  {
    Aligned(Trunc(sheet.trigger.price.value));
  }

  /** The rest of an order that is not completely filled is always asked to be cancelled. */
  predicate CancelAsked(reply: Reply, quantity: int) {
    reply.OrderTaken? && (reply.confirmed.None? || reply.confirmed.value.filledQty < quantity)
  }

  class Executor {
    const tracker: Tracker

    constructor (tracker: Tracker)
      ensures this.tracker == tracker
    {
      this.tracker := tracker;
    }

    /** Nothing is tracked unless shares were filled; what is tracked is a fresh position of the filled
        shares whose watermark is its entry price. */
    method Execute(sheet: EntrySheet, quantity: int, dryrun: bool, reply: Reply, now: Time)
      returns (outcome: EntryOutcome, cancelAsked: bool)
      requires tracker.Valid()
      modifies tracker
      ensures outcome.Entered? <==>
                BuildOrder(sheet, quantity).Some? && !dryrun && Believed(reply, quantity).Some?
      ensures outcome.InvalidOrder? <==> BuildOrder(sheet, quantity).None?
      ensures outcome.SimulatedFill? <==> BuildOrder(sheet, quantity).Some? && dryrun
      ensures outcome.EntryRaised? <==> BuildOrder(sheet, quantity).Some? && !dryrun && reply.CallRaises?
      ensures outcome.Refused? <==> BuildOrder(sheet, quantity).Some? && !dryrun && reply.OrderRefused?
      ensures outcome.SimulatedFill? ==> outcome.qty == quantity
      ensures cancelAsked <==> BuildOrder(sheet, quantity).Some? && !dryrun && CancelAsked(reply, quantity)
      ensures !outcome.Entered? ==>
                tracker.states == old(tracker.states) && tracker.redis == old(tracker.redis) && tracker.Valid()
      ensures outcome.Entered? ==>
                && Believed(reply, quantity) == Some(OrderStatus(outcome.qty, outcome.price)) && outcome.qty > 0
                && sheet.id in tracker.states && fresh(tracker.states[sheet.id])
                && tracker.states == old(tracker.states)[sheet.id := tracker.states[sheet.id]]
                && tracker.states[sheet.id].View() ==
                   NewPosition(sheet.id, sheet.ticker, outcome.price, outcome.qty, now, outcome.price)
                && (sheet.id !in old(tracker.states) ==> tracker.Valid())
    {
      cancelAsked := false;
      var order := BuildOrder(sheet, quantity);
      if order.None? {
        return InvalidOrder, false;
      }
      if dryrun {
        return SimulatedFill(quantity), false;
      }
      if reply.CallRaises? {
        return EntryRaised, false;
      }
      if reply.OrderRefused? {
        return Refused, false;
      }
      if reply.confirmed.None? || reply.confirmed.value.filledQty <= 0 {
        return Unfilled, true;
      }
      var status := reply.confirmed.value;
      if status.filledQty < quantity {
        cancelAsked := true;
        if reply.afterCancel.Some? && reply.afterCancel.value.filledQty > 0 {
          status := reply.afterCancel.value;
        }
      }
      var state := new PositionState(sheet.id, sheet.ticker, status.avgPrice, status.filledQty, now, status.avgPrice);
      tracker.Register(state);
      outcome := Entered(status.filledQty, status.avgPrice);
    }
  }

  /** Shares that are tracked for a new sheet after one execution. */
  function TrackedShares(sheet: EntrySheet, quantity: int, dryrun: bool, reply: Reply): int {
    if BuildOrder(sheet, quantity).None? || dryrun then 0 else BelievedQty(reply, quantity)
  }

  /** Shares the account really gains by it. */
  function BoughtShares(sheet: EntrySheet, quantity: int, dryrun: bool, reply: Reply): int {
    if BuildOrder(sheet, quantity).None? || dryrun then 0 else reply.filled
  }

  /** Never more shares are tracked than were bought; and exactly the shares that were bought are tracked if
      and only if no order went out or its last word was heard. So shares stay untracked when a call raised
      or an order was refused although shares were bought, when the first status showed none (such an order
      is cancelled but not asked about again), and when the status after the cancel could not be read or
      was not yet the last one. */
  lemma TracksWhatWasFilled(sheet: EntrySheet, quantity: int, dryrun: bool, reply: Reply)
    requires Truthful(reply, MaxInt(quantity, 0))
    ensures 0 <= TrackedShares(sheet, quantity, dryrun, reply) <= BoughtShares(sheet, quantity, dryrun, reply)
    ensures TrackedShares(sheet, quantity, dryrun, reply) == BoughtShares(sheet, quantity, dryrun, reply) <==>
              BuildOrder(sheet, quantity).None? || dryrun || LastWordHeard(reply)
  {
    if quantity > 0 {
      BelievesNoMore(reply, quantity);
    }
  }

  /** Two ways to lose shares: a fill between an empty first status and its cancel, and one between a first
      status with shares and a second status that cannot be read. */
  lemma FillsLost()
    ensures var early := OrderTaken(None, None, 10);
            var late := OrderTaken(Some(OrderStatus(3, 100.0)), None, 5);
            && Truthful(early, 10) && Believed(early, 10).None?
            && Truthful(late, 10) && BelievedQty(late, 10) == 3 < late.filled
  {
  }
}
