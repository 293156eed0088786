/** Live exits: an exit decision becomes a market sell order, and the broker's answers change the
    tracked position. Broker answers and control flags are inputs. */
module ExitExecutor {
  import opened Wrappers
  import opened ExitModel
  import opened ExitEvaluator
  import opened PositionTracker
  import PendingEntry
  import opened Orders

  // ---------------------------------------------------------------- answers of the outside world

  datatype Control = Control(stopped: bool, dryrun: bool)

  datatype ExitOutcome =
    | NoDecision
    | Raised
    | SlRaised
    | BlockedStop
    | DryRun(closedQty: int, fullyClosed: bool)
    | SellRejected
    | NotFilled
    | Sold(closedQty: int, avgPrice: real, fullyClosed: bool)

  /** A live sale takes its fraction of what is left. */
  function LiveSellQuantity(remaining: int, portion: real): int {
    MinInt(MaxInt(1, ShareOf(remaining, portion)), remaining)
  }

  /** The decision leads to an order. */
  predicate PlacesOrder(d: ExitDecision, c: Control) {
    d.shouldClose && !c.stopped && !c.dryrun
  }

  // ---------------------------------------------------------------- one sheet, as a value

  /** One tracked sheet: its state, whether the tracker still has it, and its backup copy. */
  datatype Live = Live(pos: Position, tracked: bool, saved: Option<Position>)

  /** A changed state, written to the backup while tracked. */
  function WithPosition(l: Live, pos: Position): Live {
    Live(pos, l.tracked, if l.tracked then Some(pos) else l.saved)
  }

  /** A changed state of a sheet that is no longer tracked. */
  function Dropped(l: Live, pos: Position): Live {
    Live(pos, false, if l.tracked then None else l.saved)
  }

  function Failure(l: Live, maxExitFailures: int): Live {
    var pos := l.pos.(exitFailCount := l.pos.exitFailCount + 1);
    if pos.exitFailCount < maxExitFailures then WithPosition(l, pos) else Dropped(l, pos)
  }

  /** The effect of executing one decision. */
  function Effect(l: Live, d: ExitDecision, c: Control, r: Reply, maxExitFailures: int): (Live, ExitOutcome) {
    if !d.shouldClose then
      (if d.newSlPrice.None? then l else WithPosition(l, l.pos.(breakevenSlPrice := d.newSlPrice)), SlRaised)
    else if c.stopped then (l, BlockedStop)
    else
      var ordered := LiveSellQuantity(l.pos.quantity, d.portion);
      if c.dryrun then (l, DryRun(ordered, ordered >= l.pos.quantity))
      else if r.CallRaises? then (l, Raised)
      else if r.OrderRefused? then (Failure(l, maxExitFailures), SellRejected)
      else
        match Believed(r, ordered)
        case None => (Failure(l, maxExitFailures), NotFilled)
        case Some(status) =>
          var pos := l.pos.(quantity := l.pos.quantity - status.filledQty, exitFailCount := 0);
          (if pos.quantity <= 0 then Dropped(l, pos) else WithPosition(l, pos),
           Sold(status.filledQty, status.avgPrice, pos.quantity <= 0))
  }

  /** A live order is the whole shares of the portion of what is left. */
  lemma LiveSellQuantityIs(remaining: int, portion: real)
    requires remaining >= 1
    ensures IsWholePart(LiveSellQuantity(remaining, portion), remaining as real * portion, remaining)
  {
    var x := FractionOf(remaining, portion);
    assert ShareOf(remaining, portion) == Trunc(x);
    assert x == remaining as real * portion;
    hide ShareOf, FractionOf;
    WholePart(x, remaining);
  }

  /** What comes of a decision, for every control and reply: each outcome exactly in its case, and with a sale the
      quantity and price of one status. */
  lemma OutcomeMeaning(l: Live, d: ExitDecision, c: Control, r: Reply, maxExitFailures: int)
    ensures var x := Effect(l, d, c, r, maxExitFailures).1;
            var ordered := LiveSellQuantity(l.pos.quantity, d.portion);
            && x != NoDecision
            && (x == SlRaised <==> !d.shouldClose)
            && (x == BlockedStop <==> d.shouldClose && c.stopped)
            && (x.DryRun? <==> d.shouldClose && !c.stopped && c.dryrun)
            && (x.DryRun? ==> x.closedQty == ordered && (x.fullyClosed <==> ordered >= l.pos.quantity))
            && (x == Raised <==> PlacesOrder(d, c) && r.CallRaises?)
            && (x == SellRejected <==> PlacesOrder(d, c) && r.OrderRefused?)
            && (x == NotFilled <==> PlacesOrder(d, c) && r.OrderTaken? && Believed(r, ordered).None?)
            && (x.Sold? <==> PlacesOrder(d, c) && Believed(r, ordered).Some?)
            && (x.Sold? ==> Believed(r, ordered) == Some(OrderStatus(x.closedQty, x.avgPrice))
                            && (x.fullyClosed <==> x.closedQty >= l.pos.quantity))
  {
    hide LiveSellQuantity;
    BelievedMeaning(r, LiveSellQuantity(l.pos.quantity, d.portion));
  }

  /** What an execution changes: the raised stop of a decision that does not sell, the quantity by the shares sold,
      the failure count, and nothing else of the position; the sheet is dropped exactly when nothing is left after
      a sale or the failures reach their limit. */
  lemma EffectMeaning(l: Live, d: ExitDecision, c: Control, r: Reply, maxExitFailures: int)
    ensures var (l', x) := Effect(l, d, c, r, maxExitFailures);
            var sold := if x.Sold? then x.closedQty else 0;
            var failed := x == SellRejected || x == NotFilled;
            var failures := if x.Sold? then 0 else l.pos.exitFailCount + if failed then 1 else 0;
            && l'.pos == l.pos.(quantity := l.pos.quantity - sold, exitFailCount := failures,
                                breakevenSlPrice := if x == SlRaised && d.newSlPrice.Some? then d.newSlPrice
                                                    else l.pos.breakevenSlPrice)
            && (l'.tracked <==>
                  l.tracked && !(x.Sold? && l'.pos.quantity <= 0) && !(failed && failures >= maxExitFailures))
  {
    hide LiveSellQuantity;
  }

  // ---------------------------------------------------------------- the executor object

  class Executor {
    const tracker: Tracker
    const maxExitFailures: int

    constructor (tracker: Tracker, maxExitFailures: int)
      ensures this.tracker == tracker && this.maxExitFailures == maxExitFailures
    {
      this.tracker, this.maxExitFailures := tracker, maxExitFailures;
    }

    /** The value of one sheet as executor and tracker hold it. */
    ghost function View(state: PositionState): Live
      reads state, tracker
    {
      Live(state.View(), state.sheetId in tracker.states,
           if state.sheetId in tracker.redis then Some(Decode(tracker.redis[state.sheetId])) else None)
    }

    /** The tracker's entry for this sheet, if any, is this object. */
    ghost predicate Owns(state: PositionState)
      reads tracker
    {
      tracker.Valid() && (state.sheetId in tracker.states ==> tracker.states[state.sheetId] == state)
    }

    /** Other sheets are untouched. */
    twostate predicate OthersKept(state: PositionState)
      reads tracker
    {
      && tracker.states - {state.sheetId} == old(tracker.states) - {state.sheetId}
      && tracker.redis - {state.sheetId} == old(tracker.redis) - {state.sheetId}
    }

    /** Count a failed sell; at the limit the sheet is given up. */
    method RecordExitFailure(state: PositionState)
      requires Owns(state)
      modifies state, tracker
      ensures Owns(state) && OthersKept(state)
      ensures View(state) == Failure(old(View(state)), maxExitFailures)
    {
      state.exitFailCount := state.exitFailCount + 1;
      DecodeEncode(state.View());
      if state.exitFailCount < maxExitFailures {
        tracker.Persist(state.sheetId);
        return;
      }
      tracker.Close(state.sheetId);
    }

    /** Move the stop; no order. */
    method MoveStop(state: PositionState, price: real)
      requires Owns(state)
      modifies state`breakevenSlPrice, tracker
      ensures Owns(state) && OthersKept(state)
      ensures View(state) == WithPosition(old(View(state)), state.View())
      ensures state.View() == old(state.View()).(breakevenSlPrice := Some(price))
    {
      state.breakevenSlPrice := Some(price);
      DecodeEncode(state.View());
      tracker.Persist(state.sheetId);
    }

    /** Subtract a reported fill; the sheet is closed when nothing is left. */
    method SubtractFill(state: PositionState, filledQty: int) returns (fullyClosed: bool)
      requires Owns(state)
      modifies state`quantity, state`exitFailCount, tracker
      ensures Owns(state) && OthersKept(state)
      ensures state.View() == old(state.View()).(quantity := old(state.quantity) - filledQty, exitFailCount := 0)
      ensures fullyClosed <==> state.quantity <= 0
      ensures View(state) == if fullyClosed then Dropped(old(View(state)), state.View())
                             else WithPosition(old(View(state)), state.View())
    {
      hide Encode, Decode, PendingEntry.Index.Exact;
      state.quantity := state.quantity - filledQty;
      fullyClosed := state.quantity <= 0;
      state.exitFailCount := 0;
      DecodeEncode(state.View());
      if fullyClosed {
        tracker.Close(state.sheetId);
      } else {
        tracker.Persist(state.sheetId);
      }
    }

    method Execute(state: PositionState, d: ExitDecision, c: Control, r: Reply) returns (outcome: ExitOutcome)
      requires Owns(state)
      modifies state, tracker
      ensures Owns(state) && OthersKept(state)
      ensures (View(state), outcome) == Effect(old(View(state)), d, c, r, maxExitFailures)
    {
      hide Encode, Decode, LiveSellQuantity;
      if !d.shouldClose {
        if d.newSlPrice.Some? {
          MoveStop(state, d.newSlPrice.value);
        }
        return SlRaised;
      }
      if c.stopped {
        return BlockedStop;
      }
      var remaining := state.quantity;
      var qtyToSell := LiveSellQuantity(remaining, d.portion);
      if c.dryrun {
        return DryRun(qtyToSell, qtyToSell >= state.quantity);
      }
      if r.CallRaises? {
        return Raised;
      }
      if r.OrderRefused? {
        RecordExitFailure(state);
        return SellRejected;
      }
      if r.confirmed.None? || r.confirmed.value.filledQty <= 0 {
        RecordExitFailure(state);
        return NotFilled;
      }
      var status := r.confirmed.value;
      if status.filledQty < qtyToSell {
        if r.afterCancel.Some? && r.afterCancel.value.filledQty > 0 {
          status := r.afterCancel.value;
        }
      }
      var fullyClosed := SubtractFill(state, status.filledQty);
      return Sold(status.filledQty, status.avgPrice, fullyClosed);
    }
  }
}
