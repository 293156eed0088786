/** The entry path as a state machine: the sheet consumer, the tick loop with the entry executor, and
    the purge loop interleave at their await points. One action is what one of them does between two
    awaits. Market data, the broker, the clock and the cooldown store answer arbitrarily. */
module EntryProtocol {
  import opened Wrappers
  import opened PendingEntry

  datatype ConsumerPc =
    | CIdle
    | CCooldown(sheet: Sheet)

  datatype TickPc =
    | TIdle
    | TLoop(rest: seq<Sheet>)
    | TSizing(sheet: Sheet, rest: seq<Sheet>)
    | TOrdering(sheet: Sheet, rest: seq<Sheet>)
    | TFilled(sheet: Sheet, rest: seq<Sheet>)
    | TForget(sheet: Sheet, rest: seq<Sheet>)

  datatype PurgePc =
    | PIdle
    | PRemoving(ids: seq<string>)

  /** Shared maps and the position of each task. `fails` counts, for the proof, the failed outcomes of
      a sheet since it last entered the queue. */
  datatype State = State(
    queue: map<string, Sheet>,
    pending: Index,
    held: Index,
    rejects: map<string, nat>,
    fails: map<string, nat>,
    consumer: ConsumerPc,
    tick: TickPc,
    purge: PurgePc)

  datatype Verdict = Passed | NotMet | Expired

  datatype Action =
    | Receive(sheet: Sheet)
    | CooldownAnswered(recentStopLoss: bool)
    | ExitClosed(id: string)
    | TickArrives(sheets: seq<Sheet>, ticker: string)
    | LookAt(verdict: Verdict, now: int)
    | Sized(qty: int)
    | OrderRaised
    | OrderFailed
    | OrderSimulated
    | OrderFilled
    | AfterFillRaised
    | FillReported
    | Forgotten
    | TickDone
    | PurgeScan(now: int)
    | PurgeNext
    | PurgeDone

  function Dequeue(s: State, id: string): State {
    s.(queue := s.queue - {id}, pending := s.pending.Remove(id))
  }

  function Enqueue(s: State, sheet: Sheet): State {
    s.(queue := s.queue[sheet.id := sheet],
       pending := s.pending.Add(sheet.id, sheet.ticker),
       fails := s.fails[sheet.id := 0])
  }

  function RejectCount(s: State, id: string): nat {
    if id in s.rejects then s.rejects[id] else 0
  }

  /** The snapshot a tick takes: the queued sheets of its ticker, each once. */
  ghost predicate Snapshot(s: State, sheets: seq<Sheet>, ticker: string) {
    && (forall k :: 0 <= k < |sheets| ==>
          (sheets[k].id in s.queue && s.queue[sheets[k].id] == sheets[k] && sheets[k].ticker == ticker))
    && (forall id :: id in s.queue && s.queue[id].ticker == ticker ==> s.queue[id] in sheets)
  }

  /** When an action can happen. `ticker` says which ticker a sheet id belongs to. */
  ghost predicate Enabled(s: State, a: Action, ticker: string -> string) {
    match a
    case Receive(sheet) => s.consumer.CIdle? && sheet.ticker == ticker(sheet.id)
    case CooldownAnswered(_) => s.consumer.CCooldown?
    // the exit path, or a manual sale, at any moment
    case ExitClosed(_) => true
    case TickArrives(sheets, t) => s.tick.TIdle? && Snapshot(s, sheets, t)
    case LookAt(verdict, now) =>
      && s.tick.TLoop? && s.tick.rest != []
      && (verdict.Expired? ==> s.tick.rest[0].validUntil <= now)
      && (verdict.Passed? ==> now < s.tick.rest[0].validUntil)
    case Sized(_) => s.tick.TSizing?
    case OrderRaised => s.tick.TOrdering?
    case OrderFailed => s.tick.TOrdering?
    case OrderSimulated => s.tick.TOrdering?
    case OrderFilled => s.tick.TOrdering?
    case AfterFillRaised => s.tick.TFilled?
    case FillReported => s.tick.TFilled?
    case Forgotten => s.tick.TForget?
    case TickDone => s.tick == TLoop([])
    case PurgeScan(_) => s.purge.PIdle?
    case PurgeNext => s.purge.PRemoving? && s.purge.ids != []
    case PurgeDone => s.purge == PRemoving([])
  }

  /** Ids of the expired sheets, in some order. */
  ghost function ExpiredIds(queue: map<string, Sheet>, ids: set<string>, now: int): (r: seq<string>)
    decreases ids
  {
    if ids == {} then []
    else
      var id :| id in ids;
      (if id in queue && queue[id].validUntil <= now then [id] else []) + ExpiredIds(queue, ids - {id}, now)
  }

  ghost function Next(s: State, a: Action, ticker: string -> string, maxRejects: nat): State
    requires Enabled(s, a, ticker)
  {
    match a
    // consumer: both dedup guards, then wait for the cooldown store
    case Receive(sheet) =>
      if s.held.Has(sheet.ticker) || s.pending.Has(sheet.ticker) then s
      else s.(consumer := CCooldown(sheet))
    case CooldownAnswered(recent) =>
      var sheet := s.consumer.sheet;
      (if recent || sheet.id in s.queue then s else Enqueue(s, sheet)).(consumer := CIdle)
    // tick loop: exits, then the pending sheets of the ticker
    case ExitClosed(id) => s.(held := s.held.Remove(id))
    case TickArrives(sheets, _) => s.(tick := TLoop(sheets))
    case LookAt(verdict, _) =>
      var sheet, rest := s.tick.rest[0], s.tick.rest[1..];
      if s.held.Has(sheet.ticker) || verdict.Expired? then Dequeue(s, sheet.id).(tick := TLoop(rest))
      else if verdict.NotMet? then s.(tick := TLoop(rest))
      else s.(tick := TSizing(sheet, rest))
    case Sized(qty) =>
      s.(tick := if qty <= 0 then TLoop(s.tick.rest) else TOrdering(s.tick.sheet, s.tick.rest))
    case OrderRaised => s.(tick := TLoop(s.tick.rest))
    case OrderFailed =>
      var id := s.tick.sheet.id;
      var count := RejectCount(s, id) + 1;
      var s1 := s.(rejects := s.rejects[id := count],
                   fails := if id in s.fails then s.fails[id := s.fails[id] + 1] else s.fails);
      if count >= maxRejects then Dequeue(s1, id).(tick := TForget(s.tick.sheet, s.tick.rest))
      else s1.(tick := TLoop(s.tick.rest))
    case OrderSimulated => Dequeue(s, s.tick.sheet.id).(tick := TForget(s.tick.sheet, s.tick.rest))
    case OrderFilled =>
      s.(held := s.held.Add(s.tick.sheet.id, s.tick.sheet.ticker), tick := TFilled(s.tick.sheet, s.tick.rest))
    case AfterFillRaised => s.(tick := TLoop(s.tick.rest))
    case FillReported => Dequeue(s, s.tick.sheet.id).(tick := TForget(s.tick.sheet, s.tick.rest))
    case Forgotten => s.(rejects := s.rejects - {s.tick.sheet.id}, tick := TLoop(s.tick.rest))
    case TickDone => s.(tick := TIdle)
    // purge loop
    case PurgeScan(now) => s.(purge := PRemoving(ExpiredIds(s.queue, s.queue.Keys, now)))
    case PurgeNext => Dequeue(s, s.purge.ids[0]).(purge := PRemoving(s.purge.ids[1..]))
    case PurgeDone => s.(purge := PIdle)
  }

  // ---------------------------------------------------------------- the invariant

  /** Sheets the tick loop still has in hand. */
  function InHand(t: TickPc): seq<Sheet> {
    match t
    case TIdle => []
    case TLoop(rest) => rest
    case TSizing(sheet, rest) => [sheet] + rest
    case TOrdering(sheet, rest) => [sheet] + rest
    case TFilled(sheet, rest) => [sheet] + rest
    case TForget(sheet, rest) => [sheet] + rest
  }

  /** The queue's own map and its index agree, exactly. */
  ghost predicate IndexedOk(queue: map<string, Sheet>, pending: Index, ticker: string -> string) {
    && pending.Exact()
    && pending.tickers.Keys == queue.Keys
    && (forall id :: id in queue ==>
          (queue[id].id == id && queue[id].ticker == ticker(id) && pending.tickers[id] == ticker(id)))
  }

  ghost predicate QueueOk(s: State, ticker: string -> string) {
    IndexedOk(s.queue, s.pending, ticker)
  }

  ghost predicate HeldOk(s: State, ticker: string -> string) {
    && s.held.Exact()
    && (forall id :: id in s.held.tickers ==> s.held.tickers[id] == ticker(id))
  }

  /** What a task waiting at an await may still rely on. */
  ghost predicate TasksOk(s: State, ticker: string -> string) {
    && (s.consumer.CCooldown? ==>
          s.consumer.sheet.ticker == ticker(s.consumer.sheet.id) && !s.pending.Has(s.consumer.sheet.ticker))
    && (s.tick.TSizing? || s.tick.TOrdering? ==> !s.held.Has(s.tick.sheet.ticker))
    && (forall k :: 0 <= k < |InHand(s.tick)| ==> InHand(s.tick)[k].ticker == ticker(InHand(s.tick)[k].id))
  }

  /** The sheet whose reject count the tick loop is about to drop. */
  function Forgetting(t: TickPc): Option<string> {
    if t.TForget? then Some(t.sheet.id) else None
  }

  /** Failed outcomes stay below the limit for everything queued. Only the sheet that is about to be
      forgotten may have a count at the limit, and if it is queued again it starts afresh. */
  ghost predicate CountsOk(queued: set<string>, fails: map<string, nat>, rejects: map<string, nat>,
                           forgetting: Option<string>, maxRejects: nat) {
    && queued <= fails.Keys
    && (forall id :: id in rejects && Some(id) != forgetting ==> rejects[id] < maxRejects)
    && (forall id :: id in queued && Some(id) == forgetting ==> fails[id] == 0)
    && (forall id :: id in queued && Some(id) != forgetting ==>
          fails[id] <= (if id in rejects then rejects[id] else 0))
  }

  ghost predicate RejectsOk(s: State, maxRejects: nat) {
    CountsOk(s.queue.Keys, s.fails, s.rejects, Forgetting(s.tick), maxRejects)
  }

  ghost predicate Inv(s: State, ticker: string -> string, maxRejects: nat) {
    && QueueOk(s, ticker) && HeldOk(s, ticker) && TasksOk(s, ticker) && RejectsOk(s, maxRejects)
  }

  lemma DequeueKeeps(s: State, id: string, ticker: string -> string)
    requires QueueOk(s, ticker)
    ensures QueueOk(Dequeue(s, id), ticker)
    ensures s.pending.OnePerTicker() ==> Dequeue(s, id).pending.OnePerTicker()
    ensures forall t :: Dequeue(s, id).pending.Has(t) ==> s.pending.Has(t)
  {
    RemoveExact(s.pending, id);
    if id !in s.queue {
      assert s.queue - {id} == s.queue;
    }
  }

  lemma EnqueueKeeps(s: State, sheet: Sheet, ticker: string -> string)
    requires QueueOk(s, ticker)
    requires sheet.ticker == ticker(sheet.id) && sheet.id !in s.queue && !s.pending.Has(sheet.ticker)
    ensures QueueOk(Enqueue(s, sheet), ticker)
    ensures s.pending.OnePerTicker() ==> Enqueue(s, sheet).pending.OnePerTicker()
  {
    hide Index.Exact, Index.OnePerTicker, Index.Has;
    HasMeaning(s.pending, sheet.ticker);
    AddExact(s.pending, sheet.id, sheet.ticker);
    assert s.pending.Add(sheet.id, sheet.ticker).tickers == s.pending.tickers[sheet.id := sheet.ticker];
    hide Index.Add;
  }

  lemma RegisterKeeps(s: State, id: string, ticker: string -> string)
    requires HeldOk(s, ticker) && !s.held.Has(ticker(id))
    ensures HeldOk(s.(held := s.held.Add(id, ticker(id))), ticker)
    ensures s.held.OnePerTicker() ==> s.held.Add(id, ticker(id)).OnePerTicker()
  {
    HasMeaning(s.held, ticker(id));
    AddExact(s.held, id, ticker(id));
  }

  lemma RemoveShrinks(ix: Index, id: string, ticker: string)
    ensures ix.Remove(id).Has(ticker) ==> ix.Has(ticker)
  {
  }

  lemma QueueStep(s: State, a: Action, ticker: string -> string, maxRejects: nat)
    requires Inv(s, ticker, maxRejects) && Enabled(s, a, ticker)
    ensures QueueOk(Next(s, a, ticker, maxRejects), ticker)
    ensures s.pending.OnePerTicker() ==> Next(s, a, ticker, maxRejects).pending.OnePerTicker()
  {
    hide IndexedOk, HeldOk, RejectsOk, Snapshot, Index.Has, Index.Exact, Index.OnePerTicker, Index.Add, Index.Remove;
    hide ExpiredIds;
    match a
    case CooldownAnswered(recent) =>
      if !recent && s.consumer.sheet.id !in s.queue {
        EnqueueKeeps(s, s.consumer.sheet, ticker);
      }
    case LookAt(_, _) => DequeueKeeps(s, s.tick.rest[0].id, ticker);
    case OrderFailed =>
      var id := s.tick.sheet.id;
      var s1 := s.(rejects := s.rejects[id := RejectCount(s, id) + 1],
                   fails := if id in s.fails then s.fails[id := s.fails[id] + 1] else s.fails);
      DequeueKeeps(s1, id, ticker);
    case OrderSimulated => DequeueKeeps(s, s.tick.sheet.id, ticker);
    case FillReported => DequeueKeeps(s, s.tick.sheet.id, ticker);
    case PurgeNext => DequeueKeeps(s, s.purge.ids[0], ticker);
    case _ =>
  }

  lemma HeldStep(s: State, a: Action, ticker: string -> string, maxRejects: nat)
    requires Inv(s, ticker, maxRejects) && Enabled(s, a, ticker)
    ensures HeldOk(Next(s, a, ticker, maxRejects), ticker)
    ensures s.held.OnePerTicker() ==> Next(s, a, ticker, maxRejects).held.OnePerTicker()
  {
    hide Index.Exact, Index.OnePerTicker, Index.Add, Index.Remove, ExpiredIds;
    match a
    case ExitClosed(id) => RemoveExact(s.held, id);
    case OrderFilled =>
      assert InHand(s.tick)[0] == s.tick.sheet;
      RegisterKeeps(s, s.tick.sheet.id, ticker);
    case _ =>
  }

  /** What the consumer relies on: only the consumer itself adds to the queue. */
  lemma ConsumerStep(s: State, a: Action, ticker: string -> string, maxRejects: nat)
    requires QueueOk(s, ticker) && TasksOk(s, ticker) && Enabled(s, a, ticker)
    ensures var t := Next(s, a, ticker, maxRejects);
            t.consumer.CCooldown? ==>
              t.consumer.sheet.ticker == ticker(t.consumer.sheet.id) && !t.pending.Has(t.consumer.sheet.ticker)
  {
    hide IndexedOk, Index.Has, Index.Exact, Index.OnePerTicker, Index.Add, Index.Remove, ExpiredIds, Snapshot, InHand;
    match a
    case LookAt(_, _) => DequeueKeeps(s, s.tick.rest[0].id, ticker);
    case OrderFailed =>
      var id := s.tick.sheet.id;
      var s1 := s.(rejects := s.rejects[id := RejectCount(s, id) + 1],
                   fails := if id in s.fails then s.fails[id := s.fails[id] + 1] else s.fails);
      DequeueKeeps(s1, id, ticker);
    case OrderSimulated => DequeueKeeps(s, s.tick.sheet.id, ticker);
    case FillReported => DequeueKeeps(s, s.tick.sheet.id, ticker);
    case PurgeNext => DequeueKeeps(s, s.purge.ids[0], ticker);
    case _ =>
  }

  /** What the tick loop relies on while it sizes and orders: only itself adds holdings. */
  lemma OrderingStep(s: State, a: Action, ticker: string -> string, maxRejects: nat)
    requires TasksOk(s, ticker) && Enabled(s, a, ticker)
    ensures var t := Next(s, a, ticker, maxRejects);
            t.tick.TSizing? || t.tick.TOrdering? ==> !t.held.Has(t.tick.sheet.ticker)
  {
    hide Index.Has, Index.Exact, Index.OnePerTicker, Index.Add, Index.Remove, ExpiredIds, Snapshot, InHand;
    if a.ExitClosed? && (s.tick.TSizing? || s.tick.TOrdering?) {
      RemoveShrinks(s.held, a.id, s.tick.sheet.ticker);
    }
  }

  lemma TasksStep(s: State, a: Action, ticker: string -> string, maxRejects: nat)
    requires Inv(s, ticker, maxRejects) && Enabled(s, a, ticker)
    ensures TasksOk(Next(s, a, ticker, maxRejects), ticker)
  {
    ConsumerStep(s, a, ticker, maxRejects);
    OrderingStep(s, a, ticker, maxRejects);
    InHandStep(s, a, ticker, maxRejects);
    hide Next, Enabled, QueueOk, HeldOk, RejectsOk;
  }

  lemma InHandStep(s: State, a: Action, ticker: string -> string, maxRejects: nat)
    requires QueueOk(s, ticker) && TasksOk(s, ticker) && Enabled(s, a, ticker)
    ensures forall sheet :: sheet in InHand(Next(s, a, ticker, maxRejects).tick) ==> sheet.ticker == ticker(sheet.id)
  {
    hide Index.Exact, Index.OnePerTicker, Index.Add, Index.Remove, ExpiredIds;
    var t := Next(s, a, ticker, maxRejects);
    forall sheet | sheet in InHand(t.tick)
      ensures sheet.ticker == ticker(sheet.id)
    {
      if a.TickArrives? {
        var k :| 0 <= k < |a.sheets| && a.sheets[k] == sheet;
        assert a.sheets[k].id in s.queue;
      } else {
        assert sheet in InHand(s.tick);
      }
    }
  }

  /** A smaller queue, and a forgotten sheet that is not queued, keep the counts in order. */
  lemma CountsShrink(queued: set<string>, queued': set<string>, fails: map<string, nat>, rejects: map<string, nat>,
                     forgetting: Option<string>, forgetting': Option<string>, maxRejects: nat)
    requires CountsOk(queued, fails, rejects, forgetting, maxRejects) && queued' <= queued
    requires forgetting' == forgetting || (forgetting == None && forgetting'.Some? && forgetting'.value !in queued')
    ensures CountsOk(queued', fails, rejects, forgetting', maxRejects)
  {
  }

  lemma EnqueueCounted(s: State, recent: bool, ticker: string -> string, maxRejects: nat)
    requires RejectsOk(s, maxRejects) && s.consumer.CCooldown? && 1 <= maxRejects
    ensures RejectsOk(Next(s, CooldownAnswered(recent), ticker, maxRejects), maxRejects)
  {
    hide Index.Add, Forgetting;
  }

  lemma ForgottenCounted(s: State, ticker: string -> string, maxRejects: nat)
    requires RejectsOk(s, maxRejects) && s.tick.TForget?
    ensures RejectsOk(Next(s, Forgotten, ticker, maxRejects), maxRejects)
  {
  }

  lemma RejectsStep(s: State, a: Action, ticker: string -> string, maxRejects: nat)
    requires RejectsOk(s, maxRejects) && Enabled(s, a, ticker) && 1 <= maxRejects
    ensures RejectsOk(Next(s, a, ticker, maxRejects), maxRejects)
  {
    hide Index.Add, Index.Remove, Index.Has, ExpiredIds, Snapshot, CountsOk;
    if a.OrderFailed? {
      FailureCounted(s, ticker, maxRejects);
    } else if a.CooldownAnswered? {
      EnqueueCounted(s, a.recentStopLoss, ticker, maxRejects);
    } else if a.Forgotten? {
      ForgottenCounted(s, ticker, maxRejects);
    } else {
      var t := Next(s, a, ticker, maxRejects);
      assert t.fails == s.fails && t.rejects == s.rejects && t.queue.Keys <= s.queue.Keys;
      CountsShrink(s.queue.Keys, t.queue.Keys, s.fails, s.rejects, Forgetting(s.tick), Forgetting(t.tick), maxRejects);
    }
  }

  lemma FailureCounted(s: State, ticker: string -> string, maxRejects: nat)
    requires RejectsOk(s, maxRejects) && s.tick.TOrdering? && 1 <= maxRejects
    ensures RejectsOk(Next(s, OrderFailed, ticker, maxRejects), maxRejects)
  {
    hide Index.Exact, Index.OnePerTicker, Index.Add, Index.Remove, Index.Has;
  }

  /** Every action of every task keeps the invariant, and what is one per ticker stays so. */
  lemma StepKeepsInv(s: State, a: Action, ticker: string -> string, maxRejects: nat)
    requires Inv(s, ticker, maxRejects) && Enabled(s, a, ticker) && 1 <= maxRejects
    ensures Inv(Next(s, a, ticker, maxRejects), ticker, maxRejects)
    ensures s.pending.OnePerTicker() ==> Next(s, a, ticker, maxRejects).pending.OnePerTicker()
    ensures s.held.OnePerTicker() ==> Next(s, a, ticker, maxRejects).held.OnePerTicker()
  {
    hide Index.OnePerTicker, QueueOk, HeldOk, TasksOk, RejectsOk, Next;
    QueueStep(s, a, ticker, maxRejects);
    HeldStep(s, a, ticker, maxRejects);
    TasksStep(s, a, ticker, maxRejects);
    RejectsStep(s, a, ticker, maxRejects);
  }

  // ---------------------------------------------------------------- runs

  /** A run: each state follows from the one before it by an enabled action. */
  ghost predicate IsRun(states: seq<State>, actions: seq<Action>, ticker: string -> string, maxRejects: nat) {
    && |states| == |actions| + 1
    && forall k :: 0 <= k < |actions| ==>
         Enabled(states[k], actions[k], ticker) && states[k + 1] == Next(states[k], actions[k], ticker, maxRejects)
  }

  const EMPTY: State := State(map[], Index(map[], map[]), Index(map[], map[]), map[], map[], CIdle, TIdle, PIdle)

  lemma {:induction false} RunKeepsInv(states: seq<State>, actions: seq<Action>, ticker: string -> string,
                                       maxRejects: nat, n: nat)
    requires IsRun(states, actions, ticker, maxRejects) && Inv(states[0], ticker, maxRejects) && 1 <= maxRejects
    requires n < |states|
    ensures Inv(states[n], ticker, maxRejects)
    ensures states[0].pending.OnePerTicker() ==> states[n].pending.OnePerTicker()
    ensures states[0].held.OnePerTicker() ==> states[n].held.OnePerTicker()
  {
    hide Next, Enabled, Index.OnePerTicker;
    if n > 0 {
      RunKeepsInv(states, actions, ticker, maxRejects, n - 1);
      assert states[n - 1 + 1] == Next(states[n - 1], actions[n - 1], ticker, maxRejects);
      hide Inv;
      StepKeepsInv(states[n - 1], actions[n - 1], ticker, maxRejects);
    }
  }

  /** Under every interleaving, at every moment: at most one sheet per ticker is pending, and at most one is
      held by this path, if it was so at the start; both ticker indexes are exact inverses, and no queued sheet
      has reached the limit of failed outcomes. */
  lemma EntrySafety(states: seq<State>, actions: seq<Action>, ticker: string -> string, maxRejects: nat, n: nat)
    requires IsRun(states, actions, ticker, maxRejects) && Inv(states[0], ticker, maxRejects)
    requires 1 <= maxRejects && n < |states|
    ensures var s := states[n];
            && (states[0].pending.OnePerTicker() ==>
                  forall a, b :: a in s.queue && b in s.queue && s.queue[a].ticker == s.queue[b].ticker ==> a == b)
            && (states[0].held.OnePerTicker() ==> s.held.OnePerTicker())
            && s.pending.Exact() && s.held.Exact()
            && s.pending.tickers == (map id | id in s.queue :: s.queue[id].ticker)
            && (forall id :: id in s.queue ==> id in s.fails && s.fails[id] < maxRejects)
  {
    hide Index.Exact, Next, Enabled;
    RunKeepsInv(states, actions, ticker, maxRejects, n);
  }

  /** No buy order is placed or filled for a ticker that is already held. */
  lemma NoSecondBuy(states: seq<State>, actions: seq<Action>, ticker: string -> string, maxRejects: nat, n: nat)
    requires IsRun(states, actions, ticker, maxRejects) && Inv(states[0], ticker, maxRejects) && 1 <= maxRejects
    requires n < |states|
    requires states[n].tick.TOrdering?
    ensures forall id :: id in states[n].held.tickers ==> states[n].held.tickers[id] != states[n].tick.sheet.ticker
  {
    RunKeepsInv(states, actions, ticker, maxRejects, n);
    HasMeaning(states[n].held, states[n].tick.sheet.ticker);
  }

  /** Failed outcomes of a sheet between moments a and b of a run. */
  ghost function Failures(states: seq<State>, actions: seq<Action>, id: string, a: nat, b: nat): nat
    requires a <= b < |states| && |states| == |actions| + 1
  {
    if a == b then 0
    else
      Failures(states, actions, id, a, b - 1) +
        (if actions[b - 1].OrderFailed? && states[b - 1].tick.TOrdering? && states[b - 1].tick.sheet.id == id
         then 1 else 0)
  }

  ghost predicate QueuedThroughout(states: seq<State>, id: string, a: nat, b: nat)
    requires a <= b < |states|
  {
    forall k :: a <= k <= b ==> id in states[k].queue
  }

  lemma QueuedBefore(states: seq<State>, id: string, a: nat, b: nat)
    requires a <= b < |states| && QueuedThroughout(states, id, a, b)
    ensures id in states[a].queue && id in states[b].queue
    ensures a < b ==> QueuedThroughout(states, id, a, b - 1) && id in states[b - 1].queue
  {
  }

  lemma FailsStep(s: State, a: Action, ticker: string -> string, maxRejects: nat, id: string)
    requires Enabled(s, a, ticker) && s.queue.Keys <= s.fails.Keys
    requires id in s.queue && id in Next(s, a, ticker, maxRejects).queue
    ensures var t := Next(s, a, ticker, maxRejects);
            id in t.fails &&
            t.fails[id] == s.fails[id] + (if a.OrderFailed? && s.tick.sheet.id == id then 1 else 0)
  {
    hide Index.Exact, Index.OnePerTicker, Index.Add, Index.Remove, Index.Has, ExpiredIds, Snapshot;
  }

  lemma {:induction false} FailuresCounted(states: seq<State>, actions: seq<Action>, ticker: string -> string,
                                           maxRejects: nat, id: string, a: nat, b: nat)
    requires IsRun(states, actions, ticker, maxRejects) && Inv(states[0], ticker, maxRejects) && 1 <= maxRejects
    requires a <= b < |states| && QueuedThroughout(states, id, a, b)
    ensures id in states[a].fails && id in states[b].fails
    ensures states[b].fails[id] == states[a].fails[id] + Failures(states, actions, id, a, b)
  {
    hide Next, Enabled, Inv, QueuedThroughout;
    FailsCover(states, actions, ticker, maxRejects, b);
    QueuedBefore(states, id, a, b);
    if a < b {
      FailuresCounted(states, actions, ticker, maxRejects, id, a, b - 1);
      FailsCover(states, actions, ticker, maxRejects, b - 1);
      var s, act := states[b - 1], actions[b - 1];
      assert states[b - 1 + 1] == Next(s, act, ticker, maxRejects) && Enabled(s, act, ticker);
      hide IsRun;
      FailsStep(s, act, ticker, maxRejects, id);
      if act.OrderFailed? {
        FailingHere(s, act, ticker);
      }
    }
  }

  lemma FailingHere(s: State, a: Action, ticker: string -> string)
    requires Enabled(s, a, ticker) && a.OrderFailed?
    ensures s.tick.TOrdering?
  {
  }

  lemma FailsCover(states: seq<State>, actions: seq<Action>, ticker: string -> string, maxRejects: nat, n: nat)
    requires IsRun(states, actions, ticker, maxRejects) && Inv(states[0], ticker, maxRejects) && 1 <= maxRejects
    requires n < |states|
    ensures states[n].queue.Keys <= states[n].fails.Keys
  {
    hide Next, Enabled, QueueOk, HeldOk, TasksOk;
    RunKeepsInv(states, actions, ticker, maxRejects, n);
  }

  /** A sheet has fewer failed outcomes than the limit for as long as it stays queued; so it leaves the
      queue with the failed outcome that reaches the limit, at the latest. */
  lemma FewFailuresWhileQueued(states: seq<State>, actions: seq<Action>, ticker: string -> string,
                               maxRejects: nat, id: string, a: nat, b: nat)
    requires IsRun(states, actions, ticker, maxRejects) && Inv(states[0], ticker, maxRejects) && 1 <= maxRejects
    requires a <= b < |states| && QueuedThroughout(states, id, a, b)
    ensures Failures(states, actions, id, a, b) < maxRejects
  {
    FailuresCounted(states, actions, ticker, maxRejects, id, a, b);
    QueuedBefore(states, id, a, b);
    EntrySafety(states, actions, ticker, maxRejects, b);
  }

  /** A failed outcome for a queued sheet either counts one more failure and leaves it queued, or takes
      it out of the queue in the same step; the latter exactly when its count reaches the limit. */
  lemma FailureStaysOrRemoves(s: State, ticker: string -> string, maxRejects: nat)
    requires RejectsOk(s, maxRejects) && s.tick.TOrdering? && s.tick.sheet.id in s.queue
    ensures var id := s.tick.sheet.id;
            var t := Next(s, OrderFailed, ticker, maxRejects);
            && (id in t.queue <==> RejectCount(s, id) + 1 < maxRejects)
            && (id in t.queue ==> t.fails[id] == s.fails[id] + 1 && t.fails[id] <= RejectCount(t, id))
            && t.queue - {id} == s.queue - {id}
  {
    hide Index.Exact, Index.OnePerTicker, Index.Add, Index.Remove, Index.Has;
  }

  /** A sheet waiting alone in front of an idle system. */
  ghost predicate Waiting(s: State, sheet: Sheet) {
    && s.tick == TIdle && s.queue == map[sheet.id := sheet] && s.held.tickers == map[] && s.held.byTicker == map[]
  }

  /** One tick whose order raises an exception. */
  function RaisingTick(sheet: Sheet): seq<Action> {
    [TickArrives([sheet], sheet.ticker), LookAt(Passed, sheet.validUntil - 1), Sized(1), OrderRaised, TickDone]
  }

  /** After a tick whose order raised, the state is the one before. */
  lemma RaisedTick(s: State, sheet: Sheet, ticker: string -> string, maxRejects: nat) returns (states: seq<State>)
    requires Waiting(s, sheet)
    ensures IsRun(states, RaisingTick(sheet), ticker, maxRejects)
    ensures states[0] == s && states[5] == s
  {
    var looked := Looked(s, sheet, ticker, maxRejects);
    var raised := Raised(looked[2], s, sheet, ticker, maxRejects);
    var look := [TickArrives([sheet], sheet.ticker), LookAt(Passed, sheet.validUntil - 1)];
    var raise := [Sized(1), OrderRaised, TickDone];
    JoinRuns(looked, look, raised, raise, ticker, maxRejects);
    states := looked + raised[1..];
    assert look + raise == RaisingTick(sheet);
  }

  lemma Looked(s: State, sheet: Sheet, ticker: string -> string, maxRejects: nat) returns (states: seq<State>)
    requires Waiting(s, sheet)
    ensures var look := [TickArrives([sheet], sheet.ticker), LookAt(Passed, sheet.validUntil - 1)];
            IsRun(states, look, ticker, maxRejects)
    ensures |states| == 3 && states[0] == s && states[2] == s.(tick := TSizing(sheet, []))
  {
    assert Snapshot(s, [sheet], sheet.ticker);
    assert [sheet][1..] == [];
    states := [s, s.(tick := TLoop([sheet])), s.(tick := TSizing(sheet, []))];
  }

  lemma Raised(begin: State, s: State, sheet: Sheet, ticker: string -> string, maxRejects: nat)
    returns (states: seq<State>)
    requires begin == s.(tick := TSizing(sheet, [])) && s.tick == TIdle
    ensures IsRun(states, [Sized(1), OrderRaised, TickDone], ticker, maxRejects)
    ensures |states| == 4 && states[0] == begin && states[3] == s
  {
    states := [begin, s.(tick := TOrdering(sheet, [])), s.(tick := TLoop([])), s];
  }

  /** A sheet is received and queued in an empty system. */
  lemma Received(sheet: Sheet, ticker: string -> string, maxRejects: nat)
    returns (states: seq<State>, actions: seq<Action>)
    requires sheet.ticker == ticker(sheet.id)
    ensures IsRun(states, actions, ticker, maxRejects) && states[0] == EMPTY
    ensures var s := states[|states| - 1];
            Waiting(s, sheet) && s.rejects == map[] && sheet.id in s.fails && s.fails[sheet.id] == 0
    ensures |states| == 3 && states[1].queue == map[] && states[2].consumer == CIdle
    ensures states[2].pending == Index(map[sheet.id := sheet.ticker], map[sheet.ticker := {sheet.id}])
    ensures actions == [Receive(sheet), CooldownAnswered(false)]
  {
    var s1 := EMPTY.(consumer := CCooldown(sheet));
    var s2 := Enqueue(s1, sheet).(consumer := CIdle);
    states, actions := [EMPTY, s1, s2], [Receive(sheet), CooldownAnswered(false)];
    assert s2.queue == map[sheet.id := sheet];
    assert s2.pending.tickers == map[sheet.id := sheet.ticker];
    assert {} + {sheet.id} == {sheet.id};
    assert s2.pending.byTicker == map[sheet.ticker := {sheet.id}];
  }

  lemma JoinRuns(a: seq<State>, as1: seq<Action>, b: seq<State>, as2: seq<Action>, ticker: string -> string,
                 maxRejects: nat)
    requires IsRun(a, as1, ticker, maxRejects) && IsRun(b, as2, ticker, maxRejects) && a[|a| - 1] == b[0]
    ensures IsRun(a + b[1..], as1 + as2, ticker, maxRejects)
  {
    hide Next, Enabled;
    var states, actions := a + b[1..], as1 + as2;
    forall k | 0 <= k < |actions|
      ensures Enabled(states[k], actions[k], ticker) && states[k + 1] == Next(states[k], actions[k], ticker, maxRejects)
    {
      if k < |as1| {
        assert states[k] == a[k] && states[k + 1] == a[k + 1] && actions[k] == as1[k];
      } else {
        assert states[k] == b[k - |as1|] && states[k + 1] == b[k - |as1| + 1] && actions[k] == as2[k - |as1|];
      }
    }
  }

  /** Raised orders are not counted: from the empty system there is, for every n, a run in which n orders for
      one sheet raise and the sheet is still queued, with no reject and no failure recorded. */
  lemma {:induction false} RaisedOrdersNotCounted(sheet: Sheet, ticker: string -> string, maxRejects: nat, n: nat)
    returns (states: seq<State>, actions: seq<Action>)
    requires sheet.ticker == ticker(sheet.id)
    ensures IsRun(states, actions, ticker, maxRejects) && states[0] == EMPTY
    ensures var s := states[|states| - 1];
            Waiting(s, sheet) && s.rejects == map[] && sheet.id in s.fails && s.fails[sheet.id] == 0
    ensures multiset(actions)[OrderRaised] == n
  {
    hide IsRun, Waiting;
    if n == 0 {
      states, actions := Received(sheet, ticker, maxRejects);
    } else {
      states, actions := RaisedOrdersNotCounted(sheet, ticker, maxRejects, n - 1);
      RunLength(states, actions, ticker, maxRejects);
      var more := RaisedTick(states[|states| - 1], sheet, ticker, maxRejects);
      RunLength(more, RaisingTick(sheet), ticker, maxRejects);
      JoinRuns(states, actions, more, RaisingTick(sheet), ticker, maxRejects);
      states, actions := states + more[1..], actions + RaisingTick(sheet);
      OneRaise(sheet);
    }
  }

  lemma RunLength(states: seq<State>, actions: seq<Action>, ticker: string -> string, maxRejects: nat)
    requires IsRun(states, actions, ticker, maxRejects)
    ensures |states| == |actions| + 1
  {
  }

  lemma OneRaise(sheet: Sheet)
    ensures multiset(RaisingTick(sheet))[OrderRaised] == 1
  {
  }

  // ---------------------------------------------------------------- coming and going

  /** Some holding has the ticker. */
  ghost predicate Holds(s: State, ticker: string) {
    exists id :: id in s.held.tickers && s.held.tickers[id] == ticker
  }

  /** The action takes the sheet out of the queue: it is looked at while it is expired or its ticker is held;
      its fill is reported, or its order was simulated; its failed outcome reaches the limit; or it is next in
      the purge. */
  ghost predicate Leaves(s: State, a: Action, maxRejects: nat, id: string)
  {
    match a
    case LookAt(verdict, now) =>
      && s.tick.TLoop? && s.tick.rest != [] && s.tick.rest[0].id == id
      && (verdict == Expired || Holds(s, s.tick.rest[0].ticker))
    case FillReported => s.tick.TFilled? && s.tick.sheet.id == id
    case OrderSimulated => s.tick.TOrdering? && s.tick.sheet.id == id
    case OrderFailed => s.tick.TOrdering? && s.tick.sheet.id == id && RejectCount(s, id) + 1 >= maxRejects
    case PurgeNext => s.purge.PRemoving? && s.purge.ids != [] && s.purge.ids[0] == id
    case _ => false
  }

  /** The action puts the sheet into the queue: the cooldown store knows no recent stop loss of its ticker. */
  predicate Enters(s: State, a: Action, sheet: Sheet) {
    a == CooldownAnswered(false) && s.consumer == CCooldown(sheet)
  }

  lemma QueuedStays(s: State, a: Action, ticker: string -> string, maxRejects: nat, id: string)
    requires Inv(s, ticker, maxRejects) && Enabled(s, a, ticker) && id in s.queue
    ensures id !in Next(s, a, ticker, maxRejects).queue <==> Leaves(s, a, maxRejects, id)
  {
    hide Index.Exact, Index.OnePerTicker, Index.Has, Index.Add, Index.Remove, ExpiredIds, Snapshot, TasksOk, RejectsOk;
    if a.LookAt? {
      HasMeaning(s.held, s.tick.rest[0].ticker);
    }
  }

  lemma QueueGrows(s: State, a: Action, ticker: string -> string, maxRejects: nat, id: string)
    requires Enabled(s, a, ticker) && id !in s.queue
    ensures id in Next(s, a, ticker, maxRejects).queue <==>
              a == CooldownAnswered(false) && s.consumer.CCooldown? && s.consumer.sheet.id == id
    ensures id in Next(s, a, ticker, maxRejects).queue ==> Next(s, a, ticker, maxRejects).queue[id] == s.consumer.sheet
  {
    hide Index.Exact, Index.OnePerTicker, Index.Has, Index.Add, Index.Remove, ExpiredIds, Snapshot;
  }

  /** Over every action: a queued sheet stays as it is unless one of the reasons applies, and leaves if one does;
      another one comes only after a cooldown answer. */
  lemma QueueChanges(s: State, a: Action, ticker: string -> string, maxRejects: nat, id: string)
    requires Inv(s, ticker, maxRejects) && Enabled(s, a, ticker)
    ensures var t := Next(s, a, ticker, maxRejects);
            && (id in s.queue ==> (id !in t.queue <==> Leaves(s, a, maxRejects, id)))
            && (id in s.queue && id in t.queue ==> t.queue[id] == s.queue[id])
            && (id !in s.queue ==>
                  (id in t.queue <==> exists sheet: Sheet :: sheet.id == id && Enters(s, a, sheet)))
            && (id !in s.queue && id in t.queue ==> Enters(s, a, t.queue[id]))
  {
    hide Next, Enabled, Inv, Leaves;
    if id in s.queue {
      QueuedStays(s, a, ticker, maxRejects, id);
      if id in Next(s, a, ticker, maxRejects).queue {
        SheetsStay(s, a, ticker, maxRejects, id);
      }
    } else {
      QueueGrows(s, a, ticker, maxRejects, id);
      if s.consumer.CCooldown? {
        assert s.consumer == CCooldown(s.consumer.sheet);
      }
    }
  }

  /** Over every action: what is held changes only so. */
  lemma HoldingsChange(s: State, a: Action, ticker: string -> string, maxRejects: nat)
    requires Enabled(s, a, ticker)
    ensures Next(s, a, ticker, maxRejects).held.tickers ==
            match a
            case OrderFilled => s.held.tickers[s.tick.sheet.id := s.tick.sheet.ticker]
            case ExitClosed(id) => s.held.tickers - {id}
            case _ => s.held.tickers
  {
    hide Index.Exact, Index.OnePerTicker, Index.Has, Index.IdsFor, ExpiredIds, Snapshot;
    if a.ExitClosed? && a.id !in s.held.tickers {
      assert s.held.tickers - {a.id} == s.held.tickers;
    }
  }

  /** And what counts as rejected. */
  lemma RejectsChange(s: State, a: Action, ticker: string -> string, maxRejects: nat)
    requires Enabled(s, a, ticker)
    ensures Next(s, a, ticker, maxRejects).rejects ==
            match a
            case OrderFailed => s.rejects[s.tick.sheet.id := RejectCount(s, s.tick.sheet.id) + 1]
            case Forgotten => s.rejects - {s.tick.sheet.id}
            case _ => s.rejects
  {
    hide Index.Exact, Index.OnePerTicker, Index.Has, Index.Add, Index.Remove, ExpiredIds, Snapshot;
  }

  /** A sheet that is not met, or not affordable, or whose order raised, leaves everything as it was, but that
      the tick goes on with the next sheet. */
  lemma NothingButTheTick(s: State, a: Action, ticker: string -> string, maxRejects: nat)
    requires Inv(s, ticker, maxRejects) && Enabled(s, a, ticker)
    requires || (a.LookAt? && a.verdict == NotMet && !Holds(s, s.tick.rest[0].ticker))
             || (a.Sized? && a.qty <= 0) || a.OrderRaised? || a.AfterFillRaised?
    ensures Next(s, a, ticker, maxRejects) == s.(tick := TLoop(InHand(s.tick)[1..]))
  {
    if a.LookAt? {
      HasMeaning(s.held, s.tick.rest[0].ticker);
    } else {
      assert InHand(s.tick)[1..] == s.tick.rest;
    }
  }

  /** Over every action: the tick loop sizes a sheet only after its conditions are met and while its ticker is not
      held, orders only a positive quantity of it, takes it as filled only after its order filled, and takes
      everything else in hand in its order. */
  lemma TickChanges(s: State, a: Action, ticker: string -> string, maxRejects: nat)
    requires Inv(s, ticker, maxRejects) && Enabled(s, a, ticker)
    ensures var t := Next(s, a, ticker, maxRejects);
            && (t.tick.TSizing? && t.tick != s.tick ==>
                  && a.LookAt? && a.verdict == Passed && a.now < t.tick.sheet.validUntil
                  && !Holds(s, t.tick.sheet.ticker) && s.tick == TLoop([t.tick.sheet] + t.tick.rest))
            && (t.tick.TOrdering? && t.tick != s.tick ==>
                  a.Sized? && a.qty > 0 && s.tick == TSizing(t.tick.sheet, t.tick.rest))
            && (t.tick.TFilled? && t.tick != s.tick ==>
                  a.OrderFilled? && s.tick == TOrdering(t.tick.sheet, t.tick.rest))
    ensures a.LookAt? && a.verdict == Passed && !Holds(s, s.tick.rest[0].ticker) ==>
              Next(s, a, ticker, maxRejects).tick == TSizing(s.tick.rest[0], s.tick.rest[1..])
    ensures a.Sized? && a.qty > 0 ==> Next(s, a, ticker, maxRejects).tick == TOrdering(s.tick.sheet, s.tick.rest)
    ensures a.OrderFilled? ==> Next(s, a, ticker, maxRejects).tick == TFilled(s.tick.sheet, s.tick.rest)
    ensures a.FillReported? || a.OrderSimulated? || (a.OrderFailed? && Leaves(s, a, maxRejects, s.tick.sheet.id)) ==>
              Next(s, a, ticker, maxRejects).tick == TForget(s.tick.sheet, s.tick.rest)
    ensures a.TickArrives? ==> Next(s, a, ticker, maxRejects) == s.(tick := TLoop(a.sheets))
    ensures !a.TickArrives? ==>
              var hand, hand' := InHand(s.tick), InHand(Next(s, a, ticker, maxRejects).tick);
              hand' == hand || (hand != [] && hand' == hand[1..])
  {
    hide Index.Exact, Index.OnePerTicker, Index.Has, Index.Add, Index.Remove, ExpiredIds, Snapshot, QueueOk, RejectsOk;
    if a.LookAt? {
      HasMeaning(s.held, s.tick.rest[0].ticker);
      assert [s.tick.rest[0]] + s.tick.rest[1..] == s.tick.rest;
    } else if InHand(s.tick) != [] && !s.tick.TLoop? {
      assert ([s.tick.sheet] + s.tick.rest)[1..] == s.tick.rest;
    }
  }

  /** A purge takes exactly the expired sheets, and a received sheet waits for the cooldown store unless its ticker
      is held or pending. */
  lemma PurgeAndReceive(s: State, a: Action, ticker: string -> string, maxRejects: nat)
    requires Inv(s, ticker, maxRejects) && Enabled(s, a, ticker)
    ensures a.PurgeScan? ==>
              var t := Next(s, a, ticker, maxRejects);
              && t == s.(purge := t.purge) && t.purge.PRemoving?
              && forall id :: id in t.purge.ids <==> id in s.queue && s.queue[id].validUntil <= a.now
    ensures a.Receive? ==>
              var pending := exists id :: id in s.queue && s.queue[id].ticker == a.sheet.ticker;
              Next(s, a, ticker, maxRejects) ==
              if Holds(s, a.sheet.ticker) || pending then s else s.(consumer := CCooldown(a.sheet))
  {
    if a.PurgeScan? {
      ExpiredMeaning(s.queue, s.queue.Keys, a.now);
    } else if a.Receive? {
      HasMeaning(s.held, a.sheet.ticker);
      HasMeaning(s.pending, a.sheet.ticker);
      assert forall id :: id in s.queue ==> s.pending.tickers[id] == s.queue[id].ticker;
      hide Index.Exact, Index.Has;
    }
  }

  lemma {:induction false} ExpiredMeaning(queue: map<string, Sheet>, ids: set<string>, now: int)
    ensures forall id :: id in ExpiredIds(queue, ids, now) <==> id in ids && id in queue && queue[id].validUntil <= now
    decreases ids
  {
    if ids != {} {
      var id :| id in ids && ExpiredIds(queue, ids, now) ==
        (if id in queue && queue[id].validUntil <= now then [id] else []) + ExpiredIds(queue, ids - {id}, now);
      ExpiredMeaning(queue, ids - {id}, now);
    }
  }

  /** The sheet entered the queue with action k, or was queued at the start, and no reason to leave came up until
      moment n. */
  ghost predicate CameAndStayed(states: seq<State>, actions: seq<Action>, maxRejects: nat, id: string, n: nat)
    requires |states| == |actions| + 1 && n < |states|
  {
    || (id in states[0].queue && forall j: nat :: j < n ==> !Leaves(states[j], actions[j], maxRejects, id))
    || (exists k: nat :: k < n && Came(states[k], actions[k], id)
                         && forall j: nat :: k < j < n ==> !Leaves(states[j], actions[j], maxRejects, id))
  }

  ghost predicate Came(s: State, a: Action, id: string) {
    exists sheet: Sheet :: sheet.id == id && Enters(s, a, sheet)
  }

  lemma CameStep(states: seq<State>, actions: seq<Action>, maxRejects: nat, id: string, n: nat)
    requires |states| == |actions| + 1 && n + 1 < |states|
    ensures CameAndStayed(states, actions, maxRejects, id, n + 1) <==>
              || Came(states[n], actions[n], id)
              || (CameAndStayed(states, actions, maxRejects, id, n) && !Leaves(states[n], actions[n], maxRejects, id))
  {
    hide Came, Leaves;
  }

  /** Over every run: a sheet is queued if and only if it came and no reason to leave has come up since. */
  lemma {:induction false} QueuedIff(states: seq<State>, actions: seq<Action>, ticker: string -> string,
                                     maxRejects: nat, id: string, n: nat)
    requires IsRun(states, actions, ticker, maxRejects) && Inv(states[0], ticker, maxRejects)
    requires 1 <= maxRejects && n < |states|
    ensures id in states[n].queue <==> CameAndStayed(states, actions, maxRejects, id, n)
  {
    hide Next, Enabled, Inv, CameAndStayed, Leaves, Enters;
    if n == 0 {
      FromTheStart(states, actions, maxRejects, id);
    } else {
      QueuedIff(states, actions, ticker, maxRejects, id, n - 1);
      RunKeepsInv(states, actions, ticker, maxRejects, n - 1);
      assert states[n - 1 + 1] == Next(states[n - 1], actions[n - 1], ticker, maxRejects);
      CameStep(states, actions, maxRejects, id, n - 1);
      QueueChanges(states[n - 1], actions[n - 1], ticker, maxRejects, id);
      ComingIsNotLeaving(states[n - 1], actions[n - 1], maxRejects, id);
    }
  }

  lemma FromTheStart(states: seq<State>, actions: seq<Action>, maxRejects: nat, id: string)
    requires |states| == |actions| + 1
    ensures CameAndStayed(states, actions, maxRejects, id, 0) <==> id in states[0].queue
  {
  }

  lemma ComingIsNotLeaving(s: State, a: Action, maxRejects: nat, id: string)
    ensures Came(s, a, id) ==> !Leaves(s, a, maxRejects, id)
  {
  }

  // ---------------------------------------------------------------- restarts

  ghost predicate OnePerTicker(sheets: map<string, Sheet>) {
    forall a, b :: a in sheets && b in sheets && sheets[a].ticker == sheets[b].ticker ==> a == b
  }

  /** The state after a start: nobody has begun, no failure is counted, and what the store holds is loaded:
      `stored` sheets and `positions`, each with its ticker. */
  ghost predicate Restored(s: State, stored: map<string, Sheet>, positions: map<string, string>) {
    && s.queue == stored && s.pending.Exact() && s.pending.tickers == (map id | id in stored :: stored[id].ticker)
    && s.held.Exact() && s.held.tickers == positions
    && s.consumer == CIdle && s.tick == TIdle && s.purge == PIdle
    && s.rejects == map[] && s.fails == (map id | id in stored :: 0)
  }

  /** A restored state satisfies the invariant, and it has one pending sheet per ticker if and only if the store
      has; likewise for the positions. */
  lemma RestoredOk(s: State, stored: map<string, Sheet>, positions: map<string, string>,
                   ticker: string -> string, maxRejects: nat)
    requires Restored(s, stored, positions)
    requires forall id :: id in stored ==> stored[id].id == id && stored[id].ticker == ticker(id)
    requires forall id :: id in positions ==> positions[id] == ticker(id)
    ensures Inv(s, ticker, maxRejects)
    ensures s.pending.OnePerTicker() <==> OnePerTicker(stored)
    ensures s.held.OnePerTicker() <==>
              forall a, b :: a in positions && b in positions && positions[a] == positions[b] ==> a == b
  {
    hide Index.Exact;
  }

  /** What the store holds after one action: whatever entered the queue is saved, and whatever left it is
      deleted, if the write succeeds. */
  ghost function Written(stored: map<string, Sheet>, before: map<string, Sheet>, after: map<string, Sheet>,
                         saved: bool, deleted: bool): map<string, Sheet> {
    var kept := if deleted then stored - (before.Keys - after.Keys) else stored;
    if saved then kept + (map id | id in after && id !in before :: after[id]) else kept
  }

  /** The stored sheets after k actions. */
  ghost function Stored(states: seq<State>, start: map<string, Sheet>, saved: nat -> bool, deleted: nat -> bool, k: nat)
    : map<string, Sheet>
    requires k < |states|
  {
    if k == 0 then start
    else
      var before := Stored(states, start, saved, deleted, k - 1);
      Written(before, states[k - 1].queue, states[k].queue, saved(k - 1), deleted(k - 1))
  }

  ghost predicate Within(stored: map<string, Sheet>, queue: map<string, Sheet>) {
    forall id :: id in stored ==> id in queue && queue[id] == stored[id]
  }

  /** Queued sheets are not exchanged for others. */
  lemma SheetsStay(s: State, a: Action, ticker: string -> string, maxRejects: nat, id: string)
    requires Enabled(s, a, ticker) && id in s.queue && id in Next(s, a, ticker, maxRejects).queue
    ensures Next(s, a, ticker, maxRejects).queue[id] == s.queue[id]
  {
    hide Index.Exact, Index.OnePerTicker, Index.Add, Index.Remove, Index.Has, ExpiredIds, Snapshot;
  }

  /** If every delete so far was carried out, the store holds no sheet that is not queued, whatever was saved. */
  lemma {:induction false} StoredWithin(states: seq<State>, actions: seq<Action>, ticker: string -> string,
                                        maxRejects: nat, start: map<string, Sheet>,
                                        saved: nat -> bool, deleted: nat -> bool, n: nat)
    requires IsRun(states, actions, ticker, maxRejects) && n < |states| && Within(start, states[0].queue)
    requires forall k: nat :: k < n ==> deleted(k)
    ensures Within(Stored(states, start, saved, deleted, n), states[n].queue)
  {
    hide Next, Enabled;
    if n > 0 {
      StoredWithin(states, actions, ticker, maxRejects, start, saved, deleted, n - 1);
      assert states[n - 1 + 1] == Next(states[n - 1], actions[n - 1], ticker, maxRejects);
      forall id | id in states[n - 1].queue && id in states[n].queue
        ensures states[n].queue[id] == states[n - 1].queue[id]
      {
        SheetsStay(states[n - 1], actions[n - 1], ticker, maxRejects, id);
      }
    }
  }

  /** Then a restart at any moment, in the middle of anything, brings back one sheet per ticker. */
  lemma RestartKeepsOnePerTicker(states: seq<State>, actions: seq<Action>, ticker: string -> string, maxRejects: nat,
                                 start: map<string, Sheet>, saved: nat -> bool, deleted: nat -> bool, n: nat)
    requires IsRun(states, actions, ticker, maxRejects) && n < |states| && Within(start, states[0].queue)
    requires Inv(states[0], ticker, maxRejects) && states[0].pending.OnePerTicker() && 1 <= maxRejects
    requires forall k: nat :: k < n ==> deleted(k)
    ensures OnePerTicker(Stored(states, start, saved, deleted, n))
  {
    StoredWithin(states, actions, ticker, maxRejects, start, saved, deleted, n);
    EntrySafety(states, actions, ticker, maxRejects, n);
    hide IsRun, Stored, Inv;
  }

  /** A failed delete may bring a sheet back beside its successor: one sheet expires and cannot be deleted,
      another one of its ticker is queued, and after a restart both are. */
  lemma RemovedComesBack(a: Sheet, b: Sheet, ticker: string -> string, maxRejects: nat,
                         saved: nat -> bool, deleted: nat -> bool)
    returns (states: seq<State>, actions: seq<Action>)
    requires a.id != b.id && a.ticker == b.ticker == ticker(a.id) == ticker(b.id)
    requires saved(1) && saved(6) && !deleted(3)
    ensures IsRun(states, actions, ticker, maxRejects) && |states| == 8 && states[0] == EMPTY
    ensures states[7].queue == map[b.id := b]
    ensures Stored(states, map[], saved, deleted, 7) == map[a.id := a, b.id := b]
    ensures !OnePerTicker(Stored(states, map[], saved, deleted, 7))
  {
    var first, begin := Received(a, ticker, maxRejects);
    RunLength(first, begin, ticker, maxRejects);
    var gone := Expires(first[2], a, ticker, maxRejects);
    var expiring := [TickArrives([a], a.ticker), LookAt(Expired, a.validUntil), TickDone];
    JoinRuns(first, begin, gone, expiring, ticker, maxRejects);
    var next := Queues(gone[3], b, ticker, maxRejects);
    JoinRuns(first + gone[1..], begin + expiring, next, [Receive(b), CooldownAnswered(false)], ticker, maxRejects);
    states := first + gone[1..] + next[1..];
    actions := begin + expiring + [Receive(b), CooldownAnswered(false)];
    hide IsRun;
    StoredBoth(states, a, b, saved, deleted);
  }

  /** A queued sheet expires. */
  lemma Expires(s: State, a: Sheet, ticker: string -> string, maxRejects: nat) returns (states: seq<State>)
    requires Waiting(s, a) && s.consumer == CIdle
    ensures IsRun(states, [TickArrives([a], a.ticker), LookAt(Expired, a.validUntil), TickDone], ticker, maxRejects)
    ensures |states| == 4 && states[0] == s && Emptied(states[3]) && states[3].consumer == CIdle
    ensures states[1].queue == s.queue && states[2].queue == map[]
    ensures s.pending.byTicker == map[a.ticker := {a.id}] && s.pending.tickers == map[a.id := a.ticker] ==>
              !states[3].pending.Has(a.ticker)
  {
    var s1 := s.(tick := TLoop([a]));
    var s2 := Dequeue(s1, a.id).(tick := TLoop([]));
    var s3 := s2.(tick := TIdle);
    assert Snapshot(s, [a], a.ticker);
    assert [a][1..] == [];
    assert s2.queue == map[];
    states := [s, s1, s2, s3];
  }

  ghost predicate Emptied(s: State) {
    s.tick == TIdle && s.queue == map[] && s.held.tickers == map[] && s.held.byTicker == map[]
  }

  /** A sheet whose ticker is neither pending nor held is queued. */
  lemma Queues(s: State, b: Sheet, ticker: string -> string, maxRejects: nat) returns (states: seq<State>)
    requires Emptied(s) && s.consumer == CIdle && !s.pending.Has(b.ticker) && b.ticker == ticker(b.id)
    ensures IsRun(states, [Receive(b), CooldownAnswered(false)], ticker, maxRejects)
    ensures |states| == 3 && states[0] == s
    ensures states[1].queue == map[] && states[2].queue == map[b.id := b]
  {
    var s1 := s.(consumer := CCooldown(b));
    var s2 := Enqueue(s1, b).(consumer := CIdle);
    assert s2.queue == map[b.id := b];
    states := [s, s1, s2];
  }

  lemma StoredBoth(states: seq<State>, a: Sheet, b: Sheet, saved: nat -> bool, deleted: nat -> bool)
    requires |states| == 8 && a.id != b.id && a.ticker == b.ticker
    requires states[0].queue == states[1].queue == map[] && states[2].queue == states[3].queue == map[a.id := a]
    requires states[4].queue == states[5].queue == states[6].queue == map[] && states[7].queue == map[b.id := b]
    requires saved(1) && saved(6) && !deleted(3)
    ensures Stored(states, map[], saved, deleted, 7) == map[a.id := a, b.id := b]
    ensures !OnePerTicker(Stored(states, map[], saved, deleted, 7))
  {
    hide Written, OnePerTicker;
    NothingWritten(map[], map[], saved(0), deleted(0));
    FirstWritten(a, deleted(1));
    NothingWritten(map[a.id := a], map[a.id := a], saved(2), deleted(2));
    NotDeleted(a, saved(3));
    NothingWritten(map[a.id := a], map[], saved(4), deleted(4));
    NothingWritten(map[a.id := a], map[], saved(5), deleted(5));
    SecondWritten(a, b, deleted(6));
    assert Stored(states, map[], saved, deleted, 1) == map[];
    assert Stored(states, map[], saved, deleted, 2) == map[a.id := a];
    assert Stored(states, map[], saved, deleted, 3) == map[a.id := a];
    assert Stored(states, map[], saved, deleted, 4) == map[a.id := a];
    assert Stored(states, map[], saved, deleted, 5) == map[a.id := a];
    assert Stored(states, map[], saved, deleted, 6) == map[a.id := a];
  }

  lemma NothingWritten(stored: map<string, Sheet>, queue: map<string, Sheet>, saved: bool, deleted: bool)
    ensures Written(stored, queue, queue, saved, deleted) == stored
  {
  }

  lemma FirstWritten(a: Sheet, deleted: bool)
    ensures Written(map[], map[], map[a.id := a], true, deleted) == map[a.id := a]
  {
  }

  lemma NotDeleted(a: Sheet, saved: bool)
    ensures Written(map[a.id := a], map[a.id := a], map[], saved, false) == map[a.id := a]
  {
  }

  lemma SecondWritten(a: Sheet, b: Sheet, deleted: bool)
    requires a.id != b.id && a.ticker == b.ticker
    ensures Written(map[a.id := a], map[], map[b.id := b], true, deleted) == map[a.id := a, b.id := b]
    ensures !OnePerTicker(map[a.id := a, b.id := b])
  {
    var both := map[a.id := a, b.id := b];
    assert a.id in both && b.id in both && both[a.id] == a && both[b.id] == b;
  }
}
