/** The event archive (listener.py:143-410): read a batch, insert every event, then acknowledge what was
    stored; a periodic check moves messages that were delivered too often to a dead-letter stream. */
module EventListener {
  import opened Wrappers

  const MAX_DELIVERIES: nat := 5
  const CHECK_INTERVAL: nat := 12

  /** Messages 1..last were published, the group has read up to `cursor`, `deleted` are gone from the stream
      (it is trimmed to a maximum length), `delivered` were read while they existed. `pending` counts the
      deliveries of what is not acknowledged. `log` holds the message ids of the event table's rows, `dead` the
      ids moved to the dead-letter stream, `tried` the ids in the order in which the listener processed them. */
  datatype World = World(
    last: nat,
    cursor: nat,
    deleted: set<nat>,
    delivered: set<nat>,
    pending: map<nat, nat>,
    acked: set<nat>,
    log: seq<nat>,
    dead: set<nat>,
    tried: seq<nat>)

  datatype Task =
    | Down
    | Top(cycles: nat)
    | Scan
    | Checking(stuck: seq<nat>)
    | Moved(id: nat, stuck: seq<nat>)
    | Reading(cycles: nat)
    | Batch(rest: seq<nat>, ackIds: seq<nat>, cycles: nat)

  /** How a request went: done; failed without effect; or carried out, but reported as failed. */
  datatype Reply = Done | Refused | Lost

  /** What became of one message: stored (also when its row was there already); not usable or not
      stored; or stored, but reported as failed. */
  datatype Stored = Yes | No | Unreported

  datatype Action =
    | Published(n: nat)
    | Deleted(id: nat)
    | ClaimedByHand(id: nat)
    | Start
    | NextCycle
    | ScanPending(stuck: seq<nat>)
    | SkipStuck
    | AckMissing(reply: Reply)
    | AddDead(reply: Reply)
    | AckMoved(reply: Reply)
    | CheckDone
    | ReadNew(n: nat)
    | ReadLost(n: nat)
    | ReadFailed
    | Handle(stored: Stored)
    | AckBatch(reply: Reply)
    | Crash

  ghost predicate Enabled(w: World, t: Task, a: Action) {
    match a
    case Published(_) => true
    case Deleted(id) => 1 <= id <= w.last
    case ClaimedByHand(id) => id in w.pending
    case Start => t.Down?
    case NextCycle => t.Top?
    // the pending list may fail or be cut short; only ids delivered often enough are kept
    case ScanPending(stuck) =>
      t.Scan? && forall id :: id in stuck ==> id in w.pending && w.pending[id] >= MAX_DELIVERIES
    case SkipStuck => t.Checking? && t.stuck != []
    case AckMissing(_) => t.Checking? && t.stuck != [] && t.stuck[0] in w.deleted
    case AddDead(_) => t.Checking? && t.stuck != [] && t.stuck[0] !in w.deleted
    case AckMoved(_) => t.Moved?
    case CheckDone => t == Checking([])
    case ReadNew(n) => t.Reading? && w.cursor + n <= w.last
    // a read that is carried out but reported as failed
    case ReadLost(n) => t.Reading? && w.cursor + n <= w.last
    case ReadFailed => t.Reading?
    case Handle(_) => t.Batch? && t.rest != []
    case AckBatch(_) => t.Batch? && t.rest == []
    case Crash => true
  }

  /** Acknowledged messages leave the pending list. */
  function Ack(w: World, ids: set<nat>, reply: Reply): World {
    if reply.Refused? then w
    else w.(pending := w.pending - ids, acked := w.acked + ids)
  }

  /** The group moves on by n messages; those that still exist are delivered, each for the first time. */
  function Deliver(w: World, n: nat): World {
    var ids := UptoSet(w.cursor, n) - w.deleted;
    w.(cursor := w.cursor + n, delivered := w.delivered + ids, pending := w.pending + (map id | id in ids :: 1))
  }

  /** INSERT ... ON CONFLICT DO NOTHING on the message id. */
  function Insert(log: seq<nat>, id: nat): seq<nat> {
    if id in log then log else log + [id]
  }

  ghost function NextWorld(w: World, t: Task, a: Action): World
    requires Enabled(w, t, a)
  {
    match a
    case Published(n) => w.(last := w.last + n)
    case Deleted(id) => w.(deleted := w.deleted + {id})
    // a claim of a message that is gone removes it from the pending list
    case ClaimedByHand(id) =>
      w.(pending := if id in w.deleted then w.pending - {id} else w.pending[id := w.pending[id] + 1])
    case AckMissing(reply) => Ack(w, {t.stuck[0]}, reply)
    case AddDead(reply) => if reply.Refused? then w else w.(dead := w.dead + {t.stuck[0]})
    case AckMoved(reply) => Ack(w, {t.id}, reply)
    case ReadNew(n) => Deliver(w, n)
    case ReadLost(n) => Deliver(w, n)
    case Handle(stored) =>
      w.(log := if stored.No? then w.log else Insert(w.log, t.rest[0]), tried := w.tried + [t.rest[0]])
    case AckBatch(reply) => Ack(w, Elems(t.ackIds), reply)
    case _ => w
  }

  ghost function NextTask(w: World, t: Task, a: Action): Task
    requires Enabled(w, t, a)
  {
    match a
    case Published(_) => t
    case Deleted(_) => t
    case ClaimedByHand(_) => t
    case Start => Top(0)
    case NextCycle => if t.cycles + 1 >= CHECK_INTERVAL then Scan else Reading(t.cycles + 1)
    case ScanPending(stuck) => Checking(stuck)
    case SkipStuck => Checking(t.stuck[1..])
    case AckMissing(_) => Checking(t.stuck[1..])
    // a move that raises skips the acknowledgement
    case AddDead(reply) => if reply.Done? then Moved(t.stuck[0], t.stuck[1..]) else Checking(t.stuck[1..])
    case AckMoved(_) => Checking(t.stuck)
    case CheckDone => Reading(0)
    case ReadNew(n) => Batch(UptoLeft(w.cursor, n, w.deleted), [], t.cycles)
    case ReadLost(_) => Top(t.cycles)
    case ReadFailed => Top(t.cycles)
    case Handle(stored) =>
      Batch(t.rest[1..], if stored.Yes? then t.ackIds + [t.rest[0]] else t.ackIds, t.cycles)
    case AckBatch(_) => Top(t.cycles)
    case Crash => Down
  }

  // ---------------------------------------------------------------- archive safety

  ghost predicate Safe(w: World) {
    && Distinct(w.log)
    && (forall id :: id in w.acked ==> id in w.log || id in w.dead || id in w.deleted)
    && (forall id :: id in w.delivered ==> id in w.acked || id in w.pending || id in w.deleted)
    && (forall id :: 1 <= id <= w.cursor ==> id in w.delivered || id in w.deleted)
  }

  /** Whatever is about to be acknowledged is stored, moved or gone. */
  ghost predicate TaskSafe(w: World, t: Task) {
    && (t.Batch? ==> forall id :: id in t.ackIds ==> id in w.log)
    && (t.Moved? ==> t.id in w.dead)
  }

  lemma SafeStep(w: World, t: Task, a: Action)
    requires Safe(w) && TaskSafe(w, t) && Enabled(w, t, a)
    ensures Safe(NextWorld(w, t, a)) && TaskSafe(NextWorld(w, t, a), NextTask(w, t, a))
  {
    hide UptoLeft, UptoSet;
  }

  // ---------------------------------------------------------------- each message is tried once

  /** The listener reads only new messages: nothing is processed a second time. */
  ghost predicate TriedOnce(w: World, t: Task) {
    && (forall id :: id in w.tried ==> 1 <= id <= w.cursor)
    && Distinct(w.tried)
    && (t.Batch? ==> Distinct(t.rest) && forall id :: id in t.rest ==> 1 <= id <= w.cursor && id !in w.tried)
  }

  lemma TriedOnceStep(w: World, t: Task, a: Action)
    requires TriedOnce(w, t) && Enabled(w, t, a)
    ensures TriedOnce(NextWorld(w, t, a), NextTask(w, t, a))
  {
    var t' := NextTask(w, t, a);
    if a.Handle? {
      assert t.rest[0] in t.rest;
      assert forall id :: id in t'.rest ==> id in t.rest && id != t.rest[0];
    }
    hide UptoSet;
  }

  /** How often `id` was claimed from outside. */
  function Claims(actions: seq<Action>, id: nat): nat {
    if actions == [] then 0
    else Claims(actions[..|actions| - 1], id) + (if actions[|actions| - 1] == ClaimedByHand(id) then 1 else 0)
  }

  /** Messages the periodic check has in hand. */
  function InCheck(t: Task): seq<nat> {
    match t
    case Checking(stuck) => stuck
    case Moved(id, stuck) => [id] + stuck
    case _ => []
  }

  /** A pending message was delivered once, and once more by each outside claim; what is being moved, or was
      moved, to the dead-letter stream was claimed from outside often enough. */
  ghost predicate Counted(w: World, t: Task, actions: seq<Action>, id: nat) {
    && (id in w.pending ==> 1 <= id <= w.cursor && w.pending[id] == 1 + Claims(actions, id))
    && (id > w.cursor ==> Claims(actions, id) == 0)
    && (id in w.dead || id in InCheck(t) ==> Claims(actions, id) + 1 >= MAX_DELIVERIES)
  }

  lemma CountedStep(w: World, t: Task, a: Action, actions: seq<Action>, id: nat)
    requires Counted(w, t, actions, id) && Enabled(w, t, a)
    ensures Counted(NextWorld(w, t, a), NextTask(w, t, a), actions + [a], id)
  {
    assert (actions + [a])[..|actions + [a]| - 1] == actions;
    assert Claims(actions + [a], id) == Claims(actions, id) + (if a == ClaimedByHand(id) then 1 else 0);
    hide Claims;
    CheckStep(w, t, a, id);
    hide UptoSet, InCheck;
  }

  /** The check's messages come from a scan and are worked off. */
  lemma CheckStep(w: World, t: Task, a: Action, id: nat)
    requires Enabled(w, t, a)
    ensures id in InCheck(NextTask(w, t, a)) ==>
              id in InCheck(t) || (a.ScanPending? && id in w.pending && w.pending[id] >= MAX_DELIVERIES)
    ensures t.Checking? && t.stuck != [] ==> t.stuck[0] in InCheck(t)
    ensures t.Moved? ==> t.id in InCheck(t)
  {
    hide UptoLeft;
  }

  // ---------------------------------------------------------------- a failed message is stuck

  /** The message is pending, was processed, and is in nobody's hands. */
  ghost predicate Stuck(w: World, t: Task, id: nat) {
    && id in w.pending && id !in w.acked && id in w.tried && 1 <= id <= w.cursor
    && (t.Batch? ==> id !in t.rest && id !in t.ackIds)
    && id !in InCheck(t)
  }

  lemma StuckStep(w: World, t: Task, a: Action, actions: seq<Action>, id: nat)
    requires Stuck(w, t, id) && TriedOnce(w, t) && Counted(w, t, actions, id) && Enabled(w, t, a)
    requires Claims(actions, id) + 1 < MAX_DELIVERIES && !(a == ClaimedByHand(id) && id in w.deleted)
    ensures Stuck(NextWorld(w, t, a), NextTask(w, t, a), id)
  {
    CheckStep(w, t, a, id);
    hide InCheck;
    if t.Batch? && t.rest != [] {
      assert t.rest[0] in t.rest;
    }
    hide UptoSet;
  }

  /** A message that was not stored, or not known to be, is stuck from then on. */
  lemma FailureSticks(w: World, t: Task, stored: Stored)
    requires t.Batch? && t.rest != [] && !stored.Yes? && TriedOnce(w, t)
    requires t.rest[0] in w.pending && t.rest[0] !in w.acked && t.rest[0] !in t.ackIds
    ensures Stuck(NextWorld(w, t, Handle(stored)), NextTask(w, t, Handle(stored)), t.rest[0])
  {
    assert t.rest[0] in t.rest;
    assert forall k :: 0 <= k < |t.rest[1..]| ==> t.rest[1..][k] == t.rest[k + 1] != t.rest[0];
  }

  /** What a batch has fetched and not yet processed is pending, unless it was claimed when it was gone. */
  ghost predicate Waiting(w: World, t: Task, claimedGone: bool, id: nat) {
    t.Batch? && id in t.rest ==> id in w.pending || claimedGone
  }

  lemma WaitingStep(w: World, t: Task, a: Action, claimedGone: bool, id: nat)
    requires Waiting(w, t, claimedGone, id) && Enabled(w, t, a)
    ensures var gone := claimedGone || (a == ClaimedByHand(id) && id in w.deleted);
            Waiting(NextWorld(w, t, a), NextTask(w, t, a), gone, id)
  {
    hide UptoSet, Elems;
  }

  /** And it is not acknowledged. */
  ghost predicate BatchFresh(w: World, t: Task) {
    && InRange(w, t)
    && (t.Batch? ==> (forall id :: id in t.rest ==> id !in w.acked && id !in t.ackIds))
  }

  /** Everything the listener knows of was read past. */
  ghost predicate InRange(w: World, t: Task) {
    && (forall id :: id in w.acked ==> 1 <= id <= w.cursor)
    && (forall id :: id in w.pending ==> 1 <= id <= w.cursor)
    && (t.Batch? ==> forall id :: id in t.ackIds ==> 1 <= id <= w.cursor)
    && (forall id :: id in InCheck(t) ==> 1 <= id <= w.cursor)
  }

  lemma BatchFreshStep(w: World, t: Task, a: Action)
    requires BatchFresh(w, t) && TriedOnce(w, t) && Enabled(w, t, a)
    ensures BatchFresh(NextWorld(w, t, a), NextTask(w, t, a))
  {
    InRangeStep(w, t, a);
    hide InCheck, UptoSet;
    if t.Batch? && t.rest != [] {
      assert t.rest[0] in t.rest;
      assert forall k :: 0 <= k < |t.rest[1..]| ==> t.rest[1..][k] == t.rest[k + 1] != t.rest[0];
    }
  }

  lemma InRangeStep(w: World, t: Task, a: Action)
    requires InRange(w, t) && TriedOnce(w, t) && Enabled(w, t, a)
    ensures InRange(NextWorld(w, t, a), NextTask(w, t, a))
  {
    forall id
      ensures id in InCheck(NextTask(w, t, a)) ==> id in InCheck(t) || id in w.pending
      ensures t.Checking? && t.stuck != [] ==> t.stuck[0] in InCheck(t)
      ensures t.Moved? ==> t.id in InCheck(t)
    {
      CheckStep(w, t, a, id);
    }
    hide InCheck;
    if t.Batch? && t.rest != [] {
      assert t.rest[0] in t.rest;
    }
    hide UptoSet;
  }

  // ---------------------------------------------------------------- runs

  const FRESH: World := World(0, 0, {}, {}, map[], {}, [], {}, [])

  ghost predicate IsStep(w: World, t: Task, a: Action, w': World, t': Task) {
    Enabled(w, t, a) && w' == NextWorld(w, t, a) && t' == NextTask(w, t, a)
  }

  ghost predicate IsRun(worlds: seq<World>, tasks: seq<Task>, actions: seq<Action>) {
    && |worlds| == |tasks| == |actions| + 1
    && worlds[0] == FRESH && tasks[0] == Down
    && forall k :: 0 <= k < |actions| ==> IsStep(worlds[k], tasks[k], actions[k], worlds[k + 1], tasks[k + 1])
  }

  lemma {:induction false} RunSafe(worlds: seq<World>, tasks: seq<Task>, actions: seq<Action>, n: nat)
    requires IsRun(worlds, tasks, actions) && n < |worlds|
    ensures Safe(worlds[n]) && TaskSafe(worlds[n], tasks[n])
  {
    hide Enabled, NextWorld, NextTask;
    if n > 0 {
      RunSafe(worlds, tasks, actions, n - 1);
      assert IsStep(worlds[n - 1], tasks[n - 1], actions[n - 1], worlds[n - 1 + 1], tasks[n - 1 + 1]);
      hide Safe, TaskSafe;
      SafeStep(worlds[n - 1], tasks[n - 1], actions[n - 1]);
    }
  }

  /** Over every run, with crashes, failed and half-failed requests and outside claims: one row per
      message at most; an acknowledged message is in the event table, in the dead-letter stream, or gone
      from the stream; a delivered message that is not acknowledged is still pending or gone; and only what is
      gone was skipped. */
  lemma ArchiveSafety(worlds: seq<World>, tasks: seq<Task>, actions: seq<Action>, n: nat)
    requires IsRun(worlds, tasks, actions) && n < |worlds|
    ensures Distinct(worlds[n].log)
    ensures forall id :: id in worlds[n].acked ==>
              id in worlds[n].log || id in worlds[n].dead || id in worlds[n].deleted
    ensures forall id :: id in worlds[n].delivered ==>
              id in worlds[n].acked || id in worlds[n].pending || id in worlds[n].deleted
    ensures forall id :: 1 <= id <= worlds[n].cursor ==> id in worlds[n].delivered || id in worlds[n].deleted
  {
    RunSafe(worlds, tasks, actions, n);
  }

  lemma FreshOk(id: nat)
    ensures TriedOnce(FRESH, Down) && Counted(FRESH, Down, [], id)
    ensures BatchFresh(FRESH, Down) && Waiting(FRESH, Down, false, id)
  {
  }

  /** Somebody claimed the message after it had gone from the stream. */
  ghost predicate ClaimedGone(worlds: seq<World>, actions: seq<Action>, n: nat, id: nat)
    requires n <= |worlds| && n <= |actions|
  {
    exists k :: 0 <= k < n && actions[k] == ClaimedByHand(id) && id in worlds[k].deleted
  }

  lemma {:induction false} RunCounted(worlds: seq<World>, tasks: seq<Task>, actions: seq<Action>, n: nat, id: nat)
    requires IsRun(worlds, tasks, actions) && n < |worlds|
    ensures TriedOnce(worlds[n], tasks[n]) && Counted(worlds[n], tasks[n], actions[..n], id)
    ensures BatchFresh(worlds[n], tasks[n])
    ensures Waiting(worlds[n], tasks[n], ClaimedGone(worlds, actions, n, id), id)
  {
    hide Enabled, NextWorld, NextTask, TriedOnce, Counted, BatchFresh, Waiting;
    FreshOk(id);
    if n > 0 {
      var w, t, a := worlds[n - 1], tasks[n - 1], actions[n - 1];
      RunCounted(worlds, tasks, actions, n - 1, id);
      assert IsStep(w, t, a, worlds[n - 1 + 1], tasks[n - 1 + 1]);
      TriedOnceStep(w, t, a);
      CountedStep(w, t, a, actions[..n - 1], id);
      BatchFreshStep(w, t, a);
      WaitingStep(w, t, a, ClaimedGone(worlds, actions, n - 1, id), id);
      assert ClaimedGone(worlds, actions, n, id) <==>
             ClaimedGone(worlds, actions, n - 1, id) || (a == ClaimedByHand(id) && id in w.deleted);
      assert actions[..n] == actions[..n - 1] + [a];
    } else {
      assert actions[..0] == [];
    }
  }

  /** The retry that the listener's notes promise does not happen: over every run, outside claims included,
      each message is processed at most once; its delivery count is one more than the number of times it was
      claimed from outside; and it is moved to the dead-letter stream only after at least four such claims,
      so never if nobody claims. */
  lemma NeverRetried(worlds: seq<World>, tasks: seq<Task>, actions: seq<Action>, n: nat, id: nat)
    requires IsRun(worlds, tasks, actions) && n < |worlds|
    ensures Distinct(worlds[n].tried)
    ensures id in worlds[n].pending ==> worlds[n].pending[id] == 1 + Claims(actions[..n], id)
    ensures id in worlds[n].dead ==> Claims(actions[..n], id) >= 4
  {
    RunCounted(worlds, tasks, actions, n, id);
  }

  lemma {:induction false} MoreClaims(actions: seq<Action>, id: nat, k: nat)
    requires k <= |actions|
    ensures Claims(actions[..k], id) <= Claims(actions, id)
  {
    if k < |actions| {
      MoreClaims(actions[..|actions| - 1], id, k);
      assert actions[..|actions| - 1][..k] == actions[..k];
    } else {
      assert actions[..k] == actions;
    }
  }

  /** A message whose insert failed stays pending for the rest of the run, unacknowledged and not tried again,
      unless someone claims it from outside four times, or claims it when it has gone from the stream. */
  lemma {:induction false} FailedStaysPending(worlds: seq<World>, tasks: seq<Task>, actions: seq<Action>, k: nat,
                                              n: nat)
    requires IsRun(worlds, tasks, actions) && k < n < |worlds|
    requires actions[k].Handle? && !actions[k].stored.Yes? && tasks[k].Batch? && tasks[k].rest != []
    requires Claims(actions[..n], tasks[k].rest[0]) < 4 && !ClaimedGone(worlds, actions, n, tasks[k].rest[0])
    ensures Stuck(worlds[n], tasks[n], tasks[k].rest[0])
  {
    hide Enabled, NextWorld, NextTask, TriedOnce, Counted;
    var id := tasks[k].rest[0];
    var w, t, a := worlds[n - 1], tasks[n - 1], actions[n - 1];
    RunCounted(worlds, tasks, actions, n - 1, id);
    assert IsStep(w, t, a, worlds[n - 1 + 1], tasks[n - 1 + 1]);
    assert actions[..n][..n - 1] == actions[..n - 1];
    MoreClaims(actions[..n], id, n - 1);
    if n == k + 1 {
      assert id in t.rest;
      hide Stuck;
      FailureSticks(w, t, a.stored);
    } else {
      FailedStaysPending(worlds, tasks, actions, k, n - 1);
      hide Stuck;
      StuckStep(w, t, a, actions[..n - 1], id);
    }
  }

  ghost predicate Reaches(w: World, t: Task, actions: seq<Action>, w': World, t': Task)
    decreases |actions|
  {
    if actions == [] then w == w' && t == t'
    else exists v, u :: IsStep(w, t, actions[0], v, u) && Reaches(v, u, actions[1..], w', t')
  }

  lemma Then(w: World, t: Task, a: Action, v: World, u: Task, actions: seq<Action>, w': World, t': Task)
    requires IsStep(w, t, a, v, u) && Reaches(v, u, actions, w', t')
    ensures Reaches(w, t, [a] + actions, w', t')
  {
    assert ([a] + actions)[1..] == actions;
  }

  /** Such a run exists: one message, one failed insert; the message was tried, and is pending for good. */
  lemma FailedInsert() returns (actions: seq<Action>, w: World)
    ensures Reaches(FRESH, Down, actions, w, Top(1))
    ensures w == World(1, 1, {}, {1}, map[1 := 1], {}, [], {}, [1])
  {
    var w1 := World(1, 0, {}, {}, map[], {}, [], {}, []);
    var w2 := World(1, 1, {}, {1}, map[1 := 1], {}, [], {}, []);
    w := w2.(tried := [1]);
    FailedInsertSteps(w1, w2, w);
    assert Reaches(w, Top(1), [], w, Top(1));
    hide IsStep, Reaches;
    Then(w, Batch([], [], 1), AckBatch(Done), w, Top(1), [], w, Top(1));
    actions := [AckBatch(Done)] + [];
    Then(w2, Batch([1], [], 1), Handle(No), w, Batch([], [], 1), actions, w, Top(1));
    actions := [Handle(No)] + actions;
    Then(w1, Reading(1), ReadNew(1), w2, Batch([1], [], 1), actions, w, Top(1));
    actions := [ReadNew(1)] + actions;
    Then(w1, Top(0), NextCycle, w1, Reading(1), actions, w, Top(1));
    actions := [NextCycle] + actions;
    Then(w1, Down, Start, w1, Top(0), actions, w, Top(1));
    actions := [Start] + actions;
    Then(FRESH, Down, Published(1), w1, Down, actions, w, Top(1));
    actions := [Published(1)] + actions;
  }

  lemma FailedInsertSteps(w1: World, w2: World, w3: World)
    requires w1 == World(1, 0, {}, {}, map[], {}, [], {}, [])
    requires w2 == World(1, 1, {}, {1}, map[1 := 1], {}, [], {}, []) && w3 == w2.(tried := [1])
    ensures IsStep(FRESH, Down, Published(1), w1, Down) && IsStep(w1, Down, Start, w1, Top(0))
    ensures IsStep(w1, Top(0), NextCycle, w1, Reading(1))
    ensures IsStep(w1, Reading(1), ReadNew(1), w2, Batch([1], [], 1))
    ensures IsStep(w2, Batch([1], [], 1), Handle(No), w3, Batch([], [], 1))
    ensures IsStep(w3, Batch([], [], 1), AckBatch(Done), w3, Top(1))
  {
    hide UptoLeft, UptoSet, Deliver, Elems, Ack, Insert, Claims;
    FailedInsertStarts(w1);
    FailedInsertReads(w1, w2);
    FailedInsertHandles(w2, w3);
    FailedInsertAcks(w3);
    hide IsStep;
  }

  lemma FailedInsertStarts(w1: World)
    requires w1 == World(1, 0, {}, {}, map[], {}, [], {}, [])
    ensures IsStep(FRESH, Down, Published(1), w1, Down) && IsStep(w1, Down, Start, w1, Top(0))
    ensures IsStep(w1, Top(0), NextCycle, w1, Reading(1))
  {
    hide UptoLeft, UptoSet, Deliver, Elems, Ack, Insert;
  }

  lemma FailedInsertReads(w1: World, w2: World)
    requires w1 == World(1, 0, {}, {}, map[], {}, [], {}, []) && w2 == World(1, 1, {}, {1}, map[1 := 1], {}, [], {}, [])
    ensures IsStep(w1, Reading(1), ReadNew(1), w2, Batch([1], [], 1))
  {
    hide UptoLeft, UptoSet, Deliver;
    FirstDelivered(w1, w2);
    FirstRead();
  }

  lemma FailedInsertHandles(w2: World, w3: World)
    requires w2 == World(1, 1, {}, {1}, map[1 := 1], {}, [], {}, []) && w3 == w2.(tried := [1])
    ensures IsStep(w2, Batch([1], [], 1), Handle(No), w3, Batch([], [], 1))
  {
    hide UptoLeft, UptoSet, Deliver;
    FirstRead();
  }

  lemma FailedInsertAcks(w3: World)
    ensures IsStep(w3, Batch([], [], 1), AckBatch(Done), w3, Top(1))
  {
    hide Elems, Ack;
    NothingToAck(w3);
  }

  lemma FirstDelivered(w1: World, w2: World)
    requires w1 == World(1, 0, {}, {}, map[], {}, [], {}, []) && w2 == World(1, 1, {}, {1}, map[1 := 1], {}, [], {}, [])
    ensures Deliver(w1, 1) == w2
  {
    assert UptoSet(0, 1) == {1};
    assert map[] + (map id | id in UptoSet(0, 1) :: 1) == map[1 := 1];
  }

  lemma FirstRead()
    ensures UptoLeft(0, 1, {}) == [1] && [1 as nat][1..] == []
  {
  }

  lemma NothingToAck(w: World)
    ensures Ack(w, Elems<nat>([]), Done) == w
  {
    assert Elems<nat>([]) == {};
    assert w.pending - {} == w.pending;
  }
}
