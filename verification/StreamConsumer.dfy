/** The typed stream consumer (redis_streams.py:110-199): acknowledge first, then run the handler. A
    consumer-group stream is shared by its consumers; a consumer may crash between any two steps. */
module StreamConsumer {
  import opened Wrappers

  /** The stream as the group sees it: messages 1..last were published, `trimmed` are gone from the stream
      (publishing keeps its length near a maximum, redis_streams.py:53-56), the group has read up to `cursor`,
      `delivered` were read while they existed, `pending` are delivered and not acknowledged. `handled` lists
      the handler's invocations, in order. */
  datatype Group = Group(
    last: nat,
    cursor: nat,
    trimmed: set<nat>,
    delivered: set<nat>,
    pending: set<nat>,
    handled: seq<nat>)

  /** A group whose stream was never trimmed. */
  function Untrimmed(last: nat, cursor: nat, pending: set<nat>, handled: seq<nat>): Group {
    Group(last, cursor, {}, UptoSet(0, cursor), pending, handled)
  }

  const FRESH: Group := Group(0, 0, {}, {}, {}, [])

  /** Where a consumer is. Working holds the messages it has fetched; Holding has acknowledged one and
      is about to run the handler on it. */
  datatype Task =
    | Stopped
    | Claiming
    | Working(rest: seq<nat>)
    | Holding(id: nat, rest: seq<nat>)

  datatype Action =
    | Published(n: nat)
    | Trimmed(id: nat)
    | Start
    | Claim(ids: seq<nat>, dropped: set<nat>)
    | Read(n: nat)
    | ReadLost(n: nat)
    | AckDone
    | AckFailed(applied: bool)
    | Finish(invoked: bool)
    | Crash

  ghost predicate Enabled(g: Group, t: Task, a: Action) {
    match a
    case Published(_) => true
    case Trimmed(id) => 1 <= id <= g.last
    case Start => t.Stopped?
    // the pending list and the claim may fail or return part of the pending messages; claiming a message that
    // is gone from the stream removes it from the pending list
    case Claim(ids, dropped) =>
      && t.Claiming? && Distinct(ids)
      && (forall id :: id in ids ==> id in g.pending && id !in g.trimmed)
      && (forall id :: id in dropped ==> id in g.pending && id in g.trimmed)
    case Read(n) => t == Working([]) && g.cursor + n <= g.last
    // a read that is carried out but reported as failed
    case ReadLost(n) => t == Working([]) && g.cursor + n <= g.last
    case AckDone => t.Working? && t.rest != []
    case AckFailed(_) => t.Working? && t.rest != []
    case Finish(_) => t.Holding?
    case Crash => true
  }

  /** The group moves on by n messages; those that still exist are delivered and pending. */
  function Deliver(g: Group, n: nat): Group {
    var ids := UptoSet(g.cursor, n) - g.trimmed;
    g.(cursor := g.cursor + n, delivered := g.delivered + ids, pending := g.pending + ids)
  }

  ghost function NextGroup(g: Group, t: Task, a: Action): Group
    requires Enabled(g, t, a)
  {
    match a
    case Published(n) => g.(last := g.last + n)
    case Trimmed(id) => g.(trimmed := g.trimmed + {id})
    case Claim(_, dropped) => g.(pending := g.pending - dropped)
    case Read(n) => Deliver(g, n)
    case ReadLost(n) => Deliver(g, n)
    // acknowledging a message that is no longer pending is not an error
    case AckDone => g.(pending := g.pending - {t.rest[0]})
    case AckFailed(applied) => if applied then g.(pending := g.pending - {t.rest[0]}) else g
    // an empty or unreadable message is acknowledged without running the handler
    case Finish(invoked) => if invoked then g.(handled := g.handled + [t.id]) else g
    case _ => g
  }

  ghost function NextTask(g: Group, t: Task, a: Action): Task
    requires Enabled(g, t, a)
  {
    match a
    case Published(_) => t
    case Trimmed(_) => t
    case Start => Claiming
    case Claim(ids, _) => Working(ids)
    case Read(n) => Working(UptoLeft(g.cursor, n, g.trimmed))
    case ReadLost(_) => Working([])
    case AckDone => Holding(t.rest[0], t.rest[1..])
    // an error abandons the rest of the batch
    case AckFailed(_) => Working([])
    case Finish(_) => Working(t.rest)
    case Crash => Stopped
  }

  // ---------------------------------------------------------------- one consumer

  function Fetched(t: Task): seq<nat> {
    match t
    case Working(rest) => rest
    case Holding(_, rest) => rest
    case _ => []
  }

  ghost predicate GroupOk(g: Group) {
    && g.cursor <= g.last
    && (forall id :: id in g.delivered ==> 1 <= id <= g.cursor)
    && (forall id :: 1 <= id <= g.cursor ==> id in g.delivered || id in g.trimmed)
    && (forall id :: id in g.pending ==> id in g.delivered)
    && (forall id :: id in g.handled ==> id in g.delivered && id !in g.pending)
    && Distinct(g.handled)
  }

  /** What is fetched or held was delivered and is not handled yet; what is held is not pending. */
  ghost predicate TaskOk(g: Group, t: Task) {
    && Distinct(Fetched(t))
    && (forall id :: id in Fetched(t) ==> id in g.delivered && id !in g.handled)
    && (t.Holding? ==> t.id in g.delivered && t.id !in g.pending && t.id !in g.handled && t.id !in t.rest)
  }

  lemma StepKeeps(g: Group, t: Task, a: Action)
    requires GroupOk(g) && TaskOk(g, t) && Enabled(g, t, a)
    ensures GroupOk(NextGroup(g, t, a)) && TaskOk(NextGroup(g, t, a), NextTask(g, t, a))
  {
    if a.AckDone? {
      assert t.rest[0] in t.rest;
      assert forall id :: id in t.rest[1..] ==> id in t.rest && id != t.rest[0];
    } else if a.AckFailed? {
      assert t.rest[0] in t.rest;
    }
  }

  /** What the only consumer has fetched is still pending. */
  ghost predicate Backed(g: Group, t: Task) {
    forall id :: id in Fetched(t) ==> id in g.pending
  }

  lemma BackedStep(g: Group, t: Task, a: Action)
    requires TaskOk(g, t) && Backed(g, t) && Enabled(g, t, a)
    ensures Backed(NextGroup(g, t, a), NextTask(g, t, a))
  {
    if a.AckDone? {
      assert forall id :: id in t.rest[1..] ==> id in t.rest && id != t.rest[0];
    }
  }

  ghost predicate IsRun(groups: seq<Group>, tasks: seq<Task>, actions: seq<Action>) {
    && |groups| == |tasks| == |actions| + 1
    && groups[0] == FRESH && tasks[0] == Stopped
    && forall k :: 0 <= k < |actions| ==> IsStep(groups[k], tasks[k], actions[k], groups[k + 1], tasks[k + 1])
  }

  ghost predicate IsStep(g: Group, t: Task, a: Action, g': Group, t': Task) {
    Enabled(g, t, a) && g' == NextGroup(g, t, a) && t' == NextTask(g, t, a)
  }

  lemma {:induction false} RunKeeps(groups: seq<Group>, tasks: seq<Task>, actions: seq<Action>, n: nat)
    requires IsRun(groups, tasks, actions) && n < |groups|
    ensures GroupOk(groups[n]) && TaskOk(groups[n], tasks[n]) && Backed(groups[n], tasks[n])
  {
    hide GroupOk, TaskOk, Backed, Enabled, NextGroup, NextTask;
    if n == 0 {
      FreshOk();
    } else {
      RunKeeps(groups, tasks, actions, n - 1);
      assert IsStep(groups[n - 1], tasks[n - 1], actions[n - 1], groups[n - 1 + 1], tasks[n - 1 + 1]);
      StepKeeps(groups[n - 1], tasks[n - 1], actions[n - 1]);
      BackedStep(groups[n - 1], tasks[n - 1], actions[n - 1]);
    }
  }

  lemma FreshOk()
    ensures GroupOk(FRESH) && TaskOk(FRESH, Stopped) && Backed(FRESH, Stopped)
  {
  }

  /** One consumer, crashes and failed acknowledgements anywhere, restarts included: the handler is
      never run twice on a message. */
  lemma AtMostOnce(groups: seq<Group>, tasks: seq<Task>, actions: seq<Action>, n: nat)
    requires IsRun(groups, tasks, actions) && n < |groups|
    ensures Distinct(groups[n].handled)
    ensures forall id :: id in groups[n].handled ==> id in groups[n].delivered && id !in groups[n].pending
  {
    RunKeeps(groups, tasks, actions, n);
  }

  // ---------------------------------------------------------------- the fate of each message

  predicate Holds(t: Task, id: nat) {
    t.Holding? && t.id == id
  }

  /** The action takes the message away for good: an acknowledgement that is carried out but reported as
      failed, a message that is not usable, a crash between acknowledgement and handler, or a claim of a
      pending message that was trimmed. */
  predicate Loses(t: Task, a: Action, id: nat) {
    || (a == AckFailed(true) && t.Working? && t.rest != [] && t.rest[0] == id)
    || (a == Finish(false) && Holds(t, id))
    || (a.Crash? && Holds(t, id))
    || (a.Claim? && id in a.dropped)
  }

  ghost predicate LostBy(tasks: seq<Task>, actions: seq<Action>, n: nat, id: nat)
    requires n <= |tasks| && n <= |actions|
  {
    exists k :: 0 <= k < n && Loses(tasks[k], actions[k], id)
  }

  /** A lost message is nowhere any more; any other delivered one is pending, held or handled. */
  ghost predicate Fate(g: Group, t: Task, lost: bool, id: nat) {
    && (lost ==> id in g.delivered && id !in g.pending && id !in g.handled && !Holds(t, id))
    && (id in g.delivered ==> id in g.pending || id in g.handled || Holds(t, id) || lost)
  }

  lemma FateStep(g: Group, t: Task, a: Action, lost: bool, id: nat)
    requires GroupOk(g) && TaskOk(g, t) && Backed(g, t) && Fate(g, t, lost, id) && Enabled(g, t, a)
    ensures Fate(NextGroup(g, t, a), NextTask(g, t, a), lost || Loses(t, a, id), id)
  {
    if a.AckDone? || a.AckFailed? {
      assert t.rest[0] in t.rest;
    }
  }

  lemma {:induction false} RunFate(groups: seq<Group>, tasks: seq<Task>, actions: seq<Action>, n: nat, id: nat)
    requires IsRun(groups, tasks, actions) && n < |groups|
    ensures Fate(groups[n], tasks[n], LostBy(tasks, actions, n, id), id)
  {
    hide Enabled, NextGroup, NextTask, Loses, GroupOk, TaskOk, Backed;
    if n > 0 {
      var g, t, a := groups[n - 1], tasks[n - 1], actions[n - 1];
      RunFate(groups, tasks, actions, n - 1, id);
      RunKeeps(groups, tasks, actions, n - 1);
      assert IsStep(g, t, a, groups[n - 1 + 1], tasks[n - 1 + 1]);
      assert LostBy(tasks, actions, n, id) <==> LostBy(tasks, actions, n - 1, id) || Loses(t, a, id);
      hide Fate, LostBy;
      FateStep(g, t, a, LostBy(tasks, actions, n - 1, id), id);
    }
  }

  /** The fate of every message that the group has read past, in any run of one consumer, with crashes,
      restarts and trimming: it was trimmed before it could be delivered; or it was delivered, and then it was
      handled, exactly once, if and only if it is neither pending nor held nor was lost. A lost message is
      never handled. */
  lemma MessageFate(groups: seq<Group>, tasks: seq<Task>, actions: seq<Action>, n: nat, id: nat)
    requires IsRun(groups, tasks, actions) && n < |groups| && 1 <= id <= groups[n].cursor
    ensures id !in groups[n].delivered ==> id in groups[n].trimmed && id !in groups[n].handled
    ensures id in groups[n].delivered ==>
              (id in groups[n].handled <==>
               id !in groups[n].pending && !Holds(tasks[n], id) && !LostBy(tasks, actions, n, id))
    ensures LostBy(tasks, actions, n, id) ==> id !in groups[n].pending && !Holds(tasks[n], id)
    ensures multiset(groups[n].handled)[id] <= 1
  {
    hide Enabled, NextGroup, NextTask, Loses, Backed;
    RunFate(groups, tasks, actions, n, id);
    RunKeeps(groups, tasks, actions, n);
    OnceInDistinct(groups[n].handled, id);
  }

  lemma {:induction false} OnceInDistinct(s: seq<nat>, id: nat)
    requires Distinct(s)
    ensures multiset(s)[id] <= 1 && (id in s <==> multiset(s)[id] == 1)
  {
    if s != [] {
      var n := |s| - 1;
      OnceInDistinct(s[..n], id);
      assert s == s[..n] + [s[n]];
    }
  }

  /** Nothing is lost: a crash hits no message that is held, no acknowledgement is carried out but reported
      as failed, every message is usable, and none is trimmed between a crash and the claim after it. */
  predicate Smooth(t: Task, a: Action) {
    a != AckFailed(true) && a != Finish(false) && (a.Crash? ==> !t.Holding?) && (a.Claim? ==> a.dropped == {})
  }

  /** In such a run, crashes and restarts elsewhere included, each delivered message that is no longer
      pending or held was handled exactly once. */
  lemma ExactlyOnceWhenSmooth(groups: seq<Group>, tasks: seq<Task>, actions: seq<Action>, n: nat)
    requires IsRun(groups, tasks, actions) && n < |groups|
    requires forall k :: 0 <= k < n ==> Smooth(tasks[k], actions[k])
    ensures forall id :: id in groups[n].delivered && id !in groups[n].pending && !Holds(tasks[n], id) ==>
              multiset(groups[n].handled)[id] == 1
  {
    assert |tasks| == |groups|;
    hide IsRun;
    forall id | id in groups[n].delivered && id !in groups[n].pending && !Holds(tasks[n], id)
      ensures multiset(groups[n].handled)[id] == 1
    {
      RunKeeps(groups, tasks, actions, n);
      MessageFate(groups, tasks, actions, n, id);
      OnceInDistinct(groups[n].handled, id);
    }
  }

  // ---------------------------------------------------------------- two consumers

  datatype Pair = Pair(group: Group, first: Task, second: Task)

  /** Two consumers that share a group: the first one acts or the second one does. */
  ghost predicate IsSharedStep(p: Pair, a: Action, q: Pair) {
    || (IsStep(p.group, p.first, a, q.group, q.first) && q.second == p.second)
    || (IsStep(p.group, p.second, a, q.group, q.second) && q.first == p.first)
  }

  ghost predicate Reaches(p: Pair, actions: seq<Action>, q: Pair)
    decreases |actions|
  {
    if actions == [] then p == q
    else exists mid :: IsSharedStep(p, actions[0], mid) && Reaches(mid, actions[1..], q)
  }

  lemma Then(p: Pair, a: Action, mid: Pair, actions: seq<Action>, q: Pair)
    requires IsSharedStep(p, a, mid) && Reaches(mid, actions, q)
    ensures Reaches(p, [a] + actions, q)
  {
    assert ([a] + actions)[1..] == actions;
  }

  /** Nothing a consumer claims is in the other one's hands. */
  ghost predicate Careful(a: Action, other: Task) {
    a.Claim? ==> forall id :: id in a.ids ==> id !in Fetched(other)
  }

  ghost predicate IsCarefulStep(p: Pair, a: Action, q: Pair) {
    || (IsStep(p.group, p.first, a, q.group, q.first) && q.second == p.second && Careful(a, p.second))
    || (IsStep(p.group, p.second, a, q.group, q.second) && q.first == p.first && Careful(a, p.first))
  }

  ghost predicate ReachesCarefully(p: Pair, actions: seq<Action>, q: Pair)
    decreases |actions|
  {
    if actions == [] then p == q
    else exists mid :: IsCarefulStep(p, actions[0], mid) && ReachesCarefully(mid, actions[1..], q)
  }

  /** Two consumers have different messages in hand. */
  ghost predicate Apart(t: Task, u: Task) {
    && (forall id :: id in Fetched(t) ==> id !in Fetched(u) && !Holds(u, id))
    && (t.Holding? ==> t.id !in Fetched(u) && !Holds(u, t.id))
  }

  ghost predicate PairOk(p: Pair) {
    GroupOk(p.group) && TaskOk(p.group, p.first) && TaskOk(p.group, p.second) && Apart(p.first, p.second)
  }

  /** A step of one consumer leaves what the other one relies on. */
  lemma OtherKept(g: Group, t: Task, u: Task, a: Action)
    requires GroupOk(g) && TaskOk(g, t) && TaskOk(g, u) && Apart(t, u) && Enabled(g, t, a) && Careful(a, u)
    ensures TaskOk(NextGroup(g, t, a), u) && Apart(NextTask(g, t, a), u)
  {
    if a.Read? || a.ReadLost? {
      assert forall id :: id in UptoLeft(g.cursor, a.n, g.trimmed) ==> id > g.cursor;
    } else if a.AckDone? || a.AckFailed? {
      assert t.rest[0] in t.rest;
      assert forall id :: id in t.rest[1..] ==> id in t.rest;
    }
  }

  lemma PairStep(p: Pair, a: Action, q: Pair)
    requires PairOk(p) && IsCarefulStep(p, a, q)
    ensures PairOk(q)
  {
    hide GroupOk, TaskOk, Enabled, NextGroup, NextTask, Careful;
    if IsStep(p.group, p.first, a, q.group, q.first) && q.second == p.second && Careful(a, p.second) {
      StepKeeps(p.group, p.first, a);
      OtherKept(p.group, p.first, p.second, a);
    } else {
      StepKeeps(p.group, p.second, a);
      OtherKept(p.group, p.second, p.first, a);
    }
  }

  lemma {:induction false} PairRun(p: Pair, actions: seq<Action>, q: Pair)
    requires PairOk(p) && ReachesCarefully(p, actions, q)
    ensures PairOk(q)
    decreases |actions|
  {
    hide PairOk, IsCarefulStep;
    if actions != [] {
      var mid :| IsCarefulStep(p, actions[0], mid) && ReachesCarefully(mid, actions[1..], q);
      PairStep(p, actions[0], mid);
      PairRun(mid, actions[1..], q);
    }
  }

  /** Two consumers, crashes anywhere: the handler never runs twice on a message as long as neither claims
      a message that the other one has fetched. */
  lemma AtMostOnceForTwo(actions: seq<Action>, end: Pair)
    requires ReachesCarefully(Pair(FRESH, Stopped, Stopped), actions, end)
    ensures Distinct(end.group.handled)
  {
    PairRun(Pair(FRESH, Stopped, Stopped), actions, end);
  }

  ghost function Swap(p: Pair): Pair {
    Pair(p.group, p.second, p.first)
  }

  lemma {:induction false} ReachesSwapped(p: Pair, actions: seq<Action>, q: Pair)
    requires Reaches(p, actions, q)
    ensures Reaches(Swap(p), actions, Swap(q))
    decreases |actions|
  {
    hide IsStep;
    if actions != [] {
      var mid :| IsSharedStep(p, actions[0], mid) && Reaches(mid, actions[1..], q);
      ReachesSwapped(mid, actions[1..], q);
      assert IsSharedStep(Swap(p), actions[0], Swap(mid));
    }
  }

  lemma {:induction false} ReachesOn(p: Pair, a: seq<Action>, q: Pair, b: seq<Action>, r: Pair)
    requires Reaches(p, a, q) && Reaches(q, b, r)
    ensures Reaches(p, a + b, r)
    decreases |a|
  {
    hide IsSharedStep;
    if a == [] {
      assert a + b == b;
    } else {
      var mid :| IsSharedStep(p, a[0], mid) && Reaches(mid, a[1..], q);
      ReachesOn(mid, a[1..], q, b, r);
      assert (a + b)[1..] == a[1..] + b;
    }
  }

  /** The handler's invocations grew, and `id` is among the new ones. */
  ghost predicate HandledSince(before: seq<nat>, after: seq<nat>, id: nat) {
    |before| < |after| && after[..|before|] == before && id in after[|before|..]
  }

  lemma HandleFetched(p: Pair) returns (actions: seq<Action>, q: Pair)
    requires p.first.Working? && p.first.rest != []
    ensures Reaches(p, actions, q) && q.second == p.second && q.first == Working(p.first.rest[1..])
    ensures q.group.handled == p.group.handled + [p.first.rest[0]]
  {
    var held := Pair(NextGroup(p.group, p.first, AckDone), NextTask(p.group, p.first, AckDone), p.second);
    actions, q := HandleHeld(held);
    assert IsSharedStep(p, AckDone, held);
    hide Reaches, IsSharedStep;
    Then(p, AckDone, held, actions, q);
    actions := [AckDone] + actions;
  }

  lemma HandleHeld(p: Pair) returns (actions: seq<Action>, q: Pair)
    requires p.first.Holding?
    ensures Reaches(p, actions, q) && q.second == p.second && q.first == Working(p.first.rest)
    ensures q.group.handled == p.group.handled + [p.first.id]
  {
    q := Pair(NextGroup(p.group, p.first, Finish(true)), NextTask(p.group, p.first, Finish(true)), p.second);
    assert IsSharedStep(p, Finish(true), q) && Reaches(q, [], q);
    hide Reaches, IsSharedStep;
    Then(p, Finish(true), q, [], q);
    actions := [Finish(true)] + [];
  }

  lemma HandledLater(before: seq<nat>, x: nat, middle: seq<nat>, after: seq<nat>, id: nat)
    requires middle == before + [x] && ((id == x && after == middle) || HandledSince(middle, after, id))
    ensures HandledSince(before, after, id)
  {
    if HandledSince(middle, after, id) {
      assert after[..|before|] == after[..|middle|][..|before|] == before;
      assert after[|middle|..] == after[|before|..][1..];
    }
  }

  /** A consumer that goes on undisturbed handles whatever it has fetched. */
  lemma {:induction false} WorkOff(p: Pair, id: nat) returns (actions: seq<Action>, q: Pair)
    requires id in Fetched(p.first)
    ensures Reaches(p, actions, q) && q.second == p.second && HandledSince(p.group.handled, q.group.handled, id)
    decreases |Fetched(p.first)|, p.first.Holding?
  {
    hide Reaches, IsStep, HandledSince;
    var some: seq<Action>, mid: Pair;
    ghost var x := if p.first.Holding? then p.first.id else p.first.rest[0];
    if p.first.Holding? {
      some, mid := HandleHeld(p);
    } else {
      some, mid := HandleFetched(p);
    }
    if p.first.Working? && id == x {
      actions, q := some, mid;
      HandledLater(p.group.handled, x, mid.group.handled, q.group.handled, id);
    } else {
      var more;
      more, q := WorkOff(mid, id);
      HandledLater(p.group.handled, x, mid.group.handled, q.group.handled, id);
      ReachesOn(p, some, mid, more, q);
      actions := some + more;
    }
  }

  lemma Twice(a: seq<nat>, b: seq<nat>, c: seq<nat>, id: nat)
    requires HandledSince(a, b, id) && HandledSince(b, c, id)
    ensures !Distinct(c)
  {
    var i :| 0 <= i < |b[|a|..]| && b[|a|..][i] == id;
    var j :| 0 <= j < |c[|b|..]| && c[|b|..][j] == id;
    assert c[..|b|][|a| + i] == id;
    assert c[|a| + i] == c[|b| + j];
  }

  /** And that is the exact condition: whenever one consumer may claim a message that the other one has fetched,
      it may go on so that the message is handled twice. */
  lemma CarelessClaimRepeats(p: Pair, a: Action, id: nat) returns (actions: seq<Action>, q: Pair)
    requires a.Claim? && id in a.ids
    requires || (Enabled(p.group, p.first, a) && id in Fetched(p.second))
             || (Enabled(p.group, p.second, a) && id in Fetched(p.first))
    ensures Reaches(p, [a] + actions, q) && !Distinct(q.group.handled)
  {
    if Enabled(p.group, p.first, a) && id in Fetched(p.second) {
      actions, q := FirstCareless(p, a, id);
    } else {
      actions, q := FirstCareless(Swap(p), a, id);
      hide Reaches;
      ReachesSwapped(Swap(p), [a] + actions, q);
      q := Swap(q);
    }
  }

  lemma FirstCareless(p: Pair, a: Action, id: nat) returns (actions: seq<Action>, q: Pair)
    requires a.Claim? && id in a.ids && Enabled(p.group, p.first, a) && id in Fetched(p.second)
    ensures Reaches(p, [a] + actions, q) && !Distinct(q.group.handled)
  {
    var claimed := Pair(NextGroup(p.group, p.first, a), NextTask(p.group, p.first, a), p.second);
    assert IsSharedStep(p, a, claimed) && id in Fetched(claimed.first);
    hide Reaches, IsSharedStep, HandledSince;
    var some, mid := WorkOff(claimed, id);
    var more, end := WorkOff(Swap(mid), id);
    q := Swap(end);
    ReachesSwapped(Swap(mid), more, end);
    ReachesOn(claimed, some, mid, more, q);
    actions := some + more;
    Then(p, a, claimed, actions, q);
    Twice(claimed.group.handled, mid.group.handled, q.group.handled, id);
  }

  /** With two consumers the guarantee is gone: a second consumer that starts while the first one has
      been busy with a batch for the claim's idle time claims the rest of that batch, and both handle it. */
  lemma TwoConsumersMayRepeat() returns (actions: seq<Action>, end: Pair)
    ensures Reaches(Pair(FRESH, Stopped, Stopped), actions, end)
    ensures end.group.handled == [1, 2, 2]
  {
    var g2, g4 := Untrimmed(2, 2, {1, 2}, []), Untrimmed(2, 2, {2}, [1]);
    var tail: seq<Action>;
    tail, end := SecondClaims(g4);
    var g0, g1, g3 := FRESH, Untrimmed(2, 0, {}, []), Untrimmed(2, 2, {2}, []);
    FirstFetchesBoth(g0, g1, g2);
    FirstHandlesOne(g2, g3, g4);
    hide Reaches, IsStep;
    Then(Pair(g3, Holding(1, [2]), Stopped), Finish(true), Pair(g4, Working([2]), Stopped), tail, end);
    tail := [Finish(true)] + tail;
    Then(Pair(g2, Working([1, 2]), Stopped), AckDone, Pair(g3, Holding(1, [2]), Stopped), tail, end);
    tail := [AckDone] + tail;
    Then(Pair(g1, Working([]), Stopped), Read(2), Pair(g2, Working([1, 2]), Stopped), tail, end);
    tail := [Read(2)] + tail;
    Then(Pair(g1, Claiming, Stopped), Claim([], {}), Pair(g1, Working([]), Stopped), tail, end);
    tail := [Claim([], {})] + tail;
    Then(Pair(g1, Stopped, Stopped), Start, Pair(g1, Claiming, Stopped), tail, end);
    tail := [Start] + tail;
    Then(Pair(g0, Stopped, Stopped), Published(2), Pair(g1, Stopped, Stopped), tail, end);
    actions := [Published(2)] + tail;
  }

  /** The second consumer takes over message 2 and handles it; then the first one gets to it. */
  lemma SecondClaims(g: Group) returns (actions: seq<Action>, end: Pair)
    requires g == Untrimmed(2, 2, {2}, [1])
    ensures Reaches(Pair(g, Working([2]), Stopped), actions, end)
    ensures end.group.handled == [1, 2, 2]
  {
    var g5, g6, g7 := Untrimmed(2, 2, {}, [1]), Untrimmed(2, 2, {}, [1, 2]), Untrimmed(2, 2, {}, [1, 2, 2]);
    HandleTwo({2}, {}, [1]);
    HandleTwo({}, {}, [1, 2]);
    assert [1] + [2] == [1, 2] && [1, 2] + [2] == [1, 2, 2];
    assert IsStep(g, Stopped, Start, g, Claiming) && IsStep(g, Claiming, Claim([2], {}), g, Working([2]));
    end := Pair(g7, Working([]), Working([]));
    assert Reaches(end, [], end);
    hide Reaches, IsStep;
    Then(Pair(g6, Holding(2, []), Working([])), Finish(true), end, [], end);
    actions := [Finish(true)] + [];
    Then(Pair(g6, Working([2]), Working([])), AckDone, Pair(g6, Holding(2, []), Working([])), actions, end);
    actions := [AckDone] + actions;
    Then(Pair(g5, Working([2]), Holding(2, [])), Finish(true), Pair(g6, Working([2]), Working([])), actions, end);
    actions := [Finish(true)] + actions;
    Then(Pair(g, Working([2]), Working([2])), AckDone, Pair(g5, Working([2]), Holding(2, [])), actions, end);
    actions := [AckDone] + actions;
    Then(Pair(g, Working([2]), Claiming), Claim([2], {}), Pair(g, Working([2]), Working([2])), actions, end);
    actions := [Claim([2], {})] + actions;
    Then(Pair(g, Working([2]), Stopped), Start, Pair(g, Working([2]), Claiming), actions, end);
    actions := [Start] + actions;
  }

  lemma FirstFetchesBoth(g0: Group, g1: Group, g2: Group)
    requires g0 == FRESH && g1 == Untrimmed(2, 0, {}, []) && g2 == Untrimmed(2, 2, {1, 2}, [])
    ensures IsStep(g0, Stopped, Published(2), g1, Stopped)
    ensures IsStep(g1, Stopped, Start, g1, Claiming) && IsStep(g1, Claiming, Claim([], {}), g1, Working([]))
    ensures IsStep(g1, Working([]), Read(2), g2, Working([1, 2]))
  {
    assert UptoLeft(0, 2, {}) == [1, 2];
    assert {} + UptoSet(0, 2) == {1, 2};
    hide UptoLeft, UptoSet;
  }

  lemma FirstHandlesOne(g2: Group, g3: Group, g4: Group)
    requires g2 == Untrimmed(2, 2, {1, 2}, []) && g3 == Untrimmed(2, 2, {2}, []) && g4 == Untrimmed(2, 2, {2}, [1])
    ensures IsStep(g2, Working([1, 2]), AckDone, g3, Holding(1, [2]))
    ensures IsStep(g3, Holding(1, [2]), Finish(true), g4, Working([2]))
  {
    assert {1, 2} - {1} == {2};
    assert [1, 2][1..] == [2];
  }

  lemma HandleTwo(before: set<nat>, after: set<nat>, handled: seq<nat>)
    requires after == before - {2}
    ensures var g, g' := Untrimmed(2, 2, before, handled), Untrimmed(2, 2, after, handled);
            && IsStep(g, Working([2]), AckDone, g', Holding(2, []))
            && IsStep(g', Holding(2, []), Finish(true), Untrimmed(2, 2, after, handled + [2]), Working([]))
  {
    assert [2][1..] == [];
  }

  /** At most once is not at least once: a crash after the acknowledgement loses the message for good,
      even with a single consumer. */
  lemma CrashLosesMessage() returns (actions: seq<Action>, end: Pair)
    ensures Reaches(Pair(FRESH, Stopped, Stopped), actions, end)
    ensures end == Pair(Untrimmed(1, 1, {}, []), Stopped, Stopped)
  {
    var g0, g1, g2, g3 := FRESH, Untrimmed(1, 0, {}, []), Untrimmed(1, 1, {1}, []), Untrimmed(1, 1, {}, []);
    CrashSteps(g0, g1, g2, g3);
    end := Pair(g3, Stopped, Stopped);
    assert Reaches(end, [], end);
    hide Reaches, IsStep;
    Then(Pair(g3, Holding(1, []), Stopped), Crash, end, [], end);
    actions := [Crash] + [];
    Then(Pair(g2, Working([1]), Stopped), AckDone, Pair(g3, Holding(1, []), Stopped), actions, end);
    actions := [AckDone] + actions;
    Then(Pair(g1, Working([]), Stopped), Read(1), Pair(g2, Working([1]), Stopped), actions, end);
    actions := [Read(1)] + actions;
    Then(Pair(g1, Claiming, Stopped), Claim([], {}), Pair(g1, Working([]), Stopped), actions, end);
    actions := [Claim([], {})] + actions;
    Then(Pair(g1, Stopped, Stopped), Start, Pair(g1, Claiming, Stopped), actions, end);
    actions := [Start] + actions;
    Then(Pair(g0, Stopped, Stopped), Published(1), Pair(g1, Stopped, Stopped), actions, end);
    actions := [Published(1)] + actions;
  }

  lemma CrashSteps(g0: Group, g1: Group, g2: Group, g3: Group)
    requires g0 == FRESH && g1 == Untrimmed(1, 0, {}, []) && g2 == Untrimmed(1, 1, {1}, [])
    requires g3 == Untrimmed(1, 1, {}, [])
    ensures IsStep(g0, Stopped, Published(1), g1, Stopped)
    ensures IsStep(g1, Stopped, Start, g1, Claiming) && IsStep(g1, Claiming, Claim([], {}), g1, Working([]))
    ensures IsStep(g1, Working([]), Read(1), g2, Working([1]))
    ensures IsStep(g2, Working([1]), AckDone, g3, Holding(1, [])) && IsStep(g3, Holding(1, []), Crash, g3, Stopped)
  {
    assert UptoLeft(0, 1, {}) == [1];
    assert {} + UptoSet(0, 1) == {1};
    hide UptoLeft, UptoSet;
    assert {1} - {1} == {} && [1][1..] == [];
  }

  /** Nor does a restart bring every message back: one that was read before a crash, and trimmed before the
      restart, is dropped by the claim. */
  lemma TrimmingLosesMessage() returns (actions: seq<Action>, end: Pair)
    ensures Reaches(Pair(FRESH, Stopped, Stopped), actions, end)
    ensures end == Pair(Group(1, 1, {1}, {1}, {}, []), Working([]), Stopped)
  {
    var g0, g1, g2 := FRESH, Untrimmed(1, 0, {}, []), Untrimmed(1, 1, {1}, []);
    var g3, g4 := Group(1, 1, {1}, {1}, {1}, []), Group(1, 1, {1}, {1}, {}, []);
    CrashSteps(g0, g1, g2, Untrimmed(1, 1, {}, []));
    TrimSteps(g2, g3, g4);
    end := Pair(g4, Working([]), Stopped);
    assert Reaches(end, [], end);
    hide Reaches, IsStep;
    Then(Pair(g3, Claiming, Stopped), Claim([], {1}), end, [], end);
    actions := [Claim([], {1})] + [];
    Then(Pair(g3, Stopped, Stopped), Start, Pair(g3, Claiming, Stopped), actions, end);
    actions := [Start] + actions;
    Then(Pair(g2, Stopped, Stopped), Trimmed(1), Pair(g3, Stopped, Stopped), actions, end);
    actions := [Trimmed(1)] + actions;
    Then(Pair(g2, Working([1]), Stopped), Crash, Pair(g2, Stopped, Stopped), actions, end);
    actions := [Crash] + actions;
    Then(Pair(g1, Working([]), Stopped), Read(1), Pair(g2, Working([1]), Stopped), actions, end);
    actions := [Read(1)] + actions;
    Then(Pair(g1, Claiming, Stopped), Claim([], {}), Pair(g1, Working([]), Stopped), actions, end);
    actions := [Claim([], {})] + actions;
    Then(Pair(g1, Stopped, Stopped), Start, Pair(g1, Claiming, Stopped), actions, end);
    actions := [Start] + actions;
    Then(Pair(g0, Stopped, Stopped), Published(1), Pair(g1, Stopped, Stopped), actions, end);
    actions := [Published(1)] + actions;
  }

  lemma TrimSteps(g2: Group, g3: Group, g4: Group)
    requires g2 == Untrimmed(1, 1, {1}, [])
    requires g3 == Group(1, 1, {1}, {1}, {1}, []) && g4 == Group(1, 1, {1}, {1}, {}, [])
    ensures IsStep(g2, Working([1]), Crash, g2, Stopped) && IsStep(g2, Stopped, Trimmed(1), g3, Stopped)
    ensures IsStep(g3, Stopped, Start, g3, Claiming) && IsStep(g3, Claiming, Claim([], {1}), g4, Working([]))
  {
    assert UptoSet(0, 1) == {1};
    hide UptoLeft, UptoSet;
    assert {} + {1 as nat} == {1} && {1 as nat} - {1} == {};
  }
}
