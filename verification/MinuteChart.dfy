/** The paced collection of minute bars (minute_chart.py:75-102, 171-218): a work queue whose requests are
    spread over a window, slow down when the gateway is congested, and retry a congested target once. */
module MinuteChart {
  import opened Wrappers

  const WINDOW: real := 240.0
  const MIN_INTERVAL: real := 0.35
  const BACKOFF_FACTOR: real := 2.0
  const BACKOFF_MAX_MULT: real := 8.0
  const BACKOFF_CAP: real := 30.0
  const RECOVERY_FACTOR: real := 0.8

  type Duration = x: real | x >= 0.0 witness 0.0

  /** How a request ended: rows stored; the gateway was congested; any other error. */
  datatype Answer = Stored(rows: nat) | Congested | Broken

  function BaseInterval(n: int, window: real, least: real): real {
    if n <= 0 then 0.0 else MaxReal(window / n as real, least)
  }

  function Backoff(interval: real, base: real, least: real): real {
    MinReal(MinReal(MaxReal(interval, least) * BACKOFF_FACTOR, MaxReal(base, least) * BACKOFF_MAX_MULT), BACKOFF_CAP)
  }

  function Recover(interval: real, base: real): real {
    MaxReal(base, interval * RECOVERY_FACTOR)
  }

  /** The interval before request k. The first `n` requests are first attempts; only their congestion
      slows the loop down. */
  function Interval(base: real, least: real, n: nat, answer: nat -> Answer, k: nat): real {
    if k == 0 then base
    else
      var before := Interval(base, least, n, answer, k - 1);
      match answer(k - 1)
      case Stored(_) => Recover(before, base)
      case Congested => if k - 1 < n then Backoff(before, base, least) else before
      case Broken => before
  }

  /** The targets whose first attempt met congestion, among the first i. */
  function Again(targets: seq<string>, answer: nat -> Answer, i: nat): (r: seq<string>)
    requires i <= |targets|
    ensures |r| <= i
    ensures forall c :: c in r ==> c in targets[..i]
  {
    if i == 0 then []
    else
      var before := Again(targets, answer, i - 1);
      assert forall c :: c in targets[..i - 1] ==> c in targets[..i];
      if answer(i - 1).Congested? then
        assert targets[i - 1] in targets[..i];
        before + [targets[i - 1]]
      else before
  }

  /** Rows stored by the first k requests. */
  function RowsStored(answer: nat -> Answer, k: nat): nat {
    if k == 0 then 0
    else RowsStored(answer, k - 1) + match answer(k - 1) case Stored(rows) => rows case _ => 0
  }

  /** Targets given up in the first k requests: a first attempt that broke, a retry that was not stored. */
  function GivenUp(answer: nat -> Answer, n: nat, k: nat): nat {
    if k == 0 then 0
    else
      GivenUp(answer, n, k - 1) +
        (if answer(k - 1).Broken? || (answer(k - 1).Congested? && k - 1 >= n) then 1 else 0)
  }

  /** Request k starts no earlier than its interval after the request before. */
  ghost predicate Paced(starts: seq<real>, base: real, least: real, n: nat, answer: nat -> Answer) {
    forall k :: 0 < k < |starts| ==> starts[k] >= starts[k - 1] + Interval(base, least, n, answer, k)
  }

  /** After i first attempts and j retries: what was requested, and what still waits. */
  function Sent(targets: seq<string>, answer: nat -> Answer, i: nat, j: nat): seq<string>
    requires i <= |targets| && j <= |Again(targets, answer, i)|
  {
    targets[..i] + Again(targets, answer, i)[..j]
  }

  function Waiting(targets: seq<string>, answer: nat -> Answer, i: nat, j: nat): seq<string>
    requires i <= |targets| && j <= |Again(targets, answer, i)|
  {
    targets[i..] + Again(targets, answer, i)[j..]
  }

  lemma NothingSent(targets: seq<string>, base: real, least: real, answer: nat -> Answer)
    ensures Again(targets, answer, 0) == [] && Elems<string>([]) == {}
    ensures Sent(targets, answer, 0, 0) == [] && Waiting(targets, answer, 0, 0) == targets
    ensures RowsStored(answer, 0) == GivenUp(answer, |targets|, 0) == 0
    ensures Interval(base, least, |targets|, answer, 0) == base
    ensures PacedUpTo([], 0.0, base, least, |targets|, answer)
    ensures Progress(Loop(targets, [], {}, 0, 0, 0, base), targets, answer, base, least, 0, 0)
  {
  }

  /** While first attempts are left the head of the queue is the next target, which was never retried. */
  lemma FirstAttempt(targets: seq<string>, answer: nat -> Answer, i: nat)
    requires Distinct(targets) && i < |targets|
    ensures var queue := Waiting(targets, answer, i, 0);
            var again, again' := Again(targets, answer, i), Again(targets, answer, i + 1);
            && queue != [] && queue[0] == targets[i]
            && queue[0] !in Elems(again)
            && Sent(targets, answer, i, 0) + [queue[0]] == Sent(targets, answer, i + 1, 0)
            && (if answer(i).Congested? then
                  && queue[1..] + [queue[0]] == Waiting(targets, answer, i + 1, 0)
                  && Elems(again') == Elems(again) + {queue[0]}
                  && |again'| == |again| + 1
                else
                  queue[1..] == Waiting(targets, answer, i + 1, 0) && again' == again)
  {
    var again, again' := Again(targets, answer, i), Again(targets, answer, i + 1);
    assert forall c :: c in again ==> c in targets[..i];
    assert targets[i] !in targets[..i];
    assert again' == if answer(i).Congested? then again + [targets[i]] else again;
    hide Again;
    assert targets[i..] == [targets[i]] + targets[i + 1..];
    assert targets[..i + 1] == targets[..i] + [targets[i]];
  }

  /** After them the head of the queue is the next retry. */
  lemma Retry(targets: seq<string>, answer: nat -> Answer, j: nat)
    requires j <= |Again(targets, answer, |targets|)| && Waiting(targets, answer, |targets|, j) != []
    ensures var n := |targets|;
            var queue, again := Waiting(targets, answer, n, j), Again(targets, answer, n);
            && j < |again| && queue[0] in Elems(again)
            && Sent(targets, answer, n, j) + [queue[0]] == Sent(targets, answer, n, j + 1)
            && queue[1..] == Waiting(targets, answer, n, j + 1)
  {
    var again := Again(targets, answer, |targets|);
    hide Again;
    assert targets[|targets|..] == [];
    assert Waiting(targets, answer, |targets|, j) == again[j..];
    assert again[..j + 1] == again[..j] + [again[j]];
  }

  /** How one more request changes the counters and the interval. */
  lemma Counted(base: real, least: real, n: nat, answer: nat -> Answer, k: nat)
    ensures RowsStored(answer, k + 1) == RowsStored(answer, k) + (match answer(k) case Stored(rows) => rows case _ => 0)
    ensures GivenUp(answer, n, k + 1) ==
            GivenUp(answer, n, k) + (if answer(k).Broken? || (answer(k).Congested? && k >= n) then 1 else 0)
    ensures var before := Interval(base, least, n, answer, k);
            Interval(base, least, n, answer, k + 1) ==
              match answer(k)
              case Stored(_) => Recover(before, base)
              case Congested => if k < n then Backoff(before, base, least) else before
              case Broken => before
  {
  }

  ghost predicate PacedUpTo(starts: seq<real>, last: real, base: real, least: real, n: nat, answer: nat -> Answer) {
    Paced(starts, base, least, n, answer) && (starts != [] ==> last == starts[|starts| - 1])
  }

  lemma PacedOnce(starts: seq<real>, last: real, now: real, base: real, least: real, n: nat, answer: nat -> Answer)
    requires PacedUpTo(starts, last, base, least, n, answer)
    requires now >= last + Interval(base, least, n, answer, |starts|)
    ensures PacedUpTo(starts + [now], now, base, least, n, answer)
  {
  }

  /** The loop's variables, apart from the clock. */
  datatype Loop = Loop(queue: seq<string>, requests: seq<string>, retried: set<string>,
                       backoffs: nat, upserted: nat, failed: nat, interval: real)

  /** One turn of the loop, by how its request ended. */
  function Turn(l: Loop, a: Answer, base: real, least: real): Loop
    requires l.queue != []
  {
    var code := l.queue[0];
    var l1 := l.(queue := l.queue[1..], requests := l.requests + [code]);
    match a
    case Stored(rows) => l1.(upserted := l.upserted + rows, interval := Recover(l.interval, base))
    case _ =>
      if a.Congested? && code !in l.retried then
        l1.(retried := l.retried + {code}, queue := l1.queue + [code],
            interval := Backoff(l.interval, base, least), backoffs := l.backoffs + 1)
      else l1.(failed := l.failed + 1)
  }

  /** The loop's variables after i first attempts and j retries. */
  ghost predicate Progress(l: Loop, targets: seq<string>, answer: nat -> Answer, base: real, least: real, i: nat,
                           j: nat) {
    && i <= |targets| && j <= |Again(targets, answer, i)| && (j > 0 ==> i == |targets|)
    && l.queue == Waiting(targets, answer, i, j)
    && l.requests == Sent(targets, answer, i, j) && |l.requests| == i + j
    && l.retried == Elems(Again(targets, answer, i))
    && l.backoffs == |Again(targets, answer, i)|
    && l.upserted == RowsStored(answer, i + j)
    && l.failed == GivenUp(answer, |targets|, i + j)
    && l.interval == Interval(base, least, |targets|, answer, i + j)
  }

  /** How many turns are left at most. */
  function Left(targets: seq<string>, answer: nat -> Answer, i: nat, j: nat): nat {
    if i <= |targets| && j <= |Again(targets, answer, i)|
    then 2 * (|targets| - i) + |Again(targets, answer, i)| - j
    else 0
  }

  /** A turn keeps the progress, sends one request at the current interval, and brings the end nearer. */
  lemma TurnKeeps(l: Loop, targets: seq<string>, answer: nat -> Answer, base: real, least: real, i: nat, j: nat)
    requires Distinct(targets) && Progress(l, targets, answer, base, least, i, j) && l.queue != []
    ensures var i', j' := if i < |targets| then i + 1 else i, if i < |targets| then j else j + 1;
            var l' := Turn(l, answer(|l.requests|), base, least);
            && Progress(l', targets, answer, base, least, i', j')
            && |l'.requests| == |l.requests| + 1
            && Left(targets, answer, i', j') < Left(targets, answer, i, j)
    ensures l.interval == Interval(base, least, |targets|, answer, |l.requests|)
  {
    hide Interval, RowsStored, GivenUp, Distinct, Backoff, Recover, Sent, Waiting, Elems;
    if i < |targets| {
      FirstTurn(l, targets, answer, base, least, i);
    } else {
      RetryTurn(l, targets, answer, base, least, j);
    }
  }

  lemma FirstTurn(l: Loop, targets: seq<string>, answer: nat -> Answer, base: real, least: real, i: nat)
    requires Distinct(targets) && i < |targets| && Progress(l, targets, answer, base, least, i, 0) && l.queue != []
    ensures Progress(Turn(l, answer(i), base, least), targets, answer, base, least, i + 1, 0)
  {
    FirstAttempt(targets, answer, i);
    Counted(base, least, |targets|, answer, i);
    hide Again, Interval, RowsStored, GivenUp, Distinct, Backoff, Recover, Sent, Waiting, Elems;
  }

  lemma RetryTurn(l: Loop, targets: seq<string>, answer: nat -> Answer, base: real, least: real, j: nat)
    requires Progress(l, targets, answer, base, least, |targets|, j) && l.queue != []
    ensures j < |Again(targets, answer, |targets|)|
    ensures Progress(Turn(l, answer(|targets| + j), base, least), targets, answer, base, least, |targets|, j + 1)
  {
    Retry(targets, answer, j);
    Counted(base, least, |targets|, answer, |targets| + j);
    hide Again, Interval, RowsStored, GivenUp, Backoff, Recover, Sent, Waiting, Elems;
  }

  lemma AllSent(l: Loop, targets: seq<string>, answer: nat -> Answer, base: real, least: real, i: nat, j: nat)
    requires Progress(l, targets, answer, base, least, i, j) && l.queue == []
    ensures l.requests == targets + Again(targets, answer, |targets|)
    ensures l.backoffs == |Again(targets, answer, |targets|)|
    ensures l.upserted == RowsStored(answer, |l.requests|) && l.failed == GivenUp(answer, |targets|, |l.requests|)
  {
    hide Again, Interval, RowsStored, GivenUp;
    assert |targets[i..] + Again(targets, answer, i)[j..]| == 0;
    assert targets[..|targets|] == targets;
  }

  /** Sleep until the interval since the last request is over; when the next one starts. */
  method Wait(now: real, last: real, interval: real, slack: Duration) returns (begin: real)
    ensures begin >= last + interval && begin >= now
  {
    begin := now;
    var wait := last + interval - now;
    if wait > 0.0 {
      begin := now + wait + slack;
    }
  }

  /** Take the next code off the queue and deal with how its request ended. */
  method TakeTurn(l: Loop, a: Answer, base: real, least: real) returns (l': Loop)
    requires l.queue != []
    ensures l' == Turn(l, a, base, least)
  {
    hide Recover, Backoff;
    var code := l.queue[0];
    var queue := l.queue[1..];
    var retried, backoffs, upserted, failed, interval := l.retried, l.backoffs, l.upserted, l.failed, l.interval;
    if a.Stored? {
      upserted := upserted + a.rows;
      interval := Recover(interval, base);
    } else if a.Congested? && code !in retried {
      retried := retried + {code};
      queue := queue + [code];
      interval := Backoff(interval, base, least);
      backoffs := backoffs + 1;
    } else {
      failed := failed + 1;
    }
    l' := Loop(queue, l.requests + [code], retried, backoffs, upserted, failed, interval);
  }

  /** The loop. `answer(k)` is how request k ends, `slack(k)` how much longer than asked the sleep before
      it takes, `cost(k)` how long it runs, `start` the clock at the beginning. */
  method Collect(targets: seq<string>, window: real, least: real, answer: nat -> Answer,
                 start: real, slack: nat -> Duration, cost: nat -> Duration)
    returns (requests: seq<string>, starts: seq<real>, upserted: nat, failed: nat, backoffs: nat)
    requires Distinct(targets)
    ensures requests == targets + Again(targets, answer, |targets|)
    ensures backoffs == |Again(targets, answer, |targets|)|
    ensures upserted == RowsStored(answer, |requests|)
    ensures failed == GivenUp(answer, |targets|, |requests|)
    ensures |starts| == |requests|
    ensures Paced(starts, BaseInterval(|targets|, window, least), least, |targets|, answer)
  {
    var n := |targets|;
    var base := BaseInterval(n, window, least);
    var loop := Loop(targets, [], {}, 0, 0, 0, base);
    var now, last := start, 0.0;
    starts := [];
    ghost var i, j := 0, 0;
    hide Progress, Left, Again, Interval, Paced, PacedUpTo, Distinct, Turn, BaseInterval, RowsStored, GivenUp;
    NothingSent(targets, base, least, answer);
    while loop.queue != []
      invariant Progress(loop, targets, answer, base, least, i, j)
      invariant |starts| == |loop.requests|
      invariant PacedUpTo(starts, last, base, least, n, answer)
      decreases Left(targets, answer, i, j)
    {
      TurnKeeps(loop, targets, answer, base, least, i, j);
      var k := |loop.requests|;
      var begin := Wait(now, last, loop.interval, slack(k));
      PacedOnce(starts, last, begin, base, least, n, answer);
      starts, last, now := starts + [begin], begin, begin + cost(k);
      loop := TakeTurn(loop, answer(k), base, least);
      i, j := if i < n then i + 1 else i, if i < n then j else j + 1;
    }
    AllSent(loop, targets, answer, base, least, i, j);
    PacedInAll(starts, last, base, least, n, answer);
    requests, upserted, failed, backoffs := loop.requests, loop.upserted, loop.failed, loop.backoffs;
  }

  lemma PacedInAll(starts: seq<real>, last: real, base: real, least: real, n: nat, answer: nat -> Answer)
    requires PacedUpTo(starts, last, base, least, n, answer)
    ensures Paced(starts, base, least, n, answer)
  {
  }

  // ---------------------------------------------------------------- what the loop guarantees

  lemma {:induction false} AgainDistinct(targets: seq<string>, answer: nat -> Answer, i: nat)
    requires Distinct(targets) && i <= |targets|
    ensures Distinct(Again(targets, answer, i))
  {
    if i > 0 {
      AgainDistinct(targets, answer, i - 1);
      FirstAttempt(targets, answer, i - 1);
    }
  }

  lemma {:induction false} CountDistinct(s: seq<string>, c: string)
    requires Distinct(s)
    ensures multiset(s)[c] == if c in s then 1 else 0
  {
    if s != [] {
      var n := |s| - 1;
      CountDistinct(s[..n], c);
      assert s == s[..n] + [s[n]];
    }
  }

  /** Every target is requested once or twice, twice exactly when its first attempt met congestion;
      nothing else is requested. */
  lemma OnceOrTwice(targets: seq<string>, answer: nat -> Answer, c: string)
    requires Distinct(targets)
    ensures var again := Again(targets, answer, |targets|);
            multiset(targets + again)[c] == (if c in targets then 1 else 0) + (if c in again then 1 else 0)
    ensures c in Again(targets, answer, |targets|) <==>
              exists k :: 0 <= k < |targets| && targets[k] == c && answer(k).Congested?
    ensures |Again(targets, answer, |targets|)| <= |targets|
  {
    AgainDistinct(targets, answer, |targets|);
    CountDistinct(targets, c);
    CountDistinct(Again(targets, answer, |targets|), c);
    AgainMeaning(targets, answer, |targets|, c);
    assert multiset(targets + Again(targets, answer, |targets|)) ==
           multiset(targets) + multiset(Again(targets, answer, |targets|));
  }

  lemma {:induction false} AgainMeaning(targets: seq<string>, answer: nat -> Answer, i: nat, c: string)
    requires i <= |targets|
    ensures c in Again(targets, answer, i) <==> exists k :: 0 <= k < i && targets[k] == c && answer(k).Congested?
  {
    if i > 0 {
      AgainMeaning(targets, answer, i - 1, c);
      if answer(i - 1).Congested? && c == targets[i - 1] {
        assert c in Again(targets, answer, i);
      }
    }
  }

  /** Requests that stored their rows. */
  function Served(answer: nat -> Answer, k: nat): nat {
    if k == 0 then 0 else Served(answer, k - 1) + (if answer(k - 1).Stored? then 1 else 0)
  }

  lemma {:induction false} ServedOrGivenUpFirst(targets: seq<string>, answer: nat -> Answer, i: nat)
    requires i <= |targets|
    ensures Served(answer, i) + GivenUp(answer, |targets|, i) + |Again(targets, answer, i)| == i
  {
    if i > 0 {
      ServedOrGivenUpFirst(targets, answer, i - 1);
    }
  }

  lemma {:induction false} ServedOrGivenUpAgain(answer: nat -> Answer, n: nat, k: nat)
    requires n <= k
    ensures Served(answer, k) + GivenUp(answer, n, k) == Served(answer, n) + GivenUp(answer, n, n) + k - n
  {
    if k > n {
      ServedOrGivenUpAgain(answer, n, k - 1);
    }
  }

  /** Request k ends its target: it was stored, it broke, or it was a retry that met congestion. */
  predicate Terminal(answer: nat -> Answer, n: nat, k: nat) {
    answer(k).Congested? ==> k >= n
  }

  /** Every target ends exactly once: exactly one of its requests is terminal, and that one is its last. */
  lemma EveryTargetEnds(targets: seq<string>, answer: nat -> Answer, c: string) returns (last: nat)
    requires Distinct(targets) && c in targets
    ensures var sent := targets + Again(targets, answer, |targets|);
            && last < |sent| && sent[last] == c && Terminal(answer, |targets|, last)
            && forall k: nat :: k < |sent| && sent[k] == c && k != last ==> k < last && !Terminal(answer, |targets|, k)
  {
    var n := |targets|;
    var again := Again(targets, answer, n);
    var sent := targets + again;
    AgainDistinct(targets, answer, n);
    AgainMeaning(targets, answer, n, c);
    var first :| 0 <= first < n && targets[first] == c;
    assert forall k :: 0 <= k < n ==> sent[k] == targets[k];
    assert forall k :: n <= k < |sent| ==> sent[k] == again[k - n];
    if answer(first).Congested? {
      assert c in again;
      var j :| 0 <= j < |again| && again[j] == c;
      last := n + j;
      forall k: nat | k < |sent| && sent[k] == c && k != last
        ensures k < last && !Terminal(answer, n, k)
      {
        assert k < n ==> k == first;
      }
    } else {
      last := first;
      assert c !in again;
      assert forall j :: 0 <= j < |again| ==> again[j] != c;
    }
  }

  /** So the stored requests and the targets that were given up add up to the targets. */
  lemma EndingsAddUp(targets: seq<string>, answer: nat -> Answer)
    ensures var sent := |targets + Again(targets, answer, |targets|)|;
            Served(answer, sent) + GivenUp(answer, |targets|, sent) == |targets|
  {
    var n := |targets|;
    ServedOrGivenUpFirst(targets, answer, n);
    ServedOrGivenUpAgain(answer, n, n + |Again(targets, answer, n)|);
  }

  /** x is the least of the three. */
  predicate IsLeast(x: real, a: real, b: real, c: real) {
    x <= a && x <= b && x <= c && (x == a || x == b || x == c)
  }

  /** x is the greater of the two. */
  predicate IsGreater(x: real, a: real, b: real) {
    x >= a && x >= b && (x == a || x == b)
  }

  /** How the interval goes on from request to request: congestion of a first attempt doubles it, up to eight times
      the base and thirty seconds; stored rows take a fifth off it, down to the base; anything else leaves it. */
  lemma IntervalMeaning(base: real, least: real, n: nat, answer: nat -> Answer, k: nat)
    requires least > 0.0 && base >= least
    ensures Interval(base, least, n, answer, 0) == base
    ensures var before, next := Interval(base, least, n, answer, k), Interval(base, least, n, answer, k + 1);
            && (answer(k).Congested? && k < n ==>
                  IsLeast(next, 2.0 * MaxReal(before, least), 8.0 * base, 30.0))
            && (answer(k).Stored? ==> IsGreater(next, base, 0.8 * before))
            && (!answer(k).Stored? && !(answer(k).Congested? && k < n) ==> next == before)
  {
  }

  /** The base interval spreads the requests over the window, at the least interval or more apart. */
  lemma BaseMeaning(n: nat, window: real, least: real)
    requires n > 0
    ensures BaseInterval(n, window, least) >= least
    ensures BaseInterval(n, window, least) * n as real >= window
    ensures BaseInterval(n, window, least) == least || BaseInterval(n, window, least) * n as real == window
    ensures WINDOW == 240.0 && MIN_INTERVAL == 0.35
  {
    var q := window / n as real;
    assert q * n as real == window;
    if least > q {
      SignOfProduct(least - q, n as real);
    }
  }

  lemma BackoffBounds(interval: real, base: real, least: real)
    requires least > 0.0 && base >= least && interval >= MinReal(base, BACKOFF_CAP)
    ensures MinReal(base, BACKOFF_CAP) <= Backoff(interval, base, least) <= MinReal(8.0 * base, BACKOFF_CAP)
  {
  }

  lemma RecoverBounds(interval: real, base: real, high: real)
    requires base <= high && 0.0 <= interval <= high
    ensures base <= Recover(interval, base) <= high
  {
  }

  /** The interval never leaves its band: at least the base interval or the cap, whichever is smaller, and
      at most the base interval or the capped eightfold of it, whichever is larger. */
  lemma {:induction false} IntervalBand(base: real, least: real, n: nat, answer: nat -> Answer, k: nat)
    requires least > 0.0 && base >= least
    ensures MinReal(base, BACKOFF_CAP) <= Interval(base, least, n, answer, k)
    ensures Interval(base, least, n, answer, k) <= MaxReal(base, MinReal(8.0 * base, BACKOFF_CAP))
  {
    if k > 0 {
      hide Backoff, Recover;
      IntervalBand(base, least, n, answer, k - 1);
      var before := Interval(base, least, n, answer, k - 1);
      BackoffBounds(before, base, least);
      RecoverBounds(before, base, MaxReal(base, MinReal(8.0 * base, BACKOFF_CAP)));
    }
  }

  /** Requests start at least the least interval apart, or the cap if that is shorter. */
  lemma StartsApart(starts: seq<real>, n: nat, window: real, least: real, answer: nat -> Answer, k: nat)
    requires n > 0 && 0.0 < least && 0 < k < |starts|
    requires Paced(starts, BaseInterval(n, window, least), least, n, answer)
    ensures starts[k] - starts[k - 1] >= MinReal(least, BACKOFF_CAP)
  {
    var base := BaseInterval(n, window, least);
    IntervalBand(base, least, n, answer, k);
  }

  /** Congestion slows the loop down, except when the base interval is above the cap: then, and only then,
      backing off makes the loop faster than its base. */
  lemma BackoffBelowBase(base: real, least: real, n: nat, answer: nat -> Answer, k: nat)
    requires least > 0.0 && base >= least && k < n && answer(k).Congested?
    ensures Interval(base, least, n, answer, k + 1) < base <==> base > BACKOFF_CAP
    ensures base > BACKOFF_CAP ==> Interval(base, least, n, answer, k + 1) == BACKOFF_CAP
  {
    IntervalBand(base, least, n, answer, k);
    IntervalBand(base, least, n, answer, k + 1);
  }

  /** With the default window that happens for fewer than eight targets. */
  lemma FewTargets(n: nat)
    requires n > 0
    ensures BaseInterval(n, WINDOW, MIN_INTERVAL) > BACKOFF_CAP <==> n < 8
  {
    var q := WINDOW / n as real;
    assert (q - BACKOFF_CAP) * n as real == WINDOW - BACKOFF_CAP * n as real;
    SignOfProduct(q - BACKOFF_CAP, n as real);
  }
}
