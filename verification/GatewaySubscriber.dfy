/** Which stocks the gateway streams: the quota allocator (gateway_subscriber.py:125-201) and the
    reconciliation against what the gateway already streams (gateway_subscriber.py:279-356). */
module GatewaySubscriber {
  import opened Wrappers

  /** A stock code, as its rank in the order of code strings. */
  type Code = nat

  /** A connection takes 41 registrations, two a code. */
  const MAX_CODES: nat := 41 / 2
  const RESERVED_CODES: nat := 5
  const STREAM_START: nat := 850
  const STREAM_END: nat := 1535

  // ---------------------------------------------------------------- lists of codes

  lemma ElemsConcat(a: seq<Code>, b: seq<Code>)
    ensures Elems(a + b) == Elems(a) + Elems(b)
  {
  }

  lemma UnionSize(a: set<Code>, b: set<Code>)
    ensures |a + b| <= |a| + |b|
    ensures a !! b ==> |a + b| == |a| + |b|
  {
    assert a + b == a + (b - a);
  }

  /** First occurrences, in order. */
  function Dedup(s: seq<Code>): (r: seq<Code>)
    ensures Elems(r) == Elems(s)
    ensures |r| == |Elems(s)|
  {
    if s == [] then []
    else
      var d := Dedup(s[..|s| - 1]);
      var c := s[|s| - 1];
      assert s == s[..|s| - 1] + [c];
      assert Elems(s) == Elems(s[..|s| - 1]) + {c};
      if c in d then d
      else
        assert Elems(d + [c]) == Elems(d) + {c};
        d + [c]
  }

  method DedupCodes(codes: seq<Code>) returns (out: seq<Code>)
    ensures out == Dedup(codes)
  {
    var seen: set<Code> := {};
    out := [];
    for i := 0 to |codes|
      invariant out == Dedup(codes[..i])
      invariant seen == Elems(out)
    {
      assert codes[..i + 1][..i] == codes[..i];
      if codes[i] !in seen {
        out := out + [codes[i]];
        seen := seen + {codes[i]};
      }
    }
    assert codes[..|codes|] == codes;
  }

  lemma {:induction false} DedupPrefix(a: seq<Code>, b: seq<Code>)
    ensures Dedup(a) <= Dedup(a + b)
    decreases |b|
  {
    if b == [] {
      assert a + b == a;
    } else {
      DedupPrefix(a, b[..|b| - 1]);
      assert (a + b)[..|a + b| - 1] == a + b[..|b| - 1];
    }
  }

  ghost predicate IsLeast(r: Code, s: set<Code>) {
    r in s && forall c :: c in s ==> r <= c
  }

  function Least(s: set<Code>): (r: Code)
    requires s != {}
    ensures IsLeast(r, s)
  {
    LeastExists(s);
    var r :| r in s && forall c :: c in s ==> r <= c;
    r
  }

  lemma {:induction false} LeastExists(s: set<Code>)
    requires s != {}
    ensures exists r :: IsLeast(r, s)
  {
    var x :| x in s;
    if s == {x} {
      assert IsLeast(x, s);
    } else {
      LeastExists(s - {x});
      var y :| IsLeast(y, s - {x});
      LeastOfTwo(s, x, y);
    }
  }

  lemma LeastOfTwo(s: set<Code>, x: Code, y: Code)
    requires x in s && IsLeast(y, s - {x})
    ensures IsLeast(if x <= y then x else y, s)
  {
    forall c | c in s
      ensures x <= c || y <= c
    {
      if c != x {
        assert c in s - {x};
      }
    }
  }

  ghost predicate Rising(s: seq<Code>) {
    forall i, j :: 0 <= i < j < |s| ==> s[i] < s[j]
  }

  /** The codes of a set in ascending order: Python's `sorted`. */
  function Ascending(s: set<Code>): (r: seq<Code>)
    ensures Elems(r) == s && |r| == |s|
    ensures Rising(r)
  {
    if s == {} then []
    else
      var c := Least(s);
      var rest := Ascending(s - {c});
      PrependLeast(c, rest, s);
      [c] + rest
  }

  lemma PrependLeast(c: Code, rest: seq<Code>, s: set<Code>)
    requires IsLeast(c, s)
    requires Elems(rest) == s - {c} && |rest| == |s - {c}| && Rising(rest)
    ensures Elems([c] + rest) == s && Rising([c] + rest) && |[c] + rest| == |s|
  {
    ElemsConcat([c], rest);
    assert Elems([c]) == {c};
    assert forall j :: 0 <= j < |rest| ==> rest[j] in Elems(rest);
  }

  // ---------------------------------------------------------------- the allocator

  function Without(s: seq<Code>, held: set<Code>): (r: seq<Code>)
    ensures Elems(r) == Elems(s) - held
    ensures |s| == |Elems(s)| ==> |r| == |Elems(r)|
  {
    if s == [] then []
    else
      var rest := Without(s[1..], held);
      WithoutStep(s, rest, held);
      if s[0] in held then rest else [s[0]] + rest
  }

  lemma WithoutStep(s: seq<Code>, rest: seq<Code>, held: set<Code>)
    requires s != [] && Elems(rest) == Elems(s[1..]) - held
    ensures Elems(if s[0] in held then rest else [s[0]] + rest) == Elems(s) - held
    ensures |s| == |Elems(s)| ==>
              |s[1..]| == |Elems(s[1..])| && |Elems([s[0]] + rest)| == |Elems(rest)| + 1
  {
    assert s == [s[0]] + s[1..];
    ElemsConcat([s[0]], s[1..]);
    ElemsConcat([s[0]], rest);
    assert Elems([s[0]]) == {s[0]};
    SizeAtMost(s[1..]);
  }

  lemma SizeAtMost(s: seq<Code>)
    ensures |Elems(s)| <= |s|
  {
    if s != [] {
      SizeAtMost(s[1..]);
      assert Elems(s) == {s[0]} + Elems(s[1..]);
    }
  }

  function Held(positions: seq<Code>, keep: seq<Code>): seq<Code> {
    Dedup(positions + keep)
  }

  function SheetBudget(held: seq<Code>): nat {
    if |held| + RESERVED_CODES >= MAX_CODES then 0 else MAX_CODES - |held| - RESERVED_CODES
  }

  function Take(s: seq<Code>, n: nat): seq<Code> {
    if n <= |s| then s[..n] else s
  }

  function Drop(s: seq<Code>, n: nat): seq<Code> {
    if n <= |s| then s[n..] else []
  }

  function Primary(positions: seq<Code>, keep: seq<Code>, sheets: seq<Code>): seq<Code> {
    var held := Held(positions, keep);
    held + Take(Without(sheets, Elems(held)), SheetBudget(held))
  }

  /** The codes that compete for the places, most important first. */
  function Candidates(positions: seq<Code>, keep: seq<Code>, sheets: seq<Code>, turnover: seq<Code>): seq<Code> {
    var held := Held(positions, keep);
    var primary := Primary(positions, keep, sheets);
    primary + (if |primary| < MAX_CODES then turnover else [])
      + Drop(Without(sheets, Elems(held)), SheetBudget(held))
  }

  /** The codes the allocator picks. */
  function Allocation(positions: seq<Code>, keep: seq<Code>, sheets: seq<Code>, turnover: seq<Code>): (r: set<Code>)
    ensures |r| <= MAX_CODES
  {
    var winners := Take(Dedup(Candidates(positions, keep, sheets, turnover)), MAX_CODES);
    SizeAtMost(winners);
    Elems(winners)
  }

  /** positions, then what is streamed already, then sheets up to their budget, then turnover, then the
      remaining sheets, until MAX_CODES distinct codes are found. */
  method LoadSubscriptionCodes(positions: seq<Code>, keep: seq<Code>, sheets: seq<Code>, turnover: seq<Code>)
    returns (sorted: seq<Code>)
    ensures sorted == Ascending(Allocation(positions, keep, sheets, turnover))
  {
    var held := DedupCodes(positions + keep);
    var unheld := Without(sheets, Elems(held));
    var budget := SheetBudget(held);
    var primary := held + Take(unheld, budget);
    var filler := if |primary| < MAX_CODES then turnover else [];
    var all := primary + filler + Drop(unheld, budget);
    assert all == Candidates(positions, keep, sheets, turnover);
    ghost var winners := Allocation(positions, keep, sheets, turnover);
    assert winners == Elems(Take(Dedup(all), MAX_CODES));
    hide *;
    var codes: seq<Code> := [];
    var seen: set<Code> := {};
    NothingSeen(all);
    var i := 0;
    while i < |all|
      invariant i <= |all|
      invariant Scanned(all, i, codes, seen)
    {
      ScanStep(all, i, codes, seen);
      if all[i] !in seen {
        if |codes| >= MAX_CODES {
          break;
        }
        codes := codes + [all[i]];
        seen := seen + {all[i]};
      }
      i := i + 1;
    }
    Stopped(all, i, codes, seen);
    sorted := Ascending(seen);
  }

  /** The places given away after looking at the first i codes. */
  ghost predicate Scanned(all: seq<Code>, i: nat, codes: seq<Code>, seen: set<Code>)
    requires i <= |all|
  {
    codes == Dedup(all[..i]) && |codes| <= MAX_CODES && seen == Elems(codes)
  }

  lemma NothingSeen(all: seq<Code>)
    ensures Scanned(all, 0, [], {})
  {
    assert all[..0] == [];
  }

  lemma ScanStep(all: seq<Code>, i: nat, codes: seq<Code>, seen: set<Code>)
    requires i < |all| && Scanned(all, i, codes, seen)
    ensures all[i] in seen ==> Scanned(all, i + 1, codes, seen)
    ensures all[i] !in seen && |codes| < MAX_CODES ==> Scanned(all, i + 1, codes + [all[i]], seen + {all[i]})
  {
    assert all[..i + 1][..i] == all[..i];
    ElemsConcat(codes, [all[i]]);
  }

  /** A scan that stops at a full list has found the winners. */
  lemma Stopped(all: seq<Code>, i: nat, codes: seq<Code>, seen: set<Code>)
    requires i <= |all| && Scanned(all, i, codes, seen)
    requires i < |all| ==> |codes| >= MAX_CODES
    ensures seen == Elems(Take(Dedup(all), MAX_CODES))
  {
    hide Dedup;
    DedupPrefix(all[..i], all[i..]);
    assert all[..i] + all[i..] == all;
    if i == |all| {
      assert all[..i] == all;
    }
  }

  /** All the codes anyone asks for. */
  function Wanted(positions: seq<Code>, keep: seq<Code>, sheets: seq<Code>, turnover: seq<Code>): set<Code> {
    Elems(positions) + Elems(keep) + Elems(sheets) + Elems(turnover)
  }

  lemma PrimaryFacts(positions: seq<Code>, keep: seq<Code>, sheets: seq<Code>)
    requires |sheets| == |Elems(sheets)|
    ensures var held := Held(positions, keep);
            var unheld := Without(sheets, Elems(held));
            var primary := Primary(positions, keep, sheets);
            && Elems(held) == Elems(positions) + Elems(keep)
            && Elems(primary) + Elems(Drop(unheld, SheetBudget(held))) == Elems(held) + Elems(sheets)
            && |Elems(primary)| == |primary|
            && (|held| + RESERVED_CODES <= MAX_CODES ==> |primary| + RESERVED_CODES <= MAX_CODES)
  {
    hide Dedup, Without, Elems, Take, Drop;
    var held := Held(positions, keep);
    var unheld := Without(sheets, Elems(held));
    var n := SheetBudget(held);
    ElemsConcat(positions, keep);
    var first := Take(unheld, n);
    ElemsConcat(held, first);
    Split(unheld, n);
    var primary := Primary(positions, keep, sheets);
    assert primary == held + first;
    assert Elems(held) !! Elems(first);
    UnionSize(Elems(held), Elems(first));
    var late := Elems(Drop(unheld, n));
    assert (Elems(held) + Elems(first)) + late == Elems(held) + (Elems(first) + late);
    assert Elems(held) + Elems(unheld) == Elems(held) + Elems(sheets);
  }

  lemma Split(s: seq<Code>, n: nat)
    requires |Elems(s)| == |s|
    ensures Elems(Take(s, n)) + Elems(Drop(s, n)) == Elems(s)
    ensures |Elems(Take(s, n))| == |Take(s, n)| <= n
  {
    assert Take(s, n) + Drop(s, n) == s;
    ElemsConcat(Take(s, n), Drop(s, n));
    TakenSize(s, n);
  }

  /** Work conserving: a place stays empty only when nobody wants it. */
  lemma AllocationSize(positions: seq<Code>, keep: seq<Code>, sheets: seq<Code>, turnover: seq<Code>)
    requires |sheets| == |Elems(sheets)|
    ensures var all := Wanted(positions, keep, sheets, turnover);
            var r := Allocation(positions, keep, sheets, turnover);
            && r <= all
            && |r| == (if |all| <= MAX_CODES then |all| else MAX_CODES)
            && (|all| <= MAX_CODES ==> r == all)
  {
    hide Dedup, Without, Elems, Take, Drop, Held;
    var all := Wanted(positions, keep, sheets, turnover);
    var r := Allocation(positions, keep, sheets, turnover);
    var candidates := Candidates(positions, keep, sheets, turnover);
    var primary := Primary(positions, keep, sheets);
    var held := Held(positions, keep);
    var late := Drop(Without(sheets, Elems(held)), SheetBudget(held));
    var filler := if |primary| < MAX_CODES then turnover else [];
    PrimaryFacts(positions, keep, sheets);
    ElemsConcat(primary + filler, late);
    ElemsConcat(primary, filler);
    ElemsOfNone();
    TakenSize(Dedup(candidates), MAX_CODES);
    assert Elems(candidates) == Elems(primary) + Elems(filler) + Elems(late);
    assert |r| == (if |Elems(candidates)| <= MAX_CODES then |Elems(candidates)| else MAX_CODES);
    if |primary| < MAX_CODES {
      assert Elems(candidates) == all;
    }
    Within(Elems(primary), Elems(candidates));
    Within(Elems(candidates), all);
    if |all| <= MAX_CODES {
      Within(r, all);
      Equal(r, all);
    }
  }

  lemma ElemsOfNone()
    ensures Elems<Code>([]) == {}
  {
  }

  lemma TakenSize(s: seq<Code>, n: nat)
    requires |Elems(s)| == |s|
    ensures Elems(Take(s, n)) <= Elems(s)
    ensures |Elems(Take(s, n))| == |Take(s, n)| == (if n <= |s| then n else |s|)
  {
    hide Elems;
    var a, b := Take(s, n), Drop(s, n);
    assert a + b == s;
    ElemsConcat(a, b);
    SizeAtMost(a);
    SizeAtMost(b);
    UnionSize(Elems(a), Elems(b));
  }

  lemma Within(a: set<Code>, b: set<Code>)
    requires a <= b
    ensures |a| <= |b|
  {
    assert b == a + (b - a);
  }

  lemma Equal(a: set<Code>, b: set<Code>)
    requires a <= b && |a| == |b|
    ensures a == b
  {
    assert b == a + (b - a);
  }

  /** Strict priority: a code wins a place exactly when fewer than MAX_CODES distinct codes come before
      its first mention. */
  lemma Priority(positions: seq<Code>, keep: seq<Code>, sheets: seq<Code>, turnover: seq<Code>, before: seq<Code>,
                 c: Code)
    requires before + [c] <= Candidates(positions, keep, sheets, turnover) && c !in before
    ensures c in Allocation(positions, keep, sheets, turnover) <==> |Elems(before)| < MAX_CODES
  {
    hide Candidates;
    var all := Candidates(positions, keep, sheets, turnover);
    var upTo := before + [c];
    assert all == upTo + all[|upTo|..];
    DedupPrefix(upTo, all[|upTo|..]);
    assert upTo[..|upTo| - 1] == before;
    assert c !in Elems(before);
    var d := Dedup(all);
    var k := |Elems(before)|;
    assert Dedup(upTo) == Dedup(before) + [c];
    assert d[k] == c;
    NoRepeats(d);
    if k < MAX_CODES {
      assert Take(d, MAX_CODES)[k] == c;
    }
  }

  lemma {:induction false} NoRepeats(s: seq<Code>)
    requires |Elems(s)| == |s|
    ensures forall i, j :: 0 <= i < j < |s| ==> s[i] != s[j]
  {
    forall i, j | 0 <= i < j < |s|
      ensures s[i] != s[j]
    {
      if s[i] == s[j] {
        var t := s[..j] + s[j + 1..];
        assert s[i] in s[..j];
        assert Elems(s) == Elems(t);
        SizeAtMost(t);
      }
    }
  }

  lemma ElemsMono(a: seq<Code>, b: seq<Code>)
    requires a <= b
    ensures Elems(a) <= Elems(b)
  {
    assert b == a + b[|a|..];
    ElemsConcat(a, b[|a|..]);
  }

  lemma TakePrefix(p: seq<Code>, d: seq<Code>, n: nat)
    requires p <= d
    ensures |p| <= n ==> p <= Take(d, n)
    ensures |p| >= n ==> Take(p, n) == Take(d, n)
  {
  }

  /** Positions and kept codes are served first: all of them get a place if they fit. */
  lemma HeldFirst(positions: seq<Code>, keep: seq<Code>, sheets: seq<Code>, turnover: seq<Code>)
    ensures |Held(positions, keep)| <= MAX_CODES ==>
              Elems(positions) + Elems(keep) <= Allocation(positions, keep, sheets, turnover)
    ensures |Dedup(positions)| <= MAX_CODES ==>
              Elems(positions) <= Allocation(positions, keep, sheets, turnover)
    ensures |Dedup(positions)| >= MAX_CODES ==>
              Allocation(positions, keep, sheets, turnover) == Elems(Take(Dedup(positions), MAX_CODES))
  {
    hide Dedup, Without, Elems, Drop, Take, Candidates, Held;
    var held := Held(positions, keep);
    var d := Dedup(Candidates(positions, keep, sheets, turnover));
    HeldLeads(positions, keep, sheets, turnover);
    TakePrefix(held, d, MAX_CODES);
    TakePrefix(Dedup(positions), d, MAX_CODES);
    if |held| <= MAX_CODES {
      ElemsMono(held, Take(d, MAX_CODES));
    }
    if |Dedup(positions)| <= MAX_CODES {
      ElemsMono(Dedup(positions), Take(d, MAX_CODES));
    }
  }

  lemma HeldLeads(positions: seq<Code>, keep: seq<Code>, sheets: seq<Code>, turnover: seq<Code>)
    ensures Elems(Held(positions, keep)) == Elems(positions) + Elems(keep)
    ensures Dedup(positions) <= Held(positions, keep) <= Dedup(Candidates(positions, keep, sheets, turnover))
  {
    hide Dedup, Without, Elems, Drop;
    var held := Held(positions, keep);
    var all := Candidates(positions, keep, sheets, turnover);
    ElemsConcat(positions, keep);
    DedupPrefix(positions, keep);
    DedupTwice(positions + keep);
    assert held <= all;
    assert all == held + all[|held|..];
    DedupPrefix(held, all[|held|..]);
  }

  lemma {:induction false} DedupTwice(s: seq<Code>)
    ensures Dedup(Dedup(s)) == Dedup(s)
  {
    if s != [] {
      var d := Dedup(s[..|s| - 1]);
      DedupTwice(s[..|s| - 1]);
      var c := s[|s| - 1];
      if c !in d {
        assert (d + [c])[..|d + [c]| - 1] == d;
      }
    }
  }

  // ---------------------------------------------------------------- who gets a place, counted from the inputs

  /** Positions and kept codes. */
  function Firsts(positions: seq<Code>, keep: seq<Code>): set<Code> {
    Elems(positions) + Elems(keep)
  }

  /** Sheets that come before turnover: with the sheets in front of them, positions and kept codes they leave
      the reserved places free. */
  function EarlySheets(positions: seq<Code>, keep: seq<Code>, sheets: seq<Code>): set<Code> {
    set j | 0 <= j < |sheets| && |Firsts(positions, keep) + Elems(sheets[..j])| < MAX_CODES - RESERVED_CODES
      :: sheets[j]
  }

  lemma HeldSize(positions: seq<Code>, keep: seq<Code>)
    ensures Elems(Held(positions, keep)) == Firsts(positions, keep)
    ensures |Held(positions, keep)| == |Firsts(positions, keep)|
  {
    ElemsConcat(positions, keep);
    hide Elems, Dedup;
  }

  lemma WithoutFirst(c: Code, s: seq<Code>, held: set<Code>)
    ensures Without([c] + s, held) == if c in held then Without(s, held) else [c] + Without(s, held)
  {
    hide Elems;
    assert ([c] + s)[1..] == s;
  }

  lemma WithoutNone(held: set<Code>)
    ensures Without([], held) == []
  {
  }

  lemma {:induction false} WithoutConcat(a: seq<Code>, b: seq<Code>, held: set<Code>)
    ensures Without(a + b, held) == Without(a, held) + Without(b, held)
  {
    hide Elems, Without;
    if a == [] {
      WithoutNone(held);
      assert a + b == b;
    } else {
      WithoutConcat(a[1..], b, held);
      assert a == [a[0]] + a[1..] && a + b == [a[0]] + (a[1..] + b);
      WithoutFirst(a[0], a[1..], held);
      WithoutFirst(a[0], a[1..] + b, held);
    }
  }

  /** Where sheet j stands among the sheets that are not held. */
  lemma SheetRank(positions: seq<Code>, keep: seq<Code>, sheets: seq<Code>, j: nat) returns (a: seq<Code>, b: seq<Code>)
    requires |sheets| == |Elems(sheets)| && j < |sheets| && sheets[j] !in Firsts(positions, keep)
    ensures Without(sheets, Elems(Held(positions, keep))) == a + [sheets[j]] + b
    ensures Elems(a) == Elems(sheets[..j]) - Firsts(positions, keep) && sheets[j] !in a
    ensures |a| + |Firsts(positions, keep)| == |Firsts(positions, keep) + Elems(sheets[..j])|
    ensures |Held(positions, keep)| == |Firsts(positions, keep)|
  {
    hide Take, Drop, Dedup, Without, Elems;
    var c, held := sheets[j], Elems(Held(positions, keep));
    HeldSize(positions, keep);
    a, b := Without(sheets[..j], held), Without(sheets[j + 1..], held);
    assert sheets == sheets[..j] + ([c] + sheets[j + 1..]);
    WithoutConcat(sheets[..j], [c] + sheets[j + 1..], held);
    WithoutFirst(c, sheets[j + 1..], held);
    DistinctPart(sheets, j);
    InElems(a, c);
    assert held + Elems(sheets[..j]) == held + Elems(a);
    UnionSize(held, Elems(a));
  }

  lemma DistinctPart(s: seq<Code>, j: nat)
    requires |s| == |Elems(s)| && j < |s|
    ensures |s[..j]| == |Elems(s[..j])| && s[j] !in Elems(s[..j])
  {
    NoRepeats(s);
    assert s[..j] + s[j..] == s;
    ElemsConcat(s[..j], s[j..]);
    UnionSize(Elems(s[..j]), Elems(s[j..]));
    SizeAtMost(s[..j]);
    SizeAtMost(s[j..]);
  }

  /** An early sheet always has a place. */
  lemma EarlySheetPlace(positions: seq<Code>, keep: seq<Code>, sheets: seq<Code>, turnover: seq<Code>, j: nat)
    requires |sheets| == |Elems(sheets)| && j < |sheets|
    requires |Firsts(positions, keep) + Elems(sheets[..j])| < MAX_CODES - RESERVED_CODES
    ensures sheets[j] in Allocation(positions, keep, sheets, turnover)
  {
    hide Dedup, Without, Elems, Allocation;
    var held, firsts := Held(positions, keep), Firsts(positions, keep);
    Within(firsts, firsts + Elems(sheets[..j]));
    ElemsConcat(positions, keep);
    if sheets[j] in firsts {
      HeldFirst(positions, keep, sheets, turnover);
    } else {
      var a, b := SheetRank(positions, keep, sheets, j);
      var before := held + a;
      assert a + [sheets[j]] <= Take(a + [sheets[j]] + b, SheetBudget(held));
      ElemsConcat(held, a);
      InElems(held, sheets[j]);
      assert Elems(before) == firsts + Elems(sheets[..j]);
      assert before + [sheets[j]] <= Candidates(positions, keep, sheets, turnover);
      Priority(positions, keep, sheets, turnover, before, sheets[j]);
    }
  }

  lemma InElems(s: seq<Code>, c: Code)
    ensures c in s <==> c in Elems(s)
  {
  }

  /** A later sheet that turnover does not list has a place if and only if positions, kept codes, turnover and
      the sheets in front of it leave one. */
  lemma LateSheetPlace(positions: seq<Code>, keep: seq<Code>, sheets: seq<Code>, turnover: seq<Code>, j: nat)
    requires |sheets| == |Elems(sheets)| && j < |sheets|
    requires sheets[j] !in Firsts(positions, keep) && sheets[j] !in turnover
    requires |Firsts(positions, keep) + Elems(sheets[..j])| >= MAX_CODES - RESERVED_CODES
    ensures sheets[j] in Allocation(positions, keep, sheets, turnover) <==>
              |Firsts(positions, keep) + Elems(turnover) + Elems(sheets[..j])| < MAX_CODES
  {
    hide Dedup, Without, Elems, Allocation;
    var held, firsts, c := Held(positions, keep), Firsts(positions, keep), sheets[j];
    var all := firsts + Elems(turnover) + Elems(sheets[..j]);
    Within(firsts, all);
    ElemsConcat(positions, keep);
    if |firsts| >= MAX_CODES {
      FullHeld(positions, keep, sheets, turnover);
    } else {
      var a, b := SheetRank(positions, keep, sheets, j);
      var n, unheld := SheetBudget(held), Without(sheets, Elems(held));
      var early, late := a[..n], a[n..];
      assert a + [c] + b == early + (late + [c] + b) && Take(unheld, n) == early && Drop(unheld, n) == late + [c] + b;
      assert Primary(positions, keep, sheets) == held + early;
      var before := held + early + turnover + late;
      assert before + [c] <= Candidates(positions, keep, sheets, turnover);
      ElemsConcat(held + early + turnover, late);
      ElemsConcat(held + early, turnover);
      ElemsConcat(held, early);
      ElemsConcat(early, late);
      assert early + late == a;
      InElems(held, c);
      assert Elems(before) == firsts + Elems(turnover) + (Elems(early) + Elems(late));
      assert Elems(early) + Elems(late) == Elems(sheets[..j]) - firsts;
      assert Elems(before) == all;
      InElems(turnover, c);
      InElems(before, c);
      Priority(positions, keep, sheets, turnover, before, c);
    }
  }

  /** When positions and kept codes alone fill every place, nobody else has one. */
  lemma FullHeld(positions: seq<Code>, keep: seq<Code>, sheets: seq<Code>, turnover: seq<Code>)
    requires |Firsts(positions, keep)| >= MAX_CODES
    ensures Allocation(positions, keep, sheets, turnover) <= Firsts(positions, keep)
  {
    hide Dedup, Without, Elems, Candidates;
    var held := Held(positions, keep);
    HeldLeads(positions, keep, sheets, turnover);
    TakePrefix(held, Dedup(Candidates(positions, keep, sheets, turnover)), MAX_CODES);
    TakenSize(held, MAX_CODES);
  }

  /** The primary list is positions, kept codes and early sheets. */
  lemma PrimaryIs(positions: seq<Code>, keep: seq<Code>, sheets: seq<Code>)
    requires |sheets| == |Elems(sheets)|
    ensures Elems(Primary(positions, keep, sheets)) == Firsts(positions, keep) + EarlySheets(positions, keep, sheets)
    ensures |Primary(positions, keep, sheets)| < MAX_CODES <==> |Firsts(positions, keep)| < MAX_CODES
  {
    hide Dedup, Without, Elems;
    var held, firsts := Held(positions, keep), Firsts(positions, keep);
    var n, unheld := SheetBudget(held), Without(sheets, Elems(held));
    ElemsConcat(positions, keep);
    ElemsConcat(held, Take(unheld, n));
    forall j | 0 <= j < |sheets| && sheets[j] !in firsts
      ensures sheets[j] in Take(unheld, n) <==> |firsts + Elems(sheets[..j])| < MAX_CODES - RESERVED_CODES
    {
      var a, b := SheetRank(positions, keep, sheets, j);
      RankTaken(unheld, a, sheets[j], b, n);
    }
    forall c
      ensures c in Take(unheld, n) ==> c in Elems(sheets) && c !in firsts
      ensures c in Elems(sheets) <==> c in sheets
      ensures c in Elems(Take(unheld, n)) <==> c in Take(unheld, n)
    {
      InElems(sheets, c);
      InElems(unheld, c);
      InElems(Take(unheld, n), c);
    }
  }

  lemma RankTaken(s: seq<Code>, a: seq<Code>, c: Code, b: seq<Code>, n: nat)
    requires s == a + [c] + b && |s| == |Elems(s)|
    ensures c in Take(s, n) <==> |a| < n
  {
    NoRepeats(s);
    assert s[|a|] == c;
  }

  /** A turnover code that is neither held, kept nor an early sheet has a place, by its first mention, if and only
      if positions, kept codes, early sheets and the turnover codes in front of it leave one. */
  lemma TurnoverPlace(positions: seq<Code>, keep: seq<Code>, sheets: seq<Code>, turnover: seq<Code>, m: nat)
    requires |sheets| == |Elems(sheets)| && m < |turnover| && turnover[m] !in turnover[..m]
    requires turnover[m] !in Firsts(positions, keep) + EarlySheets(positions, keep, sheets)
    ensures turnover[m] in Allocation(positions, keep, sheets, turnover) <==>
              |Firsts(positions, keep) + EarlySheets(positions, keep, sheets) + Elems(turnover[..m])| < MAX_CODES
  {
    hide Dedup, Without, Elems, Allocation, EarlySheets, Primary, Firsts;
    var firsts, early := Firsts(positions, keep), EarlySheets(positions, keep, sheets);
    var primary := Primary(positions, keep, sheets);
    PrimaryIs(positions, keep, sheets);
    Within(firsts, firsts + early + Elems(turnover[..m]));
    if |firsts| >= MAX_CODES {
      FullHeld(positions, keep, sheets, turnover);
    } else {
      var before := primary + turnover[..m];
      ElemsConcat(primary, turnover[..m]);
      InElems(primary, turnover[m]);
      assert before + [turnover[m]] <= primary + turnover;
      assert before + [turnover[m]] <= Candidates(positions, keep, sheets, turnover);
      Priority(positions, keep, sheets, turnover, before, turnover[m]);
    }
  }

  /** A position has a place, by its first mention, if and only if the positions in front of it leave one; a kept
      code, if and only if the positions and the kept codes in front of it do. */
  lemma FirstsPlace(positions: seq<Code>, keep: seq<Code>, sheets: seq<Code>, turnover: seq<Code>, m: nat)
    requires m < |positions + keep| && (positions + keep)[m] !in (positions + keep)[..m]
    ensures (positions + keep)[m] in Allocation(positions, keep, sheets, turnover) <==>
              |Elems((positions + keep)[..m])| < MAX_CODES
  {
    hide Without, Elems, Allocation;
    var all := positions + keep;
    var front, c := all[..m], all[m];
    assert all == (front + [c]) + all[m + 1..];
    DedupPrefix(front + [c], all[m + 1..]);
    assert (front + [c])[..m] == front;
    InElems(front, c);
    InElems(Dedup(front), c);
    assert Dedup(front + [c]) == Dedup(front) + [c];
    hide Dedup;
    assert Dedup(front) + [c] <= Held(positions, keep) <= Candidates(positions, keep, sheets, turnover);
    Priority(positions, keep, sheets, turnover, Dedup(front), c);
  }

  lemma ReservedOthers(positions: seq<Code>, keep: seq<Code>, sheets: seq<Code>, turnover: seq<Code>)
    requires |sheets| == |Elems(sheets)|
    requires |Held(positions, keep)| + RESERVED_CODES <= MAX_CODES
    ensures var others := Elems(turnover) - Elems(Primary(positions, keep, sheets));
            var n := |Allocation(positions, keep, sheets, turnover) * others|;
            n >= RESERVED_CODES || n == |others|
  {
    hide Dedup, Without, Elems, Drop, Held;
    var primary := Primary(positions, keep, sheets);
    PrimaryFacts(positions, keep, sheets);
    var others := Elems(turnover) - Elems(primary);
    var front := primary + turnover;
    var all := Candidates(positions, keep, sheets, turnover);
    var held := Held(positions, keep);
    var late := Drop(Without(sheets, Elems(held)), SheetBudget(held));
    assert all == front + late;
    DedupPrefix(front, late);
    var d := Take(Dedup(front), MAX_CODES);
    var r := Allocation(positions, keep, sheets, turnover);
    assert d <= Take(Dedup(all), MAX_CODES);
    ElemsMono(d, Take(Dedup(all), MAX_CODES));
    ElemsConcat(primary, turnover);
    assert Elems(front) == Elems(primary) + others;
    UnionSize(Elems(primary), others);
    TakenSize(Dedup(front), MAX_CODES);
    assert Elems(d) <= Elems(primary) + Elems(d) * others;
    Within(Elems(d), Elems(primary) + Elems(d) * others);
    UnionSize(Elems(primary), Elems(d) * others);
    Within(Elems(d) * others, r * others);
    Within(r * others, others);
  }

  /** The reserved share: while positions and kept codes leave room for it, at least
      min(RESERVED_CODES, turnover codes nobody else asked for first) places go to turnover. */
  lemma ReservedShare(positions: seq<Code>, keep: seq<Code>, sheets: seq<Code>, turnover: seq<Code>)
    requires |sheets| == |Elems(sheets)|
    requires |Firsts(positions, keep)| + RESERVED_CODES <= MAX_CODES
    ensures var others := Elems(turnover) - Firsts(positions, keep) - EarlySheets(positions, keep, sheets);
            var n := |Allocation(positions, keep, sheets, turnover) * others|;
            n >= RESERVED_CODES || n == |others|
  {
    hide Held, Primary, Firsts, EarlySheets, Allocation, Elems;
    HeldSize(positions, keep);
    PrimaryIs(positions, keep, sheets);
    ReservedOthers(positions, keep, sheets, turnover);
    assert Elems(turnover) - Firsts(positions, keep) - EarlySheets(positions, keep, sheets) ==
           Elems(turnover) - Elems(Primary(positions, keep, sheets));
  }

  // ---------------------------------------------------------------- keeping the gateway subscribed

  predicate InStreamWindow(hhmm: nat) {
    STREAM_START <= hhmm < STREAM_END
  }

  /** How a request to the gateway went; a failed one may still have been carried out. */
  datatype Reply = Done | Failed(applied: bool) {
    predicate TookEffect() {
      Done? || applied
    }
  }

  /** The gateway's set only grows on subscribe and only shrinks on unsubscribe. */
  class Gateway {
    var subscribed: set<Code>

    constructor (codes: set<Code>)
      ensures subscribed == codes
    {
      subscribed := codes;
    }

    method Subscribe(codes: seq<Code>, reply: Reply)
      modifies this
      ensures subscribed == if reply.TookEffect() then old(subscribed) + Elems(codes) else old(subscribed)
    {
      if reply.TookEffect() {
        subscribed := subscribed + Elems(codes);
      }
    }

    /** Somebody else subscribes codes. */
    method OthersSubscribe(codes: set<Code>)
      modifies this
      ensures subscribed == old(subscribed) + codes
    {
      subscribed := subscribed + codes;
    }

    method Unsubscribe(codes: seq<Code>, reply: Reply)
      modifies this
      ensures subscribed == if reply.TookEffect() then old(subscribed) - Elems(codes) else old(subscribed)
    {
      if reply.TookEffect() {
        subscribed := subscribed - Elems(codes);
      }
    }
  }

  /** What the database answers. */
  datatype Rows = Rows(positions: seq<Code>, sheets: seq<Code>, turnover: seq<Code>)

  /** Codes to keep: the ones streamed now, inside the stream window. The gateway's status lists them in
      ascending order (streamer.py:451-458). */
  function Kept(streamed: set<Code>, statusKnown: bool, hhmm: nat): seq<Code> {
    if statusKnown && InStreamWindow(hhmm) then Ascending(streamed) else []
  }

  function Target(streamed: set<Code>, statusKnown: bool, hhmm: nat, rows: Rows): set<Code> {
    Allocation(rows.positions, Kept(streamed, statusKnown, hhmm), rows.sheets, rows.turnover)
  }

  function Overflow(streamed: set<Code>, target: set<Code>): int {
    |streamed| + |target - streamed| - MAX_CODES
  }

  /** Codes outside the target that have to go, just enough to respect the cap. */
  function Surplus(streamed: set<Code>, target: set<Code>): seq<Code> {
    var overflow := Overflow(streamed, target);
    if overflow > 0 then Take(Ascending(streamed - target), overflow) else []
  }

  /** Codes that others subscribe while a reconciliation waits: before its unsubscribe request is carried out,
      and after it. The sheet consumer does so for every sheet it queues (consumer.py:164-169), with no look at
      the cap. */
  datatype Others = Others(early: set<Code>, late: set<Code>)

  /** Nobody else subscribes. */
  const NOBODY: Others := Others({}, {})

  /** Whether the surplus is dropped. */
  predicate Drops(statusKnown: bool, target: set<Code>, unsubscribe: Reply) {
    target != {} && statusKnown && unsubscribe.TookEffect()
  }

  /** The subscribe request is sent and carried out. */
  predicate Subscribes(streamed: set<Code>, running: bool, statusKnown: bool, target: set<Code>, subscribe: Reply) {
    target != {} && !(statusKnown && running && target <= streamed) && subscribe.TookEffect()
  }

  /** What others leave behind: a code that came early may be dropped with the surplus. */
  function Staying(streamed: set<Code>, statusKnown: bool, target: set<Code>, unsubscribe: Reply, others: Others)
    : set<Code> {
    if Drops(statusKnown, target, unsubscribe) then others.early - Elems(Surplus(streamed, target)) + others.late
    else others.early + others.late
  }

  /** What the gateway streams after one reconciliation, if nobody else subscribes meanwhile. */
  function Settled(streamed: set<Code>, running: bool, statusKnown: bool, target: set<Code>,
                   unsubscribe: Reply, subscribe: Reply): set<Code> {
    if target == {} then streamed
    else
      var trimmed := if Drops(statusKnown, target, unsubscribe) then streamed - Elems(Surplus(streamed, target))
                     else streamed;
      if statusKnown && running && target <= streamed then trimmed
      else if subscribe.TookEffect() then trimmed + target
      else trimmed
  }

  /** The codes that the status lacks; and, when adding them would pass the cap, drop the surplus. The status
      says `streamed`, the gateway may stream more by now. */
  method MakeRoom(gateway: Gateway, streamed: set<Code>, codes: seq<Code>, unsubscribe: Reply)
    returns (missing: seq<Code>, dropped: seq<Code>)
    modifies gateway
    ensures var surplus := Surplus(streamed, Elems(codes));
            && gateway.subscribed == (if unsubscribe.TookEffect() then old(gateway.subscribed) - Elems(surplus)
                                      else old(gateway.subscribed))
            && dropped == (if unsubscribe.Done? then surplus else [])
    ensures missing == [] <==> Elems(codes) <= streamed
  {
    hide Ascending, Elems, Rising, Take, Reply.TookEffect;
    missing := Ascending(Elems(codes) - streamed);
    var overflow := |streamed| + |missing| - MAX_CODES;
    var stale := Ascending(streamed - Elems(codes));
    NoneMissing(Elems(codes), streamed);
    TrimmedUnlessEmpty(streamed, Elems(codes));
    ElemsOfNone();
    dropped := [];
    if overflow > 0 && stale != [] {
      dropped := Take(stale, overflow);
      gateway.Unsubscribe(dropped, unsubscribe);
      if unsubscribe.Failed? {
        dropped := [];
      }
    }
  }

  lemma SettledCases(streamed: set<Code>, running: bool, statusKnown: bool, target: set<Code>,
                     unsubscribe: Reply, subscribe: Reply)
    ensures var surplus := if Drops(statusKnown, target, unsubscribe) then Elems(Surplus(streamed, target)) else {};
            Settled(streamed, running, statusKnown, target, unsubscribe, subscribe) ==
            streamed - surplus + if Subscribes(streamed, running, statusKnown, target, subscribe) then target else {}
  {
    hide Elems, Surplus;
    assert streamed - {} == streamed;
    assert forall s: set<Code> :: s + {} == s;
  }

  /** The steps of a reconciliation in their order come to the same as if others had subscribed at the end. */
  lemma InTurn(streamed: set<Code>, running: bool, statusKnown: bool, target: set<Code>,
               unsubscribe: Reply, subscribe: Reply, others: Others)
    ensures var surplus := if Drops(statusKnown, target, unsubscribe) then Elems(Surplus(streamed, target)) else {};
            var added := if Subscribes(streamed, running, statusKnown, target, subscribe) then target else {};
            (streamed + others.early) - surplus + others.late + added ==
            Settled(streamed, running, statusKnown, target, unsubscribe, subscribe)
            + Staying(streamed, statusKnown, target, unsubscribe, others)
  {
    hide Elems, Surplus;
    SettledCases(streamed, running, statusKnown, target, unsubscribe, subscribe);
    hide Settled, Subscribes;
  }

  /** One reconciliation, while others subscribe codes. */
  method EnsureSubscribed(gateway: Gateway, rows: Rows, running: bool, statusKnown: bool, hhmm: nat,
                          unsubscribe: Reply, subscribe: Reply, others: Others)
    returns (codes: seq<Code>, dropped: seq<Code>, noop: bool)
    modifies gateway
    ensures var target := Target(old(gateway.subscribed), statusKnown, hhmm, rows);
            && codes == Ascending(target)
            && gateway.subscribed ==
               Settled(old(gateway.subscribed), running, statusKnown, target, unsubscribe, subscribe)
               + Staying(old(gateway.subscribed), statusKnown, target, unsubscribe, others)
            && noop == (statusKnown && running && target != {} && target <= old(gateway.subscribed))
            && dropped == (if target != {} && statusKnown && unsubscribe.Done?
                           then Surplus(old(gateway.subscribed), target) else [])
  {
    hide *;
    TargetCases(gateway.subscribed, statusKnown, hhmm, rows);
    var keep: seq<Code> := [];
    if statusKnown && InStreamWindow(hhmm) {
      keep := Ascending(gateway.subscribed);
    }
    codes := LoadSubscriptionCodes(rows.positions, keep, rows.sheets, rows.turnover);
    dropped, noop := Reconcile(gateway, codes, running, statusKnown, unsubscribe, subscribe, others);
  }

  /** The requests for the codes that are wanted. */
  method Reconcile(gateway: Gateway, codes: seq<Code>, running: bool, statusKnown: bool,
                   unsubscribe: Reply, subscribe: Reply, others: Others)
    returns (dropped: seq<Code>, noop: bool)
    requires codes == [] <==> Elems(codes) == {}
    modifies gateway
    ensures var target := Elems(codes);
            && gateway.subscribed ==
               Settled(old(gateway.subscribed), running, statusKnown, target, unsubscribe, subscribe)
               + Staying(old(gateway.subscribed), statusKnown, target, unsubscribe, others)
            && noop == (statusKnown && running && target != {} && target <= old(gateway.subscribed))
            && dropped == (if target != {} && statusKnown && unsubscribe.Done?
                           then Surplus(old(gateway.subscribed), target) else [])
  {
    hide *;
    var streamed := gateway.subscribed;
    StepCases(streamed, running, statusKnown, Elems(codes), unsubscribe, subscribe);
    InTurn(streamed, running, statusKnown, Elems(codes), unsubscribe, subscribe, others);
    dropped, noop := [], false;
    gateway.OthersSubscribe(others.early);
    if codes != [] && statusKnown {
      var missing: seq<Code>;
      missing, dropped := MakeRoom(gateway, streamed, codes, unsubscribe);
      noop := running && missing == [];
    }
    ghost var drops := Drops(statusKnown, Elems(codes), unsubscribe);
    ghost var surplus := if drops then Elems(Surplus(streamed, Elems(codes))) else {};
    assert gateway.subscribed == (streamed + others.early) - surplus;
    gateway.OthersSubscribe(others.late);
    if codes != [] && !noop {
      gateway.Subscribe(codes, subscribe);
    }
  }

  lemma TargetCases(streamed: set<Code>, statusKnown: bool, hhmm: nat, rows: Rows)
    ensures var keep := if statusKnown && InStreamWindow(hhmm) then Ascending(streamed) else [];
            Target(streamed, statusKnown, hhmm, rows) == Allocation(rows.positions, keep, rows.sheets, rows.turnover)
    ensures var target := Target(streamed, statusKnown, hhmm, rows);
            Elems(Ascending(target)) == target && (Ascending(target) == [] <==> target == {})
  {
    hide Allocation;
  }

  lemma StepCases(streamed: set<Code>, running: bool, statusKnown: bool, target: set<Code>,
                  unsubscribe: Reply, subscribe: Reply)
    ensures Drops(statusKnown, target, unsubscribe) <==> target != {} && statusKnown && unsubscribe.TookEffect()
    ensures Subscribes(streamed, running, statusKnown, target, subscribe) <==>
              target != {} && !(statusKnown && running && target <= streamed) && subscribe.TookEffect()
  {
  }

  /** The surplus are the lowest of the streamed codes that nobody wants. */
  lemma SurplusMeaning(streamed: set<Code>, target: set<Code>, c: Code, d: Code)
    requires c in Surplus(streamed, target) && d in streamed - target && d !in Surplus(streamed, target)
    ensures c in streamed - target && c < d
  {
    hide Ascending;
    var stale := Ascending(streamed - target);
    assert d in Elems(stale);
    assert c in stale && c in Elems(stale);
  }

  /** The stream window is ten to nine in the morning to twenty-five to four in the afternoon. */
  lemma WindowMeaning(hour: nat, minute: nat)
    requires hour < 24 && minute < 60
    ensures InStreamWindow(100 * hour + minute) <==> 8 * 60 + 50 <= 60 * hour + minute < 15 * 60 + 35
  {
  }

  /** The cap is restored whatever the gateway streamed before: after successful calls it streams every
      wanted code, and exactly min(MAX_CODES, old and wanted codes together) codes. */
  lemma CapRestored(streamed: set<Code>, running: bool, target: set<Code>)
    requires target != {} && |target| <= MAX_CODES
    ensures var after := Settled(streamed, running, true, target, Done, Done);
            && target <= after <= streamed + target
            && |after| == (if |streamed + target| <= MAX_CODES then |streamed + target| else MAX_CODES)
  {
    hide Dedup, Without, Allocation, Ascending, Elems, Rising, Take;
    var stale := Ascending(streamed - target);
    var overflow := Overflow(streamed, target);
    var surplus := Surplus(streamed, target);
    assert streamed + target == streamed + (target - streamed) == (streamed - target) + target;
    UnionSize(streamed, target - streamed);
    UnionSize(streamed - target, target);
    if overflow > 0 {
      TakenSize(stale, overflow);
    } else {
      ElemsOfNone();
    }
    var trimmed := streamed - Elems(surplus);
    assert streamed + target == (trimmed + target) + Elems(surplus);
    UnionSize(trimmed + target, Elems(surplus));
    if target <= streamed {
      assert trimmed + target == trimmed;
    }
  }

  lemma TrimmedUnlessEmpty(streamed: set<Code>, target: set<Code>)
    ensures Overflow(streamed, target) <= 0 || Ascending(streamed - target) == [] ==>
              Surplus(streamed, target) == [] && streamed - Elems(Surplus(streamed, target)) == streamed
  {
    hide Ascending;
  }

  lemma NoneMissing(a: set<Code>, b: set<Code>)
    ensures |a - b| == 0 <==> a <= b
  {
    if |a - b| == 0 {
      assert a - b == {};
      assert forall c :: c in a ==> c in b || c in a - b;
    }
  }

  /** A failed status call hides what is streamed, so nothing is dropped: the cap then survives exactly
      when the old and the wanted codes fit together. */
  lemma BlindSubscribe(streamed: set<Code>, running: bool, target: set<Code>, unsubscribe: Reply)
    requires target != {}
    ensures var after := Settled(streamed, running, false, target, unsubscribe, Done);
            && after == streamed + target
            && (|after| <= MAX_CODES <==> |target - streamed| <= MAX_CODES - |streamed|)
  {
    assert streamed + target == streamed + (target - streamed);
    UnionSize(streamed, target - streamed);
  }

  /** So the cap is not always kept: a full gateway, one new position and a failed status call. */
  lemma BlindSubscribeExceeds(streamed: set<Code>, running: bool, hhmm: nat, position: Code, unsubscribe: Reply)
    requires |streamed| == MAX_CODES && position !in streamed
    ensures var target := Target(streamed, false, hhmm, Rows([position], [], []));
            |Settled(streamed, running, false, target, unsubscribe, Done)| == MAX_CODES + 1
  {
    LoneTarget(streamed, false, hhmm, position);
    hide Target, Settled;
    BlindSubscribe(streamed, running, {position}, unsubscribe);
    UnionSize(streamed, {position});
  }

  /** With nothing kept, one position and nothing else: that is the target. */
  lemma LoneTarget(streamed: set<Code>, statusKnown: bool, hhmm: nat, position: Code)
    requires !(statusKnown && InStreamWindow(hhmm))
    ensures Target(streamed, statusKnown, hhmm, Rows([position], [], [])) == {position}
  {
    hide Allocation, Ascending;
    AllocationSize([position], [], [], []);
    assert Wanted([position], [], [], []) == {position};
  }

  function Clamp(x: int, high: nat): nat {
    if x < 0 then 0 else if x > high then high else x
  }

  /** How many codes a reconciliation drops, and how many of the target it adds. */
  function DroppedCount(streamed: set<Code>, statusKnown: bool, target: set<Code>, unsubscribe: Reply): nat {
    if Drops(statusKnown, target, unsubscribe) then Clamp(Overflow(streamed, target), |streamed - target|) else 0
  }

  function AddedCount(streamed: set<Code>, running: bool, statusKnown: bool, target: set<Code>, subscribe: Reply): nat {
    if Subscribes(streamed, running, statusKnown, target, subscribe) then |target - streamed| else 0
  }

  lemma SurplusSize(streamed: set<Code>, target: set<Code>)
    ensures Elems(Surplus(streamed, target)) <= streamed - target
    ensures |Elems(Surplus(streamed, target))| == Clamp(Overflow(streamed, target), |streamed - target|)
  {
    hide Dedup, Without, Allocation, Ascending, Elems, Rising, Take;
    var overflow := Overflow(streamed, target);
    if overflow > 0 {
      TakenSize(Ascending(streamed - target), overflow);
    } else {
      ElemsOfNone();
    }
  }

  /** How many codes the gateway streams in the end, counted from the inputs. */
  lemma SettledSize(streamed: set<Code>, running: bool, statusKnown: bool, target: set<Code>,
                    unsubscribe: Reply, subscribe: Reply)
    ensures |Settled(streamed, running, statusKnown, target, unsubscribe, subscribe)| ==
              |streamed| - DroppedCount(streamed, statusKnown, target, unsubscribe)
              + AddedCount(streamed, running, statusKnown, target, subscribe)
  {
    hide Elems, Surplus, Settled, Overflow, Clamp;
    SettledCases(streamed, running, statusKnown, target, unsubscribe, subscribe);
    SurplusSize(streamed, target);
    Sizes(streamed, {}, target);
    Sizes(streamed, Elems(Surplus(streamed, target)), target);
    assert forall s: set<Code> :: s + {} == s;
  }

  lemma Sizes(streamed: set<Code>, surplus: set<Code>, target: set<Code>)
    requires surplus <= streamed - target
    ensures |streamed - surplus| == |streamed| - |surplus|
    ensures |streamed - surplus + target| == |streamed| - |surplus| + |target - streamed|
  {
    assert streamed == (streamed - surplus) + surplus;
    UnionSize(streamed - surplus, surplus);
    assert (streamed - surplus) + target == (streamed - surplus) + (target - streamed);
    UnionSize(streamed - surplus, target - streamed);
  }

  /** Exactly when the cap holds after a reconciliation, over every status, streamer state and pair of
      answers, and whatever others subscribe meanwhile: the codes streamed at first, less the dropped ones,
      plus the added ones, plus the codes that others add to them, fit. */
  lemma CapHoldsIff(streamed: set<Code>, running: bool, statusKnown: bool, target: set<Code>,
                    unsubscribe: Reply, subscribe: Reply, others: Others)
    ensures var mine := Settled(streamed, running, statusKnown, target, unsubscribe, subscribe);
            var stay := Staying(streamed, statusKnown, target, unsubscribe, others);
            |mine + stay| <= MAX_CODES <==>
              |streamed| - DroppedCount(streamed, statusKnown, target, unsubscribe)
              + AddedCount(streamed, running, statusKnown, target, subscribe) + |stay - mine| <= MAX_CODES
  {
    SettledSize(streamed, running, statusKnown, target, unsubscribe, subscribe);
    hide Settled, Staying, DroppedCount, AddedCount;
    var mine := Settled(streamed, running, statusKnown, target, unsubscribe, subscribe);
    var stay := Staying(streamed, statusKnown, target, unsubscribe, others);
    assert mine + stay == mine + (stay - mine);
    UnionSize(mine, stay - mine);
  }

  /** If nobody else subscribes that is so exactly when the surplus was dropped, which takes a known status
      and an unsubscribe request that was carried out, or what was streamed, with the target if that was
      subscribed, fits anyway. */
  lemma CapHoldsAlone(streamed: set<Code>, running: bool, statusKnown: bool, target: set<Code>,
                      unsubscribe: Reply, subscribe: Reply)
    requires |target| <= MAX_CODES
    ensures |Settled(streamed, running, statusKnown, target, unsubscribe, subscribe)| <= MAX_CODES <==>
              || Drops(statusKnown, target, unsubscribe)
              || |streamed + if Subscribes(streamed, running, statusKnown, target, subscribe) then target else {}|
                 <= MAX_CODES
  {
    hide Settled, Subscribes;
    SettledSize(streamed, running, statusKnown, target, unsubscribe, subscribe);
    assert streamed + {} == streamed && streamed - {} == streamed;
    assert streamed + target == (streamed - target) + target;
    UnionSize(streamed - target, target);
    Sizes(streamed, {}, target);
  }

  /** A full gateway, a target inside of it, a streamer that runs and a status that is known: nothing is to be
      done. A code that the sheet consumer subscribes before the reconciliation ends is one too many. */
  lemma NewSheetExceeds(streamed: set<Code>, target: set<Code>, unsubscribe: Reply, subscribe: Reply, code: Code)
    requires |streamed| == MAX_CODES && {} != target <= streamed && code !in streamed
    ensures |Settled(streamed, true, true, target, unsubscribe, subscribe)| == MAX_CODES
    ensures forall others :: others == Others({code}, {}) || others == Others({}, {code}) ==>
              |Settled(streamed, true, true, target, unsubscribe, subscribe)
               + Staying(streamed, true, target, unsubscribe, others)| == MAX_CODES + 1
  {
    hide Ascending, Elems, Take, Surplus, Settled;
    SettledCases(streamed, true, true, target, unsubscribe, subscribe);
    assert target - streamed == {};
    TrimmedUnlessEmpty(streamed, target);
    ElemsOfNone();
    assert Settled(streamed, true, true, target, unsubscribe, subscribe) == streamed;
    UnionSize(streamed, {code});
    forall others | others == Others({code}, {}) || others == Others({}, {code})
      ensures Staying(streamed, true, target, unsubscribe, others) == {code}
    {
    }
  }

  /** Such a target is asked for: inside the stream window, while every position is streamed already. */
  lemma NewSheetHappens(streamed: set<Code>, hhmm: nat, rows: Rows)
    requires |streamed| == MAX_CODES && InStreamWindow(hhmm) && Elems(rows.positions) <= streamed
    ensures Target(streamed, true, hhmm, rows) == streamed != {}
  {
    hide Dedup, Without, Ascending, Elems, Rising, Take;
    var keep := Kept(streamed, true, hhmm);
    ElemsConcat(rows.positions, keep);
    assert Elems(rows.positions) + Elems(keep) == streamed;
    HeldFirst(rows.positions, keep, rows.sheets, rows.turnover);
    Within(streamed, Target(streamed, true, hhmm, rows));
    Equal(streamed, Target(streamed, true, hhmm, rows));
  }

  /** The next undisturbed call with successful requests restores the cap, whatever was streamed until then, if
      and only if there is anything to ask for or the cap was kept all along. */
  lemma NextCallRestores(streamed: set<Code>, running: bool, hhmm: nat, rows: Rows)
    ensures var target := Target(streamed, true, hhmm, rows);
            |Settled(streamed, running, true, target, Done, Done)| <= MAX_CODES <==>
              target != {} || |streamed| <= MAX_CODES
  {
    hide Allocation, Elems, Surplus;
    var target := Target(streamed, true, hhmm, rows);
    if target != {} {
      CapRestored(streamed, running, target);
    }
  }

  /** A refused unsubscribe breaks the cap too, with a known status: a full gateway and a target outside of
      it end up with both. */
  lemma RefusedUnsubscribeExceeds(streamed: set<Code>, running: bool, target: set<Code>)
    requires |streamed| == MAX_CODES && target != {} && streamed !! target
    ensures |Settled(streamed, running, true, target, Failed(false), Done)| == MAX_CODES + |target|
  {
    UnionSize(streamed, target);
    SettledCases(streamed, running, true, target, Failed(false), Done);
    var c :| c in target;
    assert c !in streamed;
    hide Settled;
  }

  /** Such a target is asked for: outside the stream window, a new position and nothing else. */
  lemma RefusedUnsubscribeHappens(streamed: set<Code>, running: bool, hhmm: nat, position: Code)
    requires |streamed| == MAX_CODES && position !in streamed && !InStreamWindow(hhmm)
    ensures var target := Target(streamed, true, hhmm, Rows([position], [], []));
            && target == {position}
            && |Settled(streamed, running, true, target, Failed(false), Done)| == MAX_CODES + 1
  {
    LoneTarget(streamed, true, hhmm, position);
    hide Target, Settled;
    RefusedUnsubscribeExceeds(streamed, running, {position});
  }

  /** Inside the stream window no streamed code is lost while positions and streamed codes fit together,
      whatever the gateway answers. */
  lemma SessionKeepsStreams(streamed: set<Code>, running: bool, hhmm: nat, rows: Rows, unsubscribe: Reply,
                            subscribe: Reply)
    requires InStreamWindow(hhmm) && |Elems(rows.positions) + streamed| <= MAX_CODES
    ensures var target := Target(streamed, true, hhmm, rows);
            streamed <= target && streamed <= Settled(streamed, running, true, target, unsubscribe, subscribe)
  {
    hide Dedup, Without, Allocation, Ascending, Elems, Rising, Take;
    var keep := Kept(streamed, true, hhmm);
    ElemsConcat(rows.positions, keep);
    HeldFirst(rows.positions, keep, rows.sheets, rows.turnover);
    var target := Target(streamed, true, hhmm, rows);
    assert Ascending(streamed - target) == [] by {
      assert streamed - target == {};
    }
    TrimmedUnlessEmpty(streamed, target);
  }

  /** After a successful call, every code that a second call on the same rows would ask for in the same
      window is streamed already. */
  lemma TargetSettled(streamed: set<Code>, running: bool, hhmm: nat, later: nat, rows: Rows)
    requires InStreamWindow(hhmm) == InStreamWindow(later)
    requires |rows.sheets| == |Elems(rows.sheets)|
    requires Target(streamed, true, hhmm, rows) != {}
    ensures var target := Target(streamed, true, hhmm, rows);
            var after := Settled(streamed, running, true, target, Done, Done);
            Target(after, true, later, rows) <= after
  {
    hide Dedup, Without, Allocation, Ascending, Elems, Rising, Take, Settled, InStreamWindow;
    var target := Target(streamed, true, hhmm, rows);
    var after := Settled(streamed, running, true, target, Done, Done);
    CapRestored(streamed, running, target);
    if InStreamWindow(hhmm) {
      var keep := Kept(streamed, true, hhmm);
      var keep' := Kept(after, true, later);
      var next := Target(after, true, later, rows);
      HeldFirst(rows.positions, keep, rows.sheets, rows.turnover);
      HeldFirst(rows.positions, keep', rows.sheets, rows.turnover);
      if |Dedup(rows.positions)| < MAX_CODES {
        AllocationSize(rows.positions, keep, rows.sheets, rows.turnover);
        AllocationSize(rows.positions, keep', rows.sheets, rows.turnover);
        assert Elems(rows.positions) <= after;
        ElemsConcat(rows.positions, keep');
        assert Elems(rows.positions) + after == after;
        assert after <= next;
        if |after| == MAX_CODES {
          Within(after, next);
          Equal(after, next);
        } else {
          Within(target, after);
          assert target == Wanted(rows.positions, keep, rows.sheets, rows.turnover);
          assert next <= Wanted(rows.positions, keep', rows.sheets, rows.turnover) <= after;
        }
      }
    }
  }

  /** Reconciliation converges in one step: a second call on the same rows, in the same window and with
      the streamer running, changes nothing, whatever its requests would have done. */
  lemma SecondCallIsNoop(streamed: set<Code>, running: bool, hhmm: nat, later: nat, rows: Rows,
                         unsubscribe: Reply, subscribe: Reply)
    requires InStreamWindow(hhmm) == InStreamWindow(later)
    requires |rows.sheets| == |Elems(rows.sheets)|
    requires Target(streamed, true, hhmm, rows) != {}
    ensures var after := Settled(streamed, running, true, Target(streamed, true, hhmm, rows), Done, Done);
            var next := Target(after, true, later, rows);
            Surplus(after, next) == [] && Settled(after, true, true, next, unsubscribe, subscribe) == after
  {
    hide Dedup, Without, Allocation, Ascending, Elems, Rising, Take, InStreamWindow;
    var target := Target(streamed, true, hhmm, rows);
    var after := Settled(streamed, running, true, target, Done, Done);
    var next := Target(after, true, later, rows);
    TargetSettled(streamed, running, hhmm, later, rows);
    CapRestored(streamed, running, target);
    assert next - after == {};
    TrimmedUnlessEmpty(after, next);
  }
}
