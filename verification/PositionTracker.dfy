/** The store of open positions: in-memory states, a ticker index, and a Redis backup. */
module PositionTracker {
  import opened Wrappers
  import opened ExitModel
  import opened ExitEvaluator
  import opened PendingEntry
  import ExitProperties

  // ---------------------------------------------------------------- backup record

  /** The serialised record: like a position, but the consumed levels are an ascending list. */
  datatype Encoded = Encoded(fields: Position, scaleOutExecuted: seq<nat>)

  /** The elements of s below k, ascending. */
  ghost function Ascending(s: set<nat>, k: nat): (r: seq<nat>)
    ensures forall x: nat :: x in r <==> x in s && x < k
    ensures forall i, j :: 0 <= i < j < |r| ==> r[i] < r[j]
  {
    if k == 0 then []
    else
      var r := Ascending(s, k - 1);
      if k - 1 in s then
        Appended(r, k - 1);
        r + [k - 1]
      else r
  }

  lemma Appended(r: seq<nat>, x: nat)
    requires forall y :: y in r ==> y < x
    requires forall i, j :: 0 <= i < j < |r| ==> r[i] < r[j]
    ensures forall y :: y in r + [x] <==> y in r || y == x
    ensures forall i, j :: 0 <= i < j < |r + [x]| ==> (r + [x])[i] < (r + [x])[j]
  {
    assert forall i :: 0 <= i < |r| ==> r[i] in r;
  }

  ghost function UpperBound(s: set<nat>): (b: nat)
    ensures forall x :: x in s ==> x < b
  {
    if s == {} then 0
    else
      var x :| x in s;
      var rest := UpperBound(s - {x});
      assert forall y :: y in s ==> y == x || y in s - {x};
      if x < rest then rest else x + 1
  }

  ghost function Sorted(s: set<nat>): (r: seq<nat>)
    ensures forall x: nat :: x in r <==> x in s
    ensures forall i, j :: 0 <= i < j < |r| ==> r[i] < r[j]
  {
    Ascending(s, UpperBound(s))
  }

  ghost function Encode(s: Position): Encoded {
    Encoded(s.(scaleOutExecuted := {}), Sorted(s.scaleOutExecuted))
  }

  ghost function Decode(e: Encoded): Position {
    e.fields.(scaleOutExecuted := set x | x in e.scaleOutExecuted)
  }

  /** What is written back after a restart is what was saved. */
  lemma DecodeEncode(s: Position)
    ensures Decode(Encode(s)) == s
  {
    assert (set x | x in Sorted(s.scaleOutExecuted)) == s.scaleOutExecuted;
  }

  /** A backup made of the state reached brings back the same decisions. When a backup is made of it, and what
      happens otherwise, is the subject of the module Restart. */
  lemma RestartIsTransparent(rules: seq<ExitRule>, s: Position, a: seq<Observation>, b: seq<Observation>)
    requires s.Valid()
    ensures Decode(Encode(Run(rules, s, a).0)).Valid()
    ensures Run(rules, s, a + b).1 == Run(rules, s, a).1 + Run(rules, Decode(Encode(Run(rules, s, a).0)), b).1
  {
    DecodeEncode(Run(rules, s, a).0);
    ExitProperties.RunAppend(rules, s, a, b);
  }

  // ---------------------------------------------------------------- tracker

  class Tracker {
    var states: map<string, PositionState>
    var byTicker: map<string, set<string>>
    ghost var redis: map<string, Encoded>

    ghost function View(): Index
      reads this
    {
      Index(map id | id in states :: states[id].ticker, byTicker)
    }

    /** The ticker index is the exact inverse of the states' tickers, without empty entries. */
    ghost predicate Valid()
      reads this
    {
      && (forall id :: id in states ==> states[id].sheetId == id)
      && View().Exact()
    }

    constructor ()
      ensures Valid() && states == map[] && redis == map[]
    {
      states, byTicker, redis := map[], map[], map[];
    }

    /** Sheets held for a ticker. */
    function SheetIdsFor(ticker: string): (ids: set<string>)
      reads this
      ensures Valid() ==> forall id :: id in ids <==> id in states && states[id].ticker == ticker
    {
      assert Valid() ==> forall id :: id in View().IdsFor(ticker) <==> id in states && states[id].ticker == ticker by {
        if Valid() {
          HasMeaning(View(), ticker);
        }
      }
      if ticker in byTicker then byTicker[ticker] else {}
    }

    /** Called after an entry fill. The index stays exact unless the same sheet id was already
        tracked under another ticker. */
    method Register(state: PositionState)
      requires Valid()
      modifies this
      ensures states == old(states)[state.sheetId := state]
      ensures redis == old(redis)[state.sheetId := Encode(state.View())]
      ensures Valid() <==> (state.sheetId in old(states) ==> old(states)[state.sheetId].ticker == state.ticker)
    {
      hide Encode, Index.Exact;
      ghost var before, keeps := View(), state.sheetId in states ==> states[state.sheetId].ticker == state.ticker;
      AddExactIff(before, state.sheetId, state.ticker);
      Track(state);
      redis := redis[state.sheetId := Encode(state.View())];
      assert View().Exact() <==> keeps;
    }

    /** In memory. */
    method Track(state: PositionState)
      requires Valid()
      modifies this`states, this`byTicker
      ensures states == old(states)[state.sheetId := state]
      ensures View() == old(View()).Add(state.sheetId, state.ticker)
    {
      hide Index.Exact;
      states := states[state.sheetId := state];
      var ids := if state.ticker in byTicker then byTicker[state.ticker] else {};
      byTicker := byTicker[state.ticker := ids + {state.sheetId}];
      assert View().tickers == old(View()).tickers[state.sheetId := state.ticker];
    }

    /** Write a changed state back to the backup. */
    method Persist(sheetId: string)
      requires Valid()
      modifies this`redis
      ensures redis == if sheetId in states then old(redis)[sheetId := Encode(states[sheetId].View())] else old(redis)
    {
      if sheetId in states {
        redis := redis[sheetId := Encode(states[sheetId].View())];
      }
    }

    /** Stop tracking. */
    method Close(sheetId: string)
      requires Valid()
      modifies this
      ensures Valid()
      ensures states == old(states) - {sheetId}
      ensures sheetId in old(states) ==> redis == old(redis) - {sheetId}
      ensures sheetId !in old(states) ==> redis == old(redis)
    {
      hide Index.Exact;
      RemoveExact(View(), sheetId);
      if sheetId in states {
        var ticker := states[sheetId].ticker;
        RemoveTracked(View(), sheetId);
        states := states - {sheetId};
        var ids := byTicker[ticker] - {sheetId};
        if ids == {} {
          byTicker := byTicker - {ticker};
        } else {
          byTicker := byTicker[ticker := ids];
        }
        redis := redis - {sheetId};
        assert View().tickers == old(View()).tickers - {sheetId};
      } else {
        assert states - {sheetId} == states;
      }
    }
  }
}
