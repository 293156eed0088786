/** Restarts in the middle of live exit runs: memory is lost and rebuilt from the backup record. */
module Restart {
  import opened Wrappers
  import opened ExitModel
  import opened ExitProperties
  import opened ExitExecutor
  import opened ExitRun
  import opened Orders

  // ---------------------------------------------------------------- what the backup holds

  /** The step ended in a way that skips saving. */
  predicate Unsaved(x: ExitOutcome) {
    x.BlockedStop? || x.DryRun? || x.Raised?
  }

  /** After every event that leaves the sheet tracked the backup equals memory, unless the sell was
      blocked, simulated or raised, which leaves the backup as it was; after it leaves, no backup is left. */
  lemma BackupFresh(rules: seq<ExitRule>, l: Live, e: Event, maxExitFailures: int)
    requires l.pos.Valid() && l.tracked
    ensures var (l', d, x) := LiveTick(rules, l, e, maxExitFailures);
            && (l'.tracked && !Unsaved(x) ==> l'.saved == Some(l'.pos))
            && (l'.tracked && Unsaved(x) ==> l'.saved == l.saved)
            && (!l'.tracked ==> l'.saved == None)
  {
    hide Evaluate;
    RaiseKeepsStop(rules, l.pos, e);
  }

  /** Number of events up to and including the last one that saved. */
  function LastSaved(outcomes: seq<ExitOutcome>): (m: nat)
    ensures m <= |outcomes|
  {
    if outcomes == [] then 0
    else if Unsaved(outcomes[|outcomes| - 1]) then LastSaved(outcomes[..|outcomes| - 1])
    else |outcomes|
  }

  /** Memory rebuilt from the backup. */
  function Restarted(l: Live): Live
    requires l.saved.Some?
  {
    Live(l.saved.value, true, l.saved)
  }

  lemma TickTracked(rules: seq<ExitRule>, l: Live, e: Event, maxExitFailures: int)
    requires l.pos.Valid() && LiveTick(rules, l, e, maxExitFailures).0.tracked
    ensures l.tracked
  {
    hide Evaluate;
  }

  /** A restart rewinds: it leaves exactly the state after the last event that saved, as if the blocked,
      simulated and raised sales since then had never been decided. */
  lemma {:induction false} RestartRewinds(rules: seq<ExitRule>, l: Live, events: seq<Event>, maxExitFailures: int)
    requires l.pos.Valid() && l.tracked && l.saved == Some(l.pos)
    requires LiveRun(rules, l, events, maxExitFailures).0.tracked
    ensures var (l', _, outcomes) := LiveRun(rules, l, events, maxExitFailures);
            l'.saved.Some? && Restarted(l') == LiveRun(rules, l, events[..LastSaved(outcomes)], maxExitFailures).0
    decreases |events|
  {
    hide LiveTick;
    if events != [] {
      var k := |events| - 1;
      var (before, _, outcomes) := LiveRun(rules, l, events[..k], maxExitFailures);
      TickTracked(rules, before, events[k], maxExitFailures);
      BackupFresh(rules, before, events[k], maxExitFailures);
      RestartRewinds(rules, l, events[..k], maxExitFailures);
      assert LiveRun(rules, l, events, maxExitFailures).2[..k] == outcomes;
      assert events[..k][..LastSaved(outcomes)] == events[..LastSaved(outcomes)];
      assert events[..|events|] == events;
    }
  }

  // ---------------------------------------------------------------- what a restart changes

  /** Everything decided after a restart, and all that comes of it, is what a run would do in which the
      events since the last saved one never happened. */
  lemma RestartResumes(rules: seq<ExitRule>, l: Live, events: seq<Event>, more: seq<Event>, maxExitFailures: int)
    requires l.pos.Valid() && l.tracked && l.saved == Some(l.pos)
    requires LiveRun(rules, l, events, maxExitFailures).0.tracked
    ensures var (l', _, outcomes) := LiveRun(rules, l, events, maxExitFailures);
            var m := LastSaved(outcomes);
            && l'.saved.Some? && l'.saved.value.Valid()
            && var (resumed, ds, xs) := LiveRun(rules, Restarted(l'), more, maxExitFailures);
               var (replayed, ds', xs') := LiveRun(rules, l, events[..m] + more, maxExitFailures);
               resumed == replayed && ds == ds'[m..] && xs == xs'[m..]
  {
    hide LiveTick;
    RestartRewinds(rules, l, events, maxExitFailures);
    var m := LastSaved(LiveRun(rules, l, events, maxExitFailures).2);
    LiveRunAppend(rules, l, events[..m], more, maxExitFailures);
  }

  /** So a restart changes nothing when the last event saved; and it leaves memory as it was if and only if
      the events since the last saved one left the position as it was. */
  lemma RestartTransparent(rules: seq<ExitRule>, l: Live, events: seq<Event>, more: seq<Event>, maxExitFailures: int)
    requires l.pos.Valid() && l.tracked && l.saved == Some(l.pos)
    requires LiveRun(rules, l, events, maxExitFailures).0.tracked
    ensures var (l', ds, outcomes) := LiveRun(rules, l, events, maxExitFailures);
            var n := |events|;
            && l'.saved.Some? && l'.saved.value.Valid()
            && (Restarted(l') == l' <==>
               LiveRun(rules, l, events[..LastSaved(outcomes)], maxExitFailures).0.pos == l'.pos)
            && (events == [] || !Unsaved(outcomes[n - 1]) ==> Restarted(l') == l')
            && (Restarted(l') == l' ==>
                  var (resumed, ds1, xs1) := LiveRun(rules, Restarted(l'), more, maxExitFailures);
                  var (straight, ds2, xs2) := LiveRun(rules, l, events + more, maxExitFailures);
                  resumed == straight && ds1 == ds2[n..] && xs1 == xs2[n..])
  {
    hide LiveTick;
    RestartRewinds(rules, l, events, maxExitFailures);
    LiveRunAppend(rules, l, events, more, maxExitFailures);
    assert events[..|events|] == events;
  }

  lemma SeqOverlap(k: nat, j: nat, a: seq<nat>, b: seq<nat>)
    requires j <= k && a == seq(k, i => 0 + i) && b == seq(|b|, i => j + i)
    ensures (exists x :: x in a && x in b) <==> j < k && b != []
  {
    if j < k && b != [] {
      assert a[j] == j && b[0] == j;
      assert j in a && j in b;
    }
    forall x | x in a && x in b
      ensures j < k && b != []
    {
      var p :| 0 <= p < |a| && a[p] == x;
      var q :| 0 <= q < |b| && b[q] == x;
    }
  }

  /** Levels before and after a restart: both lists ascend one by one, the later one from the first level
      that was not saved. */
  lemma LevelsAcross(rules: seq<ExitRule>, l: Live, events: seq<Event>, more: seq<Event>, maxExitFailures: int)
    requires l.pos.Valid() && l.tracked && l.saved == Some(l.pos) && l.pos.scaleOutExecuted == Below(0)
    requires LiveRun(rules, l, events, maxExitFailures).0.tracked
    ensures var (l', ds, outcomes) := LiveRun(rules, l, events, maxExitFailures);
            && l'.saved.Some? && l'.saved.value.Valid()
            && var before := ScaleIndices(ds);
               var after := ScaleIndices(LiveRun(rules, Restarted(l'), more, maxExitFailures).1);
               var kept := |ScaleIndices(ds[..LastSaved(outcomes)])|;
               kept <= |before| && before == seq(|before|, i => 0 + i) && after == seq(|after|, i => kept + i)
  {
    hide LiveTick, LiveRun, ScaleIndices, LastSaved;
    var (l', ds, outcomes) := LiveRun(rules, l, events, maxExitFailures);
    var m := LastSaved(outcomes);
    RestartRewinds(rules, l, events, maxExitFailures);
    CutDecisions(rules, l, events, maxExitFailures, m);
    var (lm, dm, _) := LiveRun(rules, l, events[..m], maxExitFailures);
    LiveRunLevels(rules, l, events[..m], maxExitFailures, 0);
    LiveRunLevels(rules, l, events, maxExitFailures, 0);
    LiveRunLevels(rules, lm, more, maxExitFailures, |ScaleIndices(dm)|);
    FewerIndices(ds, m);
  }

  lemma CutDecisions(rules: seq<ExitRule>, l: Live, events: seq<Event>, maxExitFailures: int, m: nat)
    requires l.pos.Valid() && m <= |events|
    ensures LiveRun(rules, l, events, maxExitFailures).1[..m] == LiveRun(rules, l, events[..m], maxExitFailures).1
  {
    hide LiveTick, LiveRun;
    assert events == events[..m] + events[m..];
    LiveRunAppend(rules, l, events[..m], events[m..], maxExitFailures);
  }

  /** Levels across a restart: a level that was decided before it is decided again after it if and only if
      some level was decided since the last saved event and any level is decided after the restart; the
      first one repeated is the first unsaved one. */
  lemma RestartRepeatsLevels(rules: seq<ExitRule>, l: Live, events: seq<Event>, more: seq<Event>, maxExitFailures: int)
    requires l.pos.Valid() && l.tracked && l.saved == Some(l.pos) && l.pos.scaleOutExecuted == Below(0)
    requires LiveRun(rules, l, events, maxExitFailures).0.tracked
    ensures var (l', ds, outcomes) := LiveRun(rules, l, events, maxExitFailures);
            && l'.saved.Some? && l'.saved.value.Valid()
            && var before := ScaleIndices(ds);
               var after := ScaleIndices(LiveRun(rules, Restarted(l'), more, maxExitFailures).1);
               var kept := |ScaleIndices(ds[..LastSaved(outcomes)])|;
               && kept <= |before|
               && ((exists x :: x in before && x in after) <==> kept < |before| && after != [])
               && (after != [] ==> after[0] == kept)
  {
    hide LiveTick, LiveRun, ScaleIndices, LastSaved;
    LevelsAcross(rules, l, events, more, maxExitFailures);
    var (l', ds, outcomes) := LiveRun(rules, l, events, maxExitFailures);
    var before, after := ScaleIndices(ds), ScaleIndices(LiveRun(rules, Restarted(l'), more, maxExitFailures).1);
    SeqOverlap(|before|, |ScaleIndices(ds[..LastSaved(outcomes)])|, before, after);
  }

  lemma {:induction false} FewerIndices(ds: seq<Option<ExitDecision>>, m: nat)
    requires m <= |ds|
    ensures |ScaleIndices(ds[..m])| <= |ScaleIndices(ds)|
  {
    if m < |ds| {
      FewerIndices(ds[..|ds| - 1], m);
      assert ds[..|ds| - 1][..m] == ds[..m];
    } else {
      assert ds[..m] == ds;
    }
  }

  /** It does happen: a level is decided while everything is stopped, which skips the save. In memory the
      level is spent, but after a restart the same tick decides it again. */
  lemma RestartRepeatsLevel()
    ensures var rules := [ScaleOut([Level(0.05, 0.5)])];
            var s := NewPosition("ps", "005930", 100.0, 10, 0, 100.0);
            var e := Tick(Observation(106.0, None, 0, None, 0), Control(true, false), CallRaises(0));
            var (l1, d, x) := LiveTick(rules, Live(s, true, Some(s)), e, 3);
            && d.Some? && d.value.metadata == LevelData(0, 0.05, 0.06) && x == BlockedStop
            && l1.tracked && l1.saved == Some(s)
            && LiveTick(rules, l1, e, 3).1 == None
            && LiveTick(rules, Restarted(l1), e, 3).1 == d
  {
    var rules := [ScaleOut([Level(0.05, 0.5)])];
    var s := NewPosition("ps", "005930", 100.0, 10, 0, 100.0);
    var o := Observation(106.0, None, 0, None, 0);
    assert CurrentReturn(s, 106.0) == 0.06;
    FirstLevelHit(UpdateHigh(s, 106.0), o);
    var s1 := Evaluate(rules, s, o).0;
    assert CurrentReturn(s1, 106.0) == 0.06;
    assert UpdateHigh(s1, 106.0) == s1;
    assert s1.scaleOutExecuted == {0};
    LevelSpent(s1, o);
  }

  lemma FirstLevelHit(s: Position, o: Observation)
    requires s.Valid() && s.scaleOutExecuted == {}
    ensures var (t, d) := EvalRules([ScaleOut([Level(0.05, 0.5)])], s, o, 0.06);
            && t == s.(scaleOutExecuted := {0}) && d.Some? && d.value.shouldClose
            && d.value.metadata == LevelData(0, 0.05, 0.06)
  {
    assert {} + {0 as nat} == {0};
  }

  lemma LevelSpent(s: Position, o: Observation)
    requires s.Valid() && s.scaleOutExecuted == {0}
    ensures EvalRules([ScaleOut([Level(0.05, 0.5)])], s, o, 0.06) == (s, None)
  {
    assert NextLevel(1, {0}, 0) == NextLevel(1, {0}, 1) == 1;
  }
}
