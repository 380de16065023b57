/**
 * Sequences of `updateGameState` calls: what a tracker fed one snapshot per
 * frame does over a whole session.
 */
module GameTrace {
  import opened GameDefs
  import opened RingBuffer
  import opened Collaborators
  import opened GameState
  import opened Basics

  /**
   * The tracker after one `updateGameState` per snapshot of `ds`, in order;
   * `secs[i]` says what the section table does on tick i, as for `Section`.
   */
  function Run(t: Tracker, ds: seq<TapState>, keepBlocks: bool, secs: seq<Option<int>>): (r: Tracker)
    requires WellFormed(t) && |secs| == |ds|
    ensures WellFormed(r)
    decreases |ds|
  {
    if ds == [] then t else Run(Step(t, ds[0], keepBlocks, secs[0]), ds[1..], keepBlocks, secs[1..])
  }

  /** The runs archived over that session, oldest first. */
  function ArchiveTrace(t: Tracker, ds: seq<TapState>, secs: seq<Option<int>>): seq<ArchiveEvent>
    requires WellFormed(t) && |secs| == |ds|
    decreases |ds|
  {
    if ds == [] then []
    else ArchiveLog([], t, ds[0], secs[0]) + ArchiveTrace(Step(t, ds[0], true, secs[0]), ds[1..], secs[1..])
  }

  /** The number of times a snapshot stops playing right after one that was, starting after `prev`. */
  function EndEdges(prev: TapState, ds: seq<TapState>): nat
    decreases |ds|
  {
    if ds == [] then 0
    else (if IsEndEdge(prev, ds[0]) then 1 else 0) + EndEdges(ds[0], ds[1..])
  }

  /** The snapshots that were active just before a lock edge, starting after `prev`. */
  function LockedStates(prev: TapState, ds: seq<TapState>): seq<TapState>
    decreases |ds|
  {
    if ds == [] then []
    else (if IsLockEdge(prev, ds[0]) then [prev] else []) + LockedStates(ds[0], ds[1..])
  }

  /** Whether a snapshot plays is all the edge count looks at in its start. */
  lemma EndEdgesFromPlaying(a: TapState, b: TapState, ds: seq<TapState>)
    requires IsInPlayingState(a.state) == IsInPlayingState(b.state)
    ensures EndEdges(a, ds) == EndEdges(b, ds)
  {
  }

  lemma AppendAssoc<T>(a: seq<T>, b: seq<T>, c: seq<T>)
    ensures (a + b) + c == a + (b + c)
  {
    var l, r := (a + b) + c, a + (b + c);
    assert |l| == |r|;
    forall i | 0 <= i < |l| ensures l[i] == r[i] {
      if i < |a| {
      } else if i < |a| + |b| {
      } else {
        assert l[i] == c[i - |a| - |b|];
      }
    }
  }

  /** The tracker's next "previous snapshot" plays exactly when the snapshot just fed does. */
  lemma StepKeepsPlaying(t: Tracker, d: TapState, keepBlocks: bool, sec: Option<int>)
    requires WellFormed(t)
    ensures IsInPlayingState(Step(t, d, keepBlocks, sec).curState.state) == IsInPlayingState(d.state)
  {
  }

  /** Exactly one run is archived per run that ends (src/game.c:226-233). */
  lemma {:induction false} ArchiveOncePerRun(t: Tracker, ds: seq<TapState>, secs: seq<Option<int>>)
    requires WellFormed(t) && |secs| == |ds|
    ensures |ArchiveTrace(t, ds, secs)| == EndEdges(t.curState, ds)
    decreases |ds|
  {
    if ds != [] {
      var t1 := Step(t, ds[0], true, secs[0]);
      ArchiveOncePerRun(t1, ds[1..], secs[1..]);
      StepKeepsPlaying(t, ds[0], true, secs[0]);
      EndEdgesFromPlaying(t1.curState, ds[0], ds[1..]);
      assert |ArchiveLog([], t, ds[0], secs[0])| == if IsEndEdge(t.curState, ds[0]) then 1 else 0;
    }
  }

  /**
   * Within a run, while the game history is present, the ring buffer holds
   * the most recent GAME_STATE_HISTORY_LENGTH locked snapshots, oldest first.
   */
  lemma {:induction false} BlocksAreRecentLocks(t: Tracker, ds: seq<TapState>, secs: seq<Option<int>>)
    requires WellFormed(t) && |secs| == |ds| && EndEdges(t.curState, ds) == 0
    ensures Run(t, ds, true, secs).blockHistory ==
            LastN(t.blockHistory + LockedStates(t.curState, ds), GAME_STATE_HISTORY_LENGTH)
    decreases |ds|
  {
    var n := GAME_STATE_HISTORY_LENGTH;
    if ds == [] {
      assert t.blockHistory + [] == t.blockHistory;
    } else {
      var d, rest := ds[0], ds[1..];
      var t1 := Step(t, d, true, secs[0]);
      StepRotates(t, d, true, secs[0]);
      StepRecordsLock(t, d, true, secs[0]);
      BlocksAreRecentLocks(t1, rest, secs[1..]);
      var later := LockedStates(d, rest);
      if IsLockEdge(t.curState, d) {
        LastNOfPrefix(t.blockHistory + [t.curState], later, n);
        AppendAssoc(t.blockHistory, [t.curState], later);
      } else {
        assert LockedStates(t.curState, ds) == later;
      }
    }
  }

  /** The mode latched when a run starts stays put until the run ends (src/game.c:200-202). */
  lemma {:induction false} ModeFixedDuringRun(t: Tracker, ds: seq<TapState>, keepBlocks: bool, secs: seq<Option<int>>)
    requires WellFormed(t) && |secs| == |ds| && IsInPlayingState(t.curState.state) && EndEdges(t.curState, ds) == 0
    ensures Run(t, ds, keepBlocks, secs).originalGameMode == t.originalGameMode
    decreases |ds|
  {
    if ds != [] {
      var t1 := Step(t, ds[0], keepBlocks, secs[0]);
      StepRotates(t, ds[0], keepBlocks, secs[0]);
      StepLatchesMode(t, ds[0], keepBlocks, secs[0]);
      ModeFixedDuringRun(t1, ds[1..], keepBlocks, secs[1..]);
    }
  }
}
