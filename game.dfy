/**
 * The per-tick game-state tracker of src/game.c: the playing-state and
 * M-roll predicates, `game_init`, `resetGame` and `updateGameState`.
 *
 * The tracker's fields are those of `struct game_t`; its abstract value is
 * the record `Tracker`, and `Step` is the pure meaning of one call of
 * `updateGameState`, about which the lemmas below are stated.
 */
module GameState {
  import opened GameDefs
  import opened RingBuffer
  import opened Collaborators
  import opened Basics

  // ---- src/game.c:166-169 and 253-260: predicates --------------------------

  /** The state codes in which no run is in progress. */
  const NOT_PLAYING: set<int> := {TAP_NONE, TAP_IDLE, TAP_STARTUP}

  function IsInPlayingState(state: int): (r: bool)
    ensures r <==> state !in NOT_PLAYING
  {
    state != TAP_NONE && state != TAP_IDLE && state != TAP_STARTUP
  }

  /** Every other state code the game reports belongs to a run. */
  lemma RunStatesArePlaying()
    ensures forall s :: (s in {TAP_START, TAP_ACTIVE, TAP_LOCKING, TAP_LINECLEAR, TAP_ENTRY,
                               TAP_GAMEOVER, TAP_FADING, TAP_COMPLETION}) ==> IsInPlayingState(s)
  {
  }

  /** The M-roll flags under which the M-roll conditions still hold. */
  const MASTER_CONDITIONS_MET: set<int> := {M_NEUTRAL, M_PASS_1, M_PASS_2, M_SUCCESS}

  function TestMasterConditions(s: TapState): (r: bool)
    ensures r <==> s.mrollFlags in MASTER_CONDITIONS_MET
    ensures s.mrollFlags in {M_FAIL_1, M_FAIL_2, M_FAIL_END} ==> !r
  {
    s.mrollFlags == M_NEUTRAL || s.mrollFlags == M_PASS_1 ||
    s.mrollFlags == M_PASS_2 || s.mrollFlags == M_SUCCESS
  }

  // ---- the transitions updateGameState looks for ---------------------------

  /** A piece was locked in: the previous snapshot was active and this one is not (src/game.c:214-216). */
  predicate IsLockEdge(prev: TapState, cur: TapState)
  {
    IsInPlayingState(cur.state) && prev.state == TAP_ACTIVE && cur.state != TAP_ACTIVE
  }

  /** A run has ended: playing before, not playing now (src/game.c:226). */
  predicate IsEndEdge(prev: TapState, cur: TapState)
  {
    IsInPlayingState(prev.state) && !IsInPlayingState(cur.state)
  }

  /** A run has started: not playing before, playing now (src/game.c:200-206). */
  predicate IsStartEdge(prev: TapState, cur: TapState)
  {
    !IsInPlayingState(prev.state) && IsInPlayingState(cur.state)
  }

  /** The level rose during play (src/game.c:191). */
  predicate IsLevelUp(prev: TapState, cur: TapState)
  {
    IsInPlayingState(cur.state) && cur.level - prev.level > 0
  }

  // ---- one tick, in phases ---------------------------------------------------

  ghost predicate WellFormed(t: Tracker)
  {
    |t.blockHistory| <= GAME_STATE_HISTORY_LENGTH
  }

  /** A tracker as `resetGame` leaves it, apart from `originalGameMode`. */
  ghost predicate IsClean(t: Tracker)
  {
    t.currentSection == 0 && t.curState == ZERO_STATE && t.prevState == ZERO_STATE && t.blockHistory == []
  }

  /** `resetGame` (src/game.c:154-164). */
  function Reset(t: Tracker): (r: Tracker)
    ensures IsClean(r) && r.originalGameMode == t.originalGameMode
  {
    Tracker(ZERO_STATE, ZERO_STATE, t.originalGameMode, 0, [])
  }

  /** The snapshots move along by one (src/game.c:179-182). */
  function Rotate(t: Tracker, data: TapState): (r: Tracker)
    ensures r.prevState == t.curState && r.curState == data
    ensures r.originalGameMode == t.originalGameMode && r.currentSection == t.currentSection
    ensures r.blockHistory == t.blockHistory
  {
    t.(prevState := t.curState, curState := data)
  }

  /**
   * A level-up during play goes to the section table (src/game.c:189-196).
   * `tableSection` is None when no section table is present, and Some(k)
   * when one is: `updateSectionTable` receives the whole game and may move
   * its `currentSection`, and k is the value it leaves there. The body of
   * `updateSectionTable` is not part of this model.
   */
  function Section(t: Tracker, tableSection: Option<int>): (r: Tracker)
    ensures r == t.(currentSection := r.currentSection)
    ensures tableSection.Some? && IsLevelUp(t.prevState, t.curState) ==> r.currentSection == tableSection.value
    ensures !(tableSection.Some? && IsLevelUp(t.prevState, t.curState)) ==> r == t
  {
    if tableSection.Some? && IsLevelUp(t.prevState, t.curState) then t.(currentSection := tableSection.value) else t
  }

  /** Outside a run the mode is latched from the new snapshot (src/game.c:198-202). */
  function Latch(t: Tracker): Tracker
  {
    if !IsInPlayingState(t.prevState.state) then t.(originalGameMode := t.curState.gameMode) else t
  }

  /** A lock pushes the previous snapshot onto the ring buffer when it is kept (src/game.c:213-219). */
  function Lock(t: Tracker, keepBlocks: bool): Tracker
    requires WellFormed(t)
  {
    if IsLockEdge(t.prevState, t.curState) && keepBlocks
    then t.(blockHistory := PushBack(t.blockHistory, t.prevState, GAME_STATE_HISTORY_LENGTH))
    else t
  }

  /** The end of a run resets the tracker (src/game.c:225-242). */
  function Finish(t: Tracker): Tracker
  {
    if IsEndEdge(t.prevState, t.curState) then Reset(t) else t
  }

  /** The tracker just before the end-of-run check (src/game.c:179-223). */
  function Advanced(t: Tracker, data: TapState, keepBlocks: bool, tableSection: Option<int>): (r: Tracker)
    requires WellFormed(t)
    ensures WellFormed(r)
  {
    Lock(Latch(Section(Rotate(t, data), tableSection)), keepBlocks)
  }

  /**
   * The tracker after one `updateGameState(game, ..., gameHistory, &data)`
   * (src/game.c:171-243); `keepBlocks` says whether `gameHistory` is present,
   * and `tableSection` whether the section table is, as for `Section`.
   */
  function Step(t: Tracker, data: TapState, keepBlocks: bool, tableSection: Option<int>): (r: Tracker)
    requires WellFormed(t)
    ensures WellFormed(r)
  {
    Finish(Advanced(t, data, keepBlocks, tableSection))
  }

  /** When a run ends the tracker is cleared, but the mode latched at its start survives. */
  lemma StepEndResets(t: Tracker, data: TapState, keepBlocks: bool, tableSection: Option<int>)
    requires WellFormed(t) && IsEndEdge(t.curState, data)
    ensures IsClean(Step(t, data, keepBlocks, tableSection))
    ensures Step(t, data, keepBlocks, tableSection).originalGameMode == t.originalGameMode
  {
  }

  /**
   * Otherwise the snapshots move along by one, and the section changes only
   * on a level-up that the section table sees, to the value it leaves.
   */
  lemma StepRotates(t: Tracker, data: TapState, keepBlocks: bool, tableSection: Option<int>)
    requires WellFormed(t) && !IsEndEdge(t.curState, data)
    ensures Step(t, data, keepBlocks, tableSection).curState == data
    ensures Step(t, data, keepBlocks, tableSection).prevState == t.curState
    ensures !(tableSection.Some? && IsLevelUp(t.curState, data)) ==>
      Step(t, data, keepBlocks, tableSection).currentSection == t.currentSection
    ensures tableSection.Some? && IsLevelUp(t.curState, data) ==>
      Step(t, data, keepBlocks, tableSection).currentSection == tableSection.value
  {
  }

  /** The mode is taken from the new snapshot exactly when the previous one was not playing. */
  lemma StepLatchesMode(t: Tracker, data: TapState, keepBlocks: bool, tableSection: Option<int>)
    requires WellFormed(t) && !IsEndEdge(t.curState, data)
    ensures !IsInPlayingState(t.curState.state) ==> Step(t, data, keepBlocks, tableSection).originalGameMode == data.gameMode
    ensures IsInPlayingState(t.curState.state) ==> Step(t, data, keepBlocks, tableSection).originalGameMode == t.originalGameMode
  {
  }

  /**
   * The ring buffer takes the previous snapshot on a lock edge, when it is
   * kept, keeping the most recent GAME_STATE_HISTORY_LENGTH entries, and is
   * untouched otherwise.
   */
  lemma StepRecordsLock(t: Tracker, data: TapState, keepBlocks: bool, tableSection: Option<int>)
    requires WellFormed(t) && !IsEndEdge(t.curState, data)
    ensures IsLockEdge(t.curState, data) && keepBlocks ==>
      Step(t, data, keepBlocks, tableSection).blockHistory == LastN(t.blockHistory + [t.curState], GAME_STATE_HISTORY_LENGTH)
    ensures !(IsLockEdge(t.curState, data) && keepBlocks) ==> Step(t, data, keepBlocks, tableSection).blockHistory == t.blockHistory
  {
    if IsLockEdge(t.curState, data) && keepBlocks {
      PushBackKeepsMostRecent(t.blockHistory, t.curState, GAME_STATE_HISTORY_LENGTH);
    }
  }

  /** Two trackers that differ at most in the level of their current snapshot. */
  ghost predicate LevelBlind(a: Tracker, b: Tracker)
  {
    a.prevState == b.prevState && a.originalGameMode == b.originalGameMode &&
    a.currentSection == b.currentSection && a.blockHistory == b.blockHistory &&
    a.curState.state == b.curState.state && a.curState.grade == b.curState.grade &&
    a.curState.timer == b.curState.timer && a.curState.mrollFlags == b.curState.mrollFlags &&
    a.curState.gameMode == b.curState.gameMode
  }

  /** The latch, the lock and the end check never look at the current level. */
  lemma PhasesAreLevelBlind(a: Tracker, b: Tracker, keepBlocks: bool)
    requires WellFormed(a) && WellFormed(b) && LevelBlind(a, b)
    ensures LevelBlind(Finish(Lock(Latch(a), keepBlocks)), Finish(Lock(Latch(b), keepBlocks)))
  {
    LatchIsLevelBlind(a, b);
    LockIsLevelBlind(Latch(a), Latch(b), keepBlocks);
    FinishIsLevelBlind(Lock(Latch(a), keepBlocks), Lock(Latch(b), keepBlocks));
  }

  lemma LatchIsLevelBlind(a: Tracker, b: Tracker)
    requires LevelBlind(a, b)
    ensures LevelBlind(Latch(a), Latch(b)) && WellFormed(Latch(a)) == WellFormed(a)
  {
  }

  lemma LockIsLevelBlind(a: Tracker, b: Tracker, keepBlocks: bool)
    requires WellFormed(a) && WellFormed(b) && LevelBlind(a, b)
    ensures LevelBlind(Lock(a, keepBlocks), Lock(b, keepBlocks))
  {
  }

  lemma FinishIsLevelBlind(a: Tracker, b: Tracker)
    requires LevelBlind(a, b)
    ensures LevelBlind(Finish(a), Finish(b))
  {
  }

  /**
   * A level that drops during play is only logged (src/game.c:184-187): no
   * section-table call is made, and the tracker ends as it would for the same
   * snapshot with the level unchanged, apart from the new level itself.
   */
  lemma RegressionOnlyLogs(t: Tracker, data: TapState, keepBlocks: bool, tableSection: Option<int>)
    requires WellFormed(t) && IsInPlayingState(data.state) && data.level < t.curState.level
    ensures LevelUpSections(Rotate(t, data)) == []
    ensures (var a, b := Step(t, data, keepBlocks, tableSection), Step(t, data.(level := t.curState.level), keepBlocks, tableSection);
             a.(curState := a.curState.(level := b.curState.level)) == b)
  {
    var d2 := data.(level := t.curState.level);
    var r1, r2 := Rotate(t, data), Rotate(t, d2);
    assert Section(r1, tableSection) == r1 && Section(r2, tableSection) == r2;
    PhasesAreLevelBlind(r1, r2, keepBlocks);
  }

  // ---- the calls made to the collaborators on one tick ------------------------

  /** A run start pushes an input element with the new level (src/game.c:206-209). */
  function StartInputs(prev: TapState, cur: TapState): seq<InputEvent>
  {
    if IsStartEdge(prev, cur) then [PushElement(cur.level)] else []
  }

  /** A lock pushes an input element with the new level (src/game.c:221-222). */
  function LockInputs(prev: TapState, cur: TapState): seq<InputEvent>
  {
    if IsLockEdge(prev, cur) then [PushElement(cur.level)] else []
  }

  /** A run end resets the input history (src/game.c:238-239). */
  function EndInputs(prev: TapState, cur: TapState): seq<InputEvent>
  {
    if IsEndEdge(prev, cur) then [ResetInputs] else []
  }

  /** The input history's log after that tick, given its log before. */
  function InputLog(log: seq<InputEvent>, t: Tracker, data: TapState): seq<InputEvent>
  {
    log + StartInputs(t.curState, data) + LockInputs(t.curState, data) + EndInputs(t.curState, data)
  }

  /** A level-up during play sends the rotated game to the section table (src/game.c:191-194). */
  function LevelUpSections(rotated: Tracker): seq<SectionEvent>
  {
    if IsLevelUp(rotated.prevState, rotated.curState) then [LevelUp(rotated)] else []
  }

  /** A run end updates the gold records of the latched mode, then resets the table (src/game.c:231-241). */
  function EndSections(prev: TapState, cur: TapState, mode: Mode): seq<SectionEvent>
  {
    if IsEndEdge(prev, cur) then [GoldUpdate(mode), ResetSections] else []
  }

  /** The section table's log after that tick, given its log before. */
  function SectionLog(log: seq<SectionEvent>, t: Tracker, data: TapState): seq<SectionEvent>
  {
    log + LevelUpSections(Rotate(t, data)) + EndSections(t.curState, data, Latch(Rotate(t, data)).originalGameMode)
  }

  /** The runs archived on a tick that leaves the tracker in state `t` before its end check (src/game.c:234). */
  function ArchiveRuns(t: Tracker): seq<ArchiveEvent>
  {
    if IsEndEdge(t.prevState, t.curState) then [PushRun(t.blockHistory, t.prevState, t.originalGameMode)] else []
  }

  /** The game history's log after that tick, given its log before. */
  function ArchiveLog(log: seq<ArchiveEvent>, t: Tracker, data: TapState, tableSection: Option<int>): seq<ArchiveEvent>
    requires WellFormed(t)
  {
    log + ArchiveRuns(Advanced(t, data, true, tableSection))
  }

  /** What `updateGameState` passes on about its section table, as for `Section`. */
  function TableSection(sectionTable: SectionTable?, levelUpSection: int): (r: Option<int>)
    ensures r.Some? <==> sectionTable != null
    ensures r.Some? ==> r.value == levelUpSection
  {
    if sectionTable != null then Some(levelUpSection) else None
  }

  // ---- src/game.c:116-243: the tracker object --------------------------------

  class Game {
    var curState: TapState
    var prevState: TapState
    var originalGameMode: Mode
    var currentSection: int
    var blockHistory: seq<TapState>

    function Model(): Tracker
      reads this
    {
      Tracker(curState, prevState, originalGameMode, currentSection, blockHistory)
    }

    ghost predicate Valid()
      reads this
    {
      WellFormed(Model())
    }

    /** `game_init` (src/game.c:116-128): an empty ring buffer, then `resetGame`. */
    constructor ()
      ensures Valid() && IsClean(Model())
    {
      blockHistory := [];
      currentSection := 0;
      curState := ZERO_STATE;
      prevState := ZERO_STATE;
    }

    /** `resetGame` (src/game.c:154-164). */
    method ResetGame()
      modifies this
      ensures Valid()
      ensures Model() == Reset(old(Model()))
    {
      currentSection := 0;
      curState := ZERO_STATE;
      prevState := ZERO_STATE;
      blockHistory := [];
    }

    /**
     * `updateGameState` (src/game.c:171-243). A null collaborator is absent.
     * The section table is dereferenced without a check when a run ends
     * (src/game.c:231), so it must be present on that tick.
     * `levelUpSection` is the value a present section table's
     * `updateSectionTable` leaves in `currentSection` on a level-up.
     */
    method UpdateGameState(inputHistory: InputHistory?, sectionTable: SectionTable?, gameHistory: GameHistory?, data: TapState, levelUpSection: int)
      requires Valid()
      requires IsEndEdge(curState, data) ==> sectionTable != null
      modifies this, inputHistory, sectionTable, gameHistory
      ensures Valid()
      ensures Model() == Step(old(Model()), data, gameHistory != null, TableSection(sectionTable, levelUpSection))
      ensures inputHistory != null ==> inputHistory.log == InputLog(old(inputHistory.log), old(Model()), data)
      ensures sectionTable != null ==> sectionTable.log == SectionLog(old(sectionTable.log), old(Model()), data)
      ensures gameHistory != null ==>
        gameHistory.log == ArchiveLog(old(gameHistory.log), old(Model()), data, TableSection(sectionTable, levelUpSection))
    {
      Advance(inputHistory, sectionTable, gameHistory != null, data, levelUpSection);
      FinishRun(inputHistory, sectionTable, gameHistory);
    }

    /**
     * src/game.c:179-223: the snapshots move along, a level-up goes to the
     * section table, the mode is latched while not playing, a start and a
     * lock are pushed to the inputs, and a lock to the ring buffer.
     */
    method Advance(inputHistory: InputHistory?, sectionTable: SectionTable?, keepBlocks: bool, data: TapState, levelUpSection: int)
      requires Valid()
      modifies this, inputHistory, sectionTable
      ensures Valid()
      ensures Model() == Advanced(old(Model()), data, keepBlocks, TableSection(sectionTable, levelUpSection))
      ensures inputHistory != null ==>
        inputHistory.log == old(inputHistory.log) + StartInputs(old(curState), data) + LockInputs(old(curState), data)
      ensures sectionTable != null ==> sectionTable.log == old(sectionTable.log) + LevelUpSections(Rotate(old(Model()), data))
    {
      RotateStates(data);
      // A level regression during play is only logged (src/game.c:184-187).
      TrackSection(sectionTable, levelUpSection);
      LatchMode(inputHistory);
      TrackLock(inputHistory, keepBlocks);
    }

    /** src/game.c:179-182: the snapshots move along by one. */
    method RotateStates(data: TapState)
      modifies this
      ensures Model() == Rotate(old(Model()), data)
    {
      prevState := curState;
      curState := data;
    }

    /**
     * src/game.c:189-196: a level-up during play goes to the section table,
     * which leaves `levelUpSection` in `currentSection`.
     */
    method TrackSection(sectionTable: SectionTable?, levelUpSection: int)
      modifies this, sectionTable
      ensures Model() == Section(old(Model()), TableSection(sectionTable, levelUpSection))
      ensures sectionTable != null ==> sectionTable.log == old(sectionTable.log) + LevelUpSections(old(Model()))
    {
      if sectionTable != null {
        if IsInPlayingState(curState.state) && curState.level - prevState.level > 0 {
          sectionTable.UpdateSectionTable(Model());
          currentSection := levelUpSection;
        }
      }
    }

    /** src/game.c:198-211: the mode is latched while not playing; a start is pushed to the inputs. */
    method LatchMode(inputHistory: InputHistory?)
      modifies this, inputHistory
      ensures Model() == Latch(old(Model()))
      ensures inputHistory != null ==> inputHistory.log == old(inputHistory.log) + StartInputs(prevState, curState)
    {
      if !IsInPlayingState(prevState.state) {
        originalGameMode := curState.gameMode;
        if IsInPlayingState(curState.state) {
          if inputHistory != null {
            inputHistory.PushInputHistoryElement(curState.level);
          }
        }
      }
    }

    /** src/game.c:213-222: a lock is pushed to the ring buffer and to the inputs. */
    method TrackLock(inputHistory: InputHistory?, keepBlocks: bool)
      requires Valid()
      modifies this, inputHistory
      ensures Valid()
      ensures Model() == Lock(old(Model()), keepBlocks)
      ensures inputHistory != null ==> inputHistory.log == old(inputHistory.log) + LockInputs(prevState, curState)
    {
      if IsInPlayingState(curState.state) && prevState.state == TAP_ACTIVE && curState.state != TAP_ACTIVE {
        if keepBlocks {
          blockHistory := PushBack(blockHistory, prevState, GAME_STATE_HISTORY_LENGTH);
        }
        if inputHistory != null {
          inputHistory.PushInputHistoryElement(curState.level);
        }
      }
    }

    /** src/game.c:226-242: the end of a run is archived and everything is reset. */
    method FinishRun(inputHistory: InputHistory?, sectionTable: SectionTable?, gameHistory: GameHistory?)
      requires Valid()
      requires IsEndEdge(prevState, curState) ==> sectionTable != null
      modifies this, inputHistory, sectionTable, gameHistory
      ensures Valid()
      ensures Model() == Finish(old(Model()))
      ensures inputHistory != null ==> inputHistory.log == old(inputHistory.log) + EndInputs(old(prevState), old(curState))
      ensures sectionTable != null ==>
        sectionTable.log == old(sectionTable.log) + EndSections(old(prevState), old(curState), old(originalGameMode))
      ensures gameHistory != null ==> gameHistory.log == old(gameHistory.log) + ArchiveRuns(old(Model()))
    {
      if IsInPlayingState(prevState.state) && !IsInPlayingState(curState.state) {
        sectionTable.UpdateGoldSTRecords(originalGameMode);
        if gameHistory != null {
          gameHistory.PushStateToGameHistory(blockHistory, prevState, originalGameMode);
        }
        ResetGame();
        if inputHistory != null {
          inputHistory.ResetInputHistory();
        }
        sectionTable.ResetSectionTable();
      }
    }
  }
}
