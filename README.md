# TapTracker game state and autofumen, in Dafny

TapTracker follows a running session of Tetris: The Grand Master 2 PLUS
(TAP). A memory-sharing plugin in the emulator publishes a small snapshot of
the game (`struct tap_state`) once per frame. `src/game.c` turns that stream
of snapshots into game-level facts. It decodes the mode word into its base
mode and modifiers and builds the mode's display name. It tells when a run
is in progress and whether the M-roll conditions still hold. It detects when
a run starts, when a piece locks, when the level rises and when a run ends.
On those edges it drives three collaborators: the input history, the section
table (with its personal-best records) and the game history. It also keeps a
ring buffer of the most recently locked snapshots.

`autofumen/autofumen.py` is a companion script that reads the same shared
memory. It rebuilds each game as a list of fumen frames (one per locked
piece), and at game over it prints the game's level, its clock and the
encoded diagram.

The model is split into these modules:

- `GameDefs`: the snapshot record, its state codes and M-roll flags, and the
  ring-buffer capacity.
- `GameModes`: the modifier tests, `getBaseMode` and `getModeName`; the
  mode word is a `bv32`, like the C `int`.
- `RingBuffer`: `utringbuffer` as `game.c` uses it, modelled by its contents.
- `Collaborators`: the input history, section table and game history, each
  as a class that logs the calls it receives.
- `GameState`: `game_t` as the class `Game`. Its abstract value is the record
  `Tracker`. `Step` is the pure meaning of one `updateGameState`, built from
  one phase function per block of the C function. `UpdateGameState` is proved
  to yield exactly `Step`. Each present collaborator is proved to receive the
  calls of that tick, in order, and with their arguments. Two calls are
  represented only in part:
  - `pushStateToGameHistory` with a null game history is not represented.
  - The section table's reply to a level-up is reduced to the value it leaves
    in `currentSection`.
- `GameTrace`: whole sessions, as sequences of `Step`s. Exactly one run is
  archived per run that ends. Within a run the ring buffer holds the most
  recent locks. The latched mode stays put for the whole run.
- `AutoFumen`: the script's helpers and its capture loop. `Tick` is one
  iteration as a function; `Iterate` is the same iteration written
  imperatively; `CaptureLoop` is the `while` loop over a finite sequence of
  memory samples.

`updateGameState` dereferences `sectionTable` at src/game.c:231 without the
null check it makes at lines 189 and 240. The model therefore requires a
section table on any tick that ends a run. On every other tick a null
collaborator is simply absent.

## Model

| member | source | states |
|---|---|---|
| GameModes.Mask | src/game.c:20-43 | every modifier mask is non-zero |
| GameModes.MaskIsSingleBit | src/game.c:20-43 | every modifier mask is a single bit |
| GameModes.MasksDisjoint | src/game.c:20-43 | distinct modifiers own disjoint bits |
| GameModes.IsVersusMode | src/game.c:20-23 | true exactly when the Versus bit is set |
| GameModes.Is20GMode | src/game.c:25-28 | true exactly when the 20G bit is set |
| GameModes.IsBigMode | src/game.c:30-33 | true exactly when the Big bit is set |
| GameModes.IsItemMode | src/game.c:35-38 | true exactly when the Item bit is set |
| GameModes.IsTLSMode | src/game.c:40-43 | true exactly when the TLS bit is set |
| GameModes.ModifierSetClear | src/game.c:20-43 | setting a modifier's bit makes its test true; clearing it makes the test false |
| GameModes.ModifiersIndependent | src/game.c:20-43 | setting or clearing one modifier's bit leaves every other modifier's test unchanged |
| GameModes.ModifiersNotExclusive | src/game.c:20-43 | one mode word can carry every modifier at once |
| GameModes.ModifierMask | src/game.c:47-53 | the combined mask is the union of the six modifier masks |
| GameModes.ModifierMaskCoversMasks | src/game.c:47-53 | each modifier's mask lies inside the combined mask |
| GameModes.GetBaseMode | src/game.c:45-56 | the base mode has no modifier bit, and together with the word's modifier bits it gives back the whole word |
| GameModes.BaseModeUnmodified | src/game.c:45-56 | the base mode carries no modifier |
| GameModes.BaseModeIdempotent | src/game.c:45-56 | taking the base mode twice changes nothing |
| GameModes.ModeRoundTrip | src/game.c:45-56 | a base mode combined with any modifier bits decodes back to that base mode and exactly those modifiers |
| GameModes.ModeDecomposition | src/game.c:45-56 | every word splits into its base mode and its modifier bits, and the modifier part has no other bit |
| GameModes.ModifiersOf | src/game.c:20-43 | the record carries a modifier exactly when the mode word has that modifier's bit set |
| GameModes.FirstModifier | src/game.c:62-86 | None exactly when no modifier in the order is present; otherwise the present modifier that comes first in the order, with none present before it |
| GameModes.ModifierPrefix | src/game.c:62-86 | the prefix is empty exactly when none of the five named modifiers is set; it fits the 16-char buffer |
| GameModes.FirstModifierByPriority | src/game.c:63-86 | the first present modifier in name order is chosen by the same if-else chain as the C code |
| GameModes.ModifierPrefixIsFirst | src/game.c:62-86 | the prefix is the text of the highest-priority modifier present (Versus, 20G, Big, Item, TLS), or empty |
| GameModes.CreditsNotNamed | src/game.c:62-111 | the Credits bit changes neither the prefix nor the base mode |
| GameModes.BaseModeName | src/game.c:88-111 | "???" exactly when the base mode is none of the six known ones; the name is non-empty and shorter than 16 chars |
| GameModes.BaseModeNamesDistinct | src/game.c:88-111 | distinct known base modes get distinct names |
| GameModes.KnownBaseModesUnmodified | src/game.c:91-108 | the known base modes are fixed points of getBaseMode |
| GameModes.ModeName | src/game.c:113 | the name is the modifier prefix followed by the base name, and is shorter than 16 chars |
| GameModes.GetModeName | src/game.c:58-114 | with a zero-length buffer nothing is written; otherwise the buffer holds the longest prefix of the name that leaves room for the NUL |
| GameModes.ModeNameFits | src/game.c:60-113 | a 16-char buffer always holds the whole name |
| RingBuffer.LastN | src/game.c:125 | the last n entries of a sequence, as many as there are up to n |
| RingBuffer.PushBack | src/game.c:219 | a push never exceeds the capacity |
| RingBuffer.PushBackKeepsMostRecent | src/game.c:219 | a push leaves the most recent `cap` entries of the old contents plus the new one, with the new one last |
| RingBuffer.PushAll | src/game.c:125 | any number of pushes never exceed the capacity |
| RingBuffer.PushAllKeepsMostRecent | src/game.c:125 | after any number of pushes the buffer holds the most recent `cap` entries pushed, oldest first |
| RingBuffer.LastNOfAppend | src/game.c:219 | truncating before an append does not change the last n entries |
| RingBuffer.LastNOfPrefix | src/game.c:219 | only the last n entries of a prefix matter for the last n entries of the whole |
| RingBuffer.PushFullEvictsOldest | src/game.c:219 | pushing onto a full buffer drops exactly the oldest entry |
| Collaborators.InputHistory.PushInputHistoryElement | src/game.c:209 | the call is logged with its level |
| Collaborators.InputHistory.ResetInputHistory | src/game.c:239 | the call is logged |
| Collaborators.SectionTable.UpdateSectionTable | src/game.c:194 | the call is logged with the whole game as it stands after the rotation |
| Collaborators.SectionTable.UpdateGoldSTRecords | src/game.c:231-232 | the call is logged with the mode whose personal-best table is updated |
| Collaborators.SectionTable.ResetSectionTable | src/game.c:241 | the call is logged |
| Collaborators.GameHistory.PushStateToGameHistory | src/game.c:234 | the call is logged with the ring buffer's contents, the final snapshot and the mode |
| GameState.IsInPlayingState | src/game.c:166-169 | playing exactly when the state is none of NONE, IDLE and STARTUP |
| GameState.RunStatesArePlaying | src/game.c:166-169 | every other state code the game reports counts as playing |
| GameState.TestMasterConditions | src/game.c:253-260 | true exactly for the flags NEUTRAL, PASS_1, PASS_2 and SUCCESS; false for every failure flag |
| GameState.Reset | src/game.c:154-164 | the section, both snapshots and the ring buffer are cleared, and the latched mode is kept |
| GameState.Rotate | src/game.c:179-182 | the current snapshot becomes the previous one, the new data becomes current, and the mode, section and ring buffer stay as they were |
| GameState.Section | src/game.c:189-196 | only the section can change; it takes the section table's value on a level-up in play with a table present; otherwise the tracker is unchanged |
| GameState.IsLockEdge | src/game.c:214-216 | a lock: playing now, active before, not active now |
| GameState.IsEndEdge | src/game.c:226 | a run's end: playing before, not playing now |
| GameState.IsStartEdge | src/game.c:200-206 | a run's start: not playing before, playing now |
| GameState.IsLevelUp | src/game.c:191 | a level-up: playing now, and the level rose |
| GameState.Latch | src/game.c:200-202 | the mode is taken from the new snapshot when the previous one was not playing |
| GameState.Lock | src/game.c:213-219 | on a lock edge, with a game history, the previous snapshot is pushed onto the ring buffer |
| GameState.Finish | src/game.c:225-242 | on a run's end the tracker is reset |
| GameState.Advanced | src/game.c:179-223 | rotation, section, latch and lock in the C code's order keep the ring buffer within its capacity |
| GameState.Step | src/game.c:171-243 | one tick, the end-of-run check after the other phases, keeps the ring buffer within its capacity |
| GameState.StepEndResets | src/game.c:225-242 | a tick that ends a run leaves the tracker clean, with the mode latched at the run's start |
| GameState.StepRotates | src/game.c:179-196 | on any other tick the snapshots move along by one; the section takes the table's value on a level-up that a present table sees, and is untouched otherwise |
| GameState.StepLatchesMode | src/game.c:198-203 | the mode is taken from the new snapshot exactly when the previous one was not playing; otherwise it is kept |
| GameState.RegressionOnlyLogs | src/game.c:184-187 | a level drop during play sends no section-table call, and the tracker ends as for the same snapshot with the level unchanged, apart from the level itself |
| GameState.PhasesAreLevelBlind | src/game.c:198-242 | the latch, the lock and the end-of-run check never look at the current snapshot's level |
| GameState.StartInputs | src/game.c:204-210 | a run start pushes one input element with the new level |
| GameState.LockInputs | src/game.c:221-222 | a lock pushes one input element with the new level |
| GameState.EndInputs | src/game.c:238-239 | a run's end resets the input history |
| GameState.InputLog | src/game.c:198-239 | the input history's calls on one tick: start, then lock, then end |
| GameState.LevelUpSections | src/game.c:189-196 | a level-up during play sends the whole rotated game to the section table |
| GameState.EndSections | src/game.c:231-241 | a run's end updates the gold records of the latched mode, then resets the section table |
| GameState.SectionLog | src/game.c:189-241 | the section table's calls on one tick: level-up, then gold update and reset |
| GameState.ArchiveRuns | src/game.c:234 | a run's end archives the ring buffer, the last snapshot of the run and the latched mode |
| GameState.ArchiveLog | src/game.c:225-236 | the game history's calls on one tick |
| GameState.StepRecordsLock | src/game.c:213-223 | on a lock edge with a game history, the buffer holds the most recent entries of the old contents plus the previous snapshot; otherwise it is unchanged |
| GameState.Game.constructor | src/game.c:116-128 | a new tracker is valid and clean |
| GameState.Game.ResetGame | src/game.c:154-164 | the tracker becomes Reset of its old value |
| GameState.Game.UpdateGameState | src/game.c:171-243 | the new tracker is Step of the old one, with the section table's value when a table is present; each present collaborator receives the calls for the start, lock, level-up and end edges of that tick, in order |
| GameState.Game.Advance | src/game.c:179-223 | the tracker becomes Advanced of its old value, with the start, lock and level-up calls those phases make |
| GameState.Game.RotateStates | src/game.c:179-182 | the tracker becomes Rotate of its old value |
| GameState.Game.TrackSection | src/game.c:189-196 | the tracker becomes Section of its old value; a level-up during play, and nothing else, sends the game to the section table |
| GameState.Game.LatchMode | src/game.c:198-211 | the tracker becomes Latch of its old value, and a run start pushes one input element with the new level |
| GameState.Game.TrackLock | src/game.c:213-223 | the tracker becomes Lock of its old value, and a lock pushes one input element with the new level |
| GameState.Game.FinishRun | src/game.c:225-242 | at a run's end the gold records are updated for the latched mode, the run is archived with its ring buffer, and the tracker, the inputs and the section table are reset; otherwise nothing changes |
| GameTrace.Run | src/game.c:171-243 | a whole session keeps the ring buffer within its capacity |
| GameTrace.EndEdgesFromPlaying | src/game.c:226 | only whether the starting snapshot plays matters for the count of run ends |
| GameTrace.StepKeepsPlaying | src/game.c:179-182 | after a tick, the tracker's current snapshot plays exactly when the data fed does |
| GameTrace.ArchiveOncePerRun | src/game.c:225-236 | over any session, the game history receives exactly one run per run that ends |
| GameTrace.BlocksAreRecentLocks | src/game.c:213-219 | within a run the ring buffer holds the most recent GAME_STATE_HISTORY_LENGTH locked snapshots, oldest first |
| GameTrace.ModeFixedDuringRun | src/game.c:198-202 | the mode latched at a run's start stays unchanged until the run ends |
| AutoFumen.FumenPiece | autofumen/autofumen.py:48 | raises exactly for an index past the table; the result is a fumen piece 0..7, and it is 0 exactly for TAP indices 0 and 1 |
| AutoFumen.PieceMappingInRange | autofumen/autofumen.py:43-48 | the TAP pieces 2..8 map to fumen pieces 1..7 |
| AutoFumen.PieceMappingInjective | autofumen/autofumen.py:43-48 | no two TAP pieces map to the same fumen piece |
| AutoFumen.PieceMappingOnto | autofumen/autofumen.py:43-48 | the inverse table maps every fumen piece back to its TAP piece, and the two tables undo each other |
| AutoFumen.CalculateFumenOffset | autofumen/autofumen.py:50-65 | (1, 0) exactly for fumen piece 1 in rotation 1 or 3; (0, -1) exactly for pieces 6, 2 and 5 in rotation 2; (0, 0) otherwise |
| AutoFumen.OffsetByTapPiece | autofumen/autofumen.py:43-65 | in TAP numbering, only I on its side and J, L and T upside down get a correction |
| AutoFumen.InPlayingState | autofumen/autofumen.py:67-69 | not playing exactly in the NONE, Idle and Startup states |
| AutoFumen.PlayingAgreesWithTracker | autofumen/autofumen.py:67-69 | the script and the tracker agree on when a game is in progress |
| AutoFumen.TestMasterConditions | autofumen/autofumen.py:71-74 | true exactly for the flags 48, 49, 51 and 127; false for the failure flags 17, 19 and 31 |
| AutoFumen.MasterAgreesWithTracker | autofumen/autofumen.py:71-74 | the script and the tracker agree on the M-roll conditions |
| AutoFumen.FixX | autofumen/autofumen.py:115-116 | an X past 10 becomes -1 and every other X is kept |
| AutoFumen.Clock | autofumen/autofumen.py:150 | whole minutes and seconds of a frame count at 60 frames per second: the seconds are below 60 and the pair is the frame count rounded down to a whole second |
| AutoFumen.Next | autofumen/autofumen.py:140 | the next frame's field gains the piece when it locks, and the frame starts with no piece |
| AutoFumen.LockIsStricterThanTracker | autofumen/autofumen.py:138 | every lock the script sees is one the tracker sees, but Active then Entry is a tracker lock the script misses |
| AutoFumen.IsLock | autofumen/autofumen.py:138 | a lock: playing now, Active before and Locking now |
| AutoFumen.IsGameOver | autofumen/autofumen.py:143 | game over: playing before, not playing now |
| AutoFumen.IsCreditStart | autofumen/autofumen.py:131 | the credit roll is on and its field reset has not yet happened in this game |
| AutoFumen.CreditPhase | autofumen/autofumen.py:131-135 | on a credit start the frame is appended, a fresh frame begins and the reset is latched |
| AutoFumen.LockPhase | autofumen/autofumen.py:138-140 | on a lock the frame is appended and the next frame follows it |
| AutoFumen.GameOverPhase | autofumen/autofumen.py:143-155 | at game over the frames are reported with the previous level and clock, and the loop's frames and latch start afresh |
| AutoFumen.RunTicks | autofumen/autofumen.py:93-157 | the iterations in order, stopping at the first IndexError with the variables from before it |
| AutoFumen.Placed | autofumen/autofumen.py:113-126 | the frame's piece has the mapped kind, the rotation and the corrected position, and it will lock |
| AutoFumen.Tick | autofumen/autofumen.py:96-155 | an iteration raises exactly when the piece index is past the table; otherwise the previous values are the old current ones and the current values are the sample's |
| AutoFumen.GameOverFlushes | autofumen/autofumen.py:143-155 | at game over the frames, plus the one just placed (and the blank credit-roll frame if the roll starts on the same iteration), are reported with the previous level and clock, and the loop starts afresh |
| AutoFumen.LockAppendsFrame | autofumen/autofumen.py:138-140 | on a lock the placed frame is appended and the next frame's field holds its piece |
| AutoFumen.CreditStartClearsField | autofumen/autofumen.py:131-135 | when the credit roll begins without a lock or game over, the placed frame is appended and the field starts afresh |
| AutoFumen.LockOnCreditStart | autofumen/autofumen.py:131-140 | when the credit roll begins on a lock, the placed frame and then a blank frame are appended, and the next frame is blank |
| AutoFumen.QuietIterationOnlyPlaces | autofumen/autofumen.py:120-126 | with no credit start, lock or game over, only the current piece moves |
| AutoFumen.CreditLatch | autofumen/autofumen.py:131-135 | the credit-roll flag is set from the first credit-roll sample of a game and cleared only at game over |
| AutoFumen.OneReportPerGame | autofumen/autofumen.py:143-155 | over any run of samples, one report is printed per game that ends |
| AutoFumen.CreditResetAtMostOncePerGame | autofumen/autofumen.py:131-135 | within one game the field is reset for the credit roll at most once |
| AutoFumen.Iterate | autofumen/autofumen.py:96-155 | the imperative body of the loop computes exactly Tick |
| AutoFumen.CaptureLoop | autofumen/autofumen.py:85-157 | the loop ends as RunTicks from the initial variables does, and it raises only on a piece index past the table |

## Left out

- game.h is not part of this model. The modifier masks (0x8, 0x10, 0x20, 0x40, 0x200, 0x400) and the base-mode values (0x0, 0x1, 0x2, 0x4, 0x80, 0x1000) are assumed. They are distinct single bits, and the base modes share no bit with a mask. The state codes and M-roll flags take the values autofumen/autofumen.py gives for the same game. GAME_STATE_HISTORY_LENGTH is taken to be 20.
- GameState.IsInPlayingState: takes the state as an unbounded integer. The C parameter is a `char`, so values beyond a char's range would be truncated first. The game's state codes all fit.
- GameState.IsLevelUp: `level - prevLevel` is unbounded here. In C it is an `int` subtraction that could overflow, which the game's levels never reach.
- The regression warning (the `printGameState` call at src/game.c:186) and `printGameState` itself (its ZF_LOGW at src/game.c:247) are logging only. They change no state.
- `game_create`, `game_destroy` and `game_terminate` are left out: allocation and freeing are not modelled. The `DISPLAYED_GRADE` table is data that this core does not use.
- The collaborators' bodies (inputhistory.c, sectiontable.c, gamehistory.c, `getPBTable`) are not part of this model; each collaborator is a log of the calls it receives. `updateSectionTable` receives the whole `game_t` and could change it. The model lets it set `currentSection` to any value, supplied as `levelUpSection`, and assumes it changes no other field.
- GameState.Game.FinishRun: `pushStateToGameHistory` is called unconditionally at src/game.c:234, even with a null game history. The model logs the call only for a present game history, since what the callee does with null is not visible.
- The `if (sectionTable)` at src/game.c:240 never fails in the model: the null dereference at line 231 comes first, so a section table is required on a run's last tick.
- `game_init` leaves `originalGameMode` uninitialised. The constructor leaves it arbitrary.
- The Python script:
  - `mmap` and `struct.unpack` become a `Sample` of unsigned values. Their 32-bit bound is not modelled.
  - The fumen library's field grid and line clears are abstracted: a frame's field records the sequence of locked pieces.
  - `fumen.make`, `print` and `pyperclip.copy` together become one `Report` per game.
  - `time.sleep` and the mrollFlags read that is commented out are left out.
- AutoFumen.CaptureLoop: the `while True` loop is modelled over a finite sequence of samples. On an IndexError it returns the variables from before the failing iteration, together with `crashed`.
- AutoFumen.CreditPhase: the `frame.next()` result at autofumen/autofumen.py:133 is discarded by the source, so the model does not compute it.
- AutoFumen.Clock: the source divides with `/`. For non-negative frame counts, `%02d` gives the same whole numbers under Python 2's floor division and Python 3's true division.
