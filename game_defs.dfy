/**
 * The definitions of game.h that the tracker core uses: the snapshot record
 * read from the game once per tick, its state codes and M-roll flags, the
 * length of the locked-piece history and the tracker record `game_t`.
 *
 * game.h is not part of this model. The state codes and M-roll flags take
 * the values that autofumen/autofumen.py lists for the same game; the fields
 * of the snapshot are those that src/game.c reads.
 */
module GameDefs {

  /** A game mode word: a C `int`, so 32 bits in two's complement. */
  type Mode = bv32

  // Game-state codes (the `state` field of a snapshot).
  const TAP_NONE: int := 0
  const TAP_START: int := 1
  const TAP_ACTIVE: int := 2
  const TAP_LOCKING: int := 3
  const TAP_LINECLEAR: int := 4
  const TAP_ENTRY: int := 5
  const TAP_GAMEOVER: int := 7
  const TAP_IDLE: int := 10
  const TAP_FADING: int := 11
  const TAP_COMPLETION: int := 13
  const TAP_STARTUP: int := 71

  // M-roll condition flags (the `mrollFlags` field of a snapshot).
  const M_FAIL_1: int := 17
  const M_FAIL_2: int := 19
  const M_FAIL_END: int := 31
  const M_NEUTRAL: int := 48
  const M_PASS_1: int := 49
  const M_PASS_2: int := 51
  const M_SUCCESS: int := 127

  /** Capacity of the locked-piece ring buffer (GAME_STATE_HISTORY_LENGTH). */
  const GAME_STATE_HISTORY_LENGTH: nat := 20

  /** One snapshot of the game (`struct tap_state`). */
  datatype TapState = TapState(
    state: int,
    grade: int,
    level: int,
    timer: int,
    mrollFlags: int,
    gameMode: Mode)

  /**
   * The fields of `struct game_t`: the two latest snapshots, the mode latched
   * at the start of the run, the current section and the contents of the
   * locked-piece ring buffer, oldest first.
   */
  datatype Tracker = Tracker(
    curState: TapState,
    prevState: TapState,
    originalGameMode: Mode,
    currentSection: int,
    blockHistory: seq<TapState>)

  /** A snapshot cleared by `memset(..., 0, ...)`. */
  const ZERO_STATE: TapState := TapState(0, 0, 0, 0, 0, 0)
}
