/**
 * The capture loop of autofumen/autofumen.py: it samples the game's shared
 * memory once per iteration, keeps the current fumen frame up to date with
 * the falling piece, appends a frame whenever a piece locks (and once when the
 * credit roll begins), and at game over hands the whole frame list to the
 * fumen encoder and starts afresh.
 *
 * The shared-memory read is a `Sample`; the fumen library is modelled by
 * what the loop does with its frames; the encoder, the clipboard and the
 * console output are one `Report` per finished game.
 */
module AutoFumen {
  import opened Basics
  import opened GameDefs
  import GameState

  // ---- autofumen/autofumen.py:43-74: pure helpers ----------------------------

  /** TAP piece index (memory block 8) to fumen piece index. */
  const TAP_TO_FUMEN: seq<int> := [0, 0, 1, 4, 7, 6, 2, 3, 5]

  /** `TapToFumenMapping[i]`; a raw index past the table raises IndexError. */
  function FumenPiece(raw: nat): (r: Option<int>)
    ensures r.None? <==> raw >= |TAP_TO_FUMEN|
    ensures r.Some? ==> 0 <= r.value <= 7
    ensures r.Some? ==> (r.value == 0 <==> raw < 2)
  {
    if raw < |TAP_TO_FUMEN| then Some(TAP_TO_FUMEN[raw]) else None
  }

  /** The seven TAP pieces 2..8 (I Z S J L O T) name fumen pieces 1..7 ... */
  lemma PieceMappingInRange()
    ensures forall i | 2 <= i < |TAP_TO_FUMEN| :: 1 <= TAP_TO_FUMEN[i] <= 7
  {
  }

  /** ... no two of them the same ... */
  lemma PieceMappingInjective()
    ensures forall i, j | 2 <= i < j < |TAP_TO_FUMEN| :: TAP_TO_FUMEN[i] != TAP_TO_FUMEN[j]
  {
  }

  /** The inverse table: for each fumen piece 1..7, the TAP index naming it (index 0 unused). */
  const FUMEN_TO_TAP: seq<int> := [0, 2, 6, 7, 3, 8, 5, 4]

  /** ... and each fumen piece is reached: the two tables undo each other. */
  lemma PieceMappingOnto()
    ensures forall k | 1 <= k <= 7 :: 2 <= FUMEN_TO_TAP[k] < |TAP_TO_FUMEN| && TAP_TO_FUMEN[FUMEN_TO_TAP[k]] == k
    ensures forall i | 2 <= i < |TAP_TO_FUMEN| :: FUMEN_TO_TAP[TAP_TO_FUMEN[i]] == i
  {
  }

  /** `calculateFumenOffset`: how far to move TAP's (x, y) for a fumen piece and rotation. */
  function CalculateFumenOffset(block: int, rotation: int): (r: (int, int))
    ensures r == (1, 0) <==> block == 1 && (rotation == 1 || rotation == 3)
    ensures r == (0, -1) <==> (block == 6 || block == 2 || block == 5) && rotation == 2
    ensures r == (0, 0) || r == (1, 0) || r == (0, -1)
  {
    if block == 1 then
      (if rotation == 1 || rotation == 3 then (1, 0) else (0, 0))
    else if block == 6 then
      (if rotation == 2 then (0, -1) else (0, 0))
    else if block == 2 then
      (if rotation == 2 then (0, -1) else (0, 0))
    else if block == 5 then
      (if rotation == 2 then (0, -1) else (0, 0))
    else (0, 0)
  }

  /**
   * In TAP's own piece numbering: only the I piece on its side and the J, L
   * and T pieces upside down need a correction.
   */
  lemma OffsetByTapPiece(raw: nat, rotation: int)
    requires 2 <= raw < |TAP_TO_FUMEN|
    ensures CalculateFumenOffset(TAP_TO_FUMEN[raw], rotation) != (0, 0) <==>
            (raw == 2 && (rotation == 1 || rotation == 3)) ||
            ((raw == 5 || raw == 6 || raw == 8) && rotation == 2)
  {
    assert TAP_TO_FUMEN[raw] == [0, 0, 1, 4, 7, 6, 2, 3, 5][raw];
  }

  /** `inPlayingState`. */
  function InPlayingState(state: int): (r: bool)
    ensures !r <==> state == TAP_NONE || state == TAP_IDLE || state == TAP_STARTUP
  {
    state != TAP_NONE && state != TAP_IDLE && state != TAP_STARTUP
  }

  /** The script and the tracker agree on when a game is in progress. */
  lemma PlayingAgreesWithTracker(state: int)
    ensures InPlayingState(state) == GameState.IsInPlayingState(state)
  {
  }

  /** `testMasterConditions`, on the raw M-roll flags. */
  function TestMasterConditions(flags: int): (r: bool)
    ensures r <==> flags == 48 || flags == 49 || flags == 51 || flags == 127
    ensures flags == 17 || flags == 19 || flags == 31 ==> !r
  {
    flags == M_NEUTRAL || flags == M_PASS_1 || flags == M_PASS_2 || flags == M_SUCCESS
  }

  /** The script and the tracker agree on the M-roll conditions. */
  lemma MasterAgreesWithTracker(s: TapState)
    ensures TestMasterConditions(s.mrollFlags) == GameState.TestMasterConditions(s)
  {
  }

  /** autofumen/autofumen.py:115-116: an X past the field's right edge is the I piece's underflow. */
  function FixX(raw: nat): (r: int)
    ensures -1 <= r <= 10
    ensures r == -1 <==> raw > 10
    ensures raw <= 10 ==> r == raw
  {
    if raw > 10 then -1 else raw
  }

  /** `prevGametime / 60 / 60` and `prevGametime / 60 % 60`: whole minutes and seconds of a frame count. */
  function Clock(gametime: nat): (r: (nat, nat))
    ensures r.1 < 60
    ensures r.0 * 3600 + r.1 * 60 <= gametime < r.0 * 3600 + r.1 * 60 + 60
  {
    (gametime / 60 / 60, gametime / 60 % 60)
  }

  // ---- fumen frames ----------------------------------------------------------

  /** A fumen piece: kind, rotation and position. */
  datatype Piece = Piece(kind: int, rot: int, x: int, y: int)

  const NO_PIECE: Piece := Piece(0, 0, 0, 0)

  /** A fumen frame: the pieces already locked into its field, its current piece and whether that piece locks. */
  datatype Frame = Frame(field: seq<Piece>, piece: Piece, willlock: bool)

  /** `fumen.Frame()`. */
  const NEW_FRAME: Frame := Frame([], NO_PIECE, false)

  /** `frame.next()`: the following frame, whose field holds this frame's piece when it locks. */
  function Next(f: Frame): (r: Frame)
    ensures r.field == (if f.willlock then f.field + [f.piece] else f.field)
    ensures r.piece == NO_PIECE && !r.willlock
  {
    Frame(if f.willlock then f.field + [f.piece] else f.field, NO_PIECE, false)
  }

  // ---- autofumen/autofumen.py:80-157: the capture loop -----------------------

  /** The memory blocks one iteration reads (autofumen/autofumen.py:103-111), as unsigned values. */
  datatype Sample = Sample(state: nat, level: nat, gametime: nat, inCreditRoll: nat,
                           block: nat, x: nat, y: nat, rot: nat)

  /** What a finished game produces: its level, its clock and the frames given to `fumen.make`. */
  datatype Report = Report(level: int, minutes: nat, seconds: nat, frames: seq<Frame>)

  /** The loop's variables between iterations, and the reports printed so far. */
  datatype Capture = Capture(
    prevState: int, state: int,
    prevLevel: int, level: int,
    prevGametime: nat, gametime: nat,
    frameList: seq<Frame>, frame: Frame,
    creditReset: bool,
    reports: seq<Report>)

  /** autofumen/autofumen.py:85-92. */
  const INITIAL: Capture := Capture(0, 0, 0, 0, 0, 0, [], NEW_FRAME, false, [])

  /** A piece is locked in: stricter than the tracker's edge, it wants exactly Active then Locking. */
  predicate IsLock(prevState: int, state: int)
  {
    InPlayingState(state) && prevState == TAP_ACTIVE && state == TAP_LOCKING
  }

  /** The game is over: playing before, not playing now. */
  predicate IsGameOver(prevState: int, state: int)
  {
    InPlayingState(prevState) && !InPlayingState(state)
  }

  /** The credit roll begins while its field reset has not yet happened in this game. */
  predicate IsCreditStart(c: Capture, s: Sample)
  {
    !c.creditReset && s.inCreditRoll != 0
  }

  /** A lock edge of the script is one of the tracker's, never the other way round. */
  lemma LockIsStricterThanTracker(prev: TapState, cur: TapState)
    ensures IsLock(prev.state, cur.state) ==> GameState.IsLockEdge(prev, cur)
    ensures prev.state == TAP_ACTIVE && cur.state == TAP_ENTRY ==>
            GameState.IsLockEdge(prev, cur) && !IsLock(prev.state, cur.state)
  {
  }

  /** The frame that iteration reads into, with the sampled piece placed on it (autofumen/autofumen.py:113-126). */
  function Placed(f: Frame, block: int, s: Sample): (r: Frame)
    ensures r.field == f.field && r.willlock
    ensures r.piece.kind == block && r.piece.rot == s.rot
    ensures r.piece.x == FixX(s.x) + CalculateFumenOffset(block, s.rot).0
    ensures r.piece.y == s.y + CalculateFumenOffset(block, s.rot).1
  {
    var offset := CalculateFumenOffset(block, s.rot);
    f.(willlock := true, piece := Piece(block, s.rot, FixX(s.x) + offset.0, s.y + offset.1))
  }

  /** The credit-roll reset (autofumen/autofumen.py:131-135). */
  function CreditPhase(c: Capture, s: Sample): Capture
  {
    if IsCreditStart(c, s) then c.(frameList := c.frameList + [c.frame], frame := NEW_FRAME, creditReset := true)
    else c
  }

  /** The lock append (autofumen/autofumen.py:138-140). */
  function LockPhase(c: Capture): Capture
  {
    if IsLock(c.prevState, c.state) then c.(frameList := c.frameList + [c.frame], frame := Next(c.frame))
    else c
  }

  /** The game-over flush (autofumen/autofumen.py:143-155). */
  function GameOverPhase(c: Capture): Capture
  {
    if IsGameOver(c.prevState, c.state) then
      var frames := c.frameList + [c.frame];
      var clock := Clock(c.prevGametime);
      c.(frameList := [], frame := NEW_FRAME, creditReset := false,
         reports := c.reports + [Report(c.prevLevel, clock.0, clock.1, frames)])
    else c
  }

  /** One iteration of the loop; None when the piece index raises IndexError (autofumen/autofumen.py:108). */
  function Tick(c: Capture, s: Sample): (r: Option<Capture>)
    ensures r.None? <==> s.block >= |TAP_TO_FUMEN|
    ensures r.Some? ==> r.value.prevState == c.state && r.value.state == s.state
    ensures r.Some? ==> r.value.prevLevel == c.level && r.value.level == s.level
    ensures r.Some? ==> r.value.prevGametime == c.gametime && r.value.gametime == s.gametime
  {
    match FumenPiece(s.block)
    case None => None
    case Some(block) =>
      var rotated := c.(prevState := c.state, state := s.state, prevLevel := c.level, level := s.level,
                        prevGametime := c.gametime, gametime := s.gametime, frame := Placed(c.frame, block, s));
      Some(GameOverPhase(LockPhase(CreditPhase(rotated, s))))
  }

  /** How a sequence of iterations ends: the loop's variables, and whether it raised. */
  datatype Outcome = Outcome(capture: Capture, crashed: bool)

  /** The loop run over the samples in order; it stops at the first IndexError. */
  function RunTicks(c: Capture, ss: seq<Sample>): Outcome
    decreases |ss|
  {
    if ss == [] then Outcome(c, false)
    else match Tick(c, ss[0])
      case None => Outcome(c, true)
      case Some(c1) => RunTicks(c1, ss[1..])
  }

  // ---- what one iteration promises --------------------------------------------

  /** The frame of the iteration with sample `s`, before any append. */
  function PlacedFor(c: Capture, s: Sample): Frame
    requires s.block < |TAP_TO_FUMEN|
  {
    Placed(c.frame, TAP_TO_FUMEN[s.block], s)
  }

  /**
   * At game over one last frame goes into the list (after the credit-roll
   * frame if the roll begins on that very iteration), the list is reported
   * with the level and clock of the previous sample, and the loop starts
   * afresh.
   */
  lemma GameOverFlushes(c: Capture, s: Sample)
    requires s.block < |TAP_TO_FUMEN| && IsGameOver(c.state, s.state)
    ensures (var r := Tick(c, s).value;
            var p := PlacedFor(c, s);
            var frames := c.frameList + (if IsCreditStart(c, s) then [p, NEW_FRAME] else [p]);
            r.frameList == [] && r.frame == NEW_FRAME && !r.creditReset &&
            r.reports == c.reports + [Report(c.level, Clock(c.gametime).0, Clock(c.gametime).1, frames)])
  {
    var p := PlacedFor(c, s);
    if IsCreditStart(c, s) {
      assert c.frameList + [p] + [NEW_FRAME] == c.frameList + [p, NEW_FRAME];
    }
  }

  /** On a lock the placed frame is appended and the next frame's field holds its piece. */
  lemma LockAppendsFrame(c: Capture, s: Sample)
    requires s.block < |TAP_TO_FUMEN| && IsLock(c.state, s.state) && !IsCreditStart(c, s)
    ensures (var r := Tick(c, s).value;
            var p := PlacedFor(c, s);
            r.frameList == c.frameList + [p] && r.frame.field == c.frame.field + [p.piece] &&
            r.reports == c.reports && r.creditReset == c.creditReset)
  {
  }

  /**
   * When the credit roll begins, with no lock and no game over on the same
   * iteration, the placed frame is appended and the field starts afresh.
   */
  lemma CreditStartClearsField(c: Capture, s: Sample)
    requires s.block < |TAP_TO_FUMEN| && IsCreditStart(c, s)
    requires !IsLock(c.state, s.state) && !IsGameOver(c.state, s.state)
    ensures (var r := Tick(c, s).value;
             r.frameList == c.frameList + [PlacedFor(c, s)] && r.frame == NEW_FRAME &&
             r.creditReset && r.reports == c.reports)
  {
  }

  /**
   * When the credit roll begins on a lock, the placed frame and then the
   * blank frame of the fresh field are appended, and the next frame is blank.
   */
  lemma LockOnCreditStart(c: Capture, s: Sample)
    requires s.block < |TAP_TO_FUMEN| && IsCreditStart(c, s) && IsLock(c.state, s.state)
    ensures (var r := Tick(c, s).value;
             r.frameList == c.frameList + [PlacedFor(c, s), NEW_FRAME] && r.frame == NEW_FRAME &&
             r.creditReset && r.reports == c.reports)
  {
    assert c.frameList + [PlacedFor(c, s)] + [NEW_FRAME] == c.frameList + [PlacedFor(c, s), NEW_FRAME];
  }

  /** With no credit start, no lock and no game over, only the current piece moves. */
  lemma QuietIterationOnlyPlaces(c: Capture, s: Sample)
    requires s.block < |TAP_TO_FUMEN| && !IsCreditStart(c, s)
    requires !IsLock(c.state, s.state) && !IsGameOver(c.state, s.state)
    ensures (var r := Tick(c, s).value;
            r.frameList == c.frameList && r.frame == PlacedFor(c, s) &&
            r.reports == c.reports && r.creditReset == c.creditReset)
  {
  }

  /** The credit-roll latch: set on the first credit-roll sample of a game, cleared only at game over. */
  lemma CreditLatch(c: Capture, s: Sample)
    requires s.block < |TAP_TO_FUMEN|
    ensures Tick(c, s).value.creditReset <==>
            (c.creditReset || s.inCreditRoll != 0) && !IsGameOver(c.state, s.state)
  {
  }

  // ---- what the loop promises ---------------------------------------------------

  /** The game-over edges among the samples up to the first IndexError, starting after state `prev`. */
  function GameOvers(prev: int, ss: seq<Sample>): nat
    decreases |ss|
  {
    if ss == [] || ss[0].block >= |TAP_TO_FUMEN| then 0
    else (if IsGameOver(prev, ss[0].state) then 1 else 0) + GameOvers(ss[0].state, ss[1..])
  }

  /** The credit-roll field resets the loop performs over the samples. */
  function CreditResets(c: Capture, ss: seq<Sample>): nat
    decreases |ss|
  {
    if ss == [] then 0
    else match Tick(c, ss[0])
      case None => 0
      case Some(c1) => (if IsCreditStart(c, ss[0]) then 1 else 0) + CreditResets(c1, ss[1..])
  }

  /** One report is printed per game that ends. */
  lemma {:induction false} OneReportPerGame(c: Capture, ss: seq<Sample>)
    ensures |RunTicks(c, ss).capture.reports| == |c.reports| + GameOvers(c.state, ss)
    decreases |ss|
  {
    if ss != [] && ss[0].block < |TAP_TO_FUMEN| {
      var c1 := Tick(c, ss[0]).value;
      OneReportPerGame(c1, ss[1..]);
      if IsGameOver(c.state, ss[0].state) {
        GameOverFlushes(c, ss[0]);
      } else {
        assert |c1.reports| == |c.reports|;
      }
    }
  }

  /** Within one game the field is reset for the credit roll at most once. */
  lemma {:induction false} CreditResetAtMostOncePerGame(c: Capture, ss: seq<Sample>)
    requires GameOvers(c.state, ss) == 0
    ensures CreditResets(c, ss) <= (if c.creditReset then 0 else 1)
    decreases |ss|
  {
    if ss != [] && ss[0].block < |TAP_TO_FUMEN| {
      var c1 := Tick(c, ss[0]).value;
      CreditLatch(c, ss[0]);
      CreditResetAtMostOncePerGame(c1, ss[1..]);
    }
  }

  /**
   * One pass of the body of `main`'s loop (autofumen/autofumen.py:96-155)
   * on the loop's variables `c`, for a sample whose piece index is in range.
   */
  method Iterate(c: Capture, s: Sample) returns (r: Capture)
    requires s.block < |TAP_TO_FUMEN|
    ensures Tick(c, s) == Some(r)
  {
    var frameList, frame, creditReset, reports := c.frameList, c.frame, c.creditReset, c.reports;
    var prevState, prevLevel, prevGametime := c.state, c.level, c.gametime;
    var state, level, gametime := s.state, s.level, s.gametime;
    var currentBlock := TAP_TO_FUMEN[s.block];
    var currentX: int := s.x;
    if currentX > 10 {
      currentX := -1;
    }
    var offset := CalculateFumenOffset(currentBlock, s.rot);
    frame := frame.(willlock := true, piece := Piece(currentBlock, s.rot, currentX + offset.0, s.y + offset.1));
    ghost var placed := Capture(prevState, state, prevLevel, level, prevGametime, gametime,
                                frameList, frame, creditReset, reports);
    if !creditReset && s.inCreditRoll != 0 {
      frameList := frameList + [frame];
      frame := NEW_FRAME;
      creditReset := true;
    }
    ghost var credited := CreditPhase(placed, s);
    assert Capture(prevState, state, prevLevel, level, prevGametime, gametime,
                   frameList, frame, creditReset, reports) == credited;
    if InPlayingState(state) && prevState == TAP_ACTIVE && state == TAP_LOCKING {
      frameList := frameList + [frame];
      frame := Next(frame);
    }
    ghost var locked := LockPhase(credited);
    assert Capture(prevState, state, prevLevel, level, prevGametime, gametime,
                   frameList, frame, creditReset, reports) == locked;
    if InPlayingState(prevState) && !InPlayingState(state) {
      frameList := frameList + [frame];
      var clock := Clock(prevGametime);
      reports := reports + [Report(prevLevel, clock.0, clock.1, frameList)];
      frameList := [];
      frame := NEW_FRAME;
      creditReset := false;
    }
    r := Capture(prevState, state, prevLevel, level, prevGametime, gametime, frameList, frame, creditReset, reports);
  }

  /**
   * `main`'s loop over a finite run of samples; `crashed` says that it
   * raised, and `c` holds the loop's variables before the failing iteration.
   * The samples are what `unpack_mmap_block` returns, in order.
   */
  method CaptureLoop(samples: seq<Sample>) returns (c: Capture, crashed: bool)
    ensures Outcome(c, crashed) == RunTicks(INITIAL, samples)
    ensures !crashed ==> forall i | 0 <= i < |samples| :: samples[i].block < |TAP_TO_FUMEN|
  {
    c := INITIAL;
    var i := 0;
    while i < |samples|
      invariant 0 <= i <= |samples|
      invariant RunTicks(INITIAL, samples) == RunTicks(c, samples[i..])
      invariant forall k | 0 <= k < i :: samples[k].block < |TAP_TO_FUMEN|
    {
      var s := samples[i];
      assert samples[i..][0] == s && samples[i..][1..] == samples[i + 1..];
      if s.block >= |TAP_TO_FUMEN| {
        return c, true;
      }
      c := Iterate(c, s);
      i := i + 1;
    }
    return c, false;
  }
}
