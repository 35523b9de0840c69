/**
 * The Bowser puzzle of Lethal Lava Land (src/game/behaviors/bowser_puzzle_piece.c):
 * a parent object that spawns fourteen sliding pieces and waits for the
 * puzzle to be solved, and the pieces that step through their action lists.
 *
 * Each piece performs one list entry at a time. An entry starts when the
 * piece is not "continuing", runs its action function for 25 frames and
 * then clears "continuing" again. The parent's completion flags are written
 * by the pieces: MARIO_ON_PLATFORM when Mario stands on one,
 * PUZZLE_COMPLETE when a list wraps around.
 *
 * Object fields are floats in the source; every value they take here is an
 * integer (offsets of 0, -6 and multiples of 128, positions built from
 * multiples of 256), so they are modelled as `int`.
 */
module BowserPuzzle {

  import opened BowserPuzzleSchedule
  import opened ObjectTimer

  /** BOWSER_PUZZLE_ACT_*: the parent's actions. */
  const ActSpawnPieces := 0
  const ActWaitForComplete := 1
  const ActDone := 2

  /** oBowserPuzzleCompletionFlags, a 32-bit object field used as a bit set. */
  type Flags = bv32

  const FlagsNone: Flags := 0
  const FlagMarioOnPlatform: Flags := 1
  const FlagPuzzleComplete: Flags := 2
  const FlagsSolved: Flags := 3

  /** The width the parent passes when spawning the pieces. */
  const PieceWidth := 512
  /** The height above the parent at which a piece spawns. */
  const SpawnHeight := 50
  /** The parent spawns coins only while Mario is closer than this. */
  const CoinDistance: real := 1000.0
  const CoinsPerSolve := 5

  /** A move: shake for ShakeFrames frames, then slide MoveSpeed per frame for MoveDuration frames. */
  const ShakeFrames := 20
  const MoveSpeed := 128
  const MoveDuration := 4
  const ShakeDepth := -6
  /** IDLE waits until its timer reaches IdleFrames. */
  const IdleFrames := 24
  /** Every list entry, moving or idle, lasts this many frames. */
  const FramesPerAction := 25

  // ---------------------------------------------------------------------
  // A piece, as values
  // ---------------------------------------------------------------------

  /**
   * The fields of a piece that its behaviour reads and writes; `next` is
   * oBowserPuzzlePieceNextAction as an index into the piece's action list.
   */
  datatype PieceState = PieceState(clock: ActionClock, continuing: bool, next: int,
                                   offsetX: int, offsetY: int, offsetZ: int)

  predicate PieceInv(s: PieceState, list: seq<int>)
  {
    WellFormedList(list) && 0 <= s.next < ListLength && IsAction(s.clock.action) && 0 <= s.clock.timer <= TimerMax
  }

  /** The update ends the current entry: the next entry is the list's last one. */
  predicate WrapsList(s: PieceState, list: seq<int>)
  {
    !s.continuing && 0 <= s.next && s.next + 1 < |list| && list[s.next + 1] == EndOfList
  }

  /** The entry after entry i: the pointer goes back to the start at the terminator. */
  function NextIndex(i: int): int
  {
    if i == ListLength - 1 then 0 else i + 1
  }

  /**
   * bhv_lll_bowser_puzzle_piece_update, for the piece itself: when the
   * current entry is over, start the next one and advance the pointer,
   * going back to the start of the list at the terminator.
   */
  function PieceUpdate(s: PieceState, list: seq<int>): (t: PieceState)
    requires PieceInv(s, list)
    ensures PieceInv(t, list) && t.continuing
    ensures s.continuing ==> t == s
    ensures !s.continuing ==> t.clock == ActionClock(list[s.next], list[s.next], 0) && t.next == NextIndex(s.next)
    ensures t.offsetX == s.offsetX && t.offsetY == s.offsetY && t.offsetZ == s.offsetZ
  {
    if s.continuing then s
    else
      var next := if list[s.next + 1] == EndOfList then 0 else s.next + 1;
      s.(clock := ChangeAction(s.clock, list[s.next]), next := next, continuing := true)
  }

  /**
   * bhv_lll_bowser_puzzle_piece_update, for the parent's flags: Mario on the
   * piece overwrites them with MARIO_ON_PLATFORM (dropping a PUZZLE_COMPLETE
   * that was set), and a piece that wraps its list adds PUZZLE_COMPLETE.
   */
  function PieceFlags(flags: Flags, marioOnPiece: bool, wraps: bool): (r: Flags)
    ensures r & FlagPuzzleComplete != 0 <==> wraps || (!marioOnPiece && flags & FlagPuzzleComplete != 0)
    ensures r & !FlagPuzzleComplete == if marioOnPiece then FlagMarioOnPlatform else flags & !FlagPuzzleComplete
  {
    var f := if marioOnPiece then FlagMarioOnPlatform else flags;
    SetComplete(f);
    MarioBits();
    if wraps then f | FlagPuzzleComplete else f
  }

  /** Or-ing in PUZZLE_COMPLETE sets that bit and no other. */
  lemma SetComplete(f: Flags)
    ensures (f | FlagPuzzleComplete) & FlagPuzzleComplete != 0
    ensures (f | FlagPuzzleComplete) & !FlagPuzzleComplete == f & !FlagPuzzleComplete
  {
  }

  /** MARIO_ON_PLATFORM and PUZZLE_COMPLETE are different bits. */
  lemma MarioBits()
    ensures FlagMarioOnPlatform & FlagPuzzleComplete == 0
    ensures FlagMarioOnPlatform & !FlagPuzzleComplete == FlagMarioOnPlatform
  {
  }

  /** bhv_lll_bowser_puzzle_piece_idle. */
  function IdleAction(s: PieceState): (t: PieceState)
    ensures t.continuing <==> s.continuing && s.clock.timer < IdleFrames
    ensures t.(continuing := s.continuing) == s
  {
    if s.clock.timer >= IdleFrames then s.(continuing := false) else s
  }

  /**
   * bhv_lll_bowser_puzzle_piece_move: shake on the first 20 frames (down on
   * even ones; `timer & 1` is `timer % 2` for the never-negative timer),
   * slide on the next `duration` frames, then end the entry.
   */
  function MoveAction(s: PieceState, dx: int, dz: int, duration: int): (t: PieceState)
    ensures s.clock.timer < ShakeFrames ==>
      t == s.(offsetY := if s.clock.timer % 2 == 1 then 0 else ShakeDepth)
    ensures ShakeFrames <= s.clock.timer < duration + ShakeFrames ==>
      t == s.(offsetX := s.offsetX + dx, offsetZ := s.offsetZ + dz)
    ensures s.clock.timer >= ShakeFrames && s.clock.timer >= duration + ShakeFrames ==>
      t == s.(clock := s.clock.(action := Idle), continuing := false)
  {
    if s.clock.timer < ShakeFrames then
      s.(offsetY := if s.clock.timer % 2 == 1 then 0 else ShakeDepth)
    else if s.clock.timer < duration + ShakeFrames then
      s.(offsetX := s.offsetX + dx, offsetZ := s.offsetZ + dz)
    else
      s.(clock := s.clock.(action := Idle), continuing := false)
  }

  /** The x and z slide per frame of each action. */
  function DeltaX(a: int): int
  {
    if a == Left then -MoveSpeed else if a == Right then MoveSpeed else 0
  }

  function DeltaZ(a: int): int
  {
    if a == Up then -MoveSpeed else if a == Down then MoveSpeed else 0
  }

  predicate IsMove(a: int)
  {
    Left <= a <= Down
  }

  /** cur_obj_call_action_function over sBowserPuzzlePieceActions. */
  function ActionFunction(s: PieceState): (t: PieceState)
    requires IsAction(s.clock.action)
    ensures s.clock.action == Idle ==> t == IdleAction(s)
    ensures IsMove(s.clock.action) ==> t == MoveAction(s, DeltaX(s.clock.action), DeltaZ(s.clock.action), MoveDuration)
  {
    var a := s.clock.action;
    if a == Idle then IdleAction(s)
    else if a == Left then MoveAction(s, -MoveSpeed, 0, MoveDuration)
    else if a == Right then MoveAction(s, MoveSpeed, 0, MoveDuration)
    else if a == Up then MoveAction(s, 0, -MoveSpeed, MoveDuration)
    else MoveAction(s, 0, MoveSpeed, MoveDuration)
  }

  /** bhv_lll_bowser_puzzle_piece_loop, for the piece's own fields. */
  function PieceLoop(s: PieceState, list: seq<int>): (t: PieceState)
    requires PieceInv(s, list)
    ensures PieceInv(t, list)
    ensures t.next == if s.continuing then s.next else NextIndex(s.next)
    ensures !s.continuing ==>
      t.continuing && t.clock == ActionClock(list[s.next], list[s.next], 0)
  {
    ActionFunction(PieceUpdate(s, list))
  }

  /** One frame of a piece: its behaviour, then the engine's timer update. */
  function PieceFrame(s: PieceState, list: seq<int>): (t: PieceState)
    requires PieceInv(s, list)
    ensures PieceInv(t, list)
  {
    var u := PieceLoop(s, list);
    u.(clock := Tick(u.clock))
  }

  /** n applications of f. */
  function Iterate<T>(f: T -> T, x: T, n: nat): T
  {
    if n == 0 then x else f(Iterate(f, x, n - 1))
  }

  lemma {:induction false} IterateSplit<T>(f: T -> T, x: T, a: nat, b: nat)
    ensures Iterate(f, x, a + b) == Iterate(f, Iterate(f, x, a), b)
  {
    if b > 0 {
      IterateSplit(f, x, a, b - 1);
    }
  }

  /**
   * PieceFrame as a total function, so that frames can be iterated; a state
   * outside the invariant never occurs (PieceFramesKeepInv) and is left alone.
   */
  function FrameStep(list: seq<int>): PieceState -> PieceState
  {
    s => if PieceInv(s, list) then PieceFrame(s, list) else s
  }

  /** The piece after n frames. */
  function PieceFrames(s: PieceState, list: seq<int>, n: nat): PieceState
  {
    Iterate(FrameStep(list), s, n)
  }

  /** Frame n follows frame n - 1, and the invariant holds on every frame. */
  lemma {:induction false} PieceFramesKeepInv(s: PieceState, list: seq<int>, n: nat)
    requires PieceInv(s, list)
    ensures PieceInv(PieceFrames(s, list, n), list)
    ensures n > 0 ==> PieceFrames(s, list, n) == PieceFrame(PieceFrames(s, list, n - 1), list)
  {
    if n > 0 {
      PieceFramesKeepInv(s, list, n - 1);
    }
  }

  lemma PieceFramesSplit(s: PieceState, list: seq<int>, a: nat, b: nat)
    ensures PieceFrames(s, list, a + b) == PieceFrames(PieceFrames(s, list, a), list, b)
  {
    IterateSplit(FrameStep(list), s, a, b);
  }

  /** How many slide frames have happened after k frames of a move. */
  function MovedFrames(k: int): int
  {
    if k > ShakeFrames then k - ShakeFrames else 0
  }

  /** The x and z distance covered by n slide frames of action a. */
  function SlideX(a: int, n: int): int
  {
    if a == Left then -MoveSpeed * n else if a == Right then MoveSpeed * n else 0
  }

  function SlideZ(a: int, n: int): int
  {
    if a == Up then -MoveSpeed * n else if a == Down then MoveSpeed * n else 0
  }

  /** The vertical shake offset after k frames of a move. */
  function ShakeOffsetY(k: int): int
  {
    if k <= ShakeFrames && k % 2 == 1 then ShakeDepth else 0
  }

  /** A piece k frames (1..24) into the entry it started from state s. */
  function EntryState(s: PieceState, list: seq<int>, k: int): (t: PieceState)
    requires PieceInv(s, list) && 1 <= k <= IdleFrames
    ensures PieceInv(t, list)
  {
    var a := list[s.next];
    PieceState(ActionClock(a, a, k), true, NextIndex(s.next),
               s.offsetX + SlideX(a, MovedFrames(k)),
               if IsMove(a) then ShakeOffsetY(k) else s.offsetY,
               s.offsetZ + SlideZ(a, MovedFrames(k)))
  }

  /** The first frame of an entry starts it: timer 1, and a move has begun to shake. */
  lemma EntryFirstFrame(s: PieceState, list: seq<int>)
    requires PieceInv(s, list) && !s.continuing
    ensures PieceFrame(s, list) == EntryState(s, list, 1)
  {
  }

  /** Frame k + 1 of an entry: a shake frame, a slide frame, or an idle wait. */
  lemma EntryNextFrame(s: PieceState, list: seq<int>, k: int)
    requires PieceInv(s, list) && 1 <= k < IdleFrames
    ensures PieceFrame(EntryState(s, list, k), list) == EntryState(s, list, k + 1)
  {
    var u := EntryState(s, list, k);
    assert PieceUpdate(u, list) == u;
  }

  /** The first 24 frames of an entry: the timer counts them and the piece shakes, then slides. */
  lemma {:induction false} EntryProgress(s: PieceState, list: seq<int>, k: nat)
    requires PieceInv(s, list) && !s.continuing && 1 <= k <= IdleFrames
    ensures PieceFrames(s, list, k) == EntryState(s, list, k)
  {
    PieceFramesKeepInv(s, list, k);
    if k == 1 {
      EntryFirstFrame(s, list);
    } else {
      EntryProgress(s, list, k - 1);
      EntryNextFrame(s, list, k - 1);
    }
  }

  /**
   * Every entry, moving or idle, lasts exactly 25 frames: after the 25th
   * the piece is ready for the next entry, slid one piece width (4 x 128)
   * in the entry's direction and, after a move, back at its resting height.
   */
  lemma EntryTakes25Frames(s: PieceState, list: seq<int>)
    requires PieceInv(s, list) && !s.continuing
    ensures PieceInv(PieceFrames(s, list, FramesPerAction), list)
    ensures var t := PieceFrames(s, list, FramesPerAction);
      !t.continuing && t.next == NextIndex(s.next) &&
      t.offsetX == s.offsetX + MoveDuration * DeltaX(list[s.next]) &&
      t.offsetZ == s.offsetZ + MoveDuration * DeltaZ(list[s.next]) &&
      t.offsetY == if IsMove(list[s.next]) then 0 else s.offsetY
  {
    EntryProgress(s, list, IdleFrames);
    PieceFramesKeepInv(s, list, FramesPerAction);
    EntryLastFrame(s, list);
  }

  /** The 25th frame ends the entry. */
  lemma EntryLastFrame(s: PieceState, list: seq<int>)
    requires PieceInv(s, list)
    ensures var t := PieceFrame(EntryState(s, list, IdleFrames), list);
      !t.continuing && t.next == NextIndex(s.next) &&
      t.offsetX == s.offsetX + MoveDuration * DeltaX(list[s.next]) &&
      t.offsetZ == s.offsetZ + MoveDuration * DeltaZ(list[s.next]) &&
      t.offsetY == if IsMove(list[s.next]) then 0 else s.offsetY
  {
    var u := EntryState(s, list, IdleFrames);
    assert PieceUpdate(u, list) == u;
  }

  /** Before its 25th frame an entry is still being performed: nothing can start the next one early. */
  lemma EntryNotOverEarly(s: PieceState, list: seq<int>, k: nat)
    requires PieceInv(s, list) && !s.continuing && 1 <= k < FramesPerAction
    ensures PieceFrames(s, list, k).continuing && PieceFrames(s, list, k).clock.action == list[s.next]
  {
    EntryProgress(s, list, k);
  }

  /** The piece's fields right after spawning; object fields start at zero. */
  function SpawnState(initialAction: int): PieceState
  {
    PieceState(ActionClock(initialAction, 0, 0), false, 0, 0, 0, 0)
  }

  /** The initial action of sBowserPuzzlePieces is replaced on the first frame, before it runs. */
  lemma InitialActionNeverRuns(initialAction: int, list: seq<int>)
    requires PieceInv(SpawnState(initialAction), list)
    ensures PieceUpdate(SpawnState(initialAction), list).clock.action == list[0]
    ensures PieceFrame(SpawnState(initialAction), list).clock.action == list[0]
  {
  }

  /** A piece at the start of its list: about to pick its first entry, not yet moved. */
  predicate AtListStart(s: PieceState, list: seq<int>)
  {
    PieceInv(s, list) && !s.continuing && s.next == 0 && s.offsetX == 0 && s.offsetY == 0 && s.offsetZ == 0
  }

  /** Every 25 frames a piece starts its next entry; the pointer cycles through the 26 entries. */
  lemma {:induction false} EntryStarts(s0: PieceState, list: seq<int>, j: nat)
    requires AtListStart(s0, list)
    ensures var t := PieceFrames(s0, list, FramesPerAction * j);
      PieceInv(t, list) && !t.continuing && t.next == j % ListLength
  {
    if j > 0 {
      var s := PieceFrames(s0, list, FramesPerAction * (j - 1));
      assert PieceInv(s, list) && !s.continuing && s.next == (j - 1) % ListLength by {
        EntryStarts(s0, list, j - 1);
      }
      assert PieceFrames(s0, list, FramesPerAction * j) == PieceFrames(s, list, FramesPerAction) by {
        NextEntry(s0, list, j);
      }
      var t := PieceFrames(s, list, FramesPerAction);
      assert PieceInv(t, list) && !t.continuing && t.next == NextIndex((j - 1) % ListLength) by {
        EntryTakes25Frames(s, list);
      }
      NextListIndex(j);
    }
  }

  lemma NextListIndex(j: int)
    ensures NextIndex((j - 1) % ListLength) == j % ListLength
  {
  }

  /** Entry j ends 25 frames after entry j - 1 started. */
  lemma NextEntry(s0: PieceState, list: seq<int>, j: nat)
    requires AtListStart(s0, list) && j >= 1
    ensures PieceFrames(s0, list, FramesPerAction * j) ==
      PieceFrames(PieceFrames(s0, list, FramesPerAction * (j - 1)), list, FramesPerAction)
  {
    PieceFramesSplit(s0, list, FramesPerAction * (j - 1), FramesPerAction);
    assert FramesPerAction * (j - 1) + FramesPerAction == FramesPerAction * j;
  }

  /**
   * A piece raises PUZZLE_COMPLETE on one frame in every 650: the update
   * that starts the 26th entry, 625 frames into each cycle.
   */
  lemma CompleteRaisedOncePerCycle(s0: PieceState, list: seq<int>, n: nat)
    requires AtListStart(s0, list)
    ensures WrapsList(PieceFrames(s0, list, n), list) <==> n % (FramesPerAction * ListLength) == FramesPerAction * (ListLength - 1)
  {
    var j := n / FramesPerAction;
    var r := n % FramesPerAction;
    var s := PieceFrames(s0, list, FramesPerAction * j);
    assert PieceFrames(s0, list, n) == PieceFrames(s, list, r) by {
      PieceFramesSplit(s0, list, FramesPerAction * j, r);
    }
    assert PieceInv(s, list) && !s.continuing && s.next == j % ListLength by {
      EntryStarts(s0, list, j);
    }
    CyclePosition(n);
    if r > 0 {
      EntryNotOverEarly(s, list, r);
    } else {
      assert WrapsList(s, list) <==> s.next == ListLength - 1;
    }
  }

  /** Frame n of a piece's life is frame 25 ((n / 25) mod 26) + n mod 25 of its 650-frame cycle. */
  lemma CyclePosition(n: nat)
    ensures n % (FramesPerAction * ListLength) == FramesPerAction * ((n / FramesPerAction) % ListLength) + n % FramesPerAction
  {
    var j := n / FramesPerAction;
    var q := j / ListLength;
    assert n == 650 * q + 25 * (j % ListLength) + n % FramesPerAction;
  }

  /** The cells a piece passes through when it performs its list one entry at a time. */
  predicate FollowsList(path: seq<Cell>, list: seq<int>)
    requires |list| >= ListLength
  {
    |path| == ListLength + 1 && forall k :: 0 <= k < ListLength ==> path[k + 1] == Shift(path[k], list[k])
  }

  /** Four frames of 128 are one piece width: an entry moves a piece one cell. */
  lemma EntryMovesOneCell(c: Cell, a: int)
    ensures MoveDuration * DeltaX(a) == PieceWidth * (Shift(c, a).col - c.col)
    ensures MoveDuration * DeltaZ(a) == PieceWidth * (Shift(c, a).row - c.row)
  {
  }

  /** At the start of every entry a piece rests at its normal height: the last shake frame raises it back. */
  lemma {:induction false} NoShakeBetweenEntries(s0: PieceState, list: seq<int>, j: nat)
    requires AtListStart(s0, list)
    ensures PieceFrames(s0, list, FramesPerAction * j).offsetY == 0
  {
    if j > 0 {
      var s := PieceFrames(s0, list, FramesPerAction * (j - 1));
      assert PieceInv(s, list) && !s.continuing && s.offsetY == 0 by {
        EntryStarts(s0, list, j - 1);
        NoShakeBetweenEntries(s0, list, j - 1);
      }
      assert PieceFrames(s0, list, FramesPerAction * j) == PieceFrames(s, list, FramesPerAction) by {
        NextEntry(s0, list, j);
      }
      EntryTakes25Frames(s, list);
    }
  }

  /**
   * After j entries (25 j frames) a piece is offset from its home by exactly
   * the cells its list has taken it through, one piece width per cell.
   */
  lemma {:induction false} PieceFollowsPath(s0: PieceState, list: seq<int>, path: seq<Cell>, j: nat)
    requires AtListStart(s0, list) && FollowsList(path, list) && j <= ListLength
    ensures PieceFrames(s0, list, FramesPerAction * j).offsetX == PieceWidth * (path[j].col - path[0].col)
    ensures PieceFrames(s0, list, FramesPerAction * j).offsetZ == PieceWidth * (path[j].row - path[0].row)
  {
    if j > 0 {
      PieceFollowsPath(s0, list, path, j - 1);
      EntryOffsets(s0, list, j);
      assert path[j] == Shift(path[j - 1], list[j - 1]);
      EntryMovesOneCell(path[j - 1], list[j - 1]);
    }
  }

  /** Entry j - 1 (of the first 26) slides the piece by its action, four frames of 128. */
  lemma EntryOffsets(s0: PieceState, list: seq<int>, j: nat)
    requires AtListStart(s0, list) && 1 <= j <= ListLength
    ensures var s := PieceFrames(s0, list, FramesPerAction * (j - 1));
      var t := PieceFrames(s0, list, FramesPerAction * j);
      t.offsetX == s.offsetX + MoveDuration * DeltaX(list[j - 1]) &&
      t.offsetZ == s.offsetZ + MoveDuration * DeltaZ(list[j - 1])
  {
    var s := PieceFrames(s0, list, FramesPerAction * (j - 1));
    assert PieceInv(s, list) && !s.continuing && s.next == j - 1 by {
      EntryStarts(s0, list, j - 1);
    }
    var t := PieceFrames(s, list, FramesPerAction);
    assert PieceFrames(s0, list, FramesPerAction * j) == t by {
      NextEntry(s0, list, j);
    }
    assert t.offsetX == s.offsetX + MoveDuration * DeltaX(list[s.next]) &&
           t.offsetZ == s.offsetZ + MoveDuration * DeltaZ(list[s.next]) by {
      EntryTakes25Frames(s, list);
    }
  }

  /** The cells piece i occupies on the lockstep board, entry by entry. */
  function BoardPath(i: int): (path: seq<Cell>)
    requires 0 <= i < NumPieces
    ensures |path| == ListLength + 1 && path[0] == HomeCells[i]
  {
    seq(ListLength + 1, j requires 0 <= j <= ListLength => BoardAfter(j)[i])
  }

  lemma BoardPathFollowsList(i: int)
    requires 0 <= i < NumPieces
    ensures |Pieces[i].actionList| >= ListLength && FollowsList(BoardPath(i), Pieces[i].actionList)
  {
    ListLengths();
    forall k | 0 <= k < ListLength
      ensures BoardPath(i)[k + 1] == Shift(BoardPath(i)[k], Pieces[i].actionList[k])
    {
      BoardAfterStep(k, i);
    }
  }

  /** Every entry of sBowserPuzzlePieces spawns a piece at the start of a well-formed list. */
  lemma SpawnAtListStart(i: int)
    requires 0 <= i < NumPieces
    ensures AtListStart(SpawnState(Pieces[i].initialAction), Pieces[i].actionList)
  {
    TableFollowsSchedule(i);
  }

  /**
   * Each spawned piece stands, 25 j frames after spawning, exactly where
   * the lockstep board puts it after j entries; after 650 frames it is back
   * home, with its pointer at the start of its list.
   */
  lemma PieceTracksBoard(i: int, j: nat)
    requires 0 <= i < NumPieces && j <= ListLength
    ensures var t := PieceFrames(SpawnState(Pieces[i].initialAction), Pieces[i].actionList, FramesPerAction * j);
      t.offsetX == PieceWidth * (BoardAfter(j)[i].col - HomeCells[i].col) &&
      t.offsetZ == PieceWidth * (BoardAfter(j)[i].row - HomeCells[i].row)
  {
    SpawnAtListStart(i);
    BoardPathFollowsList(i);
    PieceFollowsPath(SpawnState(Pieces[i].initialAction), Pieces[i].actionList, BoardPath(i), j);
  }

  lemma PieceReturnsHome(i: int)
    requires 0 <= i < NumPieces
    ensures var t := PieceFrames(SpawnState(Pieces[i].initialAction), Pieces[i].actionList, FramesPerAction * ListLength);
      t.offsetX == 0 && t.offsetY == 0 && t.offsetZ == 0 && t.next == 0 && !t.continuing
  {
    var s0 := SpawnState(Pieces[i].initialAction);
    SpawnAtListStart(i);
    BoardPathFollowsList(i);
    PieceFollowsPath(s0, Pieces[i].actionList, BoardPath(i), ListLength);
    NoShakeBetweenEntries(s0, Pieces[i].actionList, ListLength);
    EntryStarts(s0, Pieces[i].actionList, ListLength);
    PuzzleReturnsHome();
  }

  // ---------------------------------------------------------------------
  // The parent, as values
  // ---------------------------------------------------------------------

  datatype ParentState = ParentState(action: int, flags: Flags, coins: nat)

  /**
   * bhv_lll_bowser_puzzle_loop: spawn the pieces once, then wait for both
   * completion flags with Mario close by, spawn five coins and stop.
   */
  function ParentLoop(p: ParentState, distanceToMario: real): (q: ParentState)
    ensures q.coins != p.coins <==>
      p.action == ActWaitForComplete && p.flags == FlagsSolved && distanceToMario < CoinDistance
    ensures q.coins != p.coins ==> q == ParentState(ActDone, FlagsNone, p.coins + CoinsPerSolve)
    ensures p.action == ActSpawnPieces ==> q == p.(action := ActWaitForComplete)
    ensures p.action == ActWaitForComplete && !(p.flags == FlagsSolved && distanceToMario < CoinDistance) ==> q == p
    ensures p.action != ActSpawnPieces && p.action != ActWaitForComplete ==> q == p
  {
    if p.action == ActSpawnPieces then p.(action := ActWaitForComplete)
    else if p.action == ActWaitForComplete then
      if p.flags == FlagsSolved && distanceToMario < CoinDistance then
        ParentState(ActDone, FlagsNone, p.coins + CoinsPerSolve)
      else p
    else p
  }

  /** One frame of the parent as seen from outside: the pieces leave some flags, then the parent runs. */
  datatype ParentInput = ParentInput(flags: Flags, distanceToMario: real)

  function ParentRun(p: ParentState, inputs: seq<ParentInput>): ParentState
    decreases |inputs|
  {
    if |inputs| == 0 then p
    else ParentRun(ParentLoop(p.(flags := inputs[0].flags), inputs[0].distanceToMario), inputs[1..])
  }

  /** Coins have been spawned exactly when the parent is DONE, and then there are five. */
  predicate CoinsInv(p: ParentState)
  {
    (p.action == ActDone && p.coins == CoinsPerSolve) ||
    ((p.action == ActSpawnPieces || p.action == ActWaitForComplete) && p.coins == 0)
  }

  /** Whatever the pieces write into the flags, the parent spawns its five coins at most once. */
  lemma {:induction false} CoinsSpawnAtMostOnce(p: ParentState, inputs: seq<ParentInput>)
    requires CoinsInv(p)
    ensures CoinsInv(ParentRun(p, inputs))
    ensures ParentRun(p, inputs).coins <= CoinsPerSolve
    decreases |inputs|
  {
    if |inputs| > 0 {
      CoinsSpawnAtMostOnce(ParentLoop(p.(flags := inputs[0].flags), inputs[0].distanceToMario), inputs[1..]);
    }
  }

  /** Once the parent has left SPAWN_PIECES it never returns there: the pieces are spawned only once. */
  lemma {:induction false} PiecesSpawnOnce(p: ParentState, inputs: seq<ParentInput>)
    requires p.action != ActSpawnPieces
    ensures ParentRun(p, inputs).action != ActSpawnPieces
    decreases |inputs|
  {
    if |inputs| > 0 {
      PiecesSpawnOnce(ParentLoop(p.(flags := inputs[0].flags), inputs[0].distanceToMario), inputs[1..]);
    }
  }

  /**
   * The flags only read "solved" in a frame where some piece wraps its list
   * after Mario's flag has been written: a MARIO_ON_PLATFORM written after
   * PUZZLE_COMPLETE erases it.
   */
  lemma MarioFlagErasesCompletion(flags: Flags)
    ensures PieceFlags(flags, true, false) == FlagMarioOnPlatform
  {
  }

  /** Mario on a piece whose list wraps in this frame leaves the flags reading "solved". */
  lemma MarioOnWrappingPieceSolves(flags: Flags)
    ensures PieceFlags(flags, true, true) == FlagsSolved
  {
  }

  /** The spawn offsets, scaled by 512 / 10, are whole numbers: the float arithmetic is exact. */
  lemma SpawnOffsetsExact(i: int)
    requires 0 <= i < NumPieces
    ensures (Pieces[i].xOffset * PieceWidth) % 10 == 0 && (Pieces[i].zOffset * PieceWidth) % 10 == 0
    ensures (Pieces[i].xOffset * PieceWidth / 10) % 256 == 0 && (Pieces[i].zOffset * PieceWidth / 10) % 256 == 0
  {
  }

  // ---------------------------------------------------------------------
  // The objects
  // ---------------------------------------------------------------------

  /** The puzzle object (bhvLllBowserPuzzle). */
  class Puzzle {
    var action: int
    var completionFlags: Flags
    /** The number of coins spawned so far. */
    var coinsSpawned: nat
    /** The pieces spawned, in sBowserPuzzlePieces order. */
    var pieces: seq<Piece>
    const posX: int
    const posY: int
    const posZ: int

    constructor (x: int, y: int, z: int)
      ensures action == ActSpawnPieces && completionFlags == FlagsNone && coinsSpawned == 0 && pieces == []
      ensures posX == x && posY == y && posZ == z
    {
      action := ActSpawnPieces;
      completionFlags := FlagsNone;
      coinsSpawned := 0;
      pieces := [];
      posX, posY, posZ := x, y, z;
    }

    function State(): ParentState
      reads this
    {
      ParentState(action, completionFlags, coinsSpawned)
    }

    /** Piece k was spawned by this puzzle from entry k of sBowserPuzzlePieces. */
    predicate SpawnedFrom(piece: Piece, k: int)
      requires 0 <= k < NumPieces
      reads piece
    {
      piece.parent == this && piece.actionList == Pieces[k].actionList &&
      piece.State() == SpawnState(Pieces[k].initialAction) &&
      piece.posX == posX + Pieces[k].xOffset * PieceWidth / 10 &&
      piece.posY == posY + SpawnHeight &&
      piece.posZ == posZ + Pieces[k].zOffset * PieceWidth / 10 &&
      piece.homeX == piece.posX && piece.homeY == piece.posY && piece.homeZ == piece.posZ
    }

    /** bhv_lll_bowser_puzzle_spawn_pieces(512): the fourteen pieces, then WAIT_FOR_COMPLETE. */
    method SpawnPieces()
      modifies this
      ensures action == ActWaitForComplete
      ensures completionFlags == old(completionFlags) && coinsSpawned == old(coinsSpawned)
      ensures |pieces| == NumPieces
      ensures forall k :: 0 <= k < NumPieces ==> fresh(pieces[k]) && SpawnedFrom(pieces[k], k)
    {
      var spawned: seq<Piece> := [];
      for i := 0 to NumPieces
        invariant |spawned| == i
        invariant action == old(action) && completionFlags == old(completionFlags) && coinsSpawned == old(coinsSpawned)
        invariant forall k :: 0 <= k < i ==> fresh(spawned[k]) && SpawnedFrom(spawned[k], k)
      {
        var spawn := Pieces[i];
        var piece := new Piece(this, spawn.initialAction, spawn.actionList,
                               posX + spawn.xOffset * PieceWidth / 10, posY + SpawnHeight,
                               posZ + spawn.zOffset * PieceWidth / 10);
        spawned := spawned + [piece];
      }
      pieces := spawned;
      action := ActWaitForComplete;
    }

    /** bhv_lll_bowser_puzzle_loop. */
    method Loop(distanceToMario: real)
      modifies this
      ensures State() == ParentLoop(old(State()), distanceToMario)
      ensures old(action) == ActSpawnPieces ==>
        |pieces| == NumPieces && forall k :: 0 <= k < NumPieces ==> fresh(pieces[k]) && SpawnedFrom(pieces[k], k)
      ensures old(action) != ActSpawnPieces ==> pieces == old(pieces)
    {
      if action == ActSpawnPieces {
        SpawnPieces();
      } else if action == ActWaitForComplete {
        if completionFlags == FlagsSolved && distanceToMario < CoinDistance {
          var i := 0;
          while i < CoinsPerSolve
            invariant 0 <= i <= CoinsPerSolve
            invariant coinsSpawned == old(coinsSpawned) + i
            invariant action == old(action) && completionFlags == old(completionFlags) && pieces == old(pieces)
          {
            coinsSpawned := coinsSpawned + 1;
            i := i + 1;
          }
          completionFlags := FlagsNone;
          action := ActDone;
        }
      }
    }
  }

  /** A puzzle piece (bhvLllBowserPuzzlePiece). */
  class Piece {
    const parent: Puzzle
    const actionList: seq<int>
    /** oHomeVec: where the piece was spawned. */
    const homeX: int
    const homeY: int
    const homeZ: int
    var action: int
    var prevAction: int
    var timer: int
    var continuing: bool
    var next: int
    var offsetX: int
    var offsetY: int
    var offsetZ: int
    var posX: int
    var posY: int
    var posZ: int

    /** bhv_lll_bowser_puzzle_spawn_piece: the new object with its list, its action and its position. */
    constructor (parent: Puzzle, initialAction: int, actionList: seq<int>, x: int, y: int, z: int)
      ensures this.parent == parent && this.actionList == actionList
      ensures State() == SpawnState(initialAction)
      ensures posX == x && posY == y && posZ == z && homeX == x && homeY == y && homeZ == z
    {
      this.parent := parent;
      this.actionList := actionList;
      homeX, homeY, homeZ := x, y, z;
      action, prevAction, timer := initialAction, 0, 0;
      continuing := false;
      next := 0;
      offsetX, offsetY, offsetZ := 0, 0, 0;
      posX, posY, posZ := x, y, z;
    }

    function State(): PieceState
      reads this
    {
      PieceState(ActionClock(action, prevAction, timer), continuing, next, offsetX, offsetY, offsetZ)
    }

    predicate Valid()
      reads this
    {
      PieceInv(State(), actionList)
    }

    /** bhv_lll_bowser_puzzle_piece_update. */
    method Update(marioOnPiece: bool)
      requires Valid()
      modifies this, parent
      ensures State() == PieceUpdate(old(State()), actionList)
      ensures parent.completionFlags == PieceFlags(old(parent.completionFlags), marioOnPiece, WrapsList(old(State()), actionList))
      ensures parent.action == old(parent.action) && parent.coinsSpawned == old(parent.coinsSpawned)
      ensures parent.pieces == old(parent.pieces)
      ensures posX == old(posX) && posY == old(posY) && posZ == old(posZ)
    {
      if marioOnPiece {
        parent.completionFlags := FlagMarioOnPlatform;
      }
      if !continuing {
        var nextAction := actionList[next];
        action, prevAction, timer := nextAction, nextAction, 0;
        next := next + 1;
        if actionList[next] == EndOfList {
          parent.completionFlags := parent.completionFlags | FlagPuzzleComplete;
          next := 0;
        }
        continuing := true;
      }
    }

    /** bhv_lll_bowser_puzzle_piece_idle. */
    method RunIdle()
      modifies this
      ensures State() == IdleAction(old(State()))
      ensures posX == old(posX) && posY == old(posY) && posZ == old(posZ)
    {
      if timer >= IdleFrames {
        continuing := false;
      }
    }

    /** bhv_lll_bowser_puzzle_piece_move. */
    method RunMove(dx: int, dz: int, duration: int)
      modifies this
      ensures State() == MoveAction(old(State()), dx, dz, duration)
      ensures posX == old(posX) && posY == old(posY) && posZ == old(posZ)
    {
      if timer < ShakeFrames {
        offsetY := if timer % 2 == 1 then 0 else ShakeDepth;
      } else {
        if timer < duration + ShakeFrames {
          offsetX := offsetX + dx;
          offsetZ := offsetZ + dz;
        } else {
          action := Idle;
          continuing := false;
        }
      }
    }

    /** cur_obj_call_action_function(sBowserPuzzlePieceActions). */
    method CallActionFunction()
      requires IsAction(action)
      modifies this
      ensures State() == ActionFunction(old(State()))
      ensures posX == old(posX) && posY == old(posY) && posZ == old(posZ)
    {
      if action == Idle {
        RunIdle();
      } else if action == Left {
        RunMove(-MoveSpeed, 0, MoveDuration);
      } else if action == Right {
        RunMove(MoveSpeed, 0, MoveDuration);
      } else if action == Up {
        RunMove(0, -MoveSpeed, MoveDuration);
      } else {
        RunMove(0, MoveSpeed, MoveDuration);
      }
    }

    /** bhv_lll_bowser_puzzle_piece_loop: update, act, then stand at home plus the offset. */
    method Loop(marioOnPiece: bool)
      requires Valid()
      modifies this, parent
      ensures State() == PieceLoop(old(State()), actionList)
      ensures parent.completionFlags == PieceFlags(old(parent.completionFlags), marioOnPiece, WrapsList(old(State()), actionList))
      ensures parent.action == old(parent.action) && parent.coinsSpawned == old(parent.coinsSpawned)
      ensures parent.pieces == old(parent.pieces)
      ensures Valid()
      ensures posX == homeX + offsetX && posY == homeY + offsetY && posZ == homeZ + offsetZ
    {
      Update(marioOnPiece);
      CallActionFunction();
      posX, posY, posZ := homeX + offsetX, homeY + offsetY, homeZ + offsetZ;
    }

    /** The engine's timer update after the behaviour. */
    method Tick()
      modifies this
      ensures State() == old(State()).(clock := ObjectTimer.Tick(old(State()).clock))
      ensures old(Valid()) ==> Valid()
      ensures posX == old(posX) && posY == old(posY) && posZ == old(posZ)
    {
      if timer < TimerMax {
        timer := timer + 1;
      }
      if action != prevAction {
        timer := 0;
        prevAction := action;
      }
    }
  }
}
