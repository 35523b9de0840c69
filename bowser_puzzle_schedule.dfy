/**
 * The static schedule of the sliding Bowser puzzle in Lethal Lava Land
 * (src/game/behaviors/bowser_puzzle_piece.c): the fourteen `-1`-terminated
 * action lists, the spawn table, and what they do to the 4 x 4 board.
 *
 * The board is a grid of cells: a piece offset of -15, -5, 5 or 15 tenths of
 * a piece width is column (or row) 0, 1, 2 or 3. Cell (3, 0) holds the star
 * platform and cell (0, 0) starts empty:
 *
 *       .   1   2   *
 *       3   4   5   6
 *       7   8   9  10
 *      11  12  13  14
 *
 * Every action list is 26 actions long. All pieces step through their lists
 * in lockstep (each action lasts the same number of frames, see
 * BowserPuzzle.EntryTakes25Frames), so index k of every list is one step of
 * the whole board.
 */
module BowserPuzzleSchedule {

  /** BOWSER_PUZZLE_PIECE_ACT_*, in the order of the action-function table. */
  const Idle := 0
  const Left := 1
  const Right := 2
  const Up := 3
  const Down := 4
  /** The terminator of every action list. */
  const EndOfList := -1

  /** The number of actions in each list, before the terminator. */
  const ListLength := 26

  const PieceActions01: seq<int> :=
    [Idle, Left, Idle, Idle, Idle, Idle, Idle, Idle, Idle, Idle, Idle, Idle, Idle,
     Idle, Idle, Idle, Idle, Idle, Idle, Idle, Idle, Idle, Idle, Idle, Right, Idle, EndOfList]
  const PieceActions02: seq<int> :=
    [Idle, Idle, Left, Idle, Idle, Idle, Idle, Idle, Idle, Idle, Idle, Idle, Idle,
     Idle, Idle, Idle, Idle, Idle, Idle, Idle, Idle, Idle, Idle, Right, Idle, Idle, EndOfList]
  const PieceActions05: seq<int> :=
    [Idle, Idle, Idle, Up, Idle, Idle, Idle, Idle, Idle, Idle, Idle, Idle, Idle,
     Idle, Idle, Idle, Idle, Idle, Idle, Idle, Idle, Idle, Down, Idle, Idle, Idle, EndOfList]
  const PieceActions06: seq<int> :=
    [Idle, Idle, Idle, Idle, Left, Idle, Idle, Idle, Idle, Idle, Idle, Idle, Idle,
     Idle, Idle, Idle, Idle, Idle, Idle, Idle, Idle, Right, Idle, Idle, Idle, Idle, EndOfList]
  const PieceActions10: seq<int> :=
    [Idle, Idle, Idle, Idle, Idle, Up, Idle, Idle, Idle, Idle, Idle, Idle, Idle,
     Idle, Idle, Idle, Idle, Idle, Idle, Idle, Down, Idle, Idle, Idle, Idle, Idle, EndOfList]
  const PieceActions09: seq<int> :=
    [Idle, Idle, Idle, Idle, Idle, Idle, Right, Idle, Idle, Idle, Idle, Idle, Idle,
     Idle, Idle, Idle, Idle, Idle, Idle, Left, Idle, Idle, Idle, Idle, Idle, Idle, EndOfList]
  const PieceActions13: seq<int> :=
    [Idle, Idle, Idle, Idle, Idle, Idle, Idle, Up, Idle, Idle, Idle, Idle, Idle,
     Idle, Idle, Idle, Idle, Idle, Down, Idle, Idle, Idle, Idle, Idle, Idle, Idle, EndOfList]
  const PieceActions12: seq<int> :=
    [Idle, Idle, Idle, Idle, Idle, Idle, Idle, Idle, Right, Idle, Idle, Idle, Idle,
     Idle, Idle, Idle, Idle, Left, Idle, Idle, Idle, Idle, Idle, Idle, Idle, Idle, EndOfList]
  const PieceActions08: seq<int> :=
    [Idle, Idle, Idle, Idle, Idle, Idle, Idle, Idle, Idle, Down, Idle, Idle, Idle,
     Idle, Idle, Idle, Up, Idle, Idle, Idle, Idle, Idle, Idle, Idle, Idle, Idle, EndOfList]
  const PieceActions07: seq<int> :=
    [Idle, Idle, Idle, Idle, Idle, Idle, Idle, Idle, Idle, Idle, Right, Idle, Idle,
     Idle, Idle, Left, Idle, Idle, Idle, Idle, Idle, Idle, Idle, Idle, Idle, Idle, EndOfList]
  const PieceActions03: seq<int> :=
    [Idle, Idle, Idle, Idle, Idle, Idle, Idle, Idle, Idle, Idle, Idle, Down, Idle,
     Idle, Up, Idle, Idle, Idle, Idle, Idle, Idle, Idle, Idle, Idle, Idle, Idle, EndOfList]
  const PieceActions04: seq<int> :=
    [Idle, Idle, Idle, Idle, Idle, Idle, Idle, Idle, Idle, Idle, Idle, Idle, Left,
     Right, Idle, Idle, Idle, Idle, Idle, Idle, Idle, Idle, Idle, Idle, Idle, Idle, EndOfList]
  const PieceActions11: seq<int> :=
    [Idle, Idle, Idle, Idle, Idle, Idle, Idle, Idle, Idle, Idle, Idle, Idle, Idle,
     Idle, Idle, Idle, Idle, Idle, Idle, Idle, Idle, Idle, Idle, Idle, Idle, Idle, EndOfList]
  const PieceActions14: seq<int> :=
    [Idle, Idle, Idle, Idle, Idle, Idle, Idle, Idle, Idle, Idle, Idle, Idle, Idle,
     Idle, Idle, Idle, Idle, Idle, Idle, Idle, Idle, Idle, Idle, Idle, Idle, Idle, EndOfList]

  /** An entry of sBowserPuzzlePieces; `piece` is the N of MODEL_LLL_BOWSER_PIECE_N. */
  datatype PieceSpawn = PieceSpawn(piece: nat, xOffset: int, zOffset: int, initialAction: int, actionList: seq<int>)

  /** sBowserPuzzlePieces: piece N is entry N - 1. */
  const Pieces: seq<PieceSpawn> := [
    PieceSpawn(1, -5, -15, 1, PieceActions01),
    PieceSpawn(2, 5, -15, 0, PieceActions02),
    PieceSpawn(3, -15, -5, 0, PieceActions03),
    PieceSpawn(4, -5, -5, 0, PieceActions04),
    PieceSpawn(5, 5, -5, 0, PieceActions05),
    PieceSpawn(6, 15, -5, 0, PieceActions06),
    PieceSpawn(7, -15, 5, 0, PieceActions07),
    PieceSpawn(8, -5, 5, 0, PieceActions08),
    PieceSpawn(9, 5, 5, 0, PieceActions09),
    PieceSpawn(10, 15, 5, 0, PieceActions10),
    PieceSpawn(11, -15, 15, 0, PieceActions11),
    PieceSpawn(12, -5, 15, 0, PieceActions12),
    PieceSpawn(13, 5, 15, 0, PieceActions13),
    PieceSpawn(14, 15, 15, 0, PieceActions14)
  ]

  const NumPieces := 14

  predicate IsAction(a: int)
  {
    Idle <= a <= Down
  }

  /** 26 actions, then the terminator. */
  predicate WellFormedList(l: seq<int>)
  {
    |l| == ListLength + 1 && l[ListLength] == EndOfList &&
    forall k :: 0 <= k < ListLength ==> IsAction(l[k])
  }

  /** The directions that undo each other; IDLE undoes itself. */
  function Inverse(a: int): (r: int)
    ensures IsAction(a) ==> IsAction(r)
    ensures r == Idle <==> a == Idle
  {
    if a == Left then Right
    else if a == Right then Left
    else if a == Up then Down
    else if a == Down then Up
    else a
  }

  lemma InverseInvolution(a: int)
    ensures Inverse(Inverse(a)) == a
  {
  }

  // ---------------------------------------------------------------------
  // The schedule behind the tables
  // ---------------------------------------------------------------------

  /** One slide of one piece. */
  datatype Move = Move(piece: nat, dir: int)

  /** The forward pass: the movers, in the order 1, 2, 5, 6, 10, 9, 13, 12, 8, 7, 3, 4. */
  const ForwardOrder: seq<Move> := [
    Move(1, Left), Move(2, Left), Move(5, Up), Move(6, Left), Move(10, Up), Move(9, Right),
    Move(13, Up), Move(12, Right), Move(8, Down), Move(7, Right), Move(3, Down), Move(4, Left)
  ]

  /**
   * What piece `piece` does at list index k: index 1 + m performs the m-th
   * forward move, index 24 - m undoes it, and the first and last indices
   * are idle.
   */
  function ScheduledAction(piece: int, k: int): (a: int)
    ensures IsAction(a)
  {
    if 1 <= k <= 12 && ForwardOrder[k - 1].piece == piece then ForwardOrder[k - 1].dir
    else if 13 <= k <= 24 && ForwardOrder[24 - k].piece == piece then Inverse(ForwardOrder[24 - k].dir)
    else Idle
  }

  lemma Table01FollowsSchedule() ensures forall k :: 0 <= k < ListLength ==> PieceActions01[k] == ScheduledAction(1, k) {}
  lemma Table02FollowsSchedule() ensures forall k :: 0 <= k < ListLength ==> PieceActions02[k] == ScheduledAction(2, k) {}
  lemma Table03FollowsSchedule() ensures forall k :: 0 <= k < ListLength ==> PieceActions03[k] == ScheduledAction(3, k) {}
  lemma Table04FollowsSchedule() ensures forall k :: 0 <= k < ListLength ==> PieceActions04[k] == ScheduledAction(4, k) {}
  lemma Table05FollowsSchedule() ensures forall k :: 0 <= k < ListLength ==> PieceActions05[k] == ScheduledAction(5, k) {}
  lemma Table06FollowsSchedule() ensures forall k :: 0 <= k < ListLength ==> PieceActions06[k] == ScheduledAction(6, k) {}
  lemma Table07FollowsSchedule() ensures forall k :: 0 <= k < ListLength ==> PieceActions07[k] == ScheduledAction(7, k) {}
  lemma Table08FollowsSchedule() ensures forall k :: 0 <= k < ListLength ==> PieceActions08[k] == ScheduledAction(8, k) {}
  lemma Table09FollowsSchedule() ensures forall k :: 0 <= k < ListLength ==> PieceActions09[k] == ScheduledAction(9, k) {}
  lemma Table10FollowsSchedule() ensures forall k :: 0 <= k < ListLength ==> PieceActions10[k] == ScheduledAction(10, k) {}
  lemma Table11FollowsSchedule() ensures forall k :: 0 <= k < ListLength ==> PieceActions11[k] == ScheduledAction(11, k) {}
  lemma Table12FollowsSchedule() ensures forall k :: 0 <= k < ListLength ==> PieceActions12[k] == ScheduledAction(12, k) {}
  lemma Table13FollowsSchedule() ensures forall k :: 0 <= k < ListLength ==> PieceActions13[k] == ScheduledAction(13, k) {}
  lemma Table14FollowsSchedule() ensures forall k :: 0 <= k < ListLength ==> PieceActions14[k] == ScheduledAction(14, k) {}

  /**
   * Every list of sBowserPuzzlePieces is well formed, belongs to the piece
   * at its position, and holds exactly the schedule's actions.
   */
  lemma TableFollowsSchedule(i: int)
    requires 0 <= i < NumPieces
    ensures Pieces[i].piece == i + 1
    ensures WellFormedList(Pieces[i].actionList)
    ensures forall k :: 0 <= k < ListLength ==> Pieces[i].actionList[k] == ScheduledAction(i + 1, k)
  {
    if i == 0 { Table01FollowsSchedule(); }
    else if i == 1 { Table02FollowsSchedule(); }
    else if i == 2 { Table03FollowsSchedule(); }
    else if i == 3 { Table04FollowsSchedule(); }
    else if i == 4 { Table05FollowsSchedule(); }
    else if i == 5 { Table06FollowsSchedule(); }
    else if i == 6 { Table07FollowsSchedule(); }
    else if i == 7 { Table08FollowsSchedule(); }
    else if i == 8 { Table09FollowsSchedule(); }
    else if i == 9 { Table10FollowsSchedule(); }
    else if i == 10 { Table11FollowsSchedule(); }
    else if i == 11 { Table12FollowsSchedule(); }
    else if i == 12 { Table13FollowsSchedule(); }
    else { Table14FollowsSchedule(); }
  }

  /** Pieces 11 and 14 never move. */
  lemma CornerPiecesStayIdle(k: int)
    requires 0 <= k < ListLength
    ensures Pieces[10].actionList[k] == Idle && Pieces[13].actionList[k] == Idle
  {
    TableFollowsSchedule(10);
    TableFollowsSchedule(13);
  }

  /** At every list index at most one piece does something other than IDLE. */
  lemma AtMostOneMover(i: int, j: int, k: int)
    requires 0 <= i < NumPieces && 0 <= j < NumPieces && 0 <= k < ListLength
    requires Pieces[i].actionList[k] != Idle && Pieces[j].actionList[k] != Idle
    ensures i == j
  {
    TableFollowsSchedule(i);
    TableFollowsSchedule(j);
  }

  /** On index k of the forward pass, the mover is the k-th piece of ForwardOrder, sliding its way. */
  lemma ForwardMover(i: int, k: int)
    requires 0 <= i < NumPieces && 1 <= k <= 12
    ensures Pieces[i].actionList[k] != Idle <==> i + 1 == ForwardOrder[k - 1].piece
    ensures i + 1 == ForwardOrder[k - 1].piece ==> Pieces[i].actionList[k] == ForwardOrder[k - 1].dir
  {
    TableFollowsSchedule(i);
  }

  /** The back half of every list is the front half reversed with every direction inverted. */
  predicate Mirrored(l: seq<int>)
    requires |l| >= ListLength
  {
    forall k :: 0 <= k < ListLength ==> l[ListLength - 1 - k] == Inverse(l[k])
  }

  lemma ListMirrored(i: int)
    requires 0 <= i < NumPieces
    ensures Mirrored(Pieces[i].actionList)
  {
    TableFollowsSchedule(i);
    forall k | 0 <= k < ListLength
      ensures Pieces[i].actionList[ListLength - 1 - k] == Inverse(Pieces[i].actionList[k])
    {
      assert Pieces[i].actionList[ListLength - 1 - k] == ScheduledAction(i + 1, ListLength - 1 - k);
    }
  }

  // ---------------------------------------------------------------------
  // Counting: a mirrored list has as many LEFT as RIGHT and as many UP as DOWN
  // ---------------------------------------------------------------------

  /** The number of occurrences of action a in l[lo..hi). */
  function CountIn(l: seq<int>, a: int, lo: int, hi: int): nat
    requires 0 <= lo && hi <= |l|
    decreases hi - lo
  {
    if lo >= hi then 0 else (if l[lo] == a then 1 else 0) + CountIn(l, a, lo + 1, hi)
  }

  lemma {:induction false} CountInLast(l: seq<int>, a: int, lo: int, hi: int)
    requires 0 <= lo < hi <= |l|
    ensures CountIn(l, a, lo, hi) == CountIn(l, a, lo, hi - 1) + (if l[hi - 1] == a then 1 else 0)
    decreases hi - lo
  {
    if lo < hi - 1 {
      CountInLast(l, a, lo + 1, hi);
    }
  }

  /** The mirrored window l[k..26-k) holds as many a as Inverse(a). */
  lemma {:induction false} MirroredWindowBalanced(l: seq<int>, a: int, k: int)
    requires |l| >= ListLength && Mirrored(l) && IsAction(a)
    requires 0 <= k <= ListLength / 2
    ensures CountIn(l, a, k, ListLength - k) == CountIn(l, Inverse(a), k, ListLength - k)
    decreases ListLength / 2 - k
  {
    if k < ListLength / 2 {
      MirroredWindowBalanced(l, a, k + 1);
      CountInLast(l, a, k, ListLength - k);
      CountInLast(l, Inverse(a), k, ListLength - k);
      assert l[ListLength - 1 - k] == Inverse(l[k]);
    }
  }

  /** Each list slides a piece left as often as right and up as often as down. */
  lemma ListBalanced(i: int)
    requires 0 <= i < NumPieces
    ensures CountIn(Pieces[i].actionList, Left, 0, ListLength) == CountIn(Pieces[i].actionList, Right, 0, ListLength)
    ensures CountIn(Pieces[i].actionList, Up, 0, ListLength) == CountIn(Pieces[i].actionList, Down, 0, ListLength)
  {
    ListMirrored(i);
    MirroredWindowBalanced(Pieces[i].actionList, Left, 0);
    MirroredWindowBalanced(Pieces[i].actionList, Up, 0);
  }

  // ---------------------------------------------------------------------
  // The board
  // ---------------------------------------------------------------------

  datatype Cell = Cell(col: int, row: int)

  /** The cell of a spawn offset: -15, -5, 5, 15 tenths of a piece width are 0, 1, 2, 3. */
  function OffsetCell(xOffset: int, zOffset: int): Cell
  {
    Cell((xOffset + 15) / 10, (zOffset + 15) / 10)
  }

  /** Where each action takes a cell: LEFT/RIGHT change x, UP/DOWN change z (UP is towards -z). */
  function Shift(c: Cell, a: int): Cell
  {
    if a == Left then Cell(c.col - 1, c.row)
    else if a == Right then Cell(c.col + 1, c.row)
    else if a == Up then Cell(c.col, c.row - 1)
    else if a == Down then Cell(c.col, c.row + 1)
    else c
  }

  lemma ShiftInverse(c: Cell, a: int)
    ensures Shift(Shift(c, a), Inverse(a)) == c
  {
  }

  const StarCell := Cell(3, 0)
  const StartEmptyCell := Cell(0, 0)

  /** The fifteen cells pieces may occupy: the 4 x 4 grid without the star platform. */
  predicate InPlayArea(c: Cell)
  {
    0 <= c.col < 4 && 0 <= c.row < 4 && c != StarCell
  }

  /** The layout drawn next to sBowserPuzzlePieces: piece N starts in HomeCells[N - 1]. */
  const HomeCells: seq<Cell> := [
    Cell(1, 0), Cell(2, 0),
    Cell(0, 1), Cell(1, 1), Cell(2, 1), Cell(3, 1),
    Cell(0, 2), Cell(1, 2), Cell(2, 2), Cell(3, 2),
    Cell(0, 3), Cell(1, 3), Cell(2, 3), Cell(3, 3)
  ]

  /** The spawn offsets of sBowserPuzzlePieces put every piece in its cell of the drawn layout. */
  lemma SpawnOffsetsMatchLayout()
    ensures |Pieces| == NumPieces
    ensures forall i :: 0 <= i < NumPieces ==> OffsetCell(Pieces[i].xOffset, Pieces[i].zOffset) == HomeCells[i]
  {
  }

  /** All list index k actions at once: piece i shifts by its own action. */
  function StepAll(cells: seq<Cell>, k: int): (r: seq<Cell>)
    requires |cells| == NumPieces && 0 <= k < ListLength
    ensures |r| == NumPieces
  {
    ListLengths();
    seq(NumPieces, i requires 0 <= i < NumPieces => Shift(cells[i], Pieces[i].actionList[k]))
  }

  lemma ListLengths()
    ensures |Pieces| == NumPieces
    ensures forall i :: 0 <= i < NumPieces ==> |Pieces[i].actionList| == ListLength + 1
  {
  }

  /** Index k moves piece i by its own action and nothing else. */
  lemma BoardAfterStep(k: int, i: int)
    requires 0 <= k < ListLength && 0 <= i < NumPieces
    ensures |Pieces[i].actionList| == ListLength + 1
    ensures BoardAfter(k + 1)[i] == Shift(BoardAfter(k)[i], Pieces[i].actionList[k])
  {
    ListLengths();
  }

  /** The board after list indices 0 .. k-1 have been performed, starting from the spawn layout. */
  function BoardAfter(k: int): (r: seq<Cell>)
    requires 0 <= k <= ListLength
    ensures |r| == NumPieces
  {
    if k == 0 then HomeCells else StepAll(BoardAfter(k - 1), k - 1)
  }

  // ---------------------------------------------------------------------
  // The forward pass, one move at a time, with the empty cell tracked
  // ---------------------------------------------------------------------

  datatype Board = Board(cells: seq<Cell>, hole: Cell)

  function ApplyMove(b: Board, m: Move): (r: Board)
    requires |b.cells| == NumPieces && 1 <= m.piece <= NumPieces
    ensures |r.cells| == NumPieces
  {
    Board(b.cells[m.piece - 1 := Shift(b.cells[m.piece - 1], m.dir)], b.cells[m.piece - 1])
  }

  /** A move slides its piece into the empty cell. */
  predicate Legal(b: Board, m: Move)
    requires |b.cells| == NumPieces && 1 <= m.piece <= NumPieces
  {
    Shift(b.cells[m.piece - 1], m.dir) == b.hole
  }

  /** Every piece and the hole are on distinct cells of the play area. */
  predicate Valid(b: Board)
  {
    |b.cells| == NumPieces && InPlayArea(b.hole) &&
    (forall i :: 0 <= i < NumPieces ==> InPlayArea(b.cells[i]) && b.cells[i] != b.hole) &&
    (forall i, j :: 0 <= i < j < NumPieces ==> b.cells[i] != b.cells[j])
  }

  const Start := Board(HomeCells, StartEmptyCell)

  lemma StartValid()
    ensures Valid(Start)
  {
    HomeCellsNumbered();
    forall i, j | 0 <= i < j < NumPieces
      ensures HomeCells[i] != HomeCells[j]
    {
      assert HomeCells[i].col + 4 * HomeCells[i].row != HomeCells[j].col + 4 * HomeCells[j].row;
    }
  }

  /**
   * Reading the grid row by row from the empty corner (cell 0), the pieces
   * come in order, with the star platform (cell 3) between pieces 2 and 3.
   */
  lemma HomeCellsNumbered()
    ensures |HomeCells| == NumPieces
    ensures forall i :: 0 <= i < NumPieces ==> HomeCells[i].col + 4 * HomeCells[i].row == if i < 2 then i + 1 else i + 2
    ensures forall i :: 0 <= i < NumPieces ==> InPlayArea(HomeCells[i])
  {
  }

  lemma LegalMoveKeepsValid(b: Board, m: Move)
    requires Valid(b) && 1 <= m.piece <= NumPieces && Legal(b, m)
    ensures Valid(ApplyMove(b, m))
  {
  }

  /** The inverse move slides the piece straight back. */
  lemma UndoMove(b: Board, m: Move)
    requires |b.cells| == NumPieces && 1 <= m.piece <= NumPieces && Legal(b, m)
    ensures Legal(ApplyMove(b, m), Move(m.piece, Inverse(m.dir)))
    ensures ApplyMove(ApplyMove(b, m), Move(m.piece, Inverse(m.dir))) == b
  {
    ShiftInverse(b.cells[m.piece - 1], m.dir);
    assert ApplyMove(ApplyMove(b, m), Move(m.piece, Inverse(m.dir))).cells == b.cells;
  }

  /** The board after the first m forward moves. */
  function ForwardBoard(m: int): (r: Board)
    requires 0 <= m <= |ForwardOrder|
    ensures |r.cells| == NumPieces
  {
    if m == 0 then Start else ApplyMove(ForwardBoard(m - 1), ForwardOrder[m - 1])
  }

  /** No piece moves twice in the forward pass. */
  lemma ForwardMoversDistinct()
    ensures forall i, j :: 0 <= i < j < |ForwardOrder| ==> ForwardOrder[i].piece != ForwardOrder[j].piece
    ensures forall i :: 0 <= i < |ForwardOrder| ==> 1 <= ForwardOrder[i].piece <= NumPieces
  {
  }

  /** Each forward mover's home cell, shifted its way, is the home cell of the previous mover (or the starting hole). */
  lemma ForwardChain(m: int)
    requires 0 <= m < |ForwardOrder|
    ensures Shift(HomeCells[ForwardOrder[m].piece - 1], ForwardOrder[m].dir) ==
      if m == 0 then StartEmptyCell else HomeCells[ForwardOrder[m - 1].piece - 1]
  {
  }

  /** A piece that has not moved yet is still home, and the hole is where the last mover started. */
  lemma {:induction false} ForwardBoardShape(m: int)
    requires 0 <= m <= |ForwardOrder|
    ensures forall j :: m <= j < |ForwardOrder| ==>
      ForwardBoard(m).cells[ForwardOrder[j].piece - 1] == HomeCells[ForwardOrder[j].piece - 1]
    ensures ForwardBoard(m).hole == if m == 0 then StartEmptyCell else HomeCells[ForwardOrder[m - 1].piece - 1]
  {
    ForwardMoversDistinct();
    if m > 0 {
      ForwardBoardShape(m - 1);
    }
  }

  /** Each forward move slides its piece into the empty cell. */
  lemma ForwardMoveLegal(m: int)
    requires 0 <= m < |ForwardOrder|
    ensures 1 <= ForwardOrder[m].piece <= NumPieces
    ensures Legal(ForwardBoard(m), ForwardOrder[m])
  {
    ForwardMoversDistinct();
    ForwardBoardShape(m);
    ForwardChain(m);
  }

  /** Every board of the forward pass is valid. */
  lemma {:induction false} ForwardPassValid(m: int)
    requires 0 <= m <= |ForwardOrder|
    ensures Valid(ForwardBoard(m))
  {
    if m == 0 {
      StartValid();
    } else {
      ForwardPassValid(m - 1);
      ForwardMoveLegal(m - 1);
      LegalMoveKeepsValid(ForwardBoard(m - 1), ForwardOrder[m - 1]);
    }
  }

  // ---------------------------------------------------------------------
  // The lockstep tables perform the forward pass and then undo it
  // ---------------------------------------------------------------------

  /** The move list index k performs: forward move k - 1, or the undoing of forward move 24 - k. */
  function StepMove(k: int): (m: Move)
    requires 1 <= k <= 24
    ensures 1 <= m.piece <= NumPieces
  {
    ForwardMoversDistinct();
    if k <= 12 then ForwardOrder[k - 1] else Move(ForwardOrder[24 - k].piece, Inverse(ForwardOrder[24 - k].dir))
  }

  /** A piece that does something at index k is the piece StepMove(k) slides, going its way. */
  lemma ScheduledMover(i: int, k: int)
    requires 0 <= i < NumPieces && 0 <= k < ListLength && Pieces[i].actionList[k] != Idle
    ensures 1 <= k <= 24 && StepMove(k) == Move(i + 1, Pieces[i].actionList[k])
  {
    TableFollowsSchedule(i);
  }

  /** On index k the whole board performs StepMove(k). */
  lemma StepAllMoves(cells: seq<Cell>, k: int)
    requires |cells| == NumPieces && 1 <= k <= 24
    ensures StepAll(cells, k) == ApplyMove(Board(cells, StartEmptyCell), StepMove(k)).cells
  {
    ForwardMoversDistinct();
    var r := ApplyMove(Board(cells, StartEmptyCell), StepMove(k)).cells;
    forall i | 0 <= i < NumPieces
      ensures StepAll(cells, k)[i] == r[i]
    {
      TableFollowsSchedule(i);
    }
  }

  /** The first and the last index of every list are IDLE. */
  lemma StepAllIdle(cells: seq<Cell>, k: int)
    requires |cells| == NumPieces && (k == 0 || k == ListLength - 1)
    ensures StepAll(cells, k) == cells
  {
    forall i | 0 <= i < NumPieces
      ensures StepAll(cells, k)[i] == cells[i]
    {
      TableFollowsSchedule(i);
    }
  }

  /** How many forward moves the board shows after list indices 0 .. k-1. */
  function PassIndex(k: int): (m: int)
    requires 0 <= k <= ListLength
    ensures 0 <= m <= |ForwardOrder|
  {
    if k == 0 then 0
    else if k <= 13 then k - 1
    else if k <= 25 then 25 - k
    else 0
  }

  /** Performing StepMove(k) on the board after index k - 1 gives the board of the next pass index. */
  lemma StepMoveAdvancesPass(k: int)
    requires 1 <= k <= 24
    ensures ApplyMove(Board(ForwardBoard(PassIndex(k)).cells, StartEmptyCell), StepMove(k)).cells ==
      ForwardBoard(PassIndex(k + 1)).cells
  {
    if k > 12 {
      var m := 24 - k;
      ForwardMoveLegal(m);
      UndoMove(ForwardBoard(m), ForwardOrder[m]);
    }
  }

  /** The tables, run in lockstep, show the forward pass and then its undoing. */
  lemma {:induction false} BoardAfterFollowsForwardPass(k: int)
    requires 0 <= k <= ListLength
    ensures BoardAfter(k) == ForwardBoard(PassIndex(k)).cells
  {
    if k == 0 {
    } else if k == 1 || k == ListLength {
      BoardAfterFollowsForwardPass(k - 1);
      StepAllIdle(BoardAfter(k - 1), k - 1);
    } else {
      BoardAfterFollowsForwardPass(k - 1);
      StepAllMoves(BoardAfter(k - 1), k - 1);
      StepMoveAdvancesPass(k - 1);
    }
  }

  /** At no point of the lists do two pieces share a cell or leave the play area. */
  lemma PiecesNeverOverlap(k: int)
    requires 0 <= k <= ListLength
    ensures forall i :: 0 <= i < NumPieces ==> InPlayArea(BoardAfter(k)[i])
    ensures forall i, j :: 0 <= i < j < NumPieces ==> BoardAfter(k)[i] != BoardAfter(k)[j]
  {
    BoardAfterFollowsForwardPass(k);
    ForwardPassValid(PassIndex(k));
  }

  /** The move of index k is legal on the board the pass shows before it. */
  lemma StepMoveLegal(k: int)
    requires 1 <= k <= 24
    ensures Valid(ForwardBoard(PassIndex(k))) && Legal(ForwardBoard(PassIndex(k)), StepMove(k))
  {
    ForwardPassValid(PassIndex(k));
    if k <= 12 {
      ForwardMoveLegal(k - 1);
    } else {
      var m := 24 - k;
      ForwardMoveLegal(m);
      UndoMove(ForwardBoard(m), ForwardOrder[m]);
    }
  }

  /** A legal move on a valid board ends on a free cell of the play area. */
  lemma LegalMoveTargetFree(b: Board, m: Move)
    requires Valid(b) && 1 <= m.piece <= NumPieces && Legal(b, m)
    ensures InPlayArea(Shift(b.cells[m.piece - 1], m.dir))
    ensures forall j :: 0 <= j < NumPieces ==> b.cells[j] != Shift(b.cells[m.piece - 1], m.dir)
  {
  }

  /** Whenever a piece slides, it slides into a cell of the play area that no piece occupies. */
  lemma MoverSlidesIntoEmptyCell(k: int, i: int)
    requires 0 <= k < ListLength && 0 <= i < NumPieces
    requires Pieces[i].actionList[k] != Idle
    ensures InPlayArea(Shift(BoardAfter(k)[i], Pieces[i].actionList[k]))
    ensures forall j :: 0 <= j < NumPieces ==> BoardAfter(k)[j] != Shift(BoardAfter(k)[i], Pieces[i].actionList[k])
  {
    ScheduledMover(i, k);
    BoardAfterFollowsForwardPass(k);
    StepMoveLegal(k);
    LegalMoveTargetFree(ForwardBoard(PassIndex(k)), StepMove(k));
  }

  /** After the 26 actions every piece is home again: the puzzle loops. */
  lemma PuzzleReturnsHome()
    ensures BoardAfter(ListLength) == HomeCells
  {
    BoardAfterFollowsForwardPass(ListLength);
  }

  /** The second half of the cycle replays the first half's boards backwards. */
  lemma BoardsPalindromic(k: int)
    requires 0 <= k <= ListLength
    ensures BoardAfter(ListLength - k) == BoardAfter(k)
  {
    BoardAfterFollowsForwardPass(k);
    BoardAfterFollowsForwardPass(ListLength - k);
  }
}
