/**
 * What the single-board generators (module SingleBoardMoves) produce, stated in files and rows:
 * every move stays on the board and lands on an empty tile or captures an enemy, knights and
 * kings never wrap round an edge, queens and kings move diagonally only, rays end at the first
 * occupied tile, a king's whole scan ends there, and pawns follow the pawn rules.
 */
module SingleBoardRules {
  import opened Coordinates
  import P = Pieces
  import MoveRules
  import opened SingleBoardMoves

  /**
   * A move a piece may make on a board: it is that piece's, its destination is a tile of the
   * board, a MajorMove or PawnMove goes to an empty tile and an AttackMove to a tile holding the
   * enemy piece it carries.
   */
  predicate Sound(board: seq<Tile>, piece: Piece, m: Move)
    requires ValidTiles(board)
  {
    m.piece == piece && ValidCoordinate(m.destination) &&
    (m.AttackMove? ==> board[m.destination] == OccupiedTile(m.attackedPiece) && m.attackedPiece.color != piece.color) &&
    (!m.AttackMove? ==> board[m.destination].EmptyTile?)
  }

  /** Every move of the scan comes from one of its offsets. */
  lemma {:induction false} ScanFromOffset(board: seq<Tile>, piece: Piece, offsets: seq<int>, m: Move)
    requires ValidTiles(board) && ValidCoordinate(piece.position)
    requires forall i :: 0 <= i < |offsets| ==> offsets[i] != 0
    requires m in Scan(board, piece, offsets)
    ensures exists i :: 0 <= i < |offsets| && m in OffsetMoves(board, piece, offsets[i])
    decreases |offsets|
  {
    if m !in OffsetMoves(board, piece, offsets[0]) {
      ScanFromOffset(board, piece, offsets[1..], m);
      var i :| 0 <= i < |offsets[1..]| && m in OffsetMoves(board, piece, offsets[1..][i]);
      assert offsets[1..][i] == offsets[i + 1];
    }
  }

  /** Without a king's break, the scan holds every move of every offset. */
  lemma {:induction false} ScanOfNonKing(board: seq<Tile>, piece: Piece, offsets: seq<int>, i: int, m: Move)
    requires ValidTiles(board) && ValidCoordinate(piece.position) && !piece.kind.King?
    requires forall j :: 0 <= j < |offsets| ==> offsets[j] != 0
    requires 0 <= i < |offsets| && m in OffsetMoves(board, piece, offsets[i])
    ensures m in Scan(board, piece, offsets)
    decreases |offsets|
  {
    if i > 0 {
      assert offsets[1..][i - 1] == offsets[i];
      ScanOfNonKing(board, piece, offsets[1..], i - 1, m);
    }
  }

  lemma {:induction false} RaySound(board: seq<Tile>, piece: Piece, offset: int, from: int, m: Move)
    requires ValidTiles(board) && offset != 0 && m in Ray(board, piece, offset, from)
    ensures Sound(board, piece, m)
    decreases if offset > 0 then NumTiles - from else from
  {
    var next := from + offset;
    if board[next].EmptyTile? && m != Ray(board, piece, offset, from)[0] {
      RaySound(board, piece, offset, next, m);
    }
  }

  lemma OffsetMovesSound(board: seq<Tile>, piece: Piece, offset: int, m: Move)
    requires ValidTiles(board) && ValidCoordinate(piece.position) && offset != 0
    requires m in OffsetMoves(board, piece, offset)
    ensures Sound(board, piece, m)
  {
    if IsSlider(piece.kind) {
      RaySound(board, piece, offset, piece.position, m);
    }
  }

  /**
   * Every move valid_moves generates is sound: destination in 0..63, an empty tile for a
   * MajorMove or PawnMove, an enemy piece carried by an AttackMove.
   */
  lemma PieceMovesSound(board: seq<Tile>, piece: Piece, m: Move)
    requires ValidTiles(board) && ValidCoordinate(piece.position)
    requires m in PieceMoves(board, piece)
    ensures Sound(board, piece, m)
  {
    var offsets := MoveOffsets(piece.kind);
    ScanFromOffset(board, piece, offsets, m);
    var i :| 0 <= i < |offsets| && m in OffsetMoves(board, piece, offsets[i]);
    OffsetMovesSound(board, piece, offsets[i], m);
  }

  /** Board.calculate_moves: every move belongs to a piece of the arsenal and is sound for it. */
  lemma {:induction false} ArsenalMovesSound(board: seq<Tile>, arsenal: seq<Piece>, m: Move)
    requires ValidTiles(board) && forall p :: p in arsenal ==> ValidCoordinate(p.position)
    requires m in ArsenalMoves(board, arsenal)
    ensures m.piece in arsenal && Sound(board, m.piece, m)
    decreases |arsenal|
  {
    var init, last := arsenal[..|arsenal| - 1], arsenal[|arsenal| - 1];
    if m in PieceMoves(board, last) {
      PieceMovesSound(board, last, m);
    } else {
      ArsenalMovesSound(board, init, m);
    }
  }

  /** The move of a king or knight offset lands on the piece's index plus the offset, which the guard let through. */
  lemma StepOffsetMoves(board: seq<Tile>, piece: Piece, offset: int, m: Move)
    requires ValidTiles(board) && ValidCoordinate(piece.position) && (piece.kind.King? || piece.kind.Knight?)
    requires offset != 0 && m in OffsetMoves(board, piece, offset)
    ensures m.destination == piece.position + offset && !Guarded(piece.kind, offset, piece.position)
  {
    var d := piece.position + offset;
    assert ValidCoordinate(d) && !Guarded(piece.kind, offset, piece.position) && m in Classify(board, piece, d);
  }

  /** A king step or knight jump lands at the piece's index plus an offset its guard lets through. */
  lemma StepFromOffset(board: seq<Tile>, piece: Piece, m: Move)
    requires ValidTiles(board) && ValidCoordinate(piece.position) && (piece.kind.King? || piece.kind.Knight?)
    requires m in PieceMoves(board, piece)
    ensures var offset := m.destination - piece.position;
      offset in MoveOffsets(piece.kind) && !Guarded(piece.kind, offset, piece.position)
  {
    var offsets := MoveOffsets(piece.kind);
    ScanFromOffset(board, piece, offsets, m);
    var i :| 0 <= i < |offsets| && m in OffsetMoves(board, piece, offsets[i]);
    StepOffsetMoves(board, piece, offsets[i], m);
  }

  /**
   * Knight jumps never wrap: the column guards leave exactly the jumps that change the file by
   * one and the row by two, or the file by two and the row by one.
   */
  lemma KnightJumpsNeverWrap(board: seq<Tile>, piece: Piece, m: Move)
    requires ValidTiles(board) && ValidCoordinate(piece.position) && piece.kind.Knight?
    requires m in PieceMoves(board, piece)
    ensures MoveRules.StepShape(P.Knight, piece.position, m.destination)
  {
    StepFromOffset(board, piece, m);
    PieceMovesSound(board, piece, m);
    MoveRules.StepShapeOffset(P.Knight, piece.position, m.destination);
  }

  /**
   * A king iterates the bishop's offsets: every king move changes both the file and the row by
   * exactly one.
   */
  lemma KingStepsDiagonally(board: seq<Tile>, piece: Piece, m: Move)
    requires ValidTiles(board) && ValidCoordinate(piece.position) && piece.kind.King?
    requires m in PieceMoves(board, piece)
    ensures var df, dr := File(m.destination) - File(piece.position), Row(m.destination) - Row(piece.position);
      (df == 1 || df == -1) && (dr == 1 || dr == -1)
  {
    StepFromOffset(board, piece, m);
    PieceMovesSound(board, piece, m);
    var offset := m.destination - piece.position;
    assert offset in P.Offsets(P.King);
    P.GuardedOffsetMoves(P.King, offset, piece.position);
  }

  /**
   * King.valid_moves breaks out of its whole offset loop at the first occupied tile: every move
   * of a king but the last is a MajorMove, so a capture can only come last.
   */
  lemma {:induction false} KingScanStopsAtOccupied(board: seq<Tile>, piece: Piece, offsets: seq<int>)
    requires ValidTiles(board) && ValidCoordinate(piece.position) && piece.kind.King?
    requires forall i :: 0 <= i < |offsets| ==> offsets[i] != 0
    ensures forall j :: 0 <= j < |Scan(board, piece, offsets)| - 1 ==> Scan(board, piece, offsets)[j].MajorMove?
    decreases |offsets|
  {
    if offsets != [] {
      var here := OffsetMoves(board, piece, offsets[0]);
      assert |here| <= 1;
      if !KingStops(board, piece, offsets[0]) {
        assert forall j :: 0 <= j < |here| ==> here[j].MajorMove?;
        KingScanStopsAtOccupied(board, piece, offsets[1..]);
        var rest := Scan(board, piece, offsets[1..]);
        assert forall k :: 0 <= k < |rest| - 1 ==> rest[k].MajorMove?;
        var r := here + rest;
        forall j | 0 <= j < |r| - 1
          ensures r[j].MajorMove?
        {
          if j < |here| {
            assert r[j] == here[j];
          } else {
            assert r[j] == rest[j - |here|];
            assert rest[j - |here|].MajorMove?;
          }
        }
      }
    }
  }

  /**
   * King.valid_moves' `break` ends the whole offset loop at the first offset whose tile is
   * occupied: the offsets after it contribute nothing, and when the tile holds a friendly piece the
   * scan is just the moves of the offsets before it.
   */
  lemma {:induction false} KingBreakEndsScan(board: seq<Tile>, piece: Piece, offsets: seq<int>, k: int)
    requires ValidTiles(board) && ValidCoordinate(piece.position) && piece.kind.King?
    requires forall i :: 0 <= i < |offsets| ==> offsets[i] != 0
    requires 0 <= k < |offsets| && KingStops(board, piece, offsets[k])
    requires forall i :: 0 <= i < k ==> !KingStops(board, piece, offsets[i])
    ensures Scan(board, piece, offsets) == Scan(board, piece, offsets[..k + 1])
    ensures board[piece.position + offsets[k]].piece.color == piece.color ==>
      Scan(board, piece, offsets) == Scan(board, piece, offsets[..k])
    decreases k
  {
    if k == 0 {
      assert offsets[..1][0] == offsets[0];
    } else {
      var tail := offsets[1..];
      KingBreakEndsScan(board, piece, tail, k - 1);
      assert tail[k - 1] == offsets[k];
      assert offsets[..k + 1][1..] == tail[..k];
      assert offsets[..k][1..] == tail[..k - 1];
      assert offsets[..k + 1][0] == offsets[0] && offsets[..k][0] == offsets[0];
    }
  }

  /** The tile k steps from `from` along an offset. */
  function RaySquare(from: int, offset: int, k: int): int {
    from + k * offset
  }

  /**
   * `to` is j >= 1 steps from `from` along an offset whose steps change the file by df and the
   * row by dr, and every tile before it is empty.
   */
  predicate RayReaches(board: seq<Tile>, from: int, offset: int, df: int, dr: int, to: int, j: int)
    requires ValidTiles(board)
  {
    1 <= j && to == RaySquare(from, offset, j) &&
    File(to) == File(from) + j * df && Row(to) == Row(from) + j * dr &&
    forall k :: 1 <= k < j ==> ValidCoordinate(RaySquare(from, offset, k)) && board[RaySquare(from, offset, k)].EmptyTile?
  }

  /** One empty step before a tile the ray reaches from the next square. */
  lemma RayReachesShift(board: seq<Tile>, from: int, offset: int, df: int, dr: int, to: int, j: int)
    requires ValidTiles(board) && ValidCoordinate(from + offset) && board[from + offset].EmptyTile?
    requires File(from + offset) == File(from) + df && Row(from + offset) == Row(from) + dr
    requires RayReaches(board, from + offset, offset, df, dr, to, j)
    ensures RayReaches(board, from, offset, df, dr, to, j + 1)
  {
    var next := from + offset;
    forall k | 1 <= k < j + 1
      ensures ValidCoordinate(RaySquare(from, offset, k)) && board[RaySquare(from, offset, k)].EmptyTile?
    {
      if k > 1 {
        assert RaySquare(from, offset, k) == RaySquare(next, offset, k - 1);
      }
    }
    assert to == RaySquare(from, offset, j + 1);
    assert (j + 1) * df == j * df + df;
    assert (j + 1) * dr == j * dr + dr;
  }

  /** Every move of a ray is some number of empty steps along its offset. */
  lemma {:induction false} RayAligned(board: seq<Tile>, piece: Piece, offset: int, from: int, m: Move)
    requires ValidTiles(board) && IsSlider(piece.kind) && offset in MoveOffsets(piece.kind)
    requires ValidCoordinate(from) && m in Ray(board, piece, offset, from)
    ensures exists j :: RayReaches(board, from, offset, P.DeltaFile(offset), P.DeltaRow(offset), m.destination, j)
    decreases if offset > 0 then NumTiles - from else from
  {
    var next := from + offset;
    var df, dr := P.DeltaFile(offset), P.DeltaRow(offset);
    assert offset in P.Offsets(piece.kind);
    P.GuardedOffsetMoves(piece.kind, offset, from);
    assert ValidCoordinate(next);
    if board[next].EmptyTile? && m != Ray(board, piece, offset, from)[0] {
      assert m in Ray(board, piece, offset, next);
      RayAligned(board, piece, offset, next, m);
      var j :| RayReaches(board, next, offset, df, dr, m.destination, j);
      RayReachesShift(board, from, offset, df, dr, m.destination, j);
    } else {
      assert m.destination == next;
      assert RayReaches(board, from, offset, df, dr, m.destination, 1);
    }
  }

  /** Along each direction every move but the last is a MajorMove: the ray ends at the first capture. */
  lemma {:induction false} RayMajorBeforeLast(board: seq<Tile>, piece: Piece, offset: int, from: int)
    requires ValidTiles(board) && offset != 0
    ensures forall i :: 0 <= i < |Ray(board, piece, offset, from)| - 1 ==> Ray(board, piece, offset, from)[i].MajorMove?
    decreases if offset > 0 then NumTiles - from else from
  {
    if ValidCoordinate(from) && !Guarded(piece.kind, offset, from) && ValidCoordinate(from + offset) {
      var next := from + offset;
      RayMajorBeforeLast(board, piece, offset, next);
      if board[next].EmptyTile? {
        var rest := Ray(board, piece, offset, next);
        var r := [MajorMove(piece, next)] + rest;
        forall i | 0 <= i < |r| - 1
          ensures r[i].MajorMove?
        {
          if i > 0 {
            assert r[i] == rest[i - 1];
          }
        }
      }
    }
  }

  /**
   * The net change of j steps along one of a slider's offsets: a queen or a bishop (diagonal
   * offsets) changes file and row by j each, a rook only one of them by j.
   */
  predicate SlideShape(k: Kind, from: int, to: int, j: int) {
    var df, dr := File(to) - File(from), Row(to) - Row(from);
    if k.Rook? then (df == 0 && (dr == j || dr == -j)) || (dr == 0 && (df == j || df == -j))
    else (df == j || df == -j) && (dr == j || dr == -j)
  }

  lemma ReachShape(board: seq<Tile>, k: Kind, from: int, offset: int, to: int, j: int)
    requires ValidTiles(board) && IsSlider(k) && offset in MoveOffsets(k)
    requires RayReaches(board, from, offset, P.DeltaFile(offset), P.DeltaRow(offset), to, j)
    ensures SlideShape(k, from, to, j)
  {
    var df, dr := P.DeltaFile(offset), P.DeltaRow(offset);
    if k.Rook? {
      assert (df == 0 && (dr == 1 || dr == -1)) || (dr == 0 && (df == 1 || df == -1));
    } else {
      assert (df == 1 || df == -1) && (dr == 1 || dr == -1);
    }
    ScaleUnit(j, df);
    ScaleUnit(j, dr);
  }

  /**
   * Queen, bishop and rook moves go j >= 1 steps along one of the class's offsets, every tile
   * passed over being empty, and change file and row as the offset's direction says.
   */
  lemma SliderMovesAligned(board: seq<Tile>, piece: Piece, m: Move)
    requires ValidTiles(board) && ValidCoordinate(piece.position) && IsSlider(piece.kind)
    requires m in PieceMoves(board, piece)
    ensures exists offset, j ::
              && offset in MoveOffsets(piece.kind)
              && RayReaches(board, piece.position, offset, P.DeltaFile(offset), P.DeltaRow(offset), m.destination, j)
              && SlideShape(piece.kind, piece.position, m.destination, j)
  {
    var offsets := MoveOffsets(piece.kind);
    ScanFromOffset(board, piece, offsets, m);
    var i :| 0 <= i < |offsets| && m in OffsetMoves(board, piece, offsets[i]);
    var offset := offsets[i];
    RayAligned(board, piece, offset, piece.position, m);
    var j :| RayReaches(board, piece.position, offset, P.DeltaFile(offset), P.DeltaRow(offset), m.destination, j);
    ReachShape(board, piece.kind, piece.position, offset, m.destination, j);
  }

  lemma ScaleUnit(j: int, u: int)
    requires -1 <= u <= 1
    ensures j * u == if u == 1 then j else if u == -1 then -j else 0
  {
  }

  /** A queen, like a king, moves diagonally only: the file and the row change by the same nonzero amount. */
  lemma QueenMovesDiagonally(board: seq<Tile>, piece: Piece, m: Move)
    requires ValidTiles(board) && ValidCoordinate(piece.position) && piece.kind.Queen?
    requires m in PieceMoves(board, piece)
    ensures var df, dr := File(m.destination) - File(piece.position), Row(m.destination) - Row(piece.position);
      df != 0 && (df == dr || df == -dr)
  {
    SliderMovesAligned(board, piece, m);
    var offset, j :| offset in MoveOffsets(piece.kind) &&
      RayReaches(board, piece.position, offset, P.DeltaFile(offset), P.DeltaRow(offset), m.destination, j) &&
      SlideShape(piece.kind, piece.position, m.destination, j);
  }

  /**
   * The pawn rules: a single step in the pawn's direction onto an empty tile; the double step
   * from the start row on the first move with the tile passed over and the destination empty;
   * a capture of an enemy on a forward diagonal the column exceptions allow.
   */
  predicate PawnRule(board: seq<Tile>, piece: Piece, m: Move)
    requires ValidTiles(board) && ValidCoordinate(piece.position)
  {
    var dir, d := P.Direction(piece.color), m.destination;
    m.piece == piece && ValidCoordinate(d) &&
    ((m.PawnMove? && d == piece.position + 8 * dir && board[d].EmptyTile?) ||
     (m.PawnMove? && d == piece.position + 16 * dir && piece.isFirstMove && OnStartRow(piece) &&
      board[piece.position + 8 * dir].EmptyTile? && board[d].EmptyTile?) ||
     (m.AttackMove? && ((d == piece.position + 7 * dir && !LeftCaptureExcluded(piece)) ||
                        (d == piece.position + 9 * dir && !RightCaptureExcluded(piece))) &&
      board[d] == OccupiedTile(m.attackedPiece) && m.attackedPiece.color != piece.color))
  }

  /** The offset of Pawn.valid_moves a move that follows the pawn rules comes from. */
  function PawnOffsetOf(piece: Piece, m: Move): int {
    var dir := P.Direction(piece.color);
    if m.destination == piece.position + 8 * dir then 8
    else if m.destination == piece.position + 16 * dir then 16
    else if m.destination == piece.position + 7 * dir then 7
    else 9
  }

  lemma PawnOffsetRule(board: seq<Tile>, piece: Piece, offset: int, m: Move)
    requires ValidTiles(board) && ValidCoordinate(piece.position) && piece.kind.Pawn?
    requires offset in P.PawnOffsets
    ensures m in OffsetMoves(board, piece, offset) <==> PawnRule(board, piece, m) && PawnOffsetOf(piece, m) == offset
  {
  }

  /** Pawn.valid_moves generates exactly the moves that follow the pawn rules. */
  lemma PawnMovesExactly(board: seq<Tile>, piece: Piece, m: Move)
    requires ValidTiles(board) && ValidCoordinate(piece.position) && piece.kind.Pawn?
    ensures m in PieceMoves(board, piece) <==> PawnRule(board, piece, m)
  {
    var offsets := MoveOffsets(piece.kind);
    if m in PieceMoves(board, piece) {
      ScanFromOffset(board, piece, offsets, m);
      var i :| 0 <= i < |offsets| && m in OffsetMoves(board, piece, offsets[i]);
      PawnOffsetRule(board, piece, offsets[i], m);
    }
    if PawnRule(board, piece, m) {
      var offset := PawnOffsetOf(piece, m);
      PawnOffsetRule(board, piece, offset, m);
      var i :| 0 <= i < |offsets| && offsets[i] == offset;
      ScanOfNonKing(board, piece, offsets, i, m);
    }
  }

  /** A pawn capture moves one row forward and one file sideways: the column exceptions stop wrapping. */
  lemma PawnCaptureGeometry(piece: Piece, d: int)
    requires ValidCoordinate(piece.position) && ValidCoordinate(d)
    requires (d == piece.position + 7 * P.Direction(piece.color) && !LeftCaptureExcluded(piece)) ||
             (d == piece.position + 9 * P.Direction(piece.color) && !RightCaptureExcluded(piece))
    ensures Row(d) == Row(piece.position) + P.Direction(piece.color)
    ensures File(d) == File(piece.position) + 1 || File(d) == File(piece.position) - 1
  {
    var f, r := File(piece.position), Row(piece.position);
    assert piece.position == 8 * r + f;
    var dir := P.Direction(piece.color);
    if d == piece.position + 7 * dir && !LeftCaptureExcluded(piece) {
      if dir == -1 { P.DivModUnique(d, r - 1, f + 1); } else { P.DivModUnique(d, r + 1, f - 1); }
    } else {
      if dir == -1 { P.DivModUnique(d, r - 1, f - 1); } else { P.DivModUnique(d, r + 1, f + 1); }
    }
  }
}
