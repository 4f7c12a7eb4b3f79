/**
 * Pieces of the two-board engine (aliceengine.py, classes PlayerColor, Piece and its six
 * subclasses): colour, kind, the piece-square tables, piece values and the per-offset edge guards.
 */
module Pieces {
  import opened Coordinates

  datatype Color = White | Black

  /** The colour a PlayerColor.opponent call selects the player of. */
  function Opponent(c: Color): (r: Color)
    ensures r != c
  {
    if c == White then Black else White
  }

  datatype Kind = King | Queen | Bishop | Knight | Rook | Pawn

  /**
   * A piece value. Only a pawn ever carries isFirstMove == true (Piece.__init__ sets it to False
   * and only the Pawn constructor takes it).
   */
  datatype Piece = Piece(kind: Kind, position: Position, color: Color, isFirstMove: bool)

  /** True when the piece stands on a tile of one of the boards. */
  predicate OnBoard(p: Piece) {
    ValidTile(p.position)
  }

  /** The constructor call `Kind(position, color)` of every non-pawn, and `Pawn(position, color)`. */
  function NewPiece(kind: Kind, position: Position, color: Color): (r: Piece)
    ensures r.kind == kind && r.position == position && r.color == color && !r.isFirstMove
  {
    Piece(kind, position, color, false)
  }

  /**
   * move_piece: a fresh piece of the same kind and colour at the move's destination.
   * A rebuilt pawn has lost its first-move right.
   */
  function MovePiece(p: Piece, destination: Position): (r: Piece)
    ensures r.kind == p.kind && r.color == p.color && r.position == destination && !r.isFirstMove
  {
    NewPiece(p.kind, destination, p.color)
  }

  /** Pawn.promotion_piece followed by move_piece: always a Queen of the pawn's colour. */
  function PromotedPiece(pawn: Piece, destination: Position): (r: Piece)
    ensures r.kind == Queen && r.color == pawn.color && r.position == destination && !r.isFirstMove
  {
    NewPiece(Queen, destination, pawn.color)
  }

  /** str(piece).upper(): the letter of the piece kind. */
  function Symbol(k: Kind): char {
    match k
    case King => 'K'
    case Queen => 'Q'
    case Bishop => 'B'
    case Knight => 'N'
    case Rook => 'R'
    case Pawn => 'P'
  }

  /** The base of each kind's value: 200, 90, 33, 32, 50, 10. */
  function BaseValue(k: Kind): int {
    match k
    case King => 200
    case Queen => 90
    case Bishop => 33
    case Knight => 32
    case Rook => 50
    case Pawn => 10
  }

  const KingTable: seq<int> := [
    -30, -40, -40, -50, -50, -40, -40, -30,
    -30, -40, -40, -50, -50, -40, -40, -30,
    -30, -40, -40, -50, -50, -40, -40, -30,
    -30, -40, -40, -50, -50, -40, -40, -30,
    -20, -30, -30, -40, -40, -30, -30, -20,
    -10, -20, -20, -20, -20, -20, -20, -10,
     20,  20,   0,   0,   0,   0,  20,  20,
     20,  30,  10,   0,   0,  10,  30,  20]

  const QueenTable: seq<int> := [
    -20, -10, -10,  -5,  -5, -10, -10, -20,
    -10,   0,   0,   0,   0,   0,   0, -10,
    -10,   0,   5,   5,   5,   5,   0, -10,
     -5,   0,   5,   5,   5,   5,   0,  -5,
      0,   0,   5,   5,   5,   5,   0,  -5,
    -10,   5,   5,   5,   5,   5,   0, -10,
    -10,   0,   5,   0,   0,   0,   0, -10,
    -20, -10, -10,  -5,  -5, -10, -10, -20]

  const BishopTable: seq<int> := [
    -20, -10, -10, -10, -10, -10, -10, -20,
    -10,   0,   0,   0,   0,   0,   0, -10,
    -10,   0,   5,  10,  10,   5,   0, -10,
    -10,   5,   5,  10,  10,   5,   5, -10,
    -10,   0,  10,  10,  10,  10,   0, -10,
    -10,  10,  10,  10,  10,  10,  10, -10,
    -10,   5,   0,   0,   0,   0,   5, -10,
    -20, -10, -10, -10, -10, -10, -10, -20]

  const KnightTable: seq<int> := [
    -50, -40, -30, -30, -30, -30, -40, -50,
    -40, -20,   0,   0,   0,   0, -20, -40,
    -30,   0,  10,  15,  15,  10,   0, -30,
    -30,   5,  15,  20,  20,  15,   5, -30,
    -30,   0,  15,  20,  20,  15,   0, -30,
    -30,   5,  10,  15,  15,  10,   5, -30,
    -40, -20,   0,   5,   5,   0, -20, -40,
    -50, -40, -30, -30, -30, -30, -40, -50]

  const RookTable: seq<int> := [
      0,   0,   0,   0,   0,   0,   0,   0,
      5,  10,  10,  10,  10,  10,  10,   5,
     -5,   0,   0,   0,   0,   0,   0,  -5,
     -5,   0,   0,   0,   0,   0,   0,  -5,
     -5,   0,   0,   0,   0,   0,   0,  -5,
     -5,   0,   0,   0,   0,   0,   0,  -5,
     -5,   0,   0,   0,   0,   0,   0,  -5,
      0,   0,   0,   5,   5,   0,   0,   0]

  const PawnTable: seq<int> := [
     60,  60,  60,  60,  60,  60,  60,  60,
     50,  50,  50,  50,  50,  50,  50,  50,
     10,  10,  20,  30,  30,  20,  10,  10,
      5,   5,  10,  25,  25,  10,   5,   5,
      0,   0,   0,  20,  20,   0,   0,   0,
      5,  -5, -10,   0,   0, -10,  -5,   5,
      5,  10,  10, -20, -20,  10,  10,   5,
      0,   0,   0,   0,   0,   0,   0,   0]

  function SquareTable(k: Kind): (t: seq<int>)
    ensures |t| == NumTiles
  {
    match k
    case King => KingTable
    case Queen => QueenTable
    case Bishop => BishopTable
    case Knight => KnightTable
    case Rook => RookTable
    case Pawn => PawnTable
  }

  /**
   * get_position_value: the table entry of the tile, looked up at the mirrored index 63 - i for Black.
   */
  function PositionValue(k: Kind, index: int, color: Color): (r: int)
    requires 0 <= index < NumTiles
    ensures color == White ==> r == SquareTable(k)[index]
    ensures color == Black ==> r == SquareTable(k)[NumTiles - 1 - index]
  {
    var lookupIndex := if color == Black then NumTiles - index - 1 else index;
    SquareTable(k)[lookupIndex]
  }

  /** The value attribute every piece gets at construction: base plus position value. */
  function Value(p: Piece): int
    requires OnBoard(p)
  {
    BaseValue(p.kind) + PositionValue(p.kind, p.position.index, p.color)
  }

  /** The two colours value a tile symmetrically: Black on i is worth what White is worth on 63 - i. */
  lemma ValueMirror(k: Kind, index: int)
    requires 0 <= index < NumTiles
    ensures PositionValue(k, index, Black) == PositionValue(k, NumTiles - 1 - index, White)
  {
  }

  const KingOffsets: seq<int> := [-9, -8, -7, -1, 1, 7, 8, 9]
  const QueenOffsets: seq<int> := [-9, -8, -7, -1, 1, 7, 8, 9]
  const BishopOffsets: seq<int> := [-9, -7, 7, 9]
  const KnightOffsets: seq<int> := [-17, -15, -10, -6, 6, 10, 15, 17]
  const RookOffsets: seq<int> := [-8, -1, 1, 8]
  const PawnOffsets: seq<int> := [8, 16, 7, 9]

  /**
   * The first/second/seventh/eighth-column exceptions of each kind: true when the offset, taken
   * from a tile of that column, would wrap round the board edge. King and Queen share their table.
   */
  predicate ColumnException(k: Kind, offset: int, index: int)
    requires 0 <= index < NumTiles
  {
    match k
    case King | Queen =>
      (FirstColumn(index) && (offset == -9 || offset == -1 || offset == 7)) ||
      (EighthColumn(index) && (offset == -7 || offset == 1 || offset == 9))
    case Bishop =>
      (FirstColumn(index) && (offset == -9 || offset == 7)) ||
      (EighthColumn(index) && (offset == -7 || offset == 9))
    case Rook =>
      (FirstColumn(index) && offset == -1) ||
      (EighthColumn(index) && offset == 1)
    case Knight =>
      (FirstColumn(index) && (offset == -17 || offset == -10 || offset == 6 || offset == 15)) ||
      (SecondColumn(index) && (offset == -10 || offset == 6)) ||
      (SeventhColumn(index) && (offset == -6 || offset == 10)) ||
      (EighthColumn(index) && (offset == -15 || offset == -6 || offset == 10 || offset == 17))
    case Pawn => false
  }

  /** Pawn.get_direction: White pawns move towards index 0, Black pawns towards 63. */
  function Direction(c: Color): int {
    if c == White then -1 else 1
  }

  /** Pawn.first_move_config: the pawn stands on its colour's starting row. */
  predicate FirstMoveConfig(p: Piece)
    requires OnBoard(p)
  {
    (p.color == Black && SecondRow(p.position.index)) ||
    (p.color == White && SeventhRow(p.position.index))
  }

  /** Pawn.kill_on_left_exception: the capture with offset 7 would wrap. */
  predicate KillOnLeftException(p: Piece)
    requires OnBoard(p)
  {
    (EighthColumn(p.position.index) && p.color == White) ||
    (FirstColumn(p.position.index) && p.color == Black)
  }

  /** Pawn.kill_on_right_exception: the capture with offset 9 would wrap. */
  predicate KillOnRightException(p: Piece)
    requires OnBoard(p)
  {
    (EighthColumn(p.position.index) && p.color == Black) ||
    (FirstColumn(p.position.index) && p.color == White)
  }

  /** PlayerColor.is_pawn_promotion_square: the last row in the pawn's direction. */
  predicate IsPawnPromotionSquare(position: Position, color: Color)
    requires ValidTile(position)
  {
    if color == Black then EighthRow(position.index) else FirstRow(position.index)
  }

  /** The file and row change an offset is meant to make (king, slider and knight offsets). */
  function DeltaFile(offset: int): int {
    match offset
    case -9 => -1 case -8 => 0 case -7 => 1 case -1 => -1 case 1 => 1 case 7 => -1 case 8 => 0 case 9 => 1
    case -17 => -1 case -15 => 1 case -10 => -2 case -6 => 2 case 6 => -2 case 10 => 2 case 15 => -1 case 17 => 1
    case _ => 0
  }

  function DeltaRow(offset: int): int {
    match offset
    case -9 => -1 case -8 => -1 case -7 => -1 case -1 => 0 case 1 => 0 case 7 => 1 case 8 => 1 case 9 => 1
    case -17 => -2 case -15 => -2 case -10 => -1 case -6 => -1 case 6 => 1 case 10 => 1 case 15 => 2 case 17 => 2
    case _ => 0
  }

  /** The offsets each kind's generator iterates. */
  function Offsets(k: Kind): seq<int> {
    match k
    case King => KingOffsets
    case Queen => QueenOffsets
    case Bishop => BishopOffsets
    case Knight => KnightOffsets
    case Rook => RookOffsets
    case Pawn => PawnOffsets
  }

  /**
   * The guard tables prevent wrap-around: an offset of a king, queen, bishop, rook or knight that
   * its column exception lets through, and that stays on the board, moves exactly by the intended
   * file and row deltas. So king and slider steps change the file by at most one, and knight
   * jumps change it by exactly one or two.
   */
  lemma {:induction false} GuardedOffsetMoves(k: Kind, offset: int, index: int)
    requires k != Pawn && offset in Offsets(k)
    requires 0 <= index < NumTiles && 0 <= index + offset < NumTiles
    requires !ColumnException(k, offset, index)
    ensures File(index + offset) == File(index) + DeltaFile(offset)
    ensures Row(index + offset) == Row(index) + DeltaRow(offset)
  {
    var f, r := index % 8, index / 8;
    assert index == 8 * r + f;
    var t := index + offset;
    var f2 := f + DeltaFile(offset);
    var r2 := r + DeltaRow(offset);
    assert 0 <= f2 < 8 by {
      if k == Knight {
        assert offset in {-17, -15, -10, -6, 6, 10, 15, 17};
      } else {
        assert offset in {-9, -8, -7, -1, 1, 7, 8, 9};
      }
    }
    assert t == 8 * r2 + f2;
    DivModUnique(t, r2, f2);
  }

  lemma DivModUnique(t: int, q: int, m: int)
    requires 0 <= m < 8 && t == 8 * q + m
    ensures t % 8 == m && t / 8 == q
  {
  }

  /** The pawn captures move exactly one file sideways and one row forward. */
  lemma {:induction false} PawnCaptureMoves(p: Piece, offset: int)
    requires OnBoard(p) && (offset == 7 || offset == 9)
    requires offset == 7 ==> !KillOnLeftException(p)
    requires offset == 9 ==> !KillOnRightException(p)
    requires 0 <= p.position.index + offset * Direction(p.color) < NumTiles
    ensures var t := p.position.index + offset * Direction(p.color);
      Row(t) == Row(p.position.index) + Direction(p.color) &&
      (File(t) == File(p.position.index) + 1 || File(t) == File(p.position.index) - 1)
  {
    var index := p.position.index;
    var f, r := index % 8, index / 8;
    assert index == 8 * r + f;
    var t := index + offset * Direction(p.color);
    if p.color == White {
      if offset == 7 {
        DivModUnique(t, r - 1, f + 1);
      } else {
        DivModUnique(t, r - 1, f - 1);
      }
    } else {
      if offset == 7 {
        DivModUnique(t, r + 1, f - 1);
      } else {
        DivModUnique(t, r + 1, f + 1);
      }
    }
  }
}
