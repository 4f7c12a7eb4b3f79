/**
 * Move generation of the single-board predecessor (alice5500.py): ordinary chess geometry on one
 * row of 64 tiles, a8 = 0 .. h1 = 63. The generators are methods with the source's loops, proved
 * equal to specification functions; the properties of the moves are lemmas (module SingleBoardRules).
 *
 * The classes differ from the two-board engine in ways kept here: King and Queen iterate the
 * bishop's four diagonal offsets only, a king's scan ends at the first occupied tile it reaches,
 * whatever the offset, and a pawn never promotes.
 */
module SingleBoardMoves {
  import opened Coordinates
  import P = Pieces

  type Color = P.Color
  type Kind = P.Kind

  /** A piece on the single board. Only a pawn is ever made with isFirstMove == true. */
  datatype Piece = Piece(kind: Kind, position: int, color: Color, isFirstMove: bool)

  /** MajorMove, PawnMove and AttackMove (a pawn's capture is an AttackMove too). */
  datatype Move =
    | MajorMove(piece: Piece, destination: int)
    | PawnMove(piece: Piece, destination: int)
    | AttackMove(piece: Piece, destination: int, attackedPiece: Piece)

  /** EmptyTile and OccupiedTile; the tile's coordinate is its index in the board's row of tiles. */
  datatype Tile = EmptyTile | OccupiedTile(piece: Piece)

  /** BoardUtils.is_vaild_tile_coordinate. */
  predicate ValidCoordinate(c: int) {
    0 <= c < NumTiles
  }

  /** A row of tiles as Board.create_game_board makes it. */
  predicate ValidTiles(board: seq<Tile>) {
    |board| == NumTiles
  }

  /**
   * move_piece of every class: a new piece of the same kind and colour at the destination. No
   * constructor passes is_first_move, so the moved piece has lost it.
   */
  function MovePiece(piece: Piece, destination: int): (r: Piece)
    ensures r.kind == piece.kind && r.color == piece.color && r.position == destination && !r.isFirstMove
  {
    Piece(piece.kind, destination, piece.color, false)
  }

  /** The offsets each class's valid_moves iterates: King and Queen iterate Bishop.valid_move_offsets. */
  function MoveOffsets(k: Kind): (r: seq<int>)
    ensures forall i :: 0 <= i < |r| ==> r[i] != 0
  {
    match k
    case King | Queen | Bishop => P.BishopOffsets
    case Knight => P.KnightOffsets
    case Rook => P.RookOffsets
    case Pawn => P.PawnOffsets
  }

  predicate IsSlider(k: Kind) {
    k.Queen? || k.Bishop? || k.Rook?
  }

  /**
   * The first/second/seventh/eighth-column exceptions of each class. The tables are those of the
   * two-board engine: King and Queen share theirs, Bishop, Knight and Rook have their own.
   */
  predicate Guarded(k: Kind, offset: int, index: int)
    requires ValidCoordinate(index)
  {
    P.ColumnException(k, offset, index)
  }

  /** The move (at most one) a piece makes to a tile: empty gives a MajorMove, an enemy an AttackMove. */
  function Classify(board: seq<Tile>, piece: Piece, d: int): seq<Move>
    requires ValidTiles(board) && ValidCoordinate(d)
  {
    match board[d]
    case EmptyTile => [MajorMove(piece, d)]
    case OccupiedTile(q) => if q.color != piece.color then [AttackMove(piece, d, q)] else []
  }

  /**
   * The moves of a queen, bishop or rook along one offset, continuing the scan at `from`. The
   * guard is tested on the tile the scan stands on; the scan ends after the first occupied tile.
   */
  function Ray(board: seq<Tile>, piece: Piece, offset: int, from: int): seq<Move>
    requires ValidTiles(board) && offset != 0
    decreases if offset > 0 then NumTiles - from else from
  {
    if !ValidCoordinate(from) || Guarded(piece.kind, offset, from) then []
    else
      var next := from + offset;
      if !ValidCoordinate(next) then []
      else match board[next]
        case EmptyTile => [MajorMove(piece, next)] + Ray(board, piece, offset, next)
        case OccupiedTile(q) => if q.color != piece.color then [AttackMove(piece, next, q)] else []
  }

  /** The start rows of the pawn's double step: SECOND_ROW for Black, SEVENTH_ROW for White. */
  predicate OnStartRow(piece: Piece) {
    (piece.color.Black? && SecondRow(piece.position)) || (piece.color.White? && SeventhRow(piece.position))
  }

  /** The capture with offset 7 is excluded from the eighth column (White) or the first (Black). */
  predicate LeftCaptureExcluded(piece: Piece) {
    (EighthColumn(piece.position) && piece.color.White?) || (FirstColumn(piece.position) && piece.color.Black?)
  }

  /** The capture with offset 9 is excluded from the eighth column (Black) or the first (White). */
  predicate RightCaptureExcluded(piece: Piece) {
    (EighthColumn(piece.position) && piece.color.Black?) || (FirstColumn(piece.position) && piece.color.White?)
  }

  /** A pawn capture: an enemy on the destination tile. */
  function Capture(board: seq<Tile>, piece: Piece, d: int): seq<Move>
    requires ValidTiles(board) && ValidCoordinate(d)
  {
    match board[d]
    case EmptyTile => []
    case OccupiedTile(q) => if q.color != piece.color then [AttackMove(piece, d, q)] else []
  }

  /** One iteration of Pawn.valid_moves: the offset is taken in the pawn's direction. */
  function PawnOffsetMoves(board: seq<Tile>, piece: Piece, offset: int): seq<Move>
    requires ValidTiles(board) && ValidCoordinate(piece.position)
  {
    var d := piece.position + offset * P.Direction(piece.color);
    if !ValidCoordinate(d) then []
    else if offset == 8 && board[d].EmptyTile? then [PawnMove(piece, d)]
    else if offset == 16 && piece.isFirstMove then
      if OnStartRow(piece) then
        var firstTile := piece.position + P.Direction(piece.color) * 8;
        if !(board[firstTile].OccupiedTile? || board[d].OccupiedTile?) then [PawnMove(piece, d)] else []
      else []
    else if offset == 7 && !LeftCaptureExcluded(piece) then Capture(board, piece, d)
    else if offset == 9 && !RightCaptureExcluded(piece) then Capture(board, piece, d)
    else []
  }

  /** The moves one iteration of a class's offset loop produces. */
  function OffsetMoves(board: seq<Tile>, piece: Piece, offset: int): seq<Move>
    requires ValidTiles(board) && ValidCoordinate(piece.position) && offset != 0
  {
    match piece.kind
    case King | Knight =>
      var d := piece.position + offset;
      if ValidCoordinate(d) && !Guarded(piece.kind, offset, piece.position) then Classify(board, piece, d) else []
    case Queen | Bishop | Rook => Ray(board, piece, offset, piece.position)
    case Pawn => PawnOffsetMoves(board, piece, offset)
  }

  /** King.valid_moves breaks out of its offset loop at the first occupied tile it looks at. */
  predicate KingStops(board: seq<Tile>, piece: Piece, offset: int)
    requires ValidTiles(board) && ValidCoordinate(piece.position)
  {
    var d := piece.position + offset;
    piece.kind.King? && ValidCoordinate(d) && !Guarded(piece.kind, offset, piece.position) && board[d].OccupiedTile?
  }

  /** The offset loop of valid_moves over the offsets still to try. */
  function Scan(board: seq<Tile>, piece: Piece, offsets: seq<int>): seq<Move>
    requires ValidTiles(board) && ValidCoordinate(piece.position)
    requires forall i :: 0 <= i < |offsets| ==> offsets[i] != 0
    decreases |offsets|
  {
    if offsets == [] then []
    else if KingStops(board, piece, offsets[0]) then OffsetMoves(board, piece, offsets[0])
    else OffsetMoves(board, piece, offsets[0]) + Scan(board, piece, offsets[1..])
  }

  /** Piece.valid_moves. */
  function PieceMoves(board: seq<Tile>, piece: Piece): seq<Move>
    requires ValidTiles(board) && ValidCoordinate(piece.position)
  {
    Scan(board, piece, MoveOffsets(piece.kind))
  }

  /** Board.calculate_moves: the moves of an arsenal, piece by piece. */
  function ArsenalMoves(board: seq<Tile>, arsenal: seq<Piece>): seq<Move>
    requires ValidTiles(board) && forall p :: p in arsenal ==> ValidCoordinate(p.position)
    decreases |arsenal|
  {
    if arsenal == [] then []
    else ArsenalMoves(board, arsenal[..|arsenal| - 1]) + PieceMoves(board, arsenal[|arsenal| - 1])
  }

  /** One iteration of the offset loop that does not end it: the moves of offset i are appended. */
  lemma ScanAdvance(board: seq<Tile>, piece: Piece, offsets: seq<int>, i: int, before: seq<Move>, after: seq<Move>)
    requires ValidTiles(board) && ValidCoordinate(piece.position)
    requires forall j :: 0 <= j < |offsets| ==> offsets[j] != 0
    requires 0 <= i < |offsets| && !KingStops(board, piece, offsets[i])
    requires before + Scan(board, piece, offsets[i..]) == Scan(board, piece, offsets)
    requires after == before + OffsetMoves(board, piece, offsets[i])
    ensures after + Scan(board, piece, offsets[i + 1..]) == Scan(board, piece, offsets)
  {
    var rest := offsets[i..];
    assert rest[0] == offsets[i] && rest[1..] == offsets[i + 1..];
    var here, tail := OffsetMoves(board, piece, offsets[i]), Scan(board, piece, offsets[i + 1..]);
    assert Scan(board, piece, rest) == here + tail;
    AppendAssociative(before, here, tail);
  }

  lemma AppendAssociative(a: seq<Move>, b: seq<Move>, c: seq<Move>)
    ensures a + (b + c) == (a + b) + c
  {
  }

  /** The iteration at which a king breaks out of the loop completes the scan. */
  lemma ScanStop(board: seq<Tile>, piece: Piece, offsets: seq<int>, i: int, before: seq<Move>, after: seq<Move>)
    requires ValidTiles(board) && ValidCoordinate(piece.position)
    requires forall j :: 0 <= j < |offsets| ==> offsets[j] != 0
    requires 0 <= i < |offsets| && KingStops(board, piece, offsets[i])
    requires before + Scan(board, piece, offsets[i..]) == Scan(board, piece, offsets)
    requires after == before + OffsetMoves(board, piece, offsets[i])
    ensures after == Scan(board, piece, offsets)
  {
  }

  /**
   * One iteration of the loop of King.valid_moves and Knight.valid_moves: the move to the tile the
   * offset reaches, and whether a king breaks out of the loop there.
   */
  method StepOffset(board: seq<Tile>, piece: Piece, offset: int) returns (moves: seq<Move>, stop: bool)
    requires ValidTiles(board) && ValidCoordinate(piece.position) && (piece.kind.King? || piece.kind.Knight?)
    requires offset != 0
    ensures moves == OffsetMoves(board, piece, offset) && stop == KingStops(board, piece, offset)
  {
    moves, stop := [], false;
    var destinationPosition := piece.position + offset;
    if ValidCoordinate(destinationPosition) && !Guarded(piece.kind, offset, piece.position) {
      var tile := board[destinationPosition];
      if !tile.OccupiedTile? {
        moves := [MajorMove(piece, destinationPosition)];
      } else {
        if tile.piece.color != piece.color {
          moves := [AttackMove(piece, destinationPosition, tile.piece)];
        }
        stop := piece.kind.King?;
      }
    }
  }

  /** The loop of King.valid_moves and Knight.valid_moves over their offsets. */
  method StepValidMoves(board: seq<Tile>, piece: Piece, offsets: seq<int>) returns (listOfMoves: seq<Move>)
    requires ValidTiles(board) && ValidCoordinate(piece.position) && (piece.kind.King? || piece.kind.Knight?)
    requires forall i :: 0 <= i < |offsets| ==> offsets[i] != 0
    ensures listOfMoves == Scan(board, piece, offsets)
  {
    listOfMoves := [];
    var i := 0;
    while i < |offsets|
      invariant 0 <= i <= |offsets|
      invariant listOfMoves + Scan(board, piece, offsets[i..]) == Scan(board, piece, offsets)
    {
      ghost var before := listOfMoves;
      var moves, stop := StepOffset(board, piece, offsets[i]);
      listOfMoves := listOfMoves + moves;
      if stop {
        ScanStop(board, piece, offsets, i, before, listOfMoves);
        return;
      }
      ScanAdvance(board, piece, offsets, i, before, listOfMoves);
      i := i + 1;
    }
  }

  /** One iteration of the loop of Queen.valid_moves, Bishop.valid_moves and Rook.valid_moves: the inner scan. */
  method SliderOffset(board: seq<Tile>, piece: Piece, offset: int) returns (listOfMoves: seq<Move>)
    requires ValidTiles(board) && ValidCoordinate(piece.position) && IsSlider(piece.kind) && offset != 0
    ensures listOfMoves == OffsetMoves(board, piece, offset)
  {
    listOfMoves := [];
    var destinationPosition := piece.position;
    while ValidCoordinate(destinationPosition)
      invariant listOfMoves + Ray(board, piece, offset, destinationPosition) == Ray(board, piece, offset, piece.position)
      decreases if offset > 0 then NumTiles - destinationPosition else destinationPosition
    {
      if Guarded(piece.kind, offset, destinationPosition) {
        break;
      }
      ghost var from, movesBefore := destinationPosition, listOfMoves;
      destinationPosition := destinationPosition + offset;
      if ValidCoordinate(destinationPosition) {
        var tile := board[destinationPosition];
        if !tile.OccupiedTile? {
          listOfMoves := listOfMoves + [MajorMove(piece, destinationPosition)];
          AppendAssociative(movesBefore, [MajorMove(piece, destinationPosition)], Ray(board, piece, offset, destinationPosition));
        } else {
          if tile.piece.color != piece.color {
            listOfMoves := listOfMoves + [AttackMove(piece, destinationPosition, tile.piece)];
          }
          assert listOfMoves == movesBefore + Ray(board, piece, offset, from);
          break;
        }
      }
    }
  }

  /** The loop of Queen.valid_moves, Bishop.valid_moves and Rook.valid_moves over their offsets. */
  method SliderValidMoves(board: seq<Tile>, piece: Piece, offsets: seq<int>) returns (listOfMoves: seq<Move>)
    requires ValidTiles(board) && ValidCoordinate(piece.position) && IsSlider(piece.kind)
    requires forall i :: 0 <= i < |offsets| ==> offsets[i] != 0
    ensures listOfMoves == Scan(board, piece, offsets)
  {
    listOfMoves := [];
    var i := 0;
    while i < |offsets|
      invariant 0 <= i <= |offsets|
      invariant listOfMoves + Scan(board, piece, offsets[i..]) == Scan(board, piece, offsets)
    {
      ghost var before := listOfMoves;
      var moves := SliderOffset(board, piece, offsets[i]);
      listOfMoves := listOfMoves + moves;
      ScanAdvance(board, piece, offsets, i, before, listOfMoves);
      i := i + 1;
    }
  }

  /** One iteration of the loop of Pawn.valid_moves. */
  method PawnOffset(board: seq<Tile>, piece: Piece, offset: int) returns (listOfMoves: seq<Move>)
    requires ValidTiles(board) && ValidCoordinate(piece.position) && piece.kind.Pawn? && offset != 0
    ensures listOfMoves == OffsetMoves(board, piece, offset)
  {
    listOfMoves := [];
    var destinationPosition := piece.position + offset * P.Direction(piece.color);
    if ValidCoordinate(destinationPosition) {
      if offset == 8 && !board[destinationPosition].OccupiedTile? {
        listOfMoves := [PawnMove(piece, destinationPosition)];
      } else if offset == 16 && piece.isFirstMove {
        if OnStartRow(piece) {
          var firstTile := piece.position + P.Direction(piece.color) * 8;
          if !(board[firstTile].OccupiedTile? || board[destinationPosition].OccupiedTile?) {
            listOfMoves := [PawnMove(piece, destinationPosition)];
          }
        }
      } else if (offset == 7 && !LeftCaptureExcluded(piece)) || (offset == 9 && !RightCaptureExcluded(piece)) {
        var tile := board[destinationPosition];
        if tile.OccupiedTile? && tile.piece.color != piece.color {
          listOfMoves := [AttackMove(piece, destinationPosition, tile.piece)];
        }
      }
    }
  }

  /** The loop of Pawn.valid_moves over its offsets. */
  method PawnValidMoves(board: seq<Tile>, piece: Piece, offsets: seq<int>) returns (listOfMoves: seq<Move>)
    requires ValidTiles(board) && ValidCoordinate(piece.position) && piece.kind.Pawn?
    requires forall i :: 0 <= i < |offsets| ==> offsets[i] != 0
    ensures listOfMoves == Scan(board, piece, offsets)
  {
    listOfMoves := [];
    var i := 0;
    while i < |offsets|
      invariant 0 <= i <= |offsets|
      invariant listOfMoves + Scan(board, piece, offsets[i..]) == Scan(board, piece, offsets)
    {
      ghost var before := listOfMoves;
      var moves := PawnOffset(board, piece, offsets[i]);
      listOfMoves := listOfMoves + moves;
      ScanAdvance(board, piece, offsets, i, before, listOfMoves);
      i := i + 1;
    }
  }

  /** The dynamic dispatch `piece.valid_moves(game_config)` over the class's offsets. */
  method ValidMoves(board: seq<Tile>, piece: Piece) returns (listOfMoves: seq<Move>)
    requires ValidTiles(board) && ValidCoordinate(piece.position)
    ensures listOfMoves == PieceMoves(board, piece)
  {
    var offsets := MoveOffsets(piece.kind);
    match piece.kind
    case King | Knight => listOfMoves := StepValidMoves(board, piece, offsets);
    case Queen | Bishop | Rook => listOfMoves := SliderValidMoves(board, piece, offsets);
    case Pawn => listOfMoves := PawnValidMoves(board, piece, offsets);
  }

  /** Board.calculate_moves. */
  method CalculateMoves(board: seq<Tile>, arsenal: seq<Piece>) returns (listOfMoves: seq<Move>)
    requires ValidTiles(board) && forall p :: p in arsenal ==> ValidCoordinate(p.position)
    ensures listOfMoves == ArsenalMoves(board, arsenal)
  {
    listOfMoves := [];
    var i := 0;
    while i < |arsenal|
      invariant 0 <= i <= |arsenal|
      invariant listOfMoves == ArsenalMoves(board, arsenal[..i])
    {
      assert arsenal[..i + 1][..i] == arsenal[..i];
      var moves := ValidMoves(board, arsenal[i]);
      listOfMoves := listOfMoves + moves;
      i := i + 1;
    }
    assert arsenal[..i] == arsenal;
  }
}
