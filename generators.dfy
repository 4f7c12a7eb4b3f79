/**
 * Move generation of the two-board engine: the valid_moves of each piece class and
 * Board.calculate_moves. Every generator is a method with the source's loops, proved equal to a
 * specification function; the properties of the moves are lemmas about those functions.
 *
 * The Alice rule: a piece moves with its ordinary geometry, computed on its own board, but lands
 * on the other board, whose destination tile must be empty. The tile at the same index on the
 * piece's own board decides what the move is: empty gives a SimpleMove, an enemy piece an
 * AttackMove on that piece, a friendly piece no move.
 */
module Generators {
  import opened Coordinates
  import opened Pieces
  import opened Moves

  predicate IsSlider(k: Kind) {
    k == Queen || k == Bishop || k == Rook
  }

  /** The move (at most one) a king, knight or slider makes to a destination on the other board. */
  function Classify(g: GameBoards, piece: Piece, destination: Position): seq<Move>
    requires g.Valid() && ValidTile(destination)
  {
    if g.GetTile(destination).OccupiedTile? then []
    else match g.GetTile(FlipBoard(destination))
      case EmptyTile => [SimpleMove(piece, destination)]
      case OccupiedTile(q) => if q.color != piece.color then [AttackMove(piece, destination, q)] else []
  }

  /** The destination of a king or knight offset: the other board, the piece's index plus the offset. */
  function StepTarget(piece: Piece, offset: int): Position {
    Position(NextBoard(piece.position.board), piece.position.index + offset)
  }

  /**
   * The moves of a queen, bishop or rook along one offset, continuing the scan at `from` (on the
   * other board). The guard is tested on the tile the scan stands on; the scan stops after a tile
   * whose same-board tile is occupied, but not after one that is occupied on the arrival board only.
   */
  function Ray(g: GameBoards, piece: Piece, offset: int, from: Position): seq<Move>
    requires g.Valid() && IsSlider(piece.kind) && offset in Offsets(piece.kind)
    decreases if offset > 0 then NumTiles - from.index else from.index
  {
    if !ValidTile(from) || ColumnException(piece.kind, offset, from.index) then []
    else
      var next := Position(from.board, from.index + offset);
      if !ValidTile(next) then []
      else if g.GetTile(next).OccupiedTile? then Ray(g, piece, offset, next)
      else match g.GetTile(FlipBoard(next))
        case EmptyTile => [SimpleMove(piece, next)] + Ray(g, piece, offset, next)
        case OccupiedTile(q) => if q.color != piece.color then [AttackMove(piece, next, q)] else []
  }

  /** The destination of a pawn offset: the other board, the offset taken in the pawn's direction. */
  function PawnTarget(piece: Piece, offset: int): Position {
    Position(NextBoard(piece.position.board), piece.position.index + offset * Direction(piece.color))
  }

  /** A pawn move that lands on the last row is wrapped in a PawnPromotion. */
  function Promote(m: Move, color: Color): (r: Move)
    requires ValidTile(m.destination)
  {
    if IsPawnPromotionSquare(m.destination, color) then PawnPromotion(m, m.destination) else m
  }

  /** The target of an attack by a pawn: an enemy on the same-board tile of the destination. */
  function PawnAttack(g: GameBoards, piece: Piece, destination: Position): seq<Move>
    requires g.Valid() && ValidTile(destination)
  {
    match g.GetTile(FlipBoard(destination))
    case EmptyTile => []
    case OccupiedTile(q) =>
      if q.color != piece.color then [Promote(AttackMove(piece, destination, q), piece.color)] else []
  }

  /** The moves of a pawn for one offset: single step, double first step, the two captures. */
  function PawnOffsetMoves(g: GameBoards, piece: Piece, offset: int): seq<Move>
    requires g.Valid() && OnBoard(piece)
  {
    var destination := PawnTarget(piece, offset);
    if !ValidTile(destination) || g.GetTile(destination).OccupiedTile? then []
    else
      var flipped := FlipBoard(destination);
      if offset == 8 && g.GetTile(flipped).EmptyTile? then
        [Promote(SimpleMove(piece, destination), piece.color)]
      else if offset == 16 && piece.isFirstMove && FirstMoveConfig(piece) then
        var passed := PawnTarget(piece, 8);
        if !(g.GetTile(passed).OccupiedTile? || g.GetTile(flipped).OccupiedTile?) then
          [SimpleMove(piece, destination)]
        else []
      else if offset == 7 && !KillOnLeftException(piece) then PawnAttack(g, piece, destination)
      else if offset == 9 && !KillOnRightException(piece) then PawnAttack(g, piece, destination)
      else []
  }

  /** The moves one iteration of a piece's offset loop produces. */
  function OffsetMoves(g: GameBoards, piece: Piece, offset: int): seq<Move>
    requires g.Valid() && OnBoard(piece) && offset in Offsets(piece.kind)
  {
    match piece.kind
    case King | Knight =>
      var destination := StepTarget(piece, offset);
      if ValidTile(destination) && !ColumnException(piece.kind, offset, piece.position.index)
      then Classify(g, piece, destination)
      else []
    case Queen | Bishop | Rook => Ray(g, piece, offset, FlipBoard(piece.position))
    case Pawn => PawnOffsetMoves(g, piece, offset)
  }

  /** The moves of the offsets taken in order. */
  function OffsetsMoves(g: GameBoards, piece: Piece, offsets: seq<int>): seq<Move>
    requires g.Valid() && OnBoard(piece)
    requires forall o :: o in offsets ==> o in Offsets(piece.kind)
    decreases |offsets|
  {
    if offsets == [] then []
    else OffsetsMoves(g, piece, offsets[..|offsets| - 1]) + OffsetMoves(g, piece, offsets[|offsets| - 1])
  }

  /** Piece.valid_moves. */
  function PieceMoves(g: GameBoards, piece: Piece): seq<Move>
    requires g.Valid() && OnBoard(piece)
  {
    OffsetsMoves(g, piece, Offsets(piece.kind))
  }

  /** Board.calculate_moves: the moves of an arsenal, piece by piece. */
  function ArsenalMoves(g: GameBoards, arsenal: seq<Piece>): seq<Move>
    requires g.Valid() && forall p :: p in arsenal ==> OnBoard(p)
    decreases |arsenal|
  {
    if arsenal == [] then []
    else ArsenalMoves(g, arsenal[..|arsenal| - 1]) + PieceMoves(g, arsenal[|arsenal| - 1])
  }

  /** One more iteration of an offset loop appends the moves of the next offset. */
  lemma OffsetsMovesSnoc(g: GameBoards, piece: Piece, offsets: seq<int>, i: int)
    requires g.Valid() && OnBoard(piece) && forall o :: o in offsets ==> o in Offsets(piece.kind)
    requires 0 <= i < |offsets|
    ensures OffsetsMoves(g, piece, offsets[..i + 1]) == OffsetsMoves(g, piece, offsets[..i]) + OffsetMoves(g, piece, offsets[i])
  {
    assert offsets[..i + 1][..i] == offsets[..i];
  }

  /** One iteration of the offset loop of King.valid_moves and Knight.valid_moves. */
  method StepOffset(g: GameBoards, piece: Piece, offset: int) returns (moves: seq<Move>)
    requires g.Valid() && OnBoard(piece) && (piece.kind == King || piece.kind == Knight)
    requires offset in Offsets(piece.kind)
    ensures moves == OffsetMoves(g, piece, offset)
  {
    moves := [];
    var destination := Position(NextBoard(piece.position.board), piece.position.index + offset);
    if ValidTile(destination) {
      if !ColumnException(piece.kind, offset, piece.position.index) {
        var tileInNextBoard := g.GetTile(destination);
        var tileInThisBoard := g.GetTile(FlipBoard(destination));
        if !tileInNextBoard.OccupiedTile? {
          if !tileInThisBoard.OccupiedTile? {
            moves := [SimpleMove(piece, destination)];
          } else if tileInThisBoard.piece.color != piece.color {
            moves := [AttackMove(piece, destination, tileInThisBoard.piece)];
          }
        }
      }
    }
  }

  /** King.valid_moves and Knight.valid_moves. */
  method StepValidMoves(g: GameBoards, piece: Piece) returns (moves: seq<Move>)
    requires g.Valid() && OnBoard(piece) && (piece.kind == King || piece.kind == Knight)
    ensures moves == PieceMoves(g, piece)
  {
    var offsets := Offsets(piece.kind);
    moves := [];
    var i := 0;
    while i < |offsets|
      invariant 0 <= i <= |offsets|
      invariant moves == OffsetsMoves(g, piece, offsets[..i])
    {
      var step := StepOffset(g, piece, offsets[i]);
      moves := moves + step;
      OffsetsMovesSnoc(g, piece, offsets, i);
      i := i + 1;
    }
    assert offsets[..i] == offsets;
  }

  /** One iteration of the offset loop of Queen.valid_moves, Bishop.valid_moves and Rook.valid_moves: the inner scan. */
  method SliderOffset(g: GameBoards, piece: Piece, offset: int) returns (moves: seq<Move>)
    requires g.Valid() && OnBoard(piece) && IsSlider(piece.kind) && offset in Offsets(piece.kind)
    ensures moves == OffsetMoves(g, piece, offset)
  {
    moves := [];
    var destination := FlipBoard(piece.position);
    while ValidTile(destination)
      invariant moves + Ray(g, piece, offset, destination) == Ray(g, piece, offset, FlipBoard(piece.position))
      decreases if offset > 0 then NumTiles - destination.index else destination.index
    {
      if ColumnException(piece.kind, offset, destination.index) {
        break;
      }
      destination := Position(destination.board, destination.index + offset);
      if ValidTile(destination) {
        var tileInNextBoard := g.GetTile(destination);
        var tileInThisBoard := g.GetTile(FlipBoard(destination));
        if !tileInNextBoard.OccupiedTile? {
          if !tileInThisBoard.OccupiedTile? {
            moves := moves + [SimpleMove(piece, destination)];
          } else {
            if tileInThisBoard.piece.color != piece.color {
              moves := moves + [AttackMove(piece, destination, tileInThisBoard.piece)];
            }
            break;
          }
        }
      }
    }
  }

  /** Queen.valid_moves, Bishop.valid_moves and Rook.valid_moves. */
  method SliderValidMoves(g: GameBoards, piece: Piece) returns (moves: seq<Move>)
    requires g.Valid() && OnBoard(piece) && IsSlider(piece.kind)
    ensures moves == PieceMoves(g, piece)
  {
    var offsets := Offsets(piece.kind);
    moves := [];
    var i := 0;
    while i < |offsets|
      invariant 0 <= i <= |offsets|
      invariant moves == OffsetsMoves(g, piece, offsets[..i])
    {
      var step := SliderOffset(g, piece, offsets[i]);
      moves := moves + step;
      OffsetsMovesSnoc(g, piece, offsets, i);
      i := i + 1;
    }
    assert offsets[..i] == offsets;
  }

  /** One iteration of the offset loop of Pawn.valid_moves. */
  method PawnOffset(g: GameBoards, piece: Piece, offset: int) returns (moves: seq<Move>)
    requires g.Valid() && OnBoard(piece) && piece.kind == Pawn && offset in PawnOffsets
    ensures moves == OffsetMoves(g, piece, offset)
  {
    moves := [];
    var nextIndex := piece.position.index + offset * Direction(piece.color);
    var dest := Position(NextBoard(piece.position.board), nextIndex);
    if ValidTile(dest) && !g.GetTile(dest).OccupiedTile? {
      var flippedPos := FlipBoard(dest);
      if offset == 8 && !g.GetTile(flippedPos).OccupiedTile? {
        if IsPawnPromotionSquare(dest, piece.color) {
          moves := [PawnPromotion(SimpleMove(piece, dest), dest)];
        } else {
          moves := [SimpleMove(piece, dest)];
        }
      } else if offset == 16 && piece.isFirstMove && FirstMoveConfig(piece) {
        var nextPos := Position(NextBoard(piece.position.board), piece.position.index + Direction(piece.color) * 8);
        if !(g.GetTile(nextPos).OccupiedTile? || g.GetTile(flippedPos).OccupiedTile?) {
          moves := [SimpleMove(piece, dest)];
        }
      } else if (offset == 7 && !KillOnLeftException(piece)) || (offset == 9 && !KillOnRightException(piece)) {
        var tile := g.GetTile(flippedPos);
        if tile.OccupiedTile? && tile.piece.color != piece.color {
          if IsPawnPromotionSquare(dest, piece.color) {
            moves := [PawnPromotion(AttackMove(piece, dest, tile.piece), dest)];
          } else {
            moves := [AttackMove(piece, dest, tile.piece)];
          }
        }
      }
    }
  }

  /** Pawn.valid_moves. */
  method PawnValidMoves(g: GameBoards, piece: Piece) returns (moves: seq<Move>)
    requires g.Valid() && OnBoard(piece) && piece.kind == Pawn
    ensures moves == PieceMoves(g, piece)
  {
    var offsets := PawnOffsets;
    moves := [];
    var i := 0;
    while i < |offsets|
      invariant 0 <= i <= |offsets|
      invariant moves == OffsetsMoves(g, piece, offsets[..i])
    {
      var step := PawnOffset(g, piece, offsets[i]);
      moves := moves + step;
      OffsetsMovesSnoc(g, piece, offsets, i);
      i := i + 1;
    }
    assert offsets[..i] == offsets;
  }

  /** The dynamic dispatch `piece.valid_moves(board)`. */
  method ValidMoves(g: GameBoards, piece: Piece) returns (moves: seq<Move>)
    requires g.Valid() && OnBoard(piece)
    ensures moves == PieceMoves(g, piece)
  {
    match piece.kind
    case King | Knight => moves := StepValidMoves(g, piece);
    case Queen | Bishop | Rook => moves := SliderValidMoves(g, piece);
    case Pawn => moves := PawnValidMoves(g, piece);
  }

  /** Board.calculate_moves. */
  method CalculateMoves(g: GameBoards, arsenal: seq<Piece>) returns (listOfMoves: seq<Move>)
    requires g.Valid() && forall p :: p in arsenal ==> OnBoard(p)
    ensures listOfMoves == ArsenalMoves(g, arsenal)
  {
    listOfMoves := [];
    var i := 0;
    while i < |arsenal|
      invariant 0 <= i <= |arsenal|
      invariant listOfMoves == ArsenalMoves(g, arsenal[..i])
    {
      assert arsenal[..i + 1][..i] == arsenal[..i];
      var moves := ValidMoves(g, arsenal[i]);
      listOfMoves := listOfMoves + moves;
      i := i + 1;
    }
    assert arsenal[..i] == arsenal;
  }
}
