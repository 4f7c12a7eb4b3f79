/**
 * The three kinds of move of the two-board engine (aliceengine.py, classes SimpleMove,
 * AttackMove, PawnPromotion) and the two boards of tiles they are generated over.
 */
module Moves {
  import opened Coordinates
  import opened Pieces

  /**
   * A move. Its destination is on the board opposite the moving piece. A PawnPromotion wraps the
   * move that causes it and keeps its own copy of the destination: the legality probe flips only
   * that outer copy (aliceengine.py:1748-1749), so the two may differ.
   */
  datatype Move =
    | SimpleMove(piece: Piece, destination: Position)
    | AttackMove(piece: Piece, destination: Position, attackedPiece: Piece)
    | PawnPromotion(move: Move, destination: Position)
  {
    /** The piece that moves (PawnPromotion copies it from the wrapped move). */
    function MovedPiece(): Piece {
      match this
      case SimpleMove(p, _) => p
      case AttackMove(p, _, _) => p
      case PawnPromotion(m, _) => m.MovedPiece()
    }

    predicate IsAttack() {
      match this
      case SimpleMove(_, _) => false
      case AttackMove(_, _, _) => true
      case PawnPromotion(m, _) => m.IsAttack()
    }
  }

  /**
   * The ordering value of a move: the position value of the moving piece on its current tile,
   * plus the full value of the captured piece for an attack, doubled for a promotion.
   */
  function OrderingValue(m: Move): int
    requires OnBoard(m.MovedPiece())
    requires m.AttackMove? ==> OnBoard(m.attackedPiece)
    requires m.PawnPromotion? ==> (m.move.AttackMove? ==> OnBoard(m.move.attackedPiece))
    requires m.PawnPromotion? ==> !m.move.PawnPromotion?
  {
    match m
    case SimpleMove(p, _) => PositionValue(p.kind, p.position.index, p.color)
    case AttackMove(p, _, c) => PositionValue(p.kind, p.position.index, p.color) + Value(c)
    case PawnPromotion(inner, _) => 2 * OrderingValue(inner)
  }

  /**
   * Moves of one piece to one square are ordered by what they capture: the value depends on the
   * piece's current tile, not on the destination; a capture ranks above the quiet move exactly when
   * the captured piece's value is positive; two captures rank as the captured pieces' values, and a
   * promotion keeps that ranking.
   */
  lemma CaptureOrdering(p: Piece, d: Position, d2: Position, c1: Piece, c2: Piece)
    requires OnBoard(p) && OnBoard(c1) && OnBoard(c2)
    ensures OrderingValue(SimpleMove(p, d)) == OrderingValue(SimpleMove(p, d2))
    ensures OrderingValue(SimpleMove(p, d)) < OrderingValue(AttackMove(p, d, c1)) <==> Value(c1) > 0
    ensures OrderingValue(AttackMove(p, d, c1)) < OrderingValue(AttackMove(p, d2, c2)) <==> Value(c1) < Value(c2)
    ensures OrderingValue(PawnPromotion(AttackMove(p, d, c1), d)) < OrderingValue(PawnPromotion(AttackMove(p, d2, c2), d2))
      <==> Value(c1) < Value(c2)
  {
  }

  /**
   * The copy of a move that make_move_without_changing_board executes: the destination is flipped
   * back to the moving piece's own board (only the outer destination of a promotion).
   */
  function ProbeMove(m: Move): (r: Move)
    ensures r.destination == FlipBoard(m.destination)
    ensures r.MovedPiece() == m.MovedPiece()
  {
    match m
    case SimpleMove(p, d) => SimpleMove(p, FlipBoard(d))
    case AttackMove(p, d, c) => AttackMove(p, FlipBoard(d), c)
    case PawnPromotion(inner, d) => PawnPromotion(inner, FlipBoard(d))
  }

  /** A tile of a board: EmptyTile or OccupiedTile. */
  datatype Tile = EmptyTile | OccupiedTile(piece: Piece)

  /** game_board1 and game_board2 of a Board: 64 tiles each. */
  datatype GameBoards = GameBoards(gameBoard1: seq<Tile>, gameBoard2: seq<Tile>) {
    predicate Valid() {
      |gameBoard1| == NumTiles && |gameBoard2| == NumTiles
    }

    /** Board.get_tile. */
    function GetTile(p: Position): Tile
      requires Valid() && ValidTile(p)
    {
      if p.board == BoardOne then gameBoard1[p.index] else gameBoard2[p.index]
    }

    /** Every piece stands on the tile its own position names. */
    predicate Consistent()
      requires Valid()
    {
      (forall i :: 0 <= i < NumTiles && gameBoard1[i].OccupiedTile? ==> gameBoard1[i].piece.position == Position(BoardOne, i)) &&
      (forall i :: 0 <= i < NumTiles && gameBoard2[i].OccupiedTile? ==> gameBoard2[i].piece.position == Position(BoardTwo, i))
    }
  }
}
