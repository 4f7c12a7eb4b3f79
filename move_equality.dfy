/**
 * Equality of moves, which decides Player.is_legal_move (`move in self.legal_moves`).
 *
 * Move.__eq__ (aliceengine.py:1380-1387, alice5500.py:678-679) compares `self.piece` with
 * itself, so as written two quiet moves are equal as soon as their destinations are. The rest
 * of the model uses the corrected equality, under which legality is plain membership.
 */
module MoveEquality {
  import opened Coordinates
  import opened Pieces
  import opened Moves
  import opened Generators
  import opened MoveRules

  /** Move.__eq__ as written, for a quiet move on the left: the piece comparison is a tautology. */
  function QuietMoveEqualsAsWritten(a: Move, b: Move): (r: bool)
    requires a.SimpleMove?
    ensures r <==> a.destination == b.destination
  {
    a.destination == b.destination && a.piece == a.piece
  }

  /** is_legal_move for a quiet move as written: some listed move compares equal to it. */
  predicate IsLegalAsWritten(m: Move, legal: seq<Move>)
    requires m.SimpleMove?
  {
    exists e :: e in legal && QuietMoveEqualsAsWritten(m, e)
  }

  /**
   * With a knight's move to c3 on the second board listed, a rook's move to the same square is
   * accepted as legal, although no listed move is that move.
   */
  lemma AsWrittenAcceptsUnlistedMove()
    ensures var target := Position(BoardTwo, 42);
            var legal := [SimpleMove(NewPiece(Knight, Position(BoardOne, 57), White), target)];
            var m := SimpleMove(NewPiece(Rook, Position(BoardOne, 58), White), target);
            m !in legal && IsLegalAsWritten(m, legal)
  {
    var target := Position(BoardTwo, 42);
    var listed := SimpleMove(NewPiece(Knight, Position(BoardOne, 57), White), target);
    var m := SimpleMove(NewPiece(Rook, Position(BoardOne, 58), White), target);
    assert QuietMoveEqualsAsWritten(m, listed);
    assert m != listed by {
      assert m.piece.kind != listed.piece.kind;
    }
  }

  /**
   * The evidently intended equality: same kind of move, the other move's piece equal to this
   * one's, same destination, same captured piece for an attack; a promotion compares the moves
   * it wraps (PawnPromotion.__eq__, aliceengine.py:1566-1574).
   */
  function MoveEquals(a: Move, b: Move): (r: bool)
    ensures !a.PawnPromotion? ==> (r <==> a == b)
    ensures a.PawnPromotion? && !a.move.PawnPromotion? ==> (r <==> b.PawnPromotion? && a.move == b.move)
  {
    match a
    case SimpleMove(p, d) => b.SimpleMove? && d == b.destination && p == b.piece
    case AttackMove(p, d, c) => b.AttackMove? && d == b.destination && p == b.piece && c == b.attackedPiece
    case PawnPromotion(inner, _) =>
      b.PawnPromotion? && MoveEquals(inner, b.move)
  }

  /**
   * A promotion as the pawn generator builds it: it wraps a move that is not itself a promotion
   * and carries that move's destination.
   */
  predicate GeneratedShape(m: Move) {
    m.PawnPromotion? ==> !m.move.PawnPromotion? && m.destination == m.move.destination
  }

  /**
   * Under the corrected equality, is_legal_move is membership: for a move that is not a
   * promotion always, and for a promotion when it and the listed promotions have the shape the
   * generator gives them.
   */
  lemma {:induction false} CorrectedLegalityIsMembership(m: Move, legal: seq<Move>)
    requires m.PawnPromotion? ==> GeneratedShape(m) && forall e :: e in legal ==> GeneratedShape(e)
    ensures (exists e :: e in legal && MoveEquals(m, e)) <==> m in legal
  {
    if m in legal {
      assert MoveEquals(m, m);
    }
    if e :| e in legal && MoveEquals(m, e) {
      if m.PawnPromotion? {
        assert e.move == m.move && e.destination == e.move.destination;
        assert e == m;
      }
    }
  }

  /** Every move calculate_moves yields has the generated shape, so its legality is membership. */
  lemma ArsenalMovesShaped(g: GameBoards, arsenal: seq<Piece>, m: Move)
    requires g.Valid() && forall p :: p in arsenal ==> OnBoard(p)
    requires m in ArsenalMoves(g, arsenal)
    ensures GeneratedShape(m)
  {
    ArsenalMovesAreAliceMoves(g, arsenal, m);
  }
}
