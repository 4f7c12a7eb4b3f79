/**
 * Move execution of the two-board engine (aliceengine.py, execute_move of Move, AttackMove and
 * PawnPromotion). Executing a move builds a fresh board through a BoardBuilder: the pieces of
 * the player to move except the moving piece, the opponent's pieces (except the captured one),
 * the moved piece at the destination, and the mover's colour as next move maker. Building can
 * fail with a missing king, which is how capturing a king surfaces.
 */
module Execution {
  import opened Wrappers
  import opened Coordinates
  import opened Pieces
  import opened Moves
  import opened Boards
  import opened Generators
  import opened MoveRules

  /** The pieces of a list that are not equal to x, in order (the `if not x == piece` filter). */
  function Without(pieces: seq<Piece>, x: Piece): (r: seq<Piece>)
    ensures forall p :: p in r <==> p in pieces && p != x
    decreases |pieces|
  {
    if pieces == [] then []
    else
      var last := pieces[|pieces| - 1];
      assert pieces == pieces[..|pieces| - 1] + [last];
      Without(pieces[..|pieces| - 1], x) + if last != x then [last] else []
  }

  /** What the builder of Move.execute_move and AttackMove.execute_move holds before build(). */
  function ExecuteStaging(b: Board, m: Move): (s: Staging)
    requires !m.PawnPromotion?
    ensures StagingValid(s)
  {
    SetPieces(EmptyStaging(), Kept(b, m) + [MovePiece(m.piece, m.destination)]).(nextMoveMaker := Some(b.currentColor))
  }

  /** The pieces a simple or attack move sets before the moved piece, in the order it sets them. */
  function Kept(b: Board, m: Move): seq<Piece>
    requires !m.PawnPromotion?
  {
    var current := b.PiecesOfColor(b.currentColor);
    var opponent := b.PiecesOfColor(Opponent(b.currentColor));
    Without(current, m.piece) + if m.AttackMove? then Without(opponent, m.attackedPiece) else opponent
  }

  /** The pieces a simple or attack move drops: the mover among its own side, the captured piece among the other. */
  predicate Excluded(b: Board, m: Move, p: Piece)
    requires !m.PawnPromotion?
  {
    (p.color == b.currentColor && p == m.piece) ||
    (m.AttackMove? && p.color != b.currentColor && p == m.attackedPiece)
  }

  lemma KeptMembership(b: Board, m: Move, p: Piece)
    requires WellFormed(b) && !m.PawnPromotion?
    ensures p in Kept(b, m) <==>
      ValidTile(p.position) && b.gameBoards.GetTile(p.position) == OccupiedTile(p) && !Excluded(b, m, p)
  {
    var cur := b.currentColor;
    PiecesOfMembership(b.gameBoards, cur, p);
    PiecesOfMembership(b.gameBoards, Opponent(cur), p);
    var current := b.PiecesOfColor(cur);
    var opponent := b.PiecesOfColor(Opponent(cur));
    assert current == PiecesOf(b.gameBoards, cur);
    assert opponent == PiecesOf(b.gameBoards, Opponent(cur));
    assert p in Kept(b, m) <==>
      (p in Without(current, m.piece) || p in (if m.AttackMove? then Without(opponent, m.attackedPiece) else opponent));
  }

  /**
   * What the builder of PawnPromotion.execute_move holds before build(), given the board the
   * wrapped move produced: that board's player to move keeps all pieces except ones equal to the
   * original pawn, the other side keeps all, and a queen of the pawn's colour is set at the
   * promotion's own destination.
   */
  function PromotionStaging(next: Board, pawn: Piece, destination: Position): (s: Staging)
    ensures StagingValid(s)
  {
    var kept := Without(next.PiecesOfColor(next.currentColor), pawn) + next.PiecesOfColor(Opponent(next.currentColor));
    SetPieces(EmptyStaging(), kept + [PromotedPiece(pawn, destination)]).(nextMoveMaker := Some(Opponent(next.currentColor)))
  }

  /** execute_move of the three kinds of move; an error names the colour whose king is missing. */
  function Execute(b: Board, m: Move): Result<Board, Color>
    decreases m
  {
    match m
    case PawnPromotion(inner, d) =>
      var next :- Execute(b, inner);
      BuildBoard(PromotionStaging(next, m.MovedPiece(), d))
    case _ => BuildBoard(ExecuteStaging(b, m))
  }

  /** Every execution hands the turn to the other colour. */
  lemma {:induction false} ExecuteSwitchesTurn(b: Board, m: Move)
    requires Execute(b, m).Ok?
    ensures Execute(b, m).value.currentColor == Opponent(b.currentColor)
    decreases m
  {
    match m
    case PawnPromotion(inner, d) =>
      ExecuteSwitchesTurn(b, inner);
      BuildBoardOutcome(PromotionStaging(Execute(b, inner).value, m.MovedPiece(), d));
    case _ =>
      BuildBoardOutcome(ExecuteStaging(b, m));
  }

  /**
   * The tile a simple or attack move leaves at q: the moved piece at the destination; the tile
   * emptied when it held the moving piece (among the mover's pieces) or the attacked piece (among
   * the opponent's pieces); every other tile as it was.
   */
  function TileAfter(b: Board, m: Move, q: Position): Tile
    requires b.gameBoards.Valid() && ValidTile(q) && !m.PawnPromotion?
  {
    if q == m.destination then OccupiedTile(MovePiece(m.piece, m.destination))
    else match b.gameBoards.GetTile(q)
      case EmptyTile => EmptyTile
      case OccupiedTile(p) => if Excluded(b, m, p) then EmptyTile else OccupiedTile(p)
  }

  function TileOf(o: Option<Piece>): Tile {
    if o.Some? then OccupiedTile(o.value) else EmptyTile
  }

  /** Setting a list of pieces on an empty staging puts on a tile the one piece of the list standing there, or nothing. */
  lemma SetPiecesTile(pieces: seq<Piece>, q: Position, t: Tile)
    requires ValidTile(q)
    requires forall p :: p in pieces && p.position == q ==> t == OccupiedTile(p)
    requires t.OccupiedTile? ==> t.piece in pieces && t.piece.position == q
    ensures TileOf(ConfigAt(SetPieces(EmptyStaging(), pieces), q)) == t
  {
    if t.OccupiedTile? {
      SetPiecesUnique(EmptyStaging(), pieces, t.piece);
    } else {
      SetPiecesAbsent(EmptyStaging(), pieces, q);
    }
  }

  lemma ExecuteStagingAt(b: Board, m: Move, q: Position)
    requires WellFormed(b) && !m.PawnPromotion? && ValidTile(q)
    ensures TileOf(ConfigAt(ExecuteStaging(b, m), q)) == TileAfter(b, m, q)
  {
    var g := b.gameBoards;
    var kept := Kept(b, m);
    var moved := MovePiece(m.piece, m.destination);
    var all := kept + [moved];
    var s0 := SetPieces(EmptyStaging(), all);
    assert ConfigAt(ExecuteStaging(b, m), q) == ConfigAt(s0, q);
    assert all[..|all| - 1] == kept && all[|all| - 1] == moved;
    assert s0 == WithPiece(SetPieces(EmptyStaging(), kept), moved);
    if q != m.destination {
      assert ConfigAt(s0, q) == ConfigAt(SetPieces(EmptyStaging(), kept), q);
      KeptAt(b, m, q);
    }
  }

  lemma KeptAt(b: Board, m: Move, q: Position)
    requires WellFormed(b) && !m.PawnPromotion? && ValidTile(q) && q != m.destination
    ensures TileOf(ConfigAt(SetPieces(EmptyStaging(), Kept(b, m)), q)) == TileAfter(b, m, q)
  {
    var g := b.gameBoards;
    var kept := Kept(b, m);
    var t := TileAfter(b, m, q);
    forall p | p in kept && p.position == q
      ensures t == OccupiedTile(p)
    {
      KeptMembership(b, m, p);
    }
    if t.OccupiedTile? {
      ConsistentAt(g, q);
      KeptMembership(b, m, t.piece);
    }
    SetPiecesTile(kept, q, t);
  }

  /**
   * Executing a simple or attack move on a well-formed board builds a well-formed board whose
   * every tile is the one TileAfter describes.
   */
  lemma ExecuteTiles(b: Board, m: Move)
    requires WellFormed(b) && !m.PawnPromotion?
    requires Execute(b, m).Ok?
    ensures WellFormed(Execute(b, m).value)
    ensures forall q :: ValidTile(q) ==> Execute(b, m).value.gameBoards.GetTile(q) == TileAfter(b, m, q)
  {
    var s := ExecuteStaging(b, m);
    BuildBoardOutcome(s);
    forall q | ValidTile(q)
      ensures Execute(b, m).value.gameBoards.GetTile(q) == TileAfter(b, m, q)
    {
      ExecuteStagingAt(b, m, q);
    }
  }

  /** Whatever is executed, a board that gets built is well formed. */
  lemma ExecuteWellFormed(b: Board, m: Move)
    requires Execute(b, m).Ok?
    ensures WellFormed(Execute(b, m).value)
  {
    match m
    case PawnPromotion(inner, d) =>
      BuildBoardOutcome(PromotionStaging(Execute(b, inner).value, m.MovedPiece(), d));
    case _ =>
      BuildBoardOutcome(ExecuteStaging(b, m));
  }

  lemma TileAfterLanding(b: Board, p: Piece, m: Move, q: Position)
    requires WellFormed(b) && Lands(b.gameBoards, p, m) && ValidTile(q)
    requires p.color == b.currentColor && ValidTile(p.position) && b.gameBoards.GetTile(p.position) == OccupiedTile(p)
    ensures TileAfter(b, m, q) ==
      if q == m.destination then OccupiedTile(MovePiece(p, m.destination))
      else if q == p.position || (m.AttackMove? && q == FlipBoard(m.destination)) then EmptyTile
      else b.gameBoards.GetTile(q)
  {
    if b.gameBoards.GetTile(q).OccupiedTile? {
      ConsistentAt(b.gameBoards, q);
    }
  }

  /**
   * A simple or attack move of a piece of the player to move that lands by the Alice rule: the
   * moved piece appears at the destination on the other board, its old tile is emptied, a
   * captured piece disappears from the mover's own board, and nothing else changes.
   */
  lemma ExecuteLandingMove(b: Board, p: Piece, m: Move)
    requires WellFormed(b) && Lands(b.gameBoards, p, m)
    requires p.color == b.currentColor && ValidTile(p.position) && b.gameBoards.GetTile(p.position) == OccupiedTile(p)
    requires Execute(b, m).Ok?
    ensures WellFormed(Execute(b, m).value)
    ensures var t := Execute(b, m).value.gameBoards;
      forall q :: ValidTile(q) ==>
        t.GetTile(q) ==
          if q == m.destination then OccupiedTile(MovePiece(p, m.destination))
          else if q == p.position || (m.AttackMove? && q == FlipBoard(m.destination)) then EmptyTile
          else b.gameBoards.GetTile(q)
  {
    ExecuteTiles(b, m);
    forall q | ValidTile(q)
      ensures TileAfter(b, m, q) ==
        if q == m.destination then OccupiedTile(MovePiece(p, m.destination))
        else if q == p.position || (m.AttackMove? && q == FlipBoard(m.destination)) then EmptyTile
        else b.gameBoards.GetTile(q)
    {
      TileAfterLanding(b, p, m, q);
    }
  }

  /** Executing a generated move of the player to move, including a promotion, in Alice terms. */
  lemma ExecuteGeneratedMove(b: Board, m: Move)
    requires WellFormed(b) && m in b.MovesOfColor(b.currentColor)
    requires Execute(b, m).Ok?
    ensures WellFormed(Execute(b, m).value)
    ensures var p, d, t := m.MovedPiece(), m.destination, Execute(b, m).value.gameBoards;
      forall q :: ValidTile(q) ==>
        t.GetTile(q) ==
          if q == d then OccupiedTile(if m.PawnPromotion? then PromotedPiece(p, d) else MovePiece(p, d))
          else if q == p.position || (m.IsAttack() && q == FlipBoard(d)) then EmptyTile
          else b.gameBoards.GetTile(q)
  {
    var g, cur := b.gameBoards, b.currentColor;
    ExecuteWellFormed(b, m);
    ArsenalMovesAreAliceMoves(g, b.PiecesOfColor(cur), m);
    var p := m.MovedPiece();
    PiecesOfMembership(g, cur, p);
    if m.PawnPromotion? {
      GeneratedPromotion(b, p, m);
    } else {
      ExecuteLandingMove(b, p, m);
    }
  }

  lemma GeneratedPromotion(b: Board, p: Piece, m: Move)
    requires WellFormed(b) && m.PawnPromotion? && m.MovedPiece() == p && AliceMove(b.gameBoards, p, m)
    requires p.color == b.currentColor && ValidTile(p.position) && b.gameBoards.GetTile(p.position) == OccupiedTile(p)
    requires Execute(b, m).Ok?
    ensures WellFormed(Execute(b, m).value)
    ensures var d, t := m.destination, Execute(b, m).value.gameBoards;
      forall q :: ValidTile(q) ==>
        t.GetTile(q) ==
          if q == d then OccupiedTile(PromotedPiece(p, d))
          else if q == p.position || (m.IsAttack() && q == FlipBoard(d)) then EmptyTile
          else b.gameBoards.GetTile(q)
  {
    var inner, d := m.move, m.destination;
    ExecutePromotion(b, m);
    var next := Execute(b, inner).value;
    ExecuteLandingMove(b, p, inner);
    ExecuteSwitchesTurn(b, inner);
    PromotionTiles(next, p, d);
    ExecuteWellFormed(b, m);
    assert m.IsAttack() == inner.AttackMove?;
    PromotionAfterLanding(b.gameBoards, next, Execute(b, m).value.gameBoards, p, inner, d);
  }

  /** A promotion that executes first executes the wrapped move, then builds from that board. */
  lemma ExecutePromotion(b: Board, m: Move)
    requires m.PawnPromotion? && Execute(b, m).Ok?
    ensures Execute(b, m.move).Ok?
    ensures Execute(b, m) == BuildBoard(PromotionStaging(Execute(b, m.move).value, m.MovedPiece(), m.destination))
  {
  }

  /** Chaining the tiles a landing move leaves with the tiles the promotion then builds. */
  lemma PromotionAfterLanding(g: GameBoards, next: Board, t: GameBoards, p: Piece, inner: Move, d: Position)
    requires g.Valid() && next.gameBoards.Valid() && t.Valid() && !inner.PawnPromotion?
    requires p.color != next.currentColor && inner.destination == d
    requires forall q :: ValidTile(q) ==>
      next.gameBoards.GetTile(q) ==
        if q == d then OccupiedTile(MovePiece(p, d))
        else if q == p.position || (inner.AttackMove? && q == FlipBoard(d)) then EmptyTile
        else g.GetTile(q)
    requires forall q :: ValidTile(q) ==>
      t.GetTile(q) ==
        if q == d then OccupiedTile(PromotedPiece(p, d))
        else if next.gameBoards.GetTile(q) == OccupiedTile(p) && p.color == next.currentColor then EmptyTile
        else next.gameBoards.GetTile(q)
    ensures forall q :: ValidTile(q) ==>
      t.GetTile(q) ==
        if q == d then OccupiedTile(PromotedPiece(p, d))
        else if q == p.position || (inner.AttackMove? && q == FlipBoard(d)) then EmptyTile
        else g.GetTile(q)
  {
  }

  /**
   * The board PawnPromotion.execute_move builds from the wrapped move's board: a queen of the
   * pawn's colour at the promotion's destination; pieces equal to the original pawn dropped from
   * the side to move; every other tile as it was.
   */
  lemma PromotionTiles(next: Board, pawn: Piece, d: Position)
    requires WellFormed(next) && ValidTile(d)
    requires BuildBoard(PromotionStaging(next, pawn, d)).Ok?
    ensures var t := BuildBoard(PromotionStaging(next, pawn, d)).value.gameBoards;
      forall q :: ValidTile(q) ==>
        t.GetTile(q) ==
          if q == d then OccupiedTile(PromotedPiece(pawn, d))
          else if next.gameBoards.GetTile(q) == OccupiedTile(pawn) && pawn.color == next.currentColor then EmptyTile
          else next.gameBoards.GetTile(q)
  {
    var s := PromotionStaging(next, pawn, d);
    BuildBoardOutcome(s);
    forall q | ValidTile(q)
      ensures TileOf(ConfigAt(s, q)) ==
        if q == d then OccupiedTile(PromotedPiece(pawn, d))
        else if next.gameBoards.GetTile(q) == OccupiedTile(pawn) && pawn.color == next.currentColor then EmptyTile
        else next.gameBoards.GetTile(q)
    {
      PromotionStagingAt(next, pawn, d, q);
    }
  }

  lemma PromotionStagingAt(next: Board, pawn: Piece, d: Position, q: Position)
    requires WellFormed(next) && ValidTile(d) && ValidTile(q)
    ensures TileOf(ConfigAt(PromotionStaging(next, pawn, d), q)) ==
      if q == d then OccupiedTile(PromotedPiece(pawn, d))
      else if next.gameBoards.GetTile(q) == OccupiedTile(pawn) && pawn.color == next.currentColor then EmptyTile
      else next.gameBoards.GetTile(q)
  {
    var g, cur := next.gameBoards, next.currentColor;
    var kept := Without(next.PiecesOfColor(cur), pawn) + next.PiecesOfColor(Opponent(cur));
    var queen := PromotedPiece(pawn, d);
    var all := kept + [queen];
    assert all[..|all| - 1] == kept && all[|all| - 1] == queen;
    assert SetPieces(EmptyStaging(), all) == WithPiece(SetPieces(EmptyStaging(), kept), queen);
    if q != d {
      PromotionKeptAt(next, pawn, kept, q);
    }
  }

  lemma PromotionKeptAt(next: Board, pawn: Piece, kept: seq<Piece>, q: Position)
    requires WellFormed(next) && ValidTile(q)
    requires kept == Without(next.PiecesOfColor(next.currentColor), pawn) + next.PiecesOfColor(Opponent(next.currentColor))
    ensures TileOf(ConfigAt(SetPieces(EmptyStaging(), kept), q)) ==
      if next.gameBoards.GetTile(q) == OccupiedTile(pawn) && pawn.color == next.currentColor then EmptyTile
      else next.gameBoards.GetTile(q)
  {
    var g, cur := next.gameBoards, next.currentColor;
    var t := if g.GetTile(q) == OccupiedTile(pawn) && pawn.color == cur then EmptyTile else g.GetTile(q);
    forall p | p in kept && p.position == q
      ensures t == OccupiedTile(p)
    {
      PromotionKeptMembership(next, pawn, kept, p);
    }
    if t.OccupiedTile? {
      ConsistentAt(g, q);
      PromotionKeptMembership(next, pawn, kept, t.piece);
    }
    SetPiecesTile(kept, q, t);
  }

  /** The pieces a promotion keeps are the pieces on the board other than the pawn among the player to move's. */
  lemma PromotionKeptMembership(next: Board, pawn: Piece, kept: seq<Piece>, p: Piece)
    requires WellFormed(next)
    requires kept == Without(next.PiecesOfColor(next.currentColor), pawn) + next.PiecesOfColor(Opponent(next.currentColor))
    ensures p in kept <==>
      ValidTile(p.position) && next.gameBoards.GetTile(p.position) == OccupiedTile(p) &&
      !(p == pawn && p.color == next.currentColor)
  {
    var g, cur := next.gameBoards, next.currentColor;
    PiecesOfMembership(g, cur, p);
    PiecesOfMembership(g, Opponent(cur), p);
    assert next.PiecesOfColor(cur) == PiecesOf(g, cur);
    assert next.PiecesOfColor(Opponent(cur)) == PiecesOf(g, Opponent(cur));
  }

  lemma TileAfterProbe(b: Board, p: Piece, m: Move, q: Position)
    requires WellFormed(b) && Lands(b.gameBoards, p, m) && ValidTile(q)
    requires p.color == b.currentColor && ValidTile(p.position) && b.gameBoards.GetTile(p.position) == OccupiedTile(p)
    ensures TileAfter(b, ProbeMove(m), q) ==
      if q == FlipBoard(m.destination) then OccupiedTile(MovePiece(p, FlipBoard(m.destination)))
      else if q == p.position then EmptyTile
      else b.gameBoards.GetTile(q)
  {
    if b.gameBoards.GetTile(q).OccupiedTile? {
      ConsistentAt(b.gameBoards, q);
    }
  }

  /**
   * The copy make_move_without_changing_board executes plays a simple or attack move on the
   * piece's own board: the moved piece lands on the tile below the destination (replacing a
   * captured piece there), its old tile is emptied, and nothing else changes.
   */
  lemma ExecuteProbeMove(b: Board, p: Piece, m: Move)
    requires WellFormed(b) && Lands(b.gameBoards, p, m)
    requires p.color == b.currentColor && ValidTile(p.position) && b.gameBoards.GetTile(p.position) == OccupiedTile(p)
    requires Execute(b, ProbeMove(m)).Ok?
    ensures WellFormed(Execute(b, ProbeMove(m)).value)
    ensures var t := Execute(b, ProbeMove(m)).value.gameBoards;
      forall q :: ValidTile(q) ==>
        t.GetTile(q) ==
          if q == FlipBoard(m.destination) then OccupiedTile(MovePiece(p, FlipBoard(m.destination)))
          else if q == p.position then EmptyTile
          else b.gameBoards.GetTile(q)
  {
    ExecuteTiles(b, ProbeMove(m));
    forall q | ValidTile(q)
      ensures TileAfter(b, ProbeMove(m), q) ==
        if q == FlipBoard(m.destination) then OccupiedTile(MovePiece(p, FlipBoard(m.destination)))
        else if q == p.position then EmptyTile
        else b.gameBoards.GetTile(q)
    {
      TileAfterProbe(b, p, m, q);
    }
  }

  /**
   * The copy make_move_without_changing_board executes for a promotion flips only the outer
   * destination: the wrapped move still lands the pawn on the other board, and the Queen is then
   * added on the piece's own board, below it. The pawn's old tile is emptied, a captured piece
   * there is replaced by the Queen, and nothing else changes.
   */
  lemma ExecuteProbePromotion(b: Board, p: Piece, m: Move)
    requires WellFormed(b) && m.PawnPromotion? && m.MovedPiece() == p && AliceMove(b.gameBoards, p, m)
    requires p.color == b.currentColor && ValidTile(p.position) && b.gameBoards.GetTile(p.position) == OccupiedTile(p)
    requires Execute(b, ProbeMove(m)).Ok?
    ensures WellFormed(Execute(b, ProbeMove(m)).value)
    ensures var d, t := m.destination, Execute(b, ProbeMove(m)).value.gameBoards;
      forall q :: ValidTile(q) ==>
        t.GetTile(q) ==
          if q == FlipBoard(d) then OccupiedTile(PromotedPiece(p, FlipBoard(d)))
          else if q == d then OccupiedTile(MovePiece(p, d))
          else if q == p.position then EmptyTile
          else b.gameBoards.GetTile(q)
  {
    var inner, d := m.move, m.destination;
    var probe := ProbeMove(m);
    assert probe == PawnPromotion(inner, FlipBoard(d)) && probe.MovedPiece() == p;
    ExecutePromotion(b, probe);
    var next := Execute(b, inner).value;
    ExecuteLandingMove(b, p, inner);
    ExecuteSwitchesTurn(b, inner);
    PromotionTiles(next, p, FlipBoard(d));
    ExecuteWellFormed(b, probe);
    ProbePromotionAfterLanding(b.gameBoards, next, Execute(b, probe).value.gameBoards, p, inner, d);
  }

  /**
   * The probe of any generated move of the player to move: a simple or attack move lands below its
   * destination on the piece's own board; a promotion leaves the pawn at its destination on the
   * other board and adds the Queen below it. The pawn's old tile is emptied and nothing else changes.
   */
  lemma ExecuteGeneratedProbe(b: Board, m: Move)
    requires WellFormed(b) && m in b.MovesOfColor(b.currentColor)
    requires Execute(b, ProbeMove(m)).Ok?
    ensures WellFormed(Execute(b, ProbeMove(m)).value)
    ensures var p, d, t := m.MovedPiece(), m.destination, Execute(b, ProbeMove(m)).value.gameBoards;
      forall q :: ValidTile(q) ==>
        t.GetTile(q) ==
          if q == FlipBoard(d) then OccupiedTile(if m.PawnPromotion? then PromotedPiece(p, FlipBoard(d)) else MovePiece(p, FlipBoard(d)))
          else if m.PawnPromotion? && q == d then OccupiedTile(MovePiece(p, d))
          else if q == p.position then EmptyTile
          else b.gameBoards.GetTile(q)
  {
    var g, cur := b.gameBoards, b.currentColor;
    ExecuteWellFormed(b, ProbeMove(m));
    ArsenalMovesAreAliceMoves(g, b.PiecesOfColor(cur), m);
    var p := m.MovedPiece();
    PiecesOfMembership(g, cur, p);
    if m.PawnPromotion? {
      ExecuteProbePromotion(b, p, m);
    } else {
      ExecuteProbeMove(b, p, m);
    }
  }

  /** Chaining the tiles a landing move leaves with the tiles the probe's promotion then builds. */
  lemma ProbePromotionAfterLanding(g: GameBoards, next: Board, t: GameBoards, p: Piece, inner: Move, d: Position)
    requires g.Valid() && next.gameBoards.Valid() && t.Valid() && !inner.PawnPromotion?
    requires p.color != next.currentColor && inner.destination == d
    requires forall q :: ValidTile(q) ==>
      next.gameBoards.GetTile(q) ==
        if q == d then OccupiedTile(MovePiece(p, d))
        else if q == p.position || (inner.AttackMove? && q == FlipBoard(d)) then EmptyTile
        else g.GetTile(q)
    requires forall q :: ValidTile(q) ==>
      t.GetTile(q) ==
        if q == FlipBoard(d) then OccupiedTile(PromotedPiece(p, FlipBoard(d)))
        else if next.gameBoards.GetTile(q) == OccupiedTile(p) && p.color == next.currentColor then EmptyTile
        else next.gameBoards.GetTile(q)
    ensures forall q :: ValidTile(q) ==>
      t.GetTile(q) ==
        if q == FlipBoard(d) then OccupiedTile(PromotedPiece(p, FlipBoard(d)))
        else if q == d then OccupiedTile(MovePiece(p, d))
        else if q == p.position then EmptyTile
        else g.GetTile(q)
  {
  }

  /** The pieces of a list a builder loop sets, in order, when it skips `x` (none skipped when x is None). */
  function Excluding(pieces: seq<Piece>, x: Option<Piece>): seq<Piece>
    decreases |pieces|
  {
    if pieces == [] then []
    else
      var last := pieces[|pieces| - 1];
      Excluding(pieces[..|pieces| - 1], x) + if x == Some(last) then [] else [last]
  }

  /** Skipping a piece keeps what Move.execute_move's list without the moved piece keeps; skipping nothing keeps the whole list. */
  lemma {:induction false} ExcludingWithout(pieces: seq<Piece>, x: Option<Piece>)
    ensures Excluding(pieces, x) == if x.Some? then Without(pieces, x.value) else pieces
    decreases |pieces|
  {
    if pieces != [] {
      var init, last := pieces[..|pieces| - 1], pieces[|pieces| - 1];
      ExcludingWithout(init, x);
      assert pieces == init + [last];
    }
  }

  /** The builder loop keeps exactly the pieces of the list other than the skipped one. */
  lemma ExcludingMembers(pieces: seq<Piece>, x: Option<Piece>)
    ensures forall p :: p in Excluding(pieces, x) <==> p in pieces && x != Some(p)
  {
    ExcludingWithout(pieces, x);
  }

  /** Extending the list by one piece extends the kept pieces by that piece unless it is the skipped one. */
  lemma ExcludingSnoc(pieces: seq<Piece>, x: Option<Piece>, i: nat)
    requires i < |pieces|
    ensures Excluding(pieces[..i + 1], x)
      == Excluding(pieces[..i], x) + if x == Some(pieces[i]) then [] else [pieces[i]]
  {
    assert pieces[..i + 1][..i] == pieces[..i];
  }

  /** The loop `for piece in pieces: if not x == piece: builder.set_piece(piece)` (every piece when x is None). */
  method SetPiecesExcept(builder: BoardBuilder, pieces: seq<Piece>, x: Option<Piece>)
    requires builder.Valid()
    modifies builder
    ensures builder.Valid()
    ensures builder.State() == SetPieces(old(builder.State()), Excluding(pieces, x))
  {
    ghost var s0 := builder.State();
    ghost var kept: seq<Piece> := [];
    var i := 0;
    while i < |pieces|
      invariant 0 <= i <= |pieces| && builder.Valid()
      invariant kept == Excluding(pieces[..i], x)
      invariant builder.State() == SetPieces(s0, kept)
    {
      ExcludingSnoc(pieces, x, i);
      if x != Some(pieces[i]) {
        SetPiecesSnoc(s0, kept, pieces[i]);
        builder.SetPiece(pieces[i]);
        kept := kept + [pieces[i]];
      } else {
        assert kept + [] == kept;
      }
      i := i + 1;
    }
    assert pieces[..i] == pieces;
  }

  /** Move.execute_move, AttackMove.execute_move and PawnPromotion.execute_move. */
  method ExecuteMove(b: Board, m: Move) returns (r: Result<Board, Color>)
    ensures r == Execute(b, m)
    decreases m
  {
    if m.PawnPromotion? {
      var next := ExecuteMove(b, m.move);
      if next.Err? {
        return Err(next.error);
      }
      var board := next.value;
      var promotedPawn := m.MovedPiece();
      var builder := new BoardBuilder();
      ghost var s0 := builder.State();
      var current := board.PiecesOfColor(board.currentColor);
      var opponent := board.PiecesOfColor(Opponent(board.currentColor));
      SetPiecesExcept(builder, current, Some(promotedPawn));
      SetPiecesExcept(builder, opponent, None);
      ExcludingWithout(current, Some(promotedPawn));
      ExcludingWithout(opponent, None);
      builder.SetPiece(PromotedPiece(promotedPawn, m.destination));
      builder.nextMoveMaker := Some(Opponent(board.currentColor));
      ghost var kept := Without(current, promotedPawn) + opponent;
      SetPiecesAppend(s0, Without(current, promotedPawn), opponent);
      assert (kept + [PromotedPiece(promotedPawn, m.destination)])[..|kept|] == kept;
      assert builder.State() == PromotionStaging(board, promotedPawn, m.destination);
      r := builder.Build();
    } else {
      var builder := new BoardBuilder();
      ghost var s0 := builder.State();
      var current := b.PiecesOfColor(b.currentColor);
      var opponent := b.PiecesOfColor(Opponent(b.currentColor));
      var captured: Option<Piece> := None;
      if m.AttackMove? {
        captured := Some(m.attackedPiece);
      }
      SetPiecesExcept(builder, current, Some(m.piece));
      SetPiecesExcept(builder, opponent, captured);
      ExcludingWithout(current, Some(m.piece));
      ExcludingWithout(opponent, captured);
      builder.SetPiece(MovePiece(m.piece, m.destination));
      builder.SetNextMoveMaker(b.currentColor);
      SetPiecesAppend(s0, Without(current, m.piece), Excluding(opponent, captured));
      assert (Kept(b, m) + [MovePiece(m.piece, m.destination)])[..|Kept(b, m)|] == Kept(b, m);
      assert builder.State() == ExecuteStaging(b, m);
      r := builder.Build();
    }
  }
}
