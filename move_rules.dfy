/**
 * What the generators of the two-board engine promise, stated independently of the column
 * exception tables: every generated move obeys the Alice rule; kings step to an adjacent square
 * and knights jump in an L exactly; sliders move along a line that nothing blocks; pawns move by
 * the pawn rule.
 */
module MoveRules {
  import opened Coordinates
  import opened Pieces
  import opened Moves
  import opened Generators

  /**
   * A simple or attack move of `p` that obeys the Alice rule: it lands on the other board on an
   * empty tile; a simple move has an empty same-board tile, an attack has the attacked enemy there.
   */
  predicate Lands(g: GameBoards, p: Piece, m: Move)
    requires g.Valid()
  {
    !m.PawnPromotion? && m.piece == p &&
    ValidTile(m.destination) && m.destination.board == NextBoard(p.position.board) &&
    g.GetTile(m.destination).EmptyTile? &&
    (m.SimpleMove? ==> g.GetTile(FlipBoard(m.destination)).EmptyTile?) &&
    (m.AttackMove? ==>
      g.GetTile(FlipBoard(m.destination)) == OccupiedTile(m.attackedPiece) && m.attackedPiece.color != p.color)
  }

  /** A generated move: it lands by the Alice rule, and a pawn move is a promotion exactly on the last row. */
  predicate AliceMove(g: GameBoards, p: Piece, m: Move)
    requires g.Valid()
  {
    match m
    case PawnPromotion(inner, d) =>
      p.kind == Pawn && inner.destination == d && Lands(g, p, inner) && IsPawnPromotionSquare(d, p.color)
    case _ =>
      Lands(g, p, m) && (p.kind == Pawn ==> !IsPawnPromotionSquare(m.destination, p.color))
  }

  lemma {:induction false} OffsetsMovesMembership(g: GameBoards, p: Piece, offsets: seq<int>, m: Move)
    requires g.Valid() && OnBoard(p)
    requires forall o :: o in offsets ==> o in Offsets(p.kind)
    ensures m in OffsetsMoves(g, p, offsets) <==>
      exists i :: 0 <= i < |offsets| && m in OffsetMoves(g, p, offsets[i])
    decreases |offsets|
  {
    if offsets != [] {
      var init := offsets[..|offsets| - 1];
      OffsetsMovesMembership(g, p, init, m);
      if m in OffsetsMoves(g, p, offsets) && m !in OffsetMoves(g, p, offsets[|offsets| - 1]) {
        var i :| 0 <= i < |init| && m in OffsetMoves(g, p, init[i]);
        assert offsets[i] == init[i];
      }
      if exists i :: 0 <= i < |offsets| && m in OffsetMoves(g, p, offsets[i]) {
        var i :| 0 <= i < |offsets| && m in OffsetMoves(g, p, offsets[i]);
        if i < |init| {
          assert init[i] == offsets[i];
        }
      }
    }
  }

  /** Every move calculate_moves yields was generated by one of the arsenal's pieces. */
  lemma {:induction false} ArsenalMovesFrom(g: GameBoards, arsenal: seq<Piece>, m: Move)
    requires g.Valid() && forall p :: p in arsenal ==> OnBoard(p)
    requires m in ArsenalMoves(g, arsenal)
    ensures exists i :: 0 <= i < |arsenal| && m in PieceMoves(g, arsenal[i])
    decreases |arsenal|
  {
    var init, last := arsenal[..|arsenal| - 1], arsenal[|arsenal| - 1];
    assert forall p :: p in init ==> p in arsenal;
    if m in PieceMoves(g, last) {
      assert m in PieceMoves(g, arsenal[|arsenal| - 1]);
    } else {
      ArsenalMovesFrom(g, init, m);
      var i :| 0 <= i < |init| && m in PieceMoves(g, init[i]);
      assert arsenal[i] == init[i];
    }
  }

  /** Every move of an arsenal's piece is among the moves calculate_moves yields. */
  lemma {:induction false} ArsenalMovesInclude(g: GameBoards, arsenal: seq<Piece>, m: Move, i: int)
    requires g.Valid() && forall p :: p in arsenal ==> OnBoard(p)
    requires 0 <= i < |arsenal| && m in PieceMoves(g, arsenal[i])
    ensures m in ArsenalMoves(g, arsenal)
    decreases |arsenal|
  {
    var init, last := arsenal[..|arsenal| - 1], arsenal[|arsenal| - 1];
    if i < |init| {
      assert forall p :: p in init ==> p in arsenal;
      assert init[i] == arsenal[i];
      ArsenalMovesInclude(g, init, m, i);
      assert m in ArsenalMoves(g, init);
    } else {
      assert m in PieceMoves(g, last);
    }
    assert ArsenalMoves(g, arsenal) == ArsenalMoves(g, init) + PieceMoves(g, last);
  }

  /** Board.calculate_moves yields exactly the moves of the arsenal's pieces. */
  lemma ArsenalMovesMembership(g: GameBoards, arsenal: seq<Piece>, m: Move)
    requires g.Valid() && forall p :: p in arsenal ==> OnBoard(p)
    ensures m in ArsenalMoves(g, arsenal) <==>
      exists i :: 0 <= i < |arsenal| && m in PieceMoves(g, arsenal[i])
  {
    if m in ArsenalMoves(g, arsenal) {
      ArsenalMovesFrom(g, arsenal, m);
    }
    if exists i :: 0 <= i < |arsenal| && m in PieceMoves(g, arsenal[i]) {
      var i :| 0 <= i < |arsenal| && m in PieceMoves(g, arsenal[i]);
      ArsenalMovesInclude(g, arsenal, m, i);
    }
  }

  lemma {:induction false} RayMovesLand(g: GameBoards, p: Piece, offset: int, from: Position, m: Move)
    requires g.Valid() && IsSlider(p.kind) && offset in Offsets(p.kind)
    requires from.board == NextBoard(p.position.board)
    requires m in Ray(g, p, offset, from)
    ensures Lands(g, p, m)
    decreases if offset > 0 then NumTiles - from.index else from.index
  {
    var next := Position(from.board, from.index + offset);
    if g.GetTile(next).OccupiedTile? || m != Ray(g, p, offset, from)[0] {
      RayMovesLand(g, p, offset, next, m);
    }
  }

  lemma {:induction false} OffsetMovesAreAliceMoves(g: GameBoards, p: Piece, offset: int, m: Move)
    requires g.Valid() && OnBoard(p) && offset in Offsets(p.kind)
    requires m in OffsetMoves(g, p, offset)
    ensures AliceMove(g, p, m)
  {
    match p.kind
    case King | Knight =>
    case Queen | Bishop | Rook =>
      RayMovesLand(g, p, offset, FlipBoard(p.position), m);
    case Pawn =>
      var index := p.position.index;
      if offset == 16 {
        assert Row(index + 16 * Direction(p.color)) == Row(index) + 2 * Direction(p.color) by {
          DivModUnique(index + 16 * Direction(p.color), Row(index) + 2 * Direction(p.color), File(index));
        }
      }
  }

  /** Every move a piece generates obeys the Alice rule. */
  lemma PieceMovesAreAliceMoves(g: GameBoards, p: Piece, m: Move)
    requires g.Valid() && OnBoard(p)
    requires m in PieceMoves(g, p)
    ensures m.MovedPiece() == p && AliceMove(g, p, m)
  {
    OffsetsMovesMembership(g, p, Offsets(p.kind), m);
    var i :| 0 <= i < |Offsets(p.kind)| && m in OffsetMoves(g, p, Offsets(p.kind)[i]);
    OffsetMovesAreAliceMoves(g, p, Offsets(p.kind)[i], m);
  }

  /** Every move of an arsenal is a move of one of its pieces that obeys the Alice rule. */
  lemma ArsenalMovesAreAliceMoves(g: GameBoards, arsenal: seq<Piece>, m: Move)
    requires g.Valid() && forall p :: p in arsenal ==> OnBoard(p)
    requires m in ArsenalMoves(g, arsenal)
    ensures m.MovedPiece() in arsenal && AliceMove(g, m.MovedPiece(), m)
  {
    ArsenalMovesMembership(g, arsenal, m);
    var i :| 0 <= i < |arsenal| && m in PieceMoves(g, arsenal[i]);
    PieceMovesAreAliceMoves(g, arsenal[i], m);
  }

  /** The shape of a king step or a knight jump, in files and rows. */
  predicate StepShape(k: Kind, from: int, to: int) {
    var df := File(to) - File(from);
    var dr := Row(to) - Row(from);
    if k == King then -1 <= df <= 1 && -1 <= dr <= 1 && (df != 0 || dr != 0)
    else ((df == 1 || df == -1) && (dr == 2 || dr == -2)) || ((df == 2 || df == -2) && (dr == 1 || dr == -1))
  }

  /** A step-shaped pair of squares is an offset of the kind that its guard lets through. */
  lemma StepShapeIsOffset(k: Kind, from: int, to: int)
    requires k == King || k == Knight
    requires 0 <= from < NumTiles && 0 <= to < NumTiles
    requires StepShape(k, from, to)
    ensures to - from in Offsets(k) && !ColumnException(k, to - from, from)
  {
    var ff, rf, ft, rt := File(from), Row(from), File(to), Row(to);
    assert from == 8 * rf + ff && to == 8 * rt + ft;
    assert to - from == 8 * (rt - rf) + (ft - ff);
  }

  lemma StepShapeOffset(k: Kind, from: int, to: int)
    requires k == King || k == Knight
    requires 0 <= from < NumTiles && 0 <= to < NumTiles
    ensures StepShape(k, from, to) <==>
      to - from in Offsets(k) && !ColumnException(k, to - from, from)
  {
    if StepShape(k, from, to) {
      StepShapeIsOffset(k, from, to);
    }
    if to - from in Offsets(k) && !ColumnException(k, to - from, from) {
      GuardedOffsetMoves(k, to - from, from);
    }
  }

  lemma ClassifyIsLands(g: GameBoards, p: Piece, d: Position, m: Move)
    requires g.Valid() && ValidTile(d) && d.board == NextBoard(p.position.board)
    ensures m in Classify(g, p, d) <==> Lands(g, p, m) && m.destination == d
  {
  }

  lemma StepOffsetMoves(g: GameBoards, p: Piece, offset: int, m: Move)
    requires g.Valid() && OnBoard(p) && (p.kind == King || p.kind == Knight) && offset in Offsets(p.kind)
    ensures m in OffsetMoves(g, p, offset) <==>
      Lands(g, p, m) && m.destination.index == p.position.index + offset && !ColumnException(p.kind, offset, p.position.index)
  {
    var d := StepTarget(p, offset);
    if ValidTile(d) {
      ClassifyIsLands(g, p, d, m);
    }
  }

  /** Every move King.valid_moves or Knight.valid_moves generates lands by the Alice rule on a step-shaped square. */
  lemma StepMovesShaped(g: GameBoards, p: Piece, m: Move)
    requires g.Valid() && OnBoard(p) && (p.kind == King || p.kind == Knight)
    requires m in PieceMoves(g, p)
    ensures Lands(g, p, m) && StepShape(p.kind, p.position.index, m.destination.index)
  {
    var offsets := Offsets(p.kind);
    OffsetsMovesMembership(g, p, offsets, m);
    var i :| 0 <= i < |offsets| && m in OffsetMoves(g, p, offsets[i]);
    StepOffsetMoves(g, p, offsets[i], m);
    StepShapeOffset(p.kind, p.position.index, m.destination.index);
  }

  /** Every Alice move onto a step-shaped square is among the moves King.valid_moves or Knight.valid_moves generates. */
  lemma StepMovesComplete(g: GameBoards, p: Piece, m: Move)
    requires g.Valid() && OnBoard(p) && (p.kind == King || p.kind == Knight)
    requires Lands(g, p, m) && StepShape(p.kind, p.position.index, m.destination.index)
    ensures m in PieceMoves(g, p)
  {
    var offsets := Offsets(p.kind);
    var offset := m.destination.index - p.position.index;
    StepShapeOffset(p.kind, p.position.index, m.destination.index);
    var i :| 0 <= i < |offsets| && offsets[i] == offset;
    StepOffsetMoves(g, p, offset, m);
    OffsetsMovesMembership(g, p, offsets, m);
  }

  /**
   * King.valid_moves and Knight.valid_moves generate exactly the Alice moves to the squares a
   * king step or a knight jump reaches, with no wrap-around at the board's edges.
   */
  lemma StepMovesExactly(g: GameBoards, p: Piece, m: Move)
    requires g.Valid() && OnBoard(p) && (p.kind == King || p.kind == Knight)
    ensures m in PieceMoves(g, p) <==>
      Lands(g, p, m) && StepShape(p.kind, p.position.index, m.destination.index)
  {
    if m in PieceMoves(g, p) {
      StepMovesShaped(g, p, m);
    }
    if Lands(g, p, m) && StepShape(p.kind, p.position.index, m.destination.index) {
      StepMovesComplete(g, p, m);
    }
  }

  /** The k-th tile from `from` along an offset, on the same board. */
  function RaySquare(from: Position, offset: int, k: int): Position {
    Position(from.board, from.index + k * offset)
  }

  /** A tile that ends a slider's scan: free on the arrival board but occupied on the piece's own. */
  predicate Stops(g: GameBoards, q: Position)
    requires g.Valid() && ValidTile(q)
  {
    g.GetTile(q).EmptyTile? && g.GetTile(FlipBoard(q)).OccupiedTile?
  }

  /** No tile strictly before the j-th step of a scan from `from` ends it. */
  predicate ClearBefore(g: GameBoards, from: Position, offset: int, j: int)
    requires g.Valid()
  {
    forall k :: 1 <= k < j ==> ValidTile(RaySquare(from, offset, k)) && !Stops(g, RaySquare(from, offset, k))
  }

  /** A clear path from the next square, after a first step that does not stop, is a clear path one step longer. */
  lemma ClearBeforeShift(g: GameBoards, from: Position, offset: int, j: int)
    requires g.Valid()
    requires ValidTile(RaySquare(from, offset, 1)) && !Stops(g, RaySquare(from, offset, 1))
    requires ClearBefore(g, RaySquare(from, offset, 1), offset, j)
    ensures ClearBefore(g, from, offset, j + 1)
  {
    forall k | 1 <= k < j + 1
      ensures ValidTile(RaySquare(from, offset, k)) && !Stops(g, RaySquare(from, offset, k))
    {
      if k > 1 {
        assert RaySquare(from, offset, k) == RaySquare(RaySquare(from, offset, 1), offset, k - 1);
      }
    }
  }

  /** A coordinate j steps beyond the first step is j + 1 steps beyond the start. */
  lemma StepScale(start: int, first: int, last: int, j: int, delta: int)
    requires first == start + delta && last == first + j * delta
    ensures last == start + (j + 1) * delta
  {
    assert (j + 1) * delta == j * delta + delta;
  }

  /** A move of a scan that is not its first one (or follows a tile occupied on the arrival board) belongs to the scan from the next tile. */
  lemma RayTail(g: GameBoards, p: Piece, offset: int, from: Position, m: Move)
    requires g.Valid() && IsSlider(p.kind) && offset in Offsets(p.kind)
    requires m in Ray(g, p, offset, from)
    ensures var next := Position(from.board, from.index + offset);
      ValidTile(from) && !ColumnException(p.kind, offset, from.index) && ValidTile(next) &&
      (g.GetTile(next).OccupiedTile? || m != Ray(g, p, offset, from)[0] ==>
        m in Ray(g, p, offset, next) && !Stops(g, next))
  {
    var next := Position(from.board, from.index + offset);
    if g.GetTile(next).EmptyTile? && g.GetTile(FlipBoard(next)).EmptyTile? {
      assert Ray(g, p, offset, from) == [SimpleMove(p, next)] + Ray(g, p, offset, next);
    }
  }

  lemma {:induction false} RayMovesAligned(g: GameBoards, p: Piece, offset: int, from: Position, m: Move)
    requires g.Valid() && IsSlider(p.kind) && offset in Offsets(p.kind) && ValidTile(from)
    requires m in Ray(g, p, offset, from)
    ensures exists j :: (1 <= j && m.destination == RaySquare(from, offset, j) &&
      File(m.destination.index) == File(from.index) + j * DeltaFile(offset) &&
      Row(m.destination.index) == Row(from.index) + j * DeltaRow(offset) &&
      ClearBefore(g, from, offset, j))
    decreases if offset > 0 then NumTiles - from.index else from.index
  {
    var next := Position(from.board, from.index + offset);
    RayTail(g, p, offset, from, m);
    GuardedOffsetMoves(p.kind, offset, from.index);
    if g.GetTile(next).OccupiedTile? || m != Ray(g, p, offset, from)[0] {
      RayMovesAligned(g, p, offset, next, m);
      var j :| 1 <= j && m.destination == RaySquare(next, offset, j) &&
        File(m.destination.index) == File(next.index) + j * DeltaFile(offset) &&
        Row(m.destination.index) == Row(next.index) + j * DeltaRow(offset) &&
        ClearBefore(g, next, offset, j);
      assert RaySquare(from, offset, 1) == next;
      ClearBeforeShift(g, from, offset, j);
      assert m.destination == RaySquare(from, offset, j + 1);
      StepScale(File(from.index), File(next.index), File(m.destination.index), j, DeltaFile(offset));
      StepScale(Row(from.index), Row(next.index), Row(m.destination.index), j, DeltaRow(offset));
    } else {
      assert m.destination == RaySquare(from, offset, 1);
    }
  }

  /** The guards let the scan through every tile before a move it finds, j steps along. */
  lemma {:induction false} RayMovesUnguarded(g: GameBoards, p: Piece, offset: int, from: Position, j: int, m: Move)
    requires g.Valid() && IsSlider(p.kind) && offset in Offsets(p.kind)
    requires m in Ray(g, p, offset, from) && m.destination == RaySquare(from, offset, j)
    ensures Unguarded(p.kind, from, offset, j)
    decreases if offset > 0 then NumTiles - from.index else from.index
  {
    var next := RaySquare(from, offset, 1);
    RayTail(g, p, offset, from, m);
    assert next == Position(from.board, from.index + offset);
    if g.GetTile(next).OccupiedTile? || m != Ray(g, p, offset, from)[0] {
      assert RaySquare(next, offset, j - 1) == RaySquare(from, offset, j);
      RayMovesUnguarded(g, p, offset, next, j - 1, m);
      UnguardedExtend(p.kind, from, offset, j - 1);
    } else {
      RayHeadStep(g, p, offset, from, j, m);
      UnguardedExtend(p.kind, from, offset, 0);
    }
  }

  /** The first move of a scan is one step along: a tile is reached by one number of steps only. */
  lemma RayHeadStep(g: GameBoards, p: Piece, offset: int, from: Position, j: int, m: Move)
    requires g.Valid() && IsSlider(p.kind) && offset in Offsets(p.kind)
    requires Ray(g, p, offset, from) != [] && m == Ray(g, p, offset, from)[0]
    requires g.GetTile(Position(from.board, from.index + offset)).EmptyTile?
    requires m.destination == RaySquare(from, offset, j)
    ensures j == 1
  {
    assert m.destination == Position(from.board, from.index + offset);
    assert offset != 0;
    assert (j - 1) * offset == 0;
  }

  /**
   * Queen, bishop and rook moves go some number of steps along one of the piece's directions,
   * changing file and row by that multiple of the direction, and no tile before the destination
   * ends the scan.
   */
  lemma SliderMovesAligned(g: GameBoards, p: Piece, m: Move)
    requires g.Valid() && OnBoard(p) && IsSlider(p.kind)
    requires m in PieceMoves(g, p)
    ensures exists offset, j :: (offset in Offsets(p.kind) && 1 <= j &&
      m.destination == RaySquare(FlipBoard(p.position), offset, j) &&
      File(m.destination.index) == File(p.position.index) + j * DeltaFile(offset) &&
      Row(m.destination.index) == Row(p.position.index) + j * DeltaRow(offset) &&
      forall k :: 1 <= k < j ==>
        (ValidTile(RaySquare(FlipBoard(p.position), offset, k)) && !Stops(g, RaySquare(FlipBoard(p.position), offset, k))))
  {
    var offsets := Offsets(p.kind);
    OffsetsMovesMembership(g, p, offsets, m);
    var i :| 0 <= i < |offsets| && m in OffsetMoves(g, p, offsets[i]);
    RayMovesAligned(g, p, offsets[i], FlipBoard(p.position), m);
  }

  /** The column guards let the scan step on from each of the first j tiles (steps 0..j-1) from `from`. */
  predicate Unguarded(k: Kind, from: Position, offset: int, j: int) {
    forall i :: 0 <= i < j ==>
      ValidTile(RaySquare(from, offset, i)) && !ColumnException(k, offset, RaySquare(from, offset, i).index)
  }

  /** A path that the guards let through from `from` is, once the first step is taken, one step shorter. */
  lemma UnguardedShift(k: Kind, from: Position, offset: int, j: int)
    requires 1 <= j && Unguarded(k, from, offset, j)
    ensures Unguarded(k, RaySquare(from, offset, 1), offset, j - 1)
  {
    forall i | 0 <= i < j - 1
      ensures ValidTile(RaySquare(RaySquare(from, offset, 1), offset, i)) &&
        !ColumnException(k, offset, RaySquare(RaySquare(from, offset, 1), offset, i).index)
    {
      assert RaySquare(RaySquare(from, offset, 1), offset, i) == RaySquare(from, offset, i + 1);
    }
  }

  /** A first step the guards let through, followed by an unguarded path, is an unguarded path one step longer. */
  lemma UnguardedExtend(k: Kind, from: Position, offset: int, j: int)
    requires ValidTile(from) && !ColumnException(k, offset, from.index)
    requires Unguarded(k, RaySquare(from, offset, 1), offset, j)
    ensures Unguarded(k, from, offset, j + 1)
  {
    forall i | 0 <= i < j + 1
      ensures ValidTile(RaySquare(from, offset, i)) && !ColumnException(k, offset, RaySquare(from, offset, i).index)
    {
      if i == 0 {
        assert RaySquare(from, offset, i) == from;
      } else {
        assert RaySquare(from, offset, i) == RaySquare(RaySquare(from, offset, 1), offset, i - 1);
      }
    }
  }

  /** A clear path from `from`, once the first step is taken, is a clear path one step shorter. */
  lemma ClearBeforeUnshift(g: GameBoards, from: Position, offset: int, j: int)
    requires g.Valid() && 1 <= j && ClearBefore(g, from, offset, j)
    ensures ClearBefore(g, RaySquare(from, offset, 1), offset, j - 1)
  {
    forall k | 1 <= k < j - 1
      ensures ValidTile(RaySquare(RaySquare(from, offset, 1), offset, k)) &&
        !Stops(g, RaySquare(RaySquare(from, offset, 1), offset, k))
    {
      assert RaySquare(RaySquare(from, offset, 1), offset, k) == RaySquare(from, offset, k + 1);
    }
  }

  /**
   * The scan from `from` reaches every Alice landing j steps along the offset when the guards let
   * it through and no earlier tile ends it; a tile occupied on the arrival board only is passed over.
   */
  lemma {:induction false} RayReaches(g: GameBoards, p: Piece, offset: int, from: Position, j: int, m: Move)
    requires g.Valid() && IsSlider(p.kind) && offset in Offsets(p.kind)
    requires from.board == NextBoard(p.position.board) && 1 <= j
    requires Unguarded(p.kind, from, offset, j) && ClearBefore(g, from, offset, j)
    requires ValidTile(RaySquare(from, offset, j)) && Lands(g, p, m) && m.destination == RaySquare(from, offset, j)
    ensures m in Ray(g, p, offset, from)
    decreases j
  {
    var next := RaySquare(from, offset, 1);
    assert RaySquare(from, offset, 0) == from;
    if j == 1 {
      RayFirst(g, p, offset, from, m);
    } else {
      UnguardedShift(p.kind, from, offset, j);
      ClearBeforeUnshift(g, from, offset, j);
      assert RaySquare(next, offset, j - 1) == RaySquare(from, offset, j);
      RayReaches(g, p, offset, next, j - 1, m);
      RayPassesOver(g, p, offset, from, m);
    }
  }

  /** An Alice landing on the first tile of an unguarded step is the scan's first move. */
  lemma RayFirst(g: GameBoards, p: Piece, offset: int, from: Position, m: Move)
    requires g.Valid() && IsSlider(p.kind) && offset in Offsets(p.kind)
    requires ValidTile(from) && !ColumnException(p.kind, offset, from.index)
    requires ValidTile(RaySquare(from, offset, 1)) && Lands(g, p, m) && m.destination == RaySquare(from, offset, 1)
    ensures m in Ray(g, p, offset, from)
  {
    assert Ray(g, p, offset, from)[0] == m;
  }

  /** The scan passes over a tile that does not end it: what it finds beyond, it finds from here. */
  lemma RayPassesOver(g: GameBoards, p: Piece, offset: int, from: Position, m: Move)
    requires g.Valid() && IsSlider(p.kind) && offset in Offsets(p.kind)
    requires ValidTile(from) && !ColumnException(p.kind, offset, from.index)
    requires ValidTile(RaySquare(from, offset, 1)) && !Stops(g, RaySquare(from, offset, 1))
    requires m in Ray(g, p, offset, RaySquare(from, offset, 1))
    ensures m in Ray(g, p, offset, from)
  {
    var next := RaySquare(from, offset, 1);
    assert next == Position(from.board, from.index + offset);
    if g.GetTile(next).EmptyTile? {
      assert Ray(g, p, offset, from) == [SimpleMove(p, next)] + Ray(g, p, offset, next);
    }
  }

  /**
   * Every Alice landing of a queen, bishop or rook j >= 1 steps along one of its directions is
   * generated, when the column guards let the scan through and no earlier tile is free on the
   * arrival board but occupied on the piece's own.
   */
  lemma SliderMovesComplete(g: GameBoards, p: Piece, offset: int, j: int, m: Move)
    requires g.Valid() && OnBoard(p) && IsSlider(p.kind) && offset in Offsets(p.kind) && 1 <= j
    requires Unguarded(p.kind, FlipBoard(p.position), offset, j) && ClearBefore(g, FlipBoard(p.position), offset, j)
    requires ValidTile(RaySquare(FlipBoard(p.position), offset, j))
    requires Lands(g, p, m) && m.destination == RaySquare(FlipBoard(p.position), offset, j)
    ensures m in PieceMoves(g, p)
  {
    RayReaches(g, p, offset, FlipBoard(p.position), j, m);
    var offsets := Offsets(p.kind);
    var i :| 0 <= i < |offsets| && offsets[i] == offset;
    OffsetsMovesMembership(g, p, offsets, m);
  }

  /**
   * An Alice landing of a slider j >= 1 steps along one of its directions, over tiles the column
   * guards let through and none of which ends the scan.
   */
  predicate SliderReach(g: GameBoards, p: Piece, offset: int, j: int, m: Move)
    requires g.Valid()
  {
    var start := FlipBoard(p.position);
    offset in Offsets(p.kind) && 1 <= j &&
    Unguarded(p.kind, start, offset, j) && ClearBefore(g, start, offset, j) &&
    Lands(g, p, m) && m.destination == RaySquare(start, offset, j)
  }

  /**
   * Queen, bishop and rook moves are exactly the slider's Alice landings along its directions: a
   * tile occupied on the arrival board only is passed over, and one occupied on the piece's own
   * board ends the direction.
   */
  lemma SliderMovesExactly(g: GameBoards, p: Piece, m: Move)
    requires g.Valid() && OnBoard(p) && IsSlider(p.kind)
    ensures m in PieceMoves(g, p) <==> exists offset, j :: SliderReach(g, p, offset, j, m)
  {
    var offsets := Offsets(p.kind);
    var start := FlipBoard(p.position);
    if m in PieceMoves(g, p) {
      OffsetsMovesMembership(g, p, offsets, m);
      var i :| 0 <= i < |offsets| && m in OffsetMoves(g, p, offsets[i]);
      RayMovesAligned(g, p, offsets[i], start, m);
      var j :| 1 <= j && m.destination == RaySquare(start, offsets[i], j) && ClearBefore(g, start, offsets[i], j);
      RayMovesUnguarded(g, p, offsets[i], start, j, m);
      RayMovesLand(g, p, offsets[i], start, m);
      assert SliderReach(g, p, offsets[i], j, m);
    }
    if exists offset, j :: SliderReach(g, p, offset, j, m) {
      var offset, j :| SliderReach(g, p, offset, j, m);
      SliderMovesComplete(g, p, offset, j, m);
    }
  }

  /** Every move of a sequence but the last is a SimpleMove. */
  predicate SimpleBeforeLast(r: seq<Move>) {
    forall i :: 0 <= i < |r| - 1 ==> r[i].SimpleMove?
  }

  lemma SimpleBeforeLastCons(x: Move, rest: seq<Move>)
    requires x.SimpleMove? && SimpleBeforeLast(rest)
    ensures SimpleBeforeLast([x] + rest)
  {
    var r := [x] + rest;
    forall i | 0 <= i < |r| - 1
      ensures r[i].SimpleMove?
    {
      if i > 0 {
        assert r[i] == rest[i - 1];
      }
    }
  }

  /** Along each direction every move but the last is a SimpleMove: the scan ends at the first attack. */
  lemma {:induction false} RaySimpleBeforeLast(g: GameBoards, p: Piece, offset: int, from: Position)
    requires g.Valid() && IsSlider(p.kind) && offset in Offsets(p.kind)
    ensures SimpleBeforeLast(Ray(g, p, offset, from))
    decreases if offset > 0 then NumTiles - from.index else from.index
  {
    if ValidTile(from) && !ColumnException(p.kind, offset, from.index) {
      var next := Position(from.board, from.index + offset);
      if ValidTile(next) {
        RaySimpleBeforeLast(g, p, offset, next);
        var rest := Ray(g, p, offset, next);
        if g.GetTile(next).OccupiedTile? {
          assert Ray(g, p, offset, from) == rest;
        } else if g.GetTile(FlipBoard(next)).EmptyTile? {
          assert Ray(g, p, offset, from) == [SimpleMove(p, next)] + rest;
          SimpleBeforeLastCons(SimpleMove(p, next), rest);
        } else {
          assert |Ray(g, p, offset, from)| <= 1;
        }
      }
    }
  }

  /** The simple or attack move inside a promotion, or the move itself. */
  function Inner(m: Move): Move {
    if m.PawnPromotion? then m.move else m
  }

  /**
   * The pawn rule in files and rows: one row forward onto an empty square; two rows forward from
   * the starting row on the first move, the square passed over being empty on the arrival board;
   * or one row forward and one file sideways onto an enemy. A move onto the last row is a promotion.
   */
  predicate PawnRule(g: GameBoards, p: Piece, m: Move)
    requires g.Valid() && OnBoard(p)
  {
    p.kind == Pawn && AliceMove(g, p, m) &&
    var from, to, dir := p.position.index, Inner(m).destination.index, Direction(p.color);
    (Inner(m).SimpleMove? && to == from + 8 * dir) ||
    (Inner(m).SimpleMove? && to == from + 16 * dir && p.isFirstMove && FirstMoveConfig(p) &&
      g.GetTile(Position(Inner(m).destination.board, from + 8 * dir)).EmptyTile?) ||
    (Inner(m).AttackMove? && Row(to) == Row(from) + dir &&
      (File(to) == File(from) + 1 || File(to) == File(from) - 1))
  }

  /** The shape each pawn offset gives the move, in the generator's own terms. */
  predicate PawnOffsetShape(g: GameBoards, p: Piece, offset: int, inner: Move)
    requires g.Valid() && OnBoard(p)
  {
    inner.destination == PawnTarget(p, offset) &&
    (offset == 8 ==> inner.SimpleMove?) &&
    (offset == 16 ==>
      inner.SimpleMove? && p.isFirstMove && FirstMoveConfig(p) && g.GetTile(PawnTarget(p, 8)).EmptyTile?) &&
    (offset == 7 ==> inner.AttackMove? && !KillOnLeftException(p)) &&
    (offset == 9 ==> inner.AttackMove? && !KillOnRightException(p))
  }

  lemma PromoteIsAliceMove(g: GameBoards, p: Piece, inner: Move, m: Move)
    requires g.Valid() && OnBoard(p) && p.kind == Pawn && Lands(g, p, inner)
    ensures m == Promote(inner, p.color) <==> AliceMove(g, p, m) && Inner(m) == inner
  {
  }

  lemma PawnOffsetRule(g: GameBoards, p: Piece, offset: int, m: Move)
    requires g.Valid() && OnBoard(p) && p.kind == Pawn && offset in PawnOffsets
    ensures m in PawnOffsetMoves(g, p, offset) <==> AliceMove(g, p, m) && PawnOffsetShape(g, p, offset, Inner(m))
  {
    var d := PawnTarget(p, offset);
    if ValidTile(d) && g.GetTile(d).EmptyTile? {
      var flipped := FlipBoard(d);
      if offset == 8 && g.GetTile(flipped).EmptyTile? {
        PromoteIsAliceMove(g, p, SimpleMove(p, d), m);
      } else if offset == 7 || offset == 9 {
        if g.GetTile(flipped).OccupiedTile? && g.GetTile(flipped).piece.color != p.color {
          PromoteIsAliceMove(g, p, AttackMove(p, d, g.GetTile(flipped).piece), m);
        }
      } else if offset == 16 && m in PawnOffsetMoves(g, p, offset) {
        var index := p.position.index;
        assert Row(index + 16 * Direction(p.color)) == Row(index) + 2 * Direction(p.color) by {
          DivModUnique(index + 16 * Direction(p.color), Row(index) + 2 * Direction(p.color), File(index));
        }
      }
    }
  }

  /** The two pawn capture offsets, guarded by the kill exceptions, are the diagonal steps forward. */
  lemma PawnCaptureGeometry(p: Piece, to: int)
    requires OnBoard(p) && 0 <= to < NumTiles
    ensures (Row(to) == Row(p.position.index) + Direction(p.color) &&
             (File(to) == File(p.position.index) + 1 || File(to) == File(p.position.index) - 1)) <==>
      (to == p.position.index + 7 * Direction(p.color) && !KillOnLeftException(p)) ||
      (to == p.position.index + 9 * Direction(p.color) && !KillOnRightException(p))
  {
    var from := p.position.index;
    var ff, rf, ft, rt := File(from), Row(from), File(to), Row(to);
    assert from == 8 * rf + ff && to == 8 * rt + ft;
    if to == from + 7 * Direction(p.color) && !KillOnLeftException(p) {
      PawnCaptureMoves(p, 7);
    }
    if to == from + 9 * Direction(p.color) && !KillOnRightException(p) {
      PawnCaptureMoves(p, 9);
    }
  }

  lemma PawnShapeIsRule(g: GameBoards, p: Piece, offset: int, m: Move)
    requires g.Valid() && OnBoard(p) && p.kind == Pawn && offset in PawnOffsets
    requires AliceMove(g, p, m) && PawnOffsetShape(g, p, offset, Inner(m))
    ensures PawnRule(g, p, m)
  {
    if offset == 7 || offset == 9 {
      PawnCaptureGeometry(p, Inner(m).destination.index);
    }
  }

  lemma PawnRuleShape(g: GameBoards, p: Piece, m: Move) returns (offset: int)
    requires g.Valid() && OnBoard(p) && PawnRule(g, p, m)
    ensures offset in PawnOffsets && PawnOffsetShape(g, p, offset, Inner(m))
  {
    var from, to, dir := p.position.index, Inner(m).destination.index, Direction(p.color);
    if Inner(m).SimpleMove? && to == from + 8 * dir {
      offset := 8;
    } else if Inner(m).SimpleMove? {
      offset := 16;
    } else {
      PawnCaptureGeometry(p, to);
      offset := if to == from + 7 * dir && !KillOnLeftException(p) then 7 else 9;
    }
  }

  /** Pawn.valid_moves generates exactly the moves of the pawn rule. */
  lemma PawnMovesExactly(g: GameBoards, p: Piece, m: Move)
    requires g.Valid() && OnBoard(p) && p.kind == Pawn
    ensures m in PieceMoves(g, p) <==> PawnRule(g, p, m)
  {
    var offsets := Offsets(p.kind);
    OffsetsMovesMembership(g, p, offsets, m);
    if m in PieceMoves(g, p) {
      var i :| 0 <= i < |offsets| && m in OffsetMoves(g, p, offsets[i]);
      PawnOffsetRule(g, p, offsets[i], m);
      PawnShapeIsRule(g, p, offsets[i], m);
    }
    if PawnRule(g, p, m) {
      var offset := PawnRuleShape(g, p, m);
      PawnOffsetRule(g, p, offset, m);
      var i :| 0 <= i < |offsets| && offsets[i] == offset;
      assert m in OffsetMoves(g, p, offsets[i]);
    }
  }
}
