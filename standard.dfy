/** Board.create_standard_board: the opening position, every piece on the first board. */
module StandardBoard {
  import opened Wrappers
  import opened Coordinates
  import opened Pieces
  import opened Moves
  import opened Boards
  import opened Execution

  /** The back-rank kinds, file by file: rook, knight, bishop, queen, king, bishop, knight, rook. */
  function BackRankKind(file: int): Kind {
    if file == 0 || file == 7 then Rook
    else if file == 1 || file == 6 then Knight
    else if file == 2 || file == 5 then Bishop
    else if file == 3 then Queen
    else King
  }

  /** The tile the k-th placed piece stands on: 0..15 for Black, then 48..63 for White. */
  function StandardIndex(k: int): int {
    if k < 16 then k else k + 32
  }

  /** The k-th piece create_standard_board places; its pawns keep their first-move right. */
  function StandardPiece(k: int): (p: Piece)
    ensures p.position == Position(BoardOne, StandardIndex(k))
    ensures p.color == if k < 16 then Black else White
    ensures p.isFirstMove <==> p.kind == Pawn
  {
    var index := StandardIndex(k);
    var color := if k < 16 then Black else White;
    if 8 <= k < 24 then Piece(Pawn, Position(BoardOne, index), color, true)
    else NewPiece(BackRankKind(if k < 8 then k else k - 24), Position(BoardOne, index), color)
  }

  /** The number of pieces create_standard_board places. */
  const ArsenalSize: nat := 32

  /** The placement slot of a tile: its k with StandardIndex(k) == index, or 32 for a tile left empty. */
  function StandardSlot(index: int): (k: int)
    ensures 0 <= k < 32 ==> StandardIndex(k) == index
  {
    if 0 <= index < 16 then index else if 48 <= index < 64 then index - 32 else 32
  }

  /** The pieces in the order create_standard_board sets them. */
  function StandardArsenal(): (r: seq<Piece>)
    ensures |r| == ArsenalSize
  {
    seq(ArsenalSize, k => StandardPiece(k))
  }

  /** The piece the opening position holds at a tile of the first board, if any. */
  function StandardOnFirstBoard(index: int): (r: Option<Piece>)
    ensures r.Some? <==> 0 <= StandardSlot(index) < ArsenalSize
    ensures r.Some? ==> r.value.position == Position(BoardOne, index)
  {
    if 0 <= StandardSlot(index) < ArsenalSize then Some(StandardPiece(StandardSlot(index))) else None
  }

  /** The piece the opening position holds at a tile, if any: nothing on the second board. */
  function StandardAt(q: Position): (r: Option<Piece>)
    ensures r.Some? <==> q.board == BoardOne && (0 <= q.index < 16 || 48 <= q.index < 64)
    ensures r.Some? ==> r.value.position == q
  {
    if q.board == BoardOne then StandardOnFirstBoard(q.index) else None
  }

  /**
   * The builder create_standard_board builds from: the opening position on the first board, the
   * second board empty, and Black as the next move maker, so White moves first.
   */
  function StandardStaging(): (s: Staging)
    ensures StagingValid(s) && s.nextMoveMaker == Some(Black)
    ensures forall q :: ValidTile(q) ==> ConfigAt(s, q) == StandardAt(q)
  {
    Staging(seq(NumTiles, i => StandardOnFirstBoard(i)), seq(NumTiles, _ => None), Some(Black))
  }

  /** Setting the arsenal leaves each tile with the piece of the opening position. */
  lemma StandardArsenalAt(q: Position)
    requires ValidTile(q)
    ensures ConfigAt(SetPieces(EmptyStaging(), StandardArsenal()), q) == StandardAt(q)
  {
    var a := StandardArsenal();
    if StandardAt(q).Some? {
      var x := StandardAt(q).value;
      assert a[StandardSlot(q.index)] == x;
      SetPiecesUnique(EmptyStaging(), a, x);
    } else {
      SetPiecesAbsent(EmptyStaging(), a, q);
    }
  }

  /** The set_piece calls of create_standard_board leave the builder holding the opening position. */
  lemma StandardPlacementComplete()
    ensures SetPieces(EmptyStaging(), StandardArsenal()).(nextMoveMaker := Some(Black)) == StandardStaging()
  {
    var s, t := SetPieces(EmptyStaging(), StandardArsenal()), StandardStaging();
    forall i | 0 <= i < NumTiles
      ensures s.config1[i] == t.config1[i] && s.config2[i] == t.config2[i]
    {
      StandardArsenalAt(Position(BoardOne, i));
      StandardArsenalAt(Position(BoardTwo, i));
    }
    assert s.config1 == t.config1 && s.config2 == t.config2;
  }

  /**
   * Board.create_standard_board: the set_piece calls, black pieces first, in the order of
   * StandardArsenal, then Black as the next move maker.
   */
  method CreateStandardBoard() returns (r: Result<Board, Color>)
    ensures r == BuildBoard(StandardStaging())
  {
    var builder := new BoardBuilder();
    var arsenal := StandardArsenal();
    SetPiecesExcept(builder, arsenal, None);
    ExcludingWithout(arsenal, None);
    builder.SetNextMoveMaker(Black);
    StandardPlacementComplete();
    r := builder.Build();
  }

  /**
   * The standard board builds: White is to move, the kings stand on e1 (tile 60) and e8 (tile 4)
   * of the first board, and every tile holds the opening position's piece.
   */
  lemma StandardBoardOutcome()
    ensures BuildBoard(StandardStaging()).Ok?
    ensures var b := BuildBoard(StandardStaging()).value;
      WellFormed(b) && b.currentColor == White &&
      b.whiteKing == NewPiece(King, Position(BoardOne, 60), White) &&
      b.blackKing == NewPiece(King, Position(BoardOne, 4), Black) &&
      forall q :: ValidTile(q) ==>
        b.gameBoards.GetTile(q) == if StandardAt(q).Some? then OccupiedTile(StandardAt(q).value) else EmptyTile
  {
    var s := StandardStaging();
    BuildBoardOutcome(s);
    assert ConfigAt(s, Position(BoardOne, 60)).Some?;
    assert ConfigAt(s, Position(BoardOne, 4)).Some?;
    assert HasKing(s, White) && HasKing(s, Black);
    var b := BuildBoard(s).value;
    StandardKing(b.gameBoards, White, b.whiteKing);
    StandardKing(b.gameBoards, Black, b.blackKing);
  }

  /** The only king of a colour in the opening position is the one on file e. */
  lemma StandardKing(g: GameBoards, c: Color, king: Piece)
    requires g.Valid() && g.Consistent()
    requires forall q :: ValidTile(q) ==>
      g.GetTile(q) == if StandardAt(q).Some? then OccupiedTile(StandardAt(q).value) else EmptyTile
    requires king in PiecesOf(g, c) && king.kind == King
    ensures king == NewPiece(King, Position(BoardOne, if c == White then 60 else 4), c)
  {
    PiecesOfMembership(g, c, king);
    var q := king.position;
    assert StandardAt(q) == Some(king);
    var k := StandardSlot(q.index);
    assert king == StandardPiece(k);
    assert !(8 <= k < 24);
    assert BackRankKind(if k < 8 then k else k - 24) == King;
    assert q.index == 4 || q.index == 60;
  }
}
