/**
 * The board of the single-board predecessor (alice5500.py, classes Board and BoardBuilder, and
 * Move.execute_move). As in the two-board engine a Board is immutable once built; executing a
 * move builds a fresh one through a BoardBuilder.
 */
module SingleBoard {
  import opened Wrappers
  import opened Coordinates
  import P = Pieces
  import B = Boards
  import StandardBoard
  import opened SingleBoardMoves
  import SingleBoardRules

  /**
   * What a BoardBuilder holds: the piece (or None) under each key 0..63, and the colour that made
   * the last move, if any.
   */
  datatype Staging = Staging(config: seq<Option<Piece>>, nextMoveMaker: Option<Color>)

  /** The configuration has the 64 keys 0..63, and each piece is keyed by its own position. */
  predicate StagingValid(s: Staging) {
    |s.config| == NumTiles &&
    forall i :: 0 <= i < NumTiles && s.config[i].Some? ==> s.config[i].value.position == i
  }

  /** The configuration a fresh BoardBuilder starts from: every key None, no next move maker. */
  function EmptyStaging(): (s: Staging)
    ensures StagingValid(s) && s.nextMoveMaker.None?
    ensures forall i :: 0 <= i < NumTiles ==> s.config[i].None?
  {
    Staging(seq(NumTiles, _ => None), None)
  }

  /**
   * BoardBuilder.set_piece: the piece is stored under its own position. A key outside 0..63 is
   * never read back when the board is built, so setting one changes nothing that matters.
   */
  function WithPiece(s: Staging, piece: Piece): (r: Staging)
    requires StagingValid(s)
    ensures StagingValid(r) && r.nextMoveMaker == s.nextMoveMaker
    ensures forall i :: 0 <= i < NumTiles ==>
      r.config[i] == if i == piece.position then Some(piece) else s.config[i]
  {
    if ValidCoordinate(piece.position) then s.(config := s.config[piece.position := Some(piece)]) else s
  }

  /** Successive set_piece calls, in order: a later piece at the same position replaces an earlier one. */
  function SetPieces(s: Staging, pieces: seq<Piece>): (r: Staging)
    requires StagingValid(s)
    ensures StagingValid(r) && r.nextMoveMaker == s.nextMoveMaker
    decreases |pieces|
  {
    if pieces == [] then s else WithPiece(SetPieces(s, pieces[..|pieces| - 1]), pieces[|pieces| - 1])
  }

  /** Board.create_game_board: an OccupiedTile wherever the configuration holds a piece. */
  function TilesOf(config: seq<Option<Piece>>): (tiles: seq<Tile>)
    requires |config| == NumTiles
    ensures ValidTiles(tiles)
  {
    seq(NumTiles, i requires 0 <= i < NumTiles => if config[i].Some? then OccupiedTile(config[i].value) else EmptyTile)
  }

  /** Every piece on a row of tiles stands on the tile of its own position. */
  predicate Consistent(tiles: seq<Tile>)
    requires ValidTiles(tiles)
  {
    forall i :: 0 <= i < NumTiles && tiles[i].OccupiedTile? ==> tiles[i].piece.position == i
  }

  /** Board.calculate_active_piece: the pieces of a colour, in tile order. */
  function ActivePieces(tiles: seq<Tile>, color: Color): seq<Piece>
    decreases |tiles|
  {
    if tiles == [] then []
    else
      var last := tiles[|tiles| - 1];
      ActivePieces(tiles[..|tiles| - 1], color) +
        (if last.OccupiedTile? && last.piece.color == color then [last.piece] else [])
  }

  /** establish_king of WhitePlayer and BlackPlayer: the first King in the arsenal, if there is one. */
  function FindKing(pieces: seq<Piece>): (r: Option<Piece>)
    ensures r.Some? ==> r.value in pieces && r.value.kind.King?
    ensures r.None? <==> forall p :: p in pieces ==> !p.kind.King?
    decreases |pieces|
  {
    if pieces == [] then None
    else if pieces[0].kind.King? then Some(pieces[0])
    else FindKing(pieces[1..])
  }

  /** A built board. The Player objects are derived from it (module SingleBoardPlayers). */
  datatype Board = Board(
    gameBoard: seq<Tile>,
    whitePiece: seq<Piece>,
    blackPiece: seq<Piece>,
    whiteLegalMoves: seq<Move>,
    blackLegalMoves: seq<Move>,
    whiteKing: Piece,
    blackKing: Piece,
    currentColor: Color)
  {
    function PiecesOfColor(c: Color): seq<Piece> {
      if c.White? then whitePiece else blackPiece
    }

    function MovesOfColor(c: Color): seq<Move> {
      if c.White? then whiteLegalMoves else blackLegalMoves
    }

    function KingOfColor(c: Color): Piece {
      if c.White? then whiteKing else blackKing
    }
  }

  lemma {:induction false} ActivePiecesMembership(tiles: seq<Tile>, color: Color, p: Piece)
    ensures p in ActivePieces(tiles, color) <==>
      p.color == color && exists i :: 0 <= i < |tiles| && tiles[i] == OccupiedTile(p)
    decreases |tiles|
  {
    if tiles != [] {
      var init := tiles[..|tiles| - 1];
      ActivePiecesMembership(init, color, p);
      if exists i :: 0 <= i < |tiles| && tiles[i] == OccupiedTile(p) {
        var i :| 0 <= i < |tiles| && tiles[i] == OccupiedTile(p);
        if i < |init| {
          assert init[i] == tiles[i];
        }
      }
      if exists i :: 0 <= i < |init| && init[i] == OccupiedTile(p) {
        var i :| 0 <= i < |init| && init[i] == OccupiedTile(p);
        assert tiles[i] == init[i];
      }
    }
  }

  /**
   * On consistent tiles, white_piece and black_piece hold exactly the pieces of that colour that
   * stand on the tile of their own position.
   */
  lemma PiecesMembership(tiles: seq<Tile>, color: Color, p: Piece)
    requires ValidTiles(tiles) && Consistent(tiles)
    ensures p in ActivePieces(tiles, color) <==>
      p.color == color && ValidCoordinate(p.position) && tiles[p.position] == OccupiedTile(p)
  {
    ActivePiecesMembership(tiles, color, p);
  }

  lemma PiecesOnBoard(tiles: seq<Tile>, color: Color)
    requires ValidTiles(tiles) && Consistent(tiles)
    ensures forall p :: p in ActivePieces(tiles, color) ==> ValidCoordinate(p.position)
  {
    forall p | p in ActivePieces(tiles, color) {
      PiecesMembership(tiles, color, p);
    }
  }

  /**
   * Board.__init__. The White player is constructed first, so a missing white king is reported
   * before a missing black one; the error carries the colour whose king is missing.
   */
  function BuildBoard(s: Staging): Result<Board, Color>
    requires StagingValid(s)
  {
    var tiles := TilesOf(s.config);
    var white := ActivePieces(tiles, P.White);
    var black := ActivePieces(tiles, P.Black);
    PiecesOnBoard(tiles, P.White);
    PiecesOnBoard(tiles, P.Black);
    var whiteMoves := ArsenalMoves(tiles, white);
    var blackMoves := ArsenalMoves(tiles, black);
    match (FindKing(white), FindKing(black))
    case (None, _) => Err(P.White)
    case (Some(_), None) => Err(P.Black)
    case (Some(wk), Some(bk)) =>
      Ok(Board(tiles, white, black, whiteMoves, blackMoves, wk, bk, B.CurrentColor(s.nextMoveMaker)))
  }

  /**
   * A board is well formed when its parts are what Board.__init__ derives from its tiles: the
   * pieces of each colour, their moves and their kings.
   */
  predicate WellFormed(b: Board) {
    var t := b.gameBoard;
    ValidTiles(t) && Consistent(t) &&
    b.whitePiece == ActivePieces(t, P.White) && b.blackPiece == ActivePieces(t, P.Black) &&
    (forall p :: p in b.whitePiece ==> ValidCoordinate(p.position)) &&
    (forall p :: p in b.blackPiece ==> ValidCoordinate(p.position)) &&
    b.whiteLegalMoves == ArsenalMoves(t, b.whitePiece) && b.blackLegalMoves == ArsenalMoves(t, b.blackPiece) &&
    FindKing(b.whitePiece) == Some(b.whiteKing) && FindKing(b.blackPiece) == Some(b.blackKing)
  }

  /** A colour has a king somewhere in the builder's configuration. */
  predicate HasKing(s: Staging, c: Color)
    requires StagingValid(s)
  {
    exists i :: 0 <= i < NumTiles && s.config[i].Some? && s.config[i].value.kind.King? && s.config[i].value.color == c
  }

  lemma HasKingOnTiles(s: Staging, c: Color)
    requires StagingValid(s)
    ensures FindKing(ActivePieces(TilesOf(s.config), c)).Some? <==> HasKing(s, c)
  {
    var tiles := TilesOf(s.config);
    if FindKing(ActivePieces(tiles, c)).Some? {
      var k := FindKing(ActivePieces(tiles, c)).value;
      PiecesMembership(tiles, c, k);
      assert s.config[k.position] == Some(k);
    }
    if HasKing(s, c) {
      var i :| 0 <= i < NumTiles && s.config[i].Some? && s.config[i].value.kind.King? && s.config[i].value.color == c;
      PiecesMembership(tiles, c, s.config[i].value);
    }
  }

  /**
   * Building fails exactly when a colour has no king, reporting White first; a built board is
   * well formed, its tiles are the configuration's, and the player to move is the opponent of
   * the next move maker (White when there is none).
   */
  lemma BuildBoardOutcome(s: Staging)
    requires StagingValid(s)
    ensures BuildBoard(s) == Err(P.White) <==> !HasKing(s, P.White)
    ensures BuildBoard(s) == Err(P.Black) <==> HasKing(s, P.White) && !HasKing(s, P.Black)
    ensures BuildBoard(s).Ok? ==>
      var b := BuildBoard(s).value;
      WellFormed(b) && b.currentColor == B.CurrentColor(s.nextMoveMaker) && b.gameBoard == TilesOf(s.config)
  {
    HasKingOnTiles(s, P.White);
    HasKingOnTiles(s, P.Black);
    var tiles := TilesOf(s.config);
    PiecesOnBoard(tiles, P.White);
    PiecesOnBoard(tiles, P.Black);
  }

  /** Pieces set elsewhere leave a key as it was. */
  lemma {:induction false} SetPiecesAbsent(s: Staging, pieces: seq<Piece>, i: int)
    requires StagingValid(s) && ValidCoordinate(i)
    requires forall p :: p in pieces ==> p.position != i
    ensures SetPieces(s, pieces).config[i] == s.config[i]
    decreases |pieces|
  {
    if pieces != [] {
      SetPiecesAbsent(s, pieces[..|pieces| - 1], i);
    }
  }

  /** A key holds the piece set there, when every piece set there is that same piece. */
  lemma {:induction false} SetPiecesUnique(s: Staging, pieces: seq<Piece>, x: Piece)
    requires StagingValid(s) && ValidCoordinate(x.position) && x in pieces
    requires forall p :: p in pieces && p.position == x.position ==> p == x
    ensures SetPieces(s, pieces).config[x.position] == Some(x)
    decreases |pieces|
  {
    var init := pieces[..|pieces| - 1];
    var last := pieces[|pieces| - 1];
    assert pieces == init + [last];
    if last != x {
      SetPiecesUnique(s, init, x);
    }
  }

  /** Setting one more piece after a list is setting the extended list. */
  lemma SetPiecesSnoc(s: Staging, a: seq<Piece>, p: Piece)
    requires StagingValid(s)
    ensures SetPieces(s, a + [p]) == WithPiece(SetPieces(s, a), p)
  {
    assert (a + [p])[..|a|] == a;
  }

  /** Setting two lists of pieces one after the other is setting their concatenation. */
  lemma {:induction false} SetPiecesAppend(s: Staging, a: seq<Piece>, b: seq<Piece>)
    requires StagingValid(s)
    ensures SetPieces(SetPieces(s, a), b) == SetPieces(s, a + b)
    decreases |b|
  {
    if b == [] {
      assert a + b == a;
    } else {
      SetPiecesAppend(s, a, b[..|b| - 1]);
      assert (a + b)[..|a + b| - 1] == a + b[..|b| - 1];
    }
  }

  /** Board.create_game_board. */
  method CreateGameBoard(boardConfig: seq<Option<Piece>>) returns (boardTiles: seq<Tile>)
    requires |boardConfig| == NumTiles
    ensures boardTiles == TilesOf(boardConfig)
  {
    boardTiles := [];
    var i := 0;
    while i < NumTiles
      invariant 0 <= i <= NumTiles
      invariant boardTiles == TilesOf(boardConfig)[..i]
    {
      if boardConfig[i].Some? {
        boardTiles := boardTiles + [OccupiedTile(boardConfig[i].value)];
      } else {
        boardTiles := boardTiles + [EmptyTile];
      }
      i := i + 1;
    }
  }

  /** Board.calculate_active_piece. */
  method CalculateActivePiece(gameboard: seq<Tile>, color: Color) returns (pieces: seq<Piece>)
    ensures pieces == ActivePieces(gameboard, color)
  {
    pieces := [];
    var i := 0;
    while i < |gameboard|
      invariant 0 <= i <= |gameboard|
      invariant pieces == ActivePieces(gameboard[..i], color)
    {
      assert gameboard[..i + 1][..i] == gameboard[..i];
      var tile := gameboard[i];
      if tile.OccupiedTile? {
        var piece := tile.piece;
        if piece.color == color {
          pieces := pieces + [piece];
        }
      }
      i := i + 1;
    }
    assert gameboard[..i] == gameboard;
  }

  /**
   * WhitePlayer.establish_king and BlackPlayer.establish_king. Both raise the same message, which
   * names no colour; the error here records which player's establish_king raised.
   */
  method EstablishKing(activePieces: seq<Piece>, color: Color) returns (r: Result<Piece, Color>)
    ensures r.Ok? <==> FindKing(activePieces).Some?
    ensures r.Ok? ==> r.value == FindKing(activePieces).value
    ensures r.Err? ==> r.error == color
  {
    var i := 0;
    while i < |activePieces|
      invariant 0 <= i <= |activePieces|
      invariant FindKing(activePieces) == FindKing(activePieces[i..])
    {
      assert activePieces[i..][1..] == activePieces[i + 1..];
      if activePieces[i].kind.King? {
        return Ok(activePieces[i]);
      }
      i := i + 1;
    }
    return Err(color);
  }

  /** Board.__init__, from a builder's configuration. */
  method NewBoard(s: Staging) returns (r: Result<Board, Color>)
    requires StagingValid(s)
    ensures r == BuildBoard(s)
  {
    var gameBoard := CreateGameBoard(s.config);
    var whitePiece := CalculateActivePiece(gameBoard, P.White);
    var blackPiece := CalculateActivePiece(gameBoard, P.Black);
    PiecesOnBoard(gameBoard, P.White);
    PiecesOnBoard(gameBoard, P.Black);
    var whiteLegalMoves := CalculateMoves(gameBoard, whitePiece);
    var blackLegalMoves := CalculateMoves(gameBoard, blackPiece);
    var whiteKing := EstablishKing(whitePiece, P.White);
    if whiteKing.Err? {
      return Err(P.White);
    }
    var blackKing := EstablishKing(blackPiece, P.Black);
    if blackKing.Err? {
      return Err(P.Black);
    }
    r := Ok(Board(gameBoard, whitePiece, blackPiece, whiteLegalMoves, blackLegalMoves, whiteKing.value,
                  blackKing.value, B.CurrentColor(s.nextMoveMaker)));
  }

  /** BoardBuilder: the configuration and the next move maker, filled in step by step. */
  class BoardBuilder {
    var boardConfig: seq<Option<Piece>>
    var nextMoveMaker: Option<Color>

    function State(): Staging
      reads this
    {
      Staging(boardConfig, nextMoveMaker)
    }

    predicate Valid()
      reads this
    {
      StagingValid(State())
    }

    /** BoardBuilder.__init__: every key None, no next move maker. */
    constructor ()
      ensures Valid() && State() == EmptyStaging()
    {
      boardConfig := seq(NumTiles, _ => None);
      nextMoveMaker := None;
    }

    /** BoardBuilder.set_piece. */
    method SetPiece(piece: Piece)
      requires Valid()
      modifies this
      ensures Valid() && State() == WithPiece(old(State()), piece)
    {
      if 0 <= piece.position < NumTiles {
        boardConfig := boardConfig[piece.position := Some(piece)];
      }
    }

    /** BoardBuilder.set_next_move_maker. */
    method SetNextMoveMaker(color: Color)
      requires Valid()
      modifies this
      ensures Valid() && State() == old(State()).(nextMoveMaker := Some(color))
    {
      nextMoveMaker := Some(color);
    }

    /** BoardBuilder.build. */
    method Build() returns (r: Result<Board, Color>)
      requires Valid()
      ensures r == BuildBoard(State())
    {
      r := NewBoard(State());
    }
  }

  // Move.execute_move

  /** The pieces of a list that are not equal to x, in order (the `if not self.piece == piece` filter). */
  function Without(pieces: seq<Piece>, x: Piece): (r: seq<Piece>)
    ensures forall p :: p in r <==> p in pieces && p != x
    decreases |pieces|
  {
    if pieces == [] then []
    else
      var last := pieces[|pieces| - 1];
      assert pieces == pieces[..|pieces| - 1] + [last];
      Without(pieces[..|pieces| - 1], x) + if last != x then [last] else []
  }

  /**
   * The pieces execute_move sets before the moved piece, in order: the current player's pieces
   * except the moving one, then every piece of the opponent, the captured one included.
   */
  function Kept(b: Board, m: Move): seq<Piece> {
    Without(b.PiecesOfColor(b.currentColor), m.piece) + b.PiecesOfColor(P.Opponent(b.currentColor))
  }

  /** What the builder of execute_move holds before build(). */
  function ExecuteStaging(b: Board, m: Move): (s: Staging)
    ensures StagingValid(s) && s.nextMoveMaker == Some(b.currentColor)
  {
    SetPieces(EmptyStaging(), Kept(b, m) + [MovePiece(m.piece, m.destination)]).(nextMoveMaker := Some(b.currentColor))
  }

  /** Move.execute_move; an error records the player whose establish_king raised on the new board. */
  function Execute(b: Board, m: Move): Result<Board, Color> {
    BuildBoard(ExecuteStaging(b, m))
  }

  /** Every execution hands the turn to the other colour. */
  lemma ExecuteSwitchesTurn(b: Board, m: Move)
    requires Execute(b, m).Ok?
    ensures Execute(b, m).value.currentColor == P.Opponent(b.currentColor)
  {
    BuildBoardOutcome(ExecuteStaging(b, m));
  }

  /** The pieces set before the moved piece are the pieces on the board, less the mover among its own side. */
  lemma KeptMembership(b: Board, m: Move, p: Piece)
    requires WellFormed(b)
    ensures p in Kept(b, m) <==>
      ValidCoordinate(p.position) && b.gameBoard[p.position] == OccupiedTile(p) &&
      !(p.color == b.currentColor && p == m.piece)
  {
    var cur := b.currentColor;
    PiecesMembership(b.gameBoard, cur, p);
    PiecesMembership(b.gameBoard, P.Opponent(cur), p);
    assert b.PiecesOfColor(cur) == ActivePieces(b.gameBoard, cur);
    assert b.PiecesOfColor(P.Opponent(cur)) == ActivePieces(b.gameBoard, P.Opponent(cur));
  }

  /**
   * The tile execute_move leaves at i: the moved piece at the destination (over whatever stood
   * there); the tile emptied when it held the moving piece of the player to move; every other
   * tile as it was.
   */
  function TileAfter(b: Board, m: Move, i: int): Tile
    requires ValidTiles(b.gameBoard) && ValidCoordinate(i)
  {
    if i == m.destination then OccupiedTile(MovePiece(m.piece, m.destination))
    else if b.gameBoard[i] == OccupiedTile(m.piece) && m.piece.color == b.currentColor then EmptyTile
    else b.gameBoard[i]
  }

  lemma ExecuteStagingAt(b: Board, m: Move, i: int)
    requires WellFormed(b) && ValidCoordinate(m.destination) && ValidCoordinate(i)
    ensures var c := ExecuteStaging(b, m).config[i];
      TileAfter(b, m, i) == if c.Some? then OccupiedTile(c.value) else EmptyTile
  {
    var kept := Kept(b, m);
    var moved := MovePiece(m.piece, m.destination);
    SetPiecesSnoc(EmptyStaging(), kept, moved);
    var s := SetPieces(EmptyStaging(), kept);
    if i != m.destination {
      match b.gameBoard[i]
      case EmptyTile =>
        forall p | p in kept
          ensures p.position != i
        {
          KeptMembership(b, m, p);
        }
        SetPiecesAbsent(EmptyStaging(), kept, i);
      case OccupiedTile(x) =>
        KeptMembership(b, m, x);
        if x in kept {
          forall p | p in kept && p.position == x.position
            ensures p == x
          {
            KeptMembership(b, m, p);
          }
          SetPiecesUnique(EmptyStaging(), kept, x);
        } else {
          forall p | p in kept
            ensures p.position != i
          {
            KeptMembership(b, m, p);
          }
          SetPiecesAbsent(EmptyStaging(), kept, i);
        }
    }
  }

  /**
   * The board execute_move builds, when it builds, holds TileAfter on every tile: the moved piece
   * (its first-move right gone) overwrites whatever stood on the destination, the moving piece's
   * tile is emptied, and no other tile changes.
   */
  lemma ExecuteTiles(b: Board, m: Move)
    requires WellFormed(b) && ValidCoordinate(m.destination) && Execute(b, m).Ok?
    ensures WellFormed(Execute(b, m).value)
    ensures forall i :: 0 <= i < NumTiles ==> Execute(b, m).value.gameBoard[i] == TileAfter(b, m, i)
  {
    var s := ExecuteStaging(b, m);
    assert Execute(b, m) == BuildBoard(s);
    BuildBoardOutcome(s);
    ExecuteStagingTiles(b, m);
  }

  /** The tiles of the configuration execute_move stages are the tiles TileAfter describes. */
  lemma ExecuteStagingTiles(b: Board, m: Move)
    requires WellFormed(b) && ValidCoordinate(m.destination)
    ensures forall i :: 0 <= i < NumTiles ==> TilesOf(ExecuteStaging(b, m).config)[i] == TileAfter(b, m, i)
  {
    forall i | 0 <= i < NumTiles
      ensures TilesOf(ExecuteStaging(b, m).config)[i] == TileAfter(b, m, i)
    {
      ExecuteStagingAt(b, m, i);
    }
  }

  /**
   * For a move the player to move generated: after it the source tile is empty, the destination
   * holds the moved piece (a capture removes the attacked piece), and no other tile changes.
   */
  lemma ExecuteGeneratedMove(b: Board, p: Piece, m: Move)
    requires WellFormed(b) && p in b.PiecesOfColor(b.currentColor)
    requires m in PieceMoves(b.gameBoard, p)
    requires Execute(b, m).Ok?
    ensures var after := Execute(b, m).value.gameBoard;
      ValidCoordinate(m.destination) && |after| == NumTiles &&
      after[p.position] == EmptyTile &&
      after[m.destination] == OccupiedTile(MovePiece(p, m.destination)) &&
      forall i :: 0 <= i < NumTiles && i != p.position && i != m.destination ==> after[i] == b.gameBoard[i]
  {
    PiecesMembership(b.gameBoard, b.currentColor, p);
    assert b.PiecesOfColor(b.currentColor) == ActivePieces(b.gameBoard, b.currentColor);
    SingleBoardRules.PieceMovesSound(b.gameBoard, p, m);
    assert m.destination != p.position;
    ExecuteTiles(b, m);
    forall i | 0 <= i < NumTiles && i != p.position && i != m.destination
      ensures b.gameBoard[i] != OccupiedTile(m.piece)
    {
    }
  }

  /**
   * Capturing the opponent's only king leaves a configuration the board cannot be built from:
   * execute_move raises for the missing king, whose colour the error names.
   */
  lemma KingCaptureFails(b: Board, p: Piece, m: Move)
    requires WellFormed(b) && p in b.PiecesOfColor(b.currentColor)
    requires m in PieceMoves(b.gameBoard, p) && m.AttackMove? && m.attackedPiece.kind.King?
    requires forall i :: 0 <= i < NumTiles && i != m.destination && b.gameBoard[i].OccupiedTile? ==>
      !(b.gameBoard[i].piece.kind.King? && b.gameBoard[i].piece.color != b.currentColor)
    ensures Execute(b, m) == Err(P.Opponent(b.currentColor))
  {
    var s := ExecuteStaging(b, m);
    NoOpponentKingAfterCapture(b, p, m);
    MoverKeepsKing(b, p, m);
    BuildBoardOutcome(s);
  }

  /** After the capture of the opponent's only king, no key of the configuration holds a king of that colour. */
  lemma NoOpponentKingAfterCapture(b: Board, p: Piece, m: Move)
    requires WellFormed(b) && p in b.PiecesOfColor(b.currentColor)
    requires m in PieceMoves(b.gameBoard, p) && m.AttackMove?
    requires forall i :: 0 <= i < NumTiles && i != m.destination && b.gameBoard[i].OccupiedTile? ==>
      !(b.gameBoard[i].piece.kind.King? && b.gameBoard[i].piece.color != b.currentColor)
    ensures !HasKing(ExecuteStaging(b, m), P.Opponent(b.currentColor))
  {
    var cur := b.currentColor;
    var s := ExecuteStaging(b, m);
    PiecesMembership(b.gameBoard, cur, p);
    assert b.PiecesOfColor(cur) == ActivePieces(b.gameBoard, cur);
    SingleBoardRules.PieceMovesSound(b.gameBoard, p, m);
    forall i | 0 <= i < NumTiles && s.config[i].Some? && s.config[i].value.kind.King?
      ensures s.config[i].value.color == cur
    {
      ExecuteStagingAt(b, m, i);
      var x := s.config[i].value;
      assert TileAfter(b, m, i) == OccupiedTile(x);
      if i == m.destination {
        assert x == MovePiece(p, m.destination);
      } else {
        assert b.gameBoard[i] == OccupiedTile(x);
      }
    }
  }

  /** The player to move still has a king after any move it generated: moved, or where it stood. */
  lemma MoverKeepsKing(b: Board, p: Piece, m: Move)
    requires WellFormed(b) && p in b.PiecesOfColor(b.currentColor)
    requires m in PieceMoves(b.gameBoard, p)
    ensures HasKing(ExecuteStaging(b, m), b.currentColor)
  {
    var cur := b.currentColor;
    var s := ExecuteStaging(b, m);
    PiecesMembership(b.gameBoard, cur, p);
    assert b.PiecesOfColor(cur) == ActivePieces(b.gameBoard, cur);
    SingleBoardRules.PieceMovesSound(b.gameBoard, p, m);
    var k := b.KingOfColor(cur);
    assert FindKing(b.PiecesOfColor(cur)) == Some(k);
    PiecesMembership(b.gameBoard, cur, k);
    var i := if k == p then m.destination else k.position;
    ExecuteStagingAt(b, m, i);
    assert s.config[i].Some? && s.config[i].value.kind.King? && s.config[i].value.color == cur;
  }

  // Board.create_standard_board

  /** The k-th piece create_standard_board places: the opening position of the two-board engine, on one board. */
  function StandardPiece(k: int): (p: Piece)
    ensures p.position == StandardBoard.StandardIndex(k)
    ensures p.color == if k < 16 then P.Black else P.White
    ensures p.isFirstMove <==> p.kind.Pawn?
  {
    var q := StandardBoard.StandardPiece(k);
    Piece(q.kind, q.position.index, q.color, q.isFirstMove)
  }

  /** The pieces in the order create_standard_board sets them. */
  function StandardArsenal(): (r: seq<Piece>)
    ensures |r| == StandardBoard.ArsenalSize
  {
    seq(StandardBoard.ArsenalSize, k => StandardPiece(k))
  }

  /** The piece the opening position holds at a tile, if any. */
  function StandardAt(i: int): (r: Option<Piece>)
    ensures r.Some? <==> 0 <= i < 16 || 48 <= i < 64
    ensures r.Some? ==> r.value.position == i
  {
    var k := StandardBoard.StandardSlot(i);
    if 0 <= k < StandardBoard.ArsenalSize then Some(StandardPiece(k)) else None
  }

  /** The builder create_standard_board builds from: the opening position, Black as next move maker. */
  function StandardStaging(): (s: Staging)
    ensures StagingValid(s) && s.nextMoveMaker == Some(P.Black)
    ensures forall i :: 0 <= i < NumTiles ==> s.config[i] == StandardAt(i)
  {
    Staging(seq(NumTiles, i => StandardAt(i)), Some(P.Black))
  }

  /** The set_piece calls of create_standard_board leave the builder holding the opening position. */
  lemma StandardPlacementComplete()
    ensures SetPieces(EmptyStaging(), StandardArsenal()).(nextMoveMaker := Some(P.Black)) == StandardStaging()
  {
    var a := StandardArsenal();
    var s, t := SetPieces(EmptyStaging(), a), StandardStaging();
    forall i | 0 <= i < NumTiles
      ensures s.config[i] == t.config[i]
    {
      if StandardAt(i).Some? {
        var x := StandardAt(i).value;
        assert a[StandardBoard.StandardSlot(i)] == x;
        SetPiecesUnique(EmptyStaging(), a, x);
      } else {
        SetPiecesAbsent(EmptyStaging(), a, i);
      }
    }
    assert s.config == t.config;
  }

  /**
   * Board.create_standard_board: the set_piece calls, black pieces first, in the order of
   * StandardArsenal, then Black as the next move maker.
   */
  method CreateStandardBoard() returns (r: Result<Board, Color>)
    ensures r == BuildBoard(StandardStaging())
  {
    var builder := new BoardBuilder();
    var arsenal := StandardArsenal();
    for k := 0 to |arsenal|
      invariant builder.Valid() && builder.State() == SetPieces(EmptyStaging(), arsenal[..k])
    {
      assert arsenal[..k + 1] == arsenal[..k] + [arsenal[k]];
      SetPiecesSnoc(EmptyStaging(), arsenal[..k], arsenal[k]);
      builder.SetPiece(arsenal[k]);
    }
    assert arsenal[..|arsenal|] == arsenal;
    builder.SetNextMoveMaker(P.Black);
    StandardPlacementComplete();
    r := builder.Build();
  }

  /**
   * The standard board builds: White is to move, the kings stand on e1 (tile 60) and e8 (tile 4),
   * and every tile holds the opening position's piece.
   */
  lemma StandardBoardOutcome()
    ensures BuildBoard(StandardStaging()).Ok?
    ensures var b := BuildBoard(StandardStaging()).value;
      WellFormed(b) && b.currentColor.White? &&
      b.whiteKing == Piece(P.King, 60, P.White, false) && b.blackKing == Piece(P.King, 4, P.Black, false) &&
      forall i :: 0 <= i < NumTiles ==>
        b.gameBoard[i] == if StandardAt(i).Some? then OccupiedTile(StandardAt(i).value) else EmptyTile
  {
    var s := StandardStaging();
    BuildBoardOutcome(s);
    assert s.config[60].Some? && s.config[4].Some?;
    assert HasKing(s, P.White) && HasKing(s, P.Black);
    var b := BuildBoard(s).value;
    StandardKing(b.gameBoard, P.White, b.whiteKing);
    StandardKing(b.gameBoard, P.Black, b.blackKing);
  }

  /** The only king of a colour in the opening position is the one on file e. */
  lemma StandardKing(tiles: seq<Tile>, c: Color, king: Piece)
    requires ValidTiles(tiles) && Consistent(tiles)
    requires forall i :: 0 <= i < NumTiles ==>
      tiles[i] == if StandardAt(i).Some? then OccupiedTile(StandardAt(i).value) else EmptyTile
    requires king in ActivePieces(tiles, c) && king.kind.King?
    ensures king == Piece(P.King, if c.White? then 60 else 4, c, false)
  {
    PiecesMembership(tiles, c, king);
    var i := king.position;
    assert StandardAt(i) == Some(king);
    var k := StandardBoard.StandardSlot(i);
    assert king == StandardPiece(k);
    assert !(8 <= k < 24);
    assert StandardBoard.BackRankKind(if k < 8 then k else k - 24) == P.King;
    assert i == 4 || i == 60;
  }
}
