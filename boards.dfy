/**
 * The board of the two-board engine (aliceengine.py, classes Board and BoardBuilder). A Board is
 * immutable once built: its construction derives the two rows of tiles, each colour's pieces,
 * each colour's moves, each colour's king and the player to move from the builder's configuration.
 */
module Boards {
  import opened Wrappers
  import opened Coordinates
  import opened Pieces
  import opened Moves
  import opened Generators

  /**
   * What a BoardBuilder holds: the piece (or None) at each index of each board, and the colour
   * that made the last move, if any.
   */
  datatype Staging = Staging(config1: seq<Option<Piece>>, config2: seq<Option<Piece>>, nextMoveMaker: Option<Color>)

  /** Both configurations have the 64 keys 0..63, and each piece is keyed by its own position. */
  predicate StagingValid(s: Staging) {
    |s.config1| == NumTiles && |s.config2| == NumTiles &&
    (forall i :: 0 <= i < NumTiles && s.config1[i].Some? ==> s.config1[i].value.position == Position(BoardOne, i)) &&
    (forall i :: 0 <= i < NumTiles && s.config2[i].Some? ==> s.config2[i].value.position == Position(BoardTwo, i))
  }

  function ConfigAt(s: Staging, q: Position): Option<Piece>
    requires StagingValid(s) && ValidTile(q)
  {
    if q.board == BoardOne then s.config1[q.index] else s.config2[q.index]
  }

  /** The configuration a fresh BoardBuilder starts from: every key None, no next move maker. */
  function EmptyStaging(): (s: Staging)
    ensures StagingValid(s)
    ensures forall q :: ValidTile(q) ==> ConfigAt(s, q) == None
  {
    Staging(seq(NumTiles, _ => None), seq(NumTiles, _ => None), None)
  }

  /**
   * BoardBuilder.set_piece: the piece is stored under its own position. A key outside 0..63 is
   * never read back when the board is built, so setting one changes nothing that matters.
   */
  function WithPiece(s: Staging, piece: Piece): (r: Staging)
    requires StagingValid(s)
    ensures StagingValid(r) && r.nextMoveMaker == s.nextMoveMaker
    ensures forall q :: ValidTile(q) ==>
      ConfigAt(r, q) == if q == piece.position then Some(piece) else ConfigAt(s, q)
  {
    var i := piece.position.index;
    if !(0 <= i < NumTiles) then s
    else match piece.position.board
      case BoardOne => s.(config1 := s.config1[i := Some(piece)])
      case BoardTwo => s.(config2 := s.config2[i := Some(piece)])
  }

  /** Successive set_piece calls, in order: a later piece at the same position replaces an earlier one. */
  function SetPieces(s: Staging, pieces: seq<Piece>): (r: Staging)
    requires StagingValid(s)
    ensures StagingValid(r) && r.nextMoveMaker == s.nextMoveMaker
    decreases |pieces|
  {
    if pieces == [] then s else WithPiece(SetPieces(s, pieces[..|pieces| - 1]), pieces[|pieces| - 1])
  }

  /** Board.create_game_board: an OccupiedTile wherever the configuration holds a piece. */
  function TilesOf(config: seq<Option<Piece>>): (tiles: seq<Tile>)
    requires |config| == NumTiles
    ensures |tiles| == NumTiles
  {
    seq(NumTiles, i requires 0 <= i < NumTiles => if config[i].Some? then OccupiedTile(config[i].value) else EmptyTile)
  }

  /** Board.calculate_active_piece: the pieces of a colour on a row of tiles, in tile order. */
  function ActivePieces(tiles: seq<Tile>, color: Color): seq<Piece>
    decreases |tiles|
  {
    if tiles == [] then []
    else
      var last := tiles[|tiles| - 1];
      ActivePieces(tiles[..|tiles| - 1], color) +
        (if last.OccupiedTile? && last.piece.color == color then [last.piece] else [])
  }

  /** The pieces of a colour on both boards: board one first, as white_piece and black_piece are formed. */
  function PiecesOf(g: GameBoards, color: Color): seq<Piece> {
    ActivePieces(g.gameBoard1, color) + ActivePieces(g.gameBoard2, color)
  }

  /** establish_king of WhitePlayer and BlackPlayer: the first King in the arsenal, if there is one. */
  function FindKing(pieces: seq<Piece>): (r: Option<Piece>)
    ensures r.Some? ==> r.value in pieces && r.value.kind == King
    ensures r.None? <==> forall p :: p in pieces ==> p.kind != King
    decreases |pieces|
  {
    if pieces == [] then None
    else if pieces[0].kind == King then Some(pieces[0])
    else FindKing(pieces[1..])
  }

  /** A built board. The Player objects are derived from it (module Players). */
  datatype Board = Board(
    gameBoards: GameBoards,
    whitePiece: seq<Piece>,
    blackPiece: seq<Piece>,
    whiteLegalMoves: seq<Move>,
    blackLegalMoves: seq<Move>,
    whiteKing: Piece,
    blackKing: Piece,
    currentColor: Color)
  {
    function PiecesOfColor(c: Color): seq<Piece> {
      if c == White then whitePiece else blackPiece
    }

    function MovesOfColor(c: Color): seq<Move> {
      if c == White then whiteLegalMoves else blackLegalMoves
    }

    function KingOfColor(c: Color): Piece {
      if c == White then whiteKing else blackKing
    }
  }

  /** current_player: the opponent of next_move_maker, and White when there is none. */
  function CurrentColor(nextMoveMaker: Option<Color>): (r: Color)
    ensures nextMoveMaker.Some? ==> r == Opponent(nextMoveMaker.value)
    ensures nextMoveMaker.None? ==> r == White
  {
    if nextMoveMaker == Some(White) then Black else White
  }

  /**
   * Board.__init__. The White player is constructed first, so a missing white king is reported
   * before a missing black one; the error carries the colour whose king is missing.
   */
  function BuildBoard(s: Staging): Result<Board, Color>
    requires StagingValid(s)
  {
    var g := StagedBoards(s);
    var white := PiecesOf(g, White);
    var black := PiecesOf(g, Black);
    PiecesOfOnBoard(g, White);
    PiecesOfOnBoard(g, Black);
    var whiteMoves := ArsenalMoves(g, white);
    var blackMoves := ArsenalMoves(g, black);
    match (FindKing(white), FindKing(black))
    case (None, _) => Err(White)
    case (Some(_), None) => Err(Black)
    case (Some(wk), Some(bk)) =>
      Ok(Board(g, white, black, whiteMoves, blackMoves, wk, bk, CurrentColor(s.nextMoveMaker)))
  }

  lemma {:induction false} ActivePiecesMembership(tiles: seq<Tile>, color: Color, p: Piece)
    ensures p in ActivePieces(tiles, color) <==>
      p.color == color && exists i :: 0 <= i < |tiles| && tiles[i] == OccupiedTile(p)
    decreases |tiles|
  {
    if tiles != [] {
      var init := tiles[..|tiles| - 1];
      ActivePiecesMembership(init, color, p);
      if exists i :: 0 <= i < |tiles| && tiles[i] == OccupiedTile(p) {
        var i :| 0 <= i < |tiles| && tiles[i] == OccupiedTile(p);
        if i < |init| {
          assert init[i] == tiles[i];
        }
      }
      if exists i :: 0 <= i < |init| && init[i] == OccupiedTile(p) {
        var i :| 0 <= i < |init| && init[i] == OccupiedTile(p);
        assert tiles[i] == init[i];
      }
    }
  }

  /**
   * On consistent boards, white_piece and black_piece hold exactly the pieces of that colour
   * that stand on the tile of their own position.
   */
  lemma PiecesOfMembership(g: GameBoards, color: Color, p: Piece)
    requires g.Valid() && g.Consistent()
    ensures p in PiecesOf(g, color) <==>
      p.color == color && ValidTile(p.position) && g.GetTile(p.position) == OccupiedTile(p)
  {
    ActivePiecesMembership(g.gameBoard1, color, p);
    ActivePiecesMembership(g.gameBoard2, color, p);
    if p.color == color && ValidTile(p.position) && g.GetTile(p.position) == OccupiedTile(p) {
      if p.position.board == BoardOne {
        assert g.gameBoard1[p.position.index] == OccupiedTile(p);
      } else {
        assert g.gameBoard2[p.position.index] == OccupiedTile(p);
      }
    }
  }

  lemma PiecesOfOnBoard(g: GameBoards, color: Color)
    requires g.Valid() && g.Consistent()
    ensures forall p :: p in PiecesOf(g, color) ==> OnBoard(p)
  {
    forall p | p in PiecesOf(g, color) {
      PiecesOfMembership(g, color, p);
    }
  }

  /** On a consistent board the piece on a tile stands at that tile's position. */
  lemma ConsistentAt(g: GameBoards, q: Position)
    requires g.Valid() && g.Consistent() && ValidTile(q) && g.GetTile(q).OccupiedTile?
    ensures g.GetTile(q).piece.position == q
  {
  }

  /**
   * A board is well formed when its parts are what Board.__init__ derives from its tiles: the
   * pieces of each colour, their moves and their kings.
   */
  predicate WellFormed(b: Board) {
    var g := b.gameBoards;
    g.Valid() && g.Consistent() &&
    b.whitePiece == PiecesOf(g, White) && b.blackPiece == PiecesOf(g, Black) &&
    (forall p :: p in b.whitePiece ==> OnBoard(p)) && (forall p :: p in b.blackPiece ==> OnBoard(p)) &&
    b.whiteLegalMoves == ArsenalMoves(g, b.whitePiece) && b.blackLegalMoves == ArsenalMoves(g, b.blackPiece) &&
    FindKing(b.whitePiece) == Some(b.whiteKing) && FindKing(b.blackPiece) == Some(b.blackKing)
  }

  /** A colour has a king somewhere in the builder's configuration. */
  ghost predicate HasKing(s: Staging, c: Color)
    requires StagingValid(s)
  {
    exists q :: ValidTile(q) && ConfigAt(s, q).Some? && ConfigAt(s, q).value.kind == King && ConfigAt(s, q).value.color == c
  }

  lemma FindKingInPieces(g: GameBoards, c: Color)
    requires g.Valid() && g.Consistent()
    ensures FindKing(PiecesOf(g, c)).Some? <==>
      exists q :: ValidTile(q) && g.GetTile(q).OccupiedTile? && g.GetTile(q).piece.kind == King && g.GetTile(q).piece.color == c
  {
    if FindKing(PiecesOf(g, c)).Some? {
      var k := FindKing(PiecesOf(g, c)).value;
      PiecesOfMembership(g, c, k);
    }
    if exists q :: ValidTile(q) && g.GetTile(q).OccupiedTile? && g.GetTile(q).piece.kind == King && g.GetTile(q).piece.color == c {
      var q :| ValidTile(q) && g.GetTile(q).OccupiedTile? && g.GetTile(q).piece.kind == King && g.GetTile(q).piece.color == c;
      PiecesOfMembership(g, c, g.GetTile(q).piece);
    }
  }

  /** The two rows of tiles Board.__init__ creates from a configuration. */
  function StagedBoards(s: Staging): (g: GameBoards)
    requires StagingValid(s)
    ensures g.Valid() && g.Consistent()
    ensures forall q :: ValidTile(q) ==>
      g.GetTile(q) == if ConfigAt(s, q).Some? then OccupiedTile(ConfigAt(s, q).value) else EmptyTile
  {
    GameBoards(TilesOf(s.config1), TilesOf(s.config2))
  }

  lemma HasKingOnTiles(s: Staging, c: Color)
    requires StagingValid(s)
    ensures FindKing(PiecesOf(StagedBoards(s), c)).Some? <==> HasKing(s, c)
  {
    var g := StagedBoards(s);
    FindKingInPieces(g, c);
    if HasKing(s, c) {
      var q :| ValidTile(q) && ConfigAt(s, q).Some? && ConfigAt(s, q).value.kind == King && ConfigAt(s, q).value.color == c;
      assert g.GetTile(q).OccupiedTile?;
    }
  }

  /**
   * Building fails exactly when a colour has no king, reporting White first; a built board is
   * well formed, holds exactly the configuration's pieces, and the player to move is the
   * opponent of the next move maker (White when there is none).
   */
  lemma BuildBoardOutcome(s: Staging)
    requires StagingValid(s)
    ensures BuildBoard(s) == Err(White) <==> !HasKing(s, White)
    ensures BuildBoard(s) == Err(Black) <==> HasKing(s, White) && !HasKing(s, Black)
    ensures BuildBoard(s).Ok? ==>
      var b := BuildBoard(s).value;
      WellFormed(b) && b.currentColor == CurrentColor(s.nextMoveMaker) && b.gameBoards == StagedBoards(s)
  {
    HasKingOnTiles(s, White);
    HasKingOnTiles(s, Black);
    var g := StagedBoards(s);
    PiecesOfOnBoard(g, White);
    PiecesOfOnBoard(g, Black);
    var white, black := PiecesOf(g, White), PiecesOf(g, Black);
    if FindKing(white).Some? && FindKing(black).Some? {
      assert BuildBoard(s) == Ok(Board(g, white, black, ArsenalMoves(g, white), ArsenalMoves(g, black),
        FindKing(white).value, FindKing(black).value, CurrentColor(s.nextMoveMaker)));
    }
  }

  /** Pieces set elsewhere leave a position as it was. */
  lemma {:induction false} SetPiecesAbsent(s: Staging, pieces: seq<Piece>, q: Position)
    requires StagingValid(s) && ValidTile(q)
    requires forall p :: p in pieces ==> p.position != q
    ensures ConfigAt(SetPieces(s, pieces), q) == ConfigAt(s, q)
    decreases |pieces|
  {
    if pieces != [] {
      SetPiecesAbsent(s, pieces[..|pieces| - 1], q);
    }
  }

  /** A position holds the piece set there, when every piece set there is that same piece. */
  lemma {:induction false} SetPiecesUnique(s: Staging, pieces: seq<Piece>, x: Piece)
    requires StagingValid(s) && ValidTile(x.position) && x in pieces
    requires forall p :: p in pieces && p.position == x.position ==> p == x
    ensures ConfigAt(SetPieces(s, pieces), x.position) == Some(x)
    decreases |pieces|
  {
    var init := pieces[..|pieces| - 1];
    var last := pieces[|pieces| - 1];
    assert pieces == init + [last];
    if last != x {
      SetPiecesUnique(s, init, x);
    }
  }

  /** Setting one more piece after a list is setting the extended list. */
  lemma SetPiecesSnoc(s: Staging, a: seq<Piece>, p: Piece)
    requires StagingValid(s)
    ensures SetPieces(s, a + [p]) == WithPiece(SetPieces(s, a), p)
  {
    assert (a + [p])[..|a|] == a;
  }

  /** Setting two lists of pieces one after the other is setting their concatenation. */
  lemma {:induction false} SetPiecesAppend(s: Staging, a: seq<Piece>, b: seq<Piece>)
    requires StagingValid(s)
    ensures SetPieces(SetPieces(s, a), b) == SetPieces(s, a + b)
    decreases |b|
  {
    if b == [] {
      assert a + b == a;
    } else {
      SetPiecesAppend(s, a, b[..|b| - 1]);
      assert (a + b)[..|a + b| - 1] == a + b[..|b| - 1];
    }
  }

  /** Board.create_game_board. */
  method CreateGameBoard(boardConfig: seq<Option<Piece>>) returns (boardTiles: seq<Tile>)
    requires |boardConfig| == NumTiles
    ensures boardTiles == TilesOf(boardConfig)
  {
    boardTiles := [];
    var i := 0;
    while i < NumTiles
      invariant 0 <= i <= NumTiles
      invariant boardTiles == TilesOf(boardConfig)[..i]
    {
      if boardConfig[i].Some? {
        boardTiles := boardTiles + [OccupiedTile(boardConfig[i].value)];
      } else {
        boardTiles := boardTiles + [EmptyTile];
      }
      i := i + 1;
    }
  }

  /** Board.calculate_active_piece. */
  method CalculateActivePiece(gameboard: seq<Tile>, color: Color) returns (pieces: seq<Piece>)
    ensures pieces == ActivePieces(gameboard, color)
  {
    pieces := [];
    var i := 0;
    while i < |gameboard|
      invariant 0 <= i <= |gameboard|
      invariant pieces == ActivePieces(gameboard[..i], color)
    {
      assert gameboard[..i + 1][..i] == gameboard[..i];
      var tile := gameboard[i];
      if tile.OccupiedTile? {
        var piece := tile.piece;
        if piece.color == color {
          pieces := pieces + [piece];
        }
      }
      i := i + 1;
    }
    assert gameboard[..i] == gameboard;
  }

  /** WhitePlayer.establish_king and BlackPlayer.establish_king: the error names the colour. */
  method EstablishKing(activePieces: seq<Piece>, color: Color) returns (r: Result<Piece, Color>)
    ensures r.Ok? <==> FindKing(activePieces).Some?
    ensures r.Ok? ==> r.value == FindKing(activePieces).value
    ensures r.Err? ==> r.error == color
  {
    var i := 0;
    while i < |activePieces|
      invariant 0 <= i <= |activePieces|
      invariant FindKing(activePieces) == FindKing(activePieces[i..])
    {
      assert activePieces[i..][1..] == activePieces[i + 1..];
      if activePieces[i].kind == King {
        return Ok(activePieces[i]);
      }
      i := i + 1;
    }
    return Err(color);
  }

  /** Board.__init__, from a builder's configuration. */
  method NewBoard(s: Staging) returns (r: Result<Board, Color>)
    requires StagingValid(s)
    ensures r == BuildBoard(s)
  {
    var gameBoard1 := CreateGameBoard(s.config1);
    var gameBoard2 := CreateGameBoard(s.config2);
    var g := GameBoards(gameBoard1, gameBoard2);
    assert g == StagedBoards(s);
    var white1 := CalculateActivePiece(gameBoard1, White);
    var white2 := CalculateActivePiece(gameBoard2, White);
    var black1 := CalculateActivePiece(gameBoard1, Black);
    var black2 := CalculateActivePiece(gameBoard2, Black);
    var whitePiece, blackPiece := white1 + white2, black1 + black2;
    PiecesOfOnBoard(g, White);
    PiecesOfOnBoard(g, Black);
    var whiteLegalMoves := CalculateMoves(g, whitePiece);
    var blackLegalMoves := CalculateMoves(g, blackPiece);
    var whiteKing := EstablishKing(whitePiece, White);
    if whiteKing.Err? {
      return Err(White);
    }
    var blackKing := EstablishKing(blackPiece, Black);
    if blackKing.Err? {
      return Err(Black);
    }
    r := Ok(Board(g, whitePiece, blackPiece, whiteLegalMoves, blackLegalMoves, whiteKing.value, blackKing.value,
                  CurrentColor(s.nextMoveMaker)));
  }

  /** BoardBuilder: the two configurations and the next move maker, filled in step by step. */
  class BoardBuilder {
    var boardConfig1: seq<Option<Piece>>
    var boardConfig2: seq<Option<Piece>>
    var nextMoveMaker: Option<Color>

    function State(): Staging
      reads this
    {
      Staging(boardConfig1, boardConfig2, nextMoveMaker)
    }

    predicate Valid()
      reads this
    {
      StagingValid(State())
    }

    /** BoardBuilder.__init__: every key of both configurations None, no next move maker. */
    constructor ()
      ensures Valid() && State() == EmptyStaging()
    {
      boardConfig1 := seq(NumTiles, _ => None);
      boardConfig2 := seq(NumTiles, _ => None);
      nextMoveMaker := None;
    }

    /** BoardBuilder.set_piece. */
    method SetPiece(piece: Piece)
      requires Valid()
      modifies this
      ensures Valid() && State() == WithPiece(old(State()), piece)
    {
      if 0 <= piece.position.index < NumTiles {
        if piece.position.board == BoardOne {
          boardConfig1 := boardConfig1[piece.position.index := Some(piece)];
        } else {
          boardConfig2 := boardConfig2[piece.position.index := Some(piece)];
        }
      }
    }

    /** BoardBuilder.set_next_move_maker. */
    method SetNextMoveMaker(color: Color)
      requires Valid()
      modifies this
      ensures Valid() && State() == old(State()).(nextMoveMaker := Some(color))
    {
      nextMoveMaker := Some(color);
    }

    /** BoardBuilder.build. */
    method Build() returns (r: Result<Board, Color>)
      requires Valid()
      ensures r == BuildBoard(State())
    {
      r := NewBoard(State());
    }
  }
}
