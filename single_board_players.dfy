/**
 * The players of the single-board predecessor (alice5500.py, classes Player, WhitePlayer,
 * BlackPlayer, MoveTransition and MoveStatus, and the find_move helper): attacks on a tile,
 * check, checkmate, make_move, and the lookup of a move from its algebraic notation.
 */
module SingleBoardPlayers {
  import opened Wrappers
  import opened Coordinates
  import P = Pieces
  import opened SingleBoardMoves
  import opened SingleBoard
  import SingleBoardRules

  /** WhitePlayer / BlackPlayer: a colour playing on a board. */
  datatype Player = Player(board: Board, color: Color)
  {
    function LegalMoves(): seq<Move> {
      board.MovesOfColor(color)
    }

    function OpponentsMoves(): seq<Move> {
      board.MovesOfColor(P.Opponent(color))
    }

    function PlayerKing(): Piece {
      board.KingOfColor(color)
    }
  }

  /** Board.current_player. */
  function CurrentPlayer(b: Board): (p: Player)
    ensures p.board == b && p.color == b.currentColor
  {
    Player(b, b.currentColor)
  }

  /** MoveStatus. */
  datatype MoveStatus = Done | IllegalMove | LeavesKingInCheck

  /** MoveTransition: the board after the move (the old board unless Done), the move and its status. */
  datatype MoveTransition = MoveTransition(transitionBoard: Board, move: Move, moveStatus: MoveStatus)

  /** Player.calculate_attacks_on_tile: the moves, in order, whose destination is the tile. */
  function AttacksOnTile(tile: int, moves: seq<Move>): (r: seq<Move>)
    ensures forall m :: m in r <==> m in moves && m.destination == tile
    ensures |r| <= |moves|
    decreases |moves|
  {
    if moves == [] then []
    else
      var last := moves[|moves| - 1];
      assert moves == moves[..|moves| - 1] + [last];
      AttacksOnTile(tile, moves[..|moves| - 1]) + if tile == last.destination then [last] else []
  }

  method CalculateAttacksOnTile(tile: int, opponentsMoves: seq<Move>) returns (attackingMoves: seq<Move>)
    ensures attackingMoves == AttacksOnTile(tile, opponentsMoves)
  {
    attackingMoves := [];
    var i := 0;
    while i < |opponentsMoves|
      invariant 0 <= i <= |opponentsMoves|
      invariant attackingMoves == AttacksOnTile(tile, opponentsMoves[..i])
    {
      assert opponentsMoves[..i + 1][..i] == opponentsMoves[..i];
      if tile == opponentsMoves[i].destination {
        attackingMoves := attackingMoves + [opponentsMoves[i]];
      }
      i := i + 1;
    }
    assert opponentsMoves[..i] == opponentsMoves;
  }

  /** Player.is_in_check: some move of the opponent ends on the player's king. */
  function IsInCheck(p: Player): (r: bool)
    ensures r <==> exists m :: m in p.OpponentsMoves() && m.destination == p.PlayerKing().position
  {
    var attacks := AttacksOnTile(p.PlayerKing().position, p.OpponentsMoves());
    assert attacks != [] ==> attacks[0] in attacks;
    |attacks| != 0
  }

  /**
   * The test make_move applies to the board a move produced: the king of the colour that just
   * moved (the opponent of the new current player) is attacked by the new current player's moves.
   */
  function KingLeftInCheck(next: Board): (r: bool)
    ensures r <==> exists m :: (m in next.MovesOfColor(next.currentColor) &&
      m.destination == next.KingOfColor(P.Opponent(next.currentColor)).position)
  {
    var mover := Player(next, P.Opponent(next.currentColor));
    assert P.Opponent(mover.color) == next.currentColor;
    IsInCheck(mover)
  }

  /**
   * Player.make_move: a move that is not among the legal moves is refused; a legal one is
   * executed and refused when it leaves the mover's king attacked. A missing king while
   * building the new board is the error.
   */
  function MakeMove(p: Player, m: Move): (r: Result<MoveTransition, Color>)
    ensures m !in p.LegalMoves() ==> r == Ok(MoveTransition(p.board, m, IllegalMove))
    ensures r.Ok? ==> r.value.move == m
    ensures r.Ok? && r.value.moveStatus != Done ==> r.value.transitionBoard == p.board
    ensures r.Ok? && r.value.moveStatus == Done <==>
      m in p.LegalMoves() && Execute(p.board, m).Ok? && !KingLeftInCheck(Execute(p.board, m).value)
    ensures r.Ok? && r.value.moveStatus == Done ==> r.value.transitionBoard == Execute(p.board, m).value
    ensures r.Err? ==> m in p.LegalMoves() && Execute(p.board, m) == Err(r.error)
    ensures r.Ok? ==> (r.value.moveStatus == IllegalMove <==> m !in p.LegalMoves())
    ensures r.Ok? ==> (r.value.moveStatus == LeavesKingInCheck <==>
      m in p.LegalMoves() && Execute(p.board, m).Ok? && KingLeftInCheck(Execute(p.board, m).value))
  {
    if m !in p.LegalMoves() then Ok(MoveTransition(p.board, m, IllegalMove))
    else
      var transitionBoard :- Execute(p.board, m);
      if KingLeftInCheck(transitionBoard) then Ok(MoveTransition(p.board, m, LeavesKingInCheck))
      else Ok(MoveTransition(transitionBoard, m, Done))
  }

  /**
   * A move the player to move completes was generated by one of its pieces, leaves a well-formed
   * board where the other colour is to move, changes the tiles as execute_move says, and no move
   * of the other colour ends on the mover's king.
   */
  lemma DoneMoveKeepsKingSafe(p: Player, m: Move)
    requires WellFormed(p.board) && p.color == p.board.currentColor
    requires MakeMove(p, m).Ok? && MakeMove(p, m).value.moveStatus == Done
    ensures m.piece in p.board.PiecesOfColor(p.color) && m in PieceMoves(p.board.gameBoard, m.piece)
    ensures var next := MakeMove(p, m).value.transitionBoard;
      WellFormed(next) && next.currentColor == P.Opponent(p.color) &&
      (forall i :: 0 <= i < NumTiles ==> next.gameBoard[i] == TileAfter(p.board, m, i)) &&
      forall mv :: mv in next.MovesOfColor(next.currentColor) ==> mv.destination != next.KingOfColor(p.color).position
  {
    var b := p.board;
    var pieces := b.PiecesOfColor(p.color);
    assert p.LegalMoves() == ArsenalMoves(b.gameBoard, pieces);
    SingleBoardRules.ArsenalMovesSound(b.gameBoard, pieces, m);
    ArsenalMovesFrom(b.gameBoard, pieces, m);
    ExecuteSwitchesTurn(b, m);
    ExecuteTiles(b, m);
  }

  /** A move of an arsenal's list is a move of one of its pieces. */
  lemma {:induction false} ArsenalMovesFrom(board: seq<Tile>, arsenal: seq<Piece>, m: Move)
    requires ValidTiles(board) && forall q :: q in arsenal ==> ValidCoordinate(q.position)
    requires m in ArsenalMoves(board, arsenal)
    ensures exists q :: q in arsenal && m in PieceMoves(board, q) && q == m.piece
    decreases |arsenal|
  {
    var init, last := arsenal[..|arsenal| - 1], arsenal[|arsenal| - 1];
    if m in PieceMoves(board, last) {
      SingleBoardRules.PieceMovesSound(board, last, m);
    } else {
      ArsenalMovesFrom(board, init, m);
    }
  }

  /**
   * The loop of Player.has_escape_moves over a list of moves: true at the first move make_move
   * completes, false when none does; an error raised on the way ends the loop.
   */
  function HasEscapeIn(p: Player, moves: seq<Move>): (r: Result<bool, Color>)
    ensures r == Ok(true) ==> exists m :: m in moves && MakeMove(p, m).Ok? && MakeMove(p, m).value.moveStatus == Done
    ensures r == Ok(false) ==> forall m :: m in moves ==> MakeMove(p, m).Ok? && MakeMove(p, m).value.moveStatus != Done
    ensures r.Err? ==> exists m :: m in moves && MakeMove(p, m) == Err(r.error)
    decreases |moves|
  {
    if moves == [] then Ok(false)
    else
      var transit :- MakeMove(p, moves[0]);
      if transit.moveStatus == Done then Ok(true)
      else
        assert moves == [moves[0]] + moves[1..];
        HasEscapeIn(p, moves[1..])
  }

  /** Player.has_escape_moves. */
  method HasEscapeMoves(p: Player) returns (r: Result<bool, Color>)
    ensures r == HasEscapeIn(p, p.LegalMoves())
  {
    var legalMoves := p.LegalMoves();
    var i := 0;
    while i < |legalMoves|
      invariant 0 <= i <= |legalMoves|
      invariant HasEscapeIn(p, legalMoves) == HasEscapeIn(p, legalMoves[i..])
    {
      assert legalMoves[i..][1..] == legalMoves[i + 1..];
      var transit := MakeMove(p, legalMoves[i]);
      if transit.Err? {
        return Err(transit.error);
      }
      if transit.value.moveStatus == Done {
        return Ok(true);
      }
      i := i + 1;
    }
    return Ok(false);
  }

  /** Player.is_in_check_mate: in check and no escape (the escape search runs only when in check). */
  function IsInCheckMate(p: Player): (r: Result<bool, Color>)
    ensures r.Ok? && r.value <==> IsInCheck(p) && HasEscapeIn(p, p.LegalMoves()) == Ok(false)
    ensures !IsInCheck(p) ==> r == Ok(false)
  {
    if !IsInCheck(p) then Ok(false)
    else
      var escape :- HasEscapeIn(p, p.LegalMoves());
      Ok(!escape)
  }

  /** A player in checkmate has no legal move that make_move completes. */
  lemma CheckMateMeansNoMove(p: Player)
    requires IsInCheckMate(p) == Ok(true)
    ensures IsInCheck(p)
    ensures forall m :: m in p.LegalMoves() ==> MakeMove(p, m).Ok? && MakeMove(p, m).value.moveStatus != Done
  {
  }

  /**
   * Player.is_in_stale_mate: the predecessor never reports a stalemate, even for a player not in
   * check with no move make_move completes.
   */
  function IsInStaleMate(p: Player): (r: bool)
    ensures !r
  {
    false
  }

  // find_move

  /** A move matches the notation when its piece letter, source and destination all agree. */
  predicate Matches(m: Move, letter: string, source: string, destination: string) {
    [P.Symbol(m.piece.kind)] == letter &&
    AlgToInt(source) == Some(m.piece.position) && AlgToInt(destination) == Some(m.destination)
  }

  /**
   * find_move over the moves still to look at. The letter is compared first, then the source,
   * then the destination, each only when the previous comparison held; a notation alg_to_int
   * cannot read raises when it is reached, and the error is that notation.
   */
  function FindMoveIn(moves: seq<Move>, letter: string, source: string, destination: string): (r: Result<Option<Move>, string>)
    ensures r.Ok? && r.value.Some? ==> r.value.value in moves && Matches(r.value.value, letter, source, destination)
    ensures r == Ok(None) ==> forall m :: m in moves ==> !Matches(m, letter, source, destination)
    ensures r.Err? ==> (r.error == source && AlgToInt(source).None?) || (r.error == destination && AlgToInt(destination).None?)
    ensures r.Err? ==> exists m :: m in moves && [P.Symbol(m.piece.kind)] == letter
    decreases |moves|
  {
    if moves == [] then Ok(None)
    else
      var m := moves[0];
      assert moves == [m] + moves[1..];
      if [P.Symbol(m.piece.kind)] != letter then FindMoveIn(moves[1..], letter, source, destination)
      else match AlgToInt(source)
        case None => Err(source)
        case Some(from) =>
          if m.piece.position != from then FindMoveIn(moves[1..], letter, source, destination)
          else match AlgToInt(destination)
            case None => Err(destination)
            case Some(to) =>
              if m.destination == to then Ok(Some(m)) else FindMoveIn(moves[1..], letter, source, destination)
  }

  /**
   * With readable notations find_move raises nothing, and the move it returns is the first
   * matching move of the list.
   */
  lemma {:induction false} FindMoveFirstMatch(moves: seq<Move>, letter: string, source: string, destination: string)
    requires AlgToInt(source).Some? && AlgToInt(destination).Some?
    ensures FindMoveIn(moves, letter, source, destination).Ok?
    ensures var r := FindMoveIn(moves, letter, source, destination).value;
      r.Some? ==> exists i ::
                    && 0 <= i < |moves| && moves[i] == r.value
                    && forall j :: 0 <= j < i ==> !Matches(moves[j], letter, source, destination)
    decreases |moves|
  {
    if moves != [] {
      var rest := moves[1..];
      FindMoveFirstMatch(rest, letter, source, destination);
      if !Matches(moves[0], letter, source, destination) {
        var r := FindMoveIn(rest, letter, source, destination).value;
        if r.Some? {
          var i :| 0 <= i < |rest| && rest[i] == r.value &&
            forall j :: 0 <= j < i ==> !Matches(rest[j], letter, source, destination);
          assert moves[i + 1] == r.value;
          forall j | 0 <= j < i + 1
            ensures !Matches(moves[j], letter, source, destination)
          {
            if j > 0 {
              assert moves[j] == rest[j - 1];
            }
          }
        }
      }
    }
  }

  /** find_move: a linear scan that returns at the first match; None when nothing matches. */
  method FindMove(moves: seq<Move>, letter: string, source: string, destination: string) returns (r: Result<Option<Move>, string>)
    ensures r == FindMoveIn(moves, letter, source, destination)
  {
    var i := 0;
    while i < |moves|
      invariant 0 <= i <= |moves|
      invariant FindMoveIn(moves, letter, source, destination) == FindMoveIn(moves[i..], letter, source, destination)
    {
      var move := moves[i];
      assert moves[i..][0] == move && moves[i..][1..] == moves[i + 1..];
      if [P.Symbol(move.piece.kind)] == letter {
        var from := AlgToInt(source);
        if from.None? {
          return Err(source);
        }
        if move.piece.position == from.value {
          var to := AlgToInt(destination);
          if to.None? {
            return Err(destination);
          }
          if move.destination == to.value {
            return Ok(Some(move));
          }
        }
      }
      i := i + 1;
    }
    return Ok(None);
  }
}
