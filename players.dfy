/**
 * The players of a built board: attacks on a tile, check, checkmate and stalemate, and the two
 * ways of making a move (on the other board, as Alice chess wants, or as a probe that stays on the
 * board the piece stands on).
 */
module Players {
  import opened Wrappers
  import opened Coordinates
  import opened Pieces
  import opened Moves
  import opened Boards
  import opened Execution

  /** WhitePlayer / BlackPlayer: a colour playing on a board. */
  datatype Player = Player(board: Board, color: Color)
  {
    function LegalMoves(): seq<Move> {
      board.MovesOfColor(color)
    }

    function OpponentsMoves(): seq<Move> {
      board.MovesOfColor(Opponent(color))
    }

    function PlayerKing(): Piece {
      board.KingOfColor(color)
    }
  }

  /** Board.current_player. */
  function CurrentPlayer(b: Board): (p: Player)
    ensures p.board == b && p.color == b.currentColor
  {
    Player(b, b.currentColor)
  }

  /** MoveStatus. */
  datatype MoveStatus = Done | IllegalMove | LeavesKingInCheck

  /** MoveTransition: the board after the move (the old board unless Done), the move and its status. */
  datatype MoveTransition = MoveTransition(transitionBoard: Board, move: Move, moveStatus: MoveStatus)

  /**
   * Player.calculate_attacks_on_tile: the moves, in order, whose destination flipped to the other
   * board is the tile (a move lands on the other board, so it threatens the tile it passes over).
   */
  function AttacksOnTile(tile: Position, moves: seq<Move>): (r: seq<Move>)
    ensures forall m :: m in r <==> m in moves && FlipBoard(m.destination) == tile
    ensures |r| <= |moves|
    decreases |moves|
  {
    if moves == [] then []
    else
      var last := moves[|moves| - 1];
      assert moves == moves[..|moves| - 1] + [last];
      AttacksOnTile(tile, moves[..|moves| - 1]) + if tile == FlipBoard(last.destination) then [last] else []
  }

  method CalculateAttacksOnTile(tile: Position, opponentsMoves: seq<Move>) returns (attackingMoves: seq<Move>)
    ensures attackingMoves == AttacksOnTile(tile, opponentsMoves)
  {
    attackingMoves := [];
    var i := 0;
    while i < |opponentsMoves|
      invariant 0 <= i <= |opponentsMoves|
      invariant attackingMoves == AttacksOnTile(tile, opponentsMoves[..i])
    {
      assert opponentsMoves[..i + 1][..i] == opponentsMoves[..i];
      if tile == FlipBoard(opponentsMoves[i].destination) {
        attackingMoves := attackingMoves + [opponentsMoves[i]];
      }
      i := i + 1;
    }
    assert opponentsMoves[..i] == opponentsMoves;
  }

  /** Player.is_in_check: some move of the opponent lands over the player's king. */
  function IsInCheck(p: Player): (r: bool)
    ensures r <==> exists m :: m in p.OpponentsMoves() && FlipBoard(m.destination) == p.PlayerKing().position
  {
    var attacks := AttacksOnTile(p.PlayerKing().position, p.OpponentsMoves());
    assert attacks != [] ==> attacks[0] in attacks;
    |attacks| != 0
  }

  /**
   * The test make_move and make_move_without_changing_board apply to the board a move produced:
   * the king of the colour that just moved (the opponent of the new current player) is attacked
   * by the legal moves of the new current player.
   */
  function KingLeftInCheck(next: Board): (r: bool)
    ensures r <==> exists m :: (m in next.MovesOfColor(next.currentColor) &&
      FlipBoard(m.destination) == next.KingOfColor(Opponent(next.currentColor)).position)
  {
    var mover := Player(next, Opponent(next.currentColor));
    assert Opponent(mover.color) == next.currentColor;
    IsInCheck(mover)
  }

  /**
   * Player.make_move_without_changing_board: an illegal move is refused; a legal one is played as
   * a copy whose destination is flipped back to the board it starts on, and refused when that
   * leaves the mover's king attacked. A missing king while building is the error.
   */
  function MakeMoveWithoutChangingBoard(p: Player, m: Move): (r: Result<MoveTransition, Color>)
    ensures m !in p.LegalMoves() ==> r == Ok(MoveTransition(p.board, m, IllegalMove))
    ensures r.Ok? ==> r.value.move == m
    ensures r.Ok? && r.value.moveStatus != Done ==> r.value.transitionBoard == p.board
    ensures r.Ok? && r.value.moveStatus == Done <==>
      m in p.LegalMoves() && Execute(p.board, ProbeMove(m)).Ok? && !KingLeftInCheck(Execute(p.board, ProbeMove(m)).value)
    ensures r.Ok? && r.value.moveStatus == Done ==> r.value.transitionBoard == Execute(p.board, ProbeMove(m)).value
    ensures r.Ok? ==> (r.value.moveStatus == IllegalMove <==> m !in p.LegalMoves())
    ensures r.Ok? ==> (r.value.moveStatus == LeavesKingInCheck <==>
      m in p.LegalMoves() && Execute(p.board, ProbeMove(m)).Ok? && KingLeftInCheck(Execute(p.board, ProbeMove(m)).value))
    ensures r.Err? ==> m in p.LegalMoves() && Execute(p.board, ProbeMove(m)) == Err(r.error)
  {
    if m !in p.LegalMoves() then Ok(MoveTransition(p.board, m, IllegalMove))
    else
      var transitionBoard :- Execute(p.board, ProbeMove(m));
      if KingLeftInCheck(transitionBoard) then Ok(MoveTransition(p.board, m, LeavesKingInCheck))
      else Ok(MoveTransition(transitionBoard, m, Done))
  }

  /**
   * Player.make_move: only a move the probe accepts is played for real (to the other board), and
   * it is refused when it leaves the mover's king attacked there.
   */
  function MakeMove(p: Player, m: Move): (r: Result<MoveTransition, Color>)
    ensures m !in p.LegalMoves() ==> r == Ok(MoveTransition(p.board, m, IllegalMove))
    ensures r.Ok? ==> r.value.move == m
    ensures r.Ok? && r.value.moveStatus != Done ==> r.value.transitionBoard == p.board
    ensures r.Ok? && r.value.moveStatus == Done ==>
      MakeMoveWithoutChangingBoard(p, m).Ok? && MakeMoveWithoutChangingBoard(p, m).value.moveStatus == Done &&
      Execute(p.board, m) == Ok(r.value.transitionBoard) && !KingLeftInCheck(r.value.transitionBoard)
    ensures r.Ok? ==> (r.value.moveStatus == IllegalMove <==> m !in p.LegalMoves())
    ensures r.Ok? ==> (r.value.moveStatus == Done <==>
      m in p.LegalMoves() &&
      Execute(p.board, ProbeMove(m)).Ok? && !KingLeftInCheck(Execute(p.board, ProbeMove(m)).value) &&
      Execute(p.board, m).Ok? && !KingLeftInCheck(Execute(p.board, m).value))
    ensures r.Ok? ==> (r.value.moveStatus == LeavesKingInCheck <==>
      m in p.LegalMoves() && Execute(p.board, ProbeMove(m)).Ok? &&
      (KingLeftInCheck(Execute(p.board, ProbeMove(m)).value) ||
       (Execute(p.board, m).Ok? && KingLeftInCheck(Execute(p.board, m).value))))
    ensures r.Err? ==>
      m in p.LegalMoves() &&
      (Execute(p.board, ProbeMove(m)) == Err(r.error) ||
       (Execute(p.board, ProbeMove(m)).Ok? && !KingLeftInCheck(Execute(p.board, ProbeMove(m)).value) &&
        Execute(p.board, m) == Err(r.error)))
  {
    var moveTrans :- MakeMoveWithoutChangingBoard(p, m);
    if moveTrans.moveStatus == Done then
      var transitionBoard :- Execute(p.board, m);
      if KingLeftInCheck(transitionBoard) then Ok(MoveTransition(p.board, m, LeavesKingInCheck))
      else Ok(MoveTransition(transitionBoard, m, Done))
    else Ok(moveTrans)
  }

  /**
   * A move the current player completes leaves a well-formed board where the other colour is to
   * move and no legal move of it lands over the mover's king, in the probe position as well.
   */
  lemma DoneMoveKeepsKingSafe(p: Player, m: Move)
    requires p.color == p.board.currentColor
    requires MakeMove(p, m).Ok? && MakeMove(p, m).value.moveStatus == Done
    ensures var next := MakeMove(p, m).value.transitionBoard;
      WellFormed(next) && next.currentColor == Opponent(p.color) &&
      forall mv :: mv in next.MovesOfColor(next.currentColor) ==>
        FlipBoard(mv.destination) != next.KingOfColor(p.color).position
    ensures var probe := MakeMoveWithoutChangingBoard(p, m).value.transitionBoard;
      WellFormed(probe) && probe.currentColor == Opponent(p.color) &&
      forall mv :: mv in probe.MovesOfColor(probe.currentColor) ==>
        FlipBoard(mv.destination) != probe.KingOfColor(p.color).position
  {
    ExecuteSwitchesTurn(p.board, m);
    ExecuteWellFormed(p.board, m);
    ExecuteSwitchesTurn(p.board, ProbeMove(m));
    ExecuteWellFormed(p.board, ProbeMove(m));
  }

  /**
   * The loop of Player.has_escape_moves over a list of moves: true at the first move make_move
   * completes, false when none does; an error raised on the way ends the loop.
   */
  function HasEscapeIn(p: Player, moves: seq<Move>): (r: Result<bool, Color>)
    ensures r == Ok(true) ==> exists m :: m in moves && MakeMove(p, m).Ok? && MakeMove(p, m).value.moveStatus == Done
    ensures r == Ok(false) ==> forall m :: m in moves ==> MakeMove(p, m).Ok? && MakeMove(p, m).value.moveStatus != Done
    ensures r.Err? ==> exists m :: m in moves && MakeMove(p, m) == Err(r.error)
    decreases |moves|
  {
    if moves == [] then Ok(false)
    else
      var transit :- MakeMove(p, moves[0]);
      if transit.moveStatus == Done then Ok(true)
      else
        assert moves == [moves[0]] + moves[1..];
        HasEscapeIn(p, moves[1..])
  }

  /** Player.has_escape_moves. */
  method HasEscapeMoves(p: Player) returns (r: Result<bool, Color>)
    ensures r == HasEscapeIn(p, p.LegalMoves())
  {
    var legalMoves := p.LegalMoves();
    var i := 0;
    while i < |legalMoves|
      invariant 0 <= i <= |legalMoves|
      invariant HasEscapeIn(p, legalMoves) == HasEscapeIn(p, legalMoves[i..])
    {
      assert legalMoves[i..][1..] == legalMoves[i + 1..];
      var transit := MakeMove(p, legalMoves[i]);
      if transit.Err? {
        return Err(transit.error);
      }
      if transit.value.moveStatus == Done {
        return Ok(true);
      }
      i := i + 1;
    }
    return Ok(false);
  }

  /**
   * The loop of Player.get_escape_moves over a list of moves: the moves both the probe and the
   * real move complete, in order; the first error raised ends the loop.
   */
  function EscapeMovesIn(p: Player, moves: seq<Move>): (r: Result<seq<Move>, Color>)
    ensures r.Ok? ==> forall m :: m in r.value <==> m in moves && Escapes(p, m)
    ensures r.Ok? ==> forall m :: m in moves ==> MakeMove(p, m).Ok?
    decreases |moves|
  {
    if moves == [] then Ok([])
    else
      var last := moves[|moves| - 1];
      assert moves == moves[..|moves| - 1] + [last];
      var escapeMoves :- EscapeMovesIn(p, moves[..|moves| - 1]);
      var transitHere :- MakeMoveWithoutChangingBoard(p, last);
      var transitThere :- MakeMove(p, last);
      if transitHere.moveStatus == Done && transitThere.moveStatus == Done then Ok(escapeMoves + [last])
      else Ok(escapeMoves)
  }

  /** A move both make_move_without_changing_board and make_move complete. */
  predicate Escapes(p: Player, m: Move) {
    MakeMoveWithoutChangingBoard(p, m).Ok? && MakeMoveWithoutChangingBoard(p, m).value.moveStatus == Done &&
    MakeMove(p, m).Ok? && MakeMove(p, m).value.moveStatus == Done
  }

  /** Player.get_escape_moves. */
  method GetEscapeMoves(p: Player) returns (r: Result<seq<Move>, Color>)
    ensures r == EscapeMovesIn(p, p.LegalMoves())
  {
    var legalMoves := p.LegalMoves();
    var escapeMoves := [];
    var i := 0;
    while i < |legalMoves|
      invariant 0 <= i <= |legalMoves|
      invariant EscapeMovesIn(p, legalMoves[..i]) == Ok(escapeMoves)
    {
      assert legalMoves[..i + 1][..i] == legalMoves[..i];
      var transitHere := MakeMoveWithoutChangingBoard(p, legalMoves[i]);
      if transitHere.Err? {
        EscapeMovesErrorStops(p, legalMoves, i + 1);
        return Err(transitHere.error);
      }
      var transitThere := MakeMove(p, legalMoves[i]);
      if transitThere.Err? {
        EscapeMovesErrorStops(p, legalMoves, i + 1);
        return Err(transitThere.error);
      }
      if transitHere.value.moveStatus == Done && transitThere.value.moveStatus == Done {
        escapeMoves := escapeMoves + [legalMoves[i]];
      }
      i := i + 1;
    }
    assert legalMoves[..i] == legalMoves;
    return Ok(escapeMoves);
  }

  /** An error raised at some point of the get_escape_moves loop is the loop's result. */
  lemma {:induction false} EscapeMovesErrorStops(p: Player, moves: seq<Move>, j: nat)
    requires j <= |moves| && EscapeMovesIn(p, moves[..j]).Err?
    ensures EscapeMovesIn(p, moves) == EscapeMovesIn(p, moves[..j])
    decreases |moves| - j
  {
    if j == |moves| {
      assert moves[..j] == moves;
    } else {
      assert moves[..j + 1][..j] == moves[..j];
      EscapeMovesErrorStops(p, moves, j + 1);
    }
  }

  /** The probe test in get_escape_moves is redundant: make_move completes only after the probe did. */
  lemma EscapesIffMakeMoveDone(p: Player, m: Move)
    ensures Escapes(p, m) <==> MakeMove(p, m).Ok? && MakeMove(p, m).value.moveStatus == Done
  {
  }

  /**
   * has_escape_moves and get_escape_moves agree: when both finish, there is an escape exactly
   * when the list of escape moves is not empty.
   */
  lemma {:induction false} EscapeAgreement(p: Player, moves: seq<Move>)
    requires HasEscapeIn(p, moves).Ok? && EscapeMovesIn(p, moves).Ok?
    ensures HasEscapeIn(p, moves).value <==> EscapeMovesIn(p, moves).value != []
  {
    var escapes := EscapeMovesIn(p, moves).value;
    if HasEscapeIn(p, moves).value {
      var m :| m in moves && MakeMove(p, m).Ok? && MakeMove(p, m).value.moveStatus == Done;
      EscapesIffMakeMoveDone(p, m);
      assert m in escapes;
    } else if escapes != [] {
      var m := escapes[0];
      assert m in escapes;
      EscapesIffMakeMoveDone(p, m);
      assert false;
    }
  }

  /** Player.is_in_check_mate: in check and no escape (the escape search runs only when in check). */
  function IsInCheckMate(p: Player): (r: Result<bool, Color>)
    ensures r.Ok? && r.value <==> IsInCheck(p) && HasEscapeIn(p, p.LegalMoves()) == Ok(false)
    ensures !IsInCheck(p) ==> r == Ok(false)
  {
    if !IsInCheck(p) then Ok(false)
    else
      var escape :- HasEscapeIn(p, p.LegalMoves());
      Ok(!escape)
  }

  /** Player.is_in_stale_mate: not in check and no escape (the search runs only when not in check). */
  function IsInStaleMate(p: Player): (r: Result<bool, Color>)
    ensures r.Ok? && r.value <==> !IsInCheck(p) && HasEscapeIn(p, p.LegalMoves()) == Ok(false)
    ensures IsInCheck(p) ==> r == Ok(false)
  {
    if IsInCheck(p) then Ok(false)
    else
      var escape :- HasEscapeIn(p, p.LegalMoves());
      Ok(!escape)
  }

  /**
   * Checkmate and stalemate exclude each other, and in either one no legal move of the player is
   * completed by make_move.
   */
  lemma MateMeansNoMove(p: Player)
    ensures !(IsInCheckMate(p) == Ok(true) && IsInStaleMate(p) == Ok(true))
    ensures IsInCheckMate(p) == Ok(true) || IsInStaleMate(p) == Ok(true) ==>
      forall m :: m in p.LegalMoves() ==> MakeMove(p, m).Ok? && MakeMove(p, m).value.moveStatus != Done
  {
  }
}
