/**
 * The first prototype's pawn (pawn.py, Pawn.valid_moves): forward steps only, no captures. As
 * written, a White pawn steps forward only when the square ahead on its own board is NOT empty;
 * a Black pawn steps without looking at the board at all.
 */
module PrototypePawn {
  import opened Wrappers
  import opened Coordinates
  import opened PrototypePiece

  /** A pawn move tuple ("P", board, start, end): the column is kept, only the rank changes. */
  function PawnMove(board: int, column: char, row: int, toRow: int): ProtoMove {
    ProtoMove("P", board, [column] + Str(row), [column] + Str(toRow))
  }

  /**
   * Pawn.valid_moves as written. The condition of the White branch reads the square ahead only
   * when the colour is "White" and the row is below 8; a missing key there is a KeyError, which
   * is the error. When that condition fails the Black branch is tried.
   */
  function PawnMovesAsWritten(myColor: string, board: int, row: int, column: char, rep: GameRep): (r: Result<seq<ProtoMove>, Square>)
    ensures r.Err? ==> myColor == "White" && row < 8 && r.error == Square(row + 1, board, column) && r.error !in rep
    ensures r.Ok? ==> |r.value| <= 2
    ensures r.Ok? ==> forall m :: m in r.value ==> m.tag == "P" && m.board == board && m.start == [column] + Str(row)
    ensures myColor != "White" && myColor != "Black" ==> r == Ok([])
  {
    var ahead := Square(row + 1, board, column);
    if myColor == "White" && row < 8 && ahead !in rep then Err(ahead)
    else if myColor == "White" && row < 8 && rep[ahead] != "" then
      Ok([PawnMove(board, column, row, row + 1)] +
         if board == 1 && row == 2 then [PawnMove(board, column, row, row + 2)] else [])
    else if myColor == "Black" && row > 1 then
      Ok([PawnMove(board, column, row, row - 1)] +
         if board == 1 && row == 7 then [PawnMove(board, column, row, row - 2)] else [])
    else Ok([])
  }

  /** Pawn.valid_moves, on the pawn's own fields; the column must be a file letter for the notation to be built. */
  method ValidMoves(pawn: Piece, myColor: string, rep: GameRep) returns (r: Result<seq<ProtoMove>, Square>)
    requires pawn.column.FileLetter?
    ensures r == PawnMovesAsWritten(myColor, pawn.board, pawn.row, pawn.column.c, rep)
  {
    var myMoves: seq<ProtoMove> := [];
    var column := pawn.column.c;
    var whiteStep := false;
    if myColor == "White" && pawn.row < 8 {
      var ahead := Square(pawn.row + 1, pawn.board, column);
      if ahead !in rep {
        return Err(ahead);
      }
      whiteStep := rep[ahead] != "";
    }
    if whiteStep {
      myMoves := [PawnMove(pawn.board, column, pawn.row, pawn.row + 1)];
      if pawn.board == 1 && pawn.row == 2 {
        myMoves := myMoves + [PawnMove(pawn.board, column, pawn.row, pawn.row + 2)];
      } else {
        assert myMoves == myMoves + [];
      }
    } else if myColor == "Black" && pawn.row > 1 {
      myMoves := [PawnMove(pawn.board, column, pawn.row, pawn.row - 1)];
      if pawn.board == 1 && pawn.row == 7 {
        myMoves := myMoves + [PawnMove(pawn.board, column, pawn.row, pawn.row - 2)];
      } else {
        assert myMoves == myMoves + [];
      }
    }
    return Ok(myMoves);
  }

  /**
   * The White forward step as written: a pawn on e2 of the first board whose square ahead is empty
   * gets no move at all, while one whose square ahead is taken steps (and double-steps) onto it.
   */
  lemma AsWrittenPawnNeedsOccupiedSquare()
    ensures PawnMovesAsWritten("White", 1, 2, 'e', map[Square(3, 1, 'e') := ""]) == Ok([])
    ensures PawnMovesAsWritten("White", 1, 2, 'e', map[Square(3, 1, 'e') := "p"]) ==
      Ok([ProtoMove("P", 1, "e2", "e3"), ProtoMove("P", 1, "e2", "e4")])
  {
    assert Str(2) == "2" && Str(3) == "3" && Str(4) == "4";
    assert PawnMove(1, 'e', 2, 3) == ProtoMove("P", 1, "e2", "e3");
    assert PawnMove(1, 'e', 2, 4) == ProtoMove("P", 1, "e2", "e4");
    var occupied := map[Square(3, 1, 'e') := "p"];
    assert Square(3, 1, 'e') in occupied && occupied[Square(3, 1, 'e')] != "";
    assert PawnMovesAsWritten("White", 1, 2, 'e', occupied) == Ok([PawnMove(1, 'e', 2, 3)] + [PawnMove(1, 'e', 2, 4)]);
    assert [PawnMove(1, 'e', 2, 3)] + [PawnMove(1, 'e', 2, 4)] == [ProtoMove("P", 1, "e2", "e3"), ProtoMove("P", 1, "e2", "e4")];
  }

  /** The evidently intended White step: forward when the square ahead on the pawn's board is empty. */
  function PawnMoves(myColor: string, board: int, row: int, column: char, rep: GameRep): (r: Result<seq<ProtoMove>, Square>)
    ensures r.Ok? ==> forall m :: m in r.value ==> m.tag == "P" && m.board == board && m.start == [column] + Str(row)
  {
    var ahead := Square(row + 1, board, column);
    if myColor == "White" && row < 8 && ahead !in rep then Err(ahead)
    else if myColor == "White" && row < 8 && rep[ahead] == "" then
      Ok([PawnMove(board, column, row, row + 1)] +
         if board == 1 && row == 2 then [PawnMove(board, column, row, row + 2)] else [])
    else if myColor == "Black" && row > 1 then
      Ok([PawnMove(board, column, row, row - 1)] +
         if board == 1 && row == 7 then [PawnMove(board, column, row, row - 2)] else [])
    else Ok([])
  }

  /**
   * With the corrected test a White pawn below the last rank steps forward exactly when the square
   * ahead on its own board is empty, and the as-written version does so exactly when it is not.
   */
  lemma CorrectedPawnStepsOntoEmptySquare(board: int, row: int, column: char, rep: GameRep)
    requires row < 8 && Square(row + 1, board, column) in rep
    ensures PawnMoves("White", board, row, column, rep).Ok?
    ensures PawnMove(board, column, row, row + 1) in PawnMoves("White", board, row, column, rep).value
      <==> rep[Square(row + 1, board, column)] == ""
    ensures PawnMove(board, column, row, row + 1) in PawnMovesAsWritten("White", board, row, column, rep).value
      <==> rep[Square(row + 1, board, column)] != ""
  {
    var step := PawnMove(board, column, row, row + 1);
    if rep[Square(row + 1, board, column)] == "" {
      assert step in [step];
    } else {
      assert step in [step];
    }
  }

  /**
   * A Black pawn above the first rank steps one rank down whatever the board holds, and two when
   * it stands on rank 7 of the first board; every pawn move keeps the pawn's board and column.
   */
  lemma BlackPawnIgnoresBoard(board: int, row: int, column: char, rep: GameRep)
    requires row > 1
    ensures PawnMovesAsWritten("Black", board, row, column, rep) ==
      Ok([PawnMove(board, column, row, row - 1)] +
         if board == 1 && row == 7 then [PawnMove(board, column, row, row - 2)] else [])
  {
  }
}
