/**
 * The first prototype's piece (piece.py) and the values its move generators share: the game
 * representation `game_rep[row][board][column]`, in which "" marks an empty square, and the move
 * tuples (tag, board, start, end).
 */
module PrototypePiece {
  import opened Wrappers
  import opened Coordinates

  /**
   * A square of the game representation. queen.py spells the row and board keys as strings and
   * pawn.py as integers; both name the same square here.
   */
  datatype Square = Square(row: int, board: int, column: char)

  /** game_rep: the contents of each square, "" for an empty one. */
  type GameRep = map<Square, string>

  /** The representation holds every square of both boards: rows 1..8, boards 1 and 2, files a..h. */
  predicate Complete(rep: GameRep) {
    forall row, board, c :: 1 <= row <= 8 && 1 <= board <= 2 && c in ChessFiles ==> Square(row, board, c) in rep
  }

  /** A move tuple (piece tag, board_position, start_position, end_position). */
  datatype ProtoMove = ProtoMove(tag: string, board: int, start: string, end: string)

  /** str() of an integer, in decimal. */
  function Str(n: int): string
    decreases if n < 0 then 1 - n else n
  {
    if n < 0 then "-" + Str(-n)
    else if n < 10 then [DigitChar(n)]
    else Str(n / 10) + [DigitChar(n % 10)]
  }

  /**
   * The column a piece was given: player.py passes the file number, while make_move stores the
   * first character of the destination.
   */
  datatype Column = FileNumber(n: int) | FileLetter(c: char)

  /** The exceptions int(destination[1]) raises: a destination shorter than two characters, or a non-digit rank. */
  datatype MoveError = IndexError | ValueError

  /** `self.board == 1 and 2 or 1`: board 1 becomes 2, any other board becomes 1. */
  function OtherBoardNumber(board: int): (r: int)
    ensures r == 1 || r == 2
    ensures r != board || board !in {1, 2}
  {
    if board == 1 then 2 else 1
  }

  /** On the two real boards, switching twice returns to the first board. */
  lemma OtherBoardNumberInvolution(board: int)
    requires board == 1 || board == 2
    ensures OtherBoardNumber(OtherBoardNumber(board)) == board
  {
  }

  /** piece.py, class Piece: a type tag set by the subclass, the board, the row and the column. */
  class Piece {
    const tag: string
    var board: int
    var row: int
    var column: Column

    /** Piece.__init__, with the tag the subclass constructor sets. */
    constructor (tag: string, board: int, row: int, column: Column)
      ensures this.tag == tag && this.board == board && this.row == row && this.column == column
    {
      this.tag := tag;
      this.board := board;
      this.row := row;
      this.column := column;
    }

    /**
     * Piece.make_move: the piece goes to the other board, to the destination's rank and file.
     * The board is switched before the rank is read, so a destination that cannot be read still
     * switches the board and leaves row and column as they were.
     */
    method MakeMove(destination: string) returns (r: Result<(), MoveError>)
      modifies this
      ensures board == OtherBoardNumber(old(board))
      ensures |destination| < 2 ==> r == Err(IndexError)
      ensures |destination| >= 2 && !IsDigit(destination[1]) ==> r == Err(ValueError)
      ensures r.Ok? <==> |destination| >= 2 && IsDigit(destination[1])
      ensures r.Ok? ==> row == DigitValue(destination[1]) && column == FileLetter(destination[0])
      ensures r.Err? ==> row == old(row) && column == old(column)
    {
      board := OtherBoardNumber(board);
      if |destination| < 2 {
        return Err(IndexError);
      }
      if !IsDigit(destination[1]) {
        return Err(ValueError);
      }
      row := DigitValue(destination[1]);
      column := FileLetter(destination[0]);
      r := Ok(());
    }
  }

  /**
   * Two make_move calls to the same readable destination put a piece on one of the two boards
   * back on its board, standing on the destination.
   */
  method MakeMoveTwice(p: Piece, destination: string)
    requires p.board == 1 || p.board == 2
    requires |destination| >= 2 && IsDigit(destination[1])
    modifies p
    ensures p.board == old(p.board)
    ensures p.row == DigitValue(destination[1]) && p.column == FileLetter(destination[0])
  {
    var first := p.MakeMove(destination);
    var second := p.MakeMove(destination);
    OtherBoardNumberInvolution(old(p.board));
  }
}
