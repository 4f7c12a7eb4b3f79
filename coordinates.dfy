/**
 * Squares of Alice Chess: a board ("1" or "2") and a tile index 0..63, where index 0 is a8,
 * index 7 is h8 and index 63 is h1 (aliceengine.py, classes Position, BoardIndex, BoardProperties).
 */
module Coordinates {
  import opened Wrappers

  const NumTiles := 64
  const NumTilesPerRow := 8
  const NumBoard := 2

  /** The two boards; the source spells them "1" and "2". */
  datatype BoardIndex = BoardOne | BoardTwo

  /** A tile on one of the two boards. The index may leave 0..63 while a move is being computed. */
  datatype Position = Position(board: BoardIndex, index: int)

  /** BoardIndex.next_board: every board other than "2" is followed by "2". */
  function NextBoard(value: BoardIndex): (r: BoardIndex)
    ensures r != value
  {
    if value == BoardTwo then BoardOne else BoardTwo
  }

  /** Position.flip_board: the same index on the other board. */
  function FlipBoard(p: Position): (r: Position)
    ensures r.index == p.index && r.board != p.board
  {
    Position(NextBoard(p.board), p.index)
  }

  lemma FlipBoardInvolution(p: Position)
    ensures FlipBoard(FlipBoard(p)) == p
  {
  }

  /** BoardProperties.valid_tile: the index is on the board (the board id is 1 or 2 by type). */
  predicate ValidTile(p: Position) {
    0 <= p.index < NumTiles
  }

  /** File (column) 0..7 and row-from-the-top 0..7 of a tile index. */
  function File(index: int): int { index % NumTilesPerRow }
  function Row(index: int): int { index / NumTilesPerRow }

  const ChessFiles: seq<char> := ['a', 'b', 'c', 'd', 'e', 'f', 'g', 'h']

  function DigitChar(d: int): char
    requires 0 <= d <= 9
  {
    (48 + d) as char
  }

  predicate IsDigit(c: char) { '0' <= c <= '9' }

  function DigitValue(c: char): int
    requires IsDigit(c)
  {
    c as int - 48
  }

  /** Index of a file letter in the chess_file table, when it is one. */
  function FileOfLetter(c: char): Option<int> {
    if 'a' <= c <= 'h' then Some(c as int - 'a' as int) else None
  }

  /**
   * Position.int_to_alg: file letter followed by the rank 8 - index / 8.
   * Its partner is AlgToInt: the round trip holds for every index. The docstring also admits
   * index 64, which would give "a0"; no caller passes it, so the model stops at 63.
   */
  function IntToAlg(num: int): (r: string)
    requires 0 <= num < NumTiles
    ensures |r| == 2 && AlgToInt(r) == Some(num)
  {
    var row := 8 - num / 8;
    [ChessFiles[num % 8], DigitChar(row)]
  }

  /**
   * Position.alg_to_int: file + (8 - rank) * 8. A notation shorter than two characters
   * (IndexError), an unknown file letter (KeyError) or a non-digit rank (ValueError) is None.
   * Only the first two characters are read.
   */
  function AlgToInt(notation: string): (r: Option<int>)
    ensures r.Some? <==> |notation| >= 2 && FileOfLetter(notation[0]).Some? && IsDigit(notation[1])
    ensures r.Some? ==> File(r.value) == FileOfLetter(notation[0]).value
  {
    if |notation| < 2 then None
    else match FileOfLetter(notation[0])
      case None => None
      case Some(f) =>
        if IsDigit(notation[1]) then Some(f + (8 - DigitValue(notation[1])) * 8) else None
  }

  /** The other round trip: a two-character notation on ranks 1..8 is reproduced from its index. */
  lemma AlgRoundTrip(notation: string)
    requires |notation| == 2 && 'a' <= notation[0] <= 'h' && '1' <= notation[1] <= '8'
    ensures AlgToInt(notation).Some?
    ensures 0 <= AlgToInt(notation).value < NumTiles
    ensures IntToAlg(AlgToInt(notation).value) == notation
  {
    var f := notation[0] as int - 'a' as int;
    var d := DigitValue(notation[1]);
    var i := f + (8 - d) * 8;
    assert i % 8 == f && i / 8 == 8 - d;
    assert ChessFiles[f] == notation[0];
  }

  /**
   * BoardProperties.init_column: a 64-entry list that is True exactly on the tiles of one file.
   */
  method InitColumn(column: int) returns (grid: seq<bool>)
    requires 0 <= column < NumTilesPerRow
    ensures |grid| == NumTiles
    ensures forall i :: 0 <= i < NumTiles ==> (grid[i] <==> File(i) == column)
  {
    grid := seq(NumTiles, _ => false);
    var i := column;
    while i < NumTiles
      invariant column <= i < NumTiles + NumTilesPerRow
      invariant (i - column) % NumTilesPerRow == 0
      invariant |grid| == NumTiles
      invariant forall j :: 0 <= j < NumTiles ==> (grid[j] <==> j < i && File(j) == column)
    {
      grid := grid[i := true];
      i := i + NumTilesPerRow;
    }
  }

  /**
   * BoardProperties.init_row: a 64-entry list that is True exactly on the eight tiles of one row
   * (row 0 holds indices 0..7, the source's FIRST_ROW).
   */
  method InitRow(row: int) returns (grid: seq<bool>)
    requires 0 <= row < NumTilesPerRow
    ensures |grid| == NumTiles
    ensures forall i :: 0 <= i < NumTiles ==> (grid[i] <==> Row(i) == row)
  {
    grid := seq(NumTiles, _ => false);
    var i := NumTilesPerRow * row;
    while i < NumTilesPerRow * (row + 1)
      invariant NumTilesPerRow * row <= i <= NumTilesPerRow * (row + 1)
      invariant |grid| == NumTiles
      invariant forall j :: 0 <= j < NumTiles ==> (grid[j] <==> NumTilesPerRow * row <= j < i)
    {
      grid := grid[i := true];
      i := i + 1;
    }
  }

  /** The masks the move generators consult (BoardProperties.__init__). */
  predicate FirstColumn(i: int) { File(i) == 0 }
  predicate SecondColumn(i: int) { File(i) == 1 }
  predicate SeventhColumn(i: int) { File(i) == 6 }
  predicate EighthColumn(i: int) { File(i) == 7 }
  predicate FirstRow(i: int) { Row(i) == 0 }
  predicate SecondRow(i: int) { Row(i) == 1 }
  predicate SeventhRow(i: int) { Row(i) == 6 }
  predicate EighthRow(i: int) { Row(i) == 7 }
}
