/**
 * The first prototype's queen (queen.py, Queen.valid_moves): eight rays on the queen's own board,
 * each stopping before the first occupied square, kept only where the square of the same name on
 * the other board is empty (the destination board of an Alice move). Captures are not generated.
 */
module PrototypeQueen {
  import opened Coordinates
  import opened PrototypePiece

  /** The eight rays, in the order valid_moves scans them. */
  datatype Direction = Up | Down | Right | Left | UpRight | UpLeft | DownRight | DownLeft

  /** Rank step of a direction: up is towards rank 8. */
  function DRow(d: Direction): int {
    match d
    case Up | UpRight | UpLeft => 1
    case Down | DownRight | DownLeft => -1
    case Right | Left => 0
  }

  /** File step of a direction: right is towards file h. */
  function DFile(d: Direction): int {
    match d
    case Right | UpRight | DownRight => 1
    case Left | UpLeft | DownLeft => -1
    case Up | Down => 0
  }

  /** x moved i steps in the sense of delta (whose magnitude is at most 1). */
  function Shift(x: int, i: int, delta: int): int {
    if delta > 0 then x + i else if delta < 0 then x - i else x
  }

  /** Where the queen stands: board, rank (1..8), file letter and its index in the file list. */
  datatype Origin = Origin(board: int, row: int, column: char, file: int)

  /** The rank and file index i steps away along d. */
  function RowAt(o: Origin, d: Direction, i: int): int { Shift(o.row, i, DRow(d)) }
  function FileAt(o: Origin, d: Direction, i: int): int { Shift(o.file, i, DFile(d)) }

  /** The square i steps away lies on the board. */
  predicate Reaches(o: Origin, d: Direction, i: int) {
    1 <= RowAt(o, d, i) <= 8 && 0 <= FileAt(o, d, i) < 8
  }

  /** The move tuple for the square i steps away: ("Q", board, start, end). */
  function QueenAt(o: Origin, d: Direction, i: int): ProtoMove
    requires Reaches(o, d, i)
  {
    ProtoMove("Q", o.board, [o.column] + Str(o.row), [ChessFiles[FileAt(o, d, i)]] + Str(RowAt(o, d, i)))
  }

  /** The square i steps away holds a piece on the queen's own board. */
  predicate Blocked(o: Origin, d: Direction, rep: GameRep, i: int)
    requires Complete(rep) && (o.board == 1 || o.board == 2) && Reaches(o, d, i)
  {
    rep[Square(RowAt(o, d, i), o.board, ChessFiles[FileAt(o, d, i)])] != ""
  }

  /** Every on-board square from lo to k steps away along d is empty on the queen's board. */
  predicate ClearBetween(o: Origin, d: Direction, rep: GameRep, lo: int, k: int)
    requires Complete(rep) && (o.board == 1 || o.board == 2)
  {
    forall j :: lo <= j <= k && Reaches(o, d, j) ==> !Blocked(o, d, rep, j)
  }

  /** The square of the same name as i steps away is empty on the other board. */
  predicate LandsEmpty(o: Origin, d: Direction, rep: GameRep, i: int)
    requires Complete(rep) && Reaches(o, d, i)
  {
    rep[Square(RowAt(o, d, i), OtherBoardNumber(o.board), ChessFiles[FileAt(o, d, i)])] == ""
  }

  /** A move whose end names a square of the board ("a1" .. "h8"), so the filter can look it up. */
  predicate Readable(m: ProtoMove) {
    |m.end| == 2 && m.end[0] in ChessFiles && IsDigit(m.end[1]) && 1 <= DigitValue(m.end[1]) <= 8
  }

  lemma QueenAtReadable(o: Origin, d: Direction, i: int)
    requires Reaches(o, d, i)
    ensures Readable(QueenAt(o, d, i))
    ensures QueenAt(o, d, i).end[0] == ChessFiles[FileAt(o, d, i)]
    ensures DigitValue(QueenAt(o, d, i).end[1]) == RowAt(o, d, i)
  {
    assert Str(RowAt(o, d, i)) == [DigitChar(RowAt(o, d, i))];
  }

  /**
   * One ray of valid_moves from step i on (the loop runs i over 1..7): a square off the board is
   * skipped, the first occupied square ends the ray, an empty one adds a move.
   */
  function Ray(o: Origin, d: Direction, rep: GameRep, i: int): (r: seq<ProtoMove>)
    requires Complete(rep) && (o.board == 1 || o.board == 2) && 1 <= i <= 8
    ensures |r| <= 8 - i
    decreases 8 - i
  {
    if i == 8 then []
    else if !Reaches(o, d, i) then Ray(o, d, rep, i + 1)
    else if Blocked(o, d, rep, i) then []
    else [QueenAt(o, d, i)] + Ray(o, d, rep, i + 1)
  }

  /** Every end square of a list of moves can be looked up. */
  predicate AllReadable(moves: seq<ProtoMove>) {
    forall m :: m in moves ==> Readable(m)
  }

  /** The moves of a ray are queen tuples on the queen's board whose end squares can be looked up. */
  lemma {:induction false} RayReadable(o: Origin, d: Direction, rep: GameRep, i: int)
    requires Complete(rep) && (o.board == 1 || o.board == 2) && 1 <= i <= 8
    ensures AllReadable(Ray(o, d, rep, i))
    ensures forall m :: m in Ray(o, d, rep, i) ==> m.tag == "Q" && m.board == o.board
    decreases 8 - i
  {
    if i < 8 {
      RayReadable(o, d, rep, i + 1);
      if Reaches(o, d, i) {
        QueenAtReadable(o, d, i);
      }
    }
  }

  /** A clear path from step i + 1 extends back to step i when square i is off the board or empty. */
  lemma ClearExtend(o: Origin, d: Direction, rep: GameRep, i: int, k: int)
    requires Complete(rep) && (o.board == 1 || o.board == 2)
    requires ClearBetween(o, d, rep, i + 1, k) && (Reaches(o, d, i) ==> !Blocked(o, d, rep, i))
    ensures ClearBetween(o, d, rep, i, k)
  {
  }

  /** Every move of a ray lands k steps along it, on the board, with every square up to it empty. */
  lemma {:induction false} RaySound(o: Origin, d: Direction, rep: GameRep, i: int, m: ProtoMove)
    requires Complete(rep) && (o.board == 1 || o.board == 2) && 1 <= i <= 8
    requires m in Ray(o, d, rep, i)
    ensures exists k :: i <= k < 8 && Reaches(o, d, k) && m == QueenAt(o, d, k) && ClearBetween(o, d, rep, i, k)
    decreases 8 - i
  {
    assert i < 8;
    if Reaches(o, d, i) && m == QueenAt(o, d, i) {
      assert !Blocked(o, d, rep, i);
      ClearExtend(o, d, rep, i, i);
    } else {
      assert m in Ray(o, d, rep, i + 1);
      RaySound(o, d, rep, i + 1, m);
      var k :| i + 1 <= k < 8 && Reaches(o, d, k) && m == QueenAt(o, d, k) && ClearBetween(o, d, rep, i + 1, k);
      ClearExtend(o, d, rep, i, k);
    }
  }

  /** Conversely, every on-board square along the ray with a clear path up to it is in the ray. */
  lemma {:induction false} RayComplete(o: Origin, d: Direction, rep: GameRep, i: int, k: int)
    requires Complete(rep) && (o.board == 1 || o.board == 2) && 1 <= i <= k < 8
    requires Reaches(o, d, k) && ClearBetween(o, d, rep, i, k)
    ensures QueenAt(o, d, k) in Ray(o, d, rep, i)
    decreases k - i
  {
    if i < k {
      assert ClearBetween(o, d, rep, i + 1, k);
      RayComplete(o, d, rep, i + 1, k);
    }
  }

  /**
   * One iteration of a ray loop keeps "the moves so far followed by the rest of the ray is the
   * whole ray": a square off the board is skipped, an occupied one ends the ray, an empty one adds
   * its move.
   */
  lemma ScanAdvance(o: Origin, d: Direction, rep: GameRep, i: int, acc: seq<ProtoMove>, moves: seq<ProtoMove>)
    requires Complete(rep) && (o.board == 1 || o.board == 2) && 1 <= i < 8
    requires moves + Ray(o, d, rep, i) == acc + Ray(o, d, rep, 1)
    ensures !Reaches(o, d, i) ==> moves + Ray(o, d, rep, i + 1) == acc + Ray(o, d, rep, 1)
    ensures Reaches(o, d, i) && Blocked(o, d, rep, i) ==> moves == acc + Ray(o, d, rep, 1)
    ensures Reaches(o, d, i) && !Blocked(o, d, rep, i) ==>
      (moves + [QueenAt(o, d, i)]) + Ray(o, d, rep, i + 1) == acc + Ray(o, d, rep, 1)
  {
    if Reaches(o, d, i) && Blocked(o, d, rep, i) {
      assert moves + [] == moves;
    } else if Reaches(o, d, i) {
      var m, rest := QueenAt(o, d, i), Ray(o, d, rep, i + 1);
      assert moves + ([m] + rest) == (moves + [m]) + rest;
    }
  }

  /**
   * One ray loop of valid_moves, appending to the list it is given (the down, right and left loops
   * append to the list of the up loop).
   */
  method ScanRay(o: Origin, d: Direction, rep: GameRep, acc: seq<ProtoMove>) returns (moves: seq<ProtoMove>)
    requires Complete(rep) && (o.board == 1 || o.board == 2)
    ensures moves == acc + Ray(o, d, rep, 1)
  {
    moves := acc;
    var i := 1;
    while i < 8
      invariant 1 <= i <= 8
      invariant moves + Ray(o, d, rep, i) == acc + Ray(o, d, rep, 1)
      decreases 8 - i
    {
      ScanAdvance(o, d, rep, i, acc, moves);
      if Reaches(o, d, i) {
        if Blocked(o, d, rep, i) {
          break;
        }
        moves := moves + [QueenAt(o, d, i)];
      }
      i := i + 1;
    }
  }

  /** The eight rays concatenated as valid_moves does (up, down, right, left, then the diagonals). */
  function AllRays(o: Origin, rep: GameRep): (r: seq<ProtoMove>)
    requires Complete(rep) && (o.board == 1 || o.board == 2)
    ensures AllReadable(r)
  {
    RayReadable(o, Up, rep, 1);
    RayReadable(o, Down, rep, 1);
    RayReadable(o, Right, rep, 1);
    RayReadable(o, Left, rep, 1);
    RayReadable(o, UpRight, rep, 1);
    RayReadable(o, UpLeft, rep, 1);
    RayReadable(o, DownRight, rep, 1);
    RayReadable(o, DownLeft, rep, 1);
    Ray(o, Up, rep, 1) + Ray(o, Down, rep, 1) + Ray(o, Right, rep, 1) + Ray(o, Left, rep, 1) +
    Ray(o, UpRight, rep, 1) + Ray(o, UpLeft, rep, 1) + Ray(o, DownRight, rep, 1) + Ray(o, DownLeft, rep, 1)
  }

  /** The end square of a move is empty on the given board. */
  predicate EmptyOn(m: ProtoMove, board: int, rep: GameRep)
    requires Complete(rep) && (board == 1 || board == 2) && Readable(m)
  {
    rep[Square(DigitValue(m.end[1]), board, m.end[0])] == ""
  }

  /** The final loop of valid_moves: the moves, in order, whose end square is empty on destBoard. */
  function Keep(moves: seq<ProtoMove>, destBoard: int, rep: GameRep): (r: seq<ProtoMove>)
    requires Complete(rep) && (destBoard == 1 || destBoard == 2)
    requires AllReadable(moves)
    ensures |r| <= |moves|
  {
    if |moves| == 0 then []
    else
      var last := moves[|moves| - 1];
      Keep(moves[..|moves| - 1], destBoard, rep) + (if EmptyOn(last, destBoard, rep) then [last] else [])
  }

  /** The filter keeps exactly the listed moves whose end square is empty on the destination board. */
  lemma {:induction false} KeepMembership(moves: seq<ProtoMove>, destBoard: int, rep: GameRep, m: ProtoMove)
    requires Complete(rep) && (destBoard == 1 || destBoard == 2)
    requires AllReadable(moves)
    ensures m in Keep(moves, destBoard, rep) <==> m in moves && EmptyOn(m, destBoard, rep)
  {
    if |moves| > 0 {
      var front := moves[..|moves| - 1];
      assert moves == front + [moves[|moves| - 1]];
      KeepMembership(front, destBoard, rep, m);
    }
  }

  /** The filter over one more move of a list extends the filter over the shorter prefix. */
  lemma KeepSnoc(moves: seq<ProtoMove>, destBoard: int, rep: GameRep, k: int)
    requires Complete(rep) && (destBoard == 1 || destBoard == 2)
    requires AllReadable(moves)
    requires 0 <= k < |moves|
    ensures Keep(moves[..k + 1], destBoard, rep) ==
      Keep(moves[..k], destBoard, rep) + (if EmptyOn(moves[k], destBoard, rep) then [moves[k]] else [])
  {
    assert moves[..k + 1][..k] == moves[..k];
  }

  /** The last loop of valid_moves: keep each move whose end square is empty on the destination board. */
  method FilterOtherBoard(myMoves: seq<ProtoMove>, destBoard: int, rep: GameRep) returns (finals: seq<ProtoMove>)
    requires Complete(rep) && (destBoard == 1 || destBoard == 2)
    requires AllReadable(myMoves)
    ensures finals == Keep(myMoves, destBoard, rep)
  {
    finals := [];
    var k := 0;
    while k < |myMoves|
      invariant 0 <= k <= |myMoves|
      invariant finals == Keep(myMoves[..k], destBoard, rep)
    {
      assert myMoves[k] in myMoves;
      var destination := myMoves[k].end;
      KeepSnoc(myMoves, destBoard, rep, k);
      if rep[Square(DigitValue(destination[1]), destBoard, destination[0])] == "" {
        finals := finals + [myMoves[k]];
      }
      k := k + 1;
    }
    assert myMoves[..k] == myMoves;
  }

  /** Queen.valid_moves as a value: all ray moves that land on an empty square of the other board. */
  function QueenMoves(o: Origin, rep: GameRep): seq<ProtoMove>
    requires Complete(rep) && (o.board == 1 || o.board == 2)
  {
    Keep(AllRays(o, rep), OtherBoardNumber(o.board), rep)
  }

  /** Where a queen object stands, its file letter turned into an index as columns_list.index does. */
  function OriginOf(queen: Piece): Origin
    reads queen
    requires queen.column.FileLetter? && FileOfLetter(queen.column.c).Some?
  {
    Origin(queen.board, queen.row, queen.column.c, FileOfLetter(queen.column.c).value)
  }

  /**
   * Queen.valid_moves. The colour is not consulted. The queen must stand on a square of one of
   * the two boards under a file letter, and the representation must hold every square: otherwise
   * the source raises on a missing key or an unknown letter.
   */
  method ValidMoves(queen: Piece, myColor: string, rep: GameRep) returns (finals: seq<ProtoMove>)
    requires Complete(rep) && (queen.board == 1 || queen.board == 2) && 1 <= queen.row <= 8
    requires queen.column.FileLetter? && FileOfLetter(queen.column.c).Some?
    ensures finals == QueenMoves(OriginOf(queen), rep)
  {
    var o := OriginOf(queen);
    var u := ScanRay(o, Up, rep, []);
    assert u == Ray(o, Up, rep, 1);
    u := ScanRay(o, Down, rep, u);
    u := ScanRay(o, Right, rep, u);
    u := ScanRay(o, Left, rep, u);
    var d: seq<ProtoMove>, r: seq<ProtoMove>, l: seq<ProtoMove> := [], [], [];
    var ur := ScanRay(o, UpRight, rep, []);
    var ul := ScanRay(o, UpLeft, rep, []);
    var dr := ScanRay(o, DownRight, rep, []);
    var dl := ScanRay(o, DownLeft, rep, []);
    assert u == Ray(o, Up, rep, 1) + Ray(o, Down, rep, 1) + Ray(o, Right, rep, 1) + Ray(o, Left, rep, 1);
    assert ur == Ray(o, UpRight, rep, 1);
    assert ul == Ray(o, UpLeft, rep, 1);
    assert dr == Ray(o, DownRight, rep, 1);
    assert dl == Ray(o, DownLeft, rep, 1);
    var myMoves := u + d + r + l + ur + ul + dr + dl;
    assert u + d + r + l == u;
    assert myMoves == AllRays(o, rep);

    finals := FilterOtherBoard(myMoves, OtherBoardNumber(queen.board), rep);
  }

  /**
   * Every move valid_moves returns is a queen move on the queen's board to a square k (1..7) steps
   * along one of the eight directions, with every square up to and including it empty on the
   * queen's board, and the square of the same name empty on the other board.
   */
  lemma QueenMoveSound(o: Origin, rep: GameRep, m: ProtoMove)
    requires Complete(rep) && (o.board == 1 || o.board == 2)
    requires m in QueenMoves(o, rep)
    ensures exists d, k :: 1 <= k < 8 && Reaches(o, d, k) && m == QueenAt(o, d, k) && ClearBetween(o, d, rep, 1, k) && LandsEmpty(o, d, rep, k)
  {
    KeepMembership(AllRays(o, rep), OtherBoardNumber(o.board), rep, m);
    var d: Direction :|  m in Ray(o, d, rep, 1);
    RaySound(o, d, rep, 1, m);
    var k :| 1 <= k < 8 && Reaches(o, d, k) && m == QueenAt(o, d, k) && ClearBetween(o, d, rep, 1, k);
    QueenAtReadable(o, d, k);
    assert LandsEmpty(o, d, rep, k);
  }

  /** Conversely, every such square is reached by a move valid_moves returns. */
  lemma QueenMoveComplete(o: Origin, rep: GameRep, d: Direction, k: int)
    requires Complete(rep) && (o.board == 1 || o.board == 2) && 1 <= k < 8
    requires Reaches(o, d, k) && ClearBetween(o, d, rep, 1, k) && LandsEmpty(o, d, rep, k)
    ensures QueenAt(o, d, k) in QueenMoves(o, rep)
  {
    RayComplete(o, d, rep, 1, k);
    assert QueenAt(o, d, k) in AllRays(o, rep);
    QueenAtReadable(o, d, k);
    KeepMembership(AllRays(o, rep), OtherBoardNumber(o.board), rep, QueenAt(o, d, k));
  }

  /** The queen stands on a real square: one of the two boards, rank 1..8, a file letter and its index. */
  predicate ValidOrigin(o: Origin) {
    (o.board == 1 || o.board == 2) && 1 <= o.row <= 8 && 0 <= o.file < 8 && ChessFiles[o.file] == o.column
  }

  /** columns_list.index(letter) names the letter's own entry. */
  lemma FileLetterIndex(c: char)
    requires FileOfLetter(c).Some?
    ensures 0 <= FileOfLetter(c).value < 8 && ChessFiles[FileOfLetter(c).value] == c
  {
  }

  /** A queen object that valid_moves accepts stands on a real square. */
  lemma OriginOfValid(queen: Piece)
    requires (queen.board == 1 || queen.board == 2) && 1 <= queen.row <= 8
    requires queen.column.FileLetter? && FileOfLetter(queen.column.c).Some?
    ensures ValidOrigin(OriginOf(queen))
  {
    FileLetterIndex(queen.column.c);
  }

  /** A step of one or more squares along any direction never names the queen's own square. */
  lemma QueenNeverStays(o: Origin, d: Direction, k: int)
    requires ValidOrigin(o) && 1 <= k && Reaches(o, d, k)
    ensures QueenAt(o, d, k).end != QueenAt(o, d, k).start
  {
    QueenAtReadable(o, d, k);
    assert Str(o.row) == [DigitChar(o.row)];
  }

  /**
   * Every move valid_moves returns for a queen on a real square is ("Q", its board, its own square,
   * another square of the board): destinations stay within ranks 1..8 and files a..h and never
   * repeat the start.
   */
  lemma QueenMovesShape(o: Origin, rep: GameRep, m: ProtoMove)
    requires Complete(rep) && ValidOrigin(o)
    requires m in QueenMoves(o, rep)
    ensures m.tag == "Q" && m.board == o.board && m.start == [o.column] + Str(o.row)
    ensures Readable(m) && m.end != m.start
  {
    QueenMoveSound(o, rep, m);
    var d, k :| 1 <= k < 8 && Reaches(o, d, k) && m == QueenAt(o, d, k) && ClearBetween(o, d, rep, 1, k) && LandsEmpty(o, d, rep, k);
    QueenAtReadable(o, d, k);
    QueenNeverStays(o, d, k);
  }
}
