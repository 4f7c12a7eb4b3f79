/**
 * The first prototype's player (player.py): a colour, an arsenal of piece objects and a list of
 * captured pieces ("martyrs"). The arsenal holds references, so removing a piece removes that very
 * object, as Python's list.remove does for objects without an equality of their own.
 */
module PrototypePlayer {
  import opened Wrappers
  import opened PrototypePiece

  /** Where initialize_player puts one piece: the type tag, board, row and column number it passes. */
  datatype Placement = Placement(tag: string, board: int, row: int, column: int)

  /** The row of the pawns: 1 for White, 6 for any other colour. */
  function PawnRow(color: string): int { if color == "White" then 1 else 6 }

  /** The row of the other pieces: 0 for White, 7 for any other colour. */
  function BackRow(color: string): int { if color == "White" then 0 else 7 }

  /** The first n pawns of the pawn loop, in the columns 0 .. n - 1. */
  function Pawns(row: int, n: nat): (plan: seq<Placement>)
    ensures |plan| == n
    ensures forall i :: 0 <= i < n ==> plan[i] == Placement("P", 1, row, i)
  {
    if n == 0 then [] else Pawns(row, n - 1) + [Placement("P", 1, row, n - 1)]
  }

  /** The pieces after the pawns: rooks, knights, bishops, the queen and the king, in that order. */
  function Officers(row: int): seq<Placement> {
    [Placement("Rook", 1, row, 0), Placement("Rook", 1, row, 7),
     Placement("Knight", 1, row, 1), Placement("Knight", 1, row, 6),
     Placement("Bishop", 1, row, 2), Placement("Bishop", 1, row, 5),
     Placement("Q", 1, row, 3), Placement("K", 1, row, 4)]
  }

  /** The arsenal initialize_player builds, in order. */
  function Setup(color: string): seq<Placement> {
    Pawns(PawnRow(color), 8) + Officers(BackRow(color))
  }

  /** The arsenal of initialize_player, one add_piece call after the pawns at a time. */
  lemma SetupSteps(color: string)
    ensures Setup(color) == Pawns(PawnRow(color), 8)
      + [Placement("Rook", 1, BackRow(color), 0)] + [Placement("Rook", 1, BackRow(color), 7)]
      + [Placement("Knight", 1, BackRow(color), 1)] + [Placement("Knight", 1, BackRow(color), 6)]
      + [Placement("Bishop", 1, BackRow(color), 2)] + [Placement("Bishop", 1, BackRow(color), 5)]
      + [Placement("Q", 1, BackRow(color), 3)] + [Placement("K", 1, BackRow(color), 4)]
  {
  }

  /** Number of placements carrying a tag. */
  function Count(plan: seq<Placement>, tag: string): (n: nat)
    ensures n <= |plan|
  {
    if |plan| == 0 then 0
    else Count(plan[..|plan| - 1], tag) + (if plan[|plan| - 1].tag == tag then 1 else 0)
  }

  lemma {:induction false} CountAppend(a: seq<Placement>, b: seq<Placement>, tag: string)
    ensures Count(a + b, tag) == Count(a, tag) + Count(b, tag)
    decreases |b|
  {
    if |b| > 0 {
      var front := b[..|b| - 1];
      assert (a + b)[..|a + b| - 1] == a + front;
      assert (a + b)[|a + b| - 1] == b[|b| - 1];
      CountAppend(a, front, tag);
    } else {
      assert a + b == a;
    }
  }

  lemma {:induction false} PawnsCount(row: int, n: nat, tag: string)
    ensures Count(Pawns(row, n), tag) == if tag == "P" then n else 0
  {
    if n > 0 {
      assert Pawns(row, n)[..n - 1] == Pawns(row, n - 1);
      PawnsCount(row, n - 1, tag);
    }
  }

  /** One more entry of a prefix adds its tag to the count. */
  lemma CountSnoc(plan: seq<Placement>, k: int, tag: string)
    requires 0 <= k < |plan|
    ensures Count(plan[..k + 1], tag) == Count(plan[..k], tag) + (if plan[k].tag == tag then 1 else 0)
  {
    assert plan[..k + 1][..k] == plan[..k];
  }

  lemma OfficersCount(row: int, tag: string)
    ensures Count(Officers(row), tag) ==
      if tag in {"Rook", "Knight", "Bishop"} then 2 else if tag in {"Q", "K"} then 1 else 0
  {
    var o := Officers(row);
    assert o[..0] == [];
    CountSnoc(o, 0, tag);
    CountSnoc(o, 1, tag);
    CountSnoc(o, 2, tag);
    CountSnoc(o, 3, tag);
    CountSnoc(o, 4, tag);
    CountSnoc(o, 5, tag);
    CountSnoc(o, 6, tag);
    CountSnoc(o, 7, tag);
    assert o[..8] == o;
  }

  /**
   * The arsenal holds 16 pieces: 8 pawns, 2 rooks, 2 knights, 2 bishops, a queen and a king, all
   * on the first board.
   */
  lemma SetupComposition(color: string, tag: string)
    ensures |Setup(color)| == 16
    ensures forall i :: 0 <= i < 16 ==> Setup(color)[i].board == 1
    ensures Count(Setup(color), tag) ==
      if tag == "P" then 8
      else if tag in {"Rook", "Knight", "Bishop"} then 2
      else if tag in {"Q", "K"} then 1
      else 0
  {
    CountAppend(Pawns(PawnRow(color), 8), Officers(BackRow(color)), tag);
    PawnsCount(PawnRow(color), 8, tag);
    OfficersCount(BackRow(color), tag);
  }

  /** The rooks, knights, bishops, queen and king stand in eight different columns of one row. */
  lemma OfficersColumns(row: int)
    ensures forall i :: 0 <= i < 8 ==> Officers(row)[i].row == row && 0 <= Officers(row)[i].column < 8
    ensures forall i, j :: 0 <= i < j < 8 ==> Officers(row)[i].column != Officers(row)[j].column
  {
    var columns := [0, 7, 1, 6, 2, 5, 3, 4];
    assert forall i :: 0 <= i < 8 ==> Officers(row)[i].column == columns[i];
  }

  /**
   * White's pieces stand on rows 0 and 1 and any other colour's on rows 7 and 6, the pawns in front,
   * each in a column 0 .. 7, and no two of them on the same square.
   */
  lemma SetupSquares(color: string)
    ensures forall i :: 0 <= i < 16 ==> 0 <= Setup(color)[i].column < 8
    ensures forall i :: 0 <= i < 16 ==>
      Setup(color)[i].row == if i < 8 then PawnRow(color) else BackRow(color)
    ensures color == "White" ==> forall i :: 0 <= i < 16 ==> Setup(color)[i].row in {0, 1}
    ensures color != "White" ==> forall i :: 0 <= i < 16 ==> Setup(color)[i].row in {6, 7}
    ensures forall i, j :: 0 <= i < j < 16 ==>
      (Setup(color)[i].row, Setup(color)[i].column) != (Setup(color)[j].row, Setup(color)[j].column)
  {
    var plan := Setup(color);
    var o := Officers(BackRow(color));
    assert forall i :: 8 <= i < 16 ==> plan[i] == o[i - 8];
    OfficersColumns(BackRow(color));
    forall i, j | 0 <= i < j < 16
      ensures (plan[i].row, plan[i].column) != (plan[j].row, plan[j].column)
    {
      if 8 <= i {
        assert o[i - 8].column != o[j - 8].column;
      }
    }
  }

  /** A piece object stands where a placement puts it. */
  predicate PlacedAs(p: Piece, pl: Placement)
    reads p
  {
    p.tag == pl.tag && p.board == pl.board && p.row == pl.row && p.column == FileNumber(pl.column)
  }

  /** The piece objects stand, one by one, where the plan puts them. */
  predicate Placed(pieces: seq<Piece>, plan: seq<Placement>)
    reads pieces
  {
    |pieces| == |plan| && forall i :: 0 <= i < |plan| ==> PlacedAs(pieces[i], plan[i])
  }

  /** No piece object occurs twice. */
  predicate Distinct(pieces: seq<Piece>) {
    forall i, j :: 0 <= i < j < |pieces| ==> pieces[i] != pieces[j]
  }

  /** The first occurrence of x taken out of s; s itself when x does not occur. */
  function RemoveFirst<T(==)>(s: seq<T>, x: T): seq<T> {
    if |s| == 0 then []
    else if s[0] == x then s[1..]
    else [s[0]] + RemoveFirst(s[1..], x)
  }

  /**
   * list.remove on a list holding x: one element fewer, one occurrence of x fewer, everything else
   * kept, and the elements before the first x in their places.
   */
  lemma {:induction false} RemoveFirstSpec<T>(s: seq<T>, x: T)
    requires x in s
    ensures |RemoveFirst(s, x)| == |s| - 1
    ensures multiset(RemoveFirst(s, x)) == multiset(s) - multiset{x}
    ensures forall i :: 0 <= i < |s| && x !in s[..i + 1] ==> RemoveFirst(s, x)[i] == s[i]
  {
    if s[0] != x {
      assert s == [s[0]] + s[1..];
      assert x in s[1..];
      RemoveFirstSpec(s[1..], x);
      forall i | 0 <= i < |s| && x !in s[..i + 1]
        ensures RemoveFirst(s, x)[i] == s[i]
      {
        if i > 0 {
          assert s[1..][..i] == s[..i + 1][1..];
        }
      }
    } else {
      assert s == [s[0]] + s[1..];
    }
  }

  /** player.py, class Player. */
  class Player {
    const color: string
    var arsenal: seq<Piece>
    var martyrs: seq<Piece>

    /** Player.__init__: empty lists, then initialize_player fills the arsenal. */
    constructor (color: string)
      ensures this.color == color && martyrs == []
      ensures Placed(arsenal, Setup(color)) && Distinct(arsenal)
    {
      this.color := color;
      arsenal := [];
      martyrs := [];
      new;
      InitializePlayer();
    }

    /**
     * Player.initialize_player on an empty arsenal: eight pawns in a loop, then the two rooks, two
     * knights, two bishops, the queen and the king, each a new object on the first board.
     */
    method InitializePlayer()
      requires arsenal == []
      modifies this
      ensures martyrs == old(martyrs)
      ensures Placed(arsenal, Setup(color)) && Distinct(arsenal)
    {
      var pawnRow := if color == "White" then 1 else 6;
      var pawn := 0;
      while pawn < 8
        invariant 0 <= pawn <= 8 && martyrs == old(martyrs)
        invariant Placed(arsenal, Pawns(pawnRow, pawn)) && Distinct(arsenal)
      {
        var p := AddNew("P", pawnRow, pawn, Pawns(pawnRow, pawn));
        pawn := pawn + 1;
      }
      var row := if color == "White" then 0 else 7;
      ghost var plan := Pawns(pawnRow, 8);
      var p := AddNew("Rook", row, 0, plan);
      plan := plan + [Placement("Rook", 1, row, 0)];
      p := AddNew("Rook", row, 7, plan);
      plan := plan + [Placement("Rook", 1, row, 7)];
      p := AddNew("Knight", row, 1, plan);
      plan := plan + [Placement("Knight", 1, row, 1)];
      p := AddNew("Knight", row, 6, plan);
      plan := plan + [Placement("Knight", 1, row, 6)];
      p := AddNew("Bishop", row, 2, plan);
      plan := plan + [Placement("Bishop", 1, row, 2)];
      p := AddNew("Bishop", row, 5, plan);
      plan := plan + [Placement("Bishop", 1, row, 5)];
      p := AddNew("Q", row, 3, plan);
      plan := plan + [Placement("Q", 1, row, 3)];
      p := AddNew("K", row, 4, plan);
      plan := plan + [Placement("K", 1, row, 4)];
      SetupSteps(color);
    }

    /**
     * add_piece of a piece object built on the spot (Pawn(1, row, column) and the like): the new
     * object is appended, so the arsenal follows the plan one entry further and holds no object twice.
     */
    method AddNew(tag: string, row: int, column: int, ghost plan: seq<Placement>) returns (p: Piece)
      requires Placed(arsenal, plan) && Distinct(arsenal)
      modifies this
      ensures fresh(p) && arsenal == old(arsenal) + [p] && martyrs == old(martyrs)
      ensures Placed(arsenal, plan + [Placement(tag, 1, row, column)]) && Distinct(arsenal)
    {
      p := new Piece(tag, 1, row, FileNumber(column));
      AddPiece(p);
    }

    /** Player.add_piece: the piece is appended; the pieces already there keep their places. */
    method AddPiece(piece: Piece)
      modifies this
      ensures arsenal == old(arsenal) + [piece] && martyrs == old(martyrs)
    {
      arsenal := arsenal + [piece];
    }

    /**
     * Player.remove_peice: list.remove takes out the first occurrence of that very object, and
     * raises ValueError when the arsenal does not hold it.
     */
    method RemovePiece(piece: Piece) returns (r: Result<(), string>)
      modifies this
      ensures r.Ok? <==> piece in old(arsenal)
      ensures r.Ok? ==> arsenal == RemoveFirst(old(arsenal), piece)
      ensures r.Err? ==> arsenal == old(arsenal)
      ensures martyrs == old(martyrs)
    {
      if piece !in arsenal {
        return Err("list.remove(x): x not in list");
      }
      arsenal := RemoveFirst(arsenal, piece);
      r := Ok(());
    }

    /** Player.make_move: a stub that returns None and changes nothing. */
    method MakeMove(move: ProtoMove)
      ensures arsenal == old(arsenal) && martyrs == old(martyrs)
    {
    }
  }
}
