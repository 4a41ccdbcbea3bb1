/** What the fields of a FEN text mean, character by character, for any text: the men (src/position.c:180-204), the
    en-passant square (257-269) and the counters (271-279). */
module FenFields {
  import opened Geometry
  import opened Rules
  import opened Text
  import opened Lan
  import opened FenSpec
  import opened Notation

  // ---- Men -----------------------------------------------------------------------------------------------

  predicate ManChar(c: char) { c in "NBRQKPnbrqkp" }

  function ManOf(c: char): Cell
    requires ManChar(c)
  {
    if c == 'N' then Man(WHITE, KNIGHT) else if c == 'B' then Man(WHITE, BISHOP) else if c == 'R' then Man(WHITE, ROOK)
    else if c == 'Q' then Man(WHITE, QUEEN) else if c == 'K' then Man(WHITE, KING) else if c == 'P' then Man(WHITE, PAWN)
    else if c == 'n' then Man(BLACK, KNIGHT) else if c == 'b' then Man(BLACK, BISHOP) else if c == 'r' then Man(BLACK, ROOK)
    else if c == 'q' then Man(BLACK, QUEEN) else if c == 'k' then Man(BLACK, KING) else Man(BLACK, PAWN)
  }

  lemma LabelledIs(c: char)
    ensures Labelled(c) == (if ManChar(c) then ManOf(c) else Empty)
  {}

  // Rank and file reached after i characters: each slash is one rank down and back to the a-file.
  function RankAfter(t: string, i: nat): int
    requires i <= |t|
  {
    if i == 0 then 7 else RankAfter(t, i - 1) - (if t[i - 1] == '/' then 1 else 0)
  }

  function FileAfter(t: string, i: nat): int
    requires i <= |t|
  {
    if i == 0 || t[i - 1] == '/' then 0
    else FileAfter(t, i - 1) + (if '1' <= t[i - 1] <= '8' then t[i - 1] as int - '0' as int else 1)
  }

  function SquareAt(t: string, i: nat): int
    requires i < |t|
  {
    8 * RankAfter(t, i) + FileAfter(t, i)
  }

  // Character i is a count, a slash or a man, counts and men stay within eight files, and men within the board.
  predicate Fits(t: string, i: nat)
    requires i < |t|
  {
    ('1' <= t[i] <= '8' || t[i] == '/' || ManChar(t[i])) && FileAfter(t, i + 1) <= 8 && (ManChar(t[i]) ==> RankAfter(t, i) >= 0)
  }

  // The board that the first n characters describe.
  ghost predicate Described(t: string, n: nat, b: Board)
    requires n <= |t|
  {
    (forall i: nat :: i < n && ManChar(t[i]) ==> 0 <= SquareAt(t, i) < 64 && b[SquareAt(t, i)] == ManOf(t[i])) &&
    forall s: Square :: b[s] != Empty ==> exists i: nat :: i < n && ManChar(t[i]) && SquareAt(t, i) == s
  }

  lemma {:induction false} Ranges(t: string, i: nat)
    requires i <= |t| && forall j: nat :: j < i ==> Fits(t, j)
    ensures RankAfter(t, i) <= 7 && 0 <= FileAfter(t, i) <= 8
  {
    if i > 0 {
      Ranges(t, i - 1);
      assert Fits(t, i - 1);
    }
  }

  // Later men are on lower ranks or further right.
  lemma {:induction false} Onwards(t: string, j: nat, i: nat)
    requires j < i <= |t| && forall k: nat :: k < i ==> Fits(t, k)
    requires ManChar(t[j])
    ensures RankAfter(t, i) < RankAfter(t, j) || (RankAfter(t, i) == RankAfter(t, j) && FileAfter(t, i) > FileAfter(t, j))
    decreases i - j
  {
    assert Fits(t, i - 1);
    Ranges(t, i - 1);
    if i > j + 1 { Onwards(t, j, i - 1); }
  }

  // Reading on after n characters.
  ghost predicate ReadingOn(t: string, n: nat, b: Board)
    requires n <= |t|
  {
    Described(t, n, b) && Placement(t, 7, 0, NoMen()) == Placement(t[n..], RankAfter(t, n), FileAfter(t, n), b)
  }

  lemma StepReads(t: string, n: nat, b: Board) returns (b2: Board)
    requires n < |t| && (forall k: nat :: k <= n ==> Fits(t, k)) && ReadingOn(t, n, b)
    ensures ReadingOn(t, n + 1, b2)
  {
    hide Placement, Described, ManChar, ManOf, Labelled;
    var c, rank, file := t[n], RankAfter(t, n), FileAfter(t, n);
    assert t[n..][0] == c && t[n..][1..] == t[n + 1..];
    assert Fits(t, n);
    Ranges(t, n);
    OneChar(t[n..], rank, file, b);
    CharKinds(c);
    if ManChar(c) {
      SquareFree(t, n, b);
      LabelledIs(c);
      b2 := b[SquareFrom(rank, file) := ManOf(c)];
      DescribedMan(t, n, b);
    } else {
      b2 := b;
      DescribedSame(t, n, b);
    }
  }

  lemma CharKinds(c: char)
    ensures ManChar(c) ==> c != '/' && !('1' <= c <= '8')
    ensures ManChar(c) ==> ManOf(c) != Empty
  {}

  lemma OneChar(t: string, rank: int, file: int, b: Board)
    requires t != ""
    ensures Placement(t, rank, file, b) ==
            if '1' <= t[0] <= '8' then
              (if file + (t[0] as int - '0' as int) > 8 then Failed(Refused) else Placement(t[1..], rank, file + (t[0] as int - '0' as int), b))
            else if t[0] == '/' then Placement(t[1..], rank - 1, 0, b)
            else if Labelled(t[0]) == Empty then Failed(Refused)
            else if !OnBoard(rank, file) || b[SquareFrom(rank, file)] != Empty then Failed(AssertFails)
            else Placement(t[1..], rank, file + 1, b[SquareFrom(rank, file) := Labelled(t[0])])
  {
    hide Labelled;
  }

  // The square that comes next has not been described yet.
  lemma SquareFree(t: string, n: nat, b: Board)
    requires n < |t| && (forall k: nat :: k < n ==> Fits(t, k)) && Described(t, n, b)
    requires 0 <= RankAfter(t, n) <= 7 && 0 <= FileAfter(t, n) < 8
    ensures b[SquareFrom(RankAfter(t, n), FileAfter(t, n))] == Empty && SquareAt(t, n) == SquareFrom(RankAfter(t, n), FileAfter(t, n))
  {
    hide ManOf, ManChar, Fits, RankAfter, FileAfter;
    var s := SquareFrom(RankAfter(t, n), FileAfter(t, n));
    if b[s] != Empty {
      var i: nat :| i < n && ManChar(t[i]) && SquareAt(t, i) == s;
      NotAgain(t, i, n);
    }
  }

  lemma NotAgain(t: string, i: nat, n: nat)
    requires i < n < |t| && (forall k: nat :: k < n ==> Fits(t, k)) && ManChar(t[i]) && FileAfter(t, n) < 8
    ensures SquareAt(t, i) != SquareAt(t, n)
  {
    hide ManChar, Fits, RankAfter, FileAfter;
    Onwards(t, i, n);
    Ranges(t, i);
    Ranges(t, n);
    FitsFile(t, i);
  }

  lemma FitsFile(t: string, i: nat)
    requires i < |t| && Fits(t, i) && ManChar(t[i])
    ensures FileAfter(t, i) < 8
  {
    CharKinds(t[i]);
    hide ManChar;
  }

  lemma DescribedMan(t: string, n: nat, b: Board)
    requires n < |t| && (forall k: nat :: k <= n ==> Fits(t, k)) && Described(t, n, b) && ManChar(t[n])
    requires 0 <= RankAfter(t, n) <= 7 && 0 <= FileAfter(t, n) < 8
    requires b[SquareFrom(RankAfter(t, n), FileAfter(t, n))] == Empty
    ensures Described(t, n + 1, b[SquareFrom(RankAfter(t, n), FileAfter(t, n)) := ManOf(t[n])])
  {
    hide ManOf, ManChar, Fits, RankAfter, FileAfter;
    NotEmptyMan(t[n]);
    var s := SquareFrom(RankAfter(t, n), FileAfter(t, n));
    var b2 := b[s := ManOf(t[n])];
    assert SquareAt(t, n) == s;
    forall i: nat | i < n + 1 && ManChar(t[i]) ensures 0 <= SquareAt(t, i) < 64 && b2[SquareAt(t, i)] == ManOf(t[i]) {
      if i < n { NotEmptyMan(t[i]); }
    }
  }

  lemma NotEmptyMan(c: char)
    requires ManChar(c)
    ensures ManOf(c) != Empty
  {}

  lemma DescribedSame(t: string, n: nat, b: Board)
    requires n < |t| && Described(t, n, b) && !ManChar(t[n])
    ensures Described(t, n + 1, b)
  {
    hide ManOf, ManChar, SquareAt;
  }

  lemma {:induction false} ReadsUpTo(t: string, n: nat) returns (b: Board)
    requires n <= |t| && forall k: nat :: k < n ==> Fits(t, k)
    ensures ReadingOn(t, n, b)
  {
    if n == 0 {
      b := NoMen();
      assert t[0..] == t;
    } else {
      b := ReadsUpTo(t, n - 1);
      b := StepReads(t, n - 1, b);
    }
  }

  lemma StopsAt(t: string, n: nat, b: Board)
    requires n < |t| && (forall k: nat :: k < n ==> Fits(t, k)) && !Fits(t, n) && ReadingOn(t, n, b)
    ensures Placement(t, 7, 0, NoMen()) == Failed(if ManChar(t[n]) then AssertFails else Refused)
  {
    hide Placement, Described, ManChar, ManOf, Labelled;
    assert t[n..][0] == t[n];
    Ranges(t, n);
    OneChar(t[n..], RankAfter(t, n), FileAfter(t, n), b);
    CharKinds(t[n]);
    LabelledIs(t[n]);
  }

  // For every text: it is read exactly if every character fits and the last rank has been reached, and then it
  // describes the board read.
  lemma PlacementMeans(t: string)
    ensures Placement(t, 7, 0, NoMen()).Read? <==> (forall i: nat :: i < |t| ==> Fits(t, i)) && RankAfter(t, |t|) == 0
    ensures Placement(t, 7, 0, NoMen()).Read? ==> Described(t, |t|, Placement(t, 7, 0, NoMen()).value)
    ensures forall n: nat :: n < |t| && (forall k: nat :: k < n ==> Fits(t, k)) && !Fits(t, n) ==>
              Placement(t, 7, 0, NoMen()) == Failed(if ManChar(t[n]) then AssertFails else Refused)
  {
    hide Placement, Described, Fits, RankAfter, FileAfter, ManChar;
    var n := FirstMisfit(t, |t|);
    var b := ReadsUpTo(t, n);
    if n < |t| {
      StopsAt(t, n, b);
    } else {
      ReadsEnd(t, b);
    }
  }

  lemma ReadsEnd(t: string, b: Board)
    requires ReadingOn(t, |t|, b)
    ensures Placement(t, 7, 0, NoMen()) == if RankAfter(t, |t|) == 0 then Read(b) else Failed(Refused)
    ensures Described(t, |t|, b)
  {
    hide Described;
    assert t[|t|..] == "";
  }

  lemma {:induction false} FirstMisfit(t: string, m: nat) returns (n: nat)
    requires m <= |t|
    ensures n <= m && (forall k: nat :: k < n ==> Fits(t, k)) && (n < m ==> !Fits(t, n))
  {
    hide Fits;
    n := 0;
    if m > 0 {
      n := FirstMisfit(t, m - 1);
      if n == m - 1 && Fits(t, n) { n := m; }
    }
  }

  // ---- En-passant square and counters --------------------------------------------------------------------

  // A square name, or anything of one or two characters that begins with a dash.
  lemma EpNamedMeans(t: string)
    ensures forall s: Square :: EpNamed(t) == Read(s) <==> t == Name(s)
    ensures EpNamed(t) == Read(NO_SQUARE) <==> 1 <= |t| <= 2 && t[0] == '-'
  {
    forall s: Square ensures EpNamed(t) == Read(s) <==> t == Name(s) { NameReads(t, s); }
    assert |t| >= 2 && 0 <= CharRank(t[1]) < 8 && 0 <= CharFile(t[0]) < 8 ==> SquareFrom(CharRank(t[1]), CharFile(t[0])) < 64;
  }

  lemma NameReads(t: string, s: Square)
    ensures EpNamed(t) == Read(s) <==> t == Name(s)
  {
    SquareNameIs(s);
    SquareNameRoundTrip(s);
    if EpNamed(t) == Read(s) {
      var f, r := CharFile(t[0]), CharRank(t[1]);
      assert s % 8 == f && s / 8 == r;
      FileNames(f);
      RankNames(r);
      assert t == [t[0], t[1]];
    }
  }

  predicate AllDigits(s: string) { forall i: int :: 0 <= i < |s| ==> IsDigit(s[i]) }

  // Something that is not a digit is never skipped.
  lemma {:induction false} OnlyDigits(s: string, acc: nat)
    requires !AllDigits(s)
    ensures ScanUint(s, acc) == None
  {
    hide Wrap;
    if IsDigit(s[0]) {
      assert forall i: int :: 0 < i < |s| ==> s[i] == s[1..][i - 1];
      OnlyDigits(s[1..], Wrap(10 * acc + DigitValue(s[0])));
    }
  }

  // A counter is a string of digits with a value below 100, a move number one with a value from 1 to 65535.
  lemma CountersMean(s: string)
    ensures Rule50Named(Some(s)) == if AllDigits(s) && Value(s) < 100 then Read(Value(s)) else Failed(Refused)
    ensures FullMoveNamed(Some(s)) == if AllDigits(s) && 1 <= Value(s) <= 65535 then Read(Value(s)) else Failed(Refused)
  {
    hide ScanUint, Value;
    if AllDigits(s) {
      SmallNumbersAreExact(s, 255);
      SmallNumbersAreExact(s, 65535);
    } else {
      OnlyDigits(s, 0);
    }
  }
}
