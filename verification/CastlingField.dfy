/** What the castling field of a FEN text means (src/position.c:222-241), square by square: K and Q name the outermost
    own rook of the home rank, a file letter names a file. */
module CastlingField {
  import opened Geometry
  import opened Rules
  import opened Bitboards
  import opened Preservation
  import opened FenSpec
  import opened FenRoundTrip
  import opened Sequences

  // The letter c names the square s.
  predicate Names(b: Board, c: char, s: Square)
  {
    (c == 'K' && s < 8 && b[s] == Man(WHITE, ROOK) && forall t: Square :: s < t < 8 ==> b[t] != Man(WHITE, ROOK)) ||
    (c == 'Q' && s < 8 && b[s] == Man(WHITE, ROOK) && forall t: Square :: t < s ==> b[t] != Man(WHITE, ROOK)) ||
    (c == 'k' && s >= 56 && b[s] == Man(BLACK, ROOK) && forall t: Square :: t > s ==> b[t] != Man(BLACK, ROOK)) ||
    (c == 'q' && s >= 56 && b[s] == Man(BLACK, ROOK) && forall t: Square :: 56 <= t < s ==> b[t] != Man(BLACK, ROOK)) ||
    ('A' <= c <= 'H' && s == c as int - 'A' as int) || ('a' <= c <= 'h' && s == 56 + (c as int - 'a' as int))
  }

  lemma HomeRooksIs(b: Board, c: Color, s: Square)
    ensures s in HomeRooks(b, c) <==> b[s] == Man(c, ROOK) && (if c == WHITE then s < 8 else s >= 56)
  {
    assert c == WHITE || c == BLACK;
  }

  lemma OutermostIff(b: Board, c: Color, s: Square)
    ensures HomeRooks(b, c) != {} && Msb(HomeRooks(b, c)) == s <==>
            s in HomeRooks(b, c) && forall t: Square :: t > s && t in HomeRooks(b, c) ==> false
    ensures HomeRooks(b, c) != {} && Lsb(HomeRooks(b, c)) == s <==>
            s in HomeRooks(b, c) && forall t: Square :: t < s && t in HomeRooks(b, c) ==> false
  {
    hide HomeRooks;
  }

  lemma LetterCases(c: char)
    ensures RightsLetter(c) <==> c == 'K' || c == 'k' || c == 'Q' || c == 'q' || 'A' <= c <= 'H' || 'a' <= c <= 'h'
    ensures RightsLetter(c) ==> (ToUpper(c) == 'K' <==> c == 'K' || c == 'k') && (ToUpper(c) == 'Q' <==> c == 'Q' || c == 'q')
    ensures RightsLetter(c) ==> (SideOf(c) == WHITE <==> c == 'K' || c == 'Q' || 'A' <= c <= 'H')
    ensures 'A' <= c <= 'H' ==> ToUpper(c) == c
    ensures 'a' <= c <= 'h' ==> ToUpper(c) as int == c as int - 'a' as int + 'A' as int
  {}

  // The rook that a letter stands for is the square it names.
  lemma RookNamedIff(b: Board, c: char, s: Square)
    requires RightsLetter(c)
    ensures RookNamed(b, c) == Read(s) <==> Names(b, c, s)
  {
    LetterCases(c);
    OutermostIff(b, SideOf(c), s);
    forall t: Square
      ensures t in HomeRooks(b, SideOf(c)) <==> b[t] == Man(SideOf(c), ROOK) && (if SideOf(c) == WHITE then t < 8 else t >= 56)
    {
      HomeRooksIs(b, SideOf(c), t);
    }
    hide HomeRooks, ToUpper, SideOf, RightsLetter;
    assert SideOf(c) == WHITE || SideOf(c) == BLACK;
  }

  lemma NotALetter(b: Board, c: char, s: Square)
    requires !RightsLetter(c)
    ensures !Names(b, c, s)
  {
    LetterCases(c);
  }

  // ---- The whole field -----------------------------------------------------------------------------------

  // Some letter of t names s.
  ghost predicate Named(b: Board, t: string, s: Square) { exists i: int :: 0 <= i < |t| && Names(b, t[i], s) }

  ghost predicate NamesSome(b: Board, c: char) { exists s: Square :: Names(b, c, s) }

  ghost predicate Apart(b: Board, c: char, d: char) { forall s: Square :: Names(b, c, s) ==> !Names(b, d, s) }

  // Every letter names a square, and no two the same.
  ghost predicate AllName(b: Board, t: string)
  {
    (forall i: int :: 0 <= i < |t| ==> NamesSome(b, t[i])) && forall i: int, j: int :: 0 <= i < j < |t| ==> Apart(b, t[i], t[j])
  }

  lemma NamedCons(b: Board, t: string, s: Square)
    requires t != ""
    ensures Named(b, t, s) <==> Names(b, t[0], s) || Named(b, t[1..], s)
  {
    hide Names;
    if i: int :| 0 <= i < |t| && Names(b, t[i], s) { assert i > 0 ==> t[1..][i - 1] == t[i]; }
    if i: int :| 0 <= i < |t[1..]| && Names(b, t[1..][i], s) { assert t[i + 1] == t[1..][i]; }
  }

  lemma AllNameCons(b: Board, t: string)
    requires t != ""
    ensures AllName(b, t) <==>
            AllName(b, t[1..]) && NamesSome(b, t[0]) && forall s: Square :: Names(b, t[0], s) ==> !Named(b, t[1..], s)
  {
    hide AllName;
    FirstApart(b, t);
    AllNameSplit(b, t);
  }

  lemma AllNameSplit(b: Board, t: string)
    requires t != ""
    ensures AllName(b, t) <==> AllName(b, t[1..]) && NamesSome(b, t[0]) && forall j: int :: 0 < j < |t| ==> Apart(b, t[0], t[j])
  {
    hide NamesSome, Apart;
    var u := t[1..];
    assert forall i: int :: 0 <= i < |u| ==> u[i] == t[i + 1];
    assert forall i: int :: 0 < i < |t| ==> t[i] == u[i - 1];
  }

  lemma FirstApart(b: Board, t: string)
    requires t != ""
    ensures (forall s: Square :: Names(b, t[0], s) ==> !Named(b, t[1..], s)) <==> forall j: int :: 0 < j < |t| ==> Apart(b, t[0], t[j])
  {
    hide Names;
    var u := t[1..];
    if forall s: Square :: Names(b, t[0], s) ==> !Named(b, u, s) {
      forall j: int | 0 < j < |t| ensures Apart(b, t[0], t[j]) {
        assert u[j - 1] == t[j];
        forall s: Square | Names(b, t[0], s) ensures !Names(b, t[j], s) { assert !Named(b, u, s); }
      }
    }
    if forall j: int :: 0 < j < |t| ==> Apart(b, t[0], t[j]) {
      forall s: Square | Names(b, t[0], s) ensures !Named(b, u, s) {
        forall i: int | 0 <= i < |u| ensures !Names(b, u[i], s) { assert Apart(b, t[0], t[i + 1]); }
      }
    }
  }

  // Letters behind letters, with the rooks named before them.
  lemma {:induction false} RightsMean(b: Board, t: string, before: Bitboard)
    requires t != "-" || before != {}
    ensures CastleRights(t, b, before).Read? <==> AllName(b, t) && forall s: Square :: s in before ==> !Named(b, t, s)
    ensures CastleRights(t, b, before).Read? ==>
              forall s: Square :: s in CastleRights(t, b, before).value <==> s in before || Named(b, t, s)
  {
    hide Names, RookNamed, RightsLetter, Named, AllName, Apart;
    if t == "" {
      NothingRead(b);
    } else if !RightsLetter(t[0]) {
      forall s: Square ensures !Names(b, t[0], s) { NotALetter(b, t[0], s); }
      AllNameCons(b, t);
      assert t[0] == '-' && |t| == 1 ==> t == "-";
    } else {
      forall s: Square ensures RookNamed(b, t[0]) == Read(s) <==> Names(b, t[0], s) { RookNamedIff(b, t[0], s); }
      AllNameCons(b, t);
      forall s: Square ensures Named(b, t, s) <==> Names(b, t[0], s) || Named(b, t[1..], s) { NamedCons(b, t, s); }
      if RookNamed(b, t[0]).Read? {
        var r := RookNamed(b, t[0]).value;
        assert Names(b, t[0], r);
        if r !in before { RightsMean(b, t[1..], before + {r}); }
      }
    }
  }

  lemma NothingRead(b: Board)
    ensures AllName(b, "") && forall s: Square :: !Named(b, "", s)
  {}

  // For every field and every board: what is accepted, and the rooks it gives.
  lemma CastlingNamedMeans(t: string, b: Board)
    ensures CastlingNamed(t, b).Read? <==> |t| <= 4 && (t == "-" || AllName(b, t))
    ensures CastlingNamed(t, b).Read? ==> forall s: Square :: s in CastlingNamed(t, b).value <==> Named(b, t, s)
  {
    hide CastleRights, Named, AllName, Names;
    if t == "-" {
      DashReads(b);
      DashNames(b);
    } else {
      RightsMean(b, t, {});
    }
  }

  lemma DashNames(b: Board)
    ensures forall s: Square :: !Named(b, "-", s)
  {
    forall s: Square ensures !Names(b, '-', s) {}
    hide Names;
  }

  // ---- K and Q in Chess960 -------------------------------------------------------------------------------

  // Every castling rook is the outermost own rook of its rank on its side of the king.
  ghost predicate Outermost(st: State)
  {
    forall r: Square, c: Color :: r in st.castle && Owned(st.board, c, r) ==>
      forall t: Square :: t / 8 == r / 8 && st.board[t] == Man(c, ROOK) ==> (if r > KingSquare(st.board, c) then t <= r else t >= r)
  }

  function SideChar(c: Color, right: bool): char
  {
    if c == WHITE then (if right then 'K' else 'Q') else (if right then 'k' else 'q')
  }

  ghost predicate OnSide(st: State, c: Color, right: bool, s: Square)
  {
    s in st.castle && Owned(st.board, c, s) && (if right then s > KingSquare(st.board, c) else s < KingSquare(st.board, c))
  }

  lemma OnSideFacts(st: State, c: Color, right: bool, r: Square)
    requires WellFormed(st) && OnSide(st, c, right, r)
    ensures st.board[r] == Man(c, ROOK) && (if c == WHITE then r < 8 else r >= 56)
    ensures forall s: Square :: OnSide(st, c, right, s) ==> s == r
  {
    hide WellFormed, KingSquare, FileOf, CastleRookOk;
    CastleRookBefore(st, r);
    OneRookASide(st, c, Army(st.board, c), right, r);
    HomeRooksIs(st.board, c, r);
    forall s: Square | OnSide(st, c, right, s) ensures s == r {
      assert s in SideRooks(st.castle, Army(st.board, c), KingSquare(st.board, c), right);
    }
  }

  lemma RankSquares(r: Square, t: Square)
    ensures r < 8 ==> (t / 8 == r / 8 <==> t < 8)
    ensures r >= 56 ==> (t / 8 == r / 8 <==> t >= 56)
  {}

  // The letter of a side names its castling rook, and nothing else.
  lemma SideLetterNames(st: State, c: Color, right: bool, r: Square, s: Square)
    requires WellFormed(st) && Outermost(st) && OnSide(st, c, right, r)
    ensures Names(st.board, SideChar(c, right), s) <==> s == r
  {
    hide WellFormed, KingSquare;
    OnSideFacts(st, c, right, r);
    forall t: Square ensures t / 8 == r / 8 <==> (if c == WHITE then t < 8 else t >= 56) { RankSquares(r, t); }
    assert forall t: Square :: t / 8 == r / 8 && st.board[t] == Man(c, ROOK) ==> (if right then t <= r else t >= r);
    OuterOf(st.board, c, right, r, s);
  }

  lemma OuterOf(b: Board, c: Color, right: bool, r: Square, s: Square)
    requires b[r] == Man(c, ROOK) && (if c == WHITE then r < 8 else r >= 56)
    requires forall t: Square :: (if c == WHITE then t < 8 else t >= 56) && b[t] == Man(c, ROOK) ==> (if right then t <= r else t >= r)
    ensures Names(b, SideChar(c, right), s) <==> s == r
  {
    assert c == WHITE || c == BLACK;
  }

  // K, Q, k and q, once each and in any order, for the sides that have a castling rook.
  ghost predicate WrittenKQ(st: State, t: string)
  {
    |t| <= 4 && NoRepeats(t) &&
    (forall i: int :: 0 <= i < |t| ==> exists c: Color, right: bool, r: Square :: t[i] == SideChar(c, right) && OnSide(st, c, right, r)) &&
    forall c: Color, right: bool, r: Square :: OnSide(st, c, right, r) ==> SideChar(c, right) in t
  }

  // That field is read back to the castling rooks, in Chess960 too, if each of them is the outermost own rook on its
  // side of the king.
  lemma KQRoundTrip(st: State, t: string)
    requires WellFormed(st) && Outermost(st) && WrittenKQ(st, t)
    ensures CastlingNamed(t, st.board) == Read(st.castle)
  {
    hide WellFormed, Outermost, Names, Named, AllName, CastlingNamed, OnSide, SideChar;
    var b := st.board;
    CastlingNamedMeans(t, b);
    forall i: int | 0 <= i < |t| ensures NamesSome(b, t[i]) { var c, right, r := LetterOf(st, t, i); }
    forall i: int, j: int | 0 <= i < j < |t| ensures Apart(b, t[i], t[j]) { LettersApart(st, t, i, j); }
    AllNameIs(b, t);
    forall s: Square ensures Named(b, t, s) <==> s in st.castle { NamedIsCastle(st, t, s); }
    assert CastlingNamed(t, b).value == st.castle;
  }

  lemma AllNameIs(b: Board, t: string)
    requires (forall i: int :: 0 <= i < |t| ==> NamesSome(b, t[i])) && forall i: int, j: int :: 0 <= i < j < |t| ==> Apart(b, t[i], t[j])
    ensures AllName(b, t)
  {
    hide NamesSome, Apart;
  }

  lemma LetterOf(st: State, t: string, i: int) returns (c: Color, right: bool, r: Square)
    requires WellFormed(st) && Outermost(st) && WrittenKQ(st, t) && 0 <= i < |t|
    ensures t[i] == SideChar(c, right) && OnSide(st, c, right, r) && forall s: Square :: Names(st.board, t[i], s) <==> s == r
    ensures NamesSome(st.board, t[i])
  {
    hide WellFormed, Outermost, Names, OnSide, SideChar;
    c, right, r :| t[i] == SideChar(c, right) && OnSide(st, c, right, r);
    forall s: Square ensures Names(st.board, t[i], s) <==> s == r { SideLetterNames(st, c, right, r, s); }
    assert Names(st.board, t[i], r);
  }

  lemma LettersApart(st: State, t: string, i: int, j: int)
    requires WellFormed(st) && Outermost(st) && WrittenKQ(st, t) && 0 <= i < j < |t|
    ensures Apart(st.board, t[i], t[j])
  {
    hide WellFormed, Outermost, Names, WrittenKQ;
    var c, right, r := LetterOf(st, t, i);
    var c2, right2, r2 := LetterOf(st, t, j);
    WrittenOnce(st, t, i, j);
    hide KingSquare;
    assert c == c2 ==> right != right2;
  }

  lemma WrittenOnce(st: State, t: string, i: int, j: int)
    requires WrittenKQ(st, t) && 0 <= i < j < |t|
    ensures t[i] != t[j]
  {
    hide OnSide, SideChar;
  }

  lemma NamedIsCastle(st: State, t: string, s: Square)
    requires WellFormed(st) && Outermost(st) && WrittenKQ(st, t)
    ensures Named(st.board, t, s) <==> s in st.castle
  {
    hide WellFormed, Outermost, Names, KingSquare, SideChar, WrittenKQ;
    if i: int :| 0 <= i < |t| && Names(st.board, t[i], s) {
      var c, right, r := LetterOf(st, t, i);
    }
    if s in st.castle {
      var c, right := CastleIsOnSide(st, s);
      var i := LetterThere(st, t, c, right, s);
      SideLetterNames(st, c, right, s, s);
    }
  }

  lemma CastleIsOnSide(st: State, r: Square) returns (c: Color, right: bool)
    requires WellFormed(st) && r in st.castle
    ensures OnSide(st, c, right, r)
  {
    hide WellFormed, KingSquare, RankOf, FileOf;
    CastleRookBefore(st, r);
    c := st.board[r].color;
    KingsOk(st, c);
    right := r > KingSquare(st.board, c);
  }

  lemma LetterThere(st: State, t: string, c: Color, right: bool, r: Square) returns (i: int)
    requires WrittenKQ(st, t) && OnSide(st, c, right, r)
    ensures 0 <= i < |t| && t[i] == SideChar(c, right)
  {
    hide OnSide, SideChar;
    i :| 0 <= i < |t| && t[i] == SideChar(c, right);
  }

  // The letters that the program writes.
  lemma LettersWritten(chess960: bool, c: Color, r: Square, right: bool)
    ensures RookLetter(chess960, c, r, right) ==
            if chess960 then (if c == WHITE then "ABCDEFGH"[r % 8] else "abcdefgh"[r % 8])
            else if c == WHITE then (if right then 'K' else 'Q') else (if right then 'k' else 'q')
  {
    assert c == WHITE || c == BLACK;
    FileLetters(r % 8);
  }

  lemma FileLetters(f: int)
    requires 0 <= f < 8
    ensures FileLabel(WHITE, f) == "ABCDEFGH"[f] && FileLabel(BLACK, f) == "abcdefgh"[f]
  {}
}
