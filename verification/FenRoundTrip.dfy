/** Reading back what src/position.c:334-394 writes (FEN), field by field, and what src/position.c:295-315
    verifies about castling rooks. */
module FenRoundTrip {
  import opened Geometry
  import opened Rules
  import opened Legality
  import opened Bitboards
  import opened Zobrist
  import opened Positions
  import opened Finish
  import opened MoveGenExact
  import opened Preservation
  import opened PositionClass
  import opened Text
  import opened Lan
  import opened FenSpec

  // ---- Men -----------------------------------------------------------------------------------------------

  // Squares that the reader has passed when it stands at (rank, file): ranks go down, files go up.
  predicate Seen(s: Square, rank: int, file: int)
  {
    RankOf(s) > rank || (RankOf(s) == rank && FileOf(s) < file)
  }

  function Filled(b: Board, rank: int, file: int): Board
  {
    seq(64, s requires 0 <= s < 64 => if Seen(s, rank, file) then b[s] else Empty)
  }

  lemma FillStep(b: Board, rank: int, file: int)
    requires OnBoard(rank, file)
    ensures var s := SquareFrom(rank, file); Filled(b, rank, file)[s] == Empty && Filled(b, rank, file + 1) == Filled(b, rank, file)[s := b[s]]
  {
    SquareFromCoords(rank, file);
    hide RankOf, FileOf;
    var s := SquareFrom(rank, file);
    var x, y := Filled(b, rank, file)[s := b[s]], Filled(b, rank, file + 1);
    forall t: Square ensures x[t] == y[t] { CoordsRange(t); }
  }

  lemma FillRank(b: Board, rank: int)
    ensures Filled(b, rank, 8) == Filled(b, rank - 1, 0)
  {
    forall t: Square ensures Filled(b, rank, 8)[t] == Filled(b, rank - 1, 0)[t] { CoordsRange(t); }
  }

  lemma FillEnds(b: Board)
    ensures Filled(b, 7, 0) == NoMen() && Filled(b, 0, 8) == b
  {
    forall t: Square ensures Filled(b, 7, 0)[t] == Empty && Filled(b, 0, 8)[t] == b[t] { CoordsRange(t); }
  }

  lemma ReadCount(n: nat, rest: string, rank: int, file: int, b: Board)
    requires n <= file <= 8
    ensures Placement(CountText(n) + rest, rank, file - n, b) == Placement(rest, rank, file, b)
  {
    if n == 0 {
      assert CountText(n) + rest == rest;
    } else {
      DigitRoundTrip(n % 10);
      var t := CountText(n) + rest;
      assert t[0] == DigitChar(n) && t[1..] == rest;
    }
  }

  lemma ReadMan(c: Color, p: Piece, rest: string, rank: int, file: int, b: Board)
    requires OnBoard(rank, file) && b[SquareFrom(rank, file)] == Empty
    ensures Placement([Label(c, p)] + rest, rank, file, b) == Placement(rest, rank, file + 1, b[SquareFrom(rank, file) := Man(c, p)])
  {
    LabelledLabel(c, p);
    hide Label, Labelled;
    var t := [Label(c, p)] + rest;
    assert t[0] == Label(c, p) && t[1..] == rest;
  }

  lemma {:induction false} ReadRow(b: Board, rank: int, file: int, n: nat, rest: string)
    requires 0 <= rank < 8 && n <= file <= 8
    ensures Placement(RowText(b, rank, file, n) + rest, rank, file - n, Filled(b, rank, file)) ==
            Placement(rest, rank, 8, Filled(b, rank, 8))
    decreases 8 - file
  {
    hide Placement, Filled, Label, CountText;
    if file == 8 {
      ReadCount(n, rest, rank, 8, Filled(b, rank, 8));
    } else {
      var s := SquareFrom(rank, file);
      var x := Filled(b, rank, file);
      FillStep(b, rank, file);
      if b[s] == Empty {
        assert x[s := b[s]] == x;
        ReadRow(b, rank, file + 1, n + 1, rest);
      } else {
        var man, tail := [Label(b[s].color, b[s].piece)], RowText(b, rank, file + 1, 0);
        assert CountText(n) + man + tail + rest == CountText(n) + (man + (tail + rest));
        ReadCount(n, man + (tail + rest), rank, file, x);
        ReadMan(b[s].color, b[s].piece, tail + rest, rank, file, x);
        ReadRow(b, rank, file + 1, 0, rest);
      }
    }
  }

  lemma ReadSlash(rest: string, rank: int, b: Board)
    ensures Placement("/" + rest, rank, 8, b) == Placement(rest, rank - 1, 0, b)
  {
    var t := "/" + rest;
    assert t[0] == '/' && t[1..] == rest;
  }

  lemma {:induction false} ReadRanks(b: Board, rank: int)
    requires 0 <= rank < 8
    ensures Placement(PlacementText(b, rank), rank, 0, Filled(b, rank, 0)) == Read(b)
  {
    hide RowText, Filled;
    if rank == 0 {
      FillEnds(b);
      ReadRow(b, 0, 0, 0, "");
      assert RowText(b, 0, 0, 0) + "" == RowText(b, 0, 0, 0);
    } else {
      hide Placement;
      var rest := "/" + PlacementText(b, rank - 1);
      assert PlacementText(b, rank) == RowText(b, rank, 0, 0) + rest;
      ReadRow(b, rank, 0, 0, rest);
      ReadSlash(PlacementText(b, rank - 1), rank, Filled(b, rank, 8));
      FillRank(b, rank);
      ReadRanks(b, rank - 1);
    }
  }

  // Every board is read back from its placement text.
  lemma PlacementRoundTrip(b: Board)
    ensures Placement(PlacementText(b, 7), 7, 0, NoMen()) == Read(b)
  {
    hide *;
    FillEnds(b);
    ReadRanks(b, 7);
  }

  lemma {:induction false} RowWord(b: Board, rank: int, file: int, n: nat)
    requires 0 <= rank < 8 && n <= file <= 8
    ensures ' ' !in RowText(b, rank, file, n)
    ensures file < 8 || n > 0 ==> RowText(b, rank, file, n) != ""
    decreases 8 - file
  {
    hide Label;
    if n > 0 { DigitRoundTrip(n % 10); }
    if file < 8 {
      var s := SquareFrom(rank, file);
      if b[s] == Empty {
        RowWord(b, rank, file + 1, n + 1);
      } else {
        LabelledLabel(b[s].color, b[s].piece);
        RowWord(b, rank, file + 1, 0);
      }
    }
  }

  lemma {:induction false} PlacementWord(b: Board, rank: int)
    requires 0 <= rank < 8
    ensures Word(PlacementText(b, rank))
  {
    hide RowText;
    RowWord(b, rank, 0, 0);
    if rank > 0 { PlacementWord(b, rank - 1); }
  }

  // ---- Castling rights -----------------------------------------------------------------------------------

  lemma RankOrder(a: Square, b: Square)
    requires RankOf(a) == RankOf(b)
    ensures a < b <==> FileOf(a) < FileOf(b)
    ensures a == b <==> FileOf(a) == FileOf(b)
  {}

  // On one side of the king there is at most one castling rook.
  lemma OneRookASide(st: State, c: Color, army: Bitboard, right: bool, r: Square)
    requires WellFormed(st) && army == Army(st.board, c) && r in SideRooks(st.castle, army, KingSquare(st.board, c), right)
    ensures SideRooks(st.castle, army, KingSquare(st.board, c), right) == {r}
    ensures st.board[r] == Man(c, ROOK) && RankOf(r) == HomeRank(c) == RankOf(KingSquare(st.board, c))
    ensures if right then r > KingSquare(st.board, c) else r < KingSquare(st.board, c)
  {
    hide WellFormed, KingSquare, RankOf;
    CastleBefore(st);
    CastleRookBefore(st, r);
    forall q | q in SideRooks(st.castle, army, KingSquare(st.board, c), right) ensures q == r {
      CastleRookBefore(st, q);
      assert st.board[q] == st.board[r] && SameSide(KingSquare(st.board, c), r, q);
    }
  }

  lemma FileLetter(c: Color, f: int)
    requires 0 <= f < 8
    ensures var l := FileLabel(c, f);
            RightsLetter(l) && ToUpper(l) == 'A' + f as char && SideOf(l) == c && ToUpper(l) != 'K' && ToUpper(l) != 'Q' && l != ' '
  {}

  lemma SideLetter(c: Color, right: bool)
    ensures var l := Label(c, if right then KING else QUEEN);
            RightsLetter(l) && SideOf(l) == c && l != ' ' && ToUpper(l) == if right then 'K' else 'Q'
  {}

  // The corner rook is the outermost rook of its rank.
  lemma CornerIsOutermost(b: Board, c: Color, r: Square)
    requires b[r] == Man(c, ROOK) && RankOf(r) == HomeRank(c)
    ensures HomeRooks(b, c) != {}
    ensures FileOf(r) == 7 ==> Msb(HomeRooks(b, c)) == r
    ensures FileOf(r) == 0 ==> Lsb(HomeRooks(b, c)) == r
  {
    hide RankOf, FileOf;
    var rooks := HomeRooks(b, c);
    assert r in rooks;
    RankOrder(r, Msb(rooks));
    RankOrder(Lsb(rooks), r);
    CoordsRange(Msb(rooks));
    CoordsRange(Lsb(rooks));
  }

  lemma OrthodoxSide(k: Square, r: Square)
    requires RankOf(k) == RankOf(r) && FileOf(k) == 4 && (FileOf(r) == 0 || FileOf(r) == 7)
    ensures r > k ==> FileOf(r) == 7
    ensures r < k ==> FileOf(r) == 0
  {}

  // The letter that stands for a castling rook names that rook.
  lemma LetterNames(z: Tables, p: Pos, c: Color, right: bool, r: Square)
    requires Sound(p, z) && r in SideRooks(p.castleRooks, Army(BoardOf(p), c), KingSquare(BoardOf(p), c), right)
    ensures RightsLetter(RookLetter(p.chess960, c, r, right)) && RookLetter(p.chess960, c, r, right) != ' '
    ensures RookNamed(BoardOf(p), RookLetter(p.chess960, c, r, right)) == Read(r)
  {
    hide Sound, BoardOf, WellFormed, Represents, KingSquare, RankOf, FileOf, FileLabel, Label, ToUpper, SideOf, Derived, KeyOf, HomeRooks, SideRooks;
    SoundParts(p, z);
    var b := BoardOf(p);
    SideRooksSub(p.castleRooks, Army(b, c), KingSquare(b, c), right, r);
    OneRookASide(StateOf(p), c, Army(b, c), right, r);
    CoordsRange(r);
    if p.chess960 {
      FileLetter(c, FileOf(r));
    } else {
      SideLetter(c, right);
      CornerIsOutermost(b, c, r);
      OrthodoxRook(StateOf(p), r);
      OrthodoxSide(KingSquare(b, c), r);
    }
  }

  lemma SideRooksSub(castle: Bitboard, army: Bitboard, king: Square, right: bool, r: Square)
    ensures r in SideRooks(castle, army, king, right) ==> r in castle && r in army
  {}

  lemma SideReads(z: Tables, p: Pos, c: Color, right: bool, before: Bitboard, rest: string)
    requires Sound(p, z)
    requires SideRooks(p.castleRooks, p.byColor[c], KingSquare(BoardOf(p), c), right) !! before
    ensures var rooks := SideRooks(p.castleRooks, p.byColor[c], KingSquare(BoardOf(p), c), right);
            CastleRights(SideText(p.chess960, c, rooks, right) + rest, BoardOf(p), before) ==
            CastleRights(rest, BoardOf(p), before + rooks) &&
            |SideText(p.chess960, c, rooks, right)| == |rooks| <= 1 && ' ' !in SideText(p.chess960, c, rooks, right)
  {
    hide Sound, BoardOf, WellFormed, Represents, KingSquare, RookLetter, SideRooks, RightsLetter, RookNamed, Derived, KeyOf;
    SoundParts(p, z);
    ArmyIs(p, BoardOf(p), c);
    var rooks := SideRooks(p.castleRooks, p.byColor[c], KingSquare(BoardOf(p), c), right);
    if rooks == {} {
      assert "" + rest == rest;
      assert before + rooks == before;
    } else {
      var r := Lsb(rooks);
      OneRookASide(StateOf(p), c, p.byColor[c], right, r);
      LetterNames(z, p, c, right, r);
      var t := SideText(p.chess960, c, rooks, right) + rest;
      assert t[0] == RookLetter(p.chess960, c, r, right) && t[1..] == rest;
    }
  }

  lemma ArmyIs(p: Pos, b: Board, c: Color)
    requires Represents(p.byColor, p.byPiece, b)
    ensures p.byColor[c] == Army(b, c)
  {
    hide Represents;
    forall s: Square ensures s in p.byColor[c] <==> s in Army(b, c) { CellFacts(p, b, s, c, KING); }
  }

  // Both sides of the king together make up the castling rooks of its colour.
  lemma SidesCover(z: Tables, p: Pos, c: Color)
    requires Sound(p, z)
    ensures SideRooks(p.castleRooks, p.byColor[c], KingSquare(BoardOf(p), c), true) +
            SideRooks(p.castleRooks, p.byColor[c], KingSquare(BoardOf(p), c), false) == p.castleRooks * p.byColor[c]
    ensures SideRooks(p.castleRooks, p.byColor[c], KingSquare(BoardOf(p), c), true) !!
            SideRooks(p.castleRooks, p.byColor[c], KingSquare(BoardOf(p), c), false)
  {
    hide Sound, BoardOf, WellFormed, Represents, KingSquare, RankOf, FileOf, Derived, KeyOf;
    SoundParts(p, z);
    KingsOk(StateOf(p), c);
    forall r: Square | r in p.castleRooks ensures r != KingSquare(BoardOf(p), c) {
      CastleRookBefore(StateOf(p), r);
    }
  }

  lemma ColorReads(z: Tables, p: Pos, c: Color, before: Bitboard, rest: string)
    requires Sound(p, z) && p.castleRooks * p.byColor[c] !! before
    ensures var t := ColorText(p, c, KingSquare(BoardOf(p), c));
            CastleRights(t + rest, BoardOf(p), before) == CastleRights(rest, BoardOf(p), before + p.castleRooks * p.byColor[c]) &&
            |t| <= 2 && ' ' !in t && (t == "" <==> p.castleRooks * p.byColor[c] == {})
  {
    hide Sound, BoardOf, KingSquare, SideRooks, SideText, CastleRights;
    var k := KingSquare(BoardOf(p), c);
    var right, left := SideRooks(p.castleRooks, p.byColor[c], k, true), SideRooks(p.castleRooks, p.byColor[c], k, false);
    SidesCover(z, p, c);
    SideReads(z, p, c, true, before, SideText(p.chess960, c, left, false) + rest);
    SideReads(z, p, c, false, before + right, rest);
    assert before + right + left == before + p.castleRooks * p.byColor[c];
    var a, d := SideText(p.chess960, c, right, true), SideText(p.chess960, c, left, false);
    assert a + d + rest == a + (d + rest);
  }

  lemma CastleColors(z: Tables, p: Pos)
    requires Sound(p, z)
    ensures p.castleRooks == p.castleRooks * p.byColor[WHITE] + p.castleRooks * p.byColor[BLACK]
    ensures p.castleRooks * p.byColor[WHITE] !! p.castleRooks * p.byColor[BLACK]
  {
    hide Sound, BoardOf, WellFormed, Represents, RankOf, FileOf, Derived, KeyOf, KingSquare;
    SoundParts(p, z);
    forall r: Square | r in p.castleRooks ensures r in p.byColor[WHITE] <==> r !in p.byColor[BLACK] {
      CastleRookBefore(StateOf(p), r);
      CellFacts(p, BoardOf(p), r, WHITE, KING);
      CellFacts(p, BoardOf(p), r, BLACK, KING);
    }
  }

  // The castling field is read back to the same rooks, whatever letters it uses.
  lemma CastlingRoundTrip(z: Tables, p: Pos)
    requires Sound(p, z)
    ensures CastlingNamed(CastleText(p), BoardOf(p)) == Read(p.castleRooks) && Word(CastleText(p))
  {
    hide Sound, BoardOf, KingSquare, ColorText;
    if p.castleRooks == {} {
      DashReads(BoardOf(p));
    } else {
      hide CastleRights;
      var b := BoardOf(p);
      CastleColors(z, p);
      var tw, tb := ColorText(p, WHITE, KingSquare(b, WHITE)), ColorText(p, BLACK, KingSquare(b, BLACK));
      ColorReads(z, p, WHITE, {}, tb);
      assert {} + p.castleRooks * p.byColor[WHITE] == p.castleRooks * p.byColor[WHITE];
      ColorReads(z, p, BLACK, p.castleRooks * p.byColor[WHITE], "");
      assert tb + "" == tb;
      NothingMore(b, p.castleRooks);
    }
  }

  lemma DashReads(b: Board)
    ensures CastleRights("-", b, {}) == Read({})
  {
    var t := "-";
    assert t[1..] == "" && !RightsLetter(t[0]);
    NothingMore(b, {});
  }

  lemma NothingMore(b: Board, rooks: Bitboard)
    ensures CastleRights("", b, rooks) == Read(rooks)
  {}

  // ---- Chess960 -------------------------------------------------------------------------------------------

  lemma OneKingIs(b: Board, c: Color, k: Square)
    requires KingAt(b, c, k)
    ensures Men(b, c, KING) == {k} && |Men(b, c, KING)| == 1
  {
    assert Men(b, c, KING) == {k};
  }

  lemma {:induction false} OrthodoxDetected(st: State, rooks: Bitboard)
    requires WellFormed(st) && Orthodox(st) && rooks <= st.castle
    ensures Detect960(st.board, rooks, false) == Read(false)
    decreases |rooks|
  {
    hide WellFormed, Orthodox, KingSquare, RankOf, FileOf, Men;
    if rooks != {} {
      var r := Lsb(rooks);
      CastleRookBefore(st, r);
      OrthodoxRook(st, r);
      KingsOk(st, st.board[r].color);
      OneKingIs(st.board, st.board[r].color, Ks(st, st.board[r].color));
      OrthodoxDetected(st, rooks - {r});
    }
  }

  // ---- Verification ---------------------------------------------------------------------------------------

  ghost predicate RooksOk(b: Board, c: Color, own: Bitboard, k: Square)
  {
    (forall r: Square :: r in own ==> CastleRookOk(b, k, c, r)) &&
    forall r: Square, q: Square | r in own && q in own :: SameSide(k, r, q) ==> q == r
  }

  // One side: what the reader checks is what is needed, except that the king may be off its home rank.
  lemma RooksFitIff(b: Board, c: Color, own: Bitboard, k: Square)
    requires KingAt(b, c, k) && forall r: Square :: r in own ==> r in HomeRooks(b, c)
    ensures RooksOk(b, c, own, k) <==> RooksFit(own, k) && (own == {} || RankOf(k) == HomeRank(c))
  {
    hide RankOf, FileOf, Segment;
    if own != {} {
      var l, h := Lsb(own), Msb(own);
      if RankOf(k) == HomeRank(c) {
        HomeSegment(b, c, l, h, k);
        if l == h {
          assert own == {l};
        } else {
          TwoRooks(own, l, h);
          if RooksOk(b, c, own, k) {
            assert !SameSide(k, l, h);
            forall r | r in own ensures r == l || r == h { assert SameSide(k, r, l) || SameSide(k, r, h); }
            assert own == {l, h};
          }
        }
      } else {
        assert !CastleRookOk(b, k, c, l);
      }
    }
  }

  lemma TwoRooks(own: Bitboard, l: Square, h: Square)
    requires own != {} && l == Lsb(own) && h == Msb(own) && l != h
    ensures |own| >= 2
    ensures |own| == 2 ==> own == {l, h}
  {
    assert |own - {l}| == |own| - 1;
    assert |own - {l} - {h}| == |own| - 2;
    if |own| == 2 { assert own - {l} - {h} == {}; }
  }

  lemma HomeSegment(b: Board, c: Color, l: Square, h: Square, k: Square)
    requires l in HomeRooks(b, c) && h in HomeRooks(b, c) && l <= h && b[k] == Man(c, KING) && RankOf(k) == HomeRank(c)
    ensures k != l && k != h
    ensures l != h ==> (k in Segment(l, h) <==> l < k < h)
    ensures l < k < h ==> 1 <= FileOf(k) <= 6
  {
    hide RankOf, FileOf, Dir, Dist;
    RankOrder(l, k);
    RankOrder(k, h);
    RankOrder(l, h);
    BetweenOnRank(l, k, h);
    CoordsRange(l);
    CoordsRange(h);
    if l != h { DirOnRank(l, h); }
  }

  // All castling rooks: src/position.c:295-315 establishes CastleOk except for the rank of the kings.
  lemma CastleFitsIff(st: State)
    requires KingAt(st.board, WHITE, KingSquare(st.board, WHITE)) && KingAt(st.board, BLACK, KingSquare(st.board, BLACK))
    ensures CastleOk(st) <==>
            CastleFits(st.board, st.castle) &&
            forall c: Color :: st.castle * Army(st.board, c) != {} ==> RankOf(KingSquare(st.board, c)) == HomeRank(c)
  {
    hide KingSquare, RankOf, FileOf, RooksFit, KingAt, CastleRookOk;
    var b := st.board;
    var ww, bb := st.castle * Army(b, WHITE), st.castle * Army(b, BLACK);
    if forall r: Square :: r in st.castle ==> r in HomeRooks(b, WHITE) || r in HomeRooks(b, BLACK) {
      OwnHome(b, st.castle, WHITE);
      OwnHome(b, st.castle, BLACK);
      RooksFitIff(b, WHITE, ww, KingSquare(b, WHITE));
      RooksFitIff(b, BLACK, bb, KingSquare(b, BLACK));
      CastleOkBySide(st);
      BothColors(st);
    } else {
      if CastleOk(st) {
        forall r: Square | r in st.castle ensures r in HomeRooks(b, WHITE) || r in HomeRooks(b, BLACK) {
          CastleRookHome(b, KingSquare(b, b[r].color), b[r].color, r);
        }
      }
    }
  }

  lemma BothColors(st: State)
    ensures (forall c: Color :: st.castle * Army(st.board, c) != {} ==> RankOf(KingSquare(st.board, c)) == HomeRank(c)) <==>
            (st.castle * Army(st.board, WHITE) == {} || RankOf(KingSquare(st.board, WHITE)) == HomeRank(WHITE)) &&
            (st.castle * Army(st.board, BLACK) == {} || RankOf(KingSquare(st.board, BLACK)) == HomeRank(BLACK))
  {
    hide KingSquare, RankOf, HomeRank, Army;
  }

  lemma CastleRookHome(b: Board, k: Square, c: Color, r: Square)
    requires CastleRookOk(b, k, c, r)
    ensures r in HomeRooks(b, c) && (c == WHITE || c == BLACK)
  {}

  lemma OwnHome(b: Board, castle: Bitboard, c: Color)
    requires forall r: Square :: r in castle ==> r in HomeRooks(b, WHITE) || r in HomeRooks(b, BLACK)
    ensures forall r: Square :: r in castle * Army(b, c) ==> r in HomeRooks(b, c)
  {
    hide RankOf, HomeRank;
  }

  lemma CastleOkBySide(st: State)
    requires forall r: Square :: r in st.castle ==> r in HomeRooks(st.board, WHITE) || r in HomeRooks(st.board, BLACK)
    ensures CastleOk(st) <==>
            RooksOk(st.board, WHITE, st.castle * Army(st.board, WHITE), KingSquare(st.board, WHITE)) &&
            RooksOk(st.board, BLACK, st.castle * Army(st.board, BLACK), KingSquare(st.board, BLACK))
  {
    hide KingSquare, RankOf, HomeRank, CastleRookOk;
    var b := st.board;
    if CastleOk(st) {
      forall c: Color ensures RooksOk(b, c, st.castle * Army(b, c), KingSquare(b, c)) { assert c == WHITE || c == BLACK; }
    }
    if RooksOk(b, WHITE, st.castle * Army(b, WHITE), KingSquare(b, WHITE)) && RooksOk(b, BLACK, st.castle * Army(b, BLACK), KingSquare(b, BLACK)) {
      forall c: Color ensures RooksOk(b, c, st.castle * Army(b, c), KingSquare(b, c)) { assert c == WHITE || c == BLACK; }
      forall r: Square | r in st.castle
        ensures b[r].Man? && CastleRookOk(b, KingSquare(b, b[r].color), b[r].color, r)
      {
        assert r in st.castle * Army(b, b[r].color);
      }
      forall r: Square, q: Square | r in st.castle && q in st.castle && b[r] == b[q] && b[r].Man? && SameSide(KingSquare(b, b[r].color), r, q)
        ensures q == r
      {
        assert r in st.castle * Army(b, b[r].color) && q in st.castle * Army(b, b[r].color);
      }
    }
  }

  lemma KingsNotTouching(st: State)
    requires WellFormed(st)
    ensures !KingHit(KingSquare(st.board, st.turn), KingSquare(st.board, Opposite(st.turn)))
  {
    hide WellFormed, KingHit, KingSquare;
    KingsOk(st, st.turn);
    KingsOk(st, Opposite(st.turn));
    NotInCheckBefore(st);
    InCheckKing(st.board, Opposite(st.turn), Ks(st, Opposite(st.turn)));
    var k, k2 := Ks(st, st.turn), Ks(st, Opposite(st.turn));
    OppositeTwice(st.turn);
    assert Owned(st.board, st.turn, k);
    assert KingHit(k, k2) ==> Hits(st.board, k, k2);
  }

  lemma WellFormedVerified(st: State)
    requires WellFormed(st)
    ensures Verified(st)
  {
    hide WellFormed, CastleOk, CastleFits, KingSquare, RankOf, FileOf, Men;
    KingsOk(st, WHITE);
    KingsOk(st, BLACK);
    OneKingIs(st.board, WHITE, Ks(st, WHITE));
    OneKingIs(st.board, BLACK, Ks(st, BLACK));
    CastleBefore(st);
    CastleFitsIff(st);
    CountsBefore(st, WHITE);
    CountsBefore(st, BLACK);
    PawnRanksBefore(st);
    EpFitsBefore(st);
  }

  lemma EpFitsBefore(st: State)
    requires WellFormed(st)
    ensures EpFits(st.board, st.turn, st.ep)
  {
    hide WellFormed, InCheck, RankOf;
    WellFormedEp(st);
  }

  // ---- The whole text -------------------------------------------------------------------------------------

  lemma FieldsRoundTrip(z: Tables, p: Pos)
    requires Sound(p, z)
    ensures FenFields(FenTokens(p), p.chess960) ==
            if p.rule50 < 100 && p.fullMove >= 1 then Read(Parsed(StateOf(p), p.rule50, p.fullMove, p.chess960)) else Failed(Refused)
  {
    hide Sound, BoardOf, WellFormed, Derived, KeyOf, Placement, CastlingNamed, Detect960, PlacementText, CastleText, SquareName, SquareNamed, ScannedUint, Digits, Represents, Orthodox;
    SoundParts(p, z);
    PlacementRoundTrip(BoardOf(p));
    CastlingRoundTrip(z, p);
    DetectRoundTrip(z, p);
    SquareNameRoundTrip(p.epSquare);
    LastFieldsRoundTrip(z, p);
    hide LastFields;
    assert p.turn == WHITE || p.turn == BLACK;
  }

  lemma DetectRoundTrip(z: Tables, p: Pos)
    requires Sound(p, z)
    ensures Detect960(BoardOf(p), p.castleRooks, p.chess960) == Read(p.chess960)
  {
    hide Sound, BoardOf, WellFormed, Derived, KeyOf, Represents, Orthodox, Men;
    SoundParts(p, z);
    if !p.chess960 { hide Detect960; OrthodoxDetected(StateOf(p), p.castleRooks); }
  }

  lemma LastFieldsRoundTrip(z: Tables, p: Pos)
    requires Sound(p, z)
    ensures LastFields(FenTokens(p), BoardOf(p), p.turn, p.castleRooks, p.chess960) ==
            if p.rule50 < 100 && p.fullMove >= 1 then Read(Parsed(StateOf(p), p.rule50, p.fullMove, p.chess960)) else Failed(Refused)
  {
    hide Sound, BoardOf, WellFormed, Derived, KeyOf, PlacementText, CastleText, SquareName, SquareNamed, ScannedUint, Digits, Represents, Orthodox;
    SoundParts(p, z);
    SquareNameRoundTrip(p.epSquare);
    ScannedDigits(p.rule50, 255);
    ScannedDigits(p.fullMove, 65535);
  }

  // FEN round trip: the text of a position is accepted exactly when its counters are in the reader's range
  // and it has no more than two checkers, and then every field is restored.
  lemma FenIsLossless(z: Tables, p: Pos)
    requires Sound(p, z)
    ensures FenMeaning(FenTokens(p), p.chess960) ==
            if !(p.rule50 < 100 && p.fullMove >= 1) then Failed(Refused)
            else if |p.checkers| > 2 then Failed(AssertFails)
            else Read(Parsed(StateOf(p), p.rule50, p.fullMove, p.chess960))
  {
    hide Sound, BoardOf, WellFormed, KeyOf, FenFields, FenTokens, Represents, Verified, KingHit, KingSquare, PinSet, AttackedSet, CheckerSet, Orthodox;
    SoundParts(p, z);
    FieldsRoundTrip(z, p);
    WellFormedVerified(StateOf(p));
    KingsNotTouching(StateOf(p));
  }

  lemma FenTokensAreWords(z: Tables, p: Pos)
    requires Sound(p, z)
    ensures p.rule50 >= 0 && p.fullMove >= 0 && |FenTokens(p)| == 6
    ensures forall i: int :: 0 <= i < |FenTokens(p)| ==> Word(FenTokens(p)[i])
  {
    hide Sound, BoardOf, WellFormed, Derived, KeyOf, PlacementText, CastleText, SquareName, Digits, Represents, Orthodox;
    SoundParts(p, z);
    PlacementWord(BoardOf(p), 7);
    CastlingRoundTrip(z, p);
    SquareWord(p.epSquare);
    DigitsWord(p.rule50);
    DigitsWord(p.fullMove);
  }

  lemma SquareWord(s: OptSquare)
    ensures Word(SquareName(s))
  {
    if s != NO_SQUARE {
      CoordsRange(s);
      CoordChars(FileOf(s));
      CoordChars(RankOf(s));
    }
  }

  lemma DigitsWord(n: nat)
    ensures Word(Digits(n))
  {
    DigitsAreDigits(n);
  }
}
