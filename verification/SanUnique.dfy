/** The text of src/position.c:579-675 identifies the move: two legal moves of a position never share it. */
module SanUnique {
  import opened Geometry
  import opened Rules
  import opened MoveGenExact
  import opened Preservation
  import opened PositionClass
  import opened Lan
  import opened San

  lemma SplitTail(x: string, a: string, y: string, b: string)
    requires x + a == y + b && |a| == |b|
    ensures x == y && a == b
  {
    assert |x| == |y|;
    assert x == (x + a)[..|x|] && y == (y + b)[..|y|];
    assert a == (x + a)[|x|..] && b == (y + b)[|y|..];
  }

  lemma SplitHead(x: string, a: string, y: string, b: string)
    requires x + a == y + b && |x| == |y|
    ensures x == y && a == b
  {
    SplitTail(x, a, y, b);
  }

  lemma NameTells(s: Square, t: Square)
    requires SquareName(s) == SquareName(t)
    ensures s == t
  {
    SquareNameRoundTrip(s);
    SquareNameRoundTrip(t);
  }

  lemma CoordTexts(s: Square, t: Square)
    ensures FileText(s) == FileText(t) ==> FileOf(s) == FileOf(t)
    ensures RankText(s) == RankText(t) ==> RankOf(s) == RankOf(t)
    ensures FileText(s) != RankText(t)
    ensures 'a' <= FileText(s) <= 'h' && '1' <= RankText(s) <= '8'
  {
    hide RankOf, FileOf;
    CoordsRange(s);
    CoordsRange(t);
  }

  lemma SameCoords(s: Square, t: Square)
    requires FileOf(s) == FileOf(t) && RankOf(s) == RankOf(t)
    ensures s == t
  {}

  lemma LetterTells(p: Piece, q: Piece)
    requires Letter(p) == Letter(q)
    ensures p == q
  {}

  lemma LetterIsNoFile(p: Piece, s: Square)
    ensures Letter(p) != FileText(s) && Letter(p) != 'O'
    ensures FileText(s) != 'O'
  {
    CoordTexts(s, s);
  }

  // ---- The first character tells the kind of man ----------------------------------------------------------

  ghost function PieceText(st: State, m: Move): string
    requires st.board[m.from].Man?
  {
    (if st.board[m.from].piece == KING then "" else Disambiguation(st, m)) + Cross(Captures(st, m)) + SquareName(m.to)
  }

  lemma SanForms(st: State, m: Move)
    requires st.board[m.from].Man?
    ensures st.board[m.from].piece == PAWN ==> StandardSan(st, m) == PawnText(st, m)
    ensures st.board[m.from].piece != PAWN && IsCastling(st, m) ==>
              StandardSan(st, m) == if m.to > m.from then "O-O" else "O-O-O"
    ensures st.board[m.from].piece != PAWN && !IsCastling(st, m) ==>
              StandardSan(st, m) == [Letter(st.board[m.from].piece)] + PieceText(st, m)
    ensures st.board[m.from].piece != PAWN ==>
              |StandardSan(st, m)| > 0 && StandardSan(st, m)[0] == if IsCastling(st, m) then 'O' else Letter(st.board[m.from].piece)
  {
    hide Disambiguation, SquareName, Captures, PawnText, IsCastling;
    if st.board[m.from].piece != PAWN && !IsCastling(st, m) {
      var d := if st.board[m.from].piece == KING then "" else Disambiguation(st, m);
      Regroup([Letter(st.board[m.from].piece)], d, Cross(Captures(st, m)), SquareName(m.to));
    }
  }

  lemma Regroup(a: string, b: string, c: string, d: string)
    ensures a + b + c + d == a + (b + c + d)
  {}

  lemma PawnTextHead(st: State, m: Move)
    requires !Captures(st, m) ==> FileOf(m.to) == FileOf(m.from)
    ensures |PawnText(st, m)| >= 2 && PawnText(st, m)[0] == FileText(m.from)
    ensures (PawnText(st, m)[1] == 'x') == Captures(st, m)
  {
    hide Captures, RankOf, FileOf;
    CoordsRange(m.from);
    CoordsRange(m.to);
    CoordTexts(m.to, m.to);
  }

  // ---- Pieces ---------------------------------------------------------------------------------------------

  // Capturing is a matter of the target square alone.
  lemma SameCapture(st: State, m: Move, n: Move)
    requires st.board[m.from].Man? && st.board[m.from].piece != PAWN && st.board[n.from] == st.board[m.from] && m.to == n.to
    ensures Captures(st, m) == Captures(st, n)
  {}

  // A competing mover is a rival, so the disambiguation does tell the two apart.
  lemma DisambiguationTells(st: State, m: Move, n: Move)
    requires Legal(st, n) && Legal(st, m) && m.to == n.to && m.prom == n.prom == NO_PIECE && st.board[m.from] == st.board[n.from]
    requires Disambiguation(st, m) == Disambiguation(st, n)
    ensures m.from == n.from
  {
    hide Legal, RankOf, FileOf, FileText, RankText;
    CoordTexts(m.from, n.from);
    CoordTexts(n.from, m.from);
    if m.from != n.from {
      assert Rival(st, m, n.from) && Rival(st, n, m.from) by {
        assert m == Move.Move(m.from, n.to, NO_PIECE) && n == Move.Move(n.from, m.to, NO_PIECE);
      }
      if FileOf(m.from) == FileOf(n.from) && RankOf(m.from) == RankOf(n.from) { SameCoords(m.from, n.from); }
    }
  }

  lemma PieceProm(st: State, m: Move)
    requires Legal(st, m) && st.board[m.from].Man? && st.board[m.from].piece != PAWN
    ensures m.prom == NO_PIECE
  {
    hide Hits, InCheck, Attacked, PlayBoard, PawnHit, RelativeRank, KingDest, RookDest;
  }

  lemma PieceTextTells(st: State, m: Move, n: Move)
    requires WellFormed(st) && Legal(st, m) && Legal(st, n) && st.board[m.from].Man? && st.board[m.from] == st.board[n.from]
    requires Owned(st.board, st.turn, m.from) && st.board[m.from].piece != PAWN && PieceText(st, m) == PieceText(st, n)
    ensures m == n
  {
    hide WellFormed, Legal, Disambiguation, SquareName, Captures;
    SquareNameRoundTrip(m.to);
    SquareNameRoundTrip(n.to);
    var king := st.board[m.from].piece == KING;
    var d, e := if king then "" else Disambiguation(st, m), if king then "" else Disambiguation(st, n);
    SplitTail(d + Cross(Captures(st, m)), SquareName(m.to), e + Cross(Captures(st, n)), SquareName(n.to));
    NameTells(m.to, n.to);
    SameCapture(st, m, n);
    SplitTail(d, Cross(Captures(st, m)), e, Cross(Captures(st, n)));
    PieceProm(st, m);
    PieceProm(st, n);
    if king {
      SameKing(st, m.from, n.from);
    } else {
      DisambiguationTells(st, m, n);
    }
  }

  lemma SameKing(st: State, k: Square, l: Square)
    requires WellFormed(st) && Owned(st.board, st.turn, k) && st.board[k].piece == KING && st.board[l] == st.board[k]
    ensures k == l
  {
    hide WellFormed;
    KingsOk(st, st.turn);
  }

  // ---- Castling -------------------------------------------------------------------------------------------

  lemma CastlingTells(st: State, m: Move, n: Move)
    requires WellFormed(st) && Castling(st, m) && Castling(st, n) && (m.to > m.from) == (n.to > n.from)
    ensures m == n
  {
    hide WellFormed, Castling, CastleRookOk, KingDest, RookDest, RankOf, FileOf, Attacked;
    CastlingForm(st, m);
    CastlingForm(st, n);
    CastlingMove(st, m);
    CastlingMove(st, n);
    CastleBefore(st);
    CastleRookBefore(st, m.to);
    CastleRookBefore(st, n.to);
    assert SameSide(Ks(st, st.turn), m.to, n.to);
  }

  lemma CastlingMove(st: State, m: Move)
    requires Castling(st, m)
    ensures m.prom == NO_PIECE && m.to in st.castle && Owned(st.board, st.turn, m.to)
  {
    hide Attacked, KingDest, RookDest;
  }

  // ---- Pawns ----------------------------------------------------------------------------------------------

  predicate Push(st: State, m: Move) { SinglePush(st, m) || DoublePush(st, m) }

  predicate Strike(st: State, m: Move) { OwnPawn(st, m.from) && PawnHit(Up(st.turn), m.from, m.to) }

  lemma PawnForms(st: State, m: Move)
    requires WellFormed(st) && Legal(st, m) && st.board[m.from] == Man(st.turn, PAWN)
    ensures if Captures(st, m) then Strike(st, m) else Push(st, m)
  {
    hide WellFormed, Legal, PawnHit, RelativeRank, Castling, PlayBoard, PieceMove, Ordinary, PromotionFits;
    LegalMover(st, m);
    if OrdinaryPawnMove(st, m) {
      WellFormedEp(st);
      PawnNotEp(st, m);
    }
  }

  lemma StrikesFromOneFile(c: Color, a: Square, b: Square, to: Square)
    requires PawnHit(Up(c), a, to) && PawnHit(Up(c), b, to) && FileOf(a) == FileOf(b)
    ensures a == b
  {}

  // A single and a double push to one square exclude each other: the pawn of the first would block the second.
  lemma PushesTo(st: State, m: Move, n: Move)
    requires Push(st, m) && Push(st, n) && m.to == n.to
    ensures m.from == n.from
  {
    hide PushInc, RelativeRank;
  }

  lemma PromotionTells(st: State, m: Move, n: Move)
    requires m.prom <= NO_PIECE && n.prom <= NO_PIECE && PromotionText(m.prom) == PromotionText(n.prom)
    ensures m.prom == n.prom
  {
    if m.prom < NO_PIECE && n.prom < NO_PIECE {
      assert PromotionText(m.prom)[1] == PromotionText(n.prom)[1];
      LetterTells(m.prom, n.prom);
    }
  }

  lemma PawnTextTells(st: State, m: Move, n: Move)
    requires WellFormed(st) && Legal(st, m) && Legal(st, n)
    requires st.board[m.from] == Man(st.turn, PAWN) == st.board[n.from] && PawnText(st, m) == PawnText(st, n)
    ensures m == n
  {
    hide WellFormed, Legal, Captures, SquareName, PromotionText, Push, FileText, RankOf, FileOf, PawnHit;
    PushFile(st, m);
    PushFile(st, n);
    PawnTextHead(st, m);
    PawnTextHead(st, n);
    PawnForms(st, m);
    PawnForms(st, n);
    var c, d := if Captures(st, m) then [FileText(m.from), 'x'] else "", if Captures(st, n) then [FileText(n.from), 'x'] else "";
    SquareNameRoundTrip(m.to);
    SquareNameRoundTrip(n.to);
    SplitHead(c + SquareName(m.to), PromotionText(m.prom), d + SquareName(n.to), PromotionText(n.prom));
    SplitHead(c, SquareName(m.to), d, SquareName(n.to));
    NameTells(m.to, n.to);
    PromotionTells(st, m, n);
    if Captures(st, m) {
      CoordTexts(m.from, n.from);
      StrikesFromOneFile(st.turn, m.from, n.from, m.to);
    } else {
      PushesTo(st, m, n);
    }
  }

  // ---- All moves ------------------------------------------------------------------------------------------

  lemma KindTells(st: State, m: Move, n: Move)
    requires WellFormed(st) && Legal(st, m) && Legal(st, n) && StandardSan(st, m) == StandardSan(st, n)
    requires st.board[m.from].Man? && st.board[n.from].Man? && Owned(st.board, st.turn, m.from) && Owned(st.board, st.turn, n.from)
    ensures st.board[m.from].piece == PAWN <==> st.board[n.from].piece == PAWN
    ensures st.board[m.from].piece != PAWN ==> (IsCastling(st, m) <==> IsCastling(st, n))
    ensures st.board[m.from].piece != PAWN && !IsCastling(st, m) ==>
              st.board[m.from] == st.board[n.from] && PieceText(st, m) == PieceText(st, n)
    ensures IsCastling(st, m) && IsCastling(st, n) ==> (m.to > m.from) == (n.to > n.from)
  {
    hide WellFormed, Legal, StandardSan, PawnText, PieceText, IsCastling, FileText, Letter;
    SanForms(st, m);
    SanForms(st, n);
    if st.board[m.from].piece == PAWN { PushFile(st, m); PawnTextHead(st, m); }
    if st.board[n.from].piece == PAWN { PushFile(st, n); PawnTextHead(st, n); }
    LetterIsNoFile(st.board[m.from].piece, n.from);
    LetterIsNoFile(st.board[n.from].piece, m.from);
    CastlingIsKing(st, m);
    CastlingIsKing(st, n);
    if st.board[m.from].piece != PAWN && !IsCastling(st, m) && st.board[n.from].piece != PAWN && !IsCastling(st, n) {
      SplitHead([Letter(st.board[m.from].piece)], PieceText(st, m), [Letter(st.board[n.from].piece)], PieceText(st, n));
      LetterTells(st.board[m.from].piece, st.board[n.from].piece);
    }
  }

  lemma CastlingIsKing(st: State, m: Move)
    ensures IsCastling(st, m) ==> st.board[m.from] == Man(st.turn, KING) && Owned(st.board, st.turn, m.to) && KING != PAWN
  {}

  lemma SanUnambiguous(st: State, m: Move, n: Move)
    requires WellFormed(st) && Legal(st, m) && Legal(st, n) && StandardSan(st, m) == StandardSan(st, n)
    ensures m == n
  {
    hide *;
    LegalMover(st, m);
    LegalMover(st, n);
    OwnedMan(st, m.from);
    OwnedMan(st, n.from);
    KindTells(st, m, n);
    SanForms(st, m);
    SanForms(st, n);
    if st.board[m.from].piece == PAWN {
      PawnTextTells(st, m, n);
    } else if IsCastling(st, m) {
      CastlingIsKing(st, m);
      CastlingIsKing(st, n);
      NotOwnUnlessCastling(st, m);
      NotOwnUnlessCastling(st, n);
      CastlingTells(st, m, n);
    } else {
      PieceTextTells(st, m, n);
    }
  }

  lemma OwnedMan(st: State, s: Square)
    requires Owned(st.board, st.turn, s)
    ensures st.board[s] == Man(st.turn, st.board[s].piece)
  {}
}
