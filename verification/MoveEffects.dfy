/** What a legal move does, square by square and in plain numbers: the men (src/position.c:408-464), the en-passant
    square (435-441) and, over whole runs, the castling rights (417-452). */
module MoveEffects {
  import opened Geometry
  import opened Rules
  import opened Legality
  import opened MoveGenExact
  import opened Preservation
  import opened PositionClass
  import opened Runs

  // ---- Men -----------------------------------------------------------------------------------------------

  // King and rook end on the g- and f-files or on the c- and d-files of their home rank, wherever they came from.
  lemma CastlingMoves(st: State, m: Move)
    requires WellFormed(st) && Castling(st, m)
    ensures var home := if st.turn == WHITE then 0 else 56;
            home <= m.from < home + 8 && home <= m.to < home + 8 && st.board[m.from] == Man(st.turn, KING) && st.board[m.to] == Man(st.turn, ROOK) &&
            forall s: Square :: PlayBoard(st, m)[s] ==
              if s == home + (if m.to > m.from then 6 else 2) then Man(st.turn, KING)
              else if s == home + (if m.to > m.from then 5 else 3) then Man(st.turn, ROOK)
              else if s == m.from || s == m.to then Empty
              else st.board[s]
  {
    hide WellFormed, Castling, PlayBoard, KingSquare, KingDest, RookDest, WaysClear, RankOf, FileOf, Ordinary, EnPassant;
    CastlingForm(st, m);
    Destinations(st.turn, m.from, m.to);
  }

  lemma Destinations(c: Color, k: Square, r: Square)
    requires RankOf(k) == RankOf(r) == HomeRank(c)
    ensures var home := if c == WHITE then 0 else 56;
            home <= k < home + 8 && home <= r < home + 8 && KingDest(k, r) == home + (if r > k then 6 else 2) && RookDest(k, r) == home + (if r > k then 5 else 3)
  {
    assert c == WHITE || c == BLACK;
  }

  // Any other legal move takes the man from one square to another, promoted if it says so; a pawn that lands on the
  // en-passant square takes the pawn that passed it; nothing else changes.
  lemma OtherMoves(st: State, m: Move)
    requires WellFormed(st) && Legal(st, m) && !Owned(st.board, st.turn, m.to)
    ensures st.board[m.from].Man? && st.board[m.from].color == st.turn
    ensures forall s: Square :: PlayBoard(st, m)[s] ==
              if s == m.from then Empty
              else if s == m.to then Man(st.turn, if m.prom < NO_PIECE then m.prom else st.board[m.from].piece)
              else if st.board[m.from].piece == PAWN && m.to == st.ep && s == (if st.turn == WHITE then m.to - 8 else m.to + 8) then Empty
              else st.board[s]
  {
    hide WellFormed, Legal, Castling, PlayBoard, Ordinary, EnPassant, OrdinaryPawnMove, PieceMove, Hits;
    LegalMover(st, m);
    LegalCases(st, m);
    assert st.turn == WHITE || st.turn == BLACK;
    if Castling(st, m) {
      CastlingOwn(st, m);
    } else if Ordinary(st, m) {
      WellFormedEp(st);
      OrdinaryFacts(st, m);
      OrdinaryNotEp(st, m);
    } else {
      EnPassantForm(st, m);
      EnPassantPlain(st, m);
    }
  }

  lemma OrdinaryNotEp(st: State, m: Move)
    requires WellFormed(st) && Ordinary(st, m) && !IsEnPassant(st, m)
    ensures !(st.board[m.from] == Man(st.turn, PAWN) && m.to == st.ep)
  {
    WellFormedEp(st);
    hide WellFormed, Ordinary, CastleOk;
  }

  lemma EnPassantPlain(st: State, m: Move)
    requires EnPassant(st, m)
    ensures m.to == st.ep && m.prom == NO_PIECE
  {}

  predicate InReach(a: int, x: int, b: int) { a <= x <= b || b <= x <= a }

  // When castling is possible, in square numbers: the ways of king and rook are empty but for these two, and no square
  // of the king's way is attacked.
  lemma CastlingMeans(st: State, m: Move)
    requires WellFormed(st)
    ensures var home := if st.turn == WHITE then 0 else 56;
            var king, rook := home + (if m.to > m.from then 6 else 2), home + (if m.to > m.from then 5 else 3);
            Castling(st, m) <==>
              st.board[m.from] == Man(st.turn, KING) && m.to in st.castle && Owned(st.board, st.turn, m.to) && m.prom == NO_PIECE &&
              (forall x: Square :: x != m.from && x != m.to && (InReach(m.from, x, king) || InReach(m.to, x, rook)) ==> st.board[x] == Empty) &&
              forall x: Square :: InReach(m.from, x, king) ==> !Attacked(st.board, Opposite(st.turn), x)
  {
    hide WellFormed, KingSquare, KingDest, RookDest, RankOf, FileOf, OnWay, InReach, Attacked, Castling, WaysClear;
    CastlingUnfold(st, m);
    if st.board[m.from] == Man(st.turn, KING) && m.to in st.castle && Owned(st.board, st.turn, m.to) {
      CastleRookBefore(st, m.to);
      KingsOk(st, st.turn);
      assert m.from == KingSquare(st.board, st.turn);
      Destinations(st.turn, m.from, m.to);
      var king, rook := KingDest(m.from, m.to), RookDest(m.from, m.to);
      forall x: Square ensures OnWay(m.from, x, king) <==> InReach(m.from, x, king) { OnHomeWay(st.turn, m.from, x, king); }
      forall x: Square ensures OnWay(m.to, x, rook) <==> InReach(m.to, x, rook) { OnHomeWay(st.turn, m.to, x, rook); }
      WaysClearIs(st.board, m.from, m.to);
    }
  }

  lemma WaysClearIs(b: Board, k: Square, r: Square)
    ensures WaysClear(b, k, r) <==>
            forall x: Square :: (OnWay(k, x, KingDest(k, r)) || OnWay(r, x, RookDest(k, r))) && x != k && x != r ==> b[x] == Empty
  {
    hide OnWay, KingDest, RookDest;
  }

  lemma OnHomeWay(c: Color, a: Square, x: Square, b: Square)
    requires var home := if c == WHITE then 0 else 56; home <= a < home + 8 && home <= b < home + 8
    ensures OnWay(a, x, b) <==> InReach(a, x, b)
  {
    OnWayOnRank(a, x, b);
    hide OnWay;
  }

  lemma PromotionFitsIff(st: State, m: Move)
    requires WellFormed(st) && PseudoLegal(st, m)
    ensures st.board[m.from] == Man(st.turn, PAWN) && RelativeRank(st.turn, m.to) == 7 <==> m.prom != NO_PIECE
    ensures m.prom != NO_PIECE ==> m.prom <= QUEEN && (SinglePush(st, m) || PawnCapture(st, m))
  {
    hide WellFormed, Hits, Attacked, Castling, EpOk;
    WellFormedEp(st);
    if Castling(st, m) { CastlingPlain(st, m); }
    if DoublePush(st, m) { assert RelativeRank(st.turn, m.to) == 3; }
    if EnPassant(st, m) { EpBeforeLast(st); }
  }

  lemma EpBeforeLast(st: State)
    requires WellFormed(st) && st.ep != NO_SQUARE
    ensures RelativeRank(st.turn, st.ep) == 5
  {
    hide WellFormed, InCheck;
    WellFormedEp(st);
  }

  lemma CastlingPlain(st: State, m: Move)
    requires Castling(st, m)
    ensures st.board[m.from] == Man(st.turn, KING) && m.prom == NO_PIECE
  {
    hide Attacked, KingDest, RookDest;
  }

  // What stands on a square does not matter to the own king, as long as it is an own man.
  lemma OwnManBlocks(b: Board, s: Square, us: Color, q: Piece)
    requires b[s].Man? && b[s].color == us && b[s].piece != KING && q != KING
    ensures InCheck(b[s := Man(us, q)], us) <==> InCheck(b, us)
  {
    var b2 := b[s := Man(us, q)];
    hide KnightHit, KingHit, PawnHit, LineFits, Between;
    forall e: Square, t: Square | Owned(b, Opposite(us), e) ensures Hits(b2, e, t) <==> Hits(b, e, t) {
      assert ClearPath(b2, e, t) <==> ClearPath(b, e, t);
    }
    forall t: Square ensures Attacked(b2, Opposite(us), t) <==> Attacked(b, Opposite(us), t) { SameAttack(b, b2, us, t); }
    hide Attacked;
  }

  lemma SameAttack(b: Board, b2: Board, us: Color, t: Square)
    requires forall e: Square :: Owned(b2, Opposite(us), e) <==> Owned(b, Opposite(us), e)
    requires forall e: Square :: Owned(b, Opposite(us), e) ==> (Hits(b2, e, t) <==> Hits(b, e, t))
    ensures Attacked(b2, Opposite(us), t) <==> Attacked(b, Opposite(us), t)
  {
    hide Hits;
  }

  // A pawn that reaches the last rank may become any of knight, bishop, rook and queen, and must become one; no other
  // move promotes.
  lemma PromotionsInFours(st: State, m: Move, p: Piece)
    requires WellFormed(st) && Legal(st, m)
    ensures var last := st.board[m.from] == Man(st.turn, PAWN) && (if st.turn == WHITE then m.to >= 56 else m.to < 8);
            (last <==> m.prom != NO_PIECE) && (last ==> m.prom <= QUEEN && (Legal(st, m.(prom := p)) <==> p <= QUEEN))
  {
    hide WellFormed, PlayBoard, InCheck, PseudoLegal, RelativeRank;
    var m2 := m.(prom := p);
    PromotionFitsIff(st, m);
    LastRank(st.turn, m.to);
    if m.prom != NO_PIECE {
      if p <= QUEEN { OtherPromotion(st, m, p); }
      if PseudoLegal(st, m2) { PromotionFitsIff(st, m2); }
    }
  }

  lemma OtherPromotion(st: State, m: Move, p: Piece)
    requires WellFormed(st) && Legal(st, m) && m.prom <= QUEEN && p <= QUEEN && (SinglePush(st, m) || PawnCapture(st, m))
    ensures Legal(st, m.(prom := p))
  {
    hide WellFormed, InCheck, PlayBoard, PawnHit, RelativeRank;
    var m2 := m.(prom := p);
    assert PseudoLegal(st, m2);
    OrdinaryBoard(st, m);
    OrdinaryBoard(st, m2);
    OwnManBlocks(PlayBoard(st, m), m.to, st.turn, p);
    assert PlayBoard(st, m2) == PlayBoard(st, m)[m.to := Man(st.turn, p)];
  }

  lemma OrdinaryBoard(st: State, m: Move)
    requires WellFormed(st) && m.prom <= QUEEN && (SinglePush(st, m) || PawnCapture(st, m))
    ensures PlayBoard(st, m) == st.board[m.from := Empty][m.to := Man(st.turn, m.prom)] && m.from != m.to
  {
    hide WellFormed, PlayBoard, PawnHit, RelativeRank, EpOk;
    WellFormedEp(st);
    assert OrdinaryPawnMove(st, m) && Ordinary(st, m);
    OrdinaryFacts(st, m);
  }

  lemma LastRank(c: Color, s: Square)
    ensures RelativeRank(c, s) == 7 <==> if c == WHITE then s >= 56 else s < 8
  {
    assert c == WHITE || c == BLACK;
  }

  // The army of colour c has lost a man.
  predicate ManLost(before: Board, after: Board, c: Color) { exists s: Square :: Owned(before, c, s) && !Owned(after, c, s) }

  // Of all moves but castling, exactly those that land on an enemy man or capture en passant take a man.
  lemma ManLostIff(st: State, m: Move)
    requires WellFormed(st) && Legal(st, m) && !Owned(st.board, st.turn, m.to)
    ensures ManLost(st.board, PlayBoard(st, m), Opposite(st.turn)) <==>
              st.board[m.to] != Empty || (st.board[m.from] == Man(st.turn, PAWN) && m.to == st.ep)
  {
    hide WellFormed, Legal, PlayBoard;
    OtherMoves(st, m);
    WellFormedEp(st);
    var c, b, a := Opposite(st.turn), st.board, PlayBoard(st, m);
    assert st.turn == WHITE || st.turn == BLACK;
    if b[m.to] != Empty {
      assert Owned(b, c, m.to) && !Owned(a, c, m.to);
    } else if b[m.from] == Man(st.turn, PAWN) && m.to == st.ep {
      var cap := if st.turn == WHITE then m.to - 8 else m.to + 8;
      assert Owned(b, c, cap) && !Owned(a, c, cap);
    }
  }

  // The fifty-move counter starts again with every move of a pawn, every capture and (unlike the Laws) castling.
  lemma ResetsIff(st: State, m: Move)
    requires WellFormed(st) && Legal(st, m)
    ensures Resets(st, m) <==>
              st.board[m.from] == Man(st.turn, PAWN) || Owned(st.board, st.turn, m.to) || ManLost(st.board, PlayBoard(st, m), Opposite(st.turn))
  {
    hide WellFormed, Legal, PlayBoard, ManLost;
    if !Owned(st.board, st.turn, m.to) { ManLostIff(st, m); }
  }

  // ---- En passant ----------------------------------------------------------------------------------------

  // An enemy pawn stands beside s on the same rank.
  predicate PawnBeside(b: Board, c: Color, s: Square)
  {
    (s % 8 != 0 && b[s - 1] == Man(c, PAWN)) || (s % 8 != 7 && b[s + 1] == Man(c, PAWN))
  }

  // The en-passant square appears exactly when a pawn has gone two ranks and an enemy pawn stands beside it.
  lemma EpAppears(st: State, m: Move)
    requires WellFormed(st) && Legal(st, m)
    ensures var two := st.board[m.from] == Man(st.turn, PAWN) && (m.to == m.from + 16 || m.to == m.from - 16);
            NextState(st, m).ep == if two && PawnBeside(st.board, Opposite(st.turn), m.to) then (m.from + m.to) / 2 else NO_SQUARE
  {
    hide WellFormed, Legal, PlayBoard, NextCastle, Castling, PieceMove, EnPassant, SinglePush, PawnCapture;
    LegalMover(st, m);
    if st.board[m.from] == Man(st.turn, PAWN) {
      TwoRanks(st, m);
      if IsDoublePush(st, m) {
        DoublePushOnly(st, m);
        Beside(st.board, st.turn, m.from, m.to);
      }
    }
  }

  lemma TwoRanks(st: State, m: Move)
    requires WellFormed(st) && Legal(st, m) && st.board[m.from] == Man(st.turn, PAWN)
    ensures IsDoublePush(st, m) <==> m.to == m.from + 16 || m.to == m.from - 16
  {
    hide WellFormed, Legal, PlayBoard, Castling, PieceMove, RelativeRank;
    LegalMover(st, m);
    assert st.turn == WHITE || st.turn == BLACK;
  }

  lemma Beside(b: Board, c: Color, from: Square, to: Square)
    requires to == from + 2 * PushInc(c) && 0 <= from + PushInc(c) < 64
    ensures PawnBeside(b, Opposite(c), to) <==>
            exists s: Square :: b[s] == Man(Opposite(c), PAWN) && PawnHit(Up(c), from + PushInc(c), s)
    ensures from + PushInc(c) == (from + to) / 2
  {
    hide PawnHit, PushInc, Up;
    PushMiddle(c, from, to);
    if s: Square :| b[s] == Man(Opposite(c), PAWN) && PawnHit(Up(c), from + PushInc(c), s) { BesideSquare(c, from, to, s); }
    if to % 8 != 0 { BesideSquare(c, from, to, to - 1); }
    if to % 8 != 7 { BesideSquare(c, from, to, to + 1); }
  }

  lemma PushMiddle(c: Color, from: Square, to: Square)
    requires to == from + 2 * PushInc(c)
    ensures from + PushInc(c) == (from + to) / 2
  {}

  lemma BesideSquare(c: Color, from: Square, to: Square, s: Square)
    requires to == from + 2 * PushInc(c) && 0 <= from + PushInc(c) < 64
    ensures PawnHit(Up(c), from + PushInc(c), s) <==> (s == to - 1 && to % 8 != 0) || (s == to + 1 && to % 8 != 7)
  {
    assert c == WHITE || c == BLACK;
  }

  // ---- Castling rights -----------------------------------------------------------------------------------

  // A move touches a castling rook: it moves the rook or its king, or takes the rook.
  predicate Touches(m: Move, r: Square, king: Square) { m.from == r || m.to == r || m.from == king }

  lemma RightAfterMove(st: State, m: Move, r: Square)
    requires WellFormed(st) && Legal(st, m) && r in st.castle
    ensures st.board[r].Man?
    ensures r in NextState(st, m).castle <==> !Touches(m, r, KingSquare(st.board, st.board[r].color))
    ensures r in NextState(st, m).castle ==>
              NextState(st, m).board[r] == st.board[r] &&
              KingSquare(NextState(st, m).board, st.board[r].color) == KingSquare(st.board, st.board[r].color)
  {
    hide WellFormed, Legal, PlayBoard, NextEp, KingSquare, RankOf, Castling;
    CastleRookBefore(st, r);
    LegalMover(st, m);
    var c := st.board[r].color;
    KingsOk(st, c);
    KingAtFact(st.board, c, Ks(st, c), m.from);
    RightMeans(st, m, r);
    if r in NextCastle(st, m) { CastleRookStays(st, m, r); }
  }

  lemma RightMeans(st: State, m: Move, r: Square)
    ensures NextState(st, m).castle == NextCastle(st, m) && NextState(st, m).board == PlayBoard(st, m)
    ensures r in NextState(st, m).castle <==>
              r in st.castle && r != m.from && r != m.to && !(st.board[m.from] == Man(st.turn, KING) && Owned(st.board, st.turn, r))
  {
    hide PlayBoard, NextEp;
  }

  // Over every run a castling rook keeps its right exactly as long as no move has touched it.
  lemma {:induction false} RightsOverRun(st: State, ms: seq<Move>, r: Square)
    requires WellFormed(st) && LegalRun(st, ms)
    ensures r in st.castle ==> st.board[r].Man?
    ensures r in After(st, ms).castle <==>
              r in st.castle && forall i: int :: 0 <= i < |ms| ==> !Touches(ms[i], r, KingSquare(st.board, st.board[r].color))
    ensures r in After(st, ms).castle ==>
              After(st, ms).board[r] == st.board[r] &&
              KingSquare(After(st, ms).board, st.board[r].color) == KingSquare(st.board, st.board[r].color)
    decreases |ms|
  {
    hide WellFormed, Legal, LegalRun, NextState, KingSquare, Touches, RankOf;
    if r in st.castle { CastleRookBefore(st, r); }
    if ms != [] {
      var n := |ms| - 1;
      LastStep(st, ms);
      RightsOverRun(st, ms[..n], r);
      RunKeepsWellFormed(st, ms[..n]);
      var before := After(st, ms[..n]);
      if r in before.castle { RightAfterMove(before, ms[n], r); } else { NoRightAgain(before, ms[n], r); }
    }
  }

  lemma NoRightAgain(st: State, m: Move, r: Square)
    requires r !in st.castle
    ensures r !in NextState(st, m).castle
  {
    hide PlayBoard, NextEp;
  }
}
