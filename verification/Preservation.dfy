/** Legal moves keep positions well formed: the invariant of every run of a game. */
module Preservation {
  import opened Geometry
  import opened Rules
  import opened Legality
  import opened MoveGenExact

  predicate Ordinary(st: State, m: Move) { PieceMove(st, m) || OrdinaryPawnMove(st, m) }

  lemma LegalCases(st: State, m: Move)
    requires Legal(st, m)
    ensures !InCheck(PlayBoard(st, m), st.turn)
    ensures Ordinary(st, m) || EnPassant(st, m) || Castling(st, m)
  {
    hide *;
    hide PieceMove;
    LegalUnfold(st, m);
    OrdinaryIs(st, m);
  }

  lemma OrdinaryIs(st: State, m: Move)
    ensures Ordinary(st, m) <==> PieceMove(st, m) || OrdinaryPawnMove(st, m)
  {
    hide PieceMove, OrdinaryPawnMove;
  }

  // What an ordinary move puts on its target square.
  function Placed(st: State, m: Move): Cell
  {
    if m.prom < NO_PIECE then Man(st.turn, m.prom) else st.board[m.from]
  }

  lemma OrdinaryFacts(st: State, m: Move)
    requires Ordinary(st, m) && EpOk(st)
    ensures PlayBoard(st, m) == st.board[m.from := Empty][m.to := Placed(st, m)]
    ensures m.from != m.to && Owned(st.board, st.turn, m.from) && !Owned(st.board, st.turn, m.to)
    ensures Placed(st, m).Man? && Placed(st, m).color == st.turn
    ensures st.board[m.to].Man? ==> Hits(st.board, m.from, m.to)
    ensures st.board[m.from].piece != PAWN ==> Placed(st, m) == st.board[m.from]
    ensures st.board[m.from].piece == PAWN ==>
              OrdinaryPawnMove(st, m) && (Placed(st, m) == st.board[m.from] || (m.prom <= QUEEN && Placed(st, m).piece <= QUEEN))
    ensures !IsCastling(st, m) && !IsEnPassant(st, m)
  {
    hide EpOk, InCheck, PawnHit, KnightHit, KingHit, ClearPath, RelativeRank;
    if OrdinaryPawnMove(st, m) {
      PawnNotEp(st, m);
      PawnReach(st, m);
    } else {
      NotOnItself(st.board, m.from);
    }
  }

  // ---- No king is ever captured --------------------------------------------------------------------------

  lemma NoKingCaptured(st: State, m: Move)
    requires WellFormed(st) && Ordinary(st, m)
    ensures st.board[m.to] != Man(Opposite(st.turn), KING)
  {
    hide Ordinary, Hits, CastleOk, EpOk, CountsOk, PawnRanksOk, KingAt, PlayBoard, InCheck;
    OrdinaryFacts(st, m);
    if st.board[m.to] == Man(Opposite(st.turn), KING) {
      HittingKing(st.board, st.turn, m.from, m.to);
    }
  }

  lemma HittingKing(b: Board, us: Color, s: Square, t: Square)
    requires Owned(b, us, s) && Hits(b, s, t) && b[t] == Man(Opposite(us), KING)
    ensures InCheck(b, Opposite(us))
  {
    hide Hits;
    assert Attacked(b, Opposite(Opposite(us)), t);
  }

  ghost function Ks(st: State, c: Color): Square { KingSquare(st.board, c) }

  lemma KingsOk(st: State, c: Color)
    requires WellFormed(st)
    ensures KingAt(st.board, c, Ks(st, c))
  {
    hide InCheck, CastleOk, EpOk, CountsOk, PawnRanksOk, KingAt;
    assert c == WHITE || c == BLACK;
  }

  // Where the king of us is after m.
  ghost function NextKing(st: State, m: Move): Square
  {
    if Castling(st, m) then KingDest(m.from, m.to)
    else if st.board[m.from] == Man(st.turn, KING) then m.to
    else Ks(st, st.turn)
  }

  lemma CastlingForm(st: State, m: Move)
    requires WellFormed(st) && Castling(st, m)
    ensures PlayBoard(st, m) == AfterCastling(st.board, st.turn, m.from, m.to)
    ensures m.from == Ks(st, st.turn) && CastlingSetup(st.board, st.turn, m.from, m.to) && m.from != m.to
    ensures WaysClear(st.board, m.from, m.to) && RankOf(m.from) == HomeRank(st.turn) && !Ordinary(st, m) && !EnPassant(st, m)
    ensures KingDest(m.from, m.to) != RookDest(m.from, m.to)
    ensures RankOf(KingDest(m.from, m.to)) == HomeRank(st.turn) && RankOf(RookDest(m.from, m.to)) == HomeRank(st.turn)
  {
    hide InCheck, EpOk, CountsOk, PawnRanksOk, Attacked, KingDest, RookDest, KingSquare, Hits, PawnHit, RankOf, FileOf, RelativeRank;
    CastlingBoard(st, m);
    CastlingUnfold(st, m);
    KingsOk(st, st.turn);
    CastlingGeometry(m.from, m.to);
  }

  lemma WaysClearDests(b: Board, k: Square, r: Square)
    requires WaysClear(b, k, r)
    ensures KingDest(k, r) != k && KingDest(k, r) != r ==> b[KingDest(k, r)] == Empty
    ensures RookDest(k, r) != k && RookDest(k, r) != r ==> b[RookDest(k, r)] == Empty
  {
    hide KingDest, RookDest, Between;
  }

  lemma EnPassantForm(st: State, m: Move)
    requires WellFormed(st) && EnPassant(st, m)
    ensures var cap := m.to - PushInc(st.turn);
            0 <= cap < 64 && st.board[m.from] == Man(st.turn, PAWN) && st.board[m.to] == Empty &&
            st.board[cap] == Man(Opposite(st.turn), PAWN) && m.from != m.to && m.from != cap && m.to != cap &&
            PlayBoard(st, m) == st.board[m.from := Empty][m.to := Man(st.turn, PAWN)][cap := Empty]
  {
    hide InCheck, CastleOk, CountsOk, PawnRanksOk, KingSquare, RelativeRank;
    EpSquares(st, m);
  }

  // One king of each colour after any legal move; the enemy's has not moved.
  lemma KingsAfter(st: State, m: Move)
    requires WellFormed(st) && Legal(st, m)
    ensures KingAt(PlayBoard(st, m), st.turn, NextKing(st, m))
    ensures KingAt(PlayBoard(st, m), Opposite(st.turn), Ks(st, Opposite(st.turn)))
  {
    hide *;
    hide KingAt, PlayBoard;
    LegalCases(st, m);
    if Castling(st, m) {
      KingsAfterCastling(st, m);
    } else if Ordinary(st, m) {
      KingsAfterOrdinary(st, m);
    } else {
      KingsAfterEp(st, m);
    }
  }

  lemma KingsAfterOrdinary(st: State, m: Move)
    requires WellFormed(st) && Ordinary(st, m) && !Castling(st, m)
    ensures KingAt(PlayBoard(st, m), st.turn, NextKing(st, m))
    ensures KingAt(PlayBoard(st, m), Opposite(st.turn), Ks(st, Opposite(st.turn)))
  {
    hide WellFormed, Ordinary, PlayBoard, Castling, KingSquare, OrdinaryPawnMove, Hits;
    WellFormedEp(st);
    OrdinaryFacts(st, m);
    NoKingCaptured(st, m);
    KingsOk(st, st.turn);
    KingsOk(st, Opposite(st.turn));
  }

  lemma KingsAfterEp(st: State, m: Move)
    requires WellFormed(st) && EnPassant(st, m) && !Castling(st, m)
    ensures KingAt(PlayBoard(st, m), st.turn, NextKing(st, m))
    ensures KingAt(PlayBoard(st, m), Opposite(st.turn), Ks(st, Opposite(st.turn)))
  {
    hide WellFormed, PlayBoard, Castling, KingSquare, EnPassant;
    EnPassantForm(st, m);
    KingsOk(st, st.turn);
    KingsOk(st, Opposite(st.turn));
  }

  lemma KingsAfterCastling(st: State, m: Move)
    requires WellFormed(st) && Castling(st, m)
    ensures KingAt(PlayBoard(st, m), st.turn, NextKing(st, m))
    ensures KingAt(PlayBoard(st, m), Opposite(st.turn), Ks(st, Opposite(st.turn)))
  {
    hide WellFormed, PlayBoard, Castling, KingSquare, KingDest, RookDest, WaysClear, RankOf, FileOf;
    CastlingForm(st, m);
    WaysClearDests(st.board, m.from, m.to);
    KingsOk(st, st.turn);
    KingsOk(st, Opposite(st.turn));
  }

  // ---- Counts --------------------------------------------------------------------------------------------

  function One(x: bool): int { if x then 1 else 0 }

  lemma MenUpdate(b: Board, s: Square, cell: Cell, c: Color, q: Piece)
    ensures |Men(b[s := cell], c, q)| == |Men(b, c, q)| - One(b[s] == Man(c, q)) + One(cell == Man(c, q))
  {
    var before, now := Men(b, c, q), Men(b[s := cell], c, q);
    assert now - {s} == before - {s};
    assert |before - {s}| == |before| - One(s in before);
    assert |now - {s}| == |now| - One(s in now);
  }

  lemma ArmyUpdate(b: Board, s: Square, cell: Cell, c: Color)
    ensures |Army(b[s := cell], c)| == |Army(b, c)| - One(Owned(b, c, s)) + One(cell.Man? && cell.color == c)
  {
    var before, now := Army(b, c), Army(b[s := cell], c);
    assert now - {s} == before - {s};
    assert |before - {s}| == |before| - One(s in before);
    assert |now - {s}| == |now| - One(s in now);
  }

  // Men of c and q after putting `cell` on `to` and emptying `from`.
  lemma MenAfter(b: Board, from: Square, to: Square, cell: Cell, c: Color, q: Piece)
    requires from != to
    ensures |Men(b[from := Empty][to := cell], c, q)| ==
            |Men(b, c, q)| - One(b[from] == Man(c, q)) - One(b[to] == Man(c, q)) + One(cell == Man(c, q))
  {
    hide Men;
    MenUpdate(b, from, Empty, c, q);
    MenUpdate(b[from := Empty], to, cell, c, q);
  }

  lemma ArmyAfter(b: Board, from: Square, to: Square, cell: Cell, c: Color)
    requires from != to
    ensures |Army(b[from := Empty][to := cell], c)| ==
            |Army(b, c)| - One(Owned(b, c, from)) - One(Owned(b, c, to)) + One(cell.Man? && cell.color == c)
  {
    hide Army;
    ArmyUpdate(b, from, Empty, c);
    ArmyUpdate(b[from := Empty], to, cell, c);
  }

  lemma CountsAfterOrdinary(st: State, m: Move, c: Color)
    requires WellFormed(st) && Ordinary(st, m)
    ensures CountsOk(PlayBoard(st, m), c)
  {
    hide Ordinary, PlayBoard, Men, Army, OrdinaryPawnMove, Hits, KingSquare, InCheck, CastleOk, EpOk, PawnRanksOk, KingAt;
    WellFormedEp(st);
    OrdinaryFacts(st, m);
    assert c == WHITE || c == BLACK;
    assert CountsOk(st.board, c);
    var b, x := st.board, Placed(st, m);
    MenAfter(b, m.from, m.to, x, c, KNIGHT);
    MenAfter(b, m.from, m.to, x, c, BISHOP);
    MenAfter(b, m.from, m.to, x, c, ROOK);
    MenAfter(b, m.from, m.to, x, c, QUEEN);
    MenAfter(b, m.from, m.to, x, c, PAWN);
    ArmyAfter(b, m.from, m.to, x, c);
  }

  lemma CountsRemove(b: Board, s: Square, c: Color)
    requires CountsOk(b, c)
    ensures CountsOk(b[s := Empty], c)
  {
    hide Men, Army;
    MenUpdate(b, s, Empty, c, KNIGHT);
    MenUpdate(b, s, Empty, c, BISHOP);
    MenUpdate(b, s, Empty, c, ROOK);
    MenUpdate(b, s, Empty, c, QUEEN);
    MenUpdate(b, s, Empty, c, PAWN);
    ArmyUpdate(b, s, Empty, c);
  }

  // A man that moves to an empty square changes no count.
  lemma CountsMove(b: Board, from: Square, to: Square, c: Color)
    requires CountsOk(b, c) && from != to && b[to] == Empty && b[from].Man?
    ensures CountsOk(b[from := Empty][to := b[from]], c)
  {
    hide Men, Army;
    MenAfter(b, from, to, b[from], c, KNIGHT);
    MenAfter(b, from, to, b[from], c, BISHOP);
    MenAfter(b, from, to, b[from], c, ROOK);
    MenAfter(b, from, to, b[from], c, QUEEN);
    MenAfter(b, from, to, b[from], c, PAWN);
    ArmyAfter(b, from, to, b[from], c);
  }

  lemma CastlingMen(b: Board, us: Color, k: Square, r: Square, c: Color, q: Piece)
    requires CastlingSetup(b, us, k, r) && WaysClear(b, k, r) && k != r && KingDest(k, r) != RookDest(k, r)
    ensures |Men(AfterCastling(b, us, k, r), c, q)| == |Men(b, c, q)|
    ensures |Army(AfterCastling(b, us, k, r), c)| == |Army(b, c)|
  {
    hide Men, Army, KingDest, RookDest, WaysClear, RankOf, FileOf, KingAt;
    KingAtFact(b, us, k, k);
    WaysClearDests(b, k, r);
    var kto, rto := KingDest(k, r), RookDest(k, r);
    var b2 := b[k := Empty][r := Empty];
    var b3 := b2[kto := Man(us, KING)];
    MenAfter(b, k, r, Empty, c, q);
    MenUpdate(b2, kto, Man(us, KING), c, q);
    MenUpdate(b3, rto, Man(us, ROOK), c, q);
    ArmyAfter(b, k, r, Empty, c);
    ArmyUpdate(b2, kto, Man(us, KING), c);
    ArmyUpdate(b3, rto, Man(us, ROOK), c);
  }

  lemma CountsAfter(st: State, m: Move, c: Color)
    requires WellFormed(st) && Legal(st, m)
    ensures CountsOk(PlayBoard(st, m), c)
  {
    hide WellFormed, Ordinary, PlayBoard, Men, Army, Castling, EnPassant, Legal, CastlingSetup, WaysClear, KingDest, RookDest, InCheck, RankOf;
    LegalCases(st, m);
    CountsBefore(st, c);
    if Ordinary(st, m) {
      CountsAfterOrdinary(st, m, c);
    } else if EnPassant(st, m) {
      EnPassantForm(st, m);
      CountsMove(st.board, m.from, m.to, c);
      CountsRemove(st.board[m.from := Empty][m.to := st.board[m.from]], m.to - PushInc(st.turn), c);
    } else {
      CastlingForm(st, m);
      CastlingMen(st.board, st.turn, m.from, m.to, c, KNIGHT);
      CastlingMen(st.board, st.turn, m.from, m.to, c, BISHOP);
      CastlingMen(st.board, st.turn, m.from, m.to, c, ROOK);
      CastlingMen(st.board, st.turn, m.from, m.to, c, QUEEN);
      CastlingMen(st.board, st.turn, m.from, m.to, c, PAWN);
    }
  }

  lemma CountsBefore(st: State, c: Color)
    requires WellFormed(st)
    ensures CountsOk(st.board, c)
  {
    hide CountsOk, InCheck, CastleOk, EpOk, PawnRanksOk, KingAt;
    assert c == WHITE || c == BLACK;
  }

  // ---- Pawn ranks ----------------------------------------------------------------------------------------

  lemma PawnRanksBefore(st: State)
    requires WellFormed(st)
    ensures PawnRanksOk(st.board)
  {
    hide CountsOk, InCheck, CastleOk, EpOk, PawnRanksOk, KingAt;
  }

  lemma PlacedPawnRank(st: State, m: Move)
    requires PawnRanksOk(st.board) && OrdinaryPawnMove(st, m)
    ensures Placed(st, m).Man? && (Placed(st, m).piece == PAWN ==> 1 <= RankOf(m.to) <= 6)
  {
    assert st.board[m.from].piece == PAWN;
  }

  lemma PawnRanksAfter(st: State, m: Move)
    requires WellFormed(st) && Legal(st, m)
    ensures PawnRanksOk(PlayBoard(st, m))
  {
    hide WellFormed, Ordinary, PlayBoard, Castling, EnPassant, Legal, CastlingSetup, WaysClear, KingDest, RookDest, InCheck, RankOf, RelativeRank, EpOk, OrdinaryPawnMove;
    LegalCases(st, m);
    PawnRanksBefore(st);
    if Ordinary(st, m) {
      WellFormedEp(st);
      OrdinaryFacts(st, m);
      if st.board[m.from].piece == PAWN { PlacedPawnRank(st, m); }
    } else if EnPassant(st, m) {
      EnPassantForm(st, m);
      EpRank(st, m);
    } else {
      CastlingForm(st, m);
    }
  }

  lemma EpRank(st: State, m: Move)
    requires WellFormed(st) && EnPassant(st, m)
    ensures 1 <= RankOf(m.to) <= 6
  {
    hide CountsOk, InCheck, CastleOk, PawnRanksOk, KingAt;
  }

  // ---- Castling rights and en-passant square -------------------------------------------------------------

  lemma CastleBefore(st: State)
    requires WellFormed(st)
    ensures CastleOk(st)
  {
    hide CountsOk, InCheck, CastleOk, EpOk, PawnRanksOk, KingAt;
  }

  // A rook that keeps its right has not moved, and neither has its king.
  lemma CastleRookStays(st: State, m: Move, r: Square)
    requires WellFormed(st) && Legal(st, m) && r in NextCastle(st, m) && st.board[r].Man?
    ensures r in st.castle && PlayBoard(st, m)[r] == st.board[r]
    ensures KingSquare(PlayBoard(st, m), st.board[r].color) == KingSquare(st.board, st.board[r].color)
  {
    hide WellFormed, Legal, Ordinary, EnPassant, PlayBoard, KingSquare, Castling, CastlingSetup, KingAt, KingDest, RookDest, OrdinaryPawnMove, Hits, WaysClear, InCheck, RankOf, EpOk;
    LegalCases(st, m);
    KingsAfter(st, m);
    KingsOk(st, st.turn);
    KingAtFact(st.board, st.turn, Ks(st, st.turn), m.from);
    KingSquareIs(PlayBoard(st, m), st.turn, NextKing(st, m));
    KingSquareIs(PlayBoard(st, m), Opposite(st.turn), Ks(st, Opposite(st.turn)));
    CastleRookBefore(st, r);
    if Castling(st, m) {
      CastlingForm(st, m);
    } else if Ordinary(st, m) {
      WellFormedEp(st);
      OrdinaryFacts(st, m);
    } else {
      EnPassantForm(st, m);
    }
  }

  lemma CastleRookBefore(st: State, r: Square)
    requires WellFormed(st) && r in st.castle
    ensures st.board[r].Man? && st.board[r].piece == ROOK && RankOf(r) == HomeRank(st.board[r].color)
    ensures CastleRookOk(st.board, KingSquare(st.board, st.board[r].color), st.board[r].color, r)
  {
    hide KingSquare, FileOf, RankOf;
    CastleBefore(st);
  }

  lemma CastleAfter(st: State, m: Move)
    requires WellFormed(st) && Legal(st, m)
    ensures CastleOk(NextState(st, m))
  {
    hide WellFormed, Legal, PlayBoard, KingSquare, NextCastle, SameSide, RankOf, FileOf, NextEp;
    CastleBefore(st);
    forall r: Square | r in NextCastle(st, m)
      ensures r in st.castle && PlayBoard(st, m)[r] == st.board[r] && st.board[r].Man?
      ensures KingSquare(PlayBoard(st, m), st.board[r].color) == KingSquare(st.board, st.board[r].color)
    {
      NextCastleSub(st, m, r);
      CastleRookStays(st, m, r);
    }
  }

  lemma NextCastleSub(st: State, m: Move, r: Square)
    requires r in NextCastle(st, m)
    ensures r in st.castle
  {}

  lemma OrthodoxAfter(st: State, m: Move)
    requires WellFormed(st) && Legal(st, m) && Orthodox(st)
    ensures Orthodox(NextState(st, m))
  {
    hide WellFormed, Legal, PlayBoard, KingSquare, NextCastle, FileOf, NextEp;
    forall r: Square | r in NextCastle(st, m) && PlayBoard(st, m)[r].Man?
      ensures FileOf(KingSquare(PlayBoard(st, m), PlayBoard(st, m)[r].color)) == 4 && (FileOf(r) == 0 || FileOf(r) == 7)
    {
      NextCastleSub(st, m, r);
      CastleRookBefore(st, r);
      CastleRookStays(st, m, r);
    }
  }

  lemma DoublePushOnly(st: State, m: Move)
    requires WellFormed(st) && Legal(st, m) && IsDoublePush(st, m)
    ensures DoublePush(st, m) && Ordinary(st, m)
  {
    hide WellFormed, InCheck, PlayBoard, Hits, Attacked, EpOk, CastleOk;
    LegalUnfold(st, m);
    DoublePushLong(st.turn, m.from, m.to);
  }

  lemma DoublePushLong(c: Color, from: Square, to: Square)
    requires to == from + 2 * PushInc(c)
    ensures !PawnHit(Up(c), from, to) && to != from + PushInc(c)
  {}

  // Taking a double push back restores the board before it, where the enemy king was not attacked.
  lemma EpAfter(st: State, m: Move)
    requires WellFormed(st) && Legal(st, m)
    ensures EpOk(NextState(st, m))
  {
    hide WellFormed, Legal, PlayBoard, KingSquare, NextCastle, InCheck, Ordinary, PawnHit, Hits;
    if NextEp(st, m) != NO_SQUARE {
      DoublePushOnly(st, m);
      WellFormedEp(st);
      OrdinaryFacts(st, m);
      DoublePushRanks(st, m);
      NotInCheckBefore(st);
      var b' := PlayBoard(st, m);
      assert UndoDoublePush(b', st.turn, NextEp(st, m)) == st.board;
    }
  }

  lemma DoublePushRanks(st: State, m: Move)
    requires DoublePush(st, m)
    ensures var e := m.from + PushInc(st.turn); 16 <= e < 48 && RelativeRank(st.turn, e) == 2
  {}

  lemma NotInCheckBefore(st: State)
    requires WellFormed(st)
    ensures !InCheck(st.board, Opposite(st.turn))
  {
    hide CountsOk, InCheck, CastleOk, EpOk, PawnRanksOk, KingAt;
  }

  // The invariant of the game: legal moves lead from well-formed positions to well-formed positions.
  lemma WellFormedAfter(st: State, m: Move)
    requires WellFormed(st) && Legal(st, m)
    ensures WellFormed(NextState(st, m))
  {
    hide Legal, PlayBoard, KingSquare, NextCastle, InCheck, KingAt, CountsOk, PawnRanksOk, CastleOk, EpOk, NextEp, NextKing;
    LegalCases(st, m);
    KingsAfter(st, m);
    KingSquareIs(PlayBoard(st, m), st.turn, NextKing(st, m));
    KingSquareIs(PlayBoard(st, m), Opposite(st.turn), Ks(st, Opposite(st.turn)));
    CountsAfter(st, m, WHITE);
    CountsAfter(st, m, BLACK);
    PawnRanksAfter(st, m);
    CastleAfter(st, m);
    EpAfter(st, m);
    assert st.turn == WHITE || st.turn == BLACK;
  }
}
