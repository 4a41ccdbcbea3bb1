/** The initial position of chess: it is well-formed, and its usual text is the one that the program writes for it
    and reads back (test/engine.c:63-65). */
module StartPosition {
  import opened Geometry
  import opened Rules
  import opened Legality
  import opened Bitboards
  import opened Zobrist
  import opened Positions
  import opened PositionClass
  import opened Text
  import opened FenSpec
  import opened FenRoundTrip
  import opened Fen
  import opened SoundPositions

  function Back(f: int): Piece
  {
    if f == 0 || f == 7 then ROOK else if f == 1 || f == 6 then KNIGHT else if f == 2 || f == 5 then BISHOP
    else if f == 3 then QUEEN else KING
  }

  function StartCell(s: Square): Cell
  {
    if s < 8 then Man(WHITE, Back(s)) else if s < 16 then Man(WHITE, PAWN) else if s < 48 then Empty
    else if s < 56 then Man(BLACK, PAWN) else Man(BLACK, Back(s - 56))
  }

  function StartBoard(): Board { seq(64, s requires 0 <= s < 64 => StartCell(s)) }

  function Start(): State { State(StartBoard(), WHITE, {0, 7, 56, 63}, NO_SQUARE) }

  // ---- It is well-formed ---------------------------------------------------------------------------------

  lemma StartKings()
    ensures KingAt(StartBoard(), WHITE, 4) && KingAt(StartBoard(), BLACK, 60)
    ensures KingSquare(StartBoard(), WHITE) == 4 && KingSquare(StartBoard(), BLACK) == 60
  {
    KingSquareIs(StartBoard(), WHITE, 4);
    KingSquareIs(StartBoard(), BLACK, 60);
  }

  function Interval(a: int, n: nat): set<int> { if n == 0 then {} else Interval(a, n - 1) + {a + n - 1} }

  lemma {:induction false} IntervalIs(a: int, n: nat)
    ensures |Interval(a, n)| == n && forall s: int :: s in Interval(a, n) <==> a <= s < a + n
  {
    if n > 0 { IntervalIs(a, n - 1); }
  }

  lemma StartAt(s: Square)
    ensures StartBoard()[s] == StartCell(s)
  {}

  lemma StartMen(c: Color, q: Piece, squares: set<Square>)
    requires forall s: Square :: s in squares <==> StartCell(s) == Man(c, q)
    ensures Men(StartBoard(), c, q) == squares
  {
    hide StartBoard, StartCell;
    forall s: Square ensures StartBoard()[s] == StartCell(s) { StartAt(s); }
  }

  lemma StartPawns(c: Color, from: int)
    requires from == if c == WHITE then 8 else 48
    ensures |Men(StartBoard(), c, PAWN)| == 8
  {
    IntervalIs(from, 8);
    hide Interval, StartBoard;
    assert c == WHITE || c == BLACK;
    forall s: Square ensures s in Interval(from, 8) <==> StartCell(s) == Man(c, PAWN) {}
    hide StartCell, Men;
    StartMen(c, PAWN, Interval(from, 8));
  }

  lemma StartArmy(c: Color, from: int)
    requires from == if c == WHITE then 0 else 48
    ensures |Army(StartBoard(), c)| == 16
  {
    IntervalIs(from, 16);
    hide Interval, StartBoard;
    assert c == WHITE || c == BLACK;
    forall s: Square ensures Owned(StartBoard(), c, s) <==> from <= s < from + 16 { StartAt(s); }
    assert Army(StartBoard(), c) == Interval(from, 16);
  }

  lemma StartCounts(c: Color)
    ensures CountsOk(StartBoard(), c)
  {
    var home := 56 * c;
    assert c == WHITE || c == BLACK;
    StartMen(c, KNIGHT, {home + 1, home + 6});
    StartMen(c, BISHOP, {home + 2, home + 5});
    StartMen(c, ROOK, {home, home + 7});
    StartMen(c, QUEEN, {home + 3});
    StartPawns(c, if c == WHITE then 8 else 48);
    StartArmy(c, if c == WHITE then 0 else 48);
    hide Men, Army, StartBoard, StartCell;
  }

  // No white man reaches e8: leapers are too far and no slider is aligned with it.
  lemma NoHitOnE8(s: Square)
    requires Owned(StartBoard(), WHITE, s)
    ensures !Hits(StartBoard(), s, 60)
  {
    assert s < 16 && (s >= 8 ==> StartBoard()[s].piece == PAWN);
    hide ClearPath;
  }

  lemma StartNotInCheck()
    ensures !InCheck(StartBoard(), BLACK)
  {
    StartKings();
    hide StartBoard, KingAt, Hits;
    InCheckKing(StartBoard(), BLACK, 60);
    forall s: Square | Owned(StartBoard(), WHITE, s) ensures !Hits(StartBoard(), s, 60) { NoHitOnE8(s); }
  }

  lemma CornerRookOk(c: Color, r: Square)
    requires r == 56 * c || r == 56 * c + 7
    ensures StartBoard()[r] == Man(c, ROOK) && CastleRookOk(StartBoard(), 56 * c + 4, c, r)
  {
    StartAt(r);
    assert c == WHITE || c == BLACK;
    hide StartBoard;
  }

  lemma StartCastle()
    ensures CastleOk(Start())
  {
    StartKings();
    hide KingAt, KingSquare, StartBoard, CastleRookOk;
    CornerRookOk(WHITE, 0);
    CornerRookOk(WHITE, 7);
    CornerRookOk(BLACK, 56);
    CornerRookOk(BLACK, 63);
    OneCornerASide();
    assert Start().castle == {0, 7, 56, 63} && Start().board == StartBoard();
    hide Start, SameSide;
  }

  lemma OneCornerASide()
    ensures SameSide(4, 0, 7) == SameSide(4, 7, 0) == SameSide(60, 56, 63) == SameSide(60, 63, 56) == false
  {}

  lemma StartOrthodox()
    ensures Orthodox(Start())
  {
    StartKings();
    hide KingAt, KingSquare, StartBoard, CastleRookOk;
    CornerRookOk(WHITE, 0);
    CornerRookOk(WHITE, 7);
    CornerRookOk(BLACK, 56);
    CornerRookOk(BLACK, 63);
  }

  lemma StartPawnRanks()
    ensures PawnRanksOk(StartBoard())
  {
    forall s: Square | StartBoard()[s].Man? && StartBoard()[s].piece == PAWN ensures 1 <= RankOf(s) <= 6 { StartAt(s); }
  }

  lemma NoEpSquare()
    ensures EpOk(Start())
  {
    hide StartBoard, InCheck;
  }

  lemma StartIsWellFormed()
    ensures WellFormed(Start()) && Orthodox(Start())
  {
    StartKings();
    StartCounts(WHITE);
    StartCounts(BLACK);
    StartNotInCheck();
    StartCastle();
    StartOrthodox();
    StartPawnRanks();
    NoEpSquare();
    hide StartBoard, KingAt, KingSquare, CountsOk, InCheck, CastleOk, Orthodox, PawnRanksOk, EpOk;
  }

  // ---- Its text ------------------------------------------------------------------------------------------

  // rnbqkbnr/pppppppp/8/8/8/8/PPPPPPPP/RNBQKBNR
  function StartPlacement(): string
  {
    "rnbqkbnr" + "/" + ("pppppppp" + "/" + ("8" + "/" + ("8" + "/" + ("8" + "/" + ("8" + "/" + ("PPPPPPPP" + "/" + "RNBQKBNR"))))))
  }

  const START_FEN := "rnbqkbnr/pppppppp/8/8/8/8/PPPPPPPP/RNBQKBNR w KQkq - 0 1"

  function StartFen(): string { JoinedBySpaces([StartPlacement(), "w", "KQkq", "-", "0", "1"]) }

  lemma FieldsAfterPlacement(s: string)
    ensures JoinedBySpaces([s, "w", "KQkq", "-", "0", "1"]) == s + " w KQkq - 0 1"
  {
    var t := ["w", "KQkq", "-", "0", "1"];
    assert JoinedBySpaces(t[4..]) == "1";
    assert JoinedBySpaces(t[3..]) == "0 1";
    assert JoinedBySpaces(t[2..]) == "- 0 1";
    assert JoinedBySpaces(t[1..]) == "KQkq - 0 1";
    assert JoinedBySpaces(t) == "w KQkq - 0 1";
    assert [s, "w", "KQkq", "-", "0", "1"][1..] == t;
    assert s + " " + "w KQkq - 0 1" == s + " w KQkq - 0 1";
  }

  lemma StartPlacementText()
    ensures StartPlacement() == "rnbqkbnr/pppppppp/8/8/8/8/PPPPPPPP/RNBQKBNR"
  {}

  lemma StartFenIs()
    ensures StartFen() == START_FEN
  {
    hide JoinedBySpaces, StartPlacement;
    StartPlacementText();
    FieldsAfterPlacement(StartPlacement());
  }

  // A full rank is written man by man.
  lemma FullRow(b: Board, rank: int, t: string)
    requires 0 <= rank < 8 && |t| == 8
    requires forall f: int :: 0 <= f < 8 ==> b[SquareFrom(rank, f)].Man? && t[f] == Label(b[SquareFrom(rank, f)].color, b[SquareFrom(rank, f)].piece)
    ensures RowText(b, rank, 0, 0) == t
  {
    FullRowFrom(b, rank, 0, t);
    assert t[0..] == t;
  }

  lemma {:induction false} FullRowFrom(b: Board, rank: int, file: nat, t: string)
    requires 0 <= rank < 8 && file <= 8 && |t| == 8
    requires forall f: int :: 0 <= f < 8 ==> b[SquareFrom(rank, f)].Man? && t[f] == Label(b[SquareFrom(rank, f)].color, b[SquareFrom(rank, f)].piece)
    ensures RowText(b, rank, file, 0) == t[file..]
    decreases 8 - file
  {
    hide Label;
    if file < 8 {
      FullRowFrom(b, rank, file + 1, t);
      assert t[file..] == [t[file]] + t[file + 1..];
    }
  }

  lemma {:induction false} EmptyRowFrom(b: Board, rank: int, file: nat)
    requires 0 <= rank < 8 && file <= 8 && forall f: int :: 0 <= f < 8 ==> b[SquareFrom(rank, f)] == Empty
    ensures RowText(b, rank, file, file) == "8"
    decreases 8 - file
  {
    if file < 8 { EmptyRowFrom(b, rank, file + 1); }
  }

  lemma BackLabel(f: int)
    requires 0 <= f < 8
    ensures "rnbqkbnr"[f] == Label(BLACK, Back(f)) && "RNBQKBNR"[f] == Label(WHITE, Back(f))
    ensures "pppppppp"[f] == Label(BLACK, PAWN) && "PPPPPPPP"[f] == Label(WHITE, PAWN)
  {}

  lemma ManRow(rank: int, t: string)
    requires (rank == 7 && t == "rnbqkbnr") || (rank == 6 && t == "pppppppp") ||
             (rank == 1 && t == "PPPPPPPP") || (rank == 0 && t == "RNBQKBNR")
    ensures RowText(StartBoard(), rank, 0, 0) == t
  {
    hide StartBoard, Label, RowText;
    forall f: int | 0 <= f < 8
      ensures var cell := StartBoard()[SquareFrom(rank, f)]; cell.Man? && t[f] == Label(cell.color, cell.piece)
    {
      StartAt(SquareFrom(rank, f));
      BackLabel(f);
    }
    FullRow(StartBoard(), rank, t);
  }

  lemma NoManRow(rank: int)
    requires 2 <= rank <= 5
    ensures RowText(StartBoard(), rank, 0, 0) == "8"
  {
    hide StartBoard, RowText;
    forall f: int | 0 <= f < 8 ensures StartBoard()[SquareFrom(rank, f)] == Empty { StartAt(SquareFrom(rank, f)); }
    EmptyRowFrom(StartBoard(), rank, 0);
  }

  lemma PlacementUnfold(b: Board, rank: int)
    requires 0 <= rank < 8
    ensures PlacementText(b, rank) == if rank == 0 then RowText(b, 0, 0, 0) else RowText(b, rank, 0, 0) + "/" + PlacementText(b, rank - 1)
  {
    hide RowText;
  }

  lemma StartPlacementIs()
    ensures PlacementText(StartBoard(), 7) == StartPlacement()
  {
    var b := StartBoard();
    hide StartBoard, PlacementText, RowText;
    ManRow(7, "rnbqkbnr");
    ManRow(6, "pppppppp");
    NoManRow(5);
    NoManRow(4);
    NoManRow(3);
    NoManRow(2);
    ManRow(1, "PPPPPPPP");
    ManRow(0, "RNBQKBNR");
    PlacementUnfold(b, 7);
    PlacementUnfold(b, 6);
    PlacementUnfold(b, 5);
    PlacementUnfold(b, 4);
    PlacementUnfold(b, 3);
    PlacementUnfold(b, 2);
    PlacementUnfold(b, 1);
    PlacementUnfold(b, 0);
  }

  ghost function StartPos(z: Tables): Pos { PositionOf(z, Start(), 0, 1, Move.Move(0, 0, 0)) }

  lemma StartSound(z: Tables)
    ensures Sound(StartPos(z), z) && StateOf(StartPos(z)) == Start()
  {
    StartIsWellFormed();
    hide WellFormed, Orthodox, Start, Sound, StateOf;
    PositionIsSound(z, Start(), 0, 1, Move.Move(0, 0, 0));
  }

  lemma SideTextIs(c: Color, rooks: Bitboard, right: bool)
    requires rooks != {}
    ensures SideText(false, c, rooks, right) == [Label(c, if right then KING else QUEEN)]
  {
    hide Label;
  }

  lemma CornersOfSide(c: Color)
    ensures 56 * c + 7 in SideRooks({0, 7, 56, 63}, Army(StartBoard(), c), 56 * c + 4, true)
    ensures 56 * c in SideRooks({0, 7, 56, 63}, Army(StartBoard(), c), 56 * c + 4, false)
  {
    StartAt(56 * c);
    StartAt(56 * c + 7);
    assert c == WHITE || c == BLACK;
    hide StartBoard;
  }

  lemma StartFields(z: Tables)
    ensures var p := StartPos(z);
            p.rule50 == 0 && p.fullMove == 1 && !p.chess960 && p.turn == WHITE && p.epSquare == NO_SQUARE &&
            p.castleRooks == {0, 7, 56, 63} && BoardOf(p) == StartBoard() &&
            p.byColor[WHITE] == Army(StartBoard(), WHITE) && p.byColor[BLACK] == Army(StartBoard(), BLACK)
  {
    PositionRepresents(z, Start(), 0, 1, Move.Move(0, 0, 0));
    StateFields(StartPos(z));
    hide StartBoard, KingSquare, KeyOf, AttackedSet, CheckerSet, PinSet, BoardOf, Army, Kind;
  }

  lemma StartCastleText(z: Tables)
    ensures CastleText(StartPos(z)) == "KQkq"
  {
    StartFields(z);
    StartKings();
    CornersOfSide(WHITE);
    CornersOfSide(BLACK);
    var p := StartPos(z);
    hide StartPos, StartBoard, KingSquare, BoardOf, KingAt, SideText, SideRooks, Army;
    SideTextIs(WHITE, SideRooks(p.castleRooks, p.byColor[WHITE], 4, true), true);
    SideTextIs(WHITE, SideRooks(p.castleRooks, p.byColor[WHITE], 4, false), false);
    SideTextIs(BLACK, SideRooks(p.castleRooks, p.byColor[BLACK], 60, true), true);
    SideTextIs(BLACK, SideRooks(p.castleRooks, p.byColor[BLACK], 60, false), false);
    assert ColorText(p, WHITE, 4) == "KQ" && ColorText(p, BLACK, 60) == "kq";
  }

  lemma StartText(z: Tables)
    ensures StartPos(z).rule50 >= 0 && StartPos(z).fullMove >= 0 && JoinedBySpaces(FenTokens(StartPos(z))) == StartFen()
  {
    StartFields(z);
    StartPlacementIs();
    StartCastleText(z);
    assert Digits(0) == "0" && Digits(1) == "1";
    hide StartPos, StartBoard, PlacementText, StartPlacement, CastleText, BoardOf, JoinedBySpaces, Digits;
  }

  // Forcing Chess960 changes the mode and nothing else of a text that is accepted without.
  lemma ForcedIsAccepted(ts: seq<string>)
    requires FenMeaning(ts, false).Read?
    ensures FenMeaning(ts, true) == Read(FenMeaning(ts, false).value.(chess960 := true))
  {
    hide Placement, CastlingNamed, EpNamed, Rule50Named, FullMoveNamed, Verified, FinishAsserts;
  }

  lemma NoHitOnE1(s: Square)
    requires Owned(StartBoard(), BLACK, s)
    ensures !Hits(StartBoard(), s, 4)
  {
    assert s >= 48 && (s < 56 ==> StartBoard()[s].piece == PAWN);
    hide ClearPath;
  }

  lemma StartCheckers(z: Tables)
    ensures StartPos(z).checkers == {}
  {
    StartKings();
    hide StartBoard, Hits, KingSquare, KingAt, KeyOf, AttackedSet, PinSet, Army, Kind;
    forall e: Square | Owned(StartBoard(), BLACK, e) ensures !Hits(StartBoard(), e, 4) { NoHitOnE1(e); }
    assert CheckerSet(StartBoard(), WHITE, 4) == {};
  }

  // The text of the initial position is accepted and gives the initial position, with or without Chess960.
  lemma StartIsAccepted(force960: bool)
    ensures FenMeaning(Tokens(START_FEN), force960) == Read(Parsed(Start(), 0, 1, force960))
  {
    var z := Tables((c, p, s) => 0, s => 0, e => 0, 0);
    hide *;
    StartFenIs();
    StartSound(z);
    StartText(z);
    StartFields(z);
    StartCheckers(z);
    FenTokensAreWords(z, StartPos(z));
    JoinedTokens(FenTokens(StartPos(z)));
    FenIsLossless(z, StartPos(z));
    ForcedIsAccepted(Tokens(START_FEN));
  }
}
