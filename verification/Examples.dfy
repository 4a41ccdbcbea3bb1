/** Concrete positions: what the theorems ask of positions can be met, and every way in which a text can fail
    to come back does happen. */
module Examples {
  import opened Geometry
  import opened Rules
  import opened Legality
  import opened Zobrist
  import opened Positions
  import opened PositionClass
  import opened Progress
  import opened Repetition
  import opened SoundPositions
  import opened FenSpec
  import opened FenRoundTrip
  import opened Uci

  // ---- Kings and what is with them -----------------------------------------------------------------------

  // Kings on e1 and e8, kings with a black pawn on e7, and a white king attacked three times.
  function BareKings(): Board { NoMen()[4 := Man(WHITE, KING)][60 := Man(BLACK, KING)] }

  function KingsAndPawn(): Board { BareKings()[52 := Man(BLACK, PAWN)] }

  function TripleCheck(): Board
  {
    NoMen()[4 := Man(WHITE, KING)][56 := Man(BLACK, KING)][60 := Man(BLACK, ROOK)][19 := Man(BLACK, KNIGHT)][31 := Man(BLACK, BISHOP)]
  }

  lemma KingsAt(b: Board, k: Square, k2: Square)
    requires KingAt(b, WHITE, k) && KingAt(b, BLACK, k2)
    ensures KingSquare(b, WHITE) == k && KingSquare(b, BLACK) == k2
  {
    KingSquareIs(b, WHITE, k);
    KingSquareIs(b, BLACK, k2);
  }

  // A lone king attacks only its neighbours.
  lemma LoneKing(b: Board, c: Color, k: Square, t: Square)
    requires b[k] == Man(c, KING) && (forall s: Square :: Owned(b, c, s) ==> s == k) && !KingHit(k, t)
    ensures !Attacked(b, c, t)
  {
    hide KingHit;
  }

  // With no castling rooks and no en-passant square, these are the conditions that are left.
  lemma PlainWellFormed(b: Board, turn: Color, k: Square, k2: Square)
    requires KingAt(b, WHITE, k) && KingAt(b, BLACK, k2) && CountsOk(b, WHITE) && CountsOk(b, BLACK) && PawnRanksOk(b)
    requires !InCheck(b, Opposite(turn))
    ensures WellFormed(State(b, turn, {}, NO_SQUARE)) && Orthodox(State(b, turn, {}, NO_SQUARE))
  {
    KingsAt(b, k, k2);
    hide KingSquare, KingAt, InCheck, CountsOk, PawnRanksOk;
  }

  function Bare(): State { State(BareKings(), WHITE, {}, NO_SQUARE) }

  lemma BareIsWellFormed()
    ensures WellFormed(Bare()) && Orthodox(Bare())
  {
    var b := BareKings();
    forall c: Color, p: Piece | p != KING ensures Men(b, c, p) == {} {}
    assert Army(b, WHITE) == {4} && Army(b, BLACK) == {60};
    LoneKing(b, WHITE, 4, 60);
    InCheckKing(b, BLACK, 60);
    PlainWellFormed(b, WHITE, 4, 60);
  }

  lemma BareMove()
    ensures Legal(Bare(), Move.Move(4, 3, NO_PIECE))
  {
    var m := Move.Move(4, 3, NO_PIECE);
    var after := BareKings()[4 := Empty][3 := Man(WHITE, KING)];
    assert PieceMove(Bare(), m);
    assert PlayBoard(Bare(), m) == after;
    assert KingAt(after, WHITE, 3);
    InCheckKing(after, WHITE, 3);
    LoneKing(after, BLACK, 60, 3);
    hide PlayBoard, InCheck, PieceMove;
  }

  ghost function BarePosition(z: Tables, rule50: int, fullMove: int): Pos
  {
    PositionOf(z, Bare(), rule50, fullMove, Move.Move(0, 0, 0))
  }

  // The hypotheses of the theorems about sound positions and legal moves are met: kings on e1 and e8, and the
  // king goes to d1.
  lemma BareKingsAreSound(z: Tables)
    ensures Sound(BarePosition(z, 0, 1), z) && Legal(StateOf(BarePosition(z, 0, 1)), Move.Move(4, 3, NO_PIECE))
  {
    hide Bare, WellFormed, Orthodox, Sound, Legal, StateOf, PositionOf;
    BareIsWellFormed();
    PositionIsSound(z, Bare(), 0, 1, Move.Move(0, 0, 0));
    BareMove();
  }

  // ---- Texts that do not come back -----------------------------------------------------------------------

  // Neither the fifty-move limit nor a full-move number that has wrapped around survives the FEN text.
  lemma FenRefusesCounters(z: Tables)
    ensures Sound(BarePosition(z, 100, 1), z) && FenMeaning(FenTokens(BarePosition(z, 100, 1)), false) == Failed(Refused)
    ensures Sound(BarePosition(z, 0, 0), z) && FenMeaning(FenTokens(BarePosition(z, 0, 0)), false) == Failed(Refused)
  {
    BareIsWellFormed();
    PositionIsSound(z, Bare(), 100, 1, Move.Move(0, 0, 0));
    PositionIsSound(z, Bare(), 0, 0, Move.Move(0, 0, 0));
    hide Sound, FenMeaning, FenTokens, Bare, WellFormed, Orthodox, StateOf;
    FenIsLossless(z, BarePosition(z, 100, 1));
    FenIsLossless(z, BarePosition(z, 0, 0));
  }

  function Triple(): State { State(TripleCheck(), WHITE, {}, NO_SQUARE) }

  lemma TripleIsWellFormed()
    ensures WellFormed(Triple()) && Orthodox(Triple()) && KingSquare(TripleCheck(), WHITE) == 4
  {
    var b := TripleCheck();
    TripleCounts();
    assert PawnRanksOk(b);
    LoneKing(b, WHITE, 4, 56);
    InCheckKing(b, BLACK, 56);
    KingsAt(b, 4, 56);
    hide CountsOk;
    PlainWellFormed(b, WHITE, 4, 56);
  }

  lemma TripleCounts()
    ensures CountsOk(TripleCheck(), WHITE) && CountsOk(TripleCheck(), BLACK)
  {
    var b := TripleCheck();
    forall p: Piece | p != KING ensures Men(b, WHITE, p) == {} {}
    assert Army(b, WHITE) == {4};
    assert Men(b, BLACK, KNIGHT) == {19} && Men(b, BLACK, BISHOP) == {31} && Men(b, BLACK, ROOK) == {60};
    assert Men(b, BLACK, QUEEN) == {} && Men(b, BLACK, PAWN) == {};
    assert Army(b, BLACK) == {56, 60, 19, 31};
    hide Army, Men, TripleCheck;
  }

  // Rook, knight and bishop all give check on e1.
  lemma ThreeCheckers()
    ensures |CheckerSet(TripleCheck(), WHITE, 4)| > 2
  {
    var b := TripleCheck();
    assert Checks(b, WHITE, 4, 60) && Checks(b, WHITE, 4, 19) && Checks(b, WHITE, 4, 31);
    hide Checks, TripleCheck;
    SubsetCard({60, 19, 31}, CheckerSet(b, WHITE, 4));
    assert |{60, 19, 31}| == 3;
  }

  // A position that was never played, with three checkers, runs into the assertion of finish.
  lemma FenAssertsCheckers(z: Tables)
    ensures var p := PositionOf(z, Triple(), 0, 1, Move.Move(0, 0, 0));
            Sound(p, z) && FenMeaning(FenTokens(p), false) == Failed(AssertFails)
  {
    TripleIsWellFormed();
    ThreeCheckers();
    PositionIsSound(z, Triple(), 0, 1, Move.Move(0, 0, 0));
    hide Sound, FenMeaning, FenTokens, TripleCheck, WellFormed, Orthodox, StateOf, KingSquare, CheckerSet;
    FenIsLossless(z, PositionOf(z, Triple(), 0, 1, Move.Move(0, 0, 0)));
  }

  // ---- A game whose command is refused -------------------------------------------------------------------

  // 4k3/4p3/8/8/8/8/8/4K3 b - - 0 65535, and the pawn goes to e6.
  function Late(): State { State(KingsAndPawn(), BLACK, {}, NO_SQUARE) }

  const PUSH: Move := Move.Move(52, 44, NO_PIECE)

  lemma LateIsWellFormed()
    ensures WellFormed(Late()) && Orthodox(Late())
    ensures KingSquare(KingsAndPawn(), BLACK) == 60 && CheckerSet(KingsAndPawn(), BLACK, 60) == {}
  {
    var b := KingsAndPawn();
    LateCounts();
    assert PawnRanksOk(b);
    assert !Attacked(b, BLACK, 4);
    InCheckKing(b, WHITE, 4);
    LoneKing(b, WHITE, 4, 60);
    KingsAt(b, 4, 60);
    hide CountsOk;
    PlainWellFormed(b, BLACK, 4, 60);
  }

  lemma LateCounts()
    ensures CountsOk(KingsAndPawn(), WHITE) && CountsOk(KingsAndPawn(), BLACK)
  {
    var b := KingsAndPawn();
    forall p: Piece | p != KING ensures Men(b, WHITE, p) == {} {}
    forall p: Piece | p != KING && p != PAWN ensures Men(b, BLACK, p) == {} {}
    assert Army(b, WHITE) == {4} && Army(b, BLACK) == {60, 52} && Men(b, BLACK, PAWN) == {52};
    hide Army, Men, KingsAndPawn;
  }

  lemma PushIsLegal()
    ensures Legal(Late(), PUSH) && Resets(Late(), PUSH)
  {
    var after := KingsAndPawn()[52 := Empty][44 := Man(BLACK, PAWN)];
    assert SinglePush(Late(), PUSH);
    assert PlayBoard(Late(), PUSH) == after;
    assert KingAt(after, BLACK, 60);
    InCheckKing(after, BLACK, 60);
    LoneKing(after, WHITE, 4, 60);
    hide PlayBoard, InCheck, SinglePush;
  }

  ghost function LatePosition(z: Tables): Pos { PositionOf(z, Late(), 0, 65535, Move.Move(0, 0, 0)) }

  ghost function WrappedPosition(z: Tables): Pos { PositionOf(z, NextState(Late(), PUSH), 0, 0, PUSH) }

  lemma LateFollows(z: Tables)
    ensures Sound(LatePosition(z), z) && Follows(z, LatePosition(z), PUSH, WrappedPosition(z))
  {
    LateIsWellFormed();
    PushIsLegal();
    LateTurn();
    hide KingsAndPawn, WellFormed, Orthodox, Sound, Follows, Late, NextState, Legal, Resets, PositionOf, StateOf;
    PositionIsSound(z, Late(), 0, 65535, Move.Move(0, 0, 0));
    PositionFollows(z, Late(), PUSH, 0, 65535, Move.Move(0, 0, 0));
  }

  lemma LateTurn()
    ensures Late().turn == BLACK
  {}

  lemma LateFields(z: Tables)
    ensures var p, q := LatePosition(z), WrappedPosition(z);
            p.rule50 == 0 && p.fullMove == 65535 && p.checkers == {} && q.rule50 == 0 && q.fullMove == 0 && q.lastMove == PUSH
  {
    LateIsWellFormed();
    hide KingsAndPawn, WellFormed, Orthodox, KingSquare, CheckerSet, NextState;
  }

  lemma TwoPositions(z: Tables, p: Pos, q: Pos)
    requires Sound(p, z) && Follows(z, p, q.lastMove, q) && p.rule50 < 100 && q.rule50 == 0
    ensures History(z, [p, q]) && BelowLimit([p, q]) && StartPly([p, q], 1) == 1
  {
    hide Sound, Follows;
  }

  // The start is accepted by the reader, the move is legal, and the command for the position after it, which
  // starts from that very position, is refused: the full-move number has wrapped around to 0.
  lemma WrappedGame(z: Tables) returns (ps: seq<Pos>)
    ensures |ps| == 2 && History(z, ps) && BelowLimit(ps) && FenMeaning(FenTokens(ps[0]), ps[0].chess960).Read?
    ensures ps[0].fullMove == 65535 && ps[1].fullMove == 0 && ps[1].rule50 == 0 && StartPly(ps, 1) == 1
    ensures FenMeaning(BeforeMoves(CommandTokens(ps, 1, 1)[2..]), ps[1].chess960) == Failed(Refused)
  {
    hide *;
    LateFollows(z);
    LateFields(z);
    FollowsFacts(z, LatePosition(z), PUSH, WrappedPosition(z));
    TwoPositions(z, LatePosition(z), WrappedPosition(z));
    ps := [LatePosition(z), WrappedPosition(z)];
    FenIsLossless(z, LatePosition(z));
    FenIsLossless(z, WrappedPosition(z));
    CommandReads(z, ps, 1, 1);
  }
}
