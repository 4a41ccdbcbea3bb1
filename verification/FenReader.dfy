/** Reading FEN text: pos_set of src/position.c:173-331, for any text. */
module FenReader {
  import opened Geometry
  import opened Rules
  import opened Bitboards
  import opened Zobrist
  import opened Positions
  import opened Finish
  import opened PositionClass
  import opened Progress
  import opened Text
  import opened Lan
  import opened FenSpec
  import opened FenRoundTrip
  import opened Fen

  // What an accepted text leaves in the position.
  ghost predicate Loaded(z: Tables, p: Pos, q: Parsed)
  {
    Consistent(p) && StateOf(p) == q.st && Derived(p) && p.key == KeyOf(z, q.st) &&
    p.rule50 == q.rule50 && p.fullMove == q.fullMove && p.chess960 == q.chess960
  }

  // ---- Men -----------------------------------------------------------------------------------------------

  lemma NoMenKey(z: Tables, n: nat)
    requires n <= 64
    ensures MenKeyUpTo(z, NoMen(), n) == 0
  {
    if n > 0 { NoMenKey(z, n - 1); XorSelf(0); }
  }

  lemma XorZeroIsEqual(a: bv64, b: bv64)
    ensures Xor(a, b) == 0 <==> a == b
  {
    hide Xor;
    XorSelf(a);
    XorSelf(b);
    XorAssoc(a, b, b);
    XorComm(0, b);
  }

  lemma LabelChars(c: char)
    ensures Labelled(c) != Empty <==> UpperIndex(c) < 6 || LabelIndex(c) < 6
    ensures Labelled(c) != Empty ==> Labelled(c) == if LabelIndex(c) < 6 then Man(BLACK, LabelIndex(c)) else Man(WHITE, UpperIndex(c))
    ensures '1' <= c <= '8' ==> Labelled(c) == Empty && c != '/'
  {}

  lemma PlacementStep(t: string, i: nat, rank: int, file: int, b: Board)
    requires i < |t|
    ensures Placement(t[i..], rank, file, b) ==
            if '1' <= t[i] <= '8' then
              (var next := file + (t[i] as int - '0' as int);
               if next > 8 then Failed(Refused) else Placement(t[i + 1..], rank, next, b))
            else if t[i] == '/' then Placement(t[i + 1..], rank - 1, 0, b)
            else if Labelled(t[i]) == Empty then Failed(Refused)
            else if !OnBoard(rank, file) || b[SquareFrom(rank, file)] != Empty then Failed(AssertFails)
            else Placement(t[i + 1..], rank, file + 1, b[SquareFrom(rank, file) := Labelled(t[i])])
  {
    assert t[i..][0] == t[i] && t[i..][1..] == t[i + 1..];
  }

  // src/position.c:193-200: one man.
  method PutMan(z: Tables, pos: Position, c: char, rank: int, file: int, ghost b: Board) returns (outcome: Outcome)
    requires Represents(pos.byColor, pos.byPiece, b) && Xor(pos.key, MenKey(z, b)) == 0
    requires !('1' <= c <= '8') && c != '/'
    modifies pos`byColor, pos`byPiece, pos`key
    ensures outcome == if Labelled(c) == Empty then Rejected(Refused)
                       else if !OnBoard(rank, file) || b[SquareFrom(rank, file)] != Empty then Rejected(AssertFails)
                       else Accepted
    ensures outcome.Accepted? ==>
              var b2 := b[SquareFrom(rank, file) := Labelled(c)];
              Represents(pos.byColor, pos.byPiece, b2) && Xor(pos.key, MenKey(z, b2)) == 0
  {
    LabelChars(c);
    hide Xor, MenKey, UpperIndex, LabelIndex, Labelled;
    if UpperIndex(c) >= 6 && LabelIndex(c) >= 6 { return Rejected(Refused); }
    var black := LabelIndex(c) < 6;
    if !OnBoard(rank, file) { return Rejected(AssertFails); }
    var square := SquareFrom(rank, file);
    CellFacts(pos.View(), b, square, WHITE, KING);
    pos.ViewFields();
    hide Represents;
    if square in pos.View().Pieces() { return Rejected(AssertFails); }
    var piece := if black then LabelIndex(c) else UpperIndex(c);
    pos.SetSquare(z, if black then BLACK else WHITE, piece, square, b);
    outcome := Accepted;
  }

  // src/position.c:180-204
  method ReadPlacement(z: Tables, pos: Position, t: string) returns (outcome: Outcome, ghost b: Board)
    requires Represents(pos.byColor, pos.byPiece, NoMen()) && pos.key == 0
    modifies pos`byColor, pos`byPiece, pos`key
    ensures outcome == Placement(t, 7, 0, NoMen()).Kind()
    ensures outcome.Accepted? ==> b == Placement(t, 7, 0, NoMen()).value &&
                                  Represents(pos.byColor, pos.byPiece, b) && pos.key == MenKey(z, b)
  {
    hide Represents, Xor, Labelled, Placement;
    NoMenKey(z, 64);
    XorZeroIsEqual(pos.key, MenKey(z, NoMen()));
    hide MenKey;
    b := NoMen();
    assert t[0..] == t;
    var rank, file, i := 7, 0, 0;
    while i < |t|
      invariant 0 <= i <= |t|
      invariant Represents(pos.byColor, pos.byPiece, b) && Xor(pos.key, MenKey(z, b)) == 0
      invariant Placement(t, 7, 0, NoMen()) == Placement(t[i..], rank, file, b)
    {
      PlacementStep(t, i, rank, file, b);
      var c := t[i];
      if '1' <= c <= '8' {
        file := file + (c as int - '0' as int);
        if file > 8 { return Rejected(Refused), b; }
      } else if c == '/' {
        rank := rank - 1;
        file := 0;
      } else {
        var put := PutMan(z, pos, c, rank, file, b);
        if put != Accepted { return put, b; }
        b := b[SquareFrom(rank, file) := Labelled(c)];
        file := file + 1;
      }
      i := i + 1;
    }
    XorZeroIsEqual(pos.key, MenKey(z, b));
    PlacementEnd(rank, file, b);
    assert t[i..] == "";
    outcome := if rank != 0 then Rejected(Refused) else Accepted;
  }

  lemma PlacementEnd(rank: int, file: int, b: Board)
    ensures Placement("", rank, file, b) == if rank == 0 then Read(b) else Failed(Refused)
  {}

  // ---- Castling rights -----------------------------------------------------------------------------------

  lemma HomeRooksAre(p: Pos, b: Board, c: Color)
    requires Represents(p.byColor, p.byPiece, b)
    ensures RankBb(HomeRank(c)) * p.PiecesCP(c, ROOK) == HomeRooks(b, c)
  {
    hide Represents, RankOf;
    forall s: Square ensures s in RankBb(HomeRank(c)) * p.PiecesCP(c, ROOK) <==> s in HomeRooks(b, c) {
      CellFacts(p, b, s, c, ROOK);
    }
  }

  lemma CastleRightsStep(t: string, i: nat, b: Board, rooks: Bitboard)
    requires i < |t|
    ensures CastleRights(t[i..], b, rooks) ==
            if RightsLetter(t[i]) then
              (var r := RookNamed(b, t[i]);
               if r.Failed? then Failed(r.why)
               else if r.value in rooks then Failed(AssertFails)
               else CastleRights(t[i + 1..], b, rooks + {r.value}))
            else if t[i] != '-' || rooks != {} || i + 1 < |t| then Failed(Refused)
            else CastleRights(t[i + 1..], b, rooks)
  {
    hide RookNamed, RightsLetter;
    assert t[i..][0] == t[i] && t[i..][1..] == t[i + 1..];
  }

  // src/position.c:228-237: the rook that one letter names.
  method NameRook(p: Pos, c: char, ghost b: Board) returns (outcome: Outcome, rook: Square)
    requires Represents(p.byColor, p.byPiece, b) && RightsLetter(c)
    ensures outcome == RookNamed(b, c).Kind() && (outcome.Accepted? ==> rook == RookNamed(b, c).value)
  {
    hide Represents, HomeRooks;
    rook := 0;
    var color := if IsUpper(c) then WHITE else BLACK;
    var rank := HomeRank(color);
    HomeRooksAre(p, b, color);
    var ourRooks := RankBb(rank) * p.PiecesCP(color, ROOK);
    var uc := ToUpper(c);
    if uc == 'K' {
      if ourRooks == {} { return Rejected(AssertFails), rook; }
      rook := Msb(ourRooks);
    } else if uc == 'Q' {
      if ourRooks == {} { return Rejected(AssertFails), rook; }
      rook := Lsb(ourRooks);
    } else {
      rook := SquareFrom(rank, uc as int - 'A' as int);
    }
    outcome := Accepted;
  }

  // src/position.c:222-241
  method ReadCastling(pos: Position, t: string, ghost b: Board) returns (outcome: Outcome)
    requires Represents(pos.byColor, pos.byPiece, b) && pos.castleRooks == {}
    modifies pos`castleRooks
    ensures outcome == CastlingNamed(t, b).Kind()
    ensures outcome.Accepted? ==> pos.castleRooks == CastlingNamed(t, b).value
  {
    hide Represents, CastleRights, RookNamed, RightsLetter;
    if |t| > 4 { return Rejected(Refused); }
    var i := 0;
    assert t[0..] == t;
    while i < |t|
      invariant 0 <= i <= |t|
      invariant CastleRights(t, b, {}) == CastleRights(t[i..], b, pos.castleRooks)
    {
      CastleRightsStep(t, i, b, pos.castleRooks);
      var c := t[i];
      if RightsLetter(c) {
        pos.ViewFields();
        var named, rook := NameRook(pos.View(), c, b);
        if named != Accepted { return named; }
        if rook in pos.castleRooks { return Rejected(AssertFails); }
        pos.castleRooks := BbSet(pos.castleRooks, rook);
      } else if c != '-' || pos.castleRooks != {} || i + 1 < |t| {
        return Rejected(Refused);
      }
      i := i + 1;
    }
    assert t[i..] == "";
    NothingMore(b, pos.castleRooks);
    outcome := Accepted;
  }

  lemma MenAre(p: Pos, b: Board, c: Color, q: Piece)
    requires Represents(p.byColor, p.byPiece, b)
    ensures p.PiecesCP(c, q) == Men(b, c, q)
  {
    hide Represents;
    forall s: Square ensures s in p.PiecesCP(c, q) <==> s in Men(b, c, q) { CellFacts(p, b, s, c, q); }
  }

  // src/position.c:245-255
  method DetectChess960(p: Pos, force960: bool, ghost b: Board) returns (outcome: Outcome, chess960: bool)
    requires Represents(p.byColor, p.byPiece, b)
    ensures outcome == Detect960(b, p.castleRooks, force960).Kind()
    ensures outcome.Accepted? ==> chess960 == Detect960(b, p.castleRooks, force960).value
  {
    hide Represents, FileOf, Men;
    chess960 := force960;
    var rooks := p.castleRooks;
    while rooks != {} && !chess960
      invariant Detect960(b, p.castleRooks, force960) == Detect960(b, rooks, chess960)
    {
      var rook;
      rook, rooks := PopLsb(rooks);
      CellFacts(p, b, rook, WHITE, KING);
      ColorOnBoard(p, b, rook);
      if rook !in p.Pieces() { return Rejected(AssertFails), chess960; }
      var color := p.ColorOn(rook);
      MenAre(p, b, color, KING);
      var kings := p.PiecesCP(color, KING);
      if |kings| != 1 { return Rejected(AssertFails), chess960; }
      OneMember(kings);
      if (0 < FileOf(rook) && FileOf(rook) < 7) || FileOf(Lsb(kings)) != 4 { chess960 := true; }
    }
    outcome := Accepted;
  }

  // ---- Verification --------------------------------------------------------------------------------------

  lemma TwoKinds(p: Pos, b: Board, c: Color, q: Piece)
    requires Represents(p.byColor, p.byPiece, b) && q != PAWN
    ensures |p.PiecesCPP(c, q, PAWN)| == |Men(b, c, q)| + |Men(b, c, PAWN)|
  {
    hide Represents, Men;
    MenAre(p, b, c, q);
    MenAre(p, b, c, PAWN);
    assert p.PiecesCPP(c, q, PAWN) == p.PiecesCP(c, q) + p.PiecesCP(c, PAWN);
    forall s: Square ensures !(s in p.PiecesCP(c, q) && s in p.PiecesCP(c, PAWN)) {
      CellFacts(p, b, s, c, q);
      CellFacts(p, b, s, c, PAWN);
    }
    UnionCard(p.PiecesCP(c, q), p.PiecesCP(c, PAWN));
  }

  // src/position.c:281-289
  method VerifyCounts(p: Pos, c: Color, ghost b: Board) returns (ok: bool)
    requires Represents(p.byColor, p.byPiece, b)
    ensures ok <==> CountsOk(b, c) && OneKing(b, c)
  {
    TwoKinds(p, b, c, KNIGHT);
    TwoKinds(p, b, c, BISHOP);
    TwoKinds(p, b, c, ROOK);
    TwoKinds(p, b, c, QUEEN);
    MenAre(p, b, c, PAWN);
    MenAre(p, b, c, KING);
    ArmyIs(p, b, c);
    hide Represents, Men, Army;
    ok := !(|p.PiecesCPP(c, KNIGHT, PAWN)| > 10 || |p.PiecesCPP(c, BISHOP, PAWN)| > 10 ||
            |p.PiecesCPP(c, ROOK, PAWN)| > 10 || |p.PiecesCPP(c, QUEEN, PAWN)| > 9 ||
            |p.PiecesCP(c, PAWN)| > 8 || |p.PiecesCP(c, KING)| != 1 || |p.byColor[c]| > 16);
  }

  // src/position.c:291-293
  method VerifyPawnRanks(p: Pos, ghost b: Board) returns (ok: bool)
    requires Represents(p.byColor, p.byPiece, b)
    ensures ok <==> PawnRanksOk(b)
  {
    hide RankOf;
    var astray := p.byPiece[PAWN] * (RankBb(0) + RankBb(7));
    forall s: Square ensures s in astray <==> b[s].Man? && b[s].piece == PAWN && !(1 <= RankOf(s) <= 6) {
      CoordsRange(s);
    }
    if s :| s in astray { assert !PawnRanksOk(b); }
    ok := astray == {};
  }

  lemma OneKingAt(b: Board, c: Color)
    requires OneKing(b, c)
    ensures KingAt(b, c, KingSquare(b, c))
  {
    var k :| k in Men(b, c, KING);
    forall s: Square | b[s] == Man(c, KING) ensures s == k {
      assert s in Men(b, c, KING);
      assert |Men(b, c, KING) - {k}| == 0;
      assert s != k ==> s in Men(b, c, KING) - {k};
    }
    assert KingAt(b, c, k);
  }

  // src/position.c:301-314 for one side.
  method VerifySide(p: Pos, c: Color, ghost b: Board) returns (ok: bool)
    requires Represents(p.byColor, p.byPiece, b) && KingAt(b, c, KingSquare(b, c))
    ensures ok <==> RooksFit(p.castleRooks * Army(b, c), KingSquare(b, c))
  {
    ArmyIs(p, b, c);
    ghost var k := KingSquare(b, c);
    KingSet(p, b, c, k);
    hide Represents, Army, KingAt, KingSquare, FileOf, Segment;
    var own := p.castleRooks * p.byColor[c];
    if |own| == 2 {
      ok := Segment(Lsb(own), Msb(own)) * p.PiecesCP(c, KING) != {};
      assert k in Segment(Lsb(own), Msb(own)) ==> k in Segment(Lsb(own), Msb(own)) * p.PiecesCP(c, KING);
    } else if |own| == 1 {
      CoordsRange(k);
      ok := p.PiecesCP(c, KING) * (FileBb(0) + FileBb(7)) == {};
      assert FileOf(k) == 0 || FileOf(k) == 7 ==> k in p.PiecesCP(c, KING) * (FileBb(0) + FileBb(7));
    } else {
      ok := own == {};
    }
  }

  lemma KingSet(p: Pos, b: Board, c: Color, k: Square)
    requires Represents(p.byColor, p.byPiece, b) && KingAt(b, c, k)
    ensures p.PiecesCP(c, KING) == {k}
  {
    MenAre(p, b, c, KING);
    OneKingIs(b, c, k);
  }

  lemma CastleSubset(castle: Bitboard, ww: Bitboard, bb: Bitboard)
    ensures castle - (ww + bb) == {} <==> forall r: Square :: r in castle ==> r in ww || r in bb
  {
    if forall r: Square :: r in castle ==> r in ww || r in bb { assert castle - (ww + bb) == {}; }
    if castle - (ww + bb) == {} {
      forall r: Square | r in castle ensures r in ww || r in bb { assert r !in castle - (ww + bb); }
    }
  }

  // src/position.c:295-315
  method VerifyCastling(p: Pos, ghost b: Board) returns (ok: bool)
    requires Represents(p.byColor, p.byPiece, b) && OneKing(b, WHITE) && OneKing(b, BLACK)
    ensures ok <==> CastleFits(b, p.castleRooks)
  {
    hide Represents, OneKing, KingAt, KingSquare, RooksFit, HomeRooks, RankBb, Army;
    OneKingAt(b, WHITE);
    OneKingAt(b, BLACK);
    HomeRooksAre(p, b, WHITE);
    HomeRooksAre(p, b, BLACK);
    CastleSubset(p.castleRooks, HomeRooks(b, WHITE), HomeRooks(b, BLACK));
    NoRooksFit(b);
    ok := true;
    if p.castleRooks != {} {
      if p.castleRooks - (RankBb(0) * p.PiecesCP(WHITE, ROOK) + RankBb(7) * p.PiecesCP(BLACK, ROOK)) != {} { return false; }
      var white := VerifySide(p, WHITE, b);
      var black := VerifySide(p, BLACK, b);
      ok := white && black;
    }
  }

  lemma NoRooksFit(b: Board)
    ensures CastleFits(b, {}) && HomeRank(WHITE) == 0 && HomeRank(BLACK) == 7
  {
    hide KingSquare, Army;
    assert {} * Army(b, WHITE) == {} && {} * Army(b, BLACK) == {};
  }

  // src/position.c:317-327
  method VerifyEp(p: Pos, ghost b: Board) returns (ok: bool)
    requires Represents(p.byColor, p.byPiece, b)
    ensures ok <==> EpFits(b, p.turn, p.epSquare)
  {
    hide Represents;
    var e := p.epSquare;
    if e == NO_SQUARE { return true; }
    var rank := RankOf(e);
    var color := if rank == 2 then WHITE else BLACK;
    CellFacts(p, b, e, WHITE, KING);
    EpNeighbours(p, b, e, color);
    hide RankOf;
    if color == p.turn || e in p.Pieces() || (rank != 2 && rank != 5) { return false; }
    ok := !(e + PushInc(color) !in p.PiecesCP(color, PAWN) || e - PushInc(color) in p.Pieces());
  }

  lemma EpNeighbours(p: Pos, b: Board, e: Square, c: Color)
    requires Represents(p.byColor, p.byPiece, b) && c == if RankOf(e) == 2 then WHITE else BLACK
    ensures c != p.turn && (RankOf(e) == 2 || RankOf(e) == 5) <==> RelativeRank(Opposite(p.turn), e) == 2
    ensures RankOf(e) == 2 || RankOf(e) == 5 ==>
              0 <= e + PushInc(c) < 64 && 0 <= e - PushInc(c) < 64 &&
              (e + PushInc(c) in p.PiecesCP(c, PAWN) <==> b[e + PushInc(c)] == Man(c, PAWN)) &&
              (e - PushInc(c) in p.Pieces() <==> b[e - PushInc(c)] != Empty)
  {
    hide Represents;
    if RankOf(e) == 2 || RankOf(e) == 5 {
      CellFacts(p, b, e + PushInc(c), c, PAWN);
      CellFacts(p, b, e - PushInc(c), c, PAWN);
    }
  }

  // src/position.c:281-327
  method Verify(p: Pos, ghost b: Board) returns (ok: bool)
    requires Represents(p.byColor, p.byPiece, b)
    ensures ok <==> Verified(State(b, p.turn, p.castleRooks, p.epSquare))
  {
    hide Represents, CountsOk, OneKing, PawnRanksOk, CastleFits, EpFits;
    ok := VerifyCounts(p, WHITE, b);
    if !ok { return; }
    ok := VerifyCounts(p, BLACK, b);
    if !ok { return; }
    ok := VerifyPawnRanks(p, b);
    if !ok { return; }
    ok := VerifyCastling(p, b);
    if !ok { return; }
    ok := VerifyEp(p, b);
  }

  // src/position.c:329 with the asserts of finish.
  method FinishChecked(z: Tables, pos: Position, ghost b: Board) returns (outcome: Outcome)
    requires Represents(pos.byColor, pos.byPiece, b) && OneKing(b, WHITE) && OneKing(b, BLACK)
    modifies pos`attacked, pos`checkers, pos`pins
    ensures outcome == if FinishAsserts(State(b, pos.turn, pos.castleRooks, pos.epSquare)) then Accepted else Rejected(AssertFails)
    ensures outcome.Accepted? ==> Derived(pos.View()) && BoardOf(pos.View()) == b
  {
    hide Represents, OneKing, KingAt, KingSquare, KingHit, CheckerSet, AttackedSet, PinSet, BoardOf;
    OneKingAt(b, WHITE);
    OneKingAt(b, BLACK);
    assert pos.turn == WHITE || pos.turn == BLACK;
    ghost var k, k2 := KingSquare(b, pos.turn), KingSquare(b, Opposite(pos.turn));
    var p := pos.View();
    pos.ViewFields();
    KingLsbOf(p, b, pos.turn, k);
    KingLsbOf(p, b, Opposite(pos.turn), k2);
    if Lsb(p.PiecesCP(Opposite(pos.turn), KING)) in KingAttacks(Lsb(p.PiecesCP(pos.turn, KING))) { return Rejected(AssertFails); }
    pos.Finish(b);
    pos.ViewFields();
    outcome := if |pos.checkers| <= 2 then Accepted else Rejected(AssertFails);
  }

  // ---- The whole text ------------------------------------------------------------------------------------

  // (Position){.fullMove = 1}
  function Initial(): Pos
  {
    Pos([{}, {}], [{}, {}, {}, {}, {}, {}], {}, 0, {}, {}, {}, Move.Move(0, 0, 0), 1, WHITE, 0, 0, false)
  }

  lemma InitialFields()
    ensures Represents(Initial().byColor, Initial().byPiece, NoMen()) && Initial().key == 0 && Initial().castleRooks == {}
    ensures Initial().turn == WHITE && Initial().fullMove == 1 && Initial().rule50 == 0 && Initial().lastMove == Move.Move(0, 0, 0)
  {}

  // What has been read of the first three fields.
  ghost predicate MenRead(z: Tables, pos: Position, b: Board, turn: Color, castle: Bitboard, chess960: bool)
    reads pos
  {
    Represents(pos.byColor, pos.byPiece, b) && pos.turn == turn && pos.castleRooks == castle && pos.chess960 == chess960 &&
    pos.key == Xor(Xor(MenKey(z, b), TurnKey(z, turn)), CastlingKey(z, castle))
  }

  // src/position.c:206-220
  method ReadTurn(z: Tables, pos: Position, token: string) returns (outcome: Outcome)
    requires pos.turn == WHITE
    modifies pos`turn, pos`key
    ensures outcome == TurnNamed(token).Kind()
    ensures outcome.Accepted? ==> pos.turn == TurnNamed(token).value && pos.key == Xor(old(pos.key), TurnKey(z, pos.turn))
  {
    hide Xor;
    XorSelf(pos.key);
    if |token| != 1 { return Rejected(Refused); }
    if token[0] == 'w' {
      assert token == "w";
      pos.turn := WHITE;
    } else {
      if token[0] != 'b' { return Rejected(Refused); }
      assert token == "b";
      pos.turn := BLACK;
      pos.key := Xor(pos.key, z.turn);
    }
    outcome := Accepted;
  }

  // The first three fields and what they mean together.
  function FirstFields(ts: seq<string>, force960: bool): Parse<(Board, Color, Bitboard, bool)>
  {
    match Placement(FieldOr(ts, 0, ""), 7, 0, NoMen())
    case Failed(why) => Failed(why)
    case Read(b) =>
      match TurnNamed(FieldOr(ts, 1, ""))
      case Failed(why) => Failed(why)
      case Read(turn) =>
        match CastlingNamed(FieldOr(ts, 2, ""), b)
        case Failed(why) => Failed(why)
        case Read(castle) =>
          match Detect960(b, castle, force960)
          case Failed(why) => Failed(why)
          case Read(chess960) => Read((b, turn, castle, chess960))
  }

  lemma FieldsInTwo(ts: seq<string>, force960: bool)
    ensures FenFields(ts, force960) ==
            match FirstFields(ts, force960)
            case Failed(why) => Failed(why)
            case Read(q) => LastFields(ts, q.0, q.1, q.2, q.3)
  {
    hide Placement, TurnNamed, CastlingNamed, Detect960, LastFields;
  }

  // src/position.c:175-255
  method ReadFirst(z: Tables, pos: Position, fen: string, force960: bool) returns (outcome: Outcome, tail: Option<string>, token: string, ghost b: Board)
    requires pos.View() == Initial()
    modifies pos
    ensures outcome == FirstFields(Tokens(fen), force960).Kind()
    ensures outcome.Accepted? ==>
              var q := FirstFields(Tokens(fen), force960).value;
              b == q.0 && MenRead(z, pos, q.0, q.1, q.2, q.3) &&
              pos.fullMove == 1 && pos.rule50 == 0 && pos.lastMove == Move.Move(0, 0, 0) &&
              Rest(tail) == if |Tokens(fen)| > 3 then Tokens(fen)[3..] else []
  {
    hide Represents, Xor, MenKey, CastlingKey, TurnKey, Placement, TurnNamed, CastlingNamed, Detect960, NoMen, Initial, Tokens, Position.View;
    InitialFields();
    pos.ViewFields();
    pos.ViewLastMove();
    b := NoMen();
    ghost var ts := Tokens(fen);
    token, tail := StrTok(Some(fen), "");
    outcome, b := ReadPlacement(z, pos, token);
    if outcome != Accepted { return; }
    token, tail := StrTok(tail, token);
    outcome := ReadTurn(z, pos, token);
    if outcome != Accepted { return; }
    outcome, tail, token := ReadRights(z, pos, tail, token, force960, b);
  }

  // src/position.c:222-255
  method ReadRights(z: Tables, pos: Position, fen: Option<string>, token0: string, force960: bool, ghost b: Board)
      returns (outcome: Outcome, tail: Option<string>, token: string)
    requires Represents(pos.byColor, pos.byPiece, b) && pos.castleRooks == {}
    modifies pos`castleRooks, pos`key, pos`chess960
    ensures outcome == (match CastlingNamed(FieldOr(Rest(fen), 0, ""), b)
                        case Failed(why) => Rejected(why)
                        case Read(castle) => Detect960(b, castle, force960).Kind())
    ensures outcome.Accepted? ==>
              pos.castleRooks == CastlingNamed(FieldOr(Rest(fen), 0, ""), b).value &&
              pos.chess960 == Detect960(b, pos.castleRooks, force960).value &&
              pos.key == Xor(old(pos.key), CastlingKey(z, pos.castleRooks)) &&
              Rest(tail) == if Rest(fen) == [] then [] else Rest(fen)[1..]
  {
    hide Represents, Xor, CastlingKey, Detect960, CastleRights, Tokens;
    token, tail := StrTok(fen, token0);
    NothingMore(b, {});
    if tail.Some? {
      outcome := ReadCastling(pos, token, b);
      if outcome != Accepted { return; }
    }
    var ck := ZobristCastling(z, pos.castleRooks);
    pos.key := Xor(pos.key, ck);
    pos.ViewFields();
    var chess960;
    outcome, chess960 := DetectChess960(pos.View(), force960, b);
    pos.chess960 := chess960;
  }

  // src/position.c:257-279
  method ReadLast(z: Tables, pos: Position, fen: Option<string>, token0: string) returns (outcome: Outcome)
    requires pos.rule50 == 0 && pos.fullMove == 1
    modifies pos`epSquare, pos`key, pos`rule50, pos`fullMove
    ensures outcome == CountersNamed(Rest(fen)).Kind()
    ensures outcome.Accepted? ==>
              var q := CountersNamed(Rest(fen)).value;
              pos.epSquare == q.0 && pos.rule50 == q.1 && pos.fullMove == q.2 && pos.key == Xor(old(pos.key), z.enPassant(pos.epSquare))
  {
    hide Xor, Tokens, SquareNamed, ScannedUint;
    var token, tail := StrTok(fen, token0);
    if tail.None? { token := "-"; }
    if |token| > 2 { return Rejected(Refused); }
    var e := SquareNamed(token);
    SquareNamedRange(token);
    if e > 64 { return Rejected(Refused); }
    pos.epSquare := e;
    pos.key := Xor(pos.key, z.enPassant(pos.epSquare));
    token, tail := StrTok(tail, token);
    if tail.Some? {
      var ok, n := StrToUint(token, 255);
      if !ok { return Rejected(Refused); }
      pos.rule50 := n;
      if pos.rule50 >= 100 { return Rejected(Refused); }
    }
    token, tail := StrTok(tail, token);
    if tail.Some? {
      var ok, n := StrToUint(token, 65535);
      if !ok { return Rejected(Refused); }
      pos.fullMove := n;
      if pos.fullMove < 1 { return Rejected(Refused); }
    }
    outcome := Accepted;
  }

  lemma SquareNamedRange(t: string)
    ensures 0 <= SquareNamed(t) <= 65
  {}

  // En-passant square and counters, as fields of what is left of the text.
  function CountersNamed(ts: seq<string>): Parse<(OptSquare, nat, nat)>
  {
    match EpNamed(FieldOr(ts, 0, "-"))
    case Failed(why) => Failed(why)
    case Read(ep) =>
      match Rule50Named(Field(ts, 1))
      case Failed(why) => Failed(why)
      case Read(rule50) =>
        match FullMoveNamed(Field(ts, 2))
        case Failed(why) => Failed(why)
        case Read(fullMove) => Read((ep, rule50, fullMove))
  }

  lemma LastFieldsAre(ts: seq<string>, b: Board, turn: Color, castle: Bitboard, chess960: bool)
    ensures LastFields(ts, b, turn, castle, chess960) ==
            match CountersNamed(if |ts| > 3 then ts[3..] else [])
            case Failed(why) => Failed(why)
            case Read(q) => Read(Parsed(State(b, turn, castle, q.0), q.1, q.2, chess960))
  {
    hide EpNamed, Rule50Named, FullMoveNamed;
  }

  lemma KeyInParts(z: Tables, st: State)
    ensures KeyOf(z, st) == Xor(Xor(Xor(MenKey(z, st.board), TurnKey(z, st.turn)), CastlingKey(z, st.castle)), z.enPassant(st.ep))
  {
    hide Xor, MenKey, TurnKey, CastlingKey;
    XorAssoc(Xor(MenKey(z, st.board), TurnKey(z, st.turn)), CastlingKey(z, st.castle), z.enPassant(st.ep));
  }

  // src/position.c:173-279
  method ReadFields(z: Tables, pos: Position, fen: string, force960: bool) returns (outcome: Outcome, ghost b: Board)
    modifies pos
    ensures outcome == FenFields(Tokens(fen), force960).Kind()
    ensures outcome.Accepted? ==>
              var q := FenFields(Tokens(fen), force960).value;
              Represents(pos.byColor, pos.byPiece, b) && State(b, pos.turn, pos.castleRooks, pos.epSquare) == q.st &&
              pos.key == KeyOf(z, q.st) && pos.rule50 == q.rule50 && pos.fullMove == q.fullMove && pos.chess960 == q.chess960 &&
              pos.lastMove == Move.Move(0, 0, 0)
  {
    hide Represents, Xor, MenKey, TurnKey, CastlingKey, KeyOf, FirstFields, FenFields, LastFields, CountersNamed, Tokens, Initial;
    pos.CopyFrom(Initial());
    FieldsInTwo(Tokens(fen), force960);
    var tail, token;
    outcome, tail, token, b := ReadFirst(z, pos, fen, force960);
    if outcome != Accepted { return; }
    ghost var q := FirstFields(Tokens(fen), force960).value;
    LastFieldsAre(Tokens(fen), q.0, q.1, q.2, q.3);
    outcome := ReadLast(z, pos, tail, token);
    if outcome != Accepted { return; }
    KeyInParts(z, State(b, pos.turn, pos.castleRooks, pos.epSquare));
  }

  // src/position.c:173-331
  method PosSet(z: Tables, pos: Position, fen: string, force960: bool) returns (outcome: Outcome)
    modifies pos
    ensures outcome == FenMeaning(Tokens(fen), force960).Kind()
    ensures outcome.Accepted? ==> Loaded(z, pos.View(), FenMeaning(Tokens(fen), force960).value) && pos.lastMove == Move.Move(0, 0, 0)
  {
    hide Represents, KeyOf, FenFields, FinishAsserts, Tokens, CountsOk, OneKing, PawnRanksOk, CastleFits, EpFits, BoardOf, Derived;
    ghost var b;
    outcome, b := ReadFields(z, pos, fen, force960);
    if outcome != Accepted { return; }
    pos.ViewFields();
    var ok := Verify(pos.View(), b);
    if !ok { return Rejected(Refused); }
    outcome := FinishChecked(z, pos, b);
    pos.ViewFields();
  }

  // ---- Round trip ----------------------------------------------------------------------------------------

  predicate SameButLastMove(p: Pos, q: Pos) { p == q.(lastMove := p.lastMove) }

  lemma SameSets(p: Pos, q: Pos, b: Board)
    requires Represents(p.byColor, p.byPiece, b) && Represents(q.byColor, q.byPiece, b)
    ensures p.byColor == q.byColor && p.byPiece == q.byPiece
  {
    hide Represents;
    forall c: Color ensures p.byColor[c] == q.byColor[c] { ArmyIs(p, b, c); ArmyIs(q, b, c); }
    forall t: Piece ensures p.byPiece[t] == q.byPiece[t] {
      forall s: Square ensures s in p.byPiece[t] <==> s in q.byPiece[t] { ByPieceIs(p, b, s, t); ByPieceIs(q, b, s, t); }
    }
    assert p.byColor == q.byColor && p.byPiece == q.byPiece;
  }

  lemma ByPieceIs(p: Pos, b: Board, s: Square, t: Piece)
    requires Represents(p.byColor, p.byPiece, b)
    ensures s in p.byPiece[t] <==> b[s].Man? && b[s].piece == t
  {}

  // Loading what a position means gives that position back, last move excepted.
  lemma LoadedIsSame(z: Tables, p: Pos, q: Pos)
    requires Sound(p, z) && Loaded(z, q, Parsed(StateOf(p), p.rule50, p.fullMove, p.chess960))
    ensures SameButLastMove(q, p)
  {
    hide Sound, Represents, WellFormed, KeyOf, BoardOf, KingSquare, AttackedSet, CheckerSet, PinSet, Orthodox;
    SoundParts(p, z);
    SameSets(q, p, BoardOf(p));
  }

  // ---- What an accepted text is worth --------------------------------------------------------------------

  // The counts accepted are those that promotions can explain: no kind has more men beyond its first two (one queen)
  // than pawns are missing, with at most eight pawns and sixteen men.
  lemma CountsMean(b: Board, c: Color)
    ensures CountsOk(b, c) <==>
            |Men(b, c, PAWN)| <= 8 && |Army(b, c)| <= 16 &&
            forall q: Piece :: q <= QUEEN ==> |Men(b, c, q)| - (if q == QUEEN then 1 else 2) <= 8 - |Men(b, c, PAWN)|
  {
    hide Men, Army;
    if CountsOk(b, c) {
      forall q: Piece | q <= QUEEN ensures |Men(b, c, q)| - (if q == QUEEN then 1 else 2) <= 8 - |Men(b, c, PAWN)| {
        assert q == KNIGHT || q == BISHOP || q == ROOK || q == QUEEN;
      }
    }
  }

  // Fields that are missing at the end mean no castling rights, no en-passant square, a counter of 0 and move 1.
  lemma MissingFields(ts: seq<string>, force960: bool)
    requires 2 <= |ts| < 6
    ensures var all := ts + ["-", "-", "0", "1"][|ts| - 2..]; |all| == 6 && FenMeaning(all, force960) == FenMeaning(ts, force960)
  {
    hide Verified, FinishAsserts, Detect960, Placement, TurnNamed, CastleRights, EpNamed, ScannedUint;
    var all := ts + ["-", "-", "0", "1"][|ts| - 2..];
    assert forall i: nat :: i < |ts| ==> all[i] == ts[i];
    assert forall i: nat :: |ts| <= i < 6 ==> all[i] == ["-", "-", "0", "1"][i - 2];
    forall b: Board ensures CastlingNamed("-", b) == CastlingNamed("", b) {
      DashReads(b);
      NothingMore(b, {});
    }
    ZeroAndOne();
  }

  lemma ZeroAndOne()
    ensures ScannedUint("0", 255) == Some(0) && ScannedUint("1", 65535) == Some(1)
  {
    ScannedDigits(0, 255);
    ScannedDigits(1, 65535);
    assert Digits(0) == "0" && Digits(1) == "1";
  }

  // What the reader does not look at: a check of the side that is not to move, the rank of a king with castling
  // rooks, and whether the king was attacked before the double push.
  ghost predicate Unchecked(st: State)
  {
    !InCheck(st.board, Opposite(st.turn)) &&
    (forall c: Color :: st.castle * Army(st.board, c) != {} ==> RankOf(KingSquare(st.board, c)) == HomeRank(c)) &&
    (16 <= st.ep < 48 ==> !InCheck(UndoDoublePush(st.board, Opposite(st.turn), st.ep), st.turn))
  }

  // These three are all that is missing.
  lemma VerifiedIsWellFormedIff(st: State)
    requires Verified(st)
    ensures WellFormed(st) <==> Unchecked(st)
  {
    hide InCheck, CountsOk, PawnRanksOk, CastleOk, CastleFits, KingSquare, RankOf, KingAt, OneKing, Army, EpOk, EpFits, UndoDoublePush;
    OneKingAt(st.board, WHITE);
    OneKingAt(st.board, BLACK);
    CastleFitsIff(st);
    EpFitsIff(st);
  }

  lemma EpFitsIff(st: State)
    requires EpFits(st.board, st.turn, st.ep)
    ensures st.ep != NO_SQUARE ==> 16 <= st.ep < 48
    ensures EpOk(st) <==> (16 <= st.ep < 48 ==> !InCheck(UndoDoublePush(st.board, Opposite(st.turn), st.ep), st.turn))
  {
    hide InCheck, UndoDoublePush;
  }

  // Conversely to OrthodoxDetected: what is not taken for Chess960 is orthodox.
  lemma {:induction false} NotDetected(b: Board, rooks: Bitboard, r: Square)
    requires Detect960(b, rooks, false) == Read(false) && r in rooks
    ensures b[r].Man? && |Men(b, b[r].color, KING)| == 1 && (FileOf(r) == 0 || FileOf(r) == 7)
    ensures Men(b, b[r].color, KING) != {} && FileOf(Lsb(Men(b, b[r].color, KING))) == 4
    decreases |rooks|
  {
    var l := Lsb(rooks);
    CoordsRange(l);
    hide FileOf, Men;
    if l != r {
      KnownIsKept(b, rooks - {l});
      NotDetected(b, rooks - {l}, r);
    }
  }

  lemma KnownIsKept(b: Board, rooks: Bitboard)
    ensures Detect960(b, rooks, true) == Read(true)
  {}

  lemma NotDetectedIsOrthodox(st: State)
    requires Detect960(st.board, st.castle, false) == Read(false)
    ensures Orthodox(st)
  {
    hide FileOf, Men, KingSquare, Detect960;
    forall r: Square | r in st.castle && st.board[r].Man?
      ensures FileOf(KingSquare(st.board, st.board[r].color)) == 4 && (FileOf(r) == 0 || FileOf(r) == 7)
    {
      NotDetected(st.board, st.castle, r);
      OneKingAt(st.board, st.board[r].color);
      OneKingIs(st.board, st.board[r].color, KingSquare(st.board, st.board[r].color));
    }
  }

  lemma CountersInRange(t: Option<string>)
    ensures Rule50Named(t).Read? ==> 0 <= Rule50Named(t).value < 100
    ensures FullMoveNamed(t).Read? ==> 1 <= FullMoveNamed(t).value < 65536
  {
    hide ScanUint;
  }

  lemma AcceptedParts(ts: seq<string>, force960: bool)
    requires FenMeaning(ts, force960).Read?
    ensures var q := FenMeaning(ts, force960).value;
            Verified(q.st) && 0 <= q.rule50 < 100 && 1 <= q.fullMove < 65536 &&
            Detect960(q.st.board, q.st.castle, force960) == Read(q.chess960)
  {
    hide Verified, FinishAsserts, Detect960, Placement, TurnNamed, CastlingNamed, EpNamed, Rule50Named, FullMoveNamed, NoMen;
    CountersInRange(Field(ts, 4));
    CountersInRange(Field(ts, 5));
  }

  lemma ModeIsRight(st: State, force960: bool, chess960: bool)
    requires Detect960(st.board, st.castle, force960) == Read(chess960)
    ensures chess960 || Orthodox(st)
  {
    hide Orthodox;
    if force960 {
      KnownIsKept(st.board, st.castle);
    } else if !chess960 {
      NotDetectedIsOrthodox(st);
    }
  }

  // For every text: what is loaded is a position that the theorems about games start from, exactly when these
  // three conditions hold.
  lemma AcceptedIsSoundIff(z: Tables, ts: seq<string>, force960: bool, p: Pos)
    requires FenMeaning(ts, force960).Read? && Loaded(z, p, FenMeaning(ts, force960).value)
    ensures Sound(p, z) <==> Unchecked(StateOf(p))
  {
    hide FenMeaning, Unchecked, WellFormed, Orthodox, Consistent, Derived, KeyOf, Verified, Detect960, StateOf;
    AcceptedParts(ts, force960);
    VerifiedIsWellFormedIff(StateOf(p));
    ModeIsRight(StateOf(p), force960, p.chess960);
  }

  // Writing a position and reading the text back: accepted exactly when the counters are in the reader's
  // range (and finish's assertion on the checkers holds), and then everything is restored but lastMove.
  method WriteThenRead(z: Tables, p: Pos) returns (outcome: Outcome, pos: Position)
    requires Sound(p, z)
    ensures outcome == if !(p.rule50 < 100 && p.fullMove >= 1) then Rejected(Refused)
                       else if |p.checkers| > 2 then Rejected(AssertFails)
                       else Accepted
    ensures outcome.Accepted? ==> SameButLastMove(pos.View(), p)
    ensures fresh(pos)
  {
    hide Sound, FenMeaning, FenTokens, Loaded, Tokens, SameButLastMove;
    var fen := PosGet(z, p);
    FenTokensAreWords(z, p);
    JoinedTokens(FenTokens(p));
    FenIsLossless(z, p);
    pos := new Position();
    outcome := PosSet(z, pos, fen, p.chess960);
    if outcome == Accepted { LoadedIsSame(z, p, pos.View()); }
  }
}
