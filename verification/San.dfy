/** Standard algebraic notation (src/position.c:579-675) against section 8.2.3 of the PGN standard. */
module San {
  import opened Geometry
  import opened Rules
  import opened Legality
  import opened Bitboards
  import opened Zobrist
  import opened Positions
  import opened Finish
  import opened MoveGen
  import opened MoveGenExact
  import opened Preservation
  import opened PositionClass
  import opened Lan

  const PIECE_LETTERS := "NBRQKP."

  function Letter(p: OptPiece): char { PIECE_LETTERS[p] }

  // ---- The standard --------------------------------------------------------------------------------------

  // Another man of the same kind on r could legally go to the same square.
  ghost predicate Rival(st: State, m: Move, r: Square)
  {
    r != m.from && st.board[r] == st.board[m.from] && Legal(st, Move.Move(r, m.to, NO_PIECE))
  }

  ghost predicate HasRival(st: State, m: Move) { exists r: Square :: Rival(st, m, r) }

  ghost predicate RivalOnFile(st: State, m: Move) { exists r: Square :: Rival(st, m, r) && FileOf(r) == FileOf(m.from) }

  ghost predicate RivalOnRank(st: State, m: Move) { exists r: Square :: Rival(st, m, r) && RankOf(r) == RankOf(m.from) }

  function FileText(s: Square): char { CoordsRange(s); FileChar(FileOf(s)) }

  function RankText(s: Square): char { CoordsRange(s); RankChar(RankOf(s)) }

  // Section 8.2.3.4: nothing if the move is clear, else the file if that distinguishes, else the rank if that
  // does, else both.
  ghost function Disambiguation(st: State, m: Move): string
  {
    if !HasRival(st, m) then ""
    else if !RivalOnFile(st, m) then [FileText(m.from)]
    else if !RivalOnRank(st, m) then [RankText(m.from)]
    else [FileText(m.from), RankText(m.from)]
  }

  predicate Captures(st: State, m: Move)
  {
    Owned(st.board, Opposite(st.turn), m.to) || (st.board[m.from] == Man(st.turn, PAWN) && m.to == st.ep)
  }

  function Cross(x: bool): string { if x then "x" else "" }

  function PromotionText(prom: OptPiece): string { if prom < NO_PIECE then ['=', Letter(prom)] else "" }

  // Section 8.2.3.3: a pawn capture names the file the pawn comes from.
  function PawnText(st: State, m: Move): string
  {
    (if Captures(st, m) then [FileText(m.from), 'x'] else "") + SquareName(m.to) + PromotionText(m.prom)
  }

  ghost function StandardSan(st: State, m: Move): string
  {
    if !st.board[m.from].Man? then ""
    else if st.board[m.from].piece == PAWN then PawnText(st, m)
    else if IsCastling(st, m) then (if m.to > m.from then "O-O" else "O-O-O")
    else [Letter(st.board[m.from].piece)] +
         (if st.board[m.from].piece == KING then "" else Disambiguation(st, m)) + Cross(Captures(st, m)) + SquareName(m.to)
  }

  // ---- Contesters are the rivals -------------------------------------------------------------------------

  // Men of the same kind that reach the target square over the present occupancy (src/position.c:620-638).
  function Reachers(p: Pos, piece: Piece, from: Square, to: Square): Bitboard
  {
    (p.PiecesCP(p.turn, piece) - {from}) *
    (if piece == KNIGHT then KnightAttacks(to)
     else if piece == BISHOP then BishopAttacks(to, p.Pieces())
     else if piece == ROOK then RookAttacks(to, p.Pieces())
     else BishopAttacks(to, p.Pieces()) + RookAttacks(to, p.Pieces()))
  }

  lemma ReachersAre(p: Pos, b: Board, piece: Piece, from: Square, to: Square, r: Square)
    requires Represents(p.byColor, p.byPiece, b) && piece <= QUEEN
    ensures r in Reachers(p, piece, from, to) <==> r != from && b[r] == Man(p.turn, piece) && Hits(b, r, to)
  {
    hide Dir, Represents, KnightHit, KingHit, PawnHit, RookDir, BishopDir, Visible, ClearPath;
    CellFacts(p, b, r, p.turn, piece);
    LeapersOffLine(r, to);
    OccIsPieces(p, b);
    VisibleIff(b, p.Pieces(), to, r);
    if b[r] == Man(p.turn, piece) && IsSlider(piece) { SliderHits(b, r, to); }
    PieceBounds(piece);
  }

  lemma PieceBounds(p: Piece)
    ensures p <= QUEEN ==> p == KNIGHT || p == BISHOP || p == ROOK || p == QUEEN
    ensures IsSlider(p) <==> p == BISHOP || p == ROOK || p == QUEEN
  {}

  // A pinned knight never stays on its ray.
  lemma PinnedKnight(b: Board, us: Color, k: Square, r: Square, to: Square)
    requires Pinned(b, us, k, r) && KnightHit(r, to) && to != k
    ensures !OnRay(k, r, to)
  {
    hide Dir, Dist, KnightHit, EnemySlider;
    var e: Square :| PinnedBy(b, us, k, r, e);
    LeapersOffLine(r, to);
    DirReverse(r, to);
    if Dir(k, to) == Dir(k, r) {
      if Dist(k, r) < Dist(k, to) { SameRay(k, r, to); }
      else if Dist(k, to) < Dist(k, r) { SameRay(k, to, r); }
      else { PolarUnique(k, r, to); }
    }
  }

  lemma MovedPieceMove(st: State, m: Move, r: Square)
    requires PieceMove(st, m) && st.board[r] == st.board[m.from] && Hits(st.board, r, m.to)
    ensures PieceMove(st, Move.Move(r, m.to, NO_PIECE))
  {
    hide Hits;
  }

  // Rivals are the reachers that the pins let go: the checks to be answered are the same for all of them.
  lemma RivalIff(z: Tables, p: Pos, m: Move, r: Square)
    requires Sound(p, z) && Legal(StateOf(p), m) && BoardOf(p)[m.from].piece <= QUEEN && BoardOf(p)[m.from].Man?
    ensures Rival(StateOf(p), m, r) <==>
            r in Reachers(p, BoardOf(p)[m.from].piece, m.from, m.to) && StaysPinned(BoardOf(p), p.turn, OurKing(p), r, m.to)
  {
    hide Sound, BoardOf, Represents, Reachers, StaysPinned, AnswersChecks, WellFormed, Ready, Hits, PlayBoard, Castling, EnPassant, OurKing, Legal;
    var st, b := StateOf(p), BoardOf(p);
    var m2 := Move.Move(r, m.to, NO_PIECE);
    SoundParts(p, z);
    SoundIsReady(p, z);
    LegalMover(st, m);
    LegalIsPieceMove(st, m);
    ReachersAre(p, b, b[m.from].piece, m.from, m.to, r);
    PieceLegal(p, m);
    if b[r] == b[m.from] {
      if Hits(b, r, m.to) {
        MovedPieceMove(st, m, r);
        PieceLegal(p, m2);
      }
      if Legal(st, m2) {
        LegalIsPieceMove(st, m2);
      }
    }
  }

  lemma SoundIsReady(p: Pos, z: Tables)
    requires Sound(p, z)
    ensures Ready(p)
  {}

  lemma LegalIsPieceMove(st: State, m: Move)
    requires WellFormed(st) && Legal(st, m) && st.board[m.from].Man? && st.board[m.from].piece <= QUEEN
    ensures PieceMove(st, m) && Hits(st.board, m.from, m.to) && Owned(st.board, st.turn, m.from) && !Owned(st.board, st.turn, m.to)
    ensures m.prom == NO_PIECE
  {
    hide WellFormed, Legal, Hits, PlayBoard, Castling, RelativeRank, PawnHit;
    LegalUnfold(st, m);
    KingsOk(st, st.turn);
    if Castling(st, m) { CastlingKing(st, m); }
  }

  lemma CastlingKing(st: State, m: Move)
    requires Castling(st, m)
    ensures st.board[m.from] == Man(st.turn, KING)
  {
    hide Attacked, KingDest, RookDest;
  }

  lemma KnightContester(z: Tables, p: Pos, m: Move, r: Square)
    requires Sound(p, z) && Legal(StateOf(p), m) && BoardOf(p)[m.from] == Man(p.turn, KNIGHT)
    ensures r in Reachers(p, KNIGHT, m.from, m.to) - p.pins <==> Rival(StateOf(p), m, r)
  {
    hide Sound, BoardOf, Represents, Reachers, Rival, AnswersChecks, WellFormed, Ready, PlayBoard, Castling, EnPassant, OurKing, Legal, Pinned, OnRay, Hits, KnightHit, KingAt;
    var b := BoardOf(p);
    RivalIff(z, p, m, r);
    SoundParts(p, z);
    SoundIsReady(p, z);
    ReachersAre(p, b, KNIGHT, m.from, m.to, r);
    LegalIsPieceMove(StateOf(p), m);
    ReadyKing(p);
    DerivedPins(p, r);
    if r in Reachers(p, KNIGHT, m.from, m.to) && r in p.pins {
      KnightHits(b, r, m.to);
      PinnedKnight(b, p.turn, OurKing(p), r, m.to);
    }
  }

  lemma KnightHits(b: Board, r: Square, to: Square)
    requires b[r].Man? && b[r].piece == KNIGHT && Hits(b, r, to)
    ensures KnightHit(r, to)
  {
    hide KnightHit;
  }

  lemma SliderContester(z: Tables, p: Pos, m: Move, r: Square)
    requires Sound(p, z) && Legal(StateOf(p), m) && BoardOf(p)[m.from].Man? && BoardOf(p)[m.from].piece != KNIGHT && BoardOf(p)[m.from].piece <= QUEEN
    ensures r in Reachers(p, BoardOf(p)[m.from].piece, m.from, m.to) && (r in p.pins ==> m.to in Ray(OurKing(p), r)) <==>
            Rival(StateOf(p), m, r)
  {
    hide *;
    PieceBounds(BoardOf(p)[m.from].piece);
    RivalIff(z, p, m, r);
    SoundIsReady(p, z);
    PinTestIs(p, r, m.to);
    PinTestDef(p.pins, OurKing(p), r, m.to);
  }

  lemma PinTestDef(pins: Bitboard, king: Square, from: Square, to: Square)
    ensures PinTest(pins, king, from, to) <==> (from in pins ==> to in Ray(king, from))
  {}

  // src/position.c:615-650
  method FindContesters(z: Tables, p: Pos, m: Move, piece: Piece) returns (contesters: Bitboard)
    requires Sound(p, z) && Legal(StateOf(p), m) && BoardOf(p)[m.from] == Man(p.turn, piece) && piece <= QUEEN
    ensures forall r: Square :: r in contesters <==> Rival(StateOf(p), m, r)
  {
    hide *;
    KingLsb(p) by { SoundIsReady(p, z); }
    PieceBounds(piece);
    if piece == KNIGHT {
      contesters := Reachers(p, piece, m.from, m.to) - p.pins;
      forall r: Square ensures r in contesters <==> Rival(StateOf(p), m, r) { KnightContester(z, p, m, r); }
    } else {
      contesters := ReleasePinned(p, Lsb(p.PiecesCP(p.turn, KING)), Reachers(p, piece, m.from, m.to), m.to);
      forall r: Square ensures r in contesters <==> Rival(StateOf(p), m, r) { SliderContester(z, p, m, r); }
    }
  }

  // src/position.c:640-649: pinned sliders that would leave their ray do not contest.
  method ReleasePinned(p: Pos, king: Square, reachers: Bitboard, to: Square) returns (contesters: Bitboard)
    ensures forall r: Square :: r in contesters <==> r in reachers && (r in p.pins ==> to in Ray(king, r))
  {
    hide Ray, OnRay;
    contesters := reachers;
    var pinnedContesters := contesters * p.pins;
    while pinnedContesters != {}
      invariant pinnedContesters <= contesters && pinnedContesters <= p.pins
      invariant forall r: Square :: r in contesters <==>
                  r in reachers && (r in p.pins && r !in pinnedContesters ==> to in Ray(king, r))
    {
      var pinnedContester: Square;
      pinnedContester, pinnedContesters := PopLsb(pinnedContesters);
      if to !in Ray(king, pinnedContester) {
        contesters := BbClear(contesters, pinnedContester);
      }
    }
  }

  // ---- The text --------------------------------------------------------------------------------------------

  // src/position.c:652-666.  Of the squares that a rook on an empty board would reach, those with contesters
  // are on the rank or on the file of the mover.
  method Disambiguate(from: Square, contesters: Bitboard, ghost st: State, ghost m: Move) returns (t: string)
    requires m.from == from && from !in contesters
    requires forall r: Square :: r in contesters <==> Rival(st, m, r)
    ensures t == Disambiguation(st, m)
  {
    hide Rival, Dir, RookDir;
    OnRankOrFile(from, contesters);
    t := "";
    if contesters != {} {
      if RookAttacks(from, {}) * contesters != {} {
        if RankBb(RankOf(from)) * contesters != {} { t := t + [FileText(from)]; }
        if FileBb(FileOf(from)) * contesters != {} { t := t + [RankText(from)]; }
      } else {
        t := t + [FileText(from)];
      }
    }
    ContestersSay(from, contesters, st, m);
  }

  lemma ContestersSay(from: Square, contesters: Bitboard, st: State, m: Move)
    requires m.from == from
    requires forall r: Square :: r in contesters <==> Rival(st, m, r)
    ensures contesters != {} <==> HasRival(st, m)
    ensures RankBb(RankOf(from)) * contesters != {} <==> RivalOnRank(st, m)
    ensures FileBb(FileOf(from)) * contesters != {} <==> RivalOnFile(st, m)
  {
    hide Rival, RankOf, FileOf;
    if r: Square :| Rival(st, m, r) { assert r in contesters; }
    if r: Square :| Rival(st, m, r) && RankOf(r) == RankOf(from) { assert r in RankBb(RankOf(from)) * contesters; }
    if r: Square :| Rival(st, m, r) && FileOf(r) == FileOf(from) { assert r in FileBb(FileOf(from)) * contesters; }
    if r :| r in contesters { assert Rival(st, m, r); }
    if r :| r in RankBb(RankOf(from)) * contesters { assert Rival(st, m, r); }
    if r :| r in FileBb(FileOf(from)) * contesters { assert Rival(st, m, r); }
  }

  lemma OnRankOrFile(from: Square, contesters: Bitboard)
    requires from !in contesters
    ensures RookAttacks(from, {}) * contesters != {} <==>
            RankBb(RankOf(from)) * contesters != {} || FileBb(FileOf(from)) * contesters != {}
  {
    hide RankOf, FileOf, Between;
    forall r: Square | r != from
      ensures r in RookAttacks(from, {}) <==> r in RankBb(RankOf(from)) || r in FileBb(FileOf(from))
    {
      RookLines(from, r);
    }
    if r :| r in RookAttacks(from, {}) * contesters {
      assert r in RankBb(RankOf(from)) * contesters || r in FileBb(FileOf(from)) * contesters;
    }
    if r :| r in RankBb(RankOf(from)) * contesters { assert r in RookAttacks(from, {}) * contesters; }
    if r :| r in FileBb(FileOf(from)) * contesters { assert r in RookAttacks(from, {}) * contesters; }
  }

  lemma RookLines(a: Square, b: Square)
    requires a != b
    ensures RookDir(Dir(a, b)) <==> RankOf(a) == RankOf(b) || FileOf(a) == FileOf(b)
  {}

  lemma NoRivalOfItself(st: State, m: Move)
    ensures !Rival(st, m, m.from)
  {}

  // What the code looks at is what the standard speaks of.
  lemma SanTests(z: Tables, p: Pos, m: Move)
    requires Sound(p, z) && Legal(StateOf(p), m)
    ensures BoardOf(p)[m.from].Man? && BoardOf(p)[m.from].color == p.turn && p.PieceOn(m.from) == BoardOf(p)[m.from].piece
    ensures m.to in p.byColor[Opposite(p.turn)] <==> Owned(BoardOf(p), Opposite(p.turn), m.to)
    ensures m.to in p.byColor[p.turn] <==> Owned(BoardOf(p), p.turn, m.to)
  {
    hide Sound, Legal, WellFormed, Represents, BoardOf, PlayBoard, OrdinaryPawnMove, EnPassant, PieceMove, Castling, Derived;
    SoundParts(p, z);
    LegalMover(StateOf(p), m);
    PieceOnBoard(p, BoardOf(p), m.from);
    CellFacts(p, BoardOf(p), m.to, p.turn, KING);
    CellFacts(p, BoardOf(p), m.to, Opposite(p.turn), KING);
  }

  // A pawn that does not capture stays on its file.
  lemma PushFile(st: State, m: Move)
    requires WellFormed(st) && Legal(st, m) && st.board[m.from] == Man(st.turn, PAWN)
    ensures !Captures(st, m) ==> FileOf(m.to) == FileOf(m.from)
    ensures m.prom <= QUEEN || m.prom == NO_PIECE
  {
    hide WellFormed, Legal, RankOf, FileOf, PawnHit, RelativeRank, PushInc, PlayBoard, Castling, CastlingSetup;
    LegalMover(st, m);
    if SinglePush(st, m) { PushStaysOnFile(st.turn, m.from, m.to); }
    if DoublePush(st, m) { PushStaysOnFile(st.turn, m.from, m.to); }
  }

  lemma PushStaysOnFile(c: Color, a: Square, b: Square)
    requires b == a + PushInc(c) || b == a + 2 * PushInc(c)
    ensures FileOf(a) == FileOf(b)
  {}

  // src/position.c:579-675: for every legal move, the text that the standard prescribes.
  method MoveToSan(z: Tables, p: Pos, m: Move) returns (san: string)
    requires Sound(p, z) && Legal(StateOf(p), m)
    ensures san == StandardSan(StateOf(p), m)
  {
    hide *;
    ghost var st := StateOf(p);
    SanTests(z, p, m);
    StateFields(p);
    PieceKinds(BoardOf(p)[m.from].piece);
    var piece := p.PieceOn(m.from);
    if piece == PAWN {
      san := [FileText(m.from)];
      if m.to in p.byColor[Opposite(p.turn)] || m.to == p.epSquare {
        san := san + "x" + [FileText(m.to)];
      }
      san := san + [RankText(m.to)];
      if m.prom < NO_PIECE { san := san + "=" + [Letter(m.prom)]; }
      PawnSanIs(z, p, m, san);
    } else if piece == KING {
      if m.to in p.byColor[p.turn] {
        san := if m.to > m.from then "O-O" else "O-O-O";
      } else {
        san := "K";
        if m.to in p.byColor[Opposite(p.turn)] { san := san + "x"; }
        san := san + SquareName(m.to);
      }
      KingSanIs(z, p, m, san);
    } else {
      var contesters := FindContesters(z, p, m, piece);
      NoRivalOfItself(st, m);
      var d := Disambiguate(m.from, contesters, st, m);
      san := [Letter(piece)] + d;
      if m.to in p.byColor[Opposite(p.turn)] { san := san + "x"; }
      san := san + SquareName(m.to);
      PieceSanIs(z, p, m, d, san);
    }
  }

  lemma PawnSanIs(z: Tables, p: Pos, m: Move, san: string)
    requires Sound(p, z) && Legal(StateOf(p), m) && BoardOf(p)[m.from] == Man(p.turn, PAWN)
    requires san == [FileText(m.from)] +
                    (if Owned(BoardOf(p), Opposite(p.turn), m.to) || m.to == p.epSquare then "x" + [FileText(m.to)] else "") +
                    [RankText(m.to)] + (if m.prom < NO_PIECE then "=" + [Letter(m.prom)] else "")
    ensures san == StandardSan(StateOf(p), m)
  {
    hide Sound, Legal, BoardOf, WellFormed, Derived, RankOf, FileOf, FileChar, RankChar, Disambiguation, Represents;
    SoundParts(p, z);
    PushFile(StateOf(p), m);
  }

  lemma KingSanIs(z: Tables, p: Pos, m: Move, san: string)
    requires Sound(p, z) && Legal(StateOf(p), m) && BoardOf(p)[m.from] == Man(p.turn, KING)
    requires san == if Owned(BoardOf(p), p.turn, m.to) then (if m.to > m.from then "O-O" else "O-O-O")
                    else "K" + (if Owned(BoardOf(p), Opposite(p.turn), m.to) then "x" else "") + SquareName(m.to)
    ensures san == StandardSan(StateOf(p), m)
  {
    hide Sound, Legal, BoardOf, SquareName, Disambiguation;
  }

  lemma PieceSanIs(z: Tables, p: Pos, m: Move, d: string, san: string)
    requires Sound(p, z) && Legal(StateOf(p), m) && BoardOf(p)[m.from].Man? && BoardOf(p)[m.from].color == p.turn
    requires BoardOf(p)[m.from].piece <= QUEEN && d == Disambiguation(StateOf(p), m)
    requires san == [Letter(BoardOf(p)[m.from].piece)] + d +
                    (if Owned(BoardOf(p), Opposite(p.turn), m.to) then "x" else "") + SquareName(m.to)
    ensures san == StandardSan(StateOf(p), m)
  {
    hide Sound, Legal, BoardOf, SquareName, Disambiguation;
    PieceKinds(BoardOf(p)[m.from].piece);
  }
}
