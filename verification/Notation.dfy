/** The texts of moves without their readers: long algebraic notation (src/position.c:540-561) names the squares where
    the man stands before and after the move, and standard algebraic notation (579-675) says in plain characters what
    sections 8.2.3.2 to 8.2.3.4 of the PGN standard ask for. */
module Notation {
  import opened Geometry
  import opened Rules
  import opened Zobrist
  import opened Positions
  import opened Finish
  import opened MoveGenExact
  import opened Preservation
  import opened PositionClass
  import opened Lan
  import opened San
  import opened MoveEffects

  // a1, b1, .. h8.
  function Name(s: Square): string { ["abcdefgh"[s % 8], "12345678"[s / 8]] }

  lemma SquareNameIs(s: Square)
    ensures SquareName(s) == Name(s)
  {
    CoordsRange(s);
    FileNames(s % 8);
    RankNames(s / 8);
  }

  lemma FileNames(f: int)
    requires 0 <= f < 8
    ensures FileChar(f) == "abcdefgh"[f]
  {}

  lemma RankNames(r: int)
    requires 0 <= r < 8
    ensures RankChar(r) == "12345678"[r]
  {}

  // ---- Long algebraic notation ---------------------------------------------------------------------------

  // Where the man that moves stands afterwards; in Chess960, castling is shown by the square of the rook instead.
  ghost predicate Arrives(st: State, m: Move, chess960: bool, to: Square)
    requires st.board[m.from].Man?
  {
    if Owned(st.board, st.turn, m.to) then (if chess960 then to == m.to else KingAt(PlayBoard(st, m), st.turn, to))
    else to == m.to && PlayBoard(st, m)[to] == Man(st.turn, if m.prom < NO_PIECE then m.prom else st.board[m.from].piece)
  }

  lemma LanText(z: Tables, p: Pos, m: Move) returns (to: Square)
    requires Sound(p, z) && Legal(StateOf(p), m)
    ensures StateOf(p).board[m.from].Man? && Arrives(StateOf(p), m, p.chess960, to)
    ensures MoveToLan(p, m) == Name(m.from) + Name(to) + (if m.prom <= QUEEN then ["nbrq"[m.prom]] else "")
  {
    hide Sound, Legal, WellFormed, Castling, Represents, BoardOf, PlayBoard, Orthodox, EnPassant, OrdinaryPawnMove, PieceMove, SquareName, Name, Arrives;
    var st := StateOf(p);
    SoundParts(p, z);
    LegalMover(st, m);
    LegalUnfold(st, m);
    PromOk(st, m);
    CellFacts(p, BoardOf(p), m.to, p.turn, KING);
    if m.to in p.byColor[p.turn] {
      NotOwnUnlessCastling(st, m);
      if !p.chess960 { OrthodoxCastling(st, m); }
    }
    to := LanTarget(p, m);
    TargetArrives(st, m, p.chess960, to);
    SquareNameIs(m.from);
    SquareNameIs(to);
    PromotionLetters(m.prom);
  }

  lemma PromotionLetters(prom: OptPiece)
    ensures prom <= QUEEN ==> PIECE_LABELS[prom] == "nbrq"[prom]
  {}

  lemma TargetArrives(st: State, m: Move, chess960: bool, to: Square)
    requires WellFormed(st) && Legal(st, m) && (chess960 || Orthodox(st))
    requires to == if !chess960 && Owned(st.board, st.turn, m.to) then (if m.to > m.from then m.from + 2 else m.from - 2) else m.to
    ensures st.board[m.from].Man? && Arrives(st, m, chess960, to)
  {
    hide WellFormed, Legal, Castling, PlayBoard, Orthodox, EnPassant, OrdinaryPawnMove, PieceMove;
    LegalMover(st, m);
    if Owned(st.board, st.turn, m.to) {
      NotOwnUnlessCastling(st, m);
      KingsAfter(st, m);
      if !chess960 {
        OrthodoxKing(st, m);
      }
    } else {
      OtherMoves(st, m);
    }
  }

  // In an orthodox game castling takes the king from the e-file two squares towards the rook.
  lemma OrthodoxKing(st: State, m: Move)
    requires WellFormed(st) && Orthodox(st) && Castling(st, m)
    ensures NextKing(st, m) == if m.to > m.from then m.from + 2 else m.from - 2
    ensures m.from == if st.turn == WHITE then 4 else 60
  {
    hide WellFormed, Orthodox, Castling, PlayBoard, KingDest, RookDest, RankOf, FileOf, Ordinary, EnPassant, KingSquare;
    CastlingForm(st, m);
    CastlingOwn(st, m);
    OrthodoxRook(st, m.to);
    CastleRookBefore(st, m.to);
    Destinations(st.turn, m.from, m.to);
    OnHomeRank(st.turn, m.from);
  }

  lemma OnHomeRank(c: Color, k: Square)
    requires var home := if c == WHITE then 0 else 56; home <= k < home + 8
    requires FileOf(k) == 4
    ensures k == if c == WHITE then 4 else 60
  {}

  // Orthodox castling, letter by letter.
  lemma CastlingTexts(z: Tables, p: Pos, m: Move)
    requires Sound(p, z) && Legal(StateOf(p), m) && !p.chess960 && Owned(StateOf(p).board, p.turn, m.to)
    ensures MoveToLan(p, m) ==
            if p.turn == WHITE then (if m.to > m.from then "e1g1" else "e1c1") else (if m.to > m.from then "e8g8" else "e8c8")
  {
    hide Sound, Legal, WellFormed, Castling, PlayBoard, Orthodox, BoardOf, MoveToLan, Represents;
    SoundParts(p, z);
    var st := StateOf(p);
    NotOwnUnlessCastling(st, m);
    OrthodoxKing(st, m);
    var to := LanText(z, p, m);
    KingsAfter(st, m);
    CastlingNoPromotion(st, m);
    KingIsOne(PlayBoard(st, m), st.turn, to, NextKing(st, m));
    assert st.turn == WHITE || st.turn == BLACK;
    hide Name;
    CastlingNames();
  }

  lemma KingIsOne(b: Board, c: Color, k: Square, k2: Square)
    requires KingAt(b, c, k) && KingAt(b, c, k2)
    ensures k == k2
  {}

  lemma CastlingNames()
    ensures Name(4) + Name(6) + "" == "e1g1" && Name(4) + Name(2) + "" == "e1c1"
    ensures Name(60) + Name(62) + "" == "e8g8" && Name(60) + Name(58) + "" == "e8c8"
  {}

  lemma CastlingNoPromotion(st: State, m: Move)
    requires Castling(st, m)
    ensures m.prom == NO_PIECE
  {
    hide Attacked, KingDest, RookDest;
  }

  // ---- Standard algebraic notation -----------------------------------------------------------------------

  // What may be put in front of the target square to say which man moves, in the order of section 8.2.3.4: nothing,
  // the file, the rank, both.
  function Candidate(s: Square, i: nat): string
  {
    if i == 0 then "" else if i == 1 then ["abcdefgh"[s % 8]] else if i == 2 then ["12345678"[s / 8]] else Name(s)
  }

  // The file tells files apart, the rank ranks, and both tell squares apart.
  lemma CandidatesTell(s: Square, t: Square)
    ensures Candidate(s, 0) == Candidate(t, 0)
    ensures Candidate(s, 1) == Candidate(t, 1) <==> FileOf(s) == FileOf(t)
    ensures Candidate(s, 2) == Candidate(t, 2) <==> RankOf(s) == RankOf(t)
    ensures Candidate(s, 3) == Candidate(t, 3) <==> s == t
  {
    LettersTell(s % 8, t % 8);
    LettersTell(s / 8, t / 8);
    var f, g, r, q := "abcdefgh"[s % 8], "abcdefgh"[t % 8], "12345678"[s / 8], "12345678"[t / 8];
    assert [f] == [g] <==> f == g by { assert [f][0] == f && [g][0] == g; }
    assert [r] == [q] <==> r == q by { assert [r][0] == r && [q][0] == q; }
    assert [f, r] == [g, q] <==> f == g && r == q by { assert [f, r][0] == f && [g, q][0] == g && [f, r][1] == r && [g, q][1] == q; }
  }

  lemma LettersTell(i: int, j: int)
    requires 0 <= i < 8 && 0 <= j < 8
    ensures "abcdefgh"[i] == "abcdefgh"[j] <==> i == j
    ensures "12345678"[i] == "12345678"[j] <==> i == j
  {
    FileNames(i);
    FileNames(j);
    RankNames(i);
    RankNames(j);
  }

  // The disambiguation is the first candidate that no rival shares.
  lemma FirstThatTells(st: State, m: Move) returns (i: nat)
    ensures i < 4 && Disambiguation(st, m) == Candidate(m.from, i)
    ensures forall r: Square :: Rival(st, m, r) ==> Candidate(r, i) != Candidate(m.from, i)
    ensures forall j: nat :: j < i ==> exists r: Square :: Rival(st, m, r) && Candidate(r, j) == Candidate(m.from, j)
  {
    hide Legal, FileOf, RankOf, Candidate, Rival;
    i := if !HasRival(st, m) then 0 else if !RivalOnFile(st, m) then 1 else if !RivalOnRank(st, m) then 2 else 3;
    TextsAre(m.from);
    forall r: Square | Rival(st, m, r) ensures Candidate(r, i) != Candidate(m.from, i) {
      RivalElsewhere(st, m, r);
      CandidatesTell(r, m.from);
    }
    forall j: nat | j < i ensures exists r: Square :: Rival(st, m, r) && Candidate(r, j) == Candidate(m.from, j) {
      var r: Square :| Rival(st, m, r) && (j == 1 ==> FileOf(r) == FileOf(m.from)) && (j == 2 ==> RankOf(r) == RankOf(m.from));
      CandidatesTell(r, m.from);
    }
  }

  lemma TextsAre(s: Square)
    ensures Candidate(s, 0) == "" && Candidate(s, 1) == [FileText(s)] && Candidate(s, 2) == [RankText(s)]
    ensures Candidate(s, 3) == [FileText(s), RankText(s)]
  {
    CoordsRange(s);
    FileNames(s % 8);
    RankNames(s / 8);
  }

  lemma RivalElsewhere(st: State, m: Move, r: Square)
    requires Rival(st, m, r)
    ensures r != m.from
  {
    hide Legal;
  }

  // The capture sign is there exactly when a man is lost.
  lemma CapturesIff(st: State, m: Move)
    requires WellFormed(st) && Legal(st, m) && !Owned(st.board, st.turn, m.to)
    ensures Captures(st, m) <==> ManLost(st.board, PlayBoard(st, m), Opposite(st.turn))
  {
    hide WellFormed, Legal, PlayBoard, ManLost;
    ManLostIff(st, m);
    assert st.turn == WHITE || st.turn == BLACK;
  }

  // The text, letter by letter, from the board before and after the move.
  ghost function Letters(st: State, m: Move): string
    requires st.board[m.from].Man?
  {
    var piece, home := st.board[m.from].piece, if st.turn == WHITE then 0 else 56;
    var x := if ManLost(st.board, PlayBoard(st, m), Opposite(st.turn)) then "x" else "";
    if Owned(st.board, st.turn, m.to) then (if KingAt(PlayBoard(st, m), st.turn, home + 6) then "O-O" else "O-O-O")
    else if piece == PAWN then
      (if x == "" then "" else ["abcdefgh"[m.from % 8]] + x) + Name(m.to) + (if m.prom <= QUEEN then "=" + ["NBRQ"[m.prom]] else "")
    else ["NBRQK"[piece]] + (if piece == KING then "" else Disambiguation(st, m)) + x + Name(m.to)
  }

  // The whole text, for every legal move; O-O-O is the other castling.
  lemma SanText(st: State, m: Move)
    requires WellFormed(st) && Legal(st, m)
    ensures st.board[m.from].Man? && StandardSan(st, m) == Letters(st, m)
    ensures Owned(st.board, st.turn, m.to) ==>
              var home := if st.turn == WHITE then 0 else 56;
              KingAt(PlayBoard(st, m), st.turn, home + 6) || KingAt(PlayBoard(st, m), st.turn, home + 2)
  {
    hide WellFormed, Legal, PlayBoard, Castling, KingAt, ManLost, Disambiguation, EnPassant, OrdinaryPawnMove, PieceMove, Captures, Name, SquareName;
    LegalMover(st, m);
    SquareNameIs(m.to);
    TextsAre(m.from);
    hide Candidate;
    if Owned(st.board, st.turn, m.to) {
      NotOwnUnlessCastling(st, m);
      CastledKing(st, m);
    } else {
      CapturesIff(st, m);
      PieceLetters(st.board[m.from].piece, m.prom);
      if st.board[m.from].piece == PAWN { PushFile(st, m); }
    }
  }

  lemma CastledKing(st: State, m: Move)
    requires WellFormed(st) && Legal(st, m) && Castling(st, m)
    ensures var home := if st.turn == WHITE then 0 else 56;
            (KingAt(PlayBoard(st, m), st.turn, home + 6) <==> m.to > m.from) && (m.to < m.from ==> KingAt(PlayBoard(st, m), st.turn, home + 2))
    ensures IsCastling(st, m) && m.to != m.from
  {
    hide WellFormed, Legal, Castling, PlayBoard, KingDest, RookDest, RankOf, FileOf, Ordinary, EnPassant, KingSquare, KingAt;
    KingsAfter(st, m);
    CastlingForm(st, m);
    CastlingMoves(st, m);
    CastlingSetupKing(st.board, st.turn, m.from, m.to);
    NextKingCastled(st, m);
    Destinations(st.turn, m.from, m.to);
    var home := if st.turn == WHITE then 0 else 56;
    if KingAt(PlayBoard(st, m), st.turn, home + 6) { KingIsOne(PlayBoard(st, m), st.turn, home + 6, NextKing(st, m)); }
  }

  lemma NextKingCastled(st: State, m: Move)
    requires Castling(st, m)
    ensures NextKing(st, m) == KingDest(m.from, m.to)
  {
    hide Castling, KingDest;
  }

  lemma PieceLetters(piece: Piece, prom: OptPiece)
    ensures piece <= KING ==> Letter(piece) == "NBRQK"[piece]
    ensures prom <= QUEEN ==> Letter(prom) == "NBRQ"[prom]
  {}
}
