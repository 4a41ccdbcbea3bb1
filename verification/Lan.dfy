/** Long algebraic notation: src/position.c:54-78 and 540-577. */
module Lan {
  import opened Geometry
  import opened Rules
  import opened Legality
  import opened Zobrist
  import opened Positions
  import opened Finish
  import opened MoveGenExact
  import opened Preservation
  import opened PositionClass
  import opened Text

  function FileChar(f: int): char
    requires 0 <= f < 8
  {
    'a' + f as char
  }

  function RankChar(r: int): char
    requires 0 <= r < 8
  {
    '1' + r as char
  }

  function CharFile(c: char): int { c as int - 'a' as int }

  function CharRank(c: char): int { c as int - '1' as int }

  lemma CoordChars(i: int)
    requires 0 <= i < 8
    ensures CharFile(FileChar(i)) == i && CharRank(RankChar(i)) == i
    ensures 'a' <= FileChar(i) <= 'h' && '1' <= RankChar(i) <= '8'
  {}

  // src/position.c:54-65
  function SquareName(s: OptSquare): string
  {
    if s == NO_SQUARE then "-" else CoordsRange(s); [FileChar(FileOf(s)), RankChar(RankOf(s))]
  }

  // src/position.c:67-78; 65 is the syntax error.  A one-character text is followed by the terminating zero.
  function SquareNamed(t: string): int
  {
    if t == "" then 65
    else if t[0] == '-' then 64
    else if |t| < 2 then 65
    else if 0 <= CharRank(t[1]) < 8 && 0 <= CharFile(t[0]) < 8 then SquareFrom(CharRank(t[1]), CharFile(t[0]))
    else 65
  }

  lemma SquareNameRoundTrip(s: OptSquare)
    ensures SquareNamed(SquareName(s)) == s && 1 <= |SquareName(s)| <= 2
    ensures s != NO_SQUARE ==> |SquareName(s)| == 2 && SquareName(s)[0] != '-'
  {
    if s != NO_SQUARE {
      CoordsRange(s);
      CoordChars(FileOf(s));
      CoordChars(RankOf(s));
    }
  }

  const PIECE_LABELS := "nbrqkp."

  // Index of c in the lower-case piece labels (strchr), or 7.
  function LabelIndex(c: char): nat
  {
    if c == 'n' then 0 else if c == 'b' then 1 else if c == 'r' then 2 else if c == 'q' then 3
    else if c == 'k' then 4 else if c == 'p' then 5 else if c == '.' then 6 else 7
  }

  lemma LabelRoundTrip(p: OptPiece)
    ensures LabelIndex(PIECE_LABELS[p]) == p
  {}

  // The two squares that the text names: an orthodox castling move is shown as the king's step of two.
  function LanTarget(p: Pos, m: Move): int
  {
    if !p.chess960 && m.to in p.byColor[p.turn] then (if m.to > m.from then m.from + 2 else m.from - 2) else m.to
  }

  // src/position.c:540-561
  function MoveToLan(p: Pos, m: Move): string
  {
    if m.from == 0 && m.to == 0 && m.prom == 0 then "0000"
    else
      var to := LanTarget(p, m);
      if !(0 <= to < 64) then ""  // the assert in square_to_string
      else SquareName(m.from) + SquareName(to) + (if m.prom < NO_PIECE then [PIECE_LABELS[m.prom]] else "")
  }

  // The squares and the promotion that a text names; None where the source runs into an assert or past the
  // end of the text.
  function NamedMove(lan: string): Option<Move>
  {
    if |lan| < 4 then None
    else
      var prom := if |lan| > 4 then LabelIndex(lan[4]) else NO_PIECE;
      var fr, ff, tr, tf := CharRank(lan[1]), CharFile(lan[0]), CharRank(lan[3]), CharFile(lan[2]);
      if 0 <= fr < 8 && 0 <= ff < 8 && 0 <= tr < 8 && 0 <= tf < 8 && (prom <= QUEEN || prom == NO_PIECE)
      then Some(Move.Move(SquareFrom(fr, ff), SquareFrom(tr, tf), prom))
      else None
  }

  // src/position.c:569-574: an orthodox king's step of two stands for castling.
  function CastlingTarget(p: Pos, from: Square, to: int): int
  {
    if !p.chess960 && p.PieceOn(from) == KING then (if to == from + 2 then to + 1 else if to == from - 2 then to - 2 else to) else to
  }

  // src/position.c:563-577
  function LanToMove(p: Pos, lan: string): Option<Move>
  {
    match NamedMove(lan)
    case None => None
    case Some(m) =>
      var to := CastlingTarget(p, m.from, m.to);
      if 0 <= to < 64 then Some(m.(to := to)) else None
  }

  lemma LanParts(p: Pos, from: Square, to: Square, prom: OptPiece)
    requires prom <= QUEEN || prom == NO_PIECE
    ensures var lan := SquareName(from) + SquareName(to) + (if prom < NO_PIECE then [PIECE_LABELS[prom]] else "");
            |lan| >= 4 && CharFile(lan[0]) == FileOf(from) && CharRank(lan[1]) == RankOf(from) &&
            CharFile(lan[2]) == FileOf(to) && CharRank(lan[3]) == RankOf(to) &&
            (if |lan| > 4 then LabelIndex(lan[4]) else NO_PIECE) == prom
  {
    CoordsRange(from);
    CoordsRange(to);
    CoordChars(FileOf(from));
    CoordChars(RankOf(from));
    CoordChars(FileOf(to));
    CoordChars(RankOf(to));
    LabelRoundTrip(prom);
    hide RankOf, FileOf;
    var a, b, c := SquareName(from), SquareName(to), if prom < NO_PIECE then [PIECE_LABELS[prom]] else "";
    assert a + b + c == [a[0], a[1], b[0], b[1]] + c;
  }

  // Reading back a text of squares from and to.
  lemma ReadLan(p: Pos, from: Square, to: Square, prom: OptPiece)
    requires prom <= QUEEN || prom == NO_PIECE
    ensures LanToMove(p, SquareName(from) + SquareName(to) + (if prom < NO_PIECE then [PIECE_LABELS[prom]] else "")) ==
            (var t := CastlingTarget(p, from, to); if 0 <= t < 64 then Some(Move.Move(from, t, prom)) else None)
  {
    LanParts(p, from, to, prom);
    CoordsRange(from);
    CoordsRange(to);
    hide RankOf, FileOf, CharFile, CharRank, LabelIndex, SquareName, CastlingTarget;
    var lan := SquareName(from) + SquareName(to) + (if prom < NO_PIECE then [PIECE_LABELS[prom]] else "");
    assert NamedMove(lan) == Some(Move.Move(from, to, prom));
  }

  lemma KingStepNotTwo(a: Square, b: Square)
    requires KingHit(a, b)
    ensures b != a + 2 && b != a - 2
  {}

  // Orthodox castling: the king is on the e-file and the rook in the corner.
  lemma OrthodoxCastling(st: State, m: Move)
    requires WellFormed(st) && Orthodox(st) && Castling(st, m)
    ensures m.to == (if m.to > m.from then m.from + 3 else m.from - 4)
  {
    hide Attacked, KingSquare, RankOf, FileOf, WellFormed, WaysClear, KingDest, RookDest, CastlingSetup;
    CastlingForm(st, m);
    CastlingOwn(st, m);
    OrthodoxRook(st, m.to);
    assert m.from == KingSquare(st.board, st.turn);
    CastleRookBefore(st, m.to);
    CornerRook(m.from, m.to);
  }

  lemma OrthodoxRook(st: State, r: Square)
    requires Orthodox(st) && r in st.castle && st.board[r].Man?
    ensures FileOf(KingSquare(st.board, st.board[r].color)) == 4 && (FileOf(r) == 0 || FileOf(r) == 7)
  {}

  lemma CornerRook(k: Square, r: Square)
    requires RankOf(k) == RankOf(r) && FileOf(k) == 4 && (FileOf(r) == 0 || FileOf(r) == 7)
    ensures r == (if r > k then k + 3 else k - 4)
  {}

  lemma PromOk(st: State, m: Move)
    requires PseudoLegal(st, m)
    ensures m.prom <= QUEEN || m.prom == NO_PIECE
  {
    hide Hits, Attacked, PawnHit, RelativeRank, KingDest, RookDest;
  }

  lemma CastlingOrStep(st: State, m: Move)
    requires WellFormed(st) && Legal(st, m) && st.board[m.from] == Man(st.turn, KING)
    ensures if Owned(st.board, st.turn, m.to) then Castling(st, m) else KingHit(m.from, m.to)
  {
    hide WellFormed, Legal, Castling, KingHit, PlayBoard, Ordinary, OrdinaryPawnMove, KnightHit, PawnHit;
    LegalMover(st, m);
    if Castling(st, m) { CastlingOwn(st, m); }
  }

  // The round trip: what pos_move_to_lan writes, pos_lan_to_move reads back, for every legal move.
  lemma LanRoundTrip(z: Tables, p: Pos, m: Move)
    requires Sound(p, z) && Legal(StateOf(p), m)
    ensures LanToMove(p, MoveToLan(p, m)) == Some(m)
  {
    hide Sound, Legal, WellFormed, Castling, Represents, BoardOf, KingHit, PlayBoard, Orthodox, SquareName, LanToMove, EnPassant, OrdinaryPawnMove, PieceMove;
    var st := StateOf(p);
    SoundParts(p, z);
    LegalMover(st, m);
    LegalUnfold(st, m);
    PromOk(st, m);
    CellFacts(p, BoardOf(p), m.to, p.turn, KING);
    PieceOnBoard(p, BoardOf(p), m.from);
    hide PseudoLegal;
    var king := BoardOf(p)[m.from].piece == KING;
    if king { CastlingOrStep(st, m); }
    if !p.chess960 && m.to in p.byColor[p.turn] {
      NotOwnUnlessCastling(st, m);
      OrthodoxCastling(st, m);
      ReadLan(p, m.from, LanTarget(p, m), m.prom);
    } else {
      if king && !p.chess960 { KingStepNotTwo(m.from, m.to); }
      ReadLan(p, m.from, m.to, m.prom);
    }
  }

  lemma NotOwnUnlessCastling(st: State, m: Move)
    requires WellFormed(st) && Legal(st, m) && Owned(st.board, st.turn, m.to)
    ensures Castling(st, m) && st.board[m.from] == Man(st.turn, KING)
  {
    hide WellFormed, Legal, Castling, PlayBoard, EnPassant, Hits, OrdinaryPawnMove, CastlingSetup, KingAt, RankOf;
    LegalCases(st, m);
    if Ordinary(st, m) {
      WellFormedEp(st);
      OrdinaryFacts(st, m);
    } else if EnPassant(st, m) {
      EnPassantForm(st, m);
    } else {
      CastlingForm(st, m);
      CastlingSetupKing(st.board, st.turn, m.from, m.to);
    }
  }

  lemma CastlingSetupKing(b: Board, us: Color, k: Square, r: Square)
    requires CastlingSetup(b, us, k, r)
    ensures b[k] == Man(us, KING)
  {}
}
