/** The rules of chess on a one-board picture of the position (a man or nothing on each square), as the
    FIDE Laws state them, with castling encoded as king takes own rook (Chess960).

    Nothing here mentions bitboards, pins, checkers or move generation: this is the meaning against which
    the engine in src/position.c and src/gen.c is proved. */
module Rules {
  import opened Geometry

  type Color = c: int | 0 <= c < 2

  const WHITE: Color := 0
  const BLACK: Color := 1

  type Piece = p: int | 0 <= p < 6

  const KNIGHT: Piece := 0
  const BISHOP: Piece := 1
  const ROOK: Piece := 2
  const QUEEN: Piece := 3
  const KING: Piece := 4
  const PAWN: Piece := 5

  // A piece, or 6 for "none" (the source's NB_PIECE), as the promotion field of a move holds it.
  type OptPiece = p: int | 0 <= p <= 6

  const NO_PIECE: OptPiece := 6

  datatype Cell = Empty | Man(color: Color, piece: Piece)

  type Board = b: seq<Cell> | |b| == 64 witness seq(64, _ => Empty)

  // Castling is encoded as the king's square and the castling rook's square.
  datatype Move = Move(from: Square, to: Square, prom: OptPiece)

  // Men, side to move, castling rights (as rooks) and en-passant square.  This is what the program compares;
  // LawRepetition says how it differs from Article 9.2, which counts an en-passant square only if it can be used.
  datatype State = State(board: Board, turn: Color, castle: set<Square>, ep: OptSquare)

  function Opposite(c: Color): Color { 1 - c }

  // Rank direction in which the pawns of c move, and the same as a difference of square numbers.
  function Up(c: Color): int { 1 - 2 * c }

  function PushInc(c: Color): int { 8 * Up(c) }

  function RelativeRank(c: Color, s: Square): int
  {
    if c == WHITE then RankOf(s) else 7 - RankOf(s)
  }

  function HomeRank(c: Color): int { 7 * c }

  predicate Owned(b: Board, c: Color, s: Square)
  {
    b[s].Man? && b[s].color == c
  }

  predicate IsSlider(p: Piece) { BISHOP <= p <= QUEEN }

  predicate LineFits(p: Piece, d: int)
  {
    (p != BISHOP && RookDir(d)) || (p != ROOK && BishopDir(d))
  }

  predicate ClearPath(b: Board, s: Square, t: Square)
  {
    forall x: Square :: Between(s, x, t) ==> b[x] == Empty
  }

  // The man on s attacks t, sliders walking over empty squares only (Articles 3.2 to 3.8).
  predicate Hits(b: Board, s: Square, t: Square)
  {
    b[s].Man? &&
    var p := b[s].piece;
    if p == KNIGHT then KnightHit(s, t)
    else if p == KING then KingHit(s, t)
    else if p == PAWN then PawnHit(Up(b[s].color), s, t)
    else LineFits(p, Dir(s, t)) && ClearPath(b, s, t)
  }

  // Some man of colour c attacks t.
  ghost predicate Attacked(b: Board, c: Color, t: Square)
  {
    exists s: Square :: Owned(b, c, s) && Hits(b, s, t)
  }

  predicate KingAt(b: Board, c: Color, k: Square)
  {
    b[k] == Man(c, KING) && forall s: Square :: b[s] == Man(c, KING) ==> s == k
  }

  ghost predicate InCheck(b: Board, c: Color)
  {
    exists k: Square :: b[k] == Man(c, KING) && Attacked(b, Opposite(c), k)
  }

  // ---- Moves -------------------------------------------------------------------------------------------

  // Knights, sliders and ordinary king moves (Articles 3.2 to 3.6 and 3.8.1).
  predicate PieceMove(st: State, m: Move)
  {
    Owned(st.board, st.turn, m.from) && st.board[m.from].piece != PAWN &&
    Hits(st.board, m.from, m.to) && !Owned(st.board, st.turn, m.to) && m.prom == NO_PIECE
  }

  predicate OwnPawn(st: State, s: Square) { st.board[s] == Man(st.turn, PAWN) }

  // Articles 3.7.3.3 to 3.7.3.5: a pawn reaching the last rank becomes a knight, bishop, rook or queen.
  predicate PromotionFits(st: State, m: Move)
  {
    if RelativeRank(st.turn, m.to) == 7 then m.prom <= QUEEN else m.prom == NO_PIECE
  }

  predicate SinglePush(st: State, m: Move)
  {
    OwnPawn(st, m.from) && m.to == m.from + PushInc(st.turn) && st.board[m.to] == Empty && PromotionFits(st, m)
  }

  predicate DoublePush(st: State, m: Move)
  {
    OwnPawn(st, m.from) && RelativeRank(st.turn, m.from) == 1 && m.to == m.from + 2 * PushInc(st.turn) &&
    st.board[m.from + PushInc(st.turn)] == Empty && st.board[m.to] == Empty && m.prom == NO_PIECE
  }

  predicate PawnCapture(st: State, m: Move)
  {
    OwnPawn(st, m.from) && PawnHit(Up(st.turn), m.from, m.to) && Owned(st.board, Opposite(st.turn), m.to) &&
    PromotionFits(st, m)
  }

  predicate EnPassant(st: State, m: Move)
  {
    OwnPawn(st, m.from) && PawnHit(Up(st.turn), m.from, m.to) && m.to == st.ep && m.prom == NO_PIECE
  }

  // Where king and rook go, whatever their files (Chess960): g and f on the king's side, c and d on the other.
  function KingDest(k: Square, r: Square): Square { SquareFrom(RankOf(k), if r > k then 6 else 2) }

  function RookDest(k: Square, r: Square): Square { SquareFrom(RankOf(k), if r > k then 5 else 3) }

  // Article 3.8.2 and its Chess960 form: every square on the way of king and rook holds nothing but these
  // two, and no square the king stands on, crosses or reaches is attacked.
  ghost predicate Castling(st: State, m: Move)
  {
    var k, r := m.from, m.to;
    st.board[k] == Man(st.turn, KING) && r in st.castle && Owned(st.board, st.turn, r) && m.prom == NO_PIECE &&
    (forall x: Square :: (OnWay(k, x, KingDest(k, r)) || OnWay(r, x, RookDest(k, r))) && x != k && x != r
      ==> st.board[x] == Empty) &&
    (forall x: Square :: OnWay(k, x, KingDest(k, r)) ==> !Attacked(st.board, Opposite(st.turn), x))
  }

  ghost predicate PseudoLegal(st: State, m: Move)
  {
    PieceMove(st, m) || SinglePush(st, m) || DoublePush(st, m) || PawnCapture(st, m) || EnPassant(st, m) ||
    Castling(st, m)
  }

  predicate IsCastling(st: State, m: Move)
  {
    st.board[m.from] == Man(st.turn, KING) && Owned(st.board, st.turn, m.to)
  }

  predicate IsEnPassant(st: State, m: Move)
  {
    OwnPawn(st, m.from) && m.to == st.ep && 0 <= m.to - PushInc(st.turn) < 64
  }

  // The board after m.
  function PlayBoard(st: State, m: Move): Board
  {
    var b, us := st.board, st.turn;
    if IsCastling(st, m) then
      b[m.from := Empty][m.to := Empty]
       [KingDest(m.from, m.to) := Man(us, KING)][RookDest(m.from, m.to) := Man(us, ROOK)]
    else if IsEnPassant(st, m) then
      b[m.from := Empty][m.to := b[m.from]][m.to - PushInc(us) := Empty]
    else
      b[m.from := Empty][m.to := if m.prom < NO_PIECE then Man(us, m.prom) else b[m.from]]
  }

  // Article 3.9.2: a pseudo-legal move is legal when it does not leave one's own king attacked.
  ghost predicate Legal(st: State, m: Move)
  {
    PseudoLegal(st, m) && !InCheck(PlayBoard(st, m), st.turn)
  }

  // The state after m (castling rights, en-passant square and turn as well as the men).
  function NextState(st: State, m: Move): State
  {
    State(PlayBoard(st, m), Opposite(st.turn), NextCastle(st, m), NextEp(st, m))
  }

  // Rights go when their rook moves or is taken, and both go when the king moves.
  function NextCastle(st: State, m: Move): set<Square>
  {
    set r: Square | 0 <= r < 64 && r in st.castle && r != m.from && r != m.to &&
                    !(st.board[m.from] == Man(st.turn, KING) && Owned(st.board, st.turn, r))
  }

  predicate IsDoublePush(st: State, m: Move)
  {
    OwnPawn(st, m.from) && m.to == m.from + 2 * PushInc(st.turn)
  }

  // The square passed over by a double push, when an enemy pawn attacks it; otherwise none.
  function NextEp(st: State, m: Move): OptSquare
  {
    if IsDoublePush(st, m) &&
       exists s: Square :: st.board[s] == Man(Opposite(st.turn), PAWN) && PawnHit(Up(st.turn), m.from + PushInc(st.turn), s)
    then m.from + PushInc(st.turn)
    else NO_SQUARE
  }

  // ---- Well-formed positions ---------------------------------------------------------------------------

  function Men(b: Board, c: Color, p: Piece): set<Square>
  {
    set s: Square | 0 <= s < 64 && b[s] == Man(c, p)
  }

  function Army(b: Board, c: Color): set<Square>
  {
    set s: Square | 0 <= s < 64 && Owned(b, c, s)
  }

  function Occupied(b: Board): set<Square> { set s: Square | 0 <= s < 64 && b[s] != Empty }

  // The limits that src/position.c:281-289 puts on each side.
  predicate CountsOk(b: Board, c: Color)
  {
    |Men(b, c, KNIGHT)| + |Men(b, c, PAWN)| <= 10 &&
    |Men(b, c, BISHOP)| + |Men(b, c, PAWN)| <= 10 &&
    |Men(b, c, ROOK)| + |Men(b, c, PAWN)| <= 10 &&
    |Men(b, c, QUEEN)| + |Men(b, c, PAWN)| <= 9 &&
    |Men(b, c, PAWN)| <= 8 && |Army(b, c)| <= 16
  }

  predicate PawnRanksOk(b: Board)
  {
    forall s: Square :: b[s].Man? && b[s].piece == PAWN ==> 1 <= RankOf(s) <= 6
  }

  ghost function KingSquare(b: Board, c: Color): Square
  {
    if k: Square :| KingAt(b, c, k) then k else 0
  }

  lemma KingSquareIs(b: Board, c: Color, k: Square)
    requires KingAt(b, c, k)
    ensures KingSquare(b, c) == k
  {}

  // A castling rook stands on its own home rank with its king, which is not in the corner.
  predicate CastleRookOk(b: Board, k: Square, c: Color, r: Square)
  {
    b[r] == Man(c, ROOK) && RankOf(r) == HomeRank(c) == RankOf(k) && 1 <= FileOf(k) <= 6
  }

  predicate SameSide(k: Square, r: Square, q: Square) { (r < k) == (q < k) }

  // At most one castling rook on each side of its king.
  ghost predicate CastleOk(st: State)
  {
    (forall r: Square :: r in st.castle ==>
      st.board[r].Man? && CastleRookOk(st.board, KingSquare(st.board, st.board[r].color), st.board[r].color, r)) &&
    (forall r: Square, q: Square | r in st.castle && q in st.castle && st.board[r] == st.board[q] && st.board[r].Man? ::
      SameSide(KingSquare(st.board, st.board[r].color), r, q) ==> q == r)
  }

  // The board before the double push that made e the en-passant square.
  function UndoDoublePush(b: Board, c: Color, e: Square): Board
    requires 16 <= e < 48
  {
    b[e + PushInc(c) := Empty][e - PushInc(c) := Man(c, PAWN)]
  }

  // c has just pushed a pawn over e: src/position.c:318-326, and before that push the king of the side now
  // to move was not attacked.
  ghost predicate EpOk(st: State)
  {
    st.ep != NO_SQUARE ==>
      var b, e, c := st.board, st.ep, Opposite(st.turn);
      RelativeRank(c, e) == 2 && b[e] == Empty && b[e + PushInc(c)] == Man(c, PAWN) && b[e - PushInc(c)] == Empty &&
      !InCheck(UndoDoublePush(b, c, e), st.turn)
  }

  ghost predicate WellFormed(st: State)
  {
    KingAt(st.board, WHITE, KingSquare(st.board, WHITE)) && KingAt(st.board, BLACK, KingSquare(st.board, BLACK)) &&
    CountsOk(st.board, WHITE) && CountsOk(st.board, BLACK) &&
    PawnRanksOk(st.board) &&
    !InCheck(st.board, Opposite(st.turn)) &&
    CastleOk(st) && EpOk(st)
  }

  // In an orthodox game the castling king is on the e-file and its rooks are on the a- and h-files.
  ghost predicate Orthodox(st: State)
  {
    forall r: Square :: r in st.castle && st.board[r].Man? ==>
      FileOf(KingSquare(st.board, st.board[r].color)) == 4 && (FileOf(r) == 0 || FileOf(r) == 7)
  }
}
