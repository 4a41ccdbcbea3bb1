/** The orthodox position of a state: every well-formed orthodox state has a sound position. */
module SoundPositions {
  import opened Geometry
  import opened Rules
  import opened Bitboards
  import opened Zobrist
  import opened Positions
  import opened Preservation
  import opened PositionClass
  import opened Repetition

  function Kind(b: Board, p: Piece): Bitboard { set s: Square | 0 <= s < 64 && b[s].Man? && b[s].piece == p }

  // The orthodox position of a state: its bitboards, its derived sets and its key.
  ghost function PositionOf(z: Tables, st: State, rule50: int, fullMove: int, lastMove: Move): Pos
  {
    var b, k := st.board, KingSquare(st.board, st.turn);
    Pos([Army(b, WHITE), Army(b, BLACK)],
        [Kind(b, KNIGHT), Kind(b, BISHOP), Kind(b, ROOK), Kind(b, QUEEN), Kind(b, KING), Kind(b, PAWN)],
        st.castle, KeyOf(z, st), AttackedSet(b, st.turn, k), CheckerSet(b, st.turn, k), PinSet(b, st.turn, k),
        lastMove, fullMove, st.turn, st.ep, rule50, false)
  }

  lemma PositionRepresents(z: Tables, st: State, rule50: int, fullMove: int, m: Move)
    ensures var p := PositionOf(z, st, rule50, fullMove, m); Represents(p.byColor, p.byPiece, st.board) && StateOf(p) == st
  {
    hide KeyOf, AttackedSet, CheckerSet, PinSet, KingSquare;
    var p := PositionOf(z, st, rule50, fullMove, m);
    forall s: Square, c: Color ensures s in p.byColor[c] <==> Owned(st.board, c, s) { assert c == WHITE || c == BLACK; }
    forall s: Square, q: Piece ensures s in p.byPiece[q] <==> st.board[s].Man? && st.board[s].piece == q {
      assert q == KNIGHT || q == BISHOP || q == ROOK || q == QUEEN || q == KING || q == PAWN;
    }
    BoardOfIs(p, st.board);
  }

  // Every well-formed orthodox state has a sound position.
  lemma PositionIsSound(z: Tables, st: State, rule50: int, fullMove: int, m: Move)
    requires WellFormed(st) && Orthodox(st) && 0 <= rule50 < 256 && 0 <= fullMove < 65536
    ensures var p := PositionOf(z, st, rule50, fullMove, m); Sound(p, z) && StateOf(p) == st
  {
    PositionRepresents(z, st, rule50, fullMove, m);
    StateFields(PositionOf(z, st, rule50, fullMove, m));
    hide KeyOf, AttackedSet, CheckerSet, PinSet, KingSquare, Represents, WellFormed, Orthodox, BoardOf, Army, Kind;
  }

  // The position of the next state follows.
  lemma PositionFollows(z: Tables, st: State, m: Move, rule50: int, fullMove: int, last: Move)
    requires WellFormed(st) && Orthodox(st) && Legal(st, m) && 0 <= rule50 < 255 && 0 <= fullMove < 65536
    ensures var next := if st.turn == BLACK then (fullMove + 1) % 65536 else fullMove;
            Follows(z, PositionOf(z, st, rule50, fullMove, last), m,
                    PositionOf(z, NextState(st, m), if Resets(st, m) then 0 else rule50 + 1, next, m))
  {
    hide WellFormed, Orthodox, Legal, Resets, NextState, Sound, StateOf, KeyOf, AttackedSet, CheckerSet, PinSet, KingSquare, Army, Kind;
    WellFormedAfter(st, m);
    OrthodoxAfter(st, m);
    var next := if st.turn == BLACK then (fullMove + 1) % 65536 else fullMove;
    PositionIsSound(z, st, rule50, fullMove, last);
    PositionIsSound(z, NextState(st, m), if Resets(st, m) then 0 else rule50 + 1, next, m);
  }
}
