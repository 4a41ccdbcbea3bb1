/** The mutable position of src/position.c: placing and removing men with the incremental key, playing a move
    and completing the derived sets. */
module PositionClass {
  import opened Geometry
  import opened Rules
  import opened Legality
  import opened Bitboards
  import opened Zobrist
  import opened Positions
  import opened Finish
  import opened MoveGenExact
  import opened Preservation
  import opened CheckCount

  // src/position.c:45-52
  method ZobristCastling(z: Tables, castleRooks: Bitboard) returns (k: bv64)
    ensures k == CastlingKey(z, castleRooks)
  {
    hide Xor;
    k := 0;
    var rest := castleRooks;
    CastlingKeyEmpty(z, 64);
    XorSelf(CastlingKey(z, castleRooks));
    while rest != {}
      invariant Xor(CastlingKey(z, rest), k) == CastlingKey(z, castleRooks)
    {
      var r: Square;
      ghost var before := rest;
      r, rest := PopLsb(rest);
      CastlingKeyRemove(z, before, r);
      XorAssoc(CastlingKey(z, rest), z.castling(r), k);
      XorComm(z.castling(r), k);
      k := Xor(k, z.castling(r));
    }
    XorComm(0, k);
    XorSelf(k);
  }

  lemma RepresentsUpdate(bc: ByColor, bp: ByPiece, b: Board, bc2: ByColor, bp2: ByPiece, color: Color, piece: Piece, s: Square, on: bool)
    requires Represents(bc, bp, b)
    requires b[s] == (if on then Empty else Man(color, piece))
    requires bc2 == bc[color := if on then bc[color] + {s} else bc[color] - {s}]
    requires bp2 == bp[piece := if on then bp[piece] + {s} else bp[piece] - {s}]
    ensures Represents(bc2, bp2, b[s := if on then Man(color, piece) else Empty])
  {}

  class Position {
    var byColor: ByColor
    var byPiece: ByPiece
    var castleRooks: Bitboard
    var key: bv64
    var attacked: Bitboard
    var checkers: Bitboard
    var pins: Bitboard
    var lastMove: Move
    var fullMove: int
    var turn: Color
    var epSquare: OptSquare
    var rule50: int
    var chess960: bool

    // The zero-initialised struct.
    constructor ()
      ensures View().byColor == [{}, {}] && View().byPiece == [{}, {}, {}, {}, {}, {}] && castleRooks == {} && key == 0
    {
      byColor, byPiece := [{}, {}], [{}, {}, {}, {}, {}, {}];
      castleRooks, key, attacked, checkers, pins := {}, 0, {}, {}, {};
      lastMove, fullMove, turn, epSquare, rule50, chess960 := Move.Move(0, 0, 0), 0, WHITE, 0, 0, false;
    }

    function View(): Pos
      reads this
    {
      Pos(byColor, byPiece, castleRooks, key, attacked, checkers, pins, lastMove, fullMove, turn, epSquare, rule50, chess960)
    }

    lemma ViewFields()
      ensures View().castleRooks == castleRooks && View().key == key && View().checkers == checkers && View().turn == turn
      ensures View().epSquare == epSquare && View().rule50 == rule50 && View().fullMove == fullMove && View().chess960 == chess960
      ensures View().byColor == byColor && View().byPiece == byPiece
    {}

    lemma ViewLastMove()
      ensures View().lastMove == lastMove
    {}

    // src/position.c:81-89
    method ClearSquare(z: Tables, color: Color, piece: Piece, square: Square, ghost b: Board)
      requires Represents(byColor, byPiece, b) && b[square] == Man(color, piece)
      modifies `byColor, `byPiece, `key
      ensures Represents(byColor, byPiece, b[square := Empty])
      ensures Xor(key, MenKey(z, b[square := Empty])) == Xor(old(key), MenKey(z, b))
    {
      hide Xor;
      assert square in byColor[color] && square in byPiece[piece];
      RepresentsUpdate(byColor, byPiece, b, byColor[color := byColor[color] - {square}], byPiece[piece := byPiece[piece] - {square}],
                       color, piece, square, false);
      hide Represents;
      byColor := byColor[color := BbClear(byColor[color], square)];
      byPiece := byPiece[piece := BbClear(byPiece[piece], square)];
      MenKeyUpdate(z, b, square, Empty, 64);
      XorSelf(z.men(color, piece, square));
      KeyStep(key, MenKey(z, b), z.men(color, piece, square));
      key := Xor(key, z.men(color, piece, square));
    }

    // src/position.c:92-100
    method SetSquare(z: Tables, color: Color, piece: Piece, square: Square, ghost b: Board)
      requires Represents(byColor, byPiece, b) && b[square] == Empty
      modifies `byColor, `byPiece, `key
      ensures Represents(byColor, byPiece, b[square := Man(color, piece)])
      ensures Xor(key, MenKey(z, b[square := Man(color, piece)])) == Xor(old(key), MenKey(z, b))
    {
      hide Xor;
      assert square !in byColor[color] && square !in byPiece[piece];
      RepresentsUpdate(byColor, byPiece, b, byColor[color := byColor[color] + {square}], byPiece[piece := byPiece[piece] + {square}],
                       color, piece, square, true);
      hide Represents;
      byColor := byColor[color := BbSet(byColor[color], square)];
      byPiece := byPiece[piece := BbSet(byPiece[piece], square)];
      MenKeyUpdate(z, b, square, Man(color, piece), 64);
      XorSelf(z.men(color, piece, square));
      XorComm(0, z.men(color, piece, square));
      KeyStep(key, MenKey(z, b), z.men(color, piece, square));
      key := Xor(key, z.men(color, piece, square));
    }

    // src/position.c:102-165
    method Finish(ghost b: Board)
      requires Represents(byColor, byPiece, b)
      requires KingAt(b, turn, KingSquare(b, turn)) && KingAt(b, Opposite(turn), KingSquare(b, Opposite(turn)))
      requires !KingHit(KingSquare(b, turn), KingSquare(b, Opposite(turn)))
      modifies `attacked, `checkers, `pins
      ensures Derived(View()) && BoardOf(View()) == b
    {
      hide *;
      var p := View();
      ViewFields();
      FinishKings(p, b);
      var king, theirKing := Lsb(p.PiecesCP(turn, KING)), Lsb(p.PiecesCP(Opposite(turn), KING));
      pins := ComputePins(p, king, b);
      attacked := ComputeAttacked(p, king, theirKing, b);
      checkers := ComputeCheckers(p, attacked, king, b);
      ViewFields();
      DerivedView(p, b);
    }

    lemma DerivedView(p: Pos, b: Board)
      requires byColor == p.byColor && byPiece == p.byPiece && BoardOf(p) == b
      requires attacked == AttackedSet(b, turn, KingSquare(b, turn)) && checkers == CheckerSet(b, turn, KingSquare(b, turn))
      requires pins == PinSet(b, turn, KingSquare(b, turn))
      ensures Derived(View()) && BoardOf(View()) == b
    {
      hide BoardOf, AttackedSet, CheckerSet, PinSet, KingSquare;
      SameBoard(View(), p);
    }

    // src/position.c:408-431: take what stands on the target square, then move the man.
    method MoveMan(z: Tables, m: Move, us: Color, piece: Piece, ghost b: Board)
      requires Represents(byColor, byPiece, b) && m.from != m.to && b[m.from] == Man(us, piece) && turn == us
      modifies `byColor, `byPiece, `key, `castleRooks, `rule50
      ensures Represents(byColor, byPiece, MovedBoard(b, m))
      ensures Xor(key, MenKey(z, MovedBoard(b, m))) == Xor(old(key), MenKey(z, b))
      ensures castleRooks == old(castleRooks) - (if b[m.to] != Empty then {m.to} else {}) - (if piece <= QUEEN then {m.from} else {})
      ensures rule50 == if b[m.to] != Empty then 0 else old(rule50)
    {
      PieceOnBoard(View(), b, m.to);
      ColorOnBoard(View(), b, m.to);
      hide Represents, Xor, MenKey;
      ghost var b1 := b;
      var capture := View().PieceOn(m.to);
      if capture != NO_PIECE {
        rule50 := 0;
        var color := View().ColorOn(m.to);
        ClearSquare(z, color, capture, m.to, b1);
        b1 := b1[m.to := Empty];
        castleRooks := castleRooks - {m.to};
      }
      ClearSquare(z, us, piece, m.from, b1);
      b1 := b1[m.from := Empty];
      SetSquare(z, us, piece, m.to, b1);
      b1 := b1[m.to := Man(us, piece)];
      if piece <= QUEEN {
        castleRooks := castleRooks - {m.from};
      }
      assert b1 == MovedBoard(b, m);
    }

    // src/position.c:435-441: en-passant square.
    method SetEpSquare(st: State, m: Move)
      requires WellFormed(st) && Legal(st, m) && st.board[m.from] == Man(st.turn, PAWN)
      requires Represents(byColor, byPiece, MovedBoard(st.board, m)) && epSquare == NO_SQUARE
      modifies `epSquare
      ensures epSquare == NextEp(st, m)
    {
      hide *;
      EpSquareIs(View(), st, m) by { ViewFields(); }
      var us, them, push := st.turn, Opposite(st.turn), PushInc(st.turn);
      if m.to == m.from + 2 * push && PawnAttacks(us, m.from + push) * View().PiecesCP(them, PAWN) != {} {
        epSquare := m.from + push;
      }
    }

    // src/position.c:443-449: en-passant capture and promotion.
    method CaptureOrPromote(z: Tables, st: State, m: Move)
      requires WellFormed(st) && Legal(st, m) && st.board[m.from] == Man(st.turn, PAWN)
      requires Represents(byColor, byPiece, MovedBoard(st.board, m))
      modifies `byColor, `byPiece, `key
      ensures Represents(byColor, byPiece, PlayBoard(st, m))
      ensures Xor(key, MenKey(z, PlayBoard(st, m))) == Xor(old(key), MenKey(z, MovedBoard(st.board, m)))
    {
      PawnMoveForms(st, m);
      hide *;
      var us, them, push := st.turn, Opposite(st.turn), PushInc(st.turn);
      ghost var b := MovedBoard(st.board, m);
      if m.to == st.ep {
        ClearSquare(z, them, PAWN, m.to - push, b);
      } else if RankOf(m.to) == 7 || RankOf(m.to) == 0 {
        ClearSquare(z, us, PAWN, m.to, b);
        SetSquare(z, us, m.prom, m.to, b[m.to := Empty]);
      }
    }

    // src/position.c:460-462: the king goes from the rook's square to its own, and the rook is put back.
    method CastleMen(z: Tables, us: Color, to: Square, kto: Square, rto: Square, ghost b: Board)
      requires Represents(byColor, byPiece, b) && b[to] == Man(us, KING)
      requires b[to := Empty][kto] == Empty && b[to := Empty][kto := Man(us, KING)][rto] == Empty
      modifies `byColor, `byPiece, `key
      ensures Represents(byColor, byPiece, b[to := Empty][kto := Man(us, KING)][rto := Man(us, ROOK)])
      ensures Xor(key, MenKey(z, b[to := Empty][kto := Man(us, KING)][rto := Man(us, ROOK)])) == Xor(old(key), MenKey(z, b))
    {
      hide Represents, Xor, MenKey;
      ClearSquare(z, us, KING, to, b);
      SetSquare(z, us, KING, kto, b[to := Empty]);
      SetSquare(z, us, ROOK, rto, b[to := Empty][kto := Man(us, KING)]);
    }

    // src/position.c:450-464: castling rights and castling.
    method KingExtras(z: Tables, st: State, m: Move)
      requires WellFormed(st) && Legal(st, m) && st.board[m.from] == Man(st.turn, KING)
      requires Represents(byColor, byPiece, MovedBoard(st.board, m))
      modifies `byColor, `byPiece, `key, `castleRooks
      ensures Represents(byColor, byPiece, PlayBoard(st, m))
      ensures Xor(key, MenKey(z, PlayBoard(st, m))) == Xor(old(key), MenKey(z, MovedBoard(st.board, m)))
      ensures castleRooks == old(castleRooks) - RankBb(HomeRank(st.turn))
    {
      hide Represents, Xor, MenKey, WellFormed, Legal, PlayBoard, MovedBoard, RankOf, RankBb, HomeRank;
      KingMoveForms(st, m);
      var us := st.turn;
      ghost var b := MovedBoard(st.board, m);
      castleRooks := castleRooks - RankBb(HomeRank(us));
      if Owned(st.board, us, m.to) {
        CoordsRange(m.from);
        var kto := SquareFrom(RankOf(m.from), if m.to > m.from then 6 else 2);
        var rto := SquareFrom(RankOf(m.from), if m.to > m.from then 5 else 3);
        CastleMen(z, us, m.to, kto, rto, b);
      }
    }

    // *pos = *before
    method CopyFrom(before: Pos)
      modifies this
      ensures View() == before
    {
      CopySets(before);
      lastMove, fullMove, turn, epSquare := before.lastMove, before.fullMove, before.turn, before.epSquare;
      rule50, chess960, key := before.rule50, before.chess960, before.key;
    }

    method CopySets(before: Pos)
      modifies `byColor, `byPiece, `castleRooks, `attacked, `checkers, `pins
      ensures byColor == before.byColor && byPiece == before.byPiece && castleRooks == before.castleRooks
      ensures attacked == before.attacked && checkers == before.checkers && pins == before.pins
    {
      byColor, byPiece, castleRooks := before.byColor, before.byPiece, before.castleRooks;
      attacked, checkers, pins := before.attacked, before.checkers, before.pins;
    }

    // src/position.c:398-465: copy the position and move the men.
    method PlayMen(z: Tables, before: Pos, m: Move)
      requires Sound(before, z) && Legal(StateOf(before), m)
      modifies this
      ensures Represents(byColor, byPiece, PlayBoard(StateOf(before), m))
      ensures Xor(key, MenKey(z, PlayBoard(StateOf(before), m))) == Xor(before.key, MenKey(z, BoardOf(before)))
      ensures castleRooks == NextCastle(StateOf(before), m) && epSquare == NextEp(StateOf(before), m)
      ensures rule50 == NextRule50(StateOf(before), m, before.rule50)
      ensures turn == before.turn && fullMove == before.fullMove && chess960 == before.chess960
    {
      hide *;
      ghost var st := StateOf(before);
      SoundParts(before, z);
      LegalMover(st, m);
      StateFields(before);
      MoverCell(st, m);
      PieceOnBoard(before, BoardOf(before), m.from);
      CopyFrom(before);
      ViewFields();
      rule50 := (before.rule50 + 1) % 256;
      epSquare := NO_SQUARE;
      var piece := before.PieceOn(m.from);
      MoveMan(z, m, before.turn, piece, BoardOf(before));
      MenMoved(z, before, m, piece);
    }

    // src/position.c:433-465
    method MenMoved(z: Tables, before: Pos, m: Move, piece: Piece)
      requires WellFormed(StateOf(before)) && Legal(StateOf(before), m) && BoardOf(before)[m.from] == Man(before.turn, piece)
      requires StateOf(before).board == BoardOf(before) && StateOf(before).turn == before.turn && StateOf(before).castle == before.castleRooks
      requires Represents(byColor, byPiece, MovedBoard(BoardOf(before), m)) && turn == before.turn && epSquare == NO_SQUARE
      requires castleRooks == before.castleRooks - (if BoardOf(before)[m.to] != Empty then {m.to} else {}) - (if piece <= QUEEN then {m.from} else {})
      requires rule50 == if BoardOf(before)[m.to] != Empty then 0 else (before.rule50 + 1) % 256
      modifies `byColor, `byPiece, `key, `castleRooks, `epSquare, `rule50
      ensures Represents(byColor, byPiece, PlayBoard(StateOf(before), m))
      ensures Xor(key, MenKey(z, PlayBoard(StateOf(before), m))) == Xor(old(key), MenKey(z, MovedBoard(BoardOf(before), m)))
      ensures castleRooks == NextCastle(StateOf(before), m) && epSquare == NextEp(StateOf(before), m)
      ensures rule50 == NextRule50(StateOf(before), m, before.rule50)
    {
      hide *;
      PieceKinds(piece);
      if piece == PAWN {
        rule50 := 0;
        SetEpSquare(StateOf(before), m);
        CaptureOrPromote(z, StateOf(before), m);
      } else if piece == KING {
        KingExtras(z, StateOf(before), m);
      }
      AfterMen(StateOf(before), m, piece, before.rule50, castleRooks, epSquare, rule50);
    }

    // src/position.c:467-472
    method TurnOver(z: Tables, before: Pos, m: Move)
      requires turn == before.turn && fullMove == before.fullMove
      modifies `turn, `key, `fullMove, `lastMove
      ensures key == Xor(Xor(Xor(old(key), z.turn), Xor(z.enPassant(before.epSquare), z.enPassant(epSquare))),
                         CastlingKey(z, SymDiff(before.castleRooks, castleRooks)))
      ensures turn == Opposite(before.turn) && fullMove == NextFullMove(before) && lastMove == m
    {
      FullMoveIs(before);
      hide Xor, CastlingKey, NextFullMove;
      turn := Opposite(before.turn);
      key := Xor(key, z.turn);
      key := Xor(key, Xor(z.enPassant(before.epSquare), z.enPassant(epSquare)));
      var ck := ZobristCastling(z, SymDiff(before.castleRooks, castleRooks));
      key := Xor(key, ck);
      fullMove := if turn == WHITE then (fullMove + 1) % 65536 else fullMove;
      lastMove := m;
    }

    // src/position.c:397-475: this becomes `before` with m played.
    method Play(z: Tables, before: Pos, m: Move)
      requires Sound(before, z) && Legal(StateOf(before), m)
      modifies this
      ensures StateOf(View()) == NextState(StateOf(before), m)
      ensures Sound(View(), z)
      ensures lastMove == m && chess960 == before.chess960
      ensures rule50 == NextRule50(StateOf(before), m, before.rule50)
      ensures fullMove == NextFullMove(before)
      ensures |checkers| <= 2
    {
      hide *;
      ghost var st := StateOf(before);
      PlayMen(z, before, m);
      ghost var keyAfterMen := key;
      TurnOver(z, before, m);
      SoundParts(before, z);
      StateFields(before);
      NextStateFields(st, m);
      KeyUpdate(z, st, NextState(st, m), before.key, keyAfterMen);
      ReadyToFinish(st, m);
      OppositeTwice(before.turn);
      Finish(PlayBoard(st, m));
      ViewFields();
      PlayedSound(View(), before, z, m);
    }
  }

  // The kings as finish finds them.
  lemma FinishKings(p: Pos, b: Board)
    requires Represents(p.byColor, p.byPiece, b)
    requires KingAt(b, p.turn, KingSquare(b, p.turn)) && KingAt(b, Opposite(p.turn), KingSquare(b, Opposite(p.turn)))
    requires !KingHit(KingSquare(b, p.turn), KingSquare(b, Opposite(p.turn)))
    ensures p.PiecesCP(p.turn, KING) != {} && Lsb(p.PiecesCP(p.turn, KING)) == KingSquare(b, p.turn)
    ensures p.PiecesCP(Opposite(p.turn), KING) != {} && Lsb(p.PiecesCP(Opposite(p.turn), KING)) == KingSquare(b, Opposite(p.turn))
    ensures BoardOf(p) == b && b[KingSquare(b, p.turn)] == Man(p.turn, KING)
    ensures forall k2: Square :: b[k2] == Man(Opposite(p.turn), KING) ==> !KingHit(KingSquare(b, p.turn), k2)
  {
    hide Represents, KingSquare, KingHit, BoardOf;
    KingLsbOf(p, b, p.turn, KingSquare(b, p.turn));
    KingLsbOf(p, b, Opposite(p.turn), KingSquare(b, Opposite(p.turn)));
    BoardOfIs(p, b);
  }

  lemma FullMoveIs(p: Pos)
    ensures NextFullMove(p) == if Opposite(p.turn) == WHITE then (p.fullMove + 1) % 65536 else p.fullMove
  {
    assert p.turn == WHITE || p.turn == BLACK;
  }

  lemma PieceKinds(p: Piece)
    ensures p <= QUEEN || p == KING || p == PAWN
    ensures !(p <= QUEEN && (p == KING || p == PAWN)) && KING != PAWN
  {}

  lemma OppositeTwice(c: Color)
    ensures Opposite(Opposite(c)) == c
  {}

  lemma SoundParts(p: Pos, z: Tables)
    requires Sound(p, z)
    ensures Represents(p.byColor, p.byPiece, BoardOf(p)) && WellFormed(StateOf(p)) && Derived(p) && p.key == KeyOf(z, StateOf(p))
    ensures 0 <= p.rule50 < 256 && 0 <= p.fullMove < 65536 && (p.chess960 || Orthodox(StateOf(p)))
    ensures StateOf(p).board == BoardOf(p)
  {}

  lemma StateFields(p: Pos)
    ensures StateOf(p) == State(BoardOf(p), p.turn, p.castleRooks, p.epSquare)
  {}

  lemma NextStateFields(st: State, m: Move)
    ensures NextState(st, m) == State(PlayBoard(st, m), Opposite(st.turn), NextCastle(st, m), NextEp(st, m))
    ensures Opposite(st.turn) == WHITE <==> st.turn == BLACK
  {
    assert st.turn == WHITE || st.turn == BLACK;
  }

  lemma MoverCell(st: State, m: Move)
    requires Owned(st.board, st.turn, m.from)
    ensures st.board[m.from] == Man(st.turn, st.board[m.from].piece)
  {}

  // What the three phases of a move leave is the next state.
  lemma AfterMen(st: State, m: Move, piece: Piece, rule50: int, castle: Bitboard, ep: OptSquare, rule50After: int)
    requires WellFormed(st) && Legal(st, m) && st.board[m.from] == Man(st.turn, piece)
    requires castle == st.castle - (if st.board[m.to] != Empty then {m.to} else {}) - (if piece <= QUEEN then {m.from} else {})
                                 - (if piece == KING then RankBb(HomeRank(st.turn)) else {})
    requires ep == if piece == PAWN then NextEp(st, m) else NO_SQUARE
    requires rule50After == if piece == PAWN || st.board[m.to] != Empty then 0 else (rule50 + 1) % 256
    ensures castle == NextCastle(st, m) && ep == NextEp(st, m) && rule50After == NextRule50(st, m, rule50)
    ensures piece <= QUEEN ==> PlayBoard(st, m) == MovedBoard(st.board, m)
  {
    hide WellFormed, Legal, PlayBoard, RankBb, HomeRank, NextCastle, PieceMove, OrdinaryPawnMove, EnPassant, Castling, Ordinary;
    LegalMover(st, m);
    CastleCode(st, m);
    assert CodeCastle(st, m) == castle;
  }

  lemma PlayedSound(p: Pos, before: Pos, z: Tables, m: Move)
    requires WellFormed(StateOf(before)) && Legal(StateOf(before), m) && (before.chess960 || Orthodox(StateOf(before)))
    requires Derived(p) && BoardOf(p) == PlayBoard(StateOf(before), m) && Represents(p.byColor, p.byPiece, BoardOf(p))
    requires p.castleRooks == NextCastle(StateOf(before), m) && p.epSquare == NextEp(StateOf(before), m)
    requires p.turn == Opposite(before.turn) && p.chess960 == before.chess960
    requires p.key == KeyOf(z, NextState(StateOf(before), m))
    requires p.rule50 == NextRule50(StateOf(before), m, before.rule50) && p.fullMove == NextFullMove(before)
    requires 0 <= before.fullMove < 65536
    requires |CheckerSet(BoardOf(p), p.turn, KingSquare(BoardOf(p), p.turn))| <= 2
    ensures Sound(p, z) && StateOf(p) == NextState(StateOf(before), m) && |p.checkers| <= 2
  {
    hide WellFormed, Legal, PlayBoard, BoardOf, Represents, NextCastle, NextEp, KeyOf, Orthodox, Resets, AttackedSet, CheckerSet, PinSet, KingSquare;
    WellFormedAfter(StateOf(before), m);
    if !before.chess960 { OrthodoxAfter(StateOf(before), m); }
  }

  // The board with the man moved and what stood on the target square gone.
  function MovedBoard(b: Board, m: Move): Board { b[m.from := Empty][m.to := b[m.from]] }

  // rule50 counts plies since the last capture, castling or pawn move.
  predicate Resets(st: State, m: Move) { st.board[m.to] != Empty || st.board[m.from] == Man(st.turn, PAWN) }

  function NextRule50(st: State, m: Move, rule50: int): int { if Resets(st, m) then 0 else (rule50 + 1) % 256 }

  function NextFullMove(p: Pos): int { if p.turn == BLACK then (p.fullMove + 1) % 65536 else p.fullMove }

  lemma LegalMover(st: State, m: Move)
    requires WellFormed(st) && Legal(st, m)
    ensures Owned(st.board, st.turn, m.from) && m.from != m.to
    ensures st.board[m.from].piece <= QUEEN ==> PlayBoard(st, m) == MovedBoard(st.board, m)
    ensures st.board[m.from].piece == PAWN ==> OrdinaryPawnMove(st, m) || EnPassant(st, m)
    ensures st.board[m.from].piece == KING ==> (PieceMove(st, m) && Ordinary(st, m)) || Castling(st, m)
  {
    hide WellFormed, Legal, EnPassant, OrdinaryPawnMove, Castling, PlayBoard, Hits, EpOk, CastlingSetup, KingDest, RookDest, WaysClear, RankOf;
    LegalCases(st, m);
    WellFormedEp(st);
    KingsOk(st, st.turn);
    KingAtFact(st.board, st.turn, Ks(st, st.turn), m.from);
    if Ordinary(st, m) {
      OrdinaryFacts(st, m);
      if OrdinaryPawnMove(st, m) { PawnReach(st, m); }
    } else if EnPassant(st, m) {
      EnPassantForm(st, m);
    } else {
      CastlingForm(st, m);
    }
  }

  lemma PawnMoveForms(st: State, m: Move)
    requires WellFormed(st) && Legal(st, m) && st.board[m.from] == Man(st.turn, PAWN)
    ensures var moved, cap := MovedBoard(st.board, m), m.to - PushInc(st.turn);
            moved[m.to] == Man(st.turn, PAWN) &&
            if m.to == st.ep then
              0 <= cap < 64 && moved[cap] == Man(Opposite(st.turn), PAWN) && PlayBoard(st, m) == moved[cap := Empty]
            else if RankOf(m.to) == 7 || RankOf(m.to) == 0 then
              m.prom <= QUEEN && PlayBoard(st, m) == moved[m.to := Empty][m.to := Man(st.turn, m.prom)]
            else PlayBoard(st, m) == moved
  {
    hide WellFormed, Legal, EnPassant, OrdinaryPawnMove, Castling, PlayBoard, Hits, EpOk, RankOf, Ordinary;
    LegalMover(st, m);
    if EnPassant(st, m) {
      EnPassantForm(st, m);
      EpTarget(st, m);
    } else {
      WellFormedEp(st);
      PawnNotEp(st, m);
      OrdinaryIs(st, m);
      OrdinaryFacts(st, m);
      PawnRanksBefore(st);
      PromotionRank(st, m);
    }
  }

  lemma EpTarget(st: State, m: Move)
    requires EnPassant(st, m)
    ensures m.to == st.ep
  {}

  lemma PromotionRank(st: State, m: Move)
    requires OrdinaryPawnMove(st, m) && PawnRanksOk(st.board)
    ensures if RankOf(m.to) == 7 || RankOf(m.to) == 0 then m.prom <= QUEEN else m.prom == NO_PIECE
  {
    assert st.board[m.from].piece == PAWN;
  }

  lemma EpSquareIs(p: Pos, st: State, m: Move)
    requires WellFormed(st) && Legal(st, m) && st.board[m.from] == Man(st.turn, PAWN)
    requires Represents(p.byColor, p.byPiece, MovedBoard(st.board, m))
    ensures m.to == m.from + 2 * PushInc(st.turn) ==> 0 <= m.from + PushInc(st.turn) < 64
    ensures NextEp(st, m) ==
            if m.to == m.from + 2 * PushInc(st.turn) &&
               PawnAttacks(st.turn, m.from + PushInc(st.turn)) * p.PiecesCP(Opposite(st.turn), PAWN) != {}
            then m.from + PushInc(st.turn) else NO_SQUARE
  {
    hide WellFormed, Legal, PawnHit, Represents, MovedBoard, PawnAttacks, PushInc;
    EnemyPawnsKept(p, st, m);
  }

  lemma EnemyPawnsKept(p: Pos, st: State, m: Move)
    requires WellFormed(st) && Legal(st, m) && st.board[m.from] == Man(st.turn, PAWN)
    requires Represents(p.byColor, p.byPiece, MovedBoard(st.board, m))
    ensures m.to == m.from + 2 * PushInc(st.turn) ==>
            0 <= m.from + PushInc(st.turn) < 64 &&
            (PawnAttacks(st.turn, m.from + PushInc(st.turn)) * p.PiecesCP(Opposite(st.turn), PAWN) != {} <==>
             exists s: Square :: st.board[s] == Man(Opposite(st.turn), PAWN) && PawnHit(Up(st.turn), m.from + PushInc(st.turn), s))
  {
    hide WellFormed, Legal, RankOf, PawnHit, Represents, Ordinary, OrdinaryPawnMove, PieceMove;
    if m.to == m.from + 2 * PushInc(st.turn) {
      DoublePushOnly(st, m);
      var e, them := m.from + PushInc(st.turn), Opposite(st.turn);
      DoublePushRanks(st, m);
      forall s: Square
        ensures s in PawnAttacks(st.turn, e) * p.PiecesCP(them, PAWN) <==> st.board[s] == Man(them, PAWN) && PawnHit(Up(st.turn), e, s)
      {
        CellFacts(p, MovedBoard(st.board, m), s, them, PAWN);
      }
      NonEmpty(PawnAttacks(st.turn, e) * p.PiecesCP(them, PAWN));
    }
  }

  lemma NonEmpty(a: Bitboard)
    ensures a != {} <==> exists s: Square :: s in a
  {
    if a != {} { var s :| s in a; }
  }

  lemma KingMoveForms(st: State, m: Move)
    requires WellFormed(st) && Legal(st, m) && st.board[m.from] == Man(st.turn, KING)
    ensures var moved, us := MovedBoard(st.board, m), st.turn;
            moved[m.to] == Man(us, KING) && 0 <= RankOf(m.from) < 8 &&
            if Owned(st.board, us, m.to) then
              var kto, rto := SquareFrom(RankOf(m.from), if m.to > m.from then 6 else 2), SquareFrom(RankOf(m.from), if m.to > m.from then 5 else 3);
              moved[m.to := Empty][kto] == Empty && moved[m.to := Empty][kto := Man(us, KING)][rto] == Empty &&
              PlayBoard(st, m) == moved[m.to := Empty][kto := Man(us, KING)][rto := Man(us, ROOK)]
            else PlayBoard(st, m) == moved
  {
    hide WellFormed, Legal, EnPassant, OrdinaryPawnMove, Castling, PlayBoard, Hits, EpOk, RankOf, WaysClear, Ordinary;
    LegalMover(st, m);
    CoordsRange(m.from);
    if Castling(st, m) {
      CastlingForm(st, m);
      CastlingOwn(st, m);
      WaysClearDests(st.board, m.from, m.to);
    } else {
      WellFormedEp(st);
      OrdinaryFacts(st, m);
    }
  }

  lemma CastlingOwn(st: State, m: Move)
    requires Castling(st, m)
    ensures Owned(st.board, st.turn, m.to) && m.to in st.castle
  {
    hide Attacked, KingDest, RookDest;
  }

  // The castling rights the code keeps are those whose king and rook have not moved and not been taken.
  function CodeCastle(st: State, m: Move): Bitboard
  {
    st.castle - (if st.board[m.to] != Empty then {m.to} else {})
              - (if st.board[m.from].Man? && st.board[m.from].piece <= QUEEN then {m.from} else {})
              - (if st.board[m.from].Man? && st.board[m.from].piece == KING then RankBb(HomeRank(st.turn)) else {})
  }

  lemma CastleCode(st: State, m: Move)
    requires WellFormed(st) && Owned(st.board, st.turn, m.from)
    ensures CodeCastle(st, m) == NextCastle(st, m)
  {
    hide WellFormed, RankOf;
    forall r: Square ensures r in CodeCastle(st, m) <==> r in NextCastle(st, m) {
      if r in st.castle { CastleRookFacts(st, r); }
    }
  }

  lemma CastleRookFacts(st: State, r: Square)
    requires WellFormed(st) && r in st.castle
    ensures st.board[r].Man? && st.board[r].piece == ROOK
    ensures RankOf(r) == HomeRank(st.turn) <==> Owned(st.board, st.turn, r)
  {
    hide WellFormed, RankOf;
    CastleRookBefore(st, r);
  }

  // The kings are where Finish expects them.
  lemma ReadyToFinish(st: State, m: Move)
    requires WellFormed(st) && Legal(st, m)
    ensures var b, c := PlayBoard(st, m), Opposite(st.turn);
            KingAt(b, c, KingSquare(b, c)) && KingAt(b, st.turn, KingSquare(b, st.turn)) &&
            !KingHit(KingSquare(b, c), KingSquare(b, st.turn)) &&
            |CheckerSet(b, c, KingSquare(b, c))| <= 2
  {
    hide WellFormed, Legal, PlayBoard, KingAt, KingSquare, NextKing, CheckerSet, KingHit;
    KingsAfter(st, m);
    KingSquareIs(PlayBoard(st, m), st.turn, NextKing(st, m));
    KingSquareIs(PlayBoard(st, m), Opposite(st.turn), Ks(st, Opposite(st.turn)));
    KingsApart(st, m);
    AtMostTwoCheckers(st, m);
  }

  lemma ColorOnBoard(p: Pos, b: Board, s: Square)
    requires Represents(p.byColor, p.byPiece, b)
    ensures b[s].Man? ==> p.ColorOn(s) == b[s].color
  {
    CellFacts(p, b, s, WHITE, KING);
    CellFacts(p, b, s, BLACK, KING);
  }

  lemma KingLsbOf(p: Pos, b: Board, c: Color, k: Square)
    requires Represents(p.byColor, p.byPiece, b) && KingAt(b, c, k)
    ensures p.PiecesCP(c, KING) != {} && Lsb(p.PiecesCP(c, KING)) == k
  {
    hide Represents;
    CellFacts(p, b, k, c, KING);
    CellFacts(p, b, Lsb(p.PiecesCP(c, KING)), c, KING);
  }

  lemma SameBoard(p: Pos, q: Pos)
    requires p.byColor == q.byColor && p.byPiece == q.byPiece
    ensures BoardOf(p) == BoardOf(q)
  {
    forall s: Square ensures p.CellOn(s) == q.CellOn(s) { SamePiece(p, q, s, KNIGHT); }
  }

  lemma SamePiece(p: Pos, q: Pos, s: Square, t: OptPiece)
    requires p.byPiece == q.byPiece
    ensures p.PieceOnFrom(s, t) == q.PieceOnFrom(s, t)
    decreases NO_PIECE - t
  {
    if t < NO_PIECE { SamePiece(p, q, s, t + 1); }
  }
}
