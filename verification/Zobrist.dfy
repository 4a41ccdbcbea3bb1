/** Hash keys: the exclusive or of one random number for each feature of a position, for arbitrary tables. */
module Zobrist {
  import opened Geometry
  import opened Rules

  datatype Tables = Tables(men: (Color, Piece, Square) -> bv64, castling: Square -> bv64, enPassant: OptSquare -> bv64, turn: bv64)

  function Xor(a: bv64, b: bv64): bv64 { a ^ b }

  function CellKey(z: Tables, c: Cell, s: Square): bv64
  {
    match c
    case Empty => 0
    case Man(color, piece) => z.men(color, piece, s)
  }

  // Key of the men on the squares below n.
  function MenKeyUpTo(z: Tables, b: Board, n: nat): bv64
    requires n <= 64
  {
    if n == 0 then 0 else Xor(MenKeyUpTo(z, b, n - 1), CellKey(z, b[n - 1], n - 1))
  }

  function MenKey(z: Tables, b: Board): bv64 { MenKeyUpTo(z, b, 64) }

  function RookKey(z: Tables, rooks: set<Square>, s: Square): bv64 { if s in rooks then z.castling(s) else 0 }

  function CastlingKeyUpTo(z: Tables, rooks: set<Square>, n: nat): bv64
    requires n <= 64
  {
    if n == 0 then 0 else Xor(CastlingKeyUpTo(z, rooks, n - 1), RookKey(z, rooks, n - 1))
  }

  function CastlingKey(z: Tables, rooks: set<Square>): bv64 { CastlingKeyUpTo(z, rooks, 64) }

  function TurnKey(z: Tables, c: Color): bv64 { if c == BLACK then z.turn else 0 }

  // The key of a position computed from scratch: a function of its state, and of nothing else.
  function KeyOf(z: Tables, st: State): bv64
  {
    Xor(Xor(MenKey(z, st.board), TurnKey(z, st.turn)), Xor(CastlingKey(z, st.castle), z.enPassant(st.ep)))
  }

  // ---- Exclusive or ------------------------------------------------------------------------------------

  lemma XorAssoc(a: bv64, b: bv64, c: bv64)
    ensures Xor(Xor(a, b), c) == Xor(a, Xor(b, c))
  {}

  lemma XorComm(a: bv64, b: bv64)
    ensures Xor(a, b) == Xor(b, a)
  {}

  lemma XorSelf(a: bv64)
    ensures Xor(a, a) == 0 && Xor(a, 0) == a
  {}

  // (a + x) + (b + y) == (a + b) + (x + y)
  lemma XorPairs(a: bv64, x: bv64, b: bv64, y: bv64)
    ensures Xor(Xor(a, x), Xor(b, y)) == Xor(Xor(a, b), Xor(x, y))
  {
    hide Xor;
    XorAssoc(Xor(a, x), b, y);
    XorAssoc(a, x, b);
    XorComm(x, b);
    XorAssoc(a, b, x);
    XorAssoc(Xor(a, b), x, y);
  }

  lemma XorCancel(a: bv64, x: bv64)
    ensures Xor(Xor(a, x), x) == a
  {
    hide Xor;
    XorAssoc(a, x, x);
    XorSelf(x);
    XorSelf(a);
  }

  lemma XorZero()
    ensures Xor(0, 0) == 0
  {}

  // ---- Incremental updates -----------------------------------------------------------------------------

  // What changes when one square changes.
  function Change(z: Tables, b: Board, s: Square, c: Cell): bv64 { Xor(CellKey(z, b[s], s), CellKey(z, c, s)) }

  lemma {:induction false} MenKeyUpdate(z: Tables, b: Board, s: Square, c: Cell, n: nat)
    requires n <= 64
    ensures MenKeyUpTo(z, b[s := c], n) == Xor(MenKeyUpTo(z, b, n), if s < n then Change(z, b, s, c) else 0)
  {
    hide Xor, CellKey;
    if n == 0 {
      XorZero();
    } else {
      MenKeyUpdate(z, b, s, c, n - 1);
      var was, a := CellKey(z, b[n - 1], n - 1), MenKeyUpTo(z, b, n - 1);
      if s == n - 1 {
        var now := CellKey(z, c, s);
        XorSelf(a);
        XorAssoc(Xor(a, was), was, now);
        XorCancel(a, was);
      } else {
        var d := if s < n then Change(z, b, s, c) else 0;
        XorAssoc(a, d, was);
        XorComm(d, was);
        XorAssoc(a, was, d);
      }
    }
  }

  function SymDiff(a: set<Square>, b: set<Square>): set<Square> { (a - b) + (b - a) }

  lemma {:induction false} CastlingKeySymDiff(z: Tables, a: set<Square>, b: set<Square>, n: nat)
    requires n <= 64
    ensures CastlingKeyUpTo(z, SymDiff(a, b), n) == Xor(CastlingKeyUpTo(z, a, n), CastlingKeyUpTo(z, b, n))
  {
    hide Xor, RookKey;
    if n == 0 {
      XorZero();
    } else {
      CastlingKeySymDiff(z, a, b, n - 1);
      RookKeySymDiff(z, a, b, n - 1);
      XorPairs(CastlingKeyUpTo(z, a, n - 1), RookKey(z, a, n - 1), CastlingKeyUpTo(z, b, n - 1), RookKey(z, b, n - 1));
    }
  }

  lemma RookKeySymDiff(z: Tables, a: set<Square>, b: set<Square>, s: Square)
    ensures RookKey(z, SymDiff(a, b), s) == Xor(RookKey(z, a, s), RookKey(z, b, s))
  {
    hide Xor;
    XorSelf(z.castling(s));
    XorComm(z.castling(s), 0);
    XorZero();
  }

  // What the loop of zobrist_castling does with one rook.
  lemma CastlingKeyRemove(z: Tables, rooks: set<Square>, r: Square)
    requires r in rooks
    ensures CastlingKey(z, rooks) == Xor(CastlingKey(z, rooks - {r}), z.castling(r))
  {
    hide Xor, RookKey;
    assert SymDiff(rooks - {r}, {r}) == rooks;
    CastlingKeySymDiff(z, rooks - {r}, {r}, 64);
    CastlingKeySingle(z, r, 64);
  }

  lemma {:induction false} CastlingKeySingle(z: Tables, r: Square, n: nat)
    requires n <= 64
    ensures CastlingKeyUpTo(z, {r}, n) == if r < n then z.castling(r) else 0
  {
    hide Xor;
    if n > 0 {
      CastlingKeySingle(z, r, n - 1);
      XorSelf(z.castling(r));
      XorComm(z.castling(r), 0);
      XorZero();
    }
  }

  lemma {:induction false} CastlingKeyEmpty(z: Tables, n: nat)
    requires n <= 64
    ensures CastlingKeyUpTo(z, {}, n) == 0
  {
    hide Xor;
    if n > 0 {
      CastlingKeyEmpty(z, n - 1);
      XorZero();
    }
  }

  // Putting or taking a man changes the key and the key of the men alike.
  lemma KeyStep(key: bv64, men: bv64, x: bv64)
    ensures Xor(Xor(key, x), Xor(men, x)) == Xor(key, men)
  {
    hide Xor;
    XorPairs(key, x, men, x);
    XorSelf(x);
    XorSelf(Xor(key, men));
  }

  lemma XorReplace(a: bv64, r: bv64, x: bv64)
    ensures Xor(Xor(Xor(a, r), a), x) == Xor(x, r)
  {
    hide Xor;
    XorComm(a, r);
    XorCancel(r, a);
    XorComm(r, x);
  }

  lemma TurnFlip(z: Tables, c: Color)
    ensures Xor(TurnKey(z, c), z.turn) == TurnKey(z, Opposite(c))
  {
    hide Xor;
    XorSelf(z.turn);
    XorComm(0, z.turn);
    assert c == WHITE || c == BLACK;
  }

  // c + e with both parts exchanged.
  lemma XorExchange(c: bv64, e: bv64, c2: bv64, e2: bv64)
    ensures Xor(Xor(Xor(c, e), Xor(e, e2)), Xor(c, c2)) == Xor(c2, e2)
  {
    hide Xor;
    XorAssoc(c, e, Xor(e, e2));
    XorAssoc(e, e, e2);
    XorSelf(e);
    XorComm(0, e2);
    XorSelf(e2);
    XorAssoc(Xor(c, e2), c, c2);
    XorReplace(c, e2, c2);
  }

  // The updates of src/position.c:467-470 complete the incremental key.
  lemma KeyUpdate(z: Tables, st: State, st2: State, key: bv64, key2: bv64)
    requires key == KeyOf(z, st) && st2.turn == Opposite(st.turn)
    requires Xor(key2, MenKey(z, st2.board)) == Xor(key, MenKey(z, st.board))
    ensures Xor(Xor(Xor(key2, z.turn), Xor(z.enPassant(st.ep), z.enPassant(st2.ep))), CastlingKey(z, SymDiff(st.castle, st2.castle)))
            == KeyOf(z, st2)
  {
    hide Xor, MenKey, SymDiff, TurnKey, CastlingKey;
    CastlingKeyOfDiff(z, st.castle, st2.castle);
    var m, m2, t, t2 := MenKey(z, st.board), MenKey(z, st2.board), TurnKey(z, st.turn), TurnKey(z, st2.turn);
    var c, c2, e, e2 := CastlingKey(z, st.castle), CastlingKey(z, st2.castle), z.enPassant(st.ep), z.enPassant(st2.ep);
    var r := Xor(c, e);
    TurnFlip(z, st.turn);
    XorAssoc(m, t, r);
    XorCancel(key2, m2);
    XorReplace(m, Xor(t, r), m2);
    assert key2 == Xor(m2, Xor(t, r));
    XorAssoc(m2, Xor(t, r), z.turn);
    XorComm(t, r);
    XorAssoc(r, t, z.turn);
    XorComm(r, t2);
    XorAssoc(m2, t2, r);
    var k4 := Xor(key2, z.turn);
    assert k4 == Xor(Xor(m2, t2), r);
    XorAssoc(Xor(m2, t2), r, Xor(e, e2));
    XorAssoc(Xor(m2, t2), Xor(r, Xor(e, e2)), Xor(c, c2));
    XorExchange(c, e, c2, e2);
  }

  lemma CastlingKeyOfDiff(z: Tables, a: set<Square>, b: set<Square>)
    ensures CastlingKey(z, SymDiff(a, b)) == Xor(CastlingKey(z, a), CastlingKey(z, b))
  {
    hide Xor;
    CastlingKeySymDiff(z, a, b, 64);
  }

  // ---- Every feature counts ------------------------------------------------------------------------------

  function NoKeys(): Tables { Tables((c, p, s) => 0, s => 0, e => 0, 0) }

  lemma XorBits()
    ensures Xor(0, 0) == 0 && Xor(1, 0) == 1 && Xor(0, 1) == 1
  {}

  lemma {:induction false} OnlyMan(z: Tables, c: Color, p: Piece, s: Square, b: Board, n: nat)
    requires n <= 64 && forall d: Color, q: Piece, t: Square :: z.men(d, q, t) == if d == c && q == p && t == s then 1 else 0
    ensures MenKeyUpTo(z, b, n) == if s < n && b[s] == Man(c, p) then 1 else 0
  {
    hide Xor;
    XorBits();
    if n > 0 { OnlyMan(z, c, p, s, b, n - 1); }
  }

  lemma {:induction false} NoMan(z: Tables, b: Board, n: nat)
    requires n <= 64 && forall d: Color, q: Piece, t: Square :: z.men(d, q, t) == 0
    ensures MenKeyUpTo(z, b, n) == 0
  {
    hide Xor;
    XorBits();
    if n > 0 { NoMan(z, b, n - 1); }
  }

  lemma {:induction false} OnlyRook(z: Tables, s: Square, rooks: set<Square>, n: nat)
    requires n <= 64 && forall t: Square :: z.castling(t) == if t == s then 1 else 0
    ensures CastlingKeyUpTo(z, rooks, n) == if s < n && s in rooks then 1 else 0
  {
    hide Xor;
    XorBits();
    if n > 0 { OnlyRook(z, s, rooks, n - 1); }
  }

  lemma {:induction false} NoRook(z: Tables, rooks: set<Square>, n: nat)
    requires n <= 64 && forall t: Square :: z.castling(t) == 0
    ensures CastlingKeyUpTo(z, rooks, n) == 0
  {
    hide Xor;
    XorBits();
    if n > 0 { NoRook(z, rooks, n - 1); }
  }

  // Men, turn, castling rooks and en-passant square all go into the key: two different states are told apart by
  // some table.
  lemma KeysTellApart(st: State, st2: State) returns (z: Tables)
    requires st != st2
    ensures KeyOf(z, st) != KeyOf(z, st2)
  {
    hide Xor, MenKeyUpTo, CastlingKeyUpTo;
    XorBits();
    z := NoKeys();
    if st.board != st2.board {
      var s: Square :| st.board[s] != st2.board[s];
      var man := if st.board[s].Man? then st.board[s] else st2.board[s];
      z := z.(men := (c, p, t) => if c == man.color && p == man.piece && t == s then 1 else 0);
      OnlyMan(z, man.color, man.piece, s, st.board, 64);
      OnlyMan(z, man.color, man.piece, s, st2.board, 64);
      NoRook(z, st.castle, 64);
      NoRook(z, st2.castle, 64);
    } else {
      var rook := if st.castle != st2.castle then DifferentRook(st.castle, st2.castle) else 0;
      if st.turn != st2.turn {
        z := z.(turn := 1);
      } else if st.castle != st2.castle {
        z := z.(castling := t => if t == rook then 1 else 0);
      } else {
        z := z.(enPassant := e => if e == st.ep then 1 else 0);
      }
      NoMan(z, st.board, 64);
      NoMan(z, st2.board, 64);
      if st.turn == st2.turn && st.castle != st2.castle {
        OnlyRook(z, rook, st.castle, 64);
        OnlyRook(z, rook, st2.castle, 64);
      } else {
        NoRook(z, st.castle, 64);
        NoRook(z, st2.castle, 64);
      }
    }
  }

  ghost function DifferentRook(a: set<Square>, b: set<Square>): (s: Square)
    requires a != b
    ensures s in a <==> s !in b
  {
    var s: Square :| s in a <==> s !in b; s
  }
}
