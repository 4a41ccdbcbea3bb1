/** The 16-bit move encoding of src/bitboard.c:211-226. */
module MoveCode {
  predicate FieldsOk(from: bv16, to: bv16, prom: bv16) { from < 64 && to < 64 && (prom <= 3 || prom == 6) }

  function MoveBuild(from: bv16, to: bv16, prom: bv16): (m: bv16)
    requires FieldsOk(from, to, prom)
    ensures MoveFrom(m) == from && MoveTo(m) == to && MoveProm(m) == prom
  {
    from | (to << 6) | (prom << 12)
  }

  function MoveFrom(m: bv16): bv16 { m & 0x3F }

  function MoveTo(m: bv16): bv16 { (m >> 6) & 0x3F }

  function MoveProm(m: bv16): bv16 { m >> 12 }

  // The code is a bijection between triples of fields and the codes whose promotion field is valid.
  lemma MoveCodeOnto(m: bv16)
    requires MoveProm(m) <= 3 || MoveProm(m) == 6
    ensures FieldsOk(MoveFrom(m), MoveTo(m), MoveProm(m)) && MoveBuild(MoveFrom(m), MoveTo(m), MoveProm(m)) == m
  {}

  // Six bits for the origin, six for the target, the promotion above them.
  lemma MoveLayout(from: bv16, to: bv16, prom: bv16)
    requires FieldsOk(from, to, prom)
    ensures MoveBuild(from, to, prom) == from + 64 * to + 4096 * prom
  {}
}
