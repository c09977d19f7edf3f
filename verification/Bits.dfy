/** Facts about 64-bit words. */
module WordFacts {

  /** The word and the mask share a bit. */
  predicate Masked(w: bv64, m: bv64) { w & m != 0 }

  /** Two single bits meet only where they are the same. */
  lemma OneBit(k: nat, j: nat)
    requires k < 64 && j < 64
    ensures Masked(1 << k, 1 << j) <==> j == k
  {
  }

  lemma OrMask(a: bv64, b: bv64, m: bv64)
    ensures Masked(a | b, m) <==> Masked(a, m) || Masked(b, m)
  {
    assert (a | b) & m == (a & m) | (b & m);
  }

  lemma NoBit(j: nat)
    requires j < 64
    ensures (0 as bv64) & (1 << j) == 0
  {
  }
}

/** Bits of one 64-bit word. */
module Bits {
  import opened WordFacts

  /** Bit `k` of the word. */
  predicate Bit(w: bv64, k: nat)
    requires k < 64
  {
    Masked(w, 1 << k)
  }

  function WithBit(w: bv64, k: nat): bv64
    requires k < 64
  {
    w | (1 << k)
  }

  function Either(a: bv64, b: bv64): bv64 { a | b }

  lemma SetBit(w: bv64, k: nat, j: nat)
    requires k < 64 && j < 64
    ensures Bit(WithBit(w, k), j) <==> j == k || Bit(w, j)
  {
    hide Masked;
    OneBit(k, j);
    OrMask(w, 1 << k, 1 << j);
  }

  lemma EitherMasked(a: bv64, b: bv64, m: bv64)
    ensures Masked(Either(a, b), m) <==> Masked(a, m) || Masked(b, m)
  {
    hide Masked;
    OrMask(a, b, m);
  }

  lemma OrBit(a: bv64, b: bv64, j: nat)
    requires j < 64
    ensures Bit(Either(a, b), j) <==> Bit(a, j) || Bit(b, j)
  {
    hide Either, Masked;
    EitherMasked(a, b, 1 << j);
  }

  lemma NoBit(j: nat)
    requires j < 64
    ensures !Bit(0, j)
  {
    WordFacts.NoBit(j);
  }
}
