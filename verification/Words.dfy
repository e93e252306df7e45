/** Single 64-bit words: what `or`, `and not` and equality do to one bit. */
module Words {

  function Mask(minor: bv6): bv64 {
    (1 as bv64) << minor
  }

  predicate Bit(w: bv64, k: bv6) {
    (w >> k) & 1 != 0
  }

  lemma OrBit(w: bv64, m: bv6, k: bv6)
    ensures Bit(w | Mask(m), k) <==> m == k || Bit(w, k)
  {}

  lemma AndNotBit(w: bv64, m: bv6, k: bv6)
    ensures Bit(w & !Mask(m), k) <==> m != k && Bit(w, k)
  {}

  lemma XorBit(v: bv64, w: bv64, k: bv6)
    ensures Bit(v ^ w, k) ==> Bit(v, k) != Bit(w, k)
  {}

  lemma BitUp(x: bv64, b: bv6)
    requires Bit(x >> 1, b)
    ensures b < 63 && Bit(x, b + 1)
  {}

  lemma Halve(x: bv64)
    requires x != 0 && x & 1 == 0
    ensures x >> 1 != 0 && x >> 1 < x
  {}

  lemma {:induction false} FindBit(x: bv64) returns (b: bv6)
    requires x != 0
    ensures Bit(x, b)
    decreases x
  {
    if x & 1 != 0 {
      b := 0;
    } else {
      Halve(x);
      b := FindBit(x >> 1);
      BitUp(x, b);
      b := b + 1;
    }
  }

  /** Words that differ do so in some bit. */
  lemma Differ(v: bv64, w: bv64) returns (k: bv6)
    requires v != w
    ensures Bit(v, k) != Bit(w, k)
  {
    k := FindBit(v ^ w);
    XorBit(v, w, k);
  }
}
