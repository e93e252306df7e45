module Bitset {
  // The packed bitset of the linearizability checker (src/porcupine/bitset.go): a slice of
  // 64-bit words, written in place by `set` and `clear`.  `Bits` gives the set of positions a
  // slice stands for; every operation is specified by what it does to that set.

  import opened Words

  const WORD: nat := 64

  /** bitsetIndex: bits 0-63 are in word 0, the next in word 1, and so on. */
  function Major(pos: nat): nat { pos / WORD }

  function Minor(pos: nat): bv6 { (pos % WORD) as bv6 }

  predicate Member(ws: seq<bv64>, pos: nat) {
    Major(pos) < |ws| && Bit(ws[Major(pos)], Minor(pos))
  }

  function Bits(ws: seq<bv64>): set<nat> {
    set pos: nat | pos < WORD * |ws| && Member(ws, pos)
  }

  /** bits.OnesCount64 of the Go library. */
  function OnesCount(w: bv64): nat {
    |Ones(w)|
  }

  function Ones(w: bv64): set<nat> {
    set k: nat | k < WORD && Bit(w, Minor(k))
  }

  function Total(ws: seq<bv64>): nat {
    if ws == [] then 0 else Total(ws[..|ws| - 1]) + OnesCount(ws[|ws| - 1])
  }

  function Xor(start: bv64, ws: seq<bv64>): bv64 {
    if ws == [] then start else Xor(start, ws[..|ws| - 1]) ^ ws[|ws| - 1]
  }

  function HashOf(ws: seq<bv64>): bv64 {
    Xor((Total(ws) % 0x1_0000_0000_0000_0000) as bv64, ws)
  }

  lemma MinorInjective(p: nat, q: nat)
    requires Minor(p) == Minor(q)
    ensures p % WORD == q % WORD
  {
    assert ((p % WORD) as bv6) as nat == p % WORD;
    assert ((q % WORD) as bv6) as nat == q % WORD;
  }

  lemma BitPosition(i: nat, k: bv6)
    ensures Major(WORD * i + k as nat) == i && Minor(WORD * i + k as nat) == k
  {
    assert (k as nat) as bv6 == k;
  }

  // ---- a slice of words ----

  lemma MemberIffInBits(ws: seq<bv64>, pos: nat)
    ensures pos in Bits(ws) <==> Member(ws, pos)
  {}

  /** Two slices of one length hold the same set exactly when they are the same words. */
  lemma BitsInjective(v: seq<bv64>, w: seq<bv64>)
    requires |v| == |w| && Bits(v) == Bits(w)
    ensures v == w
  {
    forall i: nat | i < |v| ensures v[i] == w[i] {
      if v[i] != w[i] {
        var k := Differ(v[i], w[i]);
        var pos: nat := WORD * i + k as nat;
        BitPosition(i, k);
        MemberIffInBits(v, pos);
        MemberIffInBits(w, pos);
        assert false;
      }
    }
  }

  lemma SetMember(ws: seq<bv64>, pos: nat, q: nat)
    requires Major(pos) < |ws|
    ensures Member(ws[Major(pos) := ws[Major(pos)] | Mask(Minor(pos))], q) <==> q == pos || Member(ws, q)
  {
    if Major(q) == Major(pos) {
      OrBit(ws[Major(pos)], Minor(pos), Minor(q));
      if Minor(q) == Minor(pos) {
        MinorInjective(q, pos);
      }
    }
  }

  lemma ClearMember(ws: seq<bv64>, pos: nat, q: nat)
    requires Major(pos) < |ws|
    ensures Member(ws[Major(pos) := ws[Major(pos)] & !Mask(Minor(pos))], q) <==> q != pos && Member(ws, q)
  {
    if Major(q) == Major(pos) {
      AndNotBit(ws[Major(pos)], Minor(pos), Minor(q));
      if Minor(q) == Minor(pos) {
        MinorInjective(q, pos);
      }
    }
  }

  // ---- popcnt counts the members ----

  lemma {:induction false} ShiftSize(ks: set<nat>, base: nat, ps: set<nat>)
    requires forall p: nat :: p in ps <==> p >= base && p - base in ks
    ensures |ks| == |ps|
  {
    if ks == {} {
      assert ps == {};
    } else {
      var k :| k in ks;
      assert base + k in ps;
      ShiftSize(ks - {k}, base, ps - {base + k});
    }
  }

  /** The positions that word `i` of a slice contributes. */
  function OfWord(w: bv64, i: nat): set<nat> {
    set pos: nat | WORD * i <= pos < WORD * i + WORD && Bit(w, Minor(pos))
  }

  lemma MinorShift(i: nat, k: nat)
    ensures Minor(WORD * i + k) == Minor(k)
  {
    assert (WORD * i + k) % WORD == k % WORD;
  }

  lemma OfWordShift(w: bv64, i: nat, k: nat)
    ensures WORD * i + k in OfWord(w, i) <==> k in Ones(w)
  {
    MinorShift(i, k);
  }

  lemma OnesCountIsSize(w: bv64, i: nat)
    ensures OnesCount(w) == |OfWord(w, i)|
  {
    forall p: nat ensures p in OfWord(w, i) <==> p >= WORD * i && p - WORD * i in Ones(w) {
      if p >= WORD * i {
        OfWordShift(w, i, p - WORD * i);
      }
    }
    ShiftSize(Ones(w), WORD * i, OfWord(w, i));
  }

  lemma BitsOfLast(ws: seq<bv64>)
    requires ws != []
    ensures Bits(ws) == Bits(ws[..|ws| - 1]) + OfWord(ws[|ws| - 1], |ws| - 1)
    ensures Bits(ws[..|ws| - 1]) !! OfWord(ws[|ws| - 1], |ws| - 1)
  {}

  lemma {:induction false} TotalIsSize(ws: seq<bv64>)
    ensures Total(ws) == |Bits(ws)|
  {
    if ws != [] {
      TotalIsSize(ws[..|ws| - 1]);
      OnesCountIsSize(ws[|ws| - 1], |ws| - 1);
      BitsOfLast(ws);
    }
  }

  // ---- the operations ----

  method NewBitset(bits: nat) returns (b: array<bv64>)
    ensures fresh(b) && bits <= WORD * b.Length < bits + WORD
    ensures Bits(b[..]) == {}
  {
    var extra := 0;
    if bits % WORD != 0 {
      extra := 1;
    }
    var chunks := bits / WORD + extra;
    b := new bv64[chunks](_ => 0);
  }

  method Clone(b: array<bv64>) returns (c: array<bv64>)
    ensures fresh(c) && c.Length == b.Length && c[..] == b[..]
  {
    c := new bv64[b.Length](i requires 0 <= i < b.Length reads b => b[i]);
  }

  method Set(b: array<bv64>, pos: nat)
    requires pos < WORD * b.Length
    modifies b
    ensures Bits(b[..]) == old(Bits(b[..])) + {pos}
  {
    ghost var ws := b[..];
    b[Major(pos)] := b[Major(pos)] | Mask(Minor(pos));
    assert b[..] == ws[Major(pos) := ws[Major(pos)] | Mask(Minor(pos))];
    forall q: nat ensures q in Bits(b[..]) <==> q == pos || q in Bits(ws) {
      SetMember(ws, pos, q);
      MemberIffInBits(ws, q);
      MemberIffInBits(b[..], q);
    }
  }

  method Clear(b: array<bv64>, pos: nat)
    requires pos < WORD * b.Length
    modifies b
    ensures Bits(b[..]) == old(Bits(b[..])) - {pos}
  {
    ghost var ws := b[..];
    b[Major(pos)] := b[Major(pos)] & !Mask(Minor(pos));
    assert b[..] == ws[Major(pos) := ws[Major(pos)] & !Mask(Minor(pos))];
    forall q: nat ensures q in Bits(b[..]) <==> q != pos && q in Bits(ws) {
      ClearMember(ws, pos, q);
      MemberIffInBits(ws, q);
      MemberIffInBits(b[..], q);
    }
  }

  method Popcnt(b: array<bv64>) returns (total: nat)
    ensures total == Total(b[..]) == |Bits(b[..])|
  {
    total := 0;
    for i := 0 to b.Length
      invariant total == Total(b[..i])
    {
      assert b[..i + 1][..i] == b[..i];
      total := total + OnesCount(b[i]);
    }
    assert b[..b.Length] == b[..];
    TotalIsSize(b[..]);
  }

  method Hash(b: array<bv64>) returns (hash: bv64)
    ensures hash == HashOf(b[..])
  {
    var total := Popcnt(b);
    var start := (total % 0x1_0000_0000_0000_0000) as bv64;
    hash := start;
    for i := 0 to b.Length
      invariant hash == Xor(start, b[..i])
    {
      assert b[..i + 1][..i] == b[..i];
      hash := hash ^ b[i];
    }
    assert b[..b.Length] == b[..];
  }

  /** Equal words; by `BitsInjective`, for slices of one length: equal sets. */
  method Equals(b: array<bv64>, b2: array<bv64>) returns (r: bool)
    ensures r <==> b[..] == b2[..]
  {
    if b.Length != b2.Length {
      return false;
    }
    for i := 0 to b.Length
      invariant b[..i] == b2[..i]
    {
      if b[i] != b2[i] {
        assert b[..][i] != b2[..][i];
        return false;
      }
      assert b[..i + 1] == b[..i] + [b[i]] && b2[..i + 1] == b2[..i] + [b2[i]];
    }
    assert b[..b.Length] == b[..] && b2[..b2.Length] == b2[..];
    return true;
  }
}
