/** Connection ids, their equality and their FNV-1a hash in 32-bit arithmetic. */
module ConnectionIds {

  type Octet = n: nat | n < 256

  type Cid = seq<Octet>

  const MODULUS := 0x1_0000_0000
  const OFFSET_BASIS := 0x811C9DC5
  const PRIME := 0x01000193
  const PRIME_INVERSE := 0x359C449B

  type Word = n: nat | n < 0x1_0000_0000

  function Pow2(n: nat): nat {
    if n == 0 then 1 else 2 * Pow2(n - 1)
  }

  /** Exclusive or, bit by bit. */
  function Xor(a: nat, b: nat, bits: nat): (r: nat)
    ensures r < Pow2(bits)
  {
    if bits == 0 then 0 else 2 * Xor(a / 2, b / 2, bits - 1) + (a + b) % 2
  }

  function XorWord(a: nat, b: nat): Word {
    assert Pow2(32) == MODULUS by { Pow2Of32(); }
    Xor(a, b, 32)
  }

  lemma Pow2Of32()
    ensures Pow2(32) == MODULUS
  {
    assert Pow2(8) == 256;
    assert Pow2(16) == 0x1_0000;
    assert Pow2(24) == 0x100_0000;
  }

  function Mix(hash: Word, b: Octet): Word {
    XorWord(b, hash) * PRIME % MODULUS
  }

  function Fold(hash: Word, id: Cid): Word {
    if id == [] then hash else Mix(Fold(hash, id[..|id| - 1]), id[|id| - 1])
  }

  method HashConnectionId(id: Cid) returns (hash: Word)
    ensures hash == Fold(OFFSET_BASIS, id)
  {
    hash := OFFSET_BASIS;
    for i := 0 to |id|
      invariant hash == Fold(OFFSET_BASIS, id[..i])
    {
      hash := XorWord(id[i], hash) * PRIME % MODULUS;
      assert id[..i + 1][..i] == id[..i];
    }
    assert id[..|id|] == id;
  }

  /** Equality as the code has it: the lengths, then the bytes. */
  method SameConnectionId(a: Cid, b: Cid) returns (same: bool)
    ensures same <==> a == b
  {
    if |a| != |b| { return false; }
    for i := 0 to |a|
      invariant a[..i] == b[..i]
    {
      if a[i] != b[i] { return false; }
    }
    return true;
  }

  lemma {:induction false} XorZero(b: nat, bits: nat)
    requires b < Pow2(bits)
    ensures Xor(0, b, bits) == b
  {
    if bits == 0 {
    } else {
      XorZero(b / 2, bits - 1);
    }
  }

  /** Two known values of the hash: of the empty id, and of the one byte 0x61. */
  lemma HashExamples()
    ensures Fold(OFFSET_BASIS, []) == 0x811C9DC5
    ensures Fold(OFFSET_BASIS, [0x61]) == 0xE40C292C
  {
    assert [0x61 as Octet][..0] == [];
    HashOfOneByte();
  }

  lemma XorNext(a: nat, b: nat, bits: nat, r: nat)
    requires bits > 0 && Xor(a / 2, b / 2, bits - 1) == r
    ensures Xor(a, b, bits) == 2 * r + (a + b) % 2
  {
  }

  /** Seven bits by hand, and the rest as they are. */
  lemma XorWith0x61(h: nat, bits: nat)
    requires h == 0x811C9DC5 && bits == 32 && Pow2(bits - 7) == 0x200_0000
    ensures Xor(0x61, h, bits) == 0x811C9DA4
  {
    var h1, h2, h3, h4, h5, h6, h7 := h / 2, h / 4, h / 8, h / 16, h / 32, h / 64, h / 128;
    XorZero(h7, bits - 7);
    XorNext(0x1, h6, bits - 6, h7);
    XorNext(0x3, h5, bits - 5, 0x2047276);
    XorNext(0x6, h4, bits - 4, 0x408E4ED);
    XorNext(0xC, h3, bits - 3, 0x811C9DA);
    XorNext(0x18, h2, bits - 2, 0x102393B4);
    XorNext(0x30, h1, bits - 1, 0x20472769);
    XorNext(0x61, h, bits, 0x408E4ED2);
  }

  lemma HashOfOneByte()
    ensures Mix(0x811C9DC5, 0x61) == 0xE40C292C
  {
    assert Pow2(25) == 0x200_0000 by { assert Pow2(8) == 256; assert Pow2(16) == 0x1_0000; assert Pow2(24) == 0x100_0000; }
    Pow2Of32();
    XorWith0x61(0x811C9DC5, 32);
  }

  // ----- One step is a permutation of the states

  lemma ParityTwice(a: nat, b: nat, x: nat)
    ensures (2 * x + (a + b) % 2) / 2 == x
    ensures (a + (2 * x + (a + b) % 2)) % 2 == b % 2
  {
  }

  lemma {:induction false} XorTwice(a: nat, b: nat, bits: nat)
    requires b < Pow2(bits)
    ensures Xor(a, Xor(a, b, bits), bits) == b
  {
    if bits == 0 {
    } else {
      var x := Xor(a / 2, b / 2, bits - 1);
      ParityTwice(a, b, x);
      XorTwice(a / 2, b / 2, bits - 1);
      assert b == 2 * (b / 2) + b % 2;
    }
  }

  lemma {:induction false} XorCommutes(a: nat, b: nat, bits: nat)
    ensures Xor(a, b, bits) == Xor(b, a, bits)
  {
    if bits == 0 {
    } else {
      XorCommutes(a / 2, b / 2, bits - 1);
    }
  }

  lemma Multiple(d: int, m: int)
    requires m > 0
    ensures d >= 1 ==> d * m >= m
    ensures d <= -1 ==> d * m <= -m
  {
  }

  lemma ModUnique(x: int, t: int, m: int)
    requires 0 <= x < m
    ensures (x + t * m) % m == x
  {
    var q, r := (x + t * m) / m, (x + t * m) % m;
    assert (t - q) * m == r - x;
    Multiple(t - q, m);
  }

  lemma Regroup(x: int, p: int, inverse: int, q: int, k: int, m: int)
    requires p * inverse == 1 + q * m
    ensures (x * p - k * m) * inverse == x + (x * q - k * inverse) * m
  {
    assert (x * p) * inverse == x * (p * inverse) == x + x * (q * m);
    assert x * (q * m) == (x * q) * m;
    assert (k * m) * inverse == (k * inverse) * m;
  }

  /** A factor that has an inverse modulo m can be undone. */
  lemma FactorCancels(x: int, p: int, inverse: int, q: int, m: int)
    requires 0 <= x < m && p * inverse == 1 + q * m
    ensures x * p % m * inverse % m == x
  {
    var k, r := x * p / m, x * p % m;
    assert r == x * p - k * m;
    Regroup(x, p, inverse, q, k, m);
    ModUnique(x, x * q - k * inverse, m);
  }

  /** Multiplication by the odd prime can be undone modulo 2^32. */
  lemma TimesPrimeCancels(x: Word)
    ensures x * PRIME % MODULUS * PRIME_INVERSE % MODULUS == x
    ensures x * PRIME_INVERSE % MODULUS * PRIME % MODULUS == x
  {
    var q := PRIME * PRIME_INVERSE / MODULUS;
    FactorCancels(x, PRIME, PRIME_INVERSE, q, MODULUS);
    FactorCancels(x, PRIME_INVERSE, PRIME, q, MODULUS);
  }

  function Unmix(hash: Word, b: Octet): Word {
    XorWord(b, hash * PRIME_INVERSE % MODULUS)
  }

  lemma MixIsPermutation(hash: Word, b: Octet)
    ensures Unmix(Mix(hash, b), b) == hash && Mix(Unmix(hash, b), b) == hash
  {
    Pow2Of32();
    TimesPrimeCancels(XorWord(b, hash));
    XorTwice(b, hash, 32);
    TimesPrimeCancels(hash);
    XorTwice(b, hash * PRIME_INVERSE % MODULUS, 32);
  }

  // ----- Collisions

  /** From one state, different bytes lead to different states. */
  lemma BytesSeparate(hash: Word, a: Octet, b: Octet)
    requires a != b
    ensures Mix(hash, a) != Mix(hash, b)
  {
    Pow2Of32();
    TimesPrimeCancels(XorWord(a, hash));
    TimesPrimeCancels(XorWord(b, hash));
    XorCommutes(a, hash, 32);
    XorCommutes(b, hash, 32);
    XorTwice(hash, a, 32);
    XorTwice(hash, b, 32);
  }

  /** For a fixed string the whole fold is injective in the state it starts from. */
  lemma {:induction false} FoldIsInjective(h: Word, g: Word, id: Cid)
    requires Fold(h, id) == Fold(g, id)
    ensures h == g
  {
    if id == [] {
    } else {
      var last, before := id[|id| - 1], id[..|id| - 1];
      MixIsPermutation(Fold(h, before), last);
      MixIsPermutation(Fold(g, before), last);
      FoldIsInjective(h, g, before);
    }
  }

  lemma {:induction false} FoldConcat(hash: Word, a: Cid, b: Cid)
    ensures Fold(hash, a + b) == Fold(Fold(hash, a), b)
  {
    if b == [] {
      assert a + b == a;
    } else {
      assert (a + b)[..|a + b| - 1] == a + b[..|b| - 1];
      FoldConcat(hash, a, b[..|b| - 1]);
    }
  }

  /** Two ids of equal length that differ in exactly one byte never hash equal, whatever the length. */
  lemma OneByteNeverCollides(a: Cid, b: Cid, k: nat)
    requires |a| == |b| && k < |a| && a[k] != b[k]
    requires forall i | 0 <= i < |a| && i != k :: a[i] == b[i]
    ensures Fold(OFFSET_BASIS, a) != Fold(OFFSET_BASIS, b)
  {
    var front, back := a[..k], a[k + 1..];
    var h := Fold(OFFSET_BASIS, front);
    assert a == front + [a[k]] + back && b == front + [b[k]] + back;
    FoldConcat(OFFSET_BASIS, front + [a[k]], back);
    FoldConcat(OFFSET_BASIS, front + [b[k]], back);
    assert (front + [a[k]])[..k] == front && (front + [b[k]])[..k] == front;
    BytesSeparate(h, a[k], b[k]);
    if Fold(OFFSET_BASIS, a) == Fold(OFFSET_BASIS, b) {
      FoldIsInjective(Mix(h, a[k]), Mix(h, b[k]), back);
    }
  }
}
