/** The password key derivation loop, against section 5.2 of RFC 8018. */
module Pbkdf2 {
  type Bytes = seq<bv8>

  /** The pseudorandom function keyed with the password; its outputs have one length. */
  datatype Prf = Prf(apply: Bytes -> Bytes, size: nat)

  ghost predicate Lawful(prf: Prf) {
    prf.size > 0 && forall m :: |prf.apply(m)| == prf.size
  }

  // ---- section 5.2 ----

  /** The octet with these bits, the highest one first. */
  function OfBits(h: bool, g: bool, f: bool, e: bool, d: bool, c: bool, b: bool, a: bool): bv8 {
    (if h then 0x80 else 0) | (if g then 0x40 else 0) | (if f then 0x20 else 0) | (if e then 0x10 else 0) |
    (if d then 0x08 else 0) | (if c then 0x04 else 0) | (if b then 0x02 else 0) | (if a then 0x01 else 0)
  }

  /** The octet of a number below 256, in binary. */
  function Octet(n: nat): bv8
    requires n < 256
  {
    var g := n % 128;
    var f := g % 64;
    var e := f % 32;
    var d := e % 16;
    var c := d % 8;
    var b := c % 4;
    OfBits(n >= 128, g >= 64, f >= 32, e >= 16, d >= 8, c >= 4, b >= 2, b % 2 == 1)
  }

  function Place(b: bv8, mask: bv8, value: nat): nat {
    if b & mask != 0 then value else 0
  }

  /** The number that an octet stands for. */
  function Number(b: bv8): nat {
    Place(b, 0x80, 128) + Place(b, 0x40, 64) + Place(b, 0x20, 32) + Place(b, 0x10, 16) +
    Place(b, 0x08, 8) + Place(b, 0x04, 4) + Place(b, 0x02, 2) + Place(b, 0x01, 1)
  }

  lemma BitsStay(h: bool, g: bool, f: bool, e: bool, d: bool, c: bool, b: bool, a: bool)
    ensures var o := OfBits(h, g, f, e, d, c, b, a);
            && (o & 0x80 != 0) == h && (o & 0x40 != 0) == g && (o & 0x20 != 0) == f && (o & 0x10 != 0) == e
            && (o & 0x08 != 0) == d && (o & 0x04 != 0) == c && (o & 0x02 != 0) == b && (o & 0x01 != 0) == a
  {
  }

  function Bit(on: bool, value: nat): nat {
    if on then value else 0
  }

  lemma NumberOfBits(h: bool, g: bool, f: bool, e: bool, d: bool, c: bool, b: bool, a: bool)
    ensures Number(OfBits(h, g, f, e, d, c, b, a)) ==
            Bit(h, 128) + Bit(g, 64) + Bit(f, 32) + Bit(e, 16) + Bit(d, 8) + Bit(c, 4) + Bit(b, 2) + Bit(a, 1)
  {
    BitsStay(h, g, f, e, d, c, b, a);
    hide OfBits;
  }

  lemma Rest(n: nat, w: nat)
    requires 0 < w && n < 2 * w
    ensures n % w == n - Bit(n >= w, w)
  {
  }

  lemma OctetNumber(n: nat)
    requires n < 256
    ensures Number(Octet(n)) == n
  {
    hide OfBits, Number, Bit;
    var g := n % 128;
    var f := g % 64;
    var e := f % 32;
    var d := e % 16;
    var c := d % 8;
    var b := c % 4;
    NumberOfBits(n >= 128, g >= 64, f >= 32, e >= 16, d >= 8, c >= 4, b >= 2, b % 2 == 1);
    Rest(n, 128);
    Rest(g, 64);
    Rest(f, 32);
    Rest(e, 16);
    Rest(d, 8);
    Rest(c, 4);
    Rest(b, 2);
    assert b % 2 == Bit(b % 2 == 1, 1) by { LastBit(b); }
  }

  lemma LastBit(b: nat)
    ensures b % 2 == Bit(b % 2 == 1, 1)
  {
  }

  lemma NumberIsValue(b: bv8)
    ensures Number(b) == b as nat
  {
  }

  /** INT (i): four octets, most significant first; the counter is a uint32. */
  function Int32(i: nat): Bytes {
    var n := i % 0x1_0000_0000;
    [Octet(n / 0x100_0000), Octet(n / 0x1_0000 % 0x100), Octet(n / 0x100 % 0x100), Octet(n % 0x100)]
  }

  /** The octets of a counter, by their place values. */
  lemma {:induction false} Int32Value(i: nat)
    requires i < 0x1_0000_0000
    ensures |Int32(i)| == 4
    ensures 16777216 * Number(Int32(i)[0]) + 65536 * Number(Int32(i)[1]) + 256 * Number(Int32(i)[2]) + Number(Int32(i)[3]) == i
  {
    hide Octet, Number, Int32;
    Int32Octets(i);
    OctetNumber(i / 0x100_0000);
    OctetNumber(i / 0x1_0000 % 0x100);
    OctetNumber(i / 0x100 % 0x100);
    OctetNumber(i % 0x100);
    PlaceValues(i);
  }

  lemma Int32Octets(i: nat)
    requires i < 0x1_0000_0000
    ensures Int32(i) == [Octet(i / 0x100_0000), Octet(i / 0x1_0000 % 0x100), Octet(i / 0x100 % 0x100), Octet(i % 0x100)]
  {
    assert i % 0x1_0000_0000 == i;
    hide Octet;
  }

  lemma PlaceValues(i: nat)
    ensures 16777216 * (i / 0x100_0000) + 65536 * (i / 0x1_0000 % 0x100) + 256 * (i / 0x100 % 0x100) + i % 0x100 == i
  {
  }

  /** U_j of block i. */
  function U(prf: Prf, salt: Bytes, i: nat, j: nat): Bytes {
    if j <= 1 then prf.apply(salt + Int32(i)) else prf.apply(U(prf, salt, i, j - 1))
  }

  function Xor(a: Bytes, b: Bytes): Bytes
    requires |a| == |b|
  {
    seq(|a|, k requires 0 <= k < |a| => a[k] ^ b[k])
  }

  lemma {:induction false} USize(prf: Prf, salt: Bytes, i: nat, j: nat)
    requires Lawful(prf)
    ensures |U(prf, salt, i, j)| == prf.size
  {
  }

  /** T_i = F (P, S, c, i): the exclusive-or of U_1 to U_c. */
  ghost function T(prf: Prf, salt: Bytes, i: nat, c: nat): (t: Bytes)
    requires Lawful(prf)
    ensures |t| == prf.size
  {
    USize(prf, salt, i, c);
    if c <= 1 then U(prf, salt, i, 1) else Xor(T(prf, salt, i, c - 1), U(prf, salt, i, c))
  }

  /** T_1 || T_2 || ... || T_l. */
  ghost function Blocks(prf: Prf, salt: Bytes, c: nat, l: nat): (b: Bytes)
    requires Lawful(prf)
    ensures |b| == l * prf.size
  {
    if l == 0 then [] else Blocks(prf, salt, c, l - 1) + T(prf, salt, l, c)
  }

  function BlockCount(keyLen: nat, size: nat): nat
    requires size > 0
  {
    (keyLen + size - 1) / size
  }

  lemma EnoughBlocks(keyLen: nat, size: nat)
    requires size > 0
    ensures keyLen <= BlockCount(keyLen, size) * size < keyLen + size
  {
    var n := keyLen + size - 1;
    assert n == n / size * size + n % size;
  }

  ghost function Derived(prf: Prf, salt: Bytes, c: nat, keyLen: nat): (key: Bytes)
    requires Lawful(prf)
    ensures |key| == keyLen
  {
    EnoughBlocks(keyLen, prf.size);
    Blocks(prf, salt, c, BlockCount(keyLen, prf.size))[..keyLen]
  }

  // ---- what that means byte by byte ----

  /** The exclusive-or of one octet over U_1 to U_c. */
  ghost function Column(prf: Prf, salt: Bytes, i: nat, c: nat, k: nat): bv8
    requires Lawful(prf) && k < prf.size
  {
    USize(prf, salt, i, c);
    if c <= 1 then U(prf, salt, i, c)[k] else Column(prf, salt, i, c - 1, k) ^ U(prf, salt, i, c)[k]
  }

  lemma {:induction false} TByte(prf: Prf, salt: Bytes, i: nat, c: nat, k: nat)
    requires Lawful(prf) && k < prf.size
    ensures T(prf, salt, i, c)[k] == Column(prf, salt, i, c, k)
  {
    if c > 1 {
      USize(prf, salt, i, c);
      TByte(prf, salt, i, c - 1, k);
    }
  }

  lemma Monotone(a: nat, b: nat, n: nat)
    requires a <= b
    ensures a * n <= b * n
  {
  }

  lemma Fits(i: nat, k: nat, l: nat, size: nat)
    requires i < l && k < size
    ensures i * size + k < l * size
  {
    Monotone(i + 1, l, size);
  }

  lemma {:induction false} BlocksByte(prf: Prf, salt: Bytes, c: nat, l: nat, i: nat, k: nat)
    requires Lawful(prf) && i < l && k < prf.size
    requires i * prf.size + k < l * prf.size
    ensures Blocks(prf, salt, c, l)[i * prf.size + k] == Column(prf, salt, i + 1, c, k)
  {
    hide T, Column;
    if i < l - 1 {
      Fits(i, k, l - 1, prf.size);
      BlocksByte(prf, salt, c, l - 1, i, k);
    } else {
      TByte(prf, salt, l, c, k);
    }
  }

  /** Octet i * hLen + k of the key is the exclusive-or of octet k of U_1 to U_c of block
      i + 1, whatever the key length: shorter keys are prefixes of longer ones. */
  lemma KeyByte(prf: Prf, salt: Bytes, c: nat, keyLen: nat, i: nat, k: nat)
    requires Lawful(prf) && k < prf.size && i * prf.size + k < keyLen
    ensures |Derived(prf, salt, c, keyLen)| == keyLen
    ensures Derived(prf, salt, c, keyLen)[i * prf.size + k] == Column(prf, salt, i + 1, c, k)
  {
    var l := BlockCount(keyLen, prf.size);
    EnoughBlocks(keyLen, prf.size);
    if i >= l {
      Monotone(l, i, prf.size);
      assert false;
    }
    Fits(i, k, l, prf.size);
    BlocksByte(prf, salt, c, l, i, k);
  }

  lemma {:induction false} BlocksPrefix(prf: Prf, salt: Bytes, c: nat, l: nat, m: nat)
    requires Lawful(prf) && l <= m && l * prf.size <= m * prf.size
    ensures Blocks(prf, salt, c, m)[..l * prf.size] == Blocks(prf, salt, c, l)
  {
    hide T;
    if l < m {
      Monotone(l, m - 1, prf.size);
      Monotone(m - 1, m, prf.size);
      BlocksPrefix(prf, salt, c, l, m - 1);
    }
  }

  lemma KeysArePrefixes(prf: Prf, salt: Bytes, c: nat, short: nat, long: nat)
    requires Lawful(prf) && short <= long
    ensures Derived(prf, salt, c, short) == Derived(prf, salt, c, long)[..short]
  {
    var l, m := BlockCount(short, prf.size), BlockCount(long, prf.size);
    EnoughBlocks(short, prf.size);
    EnoughBlocks(long, prf.size);
    if l > m {
      Monotone(m + 1, l, prf.size);
      assert false;
    }
    Monotone(l, m, prf.size);
    BlocksPrefix(prf, salt, c, l, m);
  }

  // ---- the code ----

  /** pbkdf2Key. Every iteration count below 1 counts as 1. */
  method Key(prf: Prf, salt: Bytes, iter: int, keyLen: nat) returns (key: Bytes)
    requires Lawful(prf)
    ensures key == Derived(prf, salt, if iter < 1 then 1 else iter, keyLen)
    ensures |key| == keyLen
  {
    hide T, Xor;
    var numBlocks := (keyLen + prf.size - 1) / prf.size;
    EnoughBlocks(keyLen, prf.size);
    ghost var c := if iter < 1 then 1 else iter;
    var dk: Bytes := [];
    var u := new bv8[prf.size];
    for block := 1 to numBlocks + 1
      invariant dk == Blocks(prf, salt, c, block - 1)
    {
      var sum := Block(prf, salt, iter, block, u);
      dk := dk + sum[..];
    }
    key := dk[..keyLen];
  }

  /** One block: `u` is the buffer that all rounds reuse, `sum` the running exclusive-or. */
  method Block(prf: Prf, salt: Bytes, iter: int, block: nat, u: array<bv8>) returns (sum: array<bv8>)
    requires Lawful(prf) && u.Length == prf.size
    modifies u
    ensures fresh(sum)
    ensures sum[..] == T(prf, salt, block, if iter < 1 then 1 else iter)
  {
    hide Int32;
    var first := prf.apply(salt + Int32(block));
    sum := Filled(first);
    Put(u, first);
    assert u[..] == first == U(prf, salt, block, 1);
    assert sum[..] == T(prf, salt, block, 1);
    var i := 1;
    while i < iter
      invariant 1 <= i && (i <= iter || i == 1)
      invariant u[..] == U(prf, salt, block, i)
      invariant sum[..] == T(prf, salt, block, i)
    {
      var next := prf.apply(u[..]);
      Put(u, next);
      assert next == U(prf, salt, block, i + 1);
      XorInto(sum, u);
      i := i + 1;
      assert T(prf, salt, block, i) == Xor(T(prf, salt, block, i - 1), U(prf, salt, block, i));
    }
  }

  method Filled(s: Bytes) returns (a: array<bv8>)
    ensures fresh(a) && a[..] == s
  {
    a := new bv8[|s|](k requires 0 <= k < |s| => s[k]);
  }

  method Put(a: array<bv8>, s: Bytes)
    requires a.Length == |s|
    modifies a
    ensures a[..] == s
  {
    for k := 0 to a.Length
      invariant a[..k] == s[..k]
    {
      a[k] := s[k];
      assert a[..k + 1] == a[..k] + [s[k]] && s[..k + 1] == s[..k] + [s[k]];
    }
    assert a[..] == a[..a.Length] && s == s[..|s|];
  }

  method XorInto(sum: array<bv8>, u: array<bv8>)
    requires sum.Length == u.Length && sum != u
    modifies sum
    ensures sum[..] == Xor(old(sum[..]), u[..])
  {
    for x := 0 to sum.Length
      invariant forall k | 0 <= k < x :: sum[k] == old(sum[k]) ^ u[k]
      invariant forall k | x <= k < sum.Length :: sum[k] == old(sum[k])
    {
      sum[x] := sum[x] ^ u[x];
    }
  }
}
