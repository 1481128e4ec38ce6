// Bytes, their bitwise operators and big-endian numbers (crypto_xor of crypto/algapi.c).
module Bytes {
  import opened Arith

  type Byte = x: nat | x < 256 witness 0

  type Block = s: seq<Byte> | |s| == 16 witness [0, 0, 0, 0, 0, 0, 0, 0, 0, 0, 0, 0, 0, 0, 0, 0]

  // Exclusive or and inclusive or, bit by bit.
  function XorBits(a: nat, b: nat): nat {
    if a == 0 && b == 0 then 0 else 2 * XorBits(a / 2, b / 2) + (a + b) % 2
  }

  function OrBits(a: nat, b: nat): nat {
    if a == 0 && b == 0 then 0 else 2 * OrBits(a / 2, b / 2) + if a % 2 == 1 || b % 2 == 1 then 1 else 0
  }

  function Pow2(k: nat): (p: nat)
    ensures p > 0
  {
    if k == 0 then 1 else 2 * Pow2(k - 1)
  }

  // Bit k of a number.
  function Bit(a: nat, k: nat): bool { a / Pow2(k) % 2 == 1 }

  lemma BitShift(a: nat, k: nat)
    requires k > 0
    ensures Bit(a, k) == Bit(a / 2, k - 1)
  {
    HalfDivides(a, Pow2(k - 1));
  }

  lemma HalfDivides(a: nat, p: nat)
    requires p > 0
    ensures a / (2 * p) == a / 2 / p
  {
    var h := a / 2;
    var q, r := h / p, h % p;
    assert a == 2 * h + a % 2 && h == p * q + r;
    assert a == (2 * p) * q + (2 * r + a % 2);
    DivMod(a, 2 * p, q, 2 * r + a % 2);
  }

  // Each bit of the exclusive or says whether the bits differ, of the inclusive or whether one is set.
  lemma {:induction false} BitsCombine(a: nat, b: nat, k: nat)
    ensures Bit(XorBits(a, b), k) == (Bit(a, k) != Bit(b, k)) && Bit(OrBits(a, b), k) == (Bit(a, k) || Bit(b, k))
    decreases k
  {
    if k == 0 {
      BitZero(a, b);
    } else {
      BitShift(a, k);
      BitShift(b, k);
      BitShift(XorBits(a, b), k);
      BitShift(OrBits(a, b), k);
      HalvesCombine(a, b);
      BitsCombine(a / 2, b / 2, k - 1);
      hide Bit;
    }
  }

  lemma HalvesCombine(a: nat, b: nat)
    ensures XorBits(a, b) / 2 == XorBits(a / 2, b / 2) && OrBits(a, b) / 2 == OrBits(a / 2, b / 2)
  {
  }

  lemma LowBit(a: nat)
    ensures Bit(a, 0) == (a % 2 == 1)
  {
    assert Pow2(0) == 1;
  }

  lemma BitZero(a: nat, b: nat)
    ensures Bit(XorBits(a, b), 0) == (Bit(a, 0) != Bit(b, 0)) && Bit(OrBits(a, b), 0) == (Bit(a, 0) || Bit(b, 0))
  {
    LowBit(a);
    LowBit(b);
    LowBit(XorBits(a, b));
    LowBit(OrBits(a, b));
    hide Bit;
    LowBits(a, b);
  }

  lemma LowBits(a: nat, b: nat)
    ensures XorBits(a, b) % 2 == (a + b) % 2
    ensures OrBits(a, b) % 2 == if a % 2 == 1 || b % 2 == 1 then 1 else 0
  {
    Halves(XorBits(a / 2, b / 2), (a + b) % 2);
    Halves(OrBits(a / 2, b / 2), if a % 2 == 1 || b % 2 == 1 then 1 else 0);
  }

  lemma {:induction false} XorFits(a: nat, b: nat, k: nat)
    requires a < Pow2(k) && b < Pow2(k)
    ensures XorBits(a, b) < Pow2(k)
    decreases k
  {
    if k > 0 { XorFits(a / 2, b / 2, k - 1); }
  }

  lemma {:induction false} XorTwice(a: nat, b: nat)
    ensures XorBits(XorBits(a, b), b) == a
    decreases a + b
  {
    if a == 0 && b == 0 {
    } else {
      XorTwice(a / 2, b / 2);
      var p, x := XorBits(a / 2, b / 2), XorBits(a, b);
      assert x == 2 * p + (a + b) % 2;
      Halves(p, (a + b) % 2);
      XorStep(x, b);
      hide XorBits;
      Parity(a, b);
    }
  }

  lemma Halves(p: nat, r: nat)
    requires r < 2
    ensures (2 * p + r) / 2 == p && (2 * p + r) % 2 == r
  {
  }

  lemma Parity(a: nat, b: nat)
    ensures ((a + b) % 2 + b) % 2 == a % 2
  {
  }

  lemma XorStep(a: nat, b: nat)
    ensures XorBits(a, b) == 2 * XorBits(a / 2, b / 2) + (a % 2 + b) % 2
  {
    var h, k := a / 2, b / 2;
    if a == 0 && b == 0 {
      assert XorBits(a, b) == 0;
      assert h == 0 && k == 0;
      assert XorBits(h, k) == 0;
    } else {
      assert XorBits(a, b) == 2 * XorBits(h, k) + (a + b) % 2;
    }
    hide XorBits;
    SameParity(a, b);
  }

  lemma SameParity(a: nat, b: nat)
    ensures (a % 2 + b) % 2 == (a + b) % 2
  {
  }

  lemma {:induction false} XorSym(a: nat, b: nat)
    ensures XorBits(a, b) == XorBits(b, a)
    decreases a + b
  {
    if a == 0 && b == 0 {
    } else {
      XorSym(a / 2, b / 2);
    }
  }

  lemma {:induction false} XorZero(a: nat)
    ensures XorBits(a, 0) == a
  {
    if a > 0 { XorZero(a / 2); }
  }

  // Bits that do not overlap add up.
  lemma OrAdds(low: nat, k: nat, high: nat)
    requires low < Pow2(k)
    ensures OrBits(low, Pow2(k) * high) == low + Pow2(k) * high
    decreases k
  {
    if k == 0 {
      OrZero(high);
    } else {
      var h := Pow2(k - 1) * high;
      OrAdds(low / 2, k - 1, high);
      Doubles(Pow2(k - 1), high);
      hide Pow2;
      OrStep(low, h);
    }
  }

  lemma Doubles(p: nat, q: nat)
    ensures 2 * p * q == 2 * (p * q)
  {
  }

  lemma OrStep(low: nat, h: nat)
    ensures OrBits(low, 2 * h) == 2 * OrBits(low / 2, h) + low % 2
  {
    var x := 2 * h;
    assert x / 2 == h && x % 2 == 0;
    if low == 0 && h == 0 {
      assert OrBits(0, 0) == 0;
    } else {
      assert OrBits(low, x) == 2 * OrBits(low / 2, h) + if low % 2 == 1 || x % 2 == 1 then 1 else 0;
    }
  }

  lemma {:induction false} OrZero(b: nat)
    ensures OrBits(0, b) == b
  {
    if b > 0 { OrZero(b / 2); }
  }

  function Xor(a: Byte, b: Byte): (x: Byte)
    ensures Pow2(8) == 256
  {
    assert Pow2(8) == 2 * (2 * (2 * (2 * Pow2(4)))) && Pow2(4) == 16;
    XorFits(a, b, 8);
    XorBits(a, b)
  }

  // crypto_xor as a function: byte by byte.
  function XorBytes(a: seq<Byte>, b: seq<Byte>): (x: seq<Byte>)
    requires |a| <= |b|
    ensures |x| == |a| && forall i :: 0 <= i < |a| ==> x[i] == Xor(a[i], b[i])
  {
    seq(|a|, i requires 0 <= i < |a| => Xor(a[i], b[i]))
  }

  lemma XorBytesTwice(a: seq<Byte>, b: seq<Byte>)
    requires |a| <= |b|
    ensures XorBytes(XorBytes(a, b), b) == a
  {
    forall i | 0 <= i < |a| ensures XorBytes(XorBytes(a, b), b)[i] == a[i] { XorTwice(a[i], b[i]); }
  }

  lemma XorBytesSym(a: seq<Byte>, b: seq<Byte>)
    requires |a| == |b|
    ensures XorBytes(a, b) == XorBytes(b, a)
  {
    forall i | 0 <= i < |a| ensures XorBytes(a, b)[i] == XorBytes(b, a)[i] { XorSym(a[i], b[i]); }
  }

  function Zeros(n: nat): (z: seq<Byte>)
    ensures |z| == n && forall i :: 0 <= i < n ==> z[i] == 0
  {
    seq(n, _ => 0)
  }

  lemma XorZeros(x: seq<Byte>)
    ensures XorBytes(x, Zeros(|x|)) == x
  {
    forall i | 0 <= i < |x| ensures XorBytes(x, Zeros(|x|))[i] == x[i] { XorZero(x[i]); }
  }

  // crypto_xor on the bytes of dst from off on: words while four bytes are left, then the tail.
  method CryptoXor(dst: array<Byte>, off: nat, src: seq<Byte>, size: nat)
    requires off + size <= dst.Length && size <= |src|
    modifies dst
    ensures dst[..] == old(dst[..off]) + XorBytes(old(dst[off..off + size]), src) + old(dst[off + size..])
  {
    var n := 0;
    ghost var d := dst[..];
    assert Xored(d, off, src, size) == d[..off] + XorBytes(d[off..off + size], src) + d[off + size..];
    hide Xor, XorBytes, Xored;
    XorNothing(dst[..], off, src);
    while size - n >= 4
      invariant n <= size && dst[..] == Xored(d, off, src, n)
    {
      XorWord(dst, off, src, n, d);
      n := n + 4;
    }
    while n < size
      invariant n <= size && dst[..] == Xored(d, off, src, n)
    {
      XorAt(dst, off, src, n, d);
      n := n + 1;
    }
  }

  // d with n bytes from off on combined with those of src.
  ghost function Xored(d: seq<Byte>, off: nat, src: seq<Byte>, n: nat): seq<Byte>
    requires off + n <= |d| && n <= |src|
  {
    d[..off] + XorBytes(d[off..off + n], src) + d[off + n..]
  }

  lemma XorNothing(d: seq<Byte>, off: nat, src: seq<Byte>)
    requires off <= |d|
    ensures Xored(d, off, src, 0) == d
  {
  }

  // *a++ ^= *b++ on words
  method XorWord(dst: array<Byte>, off: nat, src: seq<Byte>, n: nat, ghost d: seq<Byte>)
    requires |d| == dst.Length && off + n + 4 <= dst.Length && n + 4 <= |src| && dst[..] == Xored(d, off, src, n)
    modifies dst
    ensures dst[..] == Xored(d, off, src, n + 4)
  {
    hide Xored;
    XorAt(dst, off, src, n, d);
    XorAt(dst, off, src, n + 1, d);
    XorAt(dst, off, src, n + 2, d);
    XorAt(dst, off, src, n + 3, d);
  }

  // *a++ ^= *b++
  method XorAt(dst: array<Byte>, off: nat, src: seq<Byte>, n: nat, ghost d: seq<Byte>)
    requires |d| == dst.Length && off + n < dst.Length && n < |src| && dst[..] == Xored(d, off, src, n)
    modifies dst
    ensures dst[..] == Xored(d, off, src, n + 1)
  {
    hide Xor;
    assert dst[off + n] == d[off + n];
    dst[off + n] := Xor(dst[off + n], src[n]);
    assert d[off..off + n + 1] == d[off..off + n] + [d[off + n]];
  }

  // memcpy
  method Copy(dst: array<Byte>, off: nat, src: seq<Byte>)
    requires off + |src| <= dst.Length
    modifies dst
    ensures dst[..] == old(dst[..off]) + src + old(dst[off + |src|..])
  {
    forall i | 0 <= i < |src| { dst[off + i] := src[i]; }
  }

  // ------------------------------------------------------- big-endian numbers

  function Pow256(k: nat): (p: nat)
    ensures p > 0
  {
    if k == 0 then 1 else 256 * Pow256(k - 1)
  }

  // The k low bytes of n.
  function Be(n: nat, k: nat): (s: seq<Byte>)
    ensures |s| == k
  {
    if k == 0 then [] else Be(n / 256, k - 1) + [n % 256]
  }

  function Value(s: seq<Byte>): nat {
    if s == [] then 0 else 256 * Value(s[..|s| - 1]) + s[|s| - 1]
  }

  lemma {:induction false} ValueFits(s: seq<Byte>)
    ensures Value(s) < Pow256(|s|)
  {
    if s != [] { ValueFits(s[..|s| - 1]); }
  }

  lemma {:induction false} BeValue(n: nat, k: nat)
    requires n < Pow256(k)
    ensures Value(Be(n, k)) == n
    decreases k
  {
    if k > 0 {
      BeValue(n / 256, k - 1);
      assert Be(n, k)[..k - 1] == Be(n / 256, k - 1);
    }
  }

  // A number has one form of a given length.
  lemma {:induction false} ValueBe(s: seq<Byte>)
    ensures Be(Value(s), |s|) == s
  {
    if s != [] {
      ValueBe(s[..|s| - 1]);
      var n := Value(s);
      assert n / 256 == Value(s[..|s| - 1]) && n % 256 == s[|s| - 1];
    }
  }
}
