// Cipher block chaining (crypto/cbc.c): the four loops over memory, forward, in place and
// backward, compute the functions of section 6.2 of NIST SP 800-38A however the walk cuts the
// message.
module Cbc {
  import opened Arith
  import opened Bytes

  // A block cipher with a key: block size, encryption and decryption.
  datatype Cipher = Cipher(b: nat, e: seq<Byte> -> seq<Byte>, d: seq<Byte> -> seq<Byte>)

  ghost predicate Good(c: Cipher) {
    && c.b > 0
    && (forall x :: |x| == c.b ==> |c.e(x)| == c.b)
    && (forall x :: |x| == c.b ==> |c.d(x)| == c.b)
  }

  // Decryption undoes encryption.
  ghost predicate Inverse(c: Cipher) { forall x :: |x| == c.b ==> c.d(c.e(x)) == x }

  // Whole blocks only; what follows the last one is not processed.
  function Encrypt(c: Cipher, iv: seq<Byte>, m: seq<Byte>): (r: seq<Byte>)
    requires c.b > 0 && |iv| == c.b && forall x :: |x| == c.b ==> |c.e(x)| == c.b
    ensures |r| == |m| - |m| % c.b
    decreases |m|
  {
    if |m| < c.b then []
    else
      var y := c.e(XorBytes(m[..c.b], iv));
      Less(|m|, c.b);
      y + Encrypt(c, y, m[c.b..])
  }

  function Decrypt(c: Cipher, iv: seq<Byte>, m: seq<Byte>): (r: seq<Byte>)
    requires c.b > 0 && |iv| == c.b && forall x :: |x| == c.b ==> |c.d(x)| == c.b
    ensures |r| == |m| - |m| % c.b
    decreases |m|
  {
    if |m| < c.b then []
    else
      Less(|m|, c.b);
      XorBytes(c.d(m[..c.b]), iv) + Decrypt(c, m[..c.b], m[c.b..])
  }

  lemma Less(n: nat, b: nat)
    requires 0 < b <= n
    ensures (n - b) % b == n % b
  {
    DivMod(n - b, b, n / b - 1, n % b);
  }

  // The chaining value after ciphertext c: its last whole block, or the one before it.
  function Last(b: nat, iv: seq<Byte>, c: seq<Byte>): (l: seq<Byte>)
    requires b > 0 && |iv| == b
    ensures |l| == b
    decreases |c|
  {
    if |c| < b then iv else Last(b, c[..b], c[b..])
  }

  // ------------------------------------------------------- chunks

  lemma EncryptStep(c: Cipher, iv: seq<Byte>, x: seq<Byte>, rest: seq<Byte>)
    requires Good(c) && |iv| == c.b && |x| == c.b
    ensures var y := c.e(XorBytes(x, iv));
            |y| == c.b && Encrypt(c, iv, x + rest) == y + Encrypt(c, y, rest)
  {
    assert (x + rest)[..c.b] == x && (x + rest)[c.b..] == rest;
  }

  lemma DecryptStep(c: Cipher, iv: seq<Byte>, x: seq<Byte>, rest: seq<Byte>)
    requires Good(c) && |iv| == c.b && |x| == c.b
    ensures |c.d(x)| == c.b && Decrypt(c, iv, x + rest) == XorBytes(c.d(x), iv) + Decrypt(c, x, rest)
  {
    assert (x + rest)[..c.b] == x && (x + rest)[c.b..] == rest;
  }

  lemma Nothing(c: Cipher, iv: seq<Byte>, m: seq<Byte>)
    requires Good(c) && |iv| == c.b && |m| < c.b
    ensures Encrypt(c, iv, m) == [] && Decrypt(c, iv, m) == [] && Last(c.b, iv, m) == iv
  {
  }

  lemma Associate(a: seq<Byte>, b: seq<Byte>, d: seq<Byte>)
    ensures a + (b + d) == a + b + d
  {
  }

  lemma {:induction false} EncryptConcat(c: Cipher, iv: seq<Byte>, m: seq<Byte>, n: seq<Byte>)
    requires Good(c) && |iv| == c.b && |m| % c.b == 0
    ensures Encrypt(c, iv, m + n) == Encrypt(c, iv, m) + Encrypt(c, Last(c.b, iv, Encrypt(c, iv, m)), n)
    ensures Last(c.b, iv, Encrypt(c, iv, m + n)) == Last(c.b, Last(c.b, iv, Encrypt(c, iv, m)),
                                                         Encrypt(c, Last(c.b, iv, Encrypt(c, iv, m)), n))
    decreases |m|
  {
    hide Encrypt, Last;
    if |m| < c.b {
      Whole(|m|, c.b);
      assert m + n == n;
      Nothing(c, iv, m);
      Nothing(c, iv, []);
    } else {
      var x, rest := m[..c.b], m[c.b..];
      Less(|m|, c.b);
      assert m == x + rest;
      Associate(x, rest, n);
      EncryptStep(c, iv, x, rest);
      EncryptStep(c, iv, x, rest + n);
      var y := c.e(XorBytes(x, iv));
      EncryptConcat(c, y, rest, n);
      LastStep(c.b, iv, y, Encrypt(c, y, rest));
      LastStep(c.b, iv, y, Encrypt(c, y, rest + n));
      Associate(y, Encrypt(c, y, rest), Encrypt(c, Last(c.b, y, Encrypt(c, y, rest)), n));
    }
  }

  lemma Whole(n: nat, b: nat)
    requires n < b && n % b == 0
    ensures n == 0
  {
    DivMod(n, b, 0, n);
  }

  lemma LastStep(b: nat, iv: seq<Byte>, y: seq<Byte>, rest: seq<Byte>)
    requires b > 0 && |iv| == b && |y| == b
    ensures Last(b, iv, y + rest) == Last(b, y, rest)
  {
    assert (y + rest)[..b] == y && (y + rest)[b..] == rest;
  }

  lemma {:induction false} DecryptConcat(c: Cipher, iv: seq<Byte>, m: seq<Byte>, n: seq<Byte>)
    requires Good(c) && |iv| == c.b && |m| % c.b == 0
    ensures Decrypt(c, iv, m + n) == Decrypt(c, iv, m) + Decrypt(c, Last(c.b, iv, m), n)
    ensures Last(c.b, iv, m + n) == Last(c.b, Last(c.b, iv, m), n)
    decreases |m|
  {
    if |m| < c.b {
      Whole(|m|, c.b);
      assert m + n == n;
    } else {
      assert (m + n)[..c.b] == m[..c.b] && (m + n)[c.b..] == m[c.b..] + n;
      Less(|m|, c.b);
      DecryptConcat(c, m[..c.b], m[c.b..], n);
    }
  }

  // Decryption undoes encryption of whole blocks, and both sides end with the same value.
  lemma {:induction false} DecryptUndoes(c: Cipher, iv: seq<Byte>, m: seq<Byte>)
    requires Good(c) && Inverse(c) && |iv| == c.b && |m| % c.b == 0
    ensures Decrypt(c, iv, Encrypt(c, iv, m)) == m
    decreases |m|
  {
    hide Encrypt, Decrypt;
    if |m| < c.b {
      Whole(|m|, c.b);
      Nothing(c, iv, m);
      Nothing(c, iv, []);
    } else {
      var x, rest := m[..c.b], m[c.b..];
      Less(|m|, c.b);
      assert m == x + rest;
      EncryptStep(c, iv, x, rest);
      var y := c.e(XorBytes(x, iv));
      DecryptStep(c, iv, y, Encrypt(c, y, rest));
      DecryptUndoes(c, y, rest);
      XorBytesTwice(x, iv);
    }
  }

  // ------------------------------------------------------- the loops

  // One block more at the end.
  lemma EncryptNext(c: Cipher, iv: seq<Byte>, m: seq<Byte>, x: seq<Byte>)
    requires Good(c) && |iv| == c.b && |m| % c.b == 0 && |x| == c.b
    ensures var y := c.e(XorBytes(x, Last(c.b, iv, Encrypt(c, iv, m))));
            && |y| == c.b && Encrypt(c, iv, m + x) == Encrypt(c, iv, m) + y
            && Last(c.b, iv, Encrypt(c, iv, m + x)) == y
  {
    hide Encrypt, Last;
    EncryptConcat(c, iv, m, x);
    var l := Last(c.b, iv, Encrypt(c, iv, m));
    EncryptStep(c, l, x, []);
    assert x + [] == x;
    var y := c.e(XorBytes(x, l));
    Nothing(c, y, []);
    LastStep(c.b, l, y, []);
    assert y + [] == y;
  }

  lemma DecryptNext(c: Cipher, iv: seq<Byte>, m: seq<Byte>, x: seq<Byte>)
    requires Good(c) && |iv| == c.b && |m| % c.b == 0 && |x| == c.b
    ensures |c.d(x)| == c.b && Decrypt(c, iv, m + x) == Decrypt(c, iv, m) + XorBytes(c.d(x), Last(c.b, iv, m))
    ensures Last(c.b, iv, m + x) == x
  {
    hide Decrypt, Last;
    DecryptConcat(c, iv, m, x);
    var l := Last(c.b, iv, m);
    DecryptStep(c, l, x, []);
    assert x + [] == x;
    Nothing(c, x, []);
    LastStep(c.b, l, x, []);
    assert XorBytes(c.d(x), l) + [] == XorBytes(c.d(x), l);
  }

  lemma Multiple(p: nat, b: nat)
    requires b > 0 && p % b == 0
    ensures (p + b) % b == 0
  {
    Less(p + b, b);
  }

  // What is left over after whole blocks.
  lemma Leftover(n: nat, p: nat, b: nat)
    requires p <= n && b > 0 && p % b == 0 && n - p < b
    ensures n % b == n - p
  {
    assert p == b * (p / b);
    DivMod(n, b, p / b, n - p);
  }

  // The whole blocks of m, and what is left.
  ghost function Blocks(b: nat, m: seq<Byte>): (w: seq<Byte>)
    requires b > 0
    ensures |w| == |m| - |m| % b
  {
    m[..|m| - |m| % b]
  }

  // memcpy(walk->iv, iv, bsize)
  method Store(iv: array<Byte>, last: seq<Byte>)
    requires iv.Length == |last|
    modifies iv
    ensures iv[..] == last
  {
    Copy(iv, 0, last);
  }

  // crypto_cbc_encrypt_segment: from src to dst.
  method EncryptSegment(c: Cipher, src: array<Byte>, dst: array<Byte>, iv: array<Byte>) returns (nbytes: nat)
    requires Good(c) && src.Length == dst.Length >= c.b && iv.Length == c.b && src != dst && iv != src && iv != dst
    modifies dst, iv
    ensures nbytes == src.Length % c.b
    ensures dst[..src.Length - nbytes] == Encrypt(c, old(iv[..]), Blocks(c.b, src[..]))
    ensures iv[..] == Last(c.b, old(iv[..]), dst[..src.Length - nbytes])
  {
    ghost var v, m := iv[..], src[..];
    nbytes := src.Length;
    var p := 0;
    Nothing(c, v, []);
    hide Encrypt, Last, Good;
    while p == 0 || nbytes >= c.b
      invariant p + nbytes == src.Length && p % c.b == 0
      invariant dst[..p] == Encrypt(c, v, m[..p]) && iv[..] == Last(c.b, v, dst[..p])
      decreases nbytes
    {
      EncryptTo(c, dst, p, src[p..p + c.b], iv, v, m[..p]);
      assert m[..p] + m[p..p + c.b] == m[..p + c.b];
      Multiple(p, c.b);
      p := p + c.b;
      nbytes := nbytes - c.b;
    }
    Leftover(src.Length, p, c.b);
  }

  method EncryptTo(c: Cipher, dst: array<Byte>, p: nat, x: seq<Byte>, iv: array<Byte>, ghost v: seq<Byte>,
                   ghost m: seq<Byte>)
    requires Good(c) && |v| == |x| == iv.Length == c.b && |m| == p && p + c.b <= dst.Length && p % c.b == 0 && iv != dst
    requires dst[..p] == Encrypt(c, v, m) && iv[..] == Last(c.b, v, dst[..p])
    modifies dst, iv
    ensures dst[..p + c.b] == Encrypt(c, v, m + x) && iv[..] == Last(c.b, v, dst[..p + c.b])
  {
    hide Encrypt, Last;
    ghost var before := dst[..p];
    EncryptNext(c, v, m, x);
    EncryptOne(c, iv, x);
    Copy(dst, p, iv[..]);
    assert dst[..p + c.b] == before + iv[..];
  }

  // crypto_xor(iv, src), fn(dst, iv), memcpy(iv, dst)
  method EncryptOne(c: Cipher, iv: array<Byte>, x: seq<Byte>)
    requires Good(c) && iv.Length == |x| == c.b
    modifies iv
    ensures iv[..] == c.e(XorBytes(x, old(iv[..])))
  {
    ghost var v := iv[..];
    CryptoXor(iv, 0, x, c.b);
    assert v[..0] + XorBytes(v[0..c.b], x) + v[c.b..] == XorBytes(v, x);
    XorBytesSym(v, x);
    var y := c.e(iv[..]);
    Copy(iv, 0, y);
    assert iv[..] == y;
  }

  // What lies beyond i is the same up to any end.
  lemma SameTail(s: seq<Byte>, t: seq<Byte>, i: nat, w: nat)
    requires i <= w <= |s| == |t| && s[i..] == t[i..]
    ensures s[i..w] == t[i..w] && s[w..] == t[w..]
  {
    assert s[i..w] == s[i..][..w - i] && t[i..w] == t[i..][..w - i];
    assert s[w..] == s[i..][w - i..] && t[w..] == t[i..][w - i..];
  }

  // fn(at, at) on the block at p
  method Apply(f: seq<Byte> -> seq<Byte>, a: array<Byte>, p: nat, b: nat)
    requires p + b <= a.Length && |f(a[p..p + b])| == b
    modifies a
    ensures a[..p] == old(a[..p]) && a[p..p + b] == f(old(a[p..p + b])) && a[p + b..] == old(a[p + b..])
  {
    var y := f(a[p..p + b]);
    Copy(a, p, y);
  }

  // crypto_xor(at, x) on the block at p
  method XorOn(a: array<Byte>, p: nat, x: seq<Byte>)
    requires p + |x| <= a.Length
    modifies a
    ensures a[..p] == old(a[..p]) && a[p..p + |x|] == XorBytes(old(a[p..p + |x|]), x)
    ensures a[p + |x|..] == old(a[p + |x|..])
  {
    hide XorBytes;
    CryptoXor(a, p, x, |x|);
  }

  // crypto_cbc_encrypt_inplace: each block is chained to the one just written before it.
  method EncryptInplace(c: Cipher, src: array<Byte>, iv: array<Byte>) returns (nbytes: nat)
    requires Good(c) && src.Length >= c.b && iv.Length == c.b && iv != src
    modifies src, iv
    ensures nbytes == src.Length % c.b
    ensures src[..src.Length - nbytes] == Encrypt(c, old(iv[..]), Blocks(c.b, old(src[..])))
    ensures src[src.Length - nbytes..] == old(src[src.Length - nbytes..])
    ensures iv[..] == Last(c.b, old(iv[..]), src[..src.Length - nbytes])
  {
    hide Encrypt, Last, Good;
    var last;
    nbytes, last := EncryptInplaceBlocks(c, src, iv[..]);
    Leftover(src.Length, src.Length - nbytes, c.b);
    Store(iv, last);
  }

  method EncryptInplaceBlocks(c: Cipher, src: array<Byte>, iv: seq<Byte>) returns (nbytes: nat, last: seq<Byte>)
    requires Good(c) && src.Length >= c.b && |iv| == c.b
    modifies src
    ensures nbytes < c.b && nbytes <= src.Length && (src.Length - nbytes) % c.b == 0 && |last| == c.b
    ensures var p := src.Length - nbytes;
            src[..p] == Encrypt(c, iv, old(src[..p])) && src[p..] == old(src[p..]) && last == Last(c.b, iv, src[..p])
  {
    ghost var m := src[..];
    nbytes := src.Length;
    var p := 0;
    last := iv;
    Nothing(c, iv, []);
    hide Encrypt, Last, Good;
    while p == 0 || nbytes >= c.b
      invariant p + nbytes == src.Length && p % c.b == 0 && |last| == c.b
      invariant src[..p] == Encrypt(c, iv, m[..p]) && last == Last(c.b, iv, src[..p])
      invariant src[p..] == m[p..]
      decreases nbytes
    {
      last := EncryptInplaceBlock(c, src, p, last, iv, m);
      Multiple(p, c.b);
      p := p + c.b;
      nbytes := nbytes - c.b;
    }
  }

  method EncryptInplaceBlock(c: Cipher, src: array<Byte>, p: nat, last: seq<Byte>, ghost v: seq<Byte>,
                             ghost m: seq<Byte>)
    returns (next: seq<Byte>)
    requires Good(c) && |v| == c.b && |m| == src.Length && p + c.b <= src.Length && p % c.b == 0 && |last| == c.b
    requires src[..p] == Encrypt(c, v, m[..p]) && last == Last(c.b, v, src[..p]) && src[p..] == m[p..]
    modifies src
    ensures src[..p + c.b] == Encrypt(c, v, m[..p + c.b]) && src[p + c.b..] == m[p + c.b..]
    ensures |next| == c.b && next == Last(c.b, v, src[..p + c.b])
  {
    hide Encrypt, Last;
    ghost var before, x := src[..p], m[p..p + c.b];
    EncryptNext(c, v, m[..p], x);
    assert src[p..p + c.b] == x;
    EncryptAt(c, src, p, last);
    next := src[p..p + c.b];
    assert m[..p] + x == m[..p + c.b];
    assert src[..p + c.b] == before + next;
  }

  // crypto_xor(src, iv), fn(src, src)
  method EncryptAt(c: Cipher, src: array<Byte>, p: nat, last: seq<Byte>)
    requires Good(c) && p + c.b <= src.Length && |last| == c.b
    modifies src
    ensures src[..p] == old(src[..p]) && src[p + c.b..] == old(src[p + c.b..])
    ensures src[p..p + c.b] == c.e(XorBytes(old(src[p..p + c.b]), last))
  {
    hide XorBytes;
    XorOn(src, p, last);
    Apply(c.e, src, p, c.b);
  }

  // crypto_cbc_decrypt_segment
  method DecryptSegment(c: Cipher, src: array<Byte>, dst: array<Byte>, iv: array<Byte>) returns (nbytes: nat)
    requires Good(c) && src.Length == dst.Length >= c.b && iv.Length == c.b && src != dst && iv != src && iv != dst
    modifies dst, iv
    ensures nbytes == src.Length % c.b
    ensures dst[..src.Length - nbytes] == Decrypt(c, old(iv[..]), Blocks(c.b, src[..]))
    ensures iv[..] == Last(c.b, old(iv[..]), Blocks(c.b, src[..]))
  {
    ghost var v, m := iv[..], src[..];
    nbytes := src.Length;
    var p := 0;
    var last := iv[..];
    Nothing(c, v, []);
    hide Decrypt, Last, Good;
    while p == 0 || nbytes >= c.b
      invariant p + nbytes == src.Length && p % c.b == 0 && |last| == c.b
      invariant dst[..p] == Decrypt(c, v, m[..p]) && last == Last(c.b, v, m[..p])
      decreases nbytes
    {
      var x := src[p..p + c.b];
      DecryptTo(c, dst, p, x, last, v, m[..p]);
      assert m[..p] + x == m[..p + c.b];
      last := x;
      Multiple(p, c.b);
      p := p + c.b;
      nbytes := nbytes - c.b;
    }
    Leftover(src.Length, p, c.b);
    Store(iv, last);
  }

  // fn(dst, src), crypto_xor(dst, iv)
  method DecryptTo(c: Cipher, dst: array<Byte>, p: nat, x: seq<Byte>, last: seq<Byte>, ghost v: seq<Byte>,
                   ghost m: seq<Byte>)
    requires Good(c) && |v| == |x| == |last| == c.b && |m| == p && p + c.b <= dst.Length && p % c.b == 0
    requires dst[..p] == Decrypt(c, v, m) && last == Last(c.b, v, m)
    modifies dst
    ensures dst[..p + c.b] == Decrypt(c, v, m + x) && x == Last(c.b, v, m + x)
  {
    hide Decrypt, Last;
    ghost var before := dst[..p];
    DecryptNext(c, v, m, x);
    var y := c.d(x);
    hide XorBytes;
    Copy(dst, p, y);
    assert dst[..p] == before && dst[p..p + c.b] == y;
    XorOn(dst, p, last);
    assert dst[..p + c.b] == dst[..p] + dst[p..p + c.b];
  }

  // The last whole block of m.
  lemma {:induction false} LastBlock(b: nat, iv: seq<Byte>, m: seq<Byte>)
    requires b > 0 && |iv| == b && |m| >= b && |m| % b == 0
    ensures Last(b, iv, m) == m[|m| - b..]
    decreases |m|
  {
    Less(|m|, b);
    if |m| == b {
    } else {
      if |m| < 2 * b { Whole(|m| - b, b); }
      LastBlock(b, m[..b], m[b..]);
    }
  }

  // crypto_cbc_decrypt_inplace: from the last block back, so that each block still finds the
  // ciphertext of the one before it.
  method DecryptInplace(c: Cipher, src: array<Byte>, iv: array<Byte>) returns (nbytes: nat)
    requires Good(c) && src.Length >= c.b && iv.Length == c.b && iv != src
    modifies src, iv
    ensures nbytes == src.Length % c.b
    ensures src[..src.Length - nbytes] == Decrypt(c, old(iv[..]), Blocks(c.b, old(src[..])))
    ensures src[src.Length - nbytes..] == old(src[src.Length - nbytes..])
    ensures iv[..] == Last(c.b, old(iv[..]), Blocks(c.b, old(src[..])))
  {
    hide Decrypt, Last, Blocks;
    var last;
    nbytes, last := DecryptFromLast(c, src, iv[..]);
    Store(iv, last);
  }

  method DecryptFromLast(c: Cipher, src: array<Byte>, iv: seq<Byte>) returns (nbytes: nat, last: seq<Byte>)
    requires Good(c) && src.Length >= c.b && |iv| == c.b
    modifies src
    ensures nbytes == src.Length % c.b
    ensures src[..src.Length - nbytes] == Decrypt(c, iv, Blocks(c.b, old(src[..])))
    ensures src[src.Length - nbytes..] == old(src[src.Length - nbytes..])
    ensures |last| == c.b && last == Last(c.b, iv, Blocks(c.b, old(src[..])))
  {
    WholeLength(src.Length, c.b);
    var r := src.Length % c.b;
    var p: nat := src.Length - r - c.b;
    hide Decrypt, Last, Good, Blocks;
    StartOfLast(c.b, iv, src[..], p);
    SameHead(src[..], src[..], p, p + c.b);
    last := src[p..p + c.b];
    nbytes := DecryptInplaceBlocks(c, src, iv, p, r);
  }

  method DecryptInplaceBlocks(c: Cipher, src: array<Byte>, iv: seq<Byte>, p0: nat, r: nat) returns (nbytes: nat)
    requires Good(c) && |iv| == c.b && p0 + c.b + r == src.Length && r < c.b && p0 % c.b == 0
    modifies src
    ensures nbytes == r
    ensures src[..p0 + c.b] == Decrypt(c, iv, old(src[..p0 + c.b])) && src[p0 + c.b..] == old(src[p0 + c.b..])
  {
    ghost var m, w := src[..], p0 + c.b;
    nbytes := src.Length;
    var p: nat := p0;
    Nothing(c, m[p..p + c.b], []);
    assert Backward(c, m, w, p, src[..]);
    assert c.b > 0;
    hide Decrypt, Last, Good, Backward, Bare;
    while true
      invariant p % c.b == 0 && nbytes == p + c.b + r && Backward(c, m, w, p, src[..])
      decreases p
    {
      DecryptHere(c, src, p, w, m);
      nbytes := nbytes - c.b;
      if nbytes < c.b { break; }
      Stops(p, r, c.b);
      Less(p, c.b);
      XorPrevious(c, src, p, w, m);
      p := p - c.b;
    }
    Whole(p, c.b);
    XorBack(c, src, 0, w, iv, m);
    assert src[0..w] == src[..w] && m[0..w] == m[..w];
  }

  // The blocks after the one at p are done.
  ghost predicate Backward(c: Cipher, m: seq<Byte>, w: nat, p: nat, a: seq<Byte>)
    requires Good(c)
  {
    && p + c.b <= w <= |m| == |a| && a[..p + c.b] == m[..p + c.b] && a[w..] == m[w..]
    && a[p + c.b..w] == Decrypt(c, m[p..p + c.b], m[p + c.b..w])
  }

  // The block at p has been through the cipher as well.
  ghost predicate Bare(c: Cipher, m: seq<Byte>, w: nat, p: nat, a: seq<Byte>)
    requires Good(c)
  {
    && p + c.b <= w <= |m| == |a| && a[..p] == m[..p] && a[w..] == m[w..] && a[p..p + c.b] == c.d(m[p..p + c.b])
    && a[p + c.b..w] == Decrypt(c, m[p..p + c.b], m[p + c.b..w])
  }

  lemma StartOfLast(b: nat, iv: seq<Byte>, m: seq<Byte>, p: nat)
    requires 0 < b && |iv| == b && p + b <= |m| && p == |m| - |m| % b - b && (p + b) % b == 0
    ensures Blocks(b, m) == m[..p + b] && Last(b, iv, Blocks(b, m)) == m[p..p + b]
  {
    LastBlock(b, iv, m[..p + b]);
    assert m[..p + b][p..] == m[p..p + b];
  }

  lemma Stops(p: nat, r: nat, b: nat)
    requires r < b && p % b == 0 && p + r >= b
    ensures p >= b
  {
    if p < b { Whole(p, b); }
  }

  // fn(src, src)
  method DecryptHere(c: Cipher, src: array<Byte>, p: nat, ghost w: nat, ghost m: seq<Byte>)
    requires Good(c) && Backward(c, m, w, p, src[..])
    modifies src
    ensures Bare(c, m, w, p, src[..])
  {
    hide Decrypt;
    ghost var was := src[..];
    SameHead(was, m, p, p + c.b);
    Apply(c.d, src, p, c.b);
    SameTail(src[..], was, p + c.b, w);
  }

  lemma SameHead(s: seq<Byte>, t: seq<Byte>, i: nat, j: nat)
    requires i <= j <= |s| == |t| && s[..j] == t[..j]
    ensures s[i..j] == t[i..j] && s[..i] == t[..i]
  {
    assert s[i..j] == s[..j][i..] && t[i..j] == t[..j][i..];
    assert s[..i] == s[..j][..i] && t[..i] == t[..j][..i];
  }

  // crypto_xor(src, prev)
  method XorBack(c: Cipher, src: array<Byte>, p: nat, ghost w: nat, prev: seq<Byte>, ghost m: seq<Byte>)
    requires Good(c) && |prev| == c.b && Bare(c, m, w, p, src[..])
    modifies src
    ensures p <= w <= |m| == src.Length && src[..p] == m[..p] && src[w..] == m[w..]
    ensures src[p..w] == Decrypt(c, prev, m[p..w])
  {
    hide Decrypt, XorBytes;
    ghost var was, x := src[..], m[p..p + c.b];
    DecryptStep(c, prev, x, m[p + c.b..w]);
    assert m[p..w] == x + m[p + c.b..w];
    XorOn(src, p, prev);
    SameTail(src[..], was, p + c.b, w);
    assert src[p..w] == src[p..p + c.b] + src[p + c.b..w];
  }

  // crypto_xor(src, src - bsize), src -= bsize
  method XorPrevious(c: Cipher, src: array<Byte>, p: nat, ghost w: nat, ghost m: seq<Byte>)
    requires Good(c) && Bare(c, m, w, p, src[..]) && p >= c.b
    modifies src
    ensures Backward(c, m, w, p - c.b, src[..])
  {
    hide Decrypt;
    var prev := src[p - c.b..p];
    SameHead(src[..], m, p - c.b, p);
    XorBack(c, src, p, w, prev, m);
  }

  lemma WholeLength(n: nat, b: nat)
    requires 0 < b <= n
    ensures b <= n - n % b && (n - n % b) % b == 0 && (n - n % b - b) % b == 0
  {
    var q := n / b;
    assert n == b * q + n % b;
    DivMod(n - n % b, b, q, 0);
    assert b * q > 0;
    Grow(b, 0, q);
    Less(n - n % b, b);
  }
}
