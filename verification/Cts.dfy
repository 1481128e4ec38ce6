// Ciphertext stealing on top of CBC (crypto/cts.c): section 8 of RFC 2040 and section 5 of
// RFC 3962.
module Cts {
  import opened Arith
  import opened Bytes
  import opened Cbc
  import opened CbcWalk

  // The last two blocks, the second of l bytes: encrypt both and send them swapped, the first cut.
  ghost function TailEncrypt(c: Cipher, v: seq<Byte>, t: seq<Byte>): (r: seq<Byte>)
    requires Good(c) && |v| == c.b && c.b <= |t| <= 2 * c.b
    ensures |r| == |t|
  {
    var x := c.e(XorBytes(t[..c.b], v));
    var y := c.e(XorBytes(t[c.b..] + Zeros(2 * c.b - |t|), x));
    y + x[..|t| - c.b]
  }

  ghost function TailDecrypt(c: Cipher, v: seq<Byte>, t: seq<Byte>): (r: seq<Byte>)
    requires Good(c) && |v| == c.b && c.b <= |t| <= 2 * c.b
    ensures |r| == |t|
  {
    var l := |t| - c.b;
    var x := XorBytes(c.d(t[..c.b]), t[c.b..] + Zeros(c.b - l));
    XorBytes(c.d(t[c.b..] + x[l..]), v) + x[..l]
  }

  // tot_blocks
  function TotBlocks(b: nat, n: nat): nat
    requires b > 0
  {
    (n + b - 1) / b
  }

  // Where the last two blocks start: cbc_blocks * bsize.
  function TailStart(b: nat, n: nat): nat
    requires b > 0
  {
    if TotBlocks(b, n) > 2 then (TotBlocks(b, n) - 2) * b else 0
  }

  lemma TailLength(b: nat, n: nat)
    requires 0 < b < n
    ensures TailStart(b, n) + b < n <= TailStart(b, n) + 2 * b && TailStart(b, n) % b == 0
    ensures TotBlocks(b, n) > 1 && (TotBlocks(b, n) > 2 <==> n > 2 * b) && (n <= 2 * b ==> TailStart(b, n) == 0)
  {
    var tot := (n + b - 1) / b;
    assert n + b - 1 == b * tot + (n + b - 1) % b;
    Times(b, tot);
    if tot > 2 { DivMod((tot - 2) * b, b, tot - 2, 0); }
  }

  lemma Times(b: nat, tot: nat)
    requires b > 0
    ensures tot == 0 ==> b * tot == 0
    ensures tot == 1 ==> b * tot == b
    ensures tot == 2 ==> b * tot == 2 * b
    ensures tot > 2 ==> b * tot == (tot - 2) * b + 2 * b && b * tot >= 3 * b
  {
    if tot > 2 { Grow(b, 2, tot); }
  }

  ghost function CtsEncrypt(c: Cipher, v: seq<Byte>, m: seq<Byte>): seq<Byte>
    requires Good(c) && |v| == c.b && |m| >= c.b
  {
    if |m| == c.b then Encrypt(c, v, m)
    else
      TailLength(c.b, |m|);
      var p := TailStart(c.b, |m|);
      var head := Encrypt(c, v, m[..p]);
      head + TailEncrypt(c, Last(c.b, v, head), m[p..])
  }

  ghost function CtsDecrypt(c: Cipher, v: seq<Byte>, m: seq<Byte>): seq<Byte>
    requires Good(c) && |v| == c.b && |m| >= c.b
  {
    if |m| == c.b then Decrypt(c, v, m)
    else
      TailLength(c.b, |m|);
      var p := TailStart(c.b, |m|);
      Decrypt(c, v, m[..p]) + TailDecrypt(c, Last(c.b, v, m[..p]), m[p..])
  }

  // ------------------------------------------------------- the tail

  lemma TailDecryptOf(c: Cipher, v: seq<Byte>, y: seq<Byte>, w: seq<Byte>)
    requires Good(c) && |v| == |y| == c.b && |w| <= c.b
    ensures var x := XorBytes(c.d(y), w + Zeros(c.b - |w|));
            TailDecrypt(c, v, y + w) == XorBytes(c.d(w + x[|w|..]), v) + x[..|w|]
  {
    assert (y + w)[..c.b] == y && (y + w)[c.b..] == w;
  }

  lemma TailEncryptOf(c: Cipher, v: seq<Byte>, t1: seq<Byte>, t2: seq<Byte>)
    requires Good(c) && Inverse(c) && |v| == |t1| == c.b && |t2| <= c.b
    ensures var padded := t2 + Zeros(c.b - |t2|); var x := c.e(XorBytes(t1, v));
            && |x| == c.b
            && var y := c.e(XorBytes(padded, x));
               && |y| == c.b && TailEncrypt(c, v, t1 + t2) == y + x[..|t2|]
               && c.d(y) == XorBytes(padded, x) && c.d(x) == XorBytes(t1, v)
  {
    assert (t1 + t2)[..c.b] == t1 && (t1 + t2)[c.b..] == t2;
    hide XorBits;
  }

  lemma TailRoundTrip(c: Cipher, v: seq<Byte>, t: seq<Byte>)
    requires Good(c) && Inverse(c) && |v| == c.b && c.b <= |t| <= 2 * c.b
    ensures TailDecrypt(c, v, TailEncrypt(c, v, t)) == t
  {
    var t1, t2 := t[..c.b], t[c.b..];
    assert t1 + t2 == t;
    PartsRoundTrip(c, v, t1, t2);
  }

  lemma PartsRoundTrip(c: Cipher, v: seq<Byte>, t1: seq<Byte>, t2: seq<Byte>)
    requires Good(c) && Inverse(c) && |v| == |t1| == c.b && |t2| <= c.b
    ensures TailDecrypt(c, v, TailEncrypt(c, v, t1 + t2)) == t1 + t2
  {
    hide Good, Inverse, TailEncrypt, TailDecrypt, XorBytes;
    var l := |t2|;
    TailEncryptOf(c, v, t1, t2);
    var x := c.e(XorBytes(t1, v));
    var y := c.e(XorBytes(t2 + Zeros(c.b - l), x));
    TailDecryptOf(c, v, y, x[..l]);
    Unmask(t2, x, l);
    var z := XorBytes(c.d(y), x[..l] + Zeros(c.b - l));
    assert x[..l] + z[l..] == x;
    XorBytesTwice(t1, v);
  }

  // The known ciphertext bytes uncover the plaintext, the zeros the rest of the ciphertext.
  lemma Unmask(p: seq<Byte>, x: seq<Byte>, l: nat)
    requires |p| == l <= |x|
    ensures var z := XorBytes(XorBytes(p + Zeros(|x| - l), x), x[..l] + Zeros(|x| - l));
            z[..l] == p && z[l..] == x[l..]
  {
    hide Xor;
    var z := XorBytes(XorBytes(p + Zeros(|x| - l), x), x[..l] + Zeros(|x| - l));
    forall i | 0 <= i < |x| ensures z[i] == if i < l then p[i] else x[i] {
      if i < l { Twice(p[i], x[i]); } else { Zero(x[i]); }
    }
  }

  lemma Twice(a: Byte, b: Byte)
    ensures Xor(Xor(a, b), b) == a
  {
    XorTwice(a, b);
  }

  lemma Zero(a: Byte)
    ensures Xor(Xor(0, a), 0) == a
  {
    XorSym(0, a);
    XorZero(a);
  }

  // ------------------------------------------------------- the whole message

  // The value both sides chain into the next message.
  ghost function Next(c: Cipher, m: seq<Byte>): seq<Byte>
    requires c.b > 0 && |m| >= c.b
  {
    if |m| == c.b then m else TailLength(c.b, |m|); m[TailStart(c.b, |m|)..TailStart(c.b, |m|) + c.b]
  }

  // Decryption undoes encryption for every message of a block or more, and the length is kept.
  lemma CtsRoundTrip(c: Cipher, v: seq<Byte>, m: seq<Byte>)
    requires Good(c) && Inverse(c) && |v| == c.b && |m| >= c.b
    ensures |CtsEncrypt(c, v, m)| == |m| && CtsDecrypt(c, v, CtsEncrypt(c, v, m)) == m
  {
    hide Encrypt, Decrypt, Last, TailEncrypt, TailDecrypt, Inverse;
    if |m| == c.b {
      OneBlock(c.b);
      DecryptUndoes(c, v, m);
    } else {
      TailLength(c.b, |m|);
      var p := TailStart(c.b, |m|);
      DecryptUndoes(c, v, m[..p]);
      var head := Encrypt(c, v, m[..p]);
      var tail := TailEncrypt(c, Last(c.b, v, head), m[p..]);
      assert (head + tail)[..p] == head && (head + tail)[p..] == tail;
      TailRoundTrip(c, Last(c.b, v, head), m[p..]);
      assert m[..p] + m[p..] == m;
    }
  }

  lemma OneBlock(b: nat)
    requires b > 0
    ensures b % b == 0
  {
    DivMod(b, b, 1, 0);
  }

  lemma TwoBlocks(c: Cipher, u: seq<Byte>, t1: seq<Byte>, t2: seq<Byte>)
    requires Good(c) && |u| == |t1| == c.b && 0 < |t2| <= c.b
    ensures var z := t2 + Zeros(c.b - |t2|); var x := c.e(XorBytes(t1, u));
            && |x| == c.b
            && var y := c.e(XorBytes(z, x));
               && |y| == c.b && Encrypt(c, u, t1 + z) == x + y && TailEncrypt(c, u, t1 + t2) == y + x[..|t2|]
  {
    var z := t2 + Zeros(c.b - |t2|);
    hide Encrypt;
    EncryptStep(c, u, t1, z);
    var x := c.e(XorBytes(t1, u));
    EncryptStep(c, x, z, []);
    assert z + [] == z;
    var y := c.e(XorBytes(z, x));
    Nothing(c, y, []);
    assert y + [] == y;
    assert (t1 + t2)[..c.b] == t1 && (t1 + t2)[c.b..] == t2;
  }

  // Ciphertext ct with the two blocks from n on swapped, and the first of them cut to l bytes.
  ghost function SwapLast(ct: seq<Byte>, n: nat, b: nat, l: nat): seq<Byte>
    requires l <= b && n + b <= |ct|
  {
    ct[..n] + ct[n + b..] + ct[n..n + l]
  }

  // What is sent is the CBC encryption of the message padded with zeros, its last two blocks
  // swapped and the length cut back.
  lemma CtsIsSwapped(c: Cipher, v: seq<Byte>, m: seq<Byte>)
    requires Good(c) && |v| == c.b && |m| > c.b
    ensures var p := TailStart(c.b, |m|); var l := |m| - p - c.b;
            && 0 < l <= c.b
            && var ct := Encrypt(c, v, m + Zeros(c.b - l));
               |ct| == p + 2 * c.b && CtsEncrypt(c, v, m) == SwapLast(ct, p, c.b, l)
  {
    TailLength(c.b, |m|);
    hide Encrypt, Last, TailEncrypt, SwapLast, TotBlocks, TailStart, XorBytes;
    var p := TailStart(c.b, |m|);
    var head := Encrypt(c, v, m[..p]);
    assert CtsEncrypt(c, v, m) == head + TailEncrypt(c, Last(c.b, v, head), m[p..]);
    hide CtsEncrypt;
    var a, t1, t2 := m[..p], m[p..p + c.b], m[p + c.b..];
    Thirds(m, p, p + c.b);
    Swapped(c, v, a, t1, t2);
  }

  lemma Thirds(m: seq<Byte>, i: nat, j: nat)
    requires i <= j <= |m|
    ensures m[..i] + m[i..j] + m[j..] == m && m[i..j] + m[j..] == m[i..]
  {
  }

  lemma Swapped(c: Cipher, v: seq<Byte>, m: seq<Byte>, t1: seq<Byte>, t2: seq<Byte>)
    requires Good(c) && |v| == |t1| == c.b && |m| % c.b == 0 && 0 < |t2| <= c.b
    ensures var ct := Encrypt(c, v, m + t1 + t2 + Zeros(c.b - |t2|));
            && |ct| == |m| + 2 * c.b
            && Encrypt(c, v, m) + TailEncrypt(c, Last(c.b, v, Encrypt(c, v, m)), t1 + t2) == SwapLast(ct, |m|, c.b, |t2|)
  {
    hide Encrypt, Last, TailEncrypt, SwapLast, XorBytes;
    var head, z := Encrypt(c, v, m), t2 + Zeros(c.b - |t2|);
    var u := Last(c.b, v, head);
    var x := c.e(XorBytes(t1, u));
    var y := c.e(XorBytes(z, x));
    TwoBlocks(c, u, t1, t2);
    Regroup(m, t1, t2, Zeros(c.b - |t2|));
    EncryptConcat(c, v, m, t1 + z);
    Cut(head, x, y, |t2|);
  }

  lemma Regroup(a: seq<Byte>, b: seq<Byte>, d: seq<Byte>, f: seq<Byte>)
    ensures a + b + d + f == a + (b + (d + f))
  {
  }

  lemma Cut(h: seq<Byte>, x: seq<Byte>, y: seq<Byte>, l: nat)
    requires l <= |x|
    ensures h + (y + x[..l]) == SwapLast(h + (x + y), |h|, |x|, l)
  {
  }
}
