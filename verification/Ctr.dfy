// Counter mode (crypto/ctr.c): block i of any chunking uses the initial counter plus i
// (section 6.5 of NIST SP 800-38A).
module Ctr {
  import opened Arith
  import opened Bytes
  import opened Cbc
  import opened Increment
  import opened CbcWalk

  // The counter block i steps after v.
  function Counter(v: seq<Byte>, i: nat): (r: seq<Byte>)
    ensures |r| == |v|
  {
    Be((Value(v) + i) % Pow256(|v|), |v|)
  }

  lemma CounterZero(v: seq<Byte>)
    ensures Counter(v, 0) == v
  {
    ValueFits(v);
    Small(Value(v), Pow256(|v|));
    ValueBe(v);
  }

  lemma CounterAdd(v: seq<Byte>, i: nat, j: nat)
    ensures Counter(Counter(v, i), j) == Counter(v, i + j)
  {
    var p := Pow256(|v|);
    ModFits(Value(v) + i, p);
    BeValue((Value(v) + i) % p, |v|);
    ModAdd(Value(v) + i, j, p);
  }

  lemma ModFits(n: nat, p: nat)
    requires p > 0
    ensures n % p < p
  {
  }

  lemma ModAdd(n: nat, j: nat, p: nat)
    requires p > 0
    ensures (n % p + j) % p == (n + j) % p
  {
    assert n + j == p * (n / p) + (n % p + j);
    var x := n % p + j;
    assert x == p * (x / p) + x % p;
    ModFits(x, p);
    Twofold(p, n / p, x / p);
    DivMod(n + j, p, n / p + x / p, x % p);
  }

  lemma Twofold(p: nat, a: nat, b: nat)
    ensures p * a + p * b == p * (a + b)
  {
  }

  lemma IncIsNext(v: seq<Byte>)
    ensures Inc(v) == Counter(v, 1)
  {
  }

  // ------------------------------------------------------- the mode as a definition

  function KeyByte(c: Cipher, v: seq<Byte>, j: nat): Byte
    requires c.b > 0 && |v| == c.b && forall x :: |x| == c.b ==> |c.e(x)| == c.b
  {
    c.e(Counter(v, j / c.b))[j % c.b]
  }

  function Crypt(c: Cipher, v: seq<Byte>, m: seq<Byte>): (r: seq<Byte>)
    requires c.b > 0 && |v| == c.b && forall x :: |x| == c.b ==> |c.e(x)| == c.b
    ensures |r| == |m|
  {
    seq(|m|, j requires 0 <= j < |m| => Xor(m[j], KeyByte(c, v, j)))
  }

  // Applying the mode twice restores every message, a partial last block included.
  lemma CryptTwice(c: Cipher, v: seq<Byte>, m: seq<Byte>)
    requires Good(c) && |v| == c.b
    ensures Crypt(c, v, Crypt(c, v, m)) == m
  {
    hide KeyByte;
    forall j | 0 <= j < |m| ensures Crypt(c, v, Crypt(c, v, m))[j] == m[j] { XorTwice(m[j], KeyByte(c, v, j)); }
  }

  lemma KeyByteLater(c: Cipher, v: seq<Byte>, k: nat, j: nat)
    requires Good(c) && |v| == c.b
    ensures KeyByte(c, v, k * c.b + j) == KeyByte(c, Counter(v, k), j)
  {
    var b := c.b;
    assert j == b * (j / b) + j % b;
    Twofold(b, k, j / b);
    DivMod(k * b + j, b, k + j / b, j % b);
    CounterAdd(v, k, j / b);
  }

  // A message in two parts, the first of k whole blocks.
  lemma CryptConcat(c: Cipher, v: seq<Byte>, m: seq<Byte>, n: seq<Byte>, k: nat)
    requires Good(c) && |v| == c.b && |m| == k * c.b
    ensures Crypt(c, v, m + n) == Crypt(c, v, m) + Crypt(c, Counter(v, k), n)
  {
    hide KeyByte, Counter, Xor;
    forall j | 0 <= j < |n| ensures Crypt(c, v, m + n)[|m| + j] == Crypt(c, Counter(v, k), n)[j] {
      KeyByteLater(c, v, k, j);
    }
  }

  // At most a block.
  lemma CryptOne(c: Cipher, v: seq<Byte>, x: seq<Byte>)
    requires Good(c) && |v| == c.b && |x| <= c.b
    ensures |c.e(v)| == c.b && Crypt(c, v, x) == XorBytes(c.e(v)[..|x|], x)
  {
    CounterZero(v);
    hide Counter;
    forall j | 0 <= j < |x| ensures Crypt(c, v, x)[j] == XorBytes(c.e(v)[..|x|], x)[j] {
      DivMod(j, c.b, 0, j);
      XorSym(x[j], c.e(v)[j]);
    }
  }

  lemma CryptNext(c: Cipher, v: seq<Byte>, m: seq<Byte>, x: seq<Byte>, k: nat)
    requires Good(c) && |v| == c.b && |m| == k * c.b && |x| <= c.b
    ensures |c.e(Counter(v, k))| == c.b && Crypt(c, v, m + x) == Crypt(c, v, m) + XorBytes(c.e(Counter(v, k))[..|x|], x)
  {
    hide Crypt, Counter;
    CryptConcat(c, v, m, x, k);
    CryptOne(c, Counter(v, k), x);
  }

  // ------------------------------------------------------- the loops

  // crypto_inc(ctrblk)
  method Step(ctr: array<Byte>, ghost v: seq<Byte>, ghost k: nat)
    requires ctr[..] == Counter(v, k)
    modifies ctr
    ensures ctr[..] == Counter(v, k + 1)
  {
    hide Counter, Inc;
    IncIsNext(ctr[..]);
    CounterAdd(v, k, 1);
    CryptoInc(ctr);
  }

  // fn(dst, ctrblk), crypto_xor(dst, src): the key stream is made where the result goes.
  method BlockTo(c: Cipher, dst: array<Byte>, p: nat, x: seq<Byte>, ctr: seq<Byte>)
    requires Good(c) && |ctr| == |x| == c.b && p + c.b <= dst.Length
    modifies dst
    ensures |c.e(ctr)| == c.b && dst[..] == old(dst[..p]) + XorBytes(c.e(ctr)[..|x|], x) + old(dst[p + c.b..])
  {
    ghost var before, after := dst[..p], dst[p + c.b..];
    var y := c.e(ctr);
    Copy(dst, p, y);
    assert dst[..p] == before && dst[p..p + c.b] == y && dst[p + c.b..] == after && y[..|x|] == y;
    CryptoXor(dst, p, x, c.b);
  }

  // crypto_ctr_crypt_segment
  method CryptSegment(c: Cipher, src: array<Byte>, dst: array<Byte>, ctr: array<Byte>)
    returns (nbytes: nat, ghost k: nat)
    requires Good(c) && src.Length == dst.Length >= c.b && ctr.Length == c.b && src != dst && ctr != src && ctr != dst
    modifies dst, ctr
    ensures nbytes < c.b && src.Length == k * c.b + nbytes
    ensures dst[..k * c.b] == Crypt(c, old(ctr[..]), src[..k * c.b]) && ctr[..] == Counter(old(ctr[..]), k)
  {
    ghost var v, m := ctr[..], src[..];
    nbytes := src.Length;
    var p := 0;
    k := 0;
    CounterZero(v);
    hide Crypt, Counter, Good;
    while p == 0 || nbytes >= c.b
      invariant p + nbytes == src.Length && p == k * c.b
      invariant dst[..p] == Crypt(c, v, m[..p]) && ctr[..] == Counter(v, k)
      decreases nbytes
    {
      var x := src[p..p + c.b];
      ghost var before := dst[..p];
      CryptNext(c, v, m[..p], x, k);
      BlockTo(c, dst, p, x, ctr[..]);
      Step(ctr, v, k);
      assert m[..p] + x == m[..p + c.b];
      assert dst[..p + c.b] == before + XorBytes(c.e(Counter(v, k))[..|x|], x);
      Twofold(c.b, k, 1);
      k := k + 1;
      p := p + c.b;
      nbytes := nbytes - c.b;
    }
  }

  // crypto_ctr_crypt_inplace
  method CryptInplace(c: Cipher, src: array<Byte>, ctr: array<Byte>) returns (nbytes: nat, ghost k: nat)
    requires Good(c) && src.Length >= c.b && ctr.Length == c.b && ctr != src
    modifies src, ctr
    ensures nbytes < c.b && src.Length == k * c.b + nbytes
    ensures src[..k * c.b] == Crypt(c, old(ctr[..]), old(src[..k * c.b])) && src[k * c.b..] == old(src[k * c.b..])
    ensures ctr[..] == Counter(old(ctr[..]), k)
  {
    ghost var v, m := ctr[..], src[..];
    nbytes := src.Length;
    var p := 0;
    k := 0;
    CounterZero(v);
    hide Crypt, Counter, Good;
    while p == 0 || nbytes >= c.b
      invariant p + nbytes == src.Length && p == k * c.b
      invariant src[..p] == Crypt(c, v, m[..p]) && src[p..] == m[p..] && ctr[..] == Counter(v, k)
      decreases nbytes
    {
      InplaceBlock(c, src, p, ctr[..], v, m, k);
      Step(ctr, v, k);
      Twofold(c.b, k, 1);
      k := k + 1;
      p := p + c.b;
      nbytes := nbytes - c.b;
    }
  }

  // fn(keystream, ctrblk), crypto_xor(src, keystream)
  method InplaceBlock(c: Cipher, src: array<Byte>, p: nat, ctr: seq<Byte>, ghost v: seq<Byte>, ghost m: seq<Byte>,
                      ghost k: nat)
    requires Good(c) && |v| == c.b && |m| == src.Length && p + c.b <= src.Length && p == k * c.b && ctr == Counter(v, k)
    requires src[..p] == Crypt(c, v, m[..p]) && src[p..] == m[p..]
    modifies src
    ensures src[..p + c.b] == Crypt(c, v, m[..p + c.b]) && src[p + c.b..] == m[p + c.b..]
  {
    hide Crypt, Counter;
    ghost var x, before := m[p..p + c.b], src[..p];
    assert src[p..p + c.b] == x;
    CryptNext(c, v, m[..p], x, k);
    var keystream := c.e(ctr);
    assert keystream[..|x|] == keystream;
    XorBytesSym(x, keystream);
    CryptoXor(src, p, keystream, c.b);
    assert m[..p] + x == m[..p + c.b];
    assert src[..p + c.b] == before + XorBytes(keystream, x);
  }

  // crypto_ctr_crypt_final: the last bytes, fewer than a block.
  method CryptFinal(c: Cipher, x: seq<Byte>, ctr: array<Byte>) returns (out: seq<Byte>)
    requires Good(c) && ctr.Length == c.b && |x| < c.b
    modifies ctr
    ensures out == Crypt(c, old(ctr[..]), x) && ctr[..] == Counter(old(ctr[..]), 1)
  {
    ghost var v := ctr[..];
    CryptOne(c, v, x);
    CounterZero(v);
    hide Crypt, Counter, Good;
    var keystream := c.e(ctr[..]);
    var tmp := new Byte[c.b](i requires 0 <= i < c.b => keystream[i]);
    assert tmp[..] == keystream;
    CryptoXor(tmp, 0, x, |x|);
    out := tmp[..|x|];
    assert out == XorBytes(keystream[..|x|], x);
    Step(ctr, v, 0);
  }

  // One turn of the loop of crypto_ctr_crypt.
  method CryptChunk(c: Cipher, m: seq<Byte>, same: bool, ctr: array<Byte>) returns (out: seq<Byte>, ghost k: nat)
    requires Good(c) && |m| >= c.b && ctr.Length == c.b
    modifies ctr
    ensures |out| == k * c.b <= |m| < k * c.b + c.b
    ensures out == Crypt(c, old(ctr[..]), m[..k * c.b]) && ctr[..] == Counter(old(ctr[..]), k)
  {
    hide Crypt, Counter, Good;
    var src := new Byte[|m|](i requires 0 <= i < |m| => m[i]);
    assert src[..] == m;
    var r;
    if same {
      r, k := CryptInplace(c, src, ctr);
      out := src[..|m| - r];
    } else {
      var dst := new Byte[|m|];
      r, k := CryptSegment(c, src, dst, ctr);
      out := dst[..|m| - r];
    }
    assert src.Length == |m|;
  }

  // The loop of crypto_ctr_crypt: while a whole block is left.
  method CryptChunks(c: Cipher, m: seq<Byte>, pieces: seq<Piece>, ctr: array<Byte>)
    returns (pos: nat, out: seq<Byte>, ghost k: nat)
    requires Good(c) && ctr.Length == c.b
    modifies ctr
    ensures pos <= |m| < pos + c.b && pos == k * c.b
    ensures out == Crypt(c, old(ctr[..]), m[..pos]) && ctr[..] == Counter(old(ctr[..]), k)
  {
    ghost var v := ctr[..];
    var turn := 0;
    pos, out, k := 0, [], 0;
    CounterZero(v);
    assert Crypt(c, v, m[..0]) == [];
    assert c.b > 0;
    hide Crypt, Counter, Good;
    while |m| - pos >= c.b
      invariant pos <= |m| && pos == k * c.b
      invariant out == Crypt(c, v, m[..pos]) && ctr[..] == Counter(v, k)
    {
      var piece := if turn < |pieces| then pieces[turn] else Piece(|m|, false);
      var n := ChunkLen(c.b, piece.len, |m| - pos);
      var more;
      ghost var i;
      more, i := CryptChunk(c, m[pos..pos + n], piece.same, ctr);
      Extend(c, v, m, pos, n, k, i);
      out := out + more;
      pos, turn, k := pos + |more|, turn + 1, k + i;
    }
  }

  // crypto_ctr_crypt: wherever the walk cuts the message, byte j meets the key stream of block
  // j / bsize, and the counter moves on by the number of blocks begun.
  method CryptoCtrCrypt(c: Cipher, m: seq<Byte>, pieces: seq<Piece>, ctr: array<Byte>)
    returns (out: seq<Byte>, ghost k: nat)
    requires Good(c) && ctr.Length == c.b
    modifies ctr
    ensures out == Crypt(c, old(ctr[..]), m) && ctr[..] == Counter(old(ctr[..]), k)
    ensures k * c.b < |m| + c.b && |m| <= k * c.b
  {
    hide Crypt, Counter;
    ghost var v := ctr[..];
    var pos;
    pos, out, k := CryptChunks(c, m, pieces, ctr);
    if pos < |m| {
      var last := CryptFinal(c, m[pos..], ctr);
      CryptConcat(c, v, m[..pos], m[pos..], k);
      assert m[..pos] + m[pos..] == m;
      CounterAdd(v, k, 1);
      Twofold(c.b, k, 1);
      out := out + last;
      k := k + 1;
    } else {
      assert m[..pos] == m;
    }
  }

  lemma Extend(c: Cipher, v: seq<Byte>, m: seq<Byte>, pos: nat, n: nat, k: nat, i: nat)
    requires Good(c) && |v| == c.b && pos == k * c.b && pos + n <= |m| && i * c.b <= n < i * c.b + c.b && n >= c.b
    ensures i > 0 && (k + i) * c.b == pos + i * c.b
    ensures Crypt(c, v, m[..pos + i * c.b]) == Crypt(c, v, m[..pos]) + Crypt(c, Counter(v, k), m[pos..pos + n][..i * c.b])
    ensures Counter(v, k + i) == Counter(Counter(v, k), i)
  {
    hide Crypt, Counter;
    Twofold(c.b, k, i);
    assert i != 0;
    CounterAdd(v, k, i);
    CryptConcat(c, v, m[..pos], m[pos..pos + n][..i * c.b], k);
    assert m[..pos + i * c.b] == m[..pos] + m[pos..pos + n][..i * c.b];
  }
}
