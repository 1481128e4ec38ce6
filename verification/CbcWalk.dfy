// The outer loops of crypto/cbc.c: the walk cuts a message where the scatterlists do.
module CbcWalk {
  import opened Arith
  import opened Bytes
  import opened Cbc

  // One stretch of memory: how far the source and destination both go, and whether they are the
  // same memory.
  datatype Piece = Piece(len: nat, same: bool)

  // blkcipher_walk_next: at least a block, copied if memory is shorter, and at most what is left.
  function ChunkLen(b: nat, piece: nat, total: nat): nat {
    if piece > total then total else if piece < b then b else piece
  }

  // One turn of the loop of crypto_cbc_encrypt.
  method EncryptChunk(c: Cipher, m: seq<Byte>, same: bool, iv: array<Byte>) returns (out: seq<Byte>)
    requires Good(c) && |m| >= c.b && iv.Length == c.b
    modifies iv
    ensures out == Encrypt(c, old(iv[..]), Blocks(c.b, m)) && iv[..] == Last(c.b, old(iv[..]), out)
  {
    hide Encrypt, Last, Good, Blocks;
    var src := new Byte[|m|](i requires 0 <= i < |m| => m[i]);
    assert src[..] == m;
    var r;
    if same {
      r := EncryptInplace(c, src, iv);
      out := src[..|m| - r];
    } else {
      var dst := new Byte[|m|];
      r := EncryptSegment(c, src, dst, iv);
      out := dst[..|m| - r];
    }
  }

  method DecryptChunk(c: Cipher, m: seq<Byte>, same: bool, iv: array<Byte>) returns (out: seq<Byte>)
    requires Good(c) && |m| >= c.b && iv.Length == c.b
    modifies iv
    ensures out == Decrypt(c, old(iv[..]), Blocks(c.b, m)) && iv[..] == Last(c.b, old(iv[..]), Blocks(c.b, m))
  {
    hide Decrypt, Last, Good, Blocks;
    var src := new Byte[|m|](i requires 0 <= i < |m| => m[i]);
    assert src[..] == m;
    var r;
    if same {
      r := DecryptInplace(c, src, iv);
      out := src[..|m| - r];
    } else {
      var dst := new Byte[|m|];
      r := DecryptSegment(c, src, dst, iv);
      out := dst[..|m| - r];
    }
  }

  // The chunk at pos, its whole blocks, and the message up to their end.
  lemma ChunkAt(b: nat, m: seq<Byte>, pos: nat, n: nat)
    requires 0 < b <= n && pos + n <= |m| && pos % b == 0
    ensures var w := |Blocks(b, m[pos..pos + n])|;
            && b <= w && w <= n && (pos + w) % b == 0
            && m[..pos] + Blocks(b, m[pos..pos + n]) == m[..pos + w]
  {
    WholeLength(n, b);
    Sum(pos, n - n % b, b);
  }

  lemma Sum(p: nat, w: nat, b: nat)
    requires b > 0 && p % b == 0 && w % b == 0
    ensures (p + w) % b == 0
  {
    assert p == b * (p / b) && w == b * (w / b);
    assert p + w == b * (p / b + w / b);
    DivMod(p + w, b, p / b + w / b, 0);
  }

  // The output so far with that of the chunk at pos.
  lemma EncryptOn(c: Cipher, v: seq<Byte>, m: seq<Byte>, pos: nat, n: nat)
    requires Good(c) && |v| == c.b && c.b <= n && pos + n <= |m| && pos % c.b == 0
    ensures var out := Encrypt(c, v, m[..pos]); var more := Encrypt(c, Last(c.b, v, out), Blocks(c.b, m[pos..pos + n]));
            && c.b <= |more| <= n && (pos + |more|) % c.b == 0
            && out + more == Encrypt(c, v, m[..pos + |more|])
            && Last(c.b, v, out + more) == Last(c.b, Last(c.b, v, out), more)
  {
    ChunkAt(c.b, m, pos, n);
    var w := |Blocks(c.b, m[pos..pos + n])|;
    WholeLength(n, c.b);
    hide Encrypt, Last, Blocks;
    EncryptConcat(c, v, m[..pos], Blocks(c.b, m[pos..pos + n]));
  }

  lemma DecryptOn(c: Cipher, v: seq<Byte>, m: seq<Byte>, pos: nat, n: nat)
    requires Good(c) && |v| == c.b && c.b <= n && pos + n <= |m| && pos % c.b == 0
    ensures var out, chunk := Decrypt(c, v, m[..pos]), Blocks(c.b, m[pos..pos + n]);
            var more := Decrypt(c, Last(c.b, v, m[..pos]), chunk);
            && c.b <= |more| <= n && (pos + |more|) % c.b == 0
            && out + more == Decrypt(c, v, m[..pos + |more|])
            && Last(c.b, v, m[..pos + |more|]) == Last(c.b, Last(c.b, v, m[..pos]), chunk)
  {
    ChunkAt(c.b, m, pos, n);
    WholeLength(n, c.b);
    hide Decrypt, Last, Blocks;
    DecryptConcat(c, v, m[..pos], Blocks(c.b, m[pos..pos + n]));
  }

  // What is left when the walk stops is less than a block.
  lemma Stopped(c: Cipher, iv: seq<Byte>, m: seq<Byte>, pos: nat)
    requires Good(c) && |iv| == c.b && pos <= |m| && pos % c.b == 0 && |m| - pos < c.b
    ensures Encrypt(c, iv, m) == Encrypt(c, iv, m[..pos]) && Decrypt(c, iv, m) == Decrypt(c, iv, m[..pos])
    ensures Last(c.b, iv, m) == Last(c.b, iv, m[..pos])
    ensures (|m| % c.b == 0) == (pos == |m|)
  {
    hide Encrypt, Decrypt, Last;
    assert m == m[..pos] + m[pos..];
    EncryptConcat(c, iv, m[..pos], m[pos..]);
    DecryptConcat(c, iv, m[..pos], m[pos..]);
    Nothing(c, Last(c.b, iv, Encrypt(c, iv, m[..pos])), m[pos..]);
    Nothing(c, Last(c.b, iv, m[..pos]), m[pos..]);
    Leftover(|m|, pos, c.b);
  }

  // crypto_cbc_encrypt: however the memory is cut, the blocks are those of the whole message; an
  // error says that it did not end with a whole block.
  method CryptoEncrypt(c: Cipher, m: seq<Byte>, pieces: seq<Piece>, iv: array<Byte>) returns (ok: bool, out: seq<Byte>)
    requires Good(c) && iv.Length == c.b
    modifies iv
    ensures ok == (|m| % c.b == 0)
    ensures out == Encrypt(c, old(iv[..]), m) && iv[..] == Last(c.b, old(iv[..]), out)
  {
    ghost var v := iv[..];
    var pos, k := 0, 0;
    out := [];
    Nothing(c, v, []);
    assert c.b > 0 && m[..0] == [];
    hide Encrypt, Last, Good, Blocks;
    while |m| - pos >= c.b
      invariant pos <= |m| && pos % c.b == 0
      invariant out == Encrypt(c, v, m[..pos]) && iv[..] == Last(c.b, v, out)
    {
      var piece := if k < |pieces| then pieces[k] else Piece(|m|, false);
      var n := ChunkLen(c.b, piece.len, |m| - pos);
      EncryptOn(c, v, m, pos, n);
      var more := EncryptChunk(c, m[pos..pos + n], piece.same, iv);
      out := out + more;
      pos, k := pos + |more|, k + 1;
    }
    Stopped(c, v, m, pos);
    ok := pos == |m|;
  }

  // crypto_cbc_decrypt
  method CryptoDecrypt(c: Cipher, m: seq<Byte>, pieces: seq<Piece>, iv: array<Byte>) returns (ok: bool, out: seq<Byte>)
    requires Good(c) && iv.Length == c.b
    modifies iv
    ensures ok == (|m| % c.b == 0)
    ensures out == Decrypt(c, old(iv[..]), m) && iv[..] == Last(c.b, old(iv[..]), m)
  {
    ghost var v := iv[..];
    var pos, k := 0, 0;
    out := [];
    Nothing(c, v, []);
    assert c.b > 0 && m[..0] == [];
    hide Decrypt, Last, Good, Blocks;
    while |m| - pos >= c.b
      invariant pos <= |m| && pos % c.b == 0
      invariant out == Decrypt(c, v, m[..pos]) && iv[..] == Last(c.b, v, m[..pos])
    {
      var piece := if k < |pieces| then pieces[k] else Piece(|m|, false);
      var n := ChunkLen(c.b, piece.len, |m| - pos);
      DecryptOn(c, v, m, pos, n);
      var more := DecryptChunk(c, m[pos..pos + n], piece.same, iv);
      out := out + more;
      pos, k := pos + |more|, k + 1;
    }
    Stopped(c, v, m, pos);
    ok := pos == |m|;
  }

  // Sent in any pieces and received in any others, a message of whole blocks comes back, and the
  // two sides are left with the same value for the next message.
  method RoundTrip(c: Cipher, m: seq<Byte>, sent: seq<Piece>, received: seq<Piece>, iv: array<Byte>, iv2: array<Byte>)
    returns (ok: bool, back: seq<Byte>)
    requires Good(c) && Inverse(c) && |m| % c.b == 0
    requires iv.Length == iv2.Length == c.b && iv != iv2 && iv[..] == iv2[..]
    modifies iv, iv2
    ensures ok && back == m && iv[..] == iv2[..]
  {
    DecryptUndoes(c, iv[..], m);
    assert |Encrypt(c, iv[..], m)| == |m|;
    hide Encrypt, Decrypt, Last, Good, Inverse;
    var cipher;
    ok, cipher := CryptoEncrypt(c, m, sent, iv);
    ok, back := CryptoDecrypt(c, cipher, received, iv2);
  }
}
