// crypto/cts.c as it runs: local buffers, and the CBC child called on single blocks.
module CtsCrypt {
  import opened Arith
  import opened Bytes
  import opened Cbc
  import opened CbcWalk
  import opened Cts

  lemma Single(c: Cipher, v: seq<Byte>, x: seq<Byte>)
    requires Good(c) && |v| == |x| == c.b
    ensures |x| % c.b == 0
    ensures Encrypt(c, v, x) == c.e(XorBytes(x, v)) && Decrypt(c, v, x) == XorBytes(c.d(x), v)
    ensures |c.e(XorBytes(x, v))| == c.b && |c.d(x)| == c.b
  {
    OneBlock(c.b);
    EncryptStep(c, v, x, []);
    DecryptStep(c, v, x, []);
    assert x + [] == x;
    Nothing(c, c.e(XorBytes(x, v)), []);
    Nothing(c, x, []);
  }

  // One block through the child.
  method EncryptBlock(c: Cipher, v: seq<Byte>, x: seq<Byte>) returns (y: seq<Byte>)
    requires Good(c) && |v| == |x| == c.b
    ensures |y| == c.b && y == c.e(XorBytes(x, v))
  {
    Single(c, v, x);
    hide Encrypt, Last, Good, XorBytes;
    var iv := new Byte[c.b](i requires 0 <= i < c.b => v[i]);
    assert iv[..] == v;
    var ok;
    ok, y := CryptoEncrypt(c, x, [], iv);
  }

  method DecryptBlock(c: Cipher, v: seq<Byte>, x: seq<Byte>) returns (y: seq<Byte>)
    requires Good(c) && |v| == |x| == c.b
    ensures |y| == c.b && y == XorBytes(c.d(x), v)
  {
    Single(c, v, x);
    hide Decrypt, Last, Good, XorBytes;
    var iv := new Byte[c.b](i requires 0 <= i < c.b => v[i]);
    assert iv[..] == v;
    var ok;
    ok, y := CryptoDecrypt(c, x, [], iv);
  }

  // cts_cbc_encrypt
  method CtsCbcEncrypt(c: Cipher, t: seq<Byte>, info: array<Byte>) returns (ok: bool, d: seq<Byte>)
    requires Good(c) && info.Length == c.b && |t| <= 2 * c.b
    modifies info
    ensures ok == (|t| >= c.b)
    ensures ok ==> d == TailEncrypt(c, old(info[..]), t) && info[..] == d[..c.b]
    ensures !ok ==> info[..] == old(info[..])
  {
    if |t| < c.b { return false, []; }
    var lastn := |t| - c.b;
    var s := t + Zeros(2 * c.b - |t|);
    var tmp := EncryptBlock(c, info[..], s[..c.b]);
    d := tmp[..lastn];
    var tmp2 := EncryptBlock(c, tmp, s[c.b..]);
    d := tmp2 + d;
    assert s[..c.b] == t[..c.b] && s[c.b..] == t[c.b..] + Zeros(2 * c.b - |t|);
    hide Good;
    Store(info, tmp2);
    assert d[..c.b] == tmp2;
    return true, d;
  }

  // cts_cbc_decrypt, step by step
  method CtsCbcDecrypt(c: Cipher, t: seq<Byte>, info: array<Byte>) returns (ok: bool, d: seq<Byte>)
    requires Good(c) && info.Length == c.b && |t| <= 2 * c.b
    modifies info
    ensures ok == (|t| >= c.b)
    ensures ok ==> d == TailDecrypt(c, old(info[..]), t) && info[..] == t[..c.b]
    ensures !ok ==> info[..] == old(info[..])
  {
    if |t| < c.b { return false, []; }
    var lastn := |t| - c.b;
    var s, tail := t[..c.b], t[c.b..];
    assert |c.d(s)| == c.b;
    // 1. decrypt the block that was sent first
    var tmp := DecryptBlock(c, Zeros(c.b), s);
    XorZeros(c.d(s));
    // 2. and 3. pad the other with zeros and take the exclusive or
    var iv := tail + Zeros(c.b - lastn);
    tmp := XorBytes(tmp, iv);
    // 4. its first bytes are the end of the message
    d := tmp[..lastn];
    // 5. and 6. the others complete the stolen block
    var en := tail + tmp[lastn..];
    assert |c.d(en)| == c.b;
    var first := DecryptBlock(c, Zeros(c.b), en);
    XorZeros(c.d(en));
    first := XorBytes(first, info[..]);
    d := first + d;
    hide Good;
    Store(info, s);
    return true, d;
  }

  // The normal function for all but two blocks, then stealing for those.
  method EncryptHeadTail(c: Cipher, m: seq<Byte>, p: nat, pieces: seq<Piece>, info: array<Byte>)
    returns (ok: bool, out: seq<Byte>)
    requires Good(c) && info.Length == c.b && p + c.b < |m| <= p + 2 * c.b && p % c.b == 0
    modifies info
    ensures ok
    ensures out == Encrypt(c, old(info[..]), m[..p]) + TailEncrypt(c, Last(c.b, old(info[..]), Encrypt(c, old(info[..]), m[..p])), m[p..])
    ensures |out| == |m| && info[..] == out[p..p + c.b]
  {
    hide Encrypt, Last, TailEncrypt;
    ok, out := CryptoEncrypt(c, m[..p], pieces, info);
    var tail;
    ok, tail := CtsCbcEncrypt(c, m[p..], info);
    out := out + tail;
    assert out[p..p + c.b] == tail[..c.b];
  }

  method DecryptHeadTail(c: Cipher, m: seq<Byte>, p: nat, pieces: seq<Piece>, info: array<Byte>)
    returns (ok: bool, out: seq<Byte>)
    requires Good(c) && info.Length == c.b && p + c.b < |m| <= p + 2 * c.b && p % c.b == 0
    modifies info
    ensures ok && out == Decrypt(c, old(info[..]), m[..p]) + TailDecrypt(c, Last(c.b, old(info[..]), m[..p]), m[p..])
    ensures |out| == |m| && info[..] == m[p..p + c.b]
  {
    hide Decrypt, Last, TailDecrypt;
    ok, out := CryptoDecrypt(c, m[..p], pieces, info);
    var tail;
    ok, tail := CtsCbcDecrypt(c, m[p..], info);
    out := out + tail;
    assert m[p..p + c.b] == m[p..][..c.b];
  }

  // crypto_cts_encrypt
  method CryptoCtsEncrypt(c: Cipher, m: seq<Byte>, pieces: seq<Piece>, info: array<Byte>)
    returns (ok: bool, out: seq<Byte>)
    requires Good(c) && info.Length == c.b && (m == [] || |m| >= c.b)
    modifies info
    ensures ok == (m != [])
    ensures ok ==> out == CtsEncrypt(c, old(info[..]), m) && |out| == |m| && info[..] == Next(c, out)
  {
    Counted(c.b, |m|);
    hide Encrypt, Last, TailEncrypt, TotBlocks, TailStart;
    if TotBlocks(c.b, |m|) == 1 {
      OneBlock(c.b);
      var v := info[..];
      Single(c, v, m);
      Single(c, v, Encrypt(c, v, m));
      LastBlock(c.b, v, Encrypt(c, v, m));
      ok, out := CryptoEncrypt(c, m, pieces, info);
      assert out[0..] == out;
    } else if |m| <= c.b * 2 {
      ghost var v := info[..];
      ok, out := CtsCbcEncrypt(c, m, info);
      if ok {
        Nothing(c, v, []);
        assert m[..0] == [] && m[0..] == m && [] + out == out;
      }
    } else {
      var p := TailStart(c.b, |m|);
      ok, out := EncryptHeadTail(c, m, p, pieces, info);
    }
  }

  lemma Counted(b: nat, n: nat)
    requires b > 0 && (n == 0 || n >= b)
    ensures TotBlocks(b, n) == 1 <==> n == b
    ensures n > b ==> b < n - TailStart(b, n) <= 2 * b && TailStart(b, n) % b == 0
    ensures b < n <= 2 * b ==> TailStart(b, n) == 0
  {
    if n > b {
      TailLength(b, n);
    } else if n == b {
      DivMod(2 * b - 1, b, 1, b - 1);
    } else {
      DivMod(b - 1, b, 0, b - 1);
    }
  }

  // crypto_cts_decrypt
  method CryptoCtsDecrypt(c: Cipher, m: seq<Byte>, pieces: seq<Piece>, info: array<Byte>)
    returns (ok: bool, out: seq<Byte>)
    requires Good(c) && info.Length == c.b && (m == [] || |m| >= c.b)
    modifies info
    ensures ok == (m != [])
    ensures ok ==> out == CtsDecrypt(c, old(info[..]), m) && |out| == |m| && info[..] == Next(c, m)
  {
    Counted(c.b, |m|);
    hide Decrypt, Last, TailDecrypt, TotBlocks, TailStart;
    if TotBlocks(c.b, |m|) == 1 {
      OneBlock(c.b);
      LastBlock(c.b, info[..], m);
      ok, out := CryptoDecrypt(c, m, pieces, info);
      assert m[0..] == m;
    } else if |m| <= c.b * 2 {
      ghost var v := info[..];
      ok, out := CtsCbcDecrypt(c, m, info);
      if ok {
        Nothing(c, v, []);
        assert m[..0] == [] && m[0..] == m && [] + out == out;
      }
    } else {
      var p := TailStart(c.b, |m|);
      ok, out := DecryptHeadTail(c, m, p, pieces, info);
    }
  }

  // Sent and received, in any pieces, a message of a block or more comes back, and both sides
  // chain the same value into the next message.
  method RoundTrip(c: Cipher, m: seq<Byte>, sent: seq<Piece>, received: seq<Piece>, info: array<Byte>,
                   info2: array<Byte>)
    returns (ok: bool, back: seq<Byte>)
    requires Good(c) && Inverse(c) && |m| >= c.b
    requires info.Length == info2.Length == c.b && info != info2 && info[..] == info2[..]
    modifies info, info2
    ensures ok && back == m && info[..] == info2[..]
  {
    CtsRoundTrip(c, info[..], m);
    hide CtsEncrypt, CtsDecrypt, Next, Inverse;
    var cipher;
    ok, cipher := CryptoCtsEncrypt(c, m, sent, info);
    ok, back := CryptoCtsDecrypt(c, cipher, received, info2);
  }
}
