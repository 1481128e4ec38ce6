// The authentication part of CCM (crypto/ccm.c) against section 2.2 of RFC 3610: a MAC computed
// over fragments of any size is the CBC-MAC of the padded blocks.
module Ccm {
  import opened Bytes

  // ------------------------------------------------------- RFC 3610, section 2.2

  // The CBC-MAC chain over whole blocks, from value x.
  function CbcMac(e: Block -> Block, x: Block, data: seq<Byte>): Block
    requires |data| % 16 == 0
    decreases |data|
  {
    if data == [] then x else CbcMac(e, e(XorBytes(x, data[..16])), data[16..])
  }

  function PadLen(n: nat): nat { (16 - n % 16) % 16 }

  function Pad(s: seq<Byte>): (p: seq<Byte>)
    ensures |p| % 16 == 0
  {
    s + Zeros(PadLen(|s|))
  }

  // The encoding of the length of the associated data.
  function AdataLength(a: nat): seq<Byte> { if a < 0xff00 then Be(a, 2) else [0xff, 0xfe] + Be(a, 4) }

  // Block B_0: flags, nonce, and the message length in l bytes.
  function FirstBlock(l: nat, m: nat, nonce: seq<Byte>, adata: bool, msgLen: nat): Block
    requires 2 <= l <= 8 && m % 2 == 0 && 4 <= m <= 16 && |nonce| == 15 - l
  {
    [(if adata then 64 else 0) + 8 * ((m - 2) / 2) + (l - 1)] + nonce + Be(msgLen, l)
  }

  function Mac(e: Block -> Block, b0: Block, adata: seq<Byte>, payload: seq<Byte>): Block {
    var x := e(b0);
    var y := if adata == [] then x else CbcMac(e, x, Pad(AdataLength(|adata|) + adata));
    CbcMac(e, y, Pad(payload))
  }

  // ------------------------------------------------------- streaming

  function Whole(n: nat): (w: nat)
    ensures w <= n && w % 16 == 0 && n - w < 16
  {
    n - n % 16
  }

  // The chain value and the unfinished block after absorbing s.
  function Chain(e: Block -> Block, x: Block, s: seq<Byte>): Block { CbcMac(e, x, s[..Whole(|s|)]) }

  function Rest(s: seq<Byte>): (r: seq<Byte>)
    ensures |r| < 16
  {
    s[Whole(|s|)..]
  }

  lemma {:induction false} MacConcat(e: Block -> Block, x: Block, a: seq<Byte>, b: seq<Byte>)
    requires |a| % 16 == 0 && |b| % 16 == 0
    ensures CbcMac(e, x, a + b) == CbcMac(e, CbcMac(e, x, a), b)
    decreases |a|
  {
    if a == [] {
      assert a + b == b;
    } else {
      assert (a + b)[..16] == a[..16] && (a + b)[16..] == a[16..] + b;
      MacConcat(e, e(XorBytes(x, a[..16])), a[16..], b);
    }
  }

  // One more block.
  lemma MacBlock(e: Block -> Block, x: Block, a: seq<Byte>, b: Block)
    requires |a| % 16 == 0
    ensures CbcMac(e, x, a + b) == e(XorBytes(CbcMac(e, x, a), b))
  {
    MacConcat(e, x, a, b);
    var y := CbcMac(e, x, a);
    assert b[..16] == b && b[16..] == [];
    assert CbcMac(e, y, b) == CbcMac(e, e(XorBytes(y, b)), []);
  }

  // Absorbing in two parts is absorbing at once.
  lemma Absorb(e: Block -> Block, x: Block, a: seq<Byte>, b: seq<Byte>)
    ensures Chain(e, Chain(e, x, a), Rest(a) + b) == Chain(e, x, a + b)
    ensures Rest(Rest(a) + b) == Rest(a + b)
  {
    var w := Whole(|a|);
    var r := a[w..] + b;
    assert Whole(|a + b|) == w + Whole(|r|) by { WholeSum(w, |r|); }
    assert a + b == a[..w] + r;
    assert (a + b)[..w + Whole(|r|)] == a[..w] + r[..Whole(|r|)];
    MacConcat(e, x, a[..w], r[..Whole(|r|)]);
  }

  lemma WholeSum(w: nat, n: nat)
    requires w % 16 == 0
    ensures Whole(w + n) == w + Whole(n)
  {
  }

  // Padding the rest is padding the whole.
  lemma PadRest(e: Block -> Block, x: Block, s: seq<Byte>)
    ensures CbcMac(e, Chain(e, x, s), Pad(Rest(s))) == CbcMac(e, x, Pad(s))
  {
    var w := Whole(|s|);
    assert PadLen(|s|) == PadLen(|s| - w);
    assert Pad(s) == s[..w] + Pad(s[w..]);
    MacConcat(e, x, s[..w], Pad(s[w..]));
  }

  // ------------------------------------------------------- the context

  // How the bytes of a scatterlist lie in memory.
  function Flat(pieces: seq<seq<Byte>>): seq<Byte> {
    if pieces == [] then [] else pieces[0] + Flat(pieces[1..])
  }

  class Context {
    const e: Block -> Block
    const odata: array<Byte>
    const idata: array<Byte>
    var ilen: nat

    ghost predicate Valid() reads this, odata, idata {
      odata.Length == 16 && idata.Length == 16 && odata != idata && ilen <= 16
    }

    // odata ^= block; odata = E(odata)
    method EncryptBlock(block: seq<Byte>)
      requires Valid() && |block| == 16
      modifies odata
      ensures odata[..] == e(XorBytes(old(odata[..]), block))
    {
      ghost var o := odata[..];
      CryptoXor(odata, 0, block, 16);
      assert o[..0] + XorBytes(o[0..16], block) + o[16..] == XorBytes(o, block);
      var out := e(odata[..]);
      forall i | 0 <= i < 16 { odata[i] := out[i]; }
      assert odata[..] == out;
    }

    // memcpy(idata + ilen, data, n)
    method Keep(data: seq<Byte>)
      requires Valid() && ilen + |data| <= 16
      modifies idata
      ensures idata[..ilen + |data|] == old(idata[..ilen]) + data
    {
      forall i | 0 <= i < |data| { idata[ilen + i] := data[i]; }
    }

    // compute_mac
    method ComputeMac(data: seq<Byte>)
      requires Valid() && ilen < 16
      modifies this`ilen, odata, idata
      ensures Valid() && ilen < 16
      ensures odata[..] == Chain(e, old(odata[..]), old(idata[..ilen]) + data)
      ensures idata[..ilen] == Rest(old(idata[..ilen]) + data)
    {
      hide Chain, Rest, CbcMac;
      ghost var x, r := odata[..], idata[..ilen];
      var pos := FillBlock(data);
      ghost var from := pos;
      pos := EncryptBlocks(data, pos);
      if from > 0 { AfterFill(e, x, r, data, from, pos); } else { NoFill(e, x, r, data); }
      if |data| - pos > 0 {
        Keep(data[pos..]);
        ilen := ilen + (|data| - pos);
      }
    }

    // First time in here, the block may be partially filled.
    method FillBlock(data: seq<Byte>) returns (pos: nat)
      requires Valid() && ilen < 16
      modifies this`ilen, odata, idata
      ensures Valid()
      ensures |data| >= 16 - old(ilen) ==>
                && pos == 16 - old(ilen) && ilen == 0
                && odata[..] == e(XorBytes(old(odata[..]), old(idata[..ilen]) + data[..pos]))
      ensures |data| < 16 - old(ilen) ==>
                pos == 0 && ilen == old(ilen) && odata[..] == old(odata[..]) && idata[..] == old(idata[..])
    {
      var getlen := 16 - ilen;
      pos := 0;
      if |data| >= getlen {
        Keep(data[..getlen]);
        assert idata[..] == idata[..16];
        EncryptBlock(idata[..]);
        pos := getlen;
        ilen := 0;
      }
    }

    // Encrypt the rest of the data while there is a whole block.
    method EncryptBlocks(data: seq<Byte>, from: nat) returns (pos: nat)
      requires Valid() && from <= |data|
      modifies odata
      ensures from <= pos <= |data| < pos + 16 && (pos - from) % 16 == 0
      ensures odata[..] == CbcMac(e, old(odata[..]), data[from..pos])
    {
      hide CbcMac;
      ghost var x := odata[..];
      pos := from;
      NoBlocks(e, x);
      assert data[from..pos] == [];
      while |data| - pos >= 16
        invariant from <= pos <= |data| && (pos - from) % 16 == 0 && odata[..] == CbcMac(e, x, data[from..pos])
      {
        MacBlock(e, x, data[from..pos], data[pos..pos + 16]);
        assert data[from..pos + 16] == data[from..pos] + data[pos..pos + 16];
        EncryptBlock(data[pos..pos + 16]);
        pos := pos + 16;
      }
    }

    // The context after absorbing s from chain value x.
    ghost predicate Streaming(x: Block, s: seq<Byte>)
      reads this, odata, idata
    {
      Valid() && ilen < 16 && odata[..] == Chain(e, x, s) && idata[..ilen] == Rest(s)
    }

    lemma Begun()
      requires Valid() && ilen < 16
      ensures Streaming(odata[..], idata[..ilen])
    {
      RestShort(e, odata[..], idata[..ilen]);
    }

    method Feed(data: seq<Byte>, ghost x: Block, ghost s: seq<Byte>)
      requires Streaming(x, s)
      modifies this`ilen, odata, idata
      ensures Streaming(x, s + data)
    {
      hide Chain, Rest;
      ComputeMac(data);
      Absorb(e, x, s, data);
    }

    // get_data_to_compute: one fragment after the other, then padding for what is left over.
    method GetDataToCompute(pieces: seq<seq<Byte>>, len0: nat)
      requires Valid() && ilen < 16 && len0 <= |Flat(pieces)| && [] !in pieces
      modifies this`ilen, odata, idata
      ensures Valid() && ilen == 0
      ensures odata[..] == CbcMac(e, old(odata[..]), Pad(old(idata[..ilen]) + Flat(pieces)[..len0]))
    {
      hide Streaming, Chain, Rest, CbcMac, At, Flat, Pad;
      ghost var x, r, all := odata[..], idata[..ilen], Flat(pieces);
      Begun();
      var len: nat, k: nat, off: nat := len0, 0, 0;
      Walking(pieces, all, len0, r);
      hide Valid;
      while len > 0
        invariant len <= len0 && Streaming(x, r + all[..len0 - len])
        invariant len > 0 ==> At(pieces, k, off, all[len0 - len..])
        decreases len
      {
        var n;
        k, off, n := NextFragment(pieces, k, off, len, all, len0 - len, x, r);
        len := len - n;
      }
      Finish(x, r + all[..len0]);
    }

    // One turn: the rest of a fragment, or the next fragment when this one is used up.
    method NextFragment(pieces: seq<seq<Byte>>, k0: nat, off0: nat, len: nat, ghost all: seq<Byte>, ghost pos: nat,
                        ghost x: Block, ghost r: seq<Byte>)
      returns (k: nat, off: nat, n: nat)
      requires 0 < len && pos + len <= |all| && [] !in pieces && At(pieces, k0, off0, all[pos..])
      requires Streaming(x, r + all[..pos])
      modifies this`ilen, odata, idata
      ensures 0 < n <= len && Streaming(x, r + all[..pos + n])
      ensures At(pieces, k, off, all[pos + n..])
    {
      hide Streaming, At, Flat;
      k, off := k0, off0;
      Inside(pieces, k, off, all[pos..]);
      n := Clamp(|pieces[k]| - off, len);
      if n == 0 {
        NextPiece(pieces, k, off, all[pos..]);
        k, off := k + 1, 0;
        n := Clamp(|pieces[k]|, len);
      }
      Step(pieces, k, off, all[pos..], n);
      Along(all, pos, n, r);
      Feed(pieces[k][off..off + n], x, r + all[..pos]);
      off := off + n;
    }

    method Finish(ghost x: Block, ghost s: seq<Byte>)
      requires Streaming(x, s)
      modifies this`ilen, odata, idata
      ensures Valid() && ilen == 0 && odata[..] == CbcMac(e, x, Pad(s))
    {
      hide CbcMac, Pad;
      PadRest(e, x, s);
      FinishBlock();
    }

    // Any leftover is padded and encrypted.
    method FinishBlock()
      requires Valid() && ilen < 16
      modifies this`ilen, odata, idata
      ensures Valid() && ilen == 0
      ensures odata[..] == CbcMac(e, old(odata[..]), Pad(old(idata[..ilen])))
    {
      hide CbcMac, Pad;
      PadNone(e, odata[..]);
      if ilen > 0 {
        PadBlock(e, odata[..], idata[..ilen]);
        Keep(Zeros(16 - ilen));
        assert idata[..] == idata[..16];
        EncryptBlock(idata[..]);
        ilen := 0;
      }
    }

    // set_msg_len on the last csize bytes of odata
    method SetMsgLen(msgLen: nat, csize: nat) returns (ok: bool)
      requires Valid() && 2 <= csize <= 8
      modifies odata
      ensures odata[..16 - csize] == old(odata[..16 - csize])
      ensures ok == LengthAccepted(csize, msgLen)
      ensures ok && msgLen < Pow256(4) ==> odata[16 - csize..] == Be(msgLen, csize)
    {
      hide Be, Pow256;
      ghost var nonce := odata[..16 - csize];
      forall i | 16 - csize <= i < 16 { odata[i] := 0; }
      var n := csize;
      if csize >= 4 {
        n := 4;
      } else if msgLen > Pow256(csize) {
        return false;
      }
      var data := Be(msgLen, n);
      forall i | 0 <= i < n { odata[16 - n + i] := data[i]; }
      assert odata[..16 - csize] == nonce;
      if msgLen < Pow256(4) && csize >= 4 { BeLonger(msgLen, csize); }
      assert odata[16 - csize..] == Zeros(csize - n) + data;
      assert csize == n ==> Zeros(csize - n) + data == data;
      return true;
    }

    // format_input
    method FormatInput(iv: Block, authSize: nat, assocLen: nat, cryptLen: nat) returns (ok: bool)
      requires Valid() && IvAccepted(iv) && AuthSize(authSize) && assocLen < Pow256(4) && cryptLen < Pow256(4)
      modifies odata
      ensures ok == LengthAccepted(iv[0] + 1, cryptLen)
      ensures ok ==> odata[..] == FirstBlock(iv[0] + 1, authSize, iv[1..15 - iv[0]], assocLen > 0, cryptLen)
    {
      hide Be, Pow256, OrBits;
      var l := iv[0] + 1;
      var k := (authSize - 2) / 2;
      FlagBits(iv[0], k);
      forall i | 0 <= i < 16 { odata[i] := iv[i]; }
      var flags := OrBits(iv[0], 8 * k);
      if assocLen > 0 { flags := OrBits(flags, 64); }
      odata[0] := flags;
      assert odata[..16 - l] == [flags] + iv[1..16 - l];
      ok := SetMsgLen(cryptLen, l);
      assert odata[..] == odata[..16 - l] + odata[16 - l..];
    }

    // format_adata
    method FormatAdata(a: nat)
      requires Valid()
      modifies this`ilen, idata
      ensures Valid() && 0 < ilen < 16 && idata[..ilen] == AdataLength(a)
    {
      hide Be;
      ilen := 0;
      if a < 65280 {
        Keep(Be(a, 2));
        ilen := 2;
      } else {
        Keep([0xff, 0xfe] + Be(a, 4));
        ilen := 6;
      }
    }

    // crypto_ccm_auth. Without associated data ilen is not set, and the bytes a caller left in
    // idata are taken for the start of the payload.
    method Auth(iv: Block, authSize: nat, assoc: seq<seq<Byte>>, assocLen: nat, plain: seq<seq<Byte>>, cryptLen: nat)
      returns (ok: bool, ghost stale: seq<Byte>)
      requires Valid() && (assocLen == 0 ==> ilen < 16) && [] !in assoc && [] !in plain
      requires IvAccepted(iv) && AuthSize(authSize) && assocLen < Pow256(4) && cryptLen < Pow256(4)
      requires assocLen <= |Flat(assoc)| && cryptLen <= |Flat(plain)|
      modifies this`ilen, odata, idata
      ensures stale == if assocLen > 0 then [] else old(idata[..ilen])
      ensures ok == LengthAccepted(iv[0] + 1, cryptLen)
      ensures ok ==>
                ilen == 0 && odata[..] == Mac(e, FirstBlock(iv[0] + 1, authSize, iv[1..15 - iv[0]], assocLen > 0, cryptLen),
                                              Flat(assoc)[..assocLen], stale + Flat(plain)[..cryptLen])
    {
      hide FirstBlock, CbcMac, Pad, Flat, Pow256, AdataLength, LengthAccepted, AuthSize;
      stale := if assocLen > 0 then [] else idata[..ilen];
      ok := FormatInput(iv, authSize, assocLen, cryptLen);
      if !ok { return; }
      ghost var b0 := odata[..];
      var x := e(odata[..]);
      forall i | 0 <= i < 16 { odata[i] := x[i]; }
      assert odata[..] == x;
      if assocLen > 0 {
        FormatAdata(assocLen);
        GetDataToCompute(assoc, assocLen);
        assert idata[..ilen] == [];
      } else {
        assert idata[..ilen] == stale;
      }
      ghost var adata := Flat(assoc)[..assocLen];
      ghost var y := odata[..];
      assert y == if adata == [] then x else CbcMac(e, x, Pad(AdataLength(|adata|) + adata));
      GetDataToCompute(plain, cryptLen);
      assert odata[..] == CbcMac(e, y, Pad(stale + Flat(plain)[..cryptLen]));
    }
  }

  // crypto_ccm_check_iv and crypto_ccm_setauthsize
  predicate IvAccepted(iv: Block) { 1 <= iv[0] <= 7 }

  predicate AuthSize(m: nat) { m % 2 == 0 && 4 <= m <= 16 }

  // When set_msg_len reports success.
  predicate LengthAccepted(csize: nat, msgLen: nat) { csize >= 4 || msgLen <= Pow256(csize) }

  // Whether the length field says the length: of the lengths set_msg_len accepts, all but the
  // first that does not fit.
  lemma LengthFaithful(csize: nat, msgLen: nat)
    requires 2 <= csize <= 8 && msgLen < Pow256(4) && LengthAccepted(csize, msgLen)
    ensures Value(Be(msgLen, csize)) == msgLen <==> csize >= 4 || msgLen != Pow256(csize)
  {
    ValueFits(Be(msgLen, csize));
    if csize >= 4 { Pow256Grows(4, csize); }
    if msgLen < Pow256(csize) { BeValue(msgLen, csize); }
  }

  lemma {:induction false} Pow256Grows(a: nat, b: nat)
    requires a <= b
    ensures Pow256(a) <= Pow256(b)
  {
    if a < b { Pow256Grows(a, b - 1); }
  }

  lemma BeLonger(n: nat, k: nat)
    requires n < Pow256(4) && k >= 4
    ensures Be(n, k) == Zeros(k - 4) + Be(n, 4)
  {
    ValueBe(Zeros(k - 4) + Be(n, 4));
    LeadingZeros(k - 4, Be(n, 4));
    BeValue(n, 4);
  }

  lemma {:induction false} LeadingZeros(k: nat, s: seq<Byte>)
    ensures Value(Zeros(k) + s) == Value(s)
    decreases k + |s|
  {
    var z := Zeros(k) + s;
    if s != [] {
      assert z[..|z| - 1] == Zeros(k) + s[..|s| - 1];
      LeadingZeros(k, s[..|s| - 1]);
    } else if k > 0 {
      assert z[..|z| - 1] == Zeros(k - 1) + [];
      LeadingZeros(k - 1, []);
    }
  }

  lemma Powers()
    ensures Pow2(3) == 8 && Pow2(6) == 64
  {
    assert Pow2(0) == 1;
    assert Pow2(1) == 2;
    assert Pow2(2) == 4;
    assert Pow2(3) == 8;
    assert Pow2(4) == 16;
    assert Pow2(5) == 32;
  }

  lemma FlagBits(low: Byte, k: nat)
    requires low < 8 && k < 8
    ensures OrBits(low, 8 * k) == low + 8 * k && OrBits(low + 8 * k, 64) == low + 8 * k + 64
  {
    hide OrBits, Pow2;
    Powers();
    OrAdds(low, 3, k);
    OrAdds(low + 8 * k, 6, 1);
  }

  // ------------------------------------------------------- bytes left over in idata

  // A block cipher with a key never maps two blocks to one.
  ghost predicate Injective(e: Block -> Block) { forall x, y :: e(x) == e(y) ==> x == y }

  // What Auth computes for a payload is the MAC of RFC 3610.
  ghost predicate RightOn(e: Block -> Block, l: nat, m: nat, nonce: seq<Byte>, stale: seq<Byte>, adata: seq<Byte>,
                          payload: seq<Byte>)
    requires 2 <= l <= 8 && AuthSize(m) && |nonce| == 15 - l
  {
    var b0 := FirstBlock(l, m, nonce, adata != [], |payload|);
    Mac(e, b0, adata, stale + payload) == Mac(e, b0, adata, payload)
  }

  ghost predicate AlwaysRight(l: nat, m: nat, nonce: seq<Byte>, stale: seq<Byte>, withAdata: bool)
    requires 2 <= l <= 8 && AuthSize(m) && |nonce| == 15 - l
  {
    forall e, adata, payload ::
      Injective(e) && (adata != []) == withAdata && |payload| < Pow256(4) && LengthAccepted(l, |payload|)
      ==> RightOn(e, l, m, nonce, stale, adata, payload)
  }

  // The MAC is right for every cipher and payload exactly when there is associated data, or
  // nothing was left in idata.
  lemma RightExactlyWhenClean(l: nat, m: nat, nonce: seq<Byte>, assocLen: nat, idata: seq<Byte>, ilen: nat)
    requires 2 <= l <= 8 && AuthSize(m) && |nonce| == 15 - l && ilen < 16 <= |idata|
    ensures AlwaysRight(l, m, nonce, if assocLen > 0 then [] else idata[..ilen], assocLen > 0) <==> assocLen > 0 || ilen == 0
  {
    var stale := if assocLen > 0 then [] else idata[..ilen];
    if assocLen > 0 || ilen == 0 {
      forall e, adata, payload ensures RightOn(e, l, m, nonce, stale, adata, payload) {
        assert stale + payload == payload;
      }
    } else {
      StaleMatters(l, m, nonce, stale);
      hide FirstBlock, Mac, Injective;
      var b0 := FirstBlock(l, m, nonce, false, 0);
      var e: Block -> Block :| Injective(e) && Mac(e, b0, [], stale) != Mac(e, b0, [], []);
      assert stale + [] == stale;
      assert !RightOn(e, l, m, nonce, stale, [], []);
      var none: seq<Byte> := [];
      assert |none| < Pow256(4) && LengthAccepted(l, |none|);
    }
  }

  // Whatever is left over, some cipher gives an empty payload another MAC.
  lemma StaleMatters(l: nat, m: nat, nonce: seq<Byte>, stale: seq<Byte>)
    requires 2 <= l <= 8 && AuthSize(m) && |nonce| == 15 - l && 0 < |stale| < 16
    ensures exists e: Block -> Block ::
              Injective(e) && Mac(e, FirstBlock(l, m, nonce, false, 0), [], stale) != Mac(e, FirstBlock(l, m, nonce, false, 0), [], [])
  {
    var b0 := FirstBlock(l, m, nonce, false, 0);
    var p: Block, zero: Block := stale + Zeros(16 - |stale|), Zeros(16);
    assert b0[0] >= 9 && b0 != zero;
    hide FirstBlock;
    if p != zero {
      var e: Block -> Block := (x: Block) => x;
      MacsOf(e, b0, stale);
      MaskChanges(b0, p);
      assert Injective(e);
    } else {
      var e: Block -> Block := (x: Block) => if x == b0 then zero else if x == zero then b0 else x;
      MacsOf(e, b0, stale);
      XorZeros(zero);
      assert Injective(e);
    }
  }

  lemma MacsOf(e: Block -> Block, b0: Block, stale: seq<Byte>)
    requires 0 < |stale| < 16
    ensures Mac(e, b0, [], []) == e(b0) && Mac(e, b0, [], stale) == e(XorBytes(e(b0), stale + Zeros(16 - |stale|)))
  {
    PadNone(e, e(b0));
    PadBlock(e, e(b0), stale);
    hide CbcMac, Pad;
  }

  // A mask that is not zero changes what it masks.
  lemma MaskChanges(b: Block, p: Block)
    requires p != Zeros(16)
    ensures XorBytes(b, p) != b
  {
    var i := NonZeroAt(p);
    BitChanges(b[i], p[i]);
    assert XorBytes(b, p)[i] != b[i];
  }

  lemma NonZeroAt(p: Block) returns (i: nat)
    requires p != Zeros(16)
    ensures i < 16 && p[i] != 0
  {
    i := 0;
    while i < 15 && p[i] == 0
      invariant i < 16 && forall k :: 0 <= k < i ==> p[k] == 0
    {
      i := i + 1;
    }
    assert p == p[..i] + [p[i]] + p[i + 1..];
    assert i == 15 ==> p == Zeros(15) + [p[15]] && Zeros(16) == Zeros(15) + [0];
  }

  lemma BitChanges(a: Byte, p: Byte)
    requires p != 0
    ensures Xor(a, p) != a
  {
    XorSym(a, p);
    XorTwice(p, a);
    XorItself(a);
  }

  lemma {:induction false} XorItself(a: nat)
    ensures XorBits(a, a) == 0
  {
    if a > 0 { XorItself(a / 2); }
  }

  function Clamp(rest: nat, len: nat): nat { if len > rest then rest else len }

  // Position off of piece k, with the bytes from there on.
  ghost predicate At(pieces: seq<seq<Byte>>, k: nat, off: nat, ahead: seq<Byte>) {
    k < |pieces| && off <= |pieces[k]| && ahead == pieces[k][off..] + Flat(pieces[k + 1..])
  }

  lemma Walking(pieces: seq<seq<Byte>>, all: seq<Byte>, len: nat, r: seq<Byte>)
    requires all == Flat(pieces) && len <= |all|
    ensures r == r + all[..0] && all[0..] == all
    ensures len > 0 ==> At(pieces, 0, 0, all)
  {
    if len > 0 { assert pieces[0][0..] == pieces[0]; }
  }

  lemma Inside(pieces: seq<seq<Byte>>, k: nat, off: nat, ahead: seq<Byte>)
    requires At(pieces, k, off, ahead)
    ensures k < |pieces| && off <= |pieces[k]|
  {
  }

  lemma Along(all: seq<Byte>, pos: nat, n: nat, r: seq<Byte>)
    requires pos + n <= |all|
    ensures r + all[..pos + n] == r + all[..pos] + all[pos..][..n] && all[pos + n..] == all[pos..][n..]
  {
  }

  lemma PadNone(e: Block -> Block, x: Block)
    ensures CbcMac(e, x, Pad([])) == x
  {
  }

  lemma NextPiece(pieces: seq<seq<Byte>>, k: nat, off: nat, ahead: seq<Byte>)
    requires At(pieces, k, off, ahead) && ahead != [] && off == |pieces[k]|
    ensures At(pieces, k + 1, 0, ahead) && k + 1 < |pieces|
  {
    assert pieces[k + 1..] != [];
    assert pieces[k + 1..][1..] == pieces[k + 2..];
  }

  lemma Step(pieces: seq<seq<Byte>>, k: nat, off: nat, ahead: seq<Byte>, n: nat)
    requires At(pieces, k, off, ahead) && off + n <= |pieces[k]|
    ensures n <= |ahead| && ahead[..n] == pieces[k][off..off + n] && At(pieces, k, off + n, ahead[n..])
  {
  }

  lemma NoBlocks(e: Block -> Block, x: Block)
    ensures CbcMac(e, x, []) == x
  {
  }

  // What compute_mac has done when the data filled the block begun, and how many bytes remain.
  lemma AfterFill(e: Block -> Block, x: Block, r: seq<Byte>, data: seq<Byte>, from: nat, pos: nat)
    requires |r| < 16 && from == 16 - |r| && from <= pos <= |data| < pos + 16 && (pos - from) % 16 == 0
    ensures CbcMac(e, e(XorBytes(x, r + data[..from])), data[from..pos]) == Chain(e, x, r + data)
    ensures Rest(r + data) == data[pos..]
  {
    var t := r + data;
    var done := 16 + (pos - from);
    WholeSum(done, |t| - done);
    assert t[..16] == r + data[..from] && t[16..done] == data[from..pos] && t[done..] == data[pos..];
    assert t[..done] == t[..16] + t[16..done];
    hide CbcMac;
    FirstOf(e, x, t);
    MacConcat(e, x, t[..16], t[16..done]);
  }

  lemma NoFill(e: Block -> Block, x: Block, r: seq<Byte>, data: seq<Byte>)
    requires |r + data| < 16
    ensures Chain(e, x, r + data) == x == CbcMac(e, x, []) && Rest(r + data) == r + data
  {
    RestShort(e, x, r + data);
  }

  lemma FirstOf(e: Block -> Block, x: Block, t: seq<Byte>)
    requires |t| >= 16
    ensures CbcMac(e, x, t[..16]) == e(XorBytes(x, t[..16]))
  {
    assert t[..16][..16] == t[..16] && t[..16][16..] == [];
  }

  lemma RestShort(e: Block -> Block, x: Block, r: seq<Byte>)
    requires |r| < 16
    ensures Chain(e, x, r) == x && Rest(r) == r
  {
  }

  lemma PadBlock(e: Block -> Block, x: Block, r: seq<Byte>)
    requires 0 < |r| < 16
    ensures CbcMac(e, x, Pad(r)) == e(XorBytes(x, r + Zeros(16 - |r|)))
  {
    var p := Pad(r);
    assert |p| == 16 && p[..16] == p && p[16..] == [];
    assert CbcMac(e, x, p) == CbcMac(e, e(XorBytes(x, p)), []);
  }
}
