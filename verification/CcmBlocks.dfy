// What the blocks of CCM authentication say (section 2.2 of RFC 3610): nonce, lengths and data
// can be read back from them, so no two messages are authenticated as the same blocks.
module CcmBlocks {
  import opened Bytes
  import opened Ccm

  // ------------------------------------------------------- the first block

  lemma FlagsDecode(l: nat, m: nat, adata: bool)
    requires 2 <= l <= 8 && AuthSize(m)
    ensures var f := (if adata then 64 else 0) + 8 * ((m - 2) / 2) + (l - 1);
            f % 8 == l - 1 && f / 8 % 8 == (m - 2) / 2 && (f >= 64) == adata
  {
  }

  lemma FirstBlockParts(l: nat, m: nat, nonce: seq<Byte>, adata: bool, msgLen: nat)
    requires 2 <= l <= 8 && AuthSize(m) && |nonce| == 15 - l
    ensures var b, f: nat := FirstBlock(l, m, nonce, adata, msgLen), FirstBlock(l, m, nonce, adata, msgLen)[0];
            && f % 8 == l - 1 && f / 8 % 8 == (m - 2) / 2 && (f >= 64) == adata
            && b[1..16 - l] == nonce && b[16 - l..] == Be(msgLen, l)
  {
    hide Be;
    FlagsDecode(l, m, adata);
    var f: Byte := (if adata then 64 else 0) + 8 * ((m - 2) / 2) + (l - 1);
    assert FirstBlock(l, m, nonce, adata, msgLen) == [f] + nonce + Be(msgLen, l);
  }

  // The first block determines the parameters, the nonce and the message length.
  lemma FirstBlockDecodes(l: nat, m: nat, nonce: seq<Byte>, adata: bool, msgLen: nat, l2: nat, m2: nat,
                          nonce2: seq<Byte>, adata2: bool, msgLen2: nat)
    requires 2 <= l <= 8 && AuthSize(m) && |nonce| == 15 - l && msgLen < Pow256(l)
    requires 2 <= l2 <= 8 && AuthSize(m2) && |nonce2| == 15 - l2 && msgLen2 < Pow256(l2)
    requires FirstBlock(l, m, nonce, adata, msgLen) == FirstBlock(l2, m2, nonce2, adata2, msgLen2)
    ensures l == l2 && m == m2 && nonce == nonce2 && adata == adata2 && msgLen == msgLen2
  {
    FirstBlockParts(l, m, nonce, adata, msgLen);
    FirstBlockParts(l2, m2, nonce2, adata2, msgLen2);
    hide FirstBlock, Be, Pow256;
    assert l == l2;
    SameLength(msgLen, msgLen2, l);
  }

  lemma SameLength(n: nat, k: nat, l: nat)
    requires n < Pow256(l) && k < Pow256(l) && Be(n, l) == Be(k, l)
    ensures n == k
  {
    BeValue(n, l);
    BeValue(k, l);
  }

  // Packet vector 1 of section 8 of RFC 3610.
  lemma FirstVector()
    ensures FirstBlock(2, 8, [0, 0, 0, 3, 2, 1, 0, 0xa0, 0xa1, 0xa2, 0xa3, 0xa4, 0xa5], true, 23)
         == [0x59, 0, 0, 0, 3, 2, 1, 0, 0xa0, 0xa1, 0xa2, 0xa3, 0xa4, 0xa5, 0, 23]
  {
    BeTwo(23);
    hide Be;
  }

  // The length prefix on both sides of its threshold.
  lemma PrefixVectors()
    ensures AdataLength(8) == [0, 8] && AdataLength(0xfeff) == [0xfe, 0xff]
    ensures AdataLength(0xff00) == [0xff, 0xfe, 0, 0, 0xff, 0]
  {
    BeTwo(8);
    BeTwo(0xfeff);
    BeTwo(0);
    assert Be(0xff00, 4) == Be(0, 2) + [0xff, 0];
    hide Be;
  }

  lemma BeTwo(n: nat)
    ensures Be(n, 2) == [n / 256 % 256, n % 256]
  {
    assert Be(n / 256 / 256, 0) == [];
    assert Be(n / 256, 1) == [n / 256 % 256];
  }

  // ------------------------------------------------------- the associated data

  lemma PrefixFirst(a: nat)
    requires a < Pow256(4)
    ensures var p := AdataLength(a);
            && |p| >= 2 && (p[0] == 0xff <==> a >= 0xff00)
            && (if a < 0xff00 then |p| == 2 && p == Be(a, 2) else |p| == 6 && p[2..] == Be(a, 4))
  {
    BeTwo(a);
    hide Be, Pow256;
  }

  // The length prefix determines the length, whatever follows it.
  lemma AdataLengthDecodes(a: nat, s: seq<Byte>, b: nat, t: seq<Byte>)
    requires a < Pow256(4) && b < Pow256(4) && AdataLength(a) + s == AdataLength(b) + t
    ensures a == b && s == t
  {
    var x, p, q := AdataLength(a) + s, AdataLength(a), AdataLength(b);
    PrefixFirst(a);
    PrefixFirst(b);
    assert p[0] == x[0] && q[0] == x[0];
    hide AdataLength, Be, Pow256;
    assert |p| == |q| && p == x[..|p|] && q == x[..|q|] && s == x[|p|..] && t == x[|q|..];
    SameNumber(a, b);
  }

  lemma SameNumber(a: nat, b: nat)
    requires a < Pow256(4) && b < Pow256(4) && (a < 0xff00 <==> b < 0xff00) && AdataLength(a) == AdataLength(b)
    ensures a == b
  {
    assert Pow256(2) == 256 * Pow256(1) && Pow256(1) == 256 * Pow256(0);
    if a < 0xff00 {
      BeValue(a, 2);
      BeValue(b, 2);
    } else {
      assert Be(a, 4) == AdataLength(a)[2..] && Be(b, 4) == AdataLength(b)[2..];
      BeValue(a, 4);
      BeValue(b, 4);
    }
  }

  // ------------------------------------------------------- the whole input

  function AdataBlocks(adata: seq<Byte>): (p: seq<Byte>)
    ensures |p| % 16 == 0
  {
    if adata == [] then [] else Pad(AdataLength(|adata|) + adata)
  }

  // Everything behind the first block.
  function Blocks(adata: seq<Byte>, payload: seq<Byte>): (p: seq<Byte>)
    ensures |p| % 16 == 0
  {
    SumOfBlocks(|AdataBlocks(adata)|, |Pad(payload)|);
    AdataBlocks(adata) + Pad(payload)
  }

  lemma SumOfBlocks(a: nat, b: nat)
    requires a % 16 == 0 && b % 16 == 0
    ensures (a + b) % 16 == 0
  {
  }

  // The MAC is the chain over these blocks.
  lemma MacOfBlocks(e: Block -> Block, b0: Block, adata: seq<Byte>, payload: seq<Byte>)
    ensures Mac(e, b0, adata, payload) == CbcMac(e, e(b0), Blocks(adata, payload))
  {
    MacConcat(e, e(b0), AdataBlocks(adata), Pad(payload));
    hide Pad, AdataLength;
  }

  lemma AdataDecodes(a: seq<Byte>, s: seq<Byte>, b: seq<Byte>, t: seq<Byte>)
    requires |a| < Pow256(4) && |b| < Pow256(4) && a != [] && b != []
    requires AdataBlocks(a) + s == AdataBlocks(b) + t
    ensures a == b && s == t
  {
    hide AdataLength, PadLen, Pow256;
    var p, q := a + Zeros(PadLen(|AdataLength(|a|) + a|)), b + Zeros(PadLen(|AdataLength(|b|) + b|));
    assert AdataBlocks(a) + s == AdataLength(|a|) + (p + s);
    assert AdataBlocks(b) + t == AdataLength(|b|) + (q + t);
    AdataLengthDecodes(|a|, p + s, |b|, q + t);
    assert a == (p + s)[..|a|] && b == (q + t)[..|b|];
    assert |p| == |q| && s == (p + s)[|p|..] && t == (q + t)[|q|..];
  }

  // No two messages give the same blocks: parameters, nonce, associated data and payload can be
  // read back from them.
  lemma BlocksDecode(l: nat, m: nat, nonce: seq<Byte>, adata: seq<Byte>, payload: seq<Byte>,
                     l2: nat, m2: nat, nonce2: seq<Byte>, adata2: seq<Byte>, payload2: seq<Byte>)
    requires 2 <= l <= 8 && AuthSize(m) && |nonce| == 15 - l && |payload| < Pow256(l) && |adata| < Pow256(4)
    requires 2 <= l2 <= 8 && AuthSize(m2) && |nonce2| == 15 - l2 && |payload2| < Pow256(l2) && |adata2| < Pow256(4)
    requires FirstBlock(l, m, nonce, adata != [], |payload|) == FirstBlock(l2, m2, nonce2, adata2 != [], |payload2|)
    requires Blocks(adata, payload) == Blocks(adata2, payload2)
    ensures l == l2 && m == m2 && nonce == nonce2 && adata == adata2 && payload == payload2
  {
    FirstBlockDecodes(l, m, nonce, adata != [], |payload|, l2, m2, nonce2, adata2 != [], |payload2|);
    hide FirstBlock, AdataLength, Pow256, PadLen;
    if adata != [] {
      AdataDecodes(adata, Pad(payload), adata2, Pad(payload2));
    } else {
      assert [] + Pad(payload) == Pad(payload) && [] + Pad(payload2) == Pad(payload2);
    }
    assert payload == Pad(payload)[..|payload|] && payload2 == Pad(payload2)[..|payload2|];
  }

  // ------------------------------------------------------- what is accepted

  // crypto_ccm_setauthsize and crypto_ccm_check_iv, and the lengths set_msg_len lets through.
  lemma Accepted(m: nat, iv: Block, csize: nat)
    ensures AuthSize(m) <==> m in {4, 6, 8, 10, 12, 14, 16}
    ensures var l: nat := iv[0]; IvAccepted(iv) <==> 2 <= l + 1 <= 8
    ensures LengthAccepted(csize, Pow256(csize)) && (LengthAccepted(csize, Pow256(csize) + 1) <==> csize >= 4)
  {
  }
}
