// star_x and imix_col of crypto/aes_generic.c, which work on all four bytes of a word at
// once, against the byte-level inverse MixColumns.
module AesWords {
  import opened Gf
  import opened Words
  import opened Aes

  // The places of the four bytes in a u32.
  function Lane0(a: bv8): bv32 { a as bv32 }

  function Lane1(a: bv8): bv32 { (a as bv32) << 8 }

  function Lane2(a: bv8): bv32 { (a as bv32) << 16 }

  function Lane3(a: bv8): bv32 { (a as bv32) << 24 }

  function Pack(w: Word): bv32 { Xw(Xw(Lane0(w.b0), Lane1(w.b1)), Xw(Lane2(w.b2), Lane3(w.b3))) }

  // The two terms of star_x.
  function LowBits(x: bv32): bv32 { (x & 0x7f7f7f7f) << 1 }

  function TopBits(x: bv32): bv32 { ((x & 0x80808080) >> 7) * 0x1b }

  function StarX(x: bv32): bv32 { Xw(LowBits(x), TopBits(x)) }

  function Ror32by8(x: bv32): bv32 { (x >> 8) | (x << 24) }

  function Ror32by16(x: bv32): bv32 { (x >> 16) | (x << 16) }

  function Ror32by24(x: bv32): bv32 { (x >> 24) | (x << 8) }

  // imix_col
  function ImixCol(x: bv32): bv32 {
    var u := StarX(x);
    var v := StarX(u);
    var w := StarX(v);
    var t := Xw(w, x);
    Xw(Xw(Xw(u, v), w), Xw(Xw(Ror32by8(Xw(u, t)), Ror32by16(Xw(v, t))), Ror32by24(t)))
  }

  lemma LowLinear(x: bv32, y: bv32)
    ensures LowBits(Xw(x, y)) == Xw(LowBits(x), LowBits(y))
  {
  }

  lemma Ror8Linear(x: bv32, y: bv32)
    ensures Ror32by8(Xw(x, y)) == Xw(Ror32by8(x), Ror32by8(y))
  {
  }

  lemma Ror16Linear(x: bv32, y: bv32)
    ensures Ror32by16(Xw(x, y)) == Xw(Ror32by16(x), Ror32by16(y))
  {
  }

  lemma Ror24Linear(x: bv32, y: bv32)
    ensures Ror32by24(Xw(x, y)) == Xw(Ror32by24(x), Ror32by24(y))
  {
  }

  lemma RorLinear(x: bv32, y: bv32)
    ensures Ror32by8(Xw(x, y)) == Xw(Ror32by8(x), Ror32by8(y))
    ensures Ror32by16(Xw(x, y)) == Xw(Ror32by16(x), Ror32by16(y))
    ensures Ror32by24(Xw(x, y)) == Xw(Ror32by24(x), Ror32by24(y))
  {
    hide Xw, Ror32by8, Ror32by16, Ror32by24;
    Ror8Linear(x, y);
    Ror16Linear(x, y);
    Ror24Linear(x, y);
  }

  lemma LanesLow(a: bv8)
    ensures LowBits(Lane0(a)) == Lane0(Up(a)) && LowBits(Lane1(a)) == Lane1(Up(a))
    ensures LowBits(Lane2(a)) == Lane2(Up(a)) && LowBits(Lane3(a)) == Lane3(Up(a))
  {
  }

  lemma LanesRor(a: bv8)
    ensures Ror32by8(Lane0(a)) == Lane3(a) && Ror32by8(Lane1(a)) == Lane0(a) && Ror32by8(Lane2(a)) == Lane1(a)
    ensures Ror32by8(Lane3(a)) == Lane2(a)
    ensures Ror32by16(Lane0(a)) == Lane2(a) && Ror32by16(Lane1(a)) == Lane3(a) && Ror32by16(Lane2(a)) == Lane0(a)
    ensures Ror32by16(Lane3(a)) == Lane1(a)
    ensures Ror32by24(Lane0(a)) == Lane1(a) && Ror32by24(Lane1(a)) == Lane2(a) && Ror32by24(Lane2(a)) == Lane3(a)
    ensures Ror32by24(Lane3(a)) == Lane0(a)
  {
  }

  lemma LanesXor(a: bv8, b: bv8)
    ensures Lane0(X(a, b)) == Xw(Lane0(a), Lane0(b)) && Lane1(X(a, b)) == Xw(Lane1(a), Lane1(b))
    ensures Lane2(X(a, b)) == Xw(Lane2(a), Lane2(b)) && Lane3(X(a, b)) == Xw(Lane3(a), Lane3(b))
  {
  }

  lemma PackXor(a: Word, b: Word)
    ensures Pack(Xor(a, b)) == Xw(Pack(a), Pack(b))
  {
    hide X, Xw, Lane0, Lane1, Lane2, Lane3;
    LanesXor(a.b0, b.b0);
    LanesXor(a.b1, b.b1);
    LanesXor(a.b2, b.b2);
    LanesXor(a.b3, b.b3);
    WordSwap(Lane0(a.b0), Lane0(b.b0), Lane1(a.b1), Lane1(b.b1));
    WordSwap(Lane2(a.b2), Lane2(b.b2), Lane3(a.b3), Lane3(b.b3));
    WordSwap(Xw(Lane0(a.b0), Lane1(a.b1)), Xw(Lane0(b.b0), Lane1(b.b1)), Xw(Lane2(a.b2), Lane3(a.b3)),
             Xw(Lane2(b.b2), Lane3(b.b3)));
  }

  lemma PackLow(w: Word)
    ensures LowBits(Pack(w)) == Pack(Word(Up(w.b0), Up(w.b1), Up(w.b2), Up(w.b3)))
  {
    hide Xw, Lane0, Lane1, Lane2, Lane3, LowBits, Up;
    LanesLow(w.b0);
    LanesLow(w.b1);
    LanesLow(w.b2);
    LanesLow(w.b3);
    LowLinear(Xw(Lane0(w.b0), Lane1(w.b1)), Xw(Lane2(w.b2), Lane3(w.b3)));
    LowLinear(Lane0(w.b0), Lane1(w.b1));
    LowLinear(Lane2(w.b2), Lane3(w.b3));
  }

  lemma LanesTop(a: bv8, b: bv8, c: bv8, d: bv8)
    ensures TopBits(Xw(Xw(Lane0(a), Lane1(b)), Xw(Lane2(c), Lane3(d))))
         == Xw(Xw(Lane0(Top(a)), Lane1(Top(b))), Xw(Lane2(Top(c)), Lane3(Top(d))))
  {
  }

  function Double(w: Word): Word { Word(Dbl(w.b0), Dbl(w.b1), Dbl(w.b2), Dbl(w.b3)) }

  // star_x multiplies every byte of the word by x.
  lemma StarIsDouble(w: Word)
    ensures StarX(Pack(w)) == Pack(Double(w))
  {
    hide X, Xw, Lane0, Lane1, Lane2, Lane3, LowBits, TopBits, Up, Top;
    PackLow(w);
    LanesTop(w.b0, w.b1, w.b2, w.b3);
    PackXor(Word(Up(w.b0), Up(w.b1), Up(w.b2), Up(w.b3)), Word(Top(w.b0), Top(w.b1), Top(w.b2), Top(w.b3)));
  }

  function Turned(w: Word): Word { Word(w.b1, w.b2, w.b3, w.b0) }

  lemma PackTurned(w: Word)
    ensures Ror32by8(Pack(w)) == Pack(Turned(w)) && Ror32by16(Pack(w)) == Pack(Turned(Turned(w)))
    ensures Ror32by24(Pack(w)) == Pack(Turned(Turned(Turned(w))))
  {
    hide Xw, Lane0, Lane1, Lane2, Lane3, Ror32by8, Ror32by16, Ror32by24;
    LanesRor(w.b0);
    LanesRor(w.b1);
    LanesRor(w.b2);
    LanesRor(w.b3);
    var p, q, r, s := Lane0(w.b0), Lane1(w.b1), Lane2(w.b2), Lane3(w.b3);
    RorLinear(Xw(p, q), Xw(r, s));
    RorLinear(p, q);
    RorLinear(r, s);
    TurnPairs(Lane3(w.b0), Lane0(w.b1), Lane1(w.b2), Lane2(w.b3));
    TurnPairs(Lane2(w.b0), Lane3(w.b1), Lane0(w.b2), Lane1(w.b3));
    TurnPairs(Lane1(w.b0), Lane2(w.b1), Lane3(w.b2), Lane0(w.b3));
  }

  lemma TurnPairs(p: bv32, q: bv32, r: bv32, s: bv32)
    ensures Xw(Xw(p, q), Xw(r, s)) == Xw(Xw(q, r), Xw(s, p)) == Xw(Xw(r, s), Xw(p, q)) == Xw(Xw(s, p), Xw(q, r))
  {
    hide Xw;
    WordGroup(p, q, 0);
    WordGroup(r, s, 0);
    WordSwap(q, p, r, s);
    WordGroup(p, s, 0);
    WordGroup(Xw(p, q), Xw(r, s), 0);
    WordGroup(Xw(q, r), Xw(s, p), 0);
  }

  // imix_col is the inverse MixColumns of the word's bytes.
  lemma ImixIsInvMix(w: Word)
    ensures ImixCol(Pack(w)) == Pack(InvMixColumn(w))
  {
    hide X, Dbl, Xw, Pack, StarX, Ror32by8, Ror32by16, Ror32by24;
    var u, v, z := Double(w), Double(Double(w)), Double(Double(Double(w)));
    var t := Xor(z, w);
    StarIsDouble(w);
    StarIsDouble(u);
    StarIsDouble(v);
    PackXor(z, w);
    PackXor(u, v);
    PackXor(Xor(u, v), z);
    PackXor(u, t);
    PackXor(v, t);
    PackTurned(Xor(u, t));
    PackTurned(Xor(v, t));
    PackTurned(t);
    var a, b, c := Turned(Xor(u, t)), Turned(Turned(Xor(v, t))), Turned(Turned(Turned(t)));
    PackXor(a, b);
    PackXor(Xor(a, b), c);
    PackXor(Xor(Xor(u, v), z), Xor(Xor(a, b), c));
    hide M9, M11, M13, M14;
    ByBytes(w);
  }

  // The same sums byte by byte, gathered in the order of the matrix rows.
  lemma ByBytes(w: Word)
    ensures var u, v, z := Double(w), Double(Double(w)), Double(Double(Double(w))); var t := Xor(z, w);
            Xor(Xor(Xor(u, v), z), Xor(Xor(Turned(Xor(u, t)), Turned(Turned(Xor(v, t)))), Turned(Turned(Turned(t))))) == InvMixColumn(w)
  {
    hide X, Dbl;
    Gather(M14(w.b0), M11(w.b1), M13(w.b2), M9(w.b3));
    Gather(M14(w.b1), M11(w.b2), M13(w.b3), M9(w.b0));
    Gather(M14(w.b2), M11(w.b3), M13(w.b0), M9(w.b1));
    Gather(M14(w.b3), M11(w.b0), M13(w.b1), M9(w.b2));
  }
}
