// The F-function of section 2.4.1 of RFC 3713 by bytes, and the tables of crypto/camellia.c
// that compute it.
module CamelliaF {
  import opened Words
  import opened Camellia

  // SBOX1 to SBOX4: any functions on bytes.
  datatype Sboxes = Sboxes(s1: bv32 -> bv32, s2: bv32 -> bv32, s3: bv32 -> bv32, s4: bv32 -> bv32)

  function Word(a: bv32, b: bv32, c: bv32, d: bv32): bv32 { Xw(Xw(Up24(a), Up16(b)), Xw(Up8(c), d)) }

  function Up24(a: bv32): bv32 { a << 24 }

  function Up16(a: bv32): bv32 { a << 16 }

  function Up8(a: bv32): bv32 { a << 8 }

  function Low(a: bv32): bv32 { a & 0xff }

  // How the tables repeat an S-box in the four bytes of a word.
  function TablesOf(s: Sboxes): Tables {
    Tables((x: bv32) => var b := Low(s.s1(x)); Word(b, b, b, 0),
           (x: bv32) => var b := Low(s.s2(x)); Word(0, b, b, b),
           (x: bv32) => var b := Low(s.s3(x)); Word(b, 0, b, b),
           (x: bv32) => var b := Low(s.s4(x)); Word(b, b, 0, b))
  }

  // Sums of bytes.
  function X3(a: bv32, b: bv32, c: bv32): bv32 { Xw(Xw(a, b), c) }

  function X5(a: bv32, b: bv32, c: bv32, d: bv32, e: bv32): bv32 { Xw(a, Xw(X3(c, d, e), b)) }

  function X6(a: bv32, b: bv32, c: bv32, d: bv32, e: bv32, f: bv32): bv32 { Xw(X3(d, e, f), X3(a, b, c)) }

  // The P-function: y1 to y8 from t1 to t8.
  function P(t1: bv32, t2: bv32, t3: bv32, t4: bv32, t5: bv32, t6: bv32, t7: bv32, t8: bv32): Half {
    Half(Word(X6(t1, t3, t4, t8, t6, t7), X6(t1, t2, t4, t8, t5, t7), X6(t1, t2, t3, t8, t5, t6), X6(t2, t3, t4, t5, t6, t7)),
         Word(X5(t2, t1, t8, t6, t7), X5(t3, t2, t8, t5, t7), X5(t4, t3, t8, t5, t6), X5(t1, t4, t5, t6, t7)))
  }

  // The F-function: the key is added, each byte goes through its S-box, and P mixes them.
  function RfcF(s: Sboxes, x: Half, k: Half): Half {
    var v := Xor(x, k);
    P(Low(s.s1(Byte1(v.l))), Low(s.s2(Byte2(v.l))), Low(s.s3(Byte3(v.l))), Low(s.s4(Byte4(v.l))),
      Low(s.s2(Byte1(v.r))), Low(s.s3(Byte2(v.r))), Low(s.s4(Byte3(v.r))), Low(s.s1(Byte4(v.r))))
  }

  predicate Byte(a: bv32) { a <= 0xff }

  lemma LowByte(a: bv32)
    ensures Byte(Low(a))
  {
  }

  lemma XorByte(a: bv32, b: bv32)
    requires Byte(a) && Byte(b)
    ensures Byte(Xw(a, b))
  {
  }

  lemma Zero(a: bv32)
    ensures Xw(a, 0) == a && Xw(0, a) == a && Byte(0)
  {
  }

  lemma Shift24(a: bv32, e: bv32)
    ensures (a ^ e) << 24 == (a << 24) ^ (e << 24)
  {
  }

  lemma Shift16(a: bv32, e: bv32)
    ensures (a ^ e) << 16 == (a << 16) ^ (e << 16)
  {
  }

  lemma Shift8(a: bv32, e: bv32)
    ensures (a ^ e) << 8 == (a << 8) ^ (e << 8)
  {
  }

  lemma Up24Linear(a: bv32, e: bv32)
    ensures Up24(Xw(a, e)) == Xw(Up24(a), Up24(e))
  {
    Shift24(a, e);
  }

  lemma Up16Linear(a: bv32, e: bv32)
    ensures Up16(Xw(a, e)) == Xw(Up16(a), Up16(e))
  {
    Shift16(a, e);
  }

  lemma Up8Linear(a: bv32, e: bv32)
    ensures Up8(Xw(a, e)) == Xw(Up8(a), Up8(e))
  {
    Shift8(a, e);
  }

  lemma WordXor(a: bv32, b: bv32, c: bv32, d: bv32, e: bv32, f: bv32, g: bv32, h: bv32)
    ensures Xw(Word(a, b, c, d), Word(e, f, g, h)) == Word(Xw(a, e), Xw(b, f), Xw(c, g), Xw(d, h))
  {
    hide Xw, Up24, Up16, Up8;
    Up24Linear(a, e);
    Up16Linear(b, f);
    Up8Linear(c, g);
    Interleave(Up24(a), Up16(b), Up8(c), d, Up24(e), Up16(f), Up8(g), h);
  }

  lemma Interleave(a: bv32, b: bv32, c: bv32, d: bv32, e: bv32, f: bv32, g: bv32, h: bv32)
    ensures Xw(Xw(Xw(a, b), Xw(c, d)), Xw(Xw(e, f), Xw(g, h))) == Xw(Xw(Xw(a, e), Xw(b, f)), Xw(Xw(c, g), Xw(d, h)))
  {
    hide Xw;
    WordSwap(Xw(a, b), Xw(c, d), Xw(e, f), Xw(g, h));
    WordSwap(a, b, e, f);
    WordSwap(c, d, g, h);
  }

  lemma WordTurn(a: bv32, b: bv32, c: bv32, d: bv32)
    requires Byte(a) && Byte(b) && Byte(c) && Byte(d)
    ensures ROR8(Word(a, b, c, d)) == Word(d, a, b, c)
  {
  }

  // The four lookups of one word.
  lemma LookupWord(a: bv32, b: bv32, c: bv32, d: bv32)
    requires Byte(a) && Byte(b) && Byte(c) && Byte(d)
    ensures Byte(X3(a, c, d)) && Byte(X3(a, b, d)) && Byte(X3(a, b, c)) && Byte(X3(b, c, d))
    ensures Xw(Xw(Xw(Word(a, a, a, 0), Word(0, b, b, b)), Word(c, 0, c, c)), Word(d, d, 0, d))
         == Word(X3(a, c, d), X3(a, b, d), X3(a, b, c), X3(b, c, d))
  {
    hide Xw, Word, Byte;
    Zero(a); Zero(b);
    XorByte(a, b); XorByte(a, c); XorByte(b, c);
    XorByte(Xw(a, b), c); XorByte(Xw(a, c), d); XorByte(Xw(a, b), d); XorByte(Xw(b, c), d);
    WordXor(a, a, a, 0, 0, b, b, b);
    Zero(Xw(a, b));
    WordXor(a, Xw(a, b), Xw(a, b), b, c, 0, c, c);
    Zero(X3(a, b, c));
    WordXor(Xw(a, c), Xw(a, b), X3(a, b, c), Xw(b, c), d, d, 0, d);
  }

  // What two sums share cancels.
  lemma Shared(p: bv32, q: bv32, c: bv32, x: bv32)
    ensures Xw(Xw(p, q), Xw(c, Xw(x, q))) == Xw(p, Xw(c, x))
  {
    hide Xw;
    WordGroup(c, x, q);
    WordGroup(q, Xw(c, x), q);
    WordGroup(Xw(c, x), q, q);
    WordGroup(p, q, Xw(Xw(c, x), q));
  }

  lemma Sums(a: bv32, b: bv32, c: bv32)
    ensures X3(a, b, c) == Xw(a, Xw(b, c)) == Xw(b, Xw(a, c)) == Xw(c, Xw(a, b))
  {
    hide Xw;
    WordGroup(a, b, c);
    WordGroup(b, a, c);
    WordGroup(Xw(a, b), c, 0);
  }

  // The last half of P on the two lookup sums is P.
  lemma MixIsP(t1: bv32, t2: bv32, t3: bv32, t4: bv32, t5: bv32, t6: bv32, t7: bv32, t8: bv32)
    requires Byte(t1) && Byte(t2) && Byte(t3) && Byte(t4) && Byte(t5) && Byte(t6) && Byte(t7) && Byte(t8)
    ensures Mix(Half(Word(X3(t1, t3, t4), X3(t1, t2, t4), X3(t1, t2, t3), X3(t2, t3, t4)),
                     Word(X3(t8, t6, t7), X3(t8, t5, t7), X3(t8, t5, t6), X3(t5, t6, t7)))) == P(t1, t2, t3, t4, t5, t6, t7, t8)
  {
    hide Xw, Word, Byte, ROR8, X3;
    LookupWord(t1, t2, t3, t4);
    LookupWord(t8, t5, t6, t7);
    var a1, a2, a3, a4 := X3(t1, t3, t4), X3(t1, t2, t4), X3(t1, t2, t3), X3(t2, t3, t4);
    var c1, c2, c3, c4 := X3(t8, t6, t7), X3(t8, t5, t7), X3(t8, t5, t6), X3(t5, t6, t7);
    WordXor(c1, c2, c3, c4, a1, a2, a3, a4);
    WordTurn(a1, a2, a3, a4);
    XorByte(c1, a1); XorByte(c2, a2); XorByte(c3, a3); XorByte(c4, a4);
    WordXor(a4, a1, a2, a3, Xw(c1, a1), Xw(c2, a2), Xw(c3, a3), Xw(c4, a4));
    Sums(t1, t3, t4); Sums(t1, t2, t4); Sums(t1, t2, t3); Sums(t2, t3, t4);
    Shared(t2, Xw(t3, t4), c1, t1);
    Shared(t3, Xw(t1, t4), c2, t2);
    Shared(t4, Xw(t1, t2), c3, t3);
    Shared(t1, Xw(t2, t3), c4, t4);
  }

  // For any S-boxes, the tables and the last half of P compute the F-function.
  lemma TablesComputeF(s: Sboxes, x: Half, k: Half)
    ensures F(TablesOf(s), x, k) == RfcF(s, x, k)
  {
    hide Xw, Word, Byte, Low, Mix, P, X3, Byte1, Byte2, Byte3, Byte4, Xor;
    var v := Xor(x, k);
    var u1, u2, u3, u4 := s.s1(Byte1(v.l)), s.s2(Byte2(v.l)), s.s3(Byte3(v.l)), s.s4(Byte4(v.l));
    var u5, u6, u7, u8 := s.s2(Byte1(v.r)), s.s3(Byte2(v.r)), s.s4(Byte3(v.r)), s.s1(Byte4(v.r));
    LowByte(u1); LowByte(u2); LowByte(u3); LowByte(u4);
    LowByte(u5); LowByte(u6); LowByte(u7); LowByte(u8);
    LookupWord(Low(u1), Low(u2), Low(u3), Low(u4));
    LookupWord(Low(u8), Low(u5), Low(u6), Low(u7));
    hide X3;
    MixIsP(Low(u1), Low(u2), Low(u3), Low(u4), Low(u5), Low(u6), Low(u7), Low(u8));
  }

  // The four bytes of a word, from the top.
  lemma BytesOfWord(x: bv32)
    ensures Word(Byte1(x), Byte2(x), Byte3(x), Byte4(x)) == x
    ensures Byte(Byte1(x)) && Byte(Byte2(x)) && Byte(Byte3(x)) && Byte(Byte4(x))
  {
  }

  // ------------------------------------------------------- the cipher of RFC 3713

  function RfcFOf(s: Sboxes): (Half, Half) -> Half { (x: Half, k: Half) => RfcF(s, x, k) }

  lemma RoundsSame(f: (Half, Half) -> Half, g: (Half, Half) -> Half, sub: seq<Half>, b: nat, d1: Half, d2: Half)
    requires (forall x, k :: f(x, k) == g(x, k)) && 8 * b + 7 < |sub|
    ensures TextRounds(f, sub, b, d1, d2) == TextRounds(g, sub, b, d1, d2)
  {
    hide Xor;
  }

  lemma {:induction false} FromSame(f: (Half, Half) -> Half, g: (Half, Half) -> Half, sub: seq<Half>, n: nat, b: nat,
                                    d1: Half, d2: Half)
    requires (forall x, k :: f(x, k) == g(x, k)) && b < n && 8 * n + 1 < |sub|
    ensures TextFrom(f, sub, n, b, d1, d2) == TextFrom(g, sub, n, b, d1, d2)
    decreases n - b
  {
    hide TextRounds, RfcFL, RfcFLInv;
    RoundsSame(f, g, sub, b, d1, d2);
    if b + 1 < n {
      var (x, y) := TextRounds(f, sub, b, d1, d2);
      FromSame(f, g, sub, n, b + 1, RfcFL(x, sub[8 * b + 8]), RfcFLInv(y, sub[8 * b + 9]));
    }
  }

  // For any S-boxes and subkeys, encryption under the schedule with the code's tables is the
  // cipher of RFC 3713, with its own F, FL and FLINV; decryption takes it back.
  lemma EncryptIsRfc(s: Sboxes, sub: seq<Half>, n: nat, sk: seq<Half>, m1: Half, m2: Half)
    requires n > 0 && 8 * n + 1 < |sub| && Scheduled(sub, n, sk)
    ensures 8 * n < |sk|
    ensures var (e1, e2) := DoEncrypt(TablesOf(s), sk, n, m1, m2); (e2, e1) == Textbook(RfcFOf(s), sub, n, m1, m2)
    ensures var (c1, c2) := Textbook(RfcFOf(s), sub, n, m1, m2); DoDecrypt(TablesOf(s), sk, n, c1, c2) == (m2, m1)
  {
    var f, g := FOf(TablesOf(s)), RfcFOf(s);
    forall x, k ensures f(x, k) == g(x, k) { TablesComputeF(s, x, k); }
    EncryptIsTextbook(TablesOf(s), sub, n, sk, m1, m2);
    DecryptUndoes(TablesOf(s), sk, n, m1, m2);
    FromSame(f, g, sub, n, 0, Xor(m1, sub[0]), Xor(m2, sub[1]));
    hide Scheduled, DoEncrypt, DoDecrypt, TextFrom, TablesOf, FOf, RfcFOf, Xor;
  }
}
