// The Camellia cipher (crypto/camellia.c): its rearranged key schedule and rounds compute the
// cipher of sections 2.3 and 2.4 of RFC 3713, and decryption undoes encryption.
module Camellia {
  import opened Words

  // A 64-bit half of the block, or a subkey, as two words.
  datatype Half = Half(l: bv32, r: bv32)

  // camellia_sp1110, camellia_sp0222, camellia_sp3033 and camellia_sp4404: any tables.
  datatype Tables = Tables(sp1110: bv32 -> bv32, sp0222: bv32 -> bv32, sp3033: bv32 -> bv32, sp4404: bv32 -> bv32)

  function ROR8(x: bv32): bv32 { (x >> 8) + (x << 24) }

  function ROL1(x: bv32): bv32 { (x << 1) + (x >> 31) }

  function ROL8(x: bv32): bv32 { (x << 8) + (x >> 24) }

  function Xor(a: Half, b: Half): Half { Half(Xw(a.l, b.l), Xw(a.r, b.r)) }

  // The bytes of a word from the top.
  function Byte1(x: bv32): bv32 { x >> 24 }

  function Byte2(x: bv32): bv32 { (x >> 16) & 0xff }

  function Byte3(x: bv32): bv32 { (x >> 8) & 0xff }

  function Byte4(x: bv32): bv32 { x & 0xff }

  // ------------------------------------------------------- rounds

  // The table lookups of CAMELLIA_ROUNDSM.
  function Lookup(t: Tables, x: Half): Half {
    Half(Xw(Xw(Xw(t.sp1110(Byte1(x.l)), t.sp0222(Byte2(x.l))), t.sp3033(Byte3(x.l))), t.sp4404(Byte4(x.l))),
         Xw(Xw(Xw(t.sp1110(Byte4(x.r)), t.sp0222(Byte1(x.r))), t.sp3033(Byte2(x.r))), t.sp4404(Byte3(x.r))))
  }

  // The last half of the P-function, which ends CAMELLIA_ROUNDSM and CAMELLIA_F.
  function Mix(u: Half): Half { Half(Xw(u.r, u.l), Xw(ROR8(u.l), Xw(u.r, u.l))) }

  // What the loop at the end of camellia_setup_tail applies to a subkey.
  function Unmix(k: Half): Half { Half(ROL8(Xw(k.l, k.r)), Xw(k.l, ROL8(Xw(k.l, k.r)))) }

  // CAMELLIA_ROUNDSM: the key is added behind the tables.
  function Round(t: Tables, x: Half, k: Half, y: Half): Half { Xor(y, Mix(Xor(Lookup(t, x), k))) }

  // The F-function, section 2.4.1 of RFC 3713, which CAMELLIA_F computes.
  function F(t: Tables, x: Half, k: Half): Half { Mix(Lookup(t, Xor(x, k))) }

  function FOf(t: Tables): (Half, Half) -> Half { (x: Half, k: Half) => F(t, x, k) }

  // CAMELLIA_FLS applies both.
  function FL(x: Half, k: Half): Half {
    var r := Xw(x.r, ROL1(And(x.l, k.l)));
    Half(Xw(x.l, Or(r, k.r)), r)
  }

  function FLInv(y: Half, k: Half): Half {
    var l := Xw(y.l, Or(y.r, k.r));
    Half(l, Xw(y.r, ROL1(And(l, k.l))))
  }

  // How a difference of inputs passes FLINV: the adjustment of an absorbed key.
  function Carry(d: Half, k: Half): Half {
    var l := Xw(d.l, And(d.r, Not(k.r)));
    Half(l, Xw(d.r, ROL1(And(l, k.l))))
  }

  // ------------------------------------------------------- the textbook cipher

  // FL and FLINV of sections 2.4.2 and 2.4.3 of RFC 3713.
  function RfcFL(x: Half, k: Half): Half {
    var r := Xw(TurnLeft(And(x.l, k.l)), x.r);
    Half(Xw(Or(r, k.r), x.l), r)
  }

  function RfcFLInv(y: Half, k: Half): Half {
    var l := Xw(Or(y.r, k.r), y.l);
    Half(l, Xw(TurnLeft(And(l, k.l)), y.r))
  }

  // <<< 1
  function TurnLeft(x: bv32): bv32 { x.RotateLeft(1) }

  // Six rounds of an F-function with the subkeys at 8b + 2 to 8b + 7.
  function TextRounds(f: (Half, Half) -> Half, sub: seq<Half>, b: nat, d1: Half, d2: Half): (Half, Half)
    requires 8 * b + 7 < |sub|
  {
    var y1 := Xor(d2, f(d1, sub[8 * b + 2]));
    var x1 := Xor(d1, f(y1, sub[8 * b + 3]));
    var y2 := Xor(y1, f(x1, sub[8 * b + 4]));
    var x2 := Xor(x1, f(y2, sub[8 * b + 5]));
    var y3 := Xor(y2, f(x2, sub[8 * b + 6]));
    var x3 := Xor(x2, f(y3, sub[8 * b + 7]));
    (x3, y3)
  }

  // Blocks of rounds b to n - 1, with FL and FLINV between them.
  function TextFrom(f: (Half, Half) -> Half, sub: seq<Half>, n: nat, b: nat, d1: Half, d2: Half): (Half, Half)
    requires b < n && 8 * n + 1 < |sub|
    decreases n - b
  {
    var (x, y) := TextRounds(f, sub, b, d1, d2);
    if b + 1 == n then (x, y)
    else TextFrom(f, sub, n, b + 1, RfcFL(x, sub[8 * b + 8]), RfcFLInv(y, sub[8 * b + 9]))
  }

  // Section 2.3 of RFC 3713: kw1 and kw2 are sub[0] and sub[1], kw3 and kw4 the last two.
  function Textbook(f: (Half, Half) -> Half, sub: seq<Half>, n: nat, m1: Half, m2: Half): (Half, Half)
    requires n > 0 && 8 * n + 1 < |sub|
  {
    var (d1, d2) := TextFrom(f, sub, n, 0, Xor(m1, sub[0]), Xor(m2, sub[1]));
    (Xor(d2, sub[8 * n]), Xor(d1, sub[8 * n + 1]))
  }

  // ------------------------------------------------------- the code

  // ROUNDS
  function Rounds(t: Tables, sk: seq<Half>, b: nat, e1: Half, e2: Half): (Half, Half)
    requires 8 * b + 7 < |sk|
  {
    var y1 := Round(t, e1, sk[8 * b + 2], e2);
    var x1 := Round(t, y1, sk[8 * b + 3], e1);
    var y2 := Round(t, x1, sk[8 * b + 4], y1);
    var x2 := Round(t, y2, sk[8 * b + 5], x1);
    var y3 := Round(t, x2, sk[8 * b + 6], y2);
    var x3 := Round(t, y3, sk[8 * b + 7], x2);
    (x3, y3)
  }

  function EncryptFrom(t: Tables, sk: seq<Half>, n: nat, b: nat, e1: Half, e2: Half): (Half, Half)
    requires b < n && 8 * n < |sk|
    decreases n - b
  {
    var (x, y) := Rounds(t, sk, b, e1, e2);
    if b + 1 == n then (x, y)
    else EncryptFrom(t, sk, n, b + 1, FL(x, sk[8 * b + 8]), FLInv(y, sk[8 * b + 9]))
  }

  // camellia_do_encrypt with max = 8n; the caller swaps the halves.
  function DoEncrypt(t: Tables, sk: seq<Half>, n: nat, m1: Half, m2: Half): (Half, Half)
    requires n > 0 && 8 * n < |sk|
  {
    var (e1, e2) := EncryptFrom(t, sk, n, 0, Xor(m1, sk[0]), m2);
    (e1, Xor(e2, sk[8 * n]))
  }

  // ROUNDS of camellia_do_decrypt: the same subkeys from the last to the first.
  function RoundsBack(t: Tables, sk: seq<Half>, b: nat, e1: Half, e2: Half): (Half, Half)
    requires 8 * b + 7 < |sk|
  {
    var y1 := Round(t, e1, sk[8 * b + 7], e2);
    var x1 := Round(t, y1, sk[8 * b + 6], e1);
    var y2 := Round(t, x1, sk[8 * b + 5], y1);
    var x2 := Round(t, y2, sk[8 * b + 4], x1);
    var y3 := Round(t, x2, sk[8 * b + 3], y2);
    var x3 := Round(t, y3, sk[8 * b + 2], x2);
    (x3, y3)
  }

  // Blocks b down to 0.
  function DecryptFrom(t: Tables, sk: seq<Half>, b: nat, e1: Half, e2: Half): (Half, Half)
    requires 8 * b + 7 < |sk|
  {
    var (x, y) := RoundsBack(t, sk, b, e1, e2);
    if b == 0 then (x, y)
    else DecryptFrom(t, sk, b - 1, FL(x, sk[8 * b + 1]), FLInv(y, sk[8 * b]))
  }

  // camellia_do_decrypt
  function DoDecrypt(t: Tables, sk: seq<Half>, n: nat, c1: Half, c2: Half): (Half, Half)
    requires n > 0 && 8 * n < |sk|
  {
    var (e1, e2) := DecryptFrom(t, sk, n - 1, Xor(c1, sk[8 * n]), c2);
    (e1, Xor(e2, sk[0]))
  }

  // ------------------------------------------------------- the schedule

  // kw2 as it has passed the FLINVs before block b.
  function Absorb2(sub: seq<Half>, b: nat): Half
    requires 8 * b + 1 < |sub|
  {
    if b == 0 then sub[1] else Carry(Absorb2(sub, b - 1), sub[8 * b + 1])
  }

  // kw4 as it reaches block b backwards through the FLs behind it.
  function Absorb4(sub: seq<Half>, n: nat, b: nat): Half
    requires b < n && 8 * n + 1 < |sub|
    decreases n - b
  {
    if b + 1 == n then sub[8 * n + 1] else Carry(Absorb4(sub, n, b + 1), sub[8 * b + 8])
  }

  // Subkey 8b + j after kw2 has gone into the keys of the second half and kw4 into those of
  // the first.
  function Absorbed(sub: seq<Half>, n: nat, b: nat, j: nat): Half
    requires b < n && 8 * n + 1 < |sub| && 2 <= j <= 7
  {
    Xor(sub[8 * b + j], if j == 3 || j == 5 || j == 7 then Absorb2(sub, b) else Absorb4(sub, n, b))
  }

  // The key of round 8b + j before the P-function is undone: the key it replaces in the half
  // it changes, and the next one.
  function RoundKey(sub: seq<Half>, n: nat, b: nat, j: nat): Half
    requires b < n && 8 * n + 1 < |sub| && 2 <= j <= 7
  {
    if j == 2 then
      if b == 0 then Absorbed(sub, n, 0, 3)
      else Xor(Carry(Absorbed(sub, n, b - 1, 7), sub[8 * b + 1]), Absorbed(sub, n, b, 3))
    else if j == 7 then
      if b + 1 == n then Absorbed(sub, n, b, 6)
      else Xor(Absorbed(sub, n, b, 6), Carry(Absorbed(sub, n, b + 1, 2), sub[8 * b + 8]))
    else Xor(Absorbed(sub, n, b, j - 1), Absorbed(sub, n, b, j + 1))
  }

  // The keys added before and after the rounds.
  function FirstSubkey(sub: seq<Half>, n: nat): Half
    requires n > 0 && 8 * n + 1 < |sub|
  {
    Xor(Xor(sub[0], Absorb4(sub, n, 0)), Absorbed(sub, n, 0, 2))
  }

  function LastSubkey(sub: seq<Half>, n: nat): Half
    requires n > 0 && 8 * n + 1 < |sub|
  {
    Xor(Xor(sub[8 * n], Absorb2(sub, n - 1)), Absorbed(sub, n, n - 1, 7))
  }

  // SUBKEY as camellia_setup_tail leaves it.
  ghost predicate Scheduled(sub: seq<Half>, n: nat, sk: seq<Half>)
    requires n > 0 && 8 * n + 1 < |sub|
  {
    && 8 * n < |sk| && sk[0] == FirstSubkey(sub, n) && sk[8 * n] == LastSubkey(sub, n)
    && (forall b: nat, j: nat :: b < n && 2 <= j <= 7 ==> sk[8 * b + j] == Unmix(RoundKey(sub, n, b, j)))
    && (forall b: nat :: b + 1 < n ==> sk[8 * b + 8] == sub[8 * b + 8] && sk[8 * b + 9] == sub[8 * b + 9])
  }

  // ------------------------------------------------------- algebra of the pieces

  // Facts about words.
  lemma RotateLinear(a: bv32, b: bv32)
    ensures ROR8(Xw(a, b)) == Xw(ROR8(a), ROR8(b))
    ensures ROL1(Xw(a, b)) == Xw(ROL1(a), ROL1(b))
  {
  }

  lemma RotateBack(a: bv32)
    ensures ROR8(ROL8(a)) == a
  {
  }

  lemma MixIsLinear(a: Half, b: Half)
    ensures Mix(Xor(a, b)) == Xor(Mix(a), Mix(b))
  {
    hide Xw, ROR8;
    RotateLinear(a.l, b.l);
    WordSwap(a.r, b.r, a.l, b.l);
    WordSwap(ROR8(a.l), ROR8(b.l), Xw(a.r, a.l), Xw(b.r, b.l));
  }

  lemma MixUnmix(k: Half)
    ensures Mix(Unmix(k)) == k
  {
    hide Xw, ROR8, ROL8;
    var u := ROL8(Xw(k.l, k.r));
    RotateBack(Xw(k.l, k.r));
    WordGroup(k.l, u, 0);
    WordGroup(Xw(k.l, k.r), k.l, 0);
    WordGroup(k.l, k.r, k.l);
    WordGroup(k.r, k.l, k.l);
  }

  lemma CarryIsLinear(a: Half, b: Half, k: Half)
    ensures Carry(Xor(a, b), k) == Xor(Carry(a, k), Carry(b, k))
  {
    hide Xw, And, Or, Not, ROL1;
    var x, y := Carry(a, k).l, Carry(b, k).l;
    AndLinear(a.r, b.r, Not(k.r));
    WordSwap(a.l, b.l, And(a.r, Not(k.r)), And(b.r, Not(k.r)));
    AndLinear(x, y, k.l);
    RotateLinear(And(x, k.l), And(y, k.l));
    WordSwap(a.r, b.r, ROL1(And(x, k.l)), ROL1(And(y, k.l)));
  }

  lemma FLInvCarries(y: Half, d: Half, k: Half)
    ensures FLInv(Xor(y, d), k) == Xor(FLInv(y, k), Carry(d, k))
  {
    hide Xw, And, Or, Not, ROL1;
    var l, c := FLInv(y, k).l, Carry(d, k).l;
    OrSplits(y.r, d.r, k.r);
    WordSwap(y.l, d.l, Or(y.r, k.r), And(d.r, Not(k.r)));
    AndLinear(l, c, k.l);
    RotateLinear(And(l, k.l), And(c, k.l));
    WordSwap(y.r, d.r, ROL1(And(l, k.l)), ROL1(And(c, k.l)));
  }

  lemma FLRoundTrip(x: Half, k: Half)
    ensures FL(FLInv(x, k), k) == x && FLInv(FL(x, k), k) == x
  {
    hide Xw, And, Or, Not, ROL1;
    WordGroup(x.r, ROL1(And(FLInv(x, k).l, k.l)), 0);
    WordGroup(x.l, Or(x.r, k.r), 0);
    WordGroup(x.l, Or(FL(x, k).r, k.r), 0);
    WordGroup(x.r, ROL1(And(x.l, k.l)), 0);
  }

  // A difference that FLINV carries forward is one that FL carries back.
  lemma FLCarriesBack(x: Half, d: Half, k: Half)
    ensures FL(Xor(x, Carry(d, k)), k) == Xor(FL(x, k), d)
  {
    hide FL, FLInv, Carry, Xor;
    FLInvCarries(FL(x, k), d, k);
    FLRoundTrip(x, k);
    FLRoundTrip(Xor(FL(x, k), d), k);
  }

  lemma Group(a: Half, b: Half, c: Half)
    ensures Xor(a, b) == Xor(b, a) && Xor(Xor(a, b), c) == Xor(a, Xor(b, c))
    ensures Xor(a, Xor(a, b)) == b
  {
    hide Xw;
    WordGroup(a.l, b.l, c.l);
    WordGroup(a.r, b.r, c.r);
  }

  // A round with an unmixed key adds the key behind the whole F-function.
  lemma RoundAddsKey(t: Tables, x: Half, k: Half, y: Half)
    ensures Round(t, x, Unmix(k), y) == Xor(y, Xor(Mix(Lookup(t, x)), k))
  {
    hide Mix, Unmix, Lookup, Xor;
    MixIsLinear(Lookup(t, x), Unmix(k));
    MixUnmix(k);
  }

  // The half that is changed carries the key of the round that will use it: the old key o is
  // replaced by the new key k.
  lemma RoundShifts(t: Tables, x: Half, kx: Half, y: Half, o: Half, k: Half)
    ensures Round(t, Xor(x, kx), Unmix(Xor(o, k)), Xor(y, o)) == Xor(Xor(y, F(t, x, kx)), k)
  {
    hide Mix, Unmix, Lookup, Xor, Round;
    RoundAddsKey(t, Xor(x, kx), Xor(o, k), Xor(y, o));
    var f := F(t, x, kx);
    assert f == Mix(Lookup(t, Xor(x, kx)));
    Exchange(y, f, o, k);
  }

  lemma Exchange(y: Half, f: Half, o: Half, k: Half)
    ensures Xor(Xor(y, o), Xor(f, Xor(o, k))) == Xor(Xor(y, f), k)
  {
    hide Xor;
    Group(f, Xor(o, k), y);
    Group(o, k, f);
    Group(y, o, Xor(f, Xor(o, k)));
    Group(o, Xor(k, f), y);
    Group(k, f, y);
    Group(y, f, k);
  }

  // ------------------------------------------------------- encryption is the textbook cipher

  // The key mixed into the second half before block b: kw2, or the last key of the block
  // before, carried through FLINV.
  function Behind(sub: seq<Half>, b: nat): Half
    requires 8 * b + 1 < |sub|
  {
    if b == 0 then sub[1] else Carry(sub[8 * b - 1], sub[8 * b + 1])
  }

  // The key mixed into the first half after block b: kw4, or the first key of the next block,
  // carried back through FL.
  function Ahead(sub: seq<Half>, n: nat, b: nat): Half
    requires b < n && 8 * n + 1 < |sub|
  {
    if b + 1 == n then sub[8 * n + 1] else Carry(sub[8 * b + 10], sub[8 * b + 8])
  }

  lemma CancelSame(a: Half, w: Half, b: Half)
    ensures Xor(Xor(a, w), Xor(b, w)) == Xor(a, b)
  {
    hide Xor;
    Group(b, w, w);
    Group(a, w, Xor(w, b));
    Group(w, b, b);
  }

  // Whatever was absorbed has gone again from the key of a round: the old key and the new.
  lemma MiddleKey(sub: seq<Half>, n: nat, b: nat, j: nat)
    requires b < n && 8 * n + 1 < |sub| && 3 <= j <= 6
    ensures RoundKey(sub, n, b, j) == Xor(sub[8 * b + j - 1], sub[8 * b + j + 1])
  {
    hide Xor, Carry, Absorb2, Absorb4;
    CancelSame(sub[8 * b + j - 1], Absorb2(sub, b), sub[8 * b + j + 1]);
    CancelSame(sub[8 * b + j - 1], Absorb4(sub, n, b), sub[8 * b + j + 1]);
  }

  lemma FirstKey(sub: seq<Half>, n: nat, b: nat)
    requires b < n && 8 * n + 1 < |sub|
    ensures RoundKey(sub, n, b, 2) == Xor(Behind(sub, b), sub[8 * b + 3])
  {
    hide Xor, Carry, Absorb4;
    if b == 0 {
      Group(sub[3], sub[1], sub[1]);
    } else {
      var c := sub[8 * b + 1];
      CarryIsLinear(sub[8 * b - 1], Absorb2(sub, b - 1), c);
      CancelSame(Carry(sub[8 * b - 1], c), Absorb2(sub, b), sub[8 * b + 3]);
    }
  }

  lemma LastKey(sub: seq<Half>, n: nat, b: nat)
    requires b < n && 8 * n + 1 < |sub|
    ensures RoundKey(sub, n, b, 7) == Xor(sub[8 * b + 6], Ahead(sub, n, b))
  {
    hide Xor, Carry, Absorb2;
    if b + 1 < n {
      var a := sub[8 * b + 8];
      CarryIsLinear(sub[8 * b + 10], Absorb4(sub, n, b + 1), a);
      CancelSame(sub[8 * b + 6], Absorb4(sub, n, b), Carry(sub[8 * b + 10], a));
    }
  }

  // The six keys of block b in the code's table.
  ghost predicate BlockKeys(sub: seq<Half>, n: nat, sk: seq<Half>, b: nat)
    requires b < n && 8 * n + 1 < |sub| && 8 * n < |sk|
  {
    && sk[8 * b + 2] == Unmix(Xor(Behind(sub, b), sub[8 * b + 3]))
    && sk[8 * b + 3] == Unmix(Xor(sub[8 * b + 2], sub[8 * b + 4]))
    && sk[8 * b + 4] == Unmix(Xor(sub[8 * b + 3], sub[8 * b + 5]))
    && sk[8 * b + 5] == Unmix(Xor(sub[8 * b + 4], sub[8 * b + 6]))
    && sk[8 * b + 6] == Unmix(Xor(sub[8 * b + 5], sub[8 * b + 7]))
    && sk[8 * b + 7] == Unmix(Xor(sub[8 * b + 6], Ahead(sub, n, b)))
  }

  lemma ScheduledBlock(sub: seq<Half>, n: nat, sk: seq<Half>, b: nat)
    requires b < n && 8 * n + 1 < |sub| && Scheduled(sub, n, sk)
    ensures BlockKeys(sub, n, sk, b)
  {
    FirstKey(sub, n, b);
    MiddleKey(sub, n, b, 3);
    MiddleKey(sub, n, b, 4);
    MiddleKey(sub, n, b, 5);
    MiddleKey(sub, n, b, 6);
    LastKey(sub, n, b);
    hide RoundKey, Unmix, Xor, Behind, Ahead, FirstSubkey, LastSubkey;
  }

  lemma BlockIsText(t: Tables, sub: seq<Half>, n: nat, sk: seq<Half>, b: nat, d1: Half, d2: Half)
    requires b < n && 8 * n + 1 < |sub| && 8 * n < |sk| && BlockKeys(sub, n, sk, b)
    ensures var (x, y) := TextRounds(FOf(t), sub, b, d1, d2);
            Rounds(t, sk, b, Xor(d1, sub[8 * b + 2]), Xor(d2, Behind(sub, b))) == (Xor(x, Ahead(sub, n, b)), Xor(y, sub[8 * b + 7]))
  {
    hide Xor, Round, F, Unmix, Behind, Ahead;
    var o, q := Behind(sub, b), Ahead(sub, n, b);
    var y1 := Xor(d2, F(t, d1, sub[8 * b + 2]));
    var x1 := Xor(d1, F(t, y1, sub[8 * b + 3]));
    var y2 := Xor(y1, F(t, x1, sub[8 * b + 4]));
    var x2 := Xor(x1, F(t, y2, sub[8 * b + 5]));
    var y3 := Xor(y2, F(t, x2, sub[8 * b + 6]));
    RoundShifts(t, d1, sub[8 * b + 2], d2, o, sub[8 * b + 3]);
    RoundShifts(t, y1, sub[8 * b + 3], d1, sub[8 * b + 2], sub[8 * b + 4]);
    RoundShifts(t, x1, sub[8 * b + 4], y1, sub[8 * b + 3], sub[8 * b + 5]);
    RoundShifts(t, y2, sub[8 * b + 5], x1, sub[8 * b + 4], sub[8 * b + 6]);
    RoundShifts(t, x2, sub[8 * b + 6], y2, sub[8 * b + 5], sub[8 * b + 7]);
    RoundShifts(t, y3, sub[8 * b + 7], x2, sub[8 * b + 6], q);
  }

  // Between two blocks.
  lemma BetweenBlocks(sub: seq<Half>, n: nat, sk: seq<Half>, b: nat, x: Half, y: Half)
    requires b + 1 < n && 8 * n + 1 < |sub| && Scheduled(sub, n, sk)
    ensures FL(Xor(x, Ahead(sub, n, b)), sk[8 * b + 8]) == Xor(FL(x, sub[8 * b + 8]), sub[8 * (b + 1) + 2])
    ensures FLInv(Xor(y, sub[8 * b + 7]), sk[8 * b + 9]) == Xor(FLInv(y, sub[8 * b + 9]), Behind(sub, b + 1))
  {
    hide Xor, FL, FLInv, Carry, RoundKey, FirstSubkey, LastSubkey, Unmix;
    FLCarriesBack(x, sub[8 * b + 10], sub[8 * b + 8]);
    FLInvCarries(y, sub[8 * b + 7], sub[8 * b + 9]);
  }

  lemma RotateIsTurn(x: bv32)
    ensures ROL1(x) == TurnLeft(x)
  {
  }

  // FL and FLINV of the code are those of the standard.
  lemma FLIsRfc(x: Half, k: Half)
    ensures FL(x, k) == RfcFL(x, k) && FLInv(x, k) == RfcFLInv(x, k)
  {
    hide Xw, And, Or, ROL1, TurnLeft;
    RotateIsTurn(And(x.l, k.l));
    WordGroup(x.r, ROL1(And(x.l, k.l)), 0);
    WordGroup(x.l, Or(FL(x, k).r, k.r), 0);
    WordGroup(x.l, Or(x.r, k.r), 0);
    RotateIsTurn(And(FLInv(x, k).l, k.l));
    WordGroup(x.r, ROL1(And(FLInv(x, k).l, k.l)), 0);
  }

  lemma FromStep(t: Tables, k: seq<Half>, n: nat, b: nat, d1: Half, d2: Half)
    requires b < n && 8 * n < |k|
    ensures var (x, y) := Rounds(t, k, b, d1, d2);
            EncryptFrom(t, k, n, b, d1, d2)
              == if b + 1 == n then (x, y) else EncryptFrom(t, k, n, b + 1, FL(x, k[8 * b + 8]), FLInv(y, k[8 * b + 9]))
    ensures 8 * n + 1 < |k| ==>
              var (x, y) := TextRounds(FOf(t), k, b, d1, d2);
              TextFrom(FOf(t), k, n, b, d1, d2)
                == if b + 1 == n then (x, y) else TextFrom(FOf(t), k, n, b + 1, FL(x, k[8 * b + 8]), FLInv(y, k[8 * b + 9]))
  {
    hide Rounds, TextRounds, FL, FLInv, RfcFL, RfcFLInv;
    if 8 * n + 1 < |k| && b + 1 < n {
      var (x, y) := TextRounds(FOf(t), k, b, d1, d2);
      FLIsRfc(x, k[8 * b + 8]);
      FLIsRfc(y, k[8 * b + 9]);
    }
  }

  lemma AheadAtEnd(sub: seq<Half>, n: nat, b: nat)
    requires b < n && 8 * n + 1 < |sub|
    ensures b + 1 == n ==> Ahead(sub, n, b) == sub[8 * n + 1] && sub[8 * b + 7] == sub[8 * n - 1]
  {
  }

  // One block of both ciphers, up to where the next begins.
  lemma NextText(t: Tables, sub: seq<Half>, n: nat, sk: seq<Half>, b: nat, d1: Half, d2: Half)
    requires b + 1 < n && 8 * n + 1 < |sub| && Scheduled(sub, n, sk) && 8 * n < |sk|
    ensures var (x, y) := TextRounds(FOf(t), sub, b, d1, d2);
            var (e1, e2) := (FL(x, sub[8 * b + 8]), FLInv(y, sub[8 * b + 9]));
            && TextFrom(FOf(t), sub, n, b, d1, d2) == TextFrom(FOf(t), sub, n, b + 1, e1, e2)
            && EncryptFrom(t, sk, n, b, Xor(d1, sub[8 * b + 2]), Xor(d2, Behind(sub, b)))
               == EncryptFrom(t, sk, n, b + 1, Xor(e1, sub[8 * (b + 1) + 2]), Xor(e2, Behind(sub, b + 1)))
  {
    hide *;
    ScheduledBlock(sub, n, sk, b);
    BlockIsText(t, sub, n, sk, b, d1, d2);
    FromStep(t, sub, n, b, d1, d2);
    FromStep(t, sk, n, b, Xor(d1, sub[8 * b + 2]), Xor(d2, Behind(sub, b)));
    var (x, y) := TextRounds(FOf(t), sub, b, d1, d2);
    BetweenBlocks(sub, n, sk, b, x, y);
  }

  lemma LastText(t: Tables, sub: seq<Half>, n: nat, sk: seq<Half>, b: nat, d1: Half, d2: Half)
    requires b + 1 == n && 8 * n + 1 < |sub| && Scheduled(sub, n, sk) && 8 * n < |sk|
    ensures var (x, y) := TextFrom(FOf(t), sub, n, b, d1, d2);
            EncryptFrom(t, sk, n, b, Xor(d1, sub[8 * b + 2]), Xor(d2, Behind(sub, b)))
              == (Xor(x, sub[8 * n + 1]), Xor(y, sub[8 * n - 1]))
  {
    hide *;
    ScheduledBlock(sub, n, sk, b);
    BlockIsText(t, sub, n, sk, b, d1, d2);
    FromStep(t, sub, n, b, d1, d2);
    FromStep(t, sk, n, b, Xor(d1, sub[8 * b + 2]), Xor(d2, Behind(sub, b)));
    AheadAtEnd(sub, n, b);
  }

  lemma {:induction false} FromIsText(t: Tables, sub: seq<Half>, n: nat, sk: seq<Half>, b: nat, d1: Half, d2: Half)
    requires b < n && 8 * n + 1 < |sub| && Scheduled(sub, n, sk) && 8 * n < |sk|
    ensures var (x, y) := TextFrom(FOf(t), sub, n, b, d1, d2);
            EncryptFrom(t, sk, n, b, Xor(d1, sub[8 * b + 2]), Xor(d2, Behind(sub, b)))
              == (Xor(x, sub[8 * n + 1]), Xor(y, sub[8 * n - 1]))
    decreases n - b
  {
    hide *;
    if b + 1 == n {
      LastText(t, sub, n, sk, b, d1, d2);
    } else {
      NextText(t, sub, n, sk, b, d1, d2);
      var (x, y) := TextRounds(FOf(t), sub, b, d1, d2);
      FromIsText(t, sub, n, sk, b + 1, FL(x, sub[8 * b + 8]), FLInv(y, sub[8 * b + 9]));
    }
  }

  lemma ScheduledLength(sub: seq<Half>, n: nat, sk: seq<Half>)
    requires n > 0 && 8 * n + 1 < |sub| && Scheduled(sub, n, sk)
    ensures 8 * n < |sk| && sk[0] == Xor(sub[0], sub[2]) && sk[8 * n] == Xor(sub[8 * n], sub[8 * n - 1])
  {
    hide Xor, RoundKey, Unmix, Absorb2, Absorb4;
    CancelSame(sub[0], Absorb4(sub, n, 0), sub[2]);
    CancelSame(sub[8 * n], Absorb2(sub, n - 1), sub[8 * n - 1]);
  }

  // With any tables and subkeys, encryption under the schedule computes the two halves of the
  // textbook ciphertext, in the places the caller then swaps.
  lemma EncryptIsTextbook(t: Tables, sub: seq<Half>, n: nat, sk: seq<Half>, m1: Half, m2: Half)
    requires n > 0 && 8 * n + 1 < |sub| && Scheduled(sub, n, sk)
    ensures 8 * n < |sk|
    ensures var (e1, e2) := DoEncrypt(t, sk, n, m1, m2); (e2, e1) == Textbook(FOf(t), sub, n, m1, m2)
  {
    hide TextFrom, EncryptFrom, Xor, Scheduled;
    var d1, d2 := Xor(m1, sub[0]), Xor(m2, sub[1]);
    ScheduledLength(sub, n, sk);
    FromIsText(t, sub, n, sk, 0, d1, d2);
    Group(m1, sub[0], sub[2]);
    UndoTwice(m2, sub[1]);
    var (x, y) := TextFrom(FOf(t), sub, n, 0, d1, d2);
    CancelSame(y, sub[8 * n - 1], sub[8 * n]);
  }

  lemma UndoTwice(a: Half, b: Half)
    ensures Xor(Xor(a, b), b) == a
  {
    hide Xor;
    Group(b, a, b);
    Group(Xor(a, b), b, b);
  }

  // ------------------------------------------------------- decryption

  lemma RoundTwice(t: Tables, x: Half, k: Half, y: Half)
    ensures Round(t, x, k, Round(t, x, k, y)) == y
  {
    hide Xor, Mix, Lookup;
    UndoTwice(y, Mix(Xor(Lookup(t, x), k)));
  }

  lemma RoundsUndone(t: Tables, sk: seq<Half>, b: nat, e1: Half, e2: Half)
    requires 8 * b + 7 < |sk|
    ensures var (x, y) := Rounds(t, sk, b, e1, e2); RoundsBack(t, sk, b, y, x) == (e2, e1)
  {
    hide Round;
    var y1 := Round(t, e1, sk[8 * b + 2], e2);
    var x1 := Round(t, y1, sk[8 * b + 3], e1);
    var y2 := Round(t, x1, sk[8 * b + 4], y1);
    var x2 := Round(t, y2, sk[8 * b + 5], x1);
    var y3 := Round(t, x2, sk[8 * b + 6], y2);
    RoundTwice(t, e1, sk[8 * b + 2], e2);
    RoundTwice(t, y1, sk[8 * b + 3], e1);
    RoundTwice(t, x1, sk[8 * b + 4], y1);
    RoundTwice(t, y2, sk[8 * b + 5], x1);
    RoundTwice(t, x2, sk[8 * b + 6], y2);
    RoundTwice(t, y3, sk[8 * b + 7], x2);
  }

  // Decrypting from the last block undoes the blocks from b on.
  lemma {:induction false} BlocksUndone(t: Tables, sk: seq<Half>, n: nat, b: nat, e1: Half, e2: Half)
    requires b < n && 8 * n < |sk|
    ensures var (x, y) := EncryptFrom(t, sk, n, b, e1, e2);
            DecryptFrom(t, sk, n - 1, y, x)
              == if b == 0 then (e2, e1) else DecryptFrom(t, sk, b - 1, FL(e2, sk[8 * b + 1]), FLInv(e1, sk[8 * b]))
    decreases n - b
  {
    hide Rounds, RoundsBack, FL, FLInv;
    RoundsUndone(t, sk, b, e1, e2);
    var (x, y) := Rounds(t, sk, b, e1, e2);
    if b + 1 < n {
      BlocksUndone(t, sk, n, b + 1, FL(x, sk[8 * b + 8]), FLInv(y, sk[8 * b + 9]));
      FLRoundTrip(y, sk[8 * b + 9]);
      FLRoundTrip(x, sk[8 * b + 8]);
    }
  }

  // For any subkey table at all, decryption of the swapped result, swapped again, is the plaintext.
  lemma DecryptUndoes(t: Tables, sk: seq<Half>, n: nat, m1: Half, m2: Half)
    requires n > 0 && 8 * n < |sk|
    ensures var (e1, e2) := DoEncrypt(t, sk, n, m1, m2); DoDecrypt(t, sk, n, e2, e1) == (m2, m1)
  {
    hide EncryptFrom, DecryptFrom, Xor;
    BlocksUndone(t, sk, n, 0, Xor(m1, sk[0]), m2);
    var (x, y) := EncryptFrom(t, sk, n, 0, Xor(m1, sk[0]), m2);
    UndoTwice(y, sk[8 * n]);
    UndoTwice(m1, sk[0]);
  }
}
