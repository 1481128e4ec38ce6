// AES (crypto/aes_generic.c): table rounds and the word-parallel key mixing are the byte-level
// rounds of FIPS 197, and the equivalent inverse cipher undoes encryption.
module Aes {
  import opened Gf

  // A word by its bytes, the least significant first, as le32_to_cpu loads it.
  datatype Word = Word(b0: bv8, b1: bv8, b2: bv8, b3: bv8)

  // The state by columns.
  datatype State = State(c0: Word, c1: Word, c2: Word, c3: Word)

  // The S-box and its inverse: sbx_tab and isb_tab.
  datatype Sbox = Sbox(f: bv8 -> bv8, g: bv8 -> bv8)

  ghost predicate Bijection(s: Sbox) {
    (forall b :: s.g(s.f(b)) == b) && (forall b :: s.f(s.g(b)) == b)
  }

  function Xor(a: Word, b: Word): Word { Word(X(a.b0, b.b0), X(a.b1, b.b1), X(a.b2, b.b2), X(a.b3, b.b3)) }

  function AddRoundKey(s: State, k: State): State { State(Xor(s.c0, k.c0), Xor(s.c1, k.c1), Xor(s.c2, k.c2), Xor(s.c3, k.c3)) }

  // ------------------------------------------------------- rounds by bytes (FIPS 197)

  function SubWord(f: bv8 -> bv8, w: Word): Word { Word(f(w.b0), f(w.b1), f(w.b2), f(w.b3)) }

  function SubBytes(f: bv8 -> bv8, s: State): State {
    State(SubWord(f, s.c0), SubWord(f, s.c1), SubWord(f, s.c2), SubWord(f, s.c3))
  }

  // Row r moves r columns.
  function ShiftRows(s: State): State {
    State(Word(s.c0.b0, s.c1.b1, s.c2.b2, s.c3.b3), Word(s.c1.b0, s.c2.b1, s.c3.b2, s.c0.b3),
          Word(s.c2.b0, s.c3.b1, s.c0.b2, s.c1.b3), Word(s.c3.b0, s.c0.b1, s.c1.b2, s.c2.b3))
  }

  function InvShiftRows(s: State): State {
    State(Word(s.c0.b0, s.c3.b1, s.c2.b2, s.c1.b3), Word(s.c1.b0, s.c0.b1, s.c3.b2, s.c2.b3),
          Word(s.c2.b0, s.c1.b1, s.c0.b2, s.c3.b3), Word(s.c3.b0, s.c2.b1, s.c1.b2, s.c0.b3))
  }

  function MixColumn(w: Word): Word {
    Word(Sum4(Dbl(w.b0), M3(w.b1), w.b2, w.b3), Sum4(w.b0, Dbl(w.b1), M3(w.b2), w.b3),
         Sum4(w.b0, w.b1, Dbl(w.b2), M3(w.b3)), Sum4(M3(w.b0), w.b1, w.b2, Dbl(w.b3)))
  }

  function InvMixColumn(w: Word): Word {
    Word(Sum4(M14(w.b0), M11(w.b1), M13(w.b2), M9(w.b3)), Sum4(M9(w.b0), M14(w.b1), M11(w.b2), M13(w.b3)),
         Sum4(M13(w.b0), M9(w.b1), M14(w.b2), M11(w.b3)), Sum4(M11(w.b0), M13(w.b1), M9(w.b2), M14(w.b3)))
  }

  function MixColumns(s: State): State { State(MixColumn(s.c0), MixColumn(s.c1), MixColumn(s.c2), MixColumn(s.c3)) }

  function InvMixColumns(s: State): State {
    State(InvMixColumn(s.c0), InvMixColumn(s.c1), InvMixColumn(s.c2), InvMixColumn(s.c3))
  }

  // ------------------------------------------------------- rounds by tables

  // rol32(t, 8), rol32(t, 16) and rol32(t, 24): the columns of the tables from gen_tabs.
  function Rol(t: Word): Word { Word(t.b3, t.b0, t.b1, t.b2) }

  function Ft(s: Sbox, i: nat, b: bv8): Word
    requires i < 4
  {
    var p := s.f(b);
    if i == 0 then Word(Dbl(p), p, p, M3(p)) else Rol(Ft(s, i - 1, b))
  }

  function Fl(s: Sbox, i: nat, b: bv8): Word
    requires i < 4
  {
    if i == 0 then Word(s.f(b), 0, 0, 0) else Rol(Fl(s, i - 1, b))
  }

  function It(s: Sbox, i: nat, b: bv8): Word
    requires i < 4
  {
    var p := s.g(b);
    if i == 0 then Word(M14(p), M9(p), M13(p), M11(p)) else Rol(It(s, i - 1, b))
  }

  function Il(s: Sbox, i: nat, b: bv8): Word
    requires i < 4
  {
    if i == 0 then Word(s.g(b), 0, 0, 0) else Rol(Il(s, i - 1, b))
  }

  // The four lookups and the key of f_rn, f_rl, i_rn and i_rl.
  function Lookup(t0: Word, t1: Word, t2: Word, t3: Word, k: Word): Word { Xor(Xor(Xor(Xor(t0, t1), t2), t3), k) }

  // f_nround
  function ForwardRound(s: Sbox, a: State, k: State): State {
    State(Lookup(Ft(s, 0, a.c0.b0), Ft(s, 1, a.c1.b1), Ft(s, 2, a.c2.b2), Ft(s, 3, a.c3.b3), k.c0),
          Lookup(Ft(s, 0, a.c1.b0), Ft(s, 1, a.c2.b1), Ft(s, 2, a.c3.b2), Ft(s, 3, a.c0.b3), k.c1),
          Lookup(Ft(s, 0, a.c2.b0), Ft(s, 1, a.c3.b1), Ft(s, 2, a.c0.b2), Ft(s, 3, a.c1.b3), k.c2),
          Lookup(Ft(s, 0, a.c3.b0), Ft(s, 1, a.c0.b1), Ft(s, 2, a.c1.b2), Ft(s, 3, a.c2.b3), k.c3))
  }

  // f_lround
  function ForwardLast(s: Sbox, a: State, k: State): State {
    State(Lookup(Fl(s, 0, a.c0.b0), Fl(s, 1, a.c1.b1), Fl(s, 2, a.c2.b2), Fl(s, 3, a.c3.b3), k.c0),
          Lookup(Fl(s, 0, a.c1.b0), Fl(s, 1, a.c2.b1), Fl(s, 2, a.c3.b2), Fl(s, 3, a.c0.b3), k.c1),
          Lookup(Fl(s, 0, a.c2.b0), Fl(s, 1, a.c3.b1), Fl(s, 2, a.c0.b2), Fl(s, 3, a.c1.b3), k.c2),
          Lookup(Fl(s, 0, a.c3.b0), Fl(s, 1, a.c0.b1), Fl(s, 2, a.c1.b2), Fl(s, 3, a.c2.b3), k.c3))
  }

  // i_nround
  function InverseRound(s: Sbox, a: State, k: State): State {
    State(Lookup(It(s, 0, a.c0.b0), It(s, 1, a.c3.b1), It(s, 2, a.c2.b2), It(s, 3, a.c1.b3), k.c0),
          Lookup(It(s, 0, a.c1.b0), It(s, 1, a.c0.b1), It(s, 2, a.c3.b2), It(s, 3, a.c2.b3), k.c1),
          Lookup(It(s, 0, a.c2.b0), It(s, 1, a.c1.b1), It(s, 2, a.c0.b2), It(s, 3, a.c3.b3), k.c2),
          Lookup(It(s, 0, a.c3.b0), It(s, 1, a.c2.b1), It(s, 2, a.c1.b2), It(s, 3, a.c0.b3), k.c3))
  }

  // i_lround
  function InverseLast(s: Sbox, a: State, k: State): State {
    State(Lookup(Il(s, 0, a.c0.b0), Il(s, 1, a.c3.b1), Il(s, 2, a.c2.b2), Il(s, 3, a.c1.b3), k.c0),
          Lookup(Il(s, 0, a.c1.b0), Il(s, 1, a.c0.b1), Il(s, 2, a.c3.b2), Il(s, 3, a.c2.b3), k.c1),
          Lookup(Il(s, 0, a.c2.b0), Il(s, 1, a.c1.b1), Il(s, 2, a.c0.b2), Il(s, 3, a.c3.b3), k.c2),
          Lookup(Il(s, 0, a.c3.b0), Il(s, 1, a.c2.b1), Il(s, 2, a.c1.b2), Il(s, 3, a.c0.b3), k.c3))
  }

  // ------------------------------------------------------- tables are bytes

  lemma FtRows(s: Sbox, b: bv8)
    ensures var p := s.f(b);
            && Ft(s, 0, b) == Word(Dbl(p), p, p, M3(p)) && Ft(s, 1, b) == Word(M3(p), Dbl(p), p, p)
            && Ft(s, 2, b) == Word(p, M3(p), Dbl(p), p) && Ft(s, 3, b) == Word(p, p, M3(p), Dbl(p))
  {
    hide X, Dbl;
    assert Ft(s, 1, b) == Rol(Ft(s, 0, b)) && Ft(s, 2, b) == Rol(Ft(s, 1, b)) && Ft(s, 3, b) == Rol(Ft(s, 2, b));
  }

  lemma ItRows(s: Sbox, b: bv8)
    ensures var p := s.g(b);
            && It(s, 0, b) == Word(M14(p), M9(p), M13(p), M11(p)) && It(s, 1, b) == Word(M11(p), M14(p), M9(p), M13(p))
            && It(s, 2, b) == Word(M13(p), M11(p), M14(p), M9(p)) && It(s, 3, b) == Word(M9(p), M13(p), M11(p), M14(p))
  {
    hide M9, M11, M13, M14;
    assert It(s, 1, b) == Rol(It(s, 0, b)) && It(s, 2, b) == Rol(It(s, 1, b)) && It(s, 3, b) == Rol(It(s, 2, b));
  }

  lemma FlRows(s: Sbox, b: bv8)
    ensures Fl(s, 0, b) == Word(s.f(b), 0, 0, 0) && Fl(s, 1, b) == Word(0, s.f(b), 0, 0)
    ensures Fl(s, 2, b) == Word(0, 0, s.f(b), 0) && Fl(s, 3, b) == Word(0, 0, 0, s.f(b))
    ensures Il(s, 0, b) == Word(s.g(b), 0, 0, 0) && Il(s, 1, b) == Word(0, s.g(b), 0, 0)
    ensures Il(s, 2, b) == Word(0, 0, s.g(b), 0) && Il(s, 3, b) == Word(0, 0, 0, s.g(b))
  {
    assert Fl(s, 1, b) == Rol(Fl(s, 0, b)) && Fl(s, 2, b) == Rol(Fl(s, 1, b)) && Fl(s, 3, b) == Rol(Fl(s, 2, b));
    assert Il(s, 1, b) == Rol(Il(s, 0, b)) && Il(s, 2, b) == Rol(Il(s, 1, b)) && Il(s, 3, b) == Rol(Il(s, 2, b));
  }

  lemma FtColumn(s: Sbox, w: Word, k: Word)
    ensures Lookup(Ft(s, 0, w.b0), Ft(s, 1, w.b1), Ft(s, 2, w.b2), Ft(s, 3, w.b3), k) == Xor(MixColumn(SubWord(s.f, w)), k)
  {
    hide X, Dbl, M3, Ft;
    FtRows(s, w.b0); FtRows(s, w.b1); FtRows(s, w.b2); FtRows(s, w.b3);
  }

  lemma ItColumn(s: Sbox, w: Word, k: Word)
    ensures Lookup(It(s, 0, w.b0), It(s, 1, w.b1), It(s, 2, w.b2), It(s, 3, w.b3), k) == Xor(InvMixColumn(SubWord(s.g, w)), k)
  {
    hide X, M9, M11, M13, M14, It;
    ItRows(s, w.b0); ItRows(s, w.b1); ItRows(s, w.b2); ItRows(s, w.b3);
  }

  lemma XZero(a: bv8)
    ensures X(a, 0) == a && X(0, a) == a && X(0, 0) == 0
  {
  }

  lemma Spread(a: bv8, b: bv8, c: bv8, d: bv8)
    ensures Xor(Xor(Xor(Word(a, 0, 0, 0), Word(0, b, 0, 0)), Word(0, 0, c, 0)), Word(0, 0, 0, d)) == Word(a, b, c, d)
  {
    hide X;
    XZero(a); XZero(b); XZero(c); XZero(d);
  }

  lemma FlColumn(s: Sbox, w: Word, k: Word)
    ensures Lookup(Fl(s, 0, w.b0), Fl(s, 1, w.b1), Fl(s, 2, w.b2), Fl(s, 3, w.b3), k) == Xor(SubWord(s.f, w), k)
    ensures Lookup(Il(s, 0, w.b0), Il(s, 1, w.b1), Il(s, 2, w.b2), Il(s, 3, w.b3), k) == Xor(SubWord(s.g, w), k)
  {
    hide X, Xor, Fl, Il;
    FlRows(s, w.b0); FlRows(s, w.b1); FlRows(s, w.b2); FlRows(s, w.b3);
    Spread(s.f(w.b0), s.f(w.b1), s.f(w.b2), s.f(w.b3));
    Spread(s.g(w.b0), s.g(w.b1), s.g(w.b2), s.g(w.b3));
  }

  // One round of table lookups is the round by bytes.
  lemma ForwardIsRound(s: Sbox, a: State, k: State)
    ensures ForwardRound(s, a, k) == AddRoundKey(MixColumns(ShiftRows(SubBytes(s.f, a))), k)
    ensures ForwardLast(s, a, k) == AddRoundKey(ShiftRows(SubBytes(s.f, a)), k)
  {
    hide Ft, Fl, Lookup, MixColumn, Xor;
    var r := ShiftRows(a);
    FtColumn(s, r.c0, k.c0); FtColumn(s, r.c1, k.c1); FtColumn(s, r.c2, k.c2); FtColumn(s, r.c3, k.c3);
    FlColumn(s, r.c0, k.c0); FlColumn(s, r.c1, k.c1); FlColumn(s, r.c2, k.c2); FlColumn(s, r.c3, k.c3);
  }

  lemma InverseIsRound(s: Sbox, a: State, k: State)
    ensures InverseRound(s, a, k) == AddRoundKey(InvMixColumns(InvShiftRows(SubBytes(s.g, a))), k)
    ensures InverseLast(s, a, k) == AddRoundKey(InvShiftRows(SubBytes(s.g, a)), k)
  {
    hide It, Il, Lookup, InvMixColumn, Xor;
    var r := InvShiftRows(a);
    ItColumn(s, r.c0, k.c0); ItColumn(s, r.c1, k.c1); ItColumn(s, r.c2, k.c2); ItColumn(s, r.c3, k.c3);
    FlColumn(s, r.c0, k.c0); FlColumn(s, r.c1, k.c1); FlColumn(s, r.c2, k.c2); FlColumn(s, r.c3, k.c3);
  }

  // ------------------------------------------------------- linear algebra

  // Each multiplication is linear.
  lemma Linear(a: bv8, b: bv8)
    ensures M3(X(a, b)) == X(M3(a), M3(b)) && M9(X(a, b)) == X(M9(a), M9(b)) && M11(X(a, b)) == X(M11(a), M11(b))
    ensures M13(X(a, b)) == X(M13(a), M13(b)) && M14(X(a, b)) == X(M14(a), M14(b))
  {
    hide X, Dbl;
    DblLinear(a, b);
    DblLinear(Dbl(a), Dbl(b));
    DblLinear(Dbl2(a), Dbl2(b));
    Swap(Dbl(a), Dbl(b), a, b);
    Swap(Dbl3(a), Dbl3(b), a, b);
    Swap(Dbl(a), Dbl(b), M9(a), M9(b));
    Swap(Dbl2(a), Dbl2(b), M9(a), M9(b));
    Swap(Dbl(a), Dbl(b), Dbl2(a), Dbl2(b));
    Swap(X(Dbl(a), Dbl2(a)), X(Dbl(b), Dbl2(b)), Dbl3(a), Dbl3(b));
  }

  lemma Linear4(a: bv8, b: bv8, c: bv8, d: bv8)
    ensures M9(Sum4(a, b, c, d)) == Sum4(M9(a), M9(b), M9(c), M9(d))
    ensures M11(Sum4(a, b, c, d)) == Sum4(M11(a), M11(b), M11(c), M11(d))
    ensures M13(Sum4(a, b, c, d)) == Sum4(M13(a), M13(b), M13(c), M13(d))
    ensures M14(Sum4(a, b, c, d)) == Sum4(M14(a), M14(b), M14(c), M14(d))
  {
    hide X, M9, M11, M13, M14;
    Linear(a, b);
    Linear(X(a, b), c);
    Linear(X(X(a, b), c), d);
  }

  // Summing rows first or columns first.
  lemma Transpose(a0: bv8, a1: bv8, a2: bv8, a3: bv8, b0: bv8, b1: bv8, b2: bv8, b3: bv8,
                  c0: bv8, c1: bv8, c2: bv8, c3: bv8, d0: bv8, d1: bv8, d2: bv8, d3: bv8)
    ensures Sum4(Sum4(a0, b0, c0, d0), Sum4(a1, b1, c1, d1), Sum4(a2, b2, c2, d2), Sum4(a3, b3, c3, d3))
         == Sum4(Sum4(a0, a1, a2, a3), Sum4(b0, b1, b2, b3), Sum4(c0, c1, c2, c3), Sum4(d0, d1, d2, d3))
  {
    hide X;
    SumPair(a0, b0, c0, d0, a1, b1, c1, d1);
    SumPair(X(a0, a1), X(b0, b1), X(c0, c1), X(d0, d1), a2, b2, c2, d2);
    SumPair(X(X(a0, a1), a2), X(X(b0, b1), b2), X(X(c0, c1), c2), X(X(d0, d1), d2), a3, b3, c3, d3);
  }

  lemma SumPair(a: bv8, b: bv8, c: bv8, d: bv8, e: bv8, f: bv8, g: bv8, h: bv8)
    ensures X(Sum4(a, b, c, d), Sum4(e, f, g, h)) == Sum4(X(a, e), X(b, f), X(c, g), X(d, h))
  {
    hide X;
    Swap(a, b, e, f);
    Swap(X(a, b), c, X(e, f), g);
    Swap(X(X(a, b), c), d, X(X(e, f), g), h);
  }

  lemma Row0(w: Word)
    ensures InvMixColumn(MixColumn(w)).b0 == w.b0
  {
    hide X, Dbl, M3, M9, M11, M13, M14;
    var a, b, c, d := w.b0, w.b1, w.b2, w.b3;
    Linear4(Dbl(a), M3(b), c, d);
    Linear4(a, Dbl(b), M3(c), d);
    Linear4(a, b, Dbl(c), M3(d));
    Linear4(M3(a), b, c, Dbl(d));
    Transpose(M14(Dbl(a)), M11(a), M13(a), M9(M3(a)), M14(M3(b)), M11(Dbl(b)), M13(b), M9(b),
              M14(c), M11(M3(c)), M13(Dbl(c)), M9(c), M14(d), M11(d), M13(M3(d)), M9(Dbl(d)));
    Entries0(a); Entries0(b); Entries0(c); Entries0(d);
    XZero(w.b0);
  }

  lemma Row1(w: Word)
    ensures InvMixColumn(MixColumn(w)).b1 == w.b1
  {
    hide X, Dbl, M3, M9, M11, M13, M14;
    var a, b, c, d := w.b0, w.b1, w.b2, w.b3;
    Linear4(Dbl(a), M3(b), c, d);
    Linear4(a, Dbl(b), M3(c), d);
    Linear4(a, b, Dbl(c), M3(d));
    Linear4(M3(a), b, c, Dbl(d));
    Transpose(M9(Dbl(a)), M14(a), M11(a), M13(M3(a)), M9(M3(b)), M14(Dbl(b)), M11(b), M13(b),
              M9(c), M14(M3(c)), M11(Dbl(c)), M13(c), M9(d), M14(d), M11(M3(d)), M13(Dbl(d)));
    Entries1(a); Entries1(b); Entries1(c); Entries1(d);
    XZero(w.b1);
  }

  lemma Row2(w: Word)
    ensures InvMixColumn(MixColumn(w)).b2 == w.b2
  {
    hide X, Dbl, M3, M9, M11, M13, M14;
    var a, b, c, d := w.b0, w.b1, w.b2, w.b3;
    Linear4(Dbl(a), M3(b), c, d);
    Linear4(a, Dbl(b), M3(c), d);
    Linear4(a, b, Dbl(c), M3(d));
    Linear4(M3(a), b, c, Dbl(d));
    Transpose(M13(Dbl(a)), M9(a), M14(a), M11(M3(a)), M13(M3(b)), M9(Dbl(b)), M14(b), M11(b),
              M13(c), M9(M3(c)), M14(Dbl(c)), M11(c), M13(d), M9(d), M14(M3(d)), M11(Dbl(d)));
    Entries2(a); Entries2(b); Entries2(c); Entries2(d);
    XZero(w.b2);
  }

  lemma Row3(w: Word)
    ensures InvMixColumn(MixColumn(w)).b3 == w.b3
  {
    hide X, Dbl, M3, M9, M11, M13, M14;
    var a, b, c, d := w.b0, w.b1, w.b2, w.b3;
    Linear4(Dbl(a), M3(b), c, d);
    Linear4(a, Dbl(b), M3(c), d);
    Linear4(a, b, Dbl(c), M3(d));
    Linear4(M3(a), b, c, Dbl(d));
    Transpose(M11(Dbl(a)), M13(a), M9(a), M14(M3(a)), M11(M3(b)), M13(Dbl(b)), M9(b), M14(b),
              M11(c), M13(M3(c)), M9(Dbl(c)), M14(c), M11(d), M13(d), M9(M3(d)), M14(Dbl(d)));
    Entries3(a); Entries3(b); Entries3(c); Entries3(d);
    XZero(w.b3);
  }

  // Mixing a column and mixing it back.
  lemma MixRoundTrip(w: Word)
    ensures InvMixColumn(MixColumn(w)) == w
  {
    hide MixColumn, InvMixColumn;
    Row0(w);
    Row1(w);
    Row2(w);
    Row3(w);
  }

  lemma InvMixLinear(a: Word, b: Word)
    ensures InvMixColumn(Xor(a, b)) == Xor(InvMixColumn(a), InvMixColumn(b))
  {
    hide X, M9, M11, M13, M14;
    Linear(a.b0, b.b0); Linear(a.b1, b.b1); Linear(a.b2, b.b2); Linear(a.b3, b.b3);
    SumPair(M14(a.b0), M11(a.b1), M13(a.b2), M9(a.b3), M14(b.b0), M11(b.b1), M13(b.b2), M9(b.b3));
    SumPair(M9(a.b0), M14(a.b1), M11(a.b2), M13(a.b3), M9(b.b0), M14(b.b1), M11(b.b2), M13(b.b3));
    SumPair(M13(a.b0), M9(a.b1), M14(a.b2), M11(a.b3), M13(b.b0), M9(b.b1), M14(b.b2), M11(b.b3));
    SumPair(M11(a.b0), M13(a.b1), M9(a.b2), M14(a.b3), M11(b.b0), M13(b.b1), M9(b.b2), M14(b.b3));
  }

  lemma WordTwice(a: Word, b: Word)
    ensures Xor(Xor(a, b), b) == a
  {
    hide X;
    Twice(a.b0, b.b0);
    Twice(a.b1, b.b1);
    Twice(a.b2, b.b2);
    Twice(a.b3, b.b3);
  }

  lemma KeyTwice(s: State, k: State)
    ensures AddRoundKey(AddRoundKey(s, k), k) == s
  {
    hide Xor;
    WordTwice(s.c0, k.c0);
    WordTwice(s.c1, k.c1);
    WordTwice(s.c2, k.c2);
    WordTwice(s.c3, k.c3);
  }

  // ------------------------------------------------------- the cipher

  // The state after the first n of the middle rounds.
  function Encrypted(s: Sbox, keys: seq<State>, m: State, n: nat): State
    requires n < |keys|
  {
    if n == 0 then AddRoundKey(m, keys[0]) else ForwardRound(s, Encrypted(s, keys, m, n - 1), keys[n])
  }

  // aes_encrypt with |keys| - 1 rounds
  function Encrypt(s: Sbox, keys: seq<State>, m: State): State
    requires |keys| > 1
  {
    var r := |keys| - 1;
    ForwardLast(s, Encrypted(s, keys, m, r - 1), keys[r])
  }

  // The cipher of section 5.1 of FIPS 197, by bytes.
  function Rounded(f: bv8 -> bv8, keys: seq<State>, m: State, n: nat): State
    requires n < |keys|
  {
    if n == 0 then AddRoundKey(m, keys[0])
    else AddRoundKey(MixColumns(ShiftRows(SubBytes(f, Rounded(f, keys, m, n - 1)))), keys[n])
  }

  function Cipher(f: bv8 -> bv8, keys: seq<State>, m: State): State
    requires |keys| > 1
  {
    var r := |keys| - 1;
    AddRoundKey(ShiftRows(SubBytes(f, Rounded(f, keys, m, r - 1))), keys[r])
  }

  lemma {:induction false} EncryptedIsRounded(s: Sbox, keys: seq<State>, m: State, n: nat)
    requires n < |keys|
    ensures Encrypted(s, keys, m, n) == Rounded(s.f, keys, m, n)
    decreases n
  {
    hide ForwardRound, AddRoundKey, MixColumns, ShiftRows, SubBytes;
    if n > 0 {
      EncryptedIsRounded(s, keys, m, n - 1);
      ForwardIsRound(s, Encrypted(s, keys, m, n - 1), keys[n]);
    }
  }

  // The table-driven cipher is the one of the standard.
  lemma EncryptIsCipher(s: Sbox, keys: seq<State>, m: State)
    requires |keys| > 1
    ensures Encrypt(s, keys, m) == Cipher(s.f, keys, m)
  {
    hide ForwardRound, ForwardLast, AddRoundKey, MixColumns, ShiftRows, SubBytes, Encrypted, Rounded;
    EncryptedIsRounded(s, keys, m, |keys| - 2);
    ForwardIsRound(s, Encrypted(s, keys, m, |keys| - 2), keys[|keys| - 1]);
  }

  function Decrypted(s: Sbox, keys: seq<State>, c: State, n: nat): State
    requires n < |keys|
  {
    if n == 0 then AddRoundKey(c, keys[0]) else InverseRound(s, Decrypted(s, keys, c, n - 1), keys[n])
  }

  // aes_decrypt
  function Decrypt(s: Sbox, keys: seq<State>, c: State): State
    requires |keys| > 1
  {
    var r := |keys| - 1;
    InverseLast(s, Decrypted(s, keys, c, r - 1), keys[r])
  }

  // The keys of the equivalent inverse cipher (section 5.3.5): reversed, the inner ones mixed.
  function InverseKeys(keys: seq<State>): (inv: seq<State>)
    ensures |inv| == |keys|
  {
    seq(|keys|, i requires 0 <= i < |keys| =>
      var k := keys[|keys| - 1 - i]; if i == 0 || i == |keys| - 1 then k else InvMixColumns(k))
  }

  lemma RowsAndBytes(s: Sbox, a: State)
    requires Bijection(s)
    ensures InvShiftRows(SubBytes(s.g, ShiftRows(SubBytes(s.f, a)))) == a
  {
    var b := SubBytes(s.f, a);
  }

  // One inverse round takes the state back one round, in the form it has behind the S-box.
  lemma RoundBack(s: Sbox, a: State, k: State)
    requires Bijection(s)
    ensures InverseRound(s, ShiftRows(SubBytes(s.f, AddRoundKey(MixColumns(a), k))), InvMixColumns(k)) == a
  {
    hide Bijection, SubBytes, ShiftRows, InvShiftRows, MixColumn, InvMixColumn, Xor, InverseRound;
    var b := AddRoundKey(MixColumns(a), k);
    var c := ShiftRows(SubBytes(s.f, b));
    RowsAndBytes(s, b);
    InverseIsRound(s, c, InvMixColumns(k));
    InvMixLinear(MixColumn(a.c0), k.c0);
    InvMixLinear(MixColumn(a.c1), k.c1);
    InvMixLinear(MixColumn(a.c2), k.c2);
    InvMixLinear(MixColumn(a.c3), k.c3);
    MixRoundTrip(a.c0); MixRoundTrip(a.c1); MixRoundTrip(a.c2); MixRoundTrip(a.c3);
    assert InvMixColumns(b) == AddRoundKey(a, InvMixColumns(k));
    KeyTwice(a, InvMixColumns(k));
  }

  // After n inverse rounds the state is what encryption had before its last n + 1 key additions.
  lemma {:induction false} DecryptedIs(s: Sbox, keys: seq<State>, m: State, n: nat)
    requires Bijection(s) && n + 1 < |keys|
    ensures Decrypted(s, InverseKeys(keys), Encrypt(s, keys, m), n)
         == ShiftRows(SubBytes(s.f, Encrypted(s, keys, m, |keys| - 2 - n)))
    decreases n
  {
    hide Bijection, SubBytes, ShiftRows, ForwardRound, ForwardLast, InverseRound, AddRoundKey, MixColumns,
         InvMixColumns;
    var r := |keys| - 1;
    var e := Encrypted(s, keys, m, r - 1 - n);
    if n == 0 {
      ForwardIsRound(s, e, keys[r]);
      KeyTwice(ShiftRows(SubBytes(s.f, e)), keys[r]);
    } else {
      DecryptedIs(s, keys, m, n - 1);
      var a := ShiftRows(SubBytes(s.f, e));
      ForwardIsRound(s, e, keys[r - n]);
      RoundBack(s, a, keys[r - n]);
    }
  }

  // For any S-box that is a bijection and any round keys, decryption undoes encryption.
  lemma DecryptUndoes(s: Sbox, keys: seq<State>, m: State)
    requires Bijection(s) && |keys| > 1
    ensures Decrypt(s, InverseKeys(keys), Encrypt(s, keys, m)) == m
  {
    hide Bijection, SubBytes, ShiftRows, InvShiftRows, ForwardRound, ForwardLast, InverseRound, InverseLast,
         AddRoundKey, MixColumns, InvMixColumns;
    var r := |keys| - 1;
    DecryptedIs(s, keys, m, r - 1);
    var e := Encrypted(s, keys, m, 0);
    var a := ShiftRows(SubBytes(s.f, e));
    InverseIsRound(s, a, keys[0]);
    LastBack(s, e, keys[0]);
    KeyTwice(m, keys[0]);
  }

  lemma LastBack(s: Sbox, e: State, k: State)
    requires Bijection(s)
    ensures AddRoundKey(InvShiftRows(SubBytes(s.g, ShiftRows(SubBytes(s.f, e)))), k) == AddRoundKey(e, k)
  {
    hide AddRoundKey;
    RowsAndBytes(s, e);
  }
}
