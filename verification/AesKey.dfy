// crypto_aes_expand_key, aes_encrypt and aes_decrypt of crypto/aes_generic.c.
module AesKey {
  import opened Arith
  import opened Gf
  import opened Aes
  import opened AesWords

  // rco_tab
  function Rco(i: nat): bv8 { if i == 0 then 1 else Dbl(Rco(i - 1)) }

  // RotWord of section 5.2 of FIPS 197
  function RotWord(w: Word): Word { Word(w.b1, w.b2, w.b3, w.b0) }

  // ls_box
  function LsBox(s: Sbox, w: Word): Word { Xor(Xor(Xor(Fl(s, 0, w.b0), Fl(s, 1, w.b1)), Fl(s, 2, w.b2)), Fl(s, 3, w.b3)) }

  lemma LsBoxIsSubWord(s: Sbox, w: Word)
    ensures LsBox(s, w) == SubWord(s.f, w)
  {
    hide Xor, Fl;
    FlRows(s, w.b0); FlRows(s, w.b1); FlRows(s, w.b2); FlRows(s, w.b3);
    Spread(s.f(w.b0), s.f(w.b1), s.f(w.b2), s.f(w.b3));
  }

  // The key expansion of section 5.2 of FIPS 197, for a key of nk words.
  function Temp(f: bv8 -> bv8, nk: nat, i: nat, w: Word): Word
    requires nk > 0 && i >= nk
  {
    if i % nk == 0 then Xor(SubWord(f, RotWord(w)), Word(Rco(i / nk - 1), 0, 0, 0))
    else if nk > 6 && i % nk == 4 then SubWord(f, w)
    else w
  }

  function KeyWord(f: bv8 -> bv8, key: seq<Word>, i: nat): Word
    requires |key| > 0
  {
    if i < |key| then key[i]
    else Xor(Temp(f, |key|, i, KeyWord(f, key, i - 1)), KeyWord(f, key, i - |key|))
  }

  // The first n words of the schedule.
  ghost predicate Filled(f: bv8 -> bv8, key: seq<Word>, w: seq<Word>, n: nat)
    requires |key| > 0
  {
    n <= |w| && forall j :: 0 <= j < n ==> w[j] == KeyWord(f, key, j)
  }

  // t ^= key_enc[j - nk]; key_enc[j] = t
  method Store(s: Sbox, ghost key: seq<Word>, enc: array<Word>, j: nat, nk: nat, t0: Word) returns (t: Word)
    requires 0 < nk == |key| <= j < enc.Length && Filled(s.f, key, enc[..], j)
    requires t0 == Temp(s.f, nk, j, KeyWord(s.f, key, j - 1))
    modifies enc
    ensures Filled(s.f, key, enc[..], j + 1) && t == KeyWord(s.f, key, j)
  {
    hide Xor, Temp;
    t := Xor(t0, enc[j - nk]);
    enc[j] := t;
  }

  // The first two lines of loop4, loop6 and loop8; Turned is ror32(t, 8) by PackTurned.
  method Start(s: Sbox, ghost key: seq<Word>, i: nat, nk: nat, t0: Word) returns (t: Word)
    requires 0 < nk == |key| && t0 == KeyWord(s.f, key, nk * i + nk - 1)
    ensures t == Temp(s.f, nk, nk * i + nk, KeyWord(s.f, key, nk * i + nk - 1))
  {
    hide Xor, LsBox;
    LsBoxIsSubWord(s, Turned(t0));
    Quotient(nk, i, 0);
    t := Xor(LsBox(s, Turned(t0)), Word(Rco(i), 0, 0, 0));
  }

  // The word the loops turn is the word of the standard's RotWord in the byte order of a u32.
  lemma RotWordIsRor(w: Word)
    ensures Pack(RotWord(w)) == Ror32by8(Pack(w))
  {
    hide Pack, Ror32by8;
    PackTurned(w);
  }

  function ByteAt(w: Word, r: nat): bv8
    requires r < 4
  {
    if r == 0 then w.b0 else if r == 1 then w.b1 else if r == 2 then w.b2 else w.b3
  }

  // The first word of each round of the expansion, byte by byte: the S-box of the next byte of
  // the word before, and the round constant in the first byte.
  lemma FirstWordBytes(f: bv8 -> bv8, key: seq<Word>, i: nat, r: nat)
    requires |key| > 0 && i >= |key| && i % |key| == 0 && r < 4
    ensures ByteAt(KeyWord(f, key, i), r)
         == X(X(ByteAt(KeyWord(f, key, i - |key|), r), f(ByteAt(KeyWord(f, key, i - 1), (r + 1) % 4))),
              if r == 0 then Rco(i / |key| - 1) else 0)
  {
    hide X, Rco;
    var a, b := KeyWord(f, key, i - |key|), KeyWord(f, key, i - 1);
    assert KeyWord(f, key, i) == Xor(Temp(f, |key|, i, b), a);
    hide KeyWord;
    var e, c := f(ByteAt(b, (r + 1) % 4)), if r == 0 then Rco(i / |key| - 1) else 0;
    XZero(e);
    XZero(X(ByteAt(a, r), e));
    Comm(X(e, c), ByteAt(a, r));
    Assoc(ByteAt(a, r), e, c);
  }

  // The round constants of section 5.2 of FIPS 197.
  lemma RoundConstants()
    ensures Rco(0) == 0x01 && Rco(1) == 0x02 && Rco(2) == 0x04 && Rco(3) == 0x08 && Rco(4) == 0x10
    ensures Rco(5) == 0x20 && Rco(6) == 0x40 && Rco(7) == 0x80 && Rco(8) == 0x1b && Rco(9) == 0x36
  {
    assert Rco(2) == 0x04;
    assert Rco(4) == 0x10;
    assert Rco(6) == 0x40;
    assert Rco(8) == 0x1b;
  }

  lemma Quotient(nk: nat, i: nat, r: nat)
    requires r < nk
    ensures (nk * i + nk + r) % nk == r && (nk * i + nk + r) / nk == i + 1
  {
    assert nk * i + nk + r == nk * (i + 1) + r;
    DivMod(nk * i + nk + r, nk, i + 1, r);
  }

  lemma TempPlain(f: bv8 -> bv8, nk: nat, i: nat, r: nat, w: Word)
    requires 0 < r < nk
    ensures Temp(f, nk, nk * i + nk + r, w) == if nk > 6 && r == 4 then SubWord(f, w) else w
  {
    Quotient(nk, i, r);
    hide SubWord, Xor;
  }

  // One of the remaining pairs of lines of loop4, loop6 and loop8.
  method Next(s: Sbox, ghost key: seq<Word>, enc: array<Word>, i: nat, nk: nat, r: nat, t0: Word) returns (t: Word)
    requires 0 < r < nk == |key| && nk * i + nk + r < enc.Length && Filled(s.f, key, enc[..], nk * i + nk + r)
    requires var before := KeyWord(s.f, key, nk * i + nk + r - 1);
             t0 == if nk > 6 && r == 4 then SubWord(s.f, before) else before
    modifies enc
    ensures Filled(s.f, key, enc[..], nk * i + nk + r + 1) && t == KeyWord(s.f, key, nk * i + nk + r)
  {
    hide Xor, Temp, SubWord, KeyWord, Filled;
    TempPlain(s.f, nk, i, r, KeyWord(s.f, key, nk * i + nk + r - 1));
    t := Store(s, key, enc, nk * i + nk + r, nk, t0);
  }

  // loop4(i), loop6(i) and loop8(i)
  method Loop(s: Sbox, ghost key: seq<Word>, enc: array<Word>, i: nat, nk: nat, t0: Word) returns (t: Word)
    requires (nk == 4 || nk == 6 || nk == 8) && nk == |key| && nk * i + 2 * nk <= enc.Length
    requires Filled(s.f, key, enc[..], nk * i + nk) && t0 == KeyWord(s.f, key, nk * i + nk - 1)
    modifies enc
    ensures Filled(s.f, key, enc[..], nk * i + 2 * nk) && t == KeyWord(s.f, key, nk * i + 2 * nk - 1)
  {
    hide Xor, Temp, LsBox, SubWord, KeyWord, Filled;
    t := Start(s, key, i, nk, t0);
    t := Store(s, key, enc, nk * i + nk, nk, t);
    t := Next(s, key, enc, i, nk, 1, t);
    t := Next(s, key, enc, i, nk, 2, t);
    t := Next(s, key, enc, i, nk, 3, t);
    if nk > 4 {
      if nk == 8 { LsBoxIsSubWord(s, t); t := LsBox(s, t); }
      t := Next(s, key, enc, i, nk, 4, t);
      t := Next(s, key, enc, i, nk, 5, t);
    }
    if nk == 8 {
      t := Next(s, key, enc, i, nk, 6, t);
      t := Next(s, key, enc, i, nk, 7, t);
    }
  }

  // The number of rounds for a key of keyLen bytes.
  function Rounds(keyLen: nat): nat { keyLen / 4 + 6 }

  // Round key i in a schedule.
  function RoundKey(w: seq<Word>, i: nat): State
    requires 4 * i + 3 < |w|
  {
    State(w[4 * i], w[4 * i + 1], w[4 * i + 2], w[4 * i + 3])
  }

  function RoundKeys(w: seq<Word>, n: nat): (keys: seq<State>)
    requires 4 * n <= |w|
    ensures |keys| == n
  {
    seq(n, i requires 0 <= i < n => RoundKey(w, i))
  }

  predicate KnownLength(keyLen: nat) { keyLen == 16 || keyLen == 24 || keyLen == 32 }

  // Round key i is four consecutive words of the schedule, and so words 4i to 4i + 3 of FIPS 197
  // once that far is filled; a key has 4, 6 or 8 words and two rounds more for each step.
  lemma RoundKeyIs(f: bv8 -> bv8, key: seq<Word>, w: seq<Word>, i: nat)
    requires |key| > 0 && Filled(f, key, w, 4 * i + 4)
    ensures var k := RoundKey(w, i);
            && [k.c0, k.c1, k.c2, k.c3] == w[4 * i..4 * i + 4]
            && k.c0 == KeyWord(f, key, 4 * i) && k.c1 == KeyWord(f, key, 4 * i + 1)
            && k.c2 == KeyWord(f, key, 4 * i + 2) && k.c3 == KeyWord(f, key, 4 * i + 3)
    ensures KnownLength(4 * |key|) <==> |key| in {4, 6, 8}
    ensures Rounds(16) == 10 && Rounds(24) == 12 && Rounds(32) == 14
  {
    hide KeyWord;
  }

  // The first part of crypto_aes_expand_key: the loops write whole rounds of the macro, up to
  // word 63 for the longest key.
  method ExpandEnc(s: Sbox, enc: array<Word>, key: seq<Word>)
    requires KnownLength(4 * |key|) && enc.Length == 64
    modifies enc
    ensures Filled(s.f, key, enc[..], 4 * Rounds(4 * |key|) + 4)
  {
    hide KeyWord;
    KeyStart(s.f, key);
    var nk := |key|;
    enc[0], enc[1], enc[2], enc[3] := key[0], key[1], key[2], key[3];
    if nk > 4 { enc[4], enc[5] := key[4], key[5]; }
    if nk == 8 { enc[6], enc[7] := key[6], key[7]; }
    var t := enc[nk - 1];
    var i := 0;
    var n := if nk == 4 then 10 else if nk == 6 then 8 else 7;
    while i < n
      invariant 0 <= i <= n && Filled(s.f, key, enc[..], nk * i + nk) && t == KeyWord(s.f, key, nk * i + nk - 1)
    {
      t := Loop(s, key, enc, i, nk, t);
      i := i + 1;
    }
  }

  lemma KeyStart(f: bv8 -> bv8, key: seq<Word>)
    requires |key| > 0
    ensures forall j :: 0 <= j < |key| ==> KeyWord(f, key, j) == key[j]
  {
  }

  // Where word i of key_enc goes in key_dec: its round counted from the end.
  function Place(r: nat, i: nat): nat
    requires i < 4 * r + 4
  {
    4 * r - (i - i % 4) + i % 4
  }

  // key_dec when the words of key_enc from 4 to n - 1 have been mixed into it.
  ghost predicate MixedTo(w: seq<Word>, r: nat, d: seq<Word>, n: nat) {
    && r > 0 && 4 * r + 4 <= |w| && |d| >= 4 * r + 4 && n <= 4 * r
    && EndsCopied(w, r, d)
    && (forall i :: 4 <= i < n ==> d[Place(r, i)] == InvMixColumn(w[i]))
  }

  // The first and the last round key change places.
  ghost predicate EndsCopied(w: seq<Word>, r: nat, d: seq<Word>)
    requires r > 0 && 4 * r + 4 <= |w| && |d| >= 4 * r + 4
  {
    RoundKey(d, 0) == RoundKey(w, r) && RoundKey(d, r) == RoundKey(w, 0)
  }

  lemma PlaceApart(r: nat, i: nat, j: nat)
    requires 4 <= i < j < 4 * r
    ensures Place(r, i) != Place(r, j) && 4 <= Place(r, j) < 4 * r && 4 <= Place(r, i) < 4 * r
  {
  }

  lemma PlaceInside(r: nat, i: nat)
    requires 4 <= i < 4 * r
    ensures 4 <= Place(r, i) < 4 * r
  {
  }

  lemma MixStep(w: seq<Word>, r: nat, d: seq<Word>, n: nat)
    requires MixedTo(w, r, d, n) && 4 <= n < 4 * r
    ensures Place(r, n) < |d| && MixedTo(w, r, d[Place(r, n) := InvMixColumn(w[n])], n + 1)
  {
    hide InvMixColumn, Place;
    PlaceInside(r, n);
    var e := d[Place(r, n) := InvMixColumn(w[n])];
    forall i | 4 <= i < n + 1 ensures Place(r, i) < |e| && e[Place(r, i)] == InvMixColumn(w[i]) {
      if i < n { PlaceApart(r, i, n); }
    }
  }

  // Four assignments of round key i of enc to round key j of dec.
  method CopyKey(enc: array<Word>, i: nat, dec: array<Word>, j: nat)
    requires enc != dec && 4 * i + 3 < enc.Length && 4 * j + 3 < dec.Length
    modifies dec
    ensures RoundKey(dec[..], j) == RoundKey(enc[..], i)
    ensures forall k :: 0 <= k < dec.Length && !(4 * j <= k < 4 * j + 4) ==> dec[k] == old(dec[k])
  {
    dec[4 * j] := enc[4 * i];
    dec[4 * j + 1] := enc[4 * i + 1];
    dec[4 * j + 2] := enc[4 * i + 2];
    dec[4 * j + 3] := enc[4 * i + 3];
  }

  // The last loop of crypto_aes_expand_key; imix_col is InvMixColumn by AesWords.ImixIsInvMix.
  method MixKeys(enc: array<Word>, dec: array<Word>, r: nat)
    requires r > 0 && enc != dec && enc.Length >= 4 * r + 4 && dec.Length >= 4 * r + 4
    modifies dec
    ensures MixedTo(enc[..], r, dec[..], 4 * r)
  {
    hide InvMixColumn, Place;
    CopyKey(enc, 0, dec, r);
    CopyKey(enc, r, dec, 0);
    hide RoundKey;
    assert EndsCopied(enc[..], r, dec[..]);
    hide EndsCopied;
    var i := 4;
    assert MixedTo(enc[..], r, dec[..], i);
    hide MixedTo;
    while i < 4 * r
      invariant 4 <= i <= 4 * r && MixedTo(enc[..], r, dec[..], i)
    {
      MixStep(enc[..], r, dec[..], i);
      ghost var d := dec[..];
      dec[Place(r, i)] := InvMixColumn(enc[i]);
      assert dec[..] == d[Place(r, i) := InvMixColumn(enc[..][i])];
      i := i + 1;
    }
  }

  lemma MixedKey(w: seq<Word>, r: nat, d: seq<Word>, i: nat)
    requires MixedTo(w, r, d, 4 * r) && 0 < i < r
    ensures RoundKey(d, i) == InvMixColumns(RoundKey(w, r - i))
  {
    hide InvMixColumn, Place;
    var a := 4 * (r - i);
    Placed(r, i);
  }

  lemma Placed(r: nat, i: nat)
    requires 0 < i < r
    ensures var a := 4 * (r - i);
            && Place(r, a) == 4 * i && Place(r, a + 1) == 4 * i + 1
            && Place(r, a + 2) == 4 * i + 2 && Place(r, a + 3) == 4 * i + 3
  {
  }

  lemma MixedAreInverse(w: seq<Word>, r: nat, d: seq<Word>)
    requires MixedTo(w, r, d, 4 * r)
    ensures RoundKeys(d, r + 1) == InverseKeys(RoundKeys(w, r + 1))
  {
    hide RoundKey, InvMixColumns, Place;
    var a, b := RoundKeys(d, r + 1), InverseKeys(RoundKeys(w, r + 1));
    assert a[0] == b[0] && a[r] == b[r];
    assert forall i :: 0 < i < r ==> b[i] == InvMixColumns(RoundKey(w, r - i));
    forall i | 0 < i < r ensures a[i] == b[i] { MixedKey(w, r, d, i); }
  }

  // crypto_aes_expand_key: key_enc is the schedule of FIPS 197, and key_dec its keys for the
  // equivalent inverse cipher.
  method ExpandKey(s: Sbox, enc: array<Word>, dec: array<Word>, key: seq<Word>) returns (ok: bool)
    requires enc.Length == 64 && dec.Length == 60 && enc != dec
    modifies enc, dec
    ensures ok == KnownLength(4 * |key|)
    ensures ok ==> var r := Rounds(4 * |key|);
                   Filled(s.f, key, enc[..], 4 * r + 4) && RoundKeys(dec[..], r + 1) == InverseKeys(RoundKeys(enc[..], r + 1))
    ensures !ok ==> enc[..] == old(enc[..]) && dec[..] == old(dec[..])
  {
    hide InverseKeys, MixedTo, RoundKeys;
    if !KnownLength(4 * |key|) { return false; }
    ExpandEnc(s, enc, key);
    hide Filled;
    MixKeys(enc, dec, Rounds(4 * |key|));
    MixedAreInverse(enc[..], Rounds(4 * |key|), dec[..]);
    return true;
  }

  // Two calls of f_nround: b0 to b1 and back.
  method TwoRounds(s: Sbox, w: seq<Word>, kp: nat, b0: State, ghost n: nat, ghost m: State) returns (b: State)
    requires 0 < kp < n - 1 && 4 * n <= |w| && b0 == Encrypted(s, RoundKeys(w, n), m, kp - 1)
    ensures b == Encrypted(s, RoundKeys(w, n), m, kp + 1)
  {
    hide ForwardRound;
    var b1 := ForwardRound(s, b0, RoundKey(w, kp));
    b := ForwardRound(s, b1, RoundKey(w, kp + 1));
  }

  // Two calls of i_nround.
  method TwoBack(s: Sbox, w: seq<Word>, kp: nat, b0: State, ghost n: nat, ghost c: State) returns (b: State)
    requires 0 < kp < n - 1 && 4 * n <= |w| && b0 == Decrypted(s, RoundKeys(w, n), c, kp - 1)
    ensures b == Decrypted(s, RoundKeys(w, n), c, kp + 1)
  {
    hide InverseRound;
    var b1 := InverseRound(s, b0, RoundKey(w, kp));
    b := InverseRound(s, b1, RoundKey(w, kp + 1));
  }

  lemma KeyAt(w: seq<Word>, n: nat, i: nat)
    requires i < n && 4 * n <= |w|
    ensures RoundKeys(w, n)[i] == RoundKey(w, i)
  {
  }

  // aes_encrypt, unrolled as in the source: one pair of rounds more for each longer key.
  method PairsOfRounds(s: Sbox, w: seq<Word>, keyLen: nat, m: State) returns (b: State)
    requires KnownLength(keyLen) && 4 * Rounds(keyLen) + 4 <= |w|
    ensures b == Encrypted(s, RoundKeys(w, Rounds(keyLen) + 1), m, Rounds(keyLen) - 2)
  {
    hide AddRoundKey, Encrypted, RoundKeys;
    ghost var n := Rounds(keyLen) + 1;
    KeyAt(w, n, 0);
    EncryptedStart(s, RoundKeys(w, n), m);
    b := AddRoundKey(m, RoundKey(w, 0));
    hide RoundKey;
    var kp := 1;
    if keyLen > 24 {
      b := TwoRounds(s, w, kp, b, n, m);
      kp := kp + 2;
    }
    if keyLen > 16 {
      b := TwoRounds(s, w, kp, b, n, m);
      kp := kp + 2;
    }
    b := TwoRounds(s, w, kp, b, n, m);
    b := TwoRounds(s, w, kp + 2, b, n, m);
    b := TwoRounds(s, w, kp + 4, b, n, m);
    b := TwoRounds(s, w, kp + 6, b, n, m);
  }

  // aes_decrypt up to the same point.
  method PairsOfBack(s: Sbox, w: seq<Word>, keyLen: nat, c: State) returns (b: State)
    requires KnownLength(keyLen) && 4 * Rounds(keyLen) + 4 <= |w|
    ensures b == Decrypted(s, RoundKeys(w, Rounds(keyLen) + 1), c, Rounds(keyLen) - 2)
  {
    hide AddRoundKey, Decrypted, RoundKeys;
    ghost var n := Rounds(keyLen) + 1;
    KeyAt(w, n, 0);
    EncryptedStart(s, RoundKeys(w, n), c);
    b := AddRoundKey(c, RoundKey(w, 0));
    hide RoundKey;
    var kp := 1;
    if keyLen > 24 {
      b := TwoBack(s, w, kp, b, n, c);
      kp := kp + 2;
    }
    if keyLen > 16 {
      b := TwoBack(s, w, kp, b, n, c);
      kp := kp + 2;
    }
    b := TwoBack(s, w, kp, b, n, c);
    b := TwoBack(s, w, kp + 2, b, n, c);
    b := TwoBack(s, w, kp + 4, b, n, c);
    b := TwoBack(s, w, kp + 6, b, n, c);
  }

  // aes_encrypt is the cipher of FIPS 197.
  method AesEncrypt(s: Sbox, keyEnc: array<Word>, keyLen: nat, m: State) returns (c: State)
    requires KnownLength(keyLen) && 4 * Rounds(keyLen) + 4 <= keyEnc.Length
    ensures c == Cipher(s.f, RoundKeys(keyEnc[..], Rounds(keyLen) + 1), m)
  {
    hide ForwardRound, ForwardLast, Encrypted, Cipher, RoundKeys;
    var w := keyEnc[..];
    var r := Rounds(keyLen);
    ghost var keys := RoundKeys(w, r + 1);
    var b := PairsOfRounds(s, w, keyLen, m);
    KeyAt(w, r + 1, r - 1);
    KeyAt(w, r + 1, r);
    hide Rounds, RoundKey;
    EncryptedNext(s, keys, m, r - 1);
    b := ForwardRound(s, b, RoundKey(w, r - 1));
    c := ForwardLast(s, b, RoundKey(w, r));
    EncryptIsCipher(s, keys, m);
  }

  // aes_decrypt with the keys crypto_aes_expand_key leaves undoes the cipher, for every key length.
  method AesDecrypt(s: Sbox, keyDec: array<Word>, keyLen: nat, c: State, ghost keys: seq<State>, ghost m: State)
    returns (b: State)
    requires KnownLength(keyLen) && 4 * Rounds(keyLen) + 4 <= keyDec.Length
    requires Bijection(s) && |keys| == Rounds(keyLen) + 1
    requires RoundKeys(keyDec[..], Rounds(keyLen) + 1) == InverseKeys(keys)
    requires c == Cipher(s.f, keys, m)
    ensures b == m
  {
    hide InverseRound, InverseLast, Decrypted, Encrypt, Cipher, Bijection, InverseKeys, RoundKeys;
    var w := keyDec[..];
    var r := Rounds(keyLen);
    b := PairsOfBack(s, w, keyLen, c);
    KeyAt(w, r + 1, r - 1);
    KeyAt(w, r + 1, r);
    hide Rounds, RoundKey;
    EncryptedNext(s, InverseKeys(keys), c, r - 1);
    b := InverseRound(s, b, RoundKey(w, r - 1));
    b := InverseLast(s, b, RoundKey(w, r));
    assert b == Decrypt(s, InverseKeys(keys), c);
    hide Decrypt;
    EncryptIsCipher(s, keys, m);
    DecryptUndoes(s, keys, m);
  }

  lemma EncryptedStart(s: Sbox, keys: seq<State>, m: State)
    requires |keys| > 0
    ensures Encrypted(s, keys, m, 0) == AddRoundKey(m, keys[0]) == Decrypted(s, keys, m, 0)
  {
    hide AddRoundKey;
  }

  lemma EncryptedNext(s: Sbox, keys: seq<State>, m: State, n: nat)
    requires 0 < n < |keys|
    ensures Encrypted(s, keys, m, n) == ForwardRound(s, Encrypted(s, keys, m, n - 1), keys[n])
    ensures Decrypted(s, keys, m, n) == InverseRound(s, Decrypted(s, keys, m, n - 1), keys[n])
  {
    hide ForwardRound, InverseRound;
  }
}
