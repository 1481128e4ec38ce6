// camellia_setup_tail and the in-place rounds of crypto/camellia.c, proved against Camellia.
module CamelliaSetup {
  import opened Camellia

  // A key added to the subkeys at i, i + 2 and i + 4.
  ghost predicate AddedTo(s: seq<Half>, u: seq<Half>, i: nat, w: Half) {
    && |u| == |s| && i + 4 < |s| && u[i] == Xor(s[i], w) && u[i + 2] == Xor(s[i + 2], w) && u[i + 4] == Xor(s[i + 4], w)
    && forall j :: 0 <= j < |s| && j != i && j != i + 2 && j != i + 4 ==> u[j] == s[j]
  }

  method AddToThree(sub: array<Half>, i: nat, w: Half)
    requires i + 4 < sub.Length
    modifies sub
    ensures AddedTo(old(sub[..]), sub[..], i, w)
  {
    hide Xor;
    sub[i] := Xor(sub[i], w);
    sub[i + 2] := Xor(sub[i + 2], w);
    sub[i + 4] := Xor(sub[i + 4], w);
  }

  // The subkeys of block b with w2 in those of the second half.
  ghost predicate BlockHas2(s: seq<Half>, u: seq<Half>, b: nat, w2: Half) {
    && 8 * b + 7 < |s| == |u|
    && u[8 * b + 2] == s[8 * b + 2] && u[8 * b + 3] == Xor(s[8 * b + 3], w2)
    && u[8 * b + 4] == s[8 * b + 4] && u[8 * b + 5] == Xor(s[8 * b + 5], w2)
    && u[8 * b + 6] == s[8 * b + 6] && u[8 * b + 7] == Xor(s[8 * b + 7], w2)
  }

  // Blocks below b carry kw2, sub[1] holds it as it reaches block b, the rest is unchanged.
  ghost predicate Kw2Reached(s: seq<Half>, u: seq<Half>, b: nat) {
    && |u| == |s| && 8 * b + 1 < |s|
    && u[0] == s[0] && u[1] == Absorb2(s, b)
    && (forall j :: 8 * b + 2 <= j < |s| ==> u[j] == s[j])
    && (forall c: nat :: c < b ==> BlockHas2(s, u, c, Absorb2(s, c)) && u[8 * c + 8] == s[8 * c + 8] && u[8 * c + 9] == s[8 * c + 9])
  }

  // One block: its keys, and unless it is the last, the change of kw2 for the FLINV behind it.
  method AbsorbBlock(sub: array<Half>, b: nat, ghost s: seq<Half>)
    requires Kw2Reached(s, sub[..], b) && 8 * b + 9 < sub.Length
    modifies sub
    ensures Kw2Reached(s, sub[..], b + 1)
  {
    hide Xor, Carry, Absorb2;
    Absorb2Next(s, b);
    AddToThree(sub, 8 * b + 3, sub[1]);
    sub[1] := Carry(sub[1], sub[8 * b + 9]);
    var u := sub[..];
    forall c: nat | c < b + 1 ensures BlockHas2(s, u, c, Absorb2(s, c)) && u[8 * c + 8] == s[8 * c + 8] && u[8 * c + 9] == s[8 * c + 9] {}
  }

  lemma Absorb2Next(s: seq<Half>, b: nat)
    requires 8 * b + 9 < |s|
    ensures Absorb2(s, b + 1) == Carry(Absorb2(s, b), s[8 * b + 9])
  {
  }

  // All of kw2's way: its last block and kw3.
  ghost predicate Kw2Done(s: seq<Half>, n: nat, u: seq<Half>) {
    && n > 0 && |u| == |s| && 8 * n + 1 < |s|
    && u[0] == s[0] && u[8 * n] == Xor(s[8 * n], Absorb2(s, n - 1)) && u[8 * n + 1] == s[8 * n + 1]
    && (forall c: nat :: c < n ==> BlockHas2(s, u, c, Absorb2(s, c)))
    && (forall c: nat :: c + 1 < n ==> u[8 * c + 8] == s[8 * c + 8] && u[8 * c + 9] == s[8 * c + 9])
  }

  // The last block, and kw3.
  method AbsorbLast(sub: array<Half>, b: nat, ghost s: seq<Half>)
    requires Kw2Reached(s, sub[..], b) && 8 * b + 9 < sub.Length
    modifies sub
    ensures Kw2Done(s, b + 1, sub[..])
  {
    hide Xor, Absorb2;
    AddToThree(sub, 8 * b + 3, sub[1]);
    sub[8 * b + 8] := Xor(sub[8 * b + 8], sub[1]);
    ghost var u := sub[..];
    forall c: nat | c < b + 1 ensures BlockHas2(s, u, c, Absorb2(s, c)) {}
    forall c: nat | c + 1 < b + 1 ensures u[8 * c + 8] == s[8 * c + 8] && u[8 * c + 9] == s[8 * c + 9] {}
  }

  // The lines of camellia_setup_tail that absorb kw2.
  method AbsorbKw2(sub: array<Half>, max: nat)
    requires (max == 24 || max == 32) && sub.Length > max + 1
    modifies sub
    ensures Kw2Done(old(sub[..]), max / 8, sub[..])
  {
    hide Xor, Carry, BlockHas2;
    ghost var s := sub[..];
    AbsorbBlock(sub, 0, s);
    AbsorbBlock(sub, 1, s);
    hide Kw2Reached, Kw2Done, Absorb2;
    if max == 32 {
      AbsorbBlock(sub, 2, s);
      AbsorbLast(sub, 3, s);
    } else {
      AbsorbLast(sub, 2, s);
    }
  }

  // ------------------------------------------------------- kw4

  ghost predicate BlockHas4(s: seq<Half>, u: seq<Half>, b: nat, w4: Half) {
    && 8 * b + 7 < |s| == |u|
    && u[8 * b + 2] == Xor(s[8 * b + 2], w4) && u[8 * b + 3] == s[8 * b + 3]
    && u[8 * b + 4] == Xor(s[8 * b + 4], w4) && u[8 * b + 5] == s[8 * b + 5]
    && u[8 * b + 6] == Xor(s[8 * b + 6], w4) && u[8 * b + 7] == s[8 * b + 7]
  }

  // Blocks from b on carry kw4; the rest is unchanged.
  ghost predicate Kw4Reached(s: seq<Half>, n: nat, u: seq<Half>, b: nat) {
    && |u| == |s| && b <= n && 8 * n + 1 < |s|
    && (forall j :: 0 <= j < |s| && (j < 8 * b + 2 || j >= 8 * n) ==> u[j] == s[j])
    && (forall c: nat :: b <= c < n ==> BlockHas4(s, u, c, Absorb4(s, n, c)))
    && (forall c: nat :: b <= c + 1 < n ==> u[8 * c + 8] == s[8 * c + 8] && u[8 * c + 9] == s[8 * c + 9])
  }

  lemma BlockAdded(s: seq<Half>, was: seq<Half>, u: seq<Half>, b: nat, w: Half)
    requires 8 * b + 7 < |s| == |was| && AddedTo(was, u, 8 * b + 2, w)
    requires forall j :: 0 <= j < 8 * b + 8 ==> was[j] == s[j]
    ensures BlockHas4(s, u, b, w)
  {
    hide Xor;
  }

  lemma BlockKept(s: seq<Half>, was: seq<Half>, u: seq<Half>, b: nat, c: nat, w: Half, w4: Half)
    requires b < c && AddedTo(was, u, 8 * b + 2, w) && BlockHas4(s, was, c, w4)
    ensures BlockHas4(s, u, c, w4)
  {
    hide Xor;
  }

  // One block, and the change of kw4 for the FL before it.
  method AbsorbBlockBack(sub: array<Half>, b: nat, w: Half, ghost n: nat, ghost s: seq<Half>) returns (next: Half)
    requires Kw4Reached(s, n, sub[..], b + 1) && w == Absorb4(s, n, b)
    modifies sub
    ensures Kw4Reached(s, n, sub[..], b)
    ensures next == if b > 0 then Absorb4(s, n, b - 1) else w
  {
    hide Xor, Carry, BlockHas4;
    ghost var was := sub[..];
    AddToThree(sub, 8 * b + 2, w);
    next := w;
    if b > 0 { next := Carry(w, sub[8 * b]); }
    assert b > 0 ==> Absorb4(s, n, b - 1) == Carry(Absorb4(s, n, b), s[8 * b]);
    hide Absorb4;
    ghost var u := sub[..];
    forall c: nat | b <= c < n ensures BlockHas4(s, u, c, Absorb4(s, n, c)) {
      if c == b { BlockAdded(s, was, u, b, w); } else { BlockKept(s, was, u, b, c, w, Absorb4(s, n, c)); }
    }
    forall c: nat | b <= c + 1 < n ensures u[8 * c + 8] == s[8 * c + 8] && u[8 * c + 9] == s[8 * c + 9] {}
  }

  ghost predicate Kw4Done(s: seq<Half>, n: nat, u: seq<Half>) {
    && n > 0 && |s| == |u| > 0 && Kw4Reached(s, n, u[0 := s[0]], 0) && u[0] == Xor(s[0], Absorb4(s, n, 0))
  }

  // The lines that absorb kw4 into the keys of the first half, and at last into kw1.
  method AbsorbKw4(sub: array<Half>, max: nat)
    requires (max == 24 || max == 32) && sub.Length > max + 1
    modifies sub
    ensures sub.Length > 0 && Kw4Done(old(sub[..]), max / 8, sub[..])
  {
    hide Xor, Carry, BlockHas4;
    ghost var s, n := sub[..], max / 8;
    var w := sub[max + 1];
    if max == 32 { w := AbsorbBlockBack(sub, 3, w, n, s); }
    w := AbsorbBlockBack(sub, 2, w, n, s);
    w := AbsorbBlockBack(sub, 1, w, n, s);
    w := AbsorbBlockBack(sub, 0, w, n, s);
    ghost var v := sub[..];
    sub[0] := Xor(sub[0], w);
    assert sub[..][0 := s[0]] == v;
  }

  // ------------------------------------------------------- both together

  ghost predicate AllAbsorbed(s: seq<Half>, n: nat, u: seq<Half>)
    requires n > 0 && 8 * n + 1 < |s|
  {
    && |u| == |s| && u[0] == Xor(s[0], Absorb4(s, n, 0)) && u[8 * n] == Xor(s[8 * n], Absorb2(s, n - 1))
    && (forall b: nat, j: nat :: b < n && 2 <= j <= 7 ==> u[8 * b + j] == Absorbed(s, n, b, j))
    && (forall b: nat :: b + 1 < n ==> u[8 * b + 8] == s[8 * b + 8] && u[8 * b + 9] == s[8 * b + 9])
  }

  lemma {:induction false} Absorb4Same(s: seq<Half>, v: seq<Half>, n: nat, b: nat)
    requires b < n && 8 * n + 1 < |s| == |v| && v[8 * n + 1] == s[8 * n + 1]
    requires forall c: nat :: c + 1 < n ==> v[8 * c + 8] == s[8 * c + 8]
    ensures Absorb4(v, n, b) == Absorb4(s, n, b)
    decreases n - b
  {
    if b + 1 < n { Absorb4Same(s, v, n, b + 1); }
  }

  lemma BlockAbsorbed(s: seq<Half>, v: seq<Half>, u: seq<Half>, n: nat, b: nat, j: nat)
    requires b < n && 8 * n + 1 < |s| && 2 <= j <= 7
    requires BlockHas2(s, v, b, Absorb2(s, b)) && BlockHas4(v, u, b, Absorb4(s, n, b))
    ensures |u| == |s| && u[8 * b + j] == Absorbed(s, n, b, j)
  {
    hide Xor, Absorb2, Absorb4;
    assert j == 2 || j == 3 || j == 4 || j == 5 || j == 6 || j == 7;
  }

  lemma BothAbsorbed(s: seq<Half>, n: nat, v: seq<Half>, u: seq<Half>)
    requires Kw2Done(s, n, v) && Kw4Done(v, n, u)
    ensures n > 0 && 8 * n + 1 < |s| && AllAbsorbed(s, n, u)
  {
    hide Xor, Absorb2, Absorb4, BlockHas2, BlockHas4, Absorbed;
    var x := u[0 := v[0]];
    Absorb4Same(s, v, n, 0);
    forall b: nat, j: nat | b < n && 2 <= j <= 7 ensures u[8 * b + j] == Absorbed(s, n, b, j) {
      Absorb4Same(s, v, n, b);
      BlockAbsorbed(s, v, x, n, b, j);
      assert u[8 * b + j] == x[8 * b + j];
    }
    forall b: nat | b + 1 < n ensures u[8 * b + 8] == s[8 * b + 8] && u[8 * b + 9] == s[8 * b + 9] {
      assert x[8 * b + 8] == v[8 * b + 8] && x[8 * b + 9] == v[8 * b + 9];
    }
  }

  // ------------------------------------------------------- the subkey table

  // RoundKey, read off the absorbed subkeys.
  function Combined(u: seq<Half>, n: nat, b: nat, j: nat): Half
    requires b < n && 8 * n + 1 < |u| && 2 <= j <= 7
  {
    if j == 2 then (if b == 0 then u[3] else Xor(Carry(u[8 * b - 1], u[8 * b + 1]), u[8 * b + 3]))
    else if j == 7 then (if b + 1 == n then u[8 * b + 6] else Xor(u[8 * b + 6], Carry(u[8 * b + 10], u[8 * b + 8])))
    else Xor(u[8 * b + j - 1], u[8 * b + j + 1])
  }

  lemma CombinedIsKey(s: seq<Half>, n: nat, u: seq<Half>, b: nat, j: nat)
    requires b < n && 8 * n + 1 < |s| && AllAbsorbed(s, n, u) && 2 <= j <= 7
    ensures Combined(u, n, b, j) == RoundKey(s, n, b, j)
  {
    hide Xor, Carry, Absorbed, Absorb2, Absorb4;
    if j == 2 {
      if b > 0 {
        assert u[8 * (b - 1) + 7] == Absorbed(s, n, b - 1, 7) && u[8 * (b - 1) + 9] == s[8 * (b - 1) + 9];
      }
      assert u[8 * b + 3] == Absorbed(s, n, b, 3);
    } else if j == 7 {
      if b + 1 < n {
        assert u[8 * (b + 1) + 2] == Absorbed(s, n, b + 1, 2) && u[8 * b + 8] == s[8 * b + 8];
      }
      assert u[8 * b + 6] == Absorbed(s, n, b, 6);
    } else {
      assert u[8 * b + (j - 1)] == Absorbed(s, n, b, j - 1) && u[8 * b + (j + 1)] == Absorbed(s, n, b, j + 1);
    }
  }

  method StoreSix(subkey: array<Half>, i: nat, k: seq<Half>)
    requires i + 5 < subkey.Length && |k| == 6
    modifies subkey
    ensures subkey[..] == old(subkey[..i]) + k + old(subkey[i + 6..])
  {
    subkey[i] := k[0];
    subkey[i + 1] := k[1];
    subkey[i + 2] := k[2];
    subkey[i + 3] := k[3];
    subkey[i + 4] := k[4];
    subkey[i + 5] := k[5];
  }

  function CombinedSix(u: seq<Half>, n: nat, b: nat): seq<Half>
    requires b < n && 8 * n + 1 < |u|
  {
    [Combined(u, n, b, 2), Combined(u, n, b, 3), Combined(u, n, b, 4),
     Combined(u, n, b, 5), Combined(u, n, b, 6), Combined(u, n, b, 7)]
  }

  // The values camellia_setup_tail puts in SUBKEY(8b + 2) to SUBKEY(8b + 7).
  method SixKeys(sub: array<Half>, b: nat, n: nat) returns (k: seq<Half>)
    requires b < n && sub.Length > 8 * n + 1
    ensures k == CombinedSix(sub[..], n, b)
  {
    hide Xor, Carry;
    var i := 8 * b;
    var first := if b == 0 then sub[3] else Xor(Carry(sub[i - 1], sub[i + 1]), sub[i + 3]);
    var last := if b + 1 == n then sub[i + 6] else Xor(sub[i + 6], Carry(sub[i + 10], sub[i + 8]));
    assert first == Combined(sub[..], n, b, 2) && last == Combined(sub[..], n, b, 7);
    k := [first, Xor(sub[i + 2], sub[i + 4]), Xor(sub[i + 3], sub[i + 5]), Xor(sub[i + 4], sub[i + 6]),
          Xor(sub[i + 5], sub[i + 7]), last];
  }

  method CombineBlock(sub: array<Half>, subkey: array<Half>, b: nat, n: nat)
    requires b < n && sub != subkey && sub.Length > 8 * n + 1 && subkey.Length > 8 * n
    modifies subkey
    ensures subkey[..] == old(subkey[..8 * b + 2]) + CombinedSix(sub[..], n, b) + old(subkey[8 * b + 8..])
  {
    hide CombinedSix;
    var k := SixKeys(sub, b, n);
    SixLong(sub[..], n, b);
    StoreSix(subkey, 8 * b + 2, k);
  }

  lemma SixLong(u: seq<Half>, n: nat, b: nat)
    requires b < n && 8 * n + 1 < |u|
    ensures |CombinedSix(u, n, b)| == 6
  {
  }

  // The keys of FL and FLINV go in unchanged.
  method CopyTwo(sub: array<Half>, subkey: array<Half>, b: nat)
    requires sub != subkey && 8 * b + 9 < sub.Length && 8 * b + 9 < subkey.Length
    modifies subkey
    ensures subkey[..] == old(subkey[..8 * b + 8]) + sub[8 * b + 8..8 * b + 10] + old(subkey[8 * b + 10..])
  {
    subkey[8 * b + 8] := sub[8 * b + 8];
    subkey[8 * b + 9] := sub[8 * b + 9];
  }

  // Everything up to and with block b - 1 is in the table.
  ghost predicate CombinedTo(u: seq<Half>, n: nat, sk: seq<Half>, b: nat)
    requires b <= n && 8 * n + 1 < |u|
  {
    && 8 * n < |sk| && (b > 0 ==> sk[0] == Xor(u[0], u[2]))
    && (forall c: nat, j: nat :: c < b && 2 <= j <= 7 ==> sk[8 * c + j] == Combined(u, n, c, j))
    && (forall c: nat :: c < b && c + 1 < n ==> sk[8 * c + 8] == u[8 * c + 8] && sk[8 * c + 9] == u[8 * c + 9])
  }

  lemma CombinedNext(u: seq<Half>, n: nat, was: seq<Half>, sk: seq<Half>, b: nat)
    requires b < n && 8 * n + 1 < |u| && CombinedTo(u, n, was, b) && was[0] == Xor(u[0], u[2])
    requires |CombinedSix(u, n, b)| == 6
    requires sk == was[..8 * b + 2] + CombinedSix(u, n, b)
                   + if b + 1 < n then u[8 * b + 8..8 * b + 10] + was[8 * b + 10..] else was[8 * b + 8..]
    ensures CombinedTo(u, n, sk, b + 1) && sk[0] == was[0]
  {
    hide Xor, Combined;
    assert forall i :: 0 <= i < 8 * b + 2 ==> sk[i] == was[i];
    forall c: nat, j: nat | c < b + 1 && 2 <= j <= 7 ensures sk[8 * c + j] == Combined(u, n, c, j) {
      if c == b { assert sk[8 * b + 2 + (j - 2)] == CombinedSix(u, n, b)[j - 2]; }
    }
  }

  // Block b of the table.
  method FillBlock(sub: array<Half>, subkey: array<Half>, b: nat, n: nat)
    requires b < n && sub != subkey && sub.Length > 8 * n + 1 && subkey.Length > 8 * n
    requires CombinedTo(sub[..], n, subkey[..], b) && subkey[0] == Xor(sub[0], sub[2])
    modifies subkey
    ensures CombinedTo(sub[..], n, subkey[..], b + 1) && subkey[0] == old(subkey[0])
  {
    hide Xor, CombinedSix, CombinedTo;
    ghost var was := subkey[..];
    SixLong(sub[..], n, b);
    CombineBlock(sub, subkey, b, n);
    if b + 1 < n {
      ghost var mid := subkey[..];
      CopyTwo(sub, subkey, b);
      assert mid[..8 * b + 8] == was[..8 * b + 2] + CombinedSix(sub[..], n, b) && mid[8 * b + 10..] == was[8 * b + 10..];
      assert sub[..][8 * b + 8..8 * b + 10] == sub[8 * b + 8..8 * b + 10];
    }
    CombinedNext(sub[..], n, was, subkey[..], b);
  }

  // The lines of camellia_setup_tail that fill the table.
  method FillTable(sub: array<Half>, subkey: array<Half>, max: nat)
    requires (max == 24 || max == 32) && sub != subkey && sub.Length > max + 1 && subkey.Length > max
    modifies subkey
    ensures CombinedTo(sub[..], max / 8, subkey[..], max / 8) && subkey[max] == Xor(sub[max], sub[max - 1])
  {
    hide Xor, Combined;
    var n := max / 8;
    subkey[0] := Xor(sub[0], sub[2]);
    FillBlock(sub, subkey, 0, n);
    FillBlock(sub, subkey, 1, n);
    FillBlock(sub, subkey, 2, n);
    if max == 32 { FillBlock(sub, subkey, 3, n); }
    subkey[max] := Xor(sub[max], sub[max - 1]);
  }

  // The body of the loop that ends camellia_setup_tail.
  method UnmixSix(subkey: array<Half>, i: nat)
    requires i + 5 < subkey.Length
    modifies subkey
    ensures forall j :: i <= j < i + 6 ==> subkey[j] == Unmix(old(subkey[j]))
    ensures forall j :: 0 <= j < subkey.Length && !(i <= j < i + 6) ==> subkey[j] == old(subkey[j])
  {
    hide Unmix;
    subkey[i] := Unmix(subkey[i]);
    subkey[i + 1] := Unmix(subkey[i + 1]);
    subkey[i + 2] := Unmix(subkey[i + 2]);
    subkey[i + 3] := Unmix(subkey[i + 3]);
    subkey[i + 4] := Unmix(subkey[i + 4]);
    subkey[i + 5] := Unmix(subkey[i + 5]);
  }

  // Block b has been unmixed, its two keys for FL and FLINV left alone.
  ghost predicate UnmixedBlock(raw: seq<Half>, sk: seq<Half>, b: nat) {
    && 8 * b + 7 < |raw| == |sk| && sk[8 * b] == raw[8 * b] && sk[8 * b + 1] == raw[8 * b + 1]
    && (forall i :: 8 * b + 2 <= i < 8 * b + 8 ==> sk[i] == Unmix(raw[i]))
  }

  method UnmixAll(subkey: array<Half>, max: nat)
    requires max % 8 == 0 && max > 0 && subkey.Length > max
    modifies subkey
    ensures forall b: nat :: b < max / 8 ==> UnmixedBlock(old(subkey[..]), subkey[..], b)
    ensures subkey[max] == old(subkey[max])
  {
    hide Unmix;
    ghost var raw := subkey[..];
    var i := 2;
    ghost var c := 0;
    while i < max
      invariant i == 8 * c + 2 && 8 * c <= max
      invariant forall b: nat :: b < c ==> UnmixedBlock(raw, subkey[..], b)
      invariant forall j :: 8 * c <= j < subkey.Length ==> subkey[j] == raw[j]
      decreases max - i
    {
      ghost var was := subkey[..];
      UnmixSix(subkey, i);
      ghost var now := subkey[..];
      forall b: nat | b < c + 1 ensures UnmixedBlock(raw, now, b) {
        assert b < c ==> UnmixedBlock(raw, was, b);
      }
      i, c := i + 8, c + 1;
    }
  }

  // camellia_setup_tail; sub stands for subL and subR, which are changed in place.
  method SetupTail(subkey: array<Half>, sub: array<Half>, max: nat)
    requires (max == 24 || max == 32) && sub != subkey && sub.Length > max + 1 && subkey.Length > max
    modifies subkey, sub
    ensures Scheduled(old(sub[..]), max / 8, subkey[..])
  {
    hide Kw2Done, Kw4Done, AllAbsorbed, CombinedTo, Xor, Unmix, Scheduled, UnmixedBlock;
    ghost var s, n := sub[..], max / 8;
    AbsorbKw2(sub, max);
    ghost var v := sub[..];
    AbsorbKw4(sub, max);
    ghost var u := sub[..];
    BothAbsorbed(s, n, v, u);
    FillTable(sub, subkey, max);
    ghost var raw := subkey[..];
    UnmixAll(subkey, max);
    TableIsSchedule(s, n, u, raw, subkey[..]);
  }

  lemma TableIsSchedule(s: seq<Half>, n: nat, u: seq<Half>, raw: seq<Half>, sk: seq<Half>)
    requires n > 0 && 8 * n + 1 < |s| && AllAbsorbed(s, n, u) && CombinedTo(u, n, raw, n) && |sk| == |raw|
    requires raw[8 * n] == Xor(u[8 * n], u[8 * n - 1]) == sk[8 * n]
    requires forall b: nat :: b < n ==> UnmixedBlock(raw, sk, b)
    ensures Scheduled(s, n, sk)
  {
    hide Xor, Unmix, RoundKey, Combined, Absorbed, Absorb2, Absorb4;
    assert u[8 * 0 + 2] == Absorbed(s, n, 0, 2) && u[8 * (n - 1) + 7] == Absorbed(s, n, n - 1, 7);
    assert UnmixedBlock(raw, sk, 0);
    forall b: nat, j: nat | b < n && 2 <= j <= 7 ensures sk[8 * b + j] == Unmix(RoundKey(s, n, b, j)) {
      CombinedIsKey(s, n, u, b, j);
      assert UnmixedBlock(raw, sk, b);
    }
    forall b: nat | b + 1 < n ensures sk[8 * b + 8] == s[8 * b + 8] && sk[8 * b + 9] == s[8 * b + 9] {
      assert UnmixedBlock(raw, sk, b + 1);
    }
  }
}
