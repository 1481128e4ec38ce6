// crypto_inc of crypto/algapi.c: the counter block as a big-endian number.
module Increment {
  import opened Bytes

  lemma {:induction false} ValueConcat(a: seq<Byte>, b: seq<Byte>)
    ensures Value(a + b) == Value(a) * Pow256(|b|) + Value(b)
    decreases |b|
  {
    if b == [] {
      assert a + b == a;
    } else {
      var n := |b| - 1;
      assert (a + b)[..|a| + n] == a + b[..n];
      assert Value(a + b) == 256 * Value(a + b[..n]) + b[n];
      assert Value(b) == 256 * Value(b[..n]) + b[n] && Pow256(|b|) == 256 * Pow256(n);
      ValueConcat(a, b[..n]);
      hide Value, Pow256;
      Scale(Value(a), Pow256(n), Value(b[..n]), b[n]);
    }
  }

  lemma Scale(v: nat, p: nat, w: nat, x: nat)
    ensures 256 * (v * p + w) + x == v * (256 * p) + (256 * w + x)
  {
  }

  function Ones(k: nat): (s: seq<Byte>)
    ensures |s| == k && forall i :: 0 <= i < k ==> s[i] == 255
  {
    seq(k, _ => 255)
  }

  lemma {:induction false} ValueEnds(k: nat)
    ensures Value(Zeros(k)) == 0 && Value(Ones(k)) + 1 == Pow256(k)
  {
    if k > 0 {
      ValueEnds(k - 1);
      assert Zeros(k)[..k - 1] == Zeros(k - 1) && Ones(k)[..k - 1] == Ones(k - 1);
    }
  }

  // The number after n on k bytes.
  function Inc(s: seq<Byte>): (r: seq<Byte>)
    ensures |r| == |s|
  {
    Be((Value(s) + 1) % Pow256(|s|), |s|)
  }

  // A carry goes through the trailing ones.
  lemma Carry(a: seq<Byte>, b: seq<Byte>, k: nat)
    requires |a| == |b| && Value(b) == Value(a) + 1
    ensures b + Zeros(k) == Inc(a + Ones(k))
  {
    ValueEnds(k);
    ValueConcat(a, Ones(k));
    ValueConcat(b, Zeros(k));
    hide Value, Pow256, Inc;
    Once(Value(a), Pow256(k));
    Only(b + Zeros(k), a + Ones(k));
  }

  lemma Once(v: nat, p: nat)
    ensures (v + 1) * p == v * p + p
  {
  }

  lemma Only(r: seq<Byte>, s: seq<Byte>)
    requires |r| == |s| && Value(r) == Value(s) + 1
    ensures r == Inc(s)
  {
    ValueFits(r);
    ValueBe(r);
    Small(Value(r), Pow256(|r|));
  }

  lemma Small(n: nat, p: nat)
    requires n < p
    ensures n % p == n
  {
  }

  // All ones wrap to zeros.
  lemma Wrap(k: nat)
    ensures Zeros(k) == Inc(Ones(k))
  {
    ValueEnds(k);
    ValueBe(Zeros(k));
    Self(Pow256(k));
  }

  lemma Self(p: nat)
    requires p > 0
    ensures p % p == 0
  {
  }

  lemma OnesMore(k: nat, n: nat)
    ensures Ones(n) + Ones(k) == Ones(n + k) && Zeros(n) + Zeros(k) == Zeros(n + k)
  {
  }

  // One place, a word or a byte, of a number with trailing ones.
  method IncPlace(a: array<Byte>, size: nat, w: nat, ghost s: seq<Byte>) returns (done: bool)
    requires w <= size <= a.Length == |s| && w > 0
    requires a[..size] == s[..size] && s[size..] == Ones(|s| - size) && a[size..] == Zeros(|s| - size)
    modifies a
    ensures done ==> a[..] == Inc(s)
    ensures !done ==> a[..size - w] == s[..size - w] && s[size - w..] == Ones(|s| - (size - w)) && a[size - w..] == Zeros(|s| - (size - w))
  {
    var c := (Value(a[size - w..size]) + 1) % Pow256(w);
    ghost var head, place, k := s[..size - w], s[size - w..size], |s| - size;
    assert a[size - w..size] == place;
    ghost var before := a[..size - w];
    Copy(a, size - w, Be(c, w));
    assert a[..] == before + Be(c, w) + Zeros(k);
    assert s == head + place + Ones(k);
    done := c != 0;
    hide Be, Value, Pow256, Inc;
    if done { Stops(head, place, k, c); } else { Full(place, w); OnesMore(k, w); }
  }

  lemma Stops(head: seq<Byte>, place: seq<Byte>, k: nat, c: nat)
    requires c == (Value(place) + 1) % Pow256(|place|) && c != 0
    ensures head + Be(c, |place|) + Zeros(k) == Inc(head + place + Ones(k))
  {
    hide Value, Pow256, Inc, Be;
    var w := |place|;
    ValueFits(place);
    Fits(Value(place) + 1, Pow256(w));
    BeValue(c, w);
    ValueConcat(head, place);
    ValueConcat(head, Be(c, w));
    Carry(head + place, head + Be(c, w), k);
  }

  lemma Fits(n: nat, p: nat)
    requires 0 < p && n <= p && n % p != 0
    ensures n < p && n % p == n
  {
    if n == p { Self(p); } else { Small(n, p); }
  }

  // The only number that wraps.
  lemma Full(s: seq<Byte>, w: nat)
    requires |s| == w && (Value(s) + 1) % Pow256(w) == 0
    ensures s == Ones(w) && Be(0, w) == Zeros(w)
  {
    ValueFits(s);
    ValueEnds(w);
    if Value(s) + 1 < Pow256(w) { Small(Value(s) + 1, Pow256(w)); }
    ValueBe(s);
    ValueBe(Ones(w));
    ValueBe(Zeros(w));
  }

  // crypto_inc: words from the end while four bytes are left, then bytes. Adds one modulo
  // 256^size whatever the size.
  method CryptoInc(a: array<Byte>)
    modifies a
    ensures a[..] == Inc(old(a[..]))
  {
    ghost var s := a[..];
    var size := a.Length;
    assert a[size..] == Zeros(0) && s[size..] == Ones(0);
    var done;
    while size >= 4
      invariant 0 <= size <= a.Length && a[..size] == s[..size] && s[size..] == Ones(|s| - size)
      invariant a[size..] == Zeros(|s| - size)
    {
      done := IncPlace(a, size, 4, s);
      if done { return; }
      size := size - 4;
    }
    while size > 0
      invariant 0 <= size <= a.Length && a[..size] == s[..size] && s[size..] == Ones(|s| - size)
      invariant a[size..] == Zeros(|s| - size)
    {
      done := IncPlace(a, size, 1, s);
      if done { return; }
      size := size - 1;
    }
    Wrap(|s|);
    assert a[0..] == a[..] && s[0..] == s;
  }
}
