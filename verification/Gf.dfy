// Bytes as elements of GF(2^8) (crypto/aes_generic.c): addition is exclusive or, and
// multiplication by x reduces modulo 0x11b.
module Gf {

  // Byte operations, named so that proofs can leave their bits alone.
  function X(a: bv8, b: bv8): bv8 { a ^ b }

  // Multiplication by x in GF(2^8) modulo 0x11b.
  function Dbl(a: bv8): bv8 { X(Up(a), Top(a)) }

  function Up(a: bv8): bv8 { a << 1 }

  function Top(a: bv8): bv8 { if a & 0x80 != 0 then 0x1b else 0 }

  function Dbl2(a: bv8): bv8 { Dbl(Dbl(a)) }

  function Dbl3(a: bv8): bv8 { Dbl(Dbl(Dbl(a))) }

  function M3(a: bv8): bv8 { X(Dbl(a), a) }

  function M9(a: bv8): bv8 { X(Dbl3(a), a) }

  function M11(a: bv8): bv8 { X(Dbl(a), M9(a)) }

  function M13(a: bv8): bv8 { X(Dbl2(a), M9(a)) }

  function M14(a: bv8): bv8 { X(X(Dbl(a), Dbl2(a)), Dbl3(a)) }

  function Sum4(a: bv8, b: bv8, c: bv8, d: bv8): bv8 { X(X(X(a, b), c), d) }

  lemma Comm(a: bv8, b: bv8)
    ensures X(a, b) == X(b, a)
  {
  }

  lemma Assoc(a: bv8, b: bv8, c: bv8)
    ensures X(X(a, b), c) == X(a, X(b, c))
  {
  }

  lemma Twice(a: bv8, b: bv8)
    ensures X(X(a, b), b) == a
  {
  }

  lemma Swap(a: bv8, b: bv8, c: bv8, d: bv8)
    ensures X(X(a, b), X(c, d)) == X(X(a, c), X(b, d))
  {
    hide X;
    Assoc(a, b, X(c, d));
    Assoc(b, c, d);
    Comm(b, c);
    Assoc(c, b, d);
    Assoc(a, c, X(b, d));
  }

  // A sum of four in any rotation.
  lemma Gather(p: bv8, q: bv8, r: bv8, s: bv8)
    ensures X(p, X(X(q, r), s)) == Sum4(p, q, r, s) == Sum4(s, p, q, r) == Sum4(r, s, p, q) == Sum4(q, r, s, p)
  {
    hide X;
    Turn(p, q, r, s);
    Turn(s, p, q, r);
    Turn(r, s, p, q);
    Assoc(p, X(q, r), s);
    Assoc(p, q, r);
  }

  lemma Turn(p: bv8, q: bv8, r: bv8, s: bv8)
    ensures Sum4(p, q, r, s) == Sum4(s, p, q, r)
  {
    hide X;
    Comm(X(X(p, q), r), s);
    Assoc(s, X(p, q), r);
    Assoc(s, p, q);
  }

  lemma UpLinear(a: bv8, b: bv8)
    ensures Up(X(a, b)) == X(Up(a), Up(b))
  {
  }

  lemma TopLinear(a: bv8, b: bv8)
    ensures Top(X(a, b)) == X(Top(a), Top(b))
  {
  }

  lemma DblLinear(a: bv8, b: bv8)
    ensures Dbl(X(a, b)) == X(Dbl(a), Dbl(b))
  {
    hide X, Up, Top;
    UpLinear(a, b);
    TopLinear(a, b);
    Swap(Up(a), Up(b), Top(a), Top(b));
  }

  // The product of the two mixing matrices is one: entry by entry, for any byte.
  lemma Entries0(a: bv8)
    ensures Sum4(M14(Dbl(a)), M11(a), M13(a), M9(M3(a))) == a
    ensures Sum4(M14(M3(a)), M11(Dbl(a)), M13(a), M9(a)) == 0
    ensures Sum4(M14(a), M11(M3(a)), M13(Dbl(a)), M9(a)) == 0
    ensures Sum4(M14(a), M11(a), M13(M3(a)), M9(Dbl(a))) == 0
  {
  }

  lemma Entries1(a: bv8)
    ensures Sum4(M9(Dbl(a)), M14(a), M11(a), M13(M3(a))) == 0
    ensures Sum4(M9(M3(a)), M14(Dbl(a)), M11(a), M13(a)) == a
    ensures Sum4(M9(a), M14(M3(a)), M11(Dbl(a)), M13(a)) == 0
    ensures Sum4(M9(a), M14(a), M11(M3(a)), M13(Dbl(a))) == 0
  {
  }

  lemma Entries2(a: bv8)
    ensures Sum4(M13(Dbl(a)), M9(a), M14(a), M11(M3(a))) == 0
    ensures Sum4(M13(M3(a)), M9(Dbl(a)), M14(a), M11(a)) == 0
    ensures Sum4(M13(a), M9(M3(a)), M14(Dbl(a)), M11(a)) == a
    ensures Sum4(M13(a), M9(a), M14(M3(a)), M11(Dbl(a))) == 0
  {
  }

  lemma Entries3(a: bv8)
    ensures Sum4(M11(Dbl(a)), M13(a), M9(a), M14(M3(a))) == 0
    ensures Sum4(M11(M3(a)), M13(Dbl(a)), M9(a), M14(a)) == 0
    ensures Sum4(M11(a), M13(M3(a)), M9(Dbl(a)), M14(a)) == 0
    ensures Sum4(M11(a), M13(a), M9(M3(a)), M14(Dbl(a))) == a
  {
  }
}
