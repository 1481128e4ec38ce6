// Words of 32 bits: operations by name, so that proofs can leave their bits alone.
module Words {

  function Xw(a: bv32, b: bv32): bv32 { a ^ b }

  function And(a: bv32, b: bv32): bv32 { a & b }

  function Or(a: bv32, b: bv32): bv32 { a | b }

  function Not(a: bv32): bv32 { !a }

  lemma AndBits(x: bv32, d: bv32, k: bv32)
    ensures (x ^ d) & k == (x & k) ^ (d & k)
  {
  }

  lemma AndLinear(x: bv32, d: bv32, k: bv32)
    ensures And(Xw(x, d), k) == Xw(And(x, k), And(d, k))
  {
    AndBits(x, d, k);
  }

  lemma OrAsXor(x: bv32, k: bv32)
    ensures Or(x, k) == Xw(And(x, Not(k)), k)
  {
  }

  lemma WordComm(a: bv32, b: bv32)
    ensures Xw(a, b) == Xw(b, a)
  {
  }

  lemma WordAssoc(a: bv32, b: bv32, c: bv32)
    ensures Xw(Xw(a, b), c) == Xw(a, Xw(b, c))
  {
  }

  lemma WordCancel(a: bv32, b: bv32)
    ensures Xw(Xw(a, b), b) == a
  {
  }

  lemma WordGroup(a: bv32, b: bv32, c: bv32)
    ensures Xw(a, b) == Xw(b, a) && Xw(Xw(a, b), c) == Xw(a, Xw(b, c))
    ensures Xw(a, Xw(a, b)) == b && Xw(Xw(a, b), b) == a
  {
    hide Xw;
    WordComm(a, b);
    WordAssoc(a, b, c);
    WordCancel(a, b);
    WordCancel(b, a);
    WordComm(a, Xw(b, a));
  }

  lemma OrSplits(x: bv32, d: bv32, k: bv32)
    ensures Or(Xw(x, d), k) == Xw(Or(x, k), And(d, Not(k)))
  {
    hide Xw, Or, And, Not;
    OrAsXor(x, k);
    OrAsXor(Xw(x, d), k);
    AndLinear(x, d, Not(k));
    var a, b := And(x, Not(k)), And(d, Not(k));
    WordGroup(a, b, k);
    WordGroup(b, k, 0);
    WordGroup(a, k, b);
  }

  lemma WordSwap(a: bv32, b: bv32, c: bv32, d: bv32)
    ensures Xw(Xw(a, b), Xw(c, d)) == Xw(Xw(a, c), Xw(b, d))
  {
    hide Xw;
    WordGroup(a, b, Xw(c, d));
    WordGroup(b, c, d);
    WordGroup(c, b, d);
    WordGroup(a, c, Xw(b, d));
  }
}
