// Transitive invalidation of the users of an algorithm (crypto/algapi.c): a worklist of spawns
// over a graph of algorithms and the instances built on them.
module RemoveSpawns {
  import opened Collections

  // spawn->inst, the instances whose template reference can be taken, and spawn->mask.
  datatype Links = Links(inst: nat -> nat, able: set<nat>, mask: nat -> bv32)

  // cra_users of each algorithm, the algorithms marked CRYPTO_ALG_DEAD, the instances hashed on
  // their template, the spawns whose alg is NULL, and the output list.
  datatype Registry = Registry(users: map<nat, seq<nat>>, dead: set<nat>, hashed: set<nat>, cleared: set<nat>,
                               out: seq<nat>)

  function Users(r: Registry, i: nat): seq<nat> { if i in r.users then r.users[i] else [] }

  // crypto_remove_spawn: the new registry and the spawns spliced onto the secondary list.
  function Removed(g: Links, r: Registry, s: nat): (Registry, seq<nat>) {
    var i := g.inst(s);
    var r1 := r.(cleared := r.cleared + {s});
    if i in r.dead then (r1, [])
    else
      var r2 := r1.(dead := r.dead + {i});
      if i !in r.hashed || i !in g.able then (r2, [])
      else (r2.(hashed := r.hashed - {i}, out := [i] + r.out, users := r.users[i := []]), Users(r, i))
  }

  // ------------------------------------------------------- reachability

  // A live registered instance whose template can be held hands its own users on.
  predicate Passes(g: Links, r: Registry, i: nat) { i !in r.dead && i in r.hashed && i in g.able }

  // A chain of spawns from a root, each a user of the instance the one before belongs to.
  ghost predicate Chain(g: Links, r: Registry, roots: set<nat>, p: seq<nat>) {
    && |p| > 0 && p[0] in roots
    && forall k :: 1 <= k < |p| ==> Follows(g, r, p[k - 1], p[k])
  }

  predicate Follows(g: Links, r: Registry, s: nat, t: nat) { Passes(g, r, g.inst(s)) && t in Users(r, g.inst(s)) }

  ghost predicate Reached(g: Links, r: Registry, roots: set<nat>, s: nat) {
    exists p :: Chain(g, r, roots, p) && p[|p| - 1] == s
  }

  ghost predicate ReachedInst(g: Links, r: Registry, roots: set<nat>, i: nat) {
    exists s :: Reached(g, r, roots, s) && g.inst(s) == i
  }

  lemma RootReached(g: Links, r: Registry, roots: set<nat>, s: nat)
    requires s in roots
    ensures Reached(g, r, roots, s)
  {
    assert Chain(g, r, roots, [s]);
    assert [s][|[s]| - 1] == s;
  }

  lemma NextReached(g: Links, r: Registry, roots: set<nat>, s: nat, t: nat)
    requires Reached(g, r, roots, s) && Follows(g, r, s, t)
    ensures Reached(g, r, roots, t)
  {
    hide Follows;
    var p :| Chain(g, r, roots, p) && p[|p| - 1] == s;
    var q := p + [t];
    forall k | 1 <= k < |q| ensures Follows(g, r, q[k - 1], q[k]) {
      if k < |p| { assert q[k - 1] == p[k - 1] && q[k] == p[k]; }
    }
    assert q[|q| - 1] == t;
  }

  // Instances are built after what they use, so the walk cannot come back to its root.
  ghost predicate BuiltInOrder(g: Links, r: Registry, rank: nat -> nat) {
    forall a, s :: s in Users(r, a) ==> rank(a) < rank(g.inst(s))
  }

  lemma {:induction false} RankGrows(g: Links, r: Registry, roots: set<nat>, p: seq<nat>, rank: nat -> nat, root: nat)
    requires Chain(g, r, roots, p) && BuiltInOrder(g, r, rank)
    requires forall s :: s in roots ==> s in Users(r, root)
    ensures rank(root) < rank(g.inst(p[|p| - 1]))
    decreases |p|
  {
    var n := |p|;
    if n > 1 {
      RankGrows(g, r, roots, p[..n - 1], rank, root);
      assert Follows(g, r, p[n - 2], p[n - 1]);
    }
  }

  lemma RootNotReached(g: Links, r: Registry, roots: set<nat>, rank: nat -> nat, root: nat)
    requires BuiltInOrder(g, r, rank) && forall s :: s in roots ==> s in Users(r, root)
    ensures !ReachedInst(g, r, roots, root)
  {
    forall s | Reached(g, r, roots, s) ensures g.inst(s) != root {
      var p :| Chain(g, r, roots, p) && p[|p| - 1] == s;
      RankGrows(g, r, roots, p, rank, root);
    }
  }

  // ------------------------------------------------------- the worklist invariant

  ghost predicate Hit(g: Links, done: set<nat>, i: nat) { exists s :: s in done && g.inst(s) == i }

  // done are the spawns removed so far, pending the ones on a list; r0 is the registry before.
  ghost predicate Walk(g: Links, r0: Registry, roots: set<nat>, done: set<nat>, pending: set<nat>) {
    && (forall s :: s in done || s in pending ==> Reached(g, r0, roots, s))
    && (forall s :: s in roots ==> s in done || s in pending)
    && (forall s, t :: s in done && Follows(g, r0, s, t) ==> t in done || t in pending)
  }

  ghost predicate Marked(g: Links, r0: Registry, root: nat, done: set<nat>, moved: seq<nat>, r: Registry) {
    && r.cleared == r0.cleared + done
    && (forall i :: i in r.dead <==> i in r0.dead || Hit(g, done, i))
    && (forall i :: i in r.hashed <==> i in r0.hashed && !(Passes(g, r0, i) && Hit(g, done, i)))
    && (forall i :: i != root ==> Users(r, i) == if i in moved then [] else Users(r0, i))
    && r.out == moved + r0.out && Distinct(moved)
    && (forall i :: i in moved <==> Passes(g, r0, i) && Hit(g, done, i))
  }

  function Elements(l: seq<nat>): set<nat> { set s | s in l }

  lemma HitMore(g: Links, done: set<nat>, s: nat, i: nat)
    ensures Hit(g, done + {s}, i) <==> Hit(g, done, i) || g.inst(s) == i
  {
    if g.inst(s) == i { assert s in done + {s}; }
    if Hit(g, done, i) {
      var t :| t in done && g.inst(t) == i;
      assert t in done + {s};
    }
  }

  lemma RemoveMarks(g: Links, r0: Registry, root: nat, done: set<nat>, moved: seq<nat>, r: Registry, s: nat)
    returns (more: seq<nat>)
    requires Marked(g, r0, root, done, moved, r)
    ensures more == moved || more == [g.inst(s)] + moved
    ensures Marked(g, r0, root, done + {s}, more, Removed(g, r, s).0)
  {
    var i := g.inst(s);
    forall j ensures Hit(g, done + {s}, j) <==> Hit(g, done, j) || i == j { HitMore(g, done, s, j); }
    hide Hit;
    if i !in r.dead && i in r.hashed && i in g.able {
      more := [i] + moved;
      assert more + r0.out == [i] + (moved + r0.out);
    } else {
      more := moved;
    }
  }

  // What crypto_remove_spawn splices is exactly what the spawn leads to and is not yet covered.
  lemma RemoveWalks(g: Links, r0: Registry, roots: set<nat>, root: nat, done: set<nat>, moved: seq<nat>, rest: set<nat>,
                    r: Registry, s: nat)
    requires Walk(g, r0, roots, done, rest + {s}) && Marked(g, r0, root, done, moved, r) && g.inst(s) != root
    ensures Walk(g, r0, roots, done + {s}, rest + Elements(Removed(g, r, s).1))
  {
    var i := g.inst(s);
    var spliced := Removed(g, r, s).1;
    var more := rest + Elements(spliced);
    forall t | Follows(g, r0, s, t) ensures t in done + {s} || t in more {
      if Hit(g, done, i) {
        var u :| u in done && g.inst(u) == i;
        assert Follows(g, r0, u, t);
      } else {
        assert t in spliced;
      }
    }
    forall t | t in more ensures Reached(g, r0, roots, t) {
      if t in spliced {
        assert Follows(g, r0, s, t);
        NextReached(g, r0, roots, s, t);
      }
    }
  }

  // When nothing is pending, everything reachable has been removed.
  lemma {:induction false} ChainDone(g: Links, r0: Registry, roots: set<nat>, done: set<nat>, p: seq<nat>)
    requires Walk(g, r0, roots, done, {}) && Chain(g, r0, roots, p)
    ensures p[|p| - 1] in done
    decreases |p|
  {
    var n := |p|;
    if n > 1 {
      ChainDone(g, r0, roots, done, p[..n - 1]);
      assert Follows(g, r0, p[n - 2], p[n - 1]);
    }
  }

  lemma WalkComplete(g: Links, r0: Registry, roots: set<nat>, done: set<nat>)
    requires Walk(g, r0, roots, done, {})
    ensures forall s :: s in done <==> Reached(g, r0, roots, s)
    ensures forall i :: Hit(g, done, i) <==> ReachedInst(g, r0, roots, i)
  {
    forall s ensures s in done <==> Reached(g, r0, roots, s) {
      if Reached(g, r0, roots, s) {
        var p :| Chain(g, r0, roots, p) && p[|p| - 1] == s;
        ChainDone(g, r0, roots, done, p);
      }
    }
    hide Reached;
  }

  // ------------------------------------------------------- the registry as the source keeps it

  // The test that spares a spawn: ((alg->cra_flags ^ new_type) & mask) is zero for a removal.
  predicate Selected(g: Links, flags: bv32, newType: bv32, s: nat) { Alike(flags, newType, g.mask(s)) }

  predicate Alike(a: bv32, b: bv32, k: bv32) { (a ^ b) & k == 0 }

  predicate Agree(a: bv32, b: bv32, k: bv32) { a & k == b & k }

  lemma AgreeBits(a: bv32, b: bv32, k: bv32)
    ensures (a ^ b) & k == 0 <==> a & k == b & k
  {
  }

  lemma AlikeAgree(a: bv32, b: bv32, k: bv32)
    ensures Alike(a, b, k) <==> Agree(a, b, k)
  {
    AgreeBits(a, b, k);
  }

  // It is removed exactly if the new type agrees with the algorithm's flags wherever its mask looks.
  lemma SelectedAgrees(g: Links, flags: bv32, newType: bv32, s: nat)
    ensures Selected(g, flags, newType, s) <==> Agree(flags, newType, g.mask(s))
  {
    hide Alike, Agree;
    AlikeAgree(flags, newType, g.mask(s));
  }

  function Spared(g: Links, flags: bv32, newType: bv32, l: seq<nat>): seq<nat> {
    if l == [] then []
    else Spared(g, flags, newType, l[..|l| - 1]) + if Selected(g, flags, newType, l[|l| - 1]) then [] else [l[|l| - 1]]
  }

  // What is spared is what is not selected, in the order of the list.
  lemma {:induction false} SparedAre(g: Links, flags: bv32, newType: bv32, l: seq<nat>)
    ensures forall s :: s in Spared(g, flags, newType, l) <==> s in l && !Selected(g, flags, newType, s)
    decreases |l|
  {
    hide Selected;
    if l != [] {
      SparedAre(g, flags, newType, l[..|l| - 1]);
      assert l == l[..|l| - 1] + [l[|l| - 1]];
    }
  }

  lemma {:induction false} SparedInOrder(g: Links, flags: bv32, newType: bv32, a: seq<nat>, b: seq<nat>)
    ensures Spared(g, flags, newType, a + b) == Spared(g, flags, newType, a) + Spared(g, flags, newType, b)
    decreases |b|
  {
    hide Selected;
    if b == [] {
      assert a + b == a;
    } else {
      SparedInOrder(g, flags, newType, a, b[..|b| - 1]);
      assert (a + b)[..|a + b| - 1] == a + b[..|b| - 1];
    }
  }

  ghost function Roots(g: Links, flags: bv32, newType: bv32, l: seq<nat>): set<nat> {
    set s | s in l && Selected(g, flags, newType, s)
  }

  // What crypto_remove_spawns promises about the registry r it leaves, from r0.
  ghost predicate Invalidated(g: Links, r0: Registry, root: nat, roots: set<nat>, moved: seq<nat>, r: Registry) {
    && (forall i :: i in r.dead <==> i in r0.dead || ReachedInst(g, r0, roots, i))
    && (forall s :: s in r.cleared <==> s in r0.cleared || Reached(g, r0, roots, s))
    && (forall i :: i in r.hashed <==> i in r0.hashed && !(Passes(g, r0, i) && ReachedInst(g, r0, roots, i)))
    && r.out == moved + r0.out && Distinct(moved)
    && (forall i :: i in moved <==> Passes(g, r0, i) && ReachedInst(g, r0, roots, i))
    && (forall i :: i != root ==> Users(r, i) == if i in moved then [] else Users(r0, i))
  }

  lemma WalkInvalidates(g: Links, r0: Registry, roots: set<nat>, root: nat, done: set<nat>, moved: seq<nat>,
                        r: Registry)
    requires Walk(g, r0, roots, done, {}) && Marked(g, r0, root, done, moved, r)
    ensures Invalidated(g, r0, root, roots, moved, r)
  {
    WalkComplete(g, r0, roots, done);
    hide Reached, ReachedInst, Hit, Walk;
  }

  ghost predicate OnTheWay(g: Links, r0: Registry, roots: set<nat>, root: nat, done: set<nat>, moved: seq<nat>,
                           pending: set<nat>, r: Registry) {
    Walk(g, r0, roots, done, pending) && Marked(g, r0, root, done, moved, r)
  }

  lemma Removing(g: Links, r0: Registry, roots: set<nat>, root: nat, done: set<nat>, moved: seq<nat>, rest: set<nat>,
                 r: Registry, s: nat)
    returns (more: seq<nat>)
    requires OnTheWay(g, r0, roots, root, done, moved, rest + {s}, r) && !ReachedInst(g, r0, roots, root)
    ensures var (q, spliced) := Removed(g, r, s);
            && OnTheWay(g, r0, roots, root, done + {s}, more, rest + Elements(spliced), q)
            && |q.hashed| <= |r.hashed| && (spliced != [] ==> |q.hashed| < |r.hashed|)
            && Users(q, root) == Users(r, root)
  {
    assert s in rest + {s};
    assert Reached(g, r0, roots, s) && g.inst(s) != root;
    RemoveWalks(g, r0, roots, root, done, moved, rest, r, s);
    more := RemoveMarks(g, r0, root, done, moved, r, s);
    hide Walk, Marked, Reached, ReachedInst, Elements;
    RemovedShrinks(g, r, s, root);
    hide Removed, Users;
  }

  lemma RemovedShrinks(g: Links, r: Registry, s: nat, root: nat)
    requires g.inst(s) != root
    ensures var (q, spliced) := Removed(g, r, s);
            |q.hashed| <= |r.hashed| && (spliced != [] ==> |q.hashed| < |r.hashed|) && Users(q, root) == Users(r, root)
  {
    if g.inst(s) in r.hashed {
      var fewer := r.hashed - {g.inst(s)};
      assert r.hashed == fewer + {g.inst(s)};
    }
  }

  class CryptoRegistry {
    const g: Links
    var users: map<nat, seq<nat>>
    var dead: set<nat>
    var hashed: set<nat>
    var cleared: set<nat>
    var out: seq<nat>

    ghost function Value(): Registry reads this { Registry(users, dead, hashed, cleared, out) }

    function UsersOf(i: nat): seq<nat> reads this { if i in users then users[i] else [] }

    // crypto_remove_spawn, once the spawn is off its list
    method RemoveSpawn(s: nat) returns (spliced: seq<nat>)
      modifies this
      ensures (Value(), spliced) == Removed(g, old(Value()), s)
    {
      var i := g.inst(s);
      cleared := cleared + {s};
      if i in dead { return []; }
      dead := dead + {i};
      if i !in hashed { return []; }
      if i !in g.able { return []; }
      out := [i] + out;
      hashed := hashed - {i};
      spliced := UsersOf(i);
      users := users[i := []];
    }

    // crypto_remove_spawns
    method RemoveSpawns(root: nat, flags: bv32, newType: bv32, ghost rank: nat -> nat)
      returns (ghost roots: set<nat>, ghost moved: seq<nat>)
      requires BuiltInOrder(g, Value(), rank)
      modifies this
      ensures roots == Roots(g, flags, newType, old(UsersOf(root)))
      ensures Invalidated(g, old(Value()), root, roots, moved, Value())
      ensures UsersOf(root) == Spared(g, flags, newType, old(UsersOf(root)))
    {
      ghost var r0 := Value();
      var spawns := UsersOf(root);
      roots := Roots(g, flags, newType, spawns);
      RootNotReached(g, r0, roots, rank, root);
      ghost var done: set<nat>;
      var secondary;
      secondary, done, moved := RemoveSelected(root, flags, newType, r0, roots);
      hide Removed, OnTheWay, ReachedInst, BuiltInOrder;
      while secondary != []
        invariant OnTheWay(g, r0, roots, root, done, moved, Elements(secondary), Value())
        invariant Users(Value(), root) == Spared(g, flags, newType, spawns)
        decreases |hashed|, |secondary|
      {
        secondary, done, moved := RemovePass(secondary, root, r0, roots, done, moved);
      }
      assert Elements(secondary) == {};
      Ended(g, r0, roots, root, done, moved, Value());
    }

    // The first loop: the selected spawns of the root.
    method RemoveSelected(root: nat, flags: bv32, newType: bv32, ghost r0: Registry, ghost roots: set<nat>)
      returns (secondary: seq<nat>, ghost done: set<nat>, ghost moved: seq<nat>)
      requires r0 == Value() && roots == Roots(g, flags, newType, UsersOf(root)) && !ReachedInst(g, r0, roots, root)
      modifies this
      ensures OnTheWay(g, r0, roots, root, done, moved, Elements(secondary), Value())
      ensures Users(Value(), root) == Spared(g, flags, newType, old(UsersOf(root)))
    {
      var spawns := UsersOf(root);
      assert Users(Value(), root) == spawns;
      secondary, done, moved := [], {}, [];
      Begun(g, r0, roots, root);
      var k := 0;
      LeftStart(g, flags, newType, spawns);
      hide OnTheWay, ReachedInst, Removed, Roots, Spared, Elements, Selected, Users, Left, Listed;
      while k < |spawns|
        invariant k <= |spawns|
        invariant OnTheWay(g, r0, roots, root, done, moved, Left(g, flags, newType, spawns, k, secondary), Value())
        invariant Users(Value(), root) == Listed(g, flags, newType, spawns, k)
      {
        var s := spawns[k];
        LeftStep(g, flags, newType, spawns, k, secondary);
        if Selected(g, flags, newType, s) {
          ListOff(g, r0, roots, root, done, moved, Left(g, flags, newType, spawns, k, secondary), Value(),
                  Listed(g, flags, newType, spawns, k + 1));
          users := users[root := Listed(g, flags, newType, spawns, k + 1)];
          secondary, done, moved := RemoveNext(s, secondary, root, r0, roots, done, moved,
                                               Roots(g, flags, newType, spawns[k + 1..]));
          LeftIs(g, flags, newType, spawns, k + 1, secondary);
        }
        k := k + 1;
      }
      LeftEnd(g, flags, newType, spawns, secondary);
    }

    // crypto_remove_spawn on a spawn just taken off its list.
    method RemoveNext(s: nat, list: seq<nat>, root: nat, ghost r0: Registry, ghost roots: set<nat>,
                      ghost done0: set<nat>, ghost moved0: seq<nat>, ghost rest: set<nat>)
      returns (secondary: seq<nat>, ghost done: set<nat>, ghost moved: seq<nat>)
      requires OnTheWay(g, r0, roots, root, done0, moved0, rest + Elements(list) + {s}, Value())
      requires !ReachedInst(g, r0, roots, root)
      modifies this
      ensures OnTheWay(g, r0, roots, root, done, moved, rest + Elements(secondary), Value())
      ensures Users(Value(), root) == old(Users(Value(), root))
      ensures |hashed| < |old(hashed)| || (|hashed| == |old(hashed)| && secondary == list)
    {
      hide OnTheWay, ReachedInst, Removed, Elements, Users;
      moved := Removing(g, r0, roots, root, done0, moved0, rest + Elements(list), Value(), s);
      var spliced := RemoveSpawn(s);
      SplicedFirst(spliced, list, rest);
      secondary, done := spliced + list, done0 + {s};
      if spliced == [] { assert secondary == list; }
    }

    // One traversal of the secondary list: what is spliced in goes before the cursor.
    method RemovePass(list: seq<nat>, root: nat, ghost r0: Registry, ghost roots: set<nat>, ghost done0: set<nat>,
                      ghost moved0: seq<nat>)
      returns (secondary: seq<nat>, ghost done: set<nat>, ghost moved: seq<nat>)
      requires OnTheWay(g, r0, roots, root, done0, moved0, Elements(list), Value()) && !ReachedInst(g, r0, roots, root)
      modifies this
      ensures OnTheWay(g, r0, roots, root, done, moved, Elements(secondary), Value())
      ensures Users(Value(), root) == old(Users(Value(), root))
      ensures |hashed| < |old(hashed)| || (|hashed| == |old(hashed)| && secondary == [])
    {
      secondary, done, moved := [], done0, moved0;
      var n := 0;
      assert list[0..] == list && Elements(list) + Elements([]) == Elements(list);
      hide *;
      while n < |list|
        invariant n <= |list|
        invariant OnTheWay(g, r0, roots, root, done, moved, Elements(list[n..]) + Elements(secondary), Value())
        invariant Users(Value(), root) == old(Users(Value(), root))
        invariant |hashed| < |old(hashed)| || (|hashed| == |old(hashed)| && secondary == [])
      {
        var s := list[n];
        CursorStep(list, n, secondary);
        secondary, done, moved := RemoveNext(s, secondary, root, r0, roots, done, moved, Elements(list[n + 1..]));
        n := n + 1;
      }
      CursorEnd(list, secondary);
    }
  }

  lemma SplicedFirst(a: seq<nat>, b: seq<nat>, rest: set<nat>)
    ensures rest + Elements(b) + Elements(a) == rest + Elements(a + b)
  {
  }

  lemma CursorStep(l: seq<nat>, n: nat, secondary: seq<nat>)
    requires n < |l|
    ensures Elements(l[n..]) + Elements(secondary) == Elements(l[n + 1..]) + Elements(secondary) + {l[n]}
  {
    assert l[n..] == [l[n]] + l[n + 1..];
  }

  lemma CursorEnd(l: seq<nat>, secondary: seq<nat>)
    ensures Elements(l[|l|..]) + Elements(secondary) == Elements(secondary)
  {
  }

  // The spawns of the root still to remove at position k, with those of the secondary list.
  ghost function Left(g: Links, flags: bv32, newType: bv32, l: seq<nat>, k: nat, secondary: seq<nat>): set<nat>
    requires k <= |l|
  {
    Roots(g, flags, newType, l[k..]) + Elements(secondary)
  }

  // The list of the root when the traversal is at position k.
  function Listed(g: Links, flags: bv32, newType: bv32, l: seq<nat>, k: nat): seq<nat>
    requires k <= |l|
  {
    Spared(g, flags, newType, l[..k]) + l[k..]
  }

  lemma LeftIs(g: Links, flags: bv32, newType: bv32, l: seq<nat>, k: nat, secondary: seq<nat>)
    requires k <= |l|
    ensures Left(g, flags, newType, l, k, secondary) == Roots(g, flags, newType, l[k..]) + Elements(secondary)
  {
  }

  lemma LeftStart(g: Links, flags: bv32, newType: bv32, l: seq<nat>)
    ensures Left(g, flags, newType, l, 0, []) == Roots(g, flags, newType, l) && Listed(g, flags, newType, l, 0) == l
  {
    assert l[0..] == l;
  }

  lemma LeftEnd(g: Links, flags: bv32, newType: bv32, l: seq<nat>, secondary: seq<nat>)
    ensures Left(g, flags, newType, l, |l|, secondary) == Elements(secondary)
    ensures Listed(g, flags, newType, l, |l|) == Spared(g, flags, newType, l)
  {
    assert l[..|l|] == l;
  }

  lemma LeftStep(g: Links, flags: bv32, newType: bv32, l: seq<nat>, k: nat, secondary: seq<nat>)
    requires k < |l|
    ensures Selected(g, flags, newType, l[k]) ==>
              Left(g, flags, newType, l, k, secondary) == Roots(g, flags, newType, l[k + 1..]) + Elements(secondary) + {l[k]}
    ensures !Selected(g, flags, newType, l[k]) ==>
              && Left(g, flags, newType, l, k, secondary) == Left(g, flags, newType, l, k + 1, secondary)
              && Listed(g, flags, newType, l, k) == Listed(g, flags, newType, l, k + 1)
  {
    hide Selected;
    assert l[k..] == [l[k]] + l[k + 1..];
    assert l[..k + 1][..k] == l[..k];
  }

  // A spawn leaving the root's own list.
  lemma ListOff(g: Links, r0: Registry, roots: set<nat>, root: nat, done: set<nat>, moved: seq<nat>, pending: set<nat>,
                r: Registry, l: seq<nat>)
    requires OnTheWay(g, r0, roots, root, done, moved, pending, r)
    ensures OnTheWay(g, r0, roots, root, done, moved, pending, r.(users := r.users[root := l]))
    ensures Users(r.(users := r.users[root := l]), root) == l
  {
    hide Walk, Hit;
  }

  lemma Ended(g: Links, r0: Registry, roots: set<nat>, root: nat, done: set<nat>, moved: seq<nat>, r: Registry)
    requires OnTheWay(g, r0, roots, root, done, moved, {}, r)
    ensures Invalidated(g, r0, root, roots, moved, r)
  {
    WalkInvalidates(g, r0, roots, root, done, moved, r);
  }

  lemma Begun(g: Links, r0: Registry, roots: set<nat>, root: nat)
    ensures OnTheWay(g, r0, roots, root, {}, [], roots, r0)
  {
    forall s | s in roots ensures Reached(g, r0, roots, s) { RootReached(g, r0, roots, s); }
    hide Reached;
  }
}
