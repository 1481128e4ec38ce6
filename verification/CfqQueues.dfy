// What single steps do to a CFQ queue, to the service tree, and to the set of held requests.
module CfqQueues {
  import opened Collections
  import opened ElvTree
  import opened Cfq

  // ------------------------------------------------------- counters

  lemma {:induction false} CountSyncConcat(rqs: map<nat, Rq>, a: seq<nat>, b: seq<nat>, sync: bool)
    requires Known(rqs, a) && Known(rqs, b)
    ensures Known(rqs, a + b) && CountSync(rqs, a + b, sync) == CountSync(rqs, a, sync) + CountSync(rqs, b, sync)
    decreases |a|
  {
    if a == [] {
      assert a + b == b;
    } else {
      CountSyncConcat(rqs, a[1..], b, sync);
      assert (a + b)[1..] == a[1..] + b;
    }
  }

  lemma {:induction false} CountMetaConcat(rqs: map<nat, Rq>, a: seq<nat>, b: seq<nat>)
    requires Known(rqs, a) && Known(rqs, b)
    ensures Known(rqs, a + b) && CountMeta(rqs, a + b) == CountMeta(rqs, a) + CountMeta(rqs, b)
    decreases |a|
  {
    if a == [] {
      assert a + b == b;
    } else {
      CountMetaConcat(rqs, a[1..], b);
      assert (a + b)[1..] == a[1..] + b;
    }
  }

  // A list with one element singled out.
  lemma CountAround(rqs: map<nat, Rq>, a: seq<nat>, id: nat, b: seq<nat>)
    requires Known(rqs, a) && Known(rqs, b) && id in rqs
    ensures Known(rqs, a + [id] + b) && Known(rqs, a + b)
    ensures forall sync :: CountSync(rqs, a + [id] + b, sync) == CountSync(rqs, a + b, sync) + if rqs[id].sync == sync then 1 else 0
    ensures CountMeta(rqs, a + [id] + b) == CountMeta(rqs, a + b) + if rqs[id].meta then 1 else 0
  {
    forall sync ensures CountSync(rqs, a + [id] + b, sync) == CountSync(rqs, a + b, sync) + if rqs[id].sync == sync then 1 else 0 {
      CountSyncConcat(rqs, a, [id], sync);
      CountSyncConcat(rqs, a + [id], b, sync);
      CountSyncConcat(rqs, a, b, sync);
    }
    CountMetaConcat(rqs, a, [id]);
    CountMetaConcat(rqs, a + [id], b);
    CountMetaConcat(rqs, a, b);
  }

  lemma CountRemove(rqs: map<nat, Rq>, list: seq<nat>, id: nat)
    requires Known(rqs, list) && id in list
    ensures Known(rqs, Remove(list, id))
    ensures forall sync :: CountSync(rqs, list, sync) == CountSync(rqs, Remove(list, id), sync) + if rqs[id].sync == sync then 1 else 0
    ensures CountMeta(rqs, list) == CountMeta(rqs, Remove(list, id)) + if rqs[id].meta then 1 else 0
  {
    var i := Index(list, id);
    assert list == list[..i] + [id] + list[i + 1..];
    CountAround(rqs, list[..i], id, list[i + 1..]);
  }

  lemma CountInsert(rqs: map<nat, Rq>, list: seq<nat>, p: nat, id: nat)
    requires Known(rqs, list) && id in rqs && p <= |list|
    ensures Known(rqs, InsertAt(list, p, id))
    ensures forall sync :: CountSync(rqs, InsertAt(list, p, id), sync) == CountSync(rqs, list, sync) + if rqs[id].sync == sync then 1 else 0
    ensures CountMeta(rqs, InsertAt(list, p, id)) == CountMeta(rqs, list) + if rqs[id].meta then 1 else 0
  {
    assert list == list[..p] + list[p..];
    CountAround(rqs, list[..p], id, list[p..]);
  }

  lemma {:induction false} CountSame(a: map<nat, Rq>, b: map<nat, Rq>, list: seq<nat>)
    requires Known(a, list) && Known(b, list)
    requires forall i :: i in list ==> a[i].sync == b[i].sync && a[i].meta == b[i].meta
    ensures forall sync :: CountSync(a, list, sync) == CountSync(b, list, sync)
    ensures CountMeta(a, list) == CountMeta(b, list)
    decreases |list|
  {
    if list != [] { CountSame(a, b, list[1..]); }
  }

  // ------------------------------------------------------- one queue

  lemma ChooseAmong(c: Config, last: nat, rqs: map<nat, Rq>, a: Option<nat>, b: Option<nat>)
    requires (a.Some? ==> a.value in rqs) && (b.Some? ==> b.value in rqs)
    ensures ChooseReq(c, last, rqs, a, b) == a || ChooseReq(c, last, rqs, a, b) == b
    ensures a.Some? || b.Some? ==> ChooseReq(c, last, rqs, a, b).Some?
  {
  }

  // A successor is found exactly when another request is left, and it is one of those left.
  lemma FindNextRemains(c: Config, last: nat, rqs: map<nat, Rq>, sort: seq<nat>, id: nat)
    requires Known(rqs, sort) && id in sort && Distinct(sort)
    ensures var n := FindNext(c, last, rqs, sort, id);
            (n.Some? <==> Remove(sort, id) != []) && (n.Some? ==> n.value in sort && n.value != id)
  {
    RemoveAt(sort, id);
    var i := Index(sort, id);
    var prev := if i > 0 then Some(sort[i - 1]) else None;
    var next := if i + 1 < |sort| then Some(sort[i + 1]) else if sort[0] != id then Some(sort[0]) else None;
    ChooseAmong(c, last, rqs, next, prev);
    hide ChooseReq, Remove, Index;
  }

  lemma TakenOk(c: Config, last: nat, rqs: map<nat, Rq>, k: nat, u: Queue, loose: set<nat>, id: nat)
    requires QueueOk(rqs, k, u, loose) && id in u.sort
    ensures QueueOk(rqs, k, Taken(c, last, rqs, u, id), loose)
    ensures forall i :: i in Taken(c, last, rqs, u, id).fifo <==> i in u.fifo && i != id
  {
    hide FindNext, Remove, Distinct, SectorSorted, CountSync, CountMeta;
    SortedDistinct(rqs, u.sort);
    FindNextRemains(c, last, rqs, u.sort, id);
    RemoveDistinct(u.sort, id);
    RemoveDistinct(u.fifo, id);
    RemoveSorted(rqs, u.sort, id);
    CountRemove(rqs, u.sort, id);
    CountRemove(rqs, u.fifo, id);
  }

  lemma RemoveSorted(rqs: map<nat, Rq>, list: seq<nat>, id: nat)
    requires id in list && Known(rqs, list) && SectorSorted(rqs, list)
    ensures Known(rqs, Remove(list, id)) && SectorSorted(rqs, Remove(list, id))
  {
    RemoveAt(list, id);
    hide Remove;
  }

  lemma PutOk(c: Config, last: nat, rqs: map<nat, Rq>, k: nat, u: Queue, loose: set<nat>, id: nat)
    requires QueueOk(rqs, k, u, loose + {id}) && id in rqs && id !in loose
    requires forall i :: i in u.sort ==> rqs[i].sector != rqs[id].sector
    ensures u.next.Some? ==> u.next.value in rqs
    ensures QueueOk(rqs, k, Put(c, last, rqs, u, id), loose)
  {
    ChooseAmong(c, last, rqs, u.next, Some(id));
    RbAddSorted(rqs, u.sort, id);
    CountInsert(rqs, u.sort, Place(rqs, u.sort, rqs[id].sector), id);
    hide ChooseReq, InsertAt, Distinct, SectorSorted, CountSync, CountMeta;
    assert id in u.fifo;
  }

  lemma InsertedOk(c: Config, last: nat, rqs: map<nat, Rq>, k: nat, u: Queue, id: nat)
    requires QueueOk(rqs, k, u, {}) && id in rqs && id !in u.fifo && rqs[id].cfqq == k
    requires forall i :: i in u.sort ==> rqs[i].sector != rqs[id].sector
    ensures u.next.Some? ==> u.next.value in rqs
    ensures QueueOk(rqs, k, Inserted(c, last, rqs, u, id), {})
  {
    hide Distinct, SectorSorted, CountSync, CountMeta;
    ChooseAmong(c, last, rqs, u.next, Some(id));
    RbAddSorted(rqs, u.sort, id);
    CountInsert(rqs, u.sort, Place(rqs, u.sort, rqs[id].sector), id);
    CountMetaOne(rqs, u.fifo, id);
    AppendDistinct(u.fifo, id);
    hide ChooseReq, RbAdd, InsertAt, Place;
  }

  lemma CountMetaOne(rqs: map<nat, Rq>, list: seq<nat>, id: nat)
    requires Known(rqs, list) && id in rqs
    ensures Known(rqs, list + [id]) && CountMeta(rqs, list + [id]) == CountMeta(rqs, list) + if rqs[id].meta then 1 else 0
  {
    CountMetaConcat(rqs, list, [id]);
  }

  lemma AppendDistinct(list: seq<nat>, id: nat)
    requires Distinct(list) && id !in list
    ensures Distinct(list + [id])
  {
  }

  // ------------------------------------------------------- the service tree

  lemma TreeLoses(queues: map<nat, Queue>, now: map<nat, Queue>, tree: seq<nat>, left: Option<nat>, busy: int, k: nat)
    requires TreeOk(queues, tree, left, busy) && k in tree
    requires forall j :: (j in now && now[j].onRr) <==> (j in queues && queues[j].onRr && j != k)
    ensures TreeOk(now, Remove(tree, k), if left == Some(k) then None else left, busy - 1)
  {
    RemoveDistinct(tree, k);
    RemoveAt(tree, k);
    hide Remove;
  }

  lemma TreeGains(queues: map<nat, Queue>, now: map<nat, Queue>, tree: seq<nat>, left: Option<nat>, busy: int, k: nat,
                  q: nat)
    requires TreeOk(queues, tree, left, busy) && k !in tree && q <= |tree|
    requires forall j :: (j in now && now[j].onRr) <==> (j in queues && queues[j].onRr) || j == k
    ensures TreeOk(now, InsertAt(tree, q, k), if q == 0 then Some(k) else left, busy + 1)
  {
    InsertDistinct(tree, q, k);
    InsertAtIndex(tree, q, k);
    hide InsertAt;
  }

  lemma TreeSame(queues: map<nat, Queue>, now: map<nat, Queue>, tree: seq<nat>, left: Option<nat>, busy: int)
    requires TreeOk(queues, tree, left, busy)
    requires forall j :: (j in now && now[j].onRr) <==> (j in queues && queues[j].onRr)
    ensures TreeOk(now, tree, left, busy)
  {
  }

  // However the tree is shaped and whatever its keys say, the flag kept along the descent is
  // true exactly when the new node becomes the first.
  datatype Shape = Leaf | Node(lower: Shape, q: nat, upper: Shape)

  function InOrder(t: Shape): seq<nat> {
    match t
    case Leaf => []
    case Node(l, q, u) => InOrder(l) + [q] + InOrder(u)
  }

  // goesLeft(q) stands for the comparisons of the new queue with q.
  function Link(t: Shape, goesLeft: nat -> bool, k: nat): Shape {
    match t
    case Leaf => Node(Leaf, k, Leaf)
    case Node(l, q, u) => if goesLeft(q) then Node(Link(l, goesLeft, k), q, u) else Node(l, q, Link(u, goesLeft, k))
  }

  function AllLeft(t: Shape, goesLeft: nat -> bool): bool {
    match t
    case Leaf => true
    case Node(l, q, _) => goesLeft(q) && AllLeft(l, goesLeft)
  }

  function Descent(t: Shape, goesLeft: nat -> bool): nat {
    match t
    case Leaf => 0
    case Node(l, q, u) => if goesLeft(q) then Descent(l, goesLeft) else |InOrder(l)| + 1 + Descent(u, goesLeft)
  }

  lemma InsertLeft(a: seq<nat>, rest: seq<nat>, p: nat, k: nat)
    requires p <= |a|
    ensures InsertAt(a + rest, p, k) == InsertAt(a, p, k) + rest
  {
    assert (a + rest)[..p] == a[..p] && (a + rest)[p..] == a[p..] + rest;
  }

  lemma InsertRight(a: seq<nat>, b: seq<nat>, p: nat, k: nat)
    requires p <= |b|
    ensures InsertAt(a + b, |a| + p, k) == a + InsertAt(b, p, k)
  {
    assert (a + b)[..|a| + p] == a + b[..p] && (a + b)[|a| + p..] == b[p..];
  }

  lemma {:induction false} LeftFlagIsFirst(t: Shape, goesLeft: nat -> bool, k: nat)
    ensures Descent(t, goesLeft) <= |InOrder(t)|
    ensures InOrder(Link(t, goesLeft, k)) == InsertAt(InOrder(t), Descent(t, goesLeft), k)
    ensures AllLeft(t, goesLeft) <==> Descent(t, goesLeft) == 0
  {
    match t
    case Leaf =>
    case Node(l, q, u) =>
      LeftFlagIsFirst(l, goesLeft, k);
      LeftFlagIsFirst(u, goesLeft, k);
      var a, b, p := InOrder(l), InOrder(u), if goesLeft(q) then Descent(l, goesLeft) else Descent(u, goesLeft);
      hide InsertAt;
      assert InOrder(t) == a + [q] + b;
      assert a + [q] + b == a + ([q] + b);
      if goesLeft(q) {
        assert InOrder(Link(t, goesLeft, k)) == InsertAt(a, p, k) + [q] + b;
        InsertLeft(a, [q] + b, p, k);
        assert InsertAt(a, p, k) + [q] + b == InsertAt(a, p, k) + ([q] + b);
      } else {
        assert InOrder(Link(t, goesLeft, k)) == a + [q] + InsertAt(b, p, k);
        InsertRight(a + [q], b, p, k);
      }
  }

  // ------------------------------------------------------- held requests

  lemma HeldLoses(rqs: map<nat, Rq>, a: map<nat, Queue>, b: map<nat, Queue>, k: nat, id: nat)
    requires k in a && k in b && id in rqs && rqs[id].cfqq == k && id in a[k].fifo
    requires forall j :: j in a <==> j in b
    requires forall j :: j in a && j != k ==> a[j].fifo == b[j].fifo
    requires forall i :: i in b[k].fifo <==> i in a[k].fifo && i != id
    ensures HeldSet(rqs, b) == HeldSet(rqs, a) - {id} && |HeldSet(rqs, b)| == |HeldSet(rqs, a)| - 1
  {
    assert id in HeldSet(rqs, a);
    assert HeldSet(rqs, b) == HeldSet(rqs, a) - {id};
  }

  lemma HeldGains(rqs: map<nat, Rq>, a: map<nat, Queue>, b: map<nat, Queue>, k: nat, id: nat)
    requires k in a && k in b && id in rqs && rqs[id].cfqq == k && id !in a[k].fifo
    requires forall j :: j in a <==> j in b
    requires forall j :: j in a && j != k ==> a[j].fifo == b[j].fifo
    requires forall i :: i in b[k].fifo <==> i in a[k].fifo || i == id
    ensures HeldSet(rqs, b) == HeldSet(rqs, a) + {id} && |HeldSet(rqs, b)| == |HeldSet(rqs, a)| + 1
  {
    assert id !in HeldSet(rqs, a);
    assert HeldSet(rqs, b) == HeldSet(rqs, a) + {id};
  }

  lemma HeldSame(r1: map<nat, Rq>, r2: map<nat, Rq>, a: map<nat, Queue>, b: map<nat, Queue>)
    requires forall i :: i in r1 <==> i in r2
    requires forall i :: i in r1 ==> r1[i].cfqq == r2[i].cfqq
    requires forall j :: j in a <==> j in b
    requires forall j :: j in a ==> forall i :: i in a[j].fifo <==> i in b[j].fifo
    ensures HeldSet(r2, b) == HeldSet(r1, a)
  {
  }
}
