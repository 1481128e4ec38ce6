// Each operation of the CFQ scheduler keeps its indices right: queues, service tree and counters.
module CfqTheorems {
  import opened Collections
  import opened ElvTree
  import opened Cfq
  import opened CfqQueues

  // ------------------------------------------------------- one operation

  lemma QueuesStep(rqs: map<nat, Rq>, a: map<nat, Queue>, b: map<nat, Queue>, k: nat, loose: set<nat>, now: set<nat>)
    requires QueuesOk(rqs, a, k, loose) && k in a && k in b && b == a[k := b[k]] && QueueOk(rqs, k, b[k], now)
    ensures QueuesOk(rqs, b, k, now)
  {
    hide QueueOk;
  }

  lemma HeldIn(s: State, k: nat, loose: set<nat>, j: nat, i: nat)
    requires QueuesOk(s.rqs, s.queues, k, loose) && j in s.queues && i in s.queues[j].sort
    ensures i in s.rqs && s.rqs[i].cfqq == j && i in s.queues[j].fifo && Linked(s, i)
  {
    assert QueueOk(s.rqs, j, s.queues[j], if j == k then loose else {});
  }

  lemma Refocus(rqs: map<nat, Rq>, queues: map<nat, Queue>, k: nat, j: nat, loose: set<nat>)
    requires QueuesOk(rqs, queues, k, loose) && (j == k || loose == {}) && j in queues
    ensures QueuesOk(rqs, queues, j, loose) && QueueOk(rqs, j, queues[j], loose)
  {
    hide QueueOk;
  }

  lemma RemoveQueues(c: Config, s: State, k: nat, loose: set<nat>, j: nat, id: nat)
    requires QueuesOk(s.rqs, s.queues, k, loose) && j in s.queues && id in s.queues[j].sort && (j == k || loose == {})
    ensures Linked(s, id) && s.rqs[id].cfqq == j && s.queues[j].onRr
    ensures var now := s.queues[j := Taken(c, s.lastPosition, s.rqs, s.queues[j], id)];
            && QueuesOk(s.rqs, now, j, loose)
            && HeldSet(s.rqs, now) == HeldSet(s.rqs, s.queues) - {id}
            && |HeldSet(s.rqs, now)| == |HeldSet(s.rqs, s.queues)| - 1
  {
    hide QueueOk, QueuesOk, Taken, Linked, HeldSet;
    Refocus(s.rqs, s.queues, k, j, loose);
    HeldIn(s, k, loose, j, id);
    var u := s.queues[j];
    TakenFacts(c, s.lastPosition, s.rqs, j, u, loose, id);
    var now := s.queues[j := Taken(c, s.lastPosition, s.rqs, u, id)];
    QueuesStep(s.rqs, s.queues, now, j, loose, loose);
    HeldLoses(s.rqs, s.queues, now, j, id);
  }

  lemma TakenFacts(c: Config, last: nat, rqs: map<nat, Rq>, k: nat, u: Queue, loose: set<nat>, id: nat)
    requires QueueOk(rqs, k, u, loose) && id in u.sort
    ensures id in u.fifo && id in rqs && rqs[id].cfqq == k && u.onRr && Known(rqs, u.sort)
    ensures QueueOk(rqs, k, Taken(c, last, rqs, u, id), loose)
    ensures forall i :: i in Taken(c, last, rqs, u, id).fifo <==> i in u.fifo && i != id
  {
    TakenOk(c, last, rqs, k, u, loose, id);
    hide Taken;
  }

  lemma RemoveTree(c: Config, s: State, id: nat)
    requires Linked(s, id) && s.queues[s.rqs[id].cfqq].onRr && TreeOk(s.queues, s.tree, s.left, s.busy)
    ensures var t, k := RemoveRequest(c, s, id), s.rqs[id].cfqq;
            && TreeOk(t.queues, t.tree, t.left, t.busy)
            && t.queues == s.queues[k := Taken(c, s.lastPosition, s.rqs, s.queues[k], id)]
            && t.rqQueued == s.rqQueued - 1 && t.rqs == s.rqs && t.out == s.out && t.gone == s.gone
            && t.lastPosition == s.lastPosition
  {
    var k := s.rqs[id].cfqq;
    var now := s.queues[k := Taken(c, s.lastPosition, s.rqs, s.queues[k], id)];
    if now[k].onRr { TreeSame(s.queues, now, s.tree, s.left, s.busy); }
    else { TreeLoses(s.queues, now, s.tree, s.left, s.busy, k); }
    hide Remove, FindNext;
  }

  // Taking a request out of its queue keeps everything that must agree.
  lemma RemoveOk(c: Config, s: State, k: nat, loose: set<nat>, j: nat, id: nat)
    requires Ok(s, k, loose) && j in s.queues && id in s.queues[j].sort && (j == k || loose == {})
    ensures Linked(s, id) && s.rqs[id].cfqq == j
    ensures Ok(RemoveRequest(c, s, id), j, loose)
    ensures var t := RemoveRequest(c, s, id);
            && HeldSet(t.rqs, t.queues) == HeldSet(s.rqs, s.queues) - {id}
            && t.rqs == s.rqs && t.out == s.out && t.gone == s.gone && t.lastPosition == s.lastPosition
            && t.queues == s.queues[j := Taken(c, s.lastPosition, s.rqs, s.queues[j], id)]
  {
    RemoveQueues(c, s, k, loose, j, id);
    RemoveTree(c, s, id);
    hide QueuesOk, TreeOk, HeldSet, RemoveRequest, Linked;
  }

  // Only the count of dispatched requests differs.
  lemma DispatchedApart(s: State, j: nat, loose: set<nat>, n: int, out: seq<nat>)
    requires Ok(s, j, loose) && j in s.queues
    ensures Ok(s.(queues := s.queues[j := s.queues[j].(dispatched := n)], out := out), j, loose)
    ensures HeldSet(s.rqs, s.queues[j := s.queues[j].(dispatched := n)]) == HeldSet(s.rqs, s.queues)
  {
    hide QueueOk, QueuesOk, TreeOk, HeldSet;
    var now := s.queues[j := s.queues[j].(dispatched := n)];
    Refocus(s.rqs, s.queues, j, j, loose);
    ApartOk(s.rqs, j, s.queues[j], loose, n);
    QueuesStep(s.rqs, s.queues, now, j, loose, loose);
    TreeSame(s.queues, now, s.tree, s.left, s.busy);
    HeldSame(s.rqs, s.rqs, s.queues, now);
  }

  lemma ApartOk(rqs: map<nat, Rq>, j: nat, u: Queue, loose: set<nat>, n: int)
    requires QueueOk(rqs, j, u, loose)
    ensures QueueOk(rqs, j, u.(dispatched := n), loose)
  {
  }

  lemma TakenShape(c: Config, last: nat, rqs: map<nat, Rq>, u: Queue, id: nat)
    requires Known(rqs, u.sort) && id in u.sort && id in u.fifo
    ensures var v := Taken(c, last, rqs, u, id); v.sort == Remove(u.sort, id) && v.fifo == Remove(u.fifo, id)
  {
  }

  lemma LinkedKnown(s: State, k: nat, loose: set<nat>, j: nat, id: nat)
    requires Ok(s, k, loose) && j in s.queues && id in s.queues[j].sort
    ensures Linked(s, id) && s.rqs[id].cfqq == j && id in s.queues[j].fifo && Known(s.rqs, s.queues[j].sort)
  {
    HeldIn(s, k, loose, j, id);
  }

  // Queues but for one, and of that one the lists.
  ghost predicate QueuesLose(a: map<nat, Queue>, b: map<nat, Queue>, j: nat, id: nat) {
    && (forall i :: i in b <==> i in a) && (forall i :: i in a && i != j ==> b[i] == a[i])
    && j in a && id in a[j].sort && id in a[j].fifo
    && b[j].sort == Remove(a[j].sort, id) && b[j].fifo == Remove(a[j].fifo, id)
  }

  lemma QueuesLoseOne(a: map<nat, Queue>, v: Queue, j: nat, id: nat, n: int)
    requires j in a && id in a[j].sort && id in a[j].fifo
    requires v.sort == Remove(a[j].sort, id) && v.fifo == Remove(a[j].fifo, id)
    ensures QueuesLose(a, a[j := v][j := v.(dispatched := n)], j, id)
  {
    hide Remove;
  }

  lemma DispatchOk(c: Config, s: State, k: nat, loose: set<nat>, j: nat, id: nat)
    requires Ok(s, k, loose) && j in s.queues && id in s.queues[j].sort && (j == k || loose == {})
    ensures Linked(s, id) && s.rqs[id].cfqq == j
    ensures Ok(DispatchInsert(c, s, id), j, loose)
    ensures var t := DispatchInsert(c, s, id);
            && HeldSet(t.rqs, t.queues) == HeldSet(s.rqs, s.queues) - {id}
            && t.rqs == s.rqs && t.out == s.out + [id] && t.gone == s.gone && t.lastPosition == s.lastPosition
            && QueuesLose(s.queues, t.queues, j, id)
  {
    hide Ok, RemoveRequest, HeldSet, Taken, Remove, QueuesLose, Linked;
    LinkedKnown(s, k, loose, j, id);
    RemoveOk(c, s, k, loose, j, id);
    var t, n := RemoveRequest(c, s, id), RemoveRequest(c, s, id).queues[j].dispatched + 1;
    TakenShape(c, s.lastPosition, s.rqs, s.queues[j], id);
    QueuesLoseOne(s.queues, t.queues[j], j, id, n);
    DispatchedApart(t, j, loose, n, t.out + [id]);
    assert DispatchInsert(c, s, id) == t.(queues := t.queues[j := t.queues[j].(dispatched := n)], out := t.out + [id]);
    hide DispatchInsert;
  }

  lemma ReadyWhen(s: State, k: nat, loose: set<nat>, id: nat)
    requires Ok(s, k, loose) && id in s.rqs && s.rqs[id].cfqq in s.queues
    ensures Ready(s, id)
  {
    var j := s.rqs[id].cfqq;
    assert QueueOk(s.rqs, j, s.queues[j], if j == k then loose else {});
    forall i | i in s.queues[j].sort ensures Linked(s, i) { HeldIn(s, k, loose, j, i); }
  }

  ghost function Held(s: State): set<nat> { HeldSet(s.rqs, s.queues) }

  // Where requests go: added and merged are at most one each, out the one sent to the
  // dispatch queue.
  ghost predicate Effect(s: State, t: State, added: seq<nat>, out: seq<nat>, merged: seq<nat>) {
    && (forall i :: i in s.queues ==> i in t.queues)
    && t.out == s.out + out && |out| <= 1
    && (forall i :: i in t.gone <==> i in s.gone || i in merged)
    && (forall i :: i in t.rqs <==> i in s.rqs || i in added)
    && (forall i :: i in Held(t) <==> (i in Held(s) || i in added) && i !in out && i !in merged)
    && (forall i :: i in out || i in merged ==> i in Held(s))
    && (forall i :: i in out ==> i !in merged) && (forall i :: i in added ==> i !in s.rqs)
  }

  // e is s with requests renamed or prepared, v is t with the request put in place.
  lemma EffectCompose(s: State, e: State, t: State, v: State, added: seq<nat>, out: seq<nat>)
    requires e.out == s.out && e.gone == s.gone && Held(e) == Held(s) && forall i :: i in s.queues ==> i in e.queues
    requires (forall i :: i in e.rqs <==> i in s.rqs || i in added) && forall i :: i in added ==> i !in s.rqs
    requires Effect(e, t, [], out, [])
    requires v.out == t.out && v.gone == t.gone && v.rqs == t.rqs && forall i :: i in t.queues ==> i in v.queues
    requires forall i :: i in Held(v) <==> i in Held(t) || i in added
    ensures Effect(s, v, added, out, [])
  {
    assert forall i :: i in Held(s) ==> i in s.rqs;
    hide Held;
  }

  lemma QueueLists(rqs: map<nat, Rq>, k: nat, u: Queue, loose: set<nat>)
    requires QueueOk(rqs, k, u, loose)
    ensures Known(rqs, u.sort) && SectorSorted(rqs, u.sort) && Distinct(u.sort) && Distinct(u.fifo)
    ensures forall i :: i in u.sort ==> i in u.fifo
  {
    SortedDistinct(rqs, u.sort);
  }

  lemma DispatchEffect(c: Config, s: State, k: nat, loose: set<nat>, id: nat)
    requires Ok(s, k, loose) && k in s.queues && id in s.queues[k].sort
    ensures Linked(s, id)
    ensures var t := DispatchInsert(c, s, id);
            && Ok(t, k, loose) && t.rqs == s.rqs && t.lastPosition == s.lastPosition && k in t.queues
            && (forall i :: i in t.queues[k].sort <==> i in s.queues[k].sort && i != id)
            && (forall i :: i in t.queues[k].fifo <==> i in s.queues[k].fifo && i != id)
            && Effect(s, t, [], [id], [])
  {
    hide QueueOk, QueuesOk, TreeOk, Linked, DispatchInsert;
    Refocus(s.rqs, s.queues, k, k, loose);
    LinkedKnown(s, k, loose, k, id);
    QueueLists(s.rqs, k, s.queues[k], loose);
    RemoveDistinct(s.queues[k].sort, id);
    RemoveDistinct(s.queues[k].fifo, id);
    DispatchOk(c, s, k, loose, k, id);
    InHeld(s, k, loose, id);
    hide HeldSet, Remove, Distinct;
  }

  lemma InHeld(s: State, k: nat, loose: set<nat>, id: nat)
    requires QueuesOk(s.rqs, s.queues, k, loose) && k in s.queues && id in s.queues[k].sort
    ensures id in Held(s)
  {
    HeldIn(s, k, loose, k, id);
  }

  // One turn of the loop is enough: afterwards the sector is free.
  lemma RoomOk(c: Config, s: State, k: nat, loose: set<nat>, id: nat) returns (out: seq<nat>)
    requires Ok(s, k, loose) && id in s.rqs && s.rqs[id].cfqq == k && k in s.queues
    ensures Ready(s, id)
    ensures var t := MakeRoom(c, s, id);
            && Ok(t, k, loose) && t.rqs == s.rqs && t.lastPosition == s.lastPosition && k in t.queues
            && (forall i :: i in t.queues[k].sort ==> i in s.rqs && s.rqs[i].sector != s.rqs[id].sector)
            && (forall i :: i in t.queues[k].fifo ==> i in s.queues[k].fifo)
            && Effect(s, t, [], out, [])
  {
    hide QueueOk, QueuesOk, TreeOk, Linked, HeldSet, SectorSorted, Distinct;
    ReadyWhen(s, k, loose, id);
    Refocus(s.rqs, s.queues, k, k, loose);
    QueueLists(s.rqs, k, s.queues[k], loose);
    var sort, t := s.queues[k].sort, MakeRoom(c, s, id);
    out := [];
    match Alias(s.rqs, sort, s.rqs[id].sector)
    case None =>
      NoAlias(s.rqs, sort, s.rqs[id].sector);
      assert s.out + [] == s.out;
      assert t == s;
      hide MakeRoom, Ready, Alias;
    case Some(alias) =>
      out := [alias];
      OnlyAlias(s.rqs, sort, alias);
      assert t == DispatchInsert(c, s, alias);
      hide MakeRoom, Ready, DispatchInsert, Effect, Alias;
      DispatchEffect(c, s, k, loose, alias);
  }

  lemma FlaggedTree(s: State, k: nat, v: Queue, n: int, p: nat)
    requires TreeOk(s.queues, s.tree, s.left, s.busy) && k in s.queues && v.onRr
    ensures var t := Flagged(s, k, v, n, p);
            && TreeOk(t.queues, t.tree, t.left, t.busy) && t.queues == s.queues[k := v] && t.rqQueued == n
            && t.rqs == s.rqs && t.out == s.out && t.gone == s.gone && t.lastPosition == s.lastPosition
  {
    var now := s.queues[k := v];
    if s.queues[k].onRr { TreeSame(s.queues, now, s.tree, s.left, s.busy); }
    else { TreeGains(s.queues, now, s.tree, s.left, s.busy, k, Clip(p, |s.tree|)); }
  }

  lemma FlaggedOk(s: State, k: nat, loose: set<nat>, v: Queue, n: int, p: nat)
    requires QueuesOk(s.rqs, s.queues, k, loose) && TreeOk(s.queues, s.tree, s.left, s.busy)
    requires k in s.queues && QueueOk(s.rqs, k, v, {}) && v.onRr && n == |HeldSet(s.rqs, s.queues[k := v])|
    ensures Ok(Flagged(s, k, v, n, p), k, {})
    ensures var t := Flagged(s, k, v, n, p);
            && t.queues == s.queues[k := v]
            && t.rqs == s.rqs && t.out == s.out && t.gone == s.gone && t.lastPosition == s.lastPosition
  {
    hide QueueOk, QueuesOk, TreeOk, HeldSet;
    FlaggedTree(s, k, v, n, p);
    QueuesStep(s.rqs, s.queues, s.queues[k := v], k, loose, {});
    hide Flagged;
  }

  lemma ExtendOk(s: State, id: nat, rq: Rq)
    requires Ok(s, rq.cfqq, {}) && id !in s.rqs && rq.cfqq in s.queues
    ensures Ok(s.(rqs := s.rqs[id := rq]), rq.cfqq, {})
    ensures HeldSet(s.rqs[id := rq], s.queues) == HeldSet(s.rqs, s.queues) && id !in s.queues[rq.cfqq].fifo
  {
    var more := s.rqs[id := rq];
    hide QueueOk;
    forall j | j in s.queues ensures QueueOk(more, j, s.queues[j], {}) && id !in s.queues[j].fifo {
      QueueExtend(s.rqs, more, j, s.queues[j]);
    }
    assert HeldSet(more, s.queues) == HeldSet(s.rqs, s.queues);
  }

  lemma QueueExtend(rqs: map<nat, Rq>, more: map<nat, Rq>, j: nat, u: Queue)
    requires QueueOk(rqs, j, u, {}) && forall i :: i in rqs ==> i in more && more[i] == rqs[i]
    ensures QueueOk(more, j, u, {}) && forall i :: i in u.fifo ==> i in rqs
  {
    CountSame(rqs, more, u.sort);
    CountSame(rqs, more, u.fifo);
    hide CountSync, CountMeta, Distinct;
  }

  lemma RegisteredOk(s: State, id: nat, rq: Rq)
    requires Ok(s, rq.cfqq, {}) && id !in s.rqs && rq.cfqq in s.queues
    ensures var e := Registered(s, id, rq);
            && Ok(e, rq.cfqq, {}) && Held(e) == Held(s) && e.out == s.out && e.gone == s.gone && e.queues == s.queues
            && (forall i :: i in e.rqs <==> i in s.rqs || i == id)
            && e.rqs[id] == rq && rq.cfqq in e.queues && id !in e.queues[rq.cfqq].fifo
  {
    ExtendOk(s, id, rq);
    hide Ok, HeldSet;
  }

  lemma InsertOk(c: Config, s: State, id: nat, rq: Rq, p: nat) returns (out: seq<nat>)
    requires Ok(s, rq.cfqq, {}) && id !in s.rqs && rq.cfqq in s.queues
    ensures Ready(Registered(s, id, rq), id)
    ensures Ready(MakeRoom(c, Registered(s, id, rq), id), id)
    ensures var t := Insert(c, s, id, rq, p); Ok(t, rq.cfqq, {}) && Effect(s, t, [id], out, [])
  {
    hide Held, Ok, MakeRoom, Inserted, Ready, Effect, Registered;
    var k, e := rq.cfqq, Registered(s, id, rq);
    RegisteredOk(s, id, rq);
    out := RoomOk(c, e, k, {}, id);
    var t := MakeRoom(c, e, id);
    InsertFlagged(c, t, id, k, p);
    var v := Insert(c, s, id, rq, p);
    assert v == Flagged(t, k, Inserted(c, t.lastPosition, t.rqs, t.queues[k], id), t.rqQueued + 1, p);
    hide Insert, Flagged;
    EffectCompose(s, e, t, v, [id], out);
  }

  lemma InsertFlagged(c: Config, t: State, id: nat, k: nat, p: nat)
    requires Ok(t, k, {}) && id in t.rqs && t.rqs[id].cfqq == k && k in t.queues && id !in t.queues[k].fifo
    requires forall i :: i in t.queues[k].sort ==> i in t.rqs && t.rqs[i].sector != t.rqs[id].sector
    ensures Ready(t, id) && Known(t.rqs, t.queues[k].sort)
    ensures (t.queues[k].next.Some? ==> t.queues[k].next.value in t.rqs)
    ensures var v := Flagged(t, k, Inserted(c, t.lastPosition, t.rqs, t.queues[k], id), t.rqQueued + 1, p);
            && Ok(v, k, {}) && v.rqs == t.rqs && v.out == t.out && v.gone == t.gone
            && (forall j :: j in t.queues ==> j in v.queues)
            && Held(v) == Held(t) + {id}
  {
    hide HeldSet, QueueOk, QueuesOk, TreeOk;
    ReadyWhen(t, k, {}, id);
    Refocus(t.rqs, t.queues, k, k, {});
    InsertedOk(c, t.lastPosition, t.rqs, k, t.queues[k], id);
    var v := Inserted(c, t.lastPosition, t.rqs, t.queues[k], id);
    assert v.onRr && v.fifo == t.queues[k].fifo + [id];
    hide Inserted, Ready;
    HeldGains(t.rqs, t.queues, t.queues[k := v], k, id);
    FlaggedOk(t, k, {}, v, t.rqQueued + 1, p);
    hide Flagged;
  }

  // ------------------------------------------------------- repositioning

  lemma LiftedQueue(rqs: map<nat, Rq>, more: map<nat, Rq>, k: nat, u: Queue, v: Queue, id: nat)
    requires QueueOk(rqs, k, u, {}) && id in u.sort && id in rqs
    requires forall i :: i in rqs ==> i in more && (i != id ==> more[i] == rqs[i])
    requires more[id] == rqs[id].(sector := more[id].sector)
    requires v == u.(sort := Remove(u.sort, id), queuedAsync := v.queuedAsync, queuedSync := v.queuedSync)
    requires v.queuedAsync == u.queuedAsync - if rqs[id].sync then 0 else 1
    requires v.queuedSync == u.queuedSync - if rqs[id].sync then 1 else 0
    ensures QueueOk(more, k, v, {id})
  {
    LiftedLists(rqs, more, k, u, v, id);
    LiftedCounts(rqs, more, k, u, v, id);
    hide CountSync, CountMeta, Distinct, SectorSorted, Remove;
  }

  lemma LiftedLists(rqs: map<nat, Rq>, more: map<nat, Rq>, k: nat, u: Queue, v: Queue, id: nat)
    requires QueueOk(rqs, k, u, {}) && id in u.sort && id in rqs
    requires forall i :: i in rqs ==> i in more && (i != id ==> more[i] == rqs[i])
    requires more[id] == rqs[id].(sector := more[id].sector) && v.sort == Remove(u.sort, id)
    ensures Known(more, v.sort) && SectorSorted(more, v.sort) && Known(more, u.fifo)
    ensures (forall i :: i in u.fifo <==> i in v.sort || i == id) && id !in v.sort
  {
    SortedDistinct(rqs, u.sort);
    RemoveDistinct(u.sort, id);
    RemoveSorted(rqs, u.sort, id);
    hide Remove, Distinct, CountSync, CountMeta;
    SectorsSame(rqs, more, v.sort);
  }

  lemma LiftedCounts(rqs: map<nat, Rq>, more: map<nat, Rq>, k: nat, u: Queue, v: Queue, id: nat)
    requires QueueOk(rqs, k, u, {}) && id in u.sort && id in rqs
    requires forall i :: i in rqs ==> i in more && (i != id ==> more[i] == rqs[i])
    requires more[id] == rqs[id].(sector := more[id].sector) && v.sort == Remove(u.sort, id)
    ensures Known(more, v.sort) && CountMeta(more, u.fifo) == CountMeta(rqs, u.fifo)
    ensures CountSync(more, v.sort, false) == CountSync(rqs, u.sort, false) - if rqs[id].sync then 0 else 1
    ensures CountSync(more, v.sort, true) == CountSync(rqs, u.sort, true) - if rqs[id].sync then 1 else 0
  {
    SortedDistinct(rqs, u.sort);
    RemoveDistinct(u.sort, id);
    CountRemove(rqs, u.sort, id);
    hide Remove, Distinct, SectorSorted;
    CountSame(rqs, more, v.sort);
    CountSame(rqs, more, u.fifo);
  }

  lemma SectorsSame(a: map<nat, Rq>, b: map<nat, Rq>, sort: seq<nat>)
    requires Known(a, sort) && Known(b, sort) && SectorSorted(a, sort)
    requires forall i :: i in sort ==> a[i].sector == b[i].sector
    ensures SectorSorted(b, sort)
  {
  }

  lemma OthersExtend(rqs: map<nat, Rq>, more: map<nat, Rq>, j: nat, u: Queue, id: nat)
    requires QueueOk(rqs, j, u, {}) && id in rqs && rqs[id].cfqq != j
    requires forall i :: i in rqs ==> i in more && (i != id ==> more[i] == rqs[i])
    ensures QueueOk(more, j, u, {})
  {
    assert id !in u.fifo && id !in u.sort;
    CountSame(rqs, more, u.sort);
    CountSame(rqs, more, u.fifo);
    SectorsSame(rqs, more, u.sort);
    hide CountSync, CountMeta, Distinct, SectorSorted;
  }

  // What taking a request off its tree leaves.
  ghost predicate Lifts(s: State, t: State, k: nat, id: nat) {
    && k in s.queues && id in s.queues[k].sort && id in s.rqs && s.rqs[id].cfqq == k && id in t.rqs
    && t.rqs == s.rqs[id := s.rqs[id].(sector := t.rqs[id].sector)]
    && k in t.queues && t.queues == s.queues[k := t.queues[k]]
    && t.queues[k] == s.queues[k].(sort := Remove(s.queues[k].sort, id), queuedAsync := t.queues[k].queuedAsync,
                                   queuedSync := t.queues[k].queuedSync)
    && t.queues[k].queuedAsync == s.queues[k].queuedAsync - (if s.rqs[id].sync then 0 else 1)
    && t.queues[k].queuedSync == s.queues[k].queuedSync - (if s.rqs[id].sync then 1 else 0)
    && t == s.(rqs := t.rqs, queues := t.queues)
  }

  lemma LiftedIs(s: State, k: nat, id: nat, sector: nat)
    requires Linked(s, id) && s.rqs[id].cfqq == k
    ensures Lifts(s, Lifted(s, id, sector), k, id)
  {
    hide Remove;
  }

  lemma LiftsQueues(s: State, t: State, k: nat, id: nat)
    requires QueuesOk(s.rqs, s.queues, k, {}) && Lifts(s, t, k, id)
    ensures QueuesOk(t.rqs, t.queues, k, {id}) && id in t.queues[k].fifo
  {
    hide QueueOk, Remove;
    Refocus(s.rqs, s.queues, k, k, {});
    QueueLists(s.rqs, k, s.queues[k], {});
    hide Distinct, SectorSorted, Known;
    LiftedQueue(s.rqs, t.rqs, k, s.queues[k], t.queues[k], id);
    forall j | j in t.queues && j != k ensures QueueOk(t.rqs, j, t.queues[j], {}) {
      OthersExtend(s.rqs, t.rqs, j, s.queues[j], id);
    }
  }

  lemma LiftedOk(s: State, k: nat, id: nat, sector: nat)
    requires Ok(s, k, {}) && k in s.queues && id in s.queues[k].sort
    ensures Linked(s, id) && s.rqs[id].cfqq == k
    ensures var t := Lifted(s, id, sector);
            && Ok(t, k, {id}) && Held(t) == Held(s) && k in t.queues && id in t.queues[k].fifo
  {
    hide QueueOk, Remove, Linked, QueuesOk, TreeOk, HeldSet, Lifted;
    LinkedKnown(s, k, {}, k, id);
    LiftedIs(s, k, id, sector);
    var t := Lifted(s, id, sector);
    LiftsQueues(s, t, k, id);
    HeldSame(s.rqs, t.rqs, s.queues, t.queues);
    TreeSame(s.queues, t.queues, s.tree, s.left, s.busy);
  }

  lemma PutFlagged(c: Config, t: State, id: nat, k: nat, p: nat)
    requires Ok(t, k, {id}) && id in t.rqs && t.rqs[id].cfqq == k && k in t.queues
    requires forall i :: i in t.queues[k].sort ==> i in t.rqs && t.rqs[i].sector != t.rqs[id].sector
    ensures Ready(t, id)
    ensures var v := Flagged(t, k, Put(c, t.lastPosition, t.rqs, t.queues[k], id), t.rqQueued, p);
            && Ok(v, k, {}) && v.rqs == t.rqs && v.out == t.out && v.gone == t.gone
            && (forall j :: j in t.queues ==> j in v.queues)
            && Held(v) == Held(t)
  {
    hide HeldSet, QueueOk, QueuesOk, TreeOk;
    ReadyWhen(t, k, {id}, id);
    Refocus(t.rqs, t.queues, k, k, {id});
    assert {} + {id} == {id};
    PutOk(c, t.lastPosition, t.rqs, k, t.queues[k], {}, id);
    var v := Put(c, t.lastPosition, t.rqs, t.queues[k], id);
    assert v.onRr && v.fifo == t.queues[k].fifo;
    hide Put, Ready;
    HeldSame(t.rqs, t.rqs, t.queues, t.queues[k := v]);
    FlaggedOk(t, k, {id}, v, t.rqQueued, p);
    hide Flagged;
  }

  lemma RepositionOk(c: Config, s: State, k: nat, id: nat, sector: nat, p: nat) returns (out: seq<nat>)
    requires Ok(s, k, {}) && k in s.queues && id in s.queues[k].sort
    ensures Linked(s, id) && Ready(Lifted(s, id, sector), id) && Ready(MakeRoom(c, Lifted(s, id, sector), id), id)
    ensures var t := Reposition(c, s, id, sector, p); Ok(t, k, {}) && Effect(s, t, [], out, [])
  {
    LiftedOk(s, k, id, sector);
    var l := Lifted(s, id, sector);
    LiftedShape(s, id, sector);
    hide HeldSet, QueueOk, QueuesOk, TreeOk, MakeRoom, Put, Ready, Linked, Lifted, Effect;
    out := RoomOk(c, l, k, {id}, id);
    var t := MakeRoom(c, l, id);
    PutFlagged(c, t, id, k, p);
    var v := Reposition(c, s, id, sector, p);
    assert v == Flagged(t, k, Put(c, t.lastPosition, t.rqs, t.queues[k], id), t.rqQueued, p);
    hide Reposition, Flagged;
    EffectCompose(s, l, t, v, [], out);
  }

  lemma LiftedShape(s: State, id: nat, sector: nat)
    requires Linked(s, id)
    ensures var l := Lifted(s, id, sector);
            && (forall i :: i in l.rqs <==> i in s.rqs) && l.gone == s.gone && l.out == s.out
            && (forall i :: i in s.queues ==> i in l.queues) && id in l.rqs && l.rqs[id].cfqq == s.rqs[id].cfqq
  {
  }

  // ------------------------------------------------------- merging

  // The survivor's new attributes change nothing that is counted or sorted by.
  lemma SurvivorQueue(rqs: map<nat, Rq>, more: map<nat, Rq>, j: nat, u: Queue)
    requires QueueOk(rqs, j, u, {})
    requires forall i :: i in rqs ==> i in more && more[i].cfqq == rqs[i].cfqq && more[i].sector == rqs[i].sector
                                      && more[i].sync == rqs[i].sync && more[i].meta == rqs[i].meta
    ensures QueueOk(more, j, u, {})
  {
    CountSame(rqs, more, u.sort);
    CountSame(rqs, more, u.fifo);
    SectorsSame(rqs, more, u.sort);
    hide CountSync, CountMeta, Distinct, SectorSorted;
  }

  lemma SurvivorOk(s: State, k: nat, id: nat, next: nat)
    requires Ok(s, k, {}) && id in s.rqs && next in s.rqs
    ensures var t := s.(rqs := s.rqs[id := Survivor(s.rqs[id], s.rqs[next])]);
            Ok(t, k, {}) && Held(t) == Held(s) && forall i :: i in t.rqs <==> i in s.rqs
  {
    hide QueueOk, TreeOk;
    var more := s.rqs[id := Survivor(s.rqs[id], s.rqs[next])];
    forall j | j in s.queues ensures QueueOk(more, j, s.queues[j], {}) {
      SurvivorQueue(s.rqs, more, j, s.queues[j]);
    }
    HeldSame(s.rqs, more, s.queues, s.queues);
    hide HeldSet;
  }

  lemma MergeIs(c: Config, s: State, id: nat, next: nat)
    requires Linked(s, id) && Linked(s, next) && id != next && s.rqs[id].cfqq == s.rqs[next].cfqq
    ensures var u := s.(rqs := s.rqs[id := Survivor(s.rqs[id], s.rqs[next])]);
            Linked(u, next) && Merge(c, s, id, next) == RemoveRequest(c, u, next).(gone := s.gone + {next})
  {
    var k := s.rqs[id].cfqq;
    var u := s.(rqs := s.rqs[id := Survivor(s.rqs[id], s.rqs[next])]);
    assert s.queues[k := s.queues[k].(fifo := s.queues[k].fifo)] == s.queues;
    assert Linked(u, next);
    hide RemoveRequest;
  }

  lemma MergeOk(c: Config, s: State, k: nat, id: nat, next: nat)
    requires Ok(s, k, {}) && k in s.queues && id in s.queues[k].sort && next in s.queues[k].sort && id != next
    ensures Linked(s, id) && Linked(s, next) && s.rqs[id].cfqq == k == s.rqs[next].cfqq
    ensures var t := Merge(c, s, id, next); Ok(t, k, {}) && Effect(s, t, [], [], [next])
  {
    hide Merge, QueueOk, QueuesOk, TreeOk, Linked, RemoveRequest, Taken, Survivor, Held, Effect;
    LinkedKnown(s, k, {}, k, id);
    LinkedKnown(s, k, {}, k, next);
    InHeld(s, k, {}, next);
    InRqs(s, id);
    InRqs(s, next);
    SurvivorOk(s, k, id, next);
    MergeIs(c, s, id, next);
    var u := s.(rqs := s.rqs[id := Survivor(s.rqs[id], s.rqs[next])]);
    RemoveOk(c, u, k, {}, k, next);
    HeldIs(u);
    var r := RemoveRequest(c, u, next);
    HeldIs(r);
    hide HeldSet;
    RemovedEffect(s, u, r, k, next);
    GoneApart(r, k, s.gone + {next});
  }

  lemma InRqs(s: State, id: nat)
    requires Linked(s, id)
    ensures id in s.rqs
  {
  }

  lemma HeldIs(s: State)
    ensures Held(s) == HeldSet(s.rqs, s.queues)
  {
  }

  lemma GoneApart(s: State, k: nat, gone: set<nat>)
    requires Ok(s, k, {})
    ensures Ok(s.(gone := gone), k, {})
  {
    hide QueuesOk, TreeOk, HeldSet;
  }

  lemma RemovedEffect(s: State, u: State, r: State, k: nat, next: nat)
    requires Held(u) == Held(s) && u.queues == s.queues && u.out == s.out && u.gone == s.gone
    requires forall i :: i in u.rqs <==> i in s.rqs
    requires Held(r) == Held(u) - {next} && r.rqs == u.rqs && r.out == u.out && r.gone == u.gone && next in Held(s)
    requires forall i :: i in u.queues ==> i in r.queues
    ensures Effect(s, r.(gone := s.gone + {next}), [], [], [next])
  {
    assert s.out + [] == s.out;
    assert Held(r.(gone := s.gone + {next})) == Held(r);
    hide Held;
  }

  // ------------------------------------------------------- the service tree by itself

  lemma TreeOnly(s: State, t: State, k: nat)
    requires Ok(s, k, {}) && t == s.(tree := t.tree, left := t.left) && TreeOk(s.queues, t.tree, t.left, s.busy)
    ensures Ok(t, k, {}) && Effect(s, t, [], [], [])
  {
    NothingMoves(s, t);
    hide QueuesOk, TreeOk, Held, HeldSet, Effect;
  }

  lemma NothingMoves(s: State, t: State)
    requires t.rqs == s.rqs && t.queues == s.queues && t.out == s.out && t.gone == s.gone
    ensures Effect(s, t, [], [], [])
  {
    assert s.out + [] == s.out;
    assert Held(t) == Held(s);
    hide Held;
  }

  lemma ResortTree(s: State, k: nat, same: bool, p: nat)
    requires TreeOk(s.queues, s.tree, s.left, s.busy) && k in s.queues && s.queues[k].onRr
    ensures var t := ServiceTreeAdd(s, k, same, p); TreeOk(s.queues, t.tree, t.left, s.busy)
  {
    assert k in s.tree;
    if !same {
      var off := s.queues[k := s.queues[k].(onRr := false)];
      TreeLoses(s.queues, off, s.tree, s.left, s.busy, k);
      RemoveDistinct(s.tree, k);
      var t := RbErase(s, k);
      assert TreeOk(off, t.tree, t.left, s.busy - 1) && k !in t.tree;
      assert ServiceTreeAdd(s, k, same, p)
          == t.(tree := InsertAt(t.tree, Clip(p, |t.tree|), k),
                left := if Clip(p, |t.tree|) == 0 then Some(k) else t.left);
      hide Remove, RbErase, ServiceTreeAdd, TreeOk;
      TreeGains(off, s.queues, t.tree, t.left, s.busy - 1, k, Clip(p, |t.tree|));
    }
  }

  // Slice expiry, preemption, and every other new position of a queue.
  lemma ResortOk(s: State, k: nat, same: bool, p: nat)
    requires Ok(s, k, {}) && k in s.queues && s.queues[k].onRr
    ensures var t := ServiceTreeAdd(s, k, same, p); Ok(t, k, {}) && Effect(s, t, [], [], [])
  {
    ResortTree(s, k, same, p);
    hide QueuesOk, TreeOk, HeldSet, Remove, InsertAt, Effect;
    TreeOnly(s, ServiceTreeAdd(s, k, same, p), k);
  }

  // The cached first node, once filled in, is the first; and it has requests to dispatch.
  lemma FirstOk(s: State, k: nat)
    requires Ok(s, k, {})
    ensures var t := RbFirst(s); Ok(t, k, {}) && Effect(s, t, [], [], [])
    ensures var f := RbFirst(s).left;
            if f.None? then s.tree == []
            else s.tree != [] && f.value == s.tree[0] && f.value in s.queues
                 && s.queues[f.value].sort != [] && s.queues[f.value].next.Some?
  {
    hide Effect, HeldSet, QueueOk;
    TreeOnly(s, RbFirst(s), k);
    var f := RbFirst(s).left;
    if f.Some? {
      assert f.value in s.tree;
      FlaggedHasRequests(s.rqs, f.value, s.queues[f.value]);
    }
  }

  lemma FlaggedHasRequests(rqs: map<nat, Rq>, j: nat, u: Queue)
    requires QueueOk(rqs, j, u, {}) && u.onRr
    ensures u.sort != [] && u.next.Some?
  {
  }
}
