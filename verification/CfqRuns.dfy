// Whole runs of the CFQ scheduler, and its forced dispatch.
module CfqRuns {
  import opened Collections
  import opened ElvTree
  import opened Cfq
  import opened CfqQueues
  import opened CfqTheorems

  datatype Action =
    | NewQueue(k: nat)
    | Queued(id: nat, rq: Rq, p: nat)
    | FrontMerge(id: nat, sector: nat, p: nat)
    | MergeTwo(id: nat, next: nat)
    | Serve(k: nat, fifo: bool)
    | Resort(k: nat, same: bool, p: nat)
    | First
    | Activate(position: nat)

  // Every request ever queued is held, or was dispatched once, or was merged into another.
  ghost predicate Accounted(s: State) {
    && Distinct(s.out)
    && (forall i :: i in s.rqs <==> i in Held(s) || i in s.out || i in s.gone)
    && (forall i :: !(i in Held(s) && i in s.out) && !(i in Held(s) && i in s.gone) && !(i in s.out && i in s.gone))
  }

  ghost predicate Inv(s: State) { Ok(s, 0, {}) }

  // The request is with the scheduler.
  ghost predicate Waiting(s: State, id: nat) {
    id in s.rqs && s.rqs[id].cfqq in s.queues && id in s.queues[s.rqs[id].cfqq].sort
  }

  ghost predicate Enabled(s: State, a: Action) {
    match a
    case NewQueue(k) => k !in s.queues
    case Queued(id, rq, _) => id !in s.rqs && rq.cfqq in s.queues
    case FrontMerge(id, _, _) => Waiting(s, id)
    case MergeTwo(id, next) => Waiting(s, id) && Waiting(s, next) && id != next && s.rqs[id].cfqq == s.rqs[next].cfqq
    case Serve(k, _) => k in s.queues && s.queues[k].sort != []
    case Resort(k, _, _) => k in s.queues && s.queues[k].onRr
    case First => true
    case Activate(_) => true
  }

  lemma AnyQueue(s: State, j: nat, k: nat)
    requires Ok(s, j, {})
    ensures Ok(s, k, {})
  {
    hide QueueOk, TreeOk, HeldSet;
  }

  lemma InsertReady(c: Config, s: State, id: nat, rq: Rq)
    requires Inv(s) && id !in s.rqs && rq.cfqq in s.queues
    ensures Ready(Registered(s, id, rq), id)
    ensures Ready(MakeRoom(c, Registered(s, id, rq), id), id)
  {
    hide Ok, Ready, MakeRoom;
    AnyQueue(s, 0, rq.cfqq);
    var out := InsertOk(c, s, id, rq, 0);
  }

  lemma RepositionReady(c: Config, s: State, id: nat, sector: nat)
    requires Inv(s) && Waiting(s, id)
    ensures Linked(s, id) && Ready(Lifted(s, id, sector), id) && Ready(MakeRoom(c, Lifted(s, id, sector), id), id)
  {
    hide Ok, Ready, MakeRoom, Linked;
    AnyQueue(s, 0, s.rqs[id].cfqq);
    var out := RepositionOk(c, s, s.rqs[id].cfqq, id, sector, 0);
  }

  lemma WaitingLinked(s: State, id: nat)
    requires Inv(s) && Waiting(s, id)
    ensures Linked(s, id)
  {
    AnyQueue(s, 0, s.rqs[id].cfqq);
    LinkedKnown(s, s.rqs[id].cfqq, {}, s.rqs[id].cfqq, id);
  }

  // The choice of __cfq_dispatch_requests: the head of the FIFO if it has expired, else the
  // cached next request.  Both are there.
  lemma PickThere(s: State, k: nat)
    requires Inv(s) && k in s.queues && s.queues[k].sort != []
    ensures var u := s.queues[k];
            u.next.Some? && Waiting(s, u.next.value) && s.rqs[u.next.value].cfqq == k
            && u.fifo != [] && Waiting(s, u.fifo[0]) && s.rqs[u.fifo[0]].cfqq == k
  {
    assert QueueOk(s.rqs, k, s.queues[k], {});
    assert s.queues[k].sort[0] in s.queues[k].fifo;
  }

  ghost function Pick(s: State, k: nat, fifo: bool): (id: nat)
    requires Inv(s) && k in s.queues && s.queues[k].sort != []
    ensures Waiting(s, id) && s.rqs[id].cfqq == k
  {
    PickThere(s, k);
    if fifo then s.queues[k].fifo[0] else s.queues[k].next.value
  }

  function Fresh(): Queue { Queue([], [], None, 0, 0, 0, false, 0) }

  ghost function DoInsert(c: Config, s: State, id: nat, rq: Rq, p: nat): State
    requires Inv(s) && id !in s.rqs && rq.cfqq in s.queues
  {
    InsertReady(c, s, id, rq);
    Insert(c, s, id, rq, p)
  }

  ghost function DoReposition(c: Config, s: State, id: nat, sector: nat, p: nat): State
    requires Inv(s) && Waiting(s, id)
  {
    RepositionReady(c, s, id, sector);
    Reposition(c, s, id, sector, p)
  }

  ghost function DoMerge(c: Config, s: State, id: nat, next: nat): State
    requires Inv(s) && Waiting(s, id) && Waiting(s, next) && id != next && s.rqs[id].cfqq == s.rqs[next].cfqq
  {
    WaitingLinked(s, id);
    WaitingLinked(s, next);
    Merge(c, s, id, next)
  }

  ghost function DoServe(c: Config, s: State, k: nat, fifo: bool): State
    requires Inv(s) && k in s.queues && s.queues[k].sort != []
  {
    WaitingLinked(s, Pick(s, k, fifo));
    DispatchInsert(c, s, Pick(s, k, fifo))
  }

  ghost function Apply(c: Config, s: State, a: Action): State
    requires Inv(s) && Enabled(s, a)
  {
    hide Inv, DoInsert, DoReposition, DoMerge, DoServe, ServiceTreeAdd, RbFirst;
    match a
    case NewQueue(k) => s.(queues := s.queues[k := Fresh()])
    case Queued(id, rq, p) => DoInsert(c, s, id, rq, p)
    case FrontMerge(id, sector, p) => DoReposition(c, s, id, sector, p)
    case MergeTwo(id, next) => DoMerge(c, s, id, next)
    case Serve(k, fifo) => DoServe(c, s, k, fifo)
    case Resort(k, same, p) => ServiceTreeAdd(s, k, same, p)
    case First => RbFirst(s)
    case Activate(position) => s.(lastPosition := position)
  }

  // ------------------------------------------------------- every step

  lemma EffectAccounted(s: State, t: State, added: seq<nat>, out: seq<nat>, merged: seq<nat>)
    requires Effect(s, t, added, out, merged) && Accounted(s)
    ensures Accounted(t)
  {
    assert forall i :: i in t.out <==> i in s.out || i in out;
    assert Distinct(t.out) by {
      if out != [] { assert out[0] in Held(s); assert out[0] !in s.out; }
    }
    hide Held;
  }

  lemma Kept(s: State, t: State, k: nat, added: seq<nat>, out: seq<nat>, merged: seq<nat>)
    requires Effect(s, t, added, out, merged) && Ok(t, k, {})
    ensures Inv(t) && (Accounted(s) ==> Accounted(t)) && forall i :: i in s.queues ==> i in t.queues
  {
    AnyQueue(t, k, 0);
    hide Ok;
    if Accounted(s) { EffectAccounted(s, t, added, out, merged); }
  }

  lemma NewQueueOk(s: State, k: nat)
    requires Inv(s) && k !in s.queues
    ensures var t := s.(queues := s.queues[k := Fresh()]); Inv(t) && Effect(s, t, [], [], [])
  {
    hide QueueOk, QueuesOk, TreeOk, HeldSet, Effect;
    QueuesNew(s, k);
    var t := s.(queues := s.queues[k := Fresh()]);
    TreeSame(s.queues, t.queues, s.tree, s.left, s.busy);
    HeldNew(s, k);
    EffectNone(s, t);
  }

  lemma EffectNone(s: State, t: State)
    requires t.out == s.out && t.gone == s.gone && t.rqs == s.rqs
    requires HeldSet(t.rqs, t.queues) == HeldSet(s.rqs, s.queues)
    requires forall i :: i in s.queues ==> i in t.queues
    ensures Effect(s, t, [], [], [])
  {
    hide HeldSet;
    assert s.out + [] == s.out;
  }

  lemma QueuesNew(s: State, k: nat)
    requires QueuesOk(s.rqs, s.queues, 0, {}) && k !in s.queues
    ensures QueuesOk(s.rqs, s.queues[k := Fresh()], 0, {}) && forall i :: i in s.rqs ==> s.rqs[i].cfqq in s.queues
  {
    assert QueueOk(s.rqs, k, Fresh(), {});
    hide QueueOk;
  }

  lemma HeldNew(s: State, k: nat)
    requires k !in s.queues && forall i :: i in s.rqs ==> s.rqs[i].cfqq in s.queues
    ensures HeldSet(s.rqs, s.queues[k := Fresh()]) == HeldSet(s.rqs, s.queues)
  {
  }

  lemma ActivateOk(s: State, position: nat)
    requires Inv(s)
    ensures var t := s.(lastPosition := position); Inv(t) && Effect(s, t, [], [], [])
  {
    assert s.out + [] == s.out;
    hide QueuesOk, TreeOk, HeldSet;
  }

  lemma StepInv(c: Config, s: State, a: Action)
    requires Inv(s) && Enabled(s, a)
    ensures var t := Apply(c, s, a);
            Inv(t) && (Accounted(s) ==> Accounted(t)) && forall i :: i in s.queues ==> i in t.queues
  {
    hide Ok, Effect, Accounted, Insert, Reposition, Merge, DispatchInsert, ServiceTreeAdd, RbFirst, Ready, Linked,
         MakeRoom;
    match a
    case NewQueue(k) =>
      NewQueueOk(s, k);
      Kept(s, Apply(c, s, a), 0, [], [], []);
    case Queued(id, rq, p) =>
      AnyQueue(s, 0, rq.cfqq);
      var out := InsertOk(c, s, id, rq, p);
      Kept(s, Insert(c, s, id, rq, p), rq.cfqq, [id], out, []);
    case FrontMerge(id, sector, p) =>
      AnyQueue(s, 0, s.rqs[id].cfqq);
      var out := RepositionOk(c, s, s.rqs[id].cfqq, id, sector, p);
      Kept(s, Reposition(c, s, id, sector, p), s.rqs[id].cfqq, [], out, []);
    case MergeTwo(id, next) =>
      AnyQueue(s, 0, s.rqs[id].cfqq);
      MergeOk(c, s, s.rqs[id].cfqq, id, next);
      Kept(s, Merge(c, s, id, next), s.rqs[id].cfqq, [], [], [next]);
    case Serve(k, fifo) =>
      AnyQueue(s, 0, k);
      var id := Pick(s, k, fifo);
      WaitingLinked(s, id);
      DispatchEffect(c, s, k, {}, id);
      Kept(s, DispatchInsert(c, s, id), k, [], [id], []);
    case Resort(k, same, p) =>
      AnyQueue(s, 0, k);
      ResortOk(s, k, same, p);
      Kept(s, ServiceTreeAdd(s, k, same, p), k, [], [], []);
    case First =>
      FirstOk(s, 0);
      Kept(s, RbFirst(s), 0, [], [], []);
    case Activate(position) =>
      ActivateOk(s, position);
      Kept(s, Apply(c, s, a), 0, [], [], []);
  }

  // ------------------------------------------------------- runs

  ghost function Init(): (s: State)
    ensures Inv(s) && Accounted(s)
  {
    State(map[], map[], [], None, 0, 0, 0, [], {})
  }

  ghost predicate Legal(c: Config, s: State, acts: seq<Action>)
    requires Inv(s)
    decreases |acts|
  {
    acts == [] || (Enabled(s, acts[0]) && (StepInv(c, s, acts[0]); Legal(c, Apply(c, s, acts[0]), acts[1..])))
  }

  ghost function Exec(c: Config, s: State, acts: seq<Action>): (t: State)
    requires Inv(s) && Legal(c, s, acts)
    ensures Inv(t)
    decreases |acts|
  {
    if acts == [] then s else StepInv(c, s, acts[0]); Exec(c, Apply(c, s, acts[0]), acts[1..])
  }

  lemma {:induction false} ExecAccounted(c: Config, s: State, acts: seq<Action>)
    requires Inv(s) && Accounted(s) && Legal(c, s, acts)
    ensures Accounted(Exec(c, s, acts))
    decreases |acts|
  {
    hide Inv, Accounted, Apply;
    if acts != [] {
      StepInv(c, s, acts[0]);
      ExecAccounted(c, Apply(c, s, acts[0]), acts[1..]);
    }
  }

  // In every run: a queue is on the service tree, once, exactly when it has requests, and
  // then it has a next request of its own; its FIFO and its tree hold the same requests; the
  // counters are the real counts; the cached first node is empty or the first; and no request
  // is lost or dispatched twice.
  lemma IndicesAgree(c: Config, acts: seq<Action>)
    requires Legal(c, Init(), acts)
    ensures var s := Exec(c, Init(), acts);
            && Distinct(s.tree) && (s.left.Some? ==> s.tree != [] && s.left.value == s.tree[0])
            && s.busy == |s.tree| && s.rqQueued == |Held(s)| && Accounted(s)
            && (forall k :: k in s.tree <==> k in s.queues && s.queues[k].sort != [])
            && forall k :: k in s.queues ==> QueueSound(s.rqs, k, s.queues[k])
  {
    ExecAccounted(c, Init(), acts);
    var s := Exec(c, Init(), acts);
    hide Exec, Legal, Accounted;
    forall k | k in s.queues ensures QueueSound(s.rqs, k, s.queues[k]) && (k in s.tree <==> s.queues[k].sort != []) {
      assert QueueOk(s.rqs, k, s.queues[k], {});
      SoundWhen(s.rqs, k, s.queues[k]);
    }
    hide QueueOk, HeldSet, QueueSound;
  }

  ghost predicate QueueSound(rqs: map<nat, Rq>, k: nat, u: Queue) {
    && (forall i :: i in u.sort <==> i in u.fifo) && |u.sort| == |u.fifo|
    && Known(rqs, u.sort) && SectorSorted(rqs, u.sort) && (forall i :: i in u.sort ==> rqs[i].cfqq == k)
    && (if u.sort == [] then u.next == None else u.next.Some? && u.next.value in u.sort)
    && u.queuedAsync == CountSync(rqs, u.sort, false) && u.queuedSync == CountSync(rqs, u.sort, true)
    && Known(rqs, u.fifo) && u.metaPending == CountMeta(rqs, u.fifo)
  }

  lemma SoundWhen(rqs: map<nat, Rq>, k: nat, u: Queue)
    requires QueueOk(rqs, k, u, {})
    ensures QueueSound(rqs, k, u) && (u.onRr <==> u.sort != [])
  {
    SortedDistinct(rqs, u.sort);
    var a := DistinctSize(u.sort);
    var b := DistinctSize(u.fifo);
    assert a == b;
    hide CountSync, CountMeta, SectorSorted, Distinct;
  }

  // ------------------------------------------------------- forced dispatch

  // One cfq_dispatch_insert of a queue's cached next request.
  ghost function ServeNext(c: Config, s: State, k: nat): (t: State)
    requires Inv(s) && k in s.queues && s.queues[k].next.Some?
  {
    HasSort(s, k);
    hide Inv;
    DoServe(c, s, k, false)
  }

  // What draining may do to the state.
  ghost predicate Drains(s: State, t: State) {
    && Inv(t) && Held(t) <= Held(s) && t.gone == s.gone && t.rqs == s.rqs && (Accounted(s) ==> Accounted(t))
    && forall i :: i in s.queues ==> i in t.queues
  }

  lemma NextServes(c: Config, s: State, k: nat)
    requires Inv(s) && k in s.queues && s.queues[k].next.Some?
    ensures Drains(s, ServeNext(c, s, k)) && |Held(ServeNext(c, s, k))| < |Held(s)|
  {
    hide Inv;
    HasSort(s, k);
    hide Ok, Accounted, Held, DispatchInsert;
    var id := Pick(s, k, false);
    StepInv(c, s, Serve(k, false));
    ServeEffect(c, s, k, id);
    var t := ServeNext(c, s, k);
    assert t == Apply(c, s, Serve(k, false)) == DispatchInsert(c, s, id);
    hide Apply, ServeNext;
    EffectLess(s, t, id);
  }

  // __cfq_forced_dispatch_cfqq: the queue is emptied, or its BUG_ON would fire.
  ghost function ForcedQueue(c: Config, s: State, k: nat): (t: State)
    requires Inv(s) && k in s.queues
    ensures Drains(s, t)
    decreases |Held(s)|
  {
    hide Ok, ServeNext, Held, Accounted;
    if s.queues[k].next.None? then s
    else
      NextServes(c, s, k);
      ForcedQueue(c, ServeNext(c, s, k), k)
  }

  lemma ServeEffect(c: Config, s: State, k: nat, id: nat)
    requires Inv(s) && Waiting(s, id) && s.rqs[id].cfqq == k
    ensures Linked(s, id) && Effect(s, DispatchInsert(c, s, id), [], [id], []) && DispatchInsert(c, s, id).rqs == s.rqs
  {
    AnyQueue(s, 0, k);
    hide Effect, Ok, DispatchInsert, Linked;
    DispatchEffect(c, s, k, {}, id);
  }

  lemma HasSort(s: State, k: nat)
    requires Inv(s) && k in s.queues && s.queues[k].next.Some?
    ensures s.queues[k].sort != []
  {
    assert QueueOk(s.rqs, k, s.queues[k], {});
  }

  lemma EffectLess(s: State, t: State, id: nat)
    requires Effect(s, t, [], [id], [])
    ensures |Held(t)| < |Held(s)| && Held(t) <= Held(s) && t.gone == s.gone
    ensures forall i :: i in s.queues ==> i in t.queues
  {
    assert id in [id];
    assert id in Held(s) && id !in Held(t);
    hide Held;
    assert Held(t) <= Held(s) - {id};
    CardLess(Held(t), Held(s), id);
  }

  lemma CardLess(a: set<nat>, b: set<nat>, id: nat)
    requires a <= b - {id} && id in b
    ensures |a| < |b|
  {
    var rest := b - {id} - a;
    assert b - {id} == a + rest;
    assert |b - {id}| == |a| + |rest|;
  }

  // cfq_forced_dispatch: as long as the service tree has a first queue, empty it.
  ghost function ForcedDispatch(c: Config, s: State): (t: State)
    requires Inv(s)
    ensures Drains(s, t)
    decreases |Held(s)|
  {
    hide Ok, Held, Accounted, RbFirst;
    FirstDrains(s);
    var f := RbFirst(s);
    if f.left.None? then f
    else
      FirstServes(c, f);
      ForcedDispatch(c, ForcedQueue(c, f, f.left.value))
  }

  lemma FirstDrains(s: State)
    requires Inv(s)
    ensures var f := RbFirst(s);
            && Drains(s, f) && Held(f) == Held(s) && (f.left.None? ==> f.tree == [])
            && (f.left.Some? ==> f.left.value in f.queues && f.queues[f.left.value].next.Some?)
  {
    FirstOk(s, 0);
    hide Ok;
    var f := RbFirst(s);
    Kept(s, f, 0, [], [], []);
    HeldSame(s.rqs, f.rqs, s.queues, f.queues);
    hide Effect, Accounted, HeldSet;
  }

  // The first queue has requests, so emptying it makes progress.
  lemma FirstServes(c: Config, f: State)
    requires Inv(f) && f.left.Some? && f.left.value in f.queues && f.queues[f.left.value].next.Some?
    ensures |Held(ForcedQueue(c, f, f.left.value))| < |Held(f)|
  {
    hide Inv, Held, ServeNext, Accounted;
    var k := f.left.value;
    NextServes(c, f, k);
    var g := ServeNext(c, f, k);
    var t := ForcedQueue(c, g, k);
    CardLeast(Held(t), Held(g));
  }

  lemma CardLeast(a: set<nat>, b: set<nat>)
    requires a <= b
    ensures |a| <= |b|
  {
    assert b == a + (b - a);
  }

  // Emptying a queue leaves its FIFO empty: the BUG_ON behind the loop cannot fire.
  lemma {:induction false} ForcedQueueEmpties(c: Config, s: State, k: nat)
    requires Inv(s) && k in s.queues
    ensures ForcedQueue(c, s, k).queues[k].fifo == []
    decreases |Held(s)|
  {
    hide Inv, Accounted, Held, ServeNext;
    if s.queues[k].next.Some? {
      NextServes(c, s, k);
      ForcedQueueEmpties(c, ServeNext(c, s, k), k);
    } else {
      EmptyQueue(s, k);
    }
  }

  lemma EmptyQueue(s: State, k: nat)
    requires Inv(s) && k in s.queues && s.queues[k].next.None?
    ensures s.queues[k].fifo == []
  {
    SoundWhen(s.rqs, k, s.queues[k]);
  }

  // It terminates with every queue off the tree, busy_queues and rq_queued zero, and every
  // request that was held dispatched exactly once.
  lemma {:induction false} ForcedDispatchEmpties(c: Config, s: State)
    requires Inv(s) && Accounted(s)
    ensures var t := ForcedDispatch(c, s);
            && t.tree == [] && t.busy == 0 && t.rqQueued == 0 && Held(t) == {}
            && Accounted(t) && t.gone == s.gone && t.rqs == s.rqs
            && forall i :: i in Held(s) ==> i in t.out
    decreases |Held(s)|
  {
    hide Inv, Held, RbFirst, Accounted, ForcedQueue;
    FirstDrains(s);
    var f := RbFirst(s);
    if f.left.Some? {
      FirstServes(c, f);
      ForcedDispatchEmpties(c, ForcedQueue(c, f, f.left.value));
    } else {
      NobodyLeft(f);
    }
    EverythingOut(s, ForcedDispatch(c, s));
  }

  lemma HeldInTree(s: State, i: nat)
    requires Inv(s) && i in Held(s)
    ensures i in s.rqs && s.rqs[i].cfqq in s.tree
  {
    var k := s.rqs[i].cfqq;
    assert QueueOk(s.rqs, k, s.queues[k], {});
    hide HeldSet, CountSync, CountMeta, SectorSorted, Distinct;
  }

  lemma NobodyLeft(s: State)
    requires Inv(s) && s.tree == []
    ensures Held(s) == {} && s.busy == 0 && s.rqQueued == 0
  {
    forall i | i in Held(s) ensures i in s.rqs && s.rqs[i].cfqq in s.tree { HeldInTree(s, i); }
    hide QueuesOk;
    assert Held(s) == {};
  }

  lemma EverythingOut(s: State, t: State)
    requires Accounted(s) && Accounted(t) && t.gone == s.gone && t.rqs == s.rqs && Held(t) == {}
    ensures forall i :: i in Held(s) ==> i in t.out
  {
    hide Held;
    forall i | i in Held(s) ensures i in t.out { assert i in s.rqs; }
  }

  // The counters that BUG_ON and WARN_ON guard are positive when a request leaves.
  lemma CountersPositive(s: State, id: nat)
    requires Inv(s) && Waiting(s, id)
    ensures var r, u := s.rqs[id], s.queues[s.rqs[id].cfqq];
            && (if r.sync then u.queuedSync else u.queuedAsync) > 0 && (r.meta ==> u.metaPending > 0)
            && u.onRr && s.busy > 0 && s.rqQueued > 0
  {
    var k := s.rqs[id].cfqq;
    var u := s.queues[k];
    assert QueueOk(s.rqs, k, u, {});
    CountRemove(s.rqs, u.sort, id);
    CountRemove(s.rqs, u.fifo, id);
    assert id in HeldSet(s.rqs, s.queues);
    assert k in s.tree;
    hide CountSync, CountMeta, SectorSorted, Remove, Distinct;
  }
}
