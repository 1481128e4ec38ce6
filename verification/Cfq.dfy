// The CFQ scheduler (block/cfq-iosched.c): per-process queues of requests, and a service
// tree of those queues whose first node is cached.
module Cfq {
  import opened Collections
  import opened ElvTree

  // struct cfq_queue; queued[0] and queued[1] are queuedAsync and queuedSync.
  datatype Queue = Queue(
    sort: seq<nat>, fifo: seq<nat>, next: Option<nat>, queuedAsync: int, queuedSync: int,
    metaPending: int, onRr: bool, dispatched: int)

  // tree is the service tree in order, left the cached first node, out what went to the
  // dispatch queue, gone what was merged away.
  datatype State = State(
    rqs: map<nat, Rq>, queues: map<nat, Queue>, tree: seq<nat>, left: Option<nat>, busy: int,
    rqQueued: int, lastPosition: nat, out: seq<nat>, gone: set<nat>)

  datatype Config = Config(backMax: nat, backPenalty: nat)

  // ------------------------------------------------------- cfq_choose_req

  // Behind the head by more than the allowed backward seek.
  predicate Wraps(c: Config, last: nat, sector: nat) { sector < last && sector + 2 * c.backMax < last }

  // Backward seeks count penalty times as much.
  function Distance(c: Config, last: nat, sector: nat): nat {
    if sector >= last then sector - last
    else if sector + 2 * c.backMax >= last then (last - sector) * c.backPenalty
    else 0
  }

  function ChooseReq(c: Config, last: nat, rqs: map<nat, Rq>, rq1: Option<nat>, rq2: Option<nat>): Option<nat>
    requires (rq1.Some? ==> rq1.value in rqs) && (rq2.Some? ==> rq2.value in rqs)
  {
    if rq1.None? || rq1 == rq2 then rq2
    else if rq2.None? then rq1
    else
      var a, b := rqs[rq1.value], rqs[rq2.value];
      if a.sync && !b.sync then rq1
      else if b.sync && !a.sync then rq2
      else if a.meta && !b.meta then rq1
      else if b.meta && !a.meta then rq2
      else
        var d1, d2 := Distance(c, last, a.sector), Distance(c, last, b.sector);
        match (Wraps(c, last, a.sector), Wraps(c, last, b.sector))
        case (false, false) =>
          if d1 < d2 then rq1 else if d2 < d1 then rq2 else if a.sector >= b.sector then rq1 else rq2
        case (false, true) => rq1
        case (true, false) => rq2
        case (true, true) => if a.sector <= b.sector then rq1 else rq2
  }

  // What the choice means: one order over all requests, most significant first.
  function Rank(c: Config, last: nat, r: Rq): seq<int> {
    var ahead := last <= r.sector;
    var reach := ahead || last - r.sector <= 2 * c.backMax;
    [if r.sync then 0 else 1, if r.meta then 0 else 1, if reach then 0 else 1,
     if ahead then r.sector - last else if reach then c.backPenalty * (last - r.sector) else r.sector,
     if reach then 0 - r.sector else 0]
  }

  predicate Lex(a: seq<int>, b: seq<int>)
    requires |a| == |b|
  {
    a == [] || a[0] < b[0] || (a[0] == b[0] && Lex(a[1..], b[1..]))
  }

  lemma LexFive(a: seq<int>, b: seq<int>)
    requires |a| == |b| == 5
    ensures Lex(a, b) <==> a[0] < b[0] || (a[0] == b[0] && (a[1] < b[1] || (a[1] == b[1] && (a[2] < b[2] || (a[2] == b[2]
                           && (a[3] < b[3] || (a[3] == b[3] && a[4] <= b[4])))))))
  {
    assert Lex(a, b) == (a[0] < b[0] || (a[0] == b[0] && Lex(a[1..], b[1..])));
    assert Lex(a[1..], b[1..]) == (a[1] < b[1] || (a[1] == b[1] && Lex(a[1..][1..], b[1..][1..])));
    assert a[1..][1..] == a[2..] && b[1..][1..] == b[2..];
    assert Lex(a[2..], b[2..]) == (a[2] < b[2] || (a[2] == b[2] && Lex(a[2..][1..], b[2..][1..])));
    assert a[2..][1..] == a[3..] && b[2..][1..] == b[3..];
    assert Lex(a[3..], b[3..]) == (a[3] < b[3] || (a[3] == b[3] && Lex(a[3..][1..], b[3..][1..])));
    assert a[3..][1..] == a[4..] && b[3..][1..] == b[4..];
    assert Lex(a[4..], b[4..]) == (a[4] < b[4] || (a[4] == b[4] && Lex(a[4..][1..], b[4..][1..])));
  }

  // The choice is one of the two candidates, and ranks no lower than the other; whichever
  // way round they are given, requests at different sectors give the same answer.
  lemma ChoiceIsBest(c: Config, last: nat, rqs: map<nat, Rq>, a: nat, b: nat)
    requires a in rqs && b in rqs
    ensures var r := ChooseReq(c, last, rqs, Some(a), Some(b));
            r.Some? && (r.value == a || r.value == b)
            && Lex(Rank(c, last, rqs[r.value]), Rank(c, last, rqs[a])) && Lex(Rank(c, last, rqs[r.value]), Rank(c, last, rqs[b]))
    ensures rqs[a].sector != rqs[b].sector
            ==> ChooseReq(c, last, rqs, Some(a), Some(b)) == ChooseReq(c, last, rqs, Some(b), Some(a))
  {
    var x, y := Rank(c, last, rqs[a]), Rank(c, last, rqs[b]);
    LexFive(x, y);
    LexFive(y, x);
    LexFive(x, x);
    LexFive(y, y);
    assert x != y ==> x[0] != y[0] || x[1] != y[1] || x[2] != y[2] || x[3] != y[3] || x[4] != y[4];
    hide Lex;
  }

  // ------------------------------------------------------- the service tree

  // cfq_rb_first
  function RbFirst(s: State): State {
    if s.left.None? && s.tree != [] then s.(left := Some(s.tree[0])) else s
  }

  // cfq_rb_erase
  function RbErase(s: State, k: nat): State
    requires k in s.tree
  {
    s.(tree := Remove(s.tree, k), left := if s.left == Some(k) then None else s.left)
  }

  function Clip(p: nat, n: nat): nat { if p <= n then p else n }

  // cfq_service_tree_add: p is where the descent ends, which depends on the keys and classes
  // of the moment; it went left all the way exactly when p is 0.  same: the key is unchanged.
  function ServiceTreeAdd(s: State, k: nat, same: bool, p: nat): State {
    if k in s.tree && same then s
    else
      var t := if k in s.tree then RbErase(s, k) else s;
      var q := Clip(p, |t.tree|);
      t.(tree := InsertAt(t.tree, q, k), left := if q == 0 then Some(k) else t.left)
  }

  // cfq_add_cfqq_rr and cfq_del_cfqq_rr, but for the flag in the queue
  function AddRr(s: State, k: nat, p: nat): State {
    ServiceTreeAdd(s.(busy := s.busy + 1), k, false, p)
  }

  function DelRr(s: State, k: nat): State {
    (if k in s.tree then RbErase(s, k) else s).(busy := s.busy - 1)
  }

  // ------------------------------------------------------- requests of one queue

  // cfq_find_next_rq: the neighbours of a request, around the end of the tree.
  function FindNext(c: Config, last: nat, rqs: map<nat, Rq>, sort: seq<nat>, id: nat): Option<nat>
    requires Known(rqs, sort) && id in sort
  {
    var i := Index(sort, id);
    var prev := if i > 0 then Some(sort[i - 1]) else None;
    var next := if i + 1 < |sort| then Some(sort[i + 1]) else if sort[0] != id then Some(sort[0]) else None;
    ChooseReq(c, last, rqs, next, prev)
  }

  // cfq_remove_request, inside its queue: cfq_del_rq_rb takes an empty queue off the list.
  function Taken(c: Config, last: nat, rqs: map<nat, Rq>, u: Queue, id: nat): Queue
    requires Known(rqs, u.sort) && id in u.sort && id in u.fifo
  {
    var r := rqs[id];
    Queue(Remove(u.sort, id), Remove(u.fifo, id), if u.next == Some(id) then FindNext(c, last, rqs, u.sort, id) else u.next,
          if r.sync then u.queuedAsync else u.queuedAsync - 1, if r.sync then u.queuedSync - 1 else u.queuedSync,
          if r.meta then u.metaPending - 1 else u.metaPending, u.onRr && Remove(u.sort, id) != [], u.dispatched)
  }

  // cfq_add_rq_rb, inside its queue, once the sector is free
  function Put(c: Config, last: nat, rqs: map<nat, Rq>, u: Queue, id: nat): Queue
    requires Known(rqs, u.sort) && id in rqs && (u.next.Some? ==> u.next.value in rqs)
  {
    var r := rqs[id];
    u.(sort := RbAdd(rqs, u.sort, id), onRr := true, next := ChooseReq(c, last, rqs, u.next, Some(id)),
       queuedAsync := if r.sync then u.queuedAsync else u.queuedAsync + 1,
       queuedSync := if r.sync then u.queuedSync + 1 else u.queuedSync)
  }

  // cfq_insert_request, inside its queue: the FIFO comes after the tree.
  function Inserted(c: Config, last: nat, rqs: map<nat, Rq>, u: Queue, id: nat): Queue
    requires Known(rqs, u.sort) && id in rqs && (u.next.Some? ==> u.next.value in rqs)
  {
    var v := Put(c, last, rqs, u, id);
    v.(fifo := v.fifo + [id], metaPending := if rqs[id].meta then v.metaPending + 1 else v.metaPending)
  }

  // ------------------------------------------------------- what must agree

  function CountSync(rqs: map<nat, Rq>, list: seq<nat>, sync: bool): nat
    requires Known(rqs, list)
  {
    if list == [] then 0 else (if rqs[list[0]].sync == sync then 1 else 0) + CountSync(rqs, list[1..], sync)
  }

  function CountMeta(rqs: map<nat, Rq>, list: seq<nat>): nat
    requires Known(rqs, list)
  {
    if list == [] then 0 else (if rqs[list[0]].meta then 1 else 0) + CountMeta(rqs, list[1..])
  }

  // Inside a queue: the FIFO and the tree hold the same requests, there is a next request
  // and the queue is flagged exactly when it has any, and its counters are right.  loose are
  // requests off the tree for the moment; the queue may then be flagged with an empty tree.
  ghost predicate QueueOk(rqs: map<nat, Rq>, k: nat, u: Queue, loose: set<nat>) {
    && Known(rqs, u.sort) && Known(rqs, u.fifo)
    && (forall i :: i in u.fifo <==> i in u.sort || i in loose)
    && (forall i :: i in loose ==> i !in u.sort)
    && (forall i :: i in u.fifo ==> rqs[i].cfqq == k)
    && Distinct(u.fifo) && SectorSorted(rqs, u.sort)
    && (u.next.Some? ==> u.next.value in u.fifo) && (u.sort != [] ==> u.next.Some? && u.onRr)
    && (u.onRr ==> u.sort != [] || loose != {})
    && u.queuedAsync == CountSync(rqs, u.sort, false) && u.queuedSync == CountSync(rqs, u.sort, true)
    && u.metaPending == CountMeta(rqs, u.fifo)
  }

  ghost predicate QueuesOk(rqs: map<nat, Rq>, queues: map<nat, Queue>, k: nat, loose: set<nat>) {
    && (forall j :: j in queues ==> QueueOk(rqs, j, queues[j], if j == k then loose else {}))
    && (forall i :: i in rqs ==> rqs[i].cfqq in queues)
  }

  // The tree holds exactly the queues flagged on_rr, and the cached node is empty or its first.
  ghost predicate TreeOk(queues: map<nat, Queue>, tree: seq<nat>, left: Option<nat>, busy: int) {
    && Distinct(tree) && (forall j :: j in tree <==> j in queues && queues[j].onRr)
    && (left.Some? ==> tree != [] && left.value == tree[0])
    && busy == |tree|
  }

  ghost function HeldSet(rqs: map<nat, Rq>, queues: map<nat, Queue>): set<nat> {
    set i | i in rqs && rqs[i].cfqq in queues && i in queues[rqs[i].cfqq].fifo
  }

  // k is the queue with loose requests.
  ghost predicate Ok(s: State, k: nat, loose: set<nat>) {
    && QueuesOk(s.rqs, s.queues, k, loose) && TreeOk(s.queues, s.tree, s.left, s.busy)
    && s.rqQueued == |HeldSet(s.rqs, s.queues)|
  }

  // ------------------------------------------------------- operations

  // What a request needs to be taken out.
  ghost predicate Linked(s: State, id: nat) {
    && id in s.rqs && s.rqs[id].cfqq in s.queues
    && var u := s.queues[s.rqs[id].cfqq];
       Known(s.rqs, u.sort) && id in u.sort && id in u.fifo
  }

  // cfq_remove_request
  function RemoveRequest(c: Config, s: State, id: nat): State
    requires Linked(s, id)
  {
    var k := s.rqs[id].cfqq;
    var u := s.queues[k];
    var v := Taken(c, s.lastPosition, s.rqs, u, id);
    var t := s.(queues := s.queues[k := v], rqQueued := s.rqQueued - 1);
    if u.onRr && !v.onRr then DelRr(t, k) else t
  }

  // cfq_dispatch_insert
  function DispatchInsert(c: Config, s: State, id: nat): State
    requires Linked(s, id)
  {
    var k, t := s.rqs[id].cfqq, RemoveRequest(c, s, id);
    t.(queues := t.queues[k := t.queues[k].(dispatched := t.queues[k].dispatched + 1)], out := t.out + [id])
  }

  // The queue a request belongs to can take it.
  ghost predicate Ready(s: State, id: nat) {
    && id in s.rqs && s.rqs[id].cfqq in s.queues
    && var u := s.queues[s.rqs[id].cfqq];
       Known(s.rqs, u.sort) && (forall i :: i in u.sort ==> Linked(s, i)) && (u.next.Some? ==> u.next.value in s.rqs)
  }

  // The loop of cfq_add_rq_rb: a request of the same sector is dispatched.
  function MakeRoom(c: Config, s: State, id: nat): State
    requires Ready(s, id)
  {
    match Alias(s.rqs, s.queues[s.rqs[id].cfqq].sort, s.rqs[id].sector)
    case None => s
    case Some(alias) => DispatchInsert(c, s, alias)
  }

  // The queue as changed by a new request: put on the service tree if it was not.
  function Flagged(s: State, k: nat, v: Queue, rqQueued: int, p: nat): State
    requires k in s.queues
  {
    var t := s.(queues := s.queues[k := v], rqQueued := rqQueued);
    if s.queues[k].onRr then t else AddRr(t, k, p)
  }

  function Registered(s: State, id: nat, rq: Rq): State { s.(rqs := s.rqs[id := rq]) }

  // cfq_insert_request: p is where cfq_service_tree_add ends, should it run.
  function Insert(c: Config, s: State, id: nat, rq: Rq, p: nat): State
    requires id !in s.rqs && Ready(Registered(s, id, rq), id)
    requires Ready(MakeRoom(c, Registered(s, id, rq), id), id)
  {
    var t := MakeRoom(c, Registered(s, id, rq), id);
    Flagged(t, rq.cfqq, Inserted(c, t.lastPosition, t.rqs, t.queues[rq.cfqq], id), t.rqQueued + 1, p)
  }

  // The first half of cfq_reposition_rq_rb, after a front merge moved the request.
  function Lifted(s: State, id: nat, sector: nat): State
    requires Linked(s, id)
  {
    var r, k := s.rqs[id], s.rqs[id].cfqq;
    var u := s.queues[k];
    s.(rqs := s.rqs[id := r.(sector := sector)],
       queues := s.queues[k := u.(sort := Remove(u.sort, id),
                                  queuedAsync := if r.sync then u.queuedAsync else u.queuedAsync - 1,
                                  queuedSync := if r.sync then u.queuedSync - 1 else u.queuedSync)])
  }

  // cfq_reposition_rq_rb
  function Reposition(c: Config, s: State, id: nat, sector: nat, p: nat): State
    requires Linked(s, id) && Ready(Lifted(s, id, sector), id)
    requires Ready(MakeRoom(c, Lifted(s, id, sector), id), id)
  {
    var t := MakeRoom(c, Lifted(s, id, sector), id);
    var k := t.rqs[id].cfqq;
    Flagged(t, k, Put(c, t.lastPosition, t.rqs, t.queues[k], id), t.rqQueued, p)
  }

  // The FIFO half of cfq_merged_requests: an older request gives its place to the survivor.
  function MergedFifo(fifo: seq<nat>, id: nat, start: nat, next: nat, nextStart: nat): (moved: seq<nat>)
    requires id in fifo && next in fifo && id != next
    ensures forall i :: i in moved <==> i in fifo
  {
    if nextStart < start then
      RemoveKeeps(fifo, id, next);
      var less := Remove(fifo, id);
      InsertAtIndex(less, Index(less, next) + 1, id);
      assert fifo == fifo[..Index(fifo, id)] + [id] + fifo[Index(fifo, id) + 1..];
      InsertAfter(less, next, id)
    else fifo
  }

  // attempt_merge: the survivor has the earlier start time and the longer extent before
  // cfq_merged_requests is called.
  function Survivor(a: Rq, b: Rq): Rq { a.(end := b.end, start := if b.start < a.start then b.start else a.start) }

  // attempt_merge with cfq_merged_requests
  function Merge(c: Config, s: State, id: nat, next: nat): State
    requires Linked(s, id) && Linked(s, next) && id != next && s.rqs[id].cfqq == s.rqs[next].cfqq
  {
    var merged, k := Survivor(s.rqs[id], s.rqs[next]), s.rqs[id].cfqq;
    var u := s.queues[k];
    var v := u.(fifo := MergedFifo(u.fifo, id, merged.start, next, s.rqs[next].start));
    RemoveRequest(c, s.(rqs := s.rqs[id := merged], queues := s.queues[k := v]), next).(gone := s.gone + {next})
  }

  // Because the start times were evened out first, the survivor never takes the older place.
  lemma FifoPlaceKept(c: Config, s: State, id: nat, next: nat)
    requires Linked(s, id) && Linked(s, next) && id != next && s.rqs[id].cfqq == s.rqs[next].cfqq
    ensures var t, k := Merge(c, s, id, next), s.rqs[id].cfqq;
            k in t.queues && t.queues[k].fifo == Remove(s.queues[k].fifo, next)
  {
    hide Remove, FindNext;
  }
}
