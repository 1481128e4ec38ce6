// The bounded request queue with a moving backlog pointer (crypto/algapi.c).
module CryptoQueue {
  import opened Collections

  // The list of requests, by identity. A backlog pointer at the list head is None.
  datatype Queue = Queue(list: seq<nat>, backlog: Option<nat>, qlen: nat, maxQlen: nat)

  datatype Status = InProgress | Busy

  // list_head.next of an element; None is the list head.
  function Next(l: seq<nat>, id: nat): Option<nat> {
    if l == [] then None
    else if l[0] == id then (if |l| > 1 then Some(l[1]) else None)
    else Next(l[1..], id)
  }

  // crypto_init_queue
  function Init(maxQlen: nat): Queue { Queue([], None, 0, maxQlen) }

  // crypto_enqueue_request: the new queue, the status, and whether the request was taken.
  function Enqueued(q: Queue, id: nat, mayBacklog: bool): (Queue, Status, bool) {
    if q.qlen >= q.maxQlen then
      if !mayBacklog then (q, Busy, false)
      else (q.(backlog := if q.backlog.None? then Some(id) else q.backlog, qlen := q.qlen + 1, list := q.list + [id]),
            Busy, true)
    else (q.(qlen := q.qlen + 1, list := q.list + [id]), InProgress, true)
  }

  // crypto_dequeue_request
  function Dequeued(q: Queue): (Queue, Option<nat>)
    requires q.qlen > 0 ==> |q.list| > 0
  {
    if q.qlen == 0 then (q, None)
    else
      var backlog := if q.backlog.Some? then Next(q.list, q.backlog.value) else None;
      (q.(qlen := q.qlen - 1, backlog := backlog, list := q.list[1..]), Some(q.list[0]))
  }

  // The requests that were told to wait and have not been told otherwise.
  function Excess(q: Queue): seq<nat> { if |q.list| > q.maxQlen then q.list[q.maxQlen..] else [] }

  // The backlog pointer designates the first request beyond the limit, if there is one.
  ghost predicate Good(q: Queue) {
    && q.qlen == |q.list| && Distinct(q.list)
    && q.backlog == (if |q.list| > q.maxQlen then Some(q.list[q.maxQlen]) else None)
  }

  lemma {:induction false} NextAt(l: seq<nat>, i: nat)
    requires i < |l| && Distinct(l)
    ensures Next(l, l[i]) == if i + 1 < |l| then Some(l[i + 1]) else None
  {
    if i > 0 {
      assert l[0] != l[i];
      NextAt(l[1..], i - 1);
    }
  }

  // The queue stays good, and who waits is exactly who was answered Busy and taken.
  lemma EnqueueGood(q: Queue, id: nat, mayBacklog: bool)
    requires Good(q) && id !in q.list
    ensures var (r, status, taken) := Enqueued(q, id, mayBacklog);
            && Good(r) && r.maxQlen == q.maxQlen
            && (taken <==> mayBacklog || |q.list| < q.maxQlen) && (status == Busy <==> |q.list| >= q.maxQlen)
            && r.list == (if taken then q.list + [id] else q.list)
            && Excess(r) == (if taken && status == Busy then Excess(q) + [id] else Excess(q))
  {
  }

  // The first request leaves; if anyone waits, the first to wait stops waiting, and the pointer
  // read before the dequeue designated it.
  lemma DequeueGood(q: Queue)
    requires Good(q)
    ensures var (r, id) := Dequeued(q);
            && Good(r) && r.maxQlen == q.maxQlen && (id.None? <==> q.list == []) && (id.None? ==> r == q)
            && (id.Some? ==> q.list == [id.value] + r.list && id.value !in r.list)
            && Excess(q) == (if q.backlog.Some? then [q.backlog.value] else []) + Excess(r)
            && (q.backlog.Some? ==> q.backlog.value == if q.maxQlen == 0 then q.list[0] else r.list[q.maxQlen - 1])
  {
    if q.backlog.Some? { NextAt(q.list, q.maxQlen); }
  }

  // The queue as the source keeps it.
  class RequestQueue {
    var list: seq<nat>
    var backlog: Option<nat>
    var qlen: nat
    const maxQlen: nat

    ghost function Value(): Queue reads this { Queue(list, backlog, qlen, maxQlen) }

    constructor (maxQlen: nat)
      ensures Value() == Init(maxQlen) && Good(Value())
    {
      this.maxQlen := maxQlen;
      list, backlog, qlen := [], None, 0;
    }

    method Enqueue(id: nat, mayBacklog: bool) returns (err: Status, taken: bool)
      requires Good(Value()) && id !in list
      modifies this
      ensures (Value(), err, taken) == Enqueued(old(Value()), id, mayBacklog) && Good(Value())
    {
      EnqueueGood(Value(), id, mayBacklog);
      err := InProgress;
      if qlen >= maxQlen {
        err := Busy;
        if !mayBacklog { return err, false; }
        if backlog.None? { backlog := Some(id); }
      }
      qlen := qlen + 1;
      list := list + [id];
      taken := true;
    }

    method Dequeue() returns (r: Option<nat>)
      requires Good(Value())
      modifies this
      ensures (Value(), r) == Dequeued(old(Value())) && Good(Value())
    {
      DequeueGood(Value());
      if qlen == 0 { return None; }
      qlen := qlen - 1;
      if backlog.Some? { backlog := Next(list, backlog.value); }
      r := Some(list[0]);
      list := list[1..];
    }
  }
}
