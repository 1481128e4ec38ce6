// The order in which a CFQ queue holds and serves its requests.
module CfqOrder {
  import opened Collections
  import opened ElvTree
  import opened Cfq
  import opened CfqQueues
  import opened CfqTheorems
  import opened CfqRuns

  // ------------------------------------------------------- the next request

  // Between requests that rank the same the first is taken.
  lemma ChoiceTies(c: Config, last: nat, rqs: map<nat, Rq>, a: nat, b: nat)
    requires a in rqs && b in rqs && Rank(c, last, rqs[a]) == Rank(c, last, rqs[b])
    ensures ChooseReq(c, last, rqs, Some(a), Some(b)) == Some(a)
  {
    var x, y := Rank(c, last, rqs[a]), Rank(c, last, rqs[b]);
    assert x[0] == y[0] && x[1] == y[1] && x[2] == y[2] && x[3] == y[3] && x[4] == y[4];
  }

  function After(sort: seq<nat>, k: nat): nat
    requires k < |sort|
  {
    if k + 1 < |sort| then sort[k + 1] else sort[0]
  }

  lemma Neighbours(c: Config, last: nat, rqs: map<nat, Rq>, sort: seq<nat>, id: nat)
    requires Known(rqs, sort) && Distinct(sort) && id in sort
    ensures var k := Index(sort, id);
            FindNext(c, last, rqs, sort, id)
              == ChooseReq(c, last, rqs, if |sort| > 1 then Some(After(sort, k)) else None,
                           if k > 0 then Some(sort[k - 1]) else None)
  {
    var k := Index(sort, id);
    assert k + 1 == |sort| && |sort| > 1 ==> sort[0] != sort[k];
    hide ChooseReq;
  }

  lemma ChooseOne(c: Config, last: nat, rqs: map<nat, Rq>, a: Option<nat>)
    requires a.Some? ==> a.value in rqs
    ensures ChooseReq(c, last, rqs, a, None) == a
  {
  }

  // When a request leaves, the next one is its successor in sector order, around the end, or
  // its predecessor, whichever ranks better.
  lemma NextIsNeighbour(c: Config, last: nat, rqs: map<nat, Rq>, sort: seq<nat>, id: nat)
    requires Known(rqs, sort) && SectorSorted(rqs, sort) && id in sort
    ensures var n, k := FindNext(c, last, rqs, sort, id), Index(sort, id);
            && (n.None? <==> |sort| == 1)
            && (n.Some? ==>
                  && (n.value == After(sort, k) || (k > 0 && n.value == sort[k - 1]))
                  && n.value in rqs && Lex(Rank(c, last, rqs[n.value]), Rank(c, last, rqs[After(sort, k)]))
                  && (k > 0 ==> Lex(Rank(c, last, rqs[n.value]), Rank(c, last, rqs[sort[k - 1]]))))
  {
    SortedDistinct(rqs, sort);
    var k := Index(sort, id);
    var after := After(sort, k);
    Neighbours(c, last, rqs, sort, id);
    LexSelf(Rank(c, last, rqs[after]));
    hide FindNext, ChooseReq, Lex, Rank, SectorSorted, Distinct, Index, After;
    if k == 0 {
      ChooseOne(c, last, rqs, if |sort| > 1 then Some(after) else None);
    } else {
      ChoiceIsBest(c, last, rqs, after, sort[k - 1]);
    }
  }

  lemma LexSelf(a: seq<int>)
    requires |a| == 5
    ensures Lex(a, a)
  {
    LexFive(a, a);
  }

  // Until it leaves, the next request gives way only to a new one that ranks better.
  lemma NextGivesWay(c: Config, last: nat, rqs: map<nat, Rq>, u: Queue, id: nat)
    requires Known(rqs, u.sort) && id in rqs && (u.next.Some? ==> u.next.value in rqs)
    ensures id in u.sort && id in u.fifo && u.next != Some(id) ==> Taken(c, last, rqs, u, id).next == u.next
    ensures var n := Put(c, last, rqs, u, id).next;
            && (n == Some(id) || n == u.next) && n.Some? && n.value in rqs
            && Lex(Rank(c, last, rqs[n.value]), Rank(c, last, rqs[id]))
            && (u.next.Some? ==> Lex(Rank(c, last, rqs[n.value]), Rank(c, last, rqs[u.next.value])))
  {
    LexSelf(Rank(c, last, rqs[id]));
    if u.next.Some? { ChoiceIsBest(c, last, rqs, u.next.value, id); }
    hide Lex, Rank, Remove, RbAdd, FindNext;
  }

  predicate Covers(r: Rq, x: nat) { r.sector <= x < r.end }

  // What a merge leaves covers what both covered, and is as old as the older.
  lemma SurvivorCovers(a: Rq, b: Rq)
    requires a.sector <= a.end == b.sector <= b.end
    ensures var r := Survivor(a, b);
            && (forall x: nat :: Covers(r, x) <==> Covers(a, x) || Covers(b, x))
            && r.start <= a.start && r.start <= b.start && (r.start == a.start || r.start == b.start)
  {
  }

  // ------------------------------------------------------- the cached first node

  // A queue goes to the place where the descent ended; the cache is set when that is the first
  // place, and lost only with the node it holds.
  lemma AddedAtPlace(s: State, k: nat, same: bool, p: nat)
    requires !(k in s.tree && same) && p <= |if k in s.tree then Remove(s.tree, k) else s.tree|
    ensures var t, rest := ServiceTreeAdd(s, k, same, p), if k in s.tree then Remove(s.tree, k) else s.tree;
            && t.tree == rest[..p] + [k] + rest[p..]
            && t.left == if p == 0 then Some(k) else if k in s.tree && s.left == Some(k) then None else s.left
  {
    hide Remove;
  }

  lemma ErasedKeeps(s: State, k: nat)
    requires k in s.tree
    ensures var t := RbErase(s, k); t.tree == Remove(s.tree, k) && t.left == if s.left == Some(k) then None else s.left
  {
    hide Remove;
  }

  // ------------------------------------------------------- FIFOs are in order of arrival

  ghost predicate Aged(order: seq<nat>, f: seq<nat>) {
    && (forall i :: 0 <= i < |f| ==> f[i] in order)
    && forall i, j :: 0 <= i < j < |f| ==> Index(order, f[i]) < Index(order, f[j])
  }

  ghost predicate AllAged(order: seq<nat>, s: State) {
    && (forall x :: x in order ==> x in s.rqs)
    && forall k :: k in s.queues ==> Aged(order, s.queues[k].fifo)
  }

  lemma AgedRemove(order: seq<nat>, f: seq<nat>, y: nat)
    requires Aged(order, f) && y in f
    ensures Aged(order, Remove(f, y))
  {
    RemoveAt(f, y);
    hide Remove;
  }

  lemma {:induction false} OlderPlace(order: seq<nat>, id: nat, x: nat)
    requires x in order
    ensures x in order + [id] && Index(order + [id], x) == Index(order, x)
    decreases |order|
  {
    if order[0] != x {
      OlderPlace(order[1..], id, x);
      assert (order + [id])[1..] == order[1..] + [id];
    }
  }

  lemma {:induction false} NewestPlace(order: seq<nat>, id: nat)
    requires id !in order
    ensures Index(order + [id], id) == |order|
    decreases |order|
  {
    if order != [] {
      NewestPlace(order[1..], id);
      assert (order + [id])[1..] == order[1..] + [id];
    }
  }

  lemma AgedLater(order: seq<nat>, id: nat, f: seq<nat>)
    requires Aged(order, f)
    ensures Aged(order + [id], f)
  {
    forall i | 0 <= i < |f| ensures f[i] in order + [id] && Index(order + [id], f[i]) == Index(order, f[i]) {
      OlderPlace(order, id, f[i]);
    }
    hide Index;
  }

  lemma AgedAppend(order: seq<nat>, id: nat, f: seq<nat>)
    requires Aged(order, f) && id !in order
    ensures Aged(order + [id], f + [id])
  {
    AgedLater(order, id, f);
    NewestPlace(order, id);
    forall i | 0 <= i < |f| ensures Index(order + [id], f[i]) < |order| { OlderPlace(order, id, f[i]); }
    hide Index;
  }

  lemma DispatchAged(c: Config, s: State, id: nat, order: seq<nat>)
    requires Linked(s, id) && AllAged(order, s)
    ensures AllAged(order, DispatchInsert(c, s, id))
  {
    var k := s.rqs[id].cfqq;
    AgedRemove(order, s.queues[k].fifo, id);
    hide Remove, FindNext, Aged;
  }

  lemma RoomAged(c: Config, s: State, id: nat, order: seq<nat>)
    requires Ready(s, id) && AllAged(order, s)
    ensures AllAged(order, MakeRoom(c, s, id)) && MakeRoom(c, s, id).rqs == s.rqs
  {
    match Alias(s.rqs, s.queues[s.rqs[id].cfqq].sort, s.rqs[id].sector)
    case None =>
    case Some(alias) =>
      DispatchAged(c, s, alias, order);
      hide Remove, FindNext, AllAged;
  }

  lemma FlaggedQueues(s: State, k: nat, v: Queue, rqQueued: int, p: nat)
    requires k in s.queues
    ensures var t := Flagged(s, k, v, rqQueued, p); t.queues == s.queues[k := v] && t.rqs == s.rqs && t.out == s.out
  {
  }

  lemma InsertShape(c: Config, s: State, id: nat, rq: Rq, p: nat)
    requires id !in s.rqs && Ready(Registered(s, id, rq), id)
    requires Ready(MakeRoom(c, Registered(s, id, rq), id), id)
    ensures var t, u := MakeRoom(c, Registered(s, id, rq), id), Insert(c, s, id, rq, p);
            && u.out == t.out && u.rqs == t.rqs && u.queues.Keys == t.queues.Keys
            && forall k :: k in t.queues ==>
                 && u.queues[k].dispatched == t.queues[k].dispatched
                 && u.queues[k].fifo == t.queues[k].fifo + if k == rq.cfqq then [id] else []
  {
    var t := MakeRoom(c, Registered(s, id, rq), id);
    RoomKeeps(c, Registered(s, id, rq), id);
    hide MakeRoom, ChooseReq, RbAdd, ServiceTreeAdd;
    FlaggedQueues(t, rq.cfqq, Inserted(c, t.lastPosition, t.rqs, t.queues[rq.cfqq], id), t.rqQueued + 1, p);
    hide Flagged, Known;
  }

  lemma RoomKeeps(c: Config, s: State, id: nat)
    requires Ready(s, id)
    ensures MakeRoom(c, s, id).rqs == s.rqs && MakeRoom(c, s, id).queues.Keys == s.queues.Keys
  {
    hide Remove, FindNext;
  }

  lemma InsertAged(c: Config, s: State, id: nat, rq: Rq, p: nat, order: seq<nat>)
    requires id !in s.rqs && Ready(Registered(s, id, rq), id) && AllAged(order, s)
    requires Ready(MakeRoom(c, Registered(s, id, rq), id), id)
    ensures AllAged(order + [id], Insert(c, s, id, rq, p))
  {
    var u := Registered(s, id, rq);
    assert AllAged(order, u);
    RoomAged(c, u, id, order);
    InsertShape(c, s, id, rq, p);
    var t, v := MakeRoom(c, u, id), Insert(c, s, id, rq, p);
    hide MakeRoom, Insert, Ready, Aged;
    forall k | k in v.queues ensures Aged(order + [id], v.queues[k].fifo) {
      assert t.queues[k].fifo + [] == t.queues[k].fifo;
      AgedLater(order, id, t.queues[k].fifo);
      AgedAppend(order, id, t.queues[k].fifo);
    }
  }

  lemma RepositionAged(c: Config, s: State, id: nat, sector: nat, p: nat, order: seq<nat>)
    requires Linked(s, id) && Ready(Lifted(s, id, sector), id) && Ready(MakeRoom(c, Lifted(s, id, sector), id), id)
    requires AllAged(order, s)
    ensures AllAged(order, Reposition(c, s, id, sector, p))
  {
    var u := Lifted(s, id, sector);
    assert AllAged(order, u) by { hide Aged, Remove; }
    RoomAged(c, u, id, order);
    var t := MakeRoom(c, u, id);
    hide MakeRoom, Aged, ChooseReq, RbAdd, Ready, ServiceTreeAdd, Lifted;
    var k := t.rqs[id].cfqq;
    FlaggedQueues(t, k, Put(c, t.lastPosition, t.rqs, t.queues[k], id), t.rqQueued, p);
    hide Flagged;
  }

  // Were the absorbed request older, the survivor would stand directly behind it.
  lemma OlderGivesPlace(fifo: seq<nat>, id: nat, start: nat, next: nat, nextStart: nat)
    requires id in fifo && next in fifo && id != next
    ensures var m := MergedFifo(fifo, id, start, next, nextStart);
            if nextStart < start then exists k :: 0 < k < |m| && m[k - 1] == next && m[k] == id else m == fifo
  {
    if nextStart < start {
      RemoveKeeps(fifo, id, next);
      var less := Remove(fifo, id);
      var p := Index(less, next) + 1;
      InsertAtIndex(less, p, id);
      var m := MergedFifo(fifo, id, start, next, nextStart);
      assert m == InsertAt(less, p, id);
      assert m[p - 1] == next && m[p] == id;
    }
  }

  // Repositioning moves the request to its new sector and changes no other.
  lemma RepositionMoves(c: Config, s: State, id: nat, sector: nat, p: nat)
    requires Linked(s, id) && Ready(Lifted(s, id, sector), id) && Ready(MakeRoom(c, Lifted(s, id, sector), id), id)
    ensures var t, k := Reposition(c, s, id, sector, p), s.rqs[id].cfqq;
            t.rqs == s.rqs[id := s.rqs[id].(sector := sector)] && k in t.queues && id in t.queues[k].sort
  {
    var u := Lifted(s, id, sector);
    RoomKeeps(c, u, id);
    var t := MakeRoom(c, u, id);
    hide MakeRoom, ChooseReq, Ready, ServiceTreeAdd, Place;
    var k := t.rqs[id].cfqq;
    InsertAtIndex(t.queues[k].sort, Place(t.rqs, t.queues[k].sort, t.rqs[id].sector), id);
    FlaggedQueues(t, k, Put(c, t.lastPosition, t.rqs, t.queues[k], id), t.rqQueued, p);
    hide Flagged, InsertAt, Remove;
  }

  lemma MergeAged(c: Config, s: State, id: nat, next: nat, order: seq<nat>)
    requires Linked(s, id) && Linked(s, next) && id != next && s.rqs[id].cfqq == s.rqs[next].cfqq
    requires AllAged(order, s)
    ensures AllAged(order, Merge(c, s, id, next))
  {
    var k := s.rqs[id].cfqq;
    FifoPlaceKept(c, s, id, next);
    AgedRemove(order, s.queues[k].fifo, next);
    MergeElsewhere(c, s, id, next);
    hide Merge, Remove, Aged;
  }

  lemma MergeElsewhere(c: Config, s: State, id: nat, next: nat)
    requires Linked(s, id) && Linked(s, next) && id != next && s.rqs[id].cfqq == s.rqs[next].cfqq
    ensures var t := Merge(c, s, id, next);
            && t.queues.Keys == s.queues.Keys && t.rqs.Keys == s.rqs.Keys && t.out == s.out
            && (forall k :: k in s.queues && k != s.rqs[id].cfqq ==> t.queues[k] == s.queues[k])
  {
    hide Remove, FindNext, MergedFifo;
  }

  lemma TreeAged(s: State, k: nat, same: bool, p: nat, order: seq<nat>)
    requires AllAged(order, s)
    ensures AllAged(order, ServiceTreeAdd(s, k, same, p)) && AllAged(order, RbFirst(s))
  {
    hide Aged, Remove, InsertAt;
  }

  function Added(a: Action): seq<nat> { if a.Queued? then [a.id] else [] }

  lemma NewAged(s: State, k: nat, order: seq<nat>)
    requires AllAged(order, s)
    ensures AllAged(order, s.(queues := s.queues[k := Fresh()]))
  {
    hide Index;
  }

  lemma StepAged(c: Config, s: State, a: Action, order: seq<nat>)
    requires Inv(s) && Enabled(s, a) && AllAged(order, s)
    ensures AllAged(order + Added(a), Apply(c, s, a))
  {
    hide Ok, AllAged, Insert, Reposition, Merge, DispatchInsert, ServiceTreeAdd, RbFirst, Ready, Linked, MakeRoom;
    assert order + [] == order;
    match a
    case NewQueue(k) => NewAged(s, k, order);
    case Queued(id, rq, p) =>
      InsertReady(c, s, id, rq);
      InsertAged(c, s, id, rq, p, order);
    case FrontMerge(id, sector, p) =>
      RepositionReady(c, s, id, sector);
      RepositionAged(c, s, id, sector, p, order);
    case MergeTwo(id, next) =>
      WaitingLinked(s, id);
      WaitingLinked(s, next);
      MergeAged(c, s, id, next, order);
    case Serve(k, fifo) =>
      WaitingLinked(s, Pick(s, k, fifo));
      DispatchAged(c, s, Pick(s, k, fifo), order);
    case Resort(k, same, p) => TreeAged(s, k, same, p, order);
    case First => TreeAged(s, 0, true, 0, order);
    case Activate(position) => MovedAged(s, position, order);
  }

  lemma MovedAged(s: State, position: nat, order: seq<nat>)
    requires AllAged(order, s)
    ensures AllAged(order, s.(lastPosition := position))
  {
    hide Aged;
  }

  // The requests of a run in the order they were queued.
  function Arrivals(acts: seq<Action>): seq<nat> {
    if acts == [] then [] else Added(acts[0]) + Arrivals(acts[1..])
  }

  lemma {:induction false} RunAged(c: Config, s: State, acts: seq<Action>, order: seq<nat>)
    requires Inv(s) && Legal(c, s, acts) && AllAged(order, s)
    ensures AllAged(order + Arrivals(acts), Exec(c, s, acts))
    decreases |acts|
  {
    hide Inv, Apply, AllAged, Added;
    if acts == [] {
      assert order + [] == order;
    } else {
      StepInv(c, s, acts[0]);
      StepAged(c, s, acts[0], order);
      RunAged(c, Apply(c, s, acts[0]), acts[1..], order + Added(acts[0]));
      assert order + Added(acts[0]) + Arrivals(acts[1..]) == order + Arrivals(acts);
    }
  }

  // In every run each queue's FIFO holds its requests in the order they arrived, so the one
  // that is served when the queue's time is up is the oldest.
  lemma FifoIsArrivalOrder(c: Config, acts: seq<Action>)
    requires Legal(c, Init(), acts)
    ensures var s, order := Exec(c, Init(), acts), Arrivals(acts);
            forall k :: k in s.queues ==>
              && (forall i :: 0 <= i < |s.queues[k].fifo| ==> s.queues[k].fifo[i] in order)
              && (forall i, j :: 0 <= i < j < |s.queues[k].fifo| ==>
                    Index(order, s.queues[k].fifo[i]) < Index(order, s.queues[k].fifo[j]))
  {
    assert AllAged([], Init());
    RunAged(c, Init(), acts, []);
    assert [] + Arrivals(acts) == Arrivals(acts);
    hide Legal, Exec, Index, Arrivals;
  }

  // ------------------------------------------------------- dispatched requests

  function CountOut(rqs: map<nat, Rq>, out: seq<nat>, k: nat): nat {
    if out == [] then 0
    else CountOut(rqs, out[..|out| - 1], k) + if out[|out| - 1] in rqs && rqs[out[|out| - 1]].cfqq == k then 1 else 0
  }

  lemma {:induction false} CountSame(a: map<nat, Rq>, b: map<nat, Rq>, out: seq<nat>, k: nat)
    requires forall i :: i in out ==> i in a && i in b && a[i].cfqq == b[i].cfqq
    ensures CountOut(a, out, k) == CountOut(b, out, k)
    decreases |out|
  {
    if out != [] { CountSame(a, b, out[..|out| - 1], k); }
  }

  lemma CountMore(rqs: map<nat, Rq>, out: seq<nat>, id: nat, k: nat)
    requires id in rqs
    ensures CountOut(rqs, out + [id], k) == CountOut(rqs, out, k) + if rqs[id].cfqq == k then 1 else 0
  {
    assert (out + [id])[..|out|] == out;
  }

  lemma {:induction false} CountNone(rqs: map<nat, Rq>, out: seq<nat>, k: nat)
    requires forall i :: i in rqs ==> rqs[i].cfqq != k
    ensures CountOut(rqs, out, k) == 0
    decreases |out|
  {
    if out != [] { CountNone(rqs, out[..|out| - 1], k); }
  }

  // Every queue counts the requests of its own that went to the dispatch queue.
  ghost predicate Counts(s: State) {
    && (forall i :: i in s.out ==> i in s.rqs)
    && forall k :: k in s.queues ==> s.queues[k].dispatched == CountOut(s.rqs, s.out, k)
  }

  lemma DispatchCounts(c: Config, s: State, id: nat)
    requires Linked(s, id) && Counts(s)
    ensures Counts(DispatchInsert(c, s, id))
  {
    var k := s.rqs[id].cfqq;
    var t := DispatchInsert(c, s, id);
    assert t.rqs == s.rqs && t.out == s.out + [id] && t.queues.Keys == s.queues.Keys;
    assert forall j :: j in s.queues ==> t.queues[j].dispatched == s.queues[j].dispatched + if j == k then 1 else 0;
    hide DispatchInsert, CountOut;
    forall j | j in t.queues ensures t.queues[j].dispatched == CountOut(t.rqs, t.out, j) {
      CountMore(s.rqs, s.out, id, j);
    }
  }

  lemma RoomCounts(c: Config, s: State, id: nat)
    requires Ready(s, id) && Counts(s)
    ensures Counts(MakeRoom(c, s, id))
  {
    match Alias(s.rqs, s.queues[s.rqs[id].cfqq].sort, s.rqs[id].sector)
    case None =>
    case Some(alias) => DispatchCounts(c, s, alias);
  }

  // Only the attributes of requests and of queues change that the count does not look at.
  lemma SameCounts(s: State, t: State)
    requires Counts(s) && t.out == s.out && t.queues.Keys == s.queues.Keys
    requires forall i :: i in s.rqs ==> i in t.rqs && t.rqs[i].cfqq == s.rqs[i].cfqq
    requires forall k :: k in s.queues ==> t.queues[k].dispatched == s.queues[k].dispatched
    ensures Counts(t)
  {
    forall k | k in t.queues ensures t.queues[k].dispatched == CountOut(t.rqs, t.out, k) {
      assert k in s.queues;
      CountSame(s.rqs, t.rqs, s.out, k);
    }
    hide CountOut;
  }

  lemma InsertCounts(c: Config, s: State, id: nat, rq: Rq, p: nat)
    requires id !in s.rqs && Ready(Registered(s, id, rq), id) && Counts(s)
    requires Ready(MakeRoom(c, Registered(s, id, rq), id), id)
    ensures Counts(Insert(c, s, id, rq, p))
  {
    var u := Registered(s, id, rq);
    SameCounts(s, u);
    RoomCounts(c, u, id);
    InsertShape(c, s, id, rq, p);
    hide MakeRoom, Insert, Ready, Counts, Registered;
    SameCounts(MakeRoom(c, u, id), Insert(c, s, id, rq, p));
  }

  lemma RepositionCounts(c: Config, s: State, id: nat, sector: nat, p: nat)
    requires Linked(s, id) && Ready(Lifted(s, id, sector), id) && Ready(MakeRoom(c, Lifted(s, id, sector), id), id)
    requires Counts(s)
    ensures Counts(Reposition(c, s, id, sector, p))
  {
    var u := Lifted(s, id, sector);
    SameCounts(s, u) by { hide Remove, CountOut; }
    RoomCounts(c, u, id);
    var t := MakeRoom(c, u, id);
    hide MakeRoom, ChooseReq, RbAdd, Ready, ServiceTreeAdd, Lifted, Counts;
    var k := t.rqs[id].cfqq;
    FlaggedQueues(t, k, Put(c, t.lastPosition, t.rqs, t.queues[k], id), t.rqQueued, p);
    hide Flagged;
    SameCounts(t, Reposition(c, s, id, sector, p));
  }

  lemma MergeCounts(c: Config, s: State, id: nat, next: nat)
    requires Linked(s, id) && Linked(s, next) && id != next && s.rqs[id].cfqq == s.rqs[next].cfqq && Counts(s)
    ensures Counts(Merge(c, s, id, next))
  {
    MergeElsewhere(c, s, id, next);
    MergeHere(c, s, id, next);
    hide Merge, Counts;
    SameCounts(s, Merge(c, s, id, next));
  }

  lemma MergeHere(c: Config, s: State, id: nat, next: nat)
    requires Linked(s, id) && Linked(s, next) && id != next && s.rqs[id].cfqq == s.rqs[next].cfqq
    ensures var t, k := Merge(c, s, id, next), s.rqs[id].cfqq;
            && k in t.queues && t.queues[k].dispatched == s.queues[k].dispatched
            && forall i :: i in s.rqs ==> i in t.rqs && t.rqs[i].cfqq == s.rqs[i].cfqq
  {
    hide Remove, FindNext, MergedFifo;
  }

  lemma NewCounts(s: State, k: nat)
    requires Inv(s) && k !in s.queues && Counts(s)
    ensures Counts(s.(queues := s.queues[k := Fresh()]))
  {
    hide QueueOk, TreeOk, HeldSet;
    CountNone(s.rqs, s.out, k);
    hide CountOut;
  }

  lemma StepCounts(c: Config, s: State, a: Action)
    requires Inv(s) && Enabled(s, a) && Counts(s)
    ensures Counts(Apply(c, s, a))
  {
    hide Ok, Counts, Insert, Reposition, Merge, DispatchInsert, Ready, Linked, MakeRoom;
    match a
    case NewQueue(k) => NewCounts(s, k);
    case Queued(id, rq, p) =>
      InsertReady(c, s, id, rq);
      InsertCounts(c, s, id, rq, p);
    case FrontMerge(id, sector, p) =>
      RepositionReady(c, s, id, sector);
      RepositionCounts(c, s, id, sector, p);
    case MergeTwo(id, next) =>
      WaitingLinked(s, id);
      WaitingLinked(s, next);
      MergeCounts(c, s, id, next);
    case Serve(k, fifo) =>
      WaitingLinked(s, Pick(s, k, fifo));
      DispatchCounts(c, s, Pick(s, k, fifo));
    case Resort(k, same, p) => SameCounts(s, ServiceTreeAdd(s, k, same, p));
    case First => SameCounts(s, RbFirst(s));
    case Activate(position) => SameCounts(s, s.(lastPosition := position));
  }

  lemma {:induction false} RunCounts(c: Config, s: State, acts: seq<Action>)
    requires Inv(s) && Legal(c, s, acts) && Counts(s)
    ensures Counts(Exec(c, s, acts))
    decreases |acts|
  {
    hide Inv, Apply, Counts;
    if acts != [] {
      StepInv(c, s, acts[0]);
      StepCounts(c, s, acts[0]);
      RunCounts(c, Apply(c, s, acts[0]), acts[1..]);
    }
  }

  // In every run the dispatched counter of a queue is the number of its requests that went to
  // the dispatch queue.
  lemma DispatchedIsCount(c: Config, acts: seq<Action>)
    requires Legal(c, Init(), acts)
    ensures var s := Exec(c, Init(), acts);
            forall k :: k in s.queues ==> s.queues[k].dispatched == CountOut(s.rqs, s.out, k)
  {
    RunCounts(c, Init(), acts);
    hide Legal, Exec, CountOut;
  }
}
