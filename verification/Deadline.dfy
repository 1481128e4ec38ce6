// The deadline scheduler (block/deadline-iosched.c): per direction a sector tree, a FIFO
// and a cached next request that must agree, and a bound on how long reads starve writes.
module Deadline {
  import opened Collections
  import opened ElvTree

  // One direction: sort is the tree in sector order.
  datatype Dir = Dir(sort: seq<nat>, fifo: seq<nat>, next: Option<nat>)

  // rd and wr are the two directions, queue is the dispatch queue, and gone the requests
  // merged into others.
  datatype State = State(
    rqs: map<nat, Rq>, rd: Dir, wr: Dir, batching: nat, starved: nat, lastSector: nat,
    nrSorted: int, queue: seq<nat>, gone: set<nat>, now: nat)

  // writesStarved is as stored: an int, which the comparison converts to unsigned.
  datatype Config = Config(fifoBatch: nat, writesStarved: int, readExpire: nat, writeExpire: nat)

  function Unsigned(x: int): nat { x % 0x1_0000_0000 }

  function Side(s: State, write: bool): Dir { if write then s.wr else s.rd }

  function SetSide(s: State, write: bool, d: Dir): State { if write then s.(wr := d) else s.(rd := d) }

  // ------------------------------------------------------- what must agree

  ghost predicate DeadlineSorted(rqs: map<nat, Rq>, list: seq<nat>)
    requires Known(rqs, list)
  {
    forall i, j :: 0 <= i < j < |list| ==> rqs[list[i]].deadline <= rqs[list[j]].deadline
  }

  // The tree and the FIFO of a direction hold the same requests, each in its own order; loose
  // are those taken off the tree to be put back at once.
  ghost predicate DirOk(rqs: map<nat, Rq>, d: Dir, write: bool, loose: set<nat>) {
    && Known(rqs, d.sort) && Known(rqs, d.fifo)
    && (forall i :: i in d.sort ==> rqs[i].write == write)
    && (forall i :: i in d.fifo <==> i in d.sort || i in loose)
    && (forall i :: i in loose ==> i !in d.sort)
    && Distinct(d.fifo) && SectorSorted(rqs, d.sort) && DeadlineSorted(rqs, d.fifo)
    && (d.next.Some? ==> d.next.value in d.fifo)
  }

  ghost predicate Ok(s: State, w: bool, loose: set<nat>) {
    && DirOk(s.rqs, Side(s, w), w, loose) && DirOk(s.rqs, Side(s, !w), !w, {})
    && (s.rd.next.None? || s.wr.next.None?)
    && s.nrSorted == |s.rd.fifo| + |s.wr.fifo|
  }

  // ------------------------------------------------------- operations

  // What a direction needs for a request to be taken out of it.
  ghost predicate Linked(s: State, w: bool) {
    Known(s.rqs, Side(s, w).sort) && forall i :: i in Side(s, w).sort ==> i in Side(s, w).fifo && s.rqs[i].write == w
  }

  // deadline_del_rq_rb
  function DelRb(d: Dir, id: nat): Dir
    requires id in d.sort
  {
    d.(next := if d.next == Some(id) then Latter(d.sort, id) else d.next, sort := Remove(d.sort, id))
  }

  // deadline_remove_request
  function RemoveRequest(s: State, w: bool, id: nat): State
    requires id in Side(s, w).sort && id in Side(s, w).fifo
  {
    var d := Side(s, w);
    SetSide(s, w, DelRb(d.(fifo := Remove(d.fifo, id)), id))
  }

  // deadline_move_request, with elv_dispatch_add_tail
  function MoveRequest(s: State, w: bool, id: nat): State
    requires id in s.rqs && id in Side(s, w).sort && id in Side(s, w).fifo
  {
    var next := Latter(Side(s, w).sort, id);
    var t := SetSide(s, !w, Side(s, !w).(next := None)).(lastSector := s.rqs[id].end);
    var u := SetSide(t, w, Side(t, w).(next := next));
    RemoveRequest(u, w, id).(nrSorted := s.nrSorted - 1, queue := s.queue + [id])
  }

  // The loop of deadline_add_rq_rb: a request of the same sector is dispatched.
  function MakeRoom(s: State, w: bool, sector: nat): (t: State)
    requires Linked(s, w)
    ensures t.rqs == s.rqs && Known(t.rqs, Side(t, w).sort)
  {
    match Alias(s.rqs, Side(s, w).sort, sector)
    case None => s
    case Some(alias) => MoveRequest(s, w, alias)
  }

  // deadline_add_rq_rb
  function AddRb(s: State, w: bool, id: nat): State
    requires Linked(s, w) && id in s.rqs
  {
    var t := MakeRoom(s, w, s.rqs[id].sector);
    SetSide(t, w, Side(t, w).(sort := RbAdd(s.rqs, Side(t, w).sort, id)))
  }

  function Expire(c: Config, w: bool): nat { if w then c.writeExpire else c.readExpire }

  // elv_insert counts the request, then deadline_add_request
  function AddRequest(c: Config, s: State, w: bool, id: nat, rq: Rq): State
    requires Linked(s, w) && id !in s.rqs && rq.write == w
  {
    var t := AddRb(s.(rqs := s.rqs[id := rq.(deadline := s.now + Expire(c, w))]), w, id);
    SetSide(t, w, Side(t, w).(fifo := Side(t, w).fifo + [id])).(nrSorted := t.nrSorted + 1)
  }

  // deadline_merged_request after a front merge moved the request to a lower sector
  function FrontMerged(s: State, w: bool, id: nat, sector: nat): State
    requires Linked(s, w) && id in Side(s, w).sort && Distinct(Side(s, w).fifo) && SectorSorted(s.rqs, Side(s, w).sort)
  {
    var d := Side(s, w);
    AddRb(SetSide(s, w, d.(sort := Remove(d.sort, id))).(rqs := s.rqs[id := s.rqs[id].(sector := sector)]), w, id)
  }

  // The survivor moves behind a request that expires before it.
  function Moved(s: State, w: bool, id: nat, next: nat): (fifo: seq<nat>)
    requires Linked(s, w) && id in Side(s, w).sort && next in Side(s, w).sort && id != next
    ensures next in fifo
  {
    var fifo := Side(s, w).fifo;
    if s.rqs[next].deadline < s.rqs[id].deadline then
      RemoveKeeps(fifo, id, next);
      InsertAfterKeeps(Remove(fifo, id), next, id);
      InsertAfter(Remove(fifo, id), next, id)
    else fifo
  }

  // deadline_merged_requests, with elv_merge_requests and the longer extent of attempt_merge
  function MergedRequests(s: State, w: bool, id: nat, next: nat): State
    requires Linked(s, w) && id in Side(s, w).sort && next in Side(s, w).sort && id != next
  {
    var a, b := s.rqs[id], s.rqs[next];
    var deadline := if b.deadline < a.deadline then b.deadline else a.deadline;
    var t := SetSide(s, w, Side(s, w).(fifo := Moved(s, w, id, next)));
    RemoveRequest(t, w, next).(rqs := s.rqs[id := a.(end := b.end, deadline := deadline)],
                               nrSorted := s.nrSorted - 1, gone := s.gone + {next})
  }

  datatype Choice = Nothing | Batch(w: bool, id: nat) | Fresh(w: bool, id: nat, starved: nat)

  // deadline_check_fifo
  predicate Expired(s: State, w: bool)
    requires Side(s, w).fifo != [] && Known(s.rqs, Side(s, w).fifo)
  {
    s.now > s.rqs[Side(s, w).fifo[0]].deadline
  }

  // The request a new batch in a direction starts with.
  function FindRequest(s: State, w: bool): nat
    requires Side(s, w).fifo != [] && Known(s.rqs, Side(s, w).fifo)
  {
    if Expired(s, w) || Side(s, w).next.None? then Side(s, w).fifo[0] else Side(s, w).next.value
  }

  // deadline_dispatch_requests up to the request it settles on
  function Choose(c: Config, s: State): Choice
    requires Known(s.rqs, s.rd.fifo) && Known(s.rqs, s.wr.fifo)
  {
    if s.wr.next.Some? && s.batching < c.fifoBatch then Batch(true, s.wr.next.value)
    else if s.wr.next.None? && s.rd.next.Some? && s.batching < c.fifoBatch then Batch(false, s.rd.next.value)
    else if s.rd.fifo != [] then
      if s.wr.fifo == [] then Fresh(false, FindRequest(s, false), s.starved)
      else if s.starved >= Unsigned(c.writesStarved) then Fresh(true, FindRequest(s, true), 0)
      else Fresh(false, FindRequest(s, false), s.starved + 1)
    else if s.wr.fifo != [] then Fresh(true, FindRequest(s, true), 0)
    else Nothing
  }

  function Dispatch(c: Config, s: State): State
    requires Known(s.rqs, s.rd.fifo) && Known(s.rqs, s.wr.fifo)
    requires var ch := Choose(c, s); ch.Nothing? || (ch.id in Side(s, ch.w).sort && ch.id in Side(s, ch.w).fifo && ch.id in s.rqs)
  {
    match Choose(c, s)
    case Nothing => s
    case Batch(w, id) => MoveRequest(s.(batching := s.batching + 1), w, id)
    case Fresh(w, id, starved) => MoveRequest(s.(batching := 1, starved := starved), w, id)
  }

  // ------------------------------------------------------- each operation keeps them

  lemma RemoveSorted(rqs: map<nat, Rq>, list: seq<nat>, id: nat)
    requires id in list && Known(rqs, list)
    ensures SectorSorted(rqs, list) ==> SectorSorted(rqs, Remove(list, id))
    ensures DeadlineSorted(rqs, list) ==> DeadlineSorted(rqs, Remove(list, id))
  {
  }

  // Taking a request out of a direction.
  lemma DirRemove(rqs: map<nat, Rq>, d: Dir, w: bool, loose: set<nat>, id: nat, next: Option<nat>)
    requires DirOk(rqs, d, w, loose) && id in d.sort
    requires next.Some? ==> next.value in d.fifo && next.value != id
    ensures DirOk(rqs, Dir(Remove(d.sort, id), Remove(d.fifo, id), next), w, loose)
    ensures |Remove(d.fifo, id)| == |d.fifo| - 1
  {
    hide Remove, SectorSorted, DeadlineSorted, Distinct;
    SortedDistinct(rqs, d.sort);
    RemoveDistinct(d.sort, id);
    RemoveDistinct(d.fifo, id);
    RemoveSorted(rqs, d.sort, id);
    RemoveSorted(rqs, d.fifo, id);
    RemoveAt(d.fifo, id);
  }

  lemma DirNext(rqs: map<nat, Rq>, d: Dir, w: bool, loose: set<nat>)
    requires DirOk(rqs, d, w, loose)
    ensures DirOk(rqs, d.(next := None), w, loose)
  {
  }

  // What deadline_move_request comes to: next is the request that followed.
  lemma MoveShape(s: State, w: bool, id: nat)
    requires id in s.rqs && id in Side(s, w).sort && id in Side(s, w).fifo
    requires Latter(Side(s, w).sort, id) != Some(id)
    ensures var t, d := MoveRequest(s, w, id), Side(s, w);
            && Side(t, w) == Dir(Remove(d.sort, id), Remove(d.fifo, id), Latter(d.sort, id))
            && Side(t, !w) == Side(s, !w).(next := None)
            && t.(rd := s.rd, wr := s.wr) == s.(lastSector := s.rqs[id].end, nrSorted := s.nrSorted - 1,
                                                queue := s.queue + [id])
  {
    hide Remove, Latter, Index;
  }

  lemma MoveOk(s: State, w: bool, loose: set<nat>, id: nat)
    requires Ok(s, w, loose) && id in Side(s, w).sort
    ensures Ok(MoveRequest(s, w, id), w, loose)
  {
    var d := Side(s, w);
    SortedDistinct(s.rqs, d.sort);
    LatterRemains(d.sort, id);
    RemoveDistinct(d.sort, id);
    DirRemove(s.rqs, d, w, loose, id, Latter(d.sort, id));
    DirNext(s.rqs, Side(s, !w), !w, {});
    MoveShape(s, w, id);
    var t := MoveRequest(s, w, id);
    hide DirOk, Remove, Latter, Index, Distinct, MoveRequest;
    assert |t.rd.fifo| + |t.wr.fifo| == |Side(t, w).fifo| + |Side(t, !w).fifo|;
    assert |s.rd.fifo| + |s.wr.fifo| == |Side(s, w).fifo| + |Side(s, !w).fifo|;
    assert t.rd.next.None? || t.wr.next.None? by { assert Side(t, !w).next == None; }
  }

  // One turn of the loop is enough: afterwards the sector is free.
  lemma MakeRoomOk(s: State, w: bool, loose: set<nat>, sector: nat)
    requires Ok(s, w, loose)
    ensures Linked(s, w)
    ensures var t := MakeRoom(s, w, sector);
            Ok(t, w, loose) && forall i :: i in Side(t, w).sort ==> s.rqs[i].sector != sector
  {
    var sort := Side(s, w).sort;
    match Alias(s.rqs, sort, sector)
    case None => NoAlias(s.rqs, sort, sector);
    case Some(alias) =>
      MoveOk(s, w, loose, alias);
      OnlyAlias(s.rqs, sort, alias);
      SortedDistinct(s.rqs, sort);
      RemoveDistinct(sort, alias);
      LatterRemains(sort, alias);
      MoveShape(s, w, alias);
      hide MoveRequest, DirOk, Remove, Index, Latter;
  }

  lemma DirGain(rqs: map<nat, Rq>, d: Dir, w: bool, loose: set<nat>, id: nat, sort: seq<nat>)
    requires DirOk(rqs, d, w, loose + {id}) && id in rqs && rqs[id].write == w && id !in loose
    requires (forall i :: i in sort <==> i in d.sort || i == id) && Known(rqs, sort) && SectorSorted(rqs, sort)
    ensures DirOk(rqs, d.(sort := sort), w, loose)
  {
    hide Distinct, SectorSorted, DeadlineSorted;
  }

  lemma AddRbOk(s: State, w: bool, loose: set<nat>, id: nat)
    requires Ok(s, w, loose + {id}) && id in s.rqs && s.rqs[id].write == w && id !in loose
    ensures Linked(s, w) && Ok(AddRb(s, w, id), w, loose)
  {
    MakeRoomOk(s, w, loose + {id}, s.rqs[id].sector);
    var t := MakeRoom(s, w, s.rqs[id].sector);
    RbAddSorted(s.rqs, Side(t, w).sort, id);
    DirGain(s.rqs, Side(t, w), w, loose, id, RbAdd(s.rqs, Side(t, w).sort, id));
    hide MakeRoom, RbAdd, Linked, DirOk;
    var u := AddRb(s, w, id);
    assert Side(u, !w) == Side(t, !w);
  }

  lemma DirSame(a: map<nat, Rq>, b: map<nat, Rq>, d: Dir, w: bool, loose: set<nat>)
    requires DirOk(a, d, w, loose)
    requires forall i :: i in d.fifo || i in d.sort ==> i in b && a[i] == b[i]
    ensures DirOk(b, d, w, loose)
  {
  }

  // With a constant expiry time per direction no deadline lies further ahead than a new one.
  ghost predicate Timely(c: Config, s: State, w: bool) {
    forall i :: i in Side(s, w).fifo && i in s.rqs ==>
      s.rqs[i].deadline <= s.now + if w then c.writeExpire else c.readExpire
  }

  lemma DirAppend(rqs: map<nat, Rq>, d: Dir, w: bool, id: nat, sort: seq<nat>)
    requires DirOk(rqs, d, w, {}) && id in rqs && id !in d.fifo && rqs[id].write == w
    requires (forall i :: i in sort <==> i in d.sort || i == id) && Known(rqs, sort) && SectorSorted(rqs, sort)
    requires forall i :: i in d.fifo ==> rqs[i].deadline <= rqs[id].deadline
    ensures DirOk(rqs, d.(sort := sort, fifo := d.fifo + [id]), w, {})
  {
    hide SectorSorted;
  }

  lemma ExtendRqs(s: State, w: bool, id: nat, rq: Rq)
    requires Ok(s, w, {}) && id !in s.rqs
    ensures Ok(s.(rqs := s.rqs[id := rq]), w, {}) && id !in Side(s, w).fifo
  {
    var u := s.(rqs := s.rqs[id := rq]);
    DirSame(s.rqs, u.rqs, Side(s, w), w, {});
    DirSame(s.rqs, u.rqs, Side(s, !w), !w, {});
  }

  lemma AddRequestOk(c: Config, s: State, w: bool, id: nat, rq: Rq)
    requires Ok(s, w, {}) && id !in s.rqs && rq.write == w && Timely(c, s, w)
    ensures Linked(s, w) && Ok(AddRequest(c, s, w, id, rq), w, {})
  {
    var u := s.(rqs := s.rqs[id := rq.(deadline := s.now + Expire(c, w))]);
    ExtendRqs(s, w, id, u.rqs[id]);
    assert Side(u, w) == Side(s, w);
    assert forall i :: i in Side(u, w).fifo ==> u.rqs[i].deadline <= u.rqs[id].deadline;
    AddedRoom(u, w, id);
    MakeRoomOk(s, w, {}, rq.sector);
    MakeRoomOk(u, w, {}, rq.sector);
    var t := MakeRoom(u, w, rq.sector);
    AddedOk(c, s, w, id, rq, u, t);
  }

  lemma AddedOk(c: Config, s: State, w: bool, id: nat, rq: Rq, u: State, t: State)
    requires Linked(s, w) && id !in s.rqs && rq.write == w && Linked(u, w)
    requires u == s.(rqs := s.rqs[id := rq.(deadline := s.now + Expire(c, w))])
    requires t == MakeRoom(u, w, rq.sector) && Ok(t, w, {})
    requires var d := Side(t, w); DirOk(u.rqs, d.(sort := RbAdd(u.rqs, d.sort, id), fifo := d.fifo + [id]), w, {})
    ensures Ok(AddRequest(c, s, w, id, rq), w, {})
  {
    var d, v := Side(t, w), AddRequest(c, s, w, id, rq);
    assert Known(u.rqs, d.sort);
    hide MakeRoom, RbAdd, Linked, DirOk, Known;
    var e := d.(sort := RbAdd(u.rqs, d.sort, id), fifo := d.fifo + [id]);
    assert v == SetSide(t, w, e).(nrSorted := t.nrSorted + 1);
    assert Side(v, w) == e && Side(v, !w) == Side(t, !w);
    assert DirOk(v.rqs, Side(v, w), w, {}) && DirOk(v.rqs, Side(v, !w), !w, {});
  }

  lemma AddedRoom(u: State, w: bool, id: nat)
    requires Ok(u, w, {}) && id in u.rqs && u.rqs[id].write == w && id !in Side(u, w).fifo
    requires forall i :: i in Side(u, w).fifo ==> u.rqs[i].deadline <= u.rqs[id].deadline
    ensures Linked(u, w)
    ensures var t := MakeRoom(u, w, u.rqs[id].sector); var d := Side(t, w);
            DirOk(u.rqs, d.(sort := RbAdd(u.rqs, d.sort, id), fifo := d.fifo + [id]), w, {})
  {
    var sector := u.rqs[id].sector;
    MakeRoomOk(u, w, {}, sector);
    MakeRoomShrinks(u, w, sector);
    var t := MakeRoom(u, w, sector);
    RbAddSorted(u.rqs, Side(t, w).sort, id);
    DirAppend(u.rqs, Side(t, w), w, id, RbAdd(u.rqs, Side(t, w).sort, id));
  }

  lemma MakeRoomShrinks(s: State, w: bool, sector: nat)
    requires Linked(s, w)
    ensures var t := MakeRoom(s, w, sector); t.rqs == s.rqs && forall i :: i in Side(t, w).fifo ==> i in Side(s, w).fifo
  {
  }

  lemma SortedAgain(a: map<nat, Rq>, b: map<nat, Rq>, sort: seq<nat>, fifo: seq<nat>)
    requires Known(a, sort) && Known(b, sort) && SectorSorted(a, sort) && forall i :: i in sort ==> a[i] == b[i]
    requires Known(a, fifo) && Known(b, fifo) && DeadlineSorted(a, fifo)
    requires forall i :: i in fifo ==> a[i].deadline == b[i].deadline
    ensures SectorSorted(b, sort) && DeadlineSorted(b, fifo)
  {
  }

  // Off the tree, but still in the FIFO.
  lemma DirLoosen(a: map<nat, Rq>, b: map<nat, Rq>, d: Dir, w: bool, id: nat)
    requires DirOk(a, d, w, {}) && id in d.sort
    requires id in b && b[id].deadline == a[id].deadline && b[id].write == a[id].write
    requires forall i :: i in d.fifo && i != id ==> i in b && b[i] == a[i]
    ensures DirOk(b, d.(sort := Remove(d.sort, id)), w, {id})
  {
    hide Remove, Distinct, SectorSorted, DeadlineSorted;
    SortedDistinct(a, d.sort);
    RemoveDistinct(d.sort, id);
    RemoveSorted(a, d.sort, id);
    SortedAgain(a, b, Remove(d.sort, id), d.fifo);
  }

  lemma FrontMergedOk(s: State, w: bool, id: nat, sector: nat)
    requires Ok(s, w, {}) && id in Side(s, w).sort
    ensures Linked(s, w) && Ok(FrontMerged(s, w, id, sector), w, {})
  {
    var d := Side(s, w);
    var rqs := s.rqs[id := s.rqs[id].(sector := sector)];
    var t := SetSide(s, w, d.(sort := Remove(d.sort, id))).(rqs := rqs);
    assert Side(t, w) == d.(sort := Remove(d.sort, id)) && Side(t, !w) == Side(s, !w);
    assert rqs[id].write == w && Linked(s, w);
    LoosenOk(s, w, id, rqs);
    hide Remove, DirOk, Linked;
    assert {} + {id} == {id};
    AddRbOk(t, w, {}, id);
  }

  lemma LoosenOk(s: State, w: bool, id: nat, rqs: map<nat, Rq>)
    requires Ok(s, w, {}) && id in Side(s, w).sort && id in s.rqs && id in rqs
    requires rqs == s.rqs[id := s.rqs[id].(sector := rqs[id].sector)]
    ensures DirOk(rqs, Side(s, w).(sort := Remove(Side(s, w).sort, id)), w, {id}) && DirOk(rqs, Side(s, !w), !w, {})
  {
    var d := Side(s, w);
    DirLoosen(s.rqs, rqs, d, w, id);
    OtherSide(s, w, id);
    DirSame(s.rqs, rqs, Side(s, !w), !w, {});
    hide Remove, DirOk;
  }

  lemma OtherSide(s: State, w: bool, id: nat)
    requires Ok(s, w, {}) && id in Side(s, w).sort
    ensures id !in Side(s, !w).sort && id !in Side(s, !w).fifo
  {
  }

  // The survivor with the extent of both, and the deadline of the one that expires first.
  ghost predicate Survives(a: map<nat, Rq>, b: map<nat, Rq>, id: nat, next: nat) {
    && id in a && next in a && id in b
    && b[id].write == a[id].write && b[id].sector == a[id].sector
    && b[id].deadline == (if a[next].deadline < a[id].deadline then a[next].deadline else a[id].deadline)
    && forall i :: i in a && i != id ==> i in b && b[i] == a[i]
  }

  // It takes the place of the one that expires first.
  lemma FifoTakesPlace(a: map<nat, Rq>, b: map<nat, Rq>, fifo: seq<nat>, id: nat, next: nat)
    requires Known(a, fifo) && Distinct(fifo) && DeadlineSorted(a, fifo) && Survives(a, b, id, next)
    requires id in fifo && next in fifo && a[next].deadline < a[id].deadline
    ensures next in Remove(fifo, id)
    ensures var moved := InsertAfter(Remove(fifo, id), next, id);
            Distinct(moved) && Known(b, moved) && DeadlineSorted(b, moved) && |moved| == |fifo|
            && forall i :: i in moved <==> i in fifo
  {
    var less := Remove(fifo, id);
    RemoveDistinct(fifo, id);
    RemoveSorted(a, fifo, id);
    RemoveAt(fifo, id);
    hide Remove;
    var p := Index(less, next) + 1;
    InsertDistinct(less, p, id);
    InsertDeadline(a, b, less, p, id, a[next].deadline);
    InsertAtIndex(less, p, id);
    hide InsertAt, Distinct, DeadlineSorted;
  }

  lemma InsertDeadline(a: map<nat, Rq>, b: map<nat, Rq>, list: seq<nat>, p: nat, id: nat, deadline: int)
    requires Known(a, list) && DeadlineSorted(a, list) && id in b && b[id].deadline == deadline
    requires forall i :: i in list ==> i in b && b[i].deadline == a[i].deadline
    requires 0 < p <= |list| && a[list[p - 1]].deadline == deadline
    ensures Known(b, InsertAt(list, p, id)) && DeadlineSorted(b, InsertAt(list, p, id))
  {
    InsertAtIndex(list, p, id);
    var more := InsertAt(list, p, id);
    hide InsertAt;
    forall i, j | 0 <= i < j < |more| ensures b[more[i]].deadline <= b[more[j]].deadline {
      InsertedPair(a, b, list, more, p, id, deadline, i);
      InsertedPair(a, b, list, more, p, id, deadline, j);
    }
  }

  // The deadline at a place is that of the element before or at it in the old list.
  lemma InsertedPair(a: map<nat, Rq>, b: map<nat, Rq>, list: seq<nat>, more: seq<nat>, p: nat, id: nat, deadline: int,
                     i: nat)
    requires Known(a, list) && id in b && b[id].deadline == deadline
    requires forall i :: i in list ==> i in b && b[i].deadline == a[i].deadline
    requires 0 < p <= |list| && a[list[p - 1]].deadline == deadline && |more| == |list| + 1 && more[p] == id
    requires i < |more|
    requires (forall k :: 0 <= k < p ==> more[k] == list[k]) && (forall k :: p < k < |more| ==> more[k] == list[k - 1])
    ensures more[i] in b && b[more[i]].deadline == a[list[if i < p then i else i - 1]].deadline
  {
  }

  lemma MovedFifo(s: State, w: bool, id: nat, next: nat, rqs: map<nat, Rq>)
    requires Linked(s, w) && id in Side(s, w).sort && next in Side(s, w).sort && id != next
    requires Survives(s.rqs, rqs, id, next)
    requires var fifo := Side(s, w).fifo; Known(s.rqs, fifo) && Distinct(fifo) && DeadlineSorted(s.rqs, fifo)
    ensures var fifo, moved := Side(s, w).fifo, Moved(s, w, id, next);
            && Known(rqs, moved) && Distinct(moved) && DeadlineSorted(rqs, moved) && |moved| == |fifo|
            && forall i :: i in moved <==> i in fifo
  {
    var fifo, moved := Side(s, w).fifo, Moved(s, w, id, next);
    assert id in fifo && next in fifo;
    if s.rqs[next].deadline < s.rqs[id].deadline {
      assert moved == InsertAfter(Remove(fifo, id), next, id);
      hide Moved, Distinct, DeadlineSorted, InsertAfter, Remove;
      FifoTakesPlace(s.rqs, rqs, fifo, id, next);
    } else {
      assert moved == fifo;
      hide Moved, Distinct;
    }
  }

  lemma MovedOk(s: State, w: bool, id: nat, next: nat, rqs: map<nat, Rq>)
    requires Ok(s, w, {}) && id in Side(s, w).sort && next in Side(s, w).sort && id != next
    requires Survives(s.rqs, rqs, id, next)
    ensures Linked(s, w) && DirOk(rqs, Side(s, w).(fifo := Moved(s, w, id, next)), w, {})
    ensures |Moved(s, w, id, next)| == |Side(s, w).fifo|
  {
    var d := Side(s, w);
    assert Linked(s, w);
    hide Moved, Distinct, SectorSorted, DeadlineSorted;
    MovedFifo(s, w, id, next, rqs);
    SortSame(s.rqs, rqs, d.sort);
  }

  lemma SortSame(a: map<nat, Rq>, b: map<nat, Rq>, sort: seq<nat>)
    requires Known(a, sort) && Known(b, sort) && SectorSorted(a, sort)
    requires forall i :: i in sort ==> a[i].sector == b[i].sector
    ensures SectorSorted(b, sort)
  {
  }

  // The direction that loses a request, and the other.
  lemma MergedSides(s: State, w: bool, id: nat, next: nat)
    requires Linked(s, w) && id in Side(s, w).sort && next in Side(s, w).sort && id != next
    ensures var t, d := MergedRequests(s, w, id, next), Side(s, w); var moved := Moved(s, w, id, next);
            && Side(t, w) == Dir(Remove(d.sort, next), Remove(moved, next),
                                 if d.next == Some(next) then Latter(d.sort, next) else d.next)
            && Side(t, !w) == Side(s, !w) && t.nrSorted == s.nrSorted - 1
            && Survives(s.rqs, t.rqs, id, next)
  {
    hide Moved, Remove, Latter;
  }

  lemma MergedRequestsOk(s: State, w: bool, id: nat, next: nat)
    requires Ok(s, w, {}) && id in Side(s, w).sort && next in Side(s, w).sort && id != next
    ensures Linked(s, w) && Ok(MergedRequests(s, w, id, next), w, {})
  {
    assert Linked(s, w);
    MergedSides(s, w, id, next);
    var t := MergedRequests(s, w, id, next);
    hide MergedRequests, Moved, Linked, Survives;
    MovedOk(s, w, id, next, t.rqs);
    MergedThere(s, t, w, next, Moved(s, w, id, next));
    OtherSide(s, w, id);
    SurvivorElsewhere(s.rqs, t.rqs, id, next, Side(s, !w), !w);
    hide DirOk, Remove;
  }

  lemma MergedThere(s: State, t: State, w: bool, next: nat, moved: seq<nat>)
    requires var d := Side(s, w);
             && DirOk(s.rqs, d, w, {}) && DirOk(t.rqs, d.(fifo := moved), w, {}) && next in d.sort
             && Side(t, w) == Dir(Remove(d.sort, next), Remove(moved, next),
                                  if d.next == Some(next) then Latter(d.sort, next) else d.next)
    ensures DirOk(t.rqs, Side(t, w), w, {}) && |Side(t, w).fifo| == |moved| - 1
    ensures Side(t, w).next.Some? ==> Side(s, w).next.Some?
  {
    var d := Side(s, w);
    SortedDistinct(s.rqs, d.sort);
    LatterRemains(d.sort, next);
    RemoveDistinct(d.sort, next);
    hide Remove, Latter, Index, Distinct, SectorSorted, DeadlineSorted;
    DirRemove(t.rqs, d.(fifo := moved), w, {}, next, if d.next == Some(next) then Latter(d.sort, next) else d.next);
  }

  lemma SurvivorElsewhere(a: map<nat, Rq>, b: map<nat, Rq>, id: nat, next: nat, d: Dir, w: bool)
    requires Survives(a, b, id, next) && DirOk(a, d, w, {}) && id !in d.sort && id !in d.fifo
    ensures DirOk(b, d, w, {})
  {
    DirSame(a, b, d, w, {});
  }
}
