// The scheduler object of block/deadline-iosched.c, its fields changed in place, proved
// against the functions of Deadline.
module DeadlineQueueObject {
  import opened Collections
  import opened ElvTree
  import opened Deadline
  import T = DeadlineTheorems

  class DeadlineQueue {
    var rqs: map<nat, Rq>
    var rd: Dir
    var wr: Dir
    var batching: nat
    var starved: nat
    var lastSector: nat
    var nrSorted: int
    var queue: seq<nat>
    ghost var gone: set<nat>

    ghost function View(now: nat): State
      reads this
    {
      State(rqs, rd, wr, batching, starved, lastSector, nrSorted, queue, gone, now)
    }

    constructor ()
      ensures forall c, now: nat :: View(now) == T.Init(c).(now := now)
    {
      rqs, rd, wr := map[], Dir([], [], None), Dir([], [], None);
      batching, starved, lastSector, nrSorted, queue, gone := 0, 0, 0, 0, [], {};
    }

    // deadline_remove_request
    method RemoveRequest(w: bool, id: nat, ghost now: nat)
      requires id in Side(View(now), w).sort && id in Side(View(now), w).fifo
      modifies `rd, `wr
      ensures View(now) == Deadline.RemoveRequest(old(View(now)), w, id)
    {
      hide Remove, Latter;
      var d := if w then wr else rd;
      d := d.(fifo := Remove(d.fifo, id));
      if d.next == Some(id) { d := d.(next := Latter(d.sort, id)); }
      d := d.(sort := Remove(d.sort, id));
      if w { wr := d; } else { rd := d; }
    }

    // deadline_move_request and elv_dispatch_add_tail
    method MoveRequest(w: bool, id: nat, ghost now: nat)
      requires id in rqs && id in Side(View(now), w).sort && id in Side(View(now), w).fifo
      modifies `rd, `wr, `lastSector, `nrSorted, `queue
      ensures View(now) == Deadline.MoveRequest(old(View(now)), w, id)
    {
      hide Remove, Latter, Deadline.RemoveRequest;
      var next := Latter((if w then wr else rd).sort, id);
      rd, wr := rd.(next := None), wr.(next := None);
      if w { wr := wr.(next := next); } else { rd := rd.(next := next); }
      lastSector := rqs[id].end;
      RemoveRequest(w, id, now);
      nrSorted, queue := nrSorted - 1, queue + [id];
    }

    // deadline_add_rq_rb: the loop runs again as long as the tree has a request of this sector.
    method AddRqRb(w: bool, id: nat, ghost now: nat)
      requires id in rqs && rqs[id].write == w && id !in Side(View(now), w).sort
      requires Ok(View(now), w, {id}) || (Ok(View(now), w, {}) && id !in Side(View(now), w).fifo)
      modifies `rd, `wr, `lastSector, `nrSorted, `queue
      ensures Linked(old(View(now)), w) && View(now) == AddRb(old(View(now)), w, id)
    {
      ghost var loose: set<nat> := if Ok(View(now), w, {}) then {} else {id};
      ghost var was := View(now);
      var sector := rqs[id].sector;
      MakeRoomOk(was, w, loose, sector);
      hide Alias, Remove, Latter, RbAdd, DirOk;
      var alias := Alias(rqs, (if w then wr else rd).sort, sector);
      while alias.Some?
        invariant rqs == was.rqs && Known(rqs, Side(View(now), w).sort)
        invariant alias == Alias(rqs, Side(View(now), w).sort, sector)
        invariant View(now) == was || View(now) == MakeRoom(was, w, sector)
        invariant alias.Some? ==> View(now) == was
        decreases alias.Some?
      {
        MoveRequest(w, alias.value, now);
        assert View(now) == MakeRoom(was, w, sector);
        alias := Alias(rqs, (if w then wr else rd).sort, sector);
      }
      if w { wr := wr.(sort := RbAdd(rqs, wr.sort, id)); } else { rd := rd.(sort := RbAdd(rqs, rd.sort, id)); }
    }

    // deadline_add_request
    method AddRequest(ghost c: Config, w: bool, id: nat, rq: Rq, now: nat, expire: nat)
      requires Ok(View(now), w, {}) && id !in rqs && rq.write == w && expire == Expire(c, w)
      modifies `rqs, `rd, `wr, `lastSector, `nrSorted, `queue
      ensures Linked(old(View(now)), w) && View(now) == Deadline.AddRequest(c, old(View(now)), w, id, rq)
    {
      ExtendRqs(View(now), w, id, rq.(deadline := now + expire));
      assert Linked(View(now), w);
      hide Ok, AddRb, Linked, Expire;
      rqs := rqs[id := rq.(deadline := now + expire)];
      AddRqRb(w, id, now);
      if w { wr := wr.(fifo := wr.fifo + [id]); } else { rd := rd.(fifo := rd.fifo + [id]); }
      nrSorted := nrSorted + 1;
    }

    // deadline_merged_request
    method MergedRequest(w: bool, id: nat, sector: nat, ghost now: nat)
      requires Ok(View(now), w, {}) && id in Side(View(now), w).sort
      modifies `rqs, `rd, `wr, `lastSector, `nrSorted, `queue
      ensures Linked(old(View(now)), w) && Distinct(old(Side(View(now), w).fifo))
      ensures SectorSorted(old(rqs), old(Side(View(now), w).sort))
      ensures View(now) == FrontMerged(old(View(now)), w, id, sector)
    {
      T.LoweredOk(View(now), w, id, sector);
      hide DirOk, AddRb, Remove;
      rqs := rqs[id := rqs[id].(sector := sector)];
      if w { wr := wr.(sort := Remove(wr.sort, id)); } else { rd := rd.(sort := Remove(rd.sort, id)); }
      AddRqRb(w, id, now);
    }

    // deadline_merged_requests
    method MergedRequests(w: bool, id: nat, next: nat, ghost now: nat)
      requires Linked(View(now), w) && id in Side(View(now), w).sort && next in Side(View(now), w).sort && id != next
      modifies `rqs, `rd, `wr, `nrSorted, `gone
      ensures View(now) == Deadline.MergedRequests(old(View(now)), w, id, next)
    {
      hide Remove, Deadline.RemoveRequest, InsertAfter;
      var a, b := rqs[id], rqs[next];
      ghost var moved := Moved(View(now), w, id, next);
      if b.deadline < a.deadline {
        RemoveKeeps(Side(View(now), w).fifo, id, next);
        var fifo := InsertAfter(Remove((if w then wr else rd).fifo, id), next, id);
        if w { wr := wr.(fifo := fifo); } else { rd := rd.(fifo := fifo); }
        a := a.(deadline := b.deadline);
      }
      assert Side(View(now), w).fifo == moved;
      hide Moved;
      RemoveRequest(w, next, now);
      rqs := rqs[id := a.(end := b.end)];
      nrSorted, gone := nrSorted - 1, gone + {next};
    }

    // The jumps of deadline_dispatch_requests: what to move, and the counters it leaves.
    method Select(c: Config, now: nat) returns (ch: Choice)
      requires Known(rqs, rd.fifo) && Known(rqs, wr.fifo)
      modifies `starved
      ensures ch == Choose(c, old(View(now)))
      ensures starved == if ch.Fresh? then ch.starved else old(starved)
    {
      var fromWrites := wr.next.Some?;
      var next := if fromWrites then wr.next else rd.next;
      if next.Some? && batching < c.fifoBatch { return Batch(fromWrites, next.value); }
      var write := false;
      if rd.fifo != [] {
        if wr.fifo != [] {
          starved := starved + 1;
          if starved - 1 >= Unsigned(c.writesStarved) { write := true; }
        }
      } else if wr.fifo != [] {
        write := true;
      } else {
        return Nothing;
      }
      if write { starved := 0; }
      var d := if write then wr else rd;
      var id := if now > rqs[d.fifo[0]].deadline || d.next.None? then d.fifo[0] else d.next.value;
      return Fresh(write, id, starved);
    }

    // deadline_dispatch_requests
    method DispatchRequests(c: Config, now: nat) returns (moved: bool)
      requires Ok(View(now), false, {})
      modifies `rd, `wr, `batching, `starved, `lastSector, `nrSorted, `queue
      ensures Known(old(rqs), old(rd).fifo) && Known(old(rqs), old(wr).fifo)
      ensures var s, ch := old(View(now)), Choose(c, old(View(now)));
              moved == !ch.Nothing? && (moved ==> ch.id in Side(s, ch.w).sort && ch.id in Side(s, ch.w).fifo && ch.id in s.rqs)
              && View(now) == Dispatch(c, s)
    {
      hide Choose, Deadline.MoveRequest, Ok, Known;
      T.ChoiceHeld(c, View(now));
      DispatchIs(c, View(now));
      hide Dispatch;
      var ch := Select(c, now);
      if ch.Nothing? { return false; }
      if ch.Fresh? { batching := 0; }
      batching := batching + 1;
      MoveRequest(ch.w, ch.id, now);
      return true;
    }

    // elv_drain_elevator: nothing is left for its complaint about nr_sorted.
    method DrainElevator(c: Config, now: nat)
      requires T.Inv(c, View(now)) && T.Accounted(View(now))
      modifies `rd, `wr, `batching, `starved, `lastSector, `nrSorted, `queue
      ensures View(now) == T.Drained(c, old(View(now))) && nrSorted == 0
    {
      ghost var was := View(now);
      T.DrainEmpties(c, was);
      hide T.Accounted, Dispatch;
      var more := true;
      while more
        invariant T.Inv(c, View(now)) && T.Drained(c, View(now)) == T.Drained(c, was)
        invariant !more ==> View(now) == T.Drained(c, was)
        decreases more, |rd.fifo| + |wr.fifo|
      {
        ghost var s := View(now);
        T.ChoiceHeld(c, s);
        T.StepInv(c, s, T.Call);
        if !Choose(c, s).Nothing? { T.CallShrinks(c, s); }
        more := DispatchRequests(c, now);
      }
    }
  }

  lemma DispatchIs(c: Config, s: State)
    requires Known(s.rqs, s.rd.fifo) && Known(s.rqs, s.wr.fifo)
    requires var ch := Choose(c, s); ch.Nothing? || (ch.id in Side(s, ch.w).sort && ch.id in Side(s, ch.w).fifo && ch.id in s.rqs)
    ensures var ch := Choose(c, s);
            && (ch.Nothing? ==> Dispatch(c, s) == s)
            && (ch.Batch? ==> Dispatch(c, s) == Deadline.MoveRequest(s.(batching := s.batching + 1), ch.w, ch.id))
            && (ch.Fresh? ==> Dispatch(c, s) == Deadline.MoveRequest(s.(batching := 1, starved := ch.starved), ch.w, ch.id))
  {
    hide Choose, Deadline.MoveRequest;
  }
}
