// The scheduler object of block/cfq-iosched.c, its fields changed in place, proved against
// the functions of Cfq and CfqRuns.
module CfqDataObject {
  import opened Collections
  import opened ElvTree
  import opened Cfq
  import opened CfqQueues
  import opened CfqTheorems
  import R = CfqRuns

  class CfqData {
    const c: Config
    var rqs: map<nat, Rq>
    var queues: map<nat, Queue>
    var tree: seq<nat>
    var left: Option<nat>
    var busy: int
    var rqQueued: int
    var lastPosition: nat
    var out: seq<nat>
    ghost var gone: set<nat>

    ghost function View(): State
      reads this
    {
      State(rqs, queues, tree, left, busy, rqQueued, lastPosition, out, gone)
    }

    constructor (c: Config)
      ensures View() == R.Init() && this.c == c
    {
      this.c := c;
      rqs, queues, tree, left, busy, rqQueued, lastPosition, out, gone := map[], map[], [], None, 0, 0, 0, [], {};
    }

    // cfq_rb_first
    method First() returns (k: Option<nat>)
      modifies `left
      ensures View() == RbFirst(old(View())) && k == left
    {
      if left.None? && tree != [] { left := Some(tree[0]); }
      return left;
    }

    // cfq_rb_erase
    method RbErase(k: nat)
      requires k in tree
      modifies `left, `tree
      ensures View() == Cfq.RbErase(old(View()), k)
    {
      hide Remove;
      if left == Some(k) { left := None; }
      tree := Remove(tree, k);
    }

    // cfq_service_tree_add, with the end of its descent
    method ServiceTreeAdd(k: nat, same: bool, p: nat)
      modifies `left, `tree
      ensures View() == Cfq.ServiceTreeAdd(old(View()), k, same, p)
    {
      hide InsertAt, Remove, Cfq.RbErase;
      if k in tree {
        if same { return; }
        RbErase(k);
      }
      var q := Clip(p, |tree|);
      if q == 0 { left := Some(k); }
      tree := InsertAt(tree, q, k);
    }

    // cfq_del_cfqq_rr
    method DelCfqqRr(k: nat)
      modifies `left, `tree, `busy
      ensures View() == DelRr(old(View()), k)
    {
      hide Cfq.RbErase;
      if k in tree { RbErase(k); }
      busy := busy - 1;
    }

    // cfq_remove_request with cfq_del_rq_rb
    method RemoveRequest(id: nat)
      requires Linked(View(), id)
      modifies `queues, `rqQueued, `left, `tree, `busy
      ensures View() == Cfq.RemoveRequest(c, old(View()), id) && rqs[id].cfqq in queues
    {
      hide DelRr, FindNext, Remove;
      var r, k := rqs[id], rqs[id].cfqq;
      var u := queues[k];
      if u.next == Some(id) { u := u.(next := FindNext(c, lastPosition, rqs, u.sort, id)); }
      u := u.(fifo := Remove(u.fifo, id));
      if r.sync { u := u.(queuedSync := u.queuedSync - 1); } else { u := u.(queuedAsync := u.queuedAsync - 1); }
      u := u.(sort := Remove(u.sort, id));
      var off := u.onRr && u.sort == [];
      if off { u := u.(onRr := false); }
      if r.meta { u := u.(metaPending := u.metaPending - 1); }
      assert u == Taken(c, lastPosition, rqs, queues[k], id);
      hide Taken;
      queues, rqQueued := queues[k := u], rqQueued - 1;
      if off { DelCfqqRr(k); }
    }

    // cfq_dispatch_insert
    method DispatchInsert(id: nat)
      requires Linked(View(), id)
      modifies `queues, `rqQueued, `left, `tree, `busy, `out
      ensures View() == Cfq.DispatchInsert(c, old(View()), id)
    {
      hide Cfq.RemoveRequest;
      var k := rqs[id].cfqq;
      RemoveRequest(id);
      queues := queues[k := queues[k].(dispatched := queues[k].dispatched + 1)];
      out := out + [id];
    }

    // The loop of cfq_add_rq_rb: a request of the same sector is dispatched.
    method MakeRoom(id: nat, ghost k: nat, ghost loose: set<nat>)
      requires Ok(View(), k, loose) && id in rqs && rqs[id].cfqq == k && k in queues
      modifies `queues, `rqQueued, `left, `tree, `busy, `out
      ensures Ready(old(View()), id) && View() == Cfq.MakeRoom(c, old(View()), id)
    {
      ghost var was := View();
      ghost var sent := RoomOk(c, was, k, loose, id);
      ReadyWhen(was, k, loose, id);
      ReadyLinked(was, id);
      NoMoreAlias(c, was, k, loose, id);
      hide Ok, Ready, Alias, Cfq.DispatchInsert, Linked;
      var j, sector := rqs[id].cfqq, rqs[id].sector;
      var alias := Alias(rqs, queues[j].sort, sector);
      while alias.Some?
        invariant rqs == was.rqs && j in queues && Known(rqs, queues[j].sort)
        invariant alias == Alias(rqs, queues[j].sort, sector)
        invariant if alias.Some? then View() == was else View() == Cfq.MakeRoom(c, was, id)
        decreases alias.Some?
      {
        DispatchInsert(alias.value);
        assert View() == Cfq.MakeRoom(c, was, id);
        alias := Alias(rqs, queues[j].sort, sector);
      }
    }

    // The end of cfq_add_rq_rb: the changed queue goes on the service tree if it was off.
    method Flag(k: nat, v: Queue, n: int, p: nat)
      requires k in queues
      modifies `queues, `rqQueued, `left, `tree, `busy
      ensures View() == Flagged(old(View()), k, v, n, p)
    {
      hide Cfq.ServiceTreeAdd;
      var onRr := queues[k].onRr;
      queues, rqQueued := queues[k := v], n;
      if !onRr {
        busy := busy + 1;
        ServiceTreeAdd(k, false, p);
      }
    }

    // cfq_insert_request
    method InsertRequest(id: nat, rq: Rq, p: nat)
      requires R.Inv(View()) && id !in rqs && rq.cfqq in queues
      modifies `rqs, `queues, `rqQueued, `left, `tree, `busy, `out
      ensures View() == R.DoInsert(c, old(View()), id, rq, p)
    {
      hide R.Inv, R.DoInsert, Ok, Ready, Cfq.MakeRoom, Flagged, Inserted;
      ghost var was := View();
      InsertParts(c, was, id, rq, p);
      rqs := rqs[id := rq];
      assert View() == Registered(was, id, rq);
      hide Registered;
      MakeRoom(id, rq.cfqq, {});
      Flag(rq.cfqq, Inserted(c, lastPosition, rqs, queues[rq.cfqq], id), rqQueued + 1, p);
    }

    // elv_rb_del and the counter in cfq_reposition_rq_rb, for a request with a new sector
    method Lift(id: nat, sector: nat)
      requires Linked(View(), id)
      modifies `rqs, `queues
      ensures View() == Lifted(old(View()), id, sector)
    {
      hide Remove;
      var r, k := rqs[id], rqs[id].cfqq;
      var u := queues[k].(sort := Remove(queues[k].sort, id));
      if r.sync { u := u.(queuedSync := u.queuedSync - 1); } else { u := u.(queuedAsync := u.queuedAsync - 1); }
      rqs, queues := rqs[id := r.(sector := sector)], queues[k := u];
    }

    // cfq_reposition_rq_rb
    method RepositionRqRb(id: nat, sector: nat, p: nat)
      requires R.Inv(View()) && R.Waiting(View(), id)
      modifies `rqs, `queues, `rqQueued, `left, `tree, `busy, `out
      ensures View() == R.DoReposition(c, old(View()), id, sector, p)
    {
      hide R.Inv, R.DoReposition, Ok, Ready, Cfq.MakeRoom, Flagged, Put, Lifted, Linked;
      ghost var was := View();
      RepositionParts(c, was, id, sector, p);
      var k := rqs[id].cfqq;
      Lift(id, sector);
      MakeRoom(id, k, {id});
      Flag(k, Put(c, lastPosition, rqs, queues[k], id), rqQueued, p);
    }

    // __cfq_forced_dispatch_cfqq
    method ForcedDispatchCfqq(k: nat)
      requires R.Inv(View()) && k in queues
      modifies `queues, `rqQueued, `left, `tree, `busy, `out
      ensures View() == R.ForcedQueue(c, old(View()), k) && k in queues && queues[k].fifo == []
    {
      ghost var was := View();
      R.ForcedQueueEmpties(c, was, k);
      hide R.Inv, Cfq.DispatchInsert, R.Accounted, Held;
      while queues[k].next.Some?
        invariant R.Inv(View()) && k in queues && R.ForcedQueue(c, View(), k) == R.ForcedQueue(c, was, k)
        decreases |Held(View())|
      {
        ghost var s := View();
        R.NextServes(c, s, k);
        R.HasSort(s, k);
        R.PickThere(s, k);
        R.WaitingLinked(s, queues[k].next.value);
        DispatchInsert(queues[k].next.value);
        assert View() == R.ServeNext(c, s, k);
      }
    }

    // cfq_forced_dispatch: busy_queues is zero afterwards, as its BUG_ON demands.
    method ForcedDispatch()
      requires R.Inv(View()) && R.Accounted(View())
      modifies `queues, `rqQueued, `left, `tree, `busy, `out
      ensures View() == R.ForcedDispatch(c, old(View())) && busy == 0
    {
      ghost var was := View();
      R.ForcedDispatchEmpties(c, was);
      hide R.Inv, R.Accounted, Held, RbFirst, R.ForcedQueue;
      R.FirstDrains(was);
      var k := First();
      ghost var f := View();
      while k.Some?
        invariant View() == f && k == f.left && R.Inv(f)
        invariant k.None? ==> f == R.ForcedDispatch(c, was)
        invariant k.Some? ==> k.value in f.queues && f.queues[k.value].next.Some?
        invariant k.Some? ==> R.ForcedDispatch(c, R.ForcedQueue(c, f, k.value)) == R.ForcedDispatch(c, was)
        decreases k.Some?, |Held(f)|
      {
        R.FirstServes(c, f);
        ForcedDispatchCfqq(k.value);
        R.FirstDrains(View());
        k := First();
        f := View();
      }
    }
  }

  lemma ReadyLinked(s: State, id: nat)
    requires Ready(s, id)
    ensures id in s.rqs && s.rqs[id].cfqq in s.queues
    ensures var u := s.queues[s.rqs[id].cfqq]; Known(s.rqs, u.sort) && forall i :: i in u.sort ==> Linked(s, i)
  {
  }

  // The stations of cfq_insert_request and what each needs.
  lemma InsertParts(c: Config, s: State, id: nat, rq: Rq, p: nat)
    requires R.Inv(s) && id !in s.rqs && rq.cfqq in s.queues
    ensures var e, k := Registered(s, id, rq), rq.cfqq;
            && Ok(e, k, {}) && Ready(e, id) && e.rqs[id] == rq && k in e.queues
            && var t := MakeRoom(c, e, id);
               && t.rqs == e.rqs && k in t.queues && Known(t.rqs, t.queues[k].sort)
               && (t.queues[k].next.Some? ==> t.queues[k].next.value in t.rqs)
               && R.DoInsert(c, s, id, rq, p) == Flagged(t, k, Inserted(c, t.lastPosition, t.rqs, t.queues[k], id),
                                                         t.rqQueued + 1, p)
  {
    hide Ok, Ready, MakeRoom, Flagged, Inserted, Held, Effect;
    R.InsertReady(c, s, id, rq);
    R.AnyQueue(s, 0, rq.cfqq);
    RegisteredOk(s, id, rq);
    var e := Registered(s, id, rq);
    var out := RoomOk(c, e, rq.cfqq, {}, id);
    InsertFlagged(c, MakeRoom(c, e, id), id, rq.cfqq, p);
  }

  lemma RepositionParts(c: Config, s: State, id: nat, sector: nat, p: nat)
    requires R.Inv(s) && R.Waiting(s, id)
    ensures Linked(s, id)
    ensures var e, k := Lifted(s, id, sector), s.rqs[id].cfqq;
            && Ok(e, k, {id}) && Ready(e, id) && id in e.rqs && e.rqs[id].cfqq == k && k in e.queues
            && var t := MakeRoom(c, e, id);
               && t.rqs == e.rqs && k in t.queues && Known(t.rqs, t.queues[k].sort)
               && (t.queues[k].next.Some? ==> t.queues[k].next.value in t.rqs)
               && R.DoReposition(c, s, id, sector, p) == Flagged(t, k, Put(c, t.lastPosition, t.rqs, t.queues[k], id), t.rqQueued, p)
  {
    hide Ok, Ready, MakeRoom, Flagged, Put, Held, Effect, Linked, Lifted;
    R.RepositionReady(c, s, id, sector);
    var k := s.rqs[id].cfqq;
    R.AnyQueue(s, 0, k);
    LiftedOk(s, k, id, sector);
    LiftedShape(s, id, sector);
    var e := Lifted(s, id, sector);
    var out := RoomOk(c, e, k, {id}, id);
    PutFlagged(c, MakeRoom(c, e, id), id, k, p);
    ReadyNext(MakeRoom(c, e, id), id);
  }

  lemma ReadyNext(s: State, id: nat)
    requires Ready(s, id)
    ensures id in s.rqs && s.rqs[id].cfqq in s.queues
    ensures var u := s.queues[s.rqs[id].cfqq]; Known(s.rqs, u.sort) && (u.next.Some? ==> u.next.value in s.rqs)
  {
  }

  // The loop does not run twice.
  lemma NoMoreAlias(c: Config, s: State, k: nat, loose: set<nat>, id: nat)
    requires Ok(s, k, loose) && id in s.rqs && s.rqs[id].cfqq == k && k in s.queues
    ensures Ready(s, id)
    ensures var t := MakeRoom(c, s, id);
            t.rqs == s.rqs && k in t.queues && Known(t.rqs, t.queues[k].sort) && Alias(t.rqs, t.queues[k].sort, s.rqs[id].sector).None?
  {
    hide Effect;
    var out := RoomOk(c, s, k, loose, id);
    hide Ok, MakeRoom, Ready;
  }
}
