// The daemon's state as the source keeps it: the queue object and, in each request, the two
// completion pointers.
module CryptdObject {
  import opened Collections
  import opened CryptoQueue
  import opened Cryptd
  import opened CryptdTheorems

  class CryptdState {
    const queue: RequestQueue
    var complete: map<nat, Callback>
    var saved: map<nat, Callback>
    var log: seq<Event>
    var hand: Hand

    ghost function Value(): State reads this, queue { State(queue.Value(), complete, saved, hand, log, false) }

    // cryptd_create_thread
    constructor (maxQlen: nat)
      ensures Value() == Start(maxQlen) && Inv(Value()) && fresh(queue)
    {
      queue := new RequestQueue(maxQlen);
      complete, saved, log, hand := map[], map[], [], Free;
      new;
      StartInv(maxQlen);
    }

    // cryptd_blkcipher_enqueue and cryptd_hash_enqueue
    method EnqueueRequest(id: nat, mayBacklog: bool) returns (err: Status)
      requires Inv(Value()) && Enabled(Value(), Submit(id, mayBacklog))
      modifies this, queue
      ensures Value() == Step(old(Value()), Submit(id, mayBacklog)) && Inv(Value())
      ensures err == Busy <==> |old(queue.list)| >= queue.maxQlen
    {
      StepKeeps(Value(), Submit(id, mayBacklog));
      EnqueueGood(queue.Value(), id, mayBacklog);
      ghost var s := Value();
      ghost var t := Step(s, Submit(id, mayBacklog));
      assert t == Submitted(s, id, mayBacklog);
      hide Inv, Step, Good, Matches, Enabled;
      assert Good(queue.Value());
      saved := saved[id := complete[id]];
      complete := complete[id := Daemon];
      var taken: bool;
      err, taken := queue.Enqueue(id, mayBacklog);
      log := log + [if taken then Accepted(id, err == Busy) else Rejected(id)];
    }

    // The locked part of one turn of cryptd_thread.
    method TakeRequest() returns (idle: bool)
      requires Inv(Value()) && hand.Free?
      modifies this, queue
      ensures Value() == Step(old(Value()), Take) && Inv(Value()) && (idle <==> hand.Free?)
    {
      TakeKeeps(Value());
      ghost var t := Step(Value(), Take);
      var backlog := queue.backlog;
      hide Inv, Matches, Good;
      var req := queue.Dequeue();
      if req.Some? { hand := Took(backlog, req.value); }
      idle := req.None?;
    }

    // The rest of the turn: nobody's pointer is the daemon's own, so the callbacks come back.
    method CompleteRequest()
      requires Inv(Value()) && hand.Took? && NoneDoomed(log)
      modifies this
      ensures old(hand.backlog.Some?) ==> Enabled(old(Value()), Notify)
      ensures var u := if old(hand.backlog.Some?) then Step(old(Value()), Notify) else old(Value());
              Enabled(u, Finish) && Value() == Step(u, Finish)
      ensures Inv(Value()) && hand.Free? && NoneDoomed(log)
    {
      if hand.backlog.Some? { TellBacklog(); }
      Finishing(Value());
      ghost var t := Step(Value(), Finish);
      var id := hand.req;
      var cb := saved[id];
      hide Inv, Matches, Good, NoneDoomed;
      complete := complete[id := cb];
      log := log + [Finished(id, cb.u)];
      hand := Free;
      assert Value() == t;
    }

    // backlog->complete(backlog, -EINPROGRESS)
    method TellBacklog()
      requires Inv(Value()) && hand.Took? && hand.backlog.Some? && NoneDoomed(log)
      modifies this
      ensures Enabled(old(Value()), Notify) && Value() == Step(old(Value()), Notify)
      ensures Inv(Value()) && NoneDoomed(log) && hand == Took(None, old(hand.req))
    {
      Finishing(Value());
      ghost var t := Step(Value(), Notify);
      var id := hand.backlog.value;
      var cb := saved[id];
      hide Inv, Matches, Good, NoneDoomed;
      log := log + [Noticed(id, cb.u)];
      hand := hand.(backlog := None);
      assert Value() == t;
    }
  }

  lemma Finishing(s: State)
    requires Inv(s) && s.hand.Took? && NoneDoomed(s.log)
    ensures var a := if s.hand.backlog.Some? then Notify else Finish;
            var id := if s.hand.backlog.Some? then s.hand.backlog.value else s.hand.req;
            && Enabled(s, a) && Inv(Step(s, a)) && NoneDoomed(Step(s, a).log) && !Step(s, a).stuck
            && s.saved[id].User? && s.complete[id] == Daemon
  {
    var a := if s.hand.backlog.Some? then Notify else Finish;
    var id := if s.hand.backlog.Some? then s.hand.backlog.value else s.hand.req;
    Deliverable(s);
    StepKeeps(s, a);
    NoneDoomedStep(s, a);
    HandApart(s);
    assert Matches(s, id);
  }
}
