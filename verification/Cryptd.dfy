// The crypto daemon (crypto/cryptd.c): submissions from any caller interleave with the daemon's
// turns, which take a request off the queue, tell the first waiting request that it is in
// progress, and complete the one taken.
module Cryptd {
  import opened Collections
  import opened CryptoQueue

  // A completion pointer: a caller's function, or the daemon's own cryptd_*_crypt.
  datatype Callback = User(u: nat) | Daemon

  // What the daemon holds between its dequeue and the completion.
  datatype Hand = Free | Took(backlog: Option<nat>, req: nat)

  datatype Event =
    | Told(id: nat, u: nat)          // the caller sets its completion function
    | Accepted(id: nat, busy: bool)  // enqueued; busy if the answer was -EBUSY
    | Rejected(id: nat)              // -EBUSY and not enqueued
    | Noticed(id: nat, u: nat)       // u called with -EINPROGRESS
    | Finished(id: nat, u: nat)      // u called with the result

  // complete is req->base.complete and saved is rctx->complete.
  datatype State = State(q: Queue, complete: map<nat, Callback>, saved: map<nat, Callback>, hand: Hand, log: seq<Event>,
                         stuck: bool)

  datatype Action = Tell(id: nat, u: nat) | Submit(id: nat, mayBacklog: bool) | Take | Notify | Finish

  function Start(maxQlen: nat): State { State(Init(maxQlen), map[], map[], Free, [], false) }

  predicate Pending(s: State, id: nat) { id in s.q.list || (s.hand.Took? && s.hand.req == id) }

  // What the callers must respect, and where the daemon is in its turn.
  predicate Enabled(s: State, a: Action) {
    && !s.stuck
    && match a
       case Tell(id, _) => !Pending(s, id)
       case Submit(id, _) => !Pending(s, id) && id in s.complete
       case Take => s.hand.Free? && (s.q.qlen > 0 ==> |s.q.list| > 0)
       case Notify => s.hand.Took? && s.hand.backlog.Some? && s.hand.backlog.value in s.complete && s.hand.backlog.value in s.saved
       case Finish => s.hand.Took? && s.hand.backlog.None? && s.hand.req in s.complete && s.hand.req in s.saved
  }

  // cryptd_blkcipher_enqueue: the pointers are swapped before the queue is asked.
  function Submitted(s: State, id: nat, mayBacklog: bool): State
    requires id in s.complete
  {
    var (q, status, taken) := Enqueued(s.q, id, mayBacklog);
    s.(q := q, saved := s.saved[id := s.complete[id]], complete := s.complete[id := Daemon],
       log := s.log + [if taken then Accepted(id, status == Busy) else Rejected(id)])
  }

  // backlog->complete(backlog, -EINPROGRESS): the daemon's function passes it on to the saved
  // pointer, and calls itself for ever when that is its own.
  function Notified(s: State, id: nat): State
    requires id in s.complete && id in s.saved
  {
    var cb := if s.complete[id].User? then s.complete[id] else s.saved[id];
    if cb.Daemon? then s.(stuck := true)
    else s.(hand := if s.hand.Took? then s.hand.(backlog := None) else s.hand, log := s.log + [Noticed(id, cb.u)])
  }

  // req->complete(req, 0): the daemon's function does the work, puts the saved pointer back and
  // calls it.
  function Completed(s: State, id: nat): State
    requires id in s.complete && id in s.saved
  {
    if s.complete[id].User? then s.(hand := Free, log := s.log + [Finished(id, s.complete[id].u)])
    else if s.saved[id].Daemon? then s.(stuck := true)
    else s.(hand := Free, complete := s.complete[id := s.saved[id]], log := s.log + [Finished(id, s.saved[id].u)])
  }

  function Step(s: State, a: Action): State
    requires Enabled(s, a)
  {
    match a
    case Tell(id, u) => s.(complete := s.complete[id := User(u)], log := s.log + [Told(id, u)])
    case Submit(id, mayBacklog) => Submitted(s, id, mayBacklog)
    case Take =>
      var (q, r) := Dequeued(s.q);
      if r.None? then s else s.(q := q, hand := Took(s.q.backlog, r.value))
    case Notify => Notified(s, s.hand.backlog.value)
    case Finish => Completed(s, s.hand.req)
  }

  predicate Legal(s: State, run: seq<Action>)
    decreases |run|
  {
    run == [] || (Enabled(s, run[0]) && Legal(Step(s, run[0]), run[1..]))
  }

  function After(s: State, run: seq<Action>): State
    requires Legal(s, run)
    decreases |run|
  {
    if run == [] then s else After(Step(s, run[0]), run[1..])
  }

  // ------------------------------------------------------- the story of one request

  datatype Phase = Unknown | Idle(c: Callback) | Waiting(c: Callback) | Queued(c: Callback) | Broken

  // An accepted request is noticed once if it was answered busy and never otherwise, then
  // finished once, through the function its caller gave; a rejection leaves it with the daemon's.
  function Advance(p: Phase, e: Event): Phase {
    match e
    case Told(_, u) => if p.Unknown? || p.Idle? then Idle(User(u)) else Broken
    case Accepted(_, busy) => if p.Idle? then (if busy then Waiting(p.c) else Queued(p.c)) else Broken
    case Rejected(_) => if p.Idle? then Idle(Daemon) else Broken
    case Noticed(_, u) => if p.Waiting? && p.c == User(u) then Queued(p.c) else Broken
    case Finished(_, u) => if p.Queued? && p.c == User(u) then Idle(p.c) else Broken
  }

  function PhaseOf(log: seq<Event>, id: nat): Phase {
    if log == [] then Unknown
    else
      var before := PhaseOf(log[..|log| - 1], id);
      if log[|log| - 1].id == id then Advance(before, log[|log| - 1]) else before
  }

  // Requests by event, in order.
  function AcceptedIds(log: seq<Event>): seq<nat> {
    if log == [] then []
    else AcceptedIds(log[..|log| - 1]) + if log[|log| - 1].Accepted? then [log[|log| - 1].id] else []
  }

  function FinishedIds(log: seq<Event>): seq<nat> {
    if log == [] then []
    else FinishedIds(log[..|log| - 1]) + if log[|log| - 1].Finished? then [log[|log| - 1].id] else []
  }

  function BusyIds(log: seq<Event>): seq<nat> {
    if log == [] then []
    else BusyIds(log[..|log| - 1]) + if log[|log| - 1].Accepted? && log[|log| - 1].busy then [log[|log| - 1].id] else []
  }

  function NoticedIds(log: seq<Event>): seq<nat> {
    if log == [] then []
    else NoticedIds(log[..|log| - 1]) + if log[|log| - 1].Noticed? then [log[|log| - 1].id] else []
  }

  lemma Append(log: seq<Event>, e: Event, id: nat)
    ensures PhaseOf(log + [e], id) == if e.id == id then Advance(PhaseOf(log, id), e) else PhaseOf(log, id)
  {
    assert (log + [e])[..|log|] == log;
  }

  lemma AppendIds(log: seq<Event>, e: Event)
    ensures AcceptedIds(log + [e]) == if e.Accepted? then AcceptedIds(log) + [e.id] else AcceptedIds(log)
    ensures FinishedIds(log + [e]) == if e.Finished? then FinishedIds(log) + [e.id] else FinishedIds(log)
    ensures BusyIds(log + [e]) == if e.Accepted? && e.busy then BusyIds(log) + [e.id] else BusyIds(log)
    ensures NoticedIds(log + [e]) == if e.Noticed? then NoticedIds(log) + [e.id] else NoticedIds(log)
  {
    assert (log + [e])[..|log|] == log;
  }

  // ------------------------------------------------------- the invariant

  function HandReq(h: Hand): seq<nat> { if h.Took? then [h.req] else [] }

  function HandBacklog(h: Hand): seq<nat> { if h.Took? && h.backlog.Some? then [h.backlog.value] else [] }

  // The story of every request agrees with where it is.
  ghost predicate Matches(s: State, id: nat) {
    var phase := PhaseOf(s.log, id);
    if Pending(s, id) then
      && id in s.complete && id in s.saved && s.complete[id] == Daemon
      && phase == if id in Excess(s.q) || id in HandBacklog(s.hand) then Waiting(s.saved[id]) else Queued(s.saved[id])
    else if id in s.complete then phase == Idle(s.complete[id])
    else phase == Unknown
  }

  ghost predicate HandOk(q: Queue, h: Hand) {
    h.Took? ==>
      && h.req !in q.list
      && (h.backlog.Some? ==>
          if q.maxQlen == 0 then h.backlog.value == h.req else q.maxQlen <= |q.list| && h.backlog.value == q.list[q.maxQlen - 1])
  }

  // First come, first served; first to wait, first to be told.
  ghost predicate InOrder(s: State) {
    && Splits(AcceptedIds(s.log), FinishedIds(s.log), HandReq(s.hand), s.q.list)
    && Splits(BusyIds(s.log), NoticedIds(s.log), HandBacklog(s.hand), Excess(s.q))
  }

  predicate Splits(all: seq<nat>, done: seq<nat>, hand: seq<nat>, rest: seq<nat>) { all == done + hand + rest }

  // The daemon calls itself for ever only on a request whose saved pointer is its own.
  ghost predicate StuckOn(s: State) {
    s.stuck ==> s.hand.Took? && var id := if s.hand.backlog.Some? then s.hand.backlog.value else s.hand.req;
                                id in s.saved && s.saved[id] == Daemon
  }

  ghost predicate Inv(s: State) {
    Good(s.q) && HandOk(s.q, s.hand) && InOrder(s) && StuckOn(s) && forall id :: Matches(s, id)
  }

  lemma TellKeeps(s: State, id: nat, u: nat)
    requires Inv(s) && Enabled(s, Tell(id, u))
    ensures Inv(Step(s, Tell(id, u)))
  {
    hide PhaseOf, AcceptedIds, FinishedIds, BusyIds, NoticedIds;
    var t := Step(s, Tell(id, u));
    AppendIds(s.log, Told(id, u));
    forall x ensures Matches(t, x) {
      Append(s.log, Told(id, u), x);
      assert Matches(s, x);
    }
  }

  lemma SubmitMatches(s: State, id: nat, mayBacklog: bool, x: nat)
    requires Good(s.q) && HandOk(s.q, s.hand) && Enabled(s, Submit(id, mayBacklog)) && Matches(s, x)
    ensures Matches(Submitted(s, id, mayBacklog), x)
  {
    EnqueueGood(s.q, id, mayBacklog);
    var t := Submitted(s, id, mayBacklog);
    var (q, status, taken) := Enqueued(s.q, id, mayBacklog);
    Append(s.log, if taken then Accepted(id, status == Busy) else Rejected(id), x);
    InExcess(s.q, id);
    HandPending(s, id);
    assert t.q == q && t.hand == s.hand;
    hide Enqueued, Good, Excess, PhaseOf, HandOk, HandBacklog;
    if x != id {
      assert Pending(t, x) == Pending(s, x);
      hide Pending;
    }
  }

  lemma InExcess(q: Queue, id: nat)
    ensures id in Excess(q) ==> id in q.list
  {
  }

  lemma HandPending(s: State, id: nat)
    requires HandOk(s.q, s.hand)
    ensures id in HandBacklog(s.hand) ==> Pending(s, id)
  {
  }

  lemma SplitsMoves(all: seq<nat>, done: seq<nat>, hand: seq<nat>, rest: seq<nat>, x: seq<nat>)
    ensures Splits(all, done, hand, rest) ==> Splits(all + x, done, hand, rest + x)
    ensures Splits(all, done, [], hand + rest) ==> Splits(all, done, hand, rest)
    ensures Splits(all, done, hand, rest) ==> Splits(all, done + hand, [], rest)
  {
    assert done + hand + rest + x == done + hand + (rest + x);
    assert done + [] + (hand + rest) == done + hand + rest;
    assert done + hand + [] + rest == done + hand + rest;
  }

  lemma SubmitQueue(s: State, id: nat, mayBacklog: bool)
    requires Good(s.q) && HandOk(s.q, s.hand) && Enabled(s, Submit(id, mayBacklog))
    ensures var t := Submitted(s, id, mayBacklog);
            Good(t.q) && HandOk(t.q, t.hand) && t.hand == s.hand
  {
    EnqueueGood(s.q, id, mayBacklog);
    var (q, status, taken) := Enqueued(s.q, id, mayBacklog);
    hide Enqueued, Good, Excess;
  }

  lemma SubmitInOrder(s: State, id: nat, mayBacklog: bool)
    requires Good(s.q) && InOrder(s) && Enabled(s, Submit(id, mayBacklog))
    ensures InOrder(Submitted(s, id, mayBacklog))
  {
    var t := Submitted(s, id, mayBacklog);
    EnqueueGood(s.q, id, mayBacklog);
    var (q, status, taken) := Enqueued(s.q, id, mayBacklog);
    var e := if taken then Accepted(id, status == Busy) else Rejected(id);
    AppendIds(s.log, e);
    assert t.log == s.log + [e] && t.hand == s.hand && t.q == q;
    SplitsMoves(AcceptedIds(s.log), FinishedIds(s.log), HandReq(s.hand), s.q.list, [id]);
    SplitsMoves(BusyIds(s.log), NoticedIds(s.log), HandBacklog(s.hand), Excess(s.q), [id]);
    hide Submitted, Enqueued, Good, Excess, AcceptedIds, FinishedIds, BusyIds, NoticedIds, HandReq, HandBacklog, Splits;
  }

  lemma SubmitKeeps(s: State, id: nat, mayBacklog: bool)
    requires Inv(s) && Enabled(s, Submit(id, mayBacklog))
    ensures Inv(Step(s, Submit(id, mayBacklog)))
  {
    var t := Submitted(s, id, mayBacklog);
    assert !t.stuck && t == Step(s, Submit(id, mayBacklog));
    hide Submitted, Step, Good, InOrder, HandOk;
    forall x ensures Matches(t, x) {
      assert Matches(s, x);
      hide Matches;
      SubmitMatches(s, id, mayBacklog, x);
    }
    SubmitQueue(s, id, mayBacklog);
    SubmitInOrder(s, id, mayBacklog);
  }

  lemma TakeMatches(s: State, x: nat)
    requires Good(s.q) && Enabled(s, Take) && Matches(s, x)
    ensures Matches(Step(s, Take), x)
  {
    DequeueGood(s.q);
    InExcess(s.q, x);
    hide Dequeued, Good, Excess, PhaseOf;
  }

  lemma TakeQueue(s: State)
    requires Good(s.q) && HandOk(s.q, s.hand) && Enabled(s, Take)
    ensures var t := Step(s, Take);
            Good(t.q) && HandOk(t.q, t.hand) && !t.stuck
  {
    DequeueGood(s.q);
    ExcessFits(s.q);
    hide Dequeued, Good, Excess;
  }

  lemma TakeInOrder(s: State)
    requires Good(s.q) && InOrder(s) && Enabled(s, Take)
    ensures InOrder(Step(s, Take))
  {
    var t := Step(s, Take);
    DequeueGood(s.q);
    if t != s {
      assert t.log == s.log && s.q.list == HandReq(t.hand) + t.q.list && Excess(s.q) == HandBacklog(t.hand) + Excess(t.q);
      SplitsMoves(AcceptedIds(s.log), FinishedIds(s.log), HandReq(t.hand), t.q.list, []);
      SplitsMoves(BusyIds(s.log), NoticedIds(s.log), HandBacklog(t.hand), Excess(t.q), []);
      hide Step, Dequeued, Good, Excess, AcceptedIds, FinishedIds, BusyIds, NoticedIds, Splits;
    }
  }

  lemma ExcessFits(q: Queue)
    requires Good(q)
    ensures q.backlog.Some? ==> q.maxQlen < |q.list|
  {
  }

  lemma TakeKeeps(s: State)
    requires Inv(s) && Enabled(s, Take)
    ensures Inv(Step(s, Take))
  {
    var t := Step(s, Take);
    hide Step, Good, InOrder, HandOk;
    forall x ensures Matches(t, x) {
      assert Matches(s, x);
      hide Matches;
      TakeMatches(s, x);
    }
    TakeQueue(s);
    TakeInOrder(s);
  }

  lemma NotifyMatches(s: State, x: nat)
    requires Good(s.q) && HandOk(s.q, s.hand) && Enabled(s, Notify) && Matches(s, x) && Matches(s, s.hand.backlog.value)
    ensures Matches(Step(s, Notify), x)
  {
    HandApart(s);
    var id := s.hand.backlog.value;
    if s.saved[id].User? { Append(s.log, Noticed(id, s.saved[id].u), x); }
    hide Good, Excess, PhaseOf, HandOk;
  }

  // Who is about to be told no longer waits in the queue.
  lemma HandApart(s: State)
    requires Good(s.q) && HandOk(s.q, s.hand) && s.hand.Took?
    ensures s.hand.req !in Excess(s.q)
    ensures s.hand.backlog.Some? ==> Pending(s, s.hand.backlog.value) && s.hand.backlog.value !in Excess(s.q)
  {
  }

  lemma NotifyKeeps(s: State)
    requires Inv(s) && Enabled(s, Notify)
    ensures Inv(Step(s, Notify))
  {
    var t := Step(s, Notify);
    var id := s.hand.backlog.value;
    HandApart(s);
    assert Matches(s, id);
    if s.saved[id].User? { AppendIds(s.log, Noticed(id, s.saved[id].u)); }
    hide Good, Excess, PhaseOf, AcceptedIds, FinishedIds, BusyIds, NoticedIds;
    forall x ensures Matches(t, x) {
      assert Matches(s, x);
      hide Matches, Step;
      NotifyMatches(s, x);
    }
  }

  lemma FinishMatches(s: State, x: nat)
    requires Good(s.q) && HandOk(s.q, s.hand) && Enabled(s, Finish) && Matches(s, x) && Matches(s, s.hand.req)
    ensures Matches(Step(s, Finish), x)
  {
    HandApart(s);
    var id := s.hand.req;
    if s.saved[id].User? { Append(s.log, Finished(id, s.saved[id].u), x); }
    hide Good, Excess, PhaseOf;
  }

  lemma FinishInOrder(s: State)
    requires Good(s.q) && HandOk(s.q, s.hand) && InOrder(s) && StuckOn(s) && Enabled(s, Finish)
    requires s.complete[s.hand.req] == Daemon
    ensures var t := Step(s, Finish);
            Good(t.q) && HandOk(t.q, t.hand) && InOrder(t) && StuckOn(t)
  {
    var t := Step(s, Finish);
    var id := s.hand.req;
    if s.saved[id].User? {
      AppendIds(s.log, Finished(id, s.saved[id].u));
      SplitsMoves(AcceptedIds(s.log), FinishedIds(s.log), HandReq(s.hand), s.q.list, []);
    }
    hide Good, Excess, PhaseOf, AcceptedIds, FinishedIds, BusyIds, NoticedIds, Splits;
  }

  lemma FinishKeeps(s: State)
    requires Inv(s) && Enabled(s, Finish)
    ensures Inv(Step(s, Finish))
  {
    assert Matches(s, s.hand.req);
    FinishInOrder(s);
    var t := Step(s, Finish);
    hide Good, HandOk, InOrder, StuckOn, Step;
    forall x ensures Matches(t, x) {
      assert Matches(s, x);
      hide Matches;
      FinishMatches(s, x);
    }
  }

  lemma StepKeeps(s: State, a: Action)
    requires Inv(s) && Enabled(s, a)
    ensures Inv(Step(s, a))
  {
    hide Inv, Step;
    match a
    case Tell(id, u) => TellKeeps(s, id, u);
    case Submit(id, mayBacklog) => SubmitKeeps(s, id, mayBacklog);
    case Take => TakeKeeps(s);
    case Notify => NotifyKeeps(s);
    case Finish => FinishKeeps(s);
  }

  lemma StartInv(maxQlen: nat)
    ensures Inv(Start(maxQlen))
  {
  }

  lemma {:induction false} RunKeeps(s: State, run: seq<Action>)
    requires Inv(s) && Legal(s, run)
    ensures Inv(After(s, run))
    decreases |run|
  {
    hide Inv, Step;
    if run != [] {
      StepKeeps(s, run[0]);
      RunKeeps(Step(s, run[0]), run[1..]);
    }
  }
}
