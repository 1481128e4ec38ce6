// What every run of the crypto daemon promises, and exactly when it keeps completing.
module CryptdTheorems {
  import opened Collections
  import opened CryptoQueue
  import opened Cryptd

  lemma SplitsPrefix(all: seq<nat>, done: seq<nat>, hand: seq<nat>, rest: seq<nat>)
    requires Splits(all, done, hand, rest)
    ensures done <= all && (hand == [] && rest == [] ==> done == all)
  {
    assert all == done + (hand + rest);
  }

  // Whatever the callers do, requests finish in the order they were accepted, notices go out in
  // the order of the busy answers, and each accepted request is finished exactly once, through
  // its caller's function, after exactly one notice if it was answered busy and none otherwise.
  lemma EveryStory(maxQlen: nat, run: seq<Action>, id: nat)
    requires Legal(Start(maxQlen), run)
    ensures var s := After(Start(maxQlen), run);
            && FinishedIds(s.log) <= AcceptedIds(s.log) && NoticedIds(s.log) <= BusyIds(s.log)
            && !PhaseOf(s.log, id).Broken?
            && (PhaseOf(s.log, id).Waiting? || PhaseOf(s.log, id).Queued? <==> Pending(s, id))
  {
    StartInv(maxQlen);
    RunKeeps(Start(maxQlen), run);
    var s := After(Start(maxQlen), run);
    assert Matches(s, id);
    hide Good, Excess, PhaseOf, AcceptedIds, FinishedIds, BusyIds, NoticedIds, Legal, After, Splits;
    SplitsPrefix(AcceptedIds(s.log), FinishedIds(s.log), HandReq(s.hand), s.q.list);
    SplitsPrefix(BusyIds(s.log), NoticedIds(s.log), HandBacklog(s.hand), Excess(s.q));
  }

  // ------------------------------------------------------- the swapped pointer

  // No caller submits a request whose completion pointer a rejection has left with the daemon.
  predicate Disciplined(log: seq<Event>) {
    log == [] || (
      var before, e := log[..|log| - 1], log[|log| - 1];
      Disciplined(before) && (e.Accepted? ==> PhaseOf(before, e.id) != Idle(Daemon)))
  }

  predicate Doomed(p: Phase) { (p.Waiting? || p.Queued?) && p.c == Daemon }

  ghost predicate NoneBroken(log: seq<Event>) { forall id :: !PhaseOf(log, id).Broken? }

  ghost predicate NoneDoomed(log: seq<Event>) { forall id :: !Doomed(PhaseOf(log, id)) }

  lemma {:induction false} DisciplineExact(log: seq<Event>)
    requires NoneBroken(log)
    ensures Disciplined(log) <==> NoneDoomed(log)
    decreases |log|
  {
    if log != [] {
      var before, e := log[..|log| - 1], log[|log| - 1];
      forall id ensures !PhaseOf(before, id).Broken? && (Doomed(PhaseOf(before, id)) ==> Doomed(PhaseOf(log, id))) {
        assert !PhaseOf(log, id).Broken?;
      }
      DisciplineExact(before);
      var x := e.id;
      assert PhaseOf(log, x) == Advance(PhaseOf(before, x), e);
      if Disciplined(log) {
        forall id ensures !Doomed(PhaseOf(log, id)) { assert !Doomed(PhaseOf(before, id)); }
      }
      if NoneDoomed(log) {
        forall id ensures !Doomed(PhaseOf(before, id)) { assert !Doomed(PhaseOf(log, id)); }
        assert !Doomed(PhaseOf(log, x));
        assert Disciplined(log);
      }
    }
  }

  lemma PhaseFits(s: State, id: nat)
    requires Matches(s, id)
    ensures !PhaseOf(s.log, id).Broken?
    ensures Pending(s, id) ==> id in s.saved
    ensures Doomed(PhaseOf(s.log, id)) <==> Pending(s, id) && s.saved[id] == Daemon
  {
  }

  lemma Phases(s: State)
    requires Inv(s)
    ensures NoneBroken(s.log)
    ensures NoneDoomed(s.log) <==> forall id :: Pending(s, id) ==> id in s.saved && s.saved[id].User?
  {
    forall id
      ensures !PhaseOf(s.log, id).Broken?
      ensures Pending(s, id) ==> id in s.saved
      ensures Doomed(PhaseOf(s.log, id)) <==> Pending(s, id) && s.saved[id] == Daemon
    {
      assert Matches(s, id);
      PhaseFits(s, id);
    }
    hide Inv, Pending, Doomed, PhaseOf;
  }

  // The daemon never calls itself for ever in a run whose callers set the completion function
  // again after a rejection; and in any other run some accepted request is never finished.
  lemma CompletesExactlyWhenDisciplined(maxQlen: nat, run: seq<Action>)
    requires Legal(Start(maxQlen), run)
    ensures var s := After(Start(maxQlen), run);
            && (Disciplined(s.log) ==> !s.stuck)
            && (Disciplined(s.log) <==> forall id :: Pending(s, id) ==> id in s.saved && s.saved[id].User?)
  {
    hide PhaseOf, Matches, Good, Disciplined, Doomed, InOrder, Excess, Legal, After;
    StartInv(maxQlen);
    RunKeeps(Start(maxQlen), run);
    var s := After(Start(maxQlen), run);
    Phases(s);
    DisciplineExact(s.log);
    if s.stuck { HandApart(s); }
  }

  // A request accepted with the daemon's own pointer stays unfinished whatever happens.
  lemma {:induction false} DoomedForEver(s: State, run: seq<Action>, id: nat)
    requires Inv(s) && Legal(s, run) && Doomed(PhaseOf(s.log, id))
    ensures Doomed(PhaseOf(After(s, run).log, id))
    decreases |run|
  {
    if run != [] {
      var t := Step(s, run[0]);
      StepKeeps(s, run[0]);
      DoomedStep(s, run[0], id);
      hide Inv, Step;
      DoomedForEver(t, run[1..], id);
    }
  }

  lemma DoomedStep(s: State, a: Action, id: nat)
    requires Inv(s) && Enabled(s, a) && Inv(Step(s, a)) && Doomed(PhaseOf(s.log, id))
    ensures Doomed(PhaseOf(Step(s, a).log, id))
  {
    Phases(Step(s, a));
    StepLog(s, a);
    hide Step, Inv, PhaseOf;
    DoomedEvent(s.log, Step(s, a).log, id);
  }

  // A step logs one event or none.
  lemma StepLog(s: State, a: Action)
    requires Enabled(s, a)
    ensures Step(s, a).log == s.log || exists e :: Step(s, a).log == s.log + [e]
  {
    hide Enqueued, Dequeued;
  }

  lemma DoomedEvent(log: seq<Event>, next: seq<Event>, id: nat)
    requires Doomed(PhaseOf(log, id)) && NoneBroken(next) && (next == log || exists e :: next == log + [e])
    ensures Doomed(PhaseOf(next, id))
  {
    hide PhaseOf;
    if next != log {
      var e :| next == log + [e];
      Append(log, e, id);
    }
    assert !PhaseOf(next, id).Broken?;
  }

  lemma OneMore(s: State, a: Action, run: seq<Action>)
    requires Enabled(s, a) && Legal(Step(s, a), run)
    ensures Legal(s, [a] + run) && After(s, [a] + run) == After(Step(s, a), run)
  {
    hide Step, Enabled;
    assert ([a] + run)[1..] == run;
  }

  // Submitting again after a rejection, without setting the completion function, dooms the
  // request as soon as it is accepted.
  lemma RetryDooms(s: State, id: nat, mayBacklog: bool)
    requires Inv(s) && Enabled(s, Submit(id, mayBacklog)) && PhaseOf(s.log, id) == Idle(Daemon)
    requires mayBacklog || |s.q.list| < s.q.maxQlen
    ensures Doomed(PhaseOf(Step(s, Submit(id, mayBacklog)).log, id))
  {
    EnqueueGood(s.q, id, mayBacklog);
    var (q, status, taken) := Enqueued(s.q, id, mayBacklog);
    Append(s.log, Accepted(id, status == Busy), id);
  }

  // Two callers and a queue of one: the second is rejected, waits until the queue is empty and
  // submits again.
  lemma RetryGetsStuck()
    ensures exists run :: Legal(Start(1), run) && After(Start(1), run).stuck
  {
    var s4 := State(Queue([1], None, 1, 1), map[1 := Daemon, 2 := Daemon], map[1 := User(7), 2 := User(8)], Free,
                    [Told(1, 7), Told(2, 8), Accepted(1, false), Rejected(2)], false);
    hide Legal, After, Step;
    var first := [Tell(1, 7), Tell(2, 8), Submit(1, false), Submit(2, false)];
    var more := [Take, Finish, Submit(2, false), Take, Finish];
    FullQueue(s4);
    SecondTry(s4);
    RunOn(Start(1), first, more);
    assert Legal(Start(1), first + more);
  }

  lemma {:induction false} RunOn(s: State, a: seq<Action>, b: seq<Action>)
    requires Legal(s, a) && Legal(After(s, a), b)
    ensures Legal(s, a + b) && After(s, a + b) == After(After(s, a), b)
    decreases |a|
  {
    hide Step, Enabled;
    if a == [] {
      assert a + b == b;
    } else {
      RunOn(Step(s, a[0]), a[1..], b);
      assert (a + b)[1..] == a[1..] + b;
    }
  }

  lemma FullQueue(s4: State)
    requires s4 == State(Queue([1], None, 1, 1), map[1 := Daemon, 2 := Daemon], map[1 := User(7), 2 := User(8)], Free,
                         [Told(1, 7), Told(2, 8), Accepted(1, false), Rejected(2)], false)
    ensures var run := [Tell(1, 7), Tell(2, 8), Submit(1, false), Submit(2, false)];
            Legal(Start(1), run) && After(Start(1), run) == s4
  {
    var s0 := Start(1);
    var s1 := Step(s0, Tell(1, 7));
    var s2 := Step(s1, Tell(2, 8));
    var s3 := Step(s2, Submit(1, false));
    assert s3.q == Queue([1], None, 1, 1) && s3.complete == map[1 := Daemon, 2 := User(8)];
    assert s4 == Step(s3, Submit(2, false));
    hide Step;
    OneMore(s3, Submit(2, false), []);
    OneMore(s2, Submit(1, false), [Submit(2, false)]);
    OneMore(s1, Tell(2, 8), [Submit(1, false), Submit(2, false)]);
    OneMore(s0, Tell(1, 7), [Tell(2, 8), Submit(1, false), Submit(2, false)]);
  }

  lemma SecondTry(s4: State)
    requires s4.q == Queue([1], None, 1, 1) && s4.complete == map[1 := Daemon, 2 := Daemon]
    requires s4.saved == map[1 := User(7), 2 := User(8)] && s4.hand.Free? && !s4.stuck
    ensures var run := [Take, Finish, Submit(2, false), Take, Finish];
            Legal(s4, run) && After(s4, run).stuck
  {
    var s5 := Step(s4, Take);
    var s6 := Step(s5, Finish);
    var s7 := Step(s6, Submit(2, false));
    assert s7.q.list == [2] && s7.saved[2] == Daemon;
    var s8 := Step(s7, Take);
    var s9 := Step(s8, Finish);
    assert s9.stuck;
    hide Step;
    OneMore(s8, Finish, []);
    OneMore(s7, Take, [Finish]);
    OneMore(s6, Submit(2, false), [Take, Finish]);
    OneMore(s5, Finish, [Submit(2, false), Take, Finish]);
    OneMore(s4, Take, [Finish, Submit(2, false), Take, Finish]);
  }

  // ------------------------------------------------------- draining

  lemma Deliverable(s: State)
    requires Inv(s) && NoneDoomed(s.log) && s.hand.Took?
    ensures !s.stuck && Enabled(s, if s.hand.backlog.Some? then Notify else Finish)
    ensures !Step(s, if s.hand.backlog.Some? then Notify else Finish).stuck
  {
    hide PhaseOf, Good, Excess, InOrder;
    Phases(s);
    HandApart(s);
    assert Matches(s, s.hand.req);
    if s.hand.backlog.Some? { assert Matches(s, s.hand.backlog.value); }
  }

  // What the daemon still has to do before it can sleep.
  function Work(s: State): nat { 3 * |s.q.list| + |HandReq(s.hand)| + |HandBacklog(s.hand)| }

  // The daemon's next step.
  function Turn(s: State): Action { if s.hand.Free? then Take else if s.hand.backlog.Some? then Notify else Finish }

  lemma TurnStep(s: State)
    requires Inv(s) && NoneDoomed(s.log) && !s.stuck && Work(s) > 0
    ensures Enabled(s, Turn(s)) && Work(Step(s, Turn(s))) < Work(s) && !Step(s, Turn(s)).stuck
    ensures AcceptedIds(Step(s, Turn(s)).log) == AcceptedIds(s.log) && BusyIds(Step(s, Turn(s)).log) == BusyIds(s.log)
  {
    hide PhaseOf, Excess, InOrder, AcceptedIds, BusyIds, FinishedIds, NoticedIds, Matches;
    if s.hand.Took? {
      Deliverable(s);
      var t := Step(s, Turn(s));
      AppendIds(s.log, t.log[|s.log|]);
    }
  }

  lemma NoneDoomedStep(s: State, a: Action)
    requires Inv(s) && Enabled(s, a) && !a.Submit? && NoneDoomed(s.log)
    ensures NoneDoomed(Step(s, a).log)
  {
    var t := Step(s, a);
    forall id ensures !Doomed(PhaseOf(t.log, id)) {
      assert !Doomed(PhaseOf(s.log, id));
      if t.log != s.log {
        var e := t.log[|s.log|];
        assert t.log == s.log + [e];
        Append(s.log, e, id);
      }
    }
  }

  // Left to itself, the daemon finishes everything accepted and has told everyone who waited.
  lemma {:induction false} DrainFinishesAll(s: State) returns (run: seq<Action>)
    requires Inv(s) && NoneDoomed(s.log) && !s.stuck
    ensures Legal(s, run) && forall a :: a in run ==> a.Take? || a.Notify? || a.Finish?
    ensures var t := After(s, run);
            && !t.stuck && t.q.list == [] && t.hand.Free?
            && FinishedIds(t.log) == AcceptedIds(s.log) && NoticedIds(t.log) == BusyIds(s.log)
    decreases Work(s)
  {
    hide Step, Matches, PhaseOf, Good, AcceptedIds, BusyIds, FinishedIds, NoticedIds, Splits, Excess;
    if Work(s) == 0 {
      run := [];
      assert Excess(s.q) == [] by { InExcess0(s.q); }
      SplitsPrefix(AcceptedIds(s.log), FinishedIds(s.log), HandReq(s.hand), s.q.list);
      SplitsPrefix(BusyIds(s.log), NoticedIds(s.log), HandBacklog(s.hand), Excess(s.q));
    } else {
      var a := Turn(s);
      TurnStep(s);
      StepKeeps(s, a);
      NoneDoomedStep(s, a);
      hide Inv, NoneDoomed;
      var rest := DrainFinishesAll(Step(s, a));
      run := [a] + rest;
      OneMore(s, a, rest);
    }
  }

  lemma InExcess0(q: Queue)
    requires q.list == []
    ensures Excess(q) == []
  {
  }

  // ------------------------------------------------------- completion, exactly

  predicate DaemonOnly(run: seq<Action>) { forall a :: a in run ==> a.Take? || a.Notify? || a.Finish? }

  // The daemon, left to itself, finishes every request accepted so far.
  ghost predicate CanFinishAll(s: State) {
    exists more :: Legal(s, more) && DaemonOnly(more) && FinishedIds(After(s, more).log) == AcceptedIds(s.log)
  }

  lemma {:induction false} DaemonAccepts(s: State, run: seq<Action>)
    requires Legal(s, run) && DaemonOnly(run)
    ensures AcceptedIds(After(s, run).log) == AcceptedIds(s.log)
    decreases |run|
  {
    hide AcceptedIds;
    if run != [] {
      var t := Step(s, run[0]);
      if t.log != s.log { AppendIds(s.log, t.log[|s.log|]); }
      hide Step;
      assert run[0] in run;
      DaemonAccepts(t, run[1..]);
    }
  }

  lemma PendingUnfinished(s: State, id: nat)
    requires Inv(s) && Pending(s, id)
    ensures |FinishedIds(s.log)| < |AcceptedIds(s.log)|
  {
    hide AcceptedIds, FinishedIds;
    assert AcceptedIds(s.log) == FinishedIds(s.log) + HandReq(s.hand) + s.q.list;
  }

  lemma DoomedNotFinished(s: State, id: nat, more: seq<Action>)
    requires Inv(s) && Doomed(PhaseOf(s.log, id)) && Legal(s, more) && DaemonOnly(more)
    ensures FinishedIds(After(s, more).log) != AcceptedIds(s.log)
  {
    RunKeeps(s, more);
    DoomedForEver(s, more, id);
    DaemonAccepts(s, more);
    var t := After(s, more);
    assert Matches(t, id);
    PhaseFits(t, id);
    PendingUnfinished(t, id);
  }

  // Every accepted request can still be finished by the daemon alone if and only if no caller
  // submitted a request a rejection had left with the daemon's own pointer.
  lemma FinishesExactlyWhenDisciplined(maxQlen: nat, run: seq<Action>)
    requires Legal(Start(maxQlen), run)
    ensures var s := After(Start(maxQlen), run); Disciplined(s.log) <==> CanFinishAll(s)
  {
    hide PhaseOf, Matches, Good, Disciplined, Doomed, InOrder, Excess, AcceptedIds, FinishedIds;
    StartInv(maxQlen);
    RunKeeps(Start(maxQlen), run);
    var s := After(Start(maxQlen), run);
    CompletesExactlyWhenDisciplined(maxQlen, run);
    Phases(s);
    DisciplineExact(s.log);
    hide Legal, After, Inv;
    if Disciplined(s.log) {
      var more := DrainFinishesAll(s);
      assert DaemonOnly(more);
    } else {
      var id :| Doomed(PhaseOf(s.log, id));
      forall more | Legal(s, more) && DaemonOnly(more) ensures FinishedIds(After(s, more).log) != AcceptedIds(s.log) {
        DoomedNotFinished(s, id, more);
      }
    }
  }
}
