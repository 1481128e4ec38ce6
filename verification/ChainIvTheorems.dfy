// What the chained-IV protocol guarantees over every interleaving, and exactly when.
module ChainIvTheorems {
  import opened ChainIv

  // One party at a time: a thread or the work item.  BUG_ON(!queued) has not fired, and is not
  // about to: whoever schedules the work item finds it not pending.
  ghost predicate Exclusive(s: State) {
    && (forall t, u :: OwnerAt(s, t) && OwnerAt(s, u) ==> t == u)
    && (s.m.pending ==> forall t :: !OwnerAt(s, t))
    && !s.m.bug && (forall t :: t in s.threads && s.threads[t].pc.QueueWork? ==> !s.m.pending)
  }

  lemma OneOwner(rngMayFail: bool, maxQlen: nat, steps: seq<Step>)
    requires Legal(rngMayFail, Init(maxQlen), steps)
    ensures Exclusive(Exec(rngMayFail, Init(maxQlen), steps))
  {
    hide NoLostWork, Knows, Young, Chain, Honest;
    InitInv(maxQlen);
    ExecInv(rngMayFail, Init(maxQlen), steps);
    QueueWorkOwns(Exec(rngMayFail, Init(maxQlen), steps));
    hide Owner;
  }

  lemma QueueWorkOwns(s: State)
    requires Ownership(s)
    ensures forall t :: t in s.threads && s.threads[t].pc.QueueWork? ==> !s.m.pending
  {
    forall t | t in s.threads && s.threads[t].pc.QueueWork? ensures !s.m.pending { assert OwnerAt(s, t); }
  }

  // Every use of the chain was given what the last successful use left behind, and every
  // call reported the status of its own request although ctx->err is shared.
  lemma ChainAndStatus(rngMayFail: bool, maxQlen: nat, steps: seq<Step>)
    requires Legal(rngMayFail, Init(maxQlen), steps)
    ensures var s := Exec(rngMayFail, Init(maxQlen), steps);
            && (forall k :: 0 <= k < |s.m.chain| ==> s.m.chain[k].giv == ChainEnd(s.m.seed, s.m.chain[..k]))
            && (forall k :: 0 <= k < |s.reports| ==> s.reports[k].0 == s.reports[k].1)
  {
    hide Owner, NoLostWork, Knows, Young, Ownership;
    InitInv(maxQlen);
    ExecInv(rngMayFail, Init(maxQlen), steps);
  }

  // With nobody inside, postponed requests have a work item coming for them, and without one
  // the generator is idle, as async_chainiv_exit demands.
  ghost predicate NothingLost(s: State) {
    s.threads == map[] ==> s.m.inuse == s.m.pending && (s.m.queue != [] ==> s.m.pending)
  }

  lemma {:induction false} FailureNeedsLeave(s: State, steps: seq<Step>)
    requires !s.m.rngFailed && Legal(false, s, steps)
    ensures !Exec(false, s, steps).m.rngFailed
    decreases |steps|
  {
    if steps != [] {
      FailureStep(s, steps[0]);
      FailureNeedsLeave(Apply(false, s, steps[0]), steps[1..]);
    }
  }

  lemma FailureStep(s: State, step: Step)
    requires !s.m.rngFailed && Enabled(false, s, step)
    ensures !Apply(false, s, step).m.rngFailed
  {
  }

  lemma QuietKeepsWork(maxQlen: nat, steps: seq<Step>)
    requires Legal(false, Init(maxQlen), steps)
    ensures NothingLost(Exec(false, Init(maxQlen), steps))
  {
    hide Owner, Knows, Young, Chain, Honest, Apply;
    InitInv(maxQlen);
    ExecInv(false, Init(maxQlen), steps);
    FailureNeedsLeave(Init(maxQlen), steps);
  }

  // ------------------------------------------------------- the failing generator

  lemma {:induction false} LegalSnoc(c: bool, s: State, steps: seq<Step>, step: Step)
    requires Legal(c, s, steps) && Enabled(c, Exec(c, s, steps), step)
    ensures Legal(c, s, steps + [step]) && Exec(c, s, steps + [step]) == Apply(c, Exec(c, s, steps), step)
    decreases |steps|
  {
    if steps == [] {
      assert (steps + [step])[1..] == [];
    } else {
      LegalSnoc(c, Apply(c, s, steps[0]), steps[1..], step);
      assert (steps + [step])[1..] == steps[1..] + [step];
    }
  }

  lemma Then(c: bool, s0: State, steps: seq<Step>, s: State, step: Step) returns (more: seq<Step>, t: State)
    requires Legal(c, s0, steps) && Exec(c, s0, steps) == s && Enabled(c, s, step)
    ensures Legal(c, s0, more) && Exec(c, s0, more) == t && t == Apply(c, s, step)
  {
    LegalSnoc(c, s0, steps, step);
    more := steps + [step];
    t := Apply(c, s, step);
  }

  // The first caller has switched the function pointer and is about to seed the chain.
  function Seeding(maxQlen: nat): State {
    Solo(Init(maxQlen).m.(inuse := true, switched := true), 1, Thread(FirstSeed, Request(0, true), 0), [])
  }

  lemma ReachSeeding(maxQlen: nat) returns (steps: seq<Step>)
    ensures Legal(true, Init(maxQlen), steps) && Exec(true, Init(maxQlen), steps) == Seeding(maxQlen)
  {
    hide Legal, Exec, EnterStep, TailStep, ScheduleStep;
    var s0 := Init(maxQlen);
    var s, th := s0, Thread(First, Request(0, true), 0);
    EmptyRun(true, s0);
    steps, s := Then(true, s0, [], s, Call(1, th.rq));
    assert s == Solo(s0.m, 1, th, []);
    steps := Alone(s0, steps, s0.m, 1, th, [], Outcome(0, 0));
    steps := Alone(s0, steps, s0.m.(inuse := true), 1, th.(pc := FirstCheck), [], Outcome(0, 0));
  }

  // A second caller meanwhile finds the bit set and queues its request.
  lemma QueueMeanwhile(maxQlen: nat, steps: seq<Step>) returns (more: seq<Step>, rep: seq<(int, int)>)
    requires Legal(true, Init(maxQlen), steps) && Exec(true, Init(maxQlen), steps) == Seeding(maxQlen)
    ensures Legal(true, Init(maxQlen), more)
    ensures var s := Seeding(maxQlen);
            Exec(true, Init(maxQlen), more) == s.(m := s.m.(queue := [Request(0, true)]), reports := rep)
  {
    hide Legal, Exec, FirstStep, TailStep, ScheduleStep;
    var s0 := Init(maxQlen);
    var s, ok, first := Seeding(maxQlen), Outcome(0, 0), Seeding(maxQlen).threads;
    more, s := Then(true, s0, steps, s, Call(2, Request(0, true)));
    more, s := Then(true, s0, more, s, Run(2, ok));
    assert s.threads[2].pc == Postpone && s.m.inuse && s.m.queue == [];
    more, s := Then(true, s0, more, s, Run(2, ok));
    assert s.threads[2].pc.Postponed? && s.m == Seeding(maxQlen).m.(queue := [Request(0, true)]);
    assert s.threads - {2} == first;
    more, s := Then(true, s0, more, s, Run(2, ok));
    rep := s.reports;
  }

  // Then the generator fails, and the first caller clears the bit without looking at the queue.
  lemma FailedSeedLosesWork(maxQlen: nat) returns (steps: seq<Step>)
    ensures Legal(true, Init(maxQlen), steps) && !NothingLost(Exec(true, Init(maxQlen), steps))
  {
    hide Legal, Exec, EnterStep, TailStep, ScheduleStep;
    var rep;
    steps := ReachSeeding(maxQlen);
    steps, rep := QueueMeanwhile(maxQlen, steps);
    var s0, s, fails := Init(maxQlen), Seeding(maxQlen), Outcome(-5, 0);
    var m, th := s.m.(queue := [Request(0, true)]), s.threads[1];
    steps := Alone(s0, steps, m, 1, th, rep, fails);
    m, th := m.(rngFailed := true), th.(pc := FirstUnlock(-5), own := -5);
    steps := Alone(s0, steps, m, 1, th, rep, fails);
  }

  lemma EmptyRun(c: bool, s: State)
    ensures Legal(c, s, []) && Exec(c, s, []) == s
  {
  }

  lemma NothingLostExactlyWhenSeeded(rngMayFail: bool, maxQlen: nat)
    ensures (forall steps :: Legal(rngMayFail, Init(maxQlen), steps) ==> NothingLost(Exec(rngMayFail, Init(maxQlen), steps)))
            <==> !rngMayFail
  {
    hide NothingLost, Legal, Exec;
    if rngMayFail {
      var steps := FailedSeedLosesWork(maxQlen);
    } else {
      forall steps | Legal(false, Init(maxQlen), steps) ensures NothingLost(Exec(false, Init(maxQlen), steps)) {
        QuietKeepsWork(maxQlen, steps);
      }
    }
  }

  // ------------------------------------------------------- the work item catches up

  function Solo(m: Memory, t: nat, th: Thread, reports: seq<(int, int)>): State {
    State(m, map[t := th], reports)
  }

  // One step of the only thread.
  lemma Alone(s0: State, steps: seq<Step>, m: Memory, t: nat, th: Thread, rep: seq<(int, int)>, o: Outcome)
      returns (more: seq<Step>)
    requires Legal(true, s0, steps) && Exec(true, s0, steps) == Solo(m, t, th, rep)
    ensures Legal(true, s0, more)
    ensures var move := ThreadStep(m, th, o);
            Exec(true, s0, more) == match move.next
                                    case Goto(u) => Solo(move.m, t, u, rep)
                                    case Return(ret) => State(move.m, map[], rep + [(th.own, ret)])
  {
    hide ThreadStep;
    var s := Solo(m, t, th, rep);
    var u;
    more, u := Then(true, s0, steps, s, Run(t, o));
    assert s.threads - {t} == map[];
    forall v: Thread ensures s.threads[t := v] == map[t := v] {}
  }

  // What one run of the work item makes of shared memory when it runs alone.
  function Served(m: Memory, o: Outcome): Memory
    requires m.queue != []
  {
    var more := m.queue[1..] != [];
    m.(queue := m.queue[1..], err := o.err, pending := more, inuse := more,
       iv := if o.err == 0 then o.bytes else m.iv,
       chain := m.chain + [Link(m.queue[0].id, m.iv, o.bytes, o.err == 0)])
  }

  // The work item serves the request at the head of the queue, and comes again exactly if
  // there is another.
  lemma WorkItemServes(s0: State, steps: seq<Step>, s: State, o: Outcome) returns (more: seq<Step>, u: State)
    requires Legal(true, s0, steps) && Exec(true, s0, steps) == s
    requires s.threads == map[] && s.m.pending && s.m.inuse && !s.m.bug && s.m.queue != []
    ensures Legal(true, s0, more) && Exec(true, s0, more) == u && u.threads == map[] && u.m == Served(s.m, o)
  {
    hide Legal, Exec, FirstStep, EnterStep;
    var t, rep, m := 0, s.reports, s.m.(pending := false);
    more, u := Then(true, s0, steps, s, WorkBegins(t));
    var th := Thread(WorkTake, Request(0, true), 0);
    assert s.threads[t := th] == map[t := th];
    more := Alone(s0, more, m, t, th, rep, o);
    m, th := m.(queue := m.queue[1..]), th.(pc := Tail, rq := m.queue[0]);
    more := Alone(s0, more, m, t, th, rep, o);
    th := th.(pc := Encrypt(m.iv));
    more := Alone(s0, more, m, t, th, rep, o);
    more, th, m := AfterCipher(s0, more, m, t, th, rep, o);
    more, u := Hands(s0, more, m, t, th, rep);
  }

  // async_chainiv_schedule_work when nobody else is about.
  lemma Hands(s0: State, steps: seq<Step>, m0: Memory, t: nat, th0: Thread, rep: seq<(int, int)>)
      returns (more: seq<Step>, u: State)
    requires Legal(true, s0, steps) && Exec(true, s0, steps) == Solo(m0, t, th0, rep) && th0.pc == Schedule
    requires m0.inuse && !m0.pending && !m0.bug
    ensures Legal(true, s0, more) && Exec(true, s0, more) == u && u.threads == map[]
    ensures u.m == m0.(pending := m0.queue != [], inuse := m0.queue != []) && u.reports == rep + [(th0.own, m0.err)]
  {
    hide Legal, Exec, FirstStep, EnterStep, TailStep;
    var m, th, o := m0, th0, Outcome(0, 0);
    more := Alone(s0, steps, m, t, th, rep, o);
    th := th.(pc := TestEmpty(m.err));
    more := Alone(s0, more, m, t, th, rep, o);
    if m.queue == [] {
      th := th.(pc := Release(m.err));
      more := Alone(s0, more, m, t, th, rep, o);
      m, th := m.(inuse := false), th.(pc := Recheck(m.err));
    } else {
      th := th.(pc := QueueWork(m.err));
    }
    more := Alone(s0, more, m, t, th, rep, o);
    u := Exec(true, s0, more);
  }

  lemma AfterCipher(s0: State, steps: seq<Step>, m0: Memory, t: nat, th0: Thread, rep: seq<(int, int)>, o: Outcome)
      returns (more: seq<Step>, th: Thread, m: Memory)
    requires th0.pc == Encrypt(m0.iv)
    requires Legal(true, s0, steps)
    requires var move := ThreadStep(m0, th0, o); move.next.Goto? && Exec(true, s0, steps) == Solo(move.m, t, move.next.th, rep)
    ensures Legal(true, s0, more) && Exec(true, s0, more) == Solo(m, t, th, rep) && th.pc == Schedule && th.own == o.err
    ensures m == m0.(err := o.err, iv := if o.err == 0 then o.bytes else m0.iv,
                     chain := m0.chain + [Link(th0.rq.id, m0.iv, o.bytes, o.err == 0)])
  {
    hide Legal, Exec;
    var move := ThreadStep(m0, th0, o);
    m, th, more := move.m, move.next.th, steps;
    if o.err == 0 {
      more := Alone(s0, more, m, t, th, rep, o);
      m, th := m.(iv := o.bytes, chain := m.chain + [Link(th.rq.id, m0.iv, o.bytes, true)]), th.(pc := Schedule);
    }
  }

  // The uses of the chain when the queue is served in order from the given IV.
  ghost function Uses(queue: seq<Request>, outcomes: seq<Outcome>, iv: nat): seq<Link>
    requires |queue| == |outcomes|
    decreases |queue|
  {
    if queue == [] then []
    else
      var o := outcomes[0];
      [Link(queue[0].id, iv, o.bytes, o.err == 0)]
      + Uses(queue[1..], outcomes[1..], if o.err == 0 then o.bytes else iv)
  }

  // Left alone, the work item serves every postponed request, in the order they were
  // postponed, and leaves the generator idle.
  lemma {:induction false} WorkDrains(s0: State, steps: seq<Step>, s: State, outcomes: seq<Outcome>)
      returns (more: seq<Step>, u: State)
    requires Legal(true, s0, steps) && Exec(true, s0, steps) == s
    requires s.threads == map[] && !s.m.bug && s.m.inuse == s.m.pending && (s.m.queue != [] ==> s.m.pending)
    requires |outcomes| == |s.m.queue|
    ensures Legal(true, s0, more) && Exec(true, s0, more) == u && u.threads == map[] && u.m.queue == []
    ensures u.m.chain == s.m.chain + Uses(s.m.queue, outcomes, s.m.iv)
    ensures (s.m.pending ==> s.m.queue != []) ==> !u.m.inuse && !u.m.pending
    decreases |s.m.queue|
  {
    hide Legal, Exec;
    more, u := steps, s;
    if s.m.queue != [] {
      more, u := WorkItemServes(s0, steps, s, outcomes[0]);
      var chain := u.m.chain;
      more, u := WorkDrains(s0, more, u, outcomes[1..]);
      assert u.m.chain == s.m.chain + Uses(s.m.queue, outcomes, s.m.iv);
    }
  }

  lemma {:induction false} LegalMore(s: State, steps: seq<Step>)
    requires Legal(false, s, steps)
    ensures Legal(true, s, steps) && Exec(true, s, steps) == Exec(false, s, steps)
    decreases |steps|
  {
    if steps != [] { LegalMore(Apply(false, s, steps[0]), steps[1..]); }
  }

  // From any quiet moment of any run whose generator was seeded, every postponed request
  // can still be served, each with the IV its predecessor left.
  lemma PostponedAreServed(maxQlen: nat, steps: seq<Step>, outcomes: seq<Outcome>) returns (more: seq<Step>)
    requires Legal(false, Init(maxQlen), steps)
    requires var s := Exec(false, Init(maxQlen), steps); s.threads == map[] && |outcomes| == |s.m.queue|
    ensures Legal(true, Init(maxQlen), more)
    ensures var s, u := Exec(false, Init(maxQlen), steps), Exec(true, Init(maxQlen), more);
            u.m.queue == [] && u.threads == map[] && u.m.chain == s.m.chain + Uses(s.m.queue, outcomes, s.m.iv)
  {
    hide Legal, Exec;
    QuietKeepsWork(maxQlen, steps);
    OneOwner(false, maxQlen, steps);
    LegalMore(Init(maxQlen), steps);
    var u;
    more, u := WorkDrains(Init(maxQlen), steps, Exec(false, Init(maxQlen), steps), outcomes);
  }
}
