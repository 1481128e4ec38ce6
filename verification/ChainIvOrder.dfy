// In which order requests use the chained IV, what a caller is told, and that a call on an
// idle generator is served at once.
module ChainIvOrder {
  import opened ChainIv
  import opened ChainIvTheorems

  function LinkIds(chain: seq<Link>): seq<nat> { seq(|chain|, i requires 0 <= i < |chain| => chain[i].id) }

  function Ids(queue: seq<Request>): seq<nat> { seq(|queue|, i requires 0 <= i < |queue| => queue[i].id) }

  // From the copy of the IV to its replacement.
  predicate Using(th: Thread) { th.pc.Tail? || th.pc.Encrypt? || th.pc.WriteBack? }

  ghost predicate UsingAt(s: State, t: nat) { t in s.threads && Using(s.threads[t]) }

  // The request that uses the chain just now, if there is one.
  ghost predicate InHand(s: State, r: seq<nat>) {
    if r == [] then forall t :: !UsingAt(s, t)
    else |r| == 1 && exists t :: UsingAt(s, t) && s.threads[t].rq.id == r[0]
  }

  // A request arrives when it is queued, for which there must be room or it may wait beyond
  // the limit, or when its caller goes straight on to the cipher.
  function Arrived(rngMayFail: bool, s: State, step: Step): seq<nat>
    requires Enabled(rngMayFail, s, step)
  {
    if !step.Run? then []
    else
      var th, after := s.threads[step.t], Apply(rngMayFail, s, step).threads;
      if th.pc.Postpone? then (if |s.m.queue| < s.m.maxQlen || th.rq.mayBacklog then [th.rq.id] else [])
      else if !th.pc.WorkTake? && !Using(th) && step.t in after && Using(after[step.t]) then [th.rq.id]
      else []
  }

  ghost function Arrivals(rngMayFail: bool, s: State, steps: seq<Step>): seq<nat>
    requires Legal(rngMayFail, s, steps)
    decreases |steps|
  {
    if steps == [] then []
    else Arrived(rngMayFail, s, steps[0]) + Arrivals(rngMayFail, Apply(rngMayFail, s, steps[0]), steps[1..])
  }

  // What has used the chain, what uses it now, and what waits.
  function Line(s: State, r: seq<nat>): seq<nat> { LinkIds(s.m.chain) + r + Ids(s.m.queue) }

  lemma JoinOrder(rngMayFail: bool, s: State, step: Step, r: seq<nat>)
    requires Inv(s) && Enabled(rngMayFail, s, step) && !step.Run? && InHand(s, r)
    ensures InHand(Apply(rngMayFail, s, step), r)
    ensures Line(Apply(rngMayFail, s, step), r) == Line(s, r) + Arrived(rngMayFail, s, step)
  {
    hide Inv;
    var u := Apply(rngMayFail, s, step);
    forall t ensures UsingAt(u, t) == UsingAt(s, t) {}
    if r != [] {
      var t :| UsingAt(s, t) && s.threads[t].rq.id == r[0];
      assert UsingAt(u, t) && u.threads[t].rq.id == r[0];
    }
  }

  // What one access does to the line, told from the thread alone.
  function Taken(th: Thread, r: seq<nat>, move: Move): seq<nat> {
    if move.next.Goto? && Using(move.next.th) then [move.next.th.rq.id] else if Using(th) then [] else r
  }

  // What the access of a thread adds to the arrivals.
  function Gained(m: Memory, th: Thread, move: Move): seq<nat> {
    if th.pc.Postpone? then (if |m.queue| < m.maxQlen || th.rq.mayBacklog then [th.rq.id] else [])
    else if !th.pc.WorkTake? && !Using(th) && move.next.Goto? && Using(move.next.th) then [th.rq.id]
    else []
  }

  ghost predicate KeepsLine(m: Memory, th: Thread, r: seq<nat>, move: Move) {
    LinkIds(move.m.chain) + Taken(th, r, move) + Ids(move.m.queue)
    == LinkIds(m.chain) + r + Ids(m.queue) + Gained(m, th, move)
  }

  lemma UseFrame(m: Memory, th: Thread, o: Outcome)
    requires Using(th)
    ensures var move := TailStep(m, th, o);
            && move.m.queue == m.queue && move.next.Goto? && move.next.th.rq == th.rq
            && (if Using(move.next.th) then move.m.chain == m.chain
                else && |move.m.chain| == |m.chain| + 1 && move.m.chain[..|m.chain|] == m.chain
                     && move.m.chain[|m.chain|].id == th.rq.id)
  {
  }

  lemma UseOrder(m: Memory, th: Thread, o: Outcome, r: seq<nat>)
    requires Using(th) && r == [th.rq.id]
    ensures KeepsLine(m, th, r, TailStep(m, th, o))
  {
    UseFrame(m, th, o);
    var move := TailStep(m, th, o);
    hide TailStep;
    if !Using(move.next.th) { assert LinkIds(move.m.chain) == LinkIds(m.chain) + [th.rq.id]; }
    hide LinkIds, Ids;
  }

  lemma TakeOrder(m: Memory, th: Thread)
    requires th.pc.WorkTake?
    ensures KeepsLine(m, th, [], ScheduleStep(m, th))
  {
    if m.queue != [] { assert Ids(m.queue) == [m.queue[0].id] + Ids(m.queue[1..]); }
  }

  lemma PostponeOrder(m: Memory, th: Thread, r: seq<nat>)
    requires th.pc.Postpone?
    ensures KeepsLine(m, th, r, EnterStep(m, th))
  {
    var n := EnterStep(m, th).m;
    if n.queue != m.queue { assert Ids(n.queue) == Ids(m.queue) + [th.rq.id]; }
  }

  // A caller goes straight on only past an empty queue.
  lemma CheckOrder(m: Memory, th: Thread)
    requires th.pc.CheckQueue?
    ensures KeepsLine(m, th, [], EnterStep(m, th))
  {
    assert Ids([]) == [];
  }

  lemma OtherFrame(m: Memory, th: Thread, o: Outcome)
    requires !Using(th) && !th.pc.WorkTake? && !th.pc.Postpone? && !th.pc.CheckQueue?
    ensures var move := ThreadStep(m, th, o);
            move.m.chain == m.chain && move.m.queue == m.queue && !(move.next.Goto? && Using(move.next.th))
  {
    if th.pc.First? || th.pc.FirstCheck? || th.pc.FirstSeed? || th.pc.FirstUnlock? {
      hide EnterStep, TailStep, ScheduleStep, Enqueue;
    } else if th.pc.Enter? || th.pc.GiveUp? || th.pc.Postponed? || th.pc.SetErr? {
      hide FirstStep, TailStep, ScheduleStep, Enqueue;
    } else {
      hide FirstStep, EnterStep, TailStep, Enqueue;
    }
  }

  lemma OtherOrder(m: Memory, th: Thread, o: Outcome, r: seq<nat>)
    requires !Using(th) && !th.pc.WorkTake? && !th.pc.Postpone? && !th.pc.CheckQueue?
    ensures KeepsLine(m, th, r, ThreadStep(m, th, o))
  {
    OtherFrame(m, th, o);
    hide ThreadStep, LinkIds, Ids;
  }

  lemma MoveOrder(m: Memory, th: Thread, o: Outcome, r: seq<nat>)
    requires Using(th) ==> r == [th.rq.id]
    requires Owner(th) && !Using(th) ==> r == []
    ensures KeepsLine(m, th, r, ThreadStep(m, th, o))
  {
    hide FirstStep, EnterStep, TailStep, ScheduleStep, KeepsLine;
    if Using(th) { UseOrder(m, th, o, r); }
    else if th.pc.WorkTake? { TakeOrder(m, th); }
    else if th.pc.Postpone? { PostponeOrder(m, th, r); }
    else if th.pc.CheckQueue? { CheckOrder(m, th); }
    else { OtherOrder(m, th, o, r); }
  }

  lemma OwnHand(s: State, t: nat, r: seq<nat>)
    requires Ownership(s) && t in s.threads && InHand(s, r)
    ensures Using(s.threads[t]) ==> r == [s.threads[t].rq.id]
    ensures Owner(s.threads[t]) && !Using(s.threads[t]) ==> r == []
    ensures Owner(s.threads[t]) ==> forall i :: UsingAt(s, i) ==> i == t
    ensures Using(s.threads[t]) ==> Owner(s.threads[t])
  {
    forall i | UsingAt(s, i) ensures OwnerAt(s, i) {}
    assert Owner(s.threads[t]) ==> OwnerAt(s, t);
    assert UsingAt(s, t) == Using(s.threads[t]);
    if r != [] { var i :| UsingAt(s, i) && s.threads[i].rq.id == r[0]; }
  }

  lemma SettleHand(s: State, t: nat, move: Move, r: seq<nat>)
    requires Ownership(s) && t in s.threads && InHand(s, r)
    requires move.next.Goto? && Using(move.next.th) ==> Owner(s.threads[t])
    ensures InHand(Settle(s, t, move), Taken(s.threads[t], r, move))
  {
    OwnHand(s, t, r);
    hide Owner;
    var u := Settle(s, t, move);
    assert UsingAt(s, t) == Using(s.threads[t]);
    forall i | i != t ensures UsingAt(u, i) == UsingAt(s, i) {}
    assert UsingAt(u, t) == (move.next.Goto? && Using(move.next.th));
    if r != [] {
      var i :| UsingAt(s, i) && s.threads[i].rq.id == r[0];
      if i != t { assert UsingAt(u, i) && u.threads[i].rq.id == r[0]; }
    }
  }

  lemma OnlyOwnersUse(m: Memory, th: Thread, o: Outcome)
    ensures var move := ThreadStep(m, th, o); move.next.Goto? && Using(move.next.th) ==> Owner(th)
  {
  }

  lemma StepOrder(rngMayFail: bool, s: State, step: Step, r: seq<nat>) returns (r2: seq<nat>)
    requires Inv(s) && Enabled(rngMayFail, s, step) && InHand(s, r)
    ensures var u := Apply(rngMayFail, s, step);
            InHand(u, r2) && Line(u, r2) == Line(s, r) + Arrived(rngMayFail, s, step)
  {
    hide InHand, ThreadStep, Knows, Young, NoLostWork, Chain, Honest;
    if step.Run? {
      var th := s.threads[step.t];
      var move := ThreadStep(s.m, th, step.outcome);
      OwnHand(s, step.t, r);
      OnlyOwnersUse(s.m, th, step.outcome);
      MoveOrder(s.m, th, step.outcome, r);
      SettleHand(s, step.t, move, r);
      r2 := Taken(th, r, move);
    } else {
      JoinOrder(rngMayFail, s, step, r);
      r2 := r;
    }
  }

  lemma {:induction false} RunOrder(rngMayFail: bool, s: State, steps: seq<Step>, r: seq<nat>) returns (r2: seq<nat>)
    requires Inv(s) && Legal(rngMayFail, s, steps) && InHand(s, r)
    ensures var u := Exec(rngMayFail, s, steps);
            InHand(u, r2) && Line(u, r2) == Line(s, r) + Arrivals(rngMayFail, s, steps)
    decreases |steps|
  {
    hide InHand, Inv, Apply, Arrived, Line;
    if steps == [] {
      r2 := r;
      assert Line(s, r) + [] == Line(s, r);
    } else {
      var u := Apply(rngMayFail, s, steps[0]);
      StepInv(rngMayFail, s, steps[0]);
      r2 := StepOrder(rngMayFail, s, steps[0], r);
      r2 := RunOrder(rngMayFail, u, steps[1..], r2);
      assert Line(s, r) + Arrived(rngMayFail, s, steps[0]) + Arrivals(rngMayFail, u, steps[1..])
          == Line(s, r) + Arrivals(rngMayFail, s, steps);
    }
  }

  // In every interleaving the requests use the chained IV in the order in which they arrived,
  // whether they were postponed or not: those that have used it, the one that uses it now, and
  // those that wait are together the arrivals.
  lemma ServedInOrder(rngMayFail: bool, maxQlen: nat, steps: seq<Step>) returns (r: seq<nat>)
    requires Legal(rngMayFail, Init(maxQlen), steps)
    ensures var s := Exec(rngMayFail, Init(maxQlen), steps);
            InHand(s, r) && LinkIds(s.m.chain) + r + Ids(s.m.queue) == Arrivals(rngMayFail, Init(maxQlen), steps)
  {
    InitInv(maxQlen);
    r := RunOrder(rngMayFail, Init(maxQlen), steps, []);
    assert Line(Init(maxQlen), []) == [];
  }

  // A postponed caller is told -EINPROGRESS exactly when fewer than maxQlen waited, -EBUSY
  // otherwise, and its request is queued exactly then or when it may wait beyond the limit.
  lemma PostponeTells(rngMayFail: bool, maxQlen: nat, steps: seq<Step>, t: nat, o: Outcome)
    requires Legal(rngMayFail, Init(maxQlen), steps)
    requires var s := Exec(rngMayFail, Init(maxQlen), steps); t in s.threads && s.threads[t].pc.Postpone?
    ensures var s := Exec(rngMayFail, Init(maxQlen), steps); var u := Apply(rngMayFail, s, Run(t, o));
            && t in u.threads && u.threads[t].own == (if |s.m.queue| < maxQlen then -115 else -16)
            && u.m.queue == s.m.queue
                            + if |s.m.queue| < maxQlen || s.threads[t].rq.mayBacklog then [s.threads[t].rq] else []
  {
    LimitKept(rngMayFail, Init(maxQlen), steps);
  }

  lemma {:induction false} LimitKept(rngMayFail: bool, s: State, steps: seq<Step>)
    requires Legal(rngMayFail, s, steps)
    ensures Exec(rngMayFail, s, steps).m.maxQlen == s.m.maxQlen
    decreases |steps|
  {
    if steps != [] {
      LimitStep(rngMayFail, s, steps[0]);
      LimitKept(rngMayFail, Apply(rngMayFail, s, steps[0]), steps[1..]);
    }
  }

  lemma LimitStep(rngMayFail: bool, s: State, step: Step)
    requires Enabled(rngMayFail, s, step)
    ensures Apply(rngMayFail, s, step).m.maxQlen == s.m.maxQlen
  {
    if step.Run? { LimitMove(s.m, s.threads[step.t], step.outcome); }
    hide ThreadStep;
  }

  lemma LimitMove(m: Memory, th: Thread, o: Outcome)
    ensures ThreadStep(m, th, o).m.maxQlen == m.maxQlen
  {
    if th.pc.First? || th.pc.FirstCheck? || th.pc.FirstSeed? || th.pc.FirstUnlock? {
      hide EnterStep, TailStep, ScheduleStep, Enqueue;
    } else if th.pc.Enter? || th.pc.CheckQueue? || th.pc.GiveUp? || th.pc.Postpone? || th.pc.Postponed? || th.pc.SetErr? {
      hide FirstStep, TailStep, ScheduleStep;
    } else if Using(th) {
      hide FirstStep, EnterStep, ScheduleStep, Enqueue;
    } else {
      hide FirstStep, EnterStep, TailStep, Enqueue;
    }
  }

  // ------------------------------------------------------- an idle generator

  ghost predicate Idle(s: State) { s.threads == map[] && !s.m.inuse && !s.m.pending && !s.m.bug && s.m.queue == [] }

  // Shared memory once a request has used the chain with nobody else about.
  function Used(m: Memory, id: nat, o: Outcome): Memory {
    m.(err := o.err, iv := if o.err == 0 then o.bytes else m.iv,
       chain := m.chain + [Link(id, m.iv, o.bytes, o.err == 0)])
  }

  // async_chainiv_givencrypt on an idle generator.
  lemma Straight(s0: State, steps: seq<Step>, m0: Memory, t: nat, th0: Thread, rep: seq<(int, int)>, o: Outcome)
      returns (more: seq<Step>, u: State)
    requires Legal(true, s0, steps) && Exec(true, s0, steps) == Solo(m0, t, th0, rep) && th0.pc == Enter
    requires !m0.inuse && !m0.pending && !m0.bug && m0.queue == []
    ensures Legal(true, s0, more) && Exec(true, s0, more) == u && Idle(u) && u.m == Used(m0, th0.rq.id, o)
    ensures u.reports == rep + [(o.err, o.err)]
  {
    hide Legal, Exec, FirstStep, ScheduleStep;
    var m, th := m0, th0;
    more := Alone(s0, steps, m, t, th, rep, o);
    m, th := m.(inuse := true), th.(pc := CheckQueue);
    more := Alone(s0, more, m, t, th, rep, o);
    th := th.(pc := Tail);
    more := Alone(s0, more, m, t, th, rep, o);
    th := th.(pc := Encrypt(m.iv));
    more := Alone(s0, more, m, t, th, rep, o);
    more, th, m := AfterCipher(s0, more, m, t, th, rep, o);
    more, u := Hands(s0, more, m, t, th, rep);
  }

  // The first call seeds the chain before it goes on.
  lemma Seeded(s0: State, steps: seq<Step>, m0: Memory, t: nat, th0: Thread, rep: seq<(int, int)>, seed: nat)
      returns (more: seq<Step>)
    requires Legal(true, s0, steps) && Exec(true, s0, steps) == Solo(m0, t, th0, rep) && th0.pc == First
    requires !m0.inuse && !m0.switched
    ensures Legal(true, s0, more)
    ensures Exec(true, s0, more) == Solo(m0.(switched := true, iv := seed, seed := seed), t, th0.(pc := Enter), rep)
  {
    hide Legal, Exec, EnterStep, TailStep, ScheduleStep;
    var m, th, o := m0, th0, Outcome(0, seed);
    more := Alone(s0, steps, m, t, th, rep, o);
    m, th := m.(inuse := true), th.(pc := FirstCheck);
    more := Alone(s0, more, m, t, th, rep, o);
    m, th := m.(switched := true), th.(pc := FirstSeed);
    more := Alone(s0, more, m, t, th, rep, o);
    m, th := m.(iv := seed, seed := seed), th.(pc := FirstUnlock(0));
    more := Alone(s0, more, m, t, th, rep, o);
  }

  // A call that finds the generator idle is served before it returns: it uses the IV the chain
  // has arrived at, or a fresh seed if it is the first, reports the status of the cipher, and
  // leaves the generator idle.
  lemma IdleCallServed(s0: State, steps: seq<Step>, s: State, rq: Request, seed: nat, o: Outcome)
      returns (more: seq<Step>, u: State)
    requires Legal(true, s0, steps) && Exec(true, s0, steps) == s && Idle(s)
    ensures Legal(true, s0, more) && Exec(true, s0, more) == u && Idle(u)
    ensures u.m == Used(if s.m.switched then s.m else s.m.(switched := true, iv := seed, seed := seed), rq.id, o)
    ensures u.reports == s.reports + [(o.err, o.err)]
  {
    hide Legal, Exec, FirstStep, EnterStep, TailStep, ScheduleStep;
    var th := Thread(if s.m.switched then Enter else First, rq, 0);
    more, u := Then(true, s0, steps, s, Call(0, rq));
    assert s.threads[0 := th] == map[0 := th];
    if s.m.switched {
      more, u := Straight(s0, more, s.m, 0, th, s.reports, o);
    } else {
      more := Seeded(s0, more, s.m, 0, th, s.reports, seed);
      more, u := Straight(s0, more, s.m.(switched := true, iv := seed, seed := seed), 0, th.(pc := Enter), s.reports, o);
    }
  }

  // ------------------------------------------------------- nobody waits

  // How many accesses a thread can still make before it returns.
  function StepsLeft(pc: Pc): nat {
    match pc
    case First => 18
    case FirstCheck => 17
    case FirstSeed => 16
    case FirstUnlock(_) => 15
    case Enter => 14
    case CheckQueue => 13
    case GiveUp => 12
    case Postpone => 11
    case Postponed(_) => 10
    case SetErr(_) => 9
    case WorkTake => 10
    case Tail => 9
    case Encrypt(_) => 8
    case WriteBack(_, _) => 7
    case Schedule => 6
    case TestEmpty(_) => 5
    case Release(_) => 4
    case Recheck(_) => 3
    case Retake(_) => 2
    case QueueWork(_) => 1
  }

  lemma EveryAccessCounts(m: Memory, th: Thread, o: Outcome)
    ensures var move := ThreadStep(m, th, o); move.next.Goto? ==> StepsLeft(move.next.th.pc) < StepsLeft(th.pc)
  {
  }

  // The accesses of one thread in a run.
  function Accesses(steps: seq<Step>, t: nat): nat {
    if steps == [] then 0 else (if steps[0].Run? && steps[0].t == t then 1 else 0) + Accesses(steps[1..], t)
  }

  // No thread ever waits for another: in every interleaving, from any state at all, a call or a
  // run of the work item is over after at most 18 accesses of its own.
  lemma {:induction false} NobodyWaits(rngMayFail: bool, s: State, steps: seq<Step>, t: nat) returns (k: nat)
    requires Legal(rngMayFail, s, steps) && t in s.threads && Accesses(steps, t) >= StepsLeft(s.threads[t].pc)
    ensures k <= |steps| && Legal(rngMayFail, s, steps[..k]) && t !in Exec(rngMayFail, s, steps[..k]).threads
    decreases |steps|
  {
    hide StepsLeft;
    NeedsOne(s.threads[t].pc);
    assert steps != [];
    var u := Apply(rngMayFail, s, steps[0]);
    StepAccess(rngMayFail, s, steps[0], t);
    hide Apply, ThreadStep;
    if t in u.threads {
      var j := NobodyWaits(rngMayFail, u, steps[1..], t);
      k := j + 1;
      assert steps[..k][1..] == steps[1..][..j];
    } else {
      k := 1;
      assert steps[..1][1..] == [];
    }
  }

  lemma NeedsOne(pc: Pc)
    ensures 0 < StepsLeft(pc) <= 18
  {
  }

  lemma StepAccess(rngMayFail: bool, s: State, step: Step, t: nat)
    requires Enabled(rngMayFail, s, step) && t in s.threads
    ensures var u := Apply(rngMayFail, s, step);
            t in u.threads ==>
              StepsLeft(u.threads[t].pc) + (if step.Run? && step.t == t then 1 else 0) <= StepsLeft(s.threads[t].pc)
  {
    if step.Run? && step.t == t { EveryAccessCounts(s.m, s.threads[t], step.outcome); }
    hide ThreadStep, StepsLeft;
  }
}
