// The asynchronous chain-IV generator (crypto/chainiv.c): an ownership bit, a bounded queue
// and a work item, shared by any number of threads.  Every step below is one access to
// shared memory (or one locked section); the steps of all threads interleave freely.
module ChainIv {

  // A caller's request; mayBacklog is CRYPTO_TFM_REQ_MAY_BACKLOG.
  datatype Request = Request(id: nat, mayBacklog: bool)

  const EINPROGRESS: int := -115
  const EBUSY: int := -16

  // The next access a thread makes, with the local variables it still needs.
  datatype Pc =
    | First                              // async_chainiv_givencrypt_first
    | FirstCheck
    | FirstSeed
    | FirstUnlock(err: int)
    | Enter                              // async_chainiv_givencrypt
    | CheckQueue
    | GiveUp
    | Postpone                           // async_chainiv_postpone_request
    | Postponed(err: int)
    | SetErr(err: int)
    | Tail                               // async_chainiv_givencrypt_tail
    | Encrypt(giv: nat)
    | WriteBack(giv: nat, out: nat)
    | Schedule                           // async_chainiv_schedule_work
    | TestEmpty(err: int)
    | Release(err: int)
    | Recheck(err: int)
    | Retake(err: int)
    | QueueWork(err: int)
    | WorkTake                           // async_chainiv_do_postponed

  // own is the status this very call has earned: history, never read by a step.
  datatype Thread = Thread(pc: Pc, rq: Request, own: int)

  // One use of the chained IV: the request, the IV it was given, and what it left behind.
  datatype Link = Link(id: nat, giv: nat, out: nat, ok: bool)

  // What all threads share, then history: whether BUG_ON(!queued) fired, whether the random
  // generator failed, the first IV, and the uses of the chain.
  datatype Memory = Memory(
    inuse: bool, queue: seq<Request>, maxQlen: nat, pending: bool, err: int, iv: nat, switched: bool,
    bug: bool, rngFailed: bool, seed: nat, chain: seq<Link>)

  // reports lists, for each finished call, the status it earned and the one it returned.
  datatype State = State(m: Memory, threads: map<nat, Thread>, reports: seq<(int, int)>)

  // What the outside decides: how the cipher or the generator ends, and the bytes it yields.
  datatype Outcome = Outcome(err: int, bytes: nat)

  datatype Step =
    | Call(t: nat, rq: Request)
    | WorkBegins(t: nat)
    | Run(t: nat, outcome: Outcome)

  datatype Next = Goto(th: Thread) | Return(ret: int)

  datatype Move = Move(m: Memory, next: Next)

  // ------------------------------------------------------- one access at a time

  function FirstStep(m: Memory, th: Thread, o: Outcome): Move
    requires th.pc.First? || th.pc.FirstCheck? || th.pc.FirstSeed? || th.pc.FirstUnlock?
  {
    match th.pc
    case First =>
      if m.inuse then Move(m, Goto(th.(pc := Enter))) else Move(m.(inuse := true), Goto(th.(pc := FirstCheck)))
    case FirstCheck =>
      if m.switched then Move(m, Goto(th.(pc := FirstUnlock(0))))
      else Move(m.(switched := true), Goto(th.(pc := FirstSeed)))
    case FirstSeed =>
      if o.err == 0 then Move(m.(iv := o.bytes, seed := o.bytes), Goto(th.(pc := FirstUnlock(0))))
      else Move(m.(rngFailed := true), Goto(th.(pc := FirstUnlock(o.err), own := o.err)))
    case FirstUnlock(err) =>
      Move(m.(inuse := false), if err != 0 then Return(err) else Goto(th.(pc := Enter)))
  }

  // crypto_enqueue_request
  function Enqueue(m: Memory, rq: Request): (Memory, int) {
    if |m.queue| >= m.maxQlen then
      (if rq.mayBacklog then m.(queue := m.queue + [rq]) else m, EBUSY)
    else
      (m.(queue := m.queue + [rq]), EINPROGRESS)
  }

  function EnterStep(m: Memory, th: Thread): Move
    requires th.pc.Enter? || th.pc.CheckQueue? || th.pc.GiveUp? || th.pc.Postpone? || th.pc.Postponed? || th.pc.SetErr?
  {
    match th.pc
    case Enter =>
      if m.inuse then Move(m, Goto(th.(pc := Postpone))) else Move(m.(inuse := true), Goto(th.(pc := CheckQueue)))
    case CheckQueue => Move(m, Goto(th.(pc := if m.queue != [] then GiveUp else Tail)))
    case GiveUp => Move(m.(inuse := false), Goto(th.(pc := Postpone)))
    case Postpone =>
      var (n, err) := Enqueue(m, th.rq);
      Move(n, Goto(th.(pc := Postponed(err), own := err)))
    case Postponed(err) =>
      if m.inuse then Move(m, Return(err)) else Move(m.(inuse := true), Goto(th.(pc := SetErr(err))))
    case SetErr(err) => Move(m.(err := err), Goto(th.(pc := Schedule)))
  }

  function TailStep(m: Memory, th: Thread, o: Outcome): Move
    requires th.pc.Tail? || th.pc.Encrypt? || th.pc.WriteBack?
  {
    match th.pc
    case Tail => Move(m, Goto(th.(pc := Encrypt(m.iv))))
    case Encrypt(giv) =>
      if o.err != 0 then
        Move(m.(err := o.err, chain := m.chain + [Link(th.rq.id, giv, o.bytes, false)]),
             Goto(th.(pc := Schedule, own := o.err)))
      else
        Move(m.(err := 0), Goto(th.(pc := WriteBack(giv, o.bytes), own := 0)))
    case WriteBack(giv, out) =>
      Move(m.(iv := out, chain := m.chain + [Link(th.rq.id, giv, out, true)]), Goto(th.(pc := Schedule)))
  }

  function ScheduleStep(m: Memory, th: Thread): Move
    requires th.pc.Schedule? || th.pc.TestEmpty? || th.pc.Release? || th.pc.Recheck? || th.pc.Retake? || th.pc.QueueWork? || th.pc.WorkTake?
  {
    match th.pc
    case Schedule => Move(m, Goto(th.(pc := TestEmpty(m.err))))
    case TestEmpty(err) => Move(m, Goto(th.(pc := if m.queue == [] then Release(err) else QueueWork(err))))
    case Release(err) => Move(m.(inuse := false), Goto(th.(pc := Recheck(err))))
    case Recheck(err) => Move(m, if m.queue == [] then Return(err) else Goto(th.(pc := Retake(err))))
    case Retake(err) =>
      if m.inuse then Move(m, Return(err)) else Move(m.(inuse := true), Goto(th.(pc := QueueWork(err))))
    case QueueWork(err) => Move(m.(bug := m.bug || m.pending, pending := true), Return(err))
    case WorkTake =>
      if m.queue == [] then Move(m, Goto(th.(pc := Schedule, own := m.err)))
      else Move(m.(queue := m.queue[1..]), Goto(th.(pc := Tail, rq := m.queue[0])))
  }

  function ThreadStep(m: Memory, th: Thread, o: Outcome): Move {
    match th.pc
    case First | FirstCheck | FirstSeed | FirstUnlock(_) => FirstStep(m, th, o)
    case Enter | CheckQueue | GiveUp | Postpone | Postponed(_) | SetErr(_) => EnterStep(m, th)
    case Tail | Encrypt(_) | WriteBack(_, _) => TailStep(m, th, o)
    case _ => ScheduleStep(m, th)
  }

  // ------------------------------------------------------- runs

  predicate Enabled(rngMayFail: bool, s: State, step: Step) {
    match step
    case Call(t, rq) => t !in s.threads
    case WorkBegins(t) => s.m.pending && t !in s.threads
    case Run(t, o) => t in s.threads && (s.threads[t].pc.FirstSeed? && o.err != 0 ==> rngMayFail)
  }

  function Settle(s: State, t: nat, move: Move): State
    requires t in s.threads
  {
    match move.next
    case Goto(th) => s.(m := move.m, threads := s.threads[t := th])
    case Return(ret) => State(move.m, s.threads - {t}, s.reports + [(s.threads[t].own, ret)])
  }

  // A call goes through the function pointer it finds; the work item is no longer pending
  // once it runs.
  function Apply(rngMayFail: bool, s: State, step: Step): State
    requires Enabled(rngMayFail, s, step)
  {
    match step
    case Call(t, rq) => s.(threads := s.threads[t := Thread(if s.m.switched then Enter else First, rq, 0)])
    case WorkBegins(t) =>
      s.(m := s.m.(pending := false), threads := s.threads[t := Thread(WorkTake, Request(0, true), 0)])
    case Run(t, o) => Settle(s, t, ThreadStep(s.m, s.threads[t], o))
  }

  function Init(maxQlen: nat): State {
    State(Memory(false, [], maxQlen, false, 0, 0, false, false, false, 0, []), map[], [])
  }

  ghost predicate Legal(rngMayFail: bool, s: State, steps: seq<Step>)
    decreases |steps|
  {
    steps == [] || (Enabled(rngMayFail, s, steps[0]) && Legal(rngMayFail, Apply(rngMayFail, s, steps[0]), steps[1..]))
  }

  ghost function Exec(rngMayFail: bool, s: State, steps: seq<Step>): State
    requires Legal(rngMayFail, s, steps)
    decreases |steps|
  {
    if steps == [] then s else Exec(rngMayFail, Apply(rngMayFail, s, steps[0]), steps[1..])
  }

  // ------------------------------------------------------- the invariant

  // The code between taking the bit and giving it up.
  predicate Owner(th: Thread) {
    match th.pc
    case First | Enter | Postpone | Postponed(_) | Recheck(_) | Retake(_) => false
    case _ => true
  }

  // The IV a user of the chain must get: what the last successful use left behind.
  ghost function ChainEnd(seed: nat, chain: seq<Link>): nat
    decreases |chain|
  {
    if chain == [] then seed
    else
      var l := chain[|chain| - 1];
      if l.ok then l.out else ChainEnd(seed, chain[..|chain| - 1])
  }

  ghost predicate Chained(seed: nat, chain: seq<Link>) {
    forall k :: 0 <= k < |chain| ==> chain[k].giv == ChainEnd(seed, chain[..k])
  }

  ghost predicate OwnerAt(s: State, t: nat) { t in s.threads && Owner(s.threads[t]) }

  // The bit is set exactly while somebody owns the chain: one thread, or the work item.
  ghost predicate Ownership(s: State) {
    && (forall t, u :: OwnerAt(s, t) && OwnerAt(s, u) ==> t == u)
    && (forall t :: OwnerAt(s, t) ==> s.m.inuse && !s.m.pending)
    && (s.m.pending ==> s.m.inuse)
    && (s.m.inuse ==> s.m.pending || exists t :: OwnerAt(s, t))
  }

  // A thread outside the owned section will still test the bit or look at the queue.
  ghost predicate WillLook(s: State, t: nat) { t in s.threads && !Owner(s.threads[t]) }

  ghost predicate NoLostWork(s: State) {
    s.m.queue != [] && !s.m.inuse ==> s.m.rngFailed || exists t :: WillLook(s, t)
  }

  // What a thread may rely on between two of its steps.
  ghost predicate Knows(m: Memory, th: Thread) {
    match th.pc
    case FirstSeed => m.switched && m.chain == []
    case FirstUnlock(err) => m.switched && (err != 0 ==> err == th.own && m.rngFailed)
    case Encrypt(giv) => giv == m.iv
    case WriteBack(giv, out) => giv == m.iv && m.err == 0 == th.own
    case Schedule => th.own == m.err
    case Postponed(err) => err == th.own
    case SetErr(err) => err == th.own
    case TestEmpty(err) => err == th.own
    case Release(err) => err == th.own
    case Recheck(err) => err == th.own
    case Retake(err) => err == th.own
    case QueueWork(err) => err == th.own
    case _ => true
  }

  // Until the function pointer is switched nobody gets past the thread that will switch it.
  ghost predicate Young(m: Memory, th: Thread) {
    !m.switched ==> if Owner(th) then th.pc.FirstCheck? else m.inuse || th.pc.First?
  }

  ghost predicate Unused(m: Memory) { m.chain == [] && !m.pending }

  ghost predicate Chain(m: Memory) { m.iv == ChainEnd(m.seed, m.chain) && Chained(m.seed, m.chain) }

  ghost predicate Honest(s: State) { forall k :: 0 <= k < |s.reports| ==> s.reports[k].0 == s.reports[k].1 }

  ghost predicate Inv(s: State) {
    && Ownership(s) && NoLostWork(s) && Chain(s.m) && Honest(s) && !s.m.bug && (!s.m.switched ==> Unused(s.m))
    && (forall t :: t in s.threads ==> Knows(s.m, s.threads[t]) && Young(s.m, s.threads[t]))
  }

  lemma InitInv(maxQlen: nat)
    ensures Inv(Init(maxQlen))
  {
  }

  // A step takes the bit only when it is clear, and gives it up either by clearing it or by
  // passing it to the work item.
  ghost predicate Handover(m: Memory, was: bool, n: Memory, owns: bool) {
    if was == owns then m.inuse == n.inuse && m.pending == n.pending
    else if owns then !m.inuse && n.inuse && m.pending == n.pending
    else if n.inuse then n.pending && m.inuse else m.pending == n.pending
  }

  lemma StepHandover(m: Memory, th: Thread, o: Outcome)
    requires Owner(th) ==> m.inuse
    ensures var move := ThreadStep(m, th, o);
            Handover(m, Owner(th), move.m, move.next.Goto? && Owner(move.next.th))
  {
    if th.pc.First? || th.pc.FirstCheck? || th.pc.FirstSeed? || th.pc.FirstUnlock? {
      hide EnterStep, TailStep, ScheduleStep, Enqueue;
    } else if th.pc.Enter? || th.pc.CheckQueue? || th.pc.GiveUp? || th.pc.Postpone? || th.pc.Postponed? || th.pc.SetErr? {
      hide FirstStep, TailStep, ScheduleStep;
    } else {
      hide FirstStep, EnterStep, Enqueue;
    }
  }

  lemma SettleOwnership(s: State, t: nat, move: Move)
    requires Ownership(s) && t in s.threads
    requires Handover(s.m, Owner(s.threads[t]), move.m, move.next.Goto? && Owner(move.next.th))
    ensures Ownership(Settle(s, t, move))
  {
    hide Owner;
    var u := Settle(s, t, move);
    assert OwnerAt(s, t) <==> Owner(s.threads[t]);
    assert OwnerAt(u, t) <==> move.next.Goto? && Owner(move.next.th);
    forall i | i != t ensures OwnerAt(s, i) <==> OwnerAt(u, i) {}
    if u.m.inuse && !u.m.pending && !OwnerAt(u, t) {
      assert !OwnerAt(s, t);
      var i :| OwnerAt(s, i);
      assert OwnerAt(u, i);
    }
  }

  // Whoever stops looking leaves a set bit, an empty queue, or a failed generator behind.
  ghost predicate Watched(move: Move) {
    move.m.inuse || (move.next.Goto? && !Owner(move.next.th)) || move.m.rngFailed || move.m.queue == []
  }

  lemma StepLooks(m: Memory, th: Thread, o: Outcome)
    requires Knows(m, th) && (Owner(th) ==> m.inuse)
    ensures Watched(ThreadStep(m, th, o))
  {
  }

  lemma SettleNoLostWork(s: State, t: nat, move: Move)
    requires t in s.threads && Watched(move)
    ensures NoLostWork(Settle(s, t, move))
  {
    var u := Settle(s, t, move);
    if move.next.Goto? && !Owner(move.next.th) { assert WillLook(u, t); }
  }

  // A thread's knowledge survives its own step, and everybody else's.
  lemma StepKnows(m: Memory, th: Thread, o: Outcome)
    requires Knows(m, th) && Young(m, th) && (!m.switched ==> Unused(m))
    ensures var move := ThreadStep(m, th, o);
            match move.next
            case Goto(u) => Knows(move.m, u) && Young(move.m, u)
            case Return(ret) => ret == th.own
  {
  }

  lemma StepKeepsKnowledge(m: Memory, th: Thread, o: Outcome, other: Thread)
    requires Knows(m, other) && Young(m, other) && Young(m, th) && !(Owner(th) && Owner(other))
    ensures var n := ThreadStep(m, th, o).m; Knows(n, other) && Young(n, other)
  {
    var n := ThreadStep(m, th, o).m;
    assert (m.switched ==> n.switched) && (m.rngFailed ==> n.rngFailed);
    assert !Owner(th) ==> n.iv == m.iv && n.err == m.err && n.chain == m.chain;
    assert !n.switched && m.inuse ==> n.inuse;
  }

  lemma ChainExtend(seed: nat, chain: seq<Link>, l: Link)
    requires Chained(seed, chain) && l.giv == ChainEnd(seed, chain)
    ensures Chained(seed, chain + [l])
    ensures ChainEnd(seed, chain + [l]) == if l.ok then l.out else ChainEnd(seed, chain)
  {
    var more := chain + [l];
    assert more[..|chain|] == chain;
    forall k | 0 <= k < |chain| ensures more[..k] == chain[..k] {}
  }

  lemma ChainUntouched(m: Memory, th: Thread, o: Outcome)
    requires !th.pc.FirstSeed? && !th.pc.Encrypt? && !th.pc.WriteBack?
    ensures var n := ThreadStep(m, th, o).m; n.iv == m.iv && n.seed == m.seed && n.chain == m.chain
  {
    if th.pc.First? || th.pc.FirstCheck? || th.pc.FirstUnlock? {
      hide EnterStep, TailStep, ScheduleStep, Enqueue;
    } else if th.pc.Enter? || th.pc.CheckQueue? || th.pc.GiveUp? || th.pc.Postpone? || th.pc.Postponed? || th.pc.SetErr? {
      hide FirstStep, TailStep, ScheduleStep;
    } else if th.pc.Tail? {
      hide FirstStep, EnterStep, ScheduleStep, Enqueue;
    } else {
      hide FirstStep, EnterStep, TailStep, Enqueue;
    }
  }

  lemma FirstChain(m: Memory, th: Thread, o: Outcome)
    requires Chain(m) && th.pc.FirstSeed? && m.chain == []
    ensures Chain(ThreadStep(m, th, o).m)
  {
    hide EnterStep, TailStep, ScheduleStep, Enqueue;
    var n := ThreadStep(m, th, o).m;
    assert n.chain == [];
    NoLinks(n.seed);
    NoLinks(m.seed);
    hide Chained, ChainEnd;
  }

  lemma NoLinks(seed: nat)
    ensures ChainEnd(seed, []) == seed && Chained(seed, [])
  {
  }

  lemma NextLink(m: Memory, n: Memory, l: Link)
    requires Chain(m) && l.giv == m.iv && n.seed == m.seed && n.chain == m.chain + [l] && n.iv == if l.ok then l.out else m.iv
    ensures Chain(n)
  {
    hide Chained, ChainEnd;
    ChainExtend(m.seed, m.chain, l);
  }

  lemma StepChain(m: Memory, th: Thread, o: Outcome)
    requires Chain(m) && Knows(m, th)
    ensures Chain(ThreadStep(m, th, o).m)
  {
    hide EnterStep, ScheduleStep, Enqueue;
    if th.pc.FirstSeed? {
      hide Chain;
      FirstChain(m, th, o);
    } else if th.pc.Encrypt? {
      hide Chain, FirstStep;
      var n := ThreadStep(m, th, o).m;
      if o.err != 0 { NextLink(m, n, Link(th.rq.id, th.pc.giv, o.bytes, false)); } else { ChainOnly(m, n); }
    } else if th.pc.WriteBack? {
      hide Chain, FirstStep;
      NextLink(m, ThreadStep(m, th, o).m, Link(th.rq.id, th.pc.giv, th.pc.out, true));
    } else {
      hide ThreadStep, Chain, FirstStep, TailStep, Knows;
      ChainUntouched(m, th, o);
      ChainOnly(m, ThreadStep(m, th, o).m);
    }
  }

  lemma StepBug(m: Memory, th: Thread, o: Outcome)
    requires !m.bug && (Owner(th) ==> !m.pending) && Young(m, th) && (!m.switched ==> Unused(m))
    ensures var n := ThreadStep(m, th, o).m; !n.bug && (!n.switched ==> Unused(n))
  {
  }

  lemma RunInv(s: State, t: nat, o: Outcome)
    requires Inv(s) && t in s.threads
    ensures Inv(Settle(s, t, ThreadStep(s.m, s.threads[t], o)))
  {
    hide ThreadStep, Owner, Knows, Young, Handover, NoLostWork, Chain, Watched;
    var th := s.threads[t];
    var move := ThreadStep(s.m, th, o);
    assert Knows(s.m, th) && Young(s.m, th);
    assert Owner(th) ==> OwnerAt(s, t);
    StepHandover(s.m, th, o);
    SettleOwnership(s, t, move);
    StepLooks(s.m, th, o);
    SettleNoLostWork(s, t, move);
    StepKnows(s.m, th, o);
    StepChain(s.m, th, o);
    StepBug(s.m, th, o);
    var u := Settle(s, t, move);
    forall i | i in u.threads ensures Knows(u.m, u.threads[i]) && Young(u.m, u.threads[i]) {
      if i != t {
        assert Owner(s.threads[i]) ==> OwnerAt(s, i);
        StepKeepsKnowledge(s.m, th, o, s.threads[i]);
      }
    }
  }

  lemma JoinInv(s: State, step: Step)
    requires Inv(s) && Enabled(true, s, step) && !step.Run?
    ensures Inv(Apply(true, s, step))
  {
    hide Chain;
    var u := Apply(true, s, step);
    forall i | i != step.t ensures OwnerAt(s, i) <==> OwnerAt(u, i) {}
    forall i | WillLook(s, i) ensures WillLook(u, i) {}
    if step.WorkBegins? { assert OwnerAt(u, step.t); }
    forall i | i in u.threads ensures Knows(u.m, u.threads[i]) && Young(u.m, u.threads[i]) {
      if i != step.t { assert Knows(s.m, s.threads[i]) && Young(s.m, s.threads[i]); }
    }
    assert Chain(u.m) by { assert Chain(s.m); ChainOnly(s.m, u.m); }
  }

  lemma ChainOnly(m: Memory, n: Memory)
    requires Chain(m) && n.iv == m.iv && n.seed == m.seed && n.chain == m.chain
    ensures Chain(n)
  {
  }

  lemma StepInv(rngMayFail: bool, s: State, step: Step)
    requires Inv(s) && Enabled(rngMayFail, s, step)
    ensures Inv(Apply(rngMayFail, s, step))
  {
    hide Inv;
    if step.Run? { RunInv(s, step.t, step.outcome); } else { JoinInv(s, step); }
  }

  lemma {:induction false} ExecInv(rngMayFail: bool, s: State, steps: seq<Step>)
    requires Inv(s) && Legal(rngMayFail, s, steps)
    ensures Inv(Exec(rngMayFail, s, steps))
    decreases |steps|
  {
    hide Inv, Apply;
    if steps != [] {
      StepInv(rngMayFail, s, steps[0]);
      ExecInv(rngMayFail, Apply(rngMayFail, s, steps[0]), steps[1..]);
    }
  }
}
