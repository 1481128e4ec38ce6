// A barrier sequence goes on: from every reachable state the driver alone, by taking and
// completing requests, ends everything on the queue.
module BarrierProgress {
  import opened Collections
  import opened OrderedBarrier
  import opened BarrierSafety
  import opened BarrierTheorems

  // While the drain is awaited somebody will look again: a request with the driver, or one at
  // the head that need not wait.
  ghost predicate Awaited(s: State) {
    Active(s) && !Bit(s.ordseq, ORDSEQ_DRAIN) ==>
      s.drv != {} || (|s.queue| > 0 && ReqSeq(s.arr, s.orig, s.queue[0]) == ORDSEQ_DRAIN)
  }

  // ------------------------------------------------------- every step keeps it

  lemma SomebodyInFlight(r: State)
    requires Counted(r.inFlight, r.arr, r.drv) && r.inFlight != 0
    ensures r.drv != {}
  {
    assert r.drv == {} ==> FsOf(r.arr, r.drv) == {};
  }

  lemma ReqSeqAtLeast(arr: seq<Attr>, orig: nat, p: Ptr)
    ensures ReqSeq(arr, orig, p) >= ORDSEQ_DRAIN
  {
  }

  // The check behind a completion.
  lemma DrainCheckAwaited(r: State)
    requires Core(r) && Stage(r.ordseq, r.queue, r.drv, r.started)
    ensures Awaited(DrainCheck(r))
  {
    if Active(r) && !Bit(r.ordseq, ORDSEQ_DRAIN) {
      BarWaits(r);
      ReqSeqAtLeast(r.arr, r.orig, r.queue[0]);
      if r.inFlight != 0 { SomebodyInFlight(r); }
    }
    hide Core, ReqSeq, At;
  }

  lemma BarWaits(r: State)
    requires Core(r) && Stage(r.ordseq, r.queue, r.drv, r.started) && Active(r) && !Bit(r.ordseq, ORDSEQ_DRAIN)
    ensures Bar in r.queue && |r.queue| > 0 && CurSeq(r.ordseq) == ORDSEQ_DRAIN
  {
    hide Table, Sorted, Waiting, Issued, FirstError, Counted, Scheduled, Drained;
  }

  lemma ArriveAwaited(s: State, t: State)
    requires Inv(s) && Awaited(s) && t.ordseq == s.ordseq && t.orig == s.orig && t.drv == s.drv
    requires s.arr <= t.arr && (|s.queue| > 0 ==> |t.queue| > 0 && t.queue[0] == s.queue[0])
    ensures Awaited(t)
  {
    if Active(t) && !Bit(t.ordseq, ORDSEQ_DRAIN) && s.drv == {} {
      OriginalIsBarrier(s);
      assert s.queue[0] in s.queue;
      hide Table, Sorted, Waiting, Issued, FirstError, Counted, Scheduled, Drained, Stage, Accountable, Started;
    }
  }

  // A request scheduled for dispatch does not go in front of the proxies.
  lemma PlaceAwaited(s: State, id: nat, pos: nat)
    requires Inv(s) && Awaited(s) && CanPlace(s, id, pos)
    ensures Awaited(Place(s, id, pos))
  {
    var t := Place(s, id, pos);
    if Active(s) && !Bit(s.ordseq, ORDSEQ_DRAIN) {
      BarWaits(s);
      var k :| 0 <= k < |s.queue| && s.queue[k] == Bar;
      assert Stops(s, Bar);
      assert pos > 0;
      assert t.queue[0] == s.queue[0];
      ArriveAwaited(s, t);
    }
  }

  lemma {:induction false} DrainAwaited(s: State, order: seq<Placement>)
    requires Inv(s) && Awaited(s) && CanDrain(s, order)
    ensures Awaited(Drain(s, order)) && Inv(Drain(s, order))
    decreases |order|
  {
    hide Inv, Awaited, Place;
    if order != [] {
      PlaceAwaited(s, order[0].id, order[0].pos);
      PlaceInv(s, order[0].id, order[0].pos);
      DrainAwaited(Place(s, order[0].id, order[0].pos), order[1..]);
    }
  }

  // A requeued request of the drain stage goes to the head.
  lemma RequeueAwaited(s: State, p: Ptr)
    requires Inv(s) && p in s.drv
    ensures Awaited(Apply(Plain, s, Requeue(p)))
  {
    if Active(s) && !Bit(s.ordseq, ORDSEQ_DRAIN) {
      DrainStage(s, p);
      BarWaits(s);
      ReqSeqAtLeast(s.arr, s.orig, s.queue[0]);
      hide ReqSeq, Inv;
      assert WalkTo(s.arr, s.orig, s.queue, ORDSEQ_DRAIN, 0) == 0;
    }
  }

  lemma DrainStage(s: State, p: Ptr)
    requires Inv(s) && Active(s) && !Bit(s.ordseq, ORDSEQ_DRAIN) && p in s.drv
    ensures ReqSeq(s.arr, s.orig, p) == ORDSEQ_DRAIN
  {
    hide Sorted, Waiting, Issued, FirstError, Counted, Scheduled, Drained, Accountable;
    OriginalIsBarrier(s);
  }

  lemma StagesKept(r: State, stage: nat, error: int)
    requires Bit(r.ordseq, ORDSEQ_DRAIN)
    ensures Awaited(CompleteSeq(r, stage, error))
  {
    hide ReqSeq, LowestZero;
  }

  lemma CompleteAwaited(s: State, p: Ptr, error: int)
    requires Inv(s) && p in s.drv
    ensures Awaited(Apply(Plain, s, Complete(p, error)))
  {
    hide Core, Stage, Accountable, DrainCheck, CompleteSeq;
    if p.Rq? {
      ReleasedCore(s, p);
      ReleasedStage(s, p);
      DrainCheckAwaited(Released(s, p));
      FinishReleases(s, p, error);
      hide Finish;
    } else {
      ProxyEnds(s, p, error);
      hide Finish, Awaited;
      StagesKept(Released(s, p), StageOf(p), error);
    }
  }

  // ------------------------------------------------------- what the hand-out loop gives

  // While a sequence is in progress the head is handed out unless its stage is still to come.
  lemma BusyVerdict(s: State)
    requires Inv(s) && Active(s) && |s.queue| > 0
    ensures var h := s.queue[0];
            DoOrdered(s) == (s, if Other(s, h) || ReqSeq(s.arr, s.orig, h) == CurSeq(s.ordseq) then Hand(h) else Hold)
  {
    NextModes(s);
    if !Other(s, s.queue[0]) { BusyHead(s); }
    hide Inv, ReqSeq, CurSeq, StartOrdered;
  }

  // With no sequence in progress the head is handed out, or starts one.
  lemma IdleVerdict(s: State)
    requires Inv(s) && !Active(s) && |s.queue| > 0
    ensures var h := s.queue[0];
            && h.Rq?
            && (!AtBarrier(s) ==> DoOrdered(s) == (s, Hand(h)))
            && (AtBarrier(s) ==> DoOrdered(s) == StartOrdered(s))
  {
    NextModes(s);
    NoProxies(s);
    assert s.queue[0] in s.queue;
    hide Core, Stage, Accountable, StartOrdered;
  }

  ghost function Pre(s: State): bool { s.nextOrdered & ORDERED_PREFLUSH != 0 }

  ghost function Post(s: State): bool
    requires |s.queue| > 0 && s.queue[0].Rq? && s.queue[0].id < |s.arr|
  {
    s.nextOrdered & ORDERED_POSTFLUSH != 0 && !s.arr[s.queue[0].id].empty
  }

  lemma StartVerdict(s: State)
    requires AtBarrier(s)
    ensures s.queue[0].id < |s.arr|
    ensures var u := Begun(s, Pre(s), Post(s));
            && StartOrdered(s) == (u, if s.inFlight == 0 then Hand(if Pre(s) then PreFlush else Bar) else Hold)
            && Inv(u) && Active(u) && (Bit(u.ordseq, ORDSEQ_DRAIN) <==> s.inFlight == 0)
  {
    NotStarted(s);
    hide Core, Stage, Accountable;
    StartInv(s);
    StartShape(s);
    hide StartOrdered;
  }

  lemma VerdictAwaited(s: State)
    requires Inv(s) && Awaited(s) && |s.queue| > 0
    ensures Awaited(DoOrdered(s).0)
  {
    if Active(s) {
      BusyVerdict(s);
    } else {
      IdleVerdict(s);
      if AtBarrier(s) {
        StartVerdict(s);
        if s.inFlight != 0 { CountedBegun(s); }
      }
    }
    hide DoOrdered, StartOrdered, Inv, ReqSeq, CurSeq, StartBits, Stacked, AtBarrier, Other;
  }

  lemma NextAwaited(s: State)
    requires Inv(s) && Awaited(s)
    ensures Awaited(Apply(Plain, s, Next))
  {
    hide Inv, DoOrdered, Finish, MayHand, ReqSeq;
    if |s.queue| > 0 {
      OrderedVerdict(s);
      VerdictAwaited(s);
      var (t, v) := DoOrdered(s);
      if v.Hand? && EmptyBarrier(t, v.rq) { EmptyAwaited(t, v.rq); }
    }
  }

  lemma CountedBegun(s: State)
    requires AtBarrier(s) && s.inFlight != 0
    ensures s.drv != {}
  {
    SomebodyInFlight(s);
  }

  // The empty place holder leaves a drained sequence, or none.
  lemma EmptyAwaited(t: State, p: Ptr)
    requires Inv(t) && |t.queue| > 0 && t.queue[0] == p && MayHand(t, p) && EmptyBarrier(t, p)
    ensures Awaited(Finish(Unlink(t, 0), p, 0))
  {
  }

  lemma StepAwaited(s: State, a: Action)
    requires Inv(s) && Awaited(s) && Enabled(Plain, s, a)
    ensures Awaited(Apply(Plain, s, a))
  {
    hide Inv, Table, Finish, RequeueRq, NextTurn, Drain, CanDrain, Place, CanPlace, ReqSeq;
    match a
    case AddSorted => ArriveAwaited(s, Apply(Plain, s, a));
    case AddBack(fs, barrier, empty, order) =>
      DrainAwaited(s, order);
      ArriveAwaited(Drain(s, order), Apply(Plain, s, a));
    case AddFront => FrontAwaited(s);
    case Dispatch(id, pos) => PlaceAwaited(s, id, pos);
    case Next => NextAwaited(s);
    case Dequeue(pos) => assert s.queue[pos] in Apply(Plain, s, a).drv;
    case Requeue(p) => RequeueAwaited(s, p);
    case Complete(p, error) => CompleteAwaited(s, p, error);
    case BarError(error) => ArriveAwaited(s, Apply(Plain, s, a));
    case SetOrdered(mode) => ArriveAwaited(s, Apply(Plain, s, a));
  }

  lemma FrontAwaited(s: State)
    ensures Awaited(Apply(Plain, s, AddFront))
  {
  }

  lemma {:induction false} RunAwaited(s: State, acts: seq<Action>)
    requires Inv(s) && Awaited(s) && Legal(Plain, s, acts)
    ensures Awaited(Exec(Plain, s, acts)) && Inv(Exec(Plain, s, acts))
    decreases |acts|
  {
    hide Inv, Awaited, Apply, Enabled;
    if acts != [] {
      StepInv(s, acts[0]);
      StepAwaited(s, acts[0]);
      RunAwaited(Apply(Plain, s, acts[0]), acts[1..]);
    }
  }

  // ------------------------------------------------------- nobody is in the way

  // With nothing at the driver a running sequence has something on the queue,
  lemma BusyQueue(s: State)
    requires Inv(s) && Awaited(s) && Active(s) && s.drv == {}
    ensures s.queue != []
  {
    hide Core, Accountable;
  }

  // and the proxy whose turn it is stands before everything the barriers order.
  lemma TurnAtHead(s: State, p: Ptr)
    requires Inv(s) && Active(s) && s.drv == {} && !p.Rq? && Bit(s.ordseq, ORDSEQ_DRAIN)
    requires CurSeq(s.ordseq) == StageOf(p) && s.queue != [] && !Other(s, s.queue[0])
    ensures s.queue[0] == p
  {
    hide Table, Waiting, Issued, FirstError, Counted, Scheduled, Accountable, Started, Apart, ErrorKept;
    var h := s.queue[0];
    assert h in s.queue && At(s.queue, s.drv, p);
    var j :| 0 <= j < |s.queue| && s.queue[j] == p;
    assert j > 0 ==> Rank(s.arr, s.base, h) <= Rank(s.arr, s.base, p);
  }

  lemma PendingProxy(s: State) returns (p: Ptr)
    requires Inv(s) && Active(s) && Bit(s.ordseq, ORDSEQ_DRAIN)
    ensures !p.Rq? && CurSeq(s.ordseq) == StageOf(p)
  {
    hide Core, Accountable;
    p := if !Bit(s.ordseq, ORDSEQ_PREFLUSH) then PreFlush else if !Bit(s.ordseq, ORDSEQ_BAR) then Bar else PostFlush;
  }

  // So the head is never held back.
  lemma HeadReady(s: State)
    requires Inv(s) && Awaited(s) && Active(s) && s.drv == {} && s.queue != []
    ensures Other(s, s.queue[0]) || ReqSeq(s.arr, s.orig, s.queue[0]) == CurSeq(s.ordseq)
  {
    if Bit(s.ordseq, ORDSEQ_DRAIN) && !Other(s, s.queue[0]) {
      var p := PendingProxy(s);
      TurnAtHead(s, p);
    } else {
      BarOrDrain(s);
      hide Inv, CurSeq, ReqSeq;
    }
  }

  lemma BarOrDrain(s: State)
    requires Inv(s) && Active(s)
    ensures !Bit(s.ordseq, ORDSEQ_DRAIN) ==> CurSeq(s.ordseq) == ORDSEQ_DRAIN
  {
    hide Core, Accountable;
  }

  // ------------------------------------------------------- rounds of the driver

  // What the driver still has to do for a request: a waiting barrier becomes up to three proxies.
  function Work(arr: seq<Attr>, q: seq<Ptr>): nat {
    if q == [] then 0 else (if q[0].Rq? && HardBarrier(arr, q[0]) then 4 else 1) + Work(arr, q[1..])
  }

  lemma StackedWork(arr: seq<Attr>, pre: bool, post: bool, rest: seq<Ptr>)
    ensures var q := Stacked(pre, post, rest);
            q != [] && q[0] == (if pre then PreFlush else Bar) && Work(arr, q[1..]) <= Work(arr, rest) + 2
  {
    var p := if post then [PostFlush] + rest else rest;
    assert post ==> p[1..] == rest;
    var b := [Bar] + p;
    assert b[1..] == p;
    assert pre ==> ([PreFlush] + b)[1..] == b;
  }

  // What a turn hands out and what it leaves to do.
  ghost predicate Gives(s: State, t: State, v: Verdict) {
    && v.Hand? && t.queue != [] && t.queue[0] == v.rq && Work(t.arr, t.queue[1..]) < Work(s.arr, s.queue)
    && t.drv == {} && t.arr == s.arr && t.elv == s.elv
  }

  lemma BusyGives(s: State)
    requires Inv(s) && Awaited(s) && Active(s) && s.drv == {} && s.queue != []
    ensures Gives(s, DoOrdered(s).0, DoOrdered(s).1)
  {
    HeadReady(s);
    BusyVerdict(s);
    hide DoOrdered, Inv, ReqSeq, CurSeq, Other;
  }

  lemma IdleGives(s: State)
    requires Inv(s) && !Active(s) && s.drv == {} && s.queue != []
    ensures Gives(s, DoOrdered(s).0, DoOrdered(s).1)
  {
    IdleVerdict(s);
    if AtBarrier(s) {
      StartVerdict(s);
      NobodyInFlight(s);
      StackedWork(s.arr, Pre(s), Post(s), s.queue[1..]);
    }
    hide DoOrdered, StartOrdered, Inv, StartBits, Stacked;
  }

  // One turn of the loop with nothing at the driver: the head is handed out, or an empty
  // barrier has ended on the spot.
  lemma TurnGives(s: State)
    requires Inv(s) && Awaited(s) && s.drv == {} && s.queue != []
    ensures Gives(s, DoOrdered(s).0, DoOrdered(s).1)
  {
    hide Gives, Inv, Awaited;
    if Active(s) { BusyGives(s); } else { IdleGives(s); }
  }

  lemma NobodyInFlight(s: State)
    requires Inv(s) && s.drv == {}
    ensures s.inFlight == 0
  {
    assert FsOf(s.arr, s.drv) == {};
  }

  // After the turn less is left to do, or will be once the head has been taken.
  ghost predicate Turned(s: State, u: State) {
    && u.drv == {} && u.arr == s.arr && u.elv == s.elv
    && (Work(u.arr, u.queue) < Work(s.arr, s.queue)
        || (u.queue != [] && u.queue[0] in u.started && Work(u.arr, u.queue[1..]) < Work(s.arr, s.queue)))
  }

  // A turn that hands out the head, by what became of it.
  lemma TurnIs(s: State)
    requires s.queue != [] && DoOrdered(s).1.Hand? && DoOrdered(s).0.queue != []
    ensures var u := Apply(Plain, s, Next); var (t, v) := DoOrdered(s);
            if EmptyBarrier(t, v.rq) then u == Finish(Unlink(t, 0), v.rq, 0)
            else && u.queue == t.queue && u.started == t.started + {v.rq}
                 && u.drv == t.drv && u.arr == t.arr && u.elv == t.elv
  {
    hide DoOrdered, EmptyBarrier, Finish, Unlink, IsFs;
  }

  lemma UnlinkShape(t: State)
    requires t.queue != []
    ensures var u := Unlink(t, 0); u.queue == t.queue[1..] && u.drv == t.drv && u.arr == t.arr && u.elv == t.elv
  {
    assert t.queue[..0] + t.queue[1..] == t.queue[1..];
  }

  lemma TurnDone(s: State)
    requires Inv(s) && Awaited(s) && s.drv == {} && s.queue != []
    ensures Turned(s, Apply(Plain, s, Next))
  {
    TurnGives(s);
    TurnIs(s);
    var (t, v) := DoOrdered(s);
    UnlinkShape(t);
    FinishShape(Unlink(t, 0), v.rq);
    hide DoOrdered, Inv, Awaited, Work, EmptyBarrier, Finish, Unlink, Apply;
  }

  lemma FinishShape(s: State, p: Ptr)
    ensures var f := Finish(s, p, 0); f.queue == s.queue && f.drv == s.drv && f.arr == s.arr && f.elv == s.elv
  {
    var r := s.(inFlight := if Accounted(s, p) then s.inFlight - 1 else s.inFlight, started := s.started - {p});
    DrainCheckFrame(r);
    DrainCheckDriver(r);
    hide DrainCheck, LowestZero;
  }

  lemma DrainCheckDriver(r: State)
    ensures DrainCheck(r).drv == r.drv
  {
    hide ReqSeq, LowestZero;
  }

  ghost predicate Driven(acts: seq<Action>) {
    forall k :: 0 <= k < |acts| ==> acts[k].Next? || acts[k].Dequeue? || acts[k].Complete?
  }

  // s is where the driver, and nobody else, has come from s0.
  ghost predicate Reached(s0: State, acts: seq<Action>, s: State) {
    && Legal(Plain, s0, acts) && Exec(Plain, s0, acts) == s && Driven(acts)
    && Inv(s) && Awaited(s) && s.arr == s0.arr && s.elv == s0.elv
  }

  lemma Drive(s0: State, acts: seq<Action>, s: State, a: Action) returns (more: seq<Action>, t: State)
    requires Reached(s0, acts, s) && Enabled(Plain, s, a) && (a.Next? || a.Dequeue? || a.Complete?)
    requires var u := Apply(Plain, s, a); u.arr == s.arr && u.elv == s.elv
    ensures Reached(s0, more, t) && t == Apply(Plain, s, a)
  {
    StepInv(s, a);
    StepAwaited(s, a);
    LegalSnoc(Plain, s0, acts, a);
    hide Inv, Awaited, Legal, Exec, Apply, Enabled;
    more := acts + [a];
    t := Apply(Plain, s, a);
  }

  lemma CompleteShape(s: State, p: Ptr)
    requires p in s.drv
    ensures var t := Apply(Plain, s, Complete(p, 0));
            t.queue == s.queue && t.drv == s.drv - {p} && t.arr == s.arr && t.elv == s.elv
  {
    FinishShape(s.(drv := s.drv - {p}), p);
    hide Finish;
  }

  // The head, handed out, is taken and completed.
  lemma Taken(s0: State, acts0: seq<Action>, s: State, p: Ptr) returns (acts: seq<Action>, t: State)
    requires Reached(s0, acts0, s) && s.drv == {} && s.queue != [] && s.queue[0] == p && p in s.started
    ensures Reached(s0, acts, t) && t.drv == {} && t.queue == s.queue[1..] && t.arr == s.arr
  {
    hide Inv, Awaited, Legal, Exec, Finish, Driven;
    assert s.queue[..0] + s.queue[1..] == s.queue[1..];
    assert s.drv + {p} == {p};
    acts, t := Drive(s0, acts0, s, Dequeue(0));
    CompleteShape(t, p);
    acts, t := Drive(s0, acts, t, Complete(p, 0));
  }

  lemma TurnTaken(s0: State, acts0: seq<Action>, s: State) returns (acts: seq<Action>, t: State)
    requires Reached(s0, acts0, s) && s.drv == {} && s.queue != []
    ensures Reached(s0, acts, t) && Turned(s, t)
  {
    assert Inv(s) && Awaited(s);
    TurnDone(s);
    assert Apply(Plain, s, Next).arr == s.arr && Apply(Plain, s, Next).elv == s.elv;
    hide Reached, Turned, Apply, Inv, Awaited;
    acts, t := Drive(s0, acts0, s, Next);
  }

  // A request is handed out, taken and completed.
  lemma Round(s0: State, acts0: seq<Action>, s: State) returns (acts: seq<Action>, t: State)
    requires Reached(s0, acts0, s) && s.drv == {} && s.queue != []
    ensures Reached(s0, acts, t) && t.drv == {} && Work(t.arr, t.queue) < Work(s.arr, s.queue)
  {
    hide Reached, Work;
    acts, t := TurnTaken(s0, acts0, s);
    if Work(t.arr, t.queue) >= Work(s.arr, s.queue) { acts, t := Taken(s0, acts, t, t.queue[0]); }
  }

  // First whatever is at the driver completes.
  lemma {:induction false} Emptied(s0: State, acts0: seq<Action>, s: State) returns (acts: seq<Action>, t: State)
    requires Reached(s0, acts0, s)
    ensures Reached(s0, acts, t) && t.drv == {}
    decreases |s.drv|
  {
    hide Inv, Awaited, Legal, Exec, Finish, Driven;
    acts, t := acts0, s;
    if s.drv != {} {
      var p :| p in s.drv;
      CompleteShape(s, p);
      acts, t := Drive(s0, acts0, s, Complete(p, 0));
      acts, t := Emptied(s0, acts, t);
    }
  }

  lemma {:induction false} Rounds(s0: State, acts0: seq<Action>, s: State) returns (acts: seq<Action>, t: State)
    requires Reached(s0, acts0, s) && s.drv == {}
    ensures Reached(s0, acts, t) && t.drv == {} && t.queue == []
    decreases Work(s.arr, s.queue)
  {
    hide Reached, Work;
    acts, t := acts0, s;
    if s.queue != [] {
      acts, t := Round(s0, acts0, s);
      acts, t := Rounds(s0, acts, t);
    }
  }

  // With nothing left, no sequence is in progress and whatever is not with the scheduler has ended.
  lemma AllEnded(t: State)
    requires Inv(t) && Awaited(t) && t.drv == {} && t.queue == []
    ensures !Active(t) && forall i :: 0 <= i < |t.arr| && i !in t.elv ==> EndedIn(t.ended, i)
  {
    if Active(t) { BusyQueue(t); }
    hide Core, Stage;
  }

  // From every reachable state of a draining queue some actions of the driver alone end every
  // request that is not with the scheduler, and with it the sequence in progress: the queue
  // never gets stuck.
  lemma QueueRunsDry(mode: bv8, acts: seq<Action>) returns (more: seq<Action>)
    requires Draining(mode) && Legal(Plain, Init(mode), acts)
    ensures var s := Exec(Plain, Init(mode), acts);
            && Driven(more) && Legal(Plain, s, more)
            && var t := Exec(Plain, s, more);
               && t.queue == [] && t.drv == {} && !Active(t)
               && (forall i :: 0 <= i < |s.arr| && i !in s.elv ==> EndedIn(t.ended, i))
               && (Active(s) ==> s.orig < |s.arr| && s.orig !in s.elv)
  {
    InitInv(mode);
    RunAwaited(Init(mode), acts);
    var s := Exec(Plain, Init(mode), acts);
    assert Reached(s, [], s);
    if Active(s) { OriginalApart(s); }
    hide Inv, Awaited, Legal, Exec;
    var t;
    more, t := Emptied(s, [], s);
    more, t := Rounds(s, more, t);
    AllEnded(t);
  }

  lemma FinishSets(s: State, p: Ptr)
    requires !p.Rq?
    ensures var t := Finish(s, p, 0); !Active(t) || Bit(t.ordseq, StageOf(p))
  {
    hide ElvCompleted;
  }

  // The step behind it: a proxy at the head whose turn has come is handed out, or its stage is
  // complete when the turn ends.
  lemma HeadProxyGoes(s: State, p: Ptr)
    requires Inv(s) && Active(s) && s.queue != [] && s.queue[0] == p && !p.Rq? && StageOf(p) == CurSeq(s.ordseq)
    ensures var t := Apply(Plain, s, Next); p in t.started || !Active(t) || Bit(t.ordseq, StageOf(p))
  {
    BusyVerdict(s);
    FinishSets(Unlink(s, 0), p);
    hide Inv, DoOrdered, CurSeq, Finish;
  }

  // ------------------------------------------------------- requests outside the order

  // A request that is no fs request waits for nobody: added at the front it goes out at the
  // next turn, whatever sequence is in progress,
  lemma SpecialPasses(s: State)
    requires Inv(s)
    ensures Rq(|s.arr|) in Apply(Plain, Apply(Plain, s, AddFront), Next).started
  {
    var t := Apply(Plain, s, AddFront);
    StepInv(s, AddFront);
    if Active(t) { BusyVerdict(t); } else { IdleVerdict(t); }
    hide Inv, DoOrdered, AtBarrier;
  }

  // and requeued it is at the head again.
  lemma SpecialRequeued(s: State, p: Ptr)
    requires Inv(s) && p in s.drv && Other(s, p)
    ensures var q := Apply(Plain, s, Requeue(p)).queue; q != [] && q[0] == p
  {
    if Active(s) && s.queue != [] {
      ReqSeqAtLeast(s.arr, s.orig, s.queue[0]);
      assert WalkTo(s.arr, s.orig, s.queue, ORDSEQ_DRAIN, 0) == 0;
    }
  }

  // Ordered by tag, a sequence in progress lets everything through at once but the next barrier.
  lemma TagHoldsBarriers(s: State)
    requires Active(s) && s.ordered & ORDERED_TAG != 0 && |s.queue| > 0
    requires forall p :: p in s.queue && !p.Rq? ==> !EmptyBarrier(s, p)
    ensures var h, t := s.queue[0], Apply(Config(true, true), s, Next);
            if h.Rq? && IsFs(s.arr, h) && HardBarrier(s.arr, h) then t == s else h in t.started
  {
    hide StartOrdered, CurSeq, ReqSeq;
  }

  // It also starts at once, with whatever is in flight, and counts as drained.
  lemma TagStartsAtOnce(s: State)
    requires !Active(s) && |s.queue| > 0 && s.queue[0].Rq? && IsFs(s.arr, s.queue[0]) && HardBarrier(s.arr, s.queue[0])
    requires s.nextOrdered & ORDERED_TAG != 0
    ensures var (t, v) := DoOrdered(s);
            && Bit(t.ordseq, ORDSEQ_DRAIN) && t.orig == s.queue[0].id && t.queue != [] && v == Hand(t.queue[0])
            && (t.queue[0] == PreFlush <==> s.nextOrdered & ORDERED_PREFLUSH != 0) && !t.queue[0].Rq?
  {
    ModeIsSet(s.nextOrdered);
  }

  lemma ModeIsSet(mode: bv8)
    requires mode & ORDERED_TAG != 0
    ensures mode != ORDERED_NONE
  {
  }
}
