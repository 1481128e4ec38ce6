// What the ordered-barrier protocol guarantees over whole runs, and exactly for which queues.
module BarrierTheorems {
  import opened Collections
  import opened OrderedBarrier
  import opened BarrierSafety

  lemma StepInv(s: State, a: Action)
    requires Inv(s) && Enabled(Plain, s, a)
    ensures Inv(Apply(Plain, s, a))
  {
    hide Core, Stage, Accountable;
    match a
    case AddSorted => AddSortedInv(s);
    case AddBack(fs, barrier, empty, order) => AddInv(s, a);
    case AddFront => AddInv(s, a);
    case Dispatch(id, pos) => PlaceInv(s, id, pos);
    case Next => NextInv(s);
    case Dequeue(pos) => DequeueInv(s, pos);
    case Requeue(p) => RequeueInv(s, p);
    case Complete(p, error) => CompleteInv(s, p, error);
    case BarError(error) => BarErrorInv(s, error);
    case SetOrdered(mode) => SetOrderedInv(s, mode);
  }

  lemma BarErrorInv(s: State, error: int)
    requires Inv(s) && Bar in s.drv
    ensures Inv(Apply(Plain, s, BarError(error)))
  {
    hide Table, Issued, FirstError, Sorted, Distinct, Counted, Scheduled, ProxiesSoft, Waiting, Drained, Stage;
    var t := Apply(Plain, s, BarError(error));
    FirstErrorKept(s.errs, error);
    assert forall k: nat :: Live(t, k) == Live(s, k);
    SameLives(s, t);
  }

  lemma {:induction false} RunInv(s: State, acts: seq<Action>)
    requires Inv(s) && Legal(Plain, s, acts)
    ensures Inv(Exec(Plain, s, acts))
    decreases |acts|
  {
    hide Inv;
    if acts != [] {
      StepInv(s, acts[0]);
      RunInv(Apply(Plain, s, acts[0]), acts[1..]);
    }
  }

  // The proxy barrier has been handed to the driver, or has ended.
  ghost predicate BarBegun(s: State) { Active(s) && (Bar in s.started || Bit(s.ordseq, ORDSEQ_BAR)) }

  // The promise of a barrier: what was queued before the barrier in progress has completed
  // when its proxy reaches the driver, and nothing queued after a barrier that has not ended,
  // whether in progress or waiting, has been handed out.
  ghost predicate Safe(s: State) {
    && (BarBegun(s) ==> forall i :: 0 <= i < s.orig && i < |s.arr| && s.arr[i].fs ==> EndedIn(s.ended, i) && !Live(s, i))
    && (forall b, i ::
          0 <= b < i < |s.arr| && s.arr[b].fs && s.arr[b].barrier && !EndedIn(s.ended, b) ==> i !in s.issued)
  }

  lemma InvIsSafe(s: State)
    requires Inv(s)
    ensures Safe(s)
  {
    hide FirstError, Counted, Scheduled, ProxiesSoft;
    if BarBegun(s) {
      OriginalIsBarrier(s);
      forall i | 0 <= i < s.orig && i < |s.arr| && s.arr[i].fs ensures EndedIn(s.ended, i) && !Live(s, i) {
        BeforeBegunBarrier(s, i);
      }
    }
    forall b, i | 0 <= b < i < |s.arr| && s.arr[b].fs && s.arr[b].barrier && !EndedIn(s.ended, b) ensures i !in s.issued {
      assert Live(s, b);
      LiveBarrier(s, b);
    }
  }

  lemma BeforeBegunBarrier(s: State, i: nat)
    requires Inv(s) && BarBegun(s) && i < s.orig && i < |s.arr| && s.arr[i].fs
    ensures !Live(s, i)
  {
    hide FirstError, Counted, ProxiesSoft, Accountable, Sorted, Issued;
    OriginalIsBarrier(s);
    assert s.arr[i].epoch <= s.base;
  }

  lemma LiveBarrier(s: State, b: nat)
    requires Inv(s) && b < |s.arr| && s.arr[b].barrier && Live(s, b)
    ensures s.arr[b].epoch >= s.base
  {
    hide FirstError, Counted, ProxiesSoft, Accountable, Issued, Stage, Drained;
    if Active(s) { OriginalIsBarrier(s); }
  }

  // Every run of a draining queue keeps the promise, however many barriers wait.
  lemma BarrierOrder(mode: bv8, acts: seq<Action>)
    requires Draining(mode) && Legal(Plain, Init(mode), acts)
    ensures Safe(Exec(Plain, Init(mode), acts))
  {
    hide Inv, Safe;
    InitInv(mode);
    RunInv(Init(mode), acts);
    InvIsSafe(Exec(Plain, Init(mode), acts));
  }

  // ------------------------------------------------------- one sequence

  // Each stage is completed once (BUG_ON(q->ordseq & seq) cannot fire), no stage is lost
  // while the sequence runs, and the step that completes the last one ends the original
  // barrier, and nothing else, with the first error reported since the sequence started.
  lemma StagesOnce(s: State, p: Ptr, error: int)
    requires Inv(s) && p in s.drv && !p.Rq?
    ensures var t := Apply(Plain, s, Complete(p, error));
            && Active(s) && StageOf(p) !in s.ordseq
            && (Active(t) ==> t.ordseq == s.ordseq + {StageOf(p)} && t.ended == s.ended && t.orig == s.orig)
            && (!Active(t) ==>
                  && s.ordseq + {StageOf(p)} >= {ORDSEQ_DRAIN, ORDSEQ_PREFLUSH, ORDSEQ_BAR, ORDSEQ_POSTFLUSH}
                  && !EndedIn(s.ended, s.orig)
                  && t.ended == s.ended + [End(s.orig, FirstError(s.errs + [error]))])
  {
    hide Core, Stage;
    ProxyEnds(s, p, error);
    var r := Released(s, p);
    ReleasedCore(s, p);
    var t := CompleteSeq(r, StageOf(p), error);
    if !Active(t) { StageLast(s, p, error); }
  }

  lemma StageLast(s: State, p: Ptr, error: int)
    requires Inv(s) && p in s.drv && !p.Rq?
    requires !Active(CompleteSeq(Released(s, p), StageOf(p), error))
    ensures Active(s) && s.ordseq + {StageOf(p)} >= {ORDSEQ_DRAIN, ORDSEQ_PREFLUSH, ORDSEQ_BAR, ORDSEQ_POSTFLUSH}
    ensures !EndedIn(s.ended, s.orig)
    ensures CompleteSeq(Released(s, p), StageOf(p), error).ended == s.ended + [End(s.orig, FirstError(s.errs + [error]))]
  {
    hide Table, Issued, Sorted, Distinct, Counted, Scheduled, ProxiesSoft, Waiting, Drained, Started, Apart;
    FirstErrorKept(s.errs, error);
    assert forall k :: 0 <= k < |s.ended| ==> s.ended[k].id != s.orig;
  }

  // No request ends twice, and none is lost: at any time each is live or has ended.
  lemma EveryRequestEndsOnce(mode: bv8, acts: seq<Action>)
    requires Draining(mode) && Legal(Plain, Init(mode), acts)
    ensures var s := Exec(Plain, Init(mode), acts);
            && (forall j, k :: 0 <= j < k < |s.ended| ==> s.ended[j].id != s.ended[k].id)
            && (forall i :: 0 <= i < |s.arr| ==> Live(s, i) != EndedIn(s.ended, i))
  {
    hide Core, Stage;
    InitInv(mode);
    RunInv(Init(mode), acts);
  }

  // elv_completed_request looks at the first request of the queue without asking whether
  // there is one: while it waits for the drain there always is.
  lemma DrainSeesAHead(s: State)
    requires Inv(s) && Active(s) && CurSeq(s.ordseq) == ORDSEQ_DRAIN
    ensures Bar in s.queue
  {
    hide Table, Issued, Sorted, Distinct, Counted, Scheduled, ProxiesSoft, Waiting, Drained, Apart, Accountable,
         Original;
  }

  // ------------------------------------------------------- exactly which queues

  lemma {:induction false} LegalSnoc(c: Config, s: State, acts: seq<Action>, a: Action)
    requires Legal(c, s, acts) && Enabled(c, Exec(c, s, acts), a)
    ensures Legal(c, s, acts + [a]) && Exec(c, s, acts + [a]) == Apply(c, Exec(c, s, acts), a)
    decreases |acts|
  {
    if acts == [] {
      assert (acts + [a])[1..] == [];
    } else {
      LegalSnoc(c, Apply(c, s, acts[0]), acts[1..], a);
      assert (acts + [a])[1..] == acts[1..] + [a];
    }
  }

  lemma Then(c: Config, s0: State, acts: seq<Action>, s: State, a: Action) returns (more: seq<Action>, t: State)
    requires Legal(c, s0, acts) && Exec(c, s0, acts) == s && Enabled(c, s, a)
    ensures Legal(c, s0, more) && Exec(c, s0, more) == t && t == Apply(c, s, a)
  {
    LegalSnoc(c, s0, acts, a);
    more := acts + [a];
    t := Apply(c, s, a);
  }

  // One write handed out and in flight.
  ghost function WriteInFlight(): State {
    Init(ORDERED_DRAIN).(arr := [Attr(true, false, false, false, 0)], started := {Rq(0)}, issued := {0},
                         drv := {Rq(0)}, inFlight := 1)
  }

  lemma ReachWriteInFlight(c: Config) returns (acts: seq<Action>)
    ensures Legal(c, Init(ORDERED_DRAIN), acts) && Exec(c, Init(ORDERED_DRAIN), acts) == WriteInFlight()
  {
    var s0 := Init(ORDERED_DRAIN);
    var s := s0;
    acts := [];
    acts, s := Then(c, s0, acts, s, AddSorted);
    assert CanPlace(s, 0, 0);
    acts, s := Then(c, s0, acts, s, Dispatch(0, 0));
    assert s.queue == [Rq(0)] && s.elv == {};
    acts, s := Then(c, s0, acts, s, Next);
    assert s.started == {Rq(0)} && s.issued == {0};
    acts, s := Then(c, s0, acts, s, Dequeue(0));
    assert s.queue == [] && s.drv == {Rq(0)};
  }

  // From a barrier at the head and a write of the other colour in flight.
  ghost predicate Stranded(s: State, other: Ptr) {
    && s.queue == [other, Rq(2)] && s.ordseq == {} && s.inFlight == 1 && s.nextOrdered == ORDERED_DRAIN
    && |s.arr| > 2 && s.arr[0].fs && !s.arr[0].colour
    && s.arr[2].fs && s.arr[2].barrier && s.arr[2].colour && !s.arr[2].empty
    && s.drv == {Rq(0)} && s.started == {Rq(0)}
    && other.Rq? && other.id < |s.arr| && other.id != 0 && other != Rq(2) && !s.arr[other.id].fs
    && forall k :: 0 <= k < |s.ended| ==> s.ended[k].id != 0
  }

  lemma StartBehindOther(c: Config, acts0: seq<Action>, s1: State, other: Ptr) returns (acts: seq<Action>)
    requires Legal(c, Init(ORDERED_DRAIN), acts0) && Exec(c, Init(ORDERED_DRAIN), acts0) == s1 && Stranded(s1, other)
    ensures Legal(c, Init(ORDERED_DRAIN), acts) && !Safe(Exec(c, Init(ORDERED_DRAIN), acts))
  {
    hide Safe, Legal, Exec, WalkTo, StartOrdered, Finish, RequeueRq, Place, CanPlace;
    var s0 := Init(ORDERED_DRAIN);
    var s := s1;
    acts := acts0;
    acts, s := Then(c, s0, acts, s, Next);
    acts, s := Then(c, s0, acts, s, Dequeue(0));
    assert s.queue == [Rq(2)] && s.inFlight == 1;
    StartShape(s);
    acts, s := Then(c, s0, acts, s, Next);
    assert s.queue == [Bar] && s.ordseq == {0x01, 0x04, 0x10} && s.orig == 2;
    acts := BarrierOvertakes(c, acts, s, other);
  }

  // One write in flight, then a hard barrier that is not an fs request, then a barrier: the
  // requeued write has the colour of requests behind the barrier, and the barrier overtakes it.
  lemma SpecialBarrierOvertakes(c: Config) returns (acts: seq<Action>)
    requires c.specialBarriers
    ensures Legal(c, Init(ORDERED_DRAIN), acts) && !Safe(Exec(c, Init(ORDERED_DRAIN), acts))
  {
    hide Safe, Legal, Exec, WalkTo;
    var s0 := Init(ORDERED_DRAIN);
    acts := ReachWriteInFlight(c);
    var s := WriteInFlight();
    acts, s := Then(c, s0, acts, s, AddBack(false, true, false, []));
    assert s.queue == [Rq(1)];
    acts, s := Then(c, s0, acts, s, AddBack(true, true, false, []));
    assert s.queue == [Rq(1), Rq(2)] && s.arr[2] == Attr(true, true, false, true, 0);
    acts := StartBehindOther(c, acts, s, Rq(1));
  }

  // A sequence waits for a write of the other colour; something else is with the driver.
  lemma BarrierOvertakes(c: Config, acts0: seq<Action>, s1: State, other: Ptr) returns (acts: seq<Action>)
    requires Legal(c, Init(ORDERED_DRAIN), acts0) && Exec(c, Init(ORDERED_DRAIN), acts0) == s1
    requires s1.queue == [Bar] && s1.ordseq == {0x01, 0x04, 0x10} && s1.inFlight == 1 && s1.ordered == ORDERED_DRAIN
    requires 0 < s1.orig < |s1.arr| && s1.arr[s1.orig].colour && !s1.arr[s1.orig].empty
    requires s1.arr[0].fs && !s1.arr[0].colour && Rq(0) in s1.drv && Rq(0) in s1.started
    requires other in s1.drv && other.Rq? && !IsFs(s1.arr, other)
    requires forall k :: 0 <= k < |s1.ended| ==> s1.ended[k].id != 0
    requires other.id != 0
    ensures Legal(c, Init(ORDERED_DRAIN), acts) && !Safe(Exec(c, Init(ORDERED_DRAIN), acts))
  {
    hide Legal, Exec;
    var s0 := Init(ORDERED_DRAIN);
    var s := s1;
    acts := acts0;
    acts, s := Then(c, s0, acts, s, Requeue(Rq(0)));
    assert WalkTo(s.arr, s.orig, s1.queue, ORDSEQ_DONE, 0) == 1;
    assert s.queue == [Bar, Rq(0)] && s.inFlight == 0;
    acts, s := Then(c, s0, acts, s, Complete(other, 0));
    assert s.ordseq == {0x01, 0x02, 0x04, 0x10} && s.queue == [Bar, Rq(0)];
    acts, s := Then(c, s0, acts, s, Next);
    assert Bar in s.started && Rq(0) in s.queue && BarBegun(s);
    assert Live(s, 0);
  }

  // The write is in flight when a barrier ends with EOPNOTSUPP because the queue is
  // unordered for a moment; it then has the wrong colour for the next barrier.
  lemma UnorderedBarrierOvertakes(c: Config) returns (acts: seq<Action>)
    requires c.unordered
    ensures Legal(c, Init(ORDERED_DRAIN), acts) && !Safe(Exec(c, Init(ORDERED_DRAIN), acts))
  {
    hide Safe, Legal, Exec, WalkTo, StartOrdered, Finish, RequeueRq, Place, CanPlace;
    var s0 := Init(ORDERED_DRAIN);
    acts := ReachWriteInFlight(c);
    var s := WriteInFlight();
    acts, s := Then(c, s0, acts, s, AddBack(true, true, false, []));
    acts, s := Then(c, s0, acts, s, SetOrdered(ORDERED_NONE));
    assert s.queue == [Rq(1)];
    acts, s := Then(c, s0, acts, s, Next);
    assert s.queue == [] && s.ended == [End(1, -EOPNOTSUPP)];
    acts, s := Then(c, s0, acts, s, SetOrdered(ORDERED_DRAIN));
    acts, s := Then(c, s0, acts, s, AddBack(true, true, false, []));
    assert s.queue == [Rq(2)] && s.arr[2] == Attr(true, true, false, true, 1);
    acts, s := Then(c, s0, acts, s, AddFront);
    assert s.queue == [Rq(3), Rq(2)];
    acts := StartBehindOther(c, acts, s, Rq(3));
  }

  // The promise holds in every run if and only if the owner of the queue neither queues
  // hard barriers that are not fs requests nor lets the queue become unordered.
  lemma BarriersHoldExactlyWhenPlain(c: Config)
    ensures (forall mode, acts {:trigger Legal(c, Init(mode), acts)} ::
               Draining(mode) && Legal(c, Init(mode), acts) ==> Safe(Exec(c, Init(mode), acts)))
            <==> !c.specialBarriers && !c.unordered
  {
    hide Inv, Safe;
    if !c.specialBarriers && !c.unordered {
      forall mode, acts | Draining(mode) && Legal(c, Init(mode), acts) ensures Safe(Exec(c, Init(mode), acts)) {
        BarrierOrder(mode, acts);
      }
    } else {
      var acts;
      if c.specialBarriers { acts := SpecialBarrierOvertakes(c); }
      else { acts := UnorderedBarrierOvertakes(c); }
      assert Draining(ORDERED_DRAIN) && Legal(c, Init(ORDERED_DRAIN), acts);
    }
  }
}
