// The request queue of blk-barrier.c and elevator.c as the object its functions update in
// place.  Each method is proved to be the corresponding step of the OrderedBarrier model.
module RequestQueueObject {
  import opened OrderedBarrier

  datatype History = History(drv: set<Ptr>, bars: seq<nat>, base: nat, issued: set<nat>, ended: seq<End>,
                             errs: seq<int>)

  class RequestQueue {
    var queueHead: seq<Ptr>
    var elv: set<nat>
    var inFlight: int
    var ordseq: Bits
    var orderr: int
    var origBarRq: nat
    var ordcolor: bool
    var ordered: bv8
    var nextOrdered: bv8
    var started: set<Ptr>
    var soft: set<Ptr>
    var attr: seq<Attr>
    var sector: map<Ptr, nat>
    var writes: set<Ptr>
    var endSector: nat
    // history
    ghost var hist: History

    ghost function View(): State
      reads this
    {
      State(queueHead, elv, inFlight, ordseq, orderr, origBarRq, ordcolor, ordered, nextOrdered,
            started, soft, hist.drv, attr, hist.bars, hist.base, hist.issued, hist.ended, hist.errs)
    }

    // blk_ordered_complete_seq
    method CompleteStage(stage: nat, error: int)
      modifies `ordseq, `orderr, `hist
      ensures View() == CompleteSeq(old(View()), stage, error)
    {
      if error != 0 && orderr == 0 { orderr := error; }
      hist := hist.(errs := hist.errs + [error]);
      ordseq := ordseq + {stage};
      if !AllStages(ordseq) { return; }
      ordseq := {};
      hist := hist.(base := hist.base + 1, ended := hist.ended + [End(origBarRq, orderr)]);
    }

    // elv_completed_request
    method ElvCompletedRequest(p: Ptr)
      modifies `inFlight, `started, `ordseq, `orderr, `hist
      ensures View() == ElvCompleted(old(View()), p)
    {
      if p in started && IsFs(attr, p) { inFlight := inFlight - 1; }
      started := started - {p};
      if ordseq != {} {
        if inFlight == 0 && CurSeq(ordseq) == ORDSEQ_DRAIN && |queueHead| > 0
           && ReqSeq(attr, origBarRq, queueHead[0]) > ORDSEQ_DRAIN {
          CompleteStage(ORDSEQ_DRAIN, 0);
        }
      }
    }

    // pre_flush_end_io, bar_end_io, post_flush_end_io and __blk_put_request
    method EndIo(p: Ptr, error: int)
      modifies `inFlight, `started, `ordseq, `orderr, `hist
      ensures View() == Finish(old(View()), p, error)
    {
      ElvCompletedRequest(p);
      match p
      case Rq(i) => hist := hist.(ended := hist.ended + [End(i, error)]);
      case PreFlush => CompleteStage(ORDSEQ_PREFLUSH, error);
      case Bar => CompleteStage(ORDSEQ_BAR, error);
      case PostFlush => CompleteStage(ORDSEQ_POSTFLUSH, error);
    }

    // elv_dequeue_request
    method DequeueRequest(k: nat)
      requires k < |queueHead|
      modifies `queueHead, `inFlight
      ensures View() == Unlink(old(View()), k)
    {
      var rq := queueHead[k];
      queueHead := queueHead[..k] + queueHead[k + 1..];
      if rq in started && IsFs(attr, rq) { inFlight := inFlight + 1; }
    }

    // blk_rq_init and elv_insert(ELEVATOR_INSERT_FRONT), as in queue_flush
    method QueueProxy(p: Ptr)
      modifies `queueHead, `started, `soft
      ensures View() == PushProxy(old(View()), p)
    {
      started := started - {p};
      soft := soft + {p};
      queueHead := [p] + queueHead;
    }

    // start_ordered, in the order of its comments
    method TakeBarrierRequest()
      requires |queueHead| > 0 && queueHead[0].Rq?
      modifies `queueHead, `inFlight, `ordseq, `orderr, `hist, `ordered, `origBarRq
      ensures View() == TakeBarrier(old(View()))
    {
      orderr := 0;
      hist := hist.(errs := []);
      ordered := nextOrdered;
      ordseq := ordseq + {ORDSEQ_STARTED};
      origBarRq := queueHead[0].id;
      DequeueRequest(0);
    }

    method QueuePostFlush()
      modifies `queueHead, `started, `soft, `ordseq
      ensures View() == StackPostFlush(old(View()))
    {
      hide PushProxy;
      if ordered & ORDERED_POSTFLUSH != 0 && !(origBarRq < |attr| && attr[origBarRq].empty) { QueueProxy(PostFlush); }
      else { ordseq := ordseq + {ORDSEQ_POSTFLUSH}; }
    }

    method QueuePreFlush()
      modifies `queueHead, `started, `soft, `ordseq
      ensures View() == StackPreFlush(old(View()))
    {
      hide PushProxy;
      if ordered & ORDERED_PREFLUSH != 0 { QueueProxy(PreFlush); }
      else { ordseq := ordseq + {ORDSEQ_PREFLUSH}; }
    }

    method StackSequence()
      modifies `queueHead, `started, `soft, `ordseq
      ensures View() == StackProxies(old(View()))
    {
      hide PushProxy, StackPostFlush, StackPreFlush;
      QueuePostFlush();
      QueueProxy(Bar);
      QueuePreFlush();
    }

    method Start() returns (v: Verdict)
      requires |queueHead| > 0 && queueHead[0].Rq?
      modifies `queueHead, `inFlight, `started, `soft, `ordseq, `orderr, `hist, `ordered, `origBarRq
      ensures (View(), v) == StartOrdered(old(View()))
    {
      TakeBarrierRequest();
      StackSequence();
      if ordered & ORDERED_TAG != 0 || inFlight == 0 {
        ordseq := ordseq + {ORDSEQ_DRAIN};
        v := Hand(if ordered & ORDERED_PREFLUSH != 0 then PreFlush else Bar);
      } else {
        v := Hold;
      }
    }

    // blk_do_ordered
    method DoOrderedRequest() returns (v: Verdict)
      requires |queueHead| > 0
      modifies `queueHead, `inFlight, `started, `soft, `ordseq, `orderr, `hist, `ordered, `origBarRq
      ensures (View(), v) == DoOrdered(old(View()))
    {
      var rq := queueHead[0];
      var isBarrier := IsFs(attr, rq) && HardBarrier(attr, rq);
      if ordseq == {} {
        if !(isBarrier && rq.Rq?) { return Hand(rq); }
        if nextOrdered != ORDERED_NONE {
          v := Start();
          return;
        }
        DequeueRequest(0);
        hist := hist.(ended := hist.ended + [End(rq.id, -EOPNOTSUPP)], base := hist.base + 1);
        return Again;
      }
      if !IsFs(attr, rq) && rq != PreFlush && rq != PostFlush { return Hand(rq); }
      if ordered & ORDERED_TAG != 0 {
        if isBarrier && rq != Bar { return Hold; }
      } else {
        if ReqSeq(attr, origBarRq, rq) > CurSeq(ordseq) { return Hold; }
      }
      return Hand(rq);
    }

    // One turn of elv_next_request
    method NextRequestTurn() returns (v: Verdict)
      modifies this
      ensures (View(), v) == NextTurn(old(View()))
    {
      if |queueHead| == 0 { return Hold; }
      v := DoOrderedRequest();
      if !v.Hand? { return; }
      var i := if v.rq.Rq? then v.rq.id else origBarRq;
      if IsFs(attr, v.rq) && HardBarrier(attr, v.rq) && i < |attr| && attr[i].empty && |queueHead| > 0 {
        DequeueRequest(0);
        EndIo(v.rq, 0);
        return Again;
      }
      started := started + {v.rq};
      if v.rq.Rq? && IsFs(attr, v.rq) { hist := hist.(issued := hist.issued + {v.rq.id}); }
    }

    // The list walk of ELEVATOR_INSERT_REQUEUE
    method WalkQueue(seqno: nat) returns (pos: nat)
      ensures pos == WalkTo(attr, origBarRq, queueHead, seqno, 0)
    {
      pos := 0;
      while pos < |queueHead| && ReqSeq(attr, origBarRq, queueHead[pos]) < seqno
        invariant 0 <= pos <= |queueHead|
        invariant WalkTo(attr, origBarRq, queueHead, seqno, 0) == WalkTo(attr, origBarRq, queueHead, seqno, pos)
      {
        pos := pos + 1;
      }
    }

    // elv_requeue_request
    method RequeueRequest(p: Ptr)
      modifies `queueHead, `inFlight, `started, `soft
      ensures View() == RequeueRq(old(View()), p)
    {
      if p in started && IsFs(attr, p) { inFlight := inFlight - 1; }
      started := started - {p};
      soft := soft + {p};
      var pos := 0;
      if ordseq != {} { pos := WalkQueue(ReqSeq(attr, origBarRq, p)); }
      queueHead := queueHead[..pos] + [p] + queueHead[pos..];
    }

    // A sector is served no later than another by a scan that starts at the boundary.
    static predicate NoLater(boundary: nat, a: nat, b: nat) {
      if (a >= boundary) == (b >= boundary) then a <= b else b < boundary
    }

    // What a request must not be sorted in front of.
    predicate Precedes(p: Ptr, rq: Ptr)
      requires p in sector && rq in sector
      reads this
    {
      || (rq in writes) != (p in writes) || p in soft || HardBarrier(attr, p) || p in started
      || NoLater(endSector, sector[p], sector[rq])
    }

    // elv_dispatch_sort: behind the last request that the new one must not go in front of.
    method DispatchSort(id: nat) returns (ghost pos: nat)
      requires id in elv && Rq(id) in sector && forall p :: p in queueHead ==> p in sector
      modifies `queueHead, `elv
      ensures CanPlace(old(View()), id, pos) && View() == Place(old(View()), id, pos)
      ensures forall j :: pos <= j < |old(queueHead)| ==> !old(Precedes(queueHead[j], Rq(id)))
      ensures pos > 0 ==> old(Precedes(queueHead[pos - 1], Rq(id)))
    {
      ghost var before := View();
      var rq := Rq(id);
      var boundary := endSector;
      var k := |queueHead|;
      while k > 0
        invariant 0 <= k <= |queueHead|
        invariant forall j :: k <= j < |queueHead| ==> !Precedes(queueHead[j], rq) && !Stops(before, queueHead[j])
      {
        var p := queueHead[k - 1];
        if (rq in writes) != (p in writes) { break; }
        if p in soft || HardBarrier(attr, p) || p in started { break; }
        if sector[rq] >= boundary {
          if sector[p] < boundary {
            k := k - 1;
            continue;
          }
        } else {
          if sector[p] >= boundary { break; }
        }
        if sector[rq] >= sector[p] { break; }
        k := k - 1;
      }
      pos := k;
      elv := elv - {id};
      queueHead := queueHead[..k] + [rq] + queueHead[k..];
    }
  }
}
