// The ordered-barrier protocol of the block layer: block/blk-barrier.c together with
// the dispatch queue of block/elevator.c, as a transition system.
//
// Requests are pointers; what the source keeps in flag bits of the pointed-to request
// is kept here in sets of pointers (started, soft) and in an attribute table indexed by
// arrival number.  The fields from arr on are history: they do not steer the protocol.
module OrderedBarrier {
  import opened Collections

  // QUEUE_ORDSEQ_* and QUEUE_ORDERED_*.  A word of stage bits is kept as the set of its bits.
  type Bits = set<nat>

  const ORDSEQ_STARTED: nat := 0x01
  const ORDSEQ_DRAIN: nat := 0x02
  const ORDSEQ_PREFLUSH: nat := 0x04
  const ORDSEQ_BAR: nat := 0x08
  const ORDSEQ_POSTFLUSH: nat := 0x10
  const ORDSEQ_DONE: nat := 0x20

  const ORDERED_NONE: bv8 := 0x00
  const ORDERED_DRAIN: bv8 := 0x01
  const ORDERED_TAG: bv8 := 0x02
  const ORDERED_PREFLUSH: bv8 := 0x10
  const ORDERED_POSTFLUSH: bv8 := 0x20
  const ORDERED_DRAIN_FLUSH: bv8 := 0x31
  const ORDERED_DRAIN_FUA: bv8 := 0x51

  const EOPNOTSUPP: int := 95

  // The three proxies are fields of the queue itself; Rq(i) is the i-th request added.
  datatype Ptr = Rq(id: nat) | PreFlush | Bar | PostFlush

  // epoch: how many fs barriers were added before this request (history only).
  datatype Attr = Attr(fs: bool, barrier: bool, empty: bool, colour: bool, epoch: nat)

  datatype End = End(id: nat, error: int)

  datatype State = State(
    queue: seq<Ptr>, elv: set<nat>, inFlight: int,
    ordseq: Bits, orderr: int, orig: nat, ordcolor: bool, ordered: bv8, nextOrdered: bv8,
    started: set<Ptr>, soft: set<Ptr>, drv: set<Ptr>,
    arr: seq<Attr>, bars: seq<nat>, base: nat, issued: set<nat>, ended: seq<End>, errs: seq<int>)

  // What one turn of the loop of elv_next_request gives the driver.
  datatype Verdict = Hold | Hand(rq: Ptr) | Again

  datatype Placement = Placement(id: nat, pos: nat)

  datatype Action =
    | AddSorted
    | AddBack(fs: bool, barrier: bool, empty: bool, order: seq<Placement>)
    | AddFront
    | Dispatch(id: nat, pos: nat)
    | Next
    | Dequeue(pos: nat)
    | Requeue(rq: Ptr)
    | Complete(rq: Ptr, error: int)
    | BarError(error: int)
    | SetOrdered(mode: bv8)

  // ---------------------------------------------------------------- the code

  predicate Active(s: State) { s.ordseq != {} }

  predicate IsFs(arr: seq<Attr>, p: Ptr) {
    match p
    case Rq(i) => i < |arr| && arr[i].fs
    case Bar => true
    case _ => false
  }

  predicate HardBarrier(arr: seq<Attr>, p: Ptr) {
    match p
    case Rq(i) => i < |arr| && arr[i].barrier
    case _ => true
  }

  predicate EmptyBarrier(s: State, p: Ptr) {
    IsFs(s.arr, p) && HardBarrier(s.arr, p) &&
    var i := if p.Rq? then p.id else s.orig;
    i < |s.arr| && s.arr[i].empty
  }

  predicate Accounted(s: State, p: Ptr) { p in s.started && IsFs(s.arr, p) }

  // 1 << ffz(ordseq)
  function LowestZero(o: Bits): nat {
    if 0x01 !in o then 0x01
    else if 0x02 !in o then 0x02
    else if 0x04 !in o then 0x04
    else if 0x08 !in o then 0x08
    else if 0x10 !in o then 0x10
    else if 0x20 !in o then 0x20
    else if 0x40 !in o then 0x40 else 0x80
  }

  // blk_ordered_cur_seq
  function CurSeq(ordseq: Bits): nat { if ordseq == {} then 0 else LowestZero(ordseq) }

  // All five stages are complete.
  predicate AllStages(ordseq: Bits) { CurSeq(ordseq) == ORDSEQ_DONE }

  // blk_ordered_req_seq
  function ReqSeq(arr: seq<Attr>, orig: nat, p: Ptr): nat {
    match p
    case PreFlush => ORDSEQ_PREFLUSH
    case Bar => ORDSEQ_BAR
    case PostFlush => ORDSEQ_POSTFLUSH
    case Rq(i) =>
      if !IsFs(arr, p) then ORDSEQ_DRAIN
      else if orig < |arr| && arr[i].colour == arr[orig].colour then ORDSEQ_DRAIN
      else ORDSEQ_DONE
  }

  // blk_ordered_complete_seq
  function CompleteSeq(s: State, stage: nat, error: int): State {
    var s1 := s.(orderr := if error != 0 && s.orderr == 0 then error else s.orderr,
                 errs := s.errs + [error],
                 ordseq := s.ordseq + {stage});
    if !AllStages(s1.ordseq) then s1
    else s1.(ordseq := {}, base := s.base + 1, ended := s.ended + [End(s.orig, s1.orderr)])
  }

  // The second half of elv_completed_request: is the queue drained?
  function DrainCheck(s: State): State {
    if s.ordseq != {} && s.inFlight == 0 && CurSeq(s.ordseq) == ORDSEQ_DRAIN
       && |s.queue| > 0 && ReqSeq(s.arr, s.orig, s.queue[0]) > ORDSEQ_DRAIN
    then CompleteSeq(s, ORDSEQ_DRAIN, 0)
    else s
  }

  // elv_completed_request; the request's own flags go with it.
  function ElvCompleted(s: State, p: Ptr): State {
    DrainCheck(s.(inFlight := if Accounted(s, p) then s.inFlight - 1 else s.inFlight, started := s.started - {p}))
  }

  // The end of a request no longer on the queue: its end_io, or __blk_put_request.
  function Finish(s: State, p: Ptr, error: int): State {
    var d := ElvCompleted(s, p);
    match p
    case Rq(i) => d.(ended := d.ended + [End(i, error)])
    case PreFlush => CompleteSeq(d, ORDSEQ_PREFLUSH, error)
    case Bar => CompleteSeq(d, ORDSEQ_BAR, error)
    case PostFlush => CompleteSeq(d, ORDSEQ_POSTFLUSH, error)
  }

  // elv_dequeue_request
  function Unlink(s: State, k: nat): State
    requires k < |s.queue|
  {
    s.(queue := s.queue[..k] + s.queue[k + 1..],
       inFlight := if Accounted(s, s.queue[k]) then s.inFlight + 1 else s.inFlight)
  }

  // blk_rq_init of a proxy, then elv_insert(ELEVATOR_INSERT_FRONT)
  function PushProxy(s: State, p: Ptr): State {
    s.(started := s.started - {p}, soft := s.soft + {p}, queue := [p] + s.queue)
  }

  // start_ordered: the barrier leaves the queue and becomes the original of the sequence,
  function TakeBarrier(s: State): State
    requires |s.queue| > 0 && s.queue[0].Rq?
  {
    Unlink(s.(orderr := 0, ordered := s.nextOrdered, ordseq := s.ordseq + {ORDSEQ_STARTED},
              orig := s.queue[0].id, errs := []), 0)
  }

  // the proxies are stacked at the head in reverse order,
  function StackPostFlush(s: State): State {
    if s.ordered & ORDERED_POSTFLUSH != 0 && !EmptyBarrier(s, Bar)
    then PushProxy(s, PostFlush) else s.(ordseq := s.ordseq + {ORDSEQ_POSTFLUSH})
  }

  function StackPreFlush(s: State): State {
    if s.ordered & ORDERED_PREFLUSH != 0
    then PushProxy(s, PreFlush) else s.(ordseq := s.ordseq + {ORDSEQ_PREFLUSH})
  }

  function StackProxies(s: State): State { StackPreFlush(PushProxy(StackPostFlush(s), Bar)) }

  // and with nothing in flight the first of them goes out at once.
  function StartOrdered(s: State): (State, Verdict)
    requires |s.queue| > 0 && s.queue[0].Rq?
  {
    var t := StackProxies(TakeBarrier(s));
    if t.ordered & ORDERED_TAG != 0 || t.inFlight == 0
    then (t.(ordseq := t.ordseq + {ORDSEQ_DRAIN}), Hand(if t.ordered & ORDERED_PREFLUSH != 0 then PreFlush else Bar))
    else (t, Hold)
  }

  // blk_do_ordered on the first request of the queue
  function DoOrdered(s: State): (State, Verdict)
    requires |s.queue| > 0
  {
    var p := s.queue[0];
    var barrier := IsFs(s.arr, p) && HardBarrier(s.arr, p);
    if s.ordseq == {} then
      if !(barrier && p.Rq?) then (s, Hand(p))
      else if s.nextOrdered != ORDERED_NONE then StartOrdered(s)
      else
        var u := Unlink(s, 0);
        (u.(ended := u.ended + [End(p.id, -EOPNOTSUPP)], base := u.base + 1), Again)
    else if !IsFs(s.arr, p) && p != PreFlush && p != PostFlush then (s, Hand(p))
    else if s.ordered & ORDERED_TAG != 0 then
      if barrier && p != Bar then (s, Hold) else (s, Hand(p))
    else if ReqSeq(s.arr, s.orig, p) > CurSeq(s.ordseq) then (s, Hold)
    else (s, Hand(p))
  }

  // One turn of the loops of elv_next_request and __elv_next_request.
  function NextTurn(s: State): (State, Verdict) {
    if |s.queue| == 0 then (s, Hold)
    else
      var (t, v) := DoOrdered(s);
      if !v.Hand? then (t, v)
      else if EmptyBarrier(t, v.rq) && |t.queue| > 0 then
        // the empty barrier place holder ends here, the driver never sees it
        (Finish(Unlink(t, 0), v.rq, 0), Again)
      else
        (t.(started := t.started + {v.rq},
            issued := if v.rq.Rq? && IsFs(t.arr, v.rq) then t.issued + {v.rq.id} else t.issued), v)
  }

  // The walk of ELEVATOR_INSERT_REQUEUE: first position at or after k whose
  // sequence number is not below stage.
  function WalkTo(arr: seq<Attr>, orig: nat, q: seq<Ptr>, stage: nat, k: nat): (r: nat)
    requires k <= |q|
    ensures k <= r <= |q|
    ensures forall j :: k <= j < r ==> ReqSeq(arr, orig, q[j]) < stage
    ensures r < |q| ==> stage <= ReqSeq(arr, orig, q[r])
    decreases |q| - k
  {
    if k == |q| || stage <= ReqSeq(arr, orig, q[k]) then k else WalkTo(arr, orig, q, stage, k + 1)
  }

  // elv_requeue_request
  function RequeueRq(s: State, p: Ptr): State {
    var s1 := s.(inFlight := if Accounted(s, p) then s.inFlight - 1 else s.inFlight,
                 started := s.started - {p}, soft := s.soft + {p});
    var k := if s1.ordseq == {} then 0 else WalkTo(s1.arr, s1.orig, s1.queue, ReqSeq(s1.arr, s1.orig, p), 0);
    s1.(queue := InsertAt(s1.queue, k, p))
  }

  // The flags at which elv_dispatch_sort stops walking back.
  predicate Stops(s: State, p: Ptr) { p in s.soft || p in s.started || HardBarrier(s.arr, p) }

  predicate CanPlace(s: State, id: nat, pos: nat) {
    id in s.elv && pos <= |s.queue| && forall j :: pos <= j < |s.queue| ==> !Stops(s, s.queue[j])
  }

  // The scheduler hands a request to the dispatch queue (elv_dispatch_sort, elv_dispatch_add_tail).
  function Place(s: State, id: nat, pos: nat): State
    requires CanPlace(s, id, pos)
  {
    s.(elv := s.elv - {id}, queue := InsertAt(s.queue, pos, Rq(id)))
  }

  // elv_drain_elevator: forced dispatching until the scheduler is empty.
  predicate CanDrain(s: State, order: seq<Placement>)
    decreases |order|
  {
    if order == [] then s.elv == {}
    else CanPlace(s, order[0].id, order[0].pos) && CanDrain(Place(s, order[0].id, order[0].pos), order[1..])
  }

  function Drain(s: State, order: seq<Placement>): State
    requires CanDrain(s, order)
    decreases |order|
  {
    if order == [] then s else Drain(Place(s, order[0].id, order[0].pos), order[1..])
  }

  function Arrive(s: State, fs: bool, barrier: bool, empty: bool): State {
    s.(arr := s.arr + [Attr(fs, barrier, empty, s.ordcolor, |s.bars|)],
       ordcolor := if barrier then !s.ordcolor else s.ordcolor,
       bars := if fs && barrier then s.bars + [|s.arr|] else s.bars)
  }

  // What the owner of the queue allows: hard barriers that are not fs requests, and
  // switching the queue to QUEUE_ORDERED_NONE.
  datatype Config = Config(specialBarriers: bool, unordered: bool)

  predicate Draining(mode: bv8) {
    mode == ORDERED_DRAIN || mode == ORDERED_DRAIN_FLUSH || mode == ORDERED_DRAIN_FUA
  }

  ghost predicate Enabled(c: Config, s: State, a: Action) {
    match a
    case AddSorted => true
    case AddBack(fs, barrier, empty, order) =>
      (barrier && !fs ==> c.specialBarriers) && CanDrain(s, order)
    case AddFront => true
    case Dispatch(id, pos) => CanPlace(s, id, pos)
    case Next => true
    case Dequeue(pos) => pos < |s.queue| && s.queue[pos] in s.started
    case Requeue(p) => p in s.drv
    case Complete(p, error) => p in s.drv
    case BarError(error) => Bar in s.drv
    case SetOrdered(mode) => Draining(mode) || (mode == ORDERED_NONE && c.unordered)
  }

  ghost function Apply(c: Config, s: State, a: Action): State
    requires Enabled(c, s, a)
  {
    match a
    case AddSorted =>
      var t := Arrive(s, true, false, false);
      t.(elv := t.elv + {|s.arr|})
    case AddBack(fs, barrier, empty, order) =>
      var t := Arrive(Drain(s, order), fs, barrier, empty);
      t.(queue := t.queue + [Rq(|t.arr| - 1)], soft := t.soft + {Rq(|t.arr| - 1)})
    case AddFront =>
      var t := Arrive(s, false, false, false);
      t.(queue := [Rq(|s.arr|)] + t.queue, soft := t.soft + {Rq(|s.arr|)})
    case Dispatch(id, pos) => Place(s, id, pos)
    case Next => NextTurn(s).0
    case Dequeue(pos) => Unlink(s, pos).(drv := s.drv + {s.queue[pos]})
    case Requeue(p) => RequeueRq(s, p).(drv := s.drv - {p})
    case Complete(p, error) => Finish(s.(drv := s.drv - {p}), p, error)
    case BarError(error) =>
      s.(orderr := if error != 0 && s.orderr == 0 then error else s.orderr, errs := s.errs + [error])
    case SetOrdered(mode) => s.(ordered := mode, nextOrdered := mode)
  }

  ghost predicate Legal(c: Config, s: State, acts: seq<Action>)
    decreases |acts|
  {
    acts == [] || (Enabled(c, s, acts[0]) && Legal(c, Apply(c, s, acts[0]), acts[1..]))
  }

  ghost function Exec(c: Config, s: State, acts: seq<Action>): State
    requires Legal(c, s, acts)
    decreases |acts|
  {
    if acts == [] then s else Exec(c, Apply(c, s, acts[0]), acts[1..])
  }

  function Init(mode: bv8): State {
    State([], {}, 0, {}, 0, 0, false, mode, mode, {}, {}, {}, [], [], 0, {}, [], [])
  }
}
