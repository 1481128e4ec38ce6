// The inductive invariant of the ordered-barrier protocol and its safety theorems.
//
// The single colour bit repeats behind a second waiting barrier, so the invariant does not
// rest on colours.  Every request gets a rank in the order the barriers impose, the queue is
// sorted by rank, and colours are shown to agree with ranks where the code looks at them.
module BarrierSafety {
  import opened Collections
  import opened OrderedBarrier

  predicate Bit(o: Bits, b: nat) { b in o }

  // Twice-refined epoch: plain requests of an epoch, then the proxies of the barrier that
  // closes it, then that barrier itself.
  ghost function Rank(arr: seq<Attr>, base: nat, p: Ptr): int {
    match p
    case Rq(i) => if i < |arr| then 8 * arr[i].epoch + (if arr[i].barrier then 4 else 0) else 0
    case PreFlush => 8 * base + 1
    case Bar => 8 * base + 2
    case PostFlush => 8 * base + 3
  }

  ghost predicate Ordered(arr: seq<Attr>, p: Ptr) { p.Rq? ==> IsFs(arr, p) }

  ghost predicate At(q: seq<Ptr>, drv: set<Ptr>, p: Ptr) { p in q || p in drv }

  // ------------------------------------------------------- parts of the invariant

  // Arrival table: colours count barriers, epochs follow arrival order.
  ghost predicate Table(arr: seq<Attr>, bars: seq<nat>) {
    && (forall i :: 0 <= i < |arr| ==>
          arr[i].epoch <= |bars| && arr[i].colour == (arr[i].epoch % 2 == 1)
          && (arr[i].barrier ==> arr[i].fs && arr[i].epoch < |bars| && bars[arr[i].epoch] == i))
    && (forall e :: 0 <= e < |bars| ==>
          bars[e] < |arr| && arr[bars[e]].barrier && arr[bars[e]].epoch == e)
    && (forall i, j :: 0 <= i < j < |arr| ==>
          arr[i].epoch <= arr[j].epoch && (arr[i].barrier ==> arr[i].epoch < arr[j].epoch))
  }

  ghost predicate Modes(ordered: bv8, nextOrdered: bv8) {
    ordered & ORDERED_TAG == 0 && Draining(nextOrdered)
  }

  // A request is on the queue, or with the driver, or with the scheduler.
  ghost predicate Apart(q: seq<Ptr>, drv: set<Ptr>, elv: set<nat>, arr: seq<Attr>) {
    && (forall p :: p in drv ==> p !in q)
    && (forall i: nat :: Rq(i) in q ==> i < |arr| && i !in elv)
    && (forall i: nat :: Rq(i) in drv ==> i < |arr| && i !in elv)
  }

  ghost predicate Scheduled(elv: set<nat>, arr: seq<Attr>, bars: seq<nat>) {
    forall i :: i in elv ==> i < |arr| && arr[i].fs && !arr[i].barrier && arr[i].epoch == |bars|
  }

  ghost predicate Started(started: set<Ptr>, q: seq<Ptr>, drv: set<Ptr>, arr: seq<Attr>, base: nat) {
    && (forall p :: p in started ==> At(q, drv, p))
    && (forall p :: p in drv && Ordered(arr, p) ==> p in started)
    && (forall i: nat :: Rq(i) in started && IsFs(arr, Rq(i)) ==> arr[i].epoch == base && !arr[i].barrier)
  }

  ghost function FsOf(arr: seq<Attr>, ps: set<Ptr>): set<Ptr> { set p | p in ps && IsFs(arr, p) }

  ghost predicate Counted(inFlight: int, arr: seq<Attr>, drv: set<Ptr>) { inFlight == |FsOf(arr, drv)| }

  ghost predicate Sorted(q: seq<Ptr>, arr: seq<Attr>, base: nat) {
    && (forall i, j :: 0 <= i < j < |q| && Ordered(arr, q[i]) && Ordered(arr, q[j])
          ==> Rank(arr, base, q[i]) <= Rank(arr, base, q[j]))
    && (forall i: nat :: Rq(i) in q && IsFs(arr, Rq(i)) ==> arr[i].epoch >= base)
  }

  // Every barrier not yet ended waits on the queue, except the one in progress.
  ghost predicate Waiting(q: seq<Ptr>, bars: seq<nat>, base: nat, active: bool) {
    base <= |bars| &&
    forall e :: base <= e < |bars| ==> Rq(bars[e]) in q || (active && e == base)
  }

  ghost predicate ProxiesSoft(q: seq<Ptr>, soft: set<Ptr>) {
    forall p :: p in q && !p.Rq? ==> p in soft
  }

  // The stage bits say which proxies are still to come and who may be with the driver.
  ghost predicate Stage(o: Bits, q: seq<Ptr>, drv: set<Ptr>, started: set<Ptr>) {
    if o == {} then !At(q, drv, PreFlush) && !At(q, drv, Bar) && !At(q, drv, PostFlush)
    else
      && Bit(o, ORDSEQ_STARTED) && !Bit(o, ORDSEQ_DONE)
      && !(Bit(o, ORDSEQ_DRAIN) && Bit(o, ORDSEQ_PREFLUSH) && Bit(o, ORDSEQ_BAR) && Bit(o, ORDSEQ_POSTFLUSH))
      && Bit(o, ORDSEQ_PREFLUSH) == !At(q, drv, PreFlush)
      && Bit(o, ORDSEQ_BAR) == !At(q, drv, Bar)
      && Bit(o, ORDSEQ_POSTFLUSH) == !At(q, drv, PostFlush)
      && (PreFlush in started ==> Bit(o, ORDSEQ_DRAIN))
      && (Bar in started || Bit(o, ORDSEQ_BAR) ==> Bit(o, ORDSEQ_DRAIN) && Bit(o, ORDSEQ_PREFLUSH))
      && (PostFlush in started ==> Bit(o, ORDSEQ_BAR))
  }

  ghost predicate Original(o: Bits, orig: nat, q: seq<Ptr>, drv: set<Ptr>, bars: seq<nat>, base: nat) {
    o != {} ==> base < |bars| && orig == bars[base] && Rq(orig) !in q && Rq(orig) !in drv
  }

  // Once drained, nothing of the barrier's own epoch is left.
  ghost predicate Drained(o: Bits, q: seq<Ptr>, drv: set<Ptr>, arr: seq<Attr>, base: nat) {
    o != {} && Bit(o, ORDSEQ_DRAIN) ==>
      && (forall i: nat :: Rq(i) in q && IsFs(arr, Rq(i)) ==> arr[i].epoch > base)
      && (forall i: nat :: Rq(i) in drv ==> !IsFs(arr, Rq(i)))
  }

  ghost predicate Live(s: State, i: nat) {
    i in s.elv || Rq(i) in s.queue || Rq(i) in s.drv || (Active(s) && s.orig == i)
  }

  predicate EndedIn(ended: seq<End>, i: nat) { exists k :: 0 <= k < |ended| && ended[k].id == i }

  ghost predicate Accountable(s: State) {
    && (forall k :: 0 <= k < |s.ended| ==> s.ended[k].id < |s.arr| && !Live(s, s.ended[k].id))
    && (forall j, k :: 0 <= j < k < |s.ended| ==> s.ended[j].id != s.ended[k].id)
    && (forall i :: 0 <= i < |s.arr| ==> Live(s, i) || EndedIn(s.ended, i))
  }

  ghost predicate Issued(issued: set<nat>, arr: seq<Attr>, base: nat) {
    forall i :: i in issued ==> i < |arr| && arr[i].fs && !arr[i].barrier && arr[i].epoch <= base
  }

  ghost function FirstError(errs: seq<int>): int {
    if errs == [] then 0
    else
      var e := FirstError(errs[..|errs| - 1]);
      if e != 0 then e else errs[|errs| - 1]
  }

  ghost predicate ErrorKept(o: Bits, orderr: int, errs: seq<int>) { o != {} ==> orderr == FirstError(errs) }

  ghost predicate Core(s: State) {
    && Table(s.arr, s.bars) && s.ordcolor == (|s.bars| % 2 == 1) && Modes(s.ordered, s.nextOrdered)
    && Distinct(s.queue) && Apart(s.queue, s.drv, s.elv, s.arr) && Scheduled(s.elv, s.arr, s.bars)
    && Started(s.started, s.queue, s.drv, s.arr, s.base) && Counted(s.inFlight, s.arr, s.drv)
    && Sorted(s.queue, s.arr, s.base) && Waiting(s.queue, s.bars, s.base, Active(s))
    && ProxiesSoft(s.queue, s.soft)
    && Original(s.ordseq, s.orig, s.queue, s.drv, s.bars, s.base)
    && Drained(s.ordseq, s.queue, s.drv, s.arr, s.base)
    && Issued(s.issued, s.arr, s.base) && ErrorKept(s.ordseq, s.orderr, s.errs)
  }

  ghost predicate Inv(s: State) {
    Core(s) && Stage(s.ordseq, s.queue, s.drv, s.started) && Accountable(s)
  }

  const Plain := Config(false, false)

  lemma InitInv(mode: bv8)
    requires Draining(mode)
    ensures Inv(Init(mode))
  {
  }

  // ------------------------------------------------------- queue surgery

  lemma InsertAtFacts(q: seq<Ptr>, k: nat, p: Ptr)
    requires k <= |q|
    ensures |InsertAt(q, k, p)| == |q| + 1
    ensures forall j :: 0 <= j < |q| + 1 ==> InsertAt(q, k, p)[j] == if j < k then q[j] else if j == k then p else q[j - 1]
    ensures forall x :: x in InsertAt(q, k, p) <==> x == p || x in q
  {
    var r := InsertAt(q, k, p);
    forall x ensures x in r <==> x == p || x in q {
      if x in q {
        var j :| 0 <= j < |q| && q[j] == x;
        assert r[if j < k then j else j + 1] == x;
      }
      assert r[k] == p;
    }
  }

  lemma RemoveFacts(q: seq<Ptr>, k: nat)
    requires k < |q| && Distinct(q)
    ensures var r := q[..k] + q[k + 1..];
            && |r| == |q| - 1
            && (forall j :: 0 <= j < |r| ==> r[j] == if j < k then q[j] else q[j + 1])
            && (forall x :: x in r <==> x in q && x != q[k])
            && Distinct(r)
  {
    var r := q[..k] + q[k + 1..];
    forall x ensures x in r <==> x in q && x != q[k] {
      if x in q && x != q[k] {
        var j :| 0 <= j < |q| && q[j] == x;
        assert r[if j < k then j else j - 1] == x;
      }
    }
  }

  // Inserting p where everything ordered before has at most, everything after at least, its rank.
  lemma InsertKeepsOrder(q: seq<Ptr>, k: nat, p: Ptr, arr: seq<Attr>, base: nat)
    requires k <= |q| && Distinct(q) && p !in q && Sorted(q, arr, base)
    requires p.Rq? && IsFs(arr, p) ==> arr[p.id].epoch >= base
    requires Ordered(arr, p) ==> forall j :: 0 <= j < |q| && Ordered(arr, q[j]) ==>
               if j < k then Rank(arr, base, q[j]) <= Rank(arr, base, p) else Rank(arr, base, p) <= Rank(arr, base, q[j])
    ensures Distinct(InsertAt(q, k, p)) && Sorted(InsertAt(q, k, p), arr, base)
  {
    InsertAtFacts(q, k, p);
  }

  lemma RemoveKeepsOrder(q: seq<Ptr>, k: nat, arr: seq<Attr>, base: nat)
    requires k < |q| && Distinct(q) && Sorted(q, arr, base)
    ensures Sorted(q[..k] + q[k + 1..], arr, base)
  {
    RemoveFacts(q, k);
  }

  // ------------------------------------------------------- single steps

  lemma SetOrderedInv(s: State, mode: bv8)
    requires Inv(s) && Draining(mode)
    ensures Inv(s.(ordered := mode, nextOrdered := mode))
  {
    var t := s.(ordered := mode, nextOrdered := mode);
    assert forall i :: 0 <= i < |s.arr| ==> Live(t, i) == Live(s, i);
  }

  lemma OriginalIsBarrier(s: State)
    requires Core(s)
    ensures Active(s) ==> s.orig < |s.arr| && s.arr[s.orig].barrier && s.arr[s.orig].fs && s.arr[s.orig].epoch == s.base
  {
  }

  // Whatever stands behind the last stop of the queue belongs to the newest epoch.
  lemma BehindStops(s: State, j: nat)
    requires Inv(s) && j < |s.queue| && Ordered(s.arr, s.queue[j])
    requires forall i :: j <= i < |s.queue| ==> !Stops(s, s.queue[i])
    ensures s.queue[j].Rq? && s.arr[s.queue[j].id].epoch == |s.bars| && !s.arr[s.queue[j].id].barrier
  {
    assert !Stops(s, s.queue[j]);
    if s.arr[s.queue[j].id].epoch < |s.bars| { StopBehind(s, j); }
  }

  lemma StopBehind(s: State, j: nat)
    requires Inv(s) && j < |s.queue| && s.queue[j].Rq? && Ordered(s.arr, s.queue[j])
    requires s.arr[s.queue[j].id].epoch < |s.bars|
    ensures exists m :: j <= m < |s.queue| && Stops(s, s.queue[m])
  {
    var e := s.arr[s.queue[j].id].epoch;
    var b := if Active(s) && e == s.base then Bar else Rq(s.bars[e]);
    assert b in s.queue;
    var m :| 0 <= m < |s.queue| && s.queue[m] == b;
    assert Stops(s, b);
  }

  lemma PlaceOrder(s: State, id: nat, pos: nat)
    requires Inv(s) && CanPlace(s, id, pos)
    ensures Distinct(InsertAt(s.queue, pos, Rq(id))) && Sorted(InsertAt(s.queue, pos, Rq(id)), s.arr, s.base)
  {
    forall j | 0 <= j < |s.queue| && Ordered(s.arr, s.queue[j])
      ensures if j < pos then Rank(s.arr, s.base, s.queue[j]) <= Rank(s.arr, s.base, Rq(id))
              else Rank(s.arr, s.base, s.queue[j]) == Rank(s.arr, s.base, Rq(id))
    {
      if j >= pos { BehindStops(s, j); }
      else { assert s.queue[j] in s.queue; }
    }
    InsertKeepsOrder(s.queue, pos, Rq(id), s.arr, s.base);
  }

  // A request scheduled for dispatch lands behind every barrier and every proxy.
  lemma PlaceInv(s: State, id: nat, pos: nat)
    requires Inv(s) && CanPlace(s, id, pos)
    ensures Inv(Place(s, id, pos))
  {
    hide Sorted, Distinct, Table, InsertAt, Stops;
    var t := Place(s, id, pos);
    InsertAtFacts(s.queue, pos, Rq(id));
    PlaceOrder(s, id, pos);
    OriginalIsBarrier(s);
    assert forall i :: 0 <= i < |s.arr| ==> Live(t, i) == Live(s, i);
  }

  lemma DrainInv(s: State, order: seq<Placement>)
    requires Inv(s) && CanDrain(s, order)
    ensures Inv(Drain(s, order)) && Drain(s, order).elv == {}
    decreases |order|
  {
    if order != [] {
      PlaceInv(s, order[0].id, order[0].pos);
      DrainInv(Place(s, order[0].id, order[0].pos), order[1..]);
    }
  }

  // A new arrival changes nothing for the requests already there.
  lemma Extend(s: State, a: Attr)
    requires Inv(s)
    ensures var arr := s.arr + [a];
            && Sorted(s.queue, arr, s.base) && Started(s.started, s.queue, s.drv, arr, s.base)
            && FsOf(arr, s.drv) == FsOf(s.arr, s.drv) && Drained(s.ordseq, s.queue, s.drv, arr, s.base)
            && Issued(s.issued, arr, s.base)
            && !At(s.queue, s.drv, Rq(|s.arr|)) && Rq(|s.arr|) !in s.started && |s.arr| !in s.elv
            && (Active(s) ==> s.orig != |s.arr|)
            && forall p :: p in s.queue || p in s.drv ==> IsFs(arr, p) == IsFs(s.arr, p) && Rank(arr, s.base, p) == Rank(s.arr, s.base, p)
  {
    var arr := s.arr + [a];
    OriginalIsBarrier(s);
    assert forall p :: p in s.queue || p in s.drv ==> IsFs(arr, p) == IsFs(s.arr, p) && Rank(arr, s.base, p) == Rank(s.arr, s.base, p);
    assert FsOf(arr, s.drv) == FsOf(s.arr, s.drv);
  }

  lemma TableExtends(s: State, fs: bool, barrier: bool, empty: bool)
    requires Inv(s) && (barrier ==> fs)
    ensures var t := Arrive(s, fs, barrier, empty); Table(t.arr, t.bars) && t.ordcolor == (|t.bars| % 2 == 1)
  {
    hide Sorted, Distinct, FirstError, Stage, Started, Drained, FsOf, Waiting, Issued, Accountable, Apart, IsFs;
  }

  // The new request is live wherever it is put; every other request keeps its place.
  lemma ArrivalAccounted(s: State, t: State)
    requires Inv(s) && |t.arr| == |s.arr| + 1 && t.ended == s.ended
    requires Live(t, |s.arr|) && forall i :: 0 <= i < |s.arr| ==> Live(t, i) == Live(s, i)
    ensures Accountable(t)
  {
    hide Sorted, Distinct, FirstError, Stage, Started, Drained, FsOf, Waiting, Issued, Apart, IsFs, Table;
  }

  lemma AddSortedInv(s: State)
    requires Inv(s)
    ensures Inv(Apply(Plain, s, AddSorted))
  {
    var t := Apply(Plain, s, AddSorted);
    ArrivalAccounted(s, t);
    AddSortedCore(s);
    hide Core, Accountable, Stage;
  }

  lemma AddSortedCore(s: State)
    requires Inv(s)
    ensures Core(Apply(Plain, s, AddSorted))
  {
    var t := Apply(Plain, s, AddSorted);
    Extend(s, t.arr[|s.arr|]);
    TableExtends(s, true, false, false);
    AddSortedPlaces(s);
    assert t == s.(arr := t.arr, elv := t.elv) && t.bars == s.bars && t.arr == s.arr + [t.arr[|s.arr|]];
    hide Sorted, Distinct, FirstError, Stage, Started, Drained, FsOf, Waiting, Issued, Accountable, Table,
         Apply, Apart, Scheduled, ProxiesSoft, Original, ErrorKept, Modes, At, IsFs;
  }

  lemma AddSortedPlaces(s: State)
    requires Inv(s)
    ensures var t := Apply(Plain, s, AddSorted); Apart(t.queue, t.drv, t.elv, t.arr) && Scheduled(t.elv, t.arr, t.bars)
  {
    var t := Apply(Plain, s, AddSorted);
    assert t.arr == s.arr + [t.arr[|s.arr|]] && t.elv == s.elv + {|s.arr|};
    hide Sorted, Distinct, FirstError, Stage, Started, Drained, FsOf, Waiting, Issued, Accountable, Original,
         ErrorKept, Modes;
  }

  // At the back a request comes after everything the drained queue holds; at the front
  // only a request without order goes.
  lemma ArrivalOrder(s: State, fs: bool, barrier: bool, empty: bool, k: nat)
    requires Inv(s) && (barrier ==> fs) && k <= |s.queue| && (fs ==> k == |s.queue|)
    ensures var arr := Arrive(s, fs, barrier, empty).arr;
            Distinct(InsertAt(s.queue, k, Rq(|s.arr|))) && Sorted(InsertAt(s.queue, k, Rq(|s.arr|)), arr, s.base)
  {
    var arr := Arrive(s, fs, barrier, empty).arr;
    Extend(s, arr[|s.arr|]);
    hide FirstError, Stage, FsOf, Issued, Accountable, InsertAt, Started, Drained, Waiting;
    assert forall p :: p in s.queue ==> Rank(s.arr, s.base, p) <= Rank(arr, s.base, Rq(|s.arr|));
    InsertKeepsOrder(s.queue, k, Rq(|s.arr|), arr, s.base);
  }

  lemma InsertArrivalInv(s: State, fs: bool, barrier: bool, empty: bool, k: nat)
    requires Inv(s) && (barrier ==> fs && s.elv == {}) && k <= |s.queue| && (fs ==> k == |s.queue|)
    ensures var t := Arrive(s, fs, barrier, empty);
            Inv(t.(queue := InsertAt(s.queue, k, Rq(|s.arr|)), soft := t.soft + {Rq(|s.arr|)}))
  {
    hide Sorted, Distinct, FirstError, FsOf, Issued, Accountable, Table, InsertAt;
    var a := Arrive(s, fs, barrier, empty);
    var t := a.(queue := InsertAt(s.queue, k, Rq(|s.arr|)), soft := a.soft + {Rq(|s.arr|)});
    Extend(s, t.arr[|s.arr|]);
    TableExtends(s, fs, barrier, empty);
    InsertAtFacts(s.queue, k, Rq(|s.arr|));
    ArrivalOrder(s, fs, barrier, empty, k);
    ArrivalAccounted(s, t);
  }

  lemma AddInv(s: State, a: Action)
    requires Inv(s) && Enabled(Plain, s, a) && (a.AddBack? || a.AddFront?)
    ensures Inv(Apply(Plain, s, a))
  {
    hide Inv;
    match a
    case AddBack(fs, barrier, empty, order) =>
      DrainInv(s, order);
      var d := Drain(s, order);
      InsertArrivalInv(d, fs, barrier, empty, |d.queue|);
      assert InsertAt(d.queue, |d.queue|, Rq(|d.arr|)) == d.queue + [Rq(|d.arr|)];
    case AddFront =>
      InsertArrivalInv(s, false, false, false, 0);
      assert InsertAt(s.queue, 0, Rq(|s.arr|)) == [Rq(|s.arr|)] + s.queue;
  }

  lemma DequeueCounted(s: State, pos: nat)
    requires Inv(s) && Enabled(Plain, s, Dequeue(pos))
    ensures var t := Apply(Plain, s, Dequeue(pos)); Counted(t.inFlight, t.arr, t.drv)
  {
    var p := s.queue[pos];
    CountOneMore(s, p);
    hide Core, Stage, Accountable, Counted;
  }

  lemma CountOneMore(s: State, p: Ptr)
    requires Inv(s) && p in s.queue
    ensures Counted(if IsFs(s.arr, p) then s.inFlight + 1 else s.inFlight, s.arr, s.drv + {p})
  {
    hide Table, Issued, FirstError, Sorted, Distinct, Accountable, Started, Stage, Waiting, Drained;
    assert FsOf(s.arr, s.drv + {p}) == FsOf(s.arr, s.drv) + (if IsFs(s.arr, p) then {p} else {});
  }

  // Moving a handed-out request to the driver, as far as membership goes.
  lemma ToDriver(s: State, p: Ptr, q: seq<Ptr>)
    requires Inv(s) && p in s.queue && p in s.started
    requires forall x :: x in q <==> x in s.queue && x != p
    ensures var drv := s.drv + {p};
            && Apart(q, drv, s.elv, s.arr) && Started(s.started, q, drv, s.arr, s.base)
            && Waiting(q, s.bars, s.base, Active(s)) && ProxiesSoft(q, s.soft)
            && Stage(s.ordseq, q, drv, s.started) && Original(s.ordseq, s.orig, q, drv, s.bars, s.base)
            && Drained(s.ordseq, q, drv, s.arr, s.base)
            && forall x :: At(q, drv, x) == At(s.queue, s.drv, x)
  {
    hide Issued, FirstError, Sorted, Distinct, Accountable, Counted, Modes, ErrorKept, Scheduled;
    var drv := s.drv + {p};
    assert forall x :: At(q, drv, x) == At(s.queue, s.drv, x);
    if p.Rq? { StartedIsPlain(s, p); }
  }

  lemma DequeueInv(s: State, pos: nat)
    requires Inv(s) && Enabled(Plain, s, Dequeue(pos))
    ensures Inv(Apply(Plain, s, Dequeue(pos)))
  {
    var t := Apply(Plain, s, Dequeue(pos));
    var p := s.queue[pos];
    hide Table, Issued, FirstError, Sorted, Accountable, Counted, Apart, Started, Waiting, Stage, Drained, At,
         ProxiesSoft, Original;
    RemoveFacts(s.queue, pos);
    RemoveKeepsOrder(s.queue, pos, s.arr, s.base);
    ToDriver(s, p, t.queue);
    DequeueCounted(s, pos);
    SamePlaces(s, t);
  }

  lemma SamePlaces(s: State, t: State)
    requires Inv(s) && |t.arr| == |s.arr| && t.ended == s.ended
    requires t.elv == s.elv && Active(t) == Active(s) && t.orig == s.orig
    requires forall p :: At(t.queue, t.drv, p) == At(s.queue, s.drv, p)
    ensures Accountable(t)
  {
    hide Sorted, Distinct, FirstError, Stage, Started, Drained, FsOf, Waiting, Issued, Apart, IsFs, Table;
    forall i: nat ensures Live(t, i) == Live(s, i) {
      assert At(t.queue, t.drv, Rq(i)) == At(s.queue, s.drv, Rq(i));
    }
  }

  lemma StartedIsPlain(s: State, p: Ptr)
    requires Inv(s) && p in s.started && p.Rq?
    ensures forall e :: s.base <= e < |s.bars| ==> Rq(s.bars[e]) != p
  {
  }

  // A requeued proxy stops no later than at the first request the barriers order.  Behind a
  // second waiting barrier the colour is that of the first again, but that second barrier
  // itself has the other colour and stops the walk.
  lemma WalkStops(s: State, p: Ptr, j: nat) returns (m: nat)
    requires Inv(s) && Active(s) && p in s.drv && !p.Rq?
    requires j < |s.queue| && Ordered(s.arr, s.queue[j])
    ensures m <= j && ReqSeq(s.arr, s.orig, s.queue[m]) >= ReqSeq(s.arr, s.orig, p)
  {
    m := j;
    if s.queue[j].Rq? && s.arr[s.queue[j].id].colour == s.arr[s.orig].colour {
      m := SecondBarrier(s, p, j);
    } else {
      StopsHere(s, p, j);
    }
  }

  lemma StopsHere(s: State, p: Ptr, j: nat)
    requires Inv(s) && Active(s) && p in s.drv && !p.Rq? && j < |s.queue| && Ordered(s.arr, s.queue[j])
    requires s.queue[j].Rq? ==> s.arr[s.queue[j].id].colour != s.arr[s.orig].colour
    ensures ReqSeq(s.arr, s.orig, s.queue[j]) >= ReqSeq(s.arr, s.orig, p)
  {
    hide Issued, FirstError, Accountable, Counted, Modes, ErrorKept, Scheduled, Distinct, Apart, ProxiesSoft, Waiting,
         Drained;
    assert s.queue[j] in s.queue && p in s.started;
  }

  // A request of the first barrier's colour stands behind the next waiting barrier.
  lemma SecondBarrier(s: State, p: Ptr, j: nat) returns (m: nat)
    requires Inv(s) && Active(s) && p in s.drv && !p.Rq? && j < |s.queue| && Ordered(s.arr, s.queue[j])
    requires s.queue[j].Rq? && s.arr[s.queue[j].id].colour == s.arr[s.orig].colour
    ensures m <= j && ReqSeq(s.arr, s.orig, s.queue[m]) == ORDSEQ_DONE
  {
    hide Issued, FirstError, Accountable, Counted, Modes, ErrorKept, Scheduled, Distinct, Apart, ProxiesSoft;
    var x := s.queue[j];
    assert x in s.queue;
    assert s.arr[x.id].epoch >= s.base + 2;
    var b := Rq(s.bars[s.base + 1]);
    assert b in s.queue;
    m :| 0 <= m < |s.queue| && s.queue[m] == b;
    assert Rank(s.arr, s.base, b) < Rank(s.arr, s.base, x);
  }

  // The position the requeue walk finds respects the order.
  lemma RequeueOrder(s: State, p: Ptr, k: nat)
    requires Inv(s) && p in s.drv && k <= |s.queue|
    requires if Active(s) then k == WalkTo(s.arr, s.orig, s.queue, ReqSeq(s.arr, s.orig, p), 0) else k == 0
    ensures Distinct(InsertAt(s.queue, k, p)) && Sorted(InsertAt(s.queue, k, p), s.arr, s.base)
  {
    forall j | Ordered(s.arr, p) && 0 <= j < |s.queue| && Ordered(s.arr, s.queue[j])
      ensures if j < k then Rank(s.arr, s.base, s.queue[j]) <= Rank(s.arr, s.base, p)
              else Rank(s.arr, s.base, p) <= Rank(s.arr, s.base, s.queue[j])
    {
      assert s.queue[j] in s.queue;
      if j < k && !p.Rq? { var m := WalkStops(s, p, j); }
    }
    InsertKeepsOrder(s.queue, k, p, s.arr, s.base);
  }

  lemma RequeueCounted(s: State, p: Ptr)
    requires Inv(s) && p in s.drv
    ensures Counted(if Accounted(s, p) then s.inFlight - 1 else s.inFlight, s.arr, s.drv - {p})
  {
    hide Table, Issued, FirstError, Sorted, Distinct, Accountable, Stage, Waiting, Drained;
    assert FsOf(s.arr, s.drv - {p}) == FsOf(s.arr, s.drv) - (if IsFs(s.arr, p) then {p} else {});
  }

  lemma FromDriver(s: State, p: Ptr, q: seq<Ptr>)
    requires Inv(s) && p in s.drv
    requires forall x :: x in q <==> x in s.queue || x == p
    ensures var drv := s.drv - {p}; var started := s.started - {p};
            && Apart(q, drv, s.elv, s.arr) && Started(started, q, drv, s.arr, s.base)
            && Waiting(q, s.bars, s.base, Active(s)) && ProxiesSoft(q, s.soft + {p})
            && Stage(s.ordseq, q, drv, started) && Original(s.ordseq, s.orig, q, drv, s.bars, s.base)
            && Drained(s.ordseq, q, drv, s.arr, s.base)
            && forall x :: At(q, drv, x) == At(s.queue, s.drv, x)
  {
    hide Issued, FirstError, Sorted, Distinct, Accountable, Counted, Modes, ErrorKept, Scheduled;
    assert forall x :: At(q, s.drv - {p}, x) == At(s.queue, s.drv, x);
  }

  lemma RequeueInv(s: State, p: Ptr)
    requires Inv(s) && p in s.drv
    ensures Inv(Apply(Plain, s, Requeue(p)))
  {
    hide Table, Issued, FirstError, Sorted, Accountable, Counted, Apart, Started, Waiting, Stage, Drained, At,
         ProxiesSoft, Original, InsertAt;
    var k := if Active(s) then WalkTo(s.arr, s.orig, s.queue, ReqSeq(s.arr, s.orig, p), 0) else 0;
    InsertAtFacts(s.queue, k, p);
    RequeueOrder(s, p, k);
    RequeueCounted(s, p);
    FromDriver(s, p, InsertAt(s.queue, k, p));
    SamePlaces(s, Apply(Plain, s, Requeue(p)));
  }

  // ------------------------------------------------------- ends of requests

  // The queue state once the driver no longer holds p.
  ghost function Released(s: State, p: Ptr): State {
    s.(drv := s.drv - {p}, started := s.started - {p},
       inFlight := if Accounted(s, p) then s.inFlight - 1 else s.inFlight)
  }

  lemma ReleasedCore(s: State, p: Ptr)
    requires Inv(s) && p in s.drv
    ensures Core(Released(s, p))
    ensures forall x :: x != p ==> At(s.queue, s.drv - {p}, x) == At(s.queue, s.drv, x)
    ensures !At(s.queue, s.drv - {p}, p)
  {
    hide Table, Issued, FirstError, Sorted, Distinct, Accountable, Counted, Scheduled, ProxiesSoft, Waiting;
    RequeueCounted(s, p);
  }

  lemma HeadIsLeast(r: State, i: nat)
    requires Core(r) && Active(r) && Rq(i) in r.queue && IsFs(r.arr, Rq(i))
    requires ReqSeq(r.arr, r.orig, r.queue[0]) > ORDSEQ_DRAIN
    ensures r.arr[i].epoch > r.base
  {
    hide Issued, Accountable, Scheduled, ProxiesSoft, FirstError, Counted, Started;
    OriginalIsBarrier(r);
    var j :| 0 <= j < |r.queue| && r.queue[j] == Rq(i);
    var h := r.queue[0];
    assert h in r.queue;
    assert j > 0 ==> Rank(r.arr, r.base, h) <= Rank(r.arr, r.base, r.queue[j]);
    if h.Rq? {
      assert r.arr[h.id].epoch != r.base;
      assert r.arr[h.id].epoch > r.base;
    }
  }

  // Completing the drain stage is right: when the count is zero and the first request is
  // not one of the barrier's own epoch, none of them is left anywhere.
  lemma DrainIsRight(r: State)
    requires Core(r) && Active(r) && r.inFlight == 0 && |r.queue| > 0
    requires ReqSeq(r.arr, r.orig, r.queue[0]) > ORDSEQ_DRAIN
    ensures Drained(r.ordseq + {ORDSEQ_DRAIN}, r.queue, r.drv, r.arr, r.base)
  {
    hide Table, Issued, Distinct, Accountable, Scheduled, ProxiesSoft, Waiting, Sorted;
    forall i: nat | Rq(i) in r.queue && IsFs(r.arr, Rq(i)) ensures r.arr[i].epoch > r.base {
      HeadIsLeast(r, i);
    }
    forall i: nat | Rq(i) in r.drv ensures !IsFs(r.arr, Rq(i)) { NothingInFlight(r, Rq(i)); }
  }

  lemma DrainCheckInv(r: State)
    requires Core(r) && Stage(r.ordseq, r.queue, r.drv, r.started)
    ensures var d := DrainCheck(r);
            && Core(d) && Stage(d.ordseq, d.queue, d.drv, d.started)
            && Active(d) == Active(r) && d.ended == r.ended && d.base == r.base
  {
    hide Table, Issued, Distinct, Scheduled, ProxiesSoft, Waiting, Sorted, Started, Apart, ReqSeq, Counted, FirstError,
         Drained;
    var d := DrainCheck(r);
    FirstErrorKept(r.errs, 0);
    if d != r { DrainIsRight(r); }
  }

  // One more report keeps the first error.
  lemma FirstErrorKept(errs: seq<int>, error: int)
    ensures FirstError(errs + [error]) == if FirstError(errs) != 0 then FirstError(errs) else error
  {
    assert (errs + [error])[..|errs|] == errs;
  }

  // The last stage: the sequence is over, the original barrier ends with the first error
  // reported since it started, and the next epoch begins.
  lemma SequenceDone(r: State, stage: nat, error: int)
    requires Core(r) && Active(r) && !Active(CompleteSeq(r, stage, error))
    requires Bit(r.ordseq, ORDSEQ_DRAIN) && !At(r.queue, r.drv, PreFlush) && !At(r.queue, r.drv, Bar)
    requires !At(r.queue, r.drv, PostFlush)
    ensures var d := CompleteSeq(r, stage, error);
            && Core(d) && Stage(d.ordseq, d.queue, d.drv, d.started) && d.base == r.base + 1
            && d.ended == r.ended + [End(r.orig, FirstError(r.errs + [error]))]
  {
    FirstErrorKept(r.errs, error);
    hide FirstError, Distinct, Scheduled, ProxiesSoft, Apart, Counted, Table, Modes, FsOf;
  }

  // A stage before the last: only its bit is set.
  lemma StageDone(r: State, stage: nat, error: int)
    requires Core(r) && Active(r) && Active(CompleteSeq(r, stage, error)) && stage != ORDSEQ_DRAIN
    ensures Core(CompleteSeq(r, stage, error))
  {
    hide Table, Issued, FirstError, Sorted, Distinct, Accountable, Counted, Scheduled, ProxiesSoft, Waiting, Started;
    FirstErrorKept(r.errs, error);
  }

  function StageOf(p: Ptr): nat {
    match p case PreFlush => ORDSEQ_PREFLUSH case Bar => ORDSEQ_BAR case _ => ORDSEQ_POSTFLUSH
  }

  // The end of a proxy: its bit was not set before (the BUG_ON cannot fire), and the
  // sequence is over exactly when no proxy is left.
  lemma ProxyEnds(s: State, p: Ptr, error: int)
    requires Inv(s) && p in s.drv && !p.Rq?
    ensures Active(s) && !Bit(s.ordseq, StageOf(p)) && Bit(s.ordseq, ORDSEQ_DRAIN)
    ensures var d := CompleteSeq(Released(s, p), StageOf(p), error);
            && Finish(s.(drv := s.drv - {p}), p, error) == d
            && Core(d) && Stage(d.ordseq, d.queue, d.drv, d.started)
  {
    hide Table, Issued, FirstError, Sorted, Distinct, Accountable, Counted, Scheduled, ProxiesSoft, Waiting, Core,
         Drained;
    ReleasedCore(s, p);
    var r := Released(s, p);
    assert p in s.started by { InFlightStarted(s, p); }
    FinishReleases(s, p, error);
    hide Finish, ElvCompleted;
    var d := CompleteSeq(r, StageOf(p), error);
    if Active(d) { StageDone(r, StageOf(p), error); }
    else { SequenceDone(r, StageOf(p), error); }
  }

  lemma InFlightStarted(s: State, p: Ptr)
    requires Core(s) && p in s.drv && !p.Rq?
    ensures p in s.started
  {
  }

  // A step that ends request i and leaves every other request live or not as before.
  lemma EndOne(s: State, t: State, i: nat, error: int)
    requires Inv(s) && |t.arr| == |s.arr| && t.ended == s.ended + [End(i, error)] && i < |s.arr|
    requires Live(s, i) && !Live(t, i)
    requires forall k: nat :: k != i ==> Live(t, k) == Live(s, k)
    ensures Accountable(t)
  {
    hide Core, Stage, Live;
    assert t.ended[|s.ended|].id == i;
    forall k | 0 <= k < |t.arr| ensures Live(t, k) || EndedIn(t.ended, k) {
      if k != i && !Live(t, k) {
        var m :| 0 <= m < |s.ended| && s.ended[m].id == k;
        assert t.ended[m].id == k;
      }
    }
  }

  lemma DriverApart(s: State, i: nat)
    requires Core(s) && Rq(i) in s.drv
    ensures i < |s.arr| && i !in s.elv && Rq(i) !in s.queue && (Active(s) ==> s.orig != i)
  {
  }

  lemma CoreIgnoresEnded(d: State, ended: seq<End>)
    requires Core(d)
    ensures Core(d.(ended := ended))
  {
  }

  // A request the driver ends: nothing else about the queue changes but the drain stage.
  lemma PlainEnds(s: State, i: nat, error: int)
    requires Inv(s) && Rq(i) in s.drv
    ensures Inv(Apply(Plain, s, Complete(Rq(i), error)))
  {
    hide FirstError, Core, Stage, Accountable, At;
    var t := Apply(Plain, s, Complete(Rq(i), error));
    var r := Released(s, Rq(i));
    ReleasedCore(s, Rq(i));
    ReleasedStage(s, Rq(i));
    DrainCheckInv(r);
    var d := DrainCheck(r);
    FinishReleases(s, Rq(i), error);
    hide DrainCheck, ElvCompleted, Finish;
    assert t == d.(ended := d.ended + [End(i, error)]);
    CoreIgnoresEnded(d, t.ended);
    DriverApart(s, i);
    EndOne(s, t, i, error);
  }

  lemma FinishReleases(s: State, p: Ptr, error: int)
    ensures var d := DrainCheck(Released(s, p)); var f := Finish(s.(drv := s.drv - {p}), p, error);
            && (p.Rq? ==> f == d.(ended := d.ended + [End(p.id, error)]))
            && (!p.Rq? ==> f == CompleteSeq(d, StageOf(p), error))
            && d.queue == s.queue && d.drv == s.drv - {p} && d.elv == s.elv && d.orig == s.orig && d.arr == s.arr
  {
    var t := s.(drv := s.drv - {p});
    hide DrainCheck, CompleteSeq;
    assert t.(inFlight := if Accounted(t, p) then t.inFlight - 1 else t.inFlight, started := t.started - {p}) == Released(s, p);
    DrainCheckFrame(Released(s, p));
  }

  lemma DrainCheckFrame(r: State)
    ensures var d := DrainCheck(r);
            d.queue == r.queue && d.drv == r.drv && d.elv == r.elv && d.orig == r.orig && d.arr == r.arr
  {
    hide ReqSeq, LowestZero;
  }

  lemma ReleasedStage(s: State, p: Ptr)
    requires Inv(s) && p in s.drv && p.Rq?
    ensures Stage(s.ordseq, s.queue, s.drv - {p}, s.started - {p})
  {
    hide Table, Issued, FirstError, Sorted, Distinct, Counted, Scheduled, ProxiesSoft, Waiting, Core, Drained,
         Accountable;
  }

  lemma CompleteInv(s: State, p: Ptr, error: int)
    requires Inv(s) && p in s.drv
    ensures Inv(Apply(Plain, s, Complete(p, error)))
  {
    hide Table, Issued, FirstError, Sorted, Distinct, Counted, Scheduled, ProxiesSoft, Waiting, Core, Drained, Stage;
    if p.Rq? { PlainEnds(s, p.id, error); }
    else { ProxyEndsInv(s, p, error); }
  }

  lemma ProxyEndsInv(s: State, p: Ptr, error: int)
    requires Inv(s) && p in s.drv && !p.Rq?
    ensures Inv(Apply(Plain, s, Complete(p, error)))
  {
    hide FirstError, Core, Stage, Accountable, At;
    var t := Apply(Plain, s, Complete(p, error));
    ProxyEnds(s, p, error);
    OriginalApart(s);
    hide Finish, ElvCompleted;
    if Active(t) {
      assert forall k: nat :: Live(t, k) == Live(s, k);
      SameLives(s, t);
    } else { EndOne(s, t, s.orig, t.ended[|s.ended|].error); }
  }

  lemma SameLives(s: State, t: State)
    requires Inv(s) && |t.arr| == |s.arr| && t.ended == s.ended
    requires forall k: nat :: Live(t, k) == Live(s, k)
    ensures Accountable(t)
  {
    hide Core, Stage, Live;
  }

  lemma OriginalApart(s: State)
    requires Core(s) && Active(s)
    ensures s.orig < |s.arr| && s.orig !in s.elv && Rq(s.orig) !in s.queue && Rq(s.orig) !in s.drv
  {
  }

  // ------------------------------------------------------- handing out

  // p may be handed to the driver now.
  ghost predicate MayHand(s: State, p: Ptr) {
    match p
    case Rq(i) => IsFs(s.arr, p) ==> s.arr[i].epoch == s.base && !s.arr[i].barrier
    case PreFlush => Active(s) && Bit(s.ordseq, ORDSEQ_DRAIN)
    case Bar => Active(s) && Bit(s.ordseq, ORDSEQ_DRAIN) && Bit(s.ordseq, ORDSEQ_PREFLUSH)
    case PostFlush => Active(s) && Bit(s.ordseq, ORDSEQ_BAR)
  }

  lemma HandInv(s: State, p: Ptr)
    requires Inv(s) && p in s.queue && MayHand(s, p)
    ensures Inv(s.(started := s.started + {p},
                   issued := if p.Rq? && IsFs(s.arr, p) then s.issued + {p.id} else s.issued))
  {
    hide Table, FirstError, Sorted, Distinct, Counted, Scheduled, ProxiesSoft, Waiting, Drained, Accountable;
    var t := s.(started := s.started + {p},
                issued := if p.Rq? && IsFs(s.arr, p) then s.issued + {p.id} else s.issued);
    assert forall k: nat :: Live(t, k) == Live(s, k);
    SameLives(s, t);
  }

  // The request at the head while no sequence is in progress: it belongs to the current epoch.
  lemma IdleHead(s: State)
    requires Inv(s) && !Active(s) && |s.queue| > 0 && IsFs(s.arr, s.queue[0])
    ensures s.queue[0].Rq? && s.arr[s.queue[0].id].epoch == s.base
    ensures s.arr[s.queue[0].id].barrier ==> s.base < |s.bars| && s.queue[0].id == s.bars[s.base]
  {
    hide Issued, FirstError, Accountable, Counted, Modes, ErrorKept, Scheduled, Started, ProxiesSoft, Distinct;
    var h := s.queue[0];
    assert h in s.queue;
    assert h.Rq?;
    if s.base < |s.bars| {
      var b := Rq(s.bars[s.base]);
      assert b in s.queue;
      var j :| 0 <= j < |s.queue| && s.queue[j] == b;
      assert Rank(s.arr, s.base, h) <= Rank(s.arr, s.base, b);
    }
  }

  // At the head the colour does tell: a request of the barrier's epoch has its colour, and
  // one behind the barrier is of the very next epoch.
  lemma HeadColour(s: State)
    requires Inv(s) && Active(s) && |s.queue| > 0 && s.queue[0].Rq? && IsFs(s.arr, s.queue[0])
    ensures ReqSeq(s.arr, s.orig, s.queue[0]) ==
            if s.arr[s.queue[0].id].epoch == s.base then ORDSEQ_DRAIN else ORDSEQ_DONE
  {
    hide Issued, FirstError, Accountable, Counted, Modes, ErrorKept, Scheduled, Started, ProxiesSoft, Distinct, Stage,
         Drained;
    var h := s.queue[0];
    assert h in s.queue;
    OriginalIsBarrier(s);
    if s.arr[h.id].epoch > s.base && s.base + 1 < |s.bars| {
      var b := Rq(s.bars[s.base + 1]);
      assert b in s.queue;
      var j :| 0 <= j < |s.queue| && s.queue[j] == b;
      assert Rank(s.arr, s.base, h) <= Rank(s.arr, s.base, b);
    }
  }

  // While a sequence is in progress the head is never behind the current stage, so the
  // WARN_ON cannot fire, and it is let through only at its own stage.
  lemma BusyHead(s: State)
    requires Inv(s) && Active(s) && |s.queue| > 0 && !Other(s, s.queue[0])
    ensures ReqSeq(s.arr, s.orig, s.queue[0]) >= CurSeq(s.ordseq)
    ensures ReqSeq(s.arr, s.orig, s.queue[0]) == CurSeq(s.ordseq) ==> MayHand(s, s.queue[0])
  {
    hide Issued, FirstError, Accountable, Counted, Modes, ErrorKept, Scheduled, Started, ProxiesSoft, Distinct, Sorted,
         Waiting;
    var h := s.queue[0];
    assert h in s.queue;
    if h.Rq? {
      HeadColour(s);
      BarriersWait(s, h.id);
    }
  }

  lemma BarriersWait(s: State, i: nat)
    requires Inv(s) && Active(s) && Rq(i) in s.queue && IsFs(s.arr, Rq(i))
    ensures s.arr[i].barrier ==> s.arr[i].epoch > s.base
  {
  }

  ghost predicate Other(s: State, p: Ptr) { p.Rq? && !IsFs(s.arr, p) }

  // The proxies stacked in front of what stood behind the barrier.
  ghost function Stacked(pre: bool, post: bool, rest: seq<Ptr>): seq<Ptr> {
    var p := if post then [PostFlush] + rest else rest;
    var b := [Bar] + p;
    if pre then [PreFlush] + b else b
  }

  ghost function StackedSoft(pre: bool, post: bool, soft: set<Ptr>): set<Ptr> {
    var p := if post then soft + {PostFlush} else soft;
    var b := p + {Bar};
    if pre then b + {PreFlush} else b
  }

  ghost function StartBits(pre: bool, post: bool, drained: bool): Bits {
    var p := if post then {ORDSEQ_STARTED} else {ORDSEQ_STARTED} + {ORDSEQ_POSTFLUSH};
    var b := if pre then p else p + {ORDSEQ_PREFLUSH};
    if drained then b + {ORDSEQ_DRAIN} else b
  }

  // The queue once the barrier at its head has been replaced by its proxies.
  ghost function Begun(s: State, pre: bool, post: bool): State
    requires |s.queue| > 0 && s.queue[0].Rq?
  {
    s.(queue := Stacked(pre, post, s.queue[1..]), ordseq := StartBits(pre, post, s.inFlight == 0),
       orderr := 0, errs := [], orig := s.queue[0].id, ordered := s.nextOrdered,
       soft := StackedSoft(pre, post, s.soft))
  }

  lemma StartShape(s: State)
    requires !Active(s) && |s.queue| > 0 && s.queue[0].Rq? && s.queue[0].id < |s.arr|
    requires s.nextOrdered & ORDERED_TAG == 0
    requires s.queue[0] !in s.started && PreFlush !in s.started && Bar !in s.started && PostFlush !in s.started
    requires s.arr[s.queue[0].id].barrier
    ensures var pre := s.nextOrdered & ORDERED_PREFLUSH != 0;
            var post := s.nextOrdered & ORDERED_POSTFLUSH != 0 && !s.arr[s.queue[0].id].empty;
            StartOrdered(s) == (Begun(s, pre, post),
                                if s.inFlight == 0 then Hand(if pre then PreFlush else Bar) else Hold)
  {
    assert s.queue[..0] + s.queue[1..] == s.queue[1..];
    assert {} + {ORDSEQ_STARTED} == {ORDSEQ_STARTED};
    assert s.started - {Bar} == s.started - {PreFlush} == s.started - {PostFlush} == s.started;
  }

  lemma PushKeepsOrder(q: seq<Ptr>, p: Ptr, arr: seq<Attr>, base: nat)
    requires Distinct(q) && Sorted(q, arr, base) && p !in q && !p.Rq?
    requires forall x :: x in q && Ordered(arr, x) ==> Rank(arr, base, p) <= Rank(arr, base, x)
    ensures Distinct([p] + q) && Sorted([p] + q, arr, base) && forall x :: x in [p] + q <==> x == p || x in q
  {
    InsertAtFacts(q, 0, p);
    assert InsertAt(q, 0, p) == [p] + q;
    forall j | 0 <= j < |q| && Ordered(arr, q[j]) ensures Rank(arr, base, p) <= Rank(arr, base, q[j]) {
      assert q[j] in q;
    }
    InsertKeepsOrder(q, 0, p, arr, base);
  }

  lemma StackedOrder(rest: seq<Ptr>, pre: bool, post: bool, arr: seq<Attr>, base: nat)
    requires Distinct(rest) && Sorted(rest, arr, base)
    requires forall x :: x in rest ==> x.Rq? && (IsFs(arr, x) ==> arr[x.id].epoch > base)
    ensures var q := Stacked(pre, post, rest);
            && Distinct(q) && Sorted(q, arr, base)
            && forall x :: x in q <==> x == Bar || (pre && x == PreFlush) || (post && x == PostFlush) || x in rest
  {
    hide Sorted, Distinct;
    var p := if post then [PostFlush] + rest else rest;
    if post { PushKeepsOrder(rest, PostFlush, arr, base); }
    var b := [Bar] + p;
    PushKeepsOrder(p, Bar, arr, base);
    if pre { PushKeepsOrder(b, PreFlush, arr, base); }
  }

  // Nothing of the current epoch stands behind the barrier that closes it.
  lemma BehindBarrierAt(s: State, j: nat)
    requires Inv(s) && !Active(s) && 1 <= j < |s.queue| && IsFs(s.arr, s.queue[0]) && HardBarrier(s.arr, s.queue[0])
    ensures s.queue[j].Rq? && (IsFs(s.arr, s.queue[j]) ==> s.arr[s.queue[j].id].epoch > s.base)
  {
    hide Issued, FirstError, Accountable, Counted, Modes, ErrorKept, Scheduled, Started, ProxiesSoft, Waiting;
    IdleHead(s);
    assert s.queue[0] != s.queue[j];
    assert s.queue[j] in s.queue;
  }

  lemma BehindBarrier(s: State)
    requires Inv(s) && !Active(s) && |s.queue| > 0 && IsFs(s.arr, s.queue[0]) && HardBarrier(s.arr, s.queue[0])
    ensures var rest := s.queue[1..];
            && Distinct(rest) && Sorted(rest, s.arr, s.base)
            && (forall x :: x in rest <==> x in s.queue && x != s.queue[0])
            && (forall x :: x in rest ==> x.Rq? && (IsFs(s.arr, x) ==> s.arr[x.id].epoch > s.base))
  {
    RestFacts(s);
    hide Inv, Sorted, Distinct, Active, IsFs, HardBarrier;
    var rest := s.queue[1..];
    forall x | x in rest ensures x.Rq? && (IsFs(s.arr, x) ==> s.arr[x.id].epoch > s.base) {
      var j :| 0 <= j < |rest| && rest[j] == x;
      assert s.queue[j + 1] == x;
      BehindBarrierAt(s, j + 1);
    }
  }

  lemma RestFacts(s: State)
    requires Inv(s) && |s.queue| > 0
    ensures var rest := s.queue[1..];
            && Distinct(rest) && Sorted(rest, s.arr, s.base)
            && (forall x :: x in rest <==> x in s.queue && x != s.queue[0])
  {
    hide Issued, FirstError, Accountable, Counted, Modes, ErrorKept, Scheduled, Started, ProxiesSoft, Waiting, Apart,
         Sorted, Table;
    RemoveFacts(s.queue, 0);
    RemoveKeepsOrder(s.queue, 0, s.arr, s.base);
    assert s.queue[..0] + s.queue[1..] == s.queue[1..];
  }

  lemma OtherBarriers(s: State)
    requires Core(s) && s.base < |s.bars|
    ensures forall e :: s.base < e < |s.bars| ==> s.bars[e] != s.bars[s.base]
  {
  }

  lemma NothingInFlight(s: State, x: Ptr)
    requires Counted(s.inFlight, s.arr, s.drv) && s.inFlight == 0 && x in s.drv
    ensures !IsFs(s.arr, x)
  {
    assert IsFs(s.arr, x) ==> x in FsOf(s.arr, s.drv);
  }

  ghost predicate AtBarrier(s: State) {
    Inv(s) && !Active(s) && |s.queue| > 0 && s.queue[0].Rq? && IsFs(s.arr, s.queue[0]) && HardBarrier(s.arr, s.queue[0])
  }

  lemma BegunQueue(s: State, pre: bool, post: bool)
    requires AtBarrier(s)
    ensures var q := Begun(s, pre, post).queue;
            && Distinct(q) && Sorted(q, s.arr, s.base)
            && forall x :: x in q <==> x == Bar || (pre && x == PreFlush) || (post && x == PostFlush)
                                       || (x in s.queue && x != s.queue[0])
    ensures forall i: nat :: Rq(i) in s.queue && Rq(i) != s.queue[0] && IsFs(s.arr, Rq(i)) ==> s.arr[i].epoch > s.base
    ensures s.base < |s.bars| && s.queue[0].id == s.bars[s.base]
  {
    hide Table, Issued, Sorted, Distinct, Scheduled, Accountable, Counted, FsOf, Started;
    IdleHead(s);
    BehindBarrier(s);
    StackedOrder(s.queue[1..], pre, post, s.arr, s.base);
  }

  lemma BegunStage(s: State, pre: bool, post: bool)
    requires AtBarrier(s)
    ensures var t := Begun(s, pre, post); Stage(t.ordseq, t.queue, t.drv, t.started)
  {
    hide Table, Issued, Sorted, Distinct, Scheduled, Accountable, Counted, FsOf, Waiting, Drained, Original,
         ProxiesSoft;
    BegunQueue(s, pre, post);
  }

  lemma BegunCore(s: State, pre: bool, post: bool)
    requires AtBarrier(s)
    ensures Core(Begun(s, pre, post))
  {
    hide Table, Issued, Sorted, Distinct, Scheduled, Accountable, Counted, FsOf, Stage, Stacked;
    BegunQueue(s, pre, post);
    OtherBarriers(s);
    if s.inFlight == 0 {
      forall x | x in s.drv ensures !IsFs(s.arr, x) { NothingInFlight(s, x); }
    }
    NoProxies(s);
  }

  lemma NoProxies(s: State)
    requires Inv(s) && !Active(s)
    ensures forall x :: x in s.queue || x in s.drv || x in s.started ==> x.Rq?
  {
  }

  lemma StartInv(s: State)
    requires AtBarrier(s)
    ensures var (t, v) := StartOrdered(s);
            && Inv(t) && Active(t) && !v.Again?
            && (v.Hand? ==> |t.queue| > 0 && t.queue[0] == v.rq && !v.rq.Rq? && MayHand(t, v.rq))
  {
    hide Core, Stage, Accountable;
    var pre := s.nextOrdered & ORDERED_PREFLUSH != 0;
    var post := s.nextOrdered & ORDERED_POSTFLUSH != 0 && !s.arr[s.queue[0].id].empty;
    NotStarted(s);
    StartShape(s);
    hide StartOrdered;
    BegunCore(s, pre, post);
    BegunStage(s, pre, post);
    BegunQueue(s, pre, post);
    var t := Begun(s, pre, post);
    forall k: nat ensures Live(t, k) == Live(s, k) {
      assert Rq(k) in t.queue <==> Rq(k) in s.queue && Rq(k) != s.queue[0];
      assert s.queue[0] in s.queue;
    }
    SameLives(s, t);
  }

  lemma NotStarted(s: State)
    requires AtBarrier(s)
    ensures s.queue[0] !in s.started && PreFlush !in s.started && Bar !in s.started && PostFlush !in s.started
    ensures s.arr[s.queue[0].id].barrier && s.nextOrdered & ORDERED_TAG == 0 && s.nextOrdered != ORDERED_NONE
  {
  }

  // An empty barrier's proxy never reaches the driver; it ends as if the driver had taken
  // it and completed it at once.
  lemma EmptyBarInv(s: State)
    requires Inv(s) && |s.queue| > 0 && s.queue[0] == Bar && MayHand(s, Bar)
    ensures Inv(Finish(Unlink(s, 0), Bar, 0))
  {
    hide Core, Stage, Accountable, DrainCheck, CompleteSeq;
    var a := s.(started := s.started + {Bar});
    HandInv(s, Bar);
    DequeueInv(a, 0);
    var b := Apply(Plain, a, Dequeue(0));
    CompleteInv(b, Bar, 0);
    BarOnce(s);
    assert b.drv - {Bar} == s.drv;
    assert a.started - {Bar} == s.started - {Bar};
  }

  lemma BarOnce(s: State)
    requires Core(s) && Bar in s.queue
    ensures Bar !in s.drv
  {
  }

  // What blk_do_ordered lets through may be handed out.
  lemma OrderedVerdict(s: State)
    requires Inv(s) && |s.queue| > 0
    ensures var (t, v) := DoOrdered(s);
            && Inv(t) && !v.Again?
            && (v.Hand? ==> |t.queue| > 0 && t.queue[0] == v.rq && MayHand(t, v.rq))
            && (v.Hand? && v.rq.Rq? ==> t == s && !(Active(s) && IsFs(s.arr, v.rq) && HardBarrier(s.arr, v.rq)))
  {
    hide Core, Stage, Accountable, StartOrdered, TakeBarrier, StackProxies;
    var h := s.queue[0];
    NextModes(s);
    if !Active(s) {
      if IsFs(s.arr, h) { IdleHead(s); }
      if IsFs(s.arr, h) && HardBarrier(s.arr, h) { StartInv(s); }
      else { NoProxies(s); }
    } else if !Other(s, h) {
      BusyHead(s);
    }
  }

  lemma NextInv(s: State)
    requires Inv(s)
    ensures Inv(NextTurn(s).0)
  {
    hide Core, Stage, Accountable, DoOrdered, Finish;
    if |s.queue| > 0 {
      OrderedVerdict(s);
      var (t, v) := DoOrdered(s);
      if v.Hand? {
        if v.rq == Bar && EmptyBarrier(t, Bar) { EmptyBarInv(t); } else { HandInv(t, v.rq); }
      }
    }
  }

  lemma NextModes(s: State)
    requires Core(s)
    ensures s.ordered & ORDERED_TAG == 0 && s.nextOrdered != ORDERED_NONE
  {
  }
}
