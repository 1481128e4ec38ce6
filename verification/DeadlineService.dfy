// When a request is served by the deadline scheduler: expired requests go first, a batch is a
// sweep in sector order, and reads come before writes.
module DeadlineService {
  import opened Arith
  import opened Collections
  import opened ElvTree
  import opened Deadline
  import opened DeadlineTheorems

  // ------------------------------------------------------- places in a FIFO

  lemma {:induction false} IndexAt(list: seq<nat>, k: nat)
    requires Distinct(list) && k < |list|
    ensures Index(list, list[k]) == k
  {
    var i := Index(list, list[k]);
    assert list[i] == list[k];
  }

  // Nobody falls back.
  ghost predicate NoLater(f: seq<nat>, g: seq<nat>) {
    forall x :: x in f && x in g ==> Index(g, x) <= Index(f, x)
  }

  lemma PlaceAfterRemove(f: seq<nat>, y: nat, x: nat)
    requires Distinct(f) && x in f && y in f && x != y
    ensures x in Remove(f, y)
    ensures Index(Remove(f, y), x) == if Index(f, y) < Index(f, x) then Index(f, x) - 1 else Index(f, x)
  {
    var g, i, j := Remove(f, y), Index(f, x), Index(f, y);
    RemoveDistinct(f, y);
    RemoveAt(f, y);
    IndexAt(g, if j < i then i - 1 else i);
  }

  lemma PlaceAfterInsert(f: seq<nat>, p: nat, y: nat, x: nat)
    requires Distinct(f) && y !in f && p <= |f| && (x in f || x == y)
    ensures x in InsertAt(f, p, y)
    ensures Index(InsertAt(f, p, y), x)
         == if x == y then p else if p <= Index(f, x) then Index(f, x) + 1 else Index(f, x)
  {
    var g := InsertAt(f, p, y);
    InsertAtIndex(f, p, y);
    InsertDistinct(f, p, y);
    if x == y { IndexAt(g, p); }
    else { IndexAt(g, if p <= Index(f, x) then Index(f, x) + 1 else Index(f, x)); }
  }

  lemma RemoveNoLater(f: seq<nat>, y: nat)
    requires Distinct(f) && y in f
    ensures NoLater(f, Remove(f, y))
  {
    RemoveDistinct(f, y);
    forall x | x in f && x in Remove(f, y) ensures Index(Remove(f, y), x) <= Index(f, x) { PlaceAfterRemove(f, y, x); }
  }

  lemma AppendNoLater(f: seq<nat>, y: nat)
    requires Distinct(f) && y !in f
    ensures NoLater(f, f + [y])
  {
    assert f + [y] == InsertAt(f, |f|, y);
    forall x | x in f ensures Index(f + [y], x) <= Index(f, x) { PlaceAfterInsert(f, |f|, y, x); }
  }

  // The survivor takes the place of a request that stands before it.
  lemma SwapPlaces(f: seq<nat>, id: nat, next: nat, x: nat)
    requires Distinct(f) && id in f && next in f && x in f && id != next && x != next && Index(f, next) < Index(f, id)
    ensures next in Remove(f, id)
    ensures var g := InsertAfter(Remove(f, id), next, id);
            next in g && Distinct(g) && x in Remove(g, next) && Index(Remove(g, next), x) <= Index(f, x)
  {
    var less := Remove(f, id);
    RemoveDistinct(f, id);
    PlaceAfterRemove(f, id, next);
    var p := Index(less, next) + 1;
    assert InsertAfter(less, next, id) == InsertAt(less, p, id);
    hide Remove, Index, Distinct, InsertAt, InsertAfter;
    InsertDistinct(less, p, id);
    PlaceAfterInsert(less, p, id, next);
    if x != id { PlaceAfterRemove(f, id, x); }
    PlaceAfterInsert(less, p, id, x);
    PlaceAfterRemove(InsertAt(less, p, id), next, x);
  }

  lemma EarlierFirst(rqs: map<nat, Rq>, f: seq<nat>, a: nat, b: nat)
    requires Known(rqs, f) && DeadlineSorted(rqs, f) && a in f && b in f && rqs[a].deadline < rqs[b].deadline
    ensures Index(f, a) < Index(f, b)
  {
  }

  lemma MergePlaces(s: State, w: bool, id: nat, next: nat, x: nat)
    requires Ok(s, w, {}) && Linked(s, w) && id in Side(s, w).sort && next in Side(s, w).sort && id != next
    requires x in Side(s, w).fifo && x != next
    ensures var f, g := Side(s, w).fifo, Moved(s, w, id, next);
            x in Remove(g, next) && Index(Remove(g, next), x) <= Index(f, x)
  {
    var f := Side(s, w).fifo;
    assert id in f && next in f && Distinct(f);
    if s.rqs[next].deadline < s.rqs[id].deadline {
      EarlierFirst(s.rqs, f, next, id);
      hide Remove, Index, Distinct, InsertAfter, Ok;
      SwapPlaces(f, id, next, x);
    } else {
      hide Ok;
      PlaceAfterRemove(f, next, x);
    }
  }

  // ------------------------------------------------------- what one action does to a place

  lemma MoveNoLater(s: State, w: bool, loose: set<nat>, id: nat, v: bool)
    requires Ok(s, w, loose) && id in Side(s, w).sort
    ensures id in Side(s, w).fifo && NoLater(Side(s, v).fifo, Side(MoveRequest(s, w, id), v).fifo)
  {
    SortedDistinct(s.rqs, Side(s, w).sort);
    LatterRemains(Side(s, w).sort, id);
    RemoveNoLater(Side(s, w).fifo, id);
    MoveShape(s, w, id);
    hide MoveRequest, Remove, Latter, Index;
  }

  lemma RoomNoLater(s: State, w: bool, loose: set<nat>, sector: nat, v: bool)
    requires Ok(s, w, loose)
    ensures Linked(s, w) && NoLater(Side(s, v).fifo, Side(MakeRoom(s, w, sector), v).fifo)
  {
    MakeRoomOk(s, w, loose, sector);
    match Alias(s.rqs, Side(s, w).sort, sector)
    case None =>
    case Some(alias) => MoveNoLater(s, w, loose, alias, v);
  }

  lemma NoLaterThen(f: seq<nat>, m: seq<nat>, g: seq<nat>)
    requires NoLater(f, m) && NoLater(m, g) && forall x :: x in f && x in g ==> x in m
    ensures NoLater(f, g)
  {
  }

  lemma AddNoLater(c: Config, s: State, w: bool, id: nat, rq: Rq, v: bool)
    requires Ok(s, w, {}) && id !in s.rqs && rq.write == w
    ensures Linked(s, w) && NoLater(Side(s, v).fifo, Side(AddRequest(c, s, w, id, rq), v).fifo)
  {
    var u := s.(rqs := s.rqs[id := rq.(deadline := s.now + Expire(c, w))]);
    ExtendRqs(s, w, id, u.rqs[id]);
    MakeRoomOk(s, w, {}, rq.sector);
    RoomNoLater(u, w, {}, rq.sector, v);
    MakeRoomShrinks(u, w, rq.sector);
    MakeRoomOk(u, w, {}, rq.sector);
    AddShape(c, s, w, id, rq);
    var t := MakeRoom(u, w, rq.sector);
    hide MakeRoom, AddRequest, Index;
    assert id !in Side(t, w).fifo && Distinct(Side(t, w).fifo);
    AppendNoLater(Side(t, w).fifo, id);
    hide Ok, Linked, NoLater;
    assert Side(u, v) == Side(s, v);
    if v == w { NoLaterThen(Side(s, v).fifo, Side(t, v).fifo, Side(t, v).fifo + [id]); }
  }

  lemma FrontNoLater(s: State, w: bool, id: nat, sector: nat, v: bool)
    requires Ok(s, w, {}) && id in Side(s, w).sort
    ensures Linked(s, w) && NoLater(Side(s, v).fifo, Side(FrontMerged(s, w, id, sector), v).fifo)
  {
    LoweredOk(s, w, id, sector);
    assert Linked(s, w) && id in Side(s, w).fifo;
    hide DirOk, Distinct, SectorSorted, MakeRoom, Remove, NoLater;
    var u := Lowered(s, w, id, sector);
    assert Side(u, v).fifo == Side(s, v).fifo;
    RoomNoLater(u, w, {id}, sector, v);
    FrontShape(s, w, id, sector);
    hide FrontMerged, Lowered;
  }

  lemma MergeNoLater(s: State, w: bool, id: nat, next: nat, v: bool)
    requires Ok(s, w, {}) && id in Side(s, w).sort && next in Side(s, w).sort && id != next
    ensures Linked(s, w) && NoLater(Side(s, v).fifo, Side(MergedRequests(s, w, id, next), v).fifo)
  {
    assert Linked(s, w);
    MergeShape(s, w, id, next);
    MergeEffectOf(s, w, id, next);
    hide MergedRequests, Moved, Ok, Index;
    if v == w {
      forall x | x in Side(s, w).fifo && x in Remove(Moved(s, w, id, next), next)
        ensures Index(Remove(Moved(s, w, id, next), next), x) <= Index(Side(s, w).fifo, x)
      {
        MergePlaces(s, w, id, next, x);
      }
    }
  }

  lemma MergeEffectOf(s: State, w: bool, id: nat, next: nat)
    requires Ok(s, w, {}) && id in Side(s, w).sort && next in Side(s, w).sort && id != next
    ensures Linked(s, w) && next !in Side(MergedRequests(s, w, id, next), w).fifo
  {
    MergeEffect(Config(0, 0, 0, 0), s, w, id, next);
  }

  // What a call does to both directions.
  lemma CallSides(c: Config, s: State)
    requires Inv(c, s) && !Choose(c, s).Nothing?
    ensures var t, ch := Apply(c, s, Call), Choose(c, s); var d := Side(s, ch.w);
            && ch.id in d.sort && ch.id in d.fifo && t.queue == s.queue + [ch.id]
            && Side(t, ch.w) == Dir(Remove(d.sort, ch.id), Remove(d.fifo, ch.id), Latter(d.sort, ch.id))
            && Side(t, !ch.w) == Side(s, !ch.w).(next := None)
  {
    ChoiceHeld(c, s);
    CallShape(c, s);
    CallShrinks(c, s);
    var t, ch := Dispatch(c, s), Choose(c, s);
    hide Choose, Dispatch;
    var u := s.(batching := t.batching, starved := t.starved);
    Ready(s, ch.w);
    CountersApart(c, s, ch.w, t.batching, t.starved);
    SortedDistinct(u.rqs, Side(u, ch.w).sort);
    LatterRemains(Side(u, ch.w).sort, ch.id);
    MoveShape(u, ch.w, ch.id);
    hide MoveRequest, Remove, Latter, Ok;
  }

  lemma CallNoLater(c: Config, s: State, v: bool)
    requires Inv(c, s)
    ensures NoLater(Side(s, v).fifo, Side(Apply(c, s, Call), v).fifo)
  {
    ChoiceHeld(c, s);
    if !Choose(c, s).Nothing? {
      CallSides(c, s);
      Ready(s, v);
      var ch := Choose(c, s);
      hide Choose, Apply, Ok, Latter, Remove;
      if v == ch.w { RemoveNoLater(Side(s, v).fifo, ch.id); }
    }
  }

  lemma StepNoLater(c: Config, s: State, a: Action, v: bool)
    requires Inv(c, s) && Enabled(s, a)
    ensures NoLater(Side(s, v).fifo, Side(Apply(c, s, a), v).fifo)
  {
    hide Index;
    match a
    case Tick(n) =>
    case Add(w, id, rq) =>
      Ready(s, w);
      AddNoLater(c, s, w, id, rq, v);
    case BackMerged(w, id, end) =>
    case FrontMerge(w, id, sector) =>
      Ready(s, w);
      FrontNoLater(s, w, id, sector, v);
    case Merge(w, id, next) =>
      Ready(s, w);
      MergeNoLater(s, w, id, next, v);
    case Call => CallNoLater(c, s, v);
  }

  // Requests stay known, no deadline is put off, time does not run back, and what has left a
  // FIFO does not come back to it.
  ghost predicate Kept(s: State, t: State) {
    && t.now >= s.now
    && (forall i :: i in s.rqs ==> i in t.rqs && t.rqs[i].deadline <= s.rqs[i].deadline)
    && (forall i, v: bool :: i in s.rqs && i in Side(t, v).fifo ==> i in Side(s, v).fifo)
  }

  lemma EffectKept(c: Config, s: State, t: State, w: bool, added: seq<nat>, out: seq<nat>, merged: seq<nat>)
    requires Effect(c, s, t, w, added, out, merged)
    ensures Kept(s, t)
  {
    forall i, v: bool | i in s.rqs && i in Side(t, v).fifo ensures i in Side(s, v).fifo {
      assert v == w || v == !w;
    }
  }

  lemma StepKept(c: Config, s: State, a: Action)
    requires Inv(c, s) && Enabled(s, a)
    ensures Kept(s, Apply(c, s, a))
  {
    hide Effect, Kept, DirOk, Timely;
    var t := Apply(c, s, a);
    match a
    case Tick(n) => TickKept(s, n);
    case Add(w, id, rq) =>
      Ready(s, w);
      var out := AddEffect(c, s, w, id, rq);
      hide AddRequest;
      EffectKept(c, s, t, w, [id], out, []);
    case BackMerged(w, id, end) =>
      Ready(s, w);
      BackMergedOk(c, s, w, id, end);
      EffectKept(c, s, t, w, [], [], []);
    case FrontMerge(w, id, sector) =>
      Ready(s, w);
      var out := FrontEffect(c, s, w, id, sector);
      hide FrontMerged;
      EffectKept(c, s, t, w, [], out, []);
    case Merge(w, id, next) =>
      Ready(s, w);
      MergeEffect(c, s, w, id, next);
      hide MergedRequests;
      EffectKept(c, s, t, w, [], [], [next]);
    case Call =>
      ChoiceHeld(c, s);
      if Choose(c, s).Nothing? {
        hide Choose;
        TickKept(s, 0);
      } else {
        CallEffect(c, s);
        hide Dispatch, Choose;
        EffectKept(c, s, t, Choose(c, s).w, [], [Choose(c, s).id], []);
      }
  }

  lemma TickKept(s: State, n: nat)
    ensures Kept(s, s.(now := s.now + n))
  {
  }

  predicate Covers(r: Rq, x: nat) { r.sector <= x < r.end }

  // A merge of neighbours leaves one request with the sectors of both and the earlier deadline.
  lemma SurvivorCovers(s: State, w: bool, id: nat, next: nat)
    requires Linked(s, w) && id in Side(s, w).sort && next in Side(s, w).sort && id != next
    requires s.rqs[id].sector <= s.rqs[id].end == s.rqs[next].sector <= s.rqs[next].end
    ensures var a, b, t := s.rqs[id], s.rqs[next], MergedRequests(s, w, id, next);
            && id in t.rqs
            && (forall x: nat :: Covers(t.rqs[id], x) <==> Covers(a, x) || Covers(b, x))
            && t.rqs[id].deadline <= a.deadline && t.rqs[id].deadline <= b.deadline
            && (t.rqs[id].deadline == a.deadline || t.rqs[id].deadline == b.deadline)
  {
    hide Moved, Remove, Latter;
  }

  // ------------------------------------------------------- deadlines are honoured

  // A call that starts a batch in a direction whose first request has expired dispatches that
  // request; while it has not, the batch goes on from the cached next request if there is one.
  lemma ExpiredFirst(c: Config, s: State, w: bool)
    requires Inv(c, s) && Choose(c, s).Fresh? && Choose(c, s).w == w
    ensures Side(s, w).fifo != [] && Side(s, w).fifo[0] in s.rqs
    ensures var t, d := Apply(c, s, Call), Side(s, w); var overdue := s.now > s.rqs[d.fifo[0]].deadline;
            && (overdue || d.next.None? ==> t.queue == s.queue + [d.fifo[0]] && Side(t, w).fifo == d.fifo[1..])
            && (!overdue && d.next.Some? ==> t.queue == s.queue + [d.next.value])
  {
    ChoiceHeld(c, s);
    FreshIs(c, s);
    var f, ch := Side(s, w).fifo, Choose(c, s);
    CallSides(c, s);
    hide Choose, Dispatch, Ok, Latter, Apply;
    assert Index(f, f[0]) == 0;
  }

  lemma FreshIs(c: Config, s: State)
    requires Known(s.rqs, s.rd.fifo) && Known(s.rqs, s.wr.fifo) && Choose(c, s).Fresh?
    ensures var ch := Choose(c, s); var d := Side(s, ch.w);
            && d.fifo != [] && d.fifo[0] in s.rqs
            && ch.id == if s.now > s.rqs[d.fifo[0]].deadline || d.next.None? then d.fifo[0] else d.next.value
  {
  }

  // How many batches of a direction the calls of a run start.
  ghost function Starts(c: Config, s: State, acts: seq<Action>, w: bool): nat
    requires Inv(c, s) && Legal(c, s, acts)
    decreases |acts|
  {
    if acts == [] then 0
    else
      StepInv(c, s, acts[0]);
      ChoiceHeld(c, s);
      (if acts[0].Call? && Choose(c, s).Fresh? && Choose(c, s).w == w then 1 else 0)
      + Starts(c, Apply(c, s, acts[0]), acts[1..], w)
  }

  // An expired request of a direction.
  ghost predicate Overdue(s: State, w: bool, id: nat) {
    id in Side(s, w).fifo && id in s.rqs && s.now > s.rqs[id].deadline
  }

  lemma StillOverdue(s: State, t: State, w: bool, id: nat)
    requires Overdue(s, w, id) && Kept(s, t) && id in Side(t, w).fifo
    ensures Overdue(t, w, id)
  {
  }

  lemma BehindFirst(f: seq<nat>, id: nat)
    requires Distinct(f) && id in f && id in f[1..]
    ensures Index(f[1..], id) < Index(f, id)
  {
    var j := Index(f[1..], id);
    assert f[j + 1] == id;
    IndexAt(f, j + 1);
  }

  // Once the first request has expired before it, a batch start takes it or one ahead of it.
  lemma StartBrings(c: Config, s: State, w: bool, id: nat)
    requires Inv(c, s) && Overdue(s, w, id) && Choose(c, s).Fresh? && Choose(c, s).w == w
    ensures var t := Apply(c, s, Call);
            id in Side(t, w).fifo ==> Index(Side(t, w).fifo, id) < Index(Side(s, w).fifo, id)
  {
    var f := Side(s, w).fifo;
    Ready(s, w);
    assert DeadlineSorted(s.rqs, f);
    ExpiredFirst(c, s, w);
    hide Choose, Apply, Ok, Index, Distinct, DeadlineSorted;
    FirstExpires(s.rqs, f, id);
    if id in f[1..] { BehindFirst(f, id); }
  }

  lemma FirstExpires(rqs: map<nat, Rq>, f: seq<nat>, id: nat)
    requires Known(rqs, f) && id in f
    ensures f[0] in rqs && (DeadlineSorted(rqs, f) ==> rqs[f[0]].deadline <= rqs[id].deadline)
  {
  }

  lemma {:induction false} StaysGone(c: Config, s: State, acts: seq<Action>, w: bool, id: nat)
    requires Inv(c, s) && Legal(c, s, acts) && id in s.rqs && id !in Side(s, w).fifo
    ensures id in Exec(c, s, acts).rqs && id !in Side(Exec(c, s, acts), w).fifo
    decreases |acts|
  {
    hide Inv, Apply;
    if acts != [] {
      StepInv(c, s, acts[0]);
      StepKept(c, s, acts[0]);
      StaysGone(c, Apply(c, s, acts[0]), acts[1..], w, id);
    }
  }

  lemma {:induction false} OverdueLeaves(c: Config, s: State, acts: seq<Action>, w: bool, id: nat)
    requires Inv(c, s) && Legal(c, s, acts) && Overdue(s, w, id)
    requires Starts(c, s, acts, w) > Index(Side(s, w).fifo, id)
    ensures id !in Side(Exec(c, s, acts), w).fifo
    decreases |acts|
  {
    hide Inv, Apply, Choose, Kept, Overdue, Index;
    if acts != [] {
      var t := Apply(c, s, acts[0]);
      StepInv(c, s, acts[0]);
      StepKept(c, s, acts[0]);
      assert id in Side(s, w).fifo && id in s.rqs by { OverdueIs(s, w, id); }
      StepNoLater(c, s, acts[0], w);
      InvKnown(c, s);
      if acts[0].Call? && Choose(c, s).Fresh? && Choose(c, s).w == w { StartBrings(c, s, w, id); }
      if id in Side(t, w).fifo {
        StillOverdue(s, t, w, id);
        OverdueLeaves(c, t, acts[1..], w, id);
      } else {
        KeptKnown(s, t, id);
        StaysGone(c, t, acts[1..], w, id);
      }
    }
  }

  lemma InvKnown(c: Config, s: State)
    requires Inv(c, s)
    ensures Known(s.rqs, s.rd.fifo) && Known(s.rqs, s.wr.fifo)
  {
    Ready(s, false);
  }

  lemma OverdueIs(s: State, w: bool, id: nat)
    requires Overdue(s, w, id)
    ensures id in Side(s, w).fifo && id in s.rqs
  {
  }

  lemma KeptKnown(s: State, t: State, id: nat)
    requires Kept(s, t) && id in s.rqs
    ensures id in t.rqs
  {
  }

  // Once its deadline has passed a request goes out, or is merged, within as many batches of
  // its direction as requests stand before it, and its own.
  lemma DeadlineHonoured(c: Config, s: State, acts: seq<Action>, w: bool, id: nat)
    requires Inv(c, s) && Accounted(s) && Legal(c, s, acts)
    requires id in Side(s, w).fifo && id in s.rqs && s.now > s.rqs[id].deadline
    requires Starts(c, s, acts, w) >= Index(Side(s, w).fifo, id) + 1
    ensures id in Exec(c, s, acts).queue || id in Exec(c, s, acts).gone
  {
    hide Inv, Legal, Index, Starts, Exec, Accounted;
    OverdueLeaves(c, s, acts, w, id);
    NotElsewhere(c, s, w, id);
    StaysGone(c, s, acts, !w, id);
    ExecAccounted(c, s, acts);
    Left(Exec(c, s, acts), w, id);
  }

  lemma NotElsewhere(c: Config, s: State, w: bool, id: nat)
    requires Inv(c, s) && id in Side(s, w).fifo
    ensures id !in Side(s, !w).fifo
  {
    Ready(s, w);
  }

  lemma Left(s: State, w: bool, id: nat)
    requires Accounted(s) && id in s.rqs && id !in Side(s, w).fifo && id !in Side(s, !w).fifo
    ensures id in s.queue || id in s.gone
  {
    assert !Held(s, id);
  }

  // ------------------------------------------------------- in so many calls

  // How many calls may pass before one starts a batch of the direction, while it has requests:
  // for writes Patience; for reads the rest of this batch, and one batch of writes.
  function Wait(c: Config, s: State, w: bool): nat {
    if w then Patience(c, s)
    else (if s.batching < c.fifoBatch then c.fifoBatch - s.batching else 0)
         + (if s.starved >= Unsigned(c.writesStarved) then AtLeastOne(c.fifoBatch) else 0)
  }

  function LongestWait(c: Config, w: bool): nat {
    if w then (Unsigned(c.writesStarved) + 1) * AtLeastOne(c.fifoBatch) else 2 * AtLeastOne(c.fifoBatch)
  }

  lemma WaitBound(c: Config, s: State, w: bool)
    ensures Wait(c, s, w) <= LongestWait(c, w)
  {
    if w { PatienceBound(c, s); }
  }

  // Reads may wait for ever if writes_starved is zero.
  ghost predicate Turns(c: Config, w: bool) { w || Unsigned(c.writesStarved) > 0 }

  // A batch goes on only within fifo_batch; with both directions waiting a batch of reads
  // starts while fewer than writes_starved have, and only then.
  lemma ChoiceCounts(c: Config, s: State)
    requires Known(s.rqs, s.rd.fifo) && Known(s.rqs, s.wr.fifo)
    ensures var ch := Choose(c, s);
            && (ch.Batch? ==> s.batching < c.fifoBatch)
            && (ch.Fresh? && s.rd.fifo != [] && s.wr.fifo != [] ==>
                  && ch.w == (s.starved >= Unsigned(c.writesStarved))
                  && ch.starved == if ch.w then 0 else s.starved + 1)
            && (ch.Fresh? && ch.w ==> ch.starved == 0)
  {
    hide FindRequest;
  }

  lemma BatchShortens(c: Config, s: State, t: State, w: bool)
    requires s.batching < c.fifoBatch && t.batching == s.batching + 1 && t.starved == s.starved
    ensures Wait(c, t, w) + 1 <= Wait(c, s, w)
  {
  }

  lemma OtherShortens(c: Config, s: State, t: State, w: bool)
    requires Turns(c, w) && t.batching == 1
    requires if w then s.starved < Unsigned(c.writesStarved) && t.starved == s.starved + 1
             else s.starved >= Unsigned(c.writesStarved) && t.starved == 0
    ensures Wait(c, t, w) + 1 <= Wait(c, s, w)
  {
    if w {
      var ws, b := Unsigned(c.writesStarved), AtLeastOne(c.fifoBatch);
      assert (ws - s.starved) * b == (ws - s.starved - 1) * b + b;
    }
  }

  // Every call but one that starts a batch of the direction shortens the wait.
  lemma CallShortens(c: Config, s: State, w: bool)
    requires Inv(c, s) && Side(s, w).fifo != [] && Turns(c, w)
    ensures var t, ch := Apply(c, s, Call), Choose(c, s);
            !ch.Nothing? && (!(ch.Fresh? && ch.w == w) ==> Wait(c, t, w) + 1 <= Wait(c, s, w))
  {
    ChoiceHeld(c, s);
    CallEffect(c, s);
    ChoiceCounts(c, s);
    var t, ch := Apply(c, s, Call), Choose(c, s);
    hide Apply, Choose, Effect, Inv, Ok, Wait, Turns;
    if ch.Batch? { BatchShortens(c, s, t, w); }
    else if ch.w != w {
      assert Side(s, ch.w).fifo != [];
      OtherShortens(c, s, t, w);
    }
  }

  lemma WaitSame(c: Config, s: State, a: Action, w: bool)
    requires Inv(c, s) && Enabled(s, a) && !a.Call?
    ensures Wait(c, Apply(c, s, a), w) == Wait(c, s, w)
  {
    StarvedKept(c, s, a);
    PatienceSame(c, s, Apply(c, s, a));
    hide Apply, Inv, Enabled, Patience;
  }

  lemma {:induction false} OverdueCalls(c: Config, s: State, acts: seq<Action>, w: bool, id: nat)
    requires Inv(c, s) && Legal(c, s, acts) && Overdue(s, w, id) && Turns(c, w)
    requires Calls(acts) > Index(Side(s, w).fifo, id) * (LongestWait(c, w) + 1) + Wait(c, s, w)
    ensures id !in Side(Exec(c, s, acts), w).fifo
    decreases |acts|
  {
    hide Inv, Apply, Choose, Kept, Overdue, Index, Wait, LongestWait, Turns;
    if acts != [] {
      var t := Apply(c, s, acts[0]);
      StepInv(c, s, acts[0]);
      StepKept(c, s, acts[0]);
      OverdueIs(s, w, id);
      StepNoLater(c, s, acts[0], w);
      InvKnown(c, s);
      WaitBound(c, t, w);
      if acts[0].Call? {
        CallShortens(c, s, w);
        if Choose(c, s).Fresh? && Choose(c, s).w == w { StartBrings(c, s, w, id); }
      } else {
        WaitSame(c, s, acts[0], w);
      }
      if id in Side(t, w).fifo {
        StillOverdue(s, t, w, id);
        Multiples(LongestWait(c, w) + 1, Index(Side(t, w).fifo, id), Index(Side(s, w).fifo, id));
        OverdueCalls(c, t, acts[1..], w, id);
      } else {
        KeptKnown(s, t, id);
        StaysGone(c, t, acts[1..], w, id);
      }
    }
  }

  lemma Multiples(b: nat, p: nat, q: nat)
    requires p <= q
    ensures p * b <= q * b && (p < q ==> p * b + b <= q * b)
  {
    MulMonotone(b, p, q);
    if p < q { Grow(b, p, q); }
  }

  lemma OverdueServed(c: Config, s: State, acts: seq<Action>, w: bool, id: nat)
    requires Inv(c, s) && Legal(c, s, acts) && Turns(c, w) && Overdue(s, w, id)
    requires Calls(acts) >= (Index(Side(s, w).fifo, id) + 1) * (LongestWait(c, w) + 1)
    ensures id !in Side(Exec(c, s, acts), w).fifo
  {
    hide Inv, Legal, Index, Exec, LongestWait, Wait, Calls, Turns;
    var k, b := Index(Side(s, w).fifo, id), LongestWait(c, w) + 1;
    WaitBound(c, s, w);
    assert (k + 1) * b == k * b + b;
    OverdueCalls(c, s, acts, w, id);
  }

  // An overdue request with k requests before it goes out, or is merged, within so many
  // dispatch calls, whatever arrives or merges meanwhile; a read only if writes_starved is
  // not zero.
  lemma ServedInTime(c: Config, s: State, acts: seq<Action>, w: bool, id: nat)
    requires Inv(c, s) && Accounted(s) && Legal(c, s, acts) && Turns(c, w)
    requires id in Side(s, w).fifo && id in s.rqs && s.now > s.rqs[id].deadline
    requires Calls(acts) >= (Index(Side(s, w).fifo, id) + 1) * (LongestWait(c, w) + 1)
    ensures id in Exec(c, s, acts).queue || id in Exec(c, s, acts).gone
  {
    hide Inv, Legal, Index, Exec, Accounted, LongestWait, Calls, Turns;
    OverdueServed(c, s, acts, w, id);
    NotElsewhere(c, s, w, id);
    StaysGone(c, s, acts, !w, id);
    ExecAccounted(c, s, acts);
    Left(Exec(c, s, acts), w, id);
  }

  // ------------------------------------------------------- order within and between batches

  // The state after n dispatch calls with nothing in between.
  ghost function Called(c: Config, s: State, n: nat): (t: State)
    requires Inv(c, s)
    ensures Inv(c, t)
    decreases n
  {
    if n == 0 then s else StepInv(c, s, Call); Called(c, Apply(c, s, Call), n - 1)
  }

  // The cached next request is the one at place k of the tree, and the other direction has none.
  ghost predicate NextAt(s: State, w: bool, k: nat) {
    && Side(s, w).next == (if k < |Side(s, w).sort| then Some(Side(s, w).sort[k]) else None)
    && Side(s, !w).next == None
  }

  function Without(sort: seq<nat>, k: nat): (less: seq<nat>)
    requires k < |sort|
    ensures |less| == |sort| - 1
  {
    sort[..k] + sort[k + 1..]
  }

  // A stretch of a list.
  function Stretch(sort: seq<nat>, k: nat, n: nat): seq<nat>
    requires k + n <= |sort|
  {
    sort[k..k + n]
  }

  lemma RemovedAt(sort: seq<nat>, k: nat)
    requires Distinct(sort) && k < |sort|
    ensures Remove(sort, sort[k]) == Without(sort, k)
    ensures Latter(sort, sort[k]) == if k + 1 < |sort| then Some(sort[k + 1]) else None
  {
    IndexAt(sort, k);
  }

  ghost predicate Sent(s: State, t: State, part: seq<nat>) { t.queue == s.queue + part }

  // A call that takes the request at place k leaves its successor as the next.
  lemma CallAdvances(c: Config, s: State, w: bool, k: nat)
    requires Inv(c, s) && k < |Side(s, w).sort|
    requires var ch := Choose(c, s); !ch.Nothing? && ch.w == w && ch.id == Side(s, w).sort[k]
    ensures var t, sort := Apply(c, s, Call), Side(s, w).sort;
            && NextAt(t, w, k) && Side(t, w).sort == Without(sort, k) && Sent(s, t, [sort[k]])
            && t.batching == if Choose(c, s).Batch? then s.batching + 1 else 1
  {
    CallSides(c, s);
    CallEffect(c, s);
    Ready(s, w);
    SortedDistinct(s.rqs, Side(s, w).sort);
    hide Choose, Apply, Effect, Ok, Remove, Latter;
    RemovedAt(Side(s, w).sort, k);
  }

  lemma SentThen(s: State, t: State, u: State, sort: seq<nat>, less: seq<nat>, k: nat, n: nat)
    requires 0 < n && k + n <= |sort| && less == Without(sort, k)
    requires Sent(s, t, [sort[k]]) && Sent(t, u, Stretch(less, k, n - 1))
    ensures Sent(s, u, Stretch(sort, k, n))
  {
    assert less[k..k + (n - 1)] == sort[k + 1..k + n];
    assert sort[k..k + n] == [sort[k]] + sort[k + 1..k + n];
  }

  lemma GoesOn(c: Config, s: State, w: bool, k: nat)
    requires Inv(c, s) && NextAt(s, w, k) && s.batching < c.fifoBatch && k < |Side(s, w).sort|
    ensures Known(s.rqs, s.rd.fifo) && Known(s.rqs, s.wr.fifo) && Choose(c, s) == Batch(w, Side(s, w).sort[k])
  {
    hide FindRequest;
  }

  lemma CalledThen(c: Config, s: State, n: nat)
    requires Inv(c, s) && n > 0
    ensures Inv(c, Apply(c, s, Call)) && Called(c, s, n) == Called(c, Apply(c, s, Call), n - 1)
  {
    hide Inv, Apply;
    StepInv(c, s, Call);
  }

  lemma CalledNone(c: Config, s: State, sort: seq<nat>, k: nat)
    requires Inv(c, s) && k <= |sort|
    ensures Sent(s, Called(c, s, 0), Stretch(sort, k, 0))
  {
    hide Inv, Apply;
  }

  // One more call of the batch.
  lemma GoesOnWith(c: Config, s: State, n: nat, w: bool, k: nat) returns (t: State)
    requires Inv(c, s) && NextAt(s, w, k) && 0 < n && s.batching + n <= c.fifoBatch && k + n <= |Side(s, w).sort|
    ensures Inv(c, t) && NextAt(t, w, k) && t.batching + (n - 1) <= c.fifoBatch
    ensures Side(t, w).sort == Without(Side(s, w).sort, k) && k + (n - 1) <= |Side(t, w).sort|
    ensures Sent(s, t, [Side(s, w).sort[k]]) && Called(c, s, n) == Called(c, t, n - 1)
  {
    GoesOn(c, s, w, k);
    hide Inv, NextAt, Apply, Called, Choose, Sent, Without;
    CalledThen(c, s, n);
    CallAdvances(c, s, w, k);
    t := Apply(c, s, Call);
  }

  lemma {:induction false} Sweeping(c: Config, s: State, n: nat, w: bool, k: nat)
    requires Inv(c, s) && NextAt(s, w, k) && s.batching + n <= c.fifoBatch && k + n <= |Side(s, w).sort|
    ensures Sent(s, Called(c, s, n), Stretch(Side(s, w).sort, k, n))
    decreases n
  {
    hide *;
    if n == 0 {
      CalledNone(c, s, Side(s, w).sort, k);
    } else {
      var t := GoesOnWith(c, s, n, w, k);
      Sweeping(c, t, n - 1, w, k);
      SentThen(s, t, Called(c, s, n), Side(s, w).sort, Side(t, w).sort, k, n);
    }
  }

  lemma Starting(c: Config, s: State, n: nat, w: bool, i: nat) returns (t: State)
    requires Inv(c, s) && 0 < n && i < |Side(s, w).sort|
    requires var ch := Choose(c, s); ch.Fresh? && ch.w == w && ch.id == Side(s, w).sort[i]
    ensures Inv(c, t) && NextAt(t, w, i) && t.batching == 1
    ensures Side(t, w).sort == Without(Side(s, w).sort, i)
    ensures Sent(s, t, [Side(s, w).sort[i]]) && Called(c, s, n) == Called(c, t, n - 1)
  {
    hide Inv, NextAt, Apply, Called, Choose, Sent, Without;
    CalledThen(c, s, n);
    CallAdvances(c, s, w, i);
    t := Apply(c, s, Call);
  }

  lemma Sweep(c: Config, s: State, n: nat, w: bool, i: nat)
    requires Inv(c, s) && 0 < n && (n > 1 ==> n <= c.fifoBatch) && i + n <= |Side(s, w).sort|
    requires var ch := Choose(c, s); ch.Fresh? && ch.w == w && ch.id == Side(s, w).sort[i]
    ensures Sent(s, Called(c, s, n), Stretch(Side(s, w).sort, i, n))
  {
    hide *;
    var t := Starting(c, s, n, w, i);
    if n > 1 { Sweeping(c, t, n - 1, w, i); } else { CalledNone(c, t, Side(t, w).sort, i); }
    SentThen(s, t, Called(c, s, n), Side(s, w).sort, Side(t, w).sort, i, n);
  }

  // With nothing arriving in between, a batch dispatches the requests of its direction in
  // sector order without gaps, from the one it starts with, as many as fifo_batch allows.
  lemma BatchIsSweep(c: Config, s: State, n: nat)
    requires Inv(c, s) && 1 <= n <= AtLeastOne(c.fifoBatch)
    requires Known(s.rqs, s.rd.fifo) && Known(s.rqs, s.wr.fifo) && Choose(c, s).Fresh?
    requires var ch := Choose(c, s);
             ch.id in Side(s, ch.w).sort && Index(Side(s, ch.w).sort, ch.id) + n <= |Side(s, ch.w).sort|
    ensures var sort := Side(s, Choose(c, s).w).sort; var i := Index(sort, Choose(c, s).id);
            Called(c, s, n).queue == s.queue + sort[i..i + n]
  {
    var ch := Choose(c, s);
    Sweep(c, s, n, ch.w, Index(Side(s, ch.w).sort, ch.id));
  }

  lemma StarvedStep(c: Config, s: State, a: Action)
    requires Inv(c, s) && Enabled(s, a)
    ensures Known(s.rqs, s.rd.fifo) && Known(s.rqs, s.wr.fifo)
    ensures Apply(c, s, a).starved <= s.starved + if a.Call? && Choose(c, s).Fresh? && !Choose(c, s).w then 1 else 0
  {
    InvKnown(c, s);
    if !a.Call? {
      StarvedKept(c, s, a);
    } else if !Choose(c, s).Nothing? {
      CallEffect(c, s);
      ChoiceCounts(c, s);
      ReadsCount(c, s);
      hide Apply, Effect, Ok, Choose;
    }
  }

  lemma ReadsCount(c: Config, s: State)
    requires Known(s.rqs, s.rd.fifo) && Known(s.rqs, s.wr.fifo)
    ensures Choose(c, s).Fresh? ==> Choose(c, s).starved <= s.starved + if Choose(c, s).w then 0 else 1
  {
    hide FindRequest;
  }

  lemma {:induction false} StarvedCounts(c: Config, s: State, acts: seq<Action>)
    requires Inv(c, s) && Legal(c, s, acts)
    ensures Exec(c, s, acts).starved <= s.starved + Starts(c, s, acts, false)
    decreases |acts|
  {
    hide Inv, Apply, Choose;
    if acts != [] {
      StepInv(c, s, acts[0]);
      StarvedStep(c, s, acts[0]);
      StarvedCounts(c, Apply(c, s, acts[0]), acts[1..]);
    }
  }

  // Between two batches of writes that start while a read waits, at least writes_starved
  // batches of reads start.
  lemma ReadsFirst(c: Config, s: State, acts: seq<Action>)
    requires Inv(c, s) && Choose(c, s).Fresh? && Choose(c, s).w && Legal(c, s, [Call] + acts)
    requires var t := Exec(c, s, [Call] + acts); Choose(c, t).Fresh? && Choose(c, t).w && t.rd.fifo != []
    ensures Starts(c, s, [Call] + acts, false) >= Unsigned(c.writesStarved)
  {
    StepInv(c, s, Call);
    CallEffect(c, s);
    ChoiceCounts(c, s);
    var u := Apply(c, s, Call);
    assert ([Call] + acts)[1..] == acts;
    StarvedCounts(c, u, acts);
    ChoiceCounts(c, Exec(c, u, acts));
    WritesHeld(c, Exec(c, u, acts));
    hide Apply, Choose, Effect, Ok;
  }

  lemma WritesHeld(c: Config, s: State)
    requires Known(s.rqs, s.rd.fifo) && Known(s.rqs, s.wr.fifo)
    ensures Choose(c, s).Fresh? ==> Side(s, Choose(c, s).w).fifo != []
  {
    hide FindRequest;
  }

  // ------------------------------------------------------- writes_starved of zero

  // One overdue read is all there is, and ids from m on are free.
  ghost predicate Lonely(c: Config, s: State, m: nat) {
    && Inv(c, s) && s.rd.sort == [0] && s.rd.fifo == [0] && s.rd.next == None && s.wr == Dir([], [], None)
    && Overdue(s, false, 0) && forall i :: i in s.rqs ==> i < m
  }

  // The same with one write waiting.
  ghost predicate Joined(c: Config, t: State, m: nat) {
    && Inv(c, t) && t.rd == Dir([0], [0], None) && t.wr == Dir([m], [m], None)
    && Overdue(t, false, 0) && forall i :: i in t.rqs ==> i < m + 1
  }

  lemma WriteArrives(c: Config, s: State, m: nat)
    requires Lonely(c, s, m)
    ensures var add := Add(true, m, Rq(true, false, false, 0, 0, 0, 0, 0));
            Inv(c, s) && Enabled(s, add) && Joined(c, Apply(c, s, add), m)
  {
    var add := Add(true, m, Rq(true, false, false, 0, 0, 0, 0, 0));
    StepInv(c, s, add);
    var t := Apply(c, s, add);
    assert t.wr == Dir([m], [m], None) && t.rd == s.rd && t.rqs == s.rqs[m := t.rqs[m]];
  }

  lemma WriteChosen(c: Config, t: State, m: nat)
    requires Unsigned(c.writesStarved) == 0 && Joined(c, t, m)
    ensures Known(t.rqs, t.rd.fifo) && Known(t.rqs, t.wr.fifo) && Choose(c, t) == Fresh(true, m, 0)
  {
    InvKnown(c, t);
  }

  // The write is dispatched before the read.
  lemma WriteOvertakes(c: Config, t: State, m: nat)
    requires Unsigned(c.writesStarved) == 0 && Joined(c, t, m)
    ensures Inv(c, t) && Enabled(t, Call) && Lonely(c, Apply(c, t, Call), m + 1)
  {
    WriteChosen(c, t, m);
    StepInv(c, t, Call);
    StepKept(c, t, Call);
    CallSides(c, t);
    CallShrinks(c, t);
    hide Choose, Apply, Ok, Timely, Remove, Latter;
    OneLeft(m);
    StillOverdue(t, Apply(c, t, Call), false, 0);
  }

  lemma OneLeft(m: nat)
    ensures Remove([m], m) == [] && Latter([m], m) == None
  {
  }

  lemma Prepended(c: Config, s: State, a: Action, rest: seq<Action>) returns (acts: seq<Action>)
    requires Inv(c, s) && Enabled(s, a) && Inv(c, Apply(c, s, a)) && Legal(c, Apply(c, s, a), rest)
    ensures Legal(c, s, acts) && Exec(c, s, acts) == Exec(c, Apply(c, s, a), rest)
    ensures Calls(acts) == (if a.Call? then 1 else 0) + Calls(rest)
  {
    hide Inv, Apply;
    acts := [a] + rest;
    assert acts[1..] == rest;
  }

  lemma NoActions(c: Config, s: State, m: nat)
    requires Lonely(c, s, m)
    ensures Inv(c, s) && Legal(c, s, []) && Calls([]) == 0 && Overdue(Exec(c, s, []), false, 0)
  {
  }

  lemma {:induction false} WritesKeepComing(c: Config, s: State, m: nat, n: nat) returns (acts: seq<Action>)
    requires Unsigned(c.writesStarved) == 0 && Lonely(c, s, m)
    ensures Inv(c, s) && Legal(c, s, acts) && Calls(acts) == n && Overdue(Exec(c, s, acts), false, 0)
    decreases n
  {
    hide *;
    if n == 0 {
      acts := [];
      NoActions(c, s, m);
    } else {
      var add := Add(true, m, Rq(true, false, false, 0, 0, 0, 0, 0));
      WriteArrives(c, s, m);
      var t := Apply(c, s, add);
      WriteOvertakes(c, t, m);
      acts := WritesKeepComing(c, Apply(c, t, Call), m + 1, n - 1);
      acts := Prepended(c, t, Call, acts);
      acts := Prepended(c, s, add, acts);
    }
  }

  lemma LonelyStart(c: Config) returns (u: State)
    ensures Lonely(c, u, 1) && Accounted(u)
  {
    var add := Add(false, 0, Rq(false, true, false, 0, 0, 0, 0, 0));
    var s := Init(c);
    StepInv(c, s, add);
    var t := Apply(c, s, add);
    StepInv(c, t, Tick(c.readExpire + 1));
    u := Apply(c, t, Tick(c.readExpire + 1));
  }

  // With writes_starved zero no number of calls is enough: a read can stay overdue for any.
  lemma ReadsStarveAtZero(c: Config, n: nat) returns (s: State, acts: seq<Action>)
    requires Unsigned(c.writesStarved) == 0
    ensures Inv(c, s) && Accounted(s) && Overdue(s, false, 0) && Index(s.rd.fifo, 0) == 0
    ensures Legal(c, s, acts) && Calls(acts) == n && Overdue(Exec(c, s, acts), false, 0)
  {
    s := LonelyStart(c);
    hide Inv, Legal, Exec, Calls, Overdue, Accounted;
    acts := WritesKeepComing(c, s, 1, n);
  }

  // In every state a request that is overdue leaves the FIFO within bound calls for each
  // request that stands before it and for itself.
  ghost predicate Prompt(c: Config, w: bool, bound: nat) {
    forall s, acts, id :: Inv(c, s) && Accounted(s) && Overdue(s, w, id) && Legal(c, s, acts)
                          && Calls(acts) >= (Index(Side(s, w).fifo, id) + 1) * bound
                          ==> id !in Side(Exec(c, s, acts), w).fifo
  }

  lemma IsPrompt(c: Config, w: bool)
    requires Turns(c, w)
    ensures Prompt(c, w, LongestWait(c, w) + 1)
  {
    hide Inv, Legal, Index, Exec, Accounted, LongestWait, Calls, Turns;
    var bound := LongestWait(c, w) + 1;
    forall s, acts, id | Inv(c, s) && Accounted(s) && Overdue(s, w, id) && Legal(c, s, acts)
                         && Calls(acts) >= (Index(Side(s, w).fifo, id) + 1) * bound
      ensures id !in Side(Exec(c, s, acts), w).fifo
    {
      OverdueServed(c, s, acts, w, id);
    }
  }

  lemma NeverPrompt(c: Config, bound: nat)
    requires Unsigned(c.writesStarved) == 0
    ensures !Prompt(c, false, bound)
  {
    hide Inv, Legal, Exec, Calls, Accounted, Index;
    var s, acts := ReadsStarveAtZero(c, bound);
  }

  // Writes are served in bounded time always, reads if and only if writes_starved is not zero.
  lemma PromptExactlyWhenTurns(c: Config, w: bool)
    ensures (exists bound: nat :: Prompt(c, w, bound)) <==> Turns(c, w)
  {
    if Turns(c, w) {
      hide Prompt, Turns;
      IsPrompt(c, w);
    } else {
      hide Prompt;
      forall bound: nat ensures !Prompt(c, w, bound) { NeverPrompt(c, bound); }
    }
  }
}
