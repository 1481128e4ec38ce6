// Whole runs of the deadline scheduler: agreement of its indices, conservation of requests,
// the starvation bound, and the forced drain.
module DeadlineTheorems {
  import opened Arith
  import opened Collections
  import opened ElvTree
  import opened Deadline

  datatype Action =
    | Tick(n: nat)
    | Add(w: bool, id: nat, rq: Rq)
    | BackMerged(w: bool, id: nat, end: nat)
    | FrontMerge(w: bool, id: nat, sector: nat)
    | Merge(w: bool, id: nat, next: nat)
    | Call

  ghost predicate Held(s: State, id: nat) { id in s.rd.fifo || id in s.wr.fifo }

  // Every request ever added is held, or was dispatched once, or was merged into another.
  ghost predicate Accounted(s: State) {
    && Distinct(s.queue)
    && (forall i :: i in s.rqs <==> Held(s, i) || i in s.queue || i in s.gone)
    && (forall i :: !(Held(s, i) && i in s.queue) && !(Held(s, i) && i in s.gone) && !(i in s.queue && i in s.gone))
  }

  // starved never passes the limit, so the unsigned counter cannot wrap.
  ghost predicate Inv(c: Config, s: State) {
    && Ok(s, false, {}) && Timely(c, s, false) && Timely(c, s, true)
    && s.starved <= Unsigned(c.writesStarved)
  }

  ghost function Init(c: Config): (s: State)
    ensures Inv(c, s) && Accounted(s)
  {
    State(map[], Dir([], [], None), Dir([], [], None), 0, 0, 0, 0, [], {}, 0)
  }

  ghost predicate Enabled(s: State, a: Action) {
    match a
    case Tick(_) => true
    case Add(w, id, rq) => id !in s.rqs && rq.write == w
    case BackMerged(w, id, _) => id in Side(s, w).sort
    case FrontMerge(w, id, _) => id in Side(s, w).sort
    case Merge(w, id, next) => id in Side(s, w).sort && next in Side(s, w).sort && id != next
    case Call => true
  }

  lemma Ready(s: State, w: bool)
    requires Ok(s, false, {})
    ensures Ok(s, w, {}) && Linked(s, w) && Distinct(Side(s, w).fifo) && SectorSorted(s.rqs, Side(s, w).sort)
    ensures Known(s.rqs, s.rd.fifo) && Known(s.rqs, s.wr.fifo)
    ensures forall i :: i in Side(s, w).fifo ==> i !in Side(s, !w).fifo
  {
    hide DeadlineSorted, Distinct;
  }

  // Whatever the scheduler settles on is on its tree: neither BUG_ON can fire.
  lemma ChoiceHeld(c: Config, s: State)
    requires Ok(s, false, {})
    ensures Known(s.rqs, s.rd.fifo) && Known(s.rqs, s.wr.fifo)
    ensures var ch := Choose(c, s);
            ch.Nothing? || (ch.id in Side(s, ch.w).sort && ch.id in Side(s, ch.w).fifo && ch.id in s.rqs && s.rqs[ch.id].write == ch.w)
    ensures Choose(c, s).Nothing? <==> s.rd.fifo == [] && s.wr.fifo == []
    ensures (s.rd.fifo != [] ==> s.rd.sort != []) && (s.wr.fifo != [] ==> s.wr.sort != [])
  {
    hide SectorSorted, DeadlineSorted, Distinct;
    if s.rd.fifo != [] { assert s.rd.fifo[0] in s.rd.sort; }
    if s.wr.fifo != [] { assert s.wr.fifo[0] in s.wr.sort; }
  }

  ghost function Apply(c: Config, s: State, a: Action): State
    requires Inv(c, s) && Enabled(s, a)
  {
    match a
    case Tick(n) => s.(now := s.now + n)
    case Add(w, id, rq) => Ready(s, w); AddRequest(c, s, w, id, rq)
    case BackMerged(w, id, end) => Ready(s, w); s.(rqs := s.rqs[id := s.rqs[id].(end := end)])
    case FrontMerge(w, id, sector) => Ready(s, w); FrontMerged(s, w, id, sector)
    case Merge(w, id, next) => Ready(s, w); MergedRequests(s, w, id, next)
    case Call => ChoiceHeld(c, s); Dispatch(c, s)
  }

  // ------------------------------------------------------- where requests go

  // added and merged are at most one request each, out the one sent to the dispatch queue.
  ghost predicate Effect(c: Config, s: State, t: State, w: bool, added: seq<nat>, out: seq<nat>, merged: seq<nat>) {
    && (forall i :: i in Side(t, w).fifo <==> (i in Side(s, w).fifo || i in added) && i !in out && i !in merged)
    && Side(t, !w).fifo == Side(s, !w).fifo
    && t.queue == s.queue + out && |out| <= 1 && |added| <= 1
    && (forall i :: i in t.gone <==> i in s.gone || i in merged)
    && (forall i :: i in t.rqs <==> i in s.rqs || i in added)
    && (forall i :: i in out || i in merged ==> i in Side(s, w).fifo)
    && (forall i :: i in out ==> i !in merged) && (forall i :: i in added ==> i !in s.rqs)
    && (forall i :: i in s.rqs ==> t.rqs[i].write == s.rqs[i].write && t.rqs[i].deadline <= s.rqs[i].deadline)
    && (forall i :: i in added ==> t.rqs[i].write == w && t.rqs[i].deadline <= s.now + Expire(c, w))
    && t.now == s.now
  }

  lemma EffectAccounted(c: Config, s: State, t: State, w: bool, added: seq<nat>, out: seq<nat>, merged: seq<nat>)
    requires Effect(c, s, t, w, added, out, merged) && Accounted(s)
    requires forall i :: i in Side(s, w).fifo ==> i !in Side(s, !w).fifo
    ensures Accounted(t)
  {
    assert forall i :: Held(s, i) <==> i in Side(s, w).fifo || i in Side(s, !w).fifo;
    assert forall i :: Held(t, i) <==> i in Side(t, w).fifo || i in Side(t, !w).fifo;
    assert forall i :: i in t.queue <==> i in s.queue || i in out;
    assert Distinct(t.queue) by {
      if out != [] { assert out[0] in Side(s, w).fifo; assert Held(s, out[0]); assert out[0] !in s.queue; }
    }
  }

  lemma EffectTimely(c: Config, s: State, t: State, w: bool, added: seq<nat>, out: seq<nat>, merged: seq<nat>)
    requires Effect(c, s, t, w, added, out, merged) && Timely(c, s, false) && Timely(c, s, true)
    requires Known(s.rqs, s.rd.fifo) && Known(s.rqs, s.wr.fifo)
    ensures Timely(c, t, false) && Timely(c, t, true)
  {
    assert Timely(c, t, w) && Timely(c, t, !w);
  }

  lemma MoveEffect(c: Config, s: State, w: bool, loose: set<nat>, id: nat)
    requires Ok(s, w, loose) && id in Side(s, w).sort
    ensures Effect(c, s, MoveRequest(s, w, id), w, [], [id], [])
  {
    hide Remove, Latter, Index, SectorSorted, DeadlineSorted;
    SortedDistinct(s.rqs, Side(s, w).sort);
    LatterRemains(Side(s, w).sort, id);
    RemoveDistinct(Side(s, w).fifo, id);
    assert id in Side(s, w).fifo && id in s.rqs;
    MoveOut(c, s, w, id);
  }

  lemma MoveOut(c: Config, s: State, w: bool, id: nat)
    requires id in s.rqs && id in Side(s, w).sort && id in Side(s, w).fifo
    requires Latter(Side(s, w).sort, id) != Some(id)
    requires forall x :: x in Remove(Side(s, w).fifo, id) <==> x in Side(s, w).fifo && x != id
    ensures Effect(c, s, MoveRequest(s, w, id), w, [], [id], [])
  {
    MoveShape(s, w, id);
    hide MoveRequest, Remove, Latter, Index;
    var t := MoveRequest(s, w, id);
    assert t.rqs == t.(rd := s.rd, wr := s.wr).rqs == s.rqs;
    assert t.queue == t.(rd := s.rd, wr := s.wr).queue == s.queue + [id];
    assert t.gone == t.(rd := s.rd, wr := s.wr).gone == s.gone;
    assert t.now == t.(rd := s.rd, wr := s.wr).now == s.now;
    assert Side(t, w).fifo == Remove(Side(s, w).fifo, id) && Side(t, !w).fifo == Side(s, !w).fifo;
  }

  // A request of the same sector, if there is one, is dispatched.
  lemma RoomEffect(c: Config, s: State, w: bool, loose: set<nat>, sector: nat) returns (out: seq<nat>)
    requires Ok(s, w, loose)
    ensures Linked(s, w) && Effect(c, s, MakeRoom(s, w, sector), w, [], out, [])
    ensures forall i :: i in out ==> i in Side(s, w).sort
  {
    hide SectorSorted, DeadlineSorted, Distinct;
    out := [];
    match Alias(s.rqs, Side(s, w).sort, sector)
    case None => assert s.queue + [] == s.queue;
    case Some(alias) =>
      out := [alias];
      MoveEffect(c, s, w, loose, alias);
  }

  // v is t but for the trees, the caches and the counters; extra is appended to a FIFO.
  ghost predicate Follows(t: State, v: State, w: bool, extra: seq<nat>) {
    && v.queue == t.queue && v.gone == t.gone && v.rqs == t.rqs && v.now == t.now
    && Side(v, w).fifo == Side(t, w).fifo + extra && Side(v, !w).fifo == Side(t, !w).fifo
  }

  lemma AddShape(c: Config, s: State, w: bool, id: nat, rq: Rq)
    requires Linked(s, w) && id !in s.rqs && rq.write == w
    ensures var u := s.(rqs := s.rqs[id := rq.(deadline := s.now + Expire(c, w))]);
            Linked(u, w) && Follows(MakeRoom(u, w, rq.sector), AddRequest(c, s, w, id, rq), w, [id])
  {
    var u := s.(rqs := s.rqs[id := rq.(deadline := s.now + Expire(c, w))]);
    assert Linked(u, w);
    hide MakeRoom, Linked, RbAdd;
  }

  lemma AddCompose(c: Config, s: State, u: State, t: State, v: State, w: bool, id: nat, out: seq<nat>)
    requires id !in s.rqs && id in u.rqs && u == s.(rqs := s.rqs[id := u.rqs[id]])
    requires u.rqs[id].write == w && u.rqs[id].deadline == s.now + Expire(c, w) && id !in Side(s, w).fifo
    requires Effect(c, u, t, w, [], out, []) && Follows(t, v, w, [id])
    ensures Effect(c, s, v, w, [id], out, [])
  {
  }

  lemma AddEffect(c: Config, s: State, w: bool, id: nat, rq: Rq) returns (out: seq<nat>)
    requires Ok(s, w, {}) && id !in s.rqs && rq.write == w
    ensures Linked(s, w) && Effect(c, s, AddRequest(c, s, w, id, rq), w, [id], out, [])
  {
    hide DirOk, Effect, Follows, MakeRoom;
    MakeRoomOk(s, w, {}, rq.sector);
    var u := s.(rqs := s.rqs[id := rq.(deadline := s.now + Expire(c, w))]);
    ExtendRqs(s, w, id, u.rqs[id]);
    out := RoomEffect(c, u, w, {}, rq.sector);
    hide Linked;
    AddShape(c, s, w, id, rq);
    hide AddRequest;
    AddCompose(c, s, u, MakeRoom(u, w, rq.sector), AddRequest(c, s, w, id, rq), w, id, out);
  }

  // The request taken off the tree, at its new sector.
  function Lowered(s: State, w: bool, id: nat, sector: nat): State
    requires id in Side(s, w).sort && id in s.rqs
  {
    var d := Side(s, w);
    SetSide(s, w, d.(sort := Remove(d.sort, id))).(rqs := s.rqs[id := s.rqs[id].(sector := sector)])
  }

  lemma LoweredOk(s: State, w: bool, id: nat, sector: nat)
    requires Ok(s, w, {}) && id in Side(s, w).sort
    ensures Ok(Lowered(s, w, id, sector), w, {id}) && id !in Side(Lowered(s, w, id, sector), w).sort
  {
    var d, t := Side(s, w), Lowered(s, w, id, sector);
    DirLoosen(s.rqs, t.rqs, d, w, id);
    OtherSide(s, w, id);
    DirSame(s.rqs, t.rqs, Side(s, !w), !w, {});
    assert Side(t, w) == d.(sort := Remove(d.sort, id)) && Side(t, !w) == Side(s, !w);
    SortedDistinct(s.rqs, d.sort);
    RemoveDistinct(d.sort, id);
    hide Remove, DirOk, Distinct;
  }

  lemma FrontShape(s: State, w: bool, id: nat, sector: nat)
    requires Linked(s, w) && id in Side(s, w).sort && Distinct(Side(s, w).fifo) && SectorSorted(s.rqs, Side(s, w).sort)
    requires Linked(Lowered(s, w, id, sector), w)
    ensures Follows(MakeRoom(Lowered(s, w, id, sector), w, sector), FrontMerged(s, w, id, sector), w, [])
  {
    var t := MakeRoom(Lowered(s, w, id, sector), w, sector);
    hide MakeRoom, RbAdd, Remove;
    assert FrontMerged(s, w, id, sector) == AddRb(Lowered(s, w, id, sector), w, id);
    assert Side(t, w).fifo + [] == Side(t, w).fifo;
  }

  lemma FrontCompose(c: Config, s: State, t: State, v: State, w: bool, id: nat, sector: nat, out: seq<nat>)
    requires id in Side(s, w).sort && id in s.rqs && id in Side(s, w).fifo && id !in out
    requires Effect(c, Lowered(s, w, id, sector), t, w, [], out, []) && Follows(t, v, w, [])
    ensures Effect(c, s, v, w, [], out, []) && id in Side(v, w).fifo
  {
    hide Remove;
  }

  lemma FrontEffect(c: Config, s: State, w: bool, id: nat, sector: nat) returns (out: seq<nat>)
    requires Ok(s, w, {}) && id in Side(s, w).sort
    ensures Linked(s, w) && Effect(c, s, FrontMerged(s, w, id, sector), w, [], out, [])
    ensures id in Side(FrontMerged(s, w, id, sector), w).fifo
  {
    LoweredOk(s, w, id, sector);
    assert Linked(s, w) && id in Side(s, w).fifo;
    hide DirOk, Lowered, Distinct, SectorSorted, MakeRoom, Effect;
    out := RoomEffect(c, Lowered(s, w, id, sector), w, {id}, sector);
    FrontShape(s, w, id, sector);
    hide FrontMerged, Follows;
    FrontCompose(c, s, MakeRoom(Lowered(s, w, id, sector), w, sector), FrontMerged(s, w, id, sector), w, id, sector,
                 out);
  }

  lemma MergeShape(s: State, w: bool, id: nat, next: nat)
    requires Linked(s, w) && id in Side(s, w).sort && next in Side(s, w).sort && id != next
    ensures var t := MergedRequests(s, w, id, next);
            && Side(t, w).fifo == Remove(Moved(s, w, id, next), next) && Side(t, !w).fifo == Side(s, !w).fifo
            && t.queue == s.queue && t.gone == s.gone + {next} && t.now == s.now && Survives(s.rqs, t.rqs, id, next)
            && t.rqs.Keys == s.rqs.Keys
  {
    hide Moved, Remove, Latter;
  }

  lemma MergeCompose(c: Config, s: State, t: State, w: bool, id: nat, next: nat)
    requires id in s.rqs && next in s.rqs && next in Side(s, w).fifo
    requires forall i :: i in Side(t, w).fifo <==> i in Side(s, w).fifo && i != next
    requires Side(t, !w).fifo == Side(s, !w).fifo && t.queue == s.queue && t.gone == s.gone + {next} && t.now == s.now
    requires Survives(s.rqs, t.rqs, id, next) && t.rqs.Keys == s.rqs.Keys
    ensures Effect(c, s, t, w, [], [], [next])
  {
    assert s.queue + [] == s.queue;
    assert forall i :: i in s.rqs <==> i in t.rqs.Keys;
  }

  lemma MergeEffect(c: Config, s: State, w: bool, id: nat, next: nat)
    requires Ok(s, w, {}) && id in Side(s, w).sort && next in Side(s, w).sort && id != next
    ensures Linked(s, w) && Effect(c, s, MergedRequests(s, w, id, next), w, [], [], [next])
    ensures id in Side(MergedRequests(s, w, id, next), w).fifo
  {
    assert Linked(s, w) && next in Side(s, w).fifo && id in Side(s, w).fifo && id in s.rqs && next in s.rqs;
    MergeShape(s, w, id, next);
    hide MergedRequests;
    var t := MergedRequests(s, w, id, next);
    MergedMembers(s, t, w, id, next);
    hide DirOk, Moved, Remove, Survives;
    MergeCompose(c, s, t, w, id, next);
  }

  lemma MergedMembers(s: State, t: State, w: bool, id: nat, next: nat)
    requires Ok(s, w, {}) && id in Side(s, w).sort && next in Side(s, w).sort && id != next
    requires Survives(s.rqs, t.rqs, id, next)
    requires Linked(s, w) && Side(t, w).fifo == Remove(Moved(s, w, id, next), next)
    ensures forall i :: i in Side(t, w).fifo <==> i in Side(s, w).fifo && i != next
  {
    var moved := Moved(s, w, id, next);
    MovedOk(s, w, id, next, t.rqs);
    RemoveDistinct(moved, next);
    hide Moved, Remove, Survives, Linked, SectorSorted, DeadlineSorted, Distinct;
    assert forall i :: i in moved <==> i in Side(s, w).sort;
  }

  // ------------------------------------------------------- runs

  lemma KeptBy(c: Config, s: State, t: State, w: bool, added: seq<nat>, out: seq<nat>, merged: seq<nat>)
    requires Inv(c, s) && Effect(c, s, t, w, added, out, merged) && Ok(t, w, {})
    requires t.starved <= Unsigned(c.writesStarved)
    ensures Inv(c, t) && (Accounted(s) ==> Accounted(t))
  {
    hide DirOk, Effect, Accounted, Timely;
    Ready(s, w);
    EffectTimely(c, s, t, w, added, out, merged);
    if Accounted(s) { EffectAccounted(c, s, t, w, added, out, merged); }
  }

  lemma CallShape(c: Config, s: State)
    requires Ok(s, false, {}) && !Choose(c, s).Nothing? && s.starved <= Unsigned(c.writesStarved)
    ensures var ch := Choose(c, s);
            ch.id in Side(s, ch.w).sort && ch.id in Side(s, ch.w).fifo && ch.id in s.rqs
    ensures var t, ch := Dispatch(c, s), Choose(c, s);
            && t == MoveRequest(s.(batching := t.batching, starved := t.starved), ch.w, ch.id)
            && t.batching == (if ch.Batch? then s.batching + 1 else 1)
            && t.starved == (if ch.Batch? then s.starved else ch.starved)
            && t.starved <= Unsigned(c.writesStarved)
  {
    ChoiceHeld(c, s);
    var ch := Choose(c, s);
    MoveCounters(if ch.Batch? then s.(batching := s.batching + 1) else s.(batching := 1, starved := ch.starved), ch.w,
                 ch.id);
    hide MoveRequest, DirOk, FindRequest;
  }

  lemma MoveCounters(s: State, w: bool, id: nat)
    requires id in s.rqs && id in Side(s, w).sort && id in Side(s, w).fifo
    ensures var t := MoveRequest(s, w, id); t.starved == s.starved && t.batching == s.batching
  {
    hide Remove, Latter;
  }

  lemma CountersApart(c: Config, s: State, w: bool, batching: nat, starved: nat)
    requires Ok(s, w, {})
    ensures Ok(s.(batching := batching, starved := starved), w, {})
    ensures forall t, id :: Effect(c, s.(batching := batching, starved := starved), t, w, [], [id], []) ==> Effect(c, s, t, w, [], [id], [])
  {
    hide DirOk;
  }

  lemma CallEffect(c: Config, s: State)
    requires Inv(c, s) && !Choose(c, s).Nothing?
    ensures var t, ch := Apply(c, s, Call), Choose(c, s);
            && Effect(c, s, t, ch.w, [], [ch.id], []) && Ok(t, ch.w, {})
            && t.starved <= Unsigned(c.writesStarved)
            && t.batching == (if ch.Batch? then s.batching + 1 else 1)
            && t.starved == (if ch.Batch? then s.starved else ch.starved)
  {
    hide MoveRequest, DirOk, Linked, Timely, Effect;
    ChoiceHeld(c, s);
    var t, ch := Apply(c, s, Call), Choose(c, s);
    CallShape(c, s);
    hide Choose, Dispatch;
    Ready(s, ch.w);
    CountersApart(c, s, ch.w, t.batching, t.starved);
    var u := s.(batching := t.batching, starved := t.starved);
    MoveOk(u, ch.w, {}, ch.id);
    MoveEffect(c, u, ch.w, {}, ch.id);
  }

  lemma BackMergedOk(c: Config, s: State, w: bool, id: nat, end: nat)
    requires Ok(s, w, {}) && id in Side(s, w).sort
    ensures id in s.rqs
    ensures var t := s.(rqs := s.rqs[id := s.rqs[id].(end := end)]);
            Ok(t, w, {}) && Effect(c, s, t, w, [], [], [])
  {
    var t := s.(rqs := s.rqs[id := s.rqs[id].(end := end)]);
    OtherSide(s, w, id);
    SortedAgain2(s.rqs, t.rqs, Side(s, w));
    SortedAgain2(s.rqs, t.rqs, Side(s, !w));
    hide Distinct, SectorSorted, DeadlineSorted;
    assert s.queue + [] == s.queue;
  }

  lemma SortedAgain2(a: map<nat, Rq>, b: map<nat, Rq>, d: Dir)
    requires Known(a, d.sort) && Known(a, d.fifo) && SectorSorted(a, d.sort) && DeadlineSorted(a, d.fifo)
    requires forall i :: i in a ==> i in b && a[i].sector == b[i].sector && a[i].deadline == b[i].deadline
    ensures SectorSorted(b, d.sort) && DeadlineSorted(b, d.fifo)
  {
  }

  lemma StepInv(c: Config, s: State, a: Action)
    requires Inv(c, s) && Enabled(s, a)
    ensures Inv(c, Apply(c, s, a)) && (Accounted(s) ==> Accounted(Apply(c, s, a)))
  {
    hide DirOk, Effect, Accounted;
    var t := Apply(c, s, a);
    match a
    case Tick(n) => TickKeeps(c, s, n);
    case Add(w, id, rq) =>
      Ready(s, w);
      TimelyEither(c, s, w);
      AddRequestOk(c, s, w, id, rq);
      var out := AddEffect(c, s, w, id, rq);
      StarvedKept(c, s, a);
      hide AddRequest, Timely, Linked;
      KeptBy(c, s, t, w, [id], out, []);
    case BackMerged(w, id, end) =>
      Ready(s, w);
      BackMergedOk(c, s, w, id, end);
      hide Timely, Linked;
      KeptBy(c, s, t, w, [], [], []);
    case FrontMerge(w, id, sector) =>
      Ready(s, w);
      FrontMergedOk(s, w, id, sector);
      var out := FrontEffect(c, s, w, id, sector);
      StarvedKept(c, s, a);
      hide FrontMerged, Timely, Linked;
      KeptBy(c, s, t, w, [], out, []);
    case Merge(w, id, next) =>
      Ready(s, w);
      MergedRequestsOk(s, w, id, next);
      MergeEffect(c, s, w, id, next);
      StarvedKept(c, s, a);
      hide MergedRequests, Timely, Linked;
      KeptBy(c, s, t, w, [], [], [next]);
    case Call =>
      ChoiceHeld(c, s);
      if !Choose(c, s).Nothing? {
        CallEffect(c, s);
        hide Dispatch, Choose, Timely;
        KeptBy(c, s, t, Choose(c, s).w, [], [Choose(c, s).id], []);
      }
  }

  lemma TimelyEither(c: Config, s: State, w: bool)
    requires Timely(c, s, false) && Timely(c, s, true)
    ensures Timely(c, s, w)
  {
  }

  lemma TickKeeps(c: Config, s: State, n: nat)
    requires Inv(c, s)
    ensures Inv(c, Apply(c, s, Tick(n))) && (Accounted(s) ==> Accounted(Apply(c, s, Tick(n))))
  {
  }

  // Only dispatch calls touch the two counters.
  lemma StarvedKept(c: Config, s: State, a: Action)
    requires Inv(c, s) && Enabled(s, a) && !a.Call?
    ensures var t := Apply(c, s, a); t.starved == s.starved && t.batching == s.batching
  {
    hide Remove, Latter, RbAdd, Moved, DirOk, Timely, Alias;
  }

  ghost predicate Legal(c: Config, s: State, acts: seq<Action>)
    requires Inv(c, s)
    decreases |acts|
  {
    acts == [] || (Enabled(s, acts[0]) && (StepInv(c, s, acts[0]); Legal(c, Apply(c, s, acts[0]), acts[1..])))
  }

  ghost function Exec(c: Config, s: State, acts: seq<Action>): (t: State)
    requires Inv(c, s) && Legal(c, s, acts)
    ensures Inv(c, t)
    decreases |acts|
  {
    if acts == [] then s else StepInv(c, s, acts[0]); Exec(c, Apply(c, s, acts[0]), acts[1..])
  }

  lemma {:induction false} ExecAccounted(c: Config, s: State, acts: seq<Action>)
    requires Inv(c, s) && Accounted(s) && Legal(c, s, acts)
    ensures Accounted(Exec(c, s, acts))
    decreases |acts|
  {
    hide Inv, Accounted, Apply;
    if acts != [] {
      StepInv(c, s, acts[0]);
      ExecAccounted(c, Apply(c, s, acts[0]), acts[1..]);
    }
  }

  // In every run the tree and the FIFO of a direction hold the same requests, the tree is in
  // sector order and the FIFO in deadline order, at most one direction has a cached next
  // request and it is on its tree, nr_sorted counts what is held, and no request is lost or
  // dispatched twice.
  lemma IndicesAgree(c: Config, acts: seq<Action>)
    requires Legal(c, Init(c), acts)
    ensures var s := Exec(c, Init(c), acts);
            && (forall i :: i in s.rd.sort <==> i in s.rd.fifo) && (forall i :: i in s.wr.sort <==> i in s.wr.fifo)
            && Known(s.rqs, s.rd.sort) && Known(s.rqs, s.wr.sort) && Known(s.rqs, s.rd.fifo) && Known(s.rqs, s.wr.fifo)
            && SectorSorted(s.rqs, s.rd.sort) && SectorSorted(s.rqs, s.wr.sort)
            && DeadlineSorted(s.rqs, s.rd.fifo) && DeadlineSorted(s.rqs, s.wr.fifo)
            && (s.rd.next.None? || s.wr.next.None?)
            && (s.rd.next.Some? ==> s.rd.next.value in s.rd.sort) && (s.wr.next.Some? ==> s.wr.next.value in s.wr.sort)
            && s.nrSorted == |s.rd.sort| + |s.wr.sort| && Accounted(s)
  {
    hide SectorSorted, DeadlineSorted, Accounted, Timely, Legal, Exec;
    ExecAccounted(c, Init(c), acts);
    var s := Exec(c, Init(c), acts);
    SameLength(s.rqs, s.rd, false);
    SameLength(s.rqs, s.wr, true);
  }

  lemma SameLength(rqs: map<nat, Rq>, d: Dir, w: bool)
    requires DirOk(rqs, d, w, {})
    ensures |d.sort| == |d.fifo|
  {
    SortedDistinct(rqs, d.sort);
    var a := DistinctSize(d.sort);
    var b := DistinctSize(d.fifo);
    assert a == b;
  }

  // ------------------------------------------------------- starvation

  // How many requests of a direction the dispatch calls of a run pick.
  ghost function Picks(c: Config, s: State, acts: seq<Action>, w: bool): nat
    requires Inv(c, s) && Legal(c, s, acts)
    decreases |acts|
  {
    if acts == [] then 0
    else
      StepInv(c, s, acts[0]);
      ChoiceHeld(c, s);
      var ch := Choose(c, s);
      (if acts[0].Call? && !ch.Nothing? && ch.w == w then 1 else 0) + Picks(c, Apply(c, s, acts[0]), acts[1..], w)
  }

  function AtLeastOne(n: nat): nat { if n == 0 then 1 else n }

  // How many more reads may go first: the rest of this batch, and the batches still allowed.
  function Patience(c: Config, s: State): nat {
    var ws := Unsigned(c.writesStarved);
    (if s.batching < c.fifoBatch then c.fifoBatch - s.batching else 0)
    + (if s.starved < ws then ws - s.starved else 0) * AtLeastOne(c.fifoBatch)
  }

  lemma PatienceBound(c: Config, s: State)
    ensures Patience(c, s) <= (Unsigned(c.writesStarved) + 1) * AtLeastOne(c.fifoBatch)
  {
    var ws, b := Unsigned(c.writesStarved), AtLeastOne(c.fifoBatch);
    var left := if s.starved < ws then ws - s.starved else 0;
    MulMonotone(b, left, ws);
    assert (ws + 1) * b == ws * b + b;
  }

  // A write that waits keeps waiting until a dispatch call picks a write, and each read that
  // is picked uses up patience.
  lemma ReadCosts(c: Config, s: State)
    requires Inv(c, s) && s.wr.fifo != []
    ensures var t, ch := Apply(c, s, Call), Choose(c, s);
            !ch.Nothing? && (!ch.w ==> t.wr.fifo != [] && Patience(c, t) + 1 <= Patience(c, s))
  {
    hide Timely, FindRequest, Dispatch;
    ChoiceHeld(c, s);
    CallEffect(c, s);
    hide Ok, Apply;
    var ch := Choose(c, s);
    if ch.Fresh? && !ch.w {
      var ws, b := Unsigned(c.writesStarved), AtLeastOne(c.fifoBatch);
      assert ch.starved == s.starved + 1 <= ws;
      assert (ws - s.starved) * b == (ws - s.starved - 1) * b + b;
    }
  }

  lemma AddKeepsWrites(c: Config, s: State, w: bool, id: nat, rq: Rq)
    requires Inv(c, s) && Enabled(s, Add(w, id, rq)) && s.wr.fifo != []
    ensures Apply(c, s, Add(w, id, rq)).wr.fifo != []
  {
    hide Timely, DirOk;
    Ready(s, w);
    var out := AddEffect(c, s, w, id, rq);
    assert id !in Side(s, w).fifo by { ExtendRqs(s, w, id, rq); }
    hide AddRequest;
    assert id in Side(Apply(c, s, Add(w, id, rq)), w).fifo;
  }

  lemma FrontKeepsWrites(c: Config, s: State, w: bool, id: nat, sector: nat)
    requires Inv(c, s) && Enabled(s, FrontMerge(w, id, sector)) && s.wr.fifo != []
    ensures Apply(c, s, FrontMerge(w, id, sector)).wr.fifo != []
  {
    hide Timely, DirOk;
    Ready(s, w);
    var out := FrontEffect(c, s, w, id, sector);
    hide FrontMerged;
  }

  lemma MergeKeepsWrites(c: Config, s: State, w: bool, id: nat, next: nat)
    requires Inv(c, s) && Enabled(s, Merge(w, id, next)) && s.wr.fifo != []
    ensures Apply(c, s, Merge(w, id, next)).wr.fifo != []
  {
    hide Timely, DirOk;
    Ready(s, w);
    MergeEffect(c, s, w, id, next);
    hide MergedRequests;
  }

  lemma PatienceSame(c: Config, s: State, t: State)
    requires t.starved == s.starved && t.batching == s.batching
    ensures Patience(c, t) == Patience(c, s)
  {
  }

  lemma OthersKeepWrites(c: Config, s: State, a: Action)
    requires Inv(c, s) && Enabled(s, a) && !a.Call? && s.wr.fifo != []
    ensures var t := Apply(c, s, a); t.wr.fifo != [] && Patience(c, t) == Patience(c, s)
  {
    StarvedKept(c, s, a);
    PatienceSame(c, s, Apply(c, s, a));
    hide Inv, Patience, Enabled;
    if a.Add? {
      hide Apply;
      AddKeepsWrites(c, s, a.w, a.id, a.rq);
    } else if a.FrontMerge? {
      hide Apply;
      FrontKeepsWrites(c, s, a.w, a.id, a.sector);
    } else if a.Merge? {
      hide Apply;
      MergeKeepsWrites(c, s, a.w, a.id, a.next);
    } else {
      hide AddRequest, FrontMerged, MergedRequests, Dispatch;
    }
  }

  function Calls(acts: seq<Action>): nat {
    if acts == [] then 0 else (if acts[0].Call? then 1 else 0) + Calls(acts[1..])
  }

  // Once a write is queued, dispatch calls pick at most Patience reads before one picks a
  // write, whatever arrives or merges meanwhile; and no call comes back empty-handed.
  lemma {:induction false} Starvation(c: Config, s: State, acts: seq<Action>)
    requires Inv(c, s) && s.wr.fifo != [] && Legal(c, s, acts) && Picks(c, s, acts, true) == 0
    ensures Calls(acts) == Picks(c, s, acts, false) <= Patience(c, s)
    decreases |acts|
  {
    hide Inv, Patience, Apply, Choose;
    if acts != [] {
      if acts[0].Call? { ReadCosts(c, s); } else { OthersKeepWrites(c, s, acts[0]); }
      StepInv(c, s, acts[0]);
      Starvation(c, Apply(c, s, acts[0]), acts[1..]);
    }
  }

  lemma WritesNotStarved(c: Config, s: State, acts: seq<Action>)
    requires Inv(c, s) && s.wr.fifo != [] && Legal(c, s, acts)
    requires Calls(acts) > (Unsigned(c.writesStarved) + 1) * AtLeastOne(c.fifoBatch)
    ensures Picks(c, s, acts, true) > 0
  {
    hide Inv, Patience, Picks, Legal, Calls;
    PatienceBound(c, s);
    if Picks(c, s, acts, true) == 0 { Starvation(c, s, acts); }
  }

  // ------------------------------------------------------- forced drain

  // The loop of elv_drain_elevator: the scheduler is asked until it has nothing left.
  ghost function Drained(c: Config, s: State): (t: State)
    requires Inv(c, s)
    ensures Inv(c, t)
    decreases |s.rd.fifo| + |s.wr.fifo|
  {
    if Choose(c, s).Nothing? then s
    else
      StepInv(c, s, Call);
      CallShrinks(c, s);
      Drained(c, Apply(c, s, Call))
  }

  lemma CallShrinks(c: Config, s: State)
    requires Inv(c, s) && !Choose(c, s).Nothing?
    ensures var t, ch := Apply(c, s, Call), Choose(c, s);
            && |t.rd.fifo| + |t.wr.fifo| == |s.rd.fifo| + |s.wr.fifo| - 1
            && t.queue == s.queue + [ch.id] && t.gone == s.gone && t.rqs == s.rqs
            && forall i :: Held(s, i) ==> Held(t, i) || i == ch.id
  {
    hide DirOk, Timely, Choose, FindRequest;
    CallEffect(c, s);
    hide Effect;
    ChoiceHeld(c, s);
    CallShape(c, s);
    var ch := Choose(c, s);
    var t := Dispatch(c, s);
    Shrinks(s.(batching := t.batching, starved := t.starved), ch.w, ch.id);
    hide MoveRequest, Dispatch;
    assert Apply(c, s, Call) == t;
    EffectHeld(c, s, Apply(c, s, Call), ch.w, ch.id);
  }

  lemma EffectHeld(c: Config, s: State, t: State, w: bool, id: nat)
    requires Effect(c, s, t, w, [], [id], [])
    ensures t.queue == s.queue + [id] && t.gone == s.gone
    ensures forall i :: Held(s, i) ==> Held(t, i) || i == id
  {
    assert forall i :: Held(s, i) <==> i in Side(s, w).fifo || i in Side(s, !w).fifo;
    assert forall i :: Held(t, i) <==> i in Side(t, w).fifo || i in Side(t, !w).fifo;
  }

  lemma Shrinks(s: State, w: bool, id: nat)
    requires id in s.rqs && id in Side(s, w).sort && id in Side(s, w).fifo
    ensures var t := MoveRequest(s, w, id); |t.rd.fifo| + |t.wr.fifo| == |s.rd.fifo| + |s.wr.fifo| - 1 && t.rqs == s.rqs
  {
    RemoveAt(Side(s, w).fifo, id);
    hide Remove, Latter;
  }

  lemma NothingLeft(s: State, t: State)
    requires Accounted(s) && Accounted(t) && t.rd.fifo == [] && t.wr.fifo == [] && t.gone == s.gone && t.rqs == s.rqs
    ensures forall i :: Held(s, i) ==> i in t.queue
  {
  }

  // Draining leaves nothing behind, so nr_sorted is zero, and everything that was held is in
  // the dispatch queue exactly once, behind what was there.
  lemma {:induction false} DrainEmpties(c: Config, s: State)
    requires Inv(c, s) && Accounted(s)
    ensures var t := Drained(c, s);
            && t.rd.fifo == [] && t.wr.fifo == [] && t.nrSorted == 0
            && Accounted(t) && s.queue <= t.queue && t.gone == s.gone && t.rqs == s.rqs
            && |t.queue| == |s.queue| + |s.rd.fifo| + |s.wr.fifo|
            && forall i :: Held(s, i) ==> i in t.queue
    decreases |s.rd.fifo| + |s.wr.fifo|
  {
    hide DirOk, Timely, Choose, Apply, Accounted;
    ChoiceHeld(c, s);
    if !Choose(c, s).Nothing? {
      StepInv(c, s, Call);
      CallShrinks(c, s);
      DrainEmpties(c, Apply(c, s, Call));
    }
    NothingLeft(s, Drained(c, s));
  }
}
