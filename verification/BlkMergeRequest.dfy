// The request object of block/blk-merge.c: its loops and in-place updates, proved against
// the functions of BlkMerge.
module BlkMergeRequest {
  import opened BlkMerge

  // One step of a pass: a new vector opens a segment or extends the open one.
  lemma GreedyStep(q: Limits, bounce: bool, vecs: seq<Bvec>, i: nat)
    requires i < |vecs|
    ensures Greedy(q, bounce, vecs[..i + 1]) == Extend(q, bounce, Greedy(q, bounce, vecs[..i]), vecs[i])
  {
    assert vecs[..i + 1][..i] == vecs[..i];
  }

  lemma {:induction false} PrefixNoLonger(q: Limits, bounce: bool, vecs: seq<Bvec>, i: nat)
    requires i <= |vecs|
    ensures |Greedy(q, bounce, vecs[..i])| <= |Greedy(q, bounce, vecs)|
    decreases |vecs| - i
  {
    if i < |vecs| {
      GreedyStep(q, bounce, vecs, i);
      PrefixNoLonger(q, bounce, vecs, i + 1);
    } else {
      assert vecs[..i] == vecs;
    }
  }

  // How the loops see the extension of a pass.
  lemma StepSizes(q: Limits, bounce: bool, vecs: seq<Bvec>, i: nat)
    requires 0 < i < |vecs|
    ensures var was, now := Greedy(q, bounce, vecs[..i]), Greedy(q, bounce, vecs[..i + 1]);
            var joins := !(bounce && (vecs[i - 1].high || vecs[i].high))
                         && Open(was) + vecs[i].len <= q.maxSegmentSize && Join(q, vecs[i - 1], vecs[i]);
            && |now| == (if joins then |was| else |was| + 1)
            && Open(now) == (if joins then Open(was) + vecs[i].len else vecs[i].len)
            && Sum(now[0]) == (if |now| == 1 then Open(now) else Sum(was[0]))
            && Entries(now) == if joins then Entries(was)[|was| - 1 := Entry(Entries(was)[|was| - 1].addr, Open(now))]
                               else Entries(was) + [Entry(vecs[i].addr, vecs[i].len)]
  {
    hide Join, Sum, Extend, Entries, Open, Greedy;
    var was, v := Greedy(q, bounce, vecs[..i]), vecs[i];
    GreedyStep(q, bounce, vecs, i);
    GreedyEnd(q, bounce, vecs[..i]);
    ExtendSizes(q, bounce, was, v);
    ExtendEntries(q, bounce, was, v);
    FitsIs(q, bounce, was, vecs[i - 1], v);
  }

  lemma FitsIs(q: Limits, bounce: bool, segs: seq<Segment>, last: Bvec, v: Bvec)
    requires segs != [] && segs[|segs| - 1] != [] && segs[|segs| - 1][|segs[|segs| - 1]| - 1] == last
    ensures Fits(q, bounce, segs[|segs| - 1], v) ==
            (!(bounce && (last.high || v.high)) && Open(segs) + v.len <= q.maxSegmentSize && Join(q, last, v))
  {
    hide Join, Sum;
  }

  // What one more vector makes of the entries and of the first segment.
  lemma ExtendEntries(q: Limits, bounce: bool, segs: seq<Segment>, v: Bvec)
    requires segs != [] && forall i :: 0 <= i < |segs| ==> segs[i] != []
    ensures var more := Extend(q, bounce, segs, v);
            && Sum(more[0]) == (if |more| == 1 then Open(more) else Sum(segs[0]))
            && Entries(more) == if Fits(q, bounce, segs[|segs| - 1], v)
                                then Entries(segs)[|segs| - 1 := Entry(Entries(segs)[|segs| - 1].addr, Open(more))]
                                else Entries(segs) + [Entry(v.addr, v.len)]
  {
    hide Fits, Sum, Join;
    SumOne(v);
  }

  lemma SumOne(v: Bvec)
    ensures Sum([v]) == v.len
  {
    assert [v][..0] == [];
  }

  lemma FirstStep(q: Limits, bounce: bool, vecs: seq<Bvec>)
    requires vecs != []
    ensures Greedy(q, bounce, vecs[..1]) == [[vecs[0]]] && Open([[vecs[0]]]) == vecs[0].len
    ensures Entries([[vecs[0]]]) == [Entry(vecs[0].addr, vecs[0].len)]
  {
    GreedyStep(q, bounce, vecs, 0);
    SumOne(vecs[0]);
  }

  // The loop of blk_recalc_rq_segments: front starts as the first bio's bi_seg_front_size.
  method CountSegments(q: Limits, vecs: seq<Bvec>, front0: nat) returns (segs: nat, size: nat, front: nat)
    requires vecs != []
    ensures var g := Greedy(q, true, vecs); segs == |g| && size == Open(g) && front == Max(front0, Sum(g[0]))
  {
    hide Greedy, Join, Sum, Open, Entries;
    FirstStep(q, true, vecs);
    FirstOpen(vecs[0]);
    segs, size, front := 0, 0, front0;
    var highPrev := true;
    for i := 0 to |vecs|
      invariant i == 0 ==> segs == 0 && size == 0 && highPrev && front == front0
      invariant i > 0 ==> var g := Greedy(q, true, vecs[..i]);
                          segs == |g| && size == Open(g) && highPrev == vecs[i - 1].high
                          && (segs == 1 ==> Sum(g[0]) == size)
                          && front == if segs > 1 then Max(front0, Sum(g[0])) else front0
    {
      var v := vecs[i];
      if i > 0 { StepSizes(q, true, vecs, i); }
      if !(v.high || highPrev) && size + v.len <= q.maxSegmentSize && Join(q, vecs[i - 1], v) {
        size := size + v.len;
      } else {
        if segs == 1 && size > front { front := size; }
        segs, size, highPrev := segs + 1, v.len, v.high;
      }
    }
    assert vecs[..|vecs|] == vecs;
    if segs == 1 && size > front { front := size; }
  }

  ghost function Mapped(q: Limits, vecs: seq<Bvec>): seq<Entry> { Entries(Greedy(q, false, vecs)) }

  lemma MapStep(q: Limits, vecs: seq<Bvec>, i: nat)
    requires i < |vecs|
    ensures |Mapped(q, vecs[..i + 1])| <= |Mapped(q, vecs)|
    ensures var was, v := Mapped(q, vecs[..i]), vecs[i];
            Mapped(q, vecs[..i + 1]) ==
              if i > 0 && was != [] && was[|was| - 1].len + v.len <= q.maxSegmentSize && Join(q, vecs[i - 1], v)
              then was[..|was| - 1] + [Entry(was[|was| - 1].addr, was[|was| - 1].len + v.len)]
              else was + [Entry(v.addr, v.len)]
    ensures i > 0 ==> Mapped(q, vecs[..i]) != []
  {
    hide Greedy, Join, Sum;
    PrefixNoLonger(q, false, vecs, i + 1);
    if i > 0 { StepSizes(q, false, vecs, i); } else { FirstStep(q, false, vecs); NoGreedy(q); }
  }

  lemma NoGreedy(q: Limits)
    ensures Greedy(q, false, []) == []
  {
  }

  // The loop of blk_rq_map_sg.
  method MapVectors(q: Limits, vecs: seq<Bvec>, list: array<Entry>) returns (n: nat)
    requires |Mapped(q, vecs)| <= list.Length
    modifies list
    ensures n == |Mapped(q, vecs)| && list[..n] == Mapped(q, vecs) && list[n..] == old(list[n..])
  {
    assert vecs[..0] == [] && Mapped(q, []) == [];
    hide Mapped, Join;
    ghost var all := list[..];
    n := 0;
    for i := 0 to |vecs|
      invariant n == |Mapped(q, vecs[..i])| <= list.Length
      invariant list[..n] == Mapped(q, vecs[..i]) && list[n..] == all[n..]
    {
      var v := vecs[i];
      MapStep(q, vecs, i);
      LastEntry(list[..], n, Mapped(q, vecs[..i]));
      if i > 0 && list[n - 1].len + v.len <= q.maxSegmentSize && Join(q, vecs[i - 1], v) {
        GrowLast(list, n, v.len, all);
      } else {
        PutNext(list, n, Entry(v.addr, v.len), all);
        n := n + 1;
      }
    }
    assert vecs[..|vecs|] == vecs;
  }

  lemma LastEntry(list: seq<Entry>, n: nat, m: seq<Entry>)
    requires n <= |list| && list[..n] == m
    ensures n == |m| && (n > 0 ==> list[n - 1] == m[n - 1])
  {
  }

  // sg->length += nbytes
  method GrowLast(list: array<Entry>, n: nat, len: nat, ghost all: seq<Entry>)
    requires 0 < n <= list.Length == |all| && list[n..] == all[n..]
    modifies list
    ensures list[..n] == old(list[..n - 1]) + [Entry(old(list[n - 1]).addr, old(list[n - 1]).len + len)]
    ensures list[n..] == all[n..]
  {
    ghost var rest := list[n..];
    list[n - 1] := list[n - 1].(len := list[n - 1].len + len);
    assert list[n..] == rest;
  }

  // sg = sg_next(sg), sg_set_page
  method PutNext(list: array<Entry>, n: nat, e: Entry, ghost all: seq<Entry>)
    requires n < list.Length == |all| && list[n..] == all[n..]
    modifies list
    ensures list[..n + 1] == old(list[..n]) + [e] && list[n + 1..] == all[n + 1..]
  {
    ghost var rest := list[n..];
    list[n] := e;
    assert list[n + 1..] == rest[1..] && all[n + 1..] == all[n..][1..];
  }

  lemma FirstOpen(v: Bvec)
    ensures Open([[v]]) == Sum([v])
  {
  }

  class Request {
    var bios: seq<Bio>
    var nr: nat
    var sectors: nat
    var noMerge: bool
    const special: bool
    const pc: bool

    ghost function View(): Req
      reads this
    {
      Req(bios, nr, sectors, noMerge, special, pc)
    }

    ghost predicate Valid(q: Limits)
      reads this
    {
      ReqOk(q, View())
    }

    constructor (q: Limits, bio: Bio)
      requires BioOk(q, bio)
      ensures Valid(q) && View() == Prepare(q, bio)
    {
      var b := Ensured(q, bio);
      bios, nr, sectors, noMerge, special, pc := [b], b.phys, b.sectors, false, false, false;
      new;
      PrepareOk(q, bio);
    }

    // blk_recalc_rq_segments
    method RecalcSegments(q: Limits)
      requires bios != [] && forall i :: 0 <= i < |bios| ==> bios[i].vecs != []
      modifies `bios, `nr
      ensures Vecs(old(bios)) != [] && View() == Recalc(q, old(View())) && Valid(q)
    {
      ghost var was := View();
      RecalcOk(q, was);
      var segs, size, front := CountSegments(q, Vecs(bios), bios[0].front);
      bios := bios[0 := bios[0].(front := front)];
      var last := |bios| - 1;
      if size > bios[last].back { bios := bios[last := bios[last].(back := size)]; }
      nr := segs;
    }

    // ll_new_hw_segment
    method NewHwSegment(q: Limits, phys: nat) returns (ok: bool)
      modifies `nr, `noMerge
      ensures (View(), ok) == BlkMerge.NewHwSegment(q, old(View()), phys)
    {
      if nr + phys > q.maxHw || nr + phys > q.maxPhys {
        noMerge := true;
        return false;
      }
      nr := nr + phys;
      return true;
    }

    // ll_back_merge_fn and the append of its caller
    method BackMerge(q: Limits, bio: Bio) returns (ok: bool)
      requires Valid(q) && BioOk(q, bio)
      modifies this
      ensures Valid(q) && View() == BlkMerge.BackMerge(q, old(View()), bio) && ok == (|bios| > |old(bios)|)
    {
      hide Counted, Vecs, Recount;
      BackMergeOk(q, View(), bio);
      hide ReqOk, BioOk;
      if sectors + bio.sectors > (if pc then q.maxHwSectors else q.maxSectors) {
        noMerge := true;
        return false;
      }
      var k := |bios| - 1;
      bios := bios[k := Ensured(q, bios[k])];
      var b := Ensured(q, bio);
      hide Ensured;
      ok := NewHwSegment(q, b.phys);
      if ok { bios, sectors := bios + [b], sectors + b.sectors; }
    }

    // ll_front_merge_fn and the prepend of its caller
    method FrontMerge(q: Limits, bio: Bio) returns (ok: bool)
      requires Valid(q) && BioOk(q, bio)
      modifies this
      ensures Valid(q) && View() == BlkMerge.FrontMerge(q, old(View()), bio) && ok == (|bios| > |old(bios)|)
    {
      hide Counted, Vecs, Recount;
      FrontMergeOk(q, View(), bio);
      hide ReqOk, BioOk;
      if sectors + bio.sectors > (if pc then q.maxHwSectors else q.maxSectors) {
        noMerge := true;
        return false;
      }
      bios := bios[0 := Ensured(q, bios[0])];
      var b := Ensured(q, bio);
      hide Ensured;
      ok := NewHwSegment(q, b.phys);
      if ok { bios, sectors := [b] + bios, sectors + b.sectors; }
    }

    // ll_merge_requests_fn: next's outer size may change even when the merge is refused.
    method MergeRequests(q: Limits, next: Request) returns (ok: bool)
      requires this != next && Valid(q) && next.Valid(q) && nr > 0
      modifies `bios, `nr, next`bios
      ensures (View(), next.View(), ok) == BlkMerge.MergeRequests(q, old(View()), old(next.View()))
    {
      hide Counted, Vecs;
      if special || next.special || sectors + next.sectors > q.maxSectors { return false; }
      var total, k, l := nr + next.nr, |bios| - 1, |next.bios| - 1;
      if PhysContig(q, bios[k], next.bios[0]) {
        var size := bios[k].back + next.bios[0].front;
        if nr == 1 { bios := bios[0 := bios[0].(front := size)]; }
        if next.nr == 1 { next.bios := next.bios[l := next.bios[l].(back := size)]; }
        total := total - 1;
      }
      if total > q.maxPhys || total > q.maxHw { return false; }
      nr := total;
      return true;
    }

    // attempt_merge
    method AttemptMerge(q: Limits, next: Request) returns (ok: bool)
      requires this != next && Valid(q) && next.Valid(q)
      modifies `bios, `nr, `sectors, next`bios
      ensures nr > 0
      ensures (View(), next.View(), ok) == BlkMerge.AttemptMerge(q, old(View()), old(next.View()))
      ensures Valid(q) && (!ok ==> next.Valid(q))
    {
      AttemptMergeOk(q, View(), next.View());
      hide ReqOk, BlkMerge.MergeRequests;
      if noMerge || next.noMerge { return false; }
      ok := MergeRequests(q, next);
      if ok { bios, sectors := bios + next.bios, sectors + next.sectors; }
    }

    // blk_rq_map_sg: the list only has to hold nr_phys_segments entries.
    method MapSg(q: Limits, list: array<Entry>) returns (n: nat)
      requires Valid(q) && list.Length >= nr
      modifies list
      ensures n <= nr && list[..n] == Entries(Greedy(q, false, Vecs(bios))) && list[n..] == old(list[n..])
    {
      CountedIsEnough(q, Vecs(bios), nr, bios[0].front, bios[|bios| - 1].back);
      n := MapVectors(q, Vecs(bios), list);
    }
  }
}
