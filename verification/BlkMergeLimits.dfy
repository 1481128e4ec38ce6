// When merges of block requests are accepted, what they do to the totals, and that counts
// taken before bouncing hold after it.
module BlkMergeLimits {
  import opened BlkMerge

  // ------------------------------------------------------- totals

  function Total(bios: seq<Bio>): nat {
    if bios == [] then 0 else Total(bios[..|bios| - 1]) + bios[|bios| - 1].sectors
  }

  lemma {:induction false} TotalConcat(a: seq<Bio>, b: seq<Bio>)
    ensures Total(a + b) == Total(a) + Total(b)
    decreases |b|
  {
    if b == [] {
      assert a + b == a;
    } else {
      TotalConcat(a, b[..|b| - 1]);
      assert (a + b)[..|a + b| - 1] == a + b[..|b| - 1];
    }
  }

  lemma {:induction false} TotalSame(a: seq<Bio>, b: seq<Bio>)
    requires |a| == |b| && forall i :: 0 <= i < |a| ==> a[i].sectors == b[i].sectors
    ensures Total(a) == Total(b)
    decreases |a|
  {
    if a != [] { TotalSame(a[..|a| - 1], b[..|b| - 1]); }
  }

  lemma TotalOne(b: Bio)
    ensures Total([b]) == b.sectors
  {
    assert [b][..0] == [];
  }

  lemma EnsuredTotal(q: Limits, b: Bio)
    requires b.vecs != []
    ensures Ensured(q, b).sectors == b.sectors
  {
  }

  lemma BackTotal(q: Limits, r: Req, b: Bio)
    requires ReqOk(q, r) && b.vecs != [] && r.sectors == Total(r.bios)
    ensures var t := BackMerge(q, r, b); t.sectors == Total(t.bios)
  {
    hide Counted, Vecs, Ensured, Recount;
    var k, c := |r.bios| - 1, Ensured(q, b);
    var bios := r.bios[k := Ensured(q, r.bios[k])];
    EnsuredTotal(q, b);
    EnsuredTotal(q, r.bios[k]);
    TotalSame(r.bios, bios);
    TotalConcat(bios, [c]);
    TotalOne(c);
  }

  lemma FrontTotal(q: Limits, r: Req, b: Bio)
    requires ReqOk(q, r) && b.vecs != [] && r.sectors == Total(r.bios)
    ensures var t := FrontMerge(q, r, b); t.sectors == Total(t.bios)
  {
    hide Counted, Vecs, Ensured, Recount;
    var c := Ensured(q, b);
    var bios := r.bios[0 := Ensured(q, r.bios[0])];
    EnsuredTotal(q, b);
    EnsuredTotal(q, r.bios[0]);
    TotalSame(r.bios, bios);
    TotalConcat([c], bios);
    TotalOne(c);
  }

  lemma WidenTotal(r: Req, size: nat)
    requires r.bios != []
    ensures Total(WidenFront(r, size).bios) == Total(r.bios) == Total(WidenBack(r, size).bios)
  {
    TotalSame(r.bios, WidenFront(r, size).bios);
    TotalSame(r.bios, WidenBack(r, size).bios);
  }

  lemma MergeTotal(q: Limits, r: Req, n: Req)
    requires ReqOk(q, r) && ReqOk(q, n) && r.nr > 0 && r.sectors == Total(r.bios) && n.sectors == Total(n.bios)
    ensures var (s, m, ok) := AttemptMerge(q, r, n);
            s.sectors == Total(s.bios) && (!ok ==> m.sectors == Total(m.bios))
  {
    hide Counted, Vecs, PhysContig;
    WidenTotal(r, n.bios[0].front);
    WidenTotal(n, r.bios[|r.bios| - 1].back);
    hide WidenFront, WidenBack, Total;
    var (s, m, ok) := MergeRequests(q, r, n);
    TotalConcat(s.bios, m.bios);
    WidenedOrNot(q, r, n);
    hide MergeRequests;
  }

  lemma WidenedOrNot(q: Limits, r: Req, n: Req)
    requires ReqOk(q, r) && ReqOk(q, n) && r.nr > 0
    ensures var (s, m, ok) := MergeRequests(q, r, n);
            && (s.bios == r.bios || s.bios == WidenFront(r, n.bios[0].front).bios) && s.sectors == r.sectors
            && (m.bios == n.bios || m.bios == WidenBack(n, r.bios[|r.bios| - 1].back).bios) && m.sectors == n.sectors
  {
    hide Counted, Vecs, PhysContig;
  }

  lemma RecalcTotal(q: Limits, r: Req)
    requires r.bios != [] && Vecs(r.bios) != []
    ensures Total(Recalc(q, r).bios) == Total(r.bios) && Recalc(q, r).sectors == r.sectors
  {
    TotalSame(r.bios, Recalc(q, r).bios);
  }

  lemma ReqShape(q: Limits, r: Req)
    requires ReqOk(q, r)
    ensures r.bios != [] && forall i :: 0 <= i < |r.bios| ==> r.bios[i].vecs != []
  {
  }

  // After any series of merges, refused merges and recounts the request is as long as its bios.
  lemma {:induction false} SectorsAdd(q: Limits, h: History)
    requires GoodBios(q, h)
    ensures Build(q, h).sectors == Total(Build(q, h).bios)
    decreases h
  {
    hide BackMerge, FrontMerge, AttemptMerge, Recalc, ReqOk;
    match h
    case Made(b) =>
      EnsuredTotal(q, b);
      TotalOne(Ensured(q, b));
      hide Ensured;
    case Back(g, b) =>
      SectorsAdd(q, g);
      BackTotal(q, Build(q, g), b);
    case Front(g, b) =>
      SectorsAdd(q, g);
      FrontTotal(q, Build(q, g), b);
    case Absorbs(g, n) =>
      SectorsAdd(q, g);
      SectorsAdd(q, n);
      AttemptMergeOk(q, Build(q, g), Build(q, n));
      MergeTotal(q, Build(q, g), Build(q, n));
    case OfferedTo(p, g) =>
      SectorsAdd(q, p);
      SectorsAdd(q, g);
      AttemptMergeOk(q, Build(q, p), Build(q, g));
      MergeTotal(q, Build(q, p), Build(q, g));
    case Recalculated(g) =>
      SectorsAdd(q, g);
      ReqShape(q, Build(q, g));
      RecalcOk(q, Build(q, g));
      RecalcTotal(q, Build(q, g));
  }

  // ------------------------------------------------------- exactly when a merge happens

  // A request has room for so many more segments and sectors.
  predicate Room(q: Limits, r: Req, phys: nat, sectors: nat) {
    && r.sectors + sectors <= (if r.pc then q.maxHwSectors else q.maxSectors)
    && r.nr + phys <= q.maxPhys && r.nr + phys <= q.maxHw
  }

  // A request made of one bio is mergeable, with the segments counted for it.
  lemma PrepareExactly(q: Limits, b: Bio)
    requires BioOk(q, b)
    ensures var r := Prepare(q, b);
            && |r.bios| == 1 && r.bios[0].vecs == b.vecs && r.sectors == b.sectors
            && r.nr == (if b.segValid then b.phys else |Greedy(q, true, b.vecs)|)
            && !r.noMerge && !r.special && !r.pc
  {
  }

  // A bio is merged at the back exactly when there is room for the segments counted for it by
  // itself; a refusal marks the request and leaves its vectors and counters.
  lemma BackMergeExactly(q: Limits, r: Req, b: Bio)
    requires ReqOk(q, r) && BioOk(q, b)
    ensures var t, phys := BackMerge(q, r, b), if b.segValid then b.phys else |Greedy(q, true, b.vecs)|;
            if Room(q, r, phys, b.sectors)
            then Vecs(t.bios) == Vecs(r.bios) + b.vecs && t.nr == r.nr + phys && t.noMerge == r.noMerge
            else Vecs(t.bios) == Vecs(r.bios) && t.nr == r.nr && t.sectors == r.sectors && t.noMerge
  {
    hide Counted, Vecs;
    var k, c := |r.bios| - 1, Ensured(q, b);
    var bios := r.bios[k := Ensured(q, r.bios[k])];
    assert c.vecs == b.vecs && c.sectors == b.sectors && Ensured(q, r.bios[k]).vecs == r.bios[k].vecs;
    hide Recount;
    VecsSame(r.bios, bios);
    VecsConcat(bios, [c]);
    VecsOne(c);
    hide Ensured;
  }

  // The same at the front.
  lemma FrontMergeExactly(q: Limits, r: Req, b: Bio)
    requires ReqOk(q, r) && BioOk(q, b)
    ensures var t, phys := FrontMerge(q, r, b), if b.segValid then b.phys else |Greedy(q, true, b.vecs)|;
            if Room(q, r, phys, b.sectors)
            then Vecs(t.bios) == b.vecs + Vecs(r.bios) && t.nr == r.nr + phys && t.noMerge == r.noMerge
            else Vecs(t.bios) == Vecs(r.bios) && t.nr == r.nr && t.sectors == r.sectors && t.noMerge
  {
    hide Counted, Vecs;
    var c := Ensured(q, b);
    var bios := r.bios[0 := Ensured(q, r.bios[0])];
    assert c.vecs == b.vecs && c.sectors == b.sectors && Ensured(q, r.bios[0]).vecs == r.bios[0].vecs;
    hide Recount;
    VecsSame(r.bios, bios);
    VecsConcat([c], bios);
    VecsOne(c);
    hide Ensured;
  }

  // The last segment of one request and the first of the next can be one.
  predicate Meets(q: Limits, r: Req, n: Req)
    requires ReqShaped(r) && ReqShaped(n)
  {
    var b, c := r.bios[|r.bios| - 1], n.bios[0];
    && q.cluster && b.back + c.front <= q.maxSegmentSize
    && b.vecs[|b.vecs| - 1].addr + b.vecs[|b.vecs| - 1].len == c.vecs[0].addr
    && q.arch(b.vecs[|b.vecs| - 1], c.vecs[0]) && SegBoundary(q, b.vecs[|b.vecs| - 1], c.vecs[0])
  }

  predicate ReqShaped(r: Req) { r.bios != [] && forall i :: 0 <= i < |r.bios| ==> r.bios[i].vecs != [] }

  // Two requests become one exactly when neither is barred, the sectors fit, and the segments
  // fit with one saved where they meet.
  lemma MergeExactly(q: Limits, r: Req, n: Req)
    requires ReqOk(q, r) && ReqOk(q, n)
    ensures ReqShaped(r) && ReqShaped(n) && r.nr > 0
    ensures var (s, m, ok) := AttemptMerge(q, r, n); var total := r.nr + n.nr - if Meets(q, r, n) then 1 else 0;
            && ok == (!r.noMerge && !n.noMerge && !r.special && !n.special && r.sectors + n.sectors <= q.maxSectors
                      && total <= q.maxPhys && total <= q.maxHw)
            && s.nr == (if ok then total else r.nr)
  {
    hide Counted, Vecs;
    CountedPositive(q, Vecs(r.bios), r.nr, r.bios[0].front, r.bios[|r.bios| - 1].back);
    assert PhysContig(q, r.bios[|r.bios| - 1], n.bios[0]) == Meets(q, r, n);
    hide PhysContig, Meets;
  }

  // ------------------------------------------------------- the boundary

  // Two vectors may share a segment only if no multiple of the boundary lies inside it.
  lemma BoundaryNotCrossed(q: Limits, a: Bvec, b: Bvec)
    requires q.boundary > 0 && a.addr < b.addr + b.len
    ensures SegBoundary(q, a, b) <==> !exists m: nat :: a.addr < m * q.boundary < b.addr + b.len
  {
    var k, x, y := q.boundary, a.addr, b.addr + b.len - 1;
    assert x == (x / k) * k + x % k && y == (y / k) * k + y % k;
    DivMonotone(x, y, k);
    if x / k == y / k {
      forall m: nat ensures !(x < m * k <= y) { NoMultiple(k, x / k, m, x, y); }
    } else {
      assert x < (y / k) * k <= y by { NextMultiple(k, x, y / k); }
    }
  }

  lemma NoMultiple(k: nat, q: nat, m: nat, x: nat, y: nat)
    requires q * k <= x && y < q * k + k
    ensures !(x < m * k <= y)
  {
    if m <= q { Products(k, m, q); } else { Products(k, q + 1, m); }
  }

  lemma NextMultiple(k: nat, x: nat, m: nat)
    requires k > 0 && x / k < m
    ensures x < m * k
  {
    assert x == (x / k) * k + x % k;
    Products(k, x / k + 1, m);
  }

  lemma {:induction false} Products(k: nat, a: nat, b: nat)
    requires a <= b
    ensures a * k <= b * k && (a + 1) * k == a * k + k
    decreases b
  {
    if a < b { Products(k, a, b - 1); }
  }

  // ------------------------------------------------------- bouncing

  // Vectors of which bouncing has moved those in high pages.
  ghost predicate Bounced(a: seq<Bvec>, b: seq<Bvec>) {
    |a| == |b| && forall i :: 0 <= i < |a| ==> b[i].len == a[i].len && (!a[i].high ==> b[i] == a[i])
  }

  // The same segments over the moved vectors, with what the next vector will be compared to.
  lemma {:induction false} SegmentsBounce(q: Limits, a: seq<Bvec>, b: seq<Bvec>) returns (segs: seq<Segment>)
    requires Bounced(a, b)
    ensures Segmentation(q, segs, b)
    ensures var g := Greedy(q, true, a);
            |segs| == |g| && (a != [] ==> segs[|segs| - 1] != [] && Open(segs) == Open(g))
    decreases |a|
  {
    if a == [] {
      segs := [];
    } else {
      var n := |a| - 1;
      var less := SegmentsBounce(q, a[..n], b[..n]);
      var g := Greedy(q, true, a[..n]);
      ExtendSizes(q, true, g, a[n]);
      assert b == b[..n] + [b[n]];
      if g != [] && Fits(q, true, g[|g| - 1], a[n]) {
        GreedyEnd(q, true, a[..n]);
        segs := JoinedLast(q, less, b[..n], b[n]);
      } else {
        segs := less + [[b[n]]];
        FlatSnoc(less, [b[n]]);
        SumSnoc([], b[n]);
        SumEmpty();
        assert [] + [b[n]] == [b[n]];
        hide Sum, Flat;
      }
    }
  }

  lemma JoinedLast(q: Limits, less: seq<Segment>, vecs: seq<Bvec>, v: Bvec) returns (segs: seq<Segment>)
    requires Segmentation(q, less, vecs) && less != [] && less[|less| - 1] != [] && vecs != []
    requires Open(less) + v.len <= q.maxSegmentSize && Join(q, vecs[|vecs| - 1], v)
    ensures Segmentation(q, segs, vecs + [v]) && |segs| == |less| && segs[|segs| - 1] != []
    ensures Open(segs) == Open(less) + v.len
  {
    hide Join, Sum;
    var init, g := less[..|less| - 1], less[|less| - 1];
    LastOfFlat(less);
    LegalSnoc(q, g, v);
    FlatSnoc(init, g);
    FlatSnoc(init, g + [v]);
    SumSnoc(g, v);
    assert less == init + [g];
    segs := init + [g + [v]];
    hide Flat;
  }

  // Wherever bouncing moves the high pages, the scatterlist has at most as many entries as
  // were counted before.
  lemma BounceKeepsCount(q: Limits, a: seq<Bvec>, b: seq<Bvec>)
    requires Bounced(a, b)
    ensures |Greedy(q, false, b)| <= |Greedy(q, true, a)|
  {
    var segs := SegmentsBounce(q, a, b);
    if a != [] { GreedyStaysAhead(q, b, segs); }
    hide Greedy;
  }
}
