// Segment counting and merging of block requests (block/blk-merge.c): the counters carried
// through merges stay an upper bound for the scatterlist that blk_rq_map_sg will build.
module BlkMerge {
  import opened Arith

  // A bio_vec by its physical position; high means its page lies above the bounce limit.
  datatype Bvec = Bvec(addr: nat, len: nat, high: bool)

  // The queue limits that segmentation depends on; boundary is seg_boundary_mask + 1, and
  // arch is whatever an architecture adds to BIOVEC_PHYS_MERGEABLE.
  datatype Limits = Limits(
    cluster: bool, maxSegmentSize: nat, boundary: nat, arch: (Bvec, Bvec) -> bool,
    maxPhys: nat, maxHw: nat, maxSectors: nat, maxHwSectors: nat)

  predicate PhysMergeable(q: Limits, a: Bvec, b: Bvec) { a.addr + a.len == b.addr && q.arch(a, b) }

  // BIOVEC_SEG_BOUNDARY: the start of a and the end of b lie in one boundary window.
  predicate SegBoundary(q: Limits, a: Bvec, b: Bvec) {
    q.boundary > 0 && b.addr + b.len > 0 ==> a.addr / q.boundary == (b.addr + b.len - 1) / q.boundary
  }

  predicate Join(q: Limits, a: Bvec, b: Bvec) { q.cluster && PhysMergeable(q, a, b) && SegBoundary(q, a, b) }

  function Sum(vecs: seq<Bvec>): nat {
    if vecs == [] then 0 else Sum(vecs[..|vecs| - 1]) + vecs[|vecs| - 1].len
  }

  // ------------------------------------------------------- segmentations

  type Segment = seq<Bvec>

  // A legal segment: neighbours may be joined, and only a lone vector may exceed the size limit.
  ghost predicate Legal(q: Limits, g: Segment) {
    && g != []
    && (forall i :: 0 <= i < |g| - 1 ==> Join(q, g[i], g[i + 1]))
    && (|g| > 1 ==> Sum(g) <= q.maxSegmentSize)
  }

  function Flat(segs: seq<Segment>): seq<Bvec> {
    if segs == [] then [] else Flat(segs[..|segs| - 1]) + segs[|segs| - 1]
  }

  ghost predicate Segmentation(q: Limits, segs: seq<Segment>, vecs: seq<Bvec>) {
    Flat(segs) == vecs && forall i :: 0 <= i < |segs| ==> Legal(q, segs[i])
  }

  // Whether v joins the open segment.  bounce is set when counting: a high page never shares
  // a segment, because bouncing may move it.
  predicate Fits(q: Limits, bounce: bool, g: Segment, v: Bvec)
    requires g != []
  {
    var last := g[|g| - 1];
    !(bounce && (last.high || v.high)) && Sum(g) + v.len <= q.maxSegmentSize && Join(q, last, v)
  }

  // What one pass over the vectors makes of one more vector, and of all of them.
  function Extend(q: Limits, bounce: bool, segs: seq<Segment>, v: Bvec): (more: seq<Segment>)
    requires forall i :: 0 <= i < |segs| ==> segs[i] != []
    ensures more != [] && |segs| <= |more| <= |segs| + 1
    ensures forall i :: 0 <= i < |more| ==> more[i] != []
  {
    if segs != [] && Fits(q, bounce, segs[|segs| - 1], v)
    then segs[..|segs| - 1] + [segs[|segs| - 1] + [v]]
    else segs + [[v]]
  }

  function Greedy(q: Limits, bounce: bool, vecs: seq<Bvec>): (segs: seq<Segment>)
    ensures |segs| <= |vecs| && (vecs != [] ==> segs != [])
    ensures forall i :: 0 <= i < |segs| ==> segs[i] != []
  {
    if vecs == [] then [] else Extend(q, bounce, Greedy(q, bounce, vecs[..|vecs| - 1]), vecs[|vecs| - 1])
  }

  // The size of the segment still open.
  function Open(segs: seq<Segment>): nat
    requires segs != []
  {
    Sum(segs[|segs| - 1])
  }

  lemma SumSnoc(g: Segment, v: Bvec)
    ensures Sum(g + [v]) == Sum(g) + v.len
  {
    assert (g + [v])[..|g|] == g;
  }

  lemma FlatSnoc(segs: seq<Segment>, g: Segment)
    ensures Flat(segs + [g]) == Flat(segs) + g
  {
    assert (segs + [g])[..|segs|] == segs;
  }

  lemma LegalSnoc(q: Limits, g: Segment, v: Bvec)
    requires Legal(q, g) && Join(q, g[|g| - 1], v) && Sum(g) + v.len <= q.maxSegmentSize
    ensures Legal(q, g + [v])
  {
    SumSnoc(g, v);
  }

  // A segment stays legal when its last vector is dropped.
  lemma LegalShorter(q: Limits, g: Segment)
    requires Legal(q, g) && |g| > 1
    ensures Legal(q, g[..|g| - 1]) && Sum(g[..|g| - 1]) + g[|g| - 1].len == Sum(g)
  {
    var h := g[..|g| - 1];
    forall i | 0 <= i < |h| - 1 ensures Join(q, h[i], h[i + 1]) { assert Join(q, g[i], g[i + 1]); }
  }

  lemma ExtendSizes(q: Limits, bounce: bool, segs: seq<Segment>, v: Bvec)
    requires forall i :: 0 <= i < |segs| ==> segs[i] != []
    ensures var more := Extend(q, bounce, segs, v);
            if segs != [] && Fits(q, bounce, segs[|segs| - 1], v)
            then |more| == |segs| && Open(more) == Open(segs) + v.len
            else |more| == |segs| + 1 && Open(more) == v.len
  {
    hide Fits, Sum;
    if segs != [] { SumSnoc(segs[|segs| - 1], v); }
    SumSnoc([], v);
    assert Sum([]) == 0 by { SumEmpty(); }
    assert [] + [v] == [v];
  }

  lemma SumEmpty()
    ensures Sum([]) == 0
  {
  }

  lemma ExtendLegal(q: Limits, bounce: bool, segs: seq<Segment>, vecs: seq<Bvec>, v: Bvec)
    requires Segmentation(q, segs, vecs)
    ensures Segmentation(q, Extend(q, bounce, segs, v), vecs + [v])
  {
    hide Flat, Sum, Join;
    if segs != [] && Fits(q, bounce, segs[|segs| - 1], v) {
      var init, g := segs[..|segs| - 1], segs[|segs| - 1];
      LegalSnoc(q, g, v);
      FlatSnoc(init, g);
      FlatSnoc(init, g + [v]);
      assert segs == init + [g];
    } else {
      FlatSnoc(segs, [v]);
    }
  }

  lemma {:induction false} GreedyLegal(q: Limits, bounce: bool, vecs: seq<Bvec>)
    ensures Segmentation(q, Greedy(q, bounce, vecs), vecs)
    decreases |vecs|
  {
    if vecs != [] {
      hide Segmentation, Extend;
      var less, v := vecs[..|vecs| - 1], vecs[|vecs| - 1];
      GreedyLegal(q, bounce, less);
      ExtendLegal(q, bounce, Greedy(q, bounce, less), less, v);
      assert vecs == less + [v];
    }
  }

  lemma LastOfFlat(segs: seq<Segment>)
    requires segs != [] && segs[|segs| - 1] != []
    ensures Flat(segs) != []
    ensures var g := segs[|segs| - 1]; Flat(segs)[|Flat(segs)| - 1] == g[|g| - 1]
  {
  }

  // Any segmentation without its last vector is one of the remaining vectors.
  lemma Shorter(q: Limits, segs: seq<Segment>, vecs: seq<Bvec>) returns (less: seq<Segment>)
    requires Segmentation(q, segs, vecs) && segs != []
    ensures vecs != [] && Segmentation(q, less, vecs[..|vecs| - 1])
    ensures var s, v := segs[|segs| - 1], vecs[|vecs| - 1];
            s != [] && s[|s| - 1] == v
            && (if |s| == 1 then |less| == |segs| - 1 && Open(segs) == v.len
                else |less| == |segs| && less != [] && Open(segs) == Open(less) + v.len
                     && Open(segs) <= q.maxSegmentSize && |vecs| > 1 && Join(q, vecs[|vecs| - 2], v))
  {
    hide Join, Sum;
    var init, s := segs[..|segs| - 1], segs[|segs| - 1];
    assert Legal(q, s);
    LastOfFlat(segs);
    var v := vecs[|vecs| - 1];
    if |s| == 1 {
      less := init;
      SumEmpty();
      SumSnoc([], v);
      assert [] + [v] == s;
    } else {
      LegalShorter(q, s);
      less := init + [s[..|s| - 1]];
      FlatSnoc(init, s[..|s| - 1]);
      LastOfFlat(less);
      assert Join(q, s[|s| - 2], s[|s| - 1]);
    }
  }

  // The pass that ignores bouncing stays ahead of every legal segmentation: it never uses
  // more segments, and in a tie its open segment is no longer.
  lemma {:induction false} GreedyStaysAhead(q: Limits, vecs: seq<Bvec>, segs: seq<Segment>)
    requires Segmentation(q, segs, vecs) && vecs != []
    ensures segs != []
    ensures var g := Greedy(q, false, vecs);
            |g| < |segs| || (|g| == |segs| && Open(g) <= Open(segs))
    decreases |vecs|
  {
    hide Join, Sum, Segmentation, Extend, Open;
    assert segs != [] by { NoVectors(q, segs, vecs); }
    var v, prev := vecs[|vecs| - 1], Greedy(q, false, vecs[..|vecs| - 1]);
    var less := Shorter(q, segs, vecs);
    ExtendSizes(q, false, prev, v);
    if |vecs| > 1 {
      GreedyStaysAhead(q, vecs[..|vecs| - 1], less);
      GreedyEnd(q, false, vecs[..|vecs| - 1]);
      OpenIs(prev);
    }
  }

  lemma OpenIs(segs: seq<Segment>)
    requires segs != []
    ensures Open(segs) == Sum(segs[|segs| - 1])
  {
  }

  lemma NoVectors(q: Limits, segs: seq<Segment>, vecs: seq<Bvec>)
    requires Segmentation(q, segs, vecs)
    ensures segs == [] <==> vecs == []
  {
    if segs != [] {
      assert Legal(q, segs[|segs| - 1]);
      LastOfFlat(segs);
    }
  }

  lemma GreedyEnd(q: Limits, bounce: bool, vecs: seq<Bvec>)
    requires vecs != []
    ensures var segs := Greedy(q, bounce, vecs); var g := segs[|segs| - 1];
            g[|g| - 1] == vecs[|vecs| - 1]
  {
  }

  // ------------------------------------------------------- counters

  // n, front and back bound a legal segmentation of the vectors: their number exactly, the
  // first and the last segment from above.
  ghost predicate Bounds(q: Limits, vecs: seq<Bvec>, n: nat, front: nat, back: nat, segs: seq<Segment>) {
    Segmentation(q, segs, vecs) && segs != [] && |segs| == n && Sum(segs[0]) <= front && Open(segs) <= back
  }

  ghost predicate Counted(q: Limits, vecs: seq<Bvec>, n: nat, front: nat, back: nat) {
    exists segs :: Bounds(q, vecs, n, front, back, segs)
  }

  lemma CountedIsEnough(q: Limits, vecs: seq<Bvec>, n: nat, front: nat, back: nat)
    requires Counted(q, vecs, n, front, back)
    ensures vecs != [] && |Greedy(q, false, vecs)| <= n
  {
    var segs :| Bounds(q, vecs, n, front, back, segs);
    NoVectors(q, segs, vecs);
    GreedyStaysAhead(q, vecs, segs);
  }

  lemma {:induction false} FlatConcat(a: seq<Segment>, b: seq<Segment>)
    ensures Flat(a + b) == Flat(a) + Flat(b)
    decreases |b|
  {
    if b == [] {
      assert a + b == a;
    } else {
      var init, g := b[..|b| - 1], b[|b| - 1];
      FlatConcat(a, init);
      assert a + b == (a + init) + [g];
      FlatSnoc(a + init, g);
    }
  }

  lemma CountedConcat(q: Limits, u: seq<Bvec>, m: nat, f: nat, b: nat, v: seq<Bvec>, n: nat, g: nat, c: nat)
    requires Counted(q, u, m, f, b) && Counted(q, v, n, g, c)
    ensures Counted(q, u + v, m + n, f, c)
  {
    hide Legal, Sum;
    var x :| Bounds(q, u, m, f, b, x);
    var y :| Bounds(q, v, n, g, c, y);
    FlatConcat(x, y);
    assert Bounds(q, u + v, m + n, f, c, x + y);
  }

  lemma {:induction false} SumConcat(a: seq<Bvec>, b: seq<Bvec>)
    ensures Sum(a + b) == Sum(a) + Sum(b)
    decreases |b|
  {
    if b == [] {
      assert a + b == a;
    } else {
      SumConcat(a, b[..|b| - 1]);
      assert a + b == (a + b[..|b| - 1]) + [b[|b| - 1]];
      SumSnoc(a + b[..|b| - 1], b[|b| - 1]);
    }
  }

  lemma LegalConcat(q: Limits, g: Segment, h: Segment)
    requires Legal(q, g) && Legal(q, h) && Join(q, g[|g| - 1], h[0]) && Sum(g) + Sum(h) <= q.maxSegmentSize
    ensures Legal(q, g + h)
  {
    hide Join, Sum;
    SumConcat(g, h);
    var gh := g + h;
    forall i | 0 <= i < |gh| - 1 ensures Join(q, gh[i], gh[i + 1]) {
      if i < |g| - 1 { assert Join(q, g[i], g[i + 1]); }
      else if i >= |g| { assert Join(q, h[i - |g|], h[i - |g| + 1]); }
    }
  }

  lemma LegalNonempty(q: Limits, g: Segment)
    requires Legal(q, g)
    ensures g != []
  {
  }

  lemma FlatOne(g: Segment)
    ensures Flat([g]) == g
  {
    FlatSnoc([], g);
    assert [] + [g] == [g];
  }

  lemma FirstOfFlat(segs: seq<Segment>)
    requires segs != [] && segs[0] != []
    ensures Flat(segs) != [] && Flat(segs)[0] == segs[0][0]
  {
    FlatConcat([segs[0]], segs[1..]);
    FlatOne(segs[0]);
    assert [segs[0]] + segs[1..] == segs;
  }

  lemma Regroup<T>(a: seq<T>, b: seq<T>, c: seq<T>, d: seq<T>)
    ensures (a + (b + c)) + d == (a + b) + (c + d)
  {
  }

  lemma JoinFlat(init: seq<Segment>, s: Segment, t: Segment, rest: seq<Segment>)
    ensures Flat(init + [s + t] + rest) == Flat(init + [s]) + Flat([t] + rest)
  {
    FlatConcat(init + [s + t], rest);
    FlatSnoc(init, s + t);
    FlatSnoc(init, s);
    FlatConcat([t], rest);
    FlatOne(t);
    Regroup(Flat(init), s, t, Flat(rest));
  }

  // When the two segments that meet can be one, the join saves exactly one segment; the new
  // outer sizes grow only for a side that was a single segment.
  lemma CountedJoin(q: Limits, u: seq<Bvec>, m: nat, f: nat, b: nat, v: seq<Bvec>, n: nat, g: nat, c: nat)
    requires Counted(q, u, m, f, b) && Counted(q, v, n, g, c)
    requires u != [] && v != [] && b + g <= q.maxSegmentSize && Join(q, u[|u| - 1], v[0])
    ensures Counted(q, u + v, m + n - 1, if m == 1 then b + g else f, if n == 1 then b + g else c)
  {
    hide Legal, Join, Sum;
    var x :| Bounds(q, u, m, f, b, x);
    var y :| Bounds(q, v, n, g, c, y);
    var s, t := x[|x| - 1], y[0];
    assert Legal(q, s) && Legal(q, t);
    assert s != [] && t != [] by { LegalNonempty(q, s); LegalNonempty(q, t); }
    LastOfFlat(x);
    FirstOfFlat(y);
    LegalConcat(q, s, t);
    SumConcat(s, t);
    var z := x[..|x| - 1] + [s + t] + y[1..];
    JoinFlat(x[..|x| - 1], s, t, y[1..]);
    assert x == x[..|x| - 1] + [s] && y == [t] + y[1..];
    assert Bounds(q, u + v, m + n - 1, if m == 1 then b + g else f, if n == 1 then b + g else c, z);
  }

  // ------------------------------------------------------- requests

  // segValid is BIO_SEG_VALID: phys has been counted.  front and back are bi_seg_front_size
  // and bi_seg_back_size.
  datatype Bio = Bio(vecs: seq<Bvec>, sectors: nat, phys: nat, front: nat, back: nat, segValid: bool)

  datatype Req = Req(bios: seq<Bio>, nr: nat, sectors: nat, noMerge: bool, special: bool, pc: bool)

  function Vecs(bios: seq<Bio>): seq<Bvec> {
    if bios == [] then [] else Vecs(bios[..|bios| - 1]) + bios[|bios| - 1].vecs
  }

  function Max(a: nat, b: nat): nat { if a < b then b else a }

  // blk_recalc_rq_segments
  function Recalc(q: Limits, r: Req): Req
    requires Vecs(r.bios) != []
  {
    var segs, k := Greedy(q, true, Vecs(r.bios)), |r.bios| - 1;
    var bios := r.bios[0 := r.bios[0].(front := Max(r.bios[0].front, Sum(segs[0])))];
    r.(nr := |segs|, bios := bios[k := bios[k].(back := Max(bios[k].back, Open(segs)))])
  }

  // blk_recount_segments, on a bio by itself
  function Recount(q: Limits, b: Bio): Bio
    requires b.vecs != []
  {
    var segs := Greedy(q, true, b.vecs);
    b.(phys := |segs|, segValid := true, front := Max(b.front, Sum(segs[0])), back := Max(b.back, Open(segs)))
  }

  function Ensured(q: Limits, b: Bio): Bio
    requires b.vecs != []
  {
    if b.segValid then b else Recount(q, b)
  }

  // blk_rq_bio_prep
  function Prepare(q: Limits, b: Bio): Req
    requires b.vecs != []
  {
    var c := Ensured(q, b);
    Req([c], c.phys, c.sectors, false, false, false)
  }

  function MaxSectors(q: Limits, r: Req): nat { if r.pc then q.maxHwSectors else q.maxSectors }

  // ll_new_hw_segment
  function NewHwSegment(q: Limits, r: Req, phys: nat): (Req, bool) {
    if r.nr + phys > q.maxHw || r.nr + phys > q.maxPhys then (r.(noMerge := true), false)
    else (r.(nr := r.nr + phys), true)
  }

  // ll_back_merge_fn, then the bio goes to the end of the request
  function BackMerge(q: Limits, r: Req, b: Bio): Req
    requires b.vecs != [] && r.bios != [] && r.bios[|r.bios| - 1].vecs != []
  {
    if r.sectors + b.sectors > MaxSectors(q, r) then r.(noMerge := true)
    else
      var k, c := |r.bios| - 1, Ensured(q, b);
      var (t, ok) := NewHwSegment(q, r.(bios := r.bios[k := Ensured(q, r.bios[k])]), c.phys);
      if ok then t.(bios := t.bios + [c], sectors := t.sectors + c.sectors) else t
  }

  // ll_front_merge_fn, then the bio goes to the front of the request
  function FrontMerge(q: Limits, r: Req, b: Bio): Req
    requires b.vecs != [] && r.bios != [] && r.bios[0].vecs != []
  {
    if r.sectors + b.sectors > MaxSectors(q, r) then r.(noMerge := true)
    else
      var c := Ensured(q, b);
      var (t, ok) := NewHwSegment(q, r.(bios := r.bios[0 := Ensured(q, r.bios[0])]), c.phys);
      if ok then t.(bios := [c] + t.bios, sectors := t.sectors + c.sectors) else t
  }

  // blk_phys_contig_segment, for bios with data
  predicate PhysContig(q: Limits, b: Bio, c: Bio)
    requires b.vecs != [] && c.vecs != []
  {
    q.cluster && b.back + c.front <= q.maxSegmentSize && Join(q, b.vecs[|b.vecs| - 1], c.vecs[0])
  }

  // A request of one segment will end, or begin, with the segment the merge creates.
  function WidenFront(r: Req, front: nat): Req
    requires r.bios != []
  {
    if r.nr == 1 then r.(bios := r.bios[0 := r.bios[0].(front := r.bios[|r.bios| - 1].back + front)]) else r
  }

  function WidenBack(n: Req, back: nat): Req
    requires n.bios != []
  {
    var l := |n.bios| - 1;
    if n.nr == 1 then n.(bios := n.bios[l := n.bios[l].(back := back + n.bios[0].front)]) else n
  }

  // ll_merge_requests_fn: the outer sizes are widened even when the merge is then refused.
  function MergeRequests(q: Limits, r: Req, n: Req): (Req, Req, bool)
    requires r.bios != [] && n.bios != [] && r.bios[|r.bios| - 1].vecs != [] && n.bios[0].vecs != [] && r.nr > 0
  {
    var k := |r.bios| - 1;
    if r.special || n.special || r.sectors + n.sectors > q.maxSectors then (r, n, false)
    else
      var contig := PhysContig(q, r.bios[k], n.bios[0]);
      var r1 := if contig then WidenFront(r, n.bios[0].front) else r;
      var n1 := if contig then WidenBack(n, r.bios[k].back) else n;
      var total := r.nr + n.nr - if contig then 1 else 0;
      if total > q.maxPhys || total > q.maxHw then (r1, n1, false)
      else (r1.(nr := total), n1, true)
  }

  // attempt_merge, once the requests are neighbours of the same kind
  function AttemptMerge(q: Limits, r: Req, n: Req): (Req, Req, bool)
    requires r.bios != [] && n.bios != [] && r.bios[|r.bios| - 1].vecs != [] && n.bios[0].vecs != [] && r.nr > 0
  {
    if r.noMerge || n.noMerge then (r, n, false)
    else
      var (s, m, ok) := MergeRequests(q, r, n);
      if ok then (s.(bios := s.bios + m.bios, sectors := s.sectors + m.sectors), m, true) else (s, m, false)
  }

  // ------------------------------------------------------- the counters stay upper bounds

  ghost predicate BioOk(q: Limits, b: Bio) {
    b.vecs != [] && (b.segValid ==> Counted(q, b.vecs, b.phys, b.front, b.back))
  }

  // What every operation keeps.
  ghost predicate ReqOk(q: Limits, r: Req) {
    && r.bios != []
    && (forall i :: 0 <= i < |r.bios| ==> r.bios[i].vecs != [])
    && Counted(q, Vecs(r.bios), r.nr, r.bios[0].front, r.bios[|r.bios| - 1].back)
  }

  lemma CountedWider(q: Limits, vecs: seq<Bvec>, n: nat, f: nat, b: nat, g: nat, c: nat)
    requires Counted(q, vecs, n, f, b) && f <= g && b <= c
    ensures Counted(q, vecs, n, g, c)
  {
    var segs :| Bounds(q, vecs, n, f, b, segs);
    assert Bounds(q, vecs, n, g, c, segs);
  }

  // A single segment is first and last at once, so either bound serves for both.
  lemma CountedSingle(q: Limits, vecs: seq<Bvec>, f: nat, b: nat)
    requires Counted(q, vecs, 1, f, b)
    ensures Counted(q, vecs, 1, b, b) && Counted(q, vecs, 1, f, f)
  {
    var segs :| Bounds(q, vecs, 1, f, b, segs);
    assert Bounds(q, vecs, 1, b, b, segs) && Bounds(q, vecs, 1, f, f, segs);
  }

  lemma CountedPositive(q: Limits, vecs: seq<Bvec>, n: nat, f: nat, b: nat)
    requires Counted(q, vecs, n, f, b)
    ensures n > 0
  {
  }

  lemma GreedyCounted(q: Limits, vecs: seq<Bvec>, f: nat, b: nat)
    requires vecs != []
    ensures var segs := Greedy(q, true, vecs); Counted(q, vecs, |segs|, Max(f, Sum(segs[0])), Max(b, Open(segs)))
  {
    var segs := Greedy(q, true, vecs);
    GreedyLegal(q, true, vecs);
    assert Bounds(q, vecs, |segs|, Max(f, Sum(segs[0])), Max(b, Open(segs)), segs);
  }

  lemma {:induction false} VecsSame(a: seq<Bio>, b: seq<Bio>)
    requires |a| == |b| && forall i :: 0 <= i < |a| ==> a[i].vecs == b[i].vecs
    ensures Vecs(a) == Vecs(b)
    decreases |a|
  {
    if a != [] { VecsSame(a[..|a| - 1], b[..|b| - 1]); }
  }

  lemma {:induction false} VecsConcat(a: seq<Bio>, b: seq<Bio>)
    ensures Vecs(a + b) == Vecs(a) + Vecs(b)
    decreases |b|
  {
    if b == [] {
      assert a + b == a;
    } else {
      var n := |b| - 1;
      assert (a + b)[..|a + b| - 1] == a + b[..n];
      assert Vecs(a + b) == Vecs(a + b[..n]) + b[n].vecs && Vecs(b) == Vecs(b[..n]) + b[n].vecs;
      hide Vecs;
      VecsConcat(a, b[..n]);
      assert Vecs(a) + Vecs(b[..n]) + b[n].vecs == Vecs(a) + (Vecs(b[..n]) + b[n].vecs);
    }
  }

  lemma VecsOne(b: Bio)
    ensures Vecs([b]) == b.vecs
  {
    assert [b][..0] == [];
  }

  lemma EnsuredOk(q: Limits, b: Bio)
    requires BioOk(q, b)
    ensures var c := Ensured(q, b);
            c.segValid && c.vecs == b.vecs && c.sectors == b.sectors && BioOk(q, c) && c.front >= b.front && c.back >= b.back
  {
    if !b.segValid { GreedyCounted(q, b.vecs, b.front, b.back); }
  }

  lemma PrepareOk(q: Limits, b: Bio)
    requires BioOk(q, b)
    ensures ReqOk(q, Prepare(q, b))
  {
    hide Counted, Vecs, Ensured;
    EnsuredOk(q, b);
    VecsOne(Ensured(q, b));
  }

  lemma FirstVecs(bios: seq<Bio>)
    requires bios != [] && bios[0].vecs != [] && bios[|bios| - 1].vecs != []
    ensures Vecs(bios) != []
    ensures Vecs(bios)[0] == bios[0].vecs[0]
    ensures var b := bios[|bios| - 1].vecs; Vecs(bios)[|Vecs(bios)| - 1] == b[|b| - 1]
  {
    VecsConcat([bios[0]], bios[1..]);
    VecsOne(bios[0]);
    assert [bios[0]] + bios[1..] == bios;
  }

  // A recount needs nothing of the old counters.
  lemma RecalcOk(q: Limits, r: Req)
    requires r.bios != [] && (forall i :: 0 <= i < |r.bios| ==> r.bios[i].vecs != [])
    ensures Vecs(r.bios) != [] && ReqOk(q, Recalc(q, r)) && Vecs(Recalc(q, r).bios) == Vecs(r.bios)
  {
    hide Counted, Vecs, Sum, Open;
    FirstVecs(r.bios);
    var k := |r.bios| - 1;
    GreedyCounted(q, Vecs(r.bios), r.bios[0].front, r.bios[k].back);
    VecsSame(r.bios, Recalc(q, r).bios);
  }

  lemma BackMergeOk(q: Limits, r: Req, b: Bio)
    requires ReqOk(q, r) && BioOk(q, b)
    ensures ReqOk(q, BackMerge(q, r, b))
    ensures var t := BackMerge(q, r, b); Vecs(t.bios) == Vecs(r.bios) || Vecs(t.bios) == Vecs(r.bios) + b.vecs
  {
    hide Counted, Vecs, Ensured, Recount;
    var k, c := |r.bios| - 1, Ensured(q, b);
    EnsuredOk(q, b);
    Widened(q, r.bios[k]);
    var bios := r.bios[k := Ensured(q, r.bios[k])];
    VecsSame(r.bios, bios);
    CountedWider(q, Vecs(bios), r.nr, r.bios[0].front, r.bios[k].back, bios[0].front, bios[k].back);
    CountedConcat(q, Vecs(bios), r.nr, bios[0].front, bios[k].back, c.vecs, c.phys, c.front, c.back);
    VecsConcat(bios, [c]);
    VecsOne(c);
  }

  lemma Widened(q: Limits, b: Bio)
    requires b.vecs != []
    ensures var c := Ensured(q, b); c.vecs == b.vecs && c.front >= b.front && c.back >= b.back
  {
  }

  lemma FrontMergeOk(q: Limits, r: Req, b: Bio)
    requires ReqOk(q, r) && BioOk(q, b)
    ensures ReqOk(q, FrontMerge(q, r, b))
    ensures var t := FrontMerge(q, r, b); Vecs(t.bios) == Vecs(r.bios) || Vecs(t.bios) == b.vecs + Vecs(r.bios)
  {
    hide Counted, Vecs, Ensured, Recount;
    var k, c := |r.bios| - 1, Ensured(q, b);
    EnsuredOk(q, b);
    Widened(q, r.bios[0]);
    var bios := r.bios[0 := Ensured(q, r.bios[0])];
    VecsSame(r.bios, bios);
    CountedWider(q, Vecs(bios), r.nr, r.bios[0].front, r.bios[k].back, bios[0].front, bios[k].back);
    CountedConcat(q, c.vecs, c.phys, c.front, c.back, Vecs(bios), r.nr, bios[0].front, bios[k].back);
    VecsConcat([c], bios);
    VecsOne(c);
  }

  lemma WidenOk(q: Limits, r: Req, size: nat)
    requires ReqOk(q, r)
    ensures var s := WidenFront(r, size); ReqOk(q, s) && Vecs(s.bios) == Vecs(r.bios) && s.nr == r.nr
    ensures var s := WidenBack(r, size); ReqOk(q, s) && Vecs(s.bios) == Vecs(r.bios) && s.nr == r.nr
  {
    hide Counted, Vecs;
    var f, b, vecs := r.bios[0].front, r.bios[|r.bios| - 1].back, Vecs(r.bios);
    VecsSame(r.bios, WidenFront(r, size).bios);
    VecsSame(r.bios, WidenBack(r, size).bios);
    if r.nr == 1 {
      CountedSingle(q, vecs, f, b);
      CountedWider(q, vecs, 1, b, b, b + size, b);
      CountedWider(q, vecs, 1, f, f, f, size + f);
    }
  }

  lemma MetCounted(q: Limits, r: Req, n: Req)
    requires ReqOk(q, r) && ReqOk(q, n) && PhysContig(q, r.bios[|r.bios| - 1], n.bios[0])
    ensures r.nr > 0 && n.nr > 0
    ensures var s, m := WidenFront(r, n.bios[0].front), WidenBack(n, r.bios[|r.bios| - 1].back);
            Counted(q, Vecs(r.bios) + Vecs(n.bios), r.nr + n.nr - 1, s.bios[0].front, m.bios[|m.bios| - 1].back)
  {
    hide Counted, Vecs, Join;
    var k, l := |r.bios| - 1, |n.bios| - 1;
    var u, v := Vecs(r.bios), Vecs(n.bios);
    CountedPositive(q, u, r.nr, r.bios[0].front, r.bios[k].back);
    CountedPositive(q, v, n.nr, n.bios[0].front, n.bios[l].back);
    FirstVecs(r.bios);
    FirstVecs(n.bios);
    CountedJoin(q, u, r.nr, r.bios[0].front, r.bios[k].back, v, n.nr, n.bios[0].front, n.bios[l].back);
  }

  lemma ApartCounted(q: Limits, r: Req, n: Req)
    requires ReqOk(q, r) && ReqOk(q, n)
    ensures Counted(q, Vecs(r.bios) + Vecs(n.bios), r.nr + n.nr, r.bios[0].front, n.bios[|n.bios| - 1].back)
  {
    hide Counted, Vecs, Join;
    CountedConcat(q, Vecs(r.bios), r.nr, r.bios[0].front, r.bios[|r.bios| - 1].back,
                  Vecs(n.bios), n.nr, n.bios[0].front, n.bios[|n.bios| - 1].back);
  }

  // A refused merge may already have replaced the outer sizes; they still bound.
  lemma MergeRequestsOk(q: Limits, r: Req, n: Req)
    requires ReqOk(q, r) && ReqOk(q, n) && r.nr > 0
    ensures var (s, m, ok) := MergeRequests(q, r, n);
            && ReqOk(q, s.(nr := r.nr)) && ReqOk(q, m) && Vecs(s.bios) == Vecs(r.bios) && Vecs(m.bios) == Vecs(n.bios)
            && if ok then Counted(q, Vecs(r.bios) + Vecs(n.bios), s.nr, s.bios[0].front, m.bios[|m.bios| - 1].back)
               else s.nr == r.nr
  {
    hide Counted, Vecs, WidenFront, WidenBack;
    WidenOk(q, r, n.bios[0].front);
    WidenOk(q, n, r.bios[|r.bios| - 1].back);
    if PhysContig(q, r.bios[|r.bios| - 1], n.bios[0]) {
      MetCounted(q, r, n);
    } else {
      ApartCounted(q, r, n);
    }
    hide PhysContig;
  }

  lemma AttemptMergeOk(q: Limits, r: Req, n: Req)
    requires ReqOk(q, r) && ReqOk(q, n)
    ensures r.nr > 0
    ensures var (s, m, ok) := AttemptMerge(q, r, n);
            ReqOk(q, s) && (!ok ==> ReqOk(q, m)) && Vecs(s.bios) == if ok then Vecs(r.bios) + Vecs(n.bios) else Vecs(r.bios)
  {
    hide Counted, Vecs, Join;
    CountedPositive(q, Vecs(r.bios), r.nr, r.bios[0].front, r.bios[|r.bios| - 1].back);
    MergeRequestsOk(q, r, n);
    var (s, m, ok) := MergeRequests(q, r, n);
    VecsConcat(s.bios, m.bios);
  }

  // ------------------------------------------------------- any sequence of operations

  // How a request came about.  Absorbs is attempt_merge seen from the request that grows,
  // OfferedTo seen from the one that is taken over, or left alone if the merge is refused.
  datatype History =
    | Made(bio: Bio)
    | Back(h: History, bio: Bio)
    | Front(h: History, bio: Bio)
    | Absorbs(h: History, next: History)
    | OfferedTo(prev: History, h: History)
    | Recalculated(h: History)

  ghost predicate GoodBios(q: Limits, h: History) {
    match h
    case Made(b) => BioOk(q, b)
    case Back(g, b) => GoodBios(q, g) && BioOk(q, b)
    case Front(g, b) => GoodBios(q, g) && BioOk(q, b)
    case Absorbs(g, n) => GoodBios(q, g) && GoodBios(q, n)
    case OfferedTo(p, g) => GoodBios(q, p) && GoodBios(q, g)
    case Recalculated(g) => GoodBios(q, g)
  }

  ghost function Build(q: Limits, h: History): (r: Req)
    requires GoodBios(q, h)
    ensures ReqOk(q, r)
  {
    match h
    case Made(b) => PrepareOk(q, b); Prepare(q, b)
    case Back(g, b) => BackMergeOk(q, Build(q, g), b); BackMerge(q, Build(q, g), b)
    case Front(g, b) => FrontMergeOk(q, Build(q, g), b); FrontMerge(q, Build(q, g), b)
    case Absorbs(g, n) =>
      AttemptMergeOk(q, Build(q, g), Build(q, n));
      AttemptMerge(q, Build(q, g), Build(q, n)).0
    case OfferedTo(p, g) =>
      AttemptMergeOk(q, Build(q, p), Build(q, g));
      var (s, m, ok) := AttemptMerge(q, Build(q, p), Build(q, g));
      if ok then Build(q, g) else m
    case Recalculated(g) => RecalcOk(q, Build(q, g)); Recalc(q, Build(q, g))
  }

  // ------------------------------------------------------- the scatterlist

  datatype Entry = Entry(addr: nat, len: nat)

  // sg_set_page for the first vector of a segment, sg->length += for the others.
  function EntryOf(g: Segment): Entry
    requires g != []
  {
    Entry(g[0].addr, Sum(g))
  }

  function Entries(segs: seq<Segment>): seq<Entry>
    requires forall i :: 0 <= i < |segs| ==> segs[i] != []
  {
    seq(|segs|, i requires 0 <= i < |segs| => EntryOf(segs[i]))
  }

  function Range(addr: nat, len: nat): seq<nat> { seq(len, i => addr + i) }

  // The bytes a list of vectors, or of entries, stands for, in order.
  function Bytes(vecs: seq<Bvec>): seq<nat> {
    if vecs == [] then [] else Bytes(vecs[..|vecs| - 1]) + Range(vecs[|vecs| - 1].addr, vecs[|vecs| - 1].len)
  }

  function EntryBytes(list: seq<Entry>): seq<nat> {
    if list == [] then [] else EntryBytes(list[..|list| - 1]) + Range(list[|list| - 1].addr, list[|list| - 1].len)
  }

  // The vectors of a legal segment are one run of memory.
  lemma {:induction false} SegmentBytes(q: Limits, g: Segment)
    requires Legal(q, g)
    ensures Bytes(g) == Range(g[0].addr, Sum(g))
    ensures g[|g| - 1].addr + g[|g| - 1].len == g[0].addr + Sum(g)
    decreases |g|
  {
    if |g| == 1 {
      assert g[..0] == [];
    } else {
      LegalShorter(q, g);
      SegmentBytes(q, g[..|g| - 1]);
      assert Join(q, g[|g| - 2], g[|g| - 1]);
    }
  }

  lemma {:induction false} BytesConcat(a: seq<Bvec>, b: seq<Bvec>)
    ensures Bytes(a + b) == Bytes(a) + Bytes(b)
    decreases |b|
  {
    if b == [] {
      assert a + b == a;
    } else {
      BytesConcat(a, b[..|b| - 1]);
      assert (a + b)[..|a + b| - 1] == a + b[..|b| - 1];
    }
  }

  lemma {:induction false} EntriesCover(q: Limits, segs: seq<Segment>, vecs: seq<Bvec>)
    requires Segmentation(q, segs, vecs)
    ensures (forall i :: 0 <= i < |segs| ==> segs[i] != []) && EntryBytes(Entries(segs)) == Bytes(vecs)
    decreases |segs|
  {
    assert forall i :: 0 <= i < |segs| ==> Legal(q, segs[i]);
    if segs != [] {
      var init, g := segs[..|segs| - 1], segs[|segs| - 1];
      EntriesCover(q, init, Flat(init));
      assert Entries(segs)[..|segs| - 1] == Entries(init);
      BytesConcat(Flat(init), g);
      SegmentBytes(q, g);
    }
  }

  // An entry is one of the original vectors, or respects the size limit and the boundary.
  ghost predicate WithinLimits(q: Limits, g: Segment)
    requires g != []
  {
    var e := EntryOf(g);
    |g| == 1
    || (e.len <= q.maxSegmentSize
        && (q.boundary > 0 && e.len > 0 ==> e.addr / q.boundary == (e.addr + e.len - 1) / q.boundary))
  }

  lemma DivMonotone(a: nat, b: nat, k: nat)
    requires k > 0 && a <= b
    ensures a / k <= b / k
  {
    var x, y := a / k, b / k;
    assert a == k * x + a % k && b == k * y + b % k;
    if x > y { MulMonotone(k, y + 1, x); }
  }

  lemma {:induction false} SegmentWithinLimits(q: Limits, g: Segment)
    requires Legal(q, g) && forall i :: 0 <= i < |g| ==> g[i].len > 0
    ensures WithinLimits(q, g)
    decreases |g|
  {
    if |g| > 1 && q.boundary > 0 {
      var h, v, k := g[..|g| - 1], g[|g| - 1], q.boundary;
      LegalShorter(q, g);
      SegmentBytes(q, g);
      SegmentBytes(q, h);
      SegmentWithinLimits(q, h);
      assert Join(q, g[|g| - 2], v);
      var p := g[|g| - 2];
      SumAtLeast(h, |h| - 1);
      DivMonotone(g[0].addr, p.addr, k);
      DivMonotone(p.addr, p.addr + p.len - 1, k);
    }
  }

  lemma {:induction false} SumAtLeast(g: Segment, i: nat)
    requires i < |g|
    ensures Sum(g) >= g[i].len
    decreases |g|
  {
    if i < |g| - 1 { SumAtLeast(g[..|g| - 1], i); }
  }

  // After any sequence of merges, refused merges and recounts the scatterlist fits the
  // counter, and its entries are the bytes of the request's vectors in order, within limits.
  lemma ScatterlistFits(q: Limits, h: History)
    requires GoodBios(q, h)
    ensures var r := Build(q, h); var segs := Greedy(q, false, Vecs(r.bios));
            && 0 < |Entries(segs)| <= r.nr
            && EntryBytes(Entries(segs)) == Bytes(Vecs(r.bios))
            && ((forall v :: v in Vecs(r.bios) ==> v.len > 0) ==> forall i :: 0 <= i < |segs| ==> WithinLimits(q, segs[i]))
  {
    hide Build, Greedy, Vecs, WithinLimits;
    var r := Build(q, h);
    var vecs := Vecs(r.bios);
    CountedIsEnough(q, vecs, r.nr, r.bios[0].front, r.bios[|r.bios| - 1].back);
    GreedyLegal(q, false, vecs);
    var segs := Greedy(q, false, vecs);
    EntriesCover(q, segs, vecs);
    if forall v :: v in vecs ==> v.len > 0 {
      forall i | 0 <= i < |segs| ensures WithinLimits(q, segs[i]) {
        InFlat(segs, i);
        SegmentWithinLimits(q, segs[i]);
      }
    }
  }

  lemma {:induction false} InFlat(segs: seq<Segment>, i: nat)
    requires i < |segs|
    ensures forall v :: v in segs[i] ==> v in Flat(segs)
    decreases |segs|
  {
    if i < |segs| - 1 { InFlat(segs[..|segs| - 1], i); }
  }
}
