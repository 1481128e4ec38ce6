// Completing part of a request (__end_that_request_first and req_bio_endio in
// block/blk-core.c): a walk over bios and their vectors that can be resumed at any byte.
module PartialCompletion {

  // A bio_vec.
  datatype Vec = Vec(page: nat, offset: nat, len: nat)

  // vecs are the vectors from bi_idx on, size is bi_size, upToDate is BIO_UPTODATE.
  datatype Bio = Bio(id: nat, vecs: seq<Vec>, size: nat, upToDate: bool)

  // A call of bi_end_io.
  datatype End = End(id: nat, error: int)

  const EIO: int := -5

  function Total(vecs: seq<Vec>): nat {
    if vecs == [] then 0 else vecs[0].len + Total(vecs[1..])
  }

  // Vectors are not empty, and the size is what they hold.
  ghost predicate Sound(b: Bio) { b.size == Total(b.vecs) && forall v :: v in b.vecs ==> v.len > 0 }

  ghost predicate AllSound(bios: seq<Bio>) { forall i :: 0 <= i < |bios| ==> Sound(bios[i]) }

  // req_bio_endio without the call of bio_endio
  function Charge(b: Bio, nbytes: nat, error: int): Bio {
    b.(upToDate := if error != 0 then false else b.upToDate, size := if nbytes > b.size then 0 else b.size - nbytes)
  }

  // The error bi_end_io is called with.
  function Reported(b: Bio, error: int): int {
    if error != 0 then error else if !b.upToDate then EIO else 0
  }

  // ------------------------------------------------------- the walk as a function

  // The vectors without their first n bytes.
  function Consume(vecs: seq<Vec>, n: nat): seq<Vec> {
    if vecs == [] || n == 0 then vecs
    else if vecs[0].len > n then [vecs[0].(offset := vecs[0].offset + n, len := vecs[0].len - n)] + vecs[1..]
    else Consume(vecs[1..], n - vecs[0].len)
  }

  // A bio done in part.
  function Shortened(b: Bio, n: nat, error: int): Bio { Charge(b, n, error).(vecs := Consume(b.vecs, n)) }

  // The bios left and those ended.
  function Complete(bios: seq<Bio>, n: nat, error: int): (seq<Bio>, seq<End>)
    decreases |bios|
  {
    if bios == [] then ([], [])
    else
      var b, end := bios[0], [End(bios[0].id, Reported(bios[0], error))];
      if n < b.size then (if n == 0 then bios else [Shortened(b, n, error)] + bios[1..], [])
      else if n == b.size && |bios| > 1 then (bios[1..], end)
      else
        var (rest, ends) := Complete(bios[1..], n - b.size, error);
        (rest, end + ends)
  }

  // The three ways the walk goes on from a bio.
  lemma Inside(bios: seq<Bio>, n: nat, error: int)
    requires bios != [] && n < bios[0].size
    ensures Complete(bios, n, error) == (if n == 0 then bios else [Shortened(bios[0], n, error)] + bios[1..], [])
  {
  }

  lemma AtEnd(bios: seq<Bio>, n: nat, error: int)
    requires |bios| > 1 && n == bios[0].size
    ensures Complete(bios, n, error) == (bios[1..], [End(bios[0].id, Reported(bios[0], error))])
  {
  }

  lemma Behind(bios: seq<Bio>, n: nat, error: int)
    requires bios != [] && n >= bios[0].size && (n > bios[0].size || |bios| == 1)
    ensures var (left, ends) := Complete(bios[1..], n - bios[0].size, error);
            Complete(bios, n, error) == (left, [End(bios[0].id, Reported(bios[0], error))] + ends)
  {
  }

  lemma NoBios(n: nat, error: int)
    ensures Complete([], n, error) == ([], [])
  {
  }

  // ------------------------------------------------------- what it means

  // The bytes still to be done, in order.
  function VecBytes(vecs: seq<Vec>): seq<(nat, nat)> {
    if vecs == [] then []
    else seq(vecs[0].len, i => (vecs[0].page, vecs[0].offset + i)) + VecBytes(vecs[1..])
  }

  function Stream(bios: seq<Bio>): seq<(nat, nat)> {
    if bios == [] then [] else VecBytes(bios[0].vecs) + Stream(bios[1..])
  }

  function Sizes(bios: seq<Bio>): nat {
    if bios == [] then 0 else bios[0].size + Sizes(bios[1..])
  }

  lemma {:induction false} VecBytesLength(vecs: seq<Vec>)
    ensures |VecBytes(vecs)| == Total(vecs)
    decreases |vecs|
  {
    if vecs != [] { VecBytesLength(vecs[1..]); }
  }

  lemma {:induction false} ConsumeDrops(vecs: seq<Vec>, n: nat)
    requires n <= Total(vecs) && forall v :: v in vecs ==> v.len > 0
    ensures var w := Consume(vecs, n);
            Total(w) == Total(vecs) - n && (forall v :: v in w ==> v.len > 0)
            && |VecBytes(vecs)| == Total(vecs) && VecBytes(w) == VecBytes(vecs)[n..]
    decreases |vecs|
  {
    VecBytesLength(vecs);
    if vecs != [] && n > 0 {
      var v, rest := vecs[0], vecs[1..];
      if v.len > n {
        var w := [v.(offset := v.offset + n, len := v.len - n)] + rest;
        assert w[1..] == rest;
      } else {
        ConsumeDrops(rest, n - v.len);
      }
    }
  }

  lemma ShortenedSound(b: Bio, n: nat, error: int)
    requires Sound(b) && n < b.size
    ensures var c := Shortened(b, n, error);
            && Sound(c) && c.size == b.size - n && c.id == b.id && c.upToDate == (error == 0 && b.upToDate)
            && |VecBytes(b.vecs)| == b.size && VecBytes(c.vecs) == VecBytes(b.vecs)[n..]
  {
    ConsumeDrops(b.vecs, n);
  }

  lemma TailSound(bios: seq<Bio>)
    requires AllSound(bios) && bios != []
    ensures Sound(bios[0]) && AllSound(bios[1..]) && |VecBytes(bios[0].vecs)| == bios[0].size
  {
    VecBytesLength(bios[0].vecs);
  }

  lemma {:induction false} StreamLength(bios: seq<Bio>)
    requires AllSound(bios)
    ensures |Stream(bios)| == Sizes(bios)
    decreases |bios|
  {
    if bios != [] {
      TailSound(bios);
      StreamLength(bios[1..]);
    }
  }

  lemma StreamCons(b: Bio, rest: seq<Bio>)
    ensures Stream([b] + rest) == VecBytes(b.vecs) + Stream(rest)
  {
    assert ([b] + rest)[1..] == rest;
  }

  lemma DropConcat<T>(a: seq<T>, b: seq<T>, n: nat)
    requires n <= |a| + |b|
    ensures (a + b)[n..] == if n <= |a| then a[n..] + b else b[n - |a|..]
  {
  }

  lemma SoundCons(b: Bio, rest: seq<Bio>)
    requires Sound(b) && AllSound(rest)
    ensures AllSound([b] + rest)
  {
  }

  // What is left is the stream without its first n bytes, and the sizes still fit.
  lemma {:induction false} CompleteDrops(bios: seq<Bio>, n: nat, error: int)
    requires AllSound(bios)
    ensures var left := Complete(bios, n, error).0;
            && AllSound(left) && |Stream(bios)| == Sizes(bios)
            && Stream(left) == Stream(bios)[if n < Sizes(bios) then n else Sizes(bios)..]
    decreases |bios|
  {
    StreamLength(bios);
    if bios == [] {
      NoBios(n, error);
    } else {
      var b, rest := bios[0], bios[1..];
      TailSound(bios);
      StreamLength(rest);
      StreamCons(b, rest);
      assert bios == [b] + rest;
      hide Complete, Sound, VecBytes, Shortened, Reported, AllSound, Stream;
      DropConcat(VecBytes(b.vecs), Stream(rest), if n < Sizes(bios) then n else Sizes(bios));
      if n < b.size {
        Inside(bios, n, error);
        if n > 0 {
          ShortenedSound(b, n, error);
          SoundCons(Shortened(b, n, error), rest);
          StreamCons(Shortened(b, n, error), rest);
        }
      } else if n == b.size && |bios| > 1 {
        AtEnd(bios, n, error);
      } else {
        Behind(bios, n, error);
        CompleteDrops(rest, n - b.size, error);
      }
    }
  }

  // How far n bytes reach: k bios end, the walk stopping where the bytes are used up.
  ghost predicate Reaches(bios: seq<Bio>, n: nat, k: nat) {
    && k <= |bios| && Sizes(bios[..k]) <= n && (k > 1 ==> Sizes(bios[..k - 1]) < n)
    && (k < |bios| ==> n < Sizes(bios[..k]) + bios[k].size || (k > 0 && n == Sizes(bios[..k])))
  }

  lemma SizesCons(bios: seq<Bio>, k: nat)
    requires 0 < k <= |bios|
    ensures Sizes(bios[..k]) == bios[0].size + Sizes(bios[1..][..k - 1])
  {
    assert bios[..k][1..] == bios[1..][..k - 1];
  }

  lemma ReachesOn(bios: seq<Bio>, n: nat, k: nat)
    requires bios != [] && n >= bios[0].size && (n > bios[0].size || |bios| == 1)
    requires Reaches(bios[1..], n - bios[0].size, k)
    ensures Reaches(bios, n, k + 1)
  {
    SizesCons(bios, k + 1);
    if k > 0 { SizesCons(bios, k); }
  }

  lemma ReachesOne(bios: seq<Bio>, n: nat)
    requires |bios| > 1 && n == bios[0].size
    ensures Reaches(bios, n, 1) && Sizes(bios[..1]) == n
  {
    SizesCons(bios, 1);
  }

  lemma ReachesNone(bios: seq<Bio>, n: nat)
    requires bios == [] || n < bios[0].size
    ensures Reaches(bios, n, 0) && Sizes(bios[..0]) == 0
  {
  }

  // What is left when k bios end.
  function LeftFrom(bios: seq<Bio>, n: nat, k: nat, error: int): seq<Bio>
    requires k <= |bios| && Sizes(bios[..k]) <= n
  {
    if n == Sizes(bios[..k]) || k == |bios| then bios[k..]
    else [Shortened(bios[k], n - Sizes(bios[..k]), error)] + bios[k + 1..]
  }

  ghost predicate EndsOf(bios: seq<Bio>, n: nat, error: int, left: seq<Bio>, ends: seq<End>) {
    && Reaches(bios, n, |ends|) && left == LeftFrom(bios, n, |ends|, error)
    && (forall i :: 0 <= i < |ends| ==> ends[i] == End(bios[i].id, Reported(bios[i], error)))
  }

  lemma EndsBehind(bios: seq<Bio>, n: nat, error: int, left: seq<Bio>, ends: seq<End>)
    requires bios != [] && n >= bios[0].size && (n > bios[0].size || |bios| == 1)
    requires EndsOf(bios[1..], n - bios[0].size, error, left, ends)
    ensures EndsOf(bios, n, error, left, [End(bios[0].id, Reported(bios[0], error))] + ends)
  {
    hide Shortened, Reported, Sizes;
    var rest, k := bios[1..], |ends|;
    ReachesOn(bios, n, k);
    SizesCons(bios, k + 1);
    hide Reaches;
    assert rest[k..] == bios[k + 1..];
    if k < |rest| { assert rest[k + 1..] == bios[k + 2..]; }
  }

  lemma {:induction false} EndsReach(bios: seq<Bio>, n: nat, error: int)
    ensures EndsOf(bios, n, error, Complete(bios, n, error).0, Complete(bios, n, error).1)
    decreases |bios|
  {
    if bios == [] || n < bios[0].size {
      ReachesNone(bios, n);
    } else if n == bios[0].size && |bios| > 1 {
      hide Shortened, Reported, Complete, Sizes;
      AtEnd(bios, n, error);
      ReachesOne(bios, n);
    } else {
      hide *;
      Behind(bios, n, error);
      EndsReach(bios[1..], n - bios[0].size, error);
      var (left, ends) := Complete(bios[1..], n - bios[0].size, error);
      EndsBehind(bios, n, error, left, ends);
    }
  }

  // The bios ended are the first k, each once and in order, with the error of the call, or with
  // EIO if it has none but the bio saw one before; the others are untouched, but for the first
  // of them if it is done in part.
  lemma CompleteEnds(bios: seq<Bio>, n: nat, error: int)
    ensures var (left, ends) := Complete(bios, n, error); var k := |ends|;
            && Reaches(bios, n, k) && left == LeftFrom(bios, n, k, error)
            && (forall i :: 0 <= i < k ==>
                  ends[i] == End(bios[i].id, if error != 0 then error else if bios[i].upToDate then 0 else -5))
  {
    EndsReach(bios, n, error);
    hide Complete, Reaches, LeftFrom, Sizes;
  }

  // ------------------------------------------------------- resuming

  lemma {:induction false} ConsumeTwice(vecs: seq<Vec>, n: nat, m: nat)
    requires n + m < Total(vecs) && forall v :: v in vecs ==> v.len > 0
    ensures Consume(Consume(vecs, n), m) == Consume(vecs, n + m)
    decreases |vecs|
  {
    if n > 0 {
      var v, rest := vecs[0], vecs[1..];
      if v.len > n {
        var w := [v.(offset := v.offset + n, len := v.len - n)] + rest;
        assert w[1..] == rest;
        assert v.offset + n + m == v.offset + (n + m);
      } else {
        ConsumeTwice(rest, n - v.len, m);
      }
    }
  }

  lemma ShortenedTwice(b: Bio, n: nat, m: nat, error: int)
    requires Sound(b) && n + m < b.size
    ensures Shortened(Shortened(b, n, error), m, error) == Shortened(b, n + m, error)
  {
    ConsumeTwice(b.vecs, n, m);
  }

  // Doing n bytes and then m, with n + m at once.
  ghost predicate SameInTwo(bios: seq<Bio>, n: nat, m: nat, error: int) {
    var (once, ends) := Complete(bios, n + m, error);
    var (first, ends1) := Complete(bios, n, error);
    var (twice, ends2) := Complete(first, m, error);
    once == twice && ends == ends1 + ends2
  }

  lemma ResumesInside(bios: seq<Bio>, n: nat, m: nat, error: int)
    requires AllSound(bios) && bios != [] && n < bios[0].size
    ensures SameInTwo(bios, n, m, error)
  {
    var b, rest := bios[0], bios[1..];
    TailSound(bios);
    Inside(bios, n, error);
    var c := if n == 0 then b else Shortened(b, n, error);
    var first := [c] + rest;
    assert first[1..] == rest && bios == [b] + rest;
    if n > 0 { ShortenedSound(b, n, error); }
    assert Reported(c, error) == Reported(b, error);
    hide Shortened, Sound, Complete, Reported;
    if n + m < b.size {
      Inside(bios, n + m, error);
      Inside(first, m, error);
      if n > 0 && m > 0 { ShortenedTwice(b, n, m, error); }
    } else if n + m == b.size && |bios| > 1 {
      AtEnd(bios, n + m, error);
      AtEnd(first, m, error);
    } else {
      Behind(bios, n + m, error);
      Behind(first, m, error);
    }
  }

  lemma ResumesAtEnd(bios: seq<Bio>, m: nat, error: int)
    requires |bios| > 1
    ensures SameInTwo(bios, bios[0].size, m, error) <==> (m > 0 || bios[1].size > 0)
  {
    var b, rest := bios[0], bios[1..];
    hide Shortened, Reported, Complete;
    AtEnd(bios, b.size, error);
    if m > 0 {
      Behind(bios, b.size + m, error);
    } else if rest[0].size > 0 {
      Inside(rest, 0, error);
    } else if |rest| > 1 {
      AtEnd(rest, 0, error);
    } else {
      Behind(rest, 0, error);
    }
  }

  lemma Cancel<T>(e: seq<T>, a: seq<T>, b: seq<T>, c: seq<T>)
    ensures e + a == e + b + c <==> a == b + c
  {
    assert (e + a)[|e|..] == a && (e + b + c)[|e|..] == b + c;
    assert e + b + c == e + (b + c);
  }

  lemma ResumesBehind(bios: seq<Bio>, n: nat, m: nat, error: int)
    requires bios != [] && n >= bios[0].size && (n > bios[0].size || |bios| == 1)
    ensures Complete(bios, n, error).0 == Complete(bios[1..], n - bios[0].size, error).0
    ensures SameInTwo(bios, n, m, error) <==> SameInTwo(bios[1..], n - bios[0].size, m, error)
  {
    hide Complete, Reported;
    var b, rest := bios[0], bios[1..];
    Behind(bios, n, error);
    Behind(bios, n + m, error);
    var k := n - b.size;
    assert n + m - b.size == k + m;
    Cancel([End(b.id, Reported(b, error))], Complete(rest, k + m, error).1, Complete(rest, k, error).1,
           Complete(Complete(rest, k, error).0, m, error).1);
  }

  // Doing n bytes and then m is doing n + m, ending the same bios with the same errors,
  // exactly unless the second call is for nothing and finds an empty bio in front, which it
  // ends while the single call stops before it.
  lemma {:induction false} Resumes(bios: seq<Bio>, n: nat, m: nat, error: int)
    requires AllSound(bios)
    ensures var first := Complete(bios, n, error).0;
            SameInTwo(bios, n, m, error) <==> m > 0 || first == [] || first[0].size > 0
    decreases |bios|
  {
    hide Shortened, Sound, SameInTwo, Complete;
    if bios == [] {
      ResumesNothing(n, m, error);
    } else {
      TailSound(bios);
      if n < bios[0].size {
        ResumesInside(bios, n, m, error);
        Inside(bios, n, error);
        if n > 0 { ShortenedSound(bios[0], n, error); }
      } else if n == bios[0].size && |bios| > 1 {
        ResumesAtEnd(bios, m, error);
        AtEnd(bios, n, error);
      } else {
        ResumesBehind(bios, n, m, error);
        Resumes(bios[1..], n - bios[0].size, m, error);
      }
    }
  }

  lemma ResumesNothing(n: nat, m: nat, error: int)
    ensures SameInTwo([], n, m, error) && Complete([], n, error).0 == []
  {
  }

  // ------------------------------------------------------- errors stick

  // The bios a call completes in part or in whole.
  function Touched(bios: seq<Bio>, n: nat): set<nat>
    decreases |bios|
  {
    if bios == [] then {}
    else
      var b := bios[0];
      if n < b.size then (if n == 0 then {} else {b.id})
      else if n == b.size && |bios| > 1 then {b.id}
      else {b.id} + Touched(bios[1..], n - b.size)
  }

  datatype Call = Call(n: nat, error: int)

  // The ends of a series of calls.
  function Run(bios: seq<Bio>, calls: seq<Call>): seq<End>
    decreases |calls|
  {
    if calls == [] then []
    else
      var (left, ends) := Complete(bios, calls[0].n, calls[0].error);
      ends + Run(left, calls[1..])
  }

  // Some call that touched the bio carried an error.
  predicate SawError(bios: seq<Bio>, calls: seq<Call>, id: nat)
    decreases |calls|
  {
    calls != []
    && ((calls[0].error != 0 && id in Touched(bios, calls[0].n))
        || SawError(Complete(bios, calls[0].n, calls[0].error).0, calls[1..], id))
  }

  ghost predicate DistinctIds(bios: seq<Bio>) { forall i, j :: 0 <= i < j < |bios| ==> bios[i].id != bios[j].id }

  // A call touches the bios it ends, and the one it leaves in part.
  lemma {:induction false} TouchedAre(bios: seq<Bio>, n: nat, error: int)
    requires DistinctIds(bios)
    ensures var k := |Complete(bios, n, error).1|;
            k <= |bios| && (forall i :: 0 <= i < |bios| ==>
              (bios[i].id in Touched(bios, n) <==> i < k || (i == k && n > Sizes(bios[..k]))))
    ensures forall id :: id in Touched(bios, n) ==> exists i :: 0 <= i < |bios| && bios[i].id == id
    decreases |bios|
  {
    CompleteEnds(bios, n, error);
    if bios != [] && n >= bios[0].size {
      var rest := bios[1..];
      if n == bios[0].size && |bios| > 1 {
        SizesCons(bios, 1);
      } else {
        hide Complete, Shortened, Reported;
        Behind(bios, n, error);
        var k := |Complete(rest, n - bios[0].size, error).1|;
        TouchedAre(rest, n - bios[0].size, error);
        SizesCons(bios, k + 1);
        assert Touched(bios, n) == {bios[0].id} + Touched(rest, n - bios[0].size);
        hide Sizes, Touched;
        forall i | 0 <= i < |bios|
          ensures bios[i].id in Touched(bios, n) <==> i < k + 1 || (i == k + 1 && n > Sizes(bios[..k + 1])) {
          if i > 0 { assert bios[i] == rest[i - 1]; }
        }
      }
    }
  }

  // A waiting bio after a call: which it was, and whether it is still up to date.
  lemma LeftState(bios: seq<Bio>, n: nat, error: int, i: nat)
    requires DistinctIds(bios) && i < |Complete(bios, n, error).0|
    ensures var (left, ends) := Complete(bios, n, error); var k := |ends|;
            && k + i < |bios| && left[i].id == bios[k + i].id
            && left[i].upToDate == (bios[k + i].upToDate && !(error != 0 && left[i].id in Touched(bios, n)))
  {
    CompleteEnds(bios, n, error);
    TouchedAre(bios, n, error);
    hide Complete, Touched, Sizes;
  }

  lemma LeftDistinct(bios: seq<Bio>, n: nat, error: int)
    requires DistinctIds(bios)
    ensures DistinctIds(Complete(bios, n, error).0)
  {
    var (left, ends) := Complete(bios, n, error);
    var k := |ends|;
    forall i | 0 <= i < |left| ensures k + i < |bios| && left[i].id == bios[k + i].id { LeftState(bios, n, error, i); }
    hide Complete;
  }

  lemma {:induction false} NotWaiting(bios: seq<Bio>, calls: seq<Call>, id: nat)
    requires DistinctIds(bios) && forall i :: 0 <= i < |bios| ==> bios[i].id != id
    ensures !SawError(bios, calls, id)
    decreases |calls|
  {
    if calls != [] {
      var n, error := calls[0].n, calls[0].error;
      TouchedAre(bios, n, error);
      LeftDistinct(bios, n, error);
      var left := Complete(bios, n, error).0;
      forall i | 0 <= i < |left| ensures left[i].id != id { LeftState(bios, n, error, i); }
      NotWaiting(left, calls[1..], id);
    }
  }

  // Over any calls: what ends is one of the bios, and it ends with an error exactly if it
  // came with one or some call that completed any of it carried one.
  lemma {:induction false} ErrorsStick(bios: seq<Bio>, calls: seq<Call>, e: End)
    requires DistinctIds(bios) && e in Run(bios, calls)
    ensures exists i :: 0 <= i < |bios| && bios[i].id == e.id
                        && (e.error != 0 <==> !bios[i].upToDate || SawError(bios, calls, e.id))
    decreases |calls|
  {
    var n, error := calls[0].n, calls[0].error;
    var (left, ends) := Complete(bios, n, error);
    var k := |ends|;
    CompleteEnds(bios, n, error);
    TouchedAre(bios, n, error);
    LeftDistinct(bios, n, error);
    if e in ends {
      hide Complete, Touched, Sizes;
      var i :| 0 <= i < k && ends[i] == e;
      forall j | 0 <= j < |left| ensures left[j].id != e.id { LeftState(bios, n, error, j); }
      NotWaiting(left, calls[1..], e.id);
      assert bios[i].id == e.id;
    } else {
      ErrorsStick(left, calls[1..], e);
      hide Complete, Touched, Sizes, Reaches;
      var i :| 0 <= i < |left| && left[i].id == e.id && (e.error != 0 <==> !left[i].upToDate || SawError(left, calls[1..], e.id));
      LeftState(bios, n, error, i);
      assert bios[k + i].id == e.id;
    }
  }

  // What a series of calls leaves.
  function LeftAfter(bios: seq<Bio>, calls: seq<Call>): seq<Bio>
    decreases |calls|
  {
    if calls == [] then bios else LeftAfter(Complete(bios, calls[0].n, calls[0].error).0, calls[1..])
  }

  lemma LeftIds(bios: seq<Bio>, n: nat, error: int)
    ensures var (left, ends) := Complete(bios, n, error);
            && |ends| + |left| == |bios| && (forall i :: 0 <= i < |ends| ==> ends[i].id == bios[i].id)
            && (forall i :: 0 <= i < |left| ==> left[i].id == bios[|ends| + i].id)
  {
    CompleteEnds(bios, n, error);
    hide Complete, Sizes;
  }

  // Over any calls each bio ends once, in order, or is left.
  lemma {:induction false} RunInOrder(bios: seq<Bio>, calls: seq<Call>)
    ensures var ends, left := Run(bios, calls), LeftAfter(bios, calls);
            && |ends| + |left| == |bios| && (forall i :: 0 <= i < |ends| ==> ends[i].id == bios[i].id)
            && (forall i :: 0 <= i < |left| ==> left[i].id == bios[|ends| + i].id)
    decreases |calls|
  {
    if calls != [] {
      LeftIds(bios, calls[0].n, calls[0].error);
      hide Complete;
      RunInOrder(Complete(bios, calls[0].n, calls[0].error).0, calls[1..]);
    }
  }

  // ------------------------------------------------------- the loop

  lemma {:induction false} TotalPrefix(vecs: seq<Vec>, i: nat)
    requires i < |vecs|
    ensures Total(vecs[..i + 1]) == Total(vecs[..i]) + vecs[i].len
    ensures Total(vecs[..i]) + vecs[i].len <= Total(vecs)
    decreases i
  {
    if i > 0 {
      TotalPrefix(vecs[1..], i - 1);
      assert vecs[..i][1..] == vecs[1..][..i - 1] && vecs[..i + 1][1..] == vecs[1..][..i];
    } else {
      assert vecs[..1][1..] == [];
    }
  }

  // Consuming whole vectors and a part of the next.
  lemma {:induction false} ConsumeAt(vecs: seq<Vec>, i: nat, n: nat)
    requires i < |vecs| && n < vecs[i].len && forall v :: v in vecs ==> v.len > 0
    ensures Consume(vecs, Total(vecs[..i]) + n)
         == [vecs[i].(offset := vecs[i].offset + n, len := vecs[i].len - n)] + vecs[i + 1..]
    decreases i
  {
    if i > 0 {
      assert vecs[..i][1..] == vecs[1..][..i - 1];
      ConsumeAt(vecs[1..], i - 1, n);
      assert vecs[1..][i..] == vecs[i + 1..];
    } else if n == 0 {
      assert vecs == [vecs[0]] + vecs[1..];
    }
  }

  // The bio after the loop: its first count vectors are done, and n bytes of the next.
  lemma CutAt(b: Bio, count: nat, n: nat, error: int)
    requires Sound(b) && count < |b.vecs| && n < b.vecs[count].len && Total(b.vecs[..count]) + n < b.size
    ensures var v, bytes := b.vecs[count], Total(b.vecs[..count]) + n;
            Shortened(b, bytes, error)
              == Charge(b, bytes, error).(vecs := [v.(offset := v.offset + n, len := v.len - n)] + b.vecs[count + 1..])
  {
    ConsumeAt(b.vecs, count, n);
  }

  lemma NextVector(b: Bio, count: nat)
    requires Sound(b) && count <= |b.vecs| && Total(b.vecs[..count]) < b.size
    ensures count < |b.vecs| && b.vecs[count].len > 0 && Total(b.vecs[..count]) + b.vecs[count].len <= b.size
    ensures Total(b.vecs[..count + 1]) == Total(b.vecs[..count]) + b.vecs[count].len
  {
    assert b.vecs[..|b.vecs|] == b.vecs;
    TotalPrefix(b.vecs, count);
  }

  // Where the walk stops: count vectors of the first bio and n bytes of the next are done.
  ghost predicate Stopped(bios: seq<Bio>, count: nat, n: nat, bytes: nat) {
    && bios != [] && Sound(bios[0])
    && (bytes > 0 ==>
          && count < |bios[0].vecs| && n < bios[0].vecs[count].len
          && bytes == Total(bios[0].vecs[..count]) + n && bytes < bios[0].size)
  }

  // The loop of __end_that_request_first.  ends lists the calls of bi_end_io, total is
  // total_bytes; count and bytes are next_idx and bio_nbytes, n what is left of nr_bytes.
  method Walk(list: seq<Bio>, error: int, nrBytes: nat)
      returns (bios: seq<Bio>, ends: seq<End>, total: nat, count: nat, bytes: nat, n: nat)
    requires AllSound(list)
    ensures AllSound(bios) && (bios != [] ==> Stopped(bios, count, n, bytes))
    ensures Complete(list, nrBytes, error)
         == (if bytes == 0 || bios == [] then bios else [Shortened(bios[0], bytes, error)] + bios[1..], ends)
    ensures total == if nrBytes < Sizes(list) then nrBytes else Sizes(list)
  {
    bios, ends, total, count, bytes, n := list, [], 0, 0, 0, nrBytes;
    ghost var result, exact := Complete(list, nrBytes, error), false;
    AheadStart(list, nrBytes, error);
    assert Placed(list, 0, 0, nrBytes);
    hide Complete, Sound, AllSound, Shortened, Reported, Ahead, Sizes, Placed, Stopped, Total;
    while bios != []
      invariant AllSound(bios) && total + n == nrBytes && total - bytes + Sizes(bios) == Sizes(list)
      invariant Placed(bios, count, bytes, n)
      invariant !exact && Ahead(result, ends, bios, bytes + n, error)
      decreases |bios|, if bios == [] then 0 else |bios[0].vecs| - count
    {
      var bio, nbytes: nat := bios[0], 0;
      TailSound(bios);
      TailSizes(bios);
      if n >= bio.size {
        AheadNext(result, ends, bios, n, error);
        exact := n == bio.size && |bios| > 1;
        bios, nbytes := bios[1..], bio.size;
        ends := ends + [End(bio.id, Reported(bio, error))];
        count, bytes := 0, 0;
        PlacedFirst(bios, n - nbytes);
      } else {
        PlacedNext(bios, count, bytes, n);
        nbytes := bio.vecs[count].len;
        if nbytes > n {
          bytes, total := bytes + n, total + n;
          break;
        }
        count, bytes := count + 1, bytes + nbytes;
      }
      total, n := total + nbytes, n - nbytes;
      if bios != [] && n == 0 { break; }
    }
    if bios == [] {
      AheadNone(result, ends, bytes + n, error);
      NoSizes();
    } else if !exact {
      AheadStop(result, ends, bios, bytes, error);
    }
    LeftSizes(bios, bytes);
  }

  // Where the walk is: count vectors of the first bio are done, bytes in all.
  ghost predicate Placed(bios: seq<Bio>, count: nat, bytes: nat, n: nat) {
    if count == 0 then bytes == 0
    else bios != [] && count <= |bios[0].vecs| && bytes == Total(bios[0].vecs[..count]) && bytes + n < bios[0].size
  }

  lemma PlacedFirst(bios: seq<Bio>, n: nat)
    ensures Placed(bios, 0, 0, n)
    ensures AllSound(bios) && bios != [] ==> Stopped(bios, 0, n, 0)
  {
  }

  lemma PlacedNext(bios: seq<Bio>, count: nat, bytes: nat, n: nat)
    requires bios != [] && Sound(bios[0]) && Placed(bios, count, bytes, n) && n < bios[0].size
    ensures count < |bios[0].vecs| && bytes + n < bios[0].size && bios[0].vecs[count].len > 0
    ensures var len := bios[0].vecs[count].len;
            if len > n then Stopped(bios, count, n, bytes + n)
            else Placed(bios, count + 1, bytes + len, n - len) && (len == n ==> Stopped(bios, count + 1, 0, bytes + len))
  {
    hide Sound;
    assert bios[0].vecs[..0] == [];
    NextVector(bios[0], count);
    if bios[0].vecs[count].len == n { NextVector(bios[0], count + 1); }
  }

  // The whole result is what has ended and what completing m more bytes of bios gives.
  ghost predicate Ahead(result: (seq<Bio>, seq<End>), ends: seq<End>, bios: seq<Bio>, m: nat, error: int) {
    result == (Complete(bios, m, error).0, ends + Complete(bios, m, error).1)
  }

  lemma AheadStart(list: seq<Bio>, n: nat, error: int)
    ensures Ahead(Complete(list, n, error), [], list, n, error)
  {
    hide Complete;
    assert [] + Complete(list, n, error).1 == Complete(list, n, error).1;
  }

  lemma TailSizes(bios: seq<Bio>)
    requires bios != []
    ensures Sizes(bios) == bios[0].size + Sizes(bios[1..])
  {
  }

  lemma NoSizes()
    ensures Sizes([]) == 0
  {
  }

  lemma LeftSizes(bios: seq<Bio>, bytes: nat)
    ensures bios != [] && bytes < bios[0].size ==> bytes < Sizes(bios)
  {
  }

  lemma AheadNext(result: (seq<Bio>, seq<End>), ends: seq<End>, bios: seq<Bio>, n: nat, error: int)
    requires Ahead(result, ends, bios, n, error) && bios != [] && n >= bios[0].size
    ensures var more := ends + [End(bios[0].id, Reported(bios[0], error))];
            if n == bios[0].size && |bios| > 1 then result == (bios[1..], more)
            else Ahead(result, more, bios[1..], n - bios[0].size, error)
  {
    hide Complete, Reported;
    var end := [End(bios[0].id, Reported(bios[0], error))];
    if n == bios[0].size && |bios| > 1 {
      AtEnd(bios, n, error);
    } else {
      Behind(bios, n, error);
      assert ends + end + Complete(bios[1..], n - bios[0].size, error).1 == ends + (end + Complete(bios[1..], n - bios[0].size, error).1);
    }
  }

  lemma AheadStop(result: (seq<Bio>, seq<End>), ends: seq<End>, bios: seq<Bio>, m: nat, error: int)
    requires Ahead(result, ends, bios, m, error) && bios != [] && m < bios[0].size
    ensures result == (if m == 0 then bios else [Shortened(bios[0], m, error)] + bios[1..], ends)
  {
    hide Complete, Shortened;
    Inside(bios, m, error);
    assert ends + [] == ends;
  }

  lemma AheadNone(result: (seq<Bio>, seq<End>), ends: seq<End>, m: nat, error: int)
    requires Ahead(result, ends, [], m, error)
    ensures result == ([], ends)
  {
    NoBios(m, error);
    assert ends + [] == ends;
  }

  class Request {
    // the list at req->bio
    var bios: seq<Bio>

    // __end_that_request_first
    method EndThatRequestFirst(error: int, nrBytes: nat) returns (pending: bool, total: nat, ends: seq<End>)
      requires AllSound(bios)
      modifies this
      ensures AllSound(bios) && (bios, ends) == Complete(old(bios), nrBytes, error)
      ensures pending <==> bios != []
      ensures total == if nrBytes < Sizes(old(bios)) then nrBytes else Sizes(old(bios))
    {
      CompleteDrops(bios, nrBytes, error);
      hide Complete, Sound, Shortened, Reported, Charge;
      var list, count, bytes, n;
      list, ends, total, count, bytes, n := Walk(bios, error, nrBytes);
      bios := list;
      if bios == [] { return false, total, ends; }
      if bytes > 0 {
        var bio := bios[0];
        CutAt(bio, count, n, error);
        var v := bio.vecs[count];
        bio := Charge(bio, bytes, error).(vecs := [v.(offset := v.offset + n, len := v.len - n)] + bio.vecs[count + 1..]);
        bios := [bio] + bios[1..];
      }
      pending := true;
    }
  }
}
