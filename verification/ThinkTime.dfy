// The decaying averages of think time (as_update_thinktime of block/as-iosched.c, and the same
// update in cfq_update_io_thinktime of block/cfq-iosched.c). Fixed point: 256 is 1.
module ThinkTime {
  import opened Arith

  // ttime_samples, ttime_total and ttime_mean of a process.
  datatype Averages = Averages(samples: nat, total: nat, mean: nat)

  // new_ttime_total, new_ttime_mean and exit_prob of the queue.
  datatype Newcomers = Newcomers(total: nat, mean: nat, exitProb: nat)

  function Samples(n: nat): (s: nat)
    ensures s > 0
  {
    (7 * n + 256) / 8
  }

  function Total(t: nat, ttime: nat): nat { (7 * t + 256 * ttime) / 8 }

  function Mean(t: nat, s: nat): nat
    requires s > 0
  {
    (t + 128) / s
  }

  function Update(a: Averages, ttime: nat): Averages {
    var s, t := Samples(a.samples), Total(a.total, ttime);
    Averages(s, t, Mean(t, s))
  }

  function UpdateNew(n: Newcomers, a: Averages, ttime: nat): Newcomers {
    if a.samples == 0 then
      var t := Total(n.total, ttime);
      Newcomers(t, t / 256, 7 * n.exitProb / 8)
    else n
  }

  function Run(a: Averages, times: seq<nat>): Averages {
    if times == [] then a else Update(Run(a, times[..|times| - 1]), times[|times| - 1])
  }

  const NEW := Averages(0, 0, 0)

  // ------------------------------------------------------- bounds over every run

  // With all times from lo to hi: the weight and the total stay in step.
  ghost predicate InStep(a: Averages, lo: nat, hi: nat) {
    && (a.samples == 0 || 32 <= a.samples <= 249)
    && lo * a.samples - 7 <= a.total <= hi * (a.samples + 7)
  }

  lemma WeightStep(n: nat)
    requires n == 0 || 32 <= n <= 249
    ensures 32 <= Samples(n) <= 249 && n <= Samples(n) && 7 * n + 249 <= 8 * Samples(n) <= 7 * n + 256
  {
  }

  // The step on the bounds, with a and b for the products.
  lemma Below(t: nat, x: nat, a: nat, b: nat, hi: nat)
    requires t <= a && x <= hi && 7 * a + 256 * hi <= 8 * b
    ensures Total(t, x) <= b
  {
  }

  lemma Above(t: nat, x: nat, a: int, b: int, lo: nat)
    requires a - 7 <= t && lo <= x && 8 * b <= 7 * a + 256 * lo
    ensures b - 7 <= Total(t, x)
  {
  }

  lemma UpperWeights(hi: nat, n: nat, s: nat)
    requires 7 * n + 249 <= 8 * s
    ensures 7 * (hi * (n + 7)) + 256 * hi <= 8 * (hi * (s + 7))
  {
    MulMonotone(hi, 7 * n + 305, 8 * s + 56);
    Times(hi, 7, n + 7, 256);
    Times(hi, 8, s + 7, 0);
  }

  lemma LowerWeights(lo: nat, n: nat, s: nat)
    requires 8 * s <= 7 * n + 256
    ensures 8 * (lo * s) <= 7 * (lo * n) + 256 * lo
  {
    MulMonotone(lo, 8 * s, 7 * n + 256);
    Times(lo, 7, n, 256);
    Times(lo, 8, s, 0);
  }

  lemma Times(k: nat, a: nat, n: nat, c: nat)
    ensures k * (a * n + c) == a * (k * n) + c * k
  {
  }

  lemma UpdateKeeps(a: Averages, ttime: nat, lo: nat, hi: nat)
    requires InStep(a, lo, hi) && lo <= ttime <= hi
    ensures InStep(Update(a, ttime), lo, hi) && a.samples <= Update(a, ttime).samples && 32 <= Update(a, ttime).samples
  {
    hide Samples, Total, Mean;
    WeightStep(a.samples);
    var s := Samples(a.samples);
    UpperWeights(hi, a.samples, s);
    Below(a.total, ttime, hi * (a.samples + 7), hi * (s + 7), hi);
    LowerWeights(lo, a.samples, s);
    Above(a.total, ttime, lo * a.samples, lo * s, lo);
  }

  lemma {:induction false} RunKeeps(times: seq<nat>, lo: nat, hi: nat)
    requires forall i :: 0 <= i < |times| ==> lo <= times[i] <= hi
    ensures InStep(Run(NEW, times), lo, hi)
    ensures times != [] ==> 32 <= Run(NEW, times).samples
  {
    hide Update, InStep;
    if times != [] {
      var n := |times| - 1;
      RunKeeps(times[..n], lo, hi);
      UpdateKeeps(Run(NEW, times[..n]), times[n], lo, hi);
    } else {
      Fresh(lo, hi);
    }
  }

  lemma Fresh(lo: nat, hi: nat)
    ensures InStep(NEW, lo, hi)
  {
    MulMonotone(hi, 0, 7);
  }

  // The weight never decreases, and no division is by zero.
  lemma WeightGrows(times: seq<nat>, ttime: nat)
    ensures Run(NEW, times).samples <= Run(NEW, times + [ttime]).samples <= 249
    ensures Run(NEW, times + [ttime]).samples >= 32
  {
    hide Update, Samples;
    var hi := Largest(times + [ttime]);
    RunKeeps(times, 0, hi);
    assert (times + [ttime])[..|times|] == times;
    assert (times + [ttime])[|times|] == ttime;
    UpdateKeeps(Run(NEW, times), ttime, 0, hi);
  }

  function Largest(times: seq<nat>): (m: nat)
    ensures forall i :: 0 <= i < |times| ==> times[i] <= m
  {
    if times == [] then 0
    else var m := Largest(times[..|times| - 1]); if m < times[|times| - 1] then times[|times| - 1] else m
  }

  // However long the run, the mean is not below the least time seen, and above the greatest by
  // no more than the rounding of the total.
  lemma MeanBounds(times: seq<nat>, lo: nat, hi: nat)
    requires times != [] && forall i :: 0 <= i < |times| ==> lo <= times[i] <= hi
    ensures var a := Run(NEW, times);
            32 <= a.samples <= 249 && a.total <= hi * (a.samples + 7) && lo <= a.mean <= hi + (7 * hi + 128) / a.samples
  {
    hide Update, Mean, Samples, Total;
    RunKeeps(times, lo, hi);
    var a := Run(NEW, times);
    MeanIs(times);
    hide Run, InStep;
    MeanAtMost(a.total, a.samples, hi);
    MeanAtLeast(a.total, a.samples, lo);
  }

  lemma MeanIs(times: seq<nat>)
    requires times != []
    ensures Run(NEW, times).samples > 0
    ensures Run(NEW, times).mean == Mean(Run(NEW, times).total, Run(NEW, times).samples)
  {
    hide Mean, Samples, Total;
  }

  lemma Cancel(s: nat, a: nat, b: nat)
    requires s * a < s * b
    ensures a < b
  {
    if b <= a { MulMonotone(s, b, a); }
  }

  lemma MeanAtMost(t: nat, s: nat, hi: nat)
    requires s > 0 && t <= hi * (s + 7)
    ensures Mean(t, s) <= hi + (7 * hi + 128) / s
  {
    var q, d := (t + 128) / s, (7 * hi + 128) / s;
    assert t + 128 == s * q + (t + 128) % s && 7 * hi + 128 == s * d + (7 * hi + 128) % s;
    assert s * (hi + d + 1) == hi * s + s * d + s && hi * (s + 7) == hi * s + 7 * hi;
    Cancel(s, q, hi + d + 1);
  }

  lemma MeanAtLeast(t: nat, s: nat, lo: nat)
    requires s > 0 && lo * s - 7 <= t
    ensures lo <= Mean(t, s)
  {
    var q := (t + 128) / s;
    assert t + 128 == s * q + (t + 128) % s;
    assert s * (q + 1) == s * q + s && s * lo == lo * s;
    Cancel(s, lo, q + 1);
  }

  // No intermediate value of an update exceeds 2048 times the greatest time.
  lemma Fits(times: seq<nat>, ttime: nat, hi: nat)
    requires ttime <= hi && forall i :: 0 <= i < |times| ==> times[i] <= hi
    ensures 7 * Run(NEW, times).total + 256 * ttime <= 2048 * hi
  {
    RunKeeps(times, 0, hi);
    var a := Run(NEW, times);
    MulMonotone(hi, a.samples + 7, 256);
  }

  // The averages for new processes stay within the greatest time, and exit_prob within 1.
  lemma NewcomersBound(n: Newcomers, a: Averages, ttime: nat, hi: nat)
    requires n.total <= 256 * hi && n.mean <= hi && n.exitProb <= 256 && ttime <= hi
    ensures var u := UpdateNew(n, a, ttime);
            u.total <= 256 * hi && u.mean <= hi && u.exitProb <= n.exitProb
  {
  }

  // Only the first sample of a process moves them, by the same decay; each quotient is rounded down.
  lemma NewcomersDecay(n: Newcomers, a: Averages, ttime: nat)
    ensures var u := UpdateNew(n, a, ttime);
            if a.samples > 0 then u == n
            else 8 * u.total <= 7 * n.total + 256 * ttime < 8 * u.total + 8
                 && 256 * u.mean <= u.total < 256 * u.mean + 256
                 && 8 * u.exitProb <= 7 * n.exitProb < 8 * u.exitProb + 8
  {
  }

  // ------------------------------------------------------- the average without rounding

  // Each sample counts 256 / 8 when it arrives and 7 / 8 as much with every further one.
  ghost function Decayed(times: seq<nat>): real {
    if times == [] then 0.0
    else (7.0 * Decayed(times[..|times| - 1]) + 256.0 * (times[|times| - 1] as real)) / 8.0
  }

  // The weight is the same average of ones.
  function Ones(n: nat): seq<nat> { seq(n, _ => 1) }

  lemma Rounded(t: nat, x: nat)
    ensures 8 * Total(t, x) <= 7 * t + 256 * x <= 8 * Total(t, x) + 7 && Samples(t) == Total(t, 1)
  {
  }

  lemma DecayStep(t: nat, x: nat, u: nat, d: real)
    requires 8 * u <= 7 * t + 256 * x <= 8 * u + 7 && d - 7.0 <= t as real <= d
    ensures var e := (7.0 * d + 256.0 * (x as real)) / 8.0; e - 7.0 <= u as real <= e
  {
  }

  // However long the run, rounding costs the total and the weight less than 8 of 256 parts, and
  // the mean is their quotient to the nearest but for a half of the weight.
  lemma {:induction false} TotalIsDecayed(times: seq<nat>)
    ensures var a := Run(NEW, times);
            && Decayed(times) - 7.0 <= a.total as real <= Decayed(times)
            && Decayed(Ones(|times|)) - 7.0 <= a.samples as real <= Decayed(Ones(|times|))
            && (times != [] ==> a.mean * a.samples <= a.total + 128 < (a.mean + 1) * a.samples)
    decreases |times|
  {
    if times != [] {
      var n := |times| - 1;
      TotalIsDecayed(times[..n]);
      var a := Run(NEW, times[..n]);
      Rounded(a.total, times[n]);
      Rounded(a.samples, 0);
      Rounded(a.samples, 1);
      DecayStep(a.total, times[n], Total(a.total, times[n]), Decayed(times[..n]));
      assert Ones(|times|)[..n] == Ones(n);
      DecayStep(a.samples, 1, Samples(a.samples), Decayed(Ones(n)));
      MeanRounds(Total(a.total, times[n]), Samples(a.samples));
      hide Samples, Total, Mean;
    }
  }

  lemma MeanRounds(t: nat, s: nat)
    requires s > 0
    ensures Mean(t, s) * s <= t + 128 < (Mean(t, s) + 1) * s
  {
    var q := (t + 128) / s;
    assert t + 128 == s * q + (t + 128) % s;
    assert (q + 1) * s == q * s + s;
  }

  // ------------------------------------------------------- the fields as the source updates them

  class AsIoContext {
    var ttimeSamples: nat
    var ttimeTotal: nat
    var ttimeMean: nat

    ghost function Value(): Averages reads this { Averages(ttimeSamples, ttimeTotal, ttimeMean) }

    // alloc_as_io_context
    constructor ()
      ensures Value() == NEW
    {
      ttimeSamples, ttimeTotal, ttimeMean := 0, 0, 0;
    }

    // cfq_update_io_thinktime
    method UpdateIoThinktime(elapsed: nat, sliceIdle: nat)
      modifies this
      ensures Value() == Update(old(Value()), if elapsed < 2 * sliceIdle then elapsed else 2 * sliceIdle)
    {
      var ttime := if elapsed < 2 * sliceIdle then elapsed else 2 * sliceIdle;
      hide Samples, Total, Mean;
      ttimeSamples := Samples(ttimeSamples);
      ttimeTotal := Total(ttimeTotal, ttime);
      ttimeMean := Mean(ttimeTotal, ttimeSamples);
    }
  }

  class AsData {
    var newTtimeTotal: nat
    var newTtimeMean: nat
    var exitProb: nat

    ghost function Value(): Newcomers reads this { Newcomers(newTtimeTotal, newTtimeMean, exitProb) }

    // as_update_thinktime
    method UpdateThinktime(aic: AsIoContext, ttime: nat)
      modifies this, aic
      ensures Value() == UpdateNew(old(Value()), old(aic.Value()), ttime)
      ensures aic.Value() == Update(old(aic.Value()), ttime)
    {
      hide Samples, Total, Mean;
      if aic.ttimeSamples == 0 {
        newTtimeTotal := Total(newTtimeTotal, ttime);
        newTtimeMean := newTtimeTotal / 256;
        exitProb := 7 * exitProb / 8;
      }
      aic.ttimeSamples := Samples(aic.ttimeSamples);
      aic.ttimeTotal := Total(aic.ttimeTotal, ttime);
      aic.ttimeMean := Mean(aic.ttimeTotal, aic.ttimeSamples);
    }

    // The think time of as_update_iohist for a synchronous request: whether it counts, and what.
    method UpdateIohist(aic: AsIoContext, sync: bool, running: bool, started: bool, inFlight: nat, elapsed: nat,
                        maxThink: nat)
      modifies this, aic
      ensures sync && (running || started) ==>
                aic.Value() == Update(old(aic.Value()),
                                      if running && inFlight == 0 then (if elapsed < maxThink then elapsed else maxThink) else 0)
      ensures !(sync && (running || started)) ==> aic.Value() == old(aic.Value()) && Value() == old(Value())
    {
      if sync && (running || started) {
        var thinktime := 0;
        if running && inFlight == 0 { thinktime := if elapsed < maxThink then elapsed else maxThink; }
        UpdateThinktime(aic, thinktime);
      }
    }
  }
}
