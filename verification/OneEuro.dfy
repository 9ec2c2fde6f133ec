/** A smoothing filter whose cutoff grows with the speed of the signal, over exact
    reals. `pi` is a parameter: only that it is positive matters. */
module OneEuro {
  import opened Collections

  datatype Params = Params(minCutoff: real, beta: real, dCutoff: real, pi: real)

  predicate ValidParams(p: Params) {
    p.minCutoff > 0.0 && p.beta >= 0.0 && p.dCutoff > 0.0 && p.pi > 0.0
  }

  datatype Memory = Memory(x: real, dx: real, t: real)

  datatype State = State(params: Params, memory: Option<Memory>)

  function Abs(x: real): (r: real)
    ensures r >= 0.0
  {
    if x < 0.0 then -x else x
  }

  lemma {:induction false} PositiveProduct(a: real, b: real)
    requires a > 0.0 && b > 0.0
    ensures a * b > 0.0
  {
  }

  lemma {:induction false} PositiveQuotient(a: real, b: real)
    requires a > 0.0 && b > 0.0
    ensures a / b > 0.0
  {
    if a / b <= 0.0 {
      assert (a / b) * b == a;
    }
  }

  lemma {:induction false} BelowOne(a: real)
    requires a > 1.0
    ensures 0.0 < 1.0 / a < 1.0
  {
    PositiveQuotient(1.0, a);
    if 1.0 / a >= 1.0 {
      assert (1.0 / a) * a == 1.0;
    }
  }

  /** The weight of a new sample, always strictly between 0 and 1. */
  function Alpha(pi: real, cutoff: real, dt: real): (r: real)
    requires pi > 0.0 && cutoff > 0.0 && dt > 0.0
    ensures 0.0 < r < 1.0
  {
    PositiveProduct(2.0 * pi, cutoff);
    PositiveQuotient(1.0, 2.0 * pi * cutoff);
    var tau := 1.0 / (2.0 * pi * cutoff);
    PositiveQuotient(tau, dt);
    BelowOne(1.0 + tau / dt);
    1.0 / (1.0 + tau / dt)
  }

  function Smooth(alpha: real, x: real, previous: real): real {
    alpha * x + (1.0 - alpha) * previous
  }

  lemma {:induction false} SharesAddUp(alpha: real, beta: real, d: real)
    requires alpha + beta == 1.0
    ensures alpha * d + beta * d == d
  {
    assert alpha * d + beta * d == (alpha + beta) * d;
  }

  lemma {:induction false} Share(alpha: real, d: real) returns (share: real)
    requires 0.0 < alpha < 1.0 && d > 0.0
    ensures share == alpha * d && 0.0 < share < d
  {
    var beta := 1.0 - alpha;
    share := alpha * d;
    var left := beta * d;
    PositiveProduct(alpha, d);
    PositiveProduct(beta, d);
    SharesAddUp(alpha, beta, d);
    assert left > 0.0 && share + left == d;
  }

  lemma {:induction false} SmoothAsShare(alpha: real, previous: real, d: real)
    ensures Smooth(alpha, previous + d, previous) == previous + alpha * d
  {
    assert alpha * (previous + d) == alpha * previous + alpha * d;
    assert alpha * previous + (1.0 - alpha) * previous == previous;
  }

  lemma {:induction false} SmoothAsRest(alpha: real, rest: real, x: real, d: real)
    requires rest == 1.0 - alpha
    ensures Smooth(alpha, x, x + d) == x + rest * d
  {
    assert rest * (x + d) == rest * x + rest * d;
    assert alpha * x + rest * x == x;
  }

  /** How far the mean is from the old value, or from the new one. */
  lemma {:induction false} SmoothUp(alpha: real, previous: real, d: real) returns (share: real)
    requires 0.0 < alpha < 1.0 && d > 0.0
    ensures 0.0 < share < d && Smooth(alpha, previous + d, previous) == previous + share
  {
    share := Share(alpha, d);
    SmoothAsShare(alpha, previous, d);
  }

  lemma {:induction false} SmoothDown(alpha: real, x: real, d: real) returns (share: real)
    requires 0.0 < alpha < 1.0 && d > 0.0
    ensures 0.0 < share < d && Smooth(alpha, x, x + d) == x + share
  {
    var rest := 1.0 - alpha;
    share := Share(rest, d);
    SmoothAsRest(alpha, rest, x, d);
  }

  lemma {:induction false} SmoothSame(alpha: real, x: real)
    ensures Smooth(alpha, x, x) == x
  {
  }

  /** The weighted mean of two values lies between them, strictly if they differ. */
  lemma {:induction false} SmoothBetween(alpha: real, x: real, previous: real)
    requires 0.0 < alpha < 1.0
    ensures var r := Smooth(alpha, x, previous);
            if previous < x then previous < r < x else if x < previous then x < r < previous else r == x
  {
    if previous < x {
      var share := SmoothUp(alpha, previous, x - previous);
    } else if x < previous {
      var share := SmoothDown(alpha, x, previous - x);
    } else {
      SmoothSame(alpha, x);
    }
  }

  /** The faster the signal, the higher the cutoff. */
  function Cutoff(p: Params, speed: real): (r: real)
    requires ValidParams(p)
    ensures r > 0.0
  {
    if p.beta > 0.0 && Abs(speed) > 0.0 then
      PositiveProduct(p.beta, Abs(speed));
      p.minCutoff + p.beta * Abs(speed)
    else
      p.minCutoff + p.beta * Abs(speed)
  }

  /** The smoothed rate of change. */
  function Speed(p: Params, m: Memory, x: real, dt: real): real
    requires ValidParams(p) && dt > 0.0
  {
    Smooth(Alpha(p.pi, p.dCutoff, dt), (x - m.x) / dt, m.dx)
  }

  datatype Result = Result(state: State, output: real)

  function NextOutput(p: Params, m: Memory, x: real, t: real): (r: Memory)
    requires ValidParams(p) && t > m.t
    ensures r.t == t
    ensures m.x < x ==> m.x < r.x < x
    ensures x < m.x ==> x < r.x < m.x
    ensures x == m.x ==> r.x == x
  {
    var dt := t - m.t;
    var dxHat := Speed(p, m, x, dt);
    var alpha := Alpha(p.pi, Cutoff(p, dxHat), dt);
    SmoothBetween(alpha, x, m.x);
    Memory(Smooth(alpha, x, m.x), dxHat, t)
  }

  /** One sample: the first is returned as it is, one that does not come later than
      the last is ignored. */
  function Step(s: State, x: real, t: real): Result
    requires ValidParams(s.params)
  {
    if s.memory.None? then Result(s.(memory := Some(Memory(x, 0.0, t))), x)
    else
      var m := s.memory.value;
      if t - m.t <= 0.0 then Result(s, m.x)
      else
        var next := NextOutput(s.params, m, x, t);
        Result(s.(memory := Some(next)), next.x)
  }

  datatype Sample = Sample(x: real, t: real)

  /** The states before each sample and after the last. */
  function StateAfter(p: Params, samples: seq<Sample>, n: nat): (s: State)
    requires ValidParams(p) && n <= |samples|
    ensures s.params == p
  {
    if n == 0 then State(p, None)
    else Step(StateAfter(p, samples, n - 1), samples[n - 1].x, samples[n - 1].t).state
  }

  function OutputAt(p: Params, samples: seq<Sample>, n: nat): real
    requires ValidParams(p) && n < |samples|
  {
    Step(StateAfter(p, samples, n), samples[n].x, samples[n].t).output
  }

  /** What the filter remembers is its last output. */
  lemma {:induction false} MemoryIsOutput(p: Params, samples: seq<Sample>, n: nat)
    requires ValidParams(p) && n < |samples|
    ensures StateAfter(p, samples, n + 1).memory.Some?
    ensures StateAfter(p, samples, n + 1).memory.value.x == OutputAt(p, samples, n)
  {
  }

  /** Every output lies between any two bounds on the samples so far, so between the
      least and the greatest of them. Times may repeat or run backwards. */
  lemma {:induction false} OutputsStayInHull(p: Params, samples: seq<Sample>, n: nat, low: real, high: real)
    requires ValidParams(p) && n < |samples|
    requires forall i :: 0 <= i <= n ==> low <= samples[i].x <= high
    ensures low <= OutputAt(p, samples, n) <= high
  {
    if n == 0 {
    } else {
      OutputsStayInHull(p, samples, n - 1, low, high);
      MemoryIsOutput(p, samples, n - 1);
    }
  }

  /** Each later sample moves the output strictly towards it, and no further. */
  lemma {:induction false} OutputApproachesSample(p: Params, samples: seq<Sample>, n: nat)
    requires ValidParams(p) && 0 < n < |samples|
    requires samples[n].t > StateAfter(p, samples, n).memory.value.t
    requires StateAfter(p, samples, n).memory.Some?
    ensures var before, after, x := OutputAt(p, samples, n - 1), OutputAt(p, samples, n), samples[n].x;
            && (before < x ==> before < after < x)
            && (x < before ==> x < after < before)
            && (x == before ==> after == before)
  {
    MemoryIsOutput(p, samples, n - 1);
  }

  // ------------------------------------------------- what is computed

  /** `a` is the cutoff, as an angular frequency, times the time passed. */
  lemma {:induction false} AlphaSolves(pi: real, cutoff: real, dt: real)
    requires pi > 0.0 && cutoff > 0.0 && dt > 0.0
    ensures var a := 2.0 * pi * cutoff * dt; Alpha(pi, cutoff, dt) * (a + 1.0) == a
  {
    PositiveProduct(2.0 * pi, cutoff);
    var w := 2.0 * pi * cutoff;
    PositiveQuotient(1.0, w);
    PositiveQuotient(1.0 / w, dt);
    var q := 1.0 / w / dt;
    Cancels(w, dt, q);
    var alpha := Alpha(pi, cutoff, dt);
    assert alpha * (1.0 + q) == 1.0;
    Rescale(alpha, w * dt, q);
  }

  lemma {:induction false} Cancels(w: real, dt: real, q: real)
    requires w > 0.0 && dt > 0.0 && q == 1.0 / w / dt
    ensures (w * dt) * q == 1.0
  {
    assert q * dt == 1.0 / w;
    assert (w * dt) * q == w * (q * dt);
  }

  lemma {:induction false} Rescale(alpha: real, a: real, q: real)
    requires alpha * (1.0 + q) == 1.0 && a * q == 1.0
    ensures alpha * (a + 1.0) == a
  {
    assert alpha * (a + 1.0) == alpha * (a + a * q);
    assert alpha * (a + a * q) == a * (alpha * (1.0 + q));
  }

  /** One step of a first-order low-pass filter: the value moves from `previous` to `r`
      by the difference to `x` that remains, times the cutoff and the time passed. */
  predicate LowPass(pi: real, cutoff: real, dt: real, previous: real, x: real, r: real) {
    r - previous == 2.0 * pi * cutoff * dt * (x - r)
  }

  /** Smoothing is such a step. */
  lemma {:induction false} SmoothSolves(pi: real, cutoff: real, dt: real, x: real, previous: real)
    requires pi > 0.0 && cutoff > 0.0 && dt > 0.0
    ensures LowPass(pi, cutoff, dt, previous, x, Smooth(Alpha(pi, cutoff, dt), x, previous))
  {
    var alpha, a, d := Alpha(pi, cutoff, dt), 2.0 * pi * cutoff * dt, x - previous;
    AlphaSolves(pi, cutoff, dt);
    SmoothAsShare(alpha, previous, d);
    var r := Smooth(alpha, x, previous);
    assert r == previous + alpha * d;
    Remaining(alpha, a, d);
    assert x - r == d - alpha * d;
  }

  lemma {:induction false} Remaining(alpha: real, a: real, d: real)
    requires alpha * (a + 1.0) == a
    ensures alpha * d == a * (d - alpha * d)
  {
    assert alpha * (a + 1.0) == a * alpha + alpha;
    assert a * (d - alpha * d) == (a - a * alpha) * d;
  }

  lemma {:induction false} SpeedSolves(p: Params, m: Memory, x: real, dt: real, slope: real)
    requires ValidParams(p) && dt > 0.0 && slope * dt == x - m.x
    ensures LowPass(p.pi, p.dCutoff, dt, m.dx, slope, Speed(p, m, x, dt))
  {
    assert slope == (x - m.x) / dt;
    SmoothSolves(p.pi, p.dCutoff, dt, slope, m.dx);
  }

  lemma {:induction false} ValueSolves(p: Params, m: Memory, x: real, dt: real, speed: real)
    requires ValidParams(p) && dt > 0.0
    ensures LowPass(p.pi, p.minCutoff + p.beta * Abs(speed), dt, m.x, x,
                    Smooth(Alpha(p.pi, Cutoff(p, speed), dt), x, m.x))
  {
    SmoothSolves(p.pi, Cutoff(p, speed), dt, x, m.x);
  }

  /** A sample later than the last one: the speed is smoothed at its own cutoff from the
      slope of the signal, the cutoff for the value is the least one plus a share of the
      speed, and the output is smoothed at that. */
  lemma {:induction false} FilterSolves(p: Params, m: Memory, x: real, t: real, slope: real)
    requires ValidParams(p) && t > m.t && slope * (t - m.t) == x - m.x
    ensures Step(State(p, Some(m)), x, t) == Result(State(p, Some(NextOutput(p, m, x, t))), NextOutput(p, m, x, t).x)
    ensures var dt, r := t - m.t, NextOutput(p, m, x, t);
            && LowPass(p.pi, p.dCutoff, dt, m.dx, slope, r.dx)
            && LowPass(p.pi, p.minCutoff + p.beta * Abs(r.dx), dt, m.x, x, r.x)
  {
    SpeedSolves(p, m, x, t - m.t, slope);
    ValueSolves(p, m, x, t - m.t, Speed(p, m, x, t - m.t));
  }

  lemma {:induction false} AbsIsSize(x: real)
    ensures Abs(x) == Abs(-x) && (x >= 0.0 ==> Abs(x) == x)
  {
  }

  /** The first sample is returned as it is, at speed zero; one that is not later than
      the last changes nothing and gets the last output again. */
  lemma {:induction false} OtherSamples(p: Params, m: Memory, x: real, t: real)
    requires ValidParams(p)
    ensures Step(State(p, None), x, t) == Result(State(p, Some(Memory(x, 0.0, t))), x)
    ensures t <= m.t ==> Step(State(p, Some(m)), x, t) == Result(State(p, Some(m)), m.x)
  {
  }

  // ---------------------------------------------------------- the class

  class OneEuroFilter {
    const params: Params
    var xPrev: Option<real>
    var dxPrev: real
    var tPrev: Option<real>

    ghost predicate Valid()
      reads this
    {
      ValidParams(params) && (xPrev.None? <==> tPrev.None?)
    }

    ghost function Contents(): State
      requires Valid()
      reads this
    {
      State(params, if xPrev.None? then None else Some(Memory(xPrev.value, dxPrev, tPrev.value)))
    }

    constructor (params: Params)
      requires ValidParams(params)
      ensures Valid() && Contents() == State(params, None) && dxPrev == 0.0
    {
      this.params := params;
      xPrev, dxPrev, tPrev := None, 0.0, None;
    }

    method Filter(x: real, t: real) returns (output: real)
      requires Valid() && (xPrev.None? ==> dxPrev == 0.0)
      modifies this
      ensures Valid() && xPrev.Some? && Result(Contents(), output) == Step(old(Contents()), x, t)
    {
      if xPrev.None? {
        xPrev := Some(x);
        tPrev := Some(t);
        return x;
      }
      var dt := t - tPrev.value;
      if dt <= 0.0 {
        return xPrev.value;
      }
      var dx := (x - xPrev.value) / dt;
      var alphaD := Alpha(params.pi, params.dCutoff, dt);
      var dxHat := Smooth(alphaD, dx, dxPrev);
      var alpha := Alpha(params.pi, Cutoff(params, dxHat), dt);
      var xHat := Smooth(alpha, x, xPrev.value);
      assert dxHat == Speed(params, Memory(xPrev.value, dxPrev, tPrev.value), x, dt);
      xPrev := Some(xHat);
      dxPrev := dxHat;
      tPrev := Some(t);
      output := xHat;
    }
  }
}
