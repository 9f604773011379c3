/** The run-long schedules of trainer/trainer.py: the ICLR2018 ramp-up of
    `lambda_` and `m`, and the exponential decay of the learning rate. Rates
    are exact reals rather than floats. */
module Schedule {

  /** The two ramped values: `lambda_` (passed to the EM-routing network) and
      the margin `m` (passed to the loss). */
  datatype Ramp = Ramp(lambda: real, m: real)

  /** Both values as the run starts, before any batch. */
  const Start: Ramp := Ramp(0.001, 0.2)

  /** The increment `2e-1 / steps`, with `steps` the number of training batches
      per epoch. It is only ever applied while a training batch runs, so
      `steps` is then positive; the value for zero is never used. */
  function Delta(steps: nat): (d: real)
    ensures steps > 0 ==> 0.0 < d <= 0.2
    ensures steps == 0 ==> d == 0.0
  {
    if steps == 0 then 0.0 else 0.2 / steps as real
  }

  /** One training batch: each value grows by `delta` while it is still below
      its threshold (1 for `lambda_`, 0.9 for `m`), without clamping. */
  function Advance(r: Ramp, delta: real): (a: Ramp)
    ensures r.lambda >= 1.0 ==> a.lambda == r.lambda
    ensures r.m >= 0.9 ==> a.m == r.m
  {
    Ramp(if r.lambda < 1.0 then r.lambda + delta else r.lambda,
         if r.m < 0.9 then r.m + delta else r.m)
  }

  /** The values after `n` training batches of the run; neither falls below
      its starting value. */
  function RampAfter(n: nat, delta: real): (r: Ramp)
    ensures delta >= 0.0 ==> 0.001 <= r.lambda && 0.2 <= r.m
  {
    if n == 0 then Start else Advance(RampAfter(n - 1, delta), delta)
  }

  /** Both values only grow. */
  lemma {:induction false} RampMonotone(i: nat, j: nat, delta: real)
    requires i <= j && delta >= 0.0
    ensures RampAfter(i, delta).lambda <= RampAfter(j, delta).lambda
    ensures RampAfter(i, delta).m <= RampAfter(j, delta).m
    decreases j
  {
    if i < j {
      RampMonotone(i, j - 1, delta);
    }
  }

  /** Each value can pass its threshold by less than one increment: `lambda_`
      stays in [0.001, 1 + delta) and `m` in [0.2, 0.9 + delta). */
  lemma {:induction false} RampBounded(n: nat, delta: real)
    requires delta > 0.0
    ensures 0.001 <= RampAfter(n, delta).lambda < 1.0 + delta
    ensures 0.2 <= RampAfter(n, delta).m < 0.9 + delta
  {
    if n > 0 {
      RampBounded(n - 1, delta);
    }
  }

  function Min(a: real, b: real): real
  {
    if a <= b then a else b
  }

  /** `base + n * delta`, one `delta` at a time. */
  function Line(base: real, n: nat, delta: real): real
  {
    if n == 0 then base else Line(base, n - 1, delta) + delta
  }

  lemma {:induction false} LineIsLinear(base: real, n: nat, delta: real)
    ensures Line(base, n, delta) == base + n as real * delta
  {
    if n > 0 {
      LineIsLinear(base, n - 1, delta);
      assert n as real * delta == (n - 1) as real * delta + delta;
    }
  }

  /** The increments of one epoch's training batches add up to 0.2: the
      unstopped line of either value rises by exactly 0.2 per epoch. */
  lemma EpochIncrement(base: real, epoch: nat, steps: nat)
    requires steps > 0
    ensures Line(base, (epoch + 1) * steps, Delta(steps)) == Line(base, epoch * steps, Delta(steps)) + 0.2
  {
    var d := Delta(steps);
    LineIsLinear(base, (epoch + 1) * steps, d);
    LineIsLinear(base, epoch * steps, d);
    assert steps as real * d == 0.2;
    assert ((epoch + 1) * steps) as real == (epoch * steps) as real + steps as real;
    assert ((epoch + 1) * steps) as real * d == (epoch * steps) as real * d + steps as real * d;
  }

  /** Each value follows its line from the start until it reaches its
      threshold, and stays at or below the line. */
  lemma {:induction false} RampAlongLines(n: nat, delta: real)
    requires delta >= 0.0
    ensures Min(1.0, Line(0.001, n, delta)) <= RampAfter(n, delta).lambda <= Line(0.001, n, delta)
    ensures Min(0.9, Line(0.2, n, delta)) <= RampAfter(n, delta).m <= Line(0.2, n, delta)
  {
    if n > 0 {
      RampAlongLines(n - 1, delta);
    }
  }

  /** The ramp of `lambda_` is linear until it reaches 1 and flat afterwards:
      after `n` batches it lies between the smaller of 1 and its unstopped line,
      and that line. */
  lemma LambdaProgress(n: nat, delta: real)
    requires delta >= 0.0
    ensures Min(1.0, 0.001 + n as real * delta) <= RampAfter(n, delta).lambda <= 0.001 + n as real * delta
  {
    RampAlongLines(n, delta);
    LineIsLinear(0.001, n, delta);
  }

  /** The same for the margin `m`, which stops once it reaches 0.9. */
  lemma MarginProgress(n: nat, delta: real)
    requires delta >= 0.0
    ensures Min(0.9, 0.2 + n as real * delta) <= RampAfter(n, delta).m <= 0.2 + n as real * delta
  {
    RampAlongLines(n, delta);
    LineIsLinear(0.2, n, delta);
  }

  /** `gamma ^ e`. */
  function Pow(gamma: real, e: nat): (p: real)
    ensures 0.0 < gamma ==> 0.0 < p
  {
    if e == 0 then 1.0 else Pow(gamma, e - 1) * gamma
  }

  /** With a decay factor in (0, 1) the rate strictly shrinks every epoch and
      stays positive. */
  lemma {:induction false} DecayShrinks(gamma: real, e: nat)
    requires 0.0 < gamma < 1.0
    ensures 0.0 < Pow(gamma, e + 1) < Pow(gamma, e) <= 1.0
  {
    if e > 0 {
      DecayShrinks(gamma, e - 1);
    }
  }
}
