/** The per-frame physics of update: one step of one particle, which particles
    of a bucket a step retires, and how many sparks a star's timer emits. */
module Kinematics {
  import opened Numerics
  import opened Recipes
  import opened Seqs

  /** The fields of a particle that update reads and writes. */
  datatype Kin = Kin(x: real, y: real, speedX: real, speedY: real, life: real, sparkTimer: real, sparkFreq: real)

  /** The constants update computes once per frame for one population. */
  datatype Step = Step(timeStep: real, speed: real, drag: real, gAcc: real, emits: bool)

  const GRAVITY: real := 0.9
  /** Star.airDrag; `1 - airDrag` is 0.02 in real arithmetic. */
  const STAR_AIR_DRAG: real := 0.98
  /** Spark.airDrag. */
  const SPARK_AIR_DRAG: real := 0.9

  /** The star constants of update(frameTime, lag). js/script.js and fscreen.js:
      `timeStep = frameTime * simSpeed`, `speed = simSpeed * lag`; script.js
      multiplies the time step by lag as well. Only the first two run the
      sparkTimer loop. */
  function StarStep(v: Variant, frameTime: real, lag: real, simSpeed: real): Step
  {
    var speed := simSpeed * lag;
    var timeStep := if v == RootScript then frameTime * speed else frameTime * simSpeed;
    Step(timeStep, speed, 1.0 - (1.0 - STAR_AIR_DRAG) * speed, (timeStep / 1000.0) * GRAVITY, v != RootScript)
  }

  /** The spark constants: the same time step; drag `1 - (1 - 0.9) * speed` and
      full gravity in js/script.js and fscreen.js, a flat 0.9 and no gravity in
      script.js. */
  function SparkStep(v: Variant, frameTime: real, lag: real, simSpeed: real): Step
  {
    var st := StarStep(v, frameTime, lag, simSpeed);
    if v == RootScript then Step(st.timeStep, st.speed, SPARK_AIR_DRAG, 0.0, false)
    else Step(st.timeStep, st.speed, 1.0 - (1.0 - SPARK_AIR_DRAG) * st.speed, st.gAcc, false)
  }

  /** A particle is retired in the step in which its decremented life is at most 0. */
  predicate Dies(k: Kin, s: Step)
  {
    k.life - s.timeStep <= 0.0
  }

  /** The particle after a step it survives: position advanced by the old
      velocity times speed, velocity dragged, gravity added to speedY, and
      (where the population emits and sparkFreq is set) the timer run through the
      emission loop. */
  function Advance(k: Kin, s: Step): Kin
  {
    Kin(k.x + k.speedX * s.speed, k.y + k.speedY * s.speed,
        k.speedX * s.drag, k.speedY * s.drag + s.gAcc,
        k.life - s.timeStep,
        if s.emits && k.sparkFreq > 0.0 then Emitted(k.sparkTimer - s.timeStep, k.sparkFreq) else k.sparkTimer,
        k.sparkFreq)
  }

  /** The number of passes of `while (sparkTimer < 0) sparkTimer += sparkFreq`
      from a timer t; EmitCountBounds shows it is the least k with
      `t + k * f >= 0`. */
  function EmitCount(t: real, f: real): nat
    requires f > 0.0
    decreases if t < 0.0 then (-t / f).Floor + 1 else 0
  {
    if t >= 0.0 then 0
    else
      DivShift(-t, f);
      assert -(t + f) == -t - f;
      EmitCount(t + f, f) + 1
  }

  /** After EmitCount(t, f) passes the timer is back at zero or above, and one
      pass fewer would not do. */
  lemma {:induction false} EmitCountBounds(t: real, f: real)
    requires f > 0.0
    ensures t + (EmitCount(t, f) as real) * f >= 0.0
    ensures EmitCount(t, f) == 0 || t + ((EmitCount(t, f) - 1) as real) * f < 0.0
    decreases if t < 0.0 then (-t / f).Floor + 1 else 0
  {
    if t < 0.0 {
      DivShift(-t, f);
      assert -(t + f) == -t - f;
      EmitCountBounds(t + f, f);
      var n' := EmitCount(t + f, f);
      assert t + ((n' + 1) as real) * f == (t + f) + (n' as real) * f;
    }
  }

  /** The timer when the emission loop ends. */
  function Emitted(t: real, f: real): real
    requires f > 0.0
    decreases if t < 0.0 then (-t / f).Floor + 1 else 0
  {
    if t >= 0.0 then t
    else
      DivShift(-t, f);
      assert -(t + f) == -t - f;
      Emitted(t + f, f)
  }

  /** The loop adds sparkFreq once per emitted spark, and stops with the timer in
      `[0, sparkFreq)` when it had to run at all. */
  lemma {:induction false} EmittedIsCountedSteps(t: real, f: real)
    requires f > 0.0
    ensures Emitted(t, f) == t + (EmitCount(t, f) as real) * f
    ensures Emitted(t, f) >= 0.0
    ensures t < 0.0 ==> Emitted(t, f) < f
    decreases if t < 0.0 then (-t / f).Floor + 1 else 0
  {
    if t < 0.0 {
      DivShift(-t, f);
      assert -(t + f) == -t - f;
      EmittedIsCountedSteps(t + f, f);
      var n' := EmitCount(t + f, f);
      assert t + ((n' + 1) as real) * f == (t + f) + (n' as real) * f;
    }
  }

  /** One pass of the emission loop: one spark fewer to go, same final timer. */
  lemma EmitPass(t: real, f: real, next: real)
    requires f > 0.0 && t < 0.0 && next == t + f
    ensures EmitCount(next, f) + 1 == EmitCount(t, f) && Emitted(next, f) == Emitted(t, f)
  {
    DivShift(-t, f);
    assert -(t + f) == -t - f;
  }

  /** EmitCount is the least count that brings the timer back to zero or above. */
  lemma {:induction false} EmitCountIsLeast(t: real, f: real, k: nat)
    requires f > 0.0 && t + (k as real) * f >= 0.0
    ensures EmitCount(t, f) <= k
  {
    EmitCountBounds(t, f);
    var n := EmitCount(t, f);
    if n > k {
      assert (k as real) <= ((n - 1) as real);
      MulMonotone(k as real, (n - 1) as real, f);
      assert false;
    }
  }

  /** `n` steps of a particle that never dies: the step function iterated. */
  function Iterate(k: Kin, s: Step, n: nat): Kin
    decreases n
  {
    if n == 0 then k else Iterate(Advance(k, s), s, n - 1)
  }

  function Power(d: real, n: nat): real
  {
    if n == 0 then 1.0 else d * Power(d, n - 1)
  }

  /** `1 + d + ... + d^(n-1)`, the factor gravity accumulates under drag d. */
  function GeomSum(d: real, n: nat): real
  {
    if n == 0 then 0.0 else GeomSum(d, n - 1) + Power(d, n - 1)
  }

  /** Over n survived steps, life drops by n time steps, the horizontal speed
      decays geometrically, and the vertical speed is the decayed initial speed
      plus gravity summed under the same decay. */
  lemma VelocityAfterSteps(k: Kin, s: Step, n: nat)
    ensures Iterate(k, s, n).life == k.life - (n as real) * s.timeStep
    ensures Iterate(k, s, n).speedX == k.speedX * Power(s.drag, n)
    ensures Iterate(k, s, n).speedY == k.speedY * Power(s.drag, n) + s.gAcc * GeomSum(s.drag, n)
  {
    LifeAfterSteps(k, s, n);
    SpeedXAfterSteps(k, s, n);
    SpeedYAfterSteps(k, s, n);
  }

  /** One step drags both speeds, adds gravity to the vertical one and takes a
      time step off the life. */
  lemma StepSpeeds(p: Kin, s: Step)
    ensures Advance(p, s).speedX == p.speedX * s.drag
    ensures Advance(p, s).speedY == p.speedY * s.drag + s.gAcc
    ensures Advance(p, s).life == p.life - s.timeStep
  {
  }

  lemma {:induction false} LifeAfterSteps(k: Kin, s: Step, n: nat)
    ensures Iterate(k, s, n).life == k.life - (n as real) * s.timeStep
    decreases n
  {
    if n > 0 {
      LifeAfterSteps(Advance(k, s), s, n - 1);
      StepSpeeds(k, s);
      assert k.life - s.timeStep - ((n - 1) as real) * s.timeStep == k.life - (n as real) * s.timeStep;
    }
  }

  lemma {:induction false} SpeedXAfterSteps(k: Kin, s: Step, n: nat)
    ensures Iterate(k, s, n).speedX == k.speedX * Power(s.drag, n)
    decreases n
  {
    if n > 0 {
      SpeedXAfterSteps(Advance(k, s), s, n - 1);
      StepSpeeds(k, s);
      MulAssoc(k.speedX, s.drag, Power(s.drag, n - 1));
    }
  }

  lemma {:induction false} SpeedYAfterSteps(k: Kin, s: Step, n: nat)
    ensures Iterate(k, s, n).speedY == k.speedY * Power(s.drag, n) + s.gAcc * GeomSum(s.drag, n)
    decreases n
  {
    if n > 0 {
      SpeedYAfterSteps(Advance(k, s), s, n - 1);
      StepSpeeds(k, s);
      GravityAlgebra(k.speedY, s.drag, s.gAcc, Power(s.drag, n - 1), GeomSum(s.drag, n - 1));
    }
  }

  lemma GravityAlgebra(vy: real, d: real, ga: real, p: real, g: real)
    ensures (vy * d + ga) * p + ga * g == vy * (d * p) + ga * (g + p)
  {
  }

  /** Without drag (speed 0 makes the star drag exactly 1) gravity adds up
      linearly: n steps add n times gAcc to speedY. */
  lemma {:induction false} GravityAccumulates(k: Kin, s: Step, n: nat)
    requires s.drag == 1.0
    ensures Iterate(k, s, n).speedY == k.speedY + (n as real) * s.gAcc
  {
    VelocityAfterSteps(k, s, n);
    OnePowers(n);
    assert s.gAcc * (n as real) == (n as real) * s.gAcc;
  }

  lemma {:induction false} OnePowers(n: nat)
    ensures Power(1.0, n) == 1.0 && GeomSum(1.0, n) == n as real
  {
    if n > 0 {
      OnePowers(n - 1);
    }
  }

  /** The elements of a bucket a step keeps, in bucket order. */
  function Survivors<T>(xs: seq<T>, ks: seq<Kin>, s: Step): seq<T>
    requires |xs| == |ks|
  {
    if xs == [] then []
    else (if Dies(ks[0], s) then [] else [xs[0]]) + Survivors(xs[1..], ks[1..], s)
  }

  /** The elements a step retires, in the order the reverse walk retires them
      (highest index first). */
  function Retired<T>(xs: seq<T>, ks: seq<Kin>, s: Step): seq<T>
    requires |xs| == |ks|
  {
    if xs == [] then []
    else Retired(xs[1..], ks[1..], s) + (if Dies(ks[0], s) then [xs[0]] else [])
  }

  /** Survivors and retired particles partition the bucket. */
  lemma {:induction false} SurvivorsAndRetiredPartition<T>(xs: seq<T>, ks: seq<Kin>, s: Step)
    requires |xs| == |ks|
    ensures multiset(Survivors(xs, ks, s)) + multiset(Retired(xs, ks, s)) == multiset(xs)
  {
    if xs != [] {
      SurvivorsAndRetiredPartition(xs[1..], ks[1..], s);
      assert xs == [xs[0]] + xs[1..];
    }
  }

  /** With distinct elements, a particle is kept exactly when its step does not
      retire it, and retired exactly when it does. */
  lemma {:induction false} RetiredExactlyWhenDies<T>(xs: seq<T>, ks: seq<Kin>, s: Step, j: nat)
    requires |xs| == |ks| && Distinct(xs) && j < |xs|
    ensures xs[j] in Survivors(xs, ks, s) <==> !Dies(ks[j], s)
    ensures xs[j] in Retired(xs, ks, s) <==> Dies(ks[j], s)
  {
    SurvivorsAndRetiredPartition(xs, ks, s);
    if j > 0 {
      RetiredExactlyWhenDies(xs[1..], ks[1..], s, j - 1);
      assert xs[0] != xs[j];
    } else {
      assert xs[0] !in xs[1..] by {
        forall i | 0 <= i < |xs[1..]| ensures xs[1..][i] != xs[0] {
          assert xs[1..][i] == xs[i + 1];
        }
      }
      SubsetOfSurvivors(xs[1..], ks[1..], s);
      SubsetOfRetired(xs[1..], ks[1..], s);
    }
  }

  lemma {:induction false} SubsetOfSurvivors<T>(xs: seq<T>, ks: seq<Kin>, s: Step)
    requires |xs| == |ks|
    ensures forall x :: x in Survivors(xs, ks, s) ==> x in xs
  {
    if xs != [] {
      SubsetOfSurvivors(xs[1..], ks[1..], s);
    }
  }

  lemma {:induction false} SubsetOfRetired<T>(xs: seq<T>, ks: seq<Kin>, s: Step)
    requires |xs| == |ks|
    ensures forall x :: x in Retired(xs, ks, s) ==> x in xs
  {
    if xs != [] {
      SubsetOfRetired(xs[1..], ks[1..], s);
    }
  }
}
