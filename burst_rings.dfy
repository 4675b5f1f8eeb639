/** createBurst: the ring decomposition that turns a star count into the
    (angle, ring size) pairs handed to a particle factory. The model returns the
    calls a run would make, ring by ring and in call order; the shell then feeds
    each of them to its star factory. */
module BurstRings {
  import opened Numerics

  /** One pass of the outer loop: the ring size every factory call of that ring
      receives, the ring's random phase (`angleOffset`), the call angles, and for
      each call the tape position of the first Math.random() the factory makes. */
  datatype Ring = Ring(size: real, phase: real, angles: seq<real>, draws: seq<nat>)

  /** One `particleFactory(angle, ringSize)` call; the factory's own draws start
      at `drawPos` on the tape. */
  datatype FactoryCall = FactoryCall(angle: real, ringSize: real, drawPos: nat)

  /** `C = 2 * R * PI` with `R = 0.5 * Math.sqrt(count / PI)`. */
  function Circumference(m: MathLib, count: real): real
  {
    2.0 * (0.5 * m.sqrt(count / PI)) * PI
  }

  /** `ringSize = Math.cos((i / C_HALF) * PI_HALF)`. When C_HALF is 0 the source
      computes cos(NaN); the ring then holds no calls, and 0 stands for the size. */
  function RingSize(m: MathLib, cHalf: real, i: nat): real
  {
    if cHalf != 0.0 then m.cos(RingAngle(cHalf, i)) else 0.0
  }

  function RingAngle(cHalf: real, i: nat): real
    requires cHalf != 0.0
  {
    ((i as real) / cHalf) * PI_HALF
  }

  /** `angleInc = PI_2 / partsPerFullRing`; a ring of size 0 makes no calls, so
      its (infinite) increment is never used and 0 stands for it. */
  function AngleInc(c: real, size: real): real
  {
    if c * size != 0.0 then PI_2 / (c * size) else 0.0
  }

  /** `partsPerArc = C * ringSize * (arcLength / PI_2)`. */
  function PartsPerArc(c: real, size: real, arcLength: real): real
  {
    c * size * (arcLength / PI_2)
  }

  /** What one ring of a run of createBurst looks like: its index fixes its size
      and its number of calls; with a positive increment, the phase lies in
      `[startAngle, startAngle + angleInc)` and call t lies in its slot
      `[angleInc * t + phase, angleInc * t + phase + 0.33 * angleInc)`. */
  ghost predicate RingOk(m: MathLib, c: real, i: nat, startAngle: real, arcLength: real, ring: Ring)
  {
    var inc := AngleInc(c, ring.size);
    ring.size == RingSize(m, c / 2.0, i) &&
    |ring.angles| == LoopCount(PartsPerArc(c, ring.size, arcLength)) &&
    |ring.draws| == |ring.angles| &&
    (inc > 0.0 ==>
      startAngle <= ring.phase < startAngle + inc &&
      AllInSlot(ring.angles, ring.phase, inc))
  }

  /** How one ring comes off the tape when its first draw is at `p`: the phase
      is that draw scaled to the increment and shifted by `startAngle`, and
      then call t's jitter is drawn right after the t calls before it, each
      followed by the factory's `fd` draws. */
  ghost predicate RingDrawn(c: real, startAngle: real, ring: Ring, tape: nat -> Unit, p: nat, fd: nat)
  {
    var inc := AngleInc(c, ring.size);
    ring.phase == tape(p) * inc + startAngle &&
    ring.angles == CallAngles(inc, ring.phase, Random(tape, p + 1), fd, |ring.angles|) &&
    ring.draws == CallDraws(p + 1, fd, |ring.angles|)
  }

  /** A run read off the tape from `p` on: each ring's first draw comes right
      after the draws of the rings before it. */
  ghost predicate RunDrawn(c: real, startAngle: real, rings: seq<Ring>, tape: nat -> Unit, p: nat, fd: nat)
  {
    rings == [] ||
    (var init := rings[..|rings| - 1];
     RunDrawn(c, startAngle, init, tape, p, fd) &&
     RingDrawn(c, startAngle, rings[|rings| - 1], tape, p + Draws(init, fd), fd))
  }

  /** Ring i of a run read off the tape starts right after the rings before it. */
  lemma {:induction false} RunDrawnAt(c: real, startAngle: real, rings: seq<Ring>, tape: nat -> Unit, p: nat, fd: nat, i: nat)
    requires RunDrawn(c, startAngle, rings, tape, p, fd) && i < |rings|
    ensures RingDrawn(c, startAngle, rings[i], tape, p + Draws(rings[..i], fd), fd)
    decreases |rings|
  {
    var init := rings[..|rings| - 1];
    if i < |rings| - 1 {
      RunDrawnAt(c, startAngle, init, tape, p, fd, i);
      assert init[i] == rings[i] && init[..i] == rings[..i];
    } else {
      assert rings[..i] == init;
    }
  }

  /** Every angle of the list lies in the slot of its index. */
  ghost predicate AllInSlot(angles: seq<real>, phase: real, inc: real)
  {
    angles == [] ||
    (AllInSlot(angles[..|angles| - 1], phase, inc) && InSlot(angles[|angles| - 1], |angles| - 1, phase, inc))
  }

  lemma {:induction false} AllInSlotAt(angles: seq<real>, phase: real, inc: real, t: nat)
    requires AllInSlot(angles, phase, inc) && t < |angles|
    ensures InSlot(angles[t], t, phase, inc)
    decreases |angles|
  {
    if t < |angles| - 1 {
      var init := angles[..|angles| - 1];
      AllInSlotAt(init, phase, inc, t);
      assert init[t] == angles[t];
    }
  }

  ghost predicate InSlot(angle: real, t: nat, phase: real, inc: real)
  {
    inc * (t as real) + phase <= angle < inc * (t as real) + phase + inc * 0.33
  }

  /** Math.random() draws a run consumes when each factory call draws `fd`
      times: one phase per ring, and per call one jitter and the factory's draws. */
  function Draws(rings: seq<Ring>, fd: nat): nat
  {
    if rings == [] then 0 else Draws(rings[..|rings| - 1], fd) + RingDraws(rings[|rings| - 1], fd)
  }

  /** The draws of the first n rings of a run of circumference c over an arc,
      known before the run: each ring's call count is fixed by its index. */
  function RunDraws(m: MathLib, c: real, arcLength: real, n: nat, fd: nat): nat
  {
    if n == 0 then 0
    else RunDraws(m, c, arcLength, n - 1, fd) + 1 + Span(LoopCount(PartsPerArc(c, RingSize(m, c / 2.0, n - 1), arcLength)), fd)
  }

  /** The draws of a whole createBurst(count, factory, startAngle, arcLength)
      call whose factory draws `fd` times per call. */
  function BurstDraws(m: MathLib, count: real, arcLength: real, fd: nat): nat
  {
    var c := Circumference(m, count);
    RunDraws(m, c, arcLength, InclusiveLoopCount(c / 2.0), fd)
  }

  /** A run's draws depend only on the ring indices, not on the draws themselves. */
  lemma {:induction false} RunDrawsFixed(m: MathLib, c: real, startAngle: real, arcLength: real, rings: seq<Ring>, fd: nat)
    requires RunOk(m, c, startAngle, arcLength, rings)
    ensures Draws(rings, fd) == RunDraws(m, c, arcLength, |rings|, fd)
    decreases |rings|
  {
    if rings != [] {
      var init := rings[..|rings| - 1];
      assert RunOk(m, c, startAngle, arcLength, init) by {
        forall i | 0 <= i < |init| ensures RingOk(m, c, i, startAngle, arcLength, init[i]) {
          assert init[i] == rings[i];
        }
      }
      RunDrawsFixed(m, c, startAngle, arcLength, init, fd);
      assert RingOk(m, c, |rings| - 1, startAngle, arcLength, rings[|rings| - 1]);
    }
  }

  /** A complete run of createBurst takes BurstDraws of its count and arc. */
  lemma BurstDrawsOf(m: MathLib, count: real, startAngle: real, arcLength: real, rings: seq<Ring>, fd: nat)
    requires RunOk(m, Circumference(m, count), startAngle, arcLength, rings)
    requires |rings| == InclusiveLoopCount(Circumference(m, count) / 2.0)
    ensures Draws(rings, fd) == BurstDraws(m, count, arcLength, fd)
  {
    RunDrawsFixed(m, Circumference(m, count), startAngle, arcLength, rings, fd);
  }

  /** The draws of one ring: its phase, then per call a jitter and `fd`. */
  function RingDraws(ring: Ring, fd: nat): nat
  {
    1 + Span(|ring.angles|, fd)
  }

  /** The draws of n factory calls: per call a jitter and `fd`. */
  function Span(n: nat, fd: nat): (d: nat)
    ensures d >= n
  {
    if n == 0 then 0 else Span(n - 1, fd) + 1 + fd
  }

  /** `angle = angleInc * i + angleOffset + randomAngleOffset`, the jitter being
      the draw `u` scaled to a third of the increment. */
  function CallAngle(angleInc: real, angleOffset: real, j: nat, u: Unit): real
  {
    angleInc * (j as real) + angleOffset + u * (angleInc * 0.33)
  }

  /** The tape positions of the jitters of n calls of a ring whose jitters
      start at `pos`, each followed by the factory's `fd` draws; a factory
      call's own draws start after its jitter. */
  function CallDraws(pos: nat, fd: nat, n: nat): (d: seq<nat>)
    ensures |d| == n
  {
    if n == 0 then [] else CallDraws(pos, fd, n - 1) + [pos + Span(n - 1, fd) + 1]
  }

  /** The angles of those n calls, each built from its jitter draw. */
  function CallAngles(inc: real, phase: real, rng: Random, fd: nat, n: nat): (a: seq<real>)
    ensures |a| == n
  {
    if n == 0 then []
    else CallAngles(inc, phase, rng, fd, n - 1) + [CallAngle(inc, phase, n - 1, rng.tape(rng.pos + Span(n - 1, fd)))]
  }

  /** Call t draws right after the t calls before it, and before the run of n
      calls ends. */
  lemma {:induction false} CallDrawsAt(pos: nat, fd: nat, n: nat, t: nat)
    requires t < n
    ensures CallDraws(pos, fd, n)[t] == pos + Span(t, fd) + 1
    ensures CallDraws(pos, fd, n)[t] + fd <= pos + Span(n, fd)
    decreases n
  {
    if t < n - 1 {
      CallDrawsAt(pos, fd, n - 1, t);
    }
  }

  /** Call t's angle comes from its own jitter draw. */
  lemma {:induction false} CallAnglesAt(inc: real, phase: real, rng: Random, fd: nat, n: nat, t: nat)
    requires t < n
    ensures CallAngles(inc, phase, rng, fd, n)[t] == CallAngle(inc, phase, t, rng.tape(rng.pos + Span(t, fd)))
    decreases n
  {
    if t < n - 1 {
      CallAnglesAt(inc, phase, rng, fd, n - 1, t);
    }
  }

  /** With a positive increment every call lies in its slot. */
  lemma {:induction false} CallAnglesInSlot(inc: real, phase: real, rng: Random, fd: nat, n: nat)
    requires inc > 0.0
    ensures AllInSlot(CallAngles(inc, phase, rng, fd, n), phase, inc)
    decreases n
  {
    if n > 0 {
      var a := CallAngles(inc, phase, rng, fd, n);
      CallAnglesInSlot(inc, phase, rng, fd, n - 1);
      assert a[..n - 1] == CallAngles(inc, phase, rng, fd, n - 1);
      CallInSlot(inc, phase, n - 1, rng.tape(rng.pos + Span(n - 1, fd)));
    }
  }

  /** A call's angle lies in its slot of the ring. */
  lemma CallInSlot(angleInc: real, angleOffset: real, j: nat, u: Unit)
    requires angleInc > 0.0
    ensures InSlot(CallAngle(angleInc, angleOffset, j, u), j, angleOffset, angleInc)
  {
    var w := angleInc * 0.33;
    var base := angleInc * (j as real) + angleOffset;
    ScaledDraw(u, w);
    assert CallAngle(angleInc, angleOffset, j, u) == base + u * w;
  }

  /** The factory calls of a run in the order the source makes them:
      `particleFactory(angle, ringSize)`. */
  function Calls(rings: seq<Ring>): (calls: seq<FactoryCall>)
    requires forall i :: 0 <= i < |rings| ==> |rings[i].draws| == |rings[i].angles|
    ensures |calls| == CallCount(rings)
  {
    if rings == [] then []
    else
      var last := rings[|rings| - 1];
      Calls(rings[..|rings| - 1]) +
        seq(|last.angles|, t requires 0 <= t < |last.angles| => FactoryCall(last.angles[t], last.size, last.draws[t]))
  }

  function CallCount(rings: seq<Ring>): nat
  {
    if rings == [] then 0 else CallCount(rings[..|rings| - 1]) + |rings[|rings| - 1].angles|
  }

  /** A run makes at least the calls of its first ring. */
  lemma {:induction false} FirstRingCounted(rings: seq<Ring>)
    requires |rings| >= 1
    ensures CallCount(rings) >= |rings[0].angles|
    decreases |rings|
  {
    if |rings| > 1 {
      FirstRingCounted(rings[..|rings| - 1]);
    }
  }

  /** createBurst(count, factory, startAngle, arcLength): an outer loop over ring
      indices 0..floor(C / 2), each pass one ring. */
  method CreateBurst(m: MathLib, count: real, startAngle: real, arcLength: real, fd: nat, rng: Random)
    returns (rings: seq<Ring>, next: Random)
    ensures |rings| == InclusiveLoopCount(Circumference(m, count) / 2.0)
    ensures forall i :: 0 <= i < |rings| ==> RingOk(m, Circumference(m, count), i, startAngle, arcLength, rings[i])
    ensures forall i, t :: 0 <= i < |rings| && 0 <= t < |rings[i].draws| ==>
      rng.pos < rings[i].draws[t] && rings[i].draws[t] + fd <= next.pos
    ensures next.tape == rng.tape && next.pos == rng.pos + Draws(rings, fd)
    ensures RunDrawn(Circumference(m, count), startAngle, rings, rng.tape, rng.pos, fd)
    ensures next.pos == rng.pos + BurstDraws(m, count, arcLength, fd)
  {
    var R := 0.5 * m.sqrt(count / PI);
    var C := 2.0 * R * PI;
    var cHalf := C / 2.0;
    rings, next := [], rng;
    assert C == Circumference(m, count);
    var i: nat := 0;
    while (i as real) <= cHalf
      invariant i == |rings| <= InclusiveLoopCount(cHalf)
      invariant RunOk(m, C, startAngle, arcLength, rings)
      invariant DrawsWithin(rings, rng.pos, next.pos, fd)
      invariant next.tape == rng.tape && next.pos == rng.pos + Draws(rings, fd)
      invariant RunDrawn(C, startAngle, rings, rng.tape, rng.pos, fd)
      decreases InclusiveLoopCount(cHalf) - i
    {
      var ring;
      ghost var before := next;
      ring, next := BuildRing(m, C, i, startAngle, arcLength, fd, next);
      GrowRun(m, C, startAngle, arcLength, rings, ring, fd, rng.pos, before.pos, next.pos);
      GrowDrawn(C, startAngle, rings, ring, before.tape, rng.pos, before.pos, fd);
      rings := rings + [ring];
      i := i + 1;
    }
    BurstDrawsOf(m, count, startAngle, arcLength, rings, fd);
  }

  /** Every ring of the list is the ring of its index. */
  ghost predicate RunOk(m: MathLib, c: real, startAngle: real, arcLength: real, rings: seq<Ring>)
  {
    forall i :: 0 <= i < |rings| ==> RingOk(m, c, i, startAngle, arcLength, rings[i])
  }

  /** Every factory call of the list draws inside `(lo, hi]` on the tape. */
  ghost predicate DrawsWithin(rings: seq<Ring>, lo: nat, hi: nat, fd: nat)
  {
    forall i, t :: 0 <= i < |rings| && 0 <= t < |rings[i].draws| ==>
      lo < rings[i].draws[t] && rings[i].draws[t] + fd <= hi
  }

  /** One pass of the outer loop keeps the loop's invariants. */
  lemma GrowRun(m: MathLib, c: real, startAngle: real, arcLength: real, rings: seq<Ring>, ring: Ring,
                fd: nat, lo: nat, mid: nat, hi: nat)
    requires RunOk(m, c, startAngle, arcLength, rings) && RingOk(m, c, |rings|, startAngle, arcLength, ring)
    requires DrawsWithin(rings, lo, mid, fd)
    requires forall t :: 0 <= t < |ring.draws| ==> mid < ring.draws[t] && ring.draws[t] + fd <= hi
    requires lo <= mid <= hi
    ensures RunOk(m, c, startAngle, arcLength, rings + [ring])
    ensures DrawsWithin(rings + [ring], lo, hi, fd)
    ensures Draws(rings + [ring], fd) == Draws(rings, fd) + RingDraws(ring, fd)
  {
    assert (rings + [ring])[..|rings|] == rings;
  }

  /** A ring drawn where the run so far ends extends the run read off the tape. */
  lemma GrowDrawn(c: real, startAngle: real, rings: seq<Ring>, ring: Ring, tape: nat -> Unit, p: nat, q: nat, fd: nat)
    requires RunDrawn(c, startAngle, rings, tape, p, fd)
    requires q == p + Draws(rings, fd) && RingDrawn(c, startAngle, ring, tape, q, fd)
    ensures RunDrawn(c, startAngle, rings + [ring], tape, p, fd)
  {
    assert (rings + [ring])[..|rings|] == rings;
  }

  /** One pass of the outer loop: the ring's size, increment and phase (one
      draw), then `ceil(partsPerArc)` calls, each jittered by one draw. */
  method BuildRing(m: MathLib, C: real, i: nat, startAngle: real, arcLength: real, fd: nat, rng: Random)
    returns (ring: Ring, next: Random)
    ensures RingOk(m, C, i, startAngle, arcLength, ring)
    ensures forall t :: 0 <= t < |ring.draws| ==> rng.pos < ring.draws[t] && ring.draws[t] + fd <= next.pos
    ensures next.tape == rng.tape && next.pos == rng.pos + RingDraws(ring, fd)
    ensures RingDrawn(C, startAngle, ring, rng.tape, rng.pos, fd)
  {
    var ringSize := RingSize(m, C / 2.0, i);
    var partsPerArc := PartsPerArc(C, ringSize, arcLength);
    var angleInc := AngleInc(C, ringSize);
    var u := rng.Peek();
    var angleOffset := u * angleInc + startAngle;
    next := rng.Skip();
    if angleInc > 0.0 {
      ScaledDraw(u, angleInc);
    }
    var angles, draws;
    ghost var first := next;
    angles, draws, next := RingCalls(angleInc, angleOffset, partsPerArc, fd, next);
    ring := Ring(ringSize, angleOffset, angles, draws);
    if angleInc > 0.0 {
      CallAnglesInSlot(angleInc, angleOffset, first, fd, |angles|);
    }
    forall t | 0 <= t < |ring.draws|
      ensures rng.pos < ring.draws[t] && ring.draws[t] + fd <= next.pos
    {
      CallDrawsAt(first.pos, fd, |angles|, t);
    }
  }

  /** The inner loop of one ring: call j sits at `angleInc * j + angleOffset`
      plus a jitter of up to a third of the increment, drawn just before the
      factory runs and makes its own `fd` draws. */
  method RingCalls(angleInc: real, angleOffset: real, partsPerArc: real, fd: nat, rng: Random)
    returns (angles: seq<real>, draws: seq<nat>, next: Random)
    ensures |angles| == LoopCount(partsPerArc)
    ensures angles == CallAngles(angleInc, angleOffset, rng, fd, |angles|)
    ensures draws == CallDraws(rng.pos, fd, |angles|)
    ensures next.tape == rng.tape && next.pos == rng.pos + Span(|angles|, fd)
  {
    angles, draws, next := [], [], rng;
    var j: nat := 0;
    while (j as real) < partsPerArc
      invariant j == |angles| <= LoopCount(partsPerArc)
      invariant angles == CallAngles(angleInc, angleOffset, rng, fd, j)
      invariant draws == CallDraws(rng.pos, fd, j)
      invariant next.tape == rng.tape && next.pos == rng.pos + Span(j, fd)
      decreases LoopCount(partsPerArc) - j
    {
      var u := next.Peek();
      assert u == rng.tape(rng.pos + Span(j, fd));
      next := next.Skip();
      var angle := CallAngle(angleInc, angleOffset, j, u);
      angles := angles + [angle];
      draws := draws + [next.pos];
      next := Random(next.tape, next.pos + fd);
      j := j + 1;
    }
  }

  /** Within one ring the angles strictly increase: the jitter stays below a
      third of the increment, so no call overtakes the next slot. */
  lemma {:induction false} RingAnglesIncrease(m: MathLib, c: real, i: nat, startAngle: real, arcLength: real, ring: Ring, t: nat)
    requires RingOk(m, c, i, startAngle, arcLength, ring)
    requires AngleInc(c, ring.size) > 0.0
    requires t + 1 < |ring.angles|
    ensures ring.angles[t] < ring.angles[t + 1]
  {
    var inc := AngleInc(c, ring.size);
    AllInSlotAt(ring.angles, ring.phase, inc, t);
    AllInSlotAt(ring.angles, ring.phase, inc, t + 1);
    NextSlotAbove(ring.angles[t], ring.angles[t + 1], t, ring.phase, inc);
  }

  lemma NextSlotAbove(a: real, b: real, t: nat, phase: real, inc: real)
    requires inc > 0.0 && InSlot(a, t, phase, inc) && InSlot(b, t + 1, phase, inc)
    ensures a < b
  {
    var x := inc * (t as real);
    assert inc * ((t + 1) as real) == x + inc;
  }

  /** Ring 0 is the equator: with C_HALF nonzero its size is cos(0), which is 1. */
  lemma FirstRingIsEquator(m: MathLib, cHalf: real)
    requires m.Sane() && cHalf != 0.0
    ensures RingSize(m, cHalf, 0) == 1.0
  {
    assert RingAngle(cHalf, 0) == 0.0;
  }

  /** Ring sizes never grow from the equator towards the pole (for ring indices
      the outer loop reaches, i.e. up to C_HALF). */
  lemma RingSizesNonIncreasing(m: MathLib, cHalf: real, i: nat, k: nat)
    requires m.Sane() && cHalf > 0.0
    requires i <= k && (k as real) <= cHalf
    ensures 0.0 <= RingSize(m, cHalf, k) <= RingSize(m, cHalf, i)
  {
    var a, b := RingAngle(cHalf, i), RingAngle(cHalf, k);
    assert (i as real) / cHalf <= (k as real) / cHalf <= 1.0 by {
      DivMonotone(i as real, k as real, cHalf);
      DivMonotone(k as real, cHalf, cHalf);
    }
    MulNonNegative((i as real) / cHalf, PI_HALF);
    assert a <= b <= PI_HALF by {
      MulMonotone((i as real) / cHalf, (k as real) / cHalf, PI_HALF);
      MulMonotone((k as real) / cHalf, 1.0, PI_HALF);
    }
  }

  lemma DivMonotone(a: real, b: real, d: real)
    requires 0.0 <= a <= b && d > 0.0
    ensures 0.0 <= a / d <= b / d
  {
    assert (b / d - a / d) * d == b - a;
    FactorSign(b / d - a / d, d);
    assert (a / d) * d == a;
    FactorSign(a / d, d);
  }

  lemma FactorSign(x: real, d: real)
    requires d > 0.0 && x * d >= 0.0
    ensures x >= 0.0
  {
  }

  /** A run for a positive count under sane trigonometry has at least one ring,
      and for any positive arc its first ring makes at least one call. */
  lemma {:induction false} PositiveCountMakesCalls(m: MathLib, count: real, rings: seq<Ring>, startAngle: real, arcLength: real)
    requires m.Sane() && count > 0.0 && arcLength > 0.0
    requires |rings| == InclusiveLoopCount(Circumference(m, count) / 2.0)
    requires forall i :: 0 <= i < |rings| ==> RingOk(m, Circumference(m, count), i, startAngle, arcLength, rings[i])
    ensures |rings| >= 1 && |rings[0].angles| >= 1
  {
    var c := Circumference(m, count);
    assert count / PI > 0.0;
    assert m.sqrt(count / PI) > 0.0;
    MulPositive(0.5 * m.sqrt(count / PI), PI);
    assert c > 0.0 by {
      assert c == 2.0 * ((0.5 * m.sqrt(count / PI)) * PI);
    }
    FirstRingIsEquator(m, c / 2.0);
    assert rings[0].size == 1.0;
    MulPositive(c, arcLength / PI_2);
    assert PartsPerArc(c, 1.0, arcLength) == c * (arcLength / PI_2);
  }
}
