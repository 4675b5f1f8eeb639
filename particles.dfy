/** The Star and Spark records as values: what `add` writes over a recycled
    record, what one update step does to a record, and what a step of a whole
    bucket keeps and retires. */
module Particles {
  import opened Numerics
  import opened Recipes
  import opened Kinematics
  import opened Palette
  import opened BurstRings
  import opened Pools

  /** What a star's `onDeath` holds: nothing, the comet callback that bursts
      the comet's shell, or the crackle callback of a light-glitter star
      (script.js). */
  datatype Death = NoDeath | MaybeCrackle | BurstShell(shell: ShellConfig)

  /** A Star record: position and previous position, colour, velocity, life,
      the drawing fields, the glitter settings and the death callback. */
  datatype Star = Star(
    x: real, y: real, prevX: real, prevY: real, color: string,
    speedX: real, speedY: real, life: real, fullLife: real,
    size: real, spinAngle: real, spinSpeed: real, spinRadius: real,
    visible: bool, heavy: bool,
    sparkFreq: real, sparkSpeed: real, sparkTimer: real, sparkColor: string,
    sparkLife: real, sparkLifeVariation: real,
    onDeath: Death)
  {
    /** The fields update steps. */
    function Motion(): Kin
    {
      Kin(x, y, speedX, speedY, life, sparkTimer, sparkFreq)
    }
  }

  /** A Spark record. */
  datatype Spark = Spark(x: real, y: real, prevX: real, prevY: real, color: string,
                         speedX: real, speedY: real, life: real)
  {
    function Motion(): Kin
    {
      Kin(x, y, speedX, speedY, life, 0.0, 0.0)
    }
  }

  /** `_new() { return {}; }`: every property is undefined until it is
      written; 0, false, "" and NoDeath stand for undefined. */
  const BLANK_STAR: Star :=
    Star(0.0, 0.0, 0.0, 0.0, "", 0.0, 0.0, 0.0, 0.0, 0.0, 0.0, 0.0, 0.0, false, false,
         0.0, 0.0, 0.0, "", 0.0, 0.0, NoDeath)

  /** What Star.add writes over the record `base` it took from the free list
      (or the blank one). js/script.js and fscreen.js write every field except
      onDeath, adding the speed offsets and giving the star size 3 and the spark
      settings of a star that does not glitter; script.js writes position,
      colour, velocity (it has no offsets), life and spin, and leaves the rest
      as the recycled record had it. `spin` is the Math.random() of the spin
      angle. */
  function AddedStar(v: Variant, base: Star, m: MathLib, x: real, y: real, color: string,
                     angle: real, speed: real, life: real, offX: real, offY: real, spin: Unit): Star
  {
    var sx, sy := m.sin(angle) * speed, m.cos(angle) * speed;
    if v == RootScript then
      base.(x := x, y := y, prevX := x, prevY := y, color := color, speedX := sx, speedY := sy,
            life := life, fullLife := life, spinAngle := spin * PI_2, spinSpeed := 0.8)
    else
      Star(x, y, x, y, color, sx + offX, sy + offY, life, life, 3.0, spin * PI_2, 0.8, 0.0, true, false,
           0.0, 1.0, 0.0, color, 750.0, 0.25, base.onDeath)
  }

  /** Every variant's Star.add puts the star at (x, y) with no trail yet, in the
      given colour, heading along `angle` at `speed` (plus the offsets in
      js/script.js and fscreen.js), with its full life ahead and a spin angle in
      [0, 2 PI). js/script.js and fscreen.js also make it a visible, light star
      of size 3 that does not glitter: no spark frequency, timer 0, sparks in
      its own colour. */
  lemma AddedStarStarts(v: Variant, base: Star, m: MathLib, x: real, y: real, color: string,
                        angle: real, speed: real, life: real, offX: real, offY: real, spin: Unit)
    ensures var s := AddedStar(v, base, m, x, y, color, angle, speed, life, offX, offY, spin);
      s.x == x && s.y == y && s.prevX == x && s.prevY == y && s.color == color &&
      s.life == life && s.fullLife == life && 0.0 <= s.spinAngle < PI_2 && s.spinSpeed == 0.8 &&
      s.onDeath == base.onDeath
    ensures var s := AddedStar(v, base, m, x, y, color, angle, speed, life, offX, offY, spin);
      var ox, oy := if v == RootScript then 0.0 else offX, if v == RootScript then 0.0 else offY;
      s.speedX == m.sin(angle) * speed + ox && s.speedY == m.cos(angle) * speed + oy
    ensures var s := AddedStar(v, base, m, x, y, color, angle, speed, life, offX, offY, spin);
      v != RootScript ==>
        s.visible && !s.heavy && s.size == 3.0 && s.spinRadius == 0.0 &&
        s.sparkFreq == 0.0 && s.sparkSpeed == 1.0 && s.sparkTimer == 0.0 && s.sparkColor == color &&
        s.sparkLife == 750.0 && s.sparkLifeVariation == 0.25
  {
    ScaledDraw(spin, PI_2);
  }

  /** js/script.js and fscreen.js reset the record completely: apart from the
      death callback, what a recycled record held makes no difference. */
  lemma FullResetForgetsRecord(v: Variant, b1: Star, b2: Star, m: MathLib, x: real, y: real, color: string,
                               angle: real, speed: real, life: real, offX: real, offY: real, spin: Unit)
    requires v != RootScript && b1.onDeath == b2.onDeath
    ensures AddedStar(v, b1, m, x, y, color, angle, speed, life, offX, offY, spin) ==
            AddedStar(v, b2, m, x, y, color, angle, speed, life, offX, offY, spin)
  {
  }

  /** script.js keeps what it does not write: a recycled comet record stays
      heavy with its spin radius, and a recycled record keeps its spark settings
      and size. */
  lemma PartialResetKeepsRecord(base: Star, m: MathLib, x: real, y: real, color: string,
                                angle: real, speed: real, life: real, offX: real, offY: real, spin: Unit)
    ensures var s := AddedStar(RootScript, base, m, x, y, color, angle, speed, life, offX, offY, spin);
      s.visible == base.visible && s.heavy == base.heavy && s.size == base.size &&
      s.spinRadius == base.spinRadius && s.sparkFreq == base.sparkFreq && s.sparkSpeed == base.sparkSpeed &&
      s.sparkTimer == base.sparkTimer && s.sparkColor == base.sparkColor && s.sparkLife == base.sparkLife &&
      s.sparkLifeVariation == base.sparkLifeVariation
  {
  }

  /** What Spark.add writes: every field of a spark, so the recycled record
      plays no part. */
  function AddedSpark(m: MathLib, x: real, y: real, color: string, angle: real, speed: real, life: real): Spark
  {
    Spark(x, y, x, y, color, m.sin(angle) * speed, m.cos(angle) * speed, life)
  }

  /** One step of a star that survives it: the previous position remembered,
      then position, velocity, life and glitter timer as Advance has them. */
  function StepStar(s: Star, st: Step): Star
  {
    var k := Advance(s.Motion(), st);
    s.(prevX := s.x, prevY := s.y, x := k.x, y := k.y, speedX := k.speedX, speedY := k.speedY,
       life := k.life, sparkTimer := k.sparkTimer)
  }

  function StepSpark(s: Spark, st: Step): Spark
  {
    var k := Advance(s.Motion(), st);
    s.(prevX := s.x, prevY := s.y, x := k.x, y := k.y, speedX := k.speedX, speedY := k.speedY, life := k.life)
  }

  /** A step moves exactly what Advance moves, drags the trail behind the old
      position, and leaves every other field alone. */
  lemma StepStarIsAdvance(s: Star, st: Step)
    ensures StepStar(s, st).Motion() == Advance(s.Motion(), st)
    ensures StepStar(s, st).prevX == s.x && StepStar(s, st).prevY == s.y
    ensures StepStar(s, st).(x := s.x, y := s.y, prevX := s.prevX, prevY := s.prevY, speedX := s.speedX,
                             speedY := s.speedY, life := s.life, sparkTimer := s.sparkTimer) == s
  {
  }

  /** The record returnInstance pushes: its life already decremented by the
      step that retired it and, for a star, the callback cleared. */
  function RetireStar(s: Star, st: Step): Star
  {
    s.(life := s.life - st.timeStep, onDeath := NoDeath)
  }

  /** The record returnInstance pushes for a star whose life the step has
      just decremented. */
  lemma RetiredIsReturned(s: Star, st: Step)
    ensures s.(life := s.life - st.timeStep).(onDeath := NoDeath) == RetireStar(s, st)
  {
  }

  /** A star the step kills goes back to the pool spent: no life left, no
      callback, and otherwise the record it was. */
  lemma RetiredIsSpent(s: Star, st: Step)
    requires Dies(s.Motion(), st)
    ensures var r := RetireStar(s, st);
      r.life <= 0.0 && r.life == s.life - st.timeStep && r.onDeath == NoDeath &&
      r.(life := s.life, onDeath := s.onDeath) == s
  {
  }

  function RetireSpark(s: Spark, st: Step): Spark
  {
    s.(life := s.life - st.timeStep)
  }

  /** The stars of a bucket a step keeps, stepped, in bucket order. */
  function SteppedStars(S: seq<Star>, st: Step): seq<Star>
  {
    if S == [] then []
    else (if Dies(S[0].Motion(), st) then [] else [StepStar(S[0], st)]) + SteppedStars(S[1..], st)
  }

  /** The stars a step retires, as the reverse walk pushes them (highest index first). */
  function RetiredStars(S: seq<Star>, st: Step): seq<Star>
  {
    if S == [] then []
    else RetiredStars(S[1..], st) + (if Dies(S[0].Motion(), st) then [RetireStar(S[0], st)] else [])
  }

  function SteppedSparks(S: seq<Spark>, st: Step): seq<Spark>
  {
    if S == [] then []
    else (if Dies(S[0].Motion(), st) then [] else [StepSpark(S[0], st)]) + SteppedSparks(S[1..], st)
  }

  function RetiredSparks(S: seq<Spark>, st: Step): seq<Spark>
  {
    if S == [] then []
    else RetiredSparks(S[1..], st) + (if Dies(S[0].Motion(), st) then [RetireSpark(S[0], st)] else [])
  }

  /** A step of a bucket accounts for every star: each is kept or retired,
      kept stars have life left, and retired ones have none and no callback. */
  lemma {:induction false} StarsAccounted(S: seq<Star>, st: Step)
    ensures |SteppedStars(S, st)| + |RetiredStars(S, st)| == |S|
    ensures forall k :: 0 <= k < |SteppedStars(S, st)| ==> SteppedStars(S, st)[k].life > 0.0
    ensures forall k :: 0 <= k < |RetiredStars(S, st)| ==>
      RetiredStars(S, st)[k].life <= 0.0 && RetiredStars(S, st)[k].onDeath == NoDeath
  {
    if S != [] {
      StarsAccounted(S[1..], st);
    }
  }

  lemma {:induction false} SparksAccounted(S: seq<Spark>, st: Step)
    ensures |SteppedSparks(S, st)| + |RetiredSparks(S, st)| == |S|
    ensures forall k :: 0 <= k < |SteppedSparks(S, st)| ==> SteppedSparks(S, st)[k].life > 0.0
    ensures forall k :: 0 <= k < |RetiredSparks(S, st)| ==> RetiredSparks(S, st)[k].life <= 0.0
  {
    if S != [] {
      SparksAccounted(S[1..], st);
    }
  }

  function StarMotions(S: seq<Star>): (ks: seq<Kin>)
    ensures |ks| == |S|
  {
    if S == [] then [] else [S[0].Motion()] + StarMotions(S[1..])
  }

  function StepAll(S: seq<Star>, st: Step): (r: seq<Star>)
    ensures |r| == |S|
  {
    if S == [] then [] else [StepStar(S[0], st)] + StepAll(S[1..], st)
  }

  /** The kept stars are exactly the survivors of the index-level walk, each
      stepped once, and the retired ones are its retired stars in the same
      order, decremented and cleared. */
  lemma {:induction false} SteppedAreSurvivorsStepped(S: seq<Star>, st: Step)
    ensures SteppedStars(S, st) == StepAll(Survivors(S, StarMotions(S), st), st)
    ensures |RetiredStars(S, st)| == |Retired(S, StarMotions(S), st)|
    ensures forall k :: 0 <= k < |RetiredStars(S, st)| ==>
      RetiredStars(S, st)[k] == RetireStar(Retired(S, StarMotions(S), st)[k], st)
  {
    if S != [] {
      SteppedAreSurvivorsStepped(S[1..], st);
      var ks := StarMotions(S);
      assert ks[1..] == StarMotions(S[1..]);
      var tail := Survivors(S[1..], ks[1..], st);
      assert ks[0] == S[0].Motion();
      if !Dies(S[0].Motion(), st) {
        assert Survivors(S, ks, st) == [S[0]] + tail;
        assert ([S[0]] + tail)[1..] == tail;
        assert StepAll([S[0]] + tail, st) == [StepStar(S[0], st)] + StepAll(tail, st);
        assert SteppedStars(S, st) == [StepStar(S[0], st)] + SteppedStars(S[1..], st);
      } else {
        assert Survivors(S, ks, st) == tail;
      }
    }
  }

  // ---------------------------------------------------------------- records the engine adds

  /** The record `this._pool.pop() || this._new()` yields. */
  function Base(free: seq<Star>): Star
  {
    if free == [] then BLANK_STAR else free[|free| - 1]
  }

  /** The record the pop after j earlier pops yields: the free list read from
      the top down, then blank records. */
  function NthBase(free: seq<Star>, j: nat): (b: Star)
    ensures b == Base(Popped(free, j))
    ensures j < |free| ==> b == free[|free| - 1 - j]
    ensures j >= |free| ==> b == BLANK_STAR
  {
    if j < |free| then free[|free| - 1 - j] else BLANK_STAR
  }

  /** The comet colour of launch: the shell's colour when it is a string other
      than "random", white otherwise. */
  function CometColor(c: ColorSpec): (s: string)
    ensures c.Named? && c.name != "random" ==> s == c.name
    ensures (c.Pair? || c == Named("random")) ==> s == WHITE
  {
    if c.Named? && c.name != "random" then c.name else WHITE
  }

  /** The comet launch adds over the record `base`: Star.add at the launch
      point heading up (angle PI), faster and shorter-lived for a horsetail, then
      made heavy with its spin radius; js/script.js and fscreen.js give it a
      spark trail from the first frame on, in its own colour or gold for an
      invisible shell, living 320 (500 behind a js/script.js willow); script.js
      keeps the trail settings the record had. Its onDeath bursts the shell. */
  function CometStar(v: Variant, base: Star, m: MathLib, cfg: ShellConfig, x: real, y: real, velocity: real,
                     quality: real, isHighQuality: bool, spinRadius: real, spin: Unit): (c: Star)
    requires quality > 0.0
    ensures c.x == x && c.y == y && c.prevX == x && c.prevY == y && c.color == CometColor(cfg.color)
    ensures c.life == velocity * (if cfg.horsetail then 100.0 else 400.0) && c.fullLife == c.life
    ensures c.heavy && c.spinRadius == spinRadius && c.onDeath == BurstShell(cfg)
    ensures var sp := velocity * (if cfg.horsetail then 1.2 else 1.0);
      c.speedX == m.sin(PI) * sp && c.speedY == m.cos(PI) * sp
    ensures v != RootScript ==>
      c.sparkFreq > 0.0 && c.sparkTimer == 0.0 && c.sparkLifeVariation == 3.0 &&
      c.sparkColor == (if cfg.color == Named(INVISIBLE) then GOLD else c.color) &&
      c.sparkLife == (if v == JsScript && (cfg.glitter == "willow" || cfg.fallingLeaves) then 500.0 else 320.0)
    ensures v != RootScript ==>
      c.sparkFreq == CometSparkFreq(v, quality, isHighQuality, cfg.glitter == "willow" || cfg.fallingLeaves) &&
      c.sparkSpeed == (if v == JsScript && (cfg.glitter == "willow" || cfg.fallingLeaves) then 0.5 else 1.0)
    ensures v == RootScript ==> c.sparkFreq == base.sparkFreq && c.sparkColor == base.sparkColor
  {
    var s := AddedStar(v, base, m, x, y, CometColor(cfg.color), PI, velocity * (if cfg.horsetail then 1.2 else 1.0),
                       velocity * (if cfg.horsetail then 100.0 else 400.0), 0.0, 0.0, spin);
    var c := s.(heavy := true, spinRadius := spinRadius);
    var willowLike := cfg.glitter == "willow" || cfg.fallingLeaves;
    var trail :=
      if v == RootScript then c
      else
        var t := c.(sparkFreq := CometSparkFreq(v, quality, isHighQuality, willowLike), sparkLife := 320.0,
                    sparkLifeVariation := 3.0);
        var w := if v == JsScript && willowLike then t.(sparkSpeed := 0.5, sparkLife := 500.0) else t;
        if cfg.color == Named(INVISIBLE) then w.(sparkColor := GOLD) else w;
    trail.(onDeath := BurstShell(cfg))
  }

  /** The star one starFactory call of js/script.js or fscreen.js adds, with its
      draws read from the tape at the call's position: the colour when every star
      draws its own, the life, the spin angle inside Star.add, and the glitter
      timer when the shell glitters. js/script.js also writes the (unset)
      onDeath of the burst. */
  function SpawnedStar(v: Variant, m: MathLib, base: Star, f: Factory, call: FactoryCall, tape: nat -> Unit): Star
  {
    var p := call.drawPos;
    var color := if f.perStarColor then RandomColor(COLOR_CODES, tape(p)) else f.color;
    var l := if f.perStarColor then p + 1 else p;
    var s := AddedStar(v, base, m, f.x, f.y, color, call.angle, call.ringSize * f.speed,
                       StarLife(f.starLife, f.lifeVariation, tape(l)), f.offX, f.offY, tape(l + 1));
    Glittering(f, if v == JsScript then s.(onDeath := NoDeath) else s, tape(l + 2))
  }

  /** The spawned star is Star.add's record for the factory's colour, life
      and spin draws, with the writes the factory makes after it. */
  lemma SpawnedStarSteps(v: Variant, m: MathLib, base: Star, f: Factory, call: FactoryCall, tape: nat -> Unit,
                         color: string, l: nat, added: Star)
    requires color == (if f.perStarColor then RandomColor(COLOR_CODES, tape(call.drawPos)) else f.color)
    requires l == (if f.perStarColor then call.drawPos + 1 else call.drawPos)
    requires added == AddedStar(v, base, m, f.x, f.y, color, call.angle, call.ringSize * f.speed,
                                StarLife(f.starLife, f.lifeVariation, tape(l)), f.offX, f.offY, tape(l + 1))
    ensures SpawnedStar(v, m, base, f, call, tape) ==
      Glittering(f, if v == JsScript then added.(onDeath := NoDeath) else added, tape(l + 2))
  {
  }

  /** The writes of a glittering shell's factory after Star.add: the spark
      settings of the closure and a first timer drawn within one period. */
  function Glittering(f: Factory, s: Star, u: Unit): (g: Star)
    ensures f.glitter && f.sparkFreq > 0.0 ==> 0.0 <= g.sparkTimer < g.sparkFreq
    ensures !f.glitter ==> g == s
    ensures g.(sparkFreq := s.sparkFreq, sparkSpeed := s.sparkSpeed, sparkLife := s.sparkLife,
               sparkLifeVariation := s.sparkLifeVariation, sparkColor := s.sparkColor, sparkTimer := s.sparkTimer) == s
  {
    if f.glitter then
      s.(sparkFreq := f.sparkFreq, sparkSpeed := f.sparkSpeed, sparkLife := f.sparkLife,
         sparkLifeVariation := f.sparkLifeVariation, sparkColor := f.sparkColor,
         sparkTimer := GlitterTimer(f.sparkFreq, u))
    else s
  }

  /** What every star a burst of js/script.js or fscreen.js adds has in common:
      it starts at the burst point with no trail, visible, light and of size 3,
      with a life drawn from the shell's range, full, a spin angle in [0, 2 PI),
      no death callback, and a glitter timer that is not yet due. */
  ghost predicate FromBurst(s: Star, x: real, y: real, starLife: real, variation: real)
  {
    s.x == x && s.y == y && s.prevX == x && s.prevY == y &&
    s.visible && !s.heavy && s.size == 3.0 && s.spinRadius == 0.0 && s.life == s.fullLife &&
    (starLife >= 0.0 && variation >= 0.0 ==> starLife <= s.life <= starLife + starLife * variation) &&
    0.0 <= s.spinAngle < PI_2 && s.onDeath == NoDeath && s.sparkTimer >= 0.0
  }

  /** A spawned star is a burst star of its factory; its colour is the
      factory's or one of the six palette colours; it glitters with the
      factory's settings, its first spark due within one period, or it keeps the
      spark settings of a plain star. */
  lemma SpawnedStarFromBurst(v: Variant, m: MathLib, base: Star, f: Factory, call: FactoryCall, tape: nat -> Unit)
    requires v != RootScript && base.onDeath == NoDeath && f.sparkFreq >= 0.0
    ensures var s := SpawnedStar(v, m, base, f, call, tape);
      FromBurst(s, f.x, f.y, f.starLife, f.lifeVariation) &&
      (f.perStarColor ==> s.color in COLOR_CODES) && (!f.perStarColor ==> s.color == f.color) &&
      (f.glitter ==>
         s.sparkFreq == f.sparkFreq && s.sparkSpeed == f.sparkSpeed && s.sparkLife == f.sparkLife &&
         s.sparkColor == f.sparkColor && (f.sparkFreq > 0.0 ==> s.sparkTimer < s.sparkFreq)) &&
      (!f.glitter ==> s.sparkFreq == 0.0 && s.sparkColor == s.color && s.sparkLife == 750.0)
    ensures var s := SpawnedStar(v, m, base, f, call, tape);
      s.speedX == m.sin(call.angle) * (call.ringSize * f.speed) + f.offX &&
      s.speedY == m.cos(call.angle) * (call.ringSize * f.speed) + f.offY
  {
    var p := call.drawPos;
    var l := if f.perStarColor then p + 1 else p;
    AddedStarStarts(v, base, m, f.x, f.y, if f.perStarColor then RandomColor(COLOR_CODES, tape(p)) else f.color,
                    call.angle, call.ringSize * f.speed, StarLife(f.starLife, f.lifeVariation, tape(l)), f.offX, f.offY, tape(l + 1));
  }

  /** The spark pass j of the emission loop adds: at the star's position, in its
      spark colour, with an angle and then a speed drawn from the tape. */
  function TrailSpark(m: MathLib, x: real, y: real, color: string, speed: real, life: real,
                      tape: nat -> Unit, pos: nat, j: nat): Spark
  {
    AddedSpark(m, x, y, color, tape(pos + 2 * j) * PI_2, tape(pos + 2 * j + 1) * speed, life)
  }

  /** The spark of pass j is the one made from the next two draws of a
      generator standing at draw pos + 2j. */
  lemma TrailSparkDrawn(m: MathLib, x: real, y: real, color: string, speed: real, life: real,
                        tape: nat -> Unit, pos: nat, j: nat, r: Random)
    requires r.tape == tape && r.pos == pos + 2 * j
    ensures TrailSpark(m, x, y, color, speed, life, tape, pos, j) ==
      AddedSpark(m, x, y, color, r.Peek() * PI_2, r.Skip().Peek() * speed, life)
  {
  }

  /** The sparks of n passes of the emission loop, in the order they are added. */
  function Trail(m: MathLib, x: real, y: real, color: string, speed: real, life: real,
                 tape: nat -> Unit, pos: nat, n: nat): (t: seq<Spark>)
    ensures |t| == n
  {
    if n == 0 then []
    else Trail(m, x, y, color, speed, life, tape, pos, n - 1) + [TrailSpark(m, x, y, color, speed, life, tape, pos, n - 1)]
  }

  /** Spark j of a trail is made from the draws of pass j. */
  lemma {:induction false} TrailAt(m: MathLib, x: real, y: real, color: string, speed: real, life: real,
                                   tape: nat -> Unit, pos: nat, n: nat, j: nat)
    requires j < n
    ensures Trail(m, x, y, color, speed, life, tape, pos, n)[j] == TrailSpark(m, x, y, color, speed, life, tape, pos, j)
  {
    if j < n - 1 {
      TrailAt(m, x, y, color, speed, life, tape, pos, n - 1, j);
    }
  }

  /** The bucket a record is pushed onto: its colour. */
  function StarKey(s: Star): string
  {
    s.color
  }

  function SparkKey(s: Spark): string
  {
    s.color
  }

  /** The star pass i of script.js's burst adds over the record `base`: at the
      burst point, in the shell's colour key, at angle `(i / count) * 2 PI` with
      speed `spreadSize / 96` and the shell's star life; a light-glitter shell
      hands it the crackle callback. */
  function RootBurstStar(base: Star, m: MathLib, cfg: ShellConfig, x: real, y: real, i: nat, spin: Unit): Star
    requires cfg.starCount > 0.0
  {
    var s := AddedStar(RootScript, base, m, x, y, PropertyKey(cfg.color), (i as real / cfg.starCount) * PI_2,
                       BurstSpeed(cfg), cfg.starLife, 0.0, 0.0, spin);
    if cfg.glitter == "light" then s.(onDeath := MaybeCrackle) else s
  }

  /** The star of pass i is Star.add's record with the callback written after it. */
  lemma RootBurstStarSteps(base: Star, m: MathLib, cfg: ShellConfig, x: real, y: real, i: nat, spin: Unit, added: Star)
    requires cfg.starCount > 0.0
    requires added == AddedStar(RootScript, base, m, x, y, PropertyKey(cfg.color), (i as real / cfg.starCount) * PI_2,
                                BurstSpeed(cfg), cfg.starLife, 0.0, 0.0, spin)
    ensures RootBurstStar(base, m, cfg, x, y, i, spin) ==
      if cfg.glitter == "light" then added.(onDeath := MaybeCrackle) else added
  {
  }

  /** The first n stars of that loop, each over the record the free list yields
      at its turn and with its spin drawn from the tape. */
  function RootBurstStars(free: seq<Star>, m: MathLib, cfg: ShellConfig, x: real, y: real,
                          tape: nat -> Unit, pos: nat, n: nat): (t: seq<Star>)
    requires n == 0 || cfg.starCount > 0.0
    ensures |t| == n
    ensures forall j :: 0 <= j < n ==>
      t[j] == RootBurstStar(NthBase(free, j), m, cfg, x, y, j, tape(pos + j))
  {
    if n == 0 then []
    else RootBurstStars(free, m, cfg, x, y, tape, pos, n - 1) +
         [RootBurstStar(NthBase(free, n - 1), m, cfg, x, y, n - 1, tape(pos + n - 1))]
  }

  /** Every star of script.js's burst starts at the burst point in the shell's
      colour with the shell's full star life; it crackles exactly when the
      shell's glitter is light (the records it reuses carry no callback); and
      what it does not write it keeps from the record it reuses, so a recycled
      comet record stays heavy. */
  lemma RootBurstStarAt(base: Star, m: MathLib, cfg: ShellConfig, x: real, y: real, i: nat, spin: Unit)
    requires cfg.starCount > 0.0 && base.onDeath == NoDeath
    ensures var s := RootBurstStar(base, m, cfg, x, y, i, spin);
      s.x == x && s.y == y && s.prevX == x && s.prevY == y && s.color == PropertyKey(cfg.color) &&
      s.life == cfg.starLife && s.fullLife == cfg.starLife && 0.0 <= s.spinAngle < PI_2 &&
      (s.onDeath == MaybeCrackle <==> cfg.glitter == "light") &&
      (cfg.glitter != "light" ==> s.onDeath == NoDeath) &&
      s.heavy == base.heavy && s.spinRadius == base.spinRadius
    ensures var s := RootBurstStar(base, m, cfg, x, y, i, spin);
      var angle := (i as real / cfg.starCount) * PI_2;
      s.speedX == m.sin(angle) * (cfg.spreadSize / 96.0) && s.speedY == m.cos(angle) * (cfg.spreadSize / 96.0)
  {
    var angle := (i as real / cfg.starCount) * PI_2;
    AddedStarStarts(RootScript, base, m, x, y, PropertyKey(cfg.color), angle, BurstSpeed(cfg), cfg.starLife, 0.0, 0.0, spin);
  }

  /** The Math.random() calls per lattice point of createWordBurst: the angle in
      js/script.js; the angle and the speed in fscreen.js; the colour and the
      angle in script.js. */
  function WordDraws(v: Variant): nat
  {
    if v == JsScript then 1 else 2
  }

  /** The draws of the first n lattice points. */
  function WordOffset(v: Variant, n: nat): nat
  {
    if v == JsScript then n else 2 * n
  }

  /** The spark createWordBurst adds for one lattice point, with its draws read
      from the tape at `pos`. */
  function WordSpark(v: Variant, m: MathLib, p: Point, x: real, y: real, l: Lattice, color: string,
                     tape: nat -> Unit, pos: nat): Spark
  {
    var q := Recentre(p, x, y, l);
    match v
    case JsScript => AddedSpark(m, q.x, q.y, color, tape(pos) * 2.0 * PI, 0.3, 1800.0)
    case FScreen => AddedSpark(m, q.x, q.y, color, tape(pos) * 2.0 * PI, m.pow(tape(pos + 1), 0.3) * 0.3, 1800.0)
    case RootScript =>
      AddedSpark(m, q.x, q.y, RandomColor(WIDE_COLOR_CODES, tape(pos)), tape(pos + 1) * 2.0 * PI, 0.1, 2500.0)
  }

  /** The sparks of the first n lattice points, in lattice order. */
  function WordSparks(v: Variant, m: MathLib, x: real, y: real, l: Lattice, color: string,
                      tape: nat -> Unit, pos: nat, n: nat): (t: seq<Spark>)
    requires n <= |l.points|
    ensures |t| == n
  {
    if n == 0 then []
    else WordSparks(v, m, x, y, l, color, tape, pos, n - 1) +
         [WordSpark(v, m, l.points[n - 1], x, y, l, color, tape, pos + WordOffset(v, n - 1))]
  }

  /** Point j's spark reads its draws after those of the j points before it. */
  lemma {:induction false} WordSparksAt(v: Variant, m: MathLib, x: real, y: real, l: Lattice, color: string,
                                        tape: nat -> Unit, pos: nat, n: nat, j: nat)
    requires j < n <= |l.points|
    ensures WordSparks(v, m, x, y, l, color, tape, pos, n)[j] ==
      WordSpark(v, m, l.points[j], x, y, l, color, tape, pos + WordOffset(v, j))
    decreases n
  {
    if j < n - 1 {
      WordSparksAt(v, m, x, y, l, color, tape, pos, n - 1, j);
      SnocAt(WordSparks(v, m, x, y, l, color, tape, pos, n - 1),
             WordSpark(v, m, l.points[n - 1], x, y, l, color, tape, pos + WordOffset(v, n - 1)), j);
    }
  }

  /** Appending leaves the earlier positions alone. */
  lemma SnocAt<T>(p: seq<T>, e: T, j: nat)
    requires j < |p|
    ensures (p + [e])[j] == p[j]
  {
  }

  /** Each word spark sits on its lattice point re-centred on (x, y), so a text
      whose points lie in its box is drawn within that box around (x, y); it has
      the given colour (js/script.js, fscreen.js) or a colour of the wide palette
      (script.js), and the variant's long life. */
  lemma WordSparksOnLattice(v: Variant, m: MathLib, x: real, y: real, l: Lattice, color: string,
                            tape: nat -> Unit, pos: nat, j: nat)
    requires j < |l.points|
    ensures var s := WordSparks(v, m, x, y, l, color, tape, pos, |l.points|)[j];
      var p := l.points[j];
      s.x - x == p.x - l.width / 2.0 && s.y - y == p.y - l.height / 2.0 &&
      (0.0 <= p.x <= l.width ==> x - l.width / 2.0 <= s.x <= x + l.width / 2.0) &&
      (0.0 <= p.y <= l.height ==> y - l.height / 2.0 <= s.y <= y + l.height / 2.0) &&
      s.prevX == s.x && s.prevY == s.y &&
      (v != RootScript ==> s.color == color && s.life == 1800.0) &&
      (v == RootScript ==> s.color in WIDE_COLOR_CODES && s.life == 2500.0)
    ensures var s := WordSparks(v, m, x, y, l, color, tape, pos, |l.points|)[j];
      var d := pos + WordOffset(v, j);
      (v == JsScript ==> s.speedX == m.sin(tape(d) * 2.0 * PI) * 0.3 && s.speedY == m.cos(tape(d) * 2.0 * PI) * 0.3) &&
      (v == FScreen ==>
         s.speedX == m.sin(tape(d) * 2.0 * PI) * (m.pow(tape(d + 1), 0.3) * 0.3) &&
         s.speedY == m.cos(tape(d) * 2.0 * PI) * (m.pow(tape(d + 1), 0.3) * 0.3)) &&
      (v == RootScript ==> s.speedX == m.sin(tape(d + 1) * 2.0 * PI) * 0.1 && s.speedY == m.cos(tape(d + 1) * 2.0 * PI) * 0.1)
  {
    WordSparksAt(v, m, x, y, l, color, tape, pos, |l.points|, j);
    var p := l.points[j];
    var q := Recentre(p, x, y, l);
    if v == RootScript {
      var u := tape(pos + WordOffset(v, j));
      assert RandomColor(WIDE_COLOR_CODES, u) in WIDE_COLOR_CODES;
    }
  }
}
