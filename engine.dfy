/** The engine of one variant: its Star, Spark and BurstFlash pools, the
    Math.random() tape, the quality settings the store derives, the pause flag,
    and the operations that move records between the pools: add,
    returnInstance, launch, burst, createWordBurst and the per-frame update. */
module Engine {
  import opened Numerics
  import opened Palette
  import opened Recipes
  import opened BurstRings
  import opened Kinematics
  import opened Seqs
  import opened Pools
  import opened Particles
  import opened Frames

  /** `let simSpeed = 1`: nothing in the engine changes it. */
  const SIM_SPEED: real := 1.0

  const QUALITY_LOW: nat := 1
  const QUALITY_NORMAL: nat := 2
  const QUALITY_HIGH: nat := 3

  class Engine {
    const variant: Variant
    const math: MathLib
    const stars: Pool<Star>
    const sparks: Pool<Spark>
    const flashes: FlashPool
    /** stageW and stageH, as handleResize last set them. */
    const stageW: real
    const stageH: real
    /** `store.state.config.quality` as a number: QUALITY_HIGH on a high-end device, else QUALITY_NORMAL. */
    const configQuality: nat
    /** The sound types of script.js whose buffers finished loading. */
    const soundBuffers: set<string>

    var rng: Random
    /** The names passed to soundManager.playSound, oldest first. */
    var cues: seq<string>
    var paused: bool
    var menuOpen: bool
    var quality: real
    var isLowQuality: bool
    var isNormalQuality: bool
    var isHighQuality: bool
    /** Spark.drawWidth. */
    var sparkDrawWidth: real

    /** Both populations are well-formed pools; eager pools keep exactly the buckets of
        createParticleCollection; and no record on the star free list still
        carries an onDeath callback. */
    ghost predicate Valid()
      reads this, stars, sparks
    {
      stars.Valid() && sparks.Valid() &&
      stars.lazy == (variant == RootScript) && sparks.lazy == (variant == RootScript) &&
      (variant != RootScript ==> stars.order == COLOR_CODES_W_INVIS && sparks.order == COLOR_CODES_W_INVIS) &&
      quality >= 1.0 && QUALITY_LOW <= configQuality <= QUALITY_HIGH &&
      Calm(stars.free)
    }

    /** The state the script leaves at load time: empty pools (an eager pool with
        its seven buckets), `quality = 1` with isHighQuality set in js/script.js and
        fscreen.js (`quality = 2` in script.js), and `paused: true` only in the
        store of js/script.js. */
    constructor (variant: Variant, math: MathLib, highEnd: bool, stageW: real, stageH: real,
                 soundBuffers: set<string>, rng: Random)
      ensures Valid()
      ensures this.variant == variant && this.math == math && this.rng == rng
      ensures this.stageW == stageW && this.stageH == stageH && this.soundBuffers == soundBuffers
      ensures fresh(stars) && fresh(sparks) && fresh(flashes)
      ensures stars.active == (if variant == RootScript then map[] else Collection(COLOR_CODES_W_INVIS))
      ensures sparks.active == (if variant == RootScript then map[] else Collection(COLOR_CODES_W_INVIS))
      ensures stars.free == [] && sparks.free == [] && flashes.active == [] && flashes.free == []
      ensures cues == [] && paused == (variant == JsScript) && !menuOpen
      ensures configQuality == if highEnd then QUALITY_HIGH else QUALITY_NORMAL
      ensures quality == (if variant == RootScript then 2.0 else 1.0)
      ensures !isLowQuality && !isNormalQuality && isHighQuality == (variant != RootScript)
      ensures sparkDrawWidth == 0.0
    {
      this.variant := variant;
      this.math := math;
      this.stageW, this.stageH := stageW, stageH;
      this.soundBuffers := soundBuffers;
      this.rng := rng;
      PaletteDistinct();
      var keys := if variant == RootScript then [] else COLOR_CODES_W_INVIS;
      stars := new Pool(variant == RootScript, keys);
      sparks := new Pool(variant == RootScript, keys);
      flashes := new FlashPool();
      configQuality := if highEnd then QUALITY_HIGH else QUALITY_NORMAL;
      cues := [];
      paused := variant == JsScript;
      menuOpen := false;
      quality := if variant == RootScript then 2.0 else 1.0;
      isLowQuality, isNormalQuality, isHighQuality := false, false, variant != RootScript;
      sparkDrawWidth := 0.0;
    }

    /** isRunning of js/script.js; fscreen.js only looks at `paused`. */
    predicate Running()
      reads this
    {
      !paused && (variant != JsScript || !menuOpen)
    }

    /** configDidUpdate: the quality flags follow the configured quality, and
        sparks are drawn thinner at high quality. */
    method ConfigDidUpdate()
      requires Valid() && variant != RootScript
      modifies this
      ensures Valid()
      ensures quality == configQuality as real
      ensures isLowQuality == (configQuality == QUALITY_LOW)
      ensures isNormalQuality == (configQuality == QUALITY_NORMAL)
      ensures isHighQuality == (configQuality == QUALITY_HIGH)
      ensures sparkDrawWidth == if configQuality == QUALITY_HIGH then 0.75 else 1.0
      ensures paused == old(paused) && menuOpen == old(menuOpen) && rng == old(rng) && cues == old(cues)
    {
      quality := configQuality as real;
      isLowQuality := configQuality == QUALITY_LOW;
      isNormalQuality := configQuality == QUALITY_NORMAL;
      isHighQuality := configQuality == QUALITY_HIGH;
      sparkDrawWidth := if configQuality == QUALITY_HIGH then 0.75 else 1.0;
    }

    /** togglePause(toggle). js/script.js: a boolean toggle is the new value,
        anything else flips the flag, and only a change goes through setState,
        which runs configDidUpdate. fscreen.js: `paused = !toggle`, so a missing
        or false toggle pauses. */
    method TogglePause(toggle: Option<bool>)
      requires Valid() && variant != RootScript
      modifies this
      ensures Valid()
      ensures variant == JsScript ==> paused == (if toggle.Some? then toggle.value else !old(paused))
      ensures variant == FScreen ==> paused == (toggle != Some(true))
      ensures variant == JsScript && paused != old(paused) ==> quality == configQuality as real
      ensures variant == JsScript && paused != old(paused) ==> isHighQuality == (configQuality == QUALITY_HIGH)
      ensures (variant == FScreen || paused == old(paused)) ==>
        quality == old(quality) && isHighQuality == old(isHighQuality) && sparkDrawWidth == old(sparkDrawWidth)
      ensures menuOpen == old(menuOpen) && rng == old(rng) && cues == old(cues)
    {
      if variant == JsScript {
        var newValue := if toggle.Some? then toggle.value else !paused;
        if paused != newValue {
          paused := newValue;
          ConfigDidUpdate();
        }
      } else {
        paused := toggle != Some(true);
      }
    }

    /** init: `togglePause(false)`, then configDidUpdate. It runs the engine in
        js/script.js and leaves fscreen.js paused. */
    method Init()
      requires Valid() && variant != RootScript
      modifies this
      ensures Valid()
      ensures paused == (variant == FScreen)
      ensures quality == configQuality as real && isHighQuality == (configQuality == QUALITY_HIGH)
      ensures menuOpen == old(menuOpen) && rng == old(rng) && cues == old(cues)
    {
      TogglePause(Some(false));
      ConfigDidUpdate();
    }

    /** The Math.random() calls of playSound(name): script.js picks a buffer and a
        playback rate when buffers of that type have loaded; the other two
        variants have its body commented out. */
    function SoundDraws(name: string): nat
    {
      if variant == RootScript && name in soundBuffers then 2 else 0
    }

    /** soundManager.playSound(name): the cue is recorded; in script.js it
        costs two draws when the sound can play. */
    method PlaySound(name: string)
      requires Valid()
      modifies this`cues, this`rng
      ensures Valid()
      ensures cues == old(cues) + [name]
      ensures rng == Random(old(rng).tape, old(rng).pos + SoundDraws(name))
    {
      cues := cues + [name];
      if SoundDraws(name) == 2 {
        rng := rng.Skip().Skip();
      }
    }

    /** The first half of Star.add: `this._pool.pop() || this._new()`, written
        as AddedStar has it with the spin angle drawn. The push is left to the
        caller, which may write more fields first. */
    method TakeStar(x: real, y: real, color: string, angle: real, speed: real, life: real, offX: real, offY: real)
      returns (s: Star)
      requires Valid()
      modifies this`rng, stars`free
      ensures Valid()
      ensures s == AddedStar(variant, Base(old(stars.free)), math, x, y, color, angle, speed, life, offX, offY, old(rng).Peek())
      ensures stars.free == Popped(old(stars.free), 1) && rng == old(rng).Skip()
    {
      var r := stars.Take();
      var base := if r.Some? then r.value else BLANK_STAR;
      s := AddedStar(variant, base, math, x, y, color, angle, speed, life, offX, offY, rng.Peek());
      rng := rng.Skip();
    }

    /** Spark.add(x, y, color, angle, speed, life). The record is popped even
        when the push then finds no bucket (eager pools, unknown colour), which
        is `ok == false`. */
    method SparkAdd(x: real, y: real, color: string, angle: real, speed: real, life: real) returns (ok: bool)
      requires Valid()
      modifies sparks
      ensures Valid()
      ensures ok == (variant == RootScript || color in old(sparks.active))
      ensures ok ==> sparks.active == Pushed(old(sparks.active), [AddedSpark(math, x, y, color, angle, speed, life)], SparkKey)
      ensures !ok ==> sparks.active == old(sparks.active)
      ensures sparks.free == Popped(old(sparks.free), 1)
    {
      ok := SparkPush(AddedSpark(math, x, y, color, angle, speed, life));
    }

    /** Spark.add with its arguments already written into the record p: add
        overwrites every field of the record it pops. */
    method SparkPush(p: Spark) returns (ok: bool)
      requires Valid()
      modifies sparks
      ensures Valid()
      ensures ok == (variant == RootScript || p.color in old(sparks.active))
      ensures ok ==> sparks.active == Pushed(old(sparks.active), [p], SparkKey)
      ensures !ok ==> sparks.active == old(sparks.active)
      ensures sparks.free == Popped(old(sparks.free), 1)
    {
      var _ := sparks.Take();
      ok := sparks.Append(p.color, p);
      assert [p][..0] == [];
    }

    /** Shell.launch(position, launchHeight): the comet is added at the
        launch point on the bottom edge with the launch velocity for the
        distance to the burst height; an eager pool without a bucket for its
        colour throws at the push. js/script.js and script.js then play "lift".
        `spinRadius` is what MyMath.random(0.32, 0.85) returns in js/script.js;
        the other two variants use 0.5. */
    method Launch(cfg: ShellConfig, position: real, launchHeight: real, spinRadius: real) returns (ok: bool)
      requires Valid()
      modifies this`rng, this`cues, stars
      ensures Valid() && rng.tape == old(rng).tape
      ensures var comet := CometStar(variant, Base(old(stars.free)), math, cfg, LaunchX(position, stageW), stageH,
                                     LaunchVelocity(math, LaunchDistance(variant, stageH, launchHeight)), quality,
                                     isHighQuality, if variant == JsScript then spinRadius else 0.5, old(rng).Peek());
        ok == (variant == RootScript || comet.color in old(stars.active)) &&
        (ok ==> stars.active == Pushed(old(stars.active), [comet], StarKey)) &&
        (!ok ==> stars.active == old(stars.active))
      ensures stars.free == Popped(old(stars.free), 1)
      ensures ok && variant != FScreen ==> cues == old(cues) + ["lift"] && rng.pos == old(rng).pos + 1 + SoundDraws("lift")
      ensures !ok || variant == FScreen ==> cues == old(cues) && rng.pos == old(rng).pos + 1
    {
      ok := AddComet(cfg, LaunchX(position, stageW), stageH,
                     LaunchVelocity(math, LaunchDistance(variant, stageH, launchHeight)),
                     if variant == JsScript then spinRadius else 0.5);
      if ok && variant != FScreen {
        PlaySound("lift");
      }
    }

    /** `this.comet = Star.add(...)` with the comet's settings: the push of an
        eager pool throws when the comet's colour has no bucket. */
    method AddComet(cfg: ShellConfig, x: real, y: real, velocity: real, spinRadius: real) returns (ok: bool)
      requires Valid()
      modifies this`rng, stars
      ensures Valid() && rng == old(rng).Skip()
      ensures var comet := CometStar(variant, Base(old(stars.free)), math, cfg, x, y, velocity, quality,
                                     isHighQuality, spinRadius, old(rng).Peek());
        ok == (variant == RootScript || comet.color in old(stars.active)) &&
        (ok ==> stars.active == Pushed(old(stars.active), [comet], StarKey)) &&
        (!ok ==> stars.active == old(stars.active))
      ensures stars.free == Popped(old(stars.free), 1)
    {
      var comet := TakeComet(cfg, x, y, velocity, spinRadius);
      ok := stars.Append(comet.color, comet);
      PushedOne(old(stars.active), comet, StarKey);
    }

    /** The comet record of launch: Star.add's pop and spin draw, then the
        comet's own settings and its callback. */
    method TakeComet(cfg: ShellConfig, x: real, y: real, velocity: real, spinRadius: real) returns (comet: Star)
      requires Valid()
      modifies this`rng, stars`free
      ensures Valid() && rng == old(rng).Skip()
      ensures comet == CometStar(variant, Base(old(stars.free)), math, cfg, x, y, velocity, quality,
                                 isHighQuality, spinRadius, old(rng).Peek())
      ensures stars.free == Popped(old(stars.free), 1)
    {
      var r := stars.Take();
      var base := if r.Some? then r.value else BLANK_STAR;
      comet := CometStar(variant, base, math, cfg, x, y, velocity, quality, isHighQuality, spinRadius, rng.Peek());
      rng := rng.Skip();
    }

    /** launchShell(size) of script.js: a light-glitter shell of a random wide
        palette colour whose spread and star life grow with its size, launched
        at a random position to the full height, so it bursts at the top edge. */
    method LaunchShell(size: real)
      requires Valid() && variant == RootScript
      modifies this`rng, this`cues, stars
      ensures Valid() && rng.tape == old(rng).tape
      ensures var tape, pos := old(rng).tape, old(rng).pos;
        var cfg := Configure(RootScript, LaunchShellOptions(size, tape(pos)), tape(pos));
        var comet := CometStar(RootScript, Base(old(stars.free)), math, cfg, LaunchX(tape(pos + 1), stageW), stageH,
                               LaunchVelocity(math, LaunchDistance(RootScript, stageH, 1.0)), quality,
                               isHighQuality, 0.5, tape(pos + 2));
        stars.active == Pushed(old(stars.active), [comet], StarKey) &&
        rng.pos == pos + 3 + SoundDraws("lift")
      ensures stars.free == Popped(old(stars.free), 1) && cues == old(cues) + ["lift"]
    {
      var r := rng;
      var u, position := r.tape(r.pos), r.tape(r.pos + 1);
      rng := Random(r.tape, r.pos + 2);
      var cfg := Configure(RootScript, LaunchShellOptions(size, u), u);
      var _ := Launch(cfg, position, 1.0, 0.0);
    }

    /** dotStarFactory for lattice point k: the re-centred point, the spark's
        draws as WordSpark reads them, and Spark.add. */
    method WordOne(x: real, y: real, l: Lattice, color: string, k: nat, ghost tape: nat -> Unit, ghost pos: nat,
                   ghost a0: map<string, seq<Spark>>, ghost f0: seq<Spark>)
      returns (ok: bool)
      requires Valid() && rng.tape == tape && k < |l.points|
      requires WordState(variant, math, x, y, l, color, k, tape, pos, a0, f0, rng.pos, sparks.active, sparks.free)
      modifies this`rng, sparks
      ensures Valid() && rng.tape == tape
      ensures ok ==> WordState(variant, math, x, y, l, color, k + 1, tape, pos, a0, f0, rng.pos, sparks.active, sparks.free)
      ensures !ok ==> Valid() && rng.tape == tape && variant != RootScript && color !in a0
      ensures variant == RootScript || color in a0 ==> ok
      ensures ok == (variant == RootScript || color in old(sparks.active))
    {
      var r := rng;
      ghost var a1, f1 := sparks.active, sparks.free;
      PushedExtends(a0, WordSparks(variant, math, x, y, l, color, tape, pos, k), SparkKey);
      var w := WordSpark(variant, math, l.points[k], x, y, l, color, r.tape, r.pos);
      WordSparkColor(variant, math, l.points[k], x, y, l, color, r.tape, r.pos);
      rng := Random(r.tape, r.pos + WordDraws(variant));
      ok := SparkPush(w);
      if ok {
        WordStateNext(variant, math, x, y, l, color, k, tape, pos, a0, f0, r.pos, a1, f1, sparks.active, sparks.free);
      }
    }

    /** createWordBurst: the lattice of the text, as `literalLattice` answers
        the variant's query, becomes one spark per point in lattice order; no
        lattice adds nothing. script.js then plays "burst" and "crackle". An
        eager pool without a bucket for `color` throws at the first point.
        js/script.js and fscreen.js take `color`, script.js takes `scale`. */
    method CreateWordBurst(text: string, x: real, y: real, color: string, scale: real,
                           literalLattice: LatticeQuery -> Option<Lattice>)
      returns (ok: bool)
      requires Valid()
      modifies this`rng, this`cues, sparks
      ensures Valid() && rng.tape == old(rng).tape
      ensures literalLattice(WordQuery(variant, text, scale)).None? ==>
        ok && sparks.active == old(sparks.active) && sparks.free == old(sparks.free) && rng == old(rng) && cues == old(cues)
      ensures ok && literalLattice(WordQuery(variant, text, scale)).Some? ==>
        var l := literalLattice(WordQuery(variant, text, scale)).value;
        var n := |l.points|;
        sparks.active == Pushed(old(sparks.active), WordSparks(variant, math, x, y, l, color, old(rng).tape, old(rng).pos, n), SparkKey) &&
        sparks.free == Popped(old(sparks.free), n) &&
        (variant != RootScript ==> rng.pos == old(rng).pos + WordOffset(variant, n) && cues == old(cues)) &&
        (variant == RootScript ==>
           rng.pos == old(rng).pos + WordOffset(variant, n) + SoundDraws("burst") + SoundDraws("crackle") &&
           cues == old(cues) + ["burst", "crackle"])
      ensures variant == RootScript || color in old(sparks.active) ==> ok
      ensures !ok ==> variant != RootScript && color !in old(sparks.active)
      ensures (literalLattice(WordQuery(variant, text, scale)).Some? &&
               |literalLattice(WordQuery(variant, text, scale)).value.points| > 0 &&
               variant != RootScript && color !in old(sparks.active)) ==> !ok
      ensures (literalLattice(WordQuery(variant, text, scale)).Some? &&
               |literalLattice(WordQuery(variant, text, scale)).value.points| == 0) ==> ok
    {
      ok := true;
      var map_ := literalLattice(WordQuery(variant, text, scale));
      if map_.None? {
        return;
      }
      var l := map_.value;
      ok := WordLoop(x, y, l, color);
      if ok && variant == RootScript {
        PlaySound("burst");
        PlaySound("crackle");
      }
    }

    /** The loop of createWordBurst over the lattice points, in order. */
    method WordLoop(x: real, y: real, l: Lattice, color: string) returns (ok: bool)
      requires Valid()
      modifies this`rng, sparks
      ensures Valid() && rng.tape == old(rng).tape
      ensures ok ==> WordState(variant, math, x, y, l, color, |l.points|, old(rng).tape, old(rng).pos,
                               old(sparks.active), old(sparks.free), rng.pos, sparks.active, sparks.free)
      ensures variant == RootScript || color in old(sparks.active) ==> ok
      ensures !ok ==> variant != RootScript && color !in old(sparks.active)
      ensures |l.points| > 0 && variant != RootScript && color !in old(sparks.active) ==> !ok
      ensures |l.points| == 0 ==> ok
    {
      ok := true;
      ghost var tape, pos, a0, f0 := rng.tape, rng.pos, sparks.active, sparks.free;
      WordStateStart(variant, math, x, y, l, color, tape, pos, a0, f0);
      var i: nat := 0;
      while i < |l.points|
        invariant Valid() && rng.tape == tape && ok
        invariant WordState(variant, math, x, y, l, color, i, tape, pos, a0, f0, rng.pos, sparks.active, sparks.free)
        invariant i == 0 ==> sparks.active == a0
        invariant i > 0 && variant != RootScript ==> color in a0
        decreases |l.points| - i
      {
        ok := WordOne(x, y, l, color, i, tape, pos, a0, f0);
        if !ok {
          return;
        }
        i := i + 1;
      }
    }

    /** The state of the emission loop of one star after k passes, the timer
        standing at `timer`: two draws per pass taken from the tape, the trail
        of k sparks pushed onto the buckets a0 and k records popped from the
        free list f0. */
    ghost predicate Emitting(x: real, y: real, color: string, speed: real, life: real, t0: real, freq: real,
                             timer: real, k: nat, tape: nat -> Unit, pos: nat,
                             a0: map<string, seq<Spark>>, f0: seq<Spark>)
      reads this, stars, sparks
    {
      freq > 0.0 && Valid() && rng.tape == tape && rng.pos == pos + 2 * k &&
      EmitCount(timer, freq) + k == EmitCount(t0, freq) && Emitted(timer, freq) == Emitted(t0, freq) &&
      sparks.active == Pushed(a0, Trail(math, x, y, color, speed, life, tape, pos, k), SparkKey) &&
      sparks.free == Popped(f0, k) &&
      (variant != RootScript ==> (color in sparks.active) == (color in a0)) &&
      (k > 0 ==> t0 < 0.0)
    }

    /** One pass of the emission loop: the timer moves on by sparkFreq, the
        angle and then the speed are drawn and the spark is added. When the push
        succeeds, its bucket holds the trail one spark longer; when it throws,
        the colour has no bucket in an eager pool. */
    method EmitOne(x: real, y: real, color: string, speed: real, life: real, t0: real, freq: real,
                   timer: real, ghost k: nat, ghost tape: nat -> Unit, ghost pos: nat,
                   ghost a0: map<string, seq<Spark>>, ghost f0: seq<Spark>)
      returns (next: real, ok: bool)
      requires Emitting(x, y, color, speed, life, t0, freq, timer, k, tape, pos, a0, f0) && timer < 0.0
      modifies this`rng, sparks
      ensures next == timer + freq && EmitCount(next, freq) < EmitCount(timer, freq)
      ensures ok ==> Emitting(x, y, color, speed, life, t0, freq, next, k + 1, tape, pos, a0, f0)
      ensures !ok ==> Valid() && rng.tape == tape && t0 < 0.0 && variant != RootScript && color !in a0
    {
      next := timer + freq;
      EmitPass(timer, freq, next);
      var r := rng;
      ghost var a1 := sparks.active;
      var angle := r.Peek() * PI_2;
      var sp := r.Skip().Peek() * speed;
      rng := r.Skip().Skip();
      ok := SparkAdd(x, y, color, angle, sp, life);
      PoppedTwice(f0, k, 1);
      if ok {
        TrailPass(math, x, y, color, speed, life, tape, pos, k, r, a0, a1, sparks.active);
      }
    }

    /** The emission loop of update for one star: `sparkTimer` starts at t0 and
        each pass while it is negative adds sparkFreq and a spark at the star's
        position, drawing its angle and then its speed. The loop ends with the
        timer Emitted(t0, freq) after EmitCount(t0, freq) sparks; an eager pool
        without a bucket for the spark colour aborts it at the first spark. */
    method EmitSparks(x: real, y: real, color: string, speed: real, life: real, t0: real, freq: real)
      returns (timer: real, ok: bool)
      requires Valid() && freq > 0.0
      modifies this`rng, sparks
      ensures Valid() && rng.tape == old(rng).tape
      ensures ok ==>
        var n := EmitCount(t0, freq);
        timer == Emitted(t0, freq) && rng.pos == old(rng).pos + 2 * n &&
        sparks.active == Pushed(old(sparks.active), Trail(math, x, y, color, speed, life, old(rng).tape, old(rng).pos, n), SparkKey) &&
        sparks.free == Popped(old(sparks.free), n)
      ensures (variant == RootScript || color in old(sparks.active)) ==> ok
      ensures !ok ==> t0 < 0.0 && variant != RootScript && color !in old(sparks.active)
    {
      timer, ok := t0, true;
      ghost var k: nat := 0;
      ghost var tape, pos, a0, f0 := rng.tape, rng.pos, sparks.active, sparks.free;
      assert Trail(math, x, y, color, speed, life, tape, pos, 0) == [];
      while timer < 0.0
        invariant Emitting(x, y, color, speed, life, t0, freq, timer, k, tape, pos, a0, f0)
        decreases EmitCount(timer, freq)
      {
        timer, ok := EmitOne(x, y, color, speed, life, t0, freq, timer, k, tape, pos, a0, f0);
        if !ok {
          return;
        }
        k := k + 1;
      }
    }

    /** The record one call of the starFactory of burst in js/script.js and
        fscreen.js makes: the colour when every star draws its own, the life,
        then Star.add's pop and spin draw; js/script.js clears onDeath, and a
        glittering shell sets the spark settings and a first timer read from the
        draw after the spin. The call's draws start at the tape position the ring
        replay gives it. */
    method FactoryStar(f: Factory, call: FactoryCall) returns (s: Star)
      requires Valid() && variant != RootScript
      modifies this`rng, stars`free
      ensures Valid() && rng.tape == old(rng).tape
      ensures s == SpawnedStar(variant, math, Base(old(stars.free)), f, call, old(rng).tape)
      ensures f.perStarColor ==> s.color in COLOR_CODES
      ensures !f.perStarColor ==> s.color == f.color
      ensures rng.pos + (if f.glitter then 1 else 0) == call.drawPos + FactoryDraws(f)
      ensures stars.free == Popped(old(stars.free), 1)
    {
      var tape, p := rng.tape, call.drawPos;
      var color := if f.perStarColor then RandomColor(COLOR_CODES, tape(p)) else f.color;
      var l := if f.perStarColor then p + 1 else p;
      var life := StarLife(f.starLife, f.lifeVariation, tape(l));
      rng := Random(tape, l + 1);
      var added := TakeStar(f.x, f.y, color, call.angle, call.ringSize * f.speed, life, f.offX, f.offY);
      SpawnedStarSteps(variant, math, Base(old(stars.free)), f, call, tape, color, l, added);
      s := Glittering(f, if variant == JsScript then added.(onDeath := NoDeath) else added, tape(l + 2));
    }

    /** One starFactory call: the record, its push, and the glitter timer's
        draw. A push onto a colour without a bucket throws after the record was
        popped and before the timer is drawn. */
    method SpawnStar(f: Factory, call: FactoryCall) returns (ok: bool)
      requires Valid() && variant != RootScript
      modifies this`rng, stars
      ensures Valid() && rng.tape == old(rng).tape
      ensures ok == (f.perStarColor || f.color in old(stars.active))
      ensures ok ==>
        stars.active == Pushed(old(stars.active), [SpawnedStar(variant, math, Base(old(stars.free)), f, call, old(rng).tape)], StarKey)
      ensures ok ==> rng.pos == call.drawPos + FactoryDraws(f)
      ensures !ok ==> stars.active == old(stars.active)
      ensures stars.free == Popped(old(stars.free), 1)
    {
      var s := FactoryStar(f, call);
      ghost var f1 := stars.free;
      assert s.color in COLOR_CODES ==> s.color in COLOR_CODES_W_INVIS;
      ok := stars.Append(s.color, s);
      assert stars.free == f1 && stars.order == COLOR_CODES_W_INVIS;
      PushedOne(old(stars.active), s, StarKey);
      if ok && f.glitter {
        rng := rng.Skip();
      }
    }

    /** The state of a burst's factory loop after k of its calls: the first k
        of the planned stars pushed onto the buckets a0 and k records popped
        from f0. */
    ghost predicate Spawning(f: Factory, k: nat, want: seq<Star>, tape: nat -> Unit,
                             a0: map<string, seq<Star>>, f0: seq<Star>)
      reads this, stars, sparks
    {
      Valid() && variant != RootScript && k <= |want| && rng.tape == tape &&
      stars.active == Pushed(a0, want[..k], StarKey) &&
      stars.free == Popped(f0, k) &&
      (f.color in stars.active) == (f.color in a0)
    }

    /** Factory call k of the loop. */
    method SpawnOne(f: Factory, calls: seq<FactoryCall>, k: nat, ghost want: seq<Star>, ghost tape: nat -> Unit,
                    ghost a0: map<string, seq<Star>>, ghost f0: seq<Star>) returns (ok: bool)
      requires Spawning(f, k, want, tape, a0, f0) && Planned(variant, math, f, calls, f0, tape, want) && k < |calls|
      modifies this`rng, stars
      ensures ok == (f.perStarColor || f.color in a0)
      ensures ok ==> Spawning(f, k + 1, want, tape, a0, f0)
      ensures !ok ==> Valid() && rng.tape == tape
    {
      assert want[k] == SpawnedStar(variant, math, NthBase(f0, k), f, calls[k], tape);
      ok := SpawnStar(f, calls[k]);
      PoppedTwice(f0, k, 1);
      if ok {
        PushedNext(a0, want, k, StarKey);
      }
    }

    /** The factory calls of a run, in order, until a push throws. */
    method SpawnAll(f: Factory, calls: seq<FactoryCall>) returns (ok: bool)
      requires Valid() && variant != RootScript
      modifies this`rng, stars
      ensures Valid() && rng.tape == old(rng).tape
      ensures ok <==> f.perStarColor || f.color in old(stars.active) || calls == []
      ensures ok ==>
        stars.active == Pushed(old(stars.active), SpawnedStars(variant, math, f, calls, old(stars.free), old(rng).tape, |calls|), StarKey) &&
        stars.free == Popped(old(stars.free), |calls|)
    {
      ghost var tape, a0, f0 := rng.tape, stars.active, stars.free;
      ghost var want := SpawnedStars(variant, math, f, calls, f0, tape, |calls|);
      SpawnedStarsPlanned(variant, math, f, calls, f0, tape);
      assert want[..0] == [];
      ok := true;
      var k := 0;
      while k < |calls|
        invariant Spawning(f, k, want, tape, a0, f0)
        decreases |calls| - k
      {
        ok := SpawnOne(f, calls, k, want, tape, a0, f0);
        if !ok {
          return;
        }
        k := k + 1;
      }
      assert want[..k] == want;
    }

    /** createBurst(count, starFactory, start, arc) in js/script.js and
        fscreen.js: the rings of the run, then one factory call per (angle, ring
        size) pair in call order. Afterwards the buckets hold the spawned stars
        behind what they held, and the generator stands after the run's draws.
        The run stops at the first push that throws, which happens exactly when
        the factory's single colour has no bucket and the run makes a call. */
    method BurstArc(f: Factory, count: real, start: real, arc: real) returns (rings: seq<Ring>, ok: bool)
      requires Valid() && variant != RootScript
      modifies this`rng, stars
      ensures Valid() && rng.tape == old(rng).tape
      ensures RunOk(math, Circumference(math, count), start, arc, rings)
      ensures RunDrawn(Circumference(math, count), start, rings, old(rng).tape, old(rng).pos, FactoryDraws(f))
      ensures forall i :: 0 <= i < |rings| ==> |rings[i].draws| == |rings[i].angles|
      ensures math.Sane() && count > 0.0 && arc > 0.0 ==> CallCount(rings) > 0
      ensures ok <==> f.perStarColor || f.color in old(stars.active) || CallCount(rings) == 0
      ensures ok ==>
        var n := CallCount(rings);
        stars.active == Pushed(old(stars.active), SpawnedStars(variant, math, f, Calls(rings), old(stars.free), old(rng).tape, n), StarKey) &&
        stars.free == Popped(old(stars.free), n) &&
        rng.pos == old(rng).pos + Draws(rings, FactoryDraws(f)) &&
        rng.pos == old(rng).pos + BurstDraws(math, count, arc, FactoryDraws(f))
      ensures ok && f.sparkFreq >= 0.0 ==> Grown(old(stars.active), stars.active, f.x, f.y, f.starLife, f.lifeVariation)
    {
      var next;
      rings, next := CreateBurst(math, count, start, arc, FactoryDraws(f), rng);
      assert forall i :: 0 <= i < |rings| ==> |rings[i].draws| == |rings[i].angles| by {
        forall i | 0 <= i < |rings| ensures |rings[i].draws| == |rings[i].angles| {
          assert RingOk(math, Circumference(math, count), i, start, arc, rings[i]);
        }
      }
      if math.Sane() && count > 0.0 && arc > 0.0 {
        PositiveCountMakesCalls(math, count, rings, start, arc);
        FirstRingCounted(rings);
      }
      ok := SpawnAll(f, Calls(rings));
      if ok && f.sparkFreq >= 0.0 {
        SpawnedGrown(variant, math, f, Calls(rings), old(stars.free), old(rng).tape, old(stars.active));
      }
      if ok {
        rng := next;
      }
    }

    /** One createBurst call as burst sees it: the buckets grow by the run's
        burst stars, or the run throws, which it does exactly when the
        factory's single colour has no bucket and the run makes a call. */
    method BurstPart(f: Factory, count: real, start: real, arc: real) returns (ok: bool)
      requires Valid() && variant != RootScript && f.sparkFreq >= 0.0
      modifies this`rng, stars
      ensures Valid() && rng.tape == old(rng).tape
      ensures ok ==> Grown(old(stars.active), stars.active, f.x, f.y, f.starLife, f.lifeVariation)
      ensures ok ==> stars.free <= old(stars.free)
      ensures ok ==> rng.pos == old(rng).pos + BurstDraws(math, count, arc, FactoryDraws(f))
      ensures f.perStarColor || f.color in COLOR_CODES_W_INVIS ==> ok
      ensures math.Sane() && count > 0.0 && arc > 0.0 && ok ==> f.perStarColor || f.color in COLOR_CODES_W_INVIS
    {
      var _, ok1 := BurstArc(f, count, start, arc);
      ok := ok1;
    }

    /** Whether a single-colour burst factory draws each star's colour:
        js/script.js draws for a falsy colour (`this.color || randomColor()`),
        fscreen.js for "random". */
    function DrawsOwnColor(name: string): bool
    {
      if variant == JsScript then name == "" else name == "random"
    }

    /** The draws of the split-colour branch: the choice, the start angle of
        the half circles, and the two createBurst calls. */
    function SplitDraws(cfg: ShellConfig, first: string, u: Unit): nat
    {
      var second := if |first| >= 2 then [first[1]] else "";
      var halves := u < 0.5;
      var count := if halves then cfg.starCount else cfg.starCount / 2.0;
      var arc := if halves then PI else PI_2;
      (if halves then 2 else 1) +
        BurstDraws(math, count, arc, ShellCallDraws(cfg, first == "")) +
        BurstDraws(math, count, arc, ShellCallDraws(cfg, second == ""))
    }

    /** The draws the stars of a burst take, `u` being the first of them:
        one createBurst call of the whole circle, or the split branch. */
    function ShellDraws(cfg: ShellConfig, u: Unit): nat
    {
      match cfg.color
      case Named(name) => BurstDraws(math, cfg.starCount, PI_2, ShellCallDraws(cfg, DrawsOwnColor(name)))
      case Pair(a, _) =>
        if variant == FScreen then BurstDraws(math, cfg.starCount, PI_2, ShellCallDraws(cfg, false))
        else SplitDraws(cfg, a, u)
    }

    /** The split-colour branch of burst in js/script.js. One draw chooses
        between two half circles from a drawn start angle and two full circles
        of half the stars. The first part uses the first colour, which the
        branch stores back into the shell, so the second part's `this.color[1]`
        is the one-character string at index 1 of that colour; a missing
        character is a falsy colour, which draws per star. */
    method SplitBurst(cfg: ShellConfig, first: string, x: real, y: real, offX: real, offY: real) returns (ok: bool)
      requires Valid() && variant == JsScript
      modifies this`rng, stars
      ensures Valid() && rng.tape == old(rng).tape
      ensures ok ==> Grown(old(stars.active), stars.active, x, y, cfg.starLife, cfg.starLifeVariation)
      ensures ok ==> stars.free <= old(stars.free)
      ensures ok ==> rng.pos == old(rng).pos + SplitDraws(cfg, first, old(rng).Peek())
      ensures first == "" ==> ok
      ensures math.Sane() && cfg.starCount > 0.0 && first != "" ==> !ok
    {
      var second := if |first| >= 2 then [first[1]] else "";
      var f1 := StarFactory(variant, cfg, first, first == "", quality, x, y, offX, offY);
      var f2 := StarFactory(variant, cfg, second, second == "", quality, x, y, offX, offY);
      var r := rng;
      var start1, start2, arc, count := 0.0, 0.0, PI_2, cfg.starCount / 2.0;
      if r.Peek() < 0.5 {
        start1 := r.Skip().Peek() * PI;
        start2, arc, count := start1 + PI, PI, cfg.starCount;
        rng := r.Skip().Skip();
      } else {
        rng := r.Skip();
      }
      if |first| == 1 {
        OneCharIsNoKey(first);
      } else if |first| >= 2 {
        OneCharIsNoKey(second);
      }
      ghost var a0 := stars.active;
      ok := BurstPart(f1, count, start1, arc);
      if !ok {
        return;
      }
      ghost var a1 := stars.active;
      ok := BurstPart(f2, count, start2, arc);
      if ok {
        GrownTrans(a0, a1, stars.active, x, y, cfg.starLife, cfg.starLifeVariation);
      }
    }

    /** The stars of burst(x, y) in js/script.js and fscreen.js, by the type of
        the shell's colour. A single colour bursts exactly when it has a bucket
        or each star draws its own. A split colour is one factory keyed by the
        joined colours in fscreen.js, which has no bucket; in js/script.js it is
        the split branch, which fails unless the first colour is empty. */
    method BurstStars(cfg: ShellConfig, x: real, y: real, offX: real, offY: real) returns (ok: bool)
      requires Valid() && variant != RootScript
      modifies this`rng, stars
      ensures Valid() && rng.tape == old(rng).tape
      ensures ok ==> Grown(old(stars.active), stars.active, x, y, cfg.starLife, cfg.starLifeVariation)
      ensures ok ==> stars.free <= old(stars.free)
      ensures ok ==> rng.pos == old(rng).pos + ShellDraws(cfg, old(rng).Peek())
      ensures cfg.color.Named? && (DrawsOwnColor(cfg.color.name) || cfg.color.name in COLOR_CODES_W_INVIS) ==> ok
      ensures cfg.color.Named? && math.Sane() && cfg.starCount > 0.0 && ok ==>
        DrawsOwnColor(cfg.color.name) || cfg.color.name in COLOR_CODES_W_INVIS
      ensures cfg.color.Pair? && variant == JsScript && cfg.color.first == "" ==> ok
      ensures cfg.color.Pair? && math.Sane() && cfg.starCount > 0.0 && (variant == FScreen || cfg.color.first != "") ==> !ok
    {
      match cfg.color
      case Named(name) =>
        var f := StarFactory(variant, cfg, name, DrawsOwnColor(name), quality, x, y, offX, offY);
        ok := BurstPart(f, cfg.starCount, 0.0, PI_2);
      case Pair(a, b) =>
        if variant == FScreen {
          JoinedPairIsNoKey(a, b);
          var f := StarFactory(variant, cfg, a + "," + b, false, quality, x, y, offX, offY);
          ok := BurstPart(f, cfg.starCount, 0.0, PI_2);
        } else {
          ok := SplitBurst(cfg, a, x, y, offX, offY);
        }
    }

    /** burst(x, y) of js/script.js and fscreen.js, for a comet whose velocity
        at its death was (cometSpeedX, cometSpeedY): the stars of the shell's
        colour, then a flash of a quarter of the spread and, in js/script.js,
        the "burst" sound. js/script.js gives the stars the comet's velocity as
        offsets for a horsetail and a slight downward pull otherwise. A push that
        throws ends the burst before the flash. */
    method Burst(cfg: ShellConfig, x: real, y: real, cometSpeedX: real, cometSpeedY: real) returns (ok: bool)
      requires Valid() && variant != RootScript
      modifies this`rng, this`cues, stars, flashes
      ensures Valid() && rng.tape == old(rng).tape
      ensures ok ==> Grown(old(stars.active), stars.active, x, y, cfg.starLife, cfg.starLifeVariation)
      ensures ok ==> stars.free <= old(stars.free)
      ensures ok ==>
        flashes.active == old(flashes.active) + [Flash(x, y, FlashRadius(cfg))] &&
        flashes.free == Popped(old(flashes.free), 1)
      ensures ok ==> cues == old(cues) + (if variant == JsScript then ["burst"] else [])
      ensures ok ==> rng.pos == old(rng).pos + ShellDraws(cfg, old(rng).Peek())
      ensures !ok ==> flashes.active == old(flashes.active) && flashes.free == old(flashes.free) && cues == old(cues)
      ensures cfg.color.Named? && (DrawsOwnColor(cfg.color.name) || cfg.color.name in COLOR_CODES_W_INVIS) ==> ok
      ensures cfg.color.Named? && math.Sane() && cfg.starCount > 0.0 && ok ==>
        DrawsOwnColor(cfg.color.name) || cfg.color.name in COLOR_CODES_W_INVIS
      ensures cfg.color.Pair? && variant == JsScript && cfg.color.first == "" ==> ok
      ensures cfg.color.Pair? && math.Sane() && cfg.starCount > 0.0 && (variant == FScreen || cfg.color.first != "") ==> !ok
    {
      var offX, offY := 0.0, 0.0;
      if variant == JsScript {
        if cfg.horsetail {
          offX, offY := cometSpeedX, cometSpeedY;
        } else {
          offY := -cfg.spreadSize / 1800.0;
        }
      }
      ok := BurstStars(cfg, x, y, offX, offY);
      if !ok {
        return;
      }
      var _ := flashes.Add(x, y, FlashRadius(cfg));
      if variant == JsScript {
        PlaySound("burst");
      }
    }

    /** The state of script.js's burst loop after k passes: the first k planned
        stars pushed onto the buckets a0, k records popped from f0 and k spin
        draws taken. */
    ghost predicate RootBursting(k: nat, want: seq<Star>, tape: nat -> Unit, pos: nat,
                                 a0: map<string, seq<Star>>, f0: seq<Star>)
      reads this, stars, sparks
    {
      Valid() && variant == RootScript && k <= |want| && rng == Random(tape, pos + k) &&
      stars.active == Pushed(a0, want[..k], StarKey) && stars.free == Popped(f0, k)
    }

    /** Pass k of the loop: Star.add at angle `(k / count) * 2 PI`, and the
        crackle callback for a light-glitter shell. */
    method RootBurstOne(cfg: ShellConfig, x: real, y: real, k: nat, ghost want: seq<Star>, ghost tape: nat -> Unit,
                        ghost pos: nat, ghost a0: map<string, seq<Star>>, ghost f0: seq<Star>)
      requires RootBursting(k, want, tape, pos, a0, f0) && RootPlanned(math, cfg, x, y, f0, tape, pos, want) && k < |want|
      modifies this`rng, stars
      ensures RootBursting(k + 1, want, tape, pos, a0, f0)
    {
      var s := TakeStar(x, y, PropertyKey(cfg.color), (k as real / cfg.starCount) * PI_2, BurstSpeed(cfg),
                        cfg.starLife, 0.0, 0.0);
      RootBurstStarSteps(Base(old(stars.free)), math, cfg, x, y, k, tape(pos + k), s);
      assert want[k] == RootBurstStar(NthBase(f0, k), math, cfg, x, y, k, tape(pos + k));
      if cfg.glitter == "light" {
        s := s.(onDeath := MaybeCrackle);
      }
      var _ := stars.Append(s.color, s);
      PushedOne(old(stars.active), s, StarKey);
      PoppedTwice(f0, k, 1);
      PushedNext(a0, want, k, StarKey);
    }

    /** burst(x, y) of script.js: `for (i = 0; i < starCount; i++)` adds the
        star of pass i, each draw of a spin angle in turn, onto buckets that are
        created as needed, so nothing throws; then "burstSmall" sounds for a
        shell smaller than 2 and "burst" otherwise. */
    method RootBurst(cfg: ShellConfig, x: real, y: real)
      requires Valid() && variant == RootScript
      modifies this`rng, this`cues, stars
      ensures Valid() && rng.tape == old(rng).tape
      ensures var n := LoopCount(cfg.starCount);
        stars.active == Pushed(old(stars.active), RootBurstStars(old(stars.free), math, cfg, x, y, old(rng).tape, old(rng).pos, n), StarKey) &&
        stars.free == Popped(old(stars.free), n) &&
        rng.pos == old(rng).pos + n + SoundDraws(if cfg.shellSize < 2.0 then "burstSmall" else "burst")
      ensures cues == old(cues) + [if cfg.shellSize < 2.0 then "burstSmall" else "burst"]
    {
      var n := LoopCount(cfg.starCount);
      ghost var tape, pos, a0, f0 := rng.tape, rng.pos, stars.active, stars.free;
      ghost var want := RootBurstStars(f0, math, cfg, x, y, tape, pos, n);
      assert RootPlanned(math, cfg, x, y, f0, tape, pos, want);
      assert want[..0] == [];
      var k := 0;
      while k < n
        invariant RootBursting(k, want, tape, pos, a0, f0) && cues == old(cues)
        decreases n - k
      {
        RootBurstOne(cfg, x, y, k, want, tape, pos, a0, f0);
        k := k + 1;
      }
      assert want[..k] == want;
      PlaySound(if cfg.shellSize < 2.0 then "burstSmall" else "burst");
    }

    /** `instance.onDeath && instance.onDeath(instance)` for a star that died:
        nothing for a star without a callback; the crackle callback of script.js
        sounds "crackleSmall" when its draw is below 0.2; a comet bursts its
        shell where it died, with its last velocity. Only a burst of an eager
        variant can throw. */
    method RunDeath(s: Star) returns (ok: bool)
      requires Valid()
      modifies this`rng, this`cues, stars, flashes
      ensures Valid() && rng.tape == old(rng).tape
      ensures ok ==> Extends(old(stars.active), stars.active) && stars.free <= old(stars.free)
      ensures !ok ==> variant != RootScript && s.onDeath.BurstShell?
      ensures !s.onDeath.BurstShell? ==>
        stars.active == old(stars.active) && stars.free == old(stars.free) &&
        flashes.active == old(flashes.active) && flashes.free == old(flashes.free)
      ensures s.onDeath == NoDeath ==> rng == old(rng) && cues == old(cues)
      ensures s.onDeath == MaybeCrackle ==>
        var loud := old(rng).Peek() < 0.2;
        cues == old(cues) + (if loud then ["crackleSmall"] else []) &&
        rng.pos == old(rng).pos + 1 + (if loud then SoundDraws("crackleSmall") else 0)
      ensures s.onDeath.BurstShell? && variant != RootScript ==>
        var cfg := s.onDeath.shell;
        (ok ==> Grown(old(stars.active), stars.active, s.x, s.y, cfg.starLife, cfg.starLifeVariation)) &&
        (ok ==>
           flashes.active == old(flashes.active) + [Flash(s.x, s.y, FlashRadius(cfg))] &&
           flashes.free == Popped(old(flashes.free), 1) &&
           cues == old(cues) + (if variant == JsScript then ["burst"] else []) &&
           rng.pos == old(rng).pos + ShellDraws(cfg, old(rng).Peek())) &&
        (!ok ==> flashes.active == old(flashes.active) && flashes.free == old(flashes.free) && cues == old(cues))
      ensures s.onDeath.BurstShell? && variant != RootScript ==>
        var cfg := s.onDeath.shell;
        (cfg.color.Named? && (DrawsOwnColor(cfg.color.name) || cfg.color.name in COLOR_CODES_W_INVIS) ==> ok) &&
        (cfg.color.Named? && math.Sane() && cfg.starCount > 0.0 && ok ==>
           DrawsOwnColor(cfg.color.name) || cfg.color.name in COLOR_CODES_W_INVIS) &&
        (cfg.color.Pair? && variant == JsScript && cfg.color.first == "" ==> ok) &&
        (cfg.color.Pair? && math.Sane() && cfg.starCount > 0.0 && (variant == FScreen || cfg.color.first != "") ==> !ok)
      ensures s.onDeath.BurstShell? && variant == RootScript ==>
        var cfg, n := s.onDeath.shell, LoopCount(s.onDeath.shell.starCount);
        var cue := if cfg.shellSize < 2.0 then "burstSmall" else "burst";
        stars.active == Pushed(old(stars.active), RootBurstStars(old(stars.free), math, cfg, s.x, s.y, old(rng).tape, old(rng).pos, n), StarKey) &&
        stars.free == Popped(old(stars.free), n) &&
        rng.pos == old(rng).pos + n + SoundDraws(cue) && cues == old(cues) + [cue]
    {
      ok := true;
      match s.onDeath
      case NoDeath =>
      case MaybeCrackle =>
        var u := rng.Peek();
        rng := rng.Skip();
        if u < 0.2 {
          PlaySound("crackleSmall");
        }
      case BurstShell(cfg) =>
        if variant == RootScript {
          RootBurst(cfg, s.x, s.y);
          PushedExtends(old(stars.active), RootBurstStars(old(stars.free), math, cfg, s.x, s.y, old(rng).tape, old(rng).pos, LoopCount(cfg.starCount)), StarKey);
        } else {
          ok := Burst(cfg, s.x, s.y, s.speedX, s.speedY);
          if ok {
            GrownExtends(old(stars.active), stars.active, s.x, s.y, cfg.starLife, cfg.starLifeVariation);
          }
        }
    }

    /** Star.returnInstance(instance): the death callback runs, then the record
        goes onto the free list with its callback cleared. When the callback
        throws, the record is lost: it has already left its bucket and never
        reaches the free list. */
    method ReturnStar(s: Star) returns (ok: bool)
      requires Valid()
      modifies this`rng, this`cues, stars, flashes
      ensures Valid() && rng.tape == old(rng).tape
      ensures ok ==> Extends(old(stars.active), stars.active)
      ensures ok ==>
        |stars.free| > 0 && stars.free[|stars.free| - 1] == s.(onDeath := NoDeath) &&
        stars.free[..|stars.free| - 1] <= old(stars.free)
      ensures !ok ==> variant != RootScript && s.onDeath.BurstShell?
      ensures !s.onDeath.BurstShell? ==>
        ok && stars.active == old(stars.active) && stars.free == old(stars.free) + [s.(onDeath := NoDeath)] &&
        flashes.active == old(flashes.active)
      ensures s.onDeath == NoDeath ==> rng == old(rng) && cues == old(cues)
    {
      ghost var a0, f0 := stars.active, stars.free;
      ok := true;
      if s.onDeath != NoDeath {
        ok := RunDeath(s);
      }
      if ok {
        ghost var fr := stars.free;
        CalmPush(fr, s);
        stars.Release(s.(onDeath := NoDeath));
        assert stars.free[..|stars.free| - 1] == fr;
        assert fr <= f0 && Extends(a0, stars.active);
      }
    }

    /** The state a frame works on, as a value. */
    function Now(): (s: Snap)
      reads this, stars, sparks, flashes
      ensures s.stars == stars.active && s.starFree == stars.free && s.sparks == sparks.active
      ensures s.sparkFree == sparks.free && s.rng == rng && s.flashes == flashes.active && s.cues == cues
    {
      Snap(stars.active, stars.free, sparks.active, sparks.free, rng, flashes.active, cues)
    }

    /** A star whose life runs out: `stars.splice(i, 1); Star.returnInstance(star)`
        with the life already decremented. Only the callback can throw. */
    method DyingStar(c: string, st: Step, i: nat, ghost w: WalkStart) returns (ok: bool)
      requires Valid() && w.c == c && w.st == st && Walking(math, w, i, Now()) && 0 < i && Dies(w.S[i - 1].Motion(), w.st)
      modifies this`rng, this`cues, stars, flashes
      ensures Valid() && rng.tape == w.at.rng.tape
      ensures ok ==> Walking(math, w, i - 1, Now())
      ensures !ok ==> variant != RootScript
    {
      ghost var s0 := Now();
      WalkAt(math, w, i, s0);
      var x := stars.RemoveAt(c, i - 1);
      ghost var a1 := stars.active;
      var dead := x.(life := x.life - st.timeStep);
      RetiredIsReturned(x, st);
      ok := ReturnStar(dead);
      if ok {
        DeathStep(math, w, i, s0, a1, Now());
      }
    }

    /** `if (star.sparkFreq)` and the emission loop of a star that survives
        the step, at its new position: its trail, two draws per spark. */
    method StarEmission(x: Star, st: Step) returns (ok: bool)
      requires Valid() && !Dies(x.Motion(), st)
      modifies this`rng, sparks
      ensures Valid() && rng.tape == old(rng).tape
      ensures ok ==>
        rng.pos == old(rng).pos + 2 * StarEmits(x, st) &&
        sparks.active == Pushed(old(sparks.active), StarTrail(math, x, st, old(rng).tape, old(rng).pos), SparkKey) &&
        sparks.free == Popped(old(sparks.free), StarEmits(x, st))
      ensures !ok ==> variant != RootScript
    {
      ok := true;
      ghost var n, p0 := StarEmits(x, st), rng.pos;
      StarTrailIs(math, x, st, rng.tape, rng.pos);
      if st.emits && x.sparkFreq > 0.0 {
        var k := Advance(x.Motion(), st);
        var t0 := x.sparkTimer - st.timeStep;
        assert n == EmitCount(t0, x.sparkFreq);
        var _, ok1 := EmitSparks(k.x, k.y, x.sparkColor, x.sparkSpeed, x.sparkLife, t0, x.sparkFreq);
        ok := ok1;
        assert ok ==> rng.pos == p0 + 2 * n;
      } else {
        assert sparks.free == Popped(sparks.free, 0);
      }
    }

    /** A star that lives on: prev and position, drag and gravity in place,
        then, when the population emits and sparkFreq is set, the emission loop
        from `sparkTimer - timeStep` at the new position. Only a spark push can
        throw. */
    method SurvivingStar(c: string, st: Step, i: nat, ghost w: WalkStart) returns (ok: bool)
      requires Valid() && w.c == c && w.st == st && Walking(math, w, i, Now()) && 0 < i && !Dies(w.S[i - 1].Motion(), st)
      modifies this`rng, sparks, stars`active
      ensures Valid() && rng.tape == w.at.rng.tape
      ensures ok ==> Walking(math, w, i - 1, Now())
      ensures !ok ==> variant != RootScript
    {
      ghost var s0 := Now();
      WalkAt(math, w, i, s0);
      var x := stars.active[c][i - 1];
      stars.Put(c, i - 1, StepStar(x, st));
      ok := StarEmission(x, st);
      if ok {
        SurvivorStep(math, w, i, s0, Now());
      }
    }

    /** The reverse walk `for (let i = stars.length - 1; i >= 0; i--)` of the
        star bucket c in a step st, until a push throws. Stars that the walk's
        callbacks push onto the bucket sit behind the index and are not
        visited. */
    method WalkStars(c: string, st: Step) returns (ok: bool)
      requires Valid() && c in stars.active
      modifies this`rng, this`cues, stars, sparks, flashes
      ensures Valid() && rng.tape == old(rng).tape
      ensures ok ==> Walked(math, c, st, old(Now()), Now())
      ensures !ok ==> variant != RootScript
    {
      ghost var w := WalkStart(c, stars.active[c], st, Now());
      WalkBegins(math, w);
      var i: nat := |stars.active[c]|;
      ok := true;
      while i > 0
        invariant Valid() && Walking(math, w, i, Now())
        decreases i
      {
        WalkAt(math, w, i, Now());
        if Dies(stars.active[c][i - 1].Motion(), st) {
          ok := DyingStar(c, st, i, w);
        } else {
          ok := SurvivingStar(c, st, i, w);
        }
        if !ok {
          return;
        }
        i := i - 1;
      }
      WalkEnds(math, w, Now());
    }

    /** The spark walk of bucket c, as it found the bucket S, the buckets A0
        and the free list F0, after the sparks from index i on. */
    ghost predicate SparkWalking(c: string, st: Step, i: nat, S: seq<Spark>, A0: map<string, seq<Spark>>, F0: seq<Spark>)
      reads this, stars, sparks
    {
      Valid() && i <= |S| && sparks.active == A0[c := SparkWalkState(S, i, st)] &&
      sparks.free == F0 + RetiredSparks(S[i..], st)
    }

    /** One pass of the spark walk: the spark at index i - 1 loses the time step
        from its life; a dead one is spliced out and goes onto the free list, a
        live one is stepped in place. */
    method SparkPass(c: string, st: Step, i: nat, ghost S: seq<Spark>, ghost A0: map<string, seq<Spark>>, ghost F0: seq<Spark>)
      requires SparkWalking(c, st, i, S, A0, F0) && 0 < i
      modifies sparks
      ensures SparkWalking(c, st, i - 1, S, A0, F0)
    {
      var p := sparks.active[c][i - 1];
      ghost var before, after := SparkWalkState(S, i, st), SparkWalkState(S, i - 1, st);
      UpdateTwice(A0, c, before, after);
      if Dies(p.Motion(), st) {
        SparkWalkRemove(S, i, st);
        var _ := sparks.RemoveAt(c, i - 1);
        assert sparks.active == A0[c := before][c := after];
        assert p == S[i - 1];
        SparkRetiredOnto(F0, S, i, st);
        sparks.Release(RetireSpark(p, st));
      } else {
        SparkWalkPut(S, i, st);
        sparks.Put(c, i - 1, StepSpark(p, st));
        assert sparks.active == A0[c := before][c := after];
      }
    }

    /** The reverse walk of the spark bucket c. Sparks have no callback, so
        nothing but the bucket and the free list changes: the bucket holds its
        live sparks stepped, in order, and the dead ones are on the free list
        in walk order. */
    method WalkSparks(c: string, st: Step)
      requires Valid() && c in sparks.active
      modifies sparks
      ensures Valid()
      ensures sparks.active == old(sparks.active)[c := SteppedSparks(old(sparks.active[c]), st)]
      ensures sparks.free == old(sparks.free) + RetiredSparks(old(sparks.active[c]), st)
    {
      ghost var S, A0, F0 := sparks.active[c], sparks.active, sparks.free;
      assert S[..|S|] == S && S[|S|..] == [] && SparkWalkState(S, |S|, st) == S && A0[c := S] == A0;
      var i: nat := |sparks.active[c]|;
      while i > 0
        invariant SparkWalking(c, st, i, S, A0, F0)
        decreases i
      {
        SparkPass(c, st, i, S, A0, F0);
        i := i - 1;
      }
      assert S[0..] == S && S[..0] == [] && SparkWalkState(S, 0, st) == SteppedSparks(S, st);
    }

    /** One colour of the eager frame, `COLOR_CODES_W_INVIS.forEach`: its star
        bucket is walked, then its spark bucket. */
    method EagerColour(keys: seq<string>, k: nat, sst: Step, pst: Step,
                       ghost S0: map<string, seq<Star>>, ghost P0: map<string, seq<Spark>>)
      returns (ok: bool)
      requires Valid() && k < |keys| && Distinct(keys) && keys[k] in stars.active && keys[k] in sparks.active
      requires StarsAdvanced(S0, keys[..k], sst, stars.active)
      requires SparksAdvanced(P0, keys[..k], pst, sparks.active)
      modifies this`rng, this`cues, stars, sparks, flashes
      ensures Valid() && rng.tape == old(rng).tape
      ensures ok ==> StarsAdvanced(S0, keys[..k + 1], sst, stars.active)
      ensures ok ==> SparksAdvanced(P0, keys[..k + 1], pst, sparks.active)
    {
      var c := keys[k];
      ghost var done := keys[..k];
      assert c !in done && keys[..k + 1] == done + [c];
      ghost var n0 := Now();
      ok := WalkStars(c, sst);
      if !ok {
        return;
      }
      WalkedAdvances(math, S0, done, c, sst, n0, Now());
      SparksAdvancedGrow(P0, done, pst, n0.sparks, sparks.active);
      AdvanceSparks(c, done, pst, P0);
    }

    /** The spark walk of a colour not yet walked advances the frame by it. */
    method AdvanceSparks(c: string, ghost done: seq<string>, pst: Step, ghost P0: map<string, seq<Spark>>)
      requires Valid() && c in sparks.active && c !in done
      requires SparksAdvanced(P0, done, pst, sparks.active)
      modifies sparks
      ensures Valid() && sparks.active.Keys == old(sparks.active).Keys
      ensures SparksAdvanced(P0, done + [c], pst, sparks.active)
    {
      ghost var p0 := sparks.active;
      WalkSparks(c, pst);
      SparksAdvancedWalk(P0, done, c, pst, p0, sparks.active);
    }

    /** One key of the star pass of script.js, `Object.keys(Star.active)` as
        the pass began. */
    method RootStarPass(keys: seq<string>, k: nat, sst: Step, ghost S0: map<string, seq<Star>>)
      requires Valid() && variant == RootScript && k < |keys| && Distinct(keys) && keys[k] in S0
      requires StarsAdvanced(S0, keys[..k], sst, stars.active)
      modifies this`rng, this`cues, stars, sparks, flashes
      ensures Valid() && rng.tape == old(rng).tape
      ensures StarsAdvanced(S0, keys[..k + 1], sst, stars.active)
      ensures Extends(old(sparks.active), sparks.active)
    {
      var c := keys[k];
      assert c !in keys[..k] && keys[..k + 1] == keys[..k] + [c];
      ghost var n0 := Now();
      var ok := WalkStars(c, sst);
      WalkedAdvances(math, S0, keys[..k], c, sst, n0, Now());
    }

    /** One key of the spark pass of script.js. */
    method RootSparkPass(keys: seq<string>, k: nat, pst: Step, ghost P0: map<string, seq<Spark>>)
      requires Valid() && k < |keys| && Distinct(keys) && keys[k] in sparks.active
      requires SparksAdvanced(P0, keys[..k], pst, sparks.active)
      modifies sparks
      ensures Valid() && sparks.active.Keys == old(sparks.active).Keys
      ensures SparksAdvanced(P0, keys[..k + 1], pst, sparks.active)
    {
      var c := keys[k];
      assert c !in keys[..k] && keys[..k + 1] == keys[..k] + [c];
      AdvanceSparks(c, keys[..k], pst, P0);
    }

    /** The frame of script.js: `[Star, Spark].forEach`, each over the keys its
        map has when its pass begins. */
    method RootFrame(sst: Step, pst: Step)
      requires Valid() && variant == RootScript
      modifies this`rng, this`cues, stars, sparks, flashes
      ensures Valid() && rng.tape == old(rng).tape
      ensures StarsStepped(old(stars.active), sst, stars.active)
      ensures SparksStepped(old(sparks.active), pst, sparks.active)
    {
      ghost var S0, P0 := stars.active, sparks.active;
      var keys := stars.order;
      var k: nat := 0;
      assert keys[..0] == [] && forall c :: c in S0 <==> c in keys;
      assert Extends(P0, P0);
      while k < |keys|
        invariant Valid() && rng.tape == old(rng).tape && k <= |keys|
        invariant StarsAdvanced(S0, keys[..k], sst, stars.active) && Extends(P0, sparks.active)
        decreases |keys| - k
      {
        ghost var q := sparks.active;
        RootStarPass(keys, k, sst, S0);
        ExtendsTrans(P0, q, sparks.active);
        k := k + 1;
      }
      assert keys[..k] == keys;
      StarsAdvancedAll(S0, keys, sst, stars.active);
      ghost var A1 := stars.active;
      ghost var P1 := sparks.active;
      keys := sparks.order;
      k := 0;
      assert keys[..0] == [] && forall c :: c in P1 <==> c in keys;
      SparksFromGrowth(P0, pst, P1);
      while k < |keys|
        invariant Valid() && rng.tape == old(rng).tape && k <= |keys|
        invariant sparks.active.Keys == P1.Keys && stars.active == A1
        invariant SparksAdvanced(P0, keys[..k], pst, sparks.active)
        decreases |keys| - k
      {
        RootSparkPass(keys, k, pst, P0);
        k := k + 1;
      }
      assert keys[..k] == keys;
      SparksAdvancedAll(P0, keys, pst, sparks.active);
    }

    /** The frame of js/script.js and fscreen.js: the seven colours in turn,
        then render, which drains the flashes. */
    method EagerFrame(sst: Step, pst: Step) returns (ok: bool)
      requires Valid() && variant != RootScript
      modifies this`rng, this`cues, stars, sparks, flashes
      ensures Valid() && rng.tape == old(rng).tape
      ensures ok ==> StarsStepped(old(stars.active), sst, stars.active)
      ensures ok ==> SparksStepped(old(sparks.active), pst, sparks.active)
      ensures ok ==> flashes.active == []
    {
      ghost var S0, P0 := stars.active, sparks.active;
      var keys := COLOR_CODES_W_INVIS;
      PaletteDistinct();
      var k: nat := 0;
      assert keys[..0] == [];
      assert StarsAdvanced(S0, [], sst, S0);
      SparksFromGrowth(P0, pst, P0);
      ok := true;
      while k < |keys|
        invariant Valid() && rng.tape == old(rng).tape && k <= |keys|
        invariant StarsAdvanced(S0, keys[..k], sst, stars.active)
        invariant SparksAdvanced(P0, keys[..k], pst, sparks.active)
        decreases |keys| - k
      {
        assert keys[k] in stars.order && keys[k] in sparks.order;
        ok := EagerColour(keys, k, sst, pst, S0, P0);
        if !ok {
          return;
        }
        k := k + 1;
      }
      assert keys[..k] == keys;
      StarsAdvancedAll(S0, keys, sst, stars.active);
      SparksAdvancedAll(P0, keys, pst, sparks.active);
      flashes.Drain();
    }

    /** update(frameTime, lag). A paused js/script.js or fscreen.js frame does
        nothing. Otherwise every bucket the frame found starts, afterwards, with
        its particles stepped (survivors in order, the dead retired; what the
        frame pushed sits behind them), and the eager variants render, which
        drains the flashes. A frame of an eager variant stops at the first
        callback that throws, without rendering; script.js never throws. */
    method Update(frameTime: real, lag: real) returns (ok: bool)
      requires Valid()
      modifies this`rng, this`cues, stars, sparks, flashes
      ensures Valid() && rng.tape == old(rng).tape
      ensures variant != RootScript && !Running() ==>
        ok && stars.active == old(stars.active) && stars.free == old(stars.free) &&
        sparks.active == old(sparks.active) && sparks.free == old(sparks.free) &&
        flashes.active == old(flashes.active) && rng == old(rng) && cues == old(cues)
      ensures ok && (variant == RootScript || Running()) ==>
        StarsStepped(old(stars.active), StarStep(variant, frameTime, lag, SIM_SPEED), stars.active) &&
        SparksStepped(old(sparks.active), SparkStep(variant, frameTime, lag, SIM_SPEED), sparks.active)
      ensures ok && variant != RootScript && Running() ==> flashes.active == []
      ensures variant == RootScript ==> ok
    {
      ok := true;
      if variant != RootScript && !Running() {
        return;
      }
      var sst := StarStep(variant, frameTime, lag, SIM_SPEED);
      var pst := SparkStep(variant, frameTime, lag, SIM_SPEED);
      if variant == RootScript {
        RootFrame(sst, pst);
      } else {
        ok := EagerFrame(sst, pst);
      }
    }
  }

  lemma PaletteDistinct()
    ensures Distinct(COLOR_CODES_W_INVIS)
  {
  }
}
