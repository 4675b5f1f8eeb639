/** Shell recipes and the pure parts of a shell's life: the options object the
    recipe functions build, what the Shell constructor makes of it, the launch
    geometry, the comet's trail settings and the burst glitter table. Everything
    here is a plain expression in the source. */
module Recipes {
  import opened Numerics
  import opened Palette

  /** The three copies of the engine: js/script.js, fscreen.js and script.js. */
  datatype Variant = JsScript | FScreen | RootScript

  datatype Option<T> = None | Some(value: T)

  /** A shell colour: one colour string (a palette colour, INVISIBLE or "random")
      or the two-element array of a split-colour shell. */
  datatype ColorSpec = Named(name: string) | Pair(first: string, second: string)

  /** The property key JavaScript derives from a colour when it indexes a bucket
      object: a string is itself, an array is its elements joined by commas. */
  function PropertyKey(c: ColorSpec): string
  {
    match c
    case Named(s) => s
    case Pair(a, b) => a + "," + b
  }

  /** The truthiness of an optional colour (`options.color || ...`). */
  predicate Truthy(c: Option<ColorSpec>)
  {
    c.Some? && c.value != Named("")
  }

  /** The options object given to `new Shell(options)`. A numeric option that the
      object leaves out is 0 here: `||` and `!` treat 0 and undefined alike. */
  datatype ShellOptions = ShellOptions(
    shellSize: real,
    spreadSize: real,
    starLife: real,
    starDensity: real,
    color: Option<ColorSpec>,
    glitter: string,
    glitterColor: Option<ColorSpec>,
    starCount: real,
    starLifeVariation: real,
    horsetail: bool,
    fallingLeaves: bool)

  /** The fields of a constructed Shell that the engine reads. */
  datatype ShellConfig = ShellConfig(
    shellSize: real,
    spreadSize: real,
    starLife: real,
    starLifeVariation: real,
    starCount: real,
    color: ColorSpec,
    glitter: string,
    glitterColor: ColorSpec,
    horsetail: bool,
    fallingLeaves: bool)

  /** `Math.max(6, scaledSize * scaledSize * density)` with `scaledSize = spreadSize / 54`. */
  function StarCountDefault(spreadSize: real, density: real): (n: real)
    ensures n >= 6.0
    ensures n >= (spreadSize / 54.0) * (spreadSize / 54.0) * density
    ensures n == 6.0 || n == (spreadSize / 54.0) * (spreadSize / 54.0) * density
  {
    var scaledSize := spreadSize / 54.0;
    Max(6.0, scaledSize * scaledSize * density)
  }

  /** The Shell constructor: `Object.assign(this, options)` followed by the
      variant's defaults. `colorDraw` is the Math.random() value randomColor()
      uses when the options carry no colour. */
  function Configure(v: Variant, o: ShellOptions, colorDraw: Unit): ShellConfig
  {
    var color := if Truthy(o.color) then o.color.value
                 else Named(RandomColor(if v == RootScript then WIDE_COLOR_CODES else COLOR_CODES, colorDraw));
    if v == RootScript then
      ShellConfig(o.shellSize, o.spreadSize, o.starLife, o.starLifeVariation,
                  if o.starCount != 0.0 then o.starCount else 100.0,
                  color, o.glitter,
                  if o.glitterColor.Some? then o.glitterColor.value else Named(""),
                  o.horsetail, o.fallingLeaves)
    else
      ShellConfig(o.shellSize, o.spreadSize, o.starLife,
                  if o.starLifeVariation != 0.0 then o.starLifeVariation else 0.125,
                  if o.starCount != 0.0 then o.starCount
                  else StarCountDefault(o.spreadSize, if o.starDensity != 0.0 then o.starDensity else 1.0),
                  color, o.glitter,
                  if Truthy(o.glitterColor) then o.glitterColor.value else color,
                  o.horsetail, o.fallingLeaves)
  }

  /** What the constructors of js/script.js and fscreen.js default: a star count
      of at least 6 from the spread and density (density 1 when absent), a life
      variation of 0.125, and the glitter colour falling back to the shell colour. */
  lemma ConfigureDefaults(v: Variant, o: ShellOptions, u: Unit)
    requires v != RootScript
    ensures var s := Configure(v, o, u);
      (o.starCount == 0.0 ==>
         s.starCount >= 6.0 &&
         s.starCount >= (o.spreadSize / 54.0) * (o.spreadSize / 54.0) * (if o.starDensity != 0.0 then o.starDensity else 1.0)) &&
      (o.starCount != 0.0 ==> s.starCount == o.starCount) &&
      (o.starLifeVariation == 0.0 ==> s.starLifeVariation == 0.125) &&
      (Truthy(o.color) ==> s.color == o.color.value) &&
      (!Truthy(o.color) ==> s.color.Named? && s.color.name in COLOR_CODES) &&
      (!Truthy(o.glitterColor) ==> s.glitterColor == s.color)
  {
  }

  /** script.js: the star count defaults to 100 and a missing colour comes from
      its wider palette. */
  lemma ConfigureRootDefaults(o: ShellOptions, u: Unit)
    ensures var s := Configure(RootScript, o, u);
      (o.starCount == 0.0 ==> s.starCount == 100.0) &&
      (!Truthy(o.color) ==> s.color.Named? && s.color.name in WIDE_COLOR_CODES)
  {
  }

  /** crysanthemumShell(size) of js/script.js and fscreen.js, drawing from the
      tape in the order the source calls Math.random(). The pistil and streamer
      choices of js/script.js consume their draws, but no core code reads them. */
  function Crysanthemum(v: Variant, size: real, rng: Random): (r: (ShellOptions, Random))
    requires v != RootScript
    ensures var o := r.0;
      o.shellSize == size && o.spreadSize == 300.0 + size * 100.0 && o.starLife == 900.0 + size * 200.0 &&
      (o.glitter == "light" <==> rng.tape(rng.pos) < 0.25) &&
      (o.glitter != "light" ==> o.glitter == "") &&
      o.starDensity == (if rng.tape(rng.pos) < 0.25 then 1.1 else 1.25) &&
      o.color.Some? &&
      (o.color.value.Pair? <==> rng.tape(rng.pos + 1) >= 0.72) &&
      (o.color.value.Named? ==> o.color.value.name in COLOR_CODES) &&
      (o.color.value.Pair? ==> o.color.value.first in COLOR_CODES && o.color.value.second in COLOR_CODES) &&
      o.glitterColor.Some? && o.glitterColor.value.Named? &&
      (v == FScreen ==> o.glitterColor.value.name == GOLD) &&
      (v == JsScript ==> o.glitterColor.value.name in [GOLD, WHITE]) &&
      o.starCount == 0.0 && o.starLifeVariation == 0.0 && !o.horsetail && !o.fallingLeaves &&
      r.1.tape == rng.tape && r.1.pos >= rng.pos + 3
    ensures v == FScreen ==> r.1.pos == rng.pos + (if rng.tape(rng.pos + 1) < 0.72 then 3 else 4)
    ensures v == JsScript ==>
      var plainWhite := rng.tape(rng.pos + 1) < 0.72 && rng.tape(rng.pos + 3) >= 0.42 &&
                        RandomColor(COLOR_CODES, rng.tape(rng.pos + 2)) == WHITE;
      r.1.pos == rng.pos + (if plainWhite then 5 else 6)
  {
    var glitter := rng.Peek() < 0.25;
    var r1 := rng.Skip();
    var single := r1.Peek() < 0.72;
    var r2 := r1.Skip();
    var first := RandomColor(COLOR_CODES, r2.Peek());
    var r3 := r2.Skip();
    var color := if single then Named(first) else Pair(first, RandomColor(COLOR_CODES, r3.Peek()));
    var r4 := if single then r3 else r3.Skip();
    var base := ShellOptions(size, 300.0 + size * 100.0, 900.0 + size * 200.0,
                             if glitter then 1.1 else 1.25, Some(color),
                             if glitter then "light" else "", Some(Named(GOLD)),
                             0.0, 0.0, false, false);
    if v == FScreen then (base, r4)
    else
      var pistil := single && r4.Peek() < 0.42;
      var r5 := if single then r4.Skip() else r4;
      var r6 := if pistil then r5.Skip() else r5;
      var glitterColor := WhiteOrGold(r6.Peek());
      var r7 := r6.Skip();
      var r8 := if !pistil && color != Named(WHITE) then r7.Skip() else r7;
      (base.(glitterColor := Some(Named(glitterColor))), r8)
  }

  /** The options `launchShell(size)` of script.js builds; `colorDraw` feeds its randomColor(). */
  function LaunchShellOptions(size: real, colorDraw: Unit): (o: ShellOptions)
    ensures o.spreadSize == 300.0 + 100.0 * size && o.starLife == 900.0 + 200.0 * size
    ensures o.shellSize == size && o.glitter == "light" && o.glitterColor == Some(Named(GOLD))
    ensures o.color.Some? && o.color.value.Named? && o.color.value.name in WIDE_COLOR_CODES
  {
    ShellOptions(size, 300.0 + size * 100.0, 900.0 + size * 200.0, 0.0,
                 Some(Named(RandomColor(WIDE_COLOR_CODES, colorDraw))), "light", Some(Named(GOLD)),
                 0.0, 0.0, false, false)
  }

  /** The shell launchShell(size) of script.js configures: spread and star life
      growing with the size, a 100-star light gold glitter, a wide palette colour. */
  lemma LaunchShellConfigured(size: real, u: Unit)
    ensures var cfg := Configure(RootScript, LaunchShellOptions(size, u), u);
      cfg.spreadSize == 300.0 + 100.0 * size && cfg.starLife == 900.0 + 200.0 * size &&
      cfg.starCount == 100.0 && cfg.glitter == "light" && cfg.glitterColor == Named(GOLD) &&
      cfg.color.Named? && cfg.color.name in WIDE_COLOR_CODES
  {
    var o := LaunchShellOptions(size, u);
    assert o.starCount == 0.0 && Truthy(o.color);
  }

  // ---------------------------------------------------------------- launch geometry

  /** `launchX = position * (width - hpad * 2) + hpad` with hpad = 60 (all variants). */
  function LaunchX(position: real, width: real): (x: real)
    ensures 0.0 <= position <= 1.0 && width >= 120.0 ==> 60.0 <= x <= width - 60.0
  {
    var hpad := 60.0;
    assert 0.0 <= position <= 1.0 && width >= 120.0 ==>
      0.0 <= position * (width - hpad * 2.0) <= width - hpad * 2.0 by {
      if 0.0 <= position <= 1.0 && width >= 120.0 {
        MulNonNegative(1.0 - position, width - hpad * 2.0);
        MulNonNegative(position, width - hpad * 2.0);
      }
    }
    position * (width - hpad * 2.0) + hpad
  }

  /** The height at which a shell bursts. js/script.js and fscreen.js interpolate
      between `minHeight = height - height * 0.45` and the padding vpad = 50;
      script.js measures launchHeight from the bottom of the stage. */
  function BurstY(v: Variant, height: real, launchHeight: real): (y: real)
    ensures v != RootScript ==> y == 0.55 * height - launchHeight * (0.55 * height - 50.0)
    ensures v == RootScript ==> height - y == height * launchHeight
  {
    if v == RootScript then height - height * launchHeight
    else
      var vpad := 50.0;
      var minHeight := height - height * 0.45;
      minHeight - launchHeight * (minHeight - vpad)
  }

  /** For a launchHeight in [0, 1] a shell bursts inside the stage: in
      js/script.js and fscreen.js between the padding 50 and minHeight, the
      stage being tall enough for the padding, and in script.js between the
      top and the bottom. */
  lemma BurstInsideStage(v: Variant, height: real, launchHeight: real)
    requires 0.0 <= launchHeight <= 1.0
    requires if v == RootScript then height >= 0.0 else 0.55 * height >= 50.0
    ensures v == RootScript ==> 0.0 <= BurstY(v, height, launchHeight) <= height
    ensures v != RootScript ==> 50.0 <= BurstY(v, height, launchHeight) <= 0.55 * height
  {
    var y := BurstY(v, height, launchHeight);
    if v == RootScript {
      var climb := ScaledFraction(height, launchHeight);
      assert y == height - climb;
    } else {
      var room := 0.55 * height - 50.0;
      var climb := ScaledFraction(room, launchHeight);
      assert y == 0.55 * height - climb;
    }
  }

  /** A fraction u in [0, 1] of a non-negative length h lies between 0 and h. */
  lemma ScaledFraction(h: real, u: real) returns (p: real)
    requires 0.0 <= u <= 1.0 && h >= 0.0
    ensures p == h * u && 0.0 <= p <= h
  {
    p := h * u;
    MulNonNegative(h, u);
    MulNonNegative(h, 1.0 - u);
    assert h * (1.0 - u) == h - h * u;
  }

  /** `launchDistance = launchY - burstY` with the shell starting at the bottom. */
  function LaunchDistance(v: Variant, height: real, launchHeight: real): real
  {
    height - BurstY(v, height, launchHeight)
  }

  /** A higher launchHeight means a longer climb, on every stage that is taller
      than the padding allows (js/script.js, fscreen.js) or simply not empty (script.js). */
  lemma HigherMeansFarther(v: Variant, height: real, lo: real, hi: real)
    requires lo < hi
    requires if v == RootScript then height > 0.0 else 0.55 * height > 50.0
    ensures LaunchDistance(v, height, lo) < LaunchDistance(v, height, hi)
  {
    DistanceAffine(v, height, lo);
    DistanceAffine(v, height, hi);
    if v == RootScript {
      MulPositive(hi - lo, height);
      assert hi * height - lo * height == (hi - lo) * height;
    } else {
      var k := 0.55 * height - 50.0;
      MulPositive(hi - lo, k);
      assert hi * k - lo * k == (hi - lo) * k;
    }
  }

  /** The launch distance is affine in launchHeight. */
  lemma DistanceAffine(v: Variant, height: real, h: real)
    ensures LaunchDistance(v, height, h) ==
      if v == RootScript then h * height else 0.45 * height + h * (0.55 * height - 50.0)
  {
  }

  /** `Math.pow(launchDistance * 0.04, 0.64)`. */
  function LaunchVelocity(m: MathLib, distance: real): real
  {
    m.pow(distance * 0.04, 0.64)
  }

  /** Taller shells launch faster: with Math.pow increasing in its base, the comet
      speed grows with launchHeight. */
  lemma TallerLaunchesFaster(m: MathLib, v: Variant, height: real, lo: real, hi: real)
    requires m.PowIncreasing(0.64)
    requires 0.0 <= lo < hi
    requires if v == RootScript then height > 0.0 else 0.55 * height > 50.0
    ensures LaunchVelocity(m, LaunchDistance(v, height, lo)) < LaunchVelocity(m, LaunchDistance(v, height, hi))
  {
    HigherMeansFarther(v, height, lo, hi);
    var dLo, dHi := LaunchDistance(v, height, lo), LaunchDistance(v, height, hi);
    assert dLo >= 0.0 by {
      if v == RootScript { assert dLo == height * lo; } else {
        assert dLo == 0.45 * height + lo * (0.55 * height - 50.0);
      }
    }
    assert m.pow(dLo * 0.04, 0.64) < m.pow(dHi * 0.04, 0.64);
  }

  /** The comet's trail settings in js/script.js and fscreen.js: spark frequency
      `32 / quality`, overridden by 8 at high quality and, in js/script.js, by
      `20 / quality` for willow or falling-leaves shells. */
  function CometSparkFreq(v: Variant, quality: real, isHighQuality: bool, willowLike: bool): (f: real)
    requires quality > 0.0
    ensures f > 0.0
    ensures v == JsScript && willowLike ==> f == 20.0 / quality
    ensures !(v == JsScript && willowLike) ==> f == (if isHighQuality then 8.0 else 32.0 / quality)
  {
    var f0 := if isHighQuality then 8.0 else 32.0 / quality;
    if v == JsScript && willowLike then 20.0 / quality else f0
  }

  // ---------------------------------------------------------------- glitter

  /** One row of the burst glitter table: spark frequency, speed, life and life variation. */
  datatype Glitter = Glitter(freq: real, speed: real, life: real, variation: real)

  /** The glitter rows `burst` knows: light, medium (js/script.js only) and heavy. */
  function GlitterRow(v: Variant, glitter: string): (g: Option<Glitter>)
    ensures g.Some? ==> g.value.freq > 0.0 && g.value.life > 0.0 && g.value.variation == 2.0
    ensures glitter == "light" ==> g == Some(Glitter(400.0, 0.3, 300.0, 2.0))
    ensures glitter == "heavy" ==> g == Some(Glitter(80.0, 0.8, 1400.0, 2.0))
    ensures g.Some? <==> glitter == "light" || glitter == "heavy" || (glitter == "medium" && v == JsScript)
  {
    if glitter == "light" then Some(Glitter(400.0, 0.3, 300.0, 2.0))
    else if glitter == "medium" && v == JsScript then Some(Glitter(200.0, 0.44, 700.0, 2.0))
    else if glitter == "heavy" then Some(Glitter(80.0, 0.8, 1400.0, 2.0))
    else None
  }

  /** `sparkFreq = sparkFreq / quality` after the table. A glitter name the table
      lacks leaves sparkFreq undefined, so the quotient is NaN; NaN and 0 are both
      falsy for `if (star.sparkFreq)`, so 0 stands for it. */
  function GlitterFreq(v: Variant, glitter: string, quality: real): (f: real)
    requires quality > 0.0
    ensures f >= 0.0
    ensures GlitterRow(v, glitter).Some? ==> f == GlitterRow(v, glitter).value.freq / quality && f > 0.0
  {
    match GlitterRow(v, glitter)
    case Some(g) => g.freq / quality
    case None => 0.0
  }

  /** `this.starLife + Math.random() * this.starLife * this.starLifeVariation`:
      a burst star lives at least starLife and less than starLife * (1 + variation). */
  function StarLife(starLife: real, variation: real, u: Unit): (l: real)
    ensures starLife >= 0.0 && variation >= 0.0 ==> starLife <= l <= starLife + starLife * variation
    ensures starLife * variation > 0.0 ==> starLife <= l < starLife + starLife * variation
  {
    var w := starLife * variation;
    MulAssoc(u, starLife, variation);
    DrawBounds(u, w);
    ProductSign(starLife, variation);
    var d := u * starLife * variation;
    assert d == u * w;
    starLife + d
  }

  /** `star.sparkTimer = Math.random() * star.sparkFreq`: the first glitter spark
      is due within one period. */
  function GlitterTimer(freq: real, u: Unit): (t: real)
    ensures freq > 0.0 ==> 0.0 <= t < freq
    ensures freq == 0.0 ==> t == 0.0
  {
    DrawBounds(u, freq);
    u * freq
  }

  /** `const speed = this.spreadSize / 96`: the speed unit of a burst. */
  function BurstSpeed(cfg: ShellConfig): real
  {
    cfg.spreadSize / 96.0
  }

  /** `BurstFlash.add(x, y, this.spreadSize / 4)`: the radius of a burst's flash. */
  function FlashRadius(cfg: ShellConfig): real
  {
    cfg.spreadSize / 4.0
  }

  /** What the starFactory closure of burst captures: where the stars start, the
      speed unit `spreadSize / 96`, the life settings, the colour (or that each
      star draws its own), the speed offsets, and the glitter settings. */
  datatype Factory = Factory(
    x: real, y: real, speed: real, starLife: real, lifeVariation: real,
    color: string, perStarColor: bool, offX: real, offY: real,
    glitter: bool, sparkFreq: real, sparkSpeed: real, sparkLife: real, sparkLifeVariation: real,
    sparkColor: string)

  /** The closure of one burst. A glitter name outside the table leaves the spark
      speed and life undefined; 0 stands for them, and with a sparkFreq of 0 no
      spark is ever emitted with them. */
  function StarFactory(v: Variant, cfg: ShellConfig, color: string, perStarColor: bool, quality: real,
                       x: real, y: real, offX: real, offY: real): (f: Factory)
    requires quality > 0.0
    ensures f.x == x && f.y == y && f.offX == offX && f.offY == offY && f.speed == cfg.spreadSize / 96.0
    ensures f.starLife == cfg.starLife && f.lifeVariation == cfg.starLifeVariation
    ensures f.color == color && f.perStarColor == perStarColor && f.glitter == (cfg.glitter != "")
    ensures FactoryDraws(f) == ShellCallDraws(cfg, perStarColor)
    ensures f.sparkFreq >= 0.0
    ensures f.glitter && GlitterRow(v, cfg.glitter).Some? ==> f.sparkFreq > 0.0 && f.sparkLifeVariation == 2.0
    ensures GlitterRow(v, cfg.glitter).None? ==> f.sparkFreq == 0.0 && f.sparkLifeVariation == 0.25
  {
    var row := GlitterRow(v, cfg.glitter);
    Factory(x, y, BurstSpeed(cfg), cfg.starLife, cfg.starLifeVariation, color, perStarColor, offX, offY,
            cfg.glitter != "", GlitterFreq(v, cfg.glitter, quality),
            if row.Some? then row.value.speed else 0.0, if row.Some? then row.value.life else 0.0,
            if row.Some? then row.value.variation else 0.25, PropertyKey(cfg.glitterColor))
  }

  /** The Math.random() calls of one factory call after its jitter: a colour when
      each star draws its own, the life, the spin angle inside Star.add, and the
      glitter timer. */
  function FactoryDraws(f: Factory): nat
  {
    (if f.perStarColor then 1 else 0) + 2 + (if f.glitter then 1 else 0)
  }

  /** The draws of one call of a shell's star factory, known from the shell:
      its own colour when it draws one, life and spin, and the glitter timer. */
  function ShellCallDraws(cfg: ShellConfig, perStarColor: bool): nat
  {
    (if perStarColor then 1 else 0) + 2 + (if cfg.glitter != "" then 1 else 0)
  }

  // ---------------------------------------------------------------- word bursts

  datatype Point = Point(x: real, y: real)

  /** What MyMath.literalLattice returns: sample points of the rendered text and
      its bounding box. */
  datatype Lattice = Lattice(points: seq<Point>, width: real, height: real)

  /** The arguments createWordBurst passes to MyMath.literalLattice. */
  datatype LatticeQuery = LatticeQuery(text: string, density: nat, font: string, fontSizePx: int)

  /** js/script.js asks for 120px Arial with gap 4, fscreen.js for 100px Arial with
      gap 3, script.js for `Math.floor(110 * scale)` pixels of "Arial Black, Arial" with gap 4. */
  function WordQuery(v: Variant, text: string, scale: real): (q: LatticeQuery)
    ensures q.text == text
    ensures v == RootScript ==> q.fontSizePx as real <= 110.0 * scale < q.fontSizePx as real + 1.0
  {
    match v
    case JsScript => LatticeQuery(text, 4, "Arial", 120)
    case FScreen => LatticeQuery(text, 3, "Arial", 100)
    case RootScript => LatticeQuery(text, 4, "Arial Black, Arial", (110.0 * scale).Floor)
  }

  /** A lattice point re-centred on (x, y): `x + (point.x - width / 2)`. */
  function Recentre(p: Point, x: real, y: real, l: Lattice): (q: Point)
    ensures 0.0 <= p.x <= l.width ==> x - l.width / 2.0 <= q.x <= x + l.width / 2.0
    ensures 0.0 <= p.y <= l.height ==> y - l.height / 2.0 <= q.y <= y + l.height / 2.0
    ensures q.x - x == p.x - l.width / 2.0 && q.y - y == p.y - l.height / 2.0
  {
    Point(x + (p.x - l.width / 2.0), y + (p.y - l.height / 2.0))
  }
}
