# Fireworks particle engine

A Dafny model of the particle engine behind the three copies of the
New-Year fireworks page: `js/script.js`, `fscreen.js` and `script.js`. The
engine keeps two particle populations, stars and sparks. Each is a colour-keyed
object of active buckets plus a `_pool` free list of records for reuse. A third
pool, BurstFlash, queues the flashes of bursts until the next render.

Shells are built from option recipes and launched as comets. When a comet dies,
its `onDeath` callback bursts the shell into stars: `createBurst` spreads them
over rings in `js/script.js` and `fscreen.js`, and `script.js` spreads them
evenly round a circle. `createWordBurst` turns the rasterised points of a text
into sparks. Every frame, `update` walks each bucket from its end down:

- it takes a time step off each particle's life;
- it retires the particles whose life ran out;
- it moves the survivors, with drag and gravity;
- it lets glittering stars emit sparks;
- the dying stars' callbacks may burst further shells onto the buckets as the
  walk goes.

The model has one engine class, parameterised by the variant (`JsScript`,
`FScreen`, `RootScript`). The differences between the variants are:

- **Buckets.** `js/script.js` and `fscreen.js` have seven fixed buckets, and a
  push onto any other colour throws. `script.js` creates buckets as needed.
- **Spark emission.** Only the first two walk the `sparkTimer` loop.
- **Constants.** Drag, gravity and the time step per frame differ.
- **Pausing and sounds.** Each variant pauses and plays sounds in its own way.

How the model stands in for the rest of the world:

- **Records and pools.** Particle records are datatype values held in `Pool`
  objects: a map of buckets, the bucket order, and a free list. A field written
  in place is an entry of a bucket replaced.
- **Numbers.** JavaScript numbers are reals.
- **Oracles.** `Math.sin`, `Math.cos`, `Math.sqrt` and `Math.pow` are
  uninterpreted functions of a `MathLib` value.
- **Randomness.** `Math.random()` reads a tape of values in `[0, 1)`. Every
  operation up to one burst (a launch, a recipe, createBurst, a burst, a death
  callback, a word burst, an emission loop) states how many draws it consumes
  when it succeeds. A walk or a frame states its draws only when no dying star
  has a callback. The draws inside `MyMath.random` are not counted (see Left out).
- **Text rasterising.** `MyMath.literalLattice` is a function parameter.
- **Sounds.** A sound is a name appended to `cues`.
- **Errors.** The TypeError of a push onto a missing bucket is an
  `ok == false` result. An aborted frame propagates it and skips the render.

Modules, in dependency order:

- `Numerics`: reals, the random tape and loop counts.
- `Palette`: colour keys and `createParticleCollection`.
- `Recipes`: shell options, the Shell constructor, launch geometry and the
  glitter table.
- `BurstRings`: `createBurst`.
- `Kinematics`: one step of a particle and the emission count.
- `Seqs`: sequence facts.
- `Pools`: the pool classes and bucket pushes.
- `Particles`: the star and spark records, `add`, step and retire.
- `Frames`: what walks and bursts do to whole buckets.
- `Engine`: the engine class with `update`, `launch`, `burst` and
  `createWordBurst`.

The initial state is the constructor's parameters: the stage size, the device
class, the loaded sound buffers of `script.js` and the random tape.

## Model

| member | source | states |
|---|---|---|
| Numerics.LoopCount | js/script.js:274 | the passes of `for (i = 0; i < bound; i++)`: the least natural number not below the bound; zero exactly when the bound is at most 0 |
| Numerics.InclusiveLoopCount | js/script.js:269 | the passes of `for (i = 0; i <= bound; i++)`: the least natural number above the bound |
| Numerics.Max | js/script.js:166 | Math.max: at least both arguments and equal to one of them |
| Palette.RandomColor | js/script.js:136 | `codes[(Math.random() * codes.length) \| 0]` is always one of the codes |
| Palette.WhiteOrGold | js/script.js:138 | whiteOrGold is a palette colour, gold exactly when the draw is below 0.5 |
| Palette.Collection | js/script.js:230-234 | createParticleCollection has exactly the listed keys, each with an empty bucket |
| Palette.JoinedPairIsNoKey | fscreen.js:238 | an array colour used as a property key (its elements joined by a comma) is never a bucket key, so the push of a split-colour star finds no bucket |
| Palette.OneCharIsNoKey | js/script.js:209 | a one-character string such as `this.color[1]` of a colour string is no bucket key of either palette |
| Recipes.StarCountDefault | js/script.js:166 | the default star count is at least 6, at least `(spreadSize/54)^2 * density`, and equal to one of the two |
| Recipes.ConfigureDefaults | js/script.js:158-168 | the constructor of js/script.js and of fscreen.js (fscreen.js:138-148): a missing starCount gets the floor-6 default with density 1 when absent, a given one is kept, starLifeVariation defaults to 0.125, a missing colour is drawn from COLOR_CODES, a missing glitter colour is the shell colour |
| Recipes.ConfigureRootDefaults | script.js:109-113 | the constructor of script.js: starCount defaults to 100 and a missing colour comes from the eleven-colour palette |
| Recipes.Crysanthemum | js/script.js:142-153 | crysanthemumShell (also fscreen.js:307-315): spread `300 + 100*size`, star life `900 + 200*size`, light glitter exactly when the first draw is below 0.25 and density 1.1 or 1.25 with it, a split colour exactly when the second draw is at least 0.72, palette colours only, gold glitter colour in fscreen.js and white-or-gold in js/script.js, no starCount. It takes 3 draws in fscreen.js, 4 for a split colour. In js/script.js it takes 6 draws, or 5 for a single white colour without a pistil, which skips the streamer draw |
| Recipes.LaunchShellOptions | script.js:251-254 | the options of launchShell(size): spread `300 + 100*size`, star life `900 + 200*size`, light glitter in gold and a colour of the wide palette |
| Recipes.LaunchShellConfigured | script.js:250-254 | the shell launchShell builds has that spread and star life, 100 stars, light gold glitter and a wide-palette colour |
| Recipes.LaunchX | fscreen.js:156 | `launchX = position*(width - 120) + 60` lies in `[60, width - 60]` for a position in `[0, 1]` on a stage at least 120 wide |
| Recipes.BurstInsideStage | fscreen.js:155-158 | for a launchHeight in [0, 1], a shell of js/script.js or fscreen.js bursts between the padding 50 and minHeight `0.55*height`, on a stage tall enough for the padding. In script.js (script.js:119) it bursts between the top and the bottom of the stage |
| Recipes.HigherMeansFarther | fscreen.js:155-159 | a higher launchHeight gives a strictly longer launch distance on any stage tall enough for the padding (any non-empty stage in script.js) |
| Recipes.DistanceAffine | script.js:117-120 | the launch distance is `launchHeight*height` in script.js and `0.45h + launchHeight*(0.55h - 50)` in the other two |
| Recipes.TallerLaunchesFaster | fscreen.js:159-160 | with Math.pow increasing in its base, a higher launchHeight gives a strictly faster comet |
| Recipes.CometSparkFreq | js/script.js:177-180 | the comet's spark frequency is positive: 8 at high quality, otherwise `32/quality`, and `20/quality` for a willow or falling-leaves shell in js/script.js |
| Recipes.GlitterRow | js/script.js:189-191 | the glitter table (fscreen.js:183-187 lacks "medium"): light is (400, 0.3, 300, 2), heavy is (80, 0.8, 1400, 2), and a row exists exactly for light, heavy and, in js/script.js, medium |
| Recipes.GlitterFreq | fscreen.js:188 | the burst's spark frequency is the table frequency over the quality, positive for a known glitter; an unknown glitter gives the falsy NaN, which is 0 here |
| Recipes.StarLife | fscreen.js:196 | a burst star's life lies in `[starLife, starLife*(1 + variation))` |
| Recipes.GlitterTimer | fscreen.js:202 | the first glitter timer lies in `[0, sparkFreq)` |
| Recipes.StarFactory | fscreen.js:190-203 | the starFactory closure bursts at (x, y) with the given offsets, speed `spreadSize/96`, the shell's star life and variation and the given colour, and glitters exactly when the shell names a glitter. Each call draws once for its own colour when it has one, twice for life and spin, and once for a glitter timer. It has a non-negative spark frequency; a glittering closure of a known glitter has a positive frequency and variation 2; an unknown glitter has frequency 0 and variation 0.25 |
| Recipes.WordQuery | script.js:223-224 | the lattice query carries the text; in script.js the font size is `Math.floor(110*scale)` pixels |
| Recipes.Recentre | js/script.js:298-299 | a lattice point moves by `(x - width/2, y - height/2)`, so a point inside the text's box lands inside that box centred on (x, y) |
| BurstRings.CallDrawsAt | fscreen.js:273-276 | call t of a ring draws its jitter right after the draws of the t calls before it, and its factory's draws end within the ring's run |
| BurstRings.CallAnglesAt | fscreen.js:274-275 | call t's angle is `angleInc*t + angleOffset` plus its own jitter draw times `0.33*angleInc` |
| BurstRings.CallAnglesInSlot | fscreen.js:272-275 | with a positive increment, every call of a ring lies in its slot `[angleInc*t + phase, angleInc*t + phase + 0.33*angleInc)` |
| BurstRings.CallInSlot | fscreen.js:275 | a single call's angle lies in the slot of its index |
| BurstRings.Calls | fscreen.js:276 | the factory calls of a run, ring by ring in call order, number exactly the calls its rings make |
| BurstRings.CreateBurst | fscreen.js:261-279 | createBurst makes `floor(C/2) + 1` rings. Each ring has the size `cos((i/C_HALF)*PI/2)` of its index and `ceil(partsPerArc)` calls. Its phase lies in `[startAngle, startAngle + angleInc)` and its calls lie in their slots. The run is read off the tape in order: each ring's phase draw comes right after the rings before it, then its calls' jitters and factory draws. The generator ends after exactly the run's draws, a number BurstDraws fixes from the count, the arc and the factory's draws per call |
| BurstRings.RunDrawsFixed | fscreen.js:265-278 | the draws of a run depend only on its ring indices: one phase draw per ring and, per call, a jitter and the factory's draws |
| BurstRings.GrowRun | fscreen.js:265-278 | one pass of the outer loop keeps every ring the ring of its index and every draw inside the run, and adds the ring's draws |
| BurstRings.RunDrawnAt | fscreen.js:265-278 | ring i of a run takes its phase from the draw right after the rings before it, and its call angles and factory draw positions from the draws that follow |
| BurstRings.BuildRing | fscreen.js:266-277 | one ring: its size, then its phase `u*angleInc + startAngle` from the first draw, then per call the angle `angleInc*j + phase + u_j*angleInc*0.33` from the call's jitter draw, its factory draws right after it, all within the ring's share of the tape |
| BurstRings.RingCalls | fscreen.js:273-277 | the inner loop makes `ceil(partsPerArc)` calls with the angles and draw positions of CallAngles and CallDraws, consuming exactly their draws |
| BurstRings.RingAnglesIncrease | fscreen.js:272-275 | within one ring the angles strictly increase |
| BurstRings.FirstRingIsEquator | fscreen.js:266-267 | ring 0 has size `cos(0) = 1` |
| BurstRings.RingSizesNonIncreasing | fscreen.js:265-267 | ring sizes never grow from ring i to a later ring k up to C_HALF, and stay non-negative |
| BurstRings.PositiveCountMakesCalls | fscreen.js:262-273 | a positive count over a positive arc gives at least one ring, and its first ring makes at least one call |
| Kinematics.EmitCountBounds | js/script.js:319-323 | the emission loop makes the least count k with `timer + k*sparkFreq >= 0` |
| Kinematics.EmittedIsCountedSteps | js/script.js:320-321 | the loop's final timer is `timer + count*sparkFreq`, never negative, and below sparkFreq when the loop ran |
| Kinematics.EmitPass | js/script.js:320-321 | one pass leaves one spark fewer to emit and the same final timer |
| Kinematics.EmitCountIsLeast | js/script.js:320-321 | no smaller count brings the timer back to zero or above |
| Kinematics.VelocityAfterSteps | js/script.js:314-317 | after n survived steps life has dropped by n time steps, speedX is `speedX*drag^n` and speedY is `speedY*drag^n + gAcc*(1 + drag + ... + drag^(n-1))` |
| Kinematics.LifeAfterSteps | js/script.js:314 | after n survived steps life has dropped by exactly n time steps |
| Kinematics.SpeedXAfterSteps | js/script.js:317 | after n survived steps speedX is decayed by `drag^n` |
| Kinematics.SpeedYAfterSteps | js/script.js:317 | after n survived steps speedY is the decayed speed plus the decayed sum of gravity |
| Kinematics.GravityAccumulates | js/script.js:317 | without drag, n steps add exactly `n*gAcc` to speedY |
| Kinematics.SurvivorsAndRetiredPartition | js/script.js:313-315 | the particles a step keeps and those it retires are, as a multiset, the bucket |
| Kinematics.RetiredExactlyWhenDies | js/script.js:314-315 | a particle is kept exactly when its decremented life stays positive, and retired exactly when it does not |
| Kinematics.SubsetOfSurvivors | js/script.js:315 | every kept particle was in the bucket |
| Kinematics.SubsetOfRetired | js/script.js:315 | every retired particle was in the bucket |
| Seqs.ReversedAt | js/script.js:362-363 | element k of the reversal is element `\|s\| - 1 - k`: the order in which `pop` drains a list |
| Pools.Pool.constructor | js/script.js:230-237 | an eager pool starts with one empty bucket per key and an empty free list; a lazy pool (script.js:79) with no bucket |
| Pools.Pool.Take | js/script.js:240 | `_pool.pop()` yields the last free record and shortens the list, or nothing when it is empty |
| Pools.Pool.Append | script.js:86-87 | the push succeeds exactly in a lazy pool or onto an existing bucket (js/script.js:247); it appends to that bucket only, records a new key at the end of the order, and otherwise changes nothing |
| Pools.Pool.RemoveAt | js/script.js:315 | `splice(i, 1)` returns the record at i and removes exactly that position from its bucket |
| Pools.Pool.Put | js/script.js:316-317 | an in-place field update replaces exactly one bucket entry |
| Pools.Pool.Release | js/script.js:264 | returnInstance pushes the record onto the free list |
| Pools.Popped | js/script.js:240 | n pops leave a prefix of the free list, n records shorter or empty |
| Pools.PoppedTwice | js/script.js:240 | n pops then m pops are n + m pops |
| Pools.PushedOne | js/script.js:247 | pushing one record appends it to the bucket of its colour |
| Pools.PushedNext | js/script.js:247 | pushing a run one record at a time is pushing the run |
| Pools.PushedOneKey | js/script.js:247 | records of one colour land, in order, at the end of that colour's bucket |
| Pools.PushedAppend | js/script.js:247 | pushing two runs in turn is pushing their concatenation |
| Pools.PushedExtends | js/script.js:247 | pushes never remove a bucket or shorten one |
| Pools.ExtendsButTrans | js/script.js:315 | a walk's change to one bucket followed by growth changes only that bucket |
| Pools.ExtendsTrans | js/script.js:247 | growth followed by growth is growth |
| Pools.PushedSorted | js/script.js:247 | every record behind what a bucket held is of that bucket's colour |
| Pools.PushedFrom | js/script.js:247 | every record behind what a bucket held is one of the pushed records |
| Pools.PushedReplace | js/script.js:316 | pushes land behind a bucket's old contents, so replacing those contents before or after the pushes is the same |
| Pools.FlashPool.constructor | js/script.js:221 | BurstFlash starts with no active and no free flash |
| Pools.FlashPool.Add | fscreen.js:213-217 | BurstFlash.add pops the free list, writes x, y and radius, and appends the flash |
| Pools.FlashPool.Drain | fscreen.js:377-383 | the drain loop leaves nothing active and puts every active flash on the free list, last-added first |
| Particles.AddedStarStarts | js/script.js:239-249 | every variant's Star.add puts the star at (x, y) with prev equal to it, in the given colour, with life and fullLife the given life, a spin angle in [0, 2 PI) and spin speed 0.8, and leaves onDeath as the record had it. Its speed is `sin(angle)*speed`, `cos(angle)*speed` plus the offsets, which script.js does not add. js/script.js and fscreen.js also reset the record: visible, not heavy, size 3, spin radius 0, spark frequency 0, spark speed 1, timer 0, spark colour the star's, spark life 750 and variation 0.25 |
| Particles.FullResetForgetsRecord | fscreen.js:230-240 | js/script.js and fscreen.js write every field but onDeath, so the recycled record makes no difference |
| Particles.PartialResetKeepsRecord | script.js:80-89 | script.js leaves visibility, heaviness, size, spin radius and the spark settings as the recycled record had them |
| Particles.StepStarIsAdvance | js/script.js:316-317 | a survived step sets prev to the old position, moves exactly the Kinematics fields, and leaves every other field alone |
| Particles.RetiredIsSpent | js/script.js:314-315 | a star the step kills goes back to the pool with its life decremented to at most 0 and onDeath cleared (js/script.js:250), and every other field as it was |
| Particles.StarsAccounted | js/script.js:313-326 | a bucket step keeps or retires every star; kept stars have life above 0, retired ones life at most 0 and no callback |
| Particles.SparksAccounted | js/script.js:328-335 | the same for a spark bucket |
| Particles.SteppedAreSurvivorsStepped | js/script.js:313-317 | the kept stars are the survivors of the index walk, each stepped once, and the retired ones are its retired stars in walk order |
| Particles.NthBase | js/script.js:240 | the j-th pop yields the free list read top down, then blank records |
| Particles.CometColor | fscreen.js:164 | the comet colour is the shell's colour string unless it is "random" or an array, then white |
| Particles.CometStar | fscreen.js:161-176 | the comet (js/script.js:176-182, script.js:123-132) starts at the launch point with angle PI and speed `velocity` (times 1.2 for a horsetail), life `velocity*400` (100 for a horsetail), full, heavy, with the spin radius and the burst callback. The eager variants add the spark frequency CometSparkFreq gives (8 at high quality, else `32/quality`, and `20/quality` for a js/script.js willow or falling-leaves shell, always positive), spark speed 1 (0.5 for that js/script.js shell), timer 0, life variation 3, gold sparks for an invisible shell and spark life 320 (500 for a js/script.js willow). script.js keeps the recycled trail settings |
| Particles.Glittering | fscreen.js:199-203 | the glitter writes change only the six spark fields, put the first timer within one period, and nothing for a plain shell |
| Particles.SpawnedStarFromBurst | fscreen.js:190-203 | a factory star starts at the burst point, visible, light, size 3, with a life in the shell's range and no callback. Its speed is `ringSize * speed` along the call's angle plus the factory's offsets. Its colour is the factory's or a palette colour. It carries the factory's glitter settings, or a plain star's |
| Particles.TrailSparkDrawn | js/script.js:322 | an emitted spark takes its angle and then its speed from the next two draws |
| Particles.Trail | js/script.js:320-323 | n passes emit n sparks |
| Particles.TrailAt | js/script.js:320-323 | spark j of a trail is made from the draws of pass j |
| Particles.RootBurstStars | script.js:143-147 | star j of the loop is at angle `(j/count)*2 PI` over the j-th recycled record with the j-th spin draw |
| Particles.RootBurstStarAt | script.js:136-147 | every such star starts at the burst point in the shell's colour with life and fullLife exactly starLife, at angle `(i/count)*2 PI` with speed `spreadSize/96`. It crackles exactly when the glitter is light, and keeps the recycled record's heaviness and spin radius |
| Particles.WordSparks | js/script.js:296-301 | one spark per lattice point |
| Particles.WordSparksAt | js/script.js:296-301 | point j's spark reads its draws after those of the j points before it |
| Particles.WordSparksOnLattice | js/script.js:291-301 | each word spark sits on its re-centred point, inside the text's box around (x, y) in both directions. It has the given colour and life 1800 in js/script.js and fscreen.js, and a wide-palette colour and life 2500 in script.js (script.js:230-244). Its speed is 0.3 along a drawn angle in js/script.js, `pow(u, 0.3)*0.3` with a second draw u in fscreen.js, and 0.1 along the second draw's angle in script.js |
| Frames.CalmPush | js/script.js:250 | returnInstance clears the callback before the push, so the free list never holds a callback |
| Frames.WalkRemove | js/script.js:315 | splicing a dead star out of the bucket gives the next walk state, and the star joins the end of the retired run emitting nothing |
| Frames.WalkPut | js/script.js:316-317 | a survivor replaced by its stepped self gives the next walk state |
| Frames.DeathCalm | js/script.js:315 | a death without a shell to burst keeps the star buckets and free list exact |
| Frames.DeathQuiet | js/script.js:315 | a death without a callback keeps the sparks and the generator exact |
| Frames.WalkAt | js/script.js:313-314 | the star at the walk's index is still the one the walk found there |
| Frames.WalkEnds | js/script.js:313-326 | a walk with every index done has walked its bucket |
| Frames.SpliceKeeps | js/script.js:315 | splicing bucket c leaves every other bucket alone |
| Frames.DeathStep | js/script.js:314-315 | the splice and returnInstance of a dead star keep the walk going, whatever its callback adds behind the index |
| Frames.SurvivorStep | js/script.js:316-324 | stepping a survivor and pushing its trail with two draws per spark keeps the walk going |
| Frames.SurvivorCalm | js/script.js:316-317 | a survivor keeps the star buckets exact |
| Frames.SurvivorQuiet | js/script.js:318-324 | a survivor's trail follows the trails of every star behind it |
| Frames.SparkWalkRemove | js/script.js:330 | a dead spark leaves the bucket and joins the retired run |
| Frames.SparkRetiredOnto | js/script.js:330 | the free list gets the dead spark on top |
| Frames.SparkWalkPut | js/script.js:331-333 | a surviving spark is replaced by its stepped self |
| Frames.WalkEmitNext | js/script.js:313-324 | the walk's emissions grow by the next star's trail, drawn after every star behind it |
| Frames.StarEmits | js/script.js:318-323 | a star emits only when it survives, its population emits and its sparkFreq is set |
| Frames.StarTrail | js/script.js:318-323 | a star's trail has one spark per pass of its emission loop |
| Frames.TrailGrows | js/script.js:320-323 | one more pass pushes the next spark of the trail |
| Frames.WordSparkColor | js/script.js:291-293 | js/script.js and fscreen.js give the word spark the burst's colour |
| Frames.WordStateNext | js/script.js:296-301 | pushing point k's spark and popping one record moves the word burst on by one point and its draws |
| Frames.TrailPass | js/script.js:320-323 | a pass drawing at pos + 2k pushes the trail one spark longer |
| Frames.WalkEmissions | js/script.js:313-324 | a walk emits exactly its count of sparks |
| Frames.StarTrailAt | js/script.js:322 | every trail spark starts at the star's stepped position with no trail, in its spark colour, with its spark life |
| Frames.SilentWalk | script.js:160-171 | a population that does not emit (script.js) adds no sparks |
| Frames.SpawnedStars | fscreen.js:273-277 | n factory calls spawn n stars |
| Frames.SpawnedStarsAt | fscreen.js:276 | call j spawns over the j-th recycled record |
| Frames.SpawnedStarsPlanned | fscreen.js:276 | the spawned stars list, for every call, the star it spawns |
| Frames.SpawnedStarsFromBurst | fscreen.js:190-206 | every spawned star is a burst star of its factory, in the factory's colour or a palette colour |
| Frames.GrownExtends | fscreen.js:206 | a burst's growth keeps every bucket as a prefix |
| Frames.GrownTrans | js/script.js:208-209 | two parts of one burst grow the buckets as one |
| Frames.PushedGrown | fscreen.js:206 | pushing burst stars grows each bucket with stars of its colour from the burst point |
| Frames.SpawnedGrown | fscreen.js:206 | pushing a run's spawned stars grows the buckets by burst stars |
| Frames.SteppedStarsPrefix | js/script.js:313-326 | stepping a bucket steps any prefix of it first |
| Frames.SparksSteppedPrefix | js/script.js:328-335 | the same for sparks |
| Frames.StarsAdvancedGrow | js/script.js:311-336 | a frame's progress survives buckets that only grow |
| Frames.SparksAdvancedGrow | js/script.js:311-336 | the same for sparks |
| Frames.StarsAdvancedWalk | js/script.js:311-326 | walking a colour not yet walked advances the frame by that colour |
| Frames.SparksAdvancedWalk | js/script.js:327-335 | the same for a spark bucket |
| Frames.WalkedAdvances | js/script.js:311-326 | a finished walk advances the frame and leaves the spark buckets grown |
| Frames.SteppedStarsAppend | js/script.js:313 | stepping a bucket steps each part of it on its own |
| Frames.SteppedSparksAppend | js/script.js:328 | the same for sparks |
| Engine.PaletteDistinct | js/script.js:130 | the eager bucket keys are distinct |
| Engine.Engine.constructor | js/script.js:25-28 | the state at load time: empty pools with the seven eager buckets or none, `quality = 1` with isHighQuality in js/script.js and fscreen.js, `quality = 2` in script.js (script.js:8), and paused only in js/script.js (js/script.js:80, fscreen.js:56) |
| Engine.Engine.ConfigDidUpdate | js/script.js:97-104 | the quality flags follow the configured quality and sparks draw 0.75 wide at high quality, 1 otherwise; nothing else changes |
| Engine.Engine.TogglePause | fscreen.js:110-112 | fscreen.js pauses unless the toggle is true; js/script.js (js/script.js:122-126) takes a boolean toggle as the new value and flips otherwise, reconfiguring only on a change |
| Engine.Engine.Init | fscreen.js:102-108 | init leaves fscreen.js paused and js/script.js (js/script.js:113-120) running, with the configured quality |
| Engine.Engine.PlaySound | script.js:55-70 | the cue is recorded; script.js takes two draws when that sound's buffers have loaded |
| Engine.Engine.TakeStar | js/script.js:239-246 | Star.add's record over the popped one with the spin drawn; one pop and one draw |
| Engine.Engine.SparkAdd | js/script.js:256-263 | Spark.add appends the new spark to its colour's bucket exactly when the bucket exists or buckets are lazy; the record is popped either way |
| Engine.Engine.SparkPush | script.js:95-103 | the same for a prepared spark record |
| Engine.Engine.Launch | fscreen.js:149-177 | launch (js/script.js:169-184, script.js:114-134) builds the comet CometStar says, at LaunchX on the bottom edge with the velocity for the launch distance. It succeeds exactly when buckets are lazy or the comet's colour has one, and then appends it. One pop, one draw, then "lift" in js/script.js and script.js |
| Engine.Engine.AddComet | fscreen.js:161-176 | the comet record is appended exactly when its colour has a bucket or buckets are lazy |
| Engine.Engine.TakeComet | fscreen.js:161-176 | the comet record over the popped one, with the spin draw |
| Engine.Engine.LaunchShell | script.js:250-256 | one colour draw and one position draw, then the comet of the launchShell options launched at height 1 is appended, and "lift" is cued |
| Engine.Engine.WordOne | js/script.js:297-300 | one lattice point's spark is appended, or the push throws. It succeeds exactly when the colour has a bucket or buckets are lazy |
| Engine.Engine.CreateWordBurst | js/script.js:283-302 | no lattice: nothing changes. Otherwise (fscreen.js:282-304, script.js:221-248) exactly the word sparks of every point are appended in lattice order, one record popped per point, with the variant's draws per point. script.js then cues "burst" and "crackle". It succeeds whenever the colour has a bucket or buckets are lazy. It fails exactly when an eager pool lacks the colour's bucket and the lattice has a point; no lattice or an empty one never fails |
| Engine.Engine.WordLoop | js/script.js:296-301 | the loop over the lattice points appends one spark per point in order, and throws at the first point when an eager pool lacks the colour's bucket |
| Engine.Engine.EmitOne | js/script.js:320-323 | one pass moves the timer by sparkFreq, strictly lowers the passes left, and pushes the next trail spark |
| Engine.Engine.EmitSparks | js/script.js:318-324 | the emission loop ends with the timer Emitted(t0, freq) after exactly EmitCount sparks of the Trail, two draws each; it fails only for a negative timer onto a missing eager bucket |
| Engine.Engine.FactoryStar | fscreen.js:190-203 | one starFactory record is SpawnedStar of the popped record, in the factory's colour or a drawn palette colour, with the factory's draws |
| Engine.Engine.SpawnStar | fscreen.js:190-203 | the factory star is appended exactly when its colour has a bucket or each star draws its own |
| Engine.Engine.SpawnOne | fscreen.js:276 | call k appends the planned star k |
| Engine.Engine.SpawnAll | fscreen.js:273-277 | the factory calls append exactly the spawned stars of the run, or the run fails exactly when the single colour has no bucket and a call is made |
| Engine.Engine.BurstArc | fscreen.js:261-279 | createBurst with the star factory: rings as CreateBurst has them, read off the tape from the generator's position, the spawned stars of every call appended, one pop per call, the generator after the run's draws, and failure exactly for a missing single-colour bucket with a call made |
| Engine.Engine.BurstPart | js/script.js:204 | one createBurst grows the buckets by burst stars and, when it succeeds, takes exactly BurstDraws of its count and arc. A palette colour or per-star colours never fail, and a sane run that succeeds had one of them |
| Engine.Engine.SplitBurst | js/script.js:205-213 | the split-colour branch of js/script.js takes one draw for the choice, one more for the half circles' start angle, and then the two createBurst calls' draws. It succeeds for an empty first colour and, with a positive star count, fails otherwise: the second part's one-character colour has no bucket |
| Engine.Engine.BurstStars | js/script.js:202-214 | a successful burst takes exactly ShellDraws of the shell and the first draw. A single colour bursts exactly when it has a bucket or draws per star; a split colour always fails in fscreen.js (fscreen.js:206, its key is the joined pair) and in js/script.js unless the first colour is empty |
| Engine.Engine.Burst | js/script.js:185-217 | burst (fscreen.js:178-208) grows the buckets by burst stars, takes exactly the stars' draws, queues a flash of a quarter of the spread from the flash free list and cues "burst" in js/script.js. A throwing push ends it before the flash and the cue. The success conditions are those of BurstStars |
| Engine.Engine.RootBurstOne | script.js:144-147 | pass k appends the planned star k |
| Engine.Engine.RootBurst | script.js:135-150 | exactly `ceil(starCount)` stars at even angles are appended over the recycled records, one spin draw each; then "burstSmall" for a shell under size 2, else "burst" |
| Engine.Engine.RunDeath | js/script.js:250 | no callback does nothing. The crackle callback (script.js:140) cues "crackleSmall" exactly when its draw is below 0.2. A comet bursts its shell where it died (js/script.js:182). In the eager variants the buckets grow by burst stars, and a success queues the flash, cues "burst" in js/script.js and takes exactly the stars' draws, with Burst's success conditions. In script.js the exact planned stars are pushed, with their draws and the size-dependent cue. Only an eager burst can throw |
| Engine.Engine.ReturnStar | js/script.js:250 | returnInstance runs the callback and puts the record, callback cleared, on top of the free list, the buckets only growing; without a shell to burst the buckets and flashes are unchanged; only an eager burst throws, and then the record never reaches the free list |
| Engine.Engine.DyingStar | js/script.js:315 | the splice and returnInstance of a dead star keep the walk invariant |
| Engine.Engine.StarEmission | js/script.js:318-324 | a surviving star's emission loop pushes exactly its StarTrail, two draws per spark |
| Engine.Engine.SurvivingStar | js/script.js:316-324 | a survivor is stepped in place and emits its trail, keeping the walk invariant |
| Engine.Engine.WalkStars | js/script.js:312-326 | the reverse walk of a star bucket ends in Walked: the bucket starts with its stars stepped and every other bucket keeps what it held. Without a shell burst the stars are exact, the dead are on the free list in walk order and no flash is queued. Without any callback the sparks are exactly the emitted trails and no sound plays |
| Engine.Engine.SparkPass | js/script.js:329-334 | one spark of the walk is retired onto the free list or stepped in place |
| Engine.Engine.WalkSparks | js/script.js:327-335 | the bucket becomes its surviving sparks stepped, in order, and the dead join the free list in walk order; nothing else changes |
| Engine.Engine.EagerColour | js/script.js:311-336 | one colour of the frame walks its stars, then its sparks, and advances the frame by that colour |
| Engine.Engine.AdvanceSparks | js/script.js:327-335 | a spark walk advances the frame by its colour |
| Engine.Engine.RootStarPass | script.js:161-172 | one key of the star pass advances the frame and only grows the sparks |
| Engine.Engine.RootSparkPass | script.js:161-172 | one key of the spark pass advances the frame |
| Engine.Engine.RootFrame | script.js:154-176 | every star and spark bucket the frame found starts with its particles stepped |
| Engine.Engine.EagerFrame | js/script.js:311-367 | every bucket starts with its particles stepped and the flash queue is drained (js/script.js:362-367) |
| Engine.Engine.Update | js/script.js:305-338 | update (fscreen.js:317-353, script.js:154-176). An eager variant that is not running (paused, or with the menu open in js/script.js) changes nothing. Otherwise every bucket the frame found starts, afterwards, with its particles stepped by the variant's time step, drag and gravity, and the eager variants drain the flash queue. script.js never fails |

## Left out

- Canvas drawing in render, the Stage class, the window and DOM glue, the store's subscriptions, handleResize and the device detection. They are graphics and environment I/O. The stage size and the device class are constructor parameters; the flash drain of render is modelled.
- Sound playback. playSound is a cue appended to `cues`, with the two Math.random() draws script.js makes when buffers of that type have loaded. The loaded buffers are a parameter.
- MyMath.literalLattice and MyMath.random are not part of this model. The lattice is a function parameter, and the comet's `MyMath.random(0.32, 0.85)` spin radius in js/script.js is a parameter of Launch.
- Engine.Engine.Launch: in js/script.js it counts no draw for `MyMath.random(0.32, 0.85)` (js/script.js:177). If that helper calls Math.random(), every tape position after a js/script.js launch is offset by its draws.
- The countdown scripts (startMyCountdown, startCountdown, showHappyText, show2026, launchRandomShell). They are timer scheduling.
- Floating-point rounding, NaN and the real transcendental functions. Numbers are reals, Math.sin/cos/sqrt/pow are uninterpreted, and the ring geometry assumes only what `MathLib.Sane` states.
- The secondColor, strobe, pistil and streamer options. No core recipe sets secondColor or strobe, so their draws never happen; the pistil and streamer draws of js/script.js are consumed without their results being read.
- The `Shell.comet` field. It is only read by the `if (this.comet)` test before the burst sound, and a burst always comes from a comet's callback.
- Object identity of records. Records are values in buckets, so "the reused record is the same object" is stated as the popped value being the base of the new record.
- Engine.Engine.Update: after a frame that throws (`ok == false`), only the pool invariants are stated, not how far the frame got.
- Engine.Engine.EagerFrame, Engine.Engine.RootFrame: they state that each bucket starts with its stepped particles. What the frame pushed behind them is stated exactly only per walk, by Walked.
- Engine.Engine.WalkStars: the star buckets are exact only when no dying star bursts a shell, and the sparks only when no dying star has a callback. Otherwise they are stated as growth.
- Engine.Engine.Burst, Engine.Engine.BurstStars, Engine.Engine.BurstPart, Engine.Engine.SplitBurst, Engine.Engine.RunDeath: these state the growth of the buckets by burst stars (Grown) and not the exact stars. BurstArc and SpawnAll give the exact stars of one createBurst call, with the rings read off the tape in order.
- Engine.Engine.WalkStars, Engine.Engine.EagerColour, Engine.Engine.RootStarPass, Engine.Engine.RootFrame, Engine.Engine.EagerFrame, Engine.Engine.Update: they state the generator's position only for a walk in which no dying star has a callback (two draws per emitted spark). With callbacks, the draws of bursts and crackles interleave with the emissions, and no closed count for the frame is given.
- Engine.Engine.Burst, Engine.Engine.BurstStars, Engine.Engine.BurstPart, Engine.Engine.SplitBurst, Engine.Engine.RunDeath: after a push that throws they do not state the generator's position. The frame ends there.
- Engine.Engine.CreateWordBurst: it takes both the colour of js/script.js and fscreen.js and the scale of script.js; each variant reads only its own.
- A negative sparkFreq. The glitter table only yields 0 or positive frequencies, and the emission loop is modelled for a positive one.
- script.js:302-303 calls togglePause and configDidUpdate, which that file does not define; its configDidUpdate and togglePause are not modelled.
