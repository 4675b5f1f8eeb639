/** What a frame and a burst do to whole runs of records: the sparks the
    emission loops of a bucket walk add, when no death callback interferes with
    the walk, and the stars a burst's factory calls add. */
module Frames {
  import opened Numerics
  import opened Recipes
  import opened Kinematics
  import opened Palette
  import opened BurstRings
  import opened Pools
  import opened Particles

  /** Records on the star free list carry no callback: returnInstance clears
      onDeath before every push. */
  ghost predicate Calm(free: seq<Star>)
  {
    forall k :: 0 <= k < |free| ==> free[k].onDeath == NoDeath
  }

  /** returnInstance clears the callback before the push, so the free list
      stays calm. */
  lemma CalmPush(free: seq<Star>, s: Star)
    requires Calm(free)
    ensures Calm(free + [s.(onDeath := NoDeath)])
  {
  }

  /** No star of the bucket from index lo on that dies in this step has a
      callback to run. */
  ghost predicate QuietFrom(S: seq<Star>, lo: nat, st: Step)
  {
    forall j :: lo <= j < |S| && Dies(S[j].Motion(), st) ==> S[j].onDeath == NoDeath
  }

  /** No star of the bucket from index lo on that dies in this step bursts a
      shell: its callback, if any, is the crackle of script.js. */
  ghost predicate CalmFrom(S: seq<Star>, lo: nat, st: Step)
  {
    forall j :: lo <= j < |S| && Dies(S[j].Motion(), st) ==> !S[j].onDeath.BurstShell?
  }

  /** The bucket S part-way through its reverse walk, with the stars from
      index i on done: the first i as they were, the rest stepped or gone. */
  function WalkState(S: seq<Star>, i: nat, st: Step): seq<Star>
    requires i <= |S|
  {
    S[..i] + SteppedStars(S[i..], st)
  }

  /** Handing the walk one more star: the tail from i - 1 is that star
      followed by the tail from i. */
  lemma WalkTail(S: seq<Star>, i: nat)
    requires 0 < i <= |S|
    ensures S[i - 1..] != [] && S[i - 1..][0] == S[i - 1] && S[i - 1..][1..] == S[i..]
  {
  }

  /** A star that dies at index i - 1 is spliced out of a bucket that holds
      the walk state followed by whatever was pushed during the walk; it joins
      the end of the retired run and emits nothing. */
  lemma WalkRemove(S: seq<Star>, i: nat, st: Step, E: seq<Star>)
    requires 0 < i <= |S| && Dies(S[i - 1].Motion(), st)
    ensures var B := WalkState(S, i, st) + E;
      i <= |B| && B[i - 1] == S[i - 1] && B[..i - 1] + B[i..] == WalkState(S, i - 1, st) + E
    ensures RetiredStars(S[i - 1..], st) == RetiredStars(S[i..], st) + [RetireStar(S[i - 1], st)]
    ensures StarEmits(S[i - 1], st) == 0
  {
    WalkTail(S, i);
    var B := WalkState(S, i, st) + E;
    assert SteppedStars(S[i - 1..], st) == SteppedStars(S[i..], st);
    assert B[..i - 1] == S[..i - 1];
    assert B[i..] == SteppedStars(S[i..], st) + E;
  }

  /** A star that survives at index i - 1 is replaced by its stepped self. */
  lemma WalkPut(S: seq<Star>, i: nat, st: Step, E: seq<Star>)
    requires 0 < i <= |S| && !Dies(S[i - 1].Motion(), st)
    ensures var B := WalkState(S, i, st) + E;
      i <= |B| && B[i - 1] == S[i - 1] && B[i - 1 := StepStar(S[i - 1], st)] == WalkState(S, i - 1, st) + E
    ensures RetiredStars(S[i - 1..], st) == RetiredStars(S[i..], st)
  {
    WalkTail(S, i);
    var B := WalkState(S, i, st) + E;
    assert SteppedStars(S[i - 1..], st) == [StepStar(S[i - 1], st)] + SteppedStars(S[i..], st);
    assert S[..i - 1] + [StepStar(S[i - 1], st)] == S[..i][i - 1 := StepStar(S[i - 1], st)];
  }

  /** While no dead star of the walk burst a shell, the star buckets are the
      buckets A0 with bucket c at its walk state, and the free list is F0
      followed by the retired run. */
  ghost predicate WalkCalm(c: string, S: seq<Star>, i: nat, st: Step, A0: map<string, seq<Star>>, F0: seq<Star>,
                           a: map<string, seq<Star>>, f: seq<Star>)
    requires i <= |S|
  {
    CalmFrom(S, i, st) ==> a == A0[c := WalkState(S, i, st)] && f == F0 + RetiredStars(S[i..], st)
  }

  /** While no dead star of the walk had any callback, the spark buckets hold
      exactly the trails emitted so far, each spark taking two draws. */
  ghost predicate WalkQuiet(m: MathLib, S: seq<Star>, i: nat, st: Step, tape: nat -> Unit, pos: nat,
                            SA0: map<string, seq<Spark>>, SF0: seq<Spark>,
                            rpos: nat, a: map<string, seq<Spark>>, f: seq<Spark>)
    requires i <= |S|
  {
    QuietFrom(S, i, st) ==>
      rpos == pos + 2 * WalkEmitCount(S[i..], st) &&
      a == Pushed(SA0, WalkEmissions(m, S[i..], st, tape, pos), SparkKey) &&
      f == Popped(SF0, WalkEmitCount(S[i..], st))
  }

  /** A star dying at index i - 1 keeps the stars exact: it leaves bucket c,
      and when it has no shell to burst its callback adds none and it lands
      on the free list retired. */
  lemma DeathCalm(c: string, S: seq<Star>, i: nat, st: Step, A0: map<string, seq<Star>>, F0: seq<Star>, E: seq<Star>,
                  a0: map<string, seq<Star>>, f0: seq<Star>, a1: map<string, seq<Star>>, a2: map<string, seq<Star>>, f2: seq<Star>)
    requires 0 < i <= |S| && Dies(S[i - 1].Motion(), st)
    requires WalkCalm(c, S, i, st, A0, F0, a0, f0)
    requires c in a0 && a0[c] == WalkState(S, i, st) + E
    requires a1 == a0[c := WalkState(S, i - 1, st) + E]
    requires !S[i - 1].onDeath.BurstShell? ==> a2 == a1 && f2 == f0 + [RetireStar(S[i - 1], st)]
    ensures WalkCalm(c, S, i - 1, st, A0, F0, a2, f2)
  {
    if CalmFrom(S, i - 1, st) {
      assert CalmFrom(S, i, st) && !S[i - 1].onDeath.BurstShell?;
      WalkRemove(S, i, st, E);
      assert E == [] && WalkState(S, i - 1, st) + E == WalkState(S, i - 1, st);
      UpdateTwice(A0, c, WalkState(S, i, st), WalkState(S, i - 1, st));
      assert f2 == F0 + (RetiredStars(S[i..], st) + [RetireStar(S[i - 1], st)]);
    }
  }

  /** A star dying at index i - 1 emits nothing, and when it has no callback
      the generator and the sparks stay as they were. */
  lemma DeathQuiet(m: MathLib, S: seq<Star>, i: nat, st: Step, tape: nat -> Unit, pos: nat,
                   SA0: map<string, seq<Spark>>, SF0: seq<Spark>, r0: nat, r1: nat, a: map<string, seq<Spark>>, f: seq<Spark>)
    requires 0 < i <= |S| && Dies(S[i - 1].Motion(), st)
    requires WalkQuiet(m, S, i, st, tape, pos, SA0, SF0, r0, a, f)
    requires S[i - 1].onDeath == NoDeath ==> r1 == r0
    ensures WalkQuiet(m, S, i - 1, st, tape, pos, SA0, SF0, r1, a, f)
  {
    if QuietFrom(S, i - 1, st) {
      assert QuietFrom(S, i, st) && S[i - 1].onDeath == NoDeath;
      WalkRemove(S, i, st, []);
      WalkEmitNext(m, S, i, st, tape, pos);
      assert WalkEmissions(m, S[i - 1..], st, tape, pos) == WalkEmissions(m, S[i..], st, tape, pos);
    }
  }

  /** The part of the engine's state a frame reads and writes, as values: the
      star and spark buckets and free lists, the generator, the BurstFlash
      queue and the sounds played. */
  datatype Snap = Snap(stars: map<string, seq<Star>>, starFree: seq<Star>,
                       sparks: map<string, seq<Spark>>, sparkFree: seq<Spark>,
                       rng: Random, flashes: seq<Flash>, cues: seq<string>)

  /** Where the reverse walk of bucket c began: the bucket S as the walk found
      it, the step, and the state then. */
  datatype WalkStart = WalkStart(c: string, S: seq<Star>, st: Step, at: Snap)

  /** The state s of the walk w with the stars from index i on done: bucket c
      starts with the walk state and every other bucket keeps what it held;
      WalkCalm and WalkQuiet give the exact state while no dead star burst a
      shell or had any callback. */
  ghost predicate Walking(m: MathLib, w: WalkStart, i: nat, s: Snap)
  {
    i <= |w.S| && w.c in s.stars && s.rng.tape == w.at.rng.tape &&
    WalkState(w.S, i, w.st) <= s.stars[w.c] &&
    ExtendsBut(w.at.stars, s.stars, w.c) && Extends(w.at.sparks, s.sparks) &&
    WalkCalm(w.c, w.S, i, w.st, w.at.stars, w.at.starFree, s.stars, s.starFree) &&
    (CalmFrom(w.S, i, w.st) ==> s.flashes == w.at.flashes) &&
    WalkQuiet(m, w.S, i, w.st, w.at.rng.tape, w.at.rng.pos, w.at.sparks, w.at.sparkFree, s.rng.pos, s.sparks, s.sparkFree) &&
    (QuietFrom(w.S, i, w.st) ==> s.cues == w.at.cues)
  }

  /** A walk begins with nothing done. */
  lemma WalkBegins(m: MathLib, w: WalkStart)
    requires w.c in w.at.stars && w.at.stars[w.c] == w.S
    ensures Walking(m, w, |w.S|, w.at)
  {
    assert WalkState(w.S, |w.S|, w.st) == w.S by {
      assert w.S[|w.S|..] == [] && w.S[..|w.S|] == w.S;
    }
    assert w.at.stars[w.c := w.S] == w.at.stars;
    assert w.at.sparks == Pushed(w.at.sparks, [], SparkKey);
  }

  /** The next star of the walk is still where the walk found it. */
  lemma WalkAt(m: MathLib, w: WalkStart, i: nat, s: Snap)
    requires Walking(m, w, i, s) && 0 < i
    ensures i - 1 < |s.stars[w.c]| && s.stars[w.c][i - 1] == w.S[i - 1]
  {
    assert WalkState(w.S, i, w.st)[i - 1] == w.S[i - 1];
  }

  /** What the walk of bucket c in step st does to the state s0, ending in s1:
      the bucket starts with its stars stepped, in order, with the dead ones
      gone; every other bucket keeps what it held. When no dead star bursts a
      shell, nothing else happens to the stars: the dead ones are on the free
      list, retired in walk order, and no flash was queued. When no dead star
      has any callback, the sparks are the buckets' old sparks followed by the
      trails the walk emitted, two draws per spark, and no sound played. */
  ghost predicate Walked(m: MathLib, c: string, st: Step, s0: Snap, s1: Snap)
  {
    var S := Get(s0.stars, c);
    c in s1.stars && s1.rng.tape == s0.rng.tape &&
    SteppedStars(S, st) <= s1.stars[c] &&
    ExtendsBut(s0.stars, s1.stars, c) && Extends(s0.sparks, s1.sparks) &&
    (CalmFrom(S, 0, st) ==>
       s1.stars == s0.stars[c := SteppedStars(S, st)] && s1.starFree == s0.starFree + RetiredStars(S, st) &&
       s1.flashes == s0.flashes) &&
    (QuietFrom(S, 0, st) ==>
       s1.rng.pos == s0.rng.pos + 2 * WalkEmitCount(S, st) &&
       s1.sparks == Pushed(s0.sparks, WalkEmissions(m, S, st, s0.rng.tape, s0.rng.pos), SparkKey) &&
       s1.sparkFree == Popped(s0.sparkFree, WalkEmitCount(S, st)) && s1.cues == s0.cues)
  }

  /** A walk with every star done has walked its bucket. */
  lemma WalkEnds(m: MathLib, w: WalkStart, s: Snap)
    requires Walking(m, w, 0, s) && w.c in w.at.stars && w.at.stars[w.c] == w.S
    ensures Walked(m, w.c, w.st, w.at, s)
  {
    assert w.S[0..] == w.S && w.S[..0] == [];
    assert WalkState(w.S, 0, w.st) == SteppedStars(w.S, w.st);
  }

  /** Splicing a star out of bucket c leaves every other bucket as it was. */
  lemma SpliceKeeps(A0: map<string, seq<Star>>, a0: map<string, seq<Star>>, a1: map<string, seq<Star>>,
                    c: string, B: seq<Star>)
    requires ExtendsBut(A0, a0, c) && c in a0 && a1 == a0[c := B]
    ensures ExtendsBut(A0, a1, c)
  {
  }

  /** Step of the walk for a star dying at index i - 1: the state s1 after
      `stars.splice(i, 1)` and returnInstance is again a walk state. The callback
      can only grow the buckets; without a shell to burst it adds no star and
      the record reaches the free list retired, and without any callback the
      generator and the sounds stay. */
  lemma DeathStep(m: MathLib, w: WalkStart, i: nat, s0: Snap, a1: map<string, seq<Star>>, s1: Snap)
    requires Walking(m, w, i, s0) && 0 < i && Dies(w.S[i - 1].Motion(), w.st)
    requires i - 1 < |s0.stars[w.c]| && a1 == s0.stars[w.c := s0.stars[w.c][..i - 1] + s0.stars[w.c][i..]]
    requires Extends(a1, s1.stars) && s1.rng.tape == s0.rng.tape && s1.sparks == s0.sparks && s1.sparkFree == s0.sparkFree
    requires !w.S[i - 1].onDeath.BurstShell? ==>
      s1.stars == a1 && s1.starFree == s0.starFree + [RetireStar(w.S[i - 1], w.st)] && s1.flashes == s0.flashes
    requires w.S[i - 1].onDeath == NoDeath ==> s1.rng == s0.rng && s1.cues == s0.cues
    ensures Walking(m, w, i - 1, s1)
  {
    var c, S, st := w.c, w.S, w.st;
    var E := s0.stars[c][|WalkState(S, i, st)|..];
    assert s0.stars[c] == WalkState(S, i, st) + E;
    WalkRemove(S, i, st, E);
    var B := WalkState(S, i - 1, st) + E;
    assert a1 == s0.stars[c := B];
    assert WalkState(S, i - 1, st) <= s1.stars[c] by {
      assert a1[c] <= s1.stars[c];
    }
    SpliceKeeps(w.at.stars, s0.stars, a1, c, B);
    ExtendsButTrans(w.at.stars, a1, s1.stars, c);
    DeathCalm(c, S, i, st, w.at.stars, w.at.starFree, E, s0.stars, s0.starFree, a1, s1.stars, s1.starFree);
    DeathQuiet(m, S, i, st, w.at.rng.tape, w.at.rng.pos, w.at.sparks, w.at.sparkFree, s0.rng.pos, s1.rng.pos, s1.sparks, s1.sparkFree);
    if CalmFrom(S, i - 1, st) {
      assert CalmFrom(S, i, st) && !S[i - 1].onDeath.BurstShell?;
    }
    if QuietFrom(S, i - 1, st) {
      assert QuietFrom(S, i, st) && S[i - 1].onDeath == NoDeath;
    }
  }

  /** Step of the walk for a star surviving at index i - 1: it is replaced by
      its stepped self, its trail is pushed onto the spark buckets with two
      draws per spark, and nothing else moves. */
  lemma SurvivorStep(m: MathLib, w: WalkStart, i: nat, s0: Snap, s1: Snap)
    requires Walking(m, w, i, s0) && 0 < i && !Dies(w.S[i - 1].Motion(), w.st)
    requires i - 1 < |s0.stars[w.c]|
    requires s1.stars == s0.stars[w.c := s0.stars[w.c][i - 1 := StepStar(w.S[i - 1], w.st)]]
    requires s1.starFree == s0.starFree && s1.flashes == s0.flashes && s1.cues == s0.cues && s1.rng.tape == s0.rng.tape
    requires s1.rng.pos == s0.rng.pos + 2 * StarEmits(w.S[i - 1], w.st)
    requires s1.sparks == Pushed(s0.sparks, StarTrail(m, w.S[i - 1], w.st, s0.rng.tape, s0.rng.pos), SparkKey)
    requires s1.sparkFree == Popped(s0.sparkFree, StarEmits(w.S[i - 1], w.st))
    ensures Walking(m, w, i - 1, s1)
  {
    var c, S, st := w.c, w.S, w.st;
    var E := s0.stars[c][|WalkState(S, i, st)|..];
    assert s0.stars[c] == WalkState(S, i, st) + E;
    WalkPut(S, i, st, E);
    var B := WalkState(S, i - 1, st) + E;
    assert s1.stars == s0.stars[c := B];
    assert WalkState(S, i - 1, st) <= s1.stars[c];
    SpliceKeeps(w.at.stars, s0.stars, s1.stars, c, B);
    var trail := StarTrail(m, S[i - 1], st, s0.rng.tape, s0.rng.pos);
    PushedExtends(s0.sparks, trail, SparkKey);
    ExtendsTrans(w.at.sparks, s0.sparks, s1.sparks);
    SurvivorCalm(c, S, i, st, w.at.stars, w.at.starFree, E, s0.stars, s0.starFree, s1.stars);
    SurvivorQuiet(m, S, i, st, w.at.rng.tape, w.at.rng.pos, w.at.sparks, w.at.sparkFree, s0.rng.pos, s0.sparks, s0.sparkFree,
                  s1.rng.pos, s1.sparks, s1.sparkFree);
    if CalmFrom(S, i - 1, st) {
      assert CalmFrom(S, i, st);
    }
    if QuietFrom(S, i - 1, st) {
      assert QuietFrom(S, i, st);
    }
  }

  /** A star surviving at index i - 1 keeps the stars exact: it is replaced by
      its stepped self and the free list does not move. */
  lemma SurvivorCalm(c: string, S: seq<Star>, i: nat, st: Step, A0: map<string, seq<Star>>, F0: seq<Star>, E: seq<Star>,
                     a0: map<string, seq<Star>>, f0: seq<Star>, a1: map<string, seq<Star>>)
    requires 0 < i <= |S| && !Dies(S[i - 1].Motion(), st)
    requires WalkCalm(c, S, i, st, A0, F0, a0, f0)
    requires c in a0 && a0[c] == WalkState(S, i, st) + E
    requires a1 == a0[c := WalkState(S, i - 1, st) + E]
    ensures WalkCalm(c, S, i - 1, st, A0, F0, a1, f0)
  {
    if CalmFrom(S, i - 1, st) {
      assert CalmFrom(S, i, st);
      WalkPut(S, i, st, E);
      assert E == [] && WalkState(S, i - 1, st) + E == WalkState(S, i - 1, st);
      UpdateTwice(A0, c, WalkState(S, i, st), WalkState(S, i - 1, st));
    }
  }

  /** A star surviving at index i - 1 pushes its trail with draws that follow
      those of every star behind it. */
  lemma SurvivorQuiet(m: MathLib, S: seq<Star>, i: nat, st: Step, tape: nat -> Unit, pos: nat,
                      SA0: map<string, seq<Spark>>, SF0: seq<Spark>,
                      r0: nat, a0: map<string, seq<Spark>>, f0: seq<Spark>, r1: nat, a1: map<string, seq<Spark>>, f1: seq<Spark>)
    requires 0 < i <= |S| && !Dies(S[i - 1].Motion(), st)
    requires WalkQuiet(m, S, i, st, tape, pos, SA0, SF0, r0, a0, f0)
    requires r1 == r0 + 2 * StarEmits(S[i - 1], st)
    requires a1 == Pushed(a0, StarTrail(m, S[i - 1], st, tape, r0), SparkKey)
    requires f1 == Popped(f0, StarEmits(S[i - 1], st))
    ensures WalkQuiet(m, S, i - 1, st, tape, pos, SA0, SF0, r1, a1, f1)
  {
    if QuietFrom(S, i - 1, st) {
      assert QuietFrom(S, i, st);
      var n, k := WalkEmitCount(S[i..], st), StarEmits(S[i - 1], st);
      var done, trail := WalkEmissions(m, S[i..], st, tape, pos), StarTrail(m, S[i - 1], st, tape, r0);
      assert r0 == pos + 2 * n && a0 == Pushed(SA0, done, SparkKey) && f0 == Popped(SF0, n);
      WalkEmitNext(m, S, i, st, tape, pos);
      assert WalkEmissions(m, S[i - 1..], st, tape, pos) == done + trail;
      PushedAppend(SA0, done, trail, SparkKey);
      PoppedTwice(SF0, n, k);
    }
  }

  /** The spark bucket S part-way through its reverse walk. */
  function SparkWalkState(S: seq<Spark>, i: nat, st: Step): seq<Spark>
    requires i <= |S|
  {
    S[..i] + SteppedSparks(S[i..], st)
  }

  /** A spark dying at index i - 1 leaves the bucket and joins the end of the
      retired run. */
  lemma SparkWalkRemove(S: seq<Spark>, i: nat, st: Step)
    requires 0 < i <= |S| && Dies(S[i - 1].Motion(), st)
    ensures var B := SparkWalkState(S, i, st);
      B[i - 1] == S[i - 1] && B[..i - 1] + B[i..] == SparkWalkState(S, i - 1, st)
    ensures RetiredSparks(S[i - 1..], st) == RetiredSparks(S[i..], st) + [RetireSpark(S[i - 1], st)]
  {
    assert S[i - 1..][0] == S[i - 1] && S[i - 1..][1..] == S[i..];
    var B := SparkWalkState(S, i, st);
    assert SteppedSparks(S[i - 1..], st) == SteppedSparks(S[i..], st);
    assert B[..i - 1] == S[..i - 1];
    assert B[i..] == SteppedSparks(S[i..], st);
  }

  /** The free list of a spark walk gets the dead spark on top. */
  lemma SparkRetiredOnto(F0: seq<Spark>, S: seq<Spark>, i: nat, st: Step)
    requires 0 < i <= |S| && Dies(S[i - 1].Motion(), st)
    ensures F0 + RetiredSparks(S[i..], st) + [RetireSpark(S[i - 1], st)] == F0 + RetiredSparks(S[i - 1..], st)
  {
    SparkWalkRemove(S, i, st);
  }

  /** A spark surviving at index i - 1 is replaced by its stepped self. */
  lemma SparkWalkPut(S: seq<Spark>, i: nat, st: Step)
    requires 0 < i <= |S| && !Dies(S[i - 1].Motion(), st)
    ensures var B := SparkWalkState(S, i, st);
      B[i - 1] == S[i - 1] && B[i - 1 := StepSpark(S[i - 1], st)] == SparkWalkState(S, i - 1, st)
    ensures RetiredSparks(S[i - 1..], st) == RetiredSparks(S[i..], st)
  {
    assert S[i - 1..][0] == S[i - 1] && S[i - 1..][1..] == S[i..];
    assert SteppedSparks(S[i - 1..], st) == [StepSpark(S[i - 1], st)] + SteppedSparks(S[i..], st);
    assert S[..i - 1] + [StepSpark(S[i - 1], st)] == S[..i][i - 1 := StepSpark(S[i - 1], st)];
  }

  /** The emissions of the walk grow by the trail of the star at index i - 1,
      which draws after every star behind it. */
  lemma WalkEmitNext(m: MathLib, S: seq<Star>, i: nat, st: Step, tape: nat -> Unit, pos: nat)
    requires 0 < i <= |S|
    ensures WalkEmitCount(S[i - 1..], st) == WalkEmitCount(S[i..], st) + StarEmits(S[i - 1], st)
    ensures WalkEmissions(m, S[i - 1..], st, tape, pos) ==
      WalkEmissions(m, S[i..], st, tape, pos) + StarTrail(m, S[i - 1], st, tape, pos + 2 * WalkEmitCount(S[i..], st))
  {
    WalkTail(S, i);
  }

  /** The passes of a star's emission loop in this step: none when it dies,
      when the population does not emit or when its sparkFreq is not set. */
  function StarEmits(s: Star, st: Step): (n: nat)
    ensures n > 0 ==> st.emits && s.sparkFreq > 0.0 && !Dies(s.Motion(), st)
  {
    if st.emits && s.sparkFreq > 0.0 && !Dies(s.Motion(), st) then EmitCount(s.sparkTimer - st.timeStep, s.sparkFreq)
    else 0
  }

  /** The sparks one star's emission loop adds, at the star's new position,
      with its draws read from the tape at `pos`. */
  function StarTrail(m: MathLib, s: Star, st: Step, tape: nat -> Unit, pos: nat): (t: seq<Spark>)
    ensures |t| == StarEmits(s, st)
  {
    var k := Advance(s.Motion(), st);
    Trail(m, k.x, k.y, s.sparkColor, s.sparkSpeed, s.sparkLife, tape, pos, StarEmits(s, st))
  }

  /** A star that emits has the emission loop's count and the trail from its
      stepped position; any other emits nothing. */
  lemma StarTrailIs(m: MathLib, s: Star, st: Step, tape: nat -> Unit, pos: nat)
    requires !Dies(s.Motion(), st)
    ensures st.emits && s.sparkFreq > 0.0 ==>
      var k := Advance(s.Motion(), st);
      StarEmits(s, st) == EmitCount(s.sparkTimer - st.timeStep, s.sparkFreq) &&
      StarTrail(m, s, st, tape, pos) ==
        Trail(m, k.x, k.y, s.sparkColor, s.sparkSpeed, s.sparkLife, tape, pos, EmitCount(s.sparkTimer - st.timeStep, s.sparkFreq))
    ensures !(st.emits && s.sparkFreq > 0.0) ==> StarEmits(s, st) == 0 && StarTrail(m, s, st, tape, pos) == []
  {
  }

  /** One more pass of the emission loop pushes the next spark of the trail. */
  lemma TrailGrows(m: MathLib, x: real, y: real, color: string, speed: real, life: real,
                   tape: nat -> Unit, pos: nat, k: nat, a: map<string, seq<Spark>>)
    ensures Pushed(Pushed(a, Trail(m, x, y, color, speed, life, tape, pos, k), SparkKey),
                   [TrailSpark(m, x, y, color, speed, life, tape, pos, k)], SparkKey) ==
            Pushed(a, Trail(m, x, y, color, speed, life, tape, pos, k + 1), SparkKey)
  {
    PushedAppend(a, Trail(m, x, y, color, speed, life, tape, pos, k), [TrailSpark(m, x, y, color, speed, life, tape, pos, k)], SparkKey);
  }

  /** The spark of one lattice point has the burst's colour in js/script.js
      and fscreen.js. */
  lemma WordSparkColor(v: Variant, m: MathLib, p: Point, x: real, y: real, l: Lattice, color: string,
                       tape: nat -> Unit, pos: nat)
    ensures v != RootScript ==> WordSpark(v, m, p, x, y, l, color, tape, pos).color == color
  {
  }

  /** A word burst after the sparks of the first k lattice points, as values:
      the generator at rpos, the buckets a and the free list f. */
  ghost predicate WordState(v: Variant, m: MathLib, x: real, y: real, l: Lattice, color: string, k: nat,
                            tape: nat -> Unit, pos: nat, a0: map<string, seq<Spark>>, f0: seq<Spark>,
                            rpos: nat, a: map<string, seq<Spark>>, f: seq<Spark>)
  {
    k <= |l.points| && rpos == pos + WordOffset(v, k) &&
    a == Pushed(a0, WordSparks(v, m, x, y, l, color, tape, pos, k), SparkKey) && f == Popped(f0, k)
  }

  /** A word burst before its first point. */
  lemma WordStateStart(v: Variant, m: MathLib, x: real, y: real, l: Lattice, color: string,
                       tape: nat -> Unit, pos: nat, a0: map<string, seq<Spark>>, f0: seq<Spark>)
    ensures WordState(v, m, x, y, l, color, 0, tape, pos, a0, f0, pos, a0, f0)
  {
    assert WordSparks(v, m, x, y, l, color, tape, pos, 0) == [];
    assert Popped(f0, 0) == f0;
  }

  /** Pushing the spark of lattice point k, drawn at rpos, and popping one
      record moves a word burst on by one point. */
  lemma WordStateNext(v: Variant, m: MathLib, x: real, y: real, l: Lattice, color: string, k: nat,
                      tape: nat -> Unit, pos: nat, a0: map<string, seq<Spark>>, f0: seq<Spark>,
                      rpos: nat, a1: map<string, seq<Spark>>, f1: seq<Spark>, a2: map<string, seq<Spark>>, f2: seq<Spark>)
    requires WordState(v, m, x, y, l, color, k, tape, pos, a0, f0, rpos, a1, f1) && k < |l.points|
    requires a2 == Pushed(a1, [WordSpark(v, m, l.points[k], x, y, l, color, tape, rpos)], SparkKey)
    requires f2 == Popped(f1, 1)
    ensures WordState(v, m, x, y, l, color, k + 1, tape, pos, a0, f0, rpos + WordDraws(v), a2, f2)
  {
    var w := WordSpark(v, m, l.points[k], x, y, l, color, tape, rpos);
    var done := WordSparks(v, m, x, y, l, color, tape, pos, k);
    WordSparksNext(v, m, x, y, l, color, tape, pos, k, rpos);
    PushedAppend(a0, done, [w], SparkKey);
    PoppedTwice(f0, k, 1);
  }

  lemma WordSparksNext(v: Variant, m: MathLib, x: real, y: real, l: Lattice, color: string,
                       tape: nat -> Unit, pos: nat, k: nat, rpos: nat)
    requires k < |l.points| && rpos == pos + WordOffset(v, k)
    ensures WordSparks(v, m, x, y, l, color, tape, pos, k + 1) ==
      WordSparks(v, m, x, y, l, color, tape, pos, k) + [WordSpark(v, m, l.points[k], x, y, l, color, tape, rpos)]
  {
  }


  /** A pass that draws from a generator standing at pos + 2k and pushes the
      spark it makes leaves the trail one spark longer. */
  lemma TrailPass(m: MathLib, x: real, y: real, color: string, speed: real, life: real,
                  tape: nat -> Unit, pos: nat, k: nat, r: Random,
                  a0: map<string, seq<Spark>>, a1: map<string, seq<Spark>>, a2: map<string, seq<Spark>>)
    requires r.tape == tape && r.pos == pos + 2 * k
    requires a1 == Pushed(a0, Trail(m, x, y, color, speed, life, tape, pos, k), SparkKey)
    requires a2 == Pushed(a1, [AddedSpark(m, x, y, color, r.Peek() * PI_2, r.Skip().Peek() * speed, life)], SparkKey)
    ensures a2 == Pushed(a0, Trail(m, x, y, color, speed, life, tape, pos, k + 1), SparkKey)
  {
    TrailSparkDrawn(m, x, y, color, speed, life, tape, pos, k, r);
    TrailGrows(m, x, y, color, speed, life, tape, pos, k, a0);
  }

  /** The emission passes of a walk of the bucket S. */
  function WalkEmitCount(S: seq<Star>, st: Step): nat
  {
    if S == [] then 0 else WalkEmitCount(S[1..], st) + StarEmits(S[0], st)
  }

  /** The sparks a walk of the bucket S adds, in the order it adds them: the walk
      runs from the last star down, two draws per spark. */
  function WalkEmissions(m: MathLib, S: seq<Star>, st: Step, tape: nat -> Unit, pos: nat): (e: seq<Spark>)
    ensures |e| == WalkEmitCount(S, st)
  {
    if S == [] then []
    else WalkEmissions(m, S[1..], st, tape, pos) + StarTrail(m, S[0], st, tape, pos + 2 * WalkEmitCount(S[1..], st))
  }

  /** Every spark of a star's trail starts at the star's stepped position, in
      its spark colour, with its spark life. */
  lemma StarTrailAt(m: MathLib, s: Star, st: Step, tape: nat -> Unit, pos: nat, j: nat)
    requires j < StarEmits(s, st)
    ensures var p := StarTrail(m, s, st, tape, pos)[j];
      p.x == StepStar(s, st).x && p.y == StepStar(s, st).y && p.prevX == p.x && p.prevY == p.y &&
      p.color == s.sparkColor && p.life == s.sparkLife
  {
    var k := Advance(s.Motion(), st);
    TrailAt(m, k.x, k.y, s.sparkColor, s.sparkSpeed, s.sparkLife, tape, pos, StarEmits(s, st), j);
  }

  /** A population that does not emit adds no sparks. */
  lemma {:induction false} SilentWalk(m: MathLib, S: seq<Star>, st: Step, tape: nat -> Unit, pos: nat)
    requires !st.emits
    ensures WalkEmitCount(S, st) == 0 && WalkEmissions(m, S, st, tape, pos) == []
  {
    if S != [] {
      SilentWalk(m, S[1..], st, tape, pos);
    }
  }

  /** The stars of the first n factory calls of a burst, each over the record the
      free list yields at its turn. */
  function SpawnedStars(v: Variant, m: MathLib, f: Factory, calls: seq<FactoryCall>, free: seq<Star>,
                        tape: nat -> Unit, n: nat): (t: seq<Star>)
    requires n <= |calls|
    ensures |t| == n
  {
    if n == 0 then []
    else SpawnedStars(v, m, f, calls, free, tape, n - 1) + [SpawnedStar(v, m, NthBase(free, n - 1), f, calls[n - 1], tape)]
  }

  lemma {:induction false} SpawnedStarsAt(v: Variant, m: MathLib, f: Factory, calls: seq<FactoryCall>, free: seq<Star>,
                                          tape: nat -> Unit, n: nat, j: nat)
    requires j < n <= |calls|
    ensures SpawnedStars(v, m, f, calls, free, tape, n)[j] == SpawnedStar(v, m, NthBase(free, j), f, calls[j], tape)
    decreases n
  {
    if j < n - 1 {
      SpawnedStarsAt(v, m, f, calls, free, tape, n - 1, j);
    }
  }

  /** `want` holds the spawned star of each call of the run. */
  ghost predicate Planned(v: Variant, m: MathLib, f: Factory, calls: seq<FactoryCall>, free: seq<Star>,
                          tape: nat -> Unit, want: seq<Star>)
  {
    |want| == |calls| &&
    forall j :: 0 <= j < |calls| ==> want[j] == SpawnedStar(v, m, NthBase(free, j), f, calls[j], tape)
  }

  /** SpawnedStars lists, for every call, the star that call spawns. */
  lemma SpawnedStarsPlanned(v: Variant, m: MathLib, f: Factory, calls: seq<FactoryCall>, free: seq<Star>,
                            tape: nat -> Unit)
    ensures Planned(v, m, f, calls, free, tape, SpawnedStars(v, m, f, calls, free, tape, |calls|))
  {
    forall j | 0 <= j < |calls|
      ensures SpawnedStars(v, m, f, calls, free, tape, |calls|)[j] == SpawnedStar(v, m, NthBase(free, j), f, calls[j], tape)
    {
      SpawnedStarsAt(v, m, f, calls, free, tape, |calls|, j);
    }
  }

  /** `want` holds the star of each pass of script.js's burst loop. */
  ghost predicate RootPlanned(m: MathLib, cfg: ShellConfig, x: real, y: real, free: seq<Star>,
                              tape: nat -> Unit, pos: nat, want: seq<Star>)
  {
    (want != [] ==> cfg.starCount > 0.0) &&
    forall j :: 0 <= j < |want| ==> want[j] == RootBurstStar(NthBase(free, j), m, cfg, x, y, j, tape(pos + j))
  }

  /** Every spawned star is a burst star of its factory, in the factory's colour
      or one of the six palette colours, because the records it reuses carry no
      callback. */
  lemma SpawnedStarsFromBurst(v: Variant, m: MathLib, f: Factory, calls: seq<FactoryCall>, free: seq<Star>,
                              tape: nat -> Unit, n: nat)
    requires v != RootScript && Calm(free) && f.sparkFreq >= 0.0 && n <= |calls|
    ensures forall j :: 0 <= j < n ==>
      var s := SpawnedStars(v, m, f, calls, free, tape, n)[j];
      FromBurst(s, f.x, f.y, f.starLife, f.lifeVariation) &&
      (f.perStarColor ==> s.color in COLOR_CODES) && (!f.perStarColor ==> s.color == f.color)
  {
    forall j | 0 <= j < n
      ensures var s := SpawnedStars(v, m, f, calls, free, tape, n)[j];
        FromBurst(s, f.x, f.y, f.starLife, f.lifeVariation) &&
        (f.perStarColor ==> s.color in COLOR_CODES) && (!f.perStarColor ==> s.color == f.color)
    {
      SpawnedStarsAt(v, m, f, calls, free, tape, n, j);
      SpawnedStarFromBurst(v, m, NthBase(free, j), f, calls[j], tape);
    }
  }

  /** The buckets a1 are the buckets a0 with stars of one burst behind them:
      no bucket is lost or shortened, and every star behind what a bucket held
      sits in the bucket of its colour and is a burst star from (x, y). */
  ghost predicate Grown(a0: map<string, seq<Star>>, a1: map<string, seq<Star>>,
                        x: real, y: real, starLife: real, variation: real)
  {
    a0.Keys <= a1.Keys &&
    (forall c :: c in a1 ==> Get(a0, c) <= a1[c]) &&
    (forall c, j :: c in a1 && |Get(a0, c)| <= j < |a1[c]| ==>
       a1[c][j].color == c && FromBurst(a1[c][j], x, y, starLife, variation))
  }

  /** Growth keeps every bucket as a prefix of its new self. */
  lemma GrownExtends(a0: map<string, seq<Star>>, a1: map<string, seq<Star>>,
                     x: real, y: real, starLife: real, variation: real)
    requires Grown(a0, a1, x, y, starLife, variation)
    ensures Extends(a0, a1)
  {
    forall c | c in a0
      ensures a0[c] <= a1[c]
    {
      assert Get(a0, c) == a0[c];
    }
  }

  /** Nothing added is growth of every kind. */
  lemma GrownNone(a: map<string, seq<Star>>, x: real, y: real, starLife: real, variation: real)
    ensures Grown(a, a, x, y, starLife, variation)
  {
  }

  /** Two growths by stars of the same burst are one. */
  lemma GrownTrans(a0: map<string, seq<Star>>, a1: map<string, seq<Star>>, a2: map<string, seq<Star>>,
                   x: real, y: real, starLife: real, variation: real)
    requires Grown(a0, a1, x, y, starLife, variation) && Grown(a1, a2, x, y, starLife, variation)
    ensures Grown(a0, a2, x, y, starLife, variation)
  {
    forall c | c in a2
      ensures Get(a0, c) <= a2[c]
      ensures forall j :: |Get(a0, c)| <= j < |a2[c]| ==>
        a2[c][j].color == c && FromBurst(a2[c][j], x, y, starLife, variation)
    {
      assert Get(a0, c) <= Get(a1, c);
      assert Get(a1, c) <= a2[c];
      forall j | |Get(a0, c)| <= j < |a2[c]|
        ensures a2[c][j].color == c && FromBurst(a2[c][j], x, y, starLife, variation)
      {
        if j < |Get(a1, c)| {
          assert a2[c][j] == a1[c][j];
        }
      }
    }
  }

  /** Pushing burst stars from (x, y) grows the buckets. */
  lemma PushedGrown(a0: map<string, seq<Star>>, xs: seq<Star>, x: real, y: real, starLife: real, variation: real)
    requires forall i :: 0 <= i < |xs| ==> FromBurst(xs[i], x, y, starLife, variation)
    ensures Grown(a0, Pushed(a0, xs, StarKey), x, y, starLife, variation)
  {
    var a1 := Pushed(a0, xs, StarKey);
    PushedExtends(a0, xs, StarKey);
    PushedSorted(a0, xs, StarKey);
    PushedFrom(a0, xs, StarKey);
    forall c, j | c in a1 && |Get(a0, c)| <= j < |a1[c]|
      ensures FromBurst(a1[c][j], x, y, starLife, variation)
    {
      var i :| 0 <= i < |xs| && xs[i] == a1[c][j];
    }
  }

  /** Pushing the spawned stars of a run grows the buckets by burst stars of
      the run's factory. */
  lemma SpawnedGrown(v: Variant, m: MathLib, f: Factory, calls: seq<FactoryCall>, free: seq<Star>,
                     tape: nat -> Unit, a0: map<string, seq<Star>>)
    requires v != RootScript && Calm(free) && f.sparkFreq >= 0.0
    ensures Grown(a0, Pushed(a0, SpawnedStars(v, m, f, calls, free, tape, |calls|), StarKey),
                  f.x, f.y, f.starLife, f.lifeVariation)
  {
    var xs := SpawnedStars(v, m, f, calls, free, tape, |calls|);
    SpawnedStarsFromBurst(v, m, f, calls, free, tape, |calls|);
    assert forall i :: 0 <= i < |xs| ==> FromBurst(xs[i], f.x, f.y, f.starLife, f.lifeVariation);
    PushedGrown(a0, xs, f.x, f.y, f.starLife, f.lifeVariation);
  }

  /** Of the star buckets S0 a frame found, those of the colours already
      walked start with their stars stepped, the others still start with what
      they held. */
  ghost predicate StarsAdvanced(S0: map<string, seq<Star>>, walked: seq<string>, st: Step, a: map<string, seq<Star>>)
  {
    S0.Keys <= a.Keys &&
    forall c :: c in S0 ==> (c in walked ==> SteppedStars(S0[c], st) <= a[c]) && (c !in walked ==> S0[c] <= a[c])
  }

  ghost predicate SparksAdvanced(P0: map<string, seq<Spark>>, walked: seq<string>, st: Step, a: map<string, seq<Spark>>)
  {
    P0.Keys <= a.Keys &&
    forall c :: c in P0 ==> (c in walked ==> SteppedSparks(P0[c], st) <= a[c]) && (c !in walked ==> P0[c] <= a[c])
  }

  /** Stepping a longer bucket steps the shorter one first. */
  lemma SteppedStarsPrefix(A: seq<Star>, B: seq<Star>, st: Step)
    requires A <= B
    ensures SteppedStars(A, st) <= SteppedStars(B, st)
  {
    assert B == A + B[|A|..];
    SteppedStarsAppend(A, B[|A|..], st);
  }

  lemma SparksSteppedPrefix(A: seq<Spark>, B: seq<Spark>, st: Step)
    requires A <= B
    ensures SteppedSparks(A, st) <= SteppedSparks(B, st)
  {
    assert B == A + B[|A|..];
    SteppedSparksAppend(A, B[|A|..], st);
  }

  /** A frame's progress survives buckets that only grow. */
  lemma StarsAdvancedGrow(S0: map<string, seq<Star>>, walked: seq<string>, st: Step,
                          a0: map<string, seq<Star>>, a1: map<string, seq<Star>>)
    requires StarsAdvanced(S0, walked, st, a0) && Extends(a0, a1)
    ensures StarsAdvanced(S0, walked, st, a1)
  {
    forall c | c in S0
      ensures (c in walked ==> SteppedStars(S0[c], st) <= a1[c]) && (c !in walked ==> S0[c] <= a1[c])
    {
      assert a0[c] <= a1[c];
    }
  }

  lemma SparksAdvancedGrow(P0: map<string, seq<Spark>>, walked: seq<string>, st: Step,
                           a0: map<string, seq<Spark>>, a1: map<string, seq<Spark>>)
    requires SparksAdvanced(P0, walked, st, a0) && Extends(a0, a1)
    ensures SparksAdvanced(P0, walked, st, a1)
  {
    forall c | c in P0
      ensures (c in walked ==> SteppedSparks(P0[c], st) <= a1[c]) && (c !in walked ==> P0[c] <= a1[c])
    {
      assert a0[c] <= a1[c];
    }
  }

  /** Walking the star bucket of a colour not yet walked, which starts with
      what the frame found there, advances the frame by that colour. */
  lemma StarsAdvancedWalk(S0: map<string, seq<Star>>, walked: seq<string>, c: string, st: Step,
                          a0: map<string, seq<Star>>, a1: map<string, seq<Star>>)
    requires StarsAdvanced(S0, walked, st, a0) && c !in walked && c in a0
    requires c in a1 && SteppedStars(a0[c], st) <= a1[c] && ExtendsBut(a0, a1, c)
    ensures StarsAdvanced(S0, walked + [c], st, a1)
  {
    forall k | k in S0
      ensures (k in walked + [c] ==> SteppedStars(S0[k], st) <= a1[k]) && (k !in walked + [c] ==> S0[k] <= a1[k])
    {
      if k == c {
        SteppedStarsPrefix(S0[c], a0[c], st);
      } else {
        assert a0[k] <= a1[k];
        assert k in walked + [c] <==> k in walked;
      }
    }
  }

  lemma SparksAdvancedWalk(P0: map<string, seq<Spark>>, walked: seq<string>, c: string, st: Step,
                           a0: map<string, seq<Spark>>, a1: map<string, seq<Spark>>)
    requires SparksAdvanced(P0, walked, st, a0) && c !in walked && c in a0
    requires a1 == a0[c := SteppedSparks(a0[c], st)]
    ensures SparksAdvanced(P0, walked + [c], st, a1)
  {
    forall k | k in P0
      ensures (k in walked + [c] ==> SteppedSparks(P0[k], st) <= a1[k]) && (k !in walked + [c] ==> P0[k] <= a1[k])
    {
      if k == c {
        SparksSteppedPrefix(P0[c], a0[c], st);
      } else {
        assert k in walked + [c] <==> k in walked;
      }
    }
  }

  /** A frame that walked every colour it found has stepped every bucket. */
  lemma StarsAdvancedAll(S0: map<string, seq<Star>>, walked: seq<string>, st: Step, a: map<string, seq<Star>>)
    requires StarsAdvanced(S0, walked, st, a) && forall c :: c in S0 ==> c in walked
    ensures StarsStepped(S0, st, a)
  {
  }

  /** Every star bucket S0 held starts with its stars stepped. */
  ghost predicate StarsStepped(S0: map<string, seq<Star>>, st: Step, a: map<string, seq<Star>>)
  {
    forall c :: c in S0 ==> c in a && SteppedStars(S0[c], st) <= a[c]
  }

  ghost predicate SparksStepped(P0: map<string, seq<Spark>>, st: Step, a: map<string, seq<Spark>>)
  {
    forall c :: c in P0 ==> c in a && SteppedSparks(P0[c], st) <= a[c]
  }

  /** A finished walk of a colour not yet walked advances the frame by that
      colour and leaves the spark buckets extended. */
  lemma WalkedAdvances(m: MathLib, S0: map<string, seq<Star>>, walked: seq<string>, c: string, st: Step, s0: Snap, s1: Snap)
    requires StarsAdvanced(S0, walked, st, s0.stars) && c !in walked && c in s0.stars
    requires Walked(m, c, st, s0, s1)
    ensures StarsAdvanced(S0, walked + [c], st, s1.stars) && Extends(s0.sparks, s1.sparks)
  {
    StarsAdvancedWalk(S0, walked, c, st, s0.stars, s1.stars);
  }

  /** A spark pass that begins on buckets which only grew since the frame
      began has nothing walked yet. */
  lemma SparksFromGrowth(P0: map<string, seq<Spark>>, st: Step, a: map<string, seq<Spark>>)
    requires Extends(P0, a)
    ensures SparksAdvanced(P0, [], st, a)
  {
  }

  lemma SparksAdvancedAll(P0: map<string, seq<Spark>>, walked: seq<string>, st: Step, a: map<string, seq<Spark>>)
    requires SparksAdvanced(P0, walked, st, a) && forall c :: c in P0 ==> c in walked
    ensures SparksStepped(P0, st, a)
  {
  }

  /** Stepping a bucket steps each part of it on its own. */
  lemma {:induction false} SteppedStarsAppend(A: seq<Star>, B: seq<Star>, st: Step)
    ensures SteppedStars(A + B, st) == SteppedStars(A, st) + SteppedStars(B, st)
  {
    if A == [] {
      assert A + B == B;
    } else {
      assert (A + B)[1..] == A[1..] + B;
      SteppedStarsAppend(A[1..], B, st);
    }
  }

  lemma {:induction false} SteppedSparksAppend(A: seq<Spark>, B: seq<Spark>, st: Step)
    ensures SteppedSparks(A + B, st) == SteppedSparks(A, st) + SteppedSparks(B, st)
  {
    if A == [] {
      assert A + B == B;
    } else {
      assert (A + B)[1..] == A[1..] + B;
      SteppedSparksAppend(A[1..], B, st);
    }
  }
}
