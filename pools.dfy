/** The object pools that recycle particle records: Star and Spark keep a
    colour-keyed object of active buckets plus a `_pool` free list; BurstFlash
    keeps an active list and a free list. The pools are objects the engine
    updates in place; the records they hold are values (see the particle
    module), so a record updated in its bucket is a bucket entry replaced. */
module Pools {
  import opened Recipes
  import opened Seqs
  import Palette

  /** The Star or the Spark object of one variant. `lazy` pools (script.js)
      create a bucket the first time a colour is used; eager pools
      (js/script.js, fscreen.js) start with the buckets of
      createParticleCollection and have no others. */
  class Pool<T> {
    const lazy: bool
    var active: map<string, seq<T>>
    /** The bucket keys in insertion order, as Object.keys lists them. */
    var order: seq<string>
    /** `_pool`: retired records, last one on top. */
    var free: seq<T>

    ghost predicate Valid()
      reads this
    {
      (forall c :: c in active <==> c in order) && Distinct(order)
    }

    /** An eager pool: one empty bucket per key; a lazy pool: none. */
    constructor (lazy: bool, keys: seq<string>)
      requires Distinct(keys)
      ensures Valid() && this.lazy == lazy
      ensures active == Palette.Collection(keys) && order == keys && free == []
    {
      this.lazy := lazy;
      active := Palette.Collection(keys);
      order := keys;
      free := [];
    }

    /** `this._pool.pop()`: the last free record, or None when `_new()` has to
        make a blank one. */
    method Take() returns (r: Option<T>)
      requires Valid()
      modifies this`free
      ensures Valid()
      ensures old(free) == [] ==> r == None && free == []
      ensures old(free) != [] ==> r == Some(old(free)[|old(free)| - 1]) && free == old(free)[..|old(free)| - 1]
    {
      if free == [] {
        r := None;
      } else {
        r := Some(free[|free| - 1]);
        free := free[..|free| - 1];
      }
    }

    /** `this.active[color].push(instance)`, preceded in a lazy pool by
        `if (!this.active[color]) this.active[color] = []`. An eager pool has no
        bucket for any other key: the push then throws a TypeError, which is
        `ok == false` with nothing changed. */
    method Append(c: string, x: T) returns (ok: bool)
      requires Valid()
      modifies this`active, this`order
      ensures Valid()
      ensures ok == (lazy || c in old(active))
      ensures ok ==> active == old(active)[c := Get(old(active), c) + [x]]
      ensures ok ==> order == if c in old(active) then old(order) else old(order) + [c]
      ensures !ok ==> active == old(active) && order == old(order)
    {
      ok := lazy || c in active;
      if !ok {
        return;
      }
      if c !in active {
        assert c !in order;
        active := active[c := []];
        order := order + [c];
      }
      active := active[c := active[c] + [x]];
    }

    /** `particles.splice(i, 1)`: the record leaves its bucket. */
    method RemoveAt(c: string, i: nat) returns (x: T)
      requires Valid() && c in active && i < |active[c]|
      modifies this`active
      ensures Valid()
      ensures x == old(active[c][i])
      ensures active == old(active)[c := old(active[c][..i] + active[c][i + 1..])]
    {
      x := active[c][i];
      active := active[c := active[c][..i] + active[c][i + 1..]];
    }

    /** The record at position i of a bucket, updated in place. */
    method Put(c: string, i: nat, x: T)
      requires Valid() && c in active && i < |active[c]|
      modifies this`active
      ensures Valid()
      ensures active == old(active)[c := old(active[c])[i := x]]
    {
      active := active[c := active[c][i := x]];
    }

    /** `this._pool.push(instance)`. */
    method Release(x: T)
      requires Valid()
      modifies this`free
      ensures Valid()
      ensures free == old(free) + [x]
    {
      free := free + [x];
    }
  }

  /** The bucket of a colour, or the empty array where there is none. */
  function Get<T>(active: map<string, seq<T>>, c: string): seq<T>
  {
    if c in active then active[c] else []
  }

  /** The free list after n pops, each taking the last record while there is one. */
  function Popped<T>(free: seq<T>, n: nat): (r: seq<T>)
    ensures |r| == if n <= |free| then |free| - n else 0
    ensures r <= free
  {
    free[..if n <= |free| then |free| - n else 0]
  }

  /** n pops and then m more are n + m pops. */
  lemma PoppedTwice<T>(free: seq<T>, n: nat, m: nat)
    ensures Popped(Popped(free, n), m) == Popped(free, n + m)
  {
  }

  /** The buckets after `xs` were pushed in order, each onto the bucket its key
      names, creating buckets as needed. */
  function Pushed<T>(a: map<string, seq<T>>, xs: seq<T>, key: T -> string): map<string, seq<T>>
  {
    if xs == [] then a
    else
      var b := Pushed(a, xs[..|xs| - 1], key);
      var x := xs[|xs| - 1];
      b[key(x) := Get(b, key(x)) + [x]]
  }

  /** Pushing one record appends it to the bucket of its key. */
  lemma PushedOne<T>(a: map<string, seq<T>>, x: T, key: T -> string)
    ensures Pushed(a, [x], key) == a[key(x) := Get(a, key(x)) + [x]]
  {
    assert [x][..0] == [];
  }

  /** Pushing the records of a run one at a time. */
  lemma PushedNext<T>(a: map<string, seq<T>>, xs: seq<T>, k: nat, key: T -> string)
    requires k < |xs|
    ensures Pushed(Pushed(a, xs[..k], key), [xs[k]], key) == Pushed(a, xs[..k + 1], key)
  {
    PushedAppend(a, xs[..k], [xs[k]], key);
    assert xs[..k] + [xs[k]] == xs[..k + 1];
  }

  /** Records of one key all land, in order, at the end of that key's bucket. */
  lemma {:induction false} PushedOneKey<T>(a: map<string, seq<T>>, xs: seq<T>, key: T -> string, c: string)
    requires forall j :: 0 <= j < |xs| ==> key(xs[j]) == c
    ensures Pushed(a, xs, key) == if xs == [] then a else a[c := Get(a, c) + xs]
  {
    if xs != [] {
      var init := xs[..|xs| - 1];
      PushedOneKey(a, init, key, c);
      assert init + [xs[|xs| - 1]] == xs;
      var b := if init == [] then a else a[c := Get(a, c) + init];
      assert Get(b, c) + [xs[|xs| - 1]] == Get(a, c) + xs;
    }
  }

  /** Pushing two runs one after the other is pushing their concatenation. */
  lemma {:induction false} PushedAppend<T>(a: map<string, seq<T>>, xs: seq<T>, ys: seq<T>, key: T -> string)
    ensures Pushed(Pushed(a, xs, key), ys, key) == Pushed(a, xs + ys, key)
    decreases |ys|
  {
    if ys == [] {
      assert xs + ys == xs;
    } else {
      var init := ys[..|ys| - 1];
      PushedAppend(a, xs, init, key);
      assert (xs + ys)[..|xs + ys| - 1] == xs + init;
    }
  }

  /** Pushing never removes a bucket or shortens one: every old bucket is a
      prefix of its new self. */
  lemma {:induction false} PushedExtends<T>(a: map<string, seq<T>>, xs: seq<T>, key: T -> string)
    ensures a.Keys <= Pushed(a, xs, key).Keys
    ensures forall c :: c in Pushed(a, xs, key) ==> Get(a, c) <= Pushed(a, xs, key)[c]
    ensures Extends(a, Pushed(a, xs, key))
  {
    if xs != [] {
      PushedExtends(a, xs[..|xs| - 1], key);
    }
  }

  /** The buckets a1 keep every bucket of a0, each as a prefix of its new self. */
  ghost predicate Extends<T>(a0: map<string, seq<T>>, a1: map<string, seq<T>>)
  {
    a0.Keys <= a1.Keys && forall c :: c in a0 ==> a0[c] <= a1[c]
  }

  /** Every bucket but c keeps what it held, and no bucket is lost. */
  ghost predicate ExtendsBut<T>(a0: map<string, seq<T>>, a1: map<string, seq<T>>, c: string)
  {
    a0.Keys <= a1.Keys && forall k :: k in a0 && k != c ==> a0[k] <= a1[k]
  }

  lemma ExtendsButTrans<T>(a0: map<string, seq<T>>, a1: map<string, seq<T>>, a2: map<string, seq<T>>, c: string)
    requires ExtendsBut(a0, a1, c) && Extends(a1, a2)
    ensures ExtendsBut(a0, a2, c)
  {
    forall k | k in a0 && k != c
      ensures a0[k] <= a2[k]
    {
      assert a0[k] <= a1[k] <= a2[k];
    }
  }

  lemma ExtendsTrans<T>(a0: map<string, seq<T>>, a1: map<string, seq<T>>, a2: map<string, seq<T>>)
    requires Extends(a0, a1) && Extends(a1, a2)
    ensures Extends(a0, a2)
  {
    forall c | c in a0
      ensures a0[c] <= a2[c]
    {
      assert a0[c] <= a1[c] <= a2[c];
    }
  }

  /** Every record pushed sits in the bucket of its key. */
  lemma {:induction false} PushedSorted<T>(a: map<string, seq<T>>, xs: seq<T>, key: T -> string)
    ensures forall c, j :: c in Pushed(a, xs, key) && |Get(a, c)| <= j < |Pushed(a, xs, key)[c]| ==>
      key(Pushed(a, xs, key)[c][j]) == c
  {
    if xs != [] {
      PushedExtends(a, xs[..|xs| - 1], key);
      PushedSorted(a, xs[..|xs| - 1], key);
    }
  }

  /** Every record behind what a bucket held is one of the records pushed. */
  lemma {:induction false} PushedFrom<T>(a: map<string, seq<T>>, xs: seq<T>, key: T -> string)
    ensures forall c, j :: c in Pushed(a, xs, key) && |Get(a, c)| <= j < |Pushed(a, xs, key)[c]| ==>
      Pushed(a, xs, key)[c][j] in xs
  {
    if xs != [] {
      var init := xs[..|xs| - 1];
      PushedExtends(a, init, key);
      PushedFrom(a, init, key);
      assert forall s :: s in init ==> s in xs;
    }
  }

  /** Pushes land behind what a bucket held, so replacing that part of a bucket
      before the pushes or after them comes to the same. */
  lemma {:induction false} PushedReplace<T>(a: map<string, seq<T>>, xs: seq<T>, key: T -> string, c: string, B: seq<T>)
    requires c in a
    ensures c in Pushed(a, xs, key) && |a[c]| <= |Pushed(a, xs, key)[c]|
    ensures Pushed(a[c := B], xs, key) ==
      Pushed(a, xs, key)[c := B + Pushed(a, xs, key)[c][|a[c]|..]]
  {
    PushedExtends(a, xs, key);
    if xs == [] {
      assert a[c][|a[c]|..] == [];
      assert B + [] == B;
    } else {
      var init := xs[..|xs| - 1];
      var x := xs[|xs| - 1];
      PushedReplace(a, init, key, c, B);
      var Q := Pushed(a, init, key);
      var n := |a[c]|;
      var X := B + Q[c][n..];
      var k := key(x);
      assert Get(Q[c := X], k) == if k == c then X else Get(Q, k);
      if k == c {
        assert Get(Q, c) == Q[c];
        assert (Q[c] + [x])[n..] == Q[c][n..] + [x];
        assert X + [x] == B + (Q[c] + [x])[n..];
        UpdateTwice(Q, c, X, X + [x]);
        UpdateTwice(Q, c, Q[c] + [x], B + (Q[c] + [x])[n..]);
        assert Pushed(a, xs, key) == Q[c := Q[c] + [x]];
        assert Pushed(a[c := B], xs, key) == Q[c := X][c := X + [x]];
      } else {
        UpdateSwap(Q, c, k, X, Get(Q, k) + [x]);
      }
    }
  }

  lemma UpdateTwice<K, V>(m: map<K, V>, c: K, u: V, v: V)
    ensures m[c := u][c := v] == m[c := v]
  {
  }

  lemma UpdateSwap<K, V>(m: map<K, V>, c: K, k: K, u: V, v: V)
    requires c != k
    ensures m[c := u][k := v] == m[k := v][c := u]
  {
  }

  /** A BurstFlash record. */
  datatype Flash = Flash(x: real, y: real, radius: real)

  /** The BurstFlash object: flashes waiting for the next render, and the free list. */
  class FlashPool {
    var active: seq<Flash>
    var free: seq<Flash>

    constructor ()
      ensures active == [] && free == []
    {
      active, free := [], [];
    }

    /** BurstFlash.add: pop the free list or make a record, write all three
        fields, push it. */
    method Add(x: real, y: real, radius: real) returns (f: Flash)
      modifies this
      ensures f == Flash(x, y, radius)
      ensures active == old(active) + [f]
      ensures free == Popped(old(free), 1)
    {
      if free != [] {
        free := free[..|free| - 1];
      }
      f := Flash(x, y, radius);
      active := active + [f];
    }

    /** The drain loop of render: `while (active.length) returnInstance(active.pop())`.
        Afterwards nothing is active and every drained flash is on the free list,
        last-added first. */
    method Drain()
      modifies this
      ensures active == [] && free == old(free) + Reversed(old(active))
    {
      ghost var a0 := active;
      while |active| > 0
        invariant active == a0[..|active|]
        invariant free == old(free) + Reversed(a0[|active|..])
        decreases |active|
      {
        var j := |active| - 1;
        var bf := active[j];
        assert a0[j..][1..] == a0[j + 1..];
        active := active[..j];
        free := free + [bf];
      }
    }
  }
}
