/** The colour keys of the engine. Colours are the CSS hex strings the source
    uses as property names of its bucket objects; INVISIBLE is the sentinel key
    of particles that move but are never stroked. */
module Palette {
  import opened Numerics

  const RED: string := "#ff0043"
  const GREEN: string := "#14fc56"
  const BLUE: string := "#1e7fff"
  const PURPLE: string := "#e60aff"
  const GOLD: string := "#ffbf36"
  const WHITE: string := "#ffffff"
  const CYAN: string := "#00ffff"
  const MAGENTA: string := "#ff00ff"
  const LIME: string := "#ccff00"
  const ORANGE: string := "#ff9900"
  const PINK: string := "#ff00cc"
  const INVISIBLE: string := "_INVISIBLE_"

  /** COLOR_CODES of js/script.js and fscreen.js, in the order of the COLOR object. */
  const COLOR_CODES: seq<string> := [RED, GREEN, BLUE, PURPLE, GOLD, WHITE]
  /** COLOR_CODES_W_INVIS: the keys of every eager bucket map, in insertion order. */
  const COLOR_CODES_W_INVIS: seq<string> := COLOR_CODES + [INVISIBLE]
  /** COLOR_CODES of the lazy-bucket variant (script.js), a larger palette. */
  const WIDE_COLOR_CODES: seq<string> := [RED, GREEN, BLUE, PURPLE, GOLD, WHITE, CYAN, MAGENTA, LIME, ORANGE, PINK]

  /** `codes[(Math.random() * codes.length) | 0]` (and the same with Math.floor):
      a colour picked by one draw. */
  function RandomColor(codes: seq<string>, u: Unit): (c: string)
    requires |codes| > 0
    ensures c in codes
  {
    var i := (u * |codes| as real).Floor;
    assert 0.0 <= u * |codes| as real < |codes| as real;
    codes[i]
  }

  /** `Math.random() < 0.5 ? COLOR.Gold : COLOR.White`. */
  function WhiteOrGold(u: Unit): (c: string)
    ensures c in COLOR_CODES
    ensures c == GOLD <==> u < 0.5
  {
    if u < 0.5 then GOLD else WHITE
  }

  /** createParticleCollection, generalised over the key list: an object with one
      empty array per key, built by `keys.forEach(c => collection[c] = [])`. */
  function Collection<T>(keys: seq<string>): (m: map<string, seq<T>>)
    ensures m.Keys == set c | c in keys
    ensures forall c :: c in m ==> m[c] == []
  {
    if keys == [] then map[]
    else Collection<T>(keys[..|keys| - 1])[keys[|keys| - 1] := []]
  }

  /** A JavaScript array used as a property key turns into its elements joined by
      commas; no bucket key holds a comma, so such a key is never a bucket. */
  lemma {:induction false} JoinedPairIsNoKey(a: string, b: string)
    ensures a + "," + b !in COLOR_CODES_W_INVIS
  {
    var s := a + "," + b;
    assert s[|a|] == ',';
    if s in COLOR_CODES_W_INVIS {
      NoCommaInKeys(s, |a|);
    }
  }

  lemma NoCommaInKeys(k: string, i: nat)
    requires k in COLOR_CODES_W_INVIS && i < |k|
    ensures k[i] != ','
  {
  }

  /** A one-character string, such as `"#ff0043"[1]`, is never a bucket key. */
  lemma OneCharIsNoKey(s: string)
    requires |s| == 1
    ensures s !in COLOR_CODES_W_INVIS && s !in WIDE_COLOR_CODES
  {
  }
}
