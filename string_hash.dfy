/**
 * The 31-multiplier string hash the front end uses in two places, with
 * JavaScript's 32-bit integer conversion (`| 0`, `& x`) written out.
 * Characters stand for their UTF-16 code units (`charCodeAt`).
 */
module StringHash {

  const Two31: int := 0x8000_0000
  const Two32: int := 0x1_0000_0000

  predicate IsInt32(x: int) { -Two31 <= x < Two31 }

  /** ECMAScript ToInt32: the value congruent to `x` modulo 2^32 in the signed 32-bit range. */
  function ToInt32(x: int): (r: int)
    ensures IsInt32(r)
    ensures (r - x) % Two32 == 0
    ensures IsInt32(x) ==> r == x
  {
    var m := x % Two32;
    if m >= Two31 then m - Two32 else m
  }

  /** Values that agree modulo 2^32 convert to the same 32-bit integer. */
  lemma ToInt32Congruent(x: int, y: int)
    requires (x - y) % Two32 == 0
    ensures ToInt32(x) == ToInt32(y)
  {
    var q := (x - y) / Two32;
    assert x == y + q * Two32;
    ModShift(y, q);
  }

  lemma ModShift(y: int, q: int)
    ensures (y + q * Two32) % Two32 == y % Two32
  {
  }

  /** One step of the hash: `(h * 31 + c) | 0`. */
  function Step(h: int, c: char): int {
    ToInt32(h * 31 + c as int)
  }

  /** The hash of `s`, folding `Step` from the left, starting at 0. */
  function Hash(s: string): (h: int)
    ensures IsInt32(h)
  {
    if s == [] then 0 else Step(Hash(s[..|s| - 1]), s[|s| - 1])
  }

  /** The shift form `((h << 5) - h) + c`, then `& itself`, is the same step. */
  lemma ShiftFormIsStep(h: int, c: char)
    requires IsInt32(h)
    ensures ToInt32(ToInt32(h * 32) - h + c as int) == Step(h, c)
  {
    var a := ToInt32(h * 32);
    assert (a - h * 32) % Two32 == 0;
    assert ((a - h + c as int) - (h * 31 + c as int)) == a - h * 32;
    ToInt32Congruent(a - h + c as int, h * 31 + c as int);
  }

  /** Hashing text with a suffix continues from the hash of the prefix. */
  lemma {:induction false} HashAppend(s: string, c: char)
    ensures Hash(s + [c]) == Step(Hash(s), c)
  {
    assert (s + [c])[..|s|] == s;
  }

  /** `Math.abs(h) % n` picks an index below `n`. */
  function AbsMod(h: int, n: nat): (r: nat)
    requires n > 0
    ensures r < n
  {
    (if h < 0 then -h else h) % n
  }

  /** The hash loop itself. */
  method HashOf(s: string) returns (h: int)
    ensures h == Hash(s)
  {
    h := 0;
    for i := 0 to |s|
      invariant h == Hash(s[..i])
    {
      assert s[..i + 1] == s[..i] + [s[i]];
      HashAppend(s[..i], s[i]);
      h := ToInt32(h * 31 + s[i] as int);
    }
    assert s[..|s|] == s;
  }
}
