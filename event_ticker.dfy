/**
 * The vertical news ticker of gamification events: which events it shows
 * and in what rotation, and how it prints an event's age, its symbol and a
 * shortened text.
 */
module EventTicker {
  import opened Wrappers
  import opened JsText
  import opened GamificationEvents

  /** `a % n` as JavaScript computes it: the sign follows the dividend. */
  function JsRem(a: int, n: int): (r: int)
    requires n > 0
    ensures -n < r < n
  {
    if a >= 0 then a % n else -((-a) % n)
  }

  /** A JavaScript remainder read as a `slice` position is the non-negative remainder. */
  lemma JsRemAsSliceIndex(a: int, n: int)
    requires n > 0
    ensures SliceIndex(JsRem(a, n), n) == a % n
  {
    if a < 0 {
      var m := -a;
      var q, r := m / n, m % n;
      assert m == q * n + r;
      if r == 0 {
        assert a == (-q) * n + 0;
        ModOfDecomposition(a, n, -q, 0);
      } else {
        assert (-q - 1) * n == -(q * n) - n;
        assert a == (-q - 1) * n + (n - r);
        ModOfDecomposition(a, n, -q - 1, n - r);
      }
    }
  }

  /** A positive multiple of `n` is at least `n`. */
  lemma {:induction false} MulAtLeast(k: int, n: int)
    requires k >= 1 && n > 0
    ensures k * n >= n
    decreases k
  {
    if k > 1 {
      MulAtLeast(k - 1, n);
      assert k * n == (k - 1) * n + n;
    }
  }

  /** Euclidean remainders are unique. */
  lemma ModOfDecomposition(a: int, n: int, q: int, r: int)
    requires n > 0 && 0 <= r < n && a == q * n + r
    ensures a % n == r && a / n == q
  {
    var q', r' := a / n, a % n;
    assert a == q' * n + r';
    if q > q' {
      MulAtLeast(q - q', n);
    } else if q < q' {
      MulAtLeast(q' - q, n);
    }
  }

  // --------------------------------------------------------------- rotate

  /** `rotate(arr, index)`: the list read from the normalized index round to its start. */
  function Rotate<T>(arr: seq<T>, index: int): seq<T> {
    if |arr| == 0 then arr
    else
      var normalized := JsRem(index, |arr|);
      Slice(arr, normalized, |arr|) + Slice(arr, 0, normalized)
  }

  /**
   * A rotation: the same elements, as many, each shifted by the index
   * taken modulo the length (a negative index counts back from the end).
   * Index 0 gives the list unchanged.
   */
  lemma RotateIsRotation<T>(arr: seq<T>, index: int)
    requires |arr| > 0
    ensures var k := index % |arr|; Rotate(arr, index) == arr[k..] + arr[..k]
    ensures |Rotate(arr, index)| == |arr| && multiset(Rotate(arr, index)) == multiset(arr)
    ensures forall i :: 0 <= i < |arr| ==> Rotate(arr, index)[i] == arr[(i + index % |arr|) % |arr|]
    ensures Rotate(arr, 0) == arr
  {
    RotateSplits(arr, index);
    RotatedFacts(arr, index % |arr|);
    RotateZero(arr);
  }

  /** The list rotated at `k` has the same elements, each `k` places further on. */
  lemma RotatedFacts<T>(arr: seq<T>, k: int)
    requires 0 <= k < |arr|
    ensures var r := arr[k..] + arr[..k];
      |r| == |arr| && multiset(r) == multiset(arr)
      && forall i :: 0 <= i < |arr| ==> r[i] == arr[(i + k) % |arr|]
  {
    assert arr == arr[..k] + arr[k..];
    forall i | 0 <= i < |arr| ensures (arr[k..] + arr[..k])[i] == arr[(i + k) % |arr|] {
      RotatedAt(arr, k, i);
    }
  }

  /** Index 0 leaves the list as it is. */
  lemma RotateZero<T>(arr: seq<T>)
    requires |arr| > 0
    ensures Rotate(arr, 0) == arr
  {
    RotateSplits(arr, 0);
    assert 0 % |arr| == 0;
    assert arr[0..] == arr && arr[..0] == [];
  }

  /** The rotation is the suffix from the non-negative remainder followed by the prefix up to it. */
  lemma RotateSplits<T>(arr: seq<T>, index: int)
    requires |arr| > 0
    ensures var k := index % |arr|; Rotate(arr, index) == arr[k..] + arr[..k]
  {
    var n := |arr|;
    var k := index % n;
    JsRemAsSliceIndex(index, n);
    var normalized := JsRem(index, n);
    assert Slice(arr, normalized, n) == arr[k..];
    assert Slice(arr, 0, normalized) == arr[..k];
  }

  /** Position `i` of the list rotated at `k` holds the element `k` places further on, wrapping around. */
  lemma RotatedAt<T>(arr: seq<T>, k: int, i: int)
    requires 0 <= k < |arr| && 0 <= i < |arr|
    ensures (arr[k..] + arr[..k])[i] == arr[(i + k) % |arr|]
  {
    var n := |arr|;
    var r := arr[k..] + arr[..k];
    if i < n - k {
      assert r[i] == arr[k + i];
      ModOfDecomposition(i + k, n, 0, i + k);
    } else {
      assert r[i] == arr[i - (n - k)];
      ModOfDecomposition(i + k, n, 1, i + k - n);
    }
  }

  // ------------------------------------------------------ visible events

  /** The `events$` handler: the last `maxItems` events, in feed order, rotated. */
  function VisibleOnUpdate(list: seq<GamificationEvent>, maxItems: int, rotationIndex: int): seq<GamificationEvent> {
    Rotate(Slice(list, -maxItems, |list|), rotationIndex)
  }

  /** The timer's next rotation index: one further, modulo the list (at least 1). */
  function NextRotationIndex(rotationIndex: nat, len: nat): (r: nat) {
    (rotationIndex + 1) % (if len > 1 then len else 1)
  }

  /** The timer handler: `getRecent(maxItems)`, newest first, rotated by the next index. */
  function VisibleOnTick(list: seq<GamificationEvent>, maxItems: int, rotationIndex: nat): seq<GamificationEvent> {
    var recent := Recent(list, maxItems);
    Rotate(recent, NextRotationIndex(rotationIndex, |recent|))
  }

  /**
   * On an update the ticker shows exactly the last `maxItems` events (all
   * of them when there are fewer), in some rotation; with `maxItems` 0,
   * `slice(-0)` keeps the whole feed.
   */
  lemma VisibleOnUpdateIsRecentWindow(list: seq<GamificationEvent>, maxItems: int, rotationIndex: int)
    ensures maxItems >= 0 ==>
      var w := if 0 < maxItems <= |list| then list[|list| - maxItems..] else list;
      multiset(VisibleOnUpdate(list, maxItems, rotationIndex)) == multiset(w)
      && |VisibleOnUpdate(list, maxItems, rotationIndex)| == |w|
    ensures maxItems >= 0 ==> |VisibleOnUpdate(list, maxItems, rotationIndex)| == if maxItems == 0 then |list| else Min(maxItems, |list|)
  {
    var s := Slice(list, -maxItems, |list|);
    if 0 < maxItems <= |list| {
      assert s == list[|list| - maxItems..];
    } else if maxItems >= 0 {
      assert s == list;
    }
    if s != [] {
      RotateIsRotation(s, rotationIndex);
    }
  }

  function Min(a: int, b: int): int { if a <= b then a else b }

  /** Reversing keeps the elements. */
  lemma {:induction false} ReverseMultiset<T>(s: seq<T>)
    ensures multiset(Reverse(s)) == multiset(s)
    decreases |s|
  {
    if s != [] {
      ReverseMultiset(s[1..]);
      assert Reverse(s) == Reverse(s[1..]) + [s[0]];
      assert s == [s[0]] + s[1..];
    }
  }

  /**
   * The timer and the update handler show the same events, as many of each;
   * only the order differs, the timer's list being newest first.
   */
  lemma TickAndUpdateShowSameEvents(list: seq<GamificationEvent>, maxItems: int, tickIndex: nat, updateIndex: int)
    ensures multiset(VisibleOnTick(list, maxItems, tickIndex)) == multiset(VisibleOnUpdate(list, maxItems, updateIndex))
  {
    var w := Slice(list, -maxItems, |list|);
    var recent := Recent(list, maxItems);
    ReverseMultiset(w);
    if w != [] {
      RotateIsRotation(w, updateIndex);
      RotateIsRotation(recent, NextRotationIndex(tickIndex, |recent|));
    }
  }

  /**
   * The next rotation index always points into the list, and it cycles:
   * after as many ticks as there are events it is back where it started.
   */
  lemma NextRotationIndexInRange(rotationIndex: nat, len: nat)
    ensures NextRotationIndex(rotationIndex, len) < (if len > 1 then len else 1)
    ensures len <= 1 ==> NextRotationIndex(rotationIndex, len) == 0
    ensures rotationIndex + 1 < len ==> NextRotationIndex(rotationIndex, len) == rotationIndex + 1
    ensures rotationIndex + 1 == len ==> NextRotationIndex(rotationIndex, len) == 0
  {
  }

  // ---------------------------------------------------------- formatting

  /** `text.length > max ? text.slice(0, max - 1) + '…' : text`. */
  function Truncate(text: string, max: int): string {
    if |text| > max then Slice(text, 0, max - 1) + "\U{2026}" else text
  }

  /**
   * A text that fits is kept; a longer one keeps its first `max - 1`
   * characters and ends in an ellipsis, `max` characters in all.
   */
  lemma TruncateFits(text: string, max: int)
    ensures |text| <= max ==> Truncate(text, max) == text
    ensures |text| > max >= 1 ==>
      Truncate(text, max) == text[..max - 1] + "\U{2026}" && |Truncate(text, max)| == max
    ensures |text| > max ==> Truncate(text, max)[|Truncate(text, max)| - 1] == '\U{2026}'
  {
  }

  /**
   * A limit below 1 reaches `slice` as a negative end, which counts from
   * the end of the text: with limit 0 the last character gives way to the
   * ellipsis.
   */
  lemma TruncateZeroLimit(text: string)
    requires |text| > 0
    ensures Truncate(text, 0) == text[..|text| - 1] + "\U{2026}"
  {
  }

  /** The unit `formatRelative` picks. */
  datatype AgeUnit = Seconds | Minutes | Hours | Days
  {
    function Suffix(): char {
      match this
      case Seconds => 's'
      case Minutes => 'm'
      case Hours => 'h'
      case Days => 'd'
    }
  }

  /**
   * `formatRelative(ts)` with the clock reading `now`. `Math.floor` of a
   * division by a positive number is Dafny's `/`, for negative ages too.
   */
  function FormatRelative(now: int, ts: int): string {
    var sec := (now - ts) / 1000;
    if sec < 60 then IntToString(sec) + "s"
    else
      var min := sec / 60;
      if min < 60 then IntToString(min) + "m"
      else
        var hr := min / 60;
        if hr < 24 then IntToString(hr) + "h"
        else IntToString(hr / 24) + "d"
  }

  /** The unit for an age of `sec` whole seconds: cut at 60 seconds, 60 minutes and 24 hours. */
  function UnitFor(sec: int): AgeUnit {
    if sec < 60 then Seconds else if sec < 3600 then Minutes else if sec < 86400 then Hours else Days
  }

  function UnitSeconds(u: AgeUnit): nat {
    match u
    case Seconds => 1
    case Minutes => 60
    case Hours => 3600
    case Days => 86400
  }

  /** Dividing by `b` and then by `c` is dividing by `b * c`. */
  lemma DivDiv(a: int, b: int, c: int)
    requires b > 0 && c > 0
    ensures (a / b) / c == a / (b * c)
  {
    var q1, r1 := a / b, a % b;
    var q2, r2 := q1 / c, q1 % c;
    ScaleQuotient(q1, q2, r2, b, c);
    RemainderBound(r1, r2, b, c);
    ModOfDecomposition(a, b * c, q2, r2 * b + r1);
  }

  /** Scaling `q = q' * c + r` by `b` gives `q' * (b * c) + r * b`. */
  lemma ScaleQuotient(q: int, q': int, r: int, b: int, c: int)
    requires q == q' * c + r
    ensures q * b == q' * (b * c) + r * b
  {
    assert q * b == (q' * c + r) * b;
    assert (q' * c + r) * b == q' * c * b + r * b;
  }

  /** Two remainders combine into one below `b * c`. */
  lemma RemainderBound(r1: int, r2: int, b: int, c: int)
    requires 0 <= r1 < b && 0 <= r2 < c
    ensures 0 <= r2 * b + r1 < b * c
  {
    assert r2 * b <= (c - 1) * b;
    assert (c - 1) * b == b * c - b;
  }

  /**
   * The age is printed as the whole number of units followed by the unit's
   * letter, where the unit is seconds under a minute, minutes under an
   * hour, hours under a day and days beyond; the number reads back as the
   * age in whole units.
   */
  lemma FormatRelativeUnits(now: int, ts: int)
    ensures var sec := (now - ts) / 1000; var u := UnitFor(sec);
      FormatRelative(now, ts) == IntToString(sec / UnitSeconds(u)) + [u.Suffix()]
    ensures var sec := (now - ts) / 1000; var u := UnitFor(sec);
      u != Seconds ==> DigitsValue(FormatRelative(now, ts)[..|FormatRelative(now, ts)| - 1]) == sec / UnitSeconds(u)
  {
    var sec := (now - ts) / 1000;
    DivDiv(sec, 60, 60);
    DivDiv(sec / 60, 60, 24);
    DivDiv(sec, 3600, 24);
    var u := UnitFor(sec);
    var s := FormatRelative(now, ts);
    if u != Seconds {
      var v := sec / UnitSeconds(u);
      assert v >= 1;
      DigitsValueOfNatToString(v);
      assert s[..|s| - 1] == NatToString(v);
    }
  }

  // --------------------------------------------------------------- symbols

  /** The symbols the ticker shows next to an event. */
  datatype Symbol = Construction | Fire | Chart | Party | WarningSign | NoEntry | InfoSign
  {
    function Text(): string {
      match this
      case Construction => "🏗️"
      case Fire => "🔥"
      case Chart => "📊"
      case Party => "🎉"
      case WarningSign => "⚠️"
      case NoEntry => "⛔"
      case InfoSign => "ℹ️"
    }
  }

  /** The `default` branch of `categoryEmoji`: by severity. */
  function SeveritySymbol(s: Severity): Symbol {
    match s
    case Error => NoEntry
    case Warning => WarningSign
    case Info => InfoSign
  }

  /** `categoryEmoji(ev)`. */
  function CategorySymbol(ev: GamificationEvent): Symbol {
    match ev.category
    case Some(Build) => Construction
    case Some(Critical) => Fire
    case Some(Analysis) => Chart
    case Some(Success) => Party
    case Some(Alert) => WarningSign
    case None => SeveritySymbol(ev.severity)
  }

  /**
   * An event with a category shows that category's symbol whatever its
   * severity; only an event without one falls back to its severity.
   */
  lemma CategorySymbolFallback(ev: GamificationEvent)
    ensures CategorySymbol(ev) == SeveritySymbol(ev.severity) <==>
      (ev.category.None? || (ev.category == Some(Alert) && ev.severity == Warning))
    ensures ev.category.None? ==> CategorySymbol(ev) == SeveritySymbol(ev.severity)
    ensures ev.category.Some? ==> CategorySymbol(ev) == CategorySymbol(ev.(severity := Info))
  {
  }
}
