/**
 * The JavaScript string operations the services rely on, over `string`
 * (a sequence of code points; for text in the Basic Multilingual Plane this
 * is the sequence of UTF-16 code units that JavaScript indexes).
 */
module JsText {
  import opened Wrappers

  /** An optional string field that JavaScript treats as true: present and non-empty. */
  predicate Truthy(o: Option<string>) { o.Some? && o.value != "" }

  /** `o || null`: a falsy value (absent or empty) becomes absent. */
  function OrNull(o: Option<string>): (r: Option<string>)
    ensures Truthy(o) ==> r == o
    ensures !Truthy(o) ==> r.None?
  {
    if Truthy(o) then o else None
  }

  /** ECMAScript WhiteSpace and LineTerminator: what `\s` matches and `trim()` removes. */
  predicate IsSpace(c: char) {
    c == '\t' || c == '\n' || c == '\U{B}' || c == '\U{C}' || c == '\r' || c == ' '
    || c == '\U{A0}' || c == '\U{1680}' || ('\U{2000}' <= c <= '\U{200A}')
    || c == '\U{2028}' || c == '\U{2029}' || c == '\U{202F}' || c == '\U{205F}'
    || c == '\U{3000}' || c == '\U{FEFF}'
  }

  predicate IsDigit(c: char) { '0' <= c <= '9' }

  predicate IsAsciiLetter(c: char) { 'a' <= c <= 'z' || 'A' <= c <= 'Z' }

  predicate AllSpace(s: string) { forall i :: 0 <= i < |s| ==> IsSpace(s[i]) }

  predicate AllDigits(s: string) { forall i :: 0 <= i < |s| ==> IsDigit(s[i]) }

  /** `s.trimStart()`: a suffix of `s` whose removed prefix is all white space. */
  function TrimStart(s: string): (r: string)
    ensures |r| <= |s| && r == s[|s| - |r|..]
    ensures r == [] || !IsSpace(r[0])
    ensures AllSpace(s[..|s| - |r|])
  {
    if s != [] && IsSpace(s[0]) then TrimStart(s[1..]) else s
  }

  /** `s.trimEnd()`: a prefix of `s` whose removed suffix is all white space. */
  function TrimEnd(s: string): (r: string)
    ensures |r| <= |s| && r == s[..|r|]
    ensures r == [] || !IsSpace(r[|r| - 1])
    ensures AllSpace(s[|r|..])
  {
    if s != [] && IsSpace(s[|s| - 1]) then TrimEnd(s[..|s| - 1]) else s
  }

  /** `s.trim()`. */
  function Trim(s: string): (r: string)
    ensures |r| <= |s|
    ensures r == [] || (!IsSpace(r[0]) && !IsSpace(r[|r| - 1]))
  {
    var t := TrimStart(s);
    var r := TrimEnd(t);
    assert r != [] ==> r[0] == t[0];
    r
  }

  lemma {:induction false} TrimStartEmptyIffAllSpace(s: string)
    ensures TrimStart(s) == [] <==> AllSpace(s)
  {
    if s != [] {
      TrimStartEmptyIffAllSpace(s[1..]);
      assert AllSpace(s) <==> IsSpace(s[0]) && AllSpace(s[1..]) by {
        assert forall k :: 0 < k < |s| ==> s[1..][k - 1] == s[k];
      }
    }
  }

  lemma {:induction false} TrimEndEmptyIffAllSpace(s: string)
    ensures TrimEnd(s) == [] <==> AllSpace(s)
  {
    if s != [] {
      var init := s[..|s| - 1];
      TrimEndEmptyIffAllSpace(init);
      assert AllSpace(s) <==> IsSpace(s[|s| - 1]) && AllSpace(init) by {
        assert forall k :: 0 <= k < |s| - 1 ==> init[k] == s[k];
      }
    }
  }

  /** The trimmed string is empty exactly when every character is white space. */
  lemma TrimEmptyIffAllSpace(s: string)
    ensures Trim(s) == [] <==> AllSpace(s)
  {
    TrimStartEmptyIffAllSpace(s);
    TrimEndEmptyIffAllSpace(TrimStart(s));
  }

  /** Trimming a trimmed string changes nothing. */
  lemma TrimIdempotent(s: string)
    ensures Trim(Trim(s)) == Trim(s)
  {
    var r := Trim(s);
    assert TrimStart(r) == r;
    assert TrimEnd(r) == r;
  }

  /** Trimming removes only white space: a character that is not white space survives it. */
  lemma TrimKeepsNonSpace(s: string, i: nat)
    requires i < |s| && !IsSpace(s[i])
    ensures Has(Trim(s), s[i])
  {
    var t := TrimStart(s);
    var j := i - (|s| - |t|);
    assert t[j] == s[i];
    var r := TrimEnd(t);
    assert r[j] == s[i];
  }

  /** `s.startsWith(p)`. */
  predicate StartsWith(s: string, p: string) { |p| <= |s| && s[..|p|] == p }

  /** `s.endsWith(p)`. */
  predicate EndsWith(s: string, p: string) { |p| <= |s| && s[|s| - |p|..] == p }

  /** A concatenation starts with its left part and ends with its right part. */
  lemma ConcatEnds(a: string, b: string)
    ensures StartsWith(a + b, a) && EndsWith(a + b, b)
  {
    assert (a + b)[..|a|] == a;
    assert (a + b)[|a + b| - |b|..] == b;
  }

  /** `c` occurs in `s`. */
  predicate Has(s: string, c: char) { exists i :: 0 <= i < |s| && s[i] == c }

  /** `p` occurs in `s` starting at `i`. */
  predicate OccursAt(s: string, p: string, i: int) {
    0 <= i && i + |p| <= |s| && s[i..i + |p|] == p
  }

  /** `s.indexOf(p)`: the first position where `p` occurs, if any. */
  function IndexOf(s: string, p: string, from: nat := 0): (r: Option<nat>)
    requires from <= |s| + 1
    ensures r.Some? ==> from <= r.value && OccursAt(s, p, r.value)
    ensures r.Some? ==> forall j :: from <= j < r.value ==> !OccursAt(s, p, j)
    ensures r.None? ==> forall j :: from <= j <= |s| ==> !OccursAt(s, p, j)
    decreases |s| + 1 - from
  {
    if from + |p| > |s| then None
    else if s[from..from + |p|] == p then Some(from)
    else IndexOf(s, p, from + 1)
  }

  /** `s.includes(p)`. */
  predicate Includes(s: string, p: string) {
    IndexOf(s, p).Some?
  }

  /** Every text includes the empty text. */
  lemma IncludesEmpty(s: string)
    ensures Includes(s, "")
  {
    assert s[0..0] == "";
  }

  /** `s.replace(p, q)` with a string pattern: only the first occurrence is replaced. */
  function ReplaceFirst(s: string, p: string, q: string): (r: string)
    ensures IndexOf(s, p).None? ==> r == s
    ensures IndexOf(s, p).Some? ==>
      var i := IndexOf(s, p).value; r == s[..i] + q + s[i + |p|..]
  {
    match IndexOf(s, p)
    case None => s
    case Some(i) => s[..i] + q + s[i + |p|..]
  }

  /** A text starting with `p` has its first occurrence of `p` at the start. */
  lemma StartsWithIndexOf(s: string, p: string)
    requires StartsWith(s, p)
    ensures IndexOf(s, p) == Some(0)
    ensures ReplaceFirst(s, p, "") == s[|p|..]
  {
    assert OccursAt(s, p, 0);
  }

  /** `s.split(sep)` for a one-character separator. */
  function Split(s: string, sep: char): (parts: seq<string>)
    ensures |parts| >= 1
    ensures forall k :: 0 <= k < |parts| ==> !Has(parts[k], sep)
    ensures |parts| == 1 <==> !Has(s, sep)
    ensures !Has(s, sep) ==> parts == [s]
  {
    match IndexOf(s, [sep])
    case None =>
      assert forall j :: 0 <= j < |s| ==> s[j] != sep by {
        forall j | 0 <= j < |s| ensures s[j] != sep { assert !OccursAt(s, [sep], j); }
      }
      [s]
    case Some(i) =>
      assert s[i] == sep by { assert s[i..i + 1] == [sep]; }
      var head := s[..i];
      assert !Has(head, sep) by {
        forall j | 0 <= j < i ensures head[j] != sep {
          assert !OccursAt(s, [sep], j);
          assert s[j..j + 1] == [s[j]];
        }
      }
      [head] + Split(s[i + 1..], sep)
  }

  /** A split at the first separator: the text before it, then the split of the rest. */
  lemma SplitUnfold(s: string, sep: char, i: nat)
    requires IndexOf(s, [sep]) == Some(i)
    ensures Split(s, sep) == [s[..i]] + Split(s[i + 1..], sep)
  {
  }

  /** A first segment free of the separator is split off as it is. */
  lemma SplitCons(a: string, sep: char, b: string)
    requires !Has(a, sep)
    ensures Split(a + [sep] + b, sep) == [a] + Split(b, sep)
  {
    var s := a + [sep] + b;
    var i := FirstSepAtMost(s, sep, |a|);
    assert s[i..i + 1] == [sep];
    assert forall k :: 0 <= k < |a| ==> s[k] == a[k];
    SplitUnfold(s, sep, i);
    assert s[..i] == a && s[i + 1..] == b;
  }

  /** `parts.join(sep)` for a one-character separator. */
  function Join(parts: seq<string>, sep: char): string
    requires |parts| >= 1
  {
    if |parts| == 1 then parts[0] else parts[0] + [sep] + Join(parts[1..], sep)
  }

  /** A join starts with its first part. */
  lemma JoinStartsWithFirst(parts: seq<string>, sep: char)
    requires |parts| >= 1
    ensures |parts[0]| <= |Join(parts, sep)| && Join(parts, sep)[..|parts[0]|] == parts[0]
  {
    if |parts| > 1 {
      var tail := [sep] + Join(parts[1..], sep);
      assert Join(parts, sep) == parts[0] + tail;
    }
  }

  /** Splitting a join of separator-free parts gives the parts back. */
  lemma {:induction false} SplitJoin(parts: seq<string>, sep: char)
    requires |parts| >= 1 && forall k :: 0 <= k < |parts| ==> !Has(parts[k], sep)
    ensures Split(Join(parts, sep), sep) == parts
  {
    if |parts| > 1 {
      var rest := parts[1..];
      assert forall k :: 0 <= k < |rest| ==> rest[k] == parts[k + 1];
      SplitJoin(rest, sep);
      SplitCons(parts[0], sep, Join(rest, sep));
      assert parts == [parts[0]] + rest;
    } else {
      assert parts == [parts[0]];
    }
  }

  /** The last piece of a split is what follows the last separator. */
  lemma {:induction false} SplitLastSegment(s: string, sep: char, j: nat)
    requires j < |s| && s[j] == sep && forall k :: j < k < |s| ==> s[k] != sep
    ensures Last(Split(s, sep)) == s[j + 1..]
    decreases |s|
  {
    var i := FirstSepAtMost(s, sep, j);
    SplitUnfold(s, sep, i);
    var rest := s[i + 1..];
    if i == j {
      SplitOfSepFree(s, sep, i);
    } else {
      NoSepInRest(s, sep, i, j);
      SplitLastSegment(rest, sep, j - i - 1);
      assert rest[j - i..] == s[j + 1..];
      LastOfCons(s[..i], Split(rest, sep));
    }
  }

  /** A separator at `j` means the first one is at or before `j`. */
  lemma FirstSepAtMost(s: string, sep: char, j: nat) returns (i: nat)
    requires j < |s| && s[j] == sep
    ensures IndexOf(s, [sep]) == Some(i) && i <= j
  {
    assert OccursAt(s, [sep], j) by { assert s[j..j + 1] == [sep]; }
    i := IndexOf(s, [sep]).value;
  }

  /** A tail with no separator splits into itself. */
  lemma SplitOfSepFree(s: string, sep: char, i: nat)
    requires i < |s| && forall k :: i < k < |s| ==> s[k] != sep
    ensures Split(s[i + 1..], sep) == [s[i + 1..]]
  {
    var rest := s[i + 1..];
    assert !Has(rest, sep) by {
      forall k | 0 <= k < |rest| ensures rest[k] != sep { assert rest[k] == s[i + 1 + k]; }
    }
  }

  lemma LastOfCons<T>(x: T, xs: seq<T>)
    requires |xs| > 0
    ensures Last([x] + xs) == Last(xs)
  {
  }

  lemma NoSepInRest(s: string, sep: char, i: nat, j: nat)
    requires i < j < |s| && s[j] == sep && forall k :: j < k < |s| ==> s[k] != sep
    ensures var rest := s[i + 1..];
      rest[j - i - 1] == sep && forall k :: j - i - 1 < k < |rest| ==> rest[k] != sep
  {
  }

  /** The last element, as `pop()` returns it. */
  function Last<T>(xs: seq<T>): T
    requires |xs| > 0
  {
    xs[|xs| - 1]
  }

  /** Relative position as `Array.prototype.slice` reads it: negative counts from the end. */
  function SliceIndex(k: int, len: nat): (r: nat)
    ensures r <= len
    ensures 0 <= k <= len ==> r == k
  {
    if k < 0 then (if len + k < 0 then 0 else len + k) else if k > len then len else k
  }

  /** `s.slice(start, end)`. */
  function Slice<T>(s: seq<T>, start: int, end: int): (r: seq<T>)
    ensures 0 <= start <= end <= |s| ==> r == s[start..end]
    ensures |r| <= |s|
  {
    var a := SliceIndex(start, |s|);
    var b := SliceIndex(end, |s|);
    if a < b then s[a..b] else []
  }

  /** `s.substring(a, b)`: both ends clamped to the string, swapped when reversed. */
  function Substring(s: string, a: int, b: int): (r: string)
    ensures 0 <= a <= b <= |s| ==> r == s[a..b]
    ensures 0 <= a <= |s| && b >= |s| ==> r == s[a..]
  {
    var x := if a < 0 then 0 else if a > |s| then |s| else a;
    var y := if b < 0 then 0 else if b > |s| then |s| else b;
    if x <= y then s[x..y] else s[y..x]
  }

  /** `c.toLowerCase()` for ASCII and Latin-1 capitals. */
  function LowerChar(c: char): (r: char)
    ensures 'A' <= c <= 'Z' ==> 'a' <= r <= 'z'
    ensures !('A' <= c <= 'Z') && !('\U{C0}' <= c <= '\U{DE}') ==> r == c
  {
    if 'A' <= c <= 'Z' || ('\U{C0}' <= c <= '\U{DE}' && c != '\U{D7}') then (c as int + 32) as char else c
  }

  /** `s.toLowerCase()`, restricted as `LowerChar` is. */
  function ToLower(s: string): (r: string)
    ensures |r| == |s|
    ensures forall i :: 0 <= i < |s| ==> r[i] == LowerChar(s[i])
  {
    if s == [] then [] else [LowerChar(s[0])] + ToLower(s[1..])
  }

  function DigitChar(d: nat): (c: char)
    requires d < 10
    ensures IsDigit(c)
  {
    ('0' as int + d) as char
  }

  /** `String(n)` for a non-negative integer: its decimal digits, no leading zero. */
  function NatToString(n: nat): (r: string)
    ensures |r| >= 1 && AllDigits(r)
    ensures |r| > 1 ==> r[0] != '0'
    decreases n
  {
    if n < 10 then [DigitChar(n)] else NatToString(n / 10) + [DigitChar(n % 10)]
  }

  /** `String(i)` for any integer: a minus sign before the digits of a negative value. */
  function IntToString(i: int): (r: string)
    ensures |r| >= 1
    ensures i >= 0 ==> r == NatToString(i)
    ensures i < 0 ==> r == "-" + NatToString(-i)
  {
    if i < 0 then "-" + NatToString(-i) else NatToString(i)
  }

  /** The value of a string of decimal digits, read left to right. */
  function DigitsValue(s: string): (n: nat)
    requires AllDigits(s)
  {
    if s == [] then 0 else DigitsValue(s[..|s| - 1]) * 10 + (s[|s| - 1] as int - '0' as int)
  }

  /** Reading back the digits of a number gives the number. */
  lemma {:induction false} DigitsValueOfNatToString(n: nat)
    ensures DigitsValue(NatToString(n)) == n
    decreases n
  {
    var s := NatToString(n);
    if n >= 10 {
      DigitsValueOfNatToString(n / 10);
      assert s[..|s| - 1] == NatToString(n / 10);
    }
  }

  /** Different numbers print differently. */
  lemma IntToStringInjective(i: int, j: int)
    requires IntToString(i) == IntToString(j)
    ensures i == j
  {
    var si, sj := IntToString(i), IntToString(j);
    assert (i < 0) == (si[0] == '-');
    assert (j < 0) == (sj[0] == '-');
    if i < 0 {
      assert NatToString(-i) == si[1..] == sj[1..] == NatToString(-j);
      DigitsValueOfNatToString(-i);
      DigitsValueOfNatToString(-j);
    } else {
      DigitsValueOfNatToString(i);
      DigitsValueOfNatToString(j);
    }
  }
}
