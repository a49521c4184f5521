/**
 * The JavaScript string built-ins the core relies on, stated over `seq<char>`:
 * `trim`, `toLowerCase`, `includes`, `startsWith`, `indexOf`, `lastIndexOf`,
 * `substring`, `split` and `replace(/\s+/g, r)`. Indices are UTF-16 code units in
 * JavaScript and characters here; lower-casing is restricted to ASCII.
 */
module JsString {

  /** The characters JavaScript's `\s` class (and `trim`) treats as white space. */
  predicate IsSpace(c: char) {
    c == ' ' || c == '\t' || c == '\n' || c == '\r' || c == '\U{B}' || c == '\U{C}'
    || c == '\U{A0}' || c == '\U{1680}' || ('\U{2000}' <= c <= '\U{200A}')
    || c == '\U{2028}' || c == '\U{2029}' || c == '\U{202F}' || c == '\U{205F}'
    || c == '\U{3000}' || c == '\U{FEFF}'
  }

  predicate NoSpace(s: string) {
    forall i :: 0 <= i < |s| ==> !IsSpace(s[i])
  }

  predicate StartsWith(s: string, prefix: string) {
    |prefix| <= |s| && s[..|prefix|] == prefix
  }

  /** `s.includes(sub)`: `sub` occurs at some position of `s` (the empty string occurs everywhere). */
  predicate Includes(s: string, sub: string) {
    exists i :: 0 <= i <= |s| - |sub| && OccursAt(s, sub, i)
  }

  predicate OccursAt(s: string, sub: string, i: nat)
    requires i + |sub| <= |s|
  {
    s[i..i + |sub|] == sub
  }

  lemma IncludesEmpty(s: string)
    ensures Includes(s, "")
  {
    assert OccursAt(s, "", 0);
  }

  // ---------------------------------------------------------------- trim

  function TrimStart(s: string): string {
    if s == [] || !IsSpace(s[0]) then s else TrimStart(s[1..])
  }

  function TrimEnd(s: string): string {
    if s == [] || !IsSpace(s[|s| - 1]) then s else TrimEnd(s[..|s| - 1])
  }

  /** `s.trim()`. */
  function Trim(s: string): string {
    TrimEnd(TrimStart(s))
  }

  /** `trimStart` drops exactly the leading white space. */
  lemma {:induction false} TrimStartDropsLeadingSpace(s: string)
    ensures var r := TrimStart(s);
      && |r| <= |s| && r == s[|s| - |r|..]
      && (forall i :: 0 <= i < |s| - |r| ==> IsSpace(s[i]))
      && (r == [] || !IsSpace(r[0]))
  {
    if s != [] && IsSpace(s[0]) {
      TrimStartDropsLeadingSpace(s[1..]);
      var r := TrimStart(s[1..]);
      forall i | 0 <= i < |s| - |r|
        ensures IsSpace(s[i])
      {
        if i > 0 {
          assert s[i] == s[1..][i - 1];
        }
      }
    }
  }

  /** `trimEnd` drops exactly the trailing white space. */
  lemma {:induction false} TrimEndDropsTrailingSpace(s: string)
    ensures var r := TrimEnd(s);
      && |r| <= |s| && r == s[..|r|]
      && (forall i :: |r| <= i < |s| ==> IsSpace(s[i]))
      && (r == [] || !IsSpace(r[|r| - 1]))
  {
    if s != [] && IsSpace(s[|s| - 1]) {
      TrimEndDropsTrailingSpace(s[..|s| - 1]);
      var r := TrimEnd(s[..|s| - 1]);
      forall i | |r| <= i < |s|
        ensures IsSpace(s[i])
      {
        if i < |s| - 1 {
          assert s[i] == s[..|s| - 1][i];
        }
      }
    }
  }

  /** `!s.trim()` holds exactly of the strings made only of white space. */
  lemma TrimEmptyIffBlank(s: string)
    ensures Trim(s) == [] <==> forall i :: 0 <= i < |s| ==> IsSpace(s[i])
  {
    var t := TrimStart(s);
    TrimStartDropsLeadingSpace(s);
    TrimEndDropsTrailingSpace(t);
    if Trim(s) == [] {
      assert t == [];
    } else {
      var r := Trim(s);
      assert !IsSpace(r[0]);
      assert r[0] == t[0] == s[|s| - |t|];
    }
  }

  // ---------------------------------------------------------------- case

  function LowerChar(c: char): char {
    if 'A' <= c <= 'Z' then (c as int + 32) as char else c
  }

  /** `s.toLowerCase()`, restricted to ASCII letters. */
  function ToLower(s: string): (r: string)
    ensures |r| == |s|
    ensures forall i :: 0 <= i < |s| ==> r[i] == LowerChar(s[i])
  {
    if s == [] then [] else [LowerChar(s[0])] + ToLower(s[1..])
  }

  lemma LowerKeepsSpaces(c: char)
    ensures IsSpace(LowerChar(c)) <==> IsSpace(c)
  {
  }

  // ---------------------------------------------------------------- search

  /** `s.indexOf(c)`: the first position of `c`, or -1. */
  function IndexOf(s: string, c: char): (r: int)
    ensures -1 <= r < |s|
    ensures r >= 0 ==> s[r] == c
    ensures forall j :: 0 <= j < |s| && (r < 0 || j < r) ==> s[j] != c
  {
    if s == [] then -1
    else if s[0] == c then 0
    else
      var k := IndexOf(s[1..], c);
      if k < 0 then -1 else k + 1
  }

  /** The last position at or before `k` that holds `c`, or -1. */
  function LastAtOrBefore(s: string, c: char, k: int): (r: int)
    requires -1 <= k < |s|
    ensures -1 <= r <= k
    ensures r >= 0 ==> s[r] == c
    ensures forall j :: r < j <= k && 0 <= j ==> s[j] != c
    decreases k + 1
  {
    if k < 0 then -1
    else if s[k] == c then k
    else LastAtOrBefore(s, c, k - 1)
  }

  /** The position `x` denotes in a string of length `n` (JavaScript clamps indices to [0, n]). */
  function Clamp(x: int, n: nat): (r: nat)
    ensures r <= n
    ensures 0 <= x <= n ==> r == x
  {
    if x < 0 then 0 else if x > n then n else x
  }

  /**
   * `s.lastIndexOf(c, from)` for a one-character search: a negative `from` is
   * treated as 0, one past the end as the last position.
   */
  function LastIndexOf(s: string, c: char, from: int): (r: int)
    ensures -1 <= r < |s|
    ensures r >= 0 ==> s[r] == c && r <= Clamp(from, |s|)
    ensures forall j :: r < j < |s| && j <= Clamp(from, |s|) ==> s[j] != c
  {
    var start := Clamp(from, |s|);
    LastAtOrBefore(s, c, if start < |s| then start else |s| - 1)
  }

  /** `s.substring(a, b)`: both bounds clamped to [0, |s|], then swapped if reversed. */
  function Substring(s: string, a: int, b: int): (r: string)
    ensures 0 <= a <= b <= |s| ==> r == s[a..b]
    ensures 0 <= b <= a <= |s| ==> r == s[b..a]
  {
    var lo, hi := Clamp(a, |s|), Clamp(b, |s|);
    if lo <= hi then s[lo..hi] else s[hi..lo]
  }

  /**
   * `substring` ignores the order of its bounds, and a bound outside the string
   * acts as the nearer end.
   */
  lemma SubstringClampsAndSwaps(s: string, a: int, b: int)
    ensures Substring(s, a, b) == Substring(s, b, a)
    ensures a < 0 ==> Substring(s, a, b) == Substring(s, 0, b)
    ensures a > |s| ==> Substring(s, a, b) == Substring(s, |s|, b)
    ensures b < 0 ==> Substring(s, a, b) == Substring(s, a, 0)
    ensures b > |s| ==> Substring(s, a, b) == Substring(s, a, |s|)
  {
  }

  // ---------------------------------------------------------------- split

  /** Joins `parts` with `sep` between consecutive parts (`parts.join(sep)`). */
  function Join(parts: seq<string>, sep: char): string
    requires |parts| >= 1
  {
    if |parts| == 1 then parts[0] else parts[0] + [sep] + Join(parts[1..], sep)
  }

  /** `s.split(sep)` for a one-character separator. */
  function Split(s: string, sep: char): (parts: seq<string>)
    ensures |parts| >= 1
    decreases |s|
  {
    var k := IndexOf(s, sep);
    if k < 0 then [s] else [s[..k]] + Split(s[k + 1..], sep)
  }

  /** The parts hold no separator, and joining them with it gives back the string. */
  lemma {:induction false} SplitJoinRoundTrip(s: string, sep: char)
    ensures forall i, j :: 0 <= i < |Split(s, sep)| && 0 <= j < |Split(s, sep)[i]| ==> Split(s, sep)[i][j] != sep
    ensures Join(Split(s, sep), sep) == s
    decreases |s|
  {
    var k := IndexOf(s, sep);
    if k >= 0 {
      var tail := s[k + 1..];
      var rest := Split(tail, sep);
      SplitJoinRoundTrip(tail, sep);
      var parts := [s[..k]] + rest;
      assert Split(s, sep) == parts;
      assert parts[1..] == rest;
      assert Join(parts, sep) == s[..k] + [sep] + Join(rest, sep);
      assert s == s[..k] + [sep] + tail;
      forall i, j | 0 <= i < |parts| && 0 <= j < |parts[i]|
        ensures parts[i][j] != sep
      {
        if i > 0 {
          assert parts[i] == rest[i - 1];
        }
      }
    }
  }

  // ---------------------------------------------------------------- replace(/\s+/g, r)

  /** Drops the leading white space of `s`. */
  function DropSpaces(s: string): (r: string)
    ensures |r| <= |s| && r == s[|s| - |r|..]
    ensures r == [] || !IsSpace(r[0])
  {
    if s != [] && IsSpace(s[0]) then DropSpaces(s[1..]) else s
  }

  /** `s.replace(/\s+/g, repl)`: every maximal run of white space becomes one `repl`. */
  function ReplaceSpaceRuns(s: string, repl: string): (r: string)
    decreases |s|
  {
    if s == [] then []
    else if IsSpace(s[0]) then
      var rest := DropSpaces(s);
      repl + ReplaceSpaceRuns(rest, repl)
    else [s[0]] + ReplaceSpaceRuns(s[1..], repl)
  }

  /** With a replacement free of white space the result has none left. */
  lemma {:induction false} ReplaceSpaceRunsNoSpace(s: string, repl: string)
    requires NoSpace(repl)
    ensures NoSpace(ReplaceSpaceRuns(s, repl))
    decreases |s|
  {
    if s == [] {
    } else if IsSpace(s[0]) {
      ReplaceSpaceRunsNoSpace(DropSpaces(s), repl);
    } else {
      ReplaceSpaceRunsNoSpace(s[1..], repl);
    }
  }

  /** A name without white space is left as it is. */
  lemma {:induction false} ReplaceSpaceRunsIdentity(s: string, repl: string)
    requires NoSpace(s)
    ensures ReplaceSpaceRuns(s, repl) == s
    decreases |s|
  {
    if s != [] {
      assert !IsSpace(s[0]);
      ReplaceSpaceRunsIdentity(s[1..], repl);
    }
  }

  lemma {:induction false} DropSpacesLower(s: string)
    ensures DropSpaces(ToLower(s)) == ToLower(DropSpaces(s))
    decreases |s|
  {
    if s != [] {
      LowerKeepsSpaces(s[0]);
      if IsSpace(s[0]) {
        assert ToLower(s)[1..] == ToLower(s[1..]);
        DropSpacesLower(s[1..]);
      }
    }
  }

  /**
   * Lower-casing commutes with collapsing white space: the two RAG endpoints apply
   * them in opposite orders.
   */
  lemma {:induction false} LowerCommutesWithReplace(s: string, repl: string)
    ensures ToLower(ReplaceSpaceRuns(s, repl)) == ReplaceSpaceRuns(ToLower(s), ToLower(repl))
    decreases |s|
  {
    if s != [] {
      var ls := ToLower(s);
      LowerKeepsSpaces(s[0]);
      assert ls[0] == LowerChar(s[0]);
      if IsSpace(s[0]) {
        DropSpacesLower(s);
        LowerCommutesWithReplace(DropSpaces(s), repl);
        assert ToLower(repl + ReplaceSpaceRuns(DropSpaces(s), repl))
            == ToLower(repl) + ToLower(ReplaceSpaceRuns(DropSpaces(s), repl)) by {
          LowerAppend(repl, ReplaceSpaceRuns(DropSpaces(s), repl));
        }
      } else {
        assert ls[1..] == ToLower(s[1..]);
        LowerCommutesWithReplace(s[1..], repl);
        LowerAppend([s[0]], ReplaceSpaceRuns(s[1..], repl));
      }
    }
  }

  lemma LowerAppend(a: string, b: string)
    ensures ToLower(a + b) == ToLower(a) + ToLower(b)
  {
  }

  // ---------------------------------------------------------------- numbers

  function Digit(d: nat): (c: char)
    requires d < 10
    ensures '0' <= c <= '9' && c as int - '0' as int == d
  {
    (d + '0' as int) as char
  }

  /** `${n}` for a non-negative integer: its decimal digits, most significant first. */
  function NatToString(n: nat): (r: string)
    ensures |r| >= 1
    ensures forall i :: 0 <= i < |r| ==> '0' <= r[i] <= '9'
  {
    if n < 10 then [Digit(n)] else NatToString(n / 10) + [Digit(n % 10)]
  }

  /** The number a string of decimal digits denotes. */
  function DigitsValue(s: string): nat
    requires forall i :: 0 <= i < |s| ==> '0' <= s[i] <= '9'
  {
    if s == [] then 0 else DigitsValue(s[..|s| - 1]) * 10 + (s[|s| - 1] as int - '0' as int)
  }

  /** Reading back the rendered digits gives the number. */
  lemma {:induction false} NatToStringRoundTrip(n: nat)
    ensures DigitsValue(NatToString(n)) == n
  {
    if n >= 10 {
      NatToStringRoundTrip(n / 10);
      var r := NatToString(n);
      assert r[..|r| - 1] == NatToString(n / 10);
    }
  }
}
