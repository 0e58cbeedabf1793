/** String operations of Rust's `str` that the client relies on: prefix and
    substring tests, whitespace trimming and repeated prefix/suffix removal.
    Strings are sequences of Unicode scalar values, as Rust's `char`. */
module Text {

  predicate StartsWith(s: string, prefix: string) {
    |prefix| <= |s| && s[..|prefix|] == prefix
  }

  predicate EndsWith(s: string, suffix: string) {
    |suffix| <= |s| && s[|s| - |suffix|..] == suffix
  }

  /** `str::contains` with a string pattern: `pattern` occurs at some offset. */
  predicate Contains(s: string, pattern: string)
    decreases |s|
  {
    StartsWith(s, pattern) || (|s| > 0 && Contains(s[1..], pattern))
  }

  lemma ContainsSelf(pattern: string)
    ensures Contains(pattern, pattern)
  {
    assert pattern[..|pattern|] == pattern;
  }

  /** Text appended after an occurrence does not hide it. */
  lemma {:induction false} ContainsExtendRight(s: string, more: string, pattern: string)
    requires Contains(s, pattern)
    ensures Contains(s + more, pattern)
    decreases |s|
  {
    var t := s + more;
    if StartsWith(s, pattern) {
      assert t[..|pattern|] == s[..|pattern|];
    } else {
      assert t[1..] == s[1..] + more;
      ContainsExtendRight(s[1..], more, pattern);
    }
  }

  /** Text prepended before an occurrence does not hide it. */
  lemma {:induction false} ContainsExtendLeft(more: string, s: string, pattern: string)
    requires Contains(s, pattern)
    ensures Contains(more + s, pattern)
    decreases |more|
  {
    if more == [] {
      assert more + s == s;
    } else {
      assert (more + s)[1..] == more[1..] + s;
      ContainsExtendLeft(more[1..], s, pattern);
    }
  }

  /** A pattern placed anywhere in a string is found there. */
  lemma ContainsInfix(front: string, pattern: string, back: string)
    ensures Contains(front + pattern + back, pattern)
  {
    ContainsSelf(pattern);
    ContainsExtendLeft(front, pattern, pattern);
    ContainsExtendRight(front + pattern, back, pattern);
  }

  /** Text appended after a prefix keeps it a prefix. */
  lemma StartsWithExtend(s: string, more: string, prefix: string)
    requires StartsWith(s, prefix)
    ensures StartsWith(s + more, prefix)
  {
    assert (s + more)[..|prefix|] == s[..|prefix|];
  }

  lemma ConcatAssoc(a: string, b: string, c: string)
    ensures a + b + c == a + (b + c)
  {
  }

  /** Searching for a one-character pattern is a membership test. */
  lemma {:induction false} ContainsCharIff(s: string, c: char)
    ensures Contains(s, [c]) <==> c in s
  {
    if s != [] {
      ContainsCharIff(s[1..], c);
      assert s == [s[0]] + s[1..];
    }
  }

  /** Rust's `char::is_whitespace`: the Unicode White_Space property. */
  predicate IsWhitespace(c: char) {
    || ('\t' <= c <= '\r')
    || c == ' '
    || c == '\U{0085}'
    || c == '\U{00A0}'
    || c == '\U{1680}'
    || ('\U{2000}' <= c <= '\U{200A}')
    || c == '\U{2028}'
    || c == '\U{2029}'
    || c == '\U{202F}'
    || c == '\U{205F}'
    || c == '\U{3000}'
  }

  predicate AllWhitespace(s: string) {
    forall i :: 0 <= i < |s| ==> IsWhitespace(s[i])
  }

  /** No leading and no trailing whitespace. */
  predicate Trimmed(s: string) {
    s == [] || (!IsWhitespace(s[0]) && !IsWhitespace(s[|s| - 1]))
  }

  /** `str::trim_start`: drops the whitespace run at the front, nothing else. */
  function TrimStart(s: string): (r: string)
    ensures |r| <= |s| && r == s[|s| - |r|..]
    ensures AllWhitespace(s[..|s| - |r|])
    ensures r == [] || !IsWhitespace(r[0])
    decreases |s|
  {
    if s != [] && IsWhitespace(s[0]) then
      var r := TrimStart(s[1..]);
      assert s[..|s| - |r|] == [s[0]] + s[1..][..|s| - 1 - |r|];
      r
    else s
  }

  /** `str::trim_end`: drops the whitespace run at the back, nothing else. */
  function TrimEnd(s: string): (r: string)
    ensures |r| <= |s| && r == s[..|r|]
    ensures AllWhitespace(s[|r|..])
    ensures r == [] || !IsWhitespace(r[|r| - 1])
    decreases |s|
  {
    if s != [] && IsWhitespace(s[|s| - 1]) then
      var r := TrimEnd(s[..|s| - 1]);
      assert s[|r|..] == s[..|s| - 1][|r|..] + [s[|s| - 1]];
      r
    else s
  }

  /** `r` is the slice of `s` starting at `i`, and everything of `s`
      outside it is whitespace. */
  predicate WhitespaceAround(s: string, r: string, i: int) {
    0 <= i <= |s| - |r| && r == s[i..i + |r|] && AllWhitespace(s[..i]) && AllWhitespace(s[i + |r|..])
  }

  /** `str::trim`: a slice of the input with only whitespace cut off on
      either side (the leading run `TrimStart` drops, then a trailing run),
      and none left at either end. */
  function Trim(s: string): (r: string)
    ensures Trimmed(r)
    ensures |r| <= |s|
    ensures WhitespaceAround(s, r, |s| - |TrimStart(s)|)
  {
    WhitespaceMargins(s, TrimStart(s), TrimEnd(TrimStart(s)));
    TrimEnd(TrimStart(s))
  }

  /** A prefix of a suffix, each cut at whitespace, is a slice with
      whitespace on both sides. */
  lemma WhitespaceMargins(s: string, front: string, r: string)
    requires |front| <= |s| && front == s[|s| - |front|..] && AllWhitespace(s[..|s| - |front|])
    requires |r| <= |front| && r == front[..|r|] && AllWhitespace(front[|r|..])
    ensures WhitespaceAround(s, r, |s| - |front|)
  {
    var i := |s| - |front|;
    assert s[i + |r|..] == front[|r|..];
  }

  /** Whitespace padding around a trimmed string is exactly what `Trim` removes. */
  lemma {:induction false} TrimPadded(front: string, core: string, back: string)
    requires AllWhitespace(front) && AllWhitespace(back)
    requires core != [] && Trimmed(core)
    ensures Trim(front + core + back) == core
  {
    assert front + core + back == front + (core + back);
    TrimStartPadded(front, core + back);
    TrimEndPadded(core, back);
  }

  lemma {:induction false} TrimStartPadded(front: string, rest: string)
    requires AllWhitespace(front)
    requires rest == [] || !IsWhitespace(rest[0])
    ensures TrimStart(front + rest) == rest
    decreases |front|
  {
    if front != [] {
      assert (front + rest)[1..] == front[1..] + rest;
      TrimStartPadded(front[1..], rest);
    } else {
      assert front + rest == rest;
    }
  }

  lemma {:induction false} TrimEndPadded(rest: string, back: string)
    requires AllWhitespace(back)
    requires rest == [] || !IsWhitespace(rest[|rest| - 1])
    ensures TrimEnd(rest + back) == rest
    decreases |back|
  {
    if back != [] {
      var s := rest + back;
      assert s[..|s| - 1] == rest + back[..|back| - 1];
      TrimEndPadded(rest, back[..|back| - 1]);
    } else {
      assert rest + back == rest;
    }
  }

  /** A string without outer whitespace is left alone by `Trim`. */
  lemma TrimOfTrimmed(s: string)
    requires Trimmed(s)
    ensures Trim(s) == s
  {
    if s != [] {
      TrimPadded([], s, []);
      assert [] + s + [] == s;
    }
  }

  /** `str::trim_start_matches(pattern)`: removes `pattern` from the front
      for as long as the string starts with it. */
  function TrimStartMatches(s: string, pattern: string): string
    requires pattern != []
    decreases |s|
  {
    if StartsWith(s, pattern) then TrimStartMatches(s[|pattern|..], pattern) else s
  }

  /** `str::trim_end_matches(pattern)`: removes `pattern` from the back
      for as long as the string ends with it. */
  function TrimEndMatches(s: string, pattern: string): string
    requires pattern != []
    decreases |s|
  {
    if EndsWith(s, pattern) then TrimEndMatches(s[..|s| - |pattern|], pattern) else s
  }

  /** What `TrimStartMatches` leaves is a suffix of its input that no longer
      starts with the pattern. */
  lemma {:induction false} TrimStartMatchesSuffix(s: string, pattern: string)
    requires pattern != []
    ensures var r := TrimStartMatches(s, pattern);
      |r| <= |s| && r == s[|s| - |r|..] && !StartsWith(r, pattern)
    decreases |s|
  {
    if StartsWith(s, pattern) {
      TrimStartMatchesSuffix(s[|pattern|..], pattern);
    }
  }

  /** What `TrimEndMatches` leaves is a prefix of its input that no longer
      ends with the pattern. */
  lemma {:induction false} TrimEndMatchesPrefix(s: string, pattern: string)
    requires pattern != []
    ensures var r := TrimEndMatches(s, pattern);
      |r| <= |s| && r == s[..|r|] && !EndsWith(r, pattern)
    decreases |s|
  {
    if EndsWith(s, pattern) {
      TrimEndMatchesPrefix(s[..|s| - |pattern|], pattern);
    }
  }

  /** `count` copies of `pattern`, one after the other. */
  function Repeat(pattern: string, count: nat): string {
    if count == 0 then [] else pattern + Repeat(pattern, count - 1)
  }

  /** Any number of leading copies of the pattern are removed, and then
      nothing more when the rest does not start with the pattern. */
  lemma {:induction false} TrimStartMatchesRepeat(pattern: string, count: nat, rest: string)
    requires pattern != []
    requires !StartsWith(rest, pattern)
    ensures TrimStartMatches(Repeat(pattern, count) + rest, pattern) == rest
    decreases count
  {
    if count > 0 {
      var s := Repeat(pattern, count) + rest;
      assert s == pattern + (Repeat(pattern, count - 1) + rest);
      assert s[..|pattern|] == pattern;
      assert s[|pattern|..] == Repeat(pattern, count - 1) + rest;
      TrimStartMatchesRepeat(pattern, count - 1, rest);
    } else {
      assert Repeat(pattern, count) + rest == rest;
    }
  }

  /** Any number of trailing copies of the pattern are removed, and then
      nothing more when the rest does not end with the pattern. */
  lemma {:induction false} TrimEndMatchesRepeat(rest: string, pattern: string, count: nat)
    requires pattern != []
    requires !EndsWith(rest, pattern)
    ensures TrimEndMatches(rest + Repeat(pattern, count), pattern) == rest
    decreases count
  {
    if count > 0 {
      var fewer := Repeat(pattern, count - 1);
      calc {
        TrimEndMatches(rest + Repeat(pattern, count), pattern);
        == { RepeatSnoc(pattern, count - 1); ConcatAssoc(rest, fewer, pattern); }
        TrimEndMatches(rest + fewer + pattern, pattern);
        == { TrimEndMatchesStep(rest + fewer, pattern); }
        TrimEndMatches(rest + fewer, pattern);
        == { TrimEndMatchesRepeat(rest, pattern, count - 1); }
        rest;
      }
    } else {
      assert rest + Repeat(pattern, count) == rest;
    }
  }

  /** One trailing copy of the pattern is always removed. */
  lemma TrimEndMatchesStep(t: string, pattern: string)
    requires pattern != []
    ensures TrimEndMatches(t + pattern, pattern) == TrimEndMatches(t, pattern)
  {
    var s := t + pattern;
    assert s[|t|..] == pattern;
    assert s[..|t|] == t;
  }

  /** Repetition can be unfolded at the back as well as at the front. */
  lemma {:induction false} RepeatSnoc(pattern: string, count: nat)
    ensures Repeat(pattern, count + 1) == Repeat(pattern, count) + pattern
  {
    if count > 0 {
      RepeatSnoc(pattern, count - 1);
    }
  }
}
