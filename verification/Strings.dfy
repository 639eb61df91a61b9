/** The few library string operations the modelled code relies on. */
module Strings {
  import opened Wrappers

  /** `s.split(sep)` for a one-character separator: always at least one piece. */
  function SplitOn(s: string, sep: char): (pieces: seq<string>)
    ensures |pieces| >= 1
  {
    if s == "" then [""]
    else
      var rest := SplitOn(s[1..], sep);
      if s[0] == sep then [""] + rest
      else [[s[0]] + rest[0]] + rest[1..]
  }

  /** `sep.join(pieces)`. */
  function JoinWith(pieces: seq<string>, sep: char): string {
    if pieces == [] then ""
    else if |pieces| == 1 then pieces[0]
    else pieces[0] + [sep] + JoinWith(pieces[1..], sep)
  }

  function IndexOf(s: string, c: char): (at: Option<nat>)
    ensures at.Some? ==> at.value < |s| && s[at.value] == c && c !in s[..at.value]
    ensures at.None? ==> c !in s
  {
    if s == "" then None
    else if s[0] == c then Some(0)
    else match IndexOf(s[1..], c)
      case None => None
      case Some(i) =>
        assert s[..i + 1] == [s[0]] + s[1..][..i];
        Some(i + 1)
  }

  function LastIndexOf(s: string, c: char): (at: Option<nat>)
    ensures at.Some? ==> at.value < |s| && s[at.value] == c && c !in s[at.value + 1..]
    ensures at.None? ==> c !in s
  {
    if s == "" then None
    else if s[|s| - 1] == c then Some(|s| - 1)
    else match LastIndexOf(s[..|s| - 1], c)
      case None => None
      case Some(i) =>
        assert s[i + 1..] == s[..|s| - 1][i + 1..] + [s[|s| - 1]];
        Some(i)
  }

  lemma {:induction false} IndexOfFirst(s: string, c: char, k: nat)
    requires k < |s| && s[k] == c && c !in s[..k]
    ensures IndexOf(s, c) == Some(k)
  {
    if k > 0 {
      assert s[0] in s[..k];
      assert s[1..][..k - 1] == s[..k][1..];
      IndexOfFirst(s[1..], c, k - 1);
    }
  }

  lemma {:induction false} LastIndexOfLast(s: string, c: char, k: nat)
    requires k < |s| && s[k] == c && c !in s[k + 1..]
    ensures LastIndexOf(s, c) == Some(k)
  {
    if k < |s| - 1 {
      assert s[|s| - 1] in s[k + 1..];
      assert s[..|s| - 1][k + 1..] == s[k + 1..][..|s| - k - 2];
      LastIndexOfLast(s[..|s| - 1], c, k);
    }
  }

  predicate StartsWith(s: string, prefix: string) {
    prefix <= s
  }

  predicate EndsWith(s: string, suffix: string) {
    |suffix| <= |s| && s[|s| - |suffix|..] == suffix
  }

  /** Strip the characters of `space` from the left end. */
  function TrimLeft(s: string, space: char -> bool): (t: string)
    ensures t != "" ==> !space(t[0])
  {
    if s != "" && space(s[0]) then TrimLeft(s[1..], space) else s
  }

  function TrimRight(s: string, space: char -> bool): (t: string)
    ensures t <= s
    ensures t != "" ==> !space(t[|t| - 1])
  {
    if s != "" && space(s[|s| - 1]) then TrimRight(s[..|s| - 1], space) else s
  }

  function Trim(s: string, space: char -> bool): string {
    TrimRight(TrimLeft(s, space), space)
  }

  /** What Python's `str.strip` removes. */
  predicate PythonSpace(c: char) {
    || '\t' <= c <= '\r' || '\U{1c}' <= c <= ' '
    || c == '\U{85}' || c == '\U{a0}' || c == '\U{1680}' || '\U{2000}' <= c <= '\U{200a}'
    || c == '\U{2028}' || c == '\U{2029}' || c == '\U{202f}' || c == '\U{205f}' || c == '\U{3000}'
  }

  function Strip(s: string): string {
    Trim(s, PythonSpace)
  }

  lemma {:induction false} JoinUndoesSplit(s: string, sep: char)
    ensures JoinWith(SplitOn(s, sep), sep) == s
  {
    if s != "" {
      JoinUndoesSplit(s[1..], sep);
      var rest := SplitOn(s[1..], sep);
      if s[0] == sep {
        assert ([""] + rest)[1..] == rest;
      } else {
        var pieces := SplitOn(s, sep);
        assert pieces[1..] == rest[1..];
      }
    }
  }

  lemma {:induction false} SplitWithout(s: string, sep: char)
    requires sep !in s
    ensures SplitOn(s, sep) == [s]
  {
    if s != "" {
      SplitWithout(s[1..], sep);
      assert [s[0]] + s[1..] == s;
    }
  }

  lemma {:induction false} SplitAt(a: string, b: string, sep: char)
    requires sep !in a
    ensures SplitOn(a + [sep] + b, sep) == [a] + SplitOn(b, sep)
  {
    if a == "" {
      assert (a + [sep] + b)[1..] == b;
    } else {
      assert (a + [sep] + b)[1..] == a[1..] + [sep] + b;
      SplitAt(a[1..], b, sep);
      assert [a[0]] + a[1..] == a;
    }
  }

  lemma {:induction false} TrimLeftAt(blank: string, s: string, space: char -> bool)
    requires forall i :: 0 <= i < |blank| ==> space(blank[i])
    requires s != "" ==> !space(s[0])
    ensures TrimLeft(blank + s, space) == s
  {
    if blank == "" {
      assert blank + s == s;
    } else {
      assert (blank + s)[1..] == blank[1..] + s;
      TrimLeftAt(blank[1..], s, space);
    }
  }

  /** Trimming on the left stops at the first visible character. */
  lemma {:induction false} TrimLeftStops(a: string, b: string, space: char -> bool)
    requires b != "" && !space(b[0])
    ensures TrimLeft(a + b, space) == TrimLeft(a, space) + b
  {
    if a == "" {
      assert a + b == b;
    } else if space(a[0]) {
      assert (a + b)[1..] == a[1..] + b;
      TrimLeftStops(a[1..], b, space);
    }
  }

  lemma {:induction false} TrimRightStops(a: string, b: string, space: char -> bool)
    requires a != "" && !space(a[|a| - 1])
    ensures TrimRight(a + b, space) == a + TrimRight(b, space)
  {
    if b == "" {
      assert a + b == a;
    } else if space(b[|b| - 1]) {
      assert (a + b)[..|a + b| - 1] == a + b[..|b| - 1];
      TrimRightStops(a, b[..|b| - 1], space);
    }
  }

  lemma TrimAround(a: string, s: string, b: string, space: char -> bool)
    requires s != "" && !space(s[0]) && !space(s[|s| - 1])
    ensures Trim(a + s + b, space) == TrimLeft(a, space) + s + TrimRight(b, space)
  {
    assert a + s + b == a + (s + b);
    TrimLeftStops(a, s + b, space);
    var left := TrimLeft(a, space) + s;
    assert TrimLeft(a, space) + (s + b) == left + b;
    TrimRightStops(left, b, space);
  }

  lemma {:induction false} TrimmedLeftIsPart(s: string, space: char -> bool)
    ensures |TrimLeft(s, space)| <= |s|
    ensures TrimLeft(s, space) == s[|s| - |TrimLeft(s, space)|..]
  {
    if s != "" && space(s[0]) {
      TrimmedLeftIsPart(s[1..], space);
    }
  }

  lemma {:induction false} TrimRightCut(s: string, space: char -> bool, i: nat)
    requires |TrimRight(s, space)| <= i < |s|
    ensures space(s[i])
  {
    if i < |s| - 1 {
      TrimRightCut(s[..|s| - 1], space, i);
    }
  }
}
