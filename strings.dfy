/** The JavaScript string operations the system uses, with their exact edge cases:
    `indexOf` of one character, `substring` with clamped and swapped bounds,
    `split` and `join` on a one-character separator, and `trim`. */
module Strings {

  /** `s.indexOf(c)`: the index of the first `c` in `s`, or -1 when there is none. */
  function IndexOf(s: string, c: char): (r: int)
    ensures -1 <= r < |s|
    ensures r == -1 <==> c !in s
    ensures r >= 0 ==> s[r] == c && c !in s[..r]
  {
    if |s| == 0 then -1
    else if s[0] == c then 0
    else
      var k := IndexOf(s[1..], c);
      if k == -1 then -1
      else
        assert s[1..][..k] == s[1..k + 1];
        k + 1
  }

  /** The first occurrence of `c` is the end of a prefix that does not contain `c`. */
  lemma IndexOfAfterPrefix(a: string, c: char, b: string)
    requires c !in a
    ensures IndexOf(a + [c] + b, c) == |a|
  {
    var s := a + [c] + b;
    assert s[|a|] == c;
    assert s[..|a|] == a;
  }

  /** A `substring` bound: negative values count as 0, values past the end as the length. */
  function Clamp(i: int, n: nat): (r: nat)
    ensures r <= n
    ensures i < 0 ==> r == 0
    ensures i > n ==> r == n
    ensures 0 <= i <= n ==> r == i
  {
    if i < 0 then 0 else if i > n then n else i
  }

  /** `s.substring(start, end)`: bounds are clamped to the string and swapped when reversed,
      so `substring(0, -1)` is the empty string. */
  function Substring(s: string, start: int, end: int): (r: string)
    ensures start <= 0 && end <= 0 ==> r == ""
    ensures 0 <= start <= end <= |s| ==> r == s[start..end]
  {
    var a, b := Clamp(start, |s|), Clamp(end, |s|);
    if a <= b then s[a..b] else s[b..a]
  }

  /** `s.substring(start)`: everything from the clamped `start` to the end. */
  function SubstringFrom(s: string, start: int): (r: string)
    ensures start <= 0 ==> r == s
    ensures 0 <= start <= |s| ==> r == s[start..]
  {
    Substring(s, start, |s|)
  }

  /** `s.split(sep)` for a one-character separator: never empty (`"".split(".")` is `[""]`),
      and no piece contains the separator. */
  function Split(s: string, sep: char): (r: seq<string>)
    ensures |r| >= 1
    ensures forall i | 0 <= i < |r| :: sep !in r[i]
    decreases |s|
  {
    var i := IndexOf(s, sep);
    if i == -1 then [s]
    else [s[..i]] + Split(s[i + 1..], sep)
  }

  /** `parts.join(sep)`: the pieces with one separator between neighbours; `[].join(sep)` is `""`. */
  function Join(parts: seq<string>, sep: char): string
  {
    if |parts| == 0 then ""
    else if |parts| == 1 then parts[0]
    else parts[0] + [sep] + Join(parts[1..], sep)
  }

  /** Joining the pieces of a split gives back the original string, whatever it is. */
  lemma {:induction false} JoinSplit(s: string, sep: char)
    ensures Join(Split(s, sep), sep) == s
    decreases |s|
  {
    var i := IndexOf(s, sep);
    if i != -1 {
      var head, rest := s[..i], s[i + 1..];
      var tail := Split(rest, sep);
      JoinSplit(rest, sep);
      var parts := [head] + tail;
      assert Split(s, sep) == parts;
      assert parts[0] == head && parts[1..] == tail && |parts| >= 2;
      assert Join(parts, sep) == head + [sep] + Join(tail, sep);
      assert s == head + [sep] + rest;
    }
  }

  /** Splitting a join gives back the pieces exactly when there is at least one piece
      and no piece contains the separator. */
  lemma {:induction false} SplitJoin(parts: seq<string>, sep: char)
    ensures Split(Join(parts, sep), sep) == parts <==>
            |parts| >= 1 && forall i | 0 <= i < |parts| :: sep !in parts[i]
  {
    if |parts| >= 1 && forall i | 0 <= i < |parts| :: sep !in parts[i] {
      SplitJoinOfClean(parts, sep);
    }
  }

  lemma {:induction false} SplitJoinOfClean(parts: seq<string>, sep: char)
    requires |parts| >= 1
    requires forall i | 0 <= i < |parts| :: sep !in parts[i]
    ensures Split(Join(parts, sep), sep) == parts
  {
    if |parts| == 1 {
      assert IndexOf(parts[0], sep) == -1;
    } else {
      var head, rest := parts[0], parts[1..];
      assert forall i | 0 <= i < |rest| :: sep !in rest[i] by {
        forall i | 0 <= i < |rest| ensures sep !in rest[i] { assert rest[i] == parts[i + 1]; }
      }
      var joined := Join(rest, sep);
      var s := head + [sep] + joined;
      assert Join(parts, sep) == s;
      assert sep !in head;
      IndexOfAfterPrefix(head, sep, joined);
      assert s[..|head|] == head;
      assert s[|head| + 1..] == joined;
      SplitJoinOfClean(rest, sep);
      assert Split(s, sep) == [head] + rest;
      assert [head] + rest == parts;
    }
  }

  /** The characters `String.prototype.trim` removes: ECMAScript WhiteSpace
      (tab, vertical tab, form feed, space, no-break space, byte-order mark and the
      space separators of category Zs) and LineTerminator (LF, CR, U+2028, U+2029). */
  const Whitespace: set<char> := {'\t', '\U{000B}', '\U{000C}', ' ', '\U{00A0}', '\U{FEFF}', '\U{1680}',
    '\U{2000}', '\U{2001}', '\U{2002}', '\U{2003}', '\U{2004}', '\U{2005}', '\U{2006}', '\U{2007}', '\U{2008}',
    '\U{2009}', '\U{200A}', '\U{202F}', '\U{205F}', '\U{3000}', '\n', '\r', '\U{2028}', '\U{2029}'}

  predicate IsWhitespace(c: char)
  {
    c in Whitespace
  }

  /** Drops leading whitespace (`trimStart`). */
  function TrimStart(s: string): string
  {
    if |s| > 0 && IsWhitespace(s[0]) then TrimStart(s[1..]) else s
  }

  /** Drops trailing whitespace (`trimEnd`). */
  function TrimEnd(s: string): string
  {
    if |s| > 0 && IsWhitespace(s[|s| - 1]) then TrimEnd(s[..|s| - 1]) else s
  }

  /** `s.trim()`. */
  function Trim(s: string): string
  {
    TrimEnd(TrimStart(s))
  }

  /** Trimming the start leaves a suffix of `s` that does not start with whitespace,
      preceded only by whitespace. */
  lemma {:induction false} TrimStartSpec(s: string)
    ensures |TrimStart(s)| <= |s| && TrimStart(s) == s[|s| - |TrimStart(s)|..]
    ensures forall k | 0 <= k < |s| - |TrimStart(s)| :: IsWhitespace(s[k])
    ensures TrimStart(s) == "" || !IsWhitespace(TrimStart(s)[0])
  {
    if |s| > 0 && IsWhitespace(s[0]) {
      var t := s[1..];
      TrimStartSpec(t);
      var r := TrimStart(t);
      assert TrimStart(s) == r;
      assert r == s[|s| - |r|..] by { assert t[|t| - |r|..] == s[|s| - |r|..]; }
      forall k | 0 <= k < |s| - |r| ensures IsWhitespace(s[k]) {
        if k > 0 { assert s[k] == t[k - 1]; }
      }
    }
  }

  /** Trimming the end leaves a prefix of `s` that does not end with whitespace,
      followed only by whitespace. */
  lemma {:induction false} TrimEndSpec(s: string)
    ensures |TrimEnd(s)| <= |s| && TrimEnd(s) == s[..|TrimEnd(s)|]
    ensures forall k | |TrimEnd(s)| <= k < |s| :: IsWhitespace(s[k])
    ensures TrimEnd(s) == "" || !IsWhitespace(TrimEnd(s)[|TrimEnd(s)| - 1])
  {
    if |s| > 0 && IsWhitespace(s[|s| - 1]) {
      var t := s[..|s| - 1];
      TrimEndSpec(t);
      var r := TrimEnd(t);
      assert TrimEnd(s) == r;
      assert r == s[..|r|] by { assert t[..|r|] == s[..|r|]; }
      forall k | |r| <= k < |s| ensures IsWhitespace(s[k]) {
        if k < |s| - 1 { assert s[k] == t[k]; }
      }
    } else {
      assert TrimEnd(s) == s;
    }
  }

  /** `s.trim()` neither starts nor ends with whitespace, and cuts only whitespace: it is
      the part of `s` starting at the first non-whitespace character, everything around
      it being whitespace. */
  lemma {:induction false} TrimCut(s: string)
    ensures Trim(s) == "" || (!IsWhitespace(Trim(s)[0]) && !IsWhitespace(Trim(s)[|Trim(s)| - 1]))
    ensures CutAt(s, Trim(s), |s| - |TrimStart(s)|)
  {
    var t := TrimStart(s);
    var r := TrimEnd(t);
    TrimStartSpec(s);
    TrimEndSpec(t);
    assert Trim(s) == r;
    var i := |s| - |t|;
    assert r == s[i..i + |r|] by {
      assert t == s[i..];
      assert t[..|r|] == s[i..i + |r|];
    }
    assert r == "" || (r[0] == t[0] && !IsWhitespace(r[0]));
    forall k | i + |r| <= k < |s| ensures IsWhitespace(s[k]) {
      assert s[k] == t[k - i];
    }
    assert CutAt(s, r, i);
  }

  /** `r` is the part of `s` starting at `i`, and everything around it is whitespace. */
  ghost predicate CutAt(s: string, r: string, i: int)
  {
    && 0 <= i <= |s| - |r|
    && r == s[i..i + |r|]
    && (forall k | 0 <= k < i :: IsWhitespace(s[k]))
    && (forall k | i + |r| <= k < |s| :: IsWhitespace(s[k]))
  }

  /** A string that neither starts nor ends with whitespace is its own trim. */
  lemma TrimOfTrimmed(s: string)
    requires s == "" || (!IsWhitespace(s[0]) && !IsWhitespace(s[|s| - 1]))
    ensures Trim(s) == s
  {
    if s != "" {
      assert TrimStart(s) == s;
      assert TrimEnd(s) == s;
    }
  }
}
