/** The string primitives of Python (`str.strip`, `in`, `find`, `rfind`,
    `count`, `split`, `join`, `replace`, `lower`) and of JavaScript
    (`String.prototype.trim`, `substring`, `length`) that the modelled code
    relies on, each defined once with a contract that says what it computes. */
module Text {
  import opened Wrappers

  // ---------------------------------------------------------------------------
  // Whitespace and trimming
  // ---------------------------------------------------------------------------

  /** The characters for which Python's `str.isspace()` holds; `str.strip()`
      and `str.split()` without arguments remove exactly these. */
  predicate IsPySpace(c: char) {
    || ('\t' <= c <= '\r')
    || ('\U{1C}' <= c <= ' ')
    || c == '\U{85}' || c == '\U{A0}' || c == '\U{1680}'
    || ('\U{2000}' <= c <= '\U{200A}')
    || c == '\U{2028}' || c == '\U{2029}' || c == '\U{202F}'
    || c == '\U{205F}' || c == '\U{3000}'
  }

  /** The characters JavaScript's `String.prototype.trim()` removes: the
      WhiteSpace and LineTerminator productions of ECMAScript. Unlike Python
      this includes U+FEFF and excludes U+001C..U+001F and U+0085. */
  predicate IsJsSpace(c: char) {
    || ('\t' <= c <= '\r')
    || c == ' ' || c == '\U{A0}' || c == '\U{1680}'
    || ('\U{2000}' <= c <= '\U{200A}')
    || c == '\U{2028}' || c == '\U{2029}' || c == '\U{202F}'
    || c == '\U{205F}' || c == '\U{3000}' || c == '\U{FEFF}'
  }

  /** Which language's notion of whitespace a trim uses. */
  datatype Whitespace = PyWhitespace | JsWhitespace

  predicate IsSpace(ws: Whitespace, c: char) {
    match ws
    case PyWhitespace => IsPySpace(c)
    case JsWhitespace => IsJsSpace(c)
  }

  /** `s` without its leading run of `ws` characters. */
  function TrimStart(s: string, ws: Whitespace): (r: string)
    ensures |r| <= |s| && r == s[|s| - |r|..]
    ensures forall k :: 0 <= k < |s| - |r| ==> IsSpace(ws, s[k])
    ensures |r| > 0 ==> !IsSpace(ws, r[0])
    decreases |s|
  {
    if |s| > 0 && IsSpace(ws, s[0]) then TrimStart(s[1..], ws) else s
  }

  /** `s` without its trailing run of `ws` characters. */
  function TrimEnd(s: string, ws: Whitespace): (r: string)
    ensures |r| <= |s| && r == s[..|r|]
    ensures forall k :: |r| <= k < |s| ==> IsSpace(ws, s[k])
    ensures |r| > 0 ==> !IsSpace(ws, r[|r| - 1])
    decreases |s|
  {
    if |s| > 0 && IsSpace(ws, s[|s| - 1]) then TrimEnd(s[..|s| - 1], ws) else s
  }

  /** Both ends trimmed: neither end of the result is a space, and it is
      empty exactly when `s` is all spaces; `TrimIsSlice` places it in `s`. */
  function Trim(s: string, ws: Whitespace): (r: string)
    ensures |r| <= |s|
    ensures |r| > 0 ==> !IsSpace(ws, r[0]) && !IsSpace(ws, r[|r| - 1])
    ensures r == [] <==> forall k :: 0 <= k < |s| ==> IsSpace(ws, s[k])
  {
    TrimBlank(s, ws);
    TrimEnd(TrimStart(s, ws), ws)
  }

  /** The trimmed text is the slice of `s` between a leading and a trailing
      run of spaces. */
  lemma TrimIsSlice(s: string, ws: Whitespace)
    ensures exists i, j :: (0 <= i <= j <= |s| && Trim(s, ws) == s[i..j]
                           && (forall k :: 0 <= k < i ==> IsSpace(ws, s[k]))
                           && (forall k :: j <= k < |s| ==> IsSpace(ws, s[k])))
  {
    SuffixPrefixSlice(s, TrimStart(s, ws), TrimEnd(TrimStart(s, ws), ws), ws);
  }

  /** A prefix `r` of a suffix `t` of `s`, where what `t` drops from `s` and
      what `r` drops from `t` are all spaces, is a slice of `s` between two
      runs of spaces. */
  lemma SuffixPrefixSlice(s: string, t: string, r: string, ws: Whitespace)
    requires |t| <= |s| && t == s[|s| - |t|..]
    requires forall k :: 0 <= k < |s| - |t| ==> IsSpace(ws, s[k])
    requires |r| <= |t| && r == t[..|r|]
    requires forall k :: |r| <= k < |t| ==> IsSpace(ws, t[k])
    ensures exists i, j :: (0 <= i <= j <= |s| && r == s[i..j]
                           && (forall k :: 0 <= k < i ==> IsSpace(ws, s[k]))
                           && (forall k :: j <= k < |s| ==> IsSpace(ws, s[k])))
  {
    var i := |s| - |t|;
    forall k | i + |r| <= k < |s| ensures IsSpace(ws, s[k]) {
      assert s[k] == t[k - i];
    }
    assert r == s[i..i + |r|];
  }

  lemma TrimBlank(s: string, ws: Whitespace)
    ensures TrimEnd(TrimStart(s, ws), ws) == [] <==> forall k :: 0 <= k < |s| ==> IsSpace(ws, s[k])
  {
    var t := TrimStart(s, ws);
    if TrimEnd(t, ws) == [] {
      assert t == [];
    }
  }

  /** Python's `s.strip()`. */
  function PyStrip(s: string): string {
    Trim(s, PyWhitespace)
  }

  /** JavaScript's `s.trim()`. */
  function JsTrim(s: string): string {
    Trim(s, JsWhitespace)
  }

  // ---------------------------------------------------------------------------
  // Substring search
  // ---------------------------------------------------------------------------

  predicate StartsWith(s: string, prefix: string) {
    |prefix| <= |s| && s[..|prefix|] == prefix
  }

  /** `pat` occurs in `s` starting at index `k`. */
  predicate OccursAt(s: string, pat: string, k: nat) {
    k + |pat| <= |s| && s[k..k + |pat|] == pat
  }

  /** Python's `pat in s`. */
  predicate Contains(s: string, pat: string) {
    exists k: nat | k <= |s| :: OccursAt(s, pat, k)
  }

  lemma OccursAtChar(s: string, c: char, k: nat)
    ensures OccursAt(s, [c], k) <==> k < |s| && s[k] == c
  {
    if k < |s| && s[k] == c {
      assert s[k..k + 1] == [c];
    }
  }

  /** A character of `pat` that never appears in `s` keeps `pat` out of `s`. */
  lemma AbsentCharExcludes(s: string, pat: string, c: char)
    requires c in pat && c !in s
    ensures !Contains(s, pat)
  {
    var i :| 0 <= i < |pat| && pat[i] == c;
    forall k: nat | k <= |s| ensures !OccursAt(s, pat, k) {
      if k + |pat| <= |s| {
        assert s[k..k + |pat|][i] == s[k + i];
      }
    }
  }

  /** The first occurrence of `pat` in `s` at or after index `i`. */
  function FindFrom(s: string, pat: string, i: nat): (r: Option<nat>)
    ensures r.Some? ==> i <= r.value && OccursAt(s, pat, r.value)
    ensures forall j: nat :: i <= j && (r.None? || j < r.value) ==> !OccursAt(s, pat, j)
    decreases |s| - i
  {
    if i + |pat| > |s| then None
    else if OccursAt(s, pat, i) then Some(i)
    else FindFrom(s, pat, i + 1)
  }

  /** Python's `s.find(pat)`, with `None` for its `-1`. */
  function Find(s: string, pat: string): (r: Option<nat>)
    ensures r.Some? <==> Contains(s, pat)
    ensures r.Some? ==> OccursAt(s, pat, r.value)
    ensures r.Some? ==> forall j: nat :: j < r.value ==> !OccursAt(s, pat, j)
  {
    FindFrom(s, pat, 0)
  }

  /** The last occurrence of `pat` in `s` at or before index `i`. */
  function RFindAtOrBelow(s: string, pat: string, i: nat): (r: Option<nat>)
    ensures r.Some? ==> r.value <= i && OccursAt(s, pat, r.value)
    ensures forall j: nat :: j <= i && (r.None? || r.value < j) ==> !OccursAt(s, pat, j)
    decreases i
  {
    if OccursAt(s, pat, i) then Some(i)
    else if i == 0 then None
    else RFindAtOrBelow(s, pat, i - 1)
  }

  /** Python's `s.rfind(pat)`, with `None` for its `-1`. */
  function RFind(s: string, pat: string): (r: Option<nat>)
    ensures r.Some? <==> Contains(s, pat)
    ensures r.Some? ==> OccursAt(s, pat, r.value)
    ensures r.Some? ==> forall j: nat :: r.value < j ==> !OccursAt(s, pat, j)
  {
    if |pat| > |s| then None else RFindAtOrBelow(s, pat, |s| - |pat|)
  }

  /** Occurrences counted left to right without overlap, from index `i`. */
  function CountFrom(s: string, pat: string, i: nat): nat
    requires |pat| > 0
    decreases |s| - i
  {
    if i + |pat| > |s| then 0
    else if OccursAt(s, pat, i) then 1 + CountFrom(s, pat, i + |pat|)
    else CountFrom(s, pat, i + 1)
  }

  /** Python's `s.count(pat)` for a non-empty `pat`. */
  function Count(s: string, pat: string): nat
    requires |pat| > 0
  {
    CountFrom(s, pat, 0)
  }

  /** Counting restarts right after the first occurrence found. */
  lemma {:induction false} CountFromSkips(s: string, pat: string, i: nat)
    requires |pat| > 0
    ensures FindFrom(s, pat, i).None? ==> CountFrom(s, pat, i) == 0
    ensures FindFrom(s, pat, i).Some? ==>
      CountFrom(s, pat, i) == 1 + CountFrom(s, pat, FindFrom(s, pat, i).value + |pat|)
    decreases |s| - i
  {
    if i + |pat| > |s| || OccursAt(s, pat, i) {
    } else {
      CountFromSkips(s, pat, i + 1);
    }
  }

  /** Searching from `i` succeeds exactly when the last occurrence is at or
      after `i`. */
  lemma FindFromLast(s: string, pat: string, i: nat)
    requires Contains(s, pat)
    ensures FindFrom(s, pat, i).Some? <==> RFind(s, pat).value >= i
  {
    var l := RFind(s, pat).value;
    var n := FindFrom(s, pat, i);
    assert OccursAt(s, pat, l);
    if n.Some? {
      assert OccursAt(s, pat, n.value);
    }
  }

  /** Python's `s.count(pat) >= 2` holds exactly when the last occurrence of
      `pat` starts at or after the end of the first one. */
  lemma CountAtLeastTwo(s: string, pat: string)
    requires |pat| > 0
    ensures Count(s, pat) >= 2 <==>
      Contains(s, pat) && RFind(s, pat).value >= Find(s, pat).value + |pat|
  {
    var first := FindFrom(s, pat, 0);
    assert first == Find(s, pat);
    if first.Some? {
      var f := first.value;
      var second := FindFrom(s, pat, f + |pat|);
      assert Count(s, pat) >= 2 <==> second.Some? by {
        CountFromSkips(s, pat, 0);
        CountFromSkips(s, pat, f + |pat|);
      }
      FindFromLast(s, pat, f + |pat|);
    } else {
      assert Count(s, pat) == 0 by {
        CountFromSkips(s, pat, 0);
      }
    }
  }

  // ---------------------------------------------------------------------------
  // Splitting and joining
  // ---------------------------------------------------------------------------

  /** Python's `sep.join(parts)`. */
  function Join(parts: seq<string>, sep: string): string
  {
    if |parts| == 0 then ""
    else if |parts| == 1 then parts[0]
    else parts[0] + sep + Join(parts[1..], sep)
  }

  /** Python's `s.split(sep)` for a one-character separator: the pieces
      between separators, in order, which joined back give `s`. */
  function Split(s: string, sep: char): (parts: seq<string>)
    ensures |parts| >= 1
    ensures forall k :: 0 <= k < |parts| ==> sep !in parts[k]
    ensures Join(parts, [sep]) == s
    decreases |s|
  {
    match Find(s, [sep])
    case None =>
      assert sep !in s by {
        forall k | 0 <= k < |s| ensures s[k] != sep {
          OccursAtChar(s, sep, k);
        }
      }
      [s]
    case Some(i) =>
      OccursAtChar(s, sep, i);
      assert sep !in s[..i] by {
        forall k | 0 <= k < i ensures s[k] != sep {
          OccursAtChar(s, sep, k);
        }
      }
      var rest := Split(s[i + 1..], sep);
      assert s == s[..i] + [sep] + s[i + 1..];
      [s[..i]] + rest
  }

  /** In `a + [sep] + b` with `sep` absent from `a`, the first `sep` is the one
      after `a`. */
  lemma FindSeparator(a: string, sep: char, b: string)
    requires sep !in a
    ensures Find(a + [sep] + b, [sep]) == Some(|a|)
  {
    var s := a + [sep] + b;
    OccursAtChar(s, sep, |a|);
    forall j: nat | j < |a| ensures !OccursAt(s, [sep], j) {
      OccursAtChar(s, sep, j);
      assert s[j] == a[j];
    }
  }

  /** Splitting undoes joining when no part holds the separator. */
  lemma {:induction false} SplitJoin(parts: seq<string>, sep: char)
    requires |parts| >= 1
    requires forall k :: 0 <= k < |parts| ==> sep !in parts[k]
    ensures Split(Join(parts, [sep]), sep) == parts
  {
    if |parts| == 1 {
      assert Find(parts[0], [sep]).None? by {
        if Contains(parts[0], [sep]) {
          AbsentCharExcludes(parts[0], [sep], sep);
        }
      }
    } else {
      var rest := Join(parts[1..], [sep]);
      FindSeparator(parts[0], sep, rest);
      var s := parts[0] + [sep] + rest;
      assert s[..|parts[0]|] == parts[0];
      assert s[|parts[0]| + 1..] == rest;
      SplitJoin(parts[1..], sep);
      assert parts == [parts[0]] + parts[1..];
    }
  }

  lemma {:induction false} JoinAppend(p: seq<string>, q: seq<string>, sep: string)
    requires |p| >= 1 && |q| >= 1
    ensures Join(p + q, sep) == Join(p, sep) + sep + Join(q, sep)
  {
    if |p| == 1 {
      assert (p + q)[1..] == q;
    } else {
      assert (p + q)[1..] == p[1..] + q;
      JoinAppend(p[1..], q, sep);
    }
  }

  /** A separator in the text separates the lines on either side of it. */
  lemma SplitAround(a: string, sep: char, b: string)
    ensures Split(a + [sep] + b, sep) == Split(a, sep) + Split(b, sep)
  {
    var p := Split(a, sep);
    var q := Split(b, sep);
    JoinAppend(p, q, [sep]);
    SplitJoin(p + q, sep);
  }

  /** Joined parts open with their first four parts, each followed by the
      separator. */
  lemma JoinFirstFour(parts: seq<string>, sep: string)
    requires |parts| >= 5
    ensures Join(parts, sep) == parts[0] + sep + parts[1] + sep + parts[2] + sep + parts[3] + sep + Join(parts[4..], sep)
  {
    var rest := Join(parts[4..], sep);
    assert Join(parts[3..], sep) == parts[3] + sep + rest by {
      assert parts[3..][1..] == parts[4..];
    }
    assert Join(parts[2..], sep) == parts[2] + sep + Join(parts[3..], sep) by {
      assert parts[2..][1..] == parts[3..];
    }
    assert Join(parts[1..], sep) == parts[1] + sep + Join(parts[2..], sep) by {
      assert parts[1..][1..] == parts[2..];
    }
  }

  /** Joining one more part appends the separator and that part. */
  lemma {:induction false} JoinSnoc(parts: seq<string>, last: string, sep: string)
    requires |parts| >= 1
    ensures Join(parts + [last], sep) == Join(parts, sep) + sep + last
  {
    JoinAppend(parts, [last], sep);
  }

  /** The lines of every part, in order. */
  function SplitEach(parts: seq<string>, sep: char): seq<string>
  {
    if |parts| == 0 then [] else Split(parts[0], sep) + SplitEach(parts[1..], sep)
  }

  lemma {:induction false} SplitEachAppend(p: seq<string>, q: seq<string>, sep: char)
    ensures SplitEach(p + q, sep) == SplitEach(p, sep) + SplitEach(q, sep)
  {
    if |p| > 0 {
      assert (p + q)[1..] == p[1..] + q;
      SplitEachAppend(p[1..], q, sep);
    } else {
      assert p + q == q;
    }
  }

  /** Parts without the separator are their own lines. */
  lemma {:induction false} SplitEachPlain(parts: seq<string>, sep: char)
    requires forall k :: 0 <= k < |parts| ==> sep !in parts[k]
    ensures SplitEach(parts, sep) == parts
  {
    if |parts| > 0 {
      SplitJoin([parts[0]], sep);
      SplitEachPlain(parts[1..], sep);
      assert parts == [parts[0]] + parts[1..];
    }
  }

  /** The lines of joined parts are the lines of each part in turn. */
  lemma {:induction false} SplitOfJoin(parts: seq<string>, sep: char)
    requires |parts| >= 1
    ensures Split(Join(parts, [sep]), sep) == SplitEach(parts, sep)
  {
    if |parts| == 1 {
      assert SplitEach(parts[1..], sep) == [];
    } else {
      SplitAround(parts[0], sep, Join(parts[1..], [sep]));
      SplitOfJoin(parts[1..], sep);
    }
  }

  predicate EndsWith(s: string, suffix: string) {
    |suffix| <= |s| && s[|s| - |suffix|..] == suffix
  }

  lemma EndsWithAppended(front: string, tail: string)
    ensures EndsWith(front + tail, tail)
  {
    assert (front + tail)[|front|..] == tail;
  }

  lemma EndsWithLastThree(front: string, a: string, b: string, c: string)
    ensures EndsWith(front + a + b + c, a + b + c)
  {
    assert (front + a + b + c)[|front|..] == a + b + c;
  }

  lemma StartsWithAppended(front: string, tail: string)
    ensures StartsWith(front + tail, front)
  {
    assert (front + tail)[..|front|] == front;
  }

  lemma EndsWithLastTwo(front: string, middle: string, tail: string)
    ensures EndsWith(front + middle + tail, middle + tail)
  {
    assert (front + middle + tail)[|front|..] == middle + tail;
  }

  /** A text built as head, middle and tail starts with the head and ends
      with the tail. */
  lemma Framed(head: string, middle: string, tail: string)
    ensures StartsWith(head + middle + tail, head)
    ensures EndsWith(head + middle + tail, tail)
  {
    assert (head + middle + tail)[..|head|] == head;
    EndsWithAppended(head + middle, tail);
  }

  // ---------------------------------------------------------------------------
  // Replacement
  // ---------------------------------------------------------------------------

  /** Python's `s.replace(pat, rep, 1)`: the first occurrence replaced in
      place, the text around it kept in order. */
  function ReplaceFirst(s: string, pat: string, rep: string): (r: string)
    ensures !Contains(s, pat) ==> r == s
    ensures Contains(s, pat) ==>
      exists k: nat :: (OccursAt(s, pat, k)
                        && (forall j: nat :: j < k ==> !OccursAt(s, pat, j))
                        && r == s[..k] + rep + s[k + |pat|..])
    ensures Contains(s, pat) ==> multiset(r) + multiset(pat) == multiset(s) + multiset(rep)
  {
    match Find(s, pat)
    case None => s
    case Some(k) =>
      assert s == s[..k] + pat + s[k + |pat|..] by {
        assert s == s[..k] + s[k..k + |pat|] + s[k + |pat|..];
      }
      s[..k] + rep + s[k + |pat|..]
  }

  /** After a prefix that lacks the pattern's first character, the first
      occurrence is the one that follows the prefix. */
  lemma FindAfterFree(a: string, pat: string, b: string)
    requires |pat| > 0 && pat[0] !in a
    ensures Find(a + pat + b, pat) == Some(|a|)
  {
    var s := a + pat + b;
    assert OccursAt(s, pat, |a|) by {
      assert s[|a|..|a| + |pat|] == pat;
    }
    forall j: nat | j < |a| ensures !OccursAt(s, pat, j) {
      assert s[j] == a[j];
      if j + |pat| <= |s| {
        assert s[j..j + |pat|][0] == s[j];
      }
    }
  }

  /** The first replacement lands right after a prefix that lacks the
      pattern's first character. */
  lemma ReplaceFirstAfterFree(a: string, pat: string, b: string, rep: string)
    requires |pat| > 0 && pat[0] !in a
    ensures ReplaceFirst(a + pat + b, pat, rep) == a + rep + b
  {
    var s := a + pat + b;
    FindAfterFree(a, pat, b);
    assert s[..|a|] == a && s[|a| + |pat|..] == b;
  }

  /** Two first-occurrence replacements in a row pair the first two
      occurrences: the first becomes `open`, the second `close`. */
  lemma ReplaceFirstPair(a: string, pat: string, b: string, c: string, open: string, close: string)
    requires |pat| > 0 && pat[0] !in a && pat[0] !in b && pat[0] !in open
    ensures ReplaceFirst(ReplaceFirst(a + pat + b + pat + c, pat, open), pat, close) == a + open + b + close + c
  {
    assert a + pat + b + pat + c == a + pat + (b + pat + c);
    ReplaceFirstAfterFree(a, pat, b + pat + c, open);
    var front := a + open + b;
    assert pat[0] !in front;
    assert a + open + (b + pat + c) == front + pat + c;
    ReplaceFirstAfterFree(front, pat, c, close);
  }

  /** Python's `s.replace(pat, rep)`: every occurrence, left to right, without
      overlap. */
  function ReplaceAll(s: string, pat: string, rep: string): string
    requires |pat| > 0
    decreases |s|
  {
    if |s| < |pat| then s
    else if StartsWith(s, pat) then rep + ReplaceAll(s[|pat|..], pat, rep)
    else [s[0]] + ReplaceAll(s[1..], pat, rep)
  }

  /** Replacing every occurrence passes over a prefix that lacks the
      pattern's first character. */
  lemma {:induction false} ReplaceAllAfterFree(a: string, rest: string, pat: string, rep: string)
    requires |pat| > 0 && pat[0] !in a
    ensures ReplaceAll(a + rest, pat, rep) == a + ReplaceAll(rest, pat, rep)
    decreases |a|
  {
    var s := a + rest;
    if |a| == 0 {
      assert s == rest;
    } else if |s| < |pat| {
      ReplaceAllShort(s, pat, rep);
      ReplaceAllShort(rest, pat, rep);
    } else {
      assert s[0] == a[0];
      ReplaceAllPassesOver(s, pat, rep);
      assert s[1..] == a[1..] + rest;
      ReplaceAllAfterFree(a[1..], rest, pat, rep);
      assert a == [a[0]] + a[1..];
      assert ReplaceAll(s, pat, rep) == [a[0]] + (a[1..] + ReplaceAll(rest, pat, rep));
    }
  }

  /** A first character that cannot start the pattern is kept as it is. */
  lemma ReplaceAllPassesOver(s: string, pat: string, rep: string)
    requires 0 < |pat| <= |s| && s[0] != pat[0]
    ensures ReplaceAll(s, pat, rep) == [s[0]] + ReplaceAll(s[1..], pat, rep)
  {
    assert !StartsWith(s, pat) by {
      assert s[..|pat|][0] == s[0];
    }
  }

  /** Text shorter than the pattern is left as it is. */
  lemma ReplaceAllShort(s: string, pat: string, rep: string)
    requires |pat| > 0 && |s| < |pat|
    ensures ReplaceAll(s, pat, rep) == s
  {
  }

  /** An occurrence at the start is replaced, and the rest follows. */
  lemma ReplaceAllAtStart(pat: string, rest: string, rep: string)
    requires |pat| > 0
    ensures ReplaceAll(pat + rest, pat, rep) == rep + ReplaceAll(rest, pat, rep)
  {
    assert (pat + rest)[..|pat|] == pat;
    assert (pat + rest)[|pat|..] == rest;
  }

  /** Replacing every `c` by a text without `c` leaves no `c`. */
  lemma {:induction false} ReplaceAllRemoves(s: string, c: char, rep: string)
    requires c !in rep
    ensures c !in ReplaceAll(s, [c], rep)
    decreases |s|
  {
    if |s| >= 1 {
      ReplaceAllRemoves(s[1..], c, rep);
    }
  }

  /** A character in neither the pattern nor the replacement keeps its count. */
  lemma {:induction false} ReplaceAllKeepsCount(s: string, pat: string, rep: string, x: char)
    requires |pat| > 0 && x !in pat && x !in rep
    ensures multiset(ReplaceAll(s, pat, rep))[x] == multiset(s)[x]
    decreases |s|
  {
    if |s| < |pat| {
    } else if StartsWith(s, pat) {
      var rest := s[|pat|..];
      ReplaceAllKeepsCount(rest, pat, rep, x);
      assert s == pat + rest;
      assert multiset(pat)[x] == 0 && multiset(rep)[x] == 0;
      assert multiset(s)[x] == multiset(pat)[x] + multiset(rest)[x];
      assert multiset(rep + ReplaceAll(rest, pat, rep))[x]
          == multiset(rep)[x] + multiset(ReplaceAll(rest, pat, rep))[x];
    } else {
      var rest := s[1..];
      ReplaceAllKeepsCount(rest, pat, rep, x);
      assert s == [s[0]] + rest;
      assert multiset(s)[x] == multiset([s[0]])[x] + multiset(rest)[x];
      assert multiset([s[0]] + ReplaceAll(rest, pat, rep))[x]
          == multiset([s[0]])[x] + multiset(ReplaceAll(rest, pat, rep))[x];
    }
  }

  /** Text without an occurrence of the pattern is left as it is. */
  lemma {:induction false} ReplaceAllAbsent(s: string, pat: string, rep: string)
    requires |pat| > 0 && !Contains(s, pat)
    ensures ReplaceAll(s, pat, rep) == s
    decreases |s|
  {
    if |s| >= |pat| {
      assert !OccursAt(s, pat, 0);
      assert !Contains(s[1..], pat) by {
        if Contains(s[1..], pat) {
          var k: nat :| k <= |s[1..]| && OccursAt(s[1..], pat, k);
          assert s[1..][k..k + |pat|] == s[k + 1..k + 1 + |pat|];
          assert OccursAt(s, pat, k + 1);
        }
      }
      ReplaceAllAbsent(s[1..], pat, rep);
      assert s == [s[0]] + s[1..];
    }
  }

  // ---------------------------------------------------------------------------
  // Case and length
  // ---------------------------------------------------------------------------

  function LowerChar(c: char): char {
    if 'A' <= c <= 'Z' then (c as int + 32) as char else c
  }

  /** Python's `s.lower()` on ASCII letters; other characters are kept. */
  function Lower(s: string): (r: string)
    ensures |r| == |s|
    ensures forall k :: 0 <= k < |s| ==> r[k] == LowerChar(s[k])
  {
    seq(|s|, k requires 0 <= k < |s| => LowerChar(s[k]))
  }

  /** JavaScript's `s.length`: UTF-16 code units, two for a character outside
      the Basic Multilingual Plane. */
  function JsLength(s: string): (n: nat)
    ensures |s| <= n <= 2 * |s|
    ensures n == |s| <==> forall k :: 0 <= k < |s| ==> s[k] <= '\U{FFFF}'
  {
    if |s| == 0 then 0
    else
      assert forall k :: 1 <= k < |s| ==> s[k] == s[1..][k - 1];
      (if s[0] > '\U{FFFF}' then 2 else 1) + JsLength(s[1..])
  }

  /** One character is one code unit, or two outside the Basic Multilingual
      Plane. */
  lemma JsLengthOfChar(c: char)
    ensures JsLength([c]) == if c > '\U{FFFF}' then 2 else 1
  {
    assert [c][1..] == [];
  }

  /** Code units add up over concatenation. */
  lemma {:induction false} JsLengthAppend(a: string, b: string)
    ensures JsLength(a + b) == JsLength(a) + JsLength(b)
    decreases |a|
  {
    if |a| > 0 {
      assert (a + b)[1..] == a[1..] + b;
      JsLengthAppend(a[1..], b);
    } else {
      assert a + b == b;
    }
  }

  /** JavaScript's `s.substring(a, b)`: both ends clamped to the string and
      swapped when out of order. */
  function JsSubstring(s: string, a: nat, b: nat): (r: string)
    ensures a <= b <= |s| ==> r == s[a..b]
    ensures |r| <= |s|
  {
    var lo := if a <= b then a else b;
    var hi := if a <= b then b else a;
    var lo' := if lo <= |s| then lo else |s|;
    var hi' := if hi <= |s| then hi else |s|;
    s[lo'..hi']
  }

  /** The message of the `IndexError` Python raises for indexing an empty
      list. */
  const IndexErrorMessage: string := "list index out of range"

  /** Python's `s.split()[-1]`: the last whitespace-separated word, `None`
      where Python raises `IndexError` because `s` is all whitespace. */
  function LastWord(s: string): (r: Option<string>)
    ensures r.None? <==> forall k :: 0 <= k < |s| ==> IsPySpace(s[k])
    ensures r.Some? ==> |r.value| > 0 && forall k :: 0 <= k < |r.value| ==> !IsPySpace(r.value[k])
    ensures r.Some? ==>
      exists j: nat :: (OccursAt(s, r.value, j)
                        && (j == 0 || IsPySpace(s[j - 1]))
                        && (forall k :: j + |r.value| <= k < |s| ==> IsPySpace(s[k])))
  {
    var t := TrimEnd(s, PyWhitespace);
    if t == [] then None
    else
      var w := TrailingWord(t);
      var j := |t| - |w|;
      assert OccursAt(s, w, j) by {
        assert s[j..j + |w|] == w;
      }
      assert j > 0 ==> s[j - 1] == t[j - 1];
      Some(w)
  }

  /** The longest suffix of `t` free of whitespace. */
  function TrailingWord(t: string): (r: string)
    ensures |r| <= |t| && r == t[|t| - |r|..]
    ensures forall k :: 0 <= k < |r| ==> !IsPySpace(r[k])
    ensures |r| < |t| ==> IsPySpace(t[|t| - |r| - 1])
    ensures |t| > 0 && !IsPySpace(t[|t| - 1]) ==> |r| > 0
    decreases |t|
  {
    if |t| > 0 && !IsPySpace(t[|t| - 1]) then TrailingWord(t[..|t| - 1]) + [t[|t| - 1]] else []
  }

  /** The first `n` elements, or all of them when there are fewer (Python's
      `xs[:n]`). */
  function Take<T>(xs: seq<T>, n: nat): (r: seq<T>)
    ensures |r| <= n && r <= xs
    ensures |xs| <= n ==> r == xs
    ensures |xs| >= n ==> |r| == n
  {
    if |xs| <= n then xs else xs[..n]
  }
}
