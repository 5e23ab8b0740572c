/** The response parser (`_parse_response`): the whole model output is kept
    as the analysis, and a line scan pulls out bullet suggestions and inline
    fenced code examples. */
module Extract {
  import opened Wrappers
  import opened Text
  import opened Analysis

  const Fence: string := "```"

  /** The lines the parser scans: the stripped text split on line breaks. */
  function ResponseLines(text: string): seq<string> {
    Split(PyStrip(text), '\n')
  }

  /** A stripped line that starts with a "- " or "* " bullet marker. */
  predicate IsBullet(line: string) {
    StartsWith(line, "- ") || StartsWith(line, "* ")
  }

  /** The example one line carries between its first and last fence, when
      those fences do not touch or overlap. */
  function InlineExample(line: string): (r: Option<string>)
    ensures r.None? <==>
      !Contains(line, Fence) || RFind(line, Fence).value <= Find(line, Fence).value + |Fence|
    ensures r.Some? ==>
      var start := Find(line, Fence).value + |Fence|;
      var end := RFind(line, Fence).value;
      start < end <= |line| && r.value == PyStrip(line[start..end])
  {
    CountAtLeastTwo(line, Fence);
    if Contains(line, Fence) && Count(line, Fence) >= 2 then
      var start := Find(line, Fence).value + |Fence|;
      var end := RFind(line, Fence).value;
      if start < end then Some(PyStrip(line[start..end])) else None
    else None
  }

  /** What one raw line contributes to the suggestions. */
  function LineSuggestion(raw: string): seq<string> {
    var line := PyStrip(raw);
    if IsBullet(line) then [line[2..]] else []
  }

  /** What one raw line contributes to the examples, before the cap. */
  function LineExample(raw: string): seq<string> {
    var line := PyStrip(raw);
    if IsBullet(line) then []
    else match InlineExample(line)
      case Some(e) => [e]
      case None => []
  }

  /** Every suggestion the lines hold, in line order, uncapped. */
  function Suggestions(lines: seq<string>): seq<string>
    decreases |lines|
  {
    if |lines| == 0 then []
    else Suggestions(lines[..|lines| - 1]) + LineSuggestion(lines[|lines| - 1])
  }

  /** Every inline example the lines hold, in line order, uncapped. */
  function Examples(lines: seq<string>): seq<string>
    decreases |lines|
  {
    if |lines| == 0 then []
    else Examples(lines[..|lines| - 1]) + LineExample(lines[|lines| - 1])
  }

  /** One more line extends both uncapped lists by that line's contribution. */
  lemma ScanStep(lines: seq<string>, i: nat)
    requires i < |lines|
    ensures Suggestions(lines[..i + 1]) == Suggestions(lines[..i]) + LineSuggestion(lines[i])
    ensures Examples(lines[..i + 1]) == Examples(lines[..i]) + LineExample(lines[i])
  {
    assert lines[..i + 1][..i] == lines[..i];
  }

  /** Capping at `n` while collecting agrees with capping once at the end:
      an item is appended only while fewer than `n` are held. */
  lemma CapStep<T>(found: seq<T>, more: seq<T>, n: nat)
    requires |more| <= 1
    ensures |Take(found, n)| < n ==> Take(found + more, n) == Take(found, n) + more
    ensures |Take(found, n)| >= n ==> Take(found + more, n) == Take(found, n)
  {
    if |found| >= n {
      assert (found + more)[..n] == found[..n];
    }
  }

  /** What one line contributes, branch by branch of the scan. */
  lemma LineContribution(raw: string)
    ensures var line := PyStrip(raw);
      && (IsBullet(line) ==> LineSuggestion(raw) == [line[2..]] && LineExample(raw) == [])
      && (!IsBullet(line) ==> LineSuggestion(raw) == [])
      && (!IsBullet(line) && !(Contains(line, Fence) && Count(line, Fence) >= 2) ==> LineExample(raw) == [])
      && (!IsBullet(line) && Contains(line, Fence) && Count(line, Fence) >= 2 ==>
            var start := Find(line, Fence).value + |Fence|;
            var end := RFind(line, Fence).value;
            && (start < end ==> end <= |line| && LineExample(raw) == [PyStrip(line[start..end])])
            && (start >= end ==> LineExample(raw) == []))
  {
    CountAtLeastTwo(PyStrip(raw), Fence);
  }

  /** The line scan, with the examples capped while scanning and both lists
      capped at the end. */
  method ParseResponse(text: string) returns (response: CodeAnalysisResponse)
    ensures response.analysis == text
    ensures response.suggestions == Take(Suggestions(ResponseLines(text)), MaxSuggestions)
    ensures response.examples == Take(Examples(ResponseLines(text)), MaxExamples)
    ensures response.executionResult.None? && response.error.None?
  {
    var lines := ResponseLines(text);
    var suggestions: seq<string> := [];
    var examples: seq<string> := [];
    for i := 0 to |lines|
      invariant suggestions == Suggestions(lines[..i])
      invariant examples == Take(Examples(lines[..i]), MaxExamples)
    {
      ScanStep(lines, i);
      CapStep(Examples(lines[..i]), LineExample(lines[i]), MaxExamples);
      LineContribution(lines[i]);
      var line := PyStrip(lines[i]);
      if StartsWith(line, "- ") || StartsWith(line, "* ") {
        suggestions := suggestions + [line[2..]];
      } else if Contains(line, Fence) && |examples| < MaxExamples {
        if Count(line, Fence) >= 2 {
          var start := Find(line, Fence).value + |Fence|;
          var end := RFind(line, Fence).value;
          if start < end {
            examples := examples + [PyStrip(line[start..end])];
          }
        }
      }
    }
    assert lines[..|lines|] == lines;
    response := CodeAnalysisResponse(text, Take(suggestions, MaxSuggestions), Take(examples, MaxExamples), None, None);
  }

  /** A line with at most one fence yields no example: the opening and
      closing fences of a multi-line block sit on lines of their own. */
  lemma SingleFenceNoExample(raw: string)
    requires Count(PyStrip(raw), Fence) <= 1
    ensures LineExample(raw) == []
  {
    CountAtLeastTwo(PyStrip(raw), Fence);
  }

  /** Text whose every line has at most one fence (code only in multi-line
      fenced blocks) yields no examples at all. */
  lemma {:induction false} MultiLineBlocksYieldNothing(lines: seq<string>)
    requires forall i :: 0 <= i < |lines| ==> Count(PyStrip(lines[i]), Fence) <= 1
    ensures Examples(lines) == []
    decreases |lines|
  {
    if |lines| > 0 {
      MultiLineBlocksYieldNothing(lines[..|lines| - 1]);
      SingleFenceNoExample(lines[|lines| - 1]);
    }
  }

  /** Suggestions and examples come from disjoint lines: a bullet line never
      contributes an example, even one with inline fences. */
  lemma {:induction false} BulletsNeverExamples(lines: seq<string>)
    requires forall i :: 0 <= i < |lines| ==> IsBullet(PyStrip(lines[i]))
    ensures Examples(lines) == []
    ensures |Suggestions(lines)| == |lines|
    decreases |lines|
  {
    if |lines| > 0 {
      BulletsNeverExamples(lines[..|lines| - 1]);
    }
  }
}
