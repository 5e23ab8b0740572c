/** The serverless demo endpoint (`api/analyze.py`): read the form with its
    defaults, pick a canned title and text by analysis kind, and turn the
    text's light markdown into HTML. The canned texts are reduced to their
    heading and the lines that interpolate a form field. */
module DemoApi {
  import opened Wrappers
  import opened Text

  // ---------------------------------------------------------------------------
  // The form
  // ---------------------------------------------------------------------------

  /** A decoded query string: each key with the values given for it. */
  type Query = map<string, seq<string>>

  /** A query as `parse_qs` builds it: every key it lists has at least one
      value, since blank values are dropped together with their key. */
  predicate FromParseQs(query: Query) {
    forall key :: key in query ==> |query[key]| > 0
  }

  /** `form_data.get(key, [fallback])[0]`: the first value given for `key`,
      the fallback when the key is absent, and an `IndexError` when it maps
      to no value at all. */
  function Field(query: Query, key: string, fallback: string): (r: Result<string, string>)
    ensures key !in query ==> r == Success(fallback)
    ensures key in query && |query[key]| > 0 ==> r == Success(query[key][0])
    ensures r.Failure? <==> key in query && |query[key]| == 0
  {
    if key !in query then Success(fallback)
    else if |query[key]| == 0 then Failure(IndexErrorMessage)
    else Success(query[key][0])
  }

  datatype DemoForm = DemoForm(
    language: string,
    analysisType: string,
    code: string,
    userLevel: string,
    specificQuestion: string)

  /** The fields the endpoint reads. */
  const FormKeys: set<string> := {"language", "analysis_type", "code", "user_level", "specific_question"}

  /** The five fields, read in source order; the first that raises decides
      the error. */
  function ReadForm(query: Query): (r: Result<DemoForm, string>)
    ensures r.Failure? ==> r.error == IndexErrorMessage
    ensures r.Success? <==> forall key :: key in query && key in FormKeys ==> |query[key]| > 0
    ensures r.Success? ==>
      && Field(query, "language", "python") == Success(r.value.language)
      && Field(query, "analysis_type", "explanation") == Success(r.value.analysisType)
      && Field(query, "code", "") == Success(r.value.code)
      && Field(query, "user_level", "beginner") == Success(r.value.userLevel)
      && Field(query, "specific_question", "") == Success(r.value.specificQuestion)
  {
    var language := Field(query, "language", "python");
    var analysisType := Field(query, "analysis_type", "explanation");
    var code := Field(query, "code", "");
    var userLevel := Field(query, "user_level", "beginner");
    var question := Field(query, "specific_question", "");
    if language.Failure? then Failure(language.error)
    else if analysisType.Failure? then Failure(analysisType.error)
    else if code.Failure? then Failure(code.error)
    else if userLevel.Failure? then Failure(userLevel.error)
    else if question.Failure? then Failure(question.error)
    else Success(DemoForm(language.value, analysisType.value, code.value, userLevel.value, question.value))
  }

  /** An empty submission gets a Python explanation for a beginner. */
  lemma EmptyQueryDefaults()
    ensures ReadForm(map[]) == Success(DemoForm("python", "explanation", "", "beginner", ""))
  {
  }

  // ---------------------------------------------------------------------------
  // The canned reply
  // ---------------------------------------------------------------------------

  datatype DemoReply = DemoReply(title: string, content: string)

  const FallbackTitle: string := "Analysis Complete"
  const FallbackContent: string :=
    "Demo analysis completed. For full functionality, please run the application locally."

  /** The title for a kind, the fallback for any other string. */
  function DemoTitle(analysisType: string): (title: string)
    ensures title == FallbackTitle <==>
      analysisType !in {"explanation", "improvement", "bug_detection", "learning"}
  {
    if analysisType == "explanation" then "Code Explanation"
    else if analysisType == "improvement" then "Code Improvement Suggestions"
    else if analysisType == "bug_detection" then "Bug Detection Analysis"
    else if analysisType == "learning" then "Interactive Learning Session"
    else FallbackTitle
  }

  /** The canned text for a kind, reduced to its heading and the lines that
      interpolate a field. */
  function DemoContent(language: string, analysisType: string, userLevel: string): string {
    if analysisType == "explanation" then
      "\n**What this code actually does:**\n\nThis " + language
        + " code demonstrates fundamental programming concepts. Here's how it works:\n\n**For "
        + userLevel + " level**: This code is a great example of how to structure a solution to a common programming problem.\n"
    else if analysisType == "improvement" then
      "\n**Suggestions to improve your " + language + " code:**\n\n- Follow " + language + " naming conventions\n"
    else if analysisType == "bug_detection" then
      "\n**Potential Issues Found:**\n\n**1. Common " + language + " Pitfalls:**\n"
    else if analysisType == "learning" then
      "\n**Learning Path for " + language + ":**\n\n1. **Basic Syntax**: Understanding " + language
        + " syntax and structure\n- Read about " + language + " best practices\n"
    else FallbackContent
  }

  /** `generate_demo_response`: a reply for every input; a known kind gets
      its own title and a text that names the language, anything else the
      fixed fallback. */
  function GenerateDemoResponse(language: string, analysisType: string, code: string,
                                userLevel: string, specificQuestion: string): (r: DemoReply)
    ensures r.title == DemoTitle(analysisType)
    ensures r.title == FallbackTitle ==> r.content == FallbackContent
    ensures r.title != FallbackTitle ==> Contains(r.content, language)
  {
    ContentNamesLanguage(language, analysisType, userLevel);
    DemoReply(DemoTitle(analysisType), DemoContent(language, analysisType, userLevel))
  }

  /** Each known kind's text names the language. */
  lemma ContentNamesLanguage(language: string, analysisType: string, userLevel: string)
    ensures DemoTitle(analysisType) != FallbackTitle ==> Contains(DemoContent(language, analysisType, userLevel), language)
  {
    var content := DemoContent(language, analysisType, userLevel);
    if analysisType == "explanation" {
      assert OccursAt(content, language, |"\n**What this code actually does:**\n\nThis "|);
    } else if analysisType == "improvement" {
      assert OccursAt(content, language, |"\n**Suggestions to improve your "|);
    } else if analysisType == "bug_detection" {
      assert OccursAt(content, language, |"\n**Potential Issues Found:**\n\n**1. Common "|);
    } else if analysisType == "learning" {
      assert OccursAt(content, language, |"\n**Learning Path for "|);
    }
  }

  /** Distinct kinds get distinct titles. */
  lemma TitlesDistinct(a: string, b: string)
    requires DemoTitle(a) != FallbackTitle && DemoTitle(b) != FallbackTitle
    ensures DemoTitle(a) == DemoTitle(b) <==> a == b
  {
  }

  /** The code and the question never reach the reply. */
  lemma ReplyIgnoresCodeAndQuestion(language: string, analysisType: string, userLevel: string,
                                    code1: string, question1: string, code2: string, question2: string)
    ensures GenerateDemoResponse(language, analysisType, code1, userLevel, question1)
         == GenerateDemoResponse(language, analysisType, code2, userLevel, question2)
  {
  }

  // ---------------------------------------------------------------------------
  // The markdown rewriter
  // ---------------------------------------------------------------------------

  /** The number of `*` characters: what `text.count('*')` gives for a
      one-character pattern. */
  function Stars(s: string): nat {
    multiset(s)['*']
  }

  lemma ContainsChar(s: string, c: char)
    ensures Contains(s, [c]) <==> c in s
  {
    if c in s {
      var k :| 0 <= k < |s| && s[k] == c;
      OccursAtChar(s, c, k);
    } else if Contains(s, [c]) {
      AbsentCharExcludes(s, [c], c);
    }
  }

  /** Replacing the first occurrence of a starred pattern by a star-free
      text removes the pattern's stars. */
  lemma ReplaceFirstStars(s: string, pat: string, rep: string)
    requires '*' !in rep
    ensures Contains(s, pat) ==> Stars(ReplaceFirst(s, pat, rep)) + multiset(pat)['*'] == Stars(s)
    ensures !Contains(s, pat) ==> Stars(ReplaceFirst(s, pat, rep)) == Stars(s)
  {
    assert '*' !in multiset(rep);
    if Contains(s, pat) {
      var r := ReplaceFirst(s, pat, rep);
      assert (multiset(r) + multiset(pat))['*'] == (multiset(s) + multiset(rep))['*'];
    }
  }

  /** One bold pass: the first `**` opens, the next one closes. */
  function StrongPair(s: string): (r: string)
    ensures Stars(r) <= Stars(s)
    ensures Contains(s, "**") ==> Stars(r) + 2 <= Stars(s)
  {
    var t := ReplaceFirst(s, "**", "<strong>");
    ReplaceFirstStars(s, "**", "<strong>");
    ReplaceFirstStars(t, "**", "</strong>");
    assert multiset("**")['*'] == 2;
    ReplaceFirst(t, "**", "</strong>")
  }

  /** One italic pass: the first `*` opens, the next one closes. */
  function EmPair(s: string): (r: string)
    ensures Stars(r) <= Stars(s)
    ensures Stars(s) >= 2 ==> Stars(r) + 2 == Stars(s)
  {
    var t := ReplaceFirst(s, "*", "<em>");
    ReplaceFirstStars(s, "*", "<em>");
    ReplaceFirstStars(t, "*", "</em>");
    ContainsChar(s, '*');
    ContainsChar(t, '*');
    assert multiset("*")['*'] == 1;
    ReplaceFirst(t, "*", "</em>")
  }

  /** A bold pass pairs the first two `**` left to right: the first opens
      `<strong>`, the next closes it, and the text between and around is
      kept. */
  lemma StrongPairTags(a: string, b: string, c: string)
    requires '*' !in a && '*' !in b
    ensures StrongPair(a + "**" + b + "**" + c) == a + "<strong>" + b + "</strong>" + c
  {
    ReplaceFirstPair(a, "**", b, c, "<strong>", "</strong>");
  }

  /** An italic pass pairs the first two `*` the same way with `<em>`. */
  lemma EmPairTags(a: string, b: string, c: string)
    requires '*' !in a && '*' !in b
    ensures EmPair(a + "*" + b + "*" + c) == a + "<em>" + b + "</em>" + c
  {
    ReplaceFirstPair(a, "*", b, c, "<em>", "</em>");
  }

  /** Bold passes while a `**` remains. */
  function StrongRest(s: string): (r: string)
    ensures !Contains(r, "**")
    decreases Stars(s)
  {
    if Contains(s, "**") then StrongRest(StrongPair(s)) else s
  }

  /** Italic passes while at least two `*` remain. */
  function EmRest(s: string): (r: string)
    ensures Stars(r) <= 1
    decreases Stars(s)
  {
    ContainsChar(s, '*');
    if '*' in s && Stars(s) >= 2 then EmRest(EmPair(s)) else s
  }

  /** Paragraph breaks, then line breaks. */
  function Breaks(s: string): (r: string)
    ensures '\n' !in r
    ensures Stars(r) == Stars(s)
  {
    var t := ReplaceAll(s, "\n\n", "</p><p>");
    ReplaceAllKeepsCount(s, "\n\n", "</p><p>", '*');
    ReplaceAllKeepsCount(t, "\n", "<br>", '*');
    ReplaceAllRemoves(t, '\n', "<br>");
    ReplaceAll(t, "\n", "<br>")
  }

  /** Text without a line break is left as it is. */
  lemma BreaksPlain(s: string)
    requires '\n' !in s
    ensures Breaks(s) == s
  {
    AbsentCharExcludes(s, "\n\n", '\n');
    AbsentCharExcludes(s, "\n", '\n');
    ReplaceAllAbsent(s, "\n\n", "</p><p>");
    ReplaceAllAbsent(s, "\n", "<br>");
  }

  /** The first blank line, reading left to right, becomes a paragraph
      break. */
  lemma BreaksParagraph(a: string, b: string)
    requires '\n' !in a
    ensures Breaks(a + "\n\n" + b) == a + "</p><p>" + Breaks(b)
  {
    var p := ReplaceAll(b, "\n\n", "</p><p>");
    assert a + "\n\n" + b == a + ("\n\n" + b);
    ReplaceAllAfterFree(a, "\n\n" + b, "\n\n", "</p><p>");
    ReplaceAllAtStart("\n\n", b, "</p><p>");
    assert a + ("</p><p>" + p) == (a + "</p><p>") + p;
    ReplaceAllAfterFree(a + "</p><p>", p, "\n", "<br>");
  }

  /** The first single line break, reading left to right, becomes `<br>`. */
  lemma BreaksLine(a: string, b: string)
    requires '\n' !in a && !StartsWith(b, "\n")
    ensures Breaks(a + "\n" + b) == a + "<br>" + Breaks(b)
  {
    var p := ReplaceAll(b, "\n\n", "</p><p>");
    assert a + "\n" + b == a + ("\n" + b);
    ReplaceAllAfterFree(a, "\n" + b, "\n\n", "</p><p>");
    assert ReplaceAll("\n" + b, "\n\n", "</p><p>") == "\n" + p by {
      var s := "\n" + b;
      if |s| < 2 {
        assert b == [];
      } else {
        assert !StartsWith(s, "\n\n") by {
          assert s[1] == b[0];
          assert b[..1] != "\n";
        }
        assert s[1..] == b;
      }
    }
    assert a + ("\n" + p) == a + "\n" + p;
    ReplaceAllAfterFree(a, "\n" + p, "\n", "<br>");
    ReplaceAllAtStart("\n", p, "<br>");
    assert a + ("<br>" + ReplaceAll(p, "\n", "<br>")) == a + "<br>" + ReplaceAll(p, "\n", "<br>");
  }

  /** The paragraph wrapper, unless the text already opens one. */
  function Wrap(s: string): (r: string)
    ensures StartsWith(r, "<p>")
    ensures StartsWith(s, "<p>") ==> r == s
    ensures !StartsWith(s, "<p>") ==> r == "<p>" + s + "</p>"
  {
    if StartsWith(s, "<p>") then s
    else
      assert ("<p>" + s + "</p>")[..3] == "<p>";
      "<p>" + s + "</p>"
  }

  /** A `**` is two stars. */
  lemma DoubleIsTwoStars(s: string)
    ensures Contains(s, "**") ==> Stars(s) >= 2
  {
    if Contains(s, "**") {
      var k: nat :| k <= |s| && OccursAt(s, "**", k);
      assert s == s[..k] + "**" + s[k + 2..];
      assert multiset(s) == multiset(s[..k]) + multiset("**") + multiset(s[k + 2..]);
    }
  }

  /** Wrapping adds no star. */
  lemma WrapKeepsStars(s: string)
    ensures Stars(Wrap(s)) == Stars(s)
  {
    if !StartsWith(s, "<p>") {
      assert multiset(Wrap(s)) == multiset("<p>") + multiset(s) + multiset("</p>");
    }
  }

  /** The rewriter's result, phase by phase: no `**` and at most one `*`
      survive, no line break survives, and the text opens a paragraph. */
  function MarkdownHtml(text: string): (html: string)
    ensures !Contains(html, "**")
    ensures Stars(html) <= 1
    ensures '\n' !in html
    ensures StartsWith(html, "<p>")
  {
    var t := Breaks(EmRest(EmPair(StrongRest(StrongPair(text)))));
    WrappedShape(t);
    Wrap(t)
  }

  /** Wrapping text with at most one star and no line break keeps both, and
      so leaves no `**`. */
  lemma WrappedShape(t: string)
    requires Stars(t) <= 1 && '\n' !in t
    ensures !Contains(Wrap(t), "**") && Stars(Wrap(t)) <= 1
    ensures '\n' !in Wrap(t) && StartsWith(Wrap(t), "<p>")
  {
    WrapKeepsStars(t);
    DoubleIsTwoStars(Wrap(t));
  }

  /** `markdown_to_html`: the two replacement loops, each ending once a pass
      has nothing left to pair, then the breaks and the wrapper. */
  method MarkdownToHtml(text: string) returns (html: string)
    ensures html == MarkdownHtml(text)
    ensures !Contains(html, "**") && Stars(html) <= 1
    ensures '\n' !in html && StartsWith(html, "<p>")
  {
    var t := StrongPair(text);
    while Contains(t, "**")
      invariant StrongRest(t) == StrongRest(StrongPair(text))
      decreases Stars(t)
    {
      t := StrongPair(t);
    }
    t := EmPair(t);
    ContainsChar(t, '*');
    while '*' in t && Stars(t) >= 2
      invariant EmRest(t) == EmRest(EmPair(StrongRest(StrongPair(text))))
      decreases Stars(t)
    {
      t := EmPair(t);
      ContainsChar(t, '*');
    }
    html := Wrap(Breaks(t));
  }

  /** Text without stars or line breaks is only wrapped. */
  lemma PlainTextWrapped(text: string)
    requires '*' !in text && '\n' !in text && !StartsWith(text, "<p>")
    ensures MarkdownHtml(text) == "<p>" + text + "</p>"
  {
    ContainsChar(text, '*');
    AbsentCharExcludes(text, "**", '*');
    AbsentCharExcludes(text, "\n\n", '\n');
    AbsentCharExcludes(text, "\n", '\n');
    ReplaceAllAbsent(text, "\n\n", "</p><p>");
    ReplaceAllAbsent(text, "\n", "<br>");
  }

  // ---------------------------------------------------------------------------
  // The endpoint
  // ---------------------------------------------------------------------------

  /** What the endpoint renders: the 200 page with a title and the rewritten
      text, or the 500 error page with the message. */
  datatype ApiReply = ResultPage(title: string, html: string) | ErrorPage(message: string)

  /** The result page for a reply: its title over its rewritten text. */
  method RenderPage(demo: DemoReply) returns (reply: ApiReply)
    ensures reply.ResultPage? && reply.title == demo.title
    ensures reply.html == MarkdownHtml(demo.content)
    ensures '\n' !in reply.html && StartsWith(reply.html, "<p>")
  {
    var html := MarkdownToHtml(demo.content);
    reply := ResultPage(demo.title, html);
  }

  /** The result page, stated by its shape only. `RenderPage` states the
      exact text, but that equation would make the endpoint's proof unroll
      the rewriter over the literal canned texts; this boundary keeps it
      to the shape. */
  method RenderShape(demo: DemoReply) returns (reply: ApiReply)
    ensures reply.ResultPage? && reply.title == demo.title
    ensures '\n' !in reply.html && StartsWith(reply.html, "<p>")
  {
    reply := RenderPage(demo);
  }

  /** `POST /api/analyze` on a decoded query: a form field that raises
      yields the error page; otherwise the page for the canned reply. The
      page's text is stated by its shape here and exactly by `RenderPage`,
      which keeps the canned texts out of the rewriter's proof. */
  method ApiAnalyze(query: Query) returns (reply: ApiReply)
    ensures ReadForm(query).Failure? <==> reply.ErrorPage?
    ensures reply.ErrorPage? ==> reply.message == IndexErrorMessage
    ensures FromParseQs(query) ==> reply.ResultPage?
    ensures reply.ResultPage? ==>
      && reply.title == DemoTitle(ReadForm(query).value.analysisType)
      && '\n' !in reply.html && StartsWith(reply.html, "<p>")
  {
    var form := ReadForm(query);
    if form.Failure? {
      reply := ErrorPage(form.error);
      return;
    }
    var f := form.value;
    var demo := GenerateDemoResponse(f.language, f.analysisType, f.code, f.userLevel, f.specificQuestion);
    reply := RenderShape(demo);
  }
}
