/** The demo server (`demo_app.py`): the same input gate as the real one,
    without an analyzer, and a canned analysis generator whose only logic is
    which canned text to pick and a keyword walk over the first ten lines of
    the code. The long canned texts are reduced to their opening line. */
module DemoApp {
  import opened Wrappers
  import opened Text
  import opened Analysis
  import opened WebApp

  const DemoLanguages: seq<string> :=
    ["python", "javascript", "java", "cpp", "c", "csharp",
     "go", "rust", "php", "ruby", "swift", "kotlin", "typescript"]

  const DemoAnalysisTypes: seq<string> := ["explanation", "improvement", "bug_detection", "learning"]

  /** The demo accepts the same languages and kinds as the real analyzer. */
  lemma DemoListsMatchAnalyzer()
    ensures DemoLanguages == SupportedLanguages
    ensures DemoAnalysisTypes == AnalysisTypeValues()
  {
  }

  /** The demo's gate: blank code, then an unsupported language, then an
      unknown kind, each a 400; there is no analyzer to be missing. */
  function DemoGate(form: AnalyzeForm): (r: Result<AnalyzeForm, HttpError>)
    ensures r.Success? ==> r.value == form
  {
    if PyStrip(form.code) == "" then Failure(HttpError(400, "Code cannot be empty"))
    else if form.language !in DemoLanguages then Failure(HttpError(400, "Unsupported language: " + form.language))
    else if form.analysisType !in DemoAnalysisTypes then
      Failure(HttpError(400, "Invalid analysis type: " + form.analysisType))
    else Success(form)
  }

  /** The demo rejects exactly what the real server rejects once its
      analyzer is up, with the same status and message. */
  lemma DemoGateMatchesApp(form: AnalyzeForm)
    ensures DemoGate(form).Success? <==> BuildAnalysisRequest(true, form).Success?
    ensures DemoGate(form).Failure? ==> DemoGate(form).error == BuildAnalysisRequest(true, form).error
  {
    DemoListsMatchAnalyzer();
  }

  // ---------------------------------------------------------------------------
  // The line walk of the generic explanation
  // ---------------------------------------------------------------------------

  /** The number a string of decimal digits spells, read left to right. */
  function DigitsValue(s: string): nat
    requires forall k :: 0 <= k < |s| ==> '0' <= s[k] <= '9'
  {
    if |s| == 0 then 0 else DigitsValue(s[..|s| - 1]) * 10 + (s[|s| - 1] as int - '0' as int)
  }

  /** The decimal digits of `n`, as `str(n)` writes them: they spell `n`,
      with no leading zero. */
  function Decimal(n: nat): (r: string)
    ensures |r| > 0
    ensures forall k :: 0 <= k < |r| ==> '0' <= r[k] <= '9'
    ensures DigitsValue(r) == n
    ensures r[0] == '0' ==> r == "0"
    decreases n
  {
    if n < 10 then [('0' as int + n) as char]
    else
      var front := Decimal(n / 10);
      var last := Decimal(n % 10);
      assert (front + last)[..|front + last| - 1] == front;
      front + last
  }

  /** What a code line is taken to do. */
  datatype LineTag = DefinesFunction | Conditional | Loop | Returns | Assigns | Outputs

  /** A row of the priority table: the tag applies when the line contains
      one of `anyOf` and none of `noneOf`. */
  datatype Cue = Cue(tag: LineTag, anyOf: seq<string>, noneOf: seq<string>)

  /** The keyword table, highest priority first. */
  const Cues: seq<Cue> := [
    Cue(DefinesFunction, ["def ", "function "], []),
    Cue(Conditional, ["if "], []),
    Cue(Loop, ["for ", "while "], []),
    Cue(Returns, ["return "], []),
    Cue(Assigns, ["="], ["=="]),
    Cue(Outputs, ["print(", "console.log("], [])]

  predicate ContainsAny(line: string, pats: seq<string>) {
    |pats| > 0 && (Contains(line, pats[0]) || ContainsAny(line, pats[1..]))
  }

  predicate CueMatches(cue: Cue, line: string) {
    ContainsAny(line, cue.anyOf) && !ContainsAny(line, cue.noneOf)
  }

  /** The tag of the first table row that matches. */
  function FirstMatch(cues: seq<Cue>, line: string): (r: Option<LineTag>)
    ensures r.Some? <==> exists i :: 0 <= i < |cues| && CueMatches(cues[i], line)
  {
    if |cues| == 0 then None
    else if CueMatches(cues[0], line) then Some(cues[0].tag)
    else
      var r := FirstMatch(cues[1..], line);
      assert forall i :: 1 <= i < |cues| ==> cues[i] == cues[1..][i - 1];
      r
  }

  /** A stripped line the walk passes over: blank or a comment. */
  predicate Skipped(line: string) {
    line == "" || StartsWith(line, "#") || StartsWith(line, "//")
  }

  /** The walk's classification of a stripped line, as the `if`/`elif` chain
      tests it. */
  function ClassifyLine(line: string): Option<LineTag> {
    if Skipped(line) then None
    else if Contains(line, "def ") || Contains(line, "function ") then Some(DefinesFunction)
    else if Contains(line, "if ") then Some(Conditional)
    else if Contains(line, "for ") || Contains(line, "while ") then Some(Loop)
    else if Contains(line, "return ") then Some(Returns)
    else if Contains(line, "=") && !Contains(line, "==") then Some(Assigns)
    else if Contains(line, "print(") || Contains(line, "console.log(") then Some(Outputs)
    else None
  }

  /** The chain is the priority table: a line that is not skipped gets the
      tag of the first row it matches, and a skipped line gets none. */
  lemma ClassifyFollowsCues(line: string)
    ensures Skipped(line) ==> ClassifyLine(line).None?
    ensures !Skipped(line) ==> ClassifyLine(line) == FirstMatch(Cues, line)
  {
    AnyOfTwo(line, "def ", "function ");
    AnyOfOne(line, "if ");
    AnyOfTwo(line, "for ", "while ");
    AnyOfOne(line, "return ");
    AnyOfOne(line, "=");
    AnyOfOne(line, "==");
    AnyOfTwo(line, "print(", "console.log(");
    assert Cues[6..] == [];
    FirstMatchStep(Cues, line, 5);
    FirstMatchStep(Cues, line, 4);
    FirstMatchStep(Cues, line, 3);
    FirstMatchStep(Cues, line, 2);
    FirstMatchStep(Cues, line, 1);
    FirstMatchStep(Cues, line, 0);
    assert Cues[0..] == Cues;
  }

  lemma AnyOfOne(line: string, a: string)
    ensures ContainsAny(line, [a]) <==> Contains(line, a)
  {
    assert [a][1..] == [];
  }

  lemma AnyOfTwo(line: string, a: string, b: string)
    ensures ContainsAny(line, [a, b]) <==> Contains(line, a) || Contains(line, b)
  {
    assert [a, b][1..] == [b];
    AnyOfOne(line, b);
  }

  /** The table is searched row by row. */
  lemma FirstMatchStep(cues: seq<Cue>, line: string, k: nat)
    requires k < |cues|
    ensures FirstMatch(cues[k..], line) ==
      if CueMatches(cues[k], line) then Some(cues[k].tag) else FirstMatch(cues[k + 1..], line)
  {
    assert cues[k..][1..] == cues[k + 1..];
  }

  /** The name a definition line gives its function: the last word before
      the first `(`; `None` where Python's `split()[-1]` raises. */
  function FunctionName(line: string): Option<string> {
    LastWord(Split(line, '(')[0])
  }

  /** The variable an assignment line names: the text before the first `=`,
      stripped. */
  function VariableName(line: string): string {
    PyStrip(Split(line, '=')[0])
  }

  function Description(tag: LineTag, line: string, name: string): string {
    match tag
    case DefinesFunction => "Defines function '" + name + "' - this will contain the main logic"
    case Conditional => "Conditional check - decides what to do based on a condition"
    case Loop => "Loop structure - repeats code multiple times"
    case Returns => "Returns a value - sends result back to whoever called this function"
    case Assigns => "Assigns value to variable '" + VariableName(line) + "'"
    case Outputs => "Outputs information to the screen/console"
  }

  function Entry(number: nat, description: string): string {
    "**Line " + Decimal(number) + ":** " + description + "\n"
  }

  /** A definition line with no word before its first `(`. */
  predicate NamelessDefinition(raw: string) {
    var line := PyStrip(raw);
    ClassifyLine(line) == Some(DefinesFunction) && FunctionName(line).None?
  }

  /** One line's entry as the source computes it: raises `IndexError` on a
      nameless definition. */
  function LineNoteAsWritten(number: nat, raw: string): (r: Result<string, string>)
    ensures r.Failure? <==> NamelessDefinition(raw)
    ensures r.Failure? ==> r.error == IndexErrorMessage
  {
    var line := PyStrip(raw);
    match ClassifyLine(line)
    case None => Success("")
    case Some(tag) =>
      if tag != DefinesFunction then Success(Entry(number, Description(tag, line, "")))
      else match FunctionName(line)
        case None => Failure(IndexErrorMessage)
        case Some(name) => Success(Entry(number, Description(tag, line, name)))
  }

  /** One line's entry, a nameless definition described with an empty name. */
  function LineNote(number: nat, raw: string): (r: string)
    ensures Skipped(PyStrip(raw)) ==> r == ""
  {
    var line := PyStrip(raw);
    match ClassifyLine(line)
    case None => ""
    case Some(tag) => Entry(number, Description(tag, line, FunctionName(line).GetOr("")))
  }

  /** The corrected entry is the source's wherever the source does not
      raise. */
  lemma LineNoteAgrees(number: nat, raw: string)
    ensures LineNoteAsWritten(number, raw).Success? ==> LineNoteAsWritten(number, raw).value == LineNote(number, raw)
  {
  }

  /** The entries of `lines`, numbered from `number`, each rendered by
      `note`, as the source collects them: the first line that raises aborts
      the walk. */
  function WalkAsWritten(lines: seq<string>, number: nat, note: (nat, string) -> Result<string, string>)
    : Result<string, string>
    decreases |lines|
  {
    if |lines| == 0 then Success("")
    else
      match note(number, lines[0])
      case Failure(e) => Failure(e)
      case Success(first) =>
        match WalkAsWritten(lines[1..], number + 1, note)
        case Failure(e) => Failure(e)
        case Success(rest) => Success(first + rest)
  }

  /** The entries of `lines`, numbered from `number`, each rendered by
      `note`. */
  function Walk(lines: seq<string>, number: nat, note: (nat, string) -> string): string
    decreases |lines|
  {
    if |lines| == 0 then "" else note(number, lines[0]) + Walk(lines[1..], number + 1, note)
  }

  /** A walk whose renderer may raise fails exactly when some line's entry
      raises, and otherwise gives the walk of any renderer that agrees with
      it where it does not raise. */
  lemma {:induction false} WalkAgrees(lines: seq<string>, number: nat,
                                      asWritten: (nat, string) -> Result<string, string>,
                                      corrected: (nat, string) -> string, message: string)
    requires forall n: nat, raw: string :: asWritten(n, raw).Success? ==> asWritten(n, raw).value == corrected(n, raw)
    requires forall n: nat, raw: string :: asWritten(n, raw).Failure? ==> asWritten(n, raw).error == message
    ensures WalkAsWritten(lines, number, asWritten).Failure? <==>
      exists k :: 0 <= k < |lines| && asWritten(number + k, lines[k]).Failure?
    ensures WalkAsWritten(lines, number, asWritten).Success? ==>
      WalkAsWritten(lines, number, asWritten).value == Walk(lines, number, corrected)
    ensures WalkAsWritten(lines, number, asWritten).Failure? ==> WalkAsWritten(lines, number, asWritten).error == message
    decreases |lines|
  {
    if |lines| > 0 {
      WalkAgrees(lines[1..], number + 1, asWritten, corrected, message);
      assert forall k :: 1 <= k < |lines| ==> lines[k] == lines[1..][k - 1] && number + k == number + 1 + (k - 1);
    }
  }

  /** The generic walk raises exactly when one of the lines is a nameless
      definition; otherwise it produces the corrected walk's text. */
  lemma WalkAsWrittenAgrees(lines: seq<string>, number: nat)
    ensures WalkAsWritten(lines, number, LineNoteAsWritten).Failure? <==>
      exists k :: 0 <= k < |lines| && NamelessDefinition(lines[k])
    ensures WalkAsWritten(lines, number, LineNoteAsWritten).Success? ==>
      WalkAsWritten(lines, number, LineNoteAsWritten).value == Walk(lines, number, LineNote)
    ensures WalkAsWritten(lines, number, LineNoteAsWritten).Failure? ==>
      WalkAsWritten(lines, number, LineNoteAsWritten).error == IndexErrorMessage
  {
    forall n: nat, raw: string
      ensures LineNoteAsWritten(n, raw).Success? ==> LineNoteAsWritten(n, raw).value == LineNote(n, raw)
    {
      LineNoteAgrees(n, raw);
    }
    WalkAgrees(lines, number, LineNoteAsWritten, LineNote, IndexErrorMessage);
  }

  /** Lines are numbered by position: the walk over `a + b` is the walk over
      `a` followed by the walk over `b`, numbered on from where `a` ends. */
  lemma {:induction false} WalkAppend(a: seq<string>, b: seq<string>, number: nat, note: (nat, string) -> string)
    ensures Walk(a + b, number, note) == Walk(a, number, note) + Walk(b, number + |a|, note)
    decreases |a|
  {
    if |a| == 0 {
      assert a + b == b;
    } else {
      WalkAppend(a[1..], b, number + 1, note);
      assert (a + b)[1..] == a[1..] + b;
    }
  }

  /** Blank and comment lines contribute nothing. */
  lemma {:induction false} SkippedLinesSilent(lines: seq<string>, number: nat)
    requires forall k :: 0 <= k < |lines| ==> Skipped(PyStrip(lines[k]))
    ensures Walk(lines, number, LineNote) == ""
    decreases |lines|
  {
    if |lines| > 0 {
      SkippedLinesSilent(lines[1..], number + 1);
    }
  }

  /** The opening line of a JavaScript immediately-invoked function
      expression. */
  const Iife: string := "(function () {"

  lemma IifeStripped()
    ensures PyStrip(Iife) == Iife
  {
    assert TrimStart(Iife, PyWhitespace) == Iife;
    assert TrimEnd(Iife, PyWhitespace) == Iife;
  }

  lemma IifeIsDefinition()
    ensures ClassifyLine(Iife) == Some(DefinesFunction)
  {
    assert OccursAt(Iife, "function ", 1);
    assert Iife[..1][0] != "#"[0];
    assert Iife[..2][0] != "//"[0];
  }

  lemma IifeNameless()
    ensures FunctionName(Iife).None?
  {
    FindSeparator("", '(', Iife[1..]);
    assert Iife == "" + ['('] + Iife[1..];
  }

  /** Such a line is a nameless definition: nothing precedes its first `(`,
      so the source's walk raises on it. */
  lemma NamelessDefinitionFails()
    ensures NamelessDefinition(Iife)
    ensures WalkAsWritten([Iife], 1, LineNoteAsWritten) == Failure(IndexErrorMessage)
  {
    IifeStripped();
    IifeIsDefinition();
    IifeNameless();
  }

  // ---------------------------------------------------------------------------
  // Choosing the canned texts
  // ---------------------------------------------------------------------------

  /** Which canned text a piece of code gets. */
  datatype Topic = Fibonacci | Sorting | Account | General

  /** The explanation's choice, first match on the lower-cased code. */
  function ExplanationTopic(code: string): Topic {
    var lower := Lower(code);
    if Contains(lower, "fibonacci") then Fibonacci
    else if Contains(lower, "sort") || Contains(lower, "bubble") then Sorting
    else if Contains(lower, "class") && Contains(lower, "account") then Account
    else General
  }

  /** The explanation suggestions' choice: a different key order, without
      "bubble" and without "class". */
  function SuggestionTopic(code: string): Topic {
    var lower := Lower(code);
    if Contains(lower, "fibonacci") then Fibonacci
    else if Contains(lower, "sort") then Sorting
    else if Contains(lower, "account") then Account
    else General
  }

  /** The two choices part ways exactly on code that mentions neither
      "fibonacci" nor "sort" but does mention "bubble", or mentions "account"
      without "class". */
  lemma TopicsDisagree(code: string)
    ensures ExplanationTopic(code) != SuggestionTopic(code) <==>
      var lower := Lower(code);
      && !Contains(lower, "fibonacci")
      && !Contains(lower, "sort")
      && (Contains(lower, "bubble") || (Contains(lower, "account") && !Contains(lower, "class")))
  {
  }

  const FibonacciExplanation: string := "**What this code actually does:**\n\n**The `fibonacci(n)` function:**"
  const SortingExplanation: string := "**What this code actually does:**\n\n**The `bubbleSort(arr)` function:**"
  const AccountExplanation: string := "**What this code actually does:**\n\n**The `BankAccount` class:**"

  function GenericIntro(language: string): string {
    "**What this code actually does:**\n\n**Code Analysis:**\nLooking at your " + language
      + " code, here's what's happening step by step:\n\n"
  }

  function OverallPurpose(language: string): string {
    "\n**Overall Purpose:** This " + language
      + " code appears to implement specific functionality that processes data and produces results."
  }

  /** The lines the walk sees: the stripped code split on line breaks. */
  function CodeLines(code: string): seq<string> {
    Split(PyStrip(code), '\n')
  }

  /** The generic explanation: the introduction, the walk over at most the
      first ten lines numbered from 1, and the closing purpose sentence. */
  function GenericExplanation(code: string, language: string): (r: string)
    ensures StartsWith(r, GenericIntro(language))
    ensures EndsWith(r, OverallPurpose(language))
  {
    var walk := Walk(Take(CodeLines(code), 10), 1, LineNote);
    Framed(GenericIntro(language), walk, OverallPurpose(language));
    GenericIntro(language) + walk + OverallPurpose(language)
  }

  /** Only the first ten lines matter: code that agrees on them gets the
      same generic explanation whatever follows. */
  lemma GenericSeesTenLines(code1: string, code2: string, language: string)
    requires Take(CodeLines(code1), 10) == Take(CodeLines(code2), 10)
    ensures GenericExplanation(code1, language) == GenericExplanation(code2, language)
  {
  }

  function ExplanationText(c: Catalogue, code: string, language: string): string {
    match ExplanationTopic(code)
    case Fibonacci => c.fibonacciExplanation
    case Sorting => c.sortingExplanation
    case Account => c.accountExplanation
    case General => GenericExplanation(code, language)
  }

  const FibonacciSuggestions: seq<string> := [
    "Add memoization to avoid recalculating the same values (fibonacci(5) calculates fibonacci(3) multiple times)",
    "Include input validation: check if n is negative and handle appropriately",
    "Add a docstring explaining the mathematical sequence: F(n) = F(n-1) + F(n-2)",
    "Consider iterative approach for better performance with large numbers",
    "Add type hints: def fibonacci(n: int) -> int"]

  const SortingSuggestions: seq<string> := [
    "The algorithm is O(n²) - consider quicksort or mergesort for better performance on large arrays",
    "Add input validation to ensure arr is actually an array",
    "The early termination with 'swapped' flag is good - keeps it!",
    "Consider adding a parameter to sort in descending order: bubbleSort(arr, reverse=False)",
    "Add JSDoc comments to explain the algorithm complexity"]

  const AccountSuggestions: seq<string> := [
    "Add account number generation for unique identification",
    "Implement interest calculation method for savings accounts",
    "Add transaction timestamps to history entries",
    "Consider adding account type (checking, savings, etc.)",
    "Implement overdraft protection with fees"]

  /** The general suggestions after the one that names the language. */
  const GeneralSuggestionsTail: seq<string> := [
    "Include input validation for user-provided data",
    "Add logging to track function execution flow",
    "Consider breaking complex functions into smaller, focused methods",
    "Add comprehensive unit tests for each function"]

  function GeneralSuggestions(c: Catalogue, language: string): seq<string> {
    ["Add specific error handling for the operations in your " + language + " code"] + c.generalSuggestionsTail
  }

  function ExplanationSuggestions(c: Catalogue, code: string, language: string): (r: seq<string>)
    requires Complete(c)
    ensures |r| == MaxSuggestions
  {
    match SuggestionTopic(code)
    case Fibonacci => c.fibonacciSuggestions
    case Sorting => c.sortingSuggestions
    case Account => c.accountSuggestions
    case General => GeneralSuggestions(c, language)
  }

  function ExplanationExamples(language: string): (r: seq<string>)
    ensures |r| == MaxExamples
  {
    ["# Example of improved " + language + " code with better structure",
     "# Example of error handling in " + language,
     "# Example of documentation best practices"]
  }

  const ImprovementSuggestions: seq<string> := [
    "Optimize algorithm complexity from O(n²) to O(n log n)",
    "Use more descriptive variable names",
    "Add input validation and error handling",
    "Implement proper logging for debugging",
    "Consider using design patterns for better structure"]

  const ImprovementExamples: seq<string> := [
    "# Optimized version with better algorithm",
    "# Refactored code with improved structure",
    "# Example with proper error handling"]

  const BugSuggestions: seq<string> := [
    "Add bounds checking for array/list access",
    "Initialize all variables before use",
    "Add try-catch blocks for error handling",
    "Validate all user inputs",
    "Use safe string operations to prevent injection"]

  const BugExamples: seq<string> := [
    "# Fixed version with proper bounds checking",
    "# Example with comprehensive error handling",
    "# Secure implementation with input validation"]

  /** The learning suggestions as the source builds them: the third and
      fourth entries lack the `f` prefix, so they keep the placeholder
      literally. */
  function LearningSuggestionsAsWritten(language: string): seq<string> {
    ["Practice more " + language + " syntax with similar examples",
     "Try modifying the code to see how it behaves",
     "Read the official {language} documentation",
     "Join online {language} learning communities",
     "Work on small projects to apply these concepts"]
  }

  /** The learning suggestions with the placeholder filled in. */
  function LearningSuggestions(language: string): (r: seq<string>)
    ensures |r| == 5
    ensures Contains(r[0], language) && Contains(r[2], language) && Contains(r[3], language)
  {
    var r := [
      "Practice more " + language + " syntax with similar examples",
      "Try modifying the code to see how it behaves",
      "Read the official " + language + " documentation",
      "Join online " + language + " learning communities",
      "Work on small projects to apply these concepts"];
    assert OccursAt(r[0], language, |"Practice more "|);
    assert OccursAt(r[2], language, |"Read the official "|);
    assert OccursAt(r[3], language, |"Join online "|);
    r
  }

  /** The placeholder reaches the user as literal text: the as-written
      entries are the same whatever the language, and differ from the
      corrected ones for Python. */
  lemma LiteralPlaceholder(language: string)
    ensures LearningSuggestionsAsWritten(language)[2..4] == LearningSuggestionsAsWritten("python")[2..4]
    ensures LearningSuggestionsAsWritten("python")[2] != LearningSuggestions("python")[2]
    ensures LearningSuggestionsAsWritten("python")[3] != LearningSuggestions("python")[3]
  {
    assert |LearningSuggestionsAsWritten("python")[2]| != |LearningSuggestions("python")[2]|;
    assert |LearningSuggestionsAsWritten("python")[3]| != |LearningSuggestions("python")[3]|;
  }

  const LearningExamplesTail: seq<string> := [
    "# Intermediate challenge building on this concept",
    "# Advanced project idea using these principles"]

  function LearningExamples(c: Catalogue, language: string): seq<string> {
    ["# Beginner-friendly " + language + " exercise"] + c.learningExamplesTail
  }

  /** The canned texts the generator picks from. The generator is stated
      over any catalogue whose lists have the lengths the demo's own have;
      `Canned` is the demo's. Keeping the long texts out of the generator's
      definition keeps them out of the proofs about it. */
  datatype Catalogue = Catalogue(
    fibonacciExplanation: string, sortingExplanation: string, accountExplanation: string,
    fibonacciSuggestions: seq<string>, sortingSuggestions: seq<string>, accountSuggestions: seq<string>,
    generalSuggestionsTail: seq<string>,
    improvementSuggestions: seq<string>, improvementExamples: seq<string>,
    bugSuggestions: seq<string>, bugExamples: seq<string>,
    learningExamplesTail: seq<string>)

  /** Every kind gets five suggestions and three examples. */
  predicate Complete(c: Catalogue) {
    && |c.fibonacciSuggestions| == MaxSuggestions
    && |c.sortingSuggestions| == MaxSuggestions
    && |c.accountSuggestions| == MaxSuggestions
    && |c.generalSuggestionsTail| == MaxSuggestions - 1
    && |c.improvementSuggestions| == MaxSuggestions
    && |c.improvementExamples| == MaxExamples
    && |c.bugSuggestions| == MaxSuggestions
    && |c.bugExamples| == MaxExamples
    && |c.learningExamplesTail| == MaxExamples - 1
  }

  /** The demo's own canned texts. */
  const Canned: Catalogue := Catalogue(
    FibonacciExplanation, SortingExplanation, AccountExplanation,
    FibonacciSuggestions, SortingSuggestions, AccountSuggestions, GeneralSuggestionsTail,
    ImprovementSuggestions, ImprovementExamples, BugSuggestions, BugExamples, LearningExamplesTail)

  lemma CannedComplete()
    ensures Complete(Canned)
  {
  }

  function ImprovementAnalysis(language: string): string {
    "Code Improvement Analysis for " + language + ":"
  }

  function BugAnalysis(language: string): string {
    "Bug Detection Analysis for " + language + ":"
  }

  function LearningAnalysis(language: string): string {
    "Learning Guide for " + language + ":"
  }

  function ExecutionNote(language: string): Option<string> {
    if language == "python" then Some("Demo mode - Code execution simulated for " + language) else None
  }

  /** The analysis text for each kind. */
  function MockText(c: Catalogue, code: string, language: string, analysisType: string): string {
    if analysisType == "explanation" then ExplanationText(c, code, language)
    else if analysisType == "improvement" then ImprovementAnalysis(language)
    else if analysisType == "bug_detection" then BugAnalysis(language)
    else LearningAnalysis(language)
  }

  function MockSuggestions(c: Catalogue, code: string, language: string, analysisType: string): (r: seq<string>)
    requires Complete(c)
    ensures |r| == MaxSuggestions
  {
    if analysisType == "explanation" then ExplanationSuggestions(c, code, language)
    else if analysisType == "improvement" then c.improvementSuggestions
    else if analysisType == "bug_detection" then c.bugSuggestions
    else LearningSuggestions(language)
  }

  function MockExamples(c: Catalogue, language: string, analysisType: string): (r: seq<string>)
    requires Complete(c)
    ensures |r| == MaxExamples
  {
    if analysisType == "explanation" then ExplanationExamples(language)
    else if analysisType == "improvement" then c.improvementExamples
    else if analysisType == "bug_detection" then c.bugExamples
    else LearningExamples(c, language)
  }

  /** `generate_mock_analysis`, with the generic walk and the learning
      suggestions corrected. The user level is accepted and ignored. */
  function MockAnalysis(c: Catalogue, code: string, language: string, analysisType: string, userLevel: string)
    : (r: CodeAnalysisResponse)
    requires Complete(c)
    ensures |r.suggestions| == MaxSuggestions && |r.examples| == MaxExamples
    ensures r.executionResult.Some? <==> language == "python"
    ensures r.error.None?
    ensures analysisType == "explanation" && ExplanationTopic(code) == General ==>
      EndsWith(r.analysis, OverallPurpose(language))
  {
    CodeAnalysisResponse(MockText(c, code, language, analysisType), MockSuggestions(c, code, language, analysisType),
                         MockExamples(c, language, analysisType), ExecutionNote(language), None)
  }

  /** The analysis does not depend on the user level. */
  lemma MockIgnoresLevel(c: Catalogue, code: string, language: string, analysisType: string,
                         level1: string, level2: string)
    requires Complete(c)
    ensures MockAnalysis(c, code, language, analysisType, level1) == MockAnalysis(c, code, language, analysisType, level2)
  {
  }

  /** The demo's `POST /analyze` with the generator corrected: the gate,
      then the canned analysis with the corrected walk and learning
      suggestions. The route as written is `DemoAnalyzeAsWritten`. */
  function DemoAnalyze(c: Catalogue, form: AnalyzeForm): (r: Result<CodeAnalysisResponse, HttpError>)
    requires Complete(c)
    ensures r.Failure? <==> DemoGate(form).Failure?
    ensures r.Failure? ==> r.error.status == 400
    ensures r.Success? ==> |r.value.suggestions| == MaxSuggestions && |r.value.examples| == MaxExamples && r.value.error.None?
  {
    match DemoGate(form)
    case Failure(e) => Failure(e)
    case Success(f) => Success(MockAnalysis(c, f.code, f.language, f.analysisType, f.userLevel))
  }

  /** Some line among the first ten of `code` is a nameless definition. */
  predicate WalkRaises(code: string) {
    var lines := Take(CodeLines(code), 10);
    exists k :: 0 <= k < |lines| && NamelessDefinition(lines[k])
  }

  /** The generator's last branch, an `else` taken by every kind other than
      the first three, not only by "learning". */
  predicate LearningBranch(analysisType: string) {
    analysisType != "explanation" && analysisType != "improvement" && analysisType != "bug_detection"
  }

  /** `generate_mock_analysis` as written, where it does not raise: the
      suggestions of the last branch keep their literal placeholders. */
  function MockAnalysisAsWritten(c: Catalogue, code: string, language: string, analysisType: string,
                                 userLevel: string)
    : (r: CodeAnalysisResponse)
    requires Complete(c)
    ensures !LearningBranch(analysisType) ==> r == MockAnalysis(c, code, language, analysisType, userLevel)
    ensures r.suggestions == (if LearningBranch(analysisType) then LearningSuggestionsAsWritten(language)
                              else MockAnalysis(c, code, language, analysisType, userLevel).suggestions)
    ensures r == MockAnalysis(c, code, language, analysisType, userLevel).(suggestions := r.suggestions)
  {
    var corrected := MockAnalysis(c, code, language, analysisType, userLevel);
    if LearningBranch(analysisType) then corrected.(suggestions := LearningSuggestionsAsWritten(language))
    else corrected
  }

  /** `generate_mock_analysis` as written: only the generic explanation's
      walk can raise, and then with the index error. */
  function GenerateAsWritten(c: Catalogue, code: string, language: string, analysisType: string,
                             userLevel: string)
    : (r: Result<CodeAnalysisResponse, string>)
    requires Complete(c)
    ensures r.Failure? <==> analysisType == "explanation" && ExplanationTopic(code) == General && WalkRaises(code)
    ensures r.Failure? ==> r.error == IndexErrorMessage
    ensures r.Success? ==> r.value == MockAnalysisAsWritten(c, code, language, analysisType, userLevel)
  {
    if analysisType == "explanation" && ExplanationTopic(code) == General && ExplanationWalk(code).Failure? then
      Failure(ExplanationWalk(code).error)
    else Success(MockAnalysisAsWritten(c, code, language, analysisType, userLevel))
  }

  /** The source's walk over the first ten lines of `code`: it raises
      exactly when one of them is a nameless definition. */
  function ExplanationWalk(code: string): (r: Result<string, string>)
    ensures r.Failure? <==> WalkRaises(code)
    ensures r.Failure? ==> r.error == IndexErrorMessage
  {
    var lines := Take(CodeLines(code), 10);
    WalkAsWrittenAgrees(lines, 1);
    WalkAsWritten(lines, 1, LineNoteAsWritten)
  }

  /** Behind the gate only the four kinds arrive, so the last branch is
      taken exactly for "learning". */
  lemma GatedLearning(form: AnalyzeForm)
    requires DemoGate(form).Success?
    ensures LearningBranch(form.analysisType) <==> form.analysisType == "learning"
  {
  }

  /** The demo's `POST /analyze` as the source runs it: a raise inside the
      generator becomes a 500. Only the generic explanation's walk can raise;
      where it does not, the reply is the corrected one except for the
      learning suggestions' placeholders. */
  function DemoAnalyzeAsWritten(c: Catalogue, form: AnalyzeForm): (r: Result<CodeAnalysisResponse, HttpError>)
    requires Complete(c)
    ensures DemoGate(form).Failure? ==> r == Failure(DemoGate(form).error)
    ensures DemoGate(form).Success? ==>
      (r.Failure? <==> form.analysisType == "explanation" && ExplanationTopic(form.code) == General && WalkRaises(form.code))
    ensures DemoGate(form).Success? && r.Failure? ==> r.error == HttpError(500, "Analysis failed: " + IndexErrorMessage)
    ensures r.Success? && form.analysisType != "learning" ==> r == DemoAnalyze(c, form)
    ensures r.Success? && form.analysisType == "learning" ==>
      r.value == DemoAnalyze(c, form).value.(suggestions := LearningSuggestionsAsWritten(form.language))
  {
    match DemoGate(form)
    case Failure(e) => Failure(e)
    case Success(f) =>
      GatedLearning(form);
      match GenerateAsWritten(c, f.code, f.language, f.analysisType, f.userLevel)
      case Failure(e) => Failure(HttpError(500, "Analysis failed: " + e))
      case Success(response) => Success(response)
  }
}
