/** The browser form (`static/script.js`): client-side validation and the
    submit button it controls, the Tab key in the code box, the placeholder
    that follows the language, and loading a built-in example. The page is
    a value: each handler maps the form's state to its next state. */
module ClientForm {
  import opened Wrappers
  import opened Text

  /** The parts of the page the handlers read and write. Positions in the
      code are character positions. */
  datatype FormState = FormState(
    language: string,
    analysisType: string,
    code: string,
    selectionStart: nat,
    selectionEnd: nat,
    placeholder: string,
    buttonDisabled: bool)

  // ---------------------------------------------------------------------------
  // Validation
  // ---------------------------------------------------------------------------

  datatype Field = LanguageField | AnalysisTypeField | CodeField

  /** What a field can be found wanting for. */
  datatype FieldError = MissingLanguage | MissingType | MissingCode | ShortCode {
    function Field(): Field {
      match this
      case MissingLanguage => LanguageField
      case MissingType => AnalysisTypeField
      case MissingCode | ShortCode => CodeField
    }

    function Message(): string {
      match this
      case MissingLanguage => "Please select a programming language"
      case MissingType => "Please select an analysis type"
      case MissingCode => "Please enter some code to analyze"
      case ShortCode => "Code seems too short for meaningful analysis"
    }
  }

  /** Trimmed code shorter than this is refused. */
  const MinCodeLength: nat := 10

  /** The field errors, in the order the checks run: an unselected language
      or kind, and code that trims to nothing or to fewer than ten
      characters, reported as missing in the first case and as too short in
      the second. */
  function FieldErrors(language: string, analysisType: string, code: string): (errors: seq<FieldError>)
    ensures MissingLanguage in errors <==> language == ""
    ensures MissingType in errors <==> analysisType == ""
    ensures MissingCode in errors <==> JsTrim(code) == ""
    ensures ShortCode in errors <==> JsTrim(code) != "" && JsLength(JsTrim(code)) < MinCodeLength
    ensures |errors| <= 3
  {
    var languageErrors := if language == "" then [MissingLanguage] else [];
    var typeErrors := if analysisType == "" then [MissingType] else [];
    var codeErrors := CodeErrors(JsTrim(code));
    var errors := languageErrors + typeErrors + codeErrors;
    assert forall e :: e in errors <==> e in languageErrors || e in typeErrors || e in codeErrors;
    errors
  }

  /** The code field's error for the trimmed code: missing when empty, too
      short when under ten units. */
  function CodeErrors(trimmed: string): (errors: seq<FieldError>)
    ensures MissingCode in errors <==> trimmed == ""
    ensures ShortCode in errors <==> trimmed != "" && JsLength(trimmed) < MinCodeLength
    ensures MissingLanguage !in errors && MissingType !in errors
    ensures |errors| <= 1
  {
    if trimmed == "" then [MissingCode]
    else if JsLength(trimmed) < MinCodeLength then [ShortCode]
    else []
  }

  /** `validateForm`: the form is valid exactly when no field reports an
      error, and the submit button is disabled exactly when it is not. */
  function ValidateForm(s: FormState): (r: (bool, FormState))
    ensures r.0 <==> s.language != "" && s.analysisType != "" && JsLength(JsTrim(s.code)) >= MinCodeLength
    ensures r.0 <==> FieldErrors(s.language, s.analysisType, s.code) == []
    ensures r.1 == s.(buttonDisabled := !r.0)
  {
    var errors := FieldErrors(s.language, s.analysisType, s.code);
    var valid := errors == [];
    (valid, s.(buttonDisabled := !valid))
  }

  /** Blank code is reported as missing, not as too short. */
  lemma BlankCodeIsMissing(language: string, analysisType: string, code: string)
    requires JsTrim(code) == []
    ensures MissingCode in FieldErrors(language, analysisType, code)
    ensures ShortCode !in FieldErrors(language, analysisType, code)
  {
  }

  /** Ten characters between a non-space first and a non-space last one
      survive the trim. */
  lemma TrimKeepsSpan(s: string, i: nat, j: nat)
    requires i <= j < |s| && !IsJsSpace(s[i]) && !IsJsSpace(s[j])
    ensures JsLength(JsTrim(s)) >= j - i + 1
  {
    var t := TrimStart(s, JsWhitespace);
    var lead := |s| - |t|;
    assert !IsSpace(JsWhitespace, s[i]);
    assert lead <= i;
    var r := TrimEnd(t, JsWhitespace);
    assert t[j - lead] == s[j];
    assert !IsSpace(JsWhitespace, t[j - lead]);
    assert lead + |r| > j;
    assert JsTrim(s) == r;
  }

  // ---------------------------------------------------------------------------
  // The Tab key
  // ---------------------------------------------------------------------------

  const Indent: string := "    "

  /** What a text box guarantees of its selection. */
  predicate SelectionValid(s: FormState) {
    s.selectionStart <= s.selectionEnd <= |s.code|
  }

  /** `handleCodeInput`: Tab replaces the selection by four spaces and puts
      the caret right after them; any other key leaves the state alone. */
  function HandleCodeInput(s: FormState, key: string): (r: FormState)
    ensures key != "Tab" ==> r == s
    ensures key == "Tab" ==>
      && r.selectionStart == r.selectionEnd == s.selectionStart + |Indent|
      && r == s.(code := r.code, selectionStart := r.selectionStart, selectionEnd := r.selectionEnd)
    ensures key == "Tab" && SelectionValid(s) ==>
      && SelectionValid(r)
      && r.code == s.code[..s.selectionStart] + Indent + s.code[s.selectionEnd..]
  {
    if key == "Tab" then
      var code := JsSubstring(s.code, 0, s.selectionStart) + Indent + JsSubstring(s.code, s.selectionEnd, |s.code|);
      var caret := s.selectionStart + |Indent|;
      s.(code := code, selectionStart := caret, selectionEnd := caret)
    else s
  }

  /** Tab is an insertion at the caret: the text before the caret is kept,
      the four spaces end at the new caret, and deleting them restores the
      text with the old selection removed. */
  lemma TabInsertsAtCaret(s: FormState)
    requires SelectionValid(s)
    ensures var r := HandleCodeInput(s, "Tab");
      && r.code[..s.selectionStart] == s.code[..s.selectionStart]
      && r.code[s.selectionStart..r.selectionStart] == Indent
      && r.code[..s.selectionStart] + r.code[r.selectionStart..] == s.code[..s.selectionStart] + s.code[s.selectionEnd..]
      && |r.code| == |s.code| - (s.selectionEnd - s.selectionStart) + |Indent|
  {
    var r := HandleCodeInput(s, "Tab");
    var a := s.code[..s.selectionStart];
    var b := s.code[s.selectionEnd..];
    assert r.code == a + Indent + b;
    assert r.code[..|a|] == a;
    assert r.code[|a|..|a| + |Indent|] == Indent;
    assert r.code[|a| + |Indent|..] == b;
  }

  // ---------------------------------------------------------------------------
  // The placeholder
  // ---------------------------------------------------------------------------

  const DefaultPlaceholder: string := "Paste your code here..."

  /** The placeholders that exist, by language. */
  const Placeholders: map<string, string> := map[
    "python" := "def hello_world():\n    print(\"Hello, World!\")\n\nhello_world()",
    "javascript" := "function helloWorld() {\n    console.log(\"Hello, World!\");\n}\n\nhelloWorld();",
    "java" := "public class HelloWorld {\n    public static void main(String[] args) {\n        System.out.println(\"Hello, World!\");\n    }\n}",
    "cpp" := "#include <iostream>\nusing namespace std;\n\nint main() {\n    cout << \"Hello, World!\" << endl;\n    return 0;\n}",
    "default" := DefaultPlaceholder]

  /** `updatePlaceholder`: the language's own placeholder, the generic one
      for every other language. */
  function UpdatePlaceholder(s: FormState): (r: FormState)
    ensures s.language in Placeholders ==> r.placeholder == Placeholders[s.language]
    ensures s.language !in Placeholders ==> r.placeholder == DefaultPlaceholder
    ensures r == s.(placeholder := r.placeholder)
  {
    var text := if s.language in Placeholders && Placeholders[s.language] != "" then Placeholders[s.language]
                else Placeholders["default"];
    s.(placeholder := text)
  }

  /** Only Python, JavaScript, Java and C++ get a placeholder of their own. */
  lemma PlaceholderFallback(s: FormState)
    ensures UpdatePlaceholder(s).placeholder != DefaultPlaceholder <==>
      s.language in {"python", "javascript", "java", "cpp"}
  {
  }

  // ---------------------------------------------------------------------------
  // The examples
  // ---------------------------------------------------------------------------

  const FibonacciExampleHead: string := "def fibonacci(n):"

  /** The first line, then the rest. */
  const FibonacciExample: string :=
    FibonacciExampleHead + "\n    \"\"\"Calculate the nth Fibonacci number using recursion.\"\"\"\n    if n <= 1:\n        return n\n    return fibonacci(n-1) + fibonacci(n-2)\n\n# Test the function\nfor i in range(10):\n    print(f\"F({i}) = {fibonacci(i)}\")"

  const AccountExampleHead: string := "class BankAccount:"

  /** The first line, then the rest. */
  const AccountExample: string :=
    AccountExampleHead + "\n    \"\"\"A simple bank account class.\"\"\"\n\n    def __init__(self, account_holder, initial_balance=0):\n        self.account_holder = account_holder\n        self.balance = initial_balance\n        self.transaction_history = []\n\n    def deposit(self, amount):\n        if amount > 0:\n            self.balance += amount\n            self.transaction_history.append(f\"Deposited $\" + str(amount))\n            return True\n        return False\n\n    def withdraw(self, amount):\n        if 0 < amount <= self.balance:\n            self.balance -= amount\n            self.transaction_history.append(f\"Withdrew $\" + str(amount))\n            return True\n        return False\n\n    def get_balance(self):\n        return self.balance\n\n# Example usage\naccount = BankAccount(\"John Doe\", 1000)\naccount.deposit(500)\naccount.withdraw(200)\nprint(f\"Balance: $\" + str(account.get_balance()))"

  const SortingExampleHead: string := "// Bubble sort"

  /** The first line, then the rest. */
  const SortingExample: string :=
    SortingExampleHead + " implementation with optimization\nfunction bubbleSort(arr) {\n    const n = arr.length;\n    let swapped;\n\n    for (let i = 0; i < n - 1; i++) {\n        swapped = false;\n\n        // Last i elements are already sorted\n        for (let j = 0; j < n - i - 1; j++) {\n            if (arr[j] > arr[j + 1]) {\n                // Swap elements\n                [arr[j], arr[j + 1]] = [arr[j + 1], arr[j]];\n                swapped = true;\n            }\n        }\n\n        // If no swapping occurred, array is sorted\n        if (!swapped) break;\n    }\n\n    return arr;\n}\n\n// Test the function\nconst numbers = [64, 34, 25, 12, 22, 11, 90];\nconsole.log(\"Original array:\", numbers);\nconsole.log(\"Sorted array:\", bubbleSort([...numbers]));"

  /** `codeExamples[language][kind]` when both lookups find a non-empty
      text: the built-in examples, two for Python and one for JavaScript. */
  function ExampleCode(language: string, kind: string): (r: Option<string>)
    ensures r.Some? ==> r.value in {FibonacciExample, AccountExample, SortingExample}
    ensures r.Some? <==>
      (language == "python" && kind in {"fibonacci", "class"}) || (language == "javascript" && kind == "sorting")
  {
    if language == "python" && kind == "fibonacci" then Some(FibonacciExample)
    else if language == "python" && kind == "class" then Some(AccountExample)
    else if language == "javascript" && kind == "sorting" then Some(SortingExample)
    else None
  }

  /** `loadExample`: a known example sets the language, the code and the
      "explanation" kind, then revalidates; the caret ends up after the
      code. An unknown one changes nothing. */
  function LoadExample(s: FormState, language: string, kind: string): (r: FormState)
    ensures ExampleCode(language, kind).None? ==> r == s
    ensures ExampleCode(language, kind).Some? ==>
      && r.language == language && r.code == ExampleCode(language, kind).value
      && r.analysisType == "explanation"
      && r.placeholder == s.placeholder
      && r.buttonDisabled == !ValidateForm(r).0
  {
    match ExampleCode(language, kind)
    case None => s
    case Some(code) =>
      var loaded := s.(language := language, code := code, analysisType := "explanation",
                       selectionStart := |code|, selectionEnd := |code|);
      ValidateForm(loaded).1
  }

  /** Code whose first line has ten characters from a non-space to a
      non-space passes the length check. */
  lemma HeadKeepsLength(head: string, rest: string, j: nat)
    requires MinCodeLength <= j < |head| && !IsJsSpace(head[0]) && !IsJsSpace(head[j])
    ensures JsLength(JsTrim(head + rest)) >= MinCodeLength
  {
    TrimKeepsSpan(head + rest, 0, j);
  }

  lemma FibonacciExampleValid()
    ensures JsLength(JsTrim(FibonacciExample)) >= MinCodeLength
  {
    HeadKeepsLength(FibonacciExampleHead, FibonacciExample[|FibonacciExampleHead|..], 10);
    assert FibonacciExampleHead + FibonacciExample[|FibonacciExampleHead|..] == FibonacciExample;
  }

  lemma AccountExampleValid()
    ensures JsLength(JsTrim(AccountExample)) >= MinCodeLength
  {
    HeadKeepsLength(AccountExampleHead, AccountExample[|AccountExampleHead|..], 10);
    assert AccountExampleHead + AccountExample[|AccountExampleHead|..] == AccountExample;
  }

  lemma SortingExampleValid()
    ensures JsLength(JsTrim(SortingExample)) >= MinCodeLength
  {
    HeadKeepsLength(SortingExampleHead, SortingExample[|SortingExampleHead|..], 10);
    assert SortingExampleHead + SortingExample[|SortingExampleHead|..] == SortingExample;
  }

  /** Every built-in example passes validation: loading one enables the
      submit button. */
  lemma ExamplesAreValid(s: FormState, language: string, kind: string)
    requires ExampleCode(language, kind).Some?
    ensures !LoadExample(s, language, kind).buttonDisabled
  {
    ExampleLongEnough(language, kind);
  }

  /** Every built-in example is long enough once trimmed. */
  lemma ExampleLongEnough(language: string, kind: string)
    requires ExampleCode(language, kind).Some?
    ensures JsLength(JsTrim(ExampleCode(language, kind).value)) >= MinCodeLength
  {
    if language == "python" && kind == "fibonacci" {
      FibonacciExampleValid();
    } else if language == "python" && kind == "class" {
      AccountExampleValid();
    } else {
      SortingExampleValid();
    }
  }
}
