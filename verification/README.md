# code_helper in Dafny

A model of the code-analysis assistant `code_helper`. It covers the following parts.

**The analysis engine (`code_analyzer.py`).**
- It builds a two-message conversation: system metadata, then a user message that fences the code.
- It resets the model context, loads the rendered prompt and samples at most 1000 tokens. It stops right after the first stop token.
- It parses the decoded text into bullet suggestions (at most five) and inline fenced examples (at most three).
- For Python improvement and bug-detection requests, it runs the code through the sandboxed Python tool.
- Any failure becomes a response that carries the error.

**The two servers.**
- `app.py` gates `POST /analyze` in a fixed order. It then answers with JSON or the results page, maps exceptions to HTTP errors and reports its health.
- `demo_app.py` has the same gate and a canned-analysis generator. The generator's only logic is which canned text to pick and a keyword walk over the first ten lines of the code. The generator is stated over a `DemoApp.Catalogue` of the fixed canned texts. `DemoApp.Canned` holds the demo's own texts. The demo as written is `DemoApp.DemoAnalyzeAsWritten` over that catalogue. `DemoApp.DemoAnalyze` is the demo with the two defects under "## Findings" corrected: the nameless-definition crash and the literal `{language}` placeholders.

**The serverless demo endpoint (`api/analyze.py`).** It reads the form fields with their defaults, picks a canned reply by analysis kind and rewrites its Markdown to HTML.

**The browser form (`static/script.js`).**
- The submit validation.
- The Tab key in the code box.
- The placeholder fallback.
- The example loader.

The model runtime, the chat encoding and the Python tool are opaque. Each is a datatype of functions that return a `Result`, so a raised exception is a `Failure` carrying its message. The model context is a value: a sequence of tokens. The decode loop is a method whose contract is a relation, `Generation.Generated`. A lemma shows that this relation determines the result and the final context whatever the context held before.

The modules follow the program:
- `Wrappers`: `Option` and `Result`.
- `Text`: the Python and JavaScript string operations the code relies on.
- `Analysis` and `Harmony`: records and enums.
- `Prompt`, `Generation`, `Extract` and `Orchestrator`: `code_analyzer.py`.
- `WebApp`: `app.py`.
- `DemoApp`: `demo_app.py`.
- `DemoApi`: `api/analyze.py`.
- `ClientForm`: `static/script.js`.

`_create_system_prompt` builds a per-kind instruction paragraph (`code_analyzer.py`, lines 115-155) and never uses it. The system content depends only on the date and on whether the Python tool exists (`Prompt.SystemPromptIgnoresKindAndLevel`).

## Model

| member | source | states |
|---|---|---|
| Analysis.ParseAnalysisType | code_helper/code_analyzer.py:33-38 | `AnalysisType(value)` yields the member whose value is the string, and fails exactly when no member has that value |
| Analysis.ParseValue | code_helper/code_analyzer.py:33-38 | parsing a member's own value gives the member back |
| Analysis.AnalysisTypeValues | code_helper/code_analyzer.py:345-347 | the list holds the value of every member, four strings, each one parseable |
| Analysis.AnalysisTypeValuesAccepted | code_helper/app.py:92-93 | the gate's membership test on the type list accepts exactly what the enum constructor accepts, so the later `AnalysisType(...)` cannot raise |
| Text.Trim | code_helper/code_analyzer.py:281 | stripping leaves text that neither starts nor ends with whitespace, and that is empty exactly when the input is all whitespace |
| Text.TrimIsSlice | code_helper/code_analyzer.py:281 | the stripped text is the slice of the input between a leading and a trailing run of whitespace, so nothing else is removed |
| Text.Split | code_helper/code_analyzer.py:281 | splitting on a line break gives at least one piece, none holding the separator, and joining them back gives the input |
| Text.SplitJoin | code_helper/code_analyzer.py:281 | splitting undoes joining when no part holds the separator |
| Text.Find | code_helper/code_analyzer.py:295 | `find` reports the first occurrence, and reports one exactly when the pattern occurs |
| Text.RFind | code_helper/code_analyzer.py:296 | `rfind` reports the last occurrence, and reports one exactly when the pattern occurs |
| Text.CountAtLeastTwo | code_helper/code_analyzer.py:294-296 | `count('```') >= 2` holds exactly when the last fence starts at or after the end of the first |
| Text.Take | code_helper/code_analyzer.py:302-303 | a slice `xs[:n]` is a prefix of length `min(n, len(xs))` |
| Text.ReplaceFirst | code_helper/api/analyze.py:287 | `replace(pat, rep, 1)` leaves text without the pattern unchanged; otherwise the first occurrence is replaced in place, with the text before and after it kept in order |
| Text.ReplaceFirstPair | code_helper/api/analyze.py:287 | two such replacements in a row turn the first occurrence into the opening text and the second into the closing one, when nothing before the second occurrence can start the pattern |
| Text.ReplaceAllRemoves | code_helper/api/analyze.py:297 | replacing every line break by a text without one leaves no line break |
| Text.LastWord | code_helper/demo_app.py:106 | `split()[-1]` fails exactly on all-whitespace text; otherwise it yields a non-empty whitespace-free word of the input that starts the input or follows whitespace, and only whitespace follows it: the last word |
| Text.JsLength | code_helper/static/script.js:286-323 | a JavaScript length is between the character count and twice it, and equals the character count exactly when no character lies outside the Basic Multilingual Plane |
| Text.JsLengthOfChar | code_helper/static/script.js:286-323 | one character is one code unit, or two above U+FFFF |
| Text.JsLengthAppend | code_helper/static/script.js:286-323 | code units add up over concatenation, so with the one-character case they fix every length |
| Text.JsSubstring | code_helper/static/script.js:508-523 | `substring` on in-order, in-range bounds is the slice, and never exceeds the string |
| Prompt.CreateSystemPrompt | code_helper/code_analyzer.py:112-167 | the system content has medium reasoning effort, the given date, and the tool schema exactly when the tool exists |
| Prompt.SystemPromptIgnoresKindAndLevel | code_helper/code_analyzer.py:112-167 | the per-kind instructions never reach the system content: kind and level do not change it |
| Prompt.CreateUserMessage | code_helper/code_analyzer.py:169-188 | the message opens with the header, the fenced code verbatim and the closing fence; it ends with the question when the question is truthy, and with the user level otherwise |
| Prompt.UserMessageLines | code_helper/code_analyzer.py:169-188 | a reader splitting the message into lines sees the header lines, exactly the lines of the code, then the trailer lines |
| Prompt.BuildConversation | code_helper/code_analyzer.py:200-211 | the conversation is the system message carrying the built system content followed by the user message carrying the built text, neither addressed to a recipient |
| Prompt.SystemMessageSharedByRequests | code_helper/code_analyzer.py:157-167 | the system message is the same for every request: medium effort, the date and the tool, whatever the code, kind, level or question |
| Generation.GenerateResponse | code_helper/code_analyzer.py:240-275 | after a reset the context holds the prompt then the sampled tokens; the text is the decode of a run that spent the budget or ended on the first stop token, or the first failure raised; at most 1000 tokens are sampled |
| Generation.SampledAgree | code_helper/code_analyzer.py:260-263 | two sampled runs from the same prompt agree on their common length |
| Generation.NotShorter | code_helper/code_analyzer.py:260-268 | no finished decode is a proper prefix of another from the same prompt |
| Generation.GenerationIgnoresPriorContext | code_helper/code_analyzer.py:243-251 | whatever the context held before, the same conversation yields the same text and the same final context |
| Extract.InlineExample | code_helper/code_analyzer.py:293-298 | a line yields an example exactly when it has a fence whose last occurrence starts after the end of the first; the example is the stripped text between them |
| Extract.ParseResponse | code_helper/code_analyzer.py:277-304 | the analysis is the whole text; suggestions are the first five bullet lines without their marker; examples are the first three inline examples of non-bullet lines; no execution result and no error |
| Extract.MultiLineBlocksYieldNothing | code_helper/code_analyzer.py:292-298 | text whose lines each hold at most one fence, as multi-line fenced blocks do, yields no examples |
| Extract.BulletsNeverExamples | code_helper/code_analyzer.py:290-292 | a bullet line never contributes an example, even one with inline fences, and each bullet line contributes one suggestion |
| Orchestrator.ExecutePythonCode | code_helper/code_analyzer.py:315-336 | no tool gives "Python execution not available"; a raise gives "Execution error: " and the message; no reply gives "No output from code execution"; otherwise the first part of the first reply, or the index error when that reply has no part |
| Orchestrator.AnalyzeCode | code_helper/code_analyzer.py:190-238 | a failed generation gives the "Analysis failed: " response with the error and no execution result; otherwise the parsed response, with an execution result exactly for Python (any case) improvement or bug-detection requests when the tool exists; lists stay within five and three |
| Orchestrator.AnalysisIgnoresPriorContext | code_helper/code_analyzer.py:190-238 | the response to a request does not depend on what earlier requests left in the context |
| Orchestrator.ConversationAdvertisesTool | code_helper/code_analyzer.py:162-165 | the system message advertises a tool exactly when the analyzer has one, with that tool's configuration |
| Orchestrator.ToolRunOnlyAffectsExecution | code_helper/code_analyzer.py:220-229 | how the tool runs the code, and whether it raises, changes only the execution result: the analysis, suggestions, examples, error and final context are the same |
| WebApp.QuestionOf | code_helper/app.py:101 | a blank question is dropped and any other is kept unstripped |
| WebApp.BuildAnalysisRequest | code_helper/app.py:82-102 | checks run in order: a missing analyzer is a 500, blank code, an unsupported language or an unknown type is a 400 with its message; a request passes exactly when all hold and carries the form's fields |
| WebApp.ResponseJson | code_helper/app.py:109-116 | the JSON reply has exactly the five response keys, in order |
| WebApp.JsonRoundTrip | code_helper/app.py:109-116 | reading the JSON reply back gives the response: nothing is lost |
| WebApp.HandleAnalyze | code_helper/app.py:71-135 | a gate error is returned unchanged and no analysis runs; otherwise the analysis is performed; a JSON client gets a reply that reads back as the result; a page that fails to render becomes a 500 "Analysis failed: " error |
| WebApp.HealthCheck | code_helper/app.py:138-145 | always healthy; ready exactly when the analyzer exists; model loaded exactly when the analyzer exists and has its model, so a loaded model implies readiness |
| WebApp.HealthMatchesGate | code_helper/app.py:138-145 | the server reports itself not ready exactly when its gate refuses every analysis with the 500 "Analyzer not initialized" |
| DemoApp.DemoListsMatchAnalyzer | code_helper/demo_app.py:28-35 | the demo's language and type lists equal the real analyzer's |
| DemoApp.DemoGateMatchesApp | code_helper/demo_app.py:297-304 | the demo refuses exactly what the real gate refuses once its analyzer is up, with the same status and message |
| DemoApp.ClassifyFollowsCues | code_helper/demo_app.py:104-118 | the walk's `if`/`elif` chain is a priority table: a line that is not blank or a comment gets the tag of the first row it matches |
| DemoApp.Decimal | code_helper/demo_app.py:107-118 | the `{i}` of a `**Line {i}:**` note: decimal digits that spell the line number, with no leading zero |
| DemoApp.LineNoteAsWritten | code_helper/demo_app.py:104-118 | one line's entry raises exactly on a definition line with no word before its first `(`, and the error is the index error |
| DemoApp.WalkAsWrittenAgrees | code_helper/demo_app.py:102-118 | the walk raises exactly when one of its lines is such a nameless definition, always with the index error; otherwise it produces the corrected walk's text |
| DemoApp.WalkAppend | code_helper/demo_app.py:103 | lines are numbered by position: the walk over two blocks is the first block's walk followed by the second's, numbered on |
| DemoApp.SkippedLinesSilent | code_helper/demo_app.py:105 | blank and comment lines add nothing |
| DemoApp.NamelessDefinitionFails | code_helper/demo_app.py:106 | the line `(function () {` is a nameless definition, and the source's walk raises on it |
| DemoApp.TopicsDisagree | code_helper/demo_app.py:45-153 | the explanation's text choice and its suggestion choice differ exactly on code that mentions neither "fibonacci" nor "sort" but mentions "bubble", or "account" without "class" |
| DemoApp.GenericExplanation | code_helper/demo_app.py:93-120 | the generic explanation opens with the introduction naming the language and closes with the overall-purpose sentence |
| DemoApp.GenericSeesTenLines | code_helper/demo_app.py:103 | code that agrees on its first ten lines gets the same generic explanation |
| DemoApp.LearningSuggestions | code_helper/demo_app.py:252-258 | five learning suggestions; the first, third and fourth name the language |
| DemoApp.LiteralPlaceholder | code_helper/demo_app.py:255-256 | as written, the third and fourth learning suggestions are the same for every language and differ from the corrected ones |
| DemoApp.CannedComplete | code_helper/demo_app.py:123-227 | the demo's canned lists give five suggestions and three examples for every kind and topic |
| DemoApp.MockAnalysis | code_helper/demo_app.py:37-272 | the generator with the corrected walk and learning suggestions (as written: `DemoApp.GenerateAsWritten`), for a catalogue with the demo's list lengths: five suggestions and three examples for every kind; an execution note exactly for "python"; no error; the generic explanation ends with the purpose sentence |
| DemoApp.MockIgnoresLevel | code_helper/demo_app.py:37 | the user level does not affect the analysis |
| DemoApp.DemoAnalyze | code_helper/demo_app.py:284-326 | the demo with the corrected walk and learning suggestions (as written: `DemoApp.DemoAnalyzeAsWritten`): it fails exactly when the gate does, always with a 400; a success has five suggestions, three examples and no error |
| DemoApp.GenerateAsWritten | code_helper/demo_app.py:36-272 | as written, the generator raises exactly for a generic explanation whose first ten lines hold a nameless definition, always with the index error; otherwise it returns the corrected analysis, except that every kind reaching the final `else` (not only "learning") keeps the literal placeholders |
| DemoApp.GatedLearning | code_helper/demo_app.py:229 | behind the demo's gate, the final `else` branch is taken exactly for "learning" |
| DemoApp.DemoAnalyzeAsWritten | code_helper/demo_app.py:284-326 | as written, a request that passes the gate fails exactly for a generic explanation whose first ten lines hold a nameless definition, with a 500 "Analysis failed: " and the index error; otherwise the reply is the corrected one, except that learning suggestions keep the literal placeholders |
| DemoApi.Field | code_helper/api/analyze.py:20-24 | `get(key, [fallback])[0]` gives the fallback for a missing key, the first value otherwise, and fails exactly on a key with no value |
| DemoApi.ReadForm | code_helper/api/analyze.py:20-24 | the form reads exactly when every present field has a value; any failure is the index error; each field is its first value or its default |
| DemoApi.EmptyQueryDefaults | code_helper/api/analyze.py:20-24 | an empty submission reads as a Python explanation for a beginner with no code and no question |
| DemoApi.DemoTitle | code_helper/api/analyze.py:47-178 | the fallback title is used exactly for a kind outside the four |
| DemoApi.GenerateDemoResponse | code_helper/api/analyze.py:47-178 | a known kind gets its own title and a text that names the language; any other gets the fixed fallback title and text |
| DemoApi.TitlesDistinct | code_helper/api/analyze.py:47-178 | distinct known kinds get distinct titles |
| DemoApi.ReplyIgnoresCodeAndQuestion | code_helper/api/analyze.py:47 | neither the code nor the question reaches the reply |
| DemoApi.StrongPair | code_helper/api/analyze.py:287 | one bold pass removes at least two stars when a `**` is present, and never adds one |
| DemoApi.EmPair | code_helper/api/analyze.py:292 | one italic pass removes exactly two stars when at least two remain |
| DemoApi.MarkdownHtml | code_helper/api/analyze.py:284-303 | the rewritten text has no `**`, at most one `*`, no line break, and opens a paragraph |
| DemoApi.StrongPairTags | code_helper/api/analyze.py:287 | a bold pass pairs `**` left to right: the first becomes `<strong>`, the next `</strong>`, with the text between and around kept |
| DemoApi.EmPairTags | code_helper/api/analyze.py:292 | an italic pass pairs `*` left to right: the first becomes `<em>`, the next `</em>` |
| DemoApi.BreaksParagraph | code_helper/api/analyze.py:297 | the first blank line becomes `</p><p>` and the rest is rewritten the same way |
| DemoApi.BreaksLine | code_helper/api/analyze.py:297 | the first single line break becomes `<br>` and the rest is rewritten the same way |
| DemoApi.BreaksPlain | code_helper/api/analyze.py:297 | text without a line break is left as it is |
| DemoApi.MarkdownToHtml | code_helper/api/analyze.py:284-303 | both replacement loops terminate, since each pass removes stars, and the result is the phase-by-phase rewrite with its properties |
| DemoApi.PlainTextWrapped | code_helper/api/analyze.py:300-301 | text without stars or line breaks is only wrapped in a paragraph |
| DemoApi.RenderPage | code_helper/api/analyze.py:246-249 | the result page carries the reply's title over its rewritten text |
| DemoApi.ApiAnalyze | code_helper/api/analyze.py:11-45 | the error page is returned exactly when reading the form fails, with the index error, and never for a query as `parse_qs` builds it; otherwise the page has the kind's title and a single-line paragraph |
| ClientForm.FieldErrors | code_helper/static/script.js:286-323 | each field error is reported exactly when its condition holds: no language, no type, code that trims to nothing (missing) or to under ten units (too short) |
| ClientForm.ValidateForm | code_helper/static/script.js:286-323 | the form is valid exactly when no field reports an error, and the submit button is disabled exactly when it is not |
| ClientForm.BlankCodeIsMissing | code_helper/static/script.js:309-315 | blank code is reported as missing, never as too short |
| ClientForm.HandleCodeInput | code_helper/static/script.js:508-523 | Tab replaces the selection by four spaces and puts the caret after them; any other key changes nothing |
| ClientForm.TabInsertsAtCaret | code_helper/static/script.js:508-523 | Tab is an insertion: the text before the caret is kept, the four spaces end at the caret, and removing them gives the text without the old selection |
| ClientForm.UpdatePlaceholder | code_helper/static/script.js:488-501 | the language's own placeholder when one exists, the generic one otherwise; nothing else changes |
| ClientForm.PlaceholderFallback | code_helper/static/script.js:488-501 | only Python, JavaScript, Java and C++ get their own placeholder |
| ClientForm.ExampleCode | code_helper/static/script.js:4-78 | an example exists exactly for Python fibonacci, Python class and JavaScript sorting |
| ClientForm.LoadExample | code_helper/static/script.js:532-569 | an unknown example changes nothing; a known one sets the language, the code and the explanation kind and revalidates |
| ClientForm.ExamplesAreValid | code_helper/static/script.js:532-569 | every built-in example passes validation, so loading one enables the submit button |

## Left out

- Model loading, the harmony encoding's token rendering, the forward pass, sampling and the Python sandbox are opaque parameters. Each call is a function of its inputs that may raise.
- The sampling temperature is passed to the runtime unexamined. Floating point is not modelled.
- The conversation date is a parameter instead of the clock. Logging and `async` have no effect on the results and are left out.
- Generation.GenerateResponse: the context's `reset` and `append` are assumed never to raise, and the 8192-token context length the analyzer is built with is not modelled, so a prompt plus output that would overflow it is not a failure here.
- HTML templating is not modelled, and neither are the generated HTML pages. This covers `create_html_response`, `create_error_response`, `api/index.py`, `api/health.py`, the home pages and the demo's health route. The model stops at the values that fill them.
- `parse_qs`, the Content-Length read and UTF-8 decoding in `api/analyze.py` are left out. The endpoint starts from a decoded query; `DemoApi.FromParseQs` names the one property of `parse_qs` it relies on, that no key is listed without a value.
- The DOM, event wiring, animations, loading indicators and the optional chaining on missing elements are left out. The form is a record of the values the handlers read and write.
- ClientForm.HandleCodeInput: positions are character positions, not UTF-16 code units. A selection inside a surrogate pair is not modelled. The length check in validation does count UTF-16 units (`Text.JsLength`).
- ClientForm.ExampleCode: JavaScript lookups of inherited keys (such as "constructor") are not modelled. Only own keys are looked up.
- Text.Lower: lower-casing covers ASCII letters only; non-ASCII case mapping is not modelled. Python also maps, for example, "İ" (U+0130) to "i̇", so `"FIBONACCİ".lower()` contains "fibonacci" and picks the Fibonacci topic, which the model does not.
- DemoApp.MockAnalysis: the long canned analysis texts are reduced to their opening lines. The choice between them is modelled in full, and so are the walk, the lists and the interpolated language.
- DemoApi.GenerateDemoResponse: the canned texts are reduced to their heading and the lines that interpolate a field.
- DemoApi.ApiAnalyze: states the page text by its shape only (no line break, opens a paragraph). `DemoApi.RenderPage` states the text exactly as the rewrite of the reply.
- DemoApi.ApiAnalyze: its only error page is the `IndexError` of a key listed with no value, which `parse_qs` never produces; the endpoint's reachable 500s, a missing or malformed Content-Length and a body that is not UTF-8, come before the decoded query and are not modelled.
- The `except` path of `_parse_response` is not modelled. Nothing in the parse can raise on a string: every slice and index is in range.
- Orchestrator.AnalyzeCode: the `try` around `_execute_python_code` is not modelled. That call catches every exception itself and so never raises.
- Orchestrator.ExecutePythonCode: a tool reply's content parts are texts. A non-text part, whose `.text` would raise, is not modelled.

## Findings

| source | as written | input that shows it | evidently intended | confidence | as-written member | corrected member |
|---|---|---|---|---|---|---|
| code_helper/demo_app.py:106 | `line.split('(')[0].split()[-1]` takes the last word before the first `(`, which raises `IndexError` when nothing precedes it; the generator's `except` turns this into a 500 | explanation of JavaScript code whose first line is `(function () {` (no fibonacci, sort, bubble or class-and-account keywords) | describe the definition with an empty name and go on | not executed | DemoApp.NamelessDefinitionFails | DemoApp.DemoAnalyze |
| code_helper/demo_app.py:255-256 | the third and fourth learning suggestions lack the `f` prefix, so the reply shows `{language}` literally | any learning request, e.g. language "python" | "Read the official python documentation", "Join online python learning communities" | not executed | DemoApp.LiteralPlaceholder | DemoApp.LearningSuggestions |
