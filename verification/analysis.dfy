/** The request and response records of the analysis engine and its closed
    set of analysis kinds (`AnalysisType`, `CodeAnalysisRequest`,
    `CodeAnalysisResponse`, `get_supported_languages`, `get_analysis_types`). */
module Analysis {
  import opened Wrappers

  datatype AnalysisType = Explanation | Improvement | BugDetection | Learning {
    /** The enum member's string value. */
    function Value(): string {
      match this
      case Explanation => "explanation"
      case Improvement => "improvement"
      case BugDetection => "bug_detection"
      case Learning => "learning"
    }
  }

  /** `AnalysisType(value)`: the member with that value; `None` where Python
      raises `ValueError`. */
  function ParseAnalysisType(value: string): (r: Option<AnalysisType>)
    ensures r.Some? ==> r.value.Value() == value
    ensures r.None? ==> forall k: AnalysisType :: k.Value() != value
  {
    if value == "explanation" then Some(Explanation)
    else if value == "improvement" then Some(Improvement)
    else if value == "bug_detection" then Some(BugDetection)
    else if value == "learning" then Some(Learning)
    else None
  }

  /** Parsing a member's own value gives the member back. */
  lemma ParseValue(k: AnalysisType)
    ensures ParseAnalysisType(k.Value()) == Some(k)
  {
  }

  /** `get_analysis_types()`: every member's value, in declaration order. */
  function AnalysisTypeValues(): (r: seq<string>)
    ensures |r| == 4
    ensures forall k: AnalysisType :: k.Value() in r
    ensures forall i :: 0 <= i < |r| ==> ParseAnalysisType(r[i]).Some?
  {
    [Explanation.Value(), Improvement.Value(), BugDetection.Value(), Learning.Value()]
  }

  /** A string passes the `in get_analysis_types()` check exactly when
      `AnalysisType(...)` accepts it. */
  lemma AnalysisTypeValuesAccepted(value: string)
    ensures value in AnalysisTypeValues() <==> ParseAnalysisType(value).Some?
  {
  }

  /** `get_supported_languages()`. */
  const SupportedLanguages: seq<string> :=
    ["python", "javascript", "java", "cpp", "c", "csharp",
     "go", "rust", "php", "ruby", "swift", "kotlin", "typescript"]

  const DefaultUserLevel: string := "beginner"

  datatype CodeAnalysisRequest = CodeAnalysisRequest(
    code: string,
    language: string,
    analysisType: AnalysisType,
    userLevel: string,
    specificQuestion: Option<string>)

  /** Python truthiness of `specific_question`: present and non-empty. A
      question of spaces only is truthy. */
  predicate HasQuestion(request: CodeAnalysisRequest) {
    request.specificQuestion.Some? && request.specificQuestion.value != ""
  }

  datatype CodeAnalysisResponse = CodeAnalysisResponse(
    analysis: string,
    suggestions: seq<string>,
    examples: seq<string>,
    executionResult: Option<string>,
    error: Option<string>)

  const MaxSuggestions: nat := 5
  const MaxExamples: nat := 3

  /** The bounds every response keeps. */
  predicate WithinBounds(response: CodeAnalysisResponse) {
    |response.suggestions| <= MaxSuggestions && |response.examples| <= MaxExamples
  }
}

/** The conversation values of the chat encoding the engine talks to. Only
    their shape is modelled; rendering them to tokens belongs to the runtime. */
module Harmony {
  import opened Wrappers

  type Token = int

  datatype Role = System | User | Assistant

  datatype ReasoningEffort = Low | Medium | High

  /** A tool's callable schema, as advertised to the model. */
  datatype ToolConfig = ToolConfig(name: string)

  /** System metadata: reasoning effort, conversation start date and the
      tools the model may address. */
  datatype SystemContent = SystemContent(
    effort: ReasoningEffort,
    startDate: string,
    tools: Option<ToolConfig>)

  datatype Content = SystemPart(system: SystemContent) | TextPart(text: string)

  datatype Message = Message(role: Role, content: Content, recipient: Option<string>)

  datatype Conversation = Conversation(messages: seq<Message>)
}
