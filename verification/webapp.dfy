/** The web front of the real analyzer (`app.py`): the validation gate of
    `POST /analyze`, the JSON or page reply, the exception mapping, and
    `GET /health`. The analyzer is a global that is absent when startup
    failed. */
module WebApp {
  import opened Wrappers
  import opened Text
  import opened Analysis
  import opened Generation
  import opened Orchestrator

  datatype HttpError = HttpError(status: nat, detail: string)

  /** The form fields of `POST /analyze`, with the defaults already applied
      ("beginner" for the level, "" for the question). */
  datatype AnalyzeForm = AnalyzeForm(
    code: string,
    language: string,
    analysisType: string,
    userLevel: string,
    specificQuestion: string)

  /** A string Python's `strip()` empties: whitespace only. */
  predicate Blank(s: string) {
    forall k :: 0 <= k < |s| ==> IsPySpace(s[k])
  }

  /** The question as the request carries it: absent when blank, otherwise
      the original, unstripped text. */
  function QuestionOf(question: string): (r: Option<string>)
    ensures r.None? <==> Blank(question)
    ensures r.Some? ==> r.value == question
  {
    if PyStrip(question) == "" then None else Some(question)
  }

  /** The gate: checks in source order, the first one failing decides the
      error; a request that passes becomes an analysis request. */
  function BuildAnalysisRequest(analyzerReady: bool, form: AnalyzeForm): (r: Result<CodeAnalysisRequest, HttpError>)
    ensures r.Success? <==>
      && analyzerReady
      && !Blank(form.code)
      && form.language in SupportedLanguages
      && form.analysisType in AnalysisTypeValues()
    ensures !analyzerReady ==> r == Failure(HttpError(500, "Analyzer not initialized"))
    ensures analyzerReady && Blank(form.code) ==> r == Failure(HttpError(400, "Code cannot be empty"))
    ensures analyzerReady && !Blank(form.code) && form.language !in SupportedLanguages ==>
      r == Failure(HttpError(400, "Unsupported language: " + form.language))
    ensures analyzerReady && !Blank(form.code) && form.language in SupportedLanguages
            && form.analysisType !in AnalysisTypeValues() ==>
      r == Failure(HttpError(400, "Invalid analysis type: " + form.analysisType))
    ensures r.Success? ==>
      && r.value.code == form.code
      && r.value.language == form.language
      && r.value.analysisType.Value() == form.analysisType
      && r.value.userLevel == form.userLevel
      && r.value.specificQuestion == QuestionOf(form.specificQuestion)
  {
    AnalysisTypeValuesAccepted(form.analysisType);
    if !analyzerReady then Failure(HttpError(500, "Analyzer not initialized"))
    else if PyStrip(form.code) == "" then Failure(HttpError(400, "Code cannot be empty"))
    else if form.language !in SupportedLanguages then
      Failure(HttpError(400, "Unsupported language: " + form.language))
    else if form.analysisType !in AnalysisTypeValues() then
      Failure(HttpError(400, "Invalid analysis type: " + form.analysisType))
    else
      var kind := ParseAnalysisType(form.analysisType).value;
      Success(CodeAnalysisRequest(form.code, form.language, kind, form.userLevel, QuestionOf(form.specificQuestion)))
  }

  // ---------------------------------------------------------------------------
  // The JSON reply
  // ---------------------------------------------------------------------------

  datatype Json = JNull | JString(str: string) | JArray(items: seq<Json>) | JObject(fields: seq<(string, Json)>)

  /** The keys of the JSON reply, in order. */
  const ResponseKeys: seq<string> := ["analysis", "suggestions", "examples", "execution_result", "error"]

  function StringsJson(xs: seq<string>): (items: seq<Json>)
    ensures |items| == |xs|
  {
    if |xs| == 0 then [] else [JString(xs[0])] + StringsJson(xs[1..])
  }

  function OptionJson(o: Option<string>): Json {
    match o
    case None => JNull
    case Some(s) => JString(s)
  }

  /** The JSON object returned when the client accepts JSON: exactly the
      five response fields. */
  function ResponseJson(response: CodeAnalysisResponse): (j: Json)
    ensures j.JObject? && |j.fields| == |ResponseKeys|
    ensures forall i :: 0 <= i < |ResponseKeys| ==> j.fields[i].0 == ResponseKeys[i]
  {
    JObject([
      ("analysis", JString(response.analysis)),
      ("suggestions", JArray(StringsJson(response.suggestions))),
      ("examples", JArray(StringsJson(response.examples))),
      ("execution_result", OptionJson(response.executionResult)),
      ("error", OptionJson(response.error))])
  }

  /** The value stored under the first occurrence of `key`. */
  function Lookup(fields: seq<(string, Json)>, key: string): Option<Json> {
    if |fields| == 0 then None
    else if fields[0].0 == key then Some(fields[0].1)
    else Lookup(fields[1..], key)
  }

  function StringsFrom(items: seq<Json>): Option<seq<string>> {
    if |items| == 0 then Some([])
    else if !items[0].JString? then None
    else match StringsFrom(items[1..])
      case None => None
      case Some(rest) => Some([items[0].str] + rest)
  }

  function OptionFrom(j: Json): Option<Option<string>> {
    match j
    case JNull => Some(None)
    case JString(s) => Some(Some(s))
    case _ => None
  }

  /** The strings of an array value. */
  function ArrayStrings(j: Option<Json>): Option<seq<string>> {
    if j.Some? && j.value.JArray? then StringsFrom(j.value.items) else None
  }

  /** A string-or-null value. */
  function NullableString(j: Option<Json>): Option<Option<string>> {
    if j.Some? then OptionFrom(j.value) else None
  }

  /** A client reading the JSON reply back into a response. */
  function ResponseFromJson(j: Json): Option<CodeAnalysisResponse> {
    if !j.JObject? then None
    else
      var analysis := Lookup(j.fields, "analysis");
      var suggestions := ArrayStrings(Lookup(j.fields, "suggestions"));
      var examples := ArrayStrings(Lookup(j.fields, "examples"));
      var executionResult := NullableString(Lookup(j.fields, "execution_result"));
      var error := NullableString(Lookup(j.fields, "error"));
      if && analysis.Some? && analysis.value.JString?
         && suggestions.Some? && examples.Some? && executionResult.Some? && error.Some?
      then
        Some(CodeAnalysisResponse(analysis.value.str, suggestions.value, examples.value,
                                  executionResult.value, error.value))
      else None
  }

  lemma {:induction false} StringsRoundTrip(xs: seq<string>)
    ensures StringsFrom(StringsJson(xs)) == Some(xs)
    decreases |xs|
  {
    if |xs| > 0 {
      StringsRoundTrip(xs[1..]);
      assert StringsJson(xs)[1..] == StringsJson(xs[1..]);
      assert [xs[0]] + xs[1..] == xs;
    }
  }

  /** A key found at position `k` and at no earlier one is looked up there. */
  lemma {:induction false} LookupAt(fields: seq<(string, Json)>, k: nat, key: string)
    requires k < |fields| && fields[k].0 == key
    requires forall i :: 0 <= i < k ==> fields[i].0 != key
    ensures Lookup(fields, key) == Some(fields[k].1)
    decreases k
  {
    if k > 0 {
      LookupAt(fields[1..], k - 1, key);
    }
  }

  /** Each key of the reply finds the value stored for it. */
  lemma ResponseLookups(response: CodeAnalysisResponse)
    ensures var f := ResponseJson(response).fields;
      && Lookup(f, "analysis") == Some(JString(response.analysis))
      && Lookup(f, "suggestions") == Some(JArray(StringsJson(response.suggestions)))
      && Lookup(f, "examples") == Some(JArray(StringsJson(response.examples)))
      && Lookup(f, "execution_result") == Some(OptionJson(response.executionResult))
      && Lookup(f, "error") == Some(OptionJson(response.error))
  {
    var f := ResponseJson(response).fields;
    LookupAt(f, 0, "analysis");
    LookupAt(f, 1, "suggestions");
    LookupAt(f, 2, "examples");
    LookupAt(f, 3, "execution_result");
    LookupAt(f, 4, "error");
  }

  /** The JSON reply loses nothing: reading it back gives the response. */
  lemma JsonRoundTrip(response: CodeAnalysisResponse)
    ensures ResponseFromJson(ResponseJson(response)) == Some(response)
  {
    StringsRoundTrip(response.suggestions);
    StringsRoundTrip(response.examples);
    ResponseLookups(response);
  }

  // ---------------------------------------------------------------------------
  // The endpoint
  // ---------------------------------------------------------------------------

  /** What the endpoint answers: a JSON body, the results page, or an HTTP
      error. */
  datatype Reply = JsonReply(body: Json) | PageReply(result: CodeAnalysisResponse) | ErrorReply(error: HttpError)

  /** An exception leaving the handler's body: HTTP errors pass through
      unchanged, anything else becomes a 500 with the message. */
  datatype Raised = HttpRaised(error: HttpError) | OtherRaised(message: string)

  function ToHttpError(e: Raised): HttpError {
    match e
    case HttpRaised(err) => err
    case OtherRaised(message) => HttpError(500, "Analysis failed: " + message)
  }

  const JsonType: string := "application/json"

  /** The reply for a finished analysis: JSON when the client asks for it,
      otherwise the results page, or a 500 when rendering it raised
      `pageError`. */
  function Respond(response: CodeAnalysisResponse, accept: Option<string>, pageError: Option<string>): (reply: Reply)
    ensures reply.JsonReply? <==> accept == Some(JsonType)
    ensures reply.JsonReply? ==> ResponseFromJson(reply.body) == Some(response)
    ensures reply.PageReply? ==> reply.result == response && pageError.None?
    ensures accept != Some(JsonType) && pageError.Some? ==>
      reply == ErrorReply(HttpError(500, "Analysis failed: " + pageError.value))
  {
    JsonRoundTrip(response);
    if accept == Some(JsonType) then JsonReply(ResponseJson(response))
    else if pageError.Some? then ErrorReply(ToHttpError(OtherRaised(pageError.value)))
    else PageReply(response)
  }

  /** `POST /analyze`. `accept` is the Accept header; `pageError` is what
      rendering the results page raises, if anything. `result` is the
      analysis performed, when the gate let the request through. */
  method HandleAnalyze(analyzer: Option<CodeAnalyzer>, form: AnalyzeForm, accept: Option<string>,
                       pageError: Option<string>, date: string, context: Context)
    returns (reply: Reply, result: Option<CodeAnalysisResponse>, context': Context)
    ensures BuildAnalysisRequest(analyzer.Some?, form).Failure? ==>
      reply == ErrorReply(BuildAnalysisRequest(analyzer.Some?, form).error) && result.None? && context' == context
    ensures BuildAnalysisRequest(analyzer.Some?, form).Success? ==>
      && analyzer.Some? && result.Some?
      && Analyzed(analyzer.value, BuildAnalysisRequest(analyzer.Some?, form).value, date, result.value, context')
      && reply == Respond(result.value, accept, pageError)
    ensures reply.JsonReply? <==> result.Some? && accept == Some(JsonType)
    ensures reply.JsonReply? ==> ResponseFromJson(reply.body) == result
    ensures reply.PageReply? ==> Some(reply.result) == result && pageError.None?
    ensures result.Some? && accept != Some(JsonType) && pageError.Some? ==>
      reply == ErrorReply(HttpError(500, "Analysis failed: " + pageError.value))
  {
    var gate := BuildAnalysisRequest(analyzer.Some?, form);
    if gate.Failure? {
      return ErrorReply(ToHttpError(HttpRaised(gate.error))), None, context;
    }
    var response;
    response, context' := AnalyzeCode(analyzer.value, gate.value, date, context);
    result := Some(response);
    reply := Respond(response, accept, pageError);
  }

  datatype Health = Health(status: string, analyzerReady: bool, modelLoaded: bool)

  /** `GET /health`: always healthy; the model counts as loaded only when
      the analyzer exists. */
  function HealthCheck(analyzer: Option<CodeAnalyzer>): (h: Health)
    ensures h.status == "healthy"
    ensures h.analyzerReady <==> analyzer.Some?
    ensures h.modelLoaded <==> analyzer.Some? && analyzer.value.modelLoaded
    ensures h.modelLoaded ==> h.analyzerReady
  {
    match analyzer
    case None => Health("healthy", false, false)
    case Some(a) => Health("healthy", true, a.modelLoaded)
  }

  /** The health report's readiness is the gate's first check: the server
      refuses every analysis with "Analyzer not initialized" exactly when it
      reports itself not ready. */
  lemma HealthMatchesGate(analyzer: Option<CodeAnalyzer>, form: AnalyzeForm)
    ensures !HealthCheck(analyzer).analyzerReady <==>
      BuildAnalysisRequest(analyzer.Some?, form) == Failure(HttpError(500, "Analyzer not initialized"))
  {
  }
}
