/** The analysis orchestrator (`CodeAnalyzer.analyze_code` and
    `_execute_python_code`): build the two-message conversation, generate,
    parse, and run the code through the Python tool for Python improvement and
    bug-detection requests. Any failure on the way becomes a response carrying
    the error instead of an exception. */
module Orchestrator {
  import opened Wrappers
  import opened Text
  import opened Analysis
  import opened Harmony
  import opened Prompt
  import opened Generation
  import opened Extract

  /** A message yielded by the Python tool: the texts of its content parts. */
  datatype ToolReply = ToolReply(content: seq<string>)

  /** The sandboxed Python tool: its advertised configuration, and running a
      message through it, which yields messages or raises. */
  datatype PythonTool = PythonTool(config: ToolConfig, process: Message -> Result<seq<ToolReply>, string>)

  /** A constructed analyzer: the model runtime, the Python tool when it
      could be initialized, and whether the model attribute is set. */
  datatype CodeAnalyzer = CodeAnalyzer(runtime: Runtime, pythonTool: Option<PythonTool>, modelLoaded: bool)

  const NotAvailable: string := "Python execution not available"
  const NoOutput: string := "No output from code execution"
  const ExecutionErrorPrefix: string := "Execution error: "

  /** The code, addressed from the assistant to the Python tool. */
  function ToolRequest(code: string): Message {
    Message(Assistant, TextPart(code), Some("python"))
  }

  /** Running code through the tool never raises: the result is the text of
      the first content part of the first message the tool yields, or a
      diagnostic for a missing tool, a silent tool, an empty first message or
      a raised error. */
  function ExecutePythonCode(tool: Option<PythonTool>, code: string): (r: string)
    ensures tool.None? ==> r == NotAvailable
    ensures tool.Some? && tool.value.process(ToolRequest(code)).Failure? ==>
      r == ExecutionErrorPrefix + tool.value.process(ToolRequest(code)).error
    ensures tool.Some? && tool.value.process(ToolRequest(code)) == Success([]) ==> r == NoOutput
    ensures tool.Some? && tool.value.process(ToolRequest(code)).Success? ==>
      var replies := tool.value.process(ToolRequest(code)).value;
      |replies| > 0 ==>
        (|replies[0].content| > 0 ==> r == replies[0].content[0]) &&
        (|replies[0].content| == 0 ==> r == ExecutionErrorPrefix + IndexErrorMessage)
  {
    match tool
    case None => NotAvailable
    case Some(t) =>
      match t.process(ToolRequest(code))
      case Failure(e) => ExecutionErrorPrefix + e
      case Success(replies) =>
        if |replies| == 0 then NoOutput
        else if |replies[0].content| == 0 then ExecutionErrorPrefix + IndexErrorMessage
        else replies[0].content[0]
  }

  /** The tool configuration advertised in the system message. */
  function ToolConfigOf(tool: Option<PythonTool>): (r: Option<ToolConfig>)
    ensures r.Some? <==> tool.Some?
    ensures r.Some? ==> r.value == tool.value.config
  {
    match tool
    case None => None
    case Some(t) => Some(t.config)
  }

  /** The conversation the analyzer sends for `request`. */
  function AnalysisConversation(analyzer: CodeAnalyzer, request: CodeAnalysisRequest, date: string): Conversation {
    BuildConversation(request, date, ToolConfigOf(analyzer.pythonTool))
  }

  /** Execution is attempted for Python (in any letter case) improvement and
      bug-detection requests, when the tool is present. */
  predicate ShouldExecute(analyzer: CodeAnalyzer, request: CodeAnalysisRequest) {
    && Lower(request.language) == "python"
    && (request.analysisType == Improvement || request.analysisType == BugDetection)
    && analyzer.pythonTool.Some?
  }

  /** The response for an analysis that raised `message`. */
  function FailedAnalysis(message: string): CodeAnalysisResponse {
    CodeAnalysisResponse("Analysis failed: " + message, [], [], None, Some(message))
  }

  /** `response` and `final` are what analyzing `request` yields: a failure
      raised while generating becomes the error response; otherwise the
      generated text is the analysis, the lists are parsed from it, and the
      execution result is present exactly when execution applies. */
  predicate Analyzed(analyzer: CodeAnalyzer, request: CodeAnalysisRequest, date: string,
                     response: CodeAnalysisResponse, final: Context) {
    var conversation := AnalysisConversation(analyzer, request, date);
    match response.error
    case Some(e) =>
      Generated(analyzer.runtime, conversation, Failure(e), final) && response == FailedAnalysis(e)
    case None =>
      && Generated(analyzer.runtime, conversation, Success(response.analysis), final)
      && response.suggestions == Take(Suggestions(ResponseLines(response.analysis)), MaxSuggestions)
      && response.examples == Take(Examples(ResponseLines(response.analysis)), MaxExamples)
      && (response.executionResult.Some? <==> ShouldExecute(analyzer, request))
      && (response.executionResult.Some? ==>
            response.executionResult.value == ExecutePythonCode(analyzer.pythonTool, request.code))
  }

  method AnalyzeCode(analyzer: CodeAnalyzer, request: CodeAnalysisRequest, date: string, context: Context)
    returns (response: CodeAnalysisResponse, context': Context)
    ensures Analyzed(analyzer, request, date, response, context')
    ensures WithinBounds(response)
    ensures response.error.Some? ==>
      response.executionResult.None? && StartsWith(response.analysis, "Analysis failed: ")
  {
    var conversation := AnalysisConversation(analyzer, request, date);
    var generated;
    generated, context' := GenerateResponse(analyzer.runtime, conversation, context);
    if generated.Failure? {
      response := FailedAnalysis(generated.error);
      return;
    }
    response := ParseResponse(generated.value);
    if Lower(request.language) == "python"
       && (request.analysisType == Improvement || request.analysisType == BugDetection)
       && analyzer.pythonTool.Some?
    {
      var executed := ExecutePythonCode(analyzer.pythonTool, request.code);
      response := response.(executionResult := Some(executed));
    }
  }

  /** The response to a request does not depend on what earlier requests
      left in the model context. */
  lemma AnalysisIgnoresPriorContext(analyzer: CodeAnalyzer, request: CodeAnalysisRequest, date: string,
                                    response1: CodeAnalysisResponse, final1: Context,
                                    response2: CodeAnalysisResponse, final2: Context)
    requires Analyzed(analyzer, request, date, response1, final1)
    requires Analyzed(analyzer, request, date, response2, final2)
    ensures response1 == response2 && final1 == final2
  {
    var r1: Result<string, string> :=
      if response1.error.Some? then Failure(response1.error.value) else Success(response1.analysis);
    var r2: Result<string, string> :=
      if response2.error.Some? then Failure(response2.error.value) else Success(response2.analysis);
    GenerationIgnoresPriorContext(analyzer.runtime, AnalysisConversation(analyzer, request, date),
                                  r1, final1, r2, final2);
  }

  /** The system message advertises a tool exactly when the analyzer has
      one, with that tool's configuration. */
  lemma ConversationAdvertisesTool(analyzer: CodeAnalyzer, request: CodeAnalysisRequest, date: string)
    ensures var system := AnalysisConversation(analyzer, request, date).messages[0].content;
      && system.SystemPart?
      && (system.system.tools.Some? <==> analyzer.pythonTool.Some?)
      && (analyzer.pythonTool.Some? ==> system.system.tools.value == analyzer.pythonTool.value.config)
  {
  }

  /** What the tool does when it runs the code reaches only the execution
      result: analyzers whose tools differ only in how they run code give
      the same analysis, suggestions, examples and error, and the same final
      context. */
  lemma ToolRunOnlyAffectsExecution(a1: CodeAnalyzer, a2: CodeAnalyzer, request: CodeAnalysisRequest, date: string,
                                    response1: CodeAnalysisResponse, final1: Context,
                                    response2: CodeAnalysisResponse, final2: Context)
    requires a1.runtime == a2.runtime && ToolConfigOf(a1.pythonTool) == ToolConfigOf(a2.pythonTool)
    requires Analyzed(a1, request, date, response1, final1)
    requires Analyzed(a2, request, date, response2, final2)
    ensures response1.(executionResult := None) == response2.(executionResult := None)
    ensures response1.executionResult.Some? <==> response2.executionResult.Some?
    ensures final1 == final2
  {
    var conversation := AnalysisConversation(a1, request, date);
    assert AnalysisConversation(a2, request, date) == conversation;
    var r1: Result<string, string> :=
      if response1.error.Some? then Failure(response1.error.value) else Success(response1.analysis);
    var r2: Result<string, string> :=
      if response2.error.Some? then Failure(response2.error.value) else Success(response2.analysis);
    GenerationIgnoresPriorContext(a1.runtime, conversation, r1, final1, r2, final2);
  }
}
