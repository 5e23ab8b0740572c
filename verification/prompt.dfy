/** The prompt synthesiser: the system metadata and the user message built
    from an analysis request (`_create_system_prompt`,
    `_create_user_message`), and the two-message conversation of
    `analyze_code`. */
module Prompt {
  import opened Wrappers
  import opened Text
  import opened Analysis
  import opened Harmony

  /** The system content. The source also builds a per-kind instruction
      paragraph parameterised by the user level and then drops it, so the
      content carries only a medium reasoning effort, the date and, when a
      tool exists, its schema. */
  function CreateSystemPrompt(analysisType: AnalysisType, userLevel: string, date: string,
                              tool: Option<ToolConfig>): (r: SystemContent)
    ensures r.effort == Medium
    ensures r.startDate == date
    ensures r.tools == tool
  {
    SystemContent(Medium, date, tool)
  }

  /** Neither the analysis kind nor the user level reaches the system content. */
  lemma SystemPromptIgnoresKindAndLevel(k1: AnalysisType, k2: AnalysisType, level1: string, level2: string,
                                        date: string, tool: Option<ToolConfig>)
    ensures CreateSystemPrompt(k1, level1, date, tool) == CreateSystemPrompt(k2, level2, date, tool)
  {
  }

  /** The trailer line naming the user level. */
  function LevelLine(userLevel: string): string {
    "User level: " + userLevel
  }

  /** The trailer line carrying the question. */
  function QuestionLine(question: string): string {
    "Specific question: " + question
  }

  /** The lines that follow the code block: the analysis kind, the user level
      and, when the question is truthy, a blank line and the question. */
  function TrailerLines(request: CodeAnalysisRequest): seq<string>
  {
    ["```", "", "Analysis type: " + request.analysisType.Value(), LevelLine(request.userLevel)]
    + (if HasQuestion(request) then ["", QuestionLine(request.specificQuestion.value)] else [])
  }

  function HeaderLines(request: CodeAnalysisRequest): seq<string>
  {
    ["Please analyze this " + request.language + " code:", "```" + request.language]
  }

  /** The message's parts before joining: header lines, the code verbatim,
      trailer lines. */
  function UserMessageParts(request: CodeAnalysisRequest): seq<string>
  {
    HeaderLines(request) + [request.code] + TrailerLines(request)
  }

  /** What the message opens with: the header, the code verbatim and the
      closing fence. Fence sequences inside the code are not escaped. */
  function MessageOpening(request: CodeAnalysisRequest): string
  {
    "Please analyze this " + request.language + " code:\n```" + request.language + "\n"
    + request.code + "\n```\n"
  }

  /** The user message: the parts joined by line breaks. It opens with the
      fenced code and closes with the question exactly when the question is
      truthy, and with the user level otherwise. */
  function CreateUserMessage(request: CodeAnalysisRequest): (m: string)
    ensures StartsWith(m, MessageOpening(request))
    ensures HasQuestion(request) ==> EndsWith(m, "\n\n" + QuestionLine(request.specificQuestion.value))
    ensures !HasQuestion(request) ==> EndsWith(m, "\n" + LevelLine(request.userLevel))
  {
    UserMessageOpening(request);
    UserMessageClosing(request);
    Join(UserMessageParts(request), "\n")
  }

  lemma UserMessageOpening(request: CodeAnalysisRequest)
    ensures StartsWith(Join(UserMessageParts(request), "\n"), MessageOpening(request))
  {
    var parts := UserMessageParts(request);
    var opening := parts[0] + "\n" + parts[1] + "\n" + parts[2] + "\n" + parts[3] + "\n";
    JoinFirstFour(parts, "\n");
    StartsWithAppended(opening, Join(parts[4..], "\n"));
    assert opening == MessageOpening(request);
  }

  lemma UserMessageClosing(request: CodeAnalysisRequest)
    ensures HasQuestion(request) ==> EndsWith(Join(UserMessageParts(request), "\n"), "\n\n" + QuestionLine(request.specificQuestion.value))
    ensures !HasQuestion(request) ==> EndsWith(Join(UserMessageParts(request), "\n"), "\n" + LevelLine(request.userLevel))
  {
    var parts := UserMessageParts(request);
    var trailer := TrailerLines(request);
    assert parts == HeaderLines(request) + [request.code] + trailer;
    if HasQuestion(request) {
      var q := QuestionLine(request.specificQuestion.value);
      assert trailer[|trailer| - 2..] == ["", q];
      ClosingWithBlankAndLast(parts, q, "\n");
      assert "\n" + "\n" == "\n\n";
    } else {
      var last := LevelLine(request.userLevel);
      assert trailer[|trailer| - 1] == last;
      ClosingWithLast(parts, last, "\n");
    }
  }

  /** Joined parts end with the separator and the last part. */
  lemma ClosingWithLast(parts: seq<string>, last: string, sep: string)
    requires |parts| >= 2 && parts[|parts| - 1] == last
    ensures EndsWith(Join(parts, sep), sep + last)
  {
    var front := parts[..|parts| - 1];
    assert front + [last] == parts;
    JoinSnoc(front, last, sep);
    EndsWithLastTwo(Join(front, sep), sep, last);
  }

  /** Joined parts whose last two are an empty part and `last` end with the
      separator twice and `last`. */
  lemma ClosingWithBlankAndLast(parts: seq<string>, last: string, sep: string)
    requires |parts| >= 3
    requires parts[|parts| - 2] == "" && parts[|parts| - 1] == last
    ensures EndsWith(Join(parts, sep), sep + sep + last)
  {
    var n := |parts|;
    var front := parts[..n - 2];
    assert parts[..n - 1] == front + [""] && parts == parts[..n - 1] + [last];
    JoinSnoc(front, "", sep);
    JoinSnoc(parts[..n - 1], last, sep);
    assert Join(parts[..n - 1], sep) == Join(front, sep) + sep;
    EndsWithLastThree(Join(front, sep), sep, sep, last);
  }

  lemma HeaderLinesPlain(request: CodeAnalysisRequest)
    requires '\n' !in request.language
    ensures forall k :: 0 <= k < |HeaderLines(request)| ==> '\n' !in HeaderLines(request)[k]
  {
    var h := HeaderLines(request);
    assert h[0] == "Please analyze this " + request.language + " code:";
    assert h[1] == "```" + request.language;
  }

  lemma TrailerLinesPlain(request: CodeAnalysisRequest)
    requires '\n' !in request.userLevel
    requires HasQuestion(request) ==> '\n' !in request.specificQuestion.value
    ensures forall k :: 0 <= k < |TrailerLines(request)| ==> '\n' !in TrailerLines(request)[k]
  {
    var t := TrailerLines(request);
    assert '\n' !in request.analysisType.Value();
    assert t[2] == "Analysis type: " + request.analysisType.Value();
    assert t[3] == LevelLine(request.userLevel);
    if HasQuestion(request) {
      assert t[5] == QuestionLine(request.specificQuestion.value);
    }
  }

  /** A reader that splits the message on line breaks sees the header lines,
      then exactly the lines of the code, then the trailer lines. */
  lemma UserMessageLines(request: CodeAnalysisRequest)
    requires '\n' !in request.language && '\n' !in request.userLevel
    requires HasQuestion(request) ==> '\n' !in request.specificQuestion.value
    ensures Split(CreateUserMessage(request), '\n')
         == HeaderLines(request) + Split(request.code, '\n') + TrailerLines(request)
  {
    var h := HeaderLines(request);
    var t := TrailerLines(request);
    var parts := UserMessageParts(request);
    assert CreateUserMessage(request) == Join(parts, "\n");
    HeaderLinesPlain(request);
    TrailerLinesPlain(request);
    SplitOfJoin(parts, '\n');
    SplitEachAppend(h + [request.code], t, '\n');
    SplitEachAppend(h, [request.code], '\n');
    SplitEachPlain(h, '\n');
    SplitEachPlain(t, '\n');
    assert SplitEach([request.code], '\n') == Split(request.code, '\n');
  }

  /** The conversation handed to the runtime: the system message, then the
      user message. */
  function BuildConversation(request: CodeAnalysisRequest, date: string, tool: Option<ToolConfig>): (c: Conversation)
    ensures |c.messages| == 2
    ensures c.messages[0].role == System && c.messages[1].role == User
    ensures c.messages[0].content == SystemPart(CreateSystemPrompt(request.analysisType, request.userLevel, date, tool))
    ensures c.messages[1].content == TextPart(CreateUserMessage(request))
    ensures c.messages[0].recipient.None? && c.messages[1].recipient.None?
  {
    Conversation([
      Message(System, SystemPart(CreateSystemPrompt(request.analysisType, request.userLevel, date, tool)), None),
      Message(User, TextPart(CreateUserMessage(request)), None)])
  }

  /** The system message carries the medium effort, the date and the tool,
      and is the same for every request: only the user message depends on
      the request. */
  lemma SystemMessageSharedByRequests(r1: CodeAnalysisRequest, r2: CodeAnalysisRequest, date: string,
                                      tool: Option<ToolConfig>)
    ensures BuildConversation(r1, date, tool).messages[0] == BuildConversation(r2, date, tool).messages[0]
    ensures BuildConversation(r1, date, tool).messages[0].content == SystemPart(SystemContent(Medium, date, tool))
  {
    SystemPromptIgnoresKindAndLevel(r1.analysisType, r2.analysisType, r1.userLevel, r2.userLevel, date, tool);
  }
}
