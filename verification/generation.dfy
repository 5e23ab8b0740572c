/** The generation engine (`_generate_response`): reset the model context,
    load the rendered conversation, then sample up to a fixed budget of tokens,
    stopping right after the first stop token. The model runtime and the chat
    encoding are uninterpreted: each call is a function of its inputs that may
    raise, which is a `Failure` here. */
module Generation {
  import opened Wrappers
  import opened Harmony

  /** The outcome of a runtime call that returns nothing but may raise. */
  datatype Status = Done | Raised(message: string)

  /** The sampling temperature: a float in the source, handed to the
      runtime unexamined. */
  type Temperature = real

  const SamplingTemperature: Temperature := 0.7

  /** The hard ceiling on sampled tokens. */
  const MaxTokens: nat := 1000

  /** The model runtime and the chat encoding, as seen by the engine:
      rendering a conversation for an assistant completion, the forward pass
      over the loaded prompt, sampling the next token from the context, the
      stop tokens of assistant actions, and decoding tokens to text. */
  datatype Runtime = Runtime(
    render: Conversation -> Result<seq<Token>, string>,
    process: seq<Token> -> Status,
    sample: (seq<Token>, Temperature) -> Result<Token, string>,
    stopTokens: set<Token>,
    decode: seq<Token> -> Result<string, string>)

  /** The model context: the tokens it currently holds. It outlives a request;
      nothing else does. */
  datatype Context = Context(tokens: seq<Token>) {
    function Reset(): Context {
      Context([])
    }

    function Append(token: Token): Context {
      Context(tokens + [token])
    }
  }

  /** Each output token is what the runtime samples from a context holding the
      prompt and the output tokens before it. */
  predicate Sampled(rt: Runtime, prompt: seq<Token>, out: seq<Token>) {
    forall i :: 0 <= i < |out| ==> rt.sample(prompt + out[..i], SamplingTemperature) == Success(out[i])
  }

  /** None of the first `n` output tokens is a stop token. */
  predicate NoStopBefore(rt: Runtime, out: seq<Token>, n: nat)
    requires n <= |out|
  {
    forall i :: 0 <= i < n ==> out[i] !in rt.stopTokens
  }

  /** A decode that ran to its end: either the budget is spent, or the last
      token, kept in the output, is the first stop token. */
  predicate Completed(rt: Runtime, prompt: seq<Token>, out: seq<Token>) {
    && 0 < |out| <= MaxTokens
    && Sampled(rt, prompt, out)
    && NoStopBefore(rt, out, |out| - 1)
    && (|out| == MaxTokens || out[|out| - 1] in rt.stopTokens)
  }

  /** A decode cut short because sampling the next token raised. */
  predicate Interrupted(rt: Runtime, prompt: seq<Token>, out: seq<Token>) {
    && |out| < MaxTokens
    && Sampled(rt, prompt, out)
    && NoStopBefore(rt, out, |out|)
    && rt.sample(prompt + out, SamplingTemperature).Failure?
  }

  /** `r` and `final` are what generating `conversation` yields: the context
      was reset, then holds the rendered prompt followed by the sampled
      tokens, and `r` is the decoded text or the first failure raised. The
      context held before the call does not appear. */
  predicate Generated(rt: Runtime, conversation: Conversation, r: Result<string, string>, final: Context) {
    match rt.render(conversation)
    case Failure(e) => r == Failure(e) && final.tokens == []
    case Success(prompt) =>
      && prompt <= final.tokens
      && var out := final.tokens[|prompt|..];
      match rt.process(prompt)
      case Raised(e) => r == Failure(e) && out == []
      case Done =>
        || (Completed(rt, prompt, out) && r == rt.decode(out))
        || (Interrupted(rt, prompt, out) && r.Failure? && rt.sample(final.tokens, SamplingTemperature) == Failure(r.error))
  }

  /** The decode loop over the model context. */
  method GenerateResponse(rt: Runtime, conversation: Conversation, context: Context)
    returns (r: Result<string, string>, context': Context)
    ensures Generated(rt, conversation, r, context')
    ensures rt.render(conversation).Success? ==>
      |context'.tokens| <= |rt.render(conversation).value| + MaxTokens
  {
    context' := context.Reset();
    var rendered := rt.render(conversation);
    if rendered.Failure? {
      return Failure(rendered.error), context';
    }
    var prompt := rendered.value;
    for k := 0 to |prompt|
      invariant context'.tokens == prompt[..k]
    {
      context' := context'.Append(prompt[k]);
    }
    assert prompt[..|prompt|] == prompt;
    var processed := rt.process(context'.tokens);
    if processed.Raised? {
      assert context'.tokens[|prompt|..] == [];
      return Failure(processed.message), context';
    }
    var out: seq<Token> := [];
    var n := 0;
    while n < MaxTokens
      invariant n == |out| <= MaxTokens
      invariant context'.tokens == prompt + out
      invariant Sampled(rt, prompt, out)
      invariant NoStopBefore(rt, out, |out|)
    {
      var sampled := rt.sample(context'.tokens, SamplingTemperature);
      if sampled.Failure? {
        assert context'.tokens[|prompt|..] == out;
        return Failure(sampled.error), context';
      }
      var token := sampled.value;
      var before := out;
      out := out + [token];
      context' := context'.Append(token);
      assert Sampled(rt, prompt, out) by {
        forall i | 0 <= i < |out|
          ensures rt.sample(prompt + out[..i], SamplingTemperature) == Success(out[i])
        {
          if i < |before| {
            assert out[..i] == before[..i];
          } else {
            assert out[..i] == before;
          }
        }
      }
      if token in rt.stopTokens {
        break;
      }
      n := n + 1;
    }
    assert context'.tokens[|prompt|..] == out;
    r := rt.decode(out);
  }

  /** Two sampled runs from the same prompt agree on their common length. */
  lemma {:induction false} SampledAgree(rt: Runtime, prompt: seq<Token>, a: seq<Token>, b: seq<Token>, k: nat)
    requires Sampled(rt, prompt, a) && Sampled(rt, prompt, b)
    requires k <= |a| && k <= |b|
    ensures a[..k] == b[..k]
    decreases k
  {
    if k > 0 {
      SampledAgree(rt, prompt, a, b, k - 1);
      assert rt.sample(prompt + a[..k - 1], SamplingTemperature) == Success(a[k - 1]);
      assert rt.sample(prompt + b[..k - 1], SamplingTemperature) == Success(b[k - 1]);
      assert a[..k] == a[..k - 1] + [a[k - 1]];
      assert b[..k] == b[..k - 1] + [b[k - 1]];
    }
  }

  /** A decode that ended, completed or interrupted. */
  predicate Ended(rt: Runtime, prompt: seq<Token>, out: seq<Token>) {
    Completed(rt, prompt, out) || Interrupted(rt, prompt, out)
  }

  /** A sampled run shorter than another one from the same prompt was not cut
      short by a failing sample, and ends with the token the longer one has
      at that position. */
  lemma ShorterRun(rt: Runtime, prompt: seq<Token>, a: seq<Token>, b: seq<Token>)
    requires Sampled(rt, prompt, a) && Sampled(rt, prompt, b)
    ensures |a| < |b| ==> !Interrupted(rt, prompt, a) && (|a| > 0 ==> a[|a| - 1] == b[|a| - 1])
  {
    if |a| < |b| {
      SampledAgree(rt, prompt, a, b, |a|);
      assert b[..|a|] == a;
      assert rt.sample(prompt + b[..|a|], SamplingTemperature) == Success(b[|a|]);
    }
  }

  /** No ended decode is a proper prefix of another from the same prompt. */
  lemma NotShorter(rt: Runtime, prompt: seq<Token>, a: seq<Token>, b: seq<Token>)
    requires Ended(rt, prompt, a) && Ended(rt, prompt, b)
    ensures |a| >= |b|
  {
    ShorterRun(rt, prompt, a, b);
  }

  /** A completed decode is never also an interrupted one. */
  lemma CompletedNotInterrupted(rt: Runtime, prompt: seq<Token>, out: seq<Token>)
    requires Completed(rt, prompt, out)
    ensures !Interrupted(rt, prompt, out)
  {
    assert |out| < MaxTokens ==> out[|out| - 1] in rt.stopTokens;
  }

  /** Context isolation: whatever the context held before, generating the
      same conversation with the same runtime yields the same text and leaves
      the same context. */
  lemma GenerationIgnoresPriorContext(rt: Runtime, conversation: Conversation,
                                      r1: Result<string, string>, c1: Context,
                                      r2: Result<string, string>, c2: Context)
    requires Generated(rt, conversation, r1, c1) && Generated(rt, conversation, r2, c2)
    ensures r1 == r2 && c1 == c2
  {
    match rt.render(conversation)
    case Failure(e) =>
    case Success(prompt) =>
      var out1 := c1.tokens[|prompt|..];
      var out2 := c2.tokens[|prompt|..];
      assert c1.tokens == prompt + out1 && c2.tokens == prompt + out2;
      if rt.process(prompt).Done? {
        NotShorter(rt, prompt, out1, out2);
        NotShorter(rt, prompt, out2, out1);
        SampledAgree(rt, prompt, out1, out2, |out1|);
        assert out1 == out2;
        if Completed(rt, prompt, out1) {
          CompletedNotInterrupted(rt, prompt, out1);
        }
        if Completed(rt, prompt, out2) {
          CompletedNotInterrupted(rt, prompt, out2);
        }
      }
  }
}
