/** `POST /api/demo/orchestrate`: picks a seed prompt from the chat history,
    answers with a fixed mock bundle when either API key is missing, and
    otherwise hands the seed to the query-search-summarise orchestrator and
    reshapes its result. The message sanitiser, the context summariser and
    the orchestrator live in other files; the route receives them here as
    function parameters and nothing is assumed about what they compute. */
module Orchestrate {
  import opened Js

  datatype ChatMessage = ChatMessage(role: string, content: string)

  datatype Source = Source(title: string, url: string, notes: string)

  datatype SummaryPackage = SummaryPackage(
    intro: string,
    headline: string,
    summary: string,
    sources: seq<Source>,
    followups: seq<string>)

  datatype SearchPlan = SearchPlan(objective: string, searchQueries: seq<string>)

  /** What the orchestrator returns on success. */
  datatype Orchestration = Orchestration(summary: SummaryPackage, plan: SearchPlan, results: seq<Value>)

  /** The orchestrator either completes or throws. */
  datatype Outcome = Completed(orchestration: Orchestration) | Threw

  /** The process environment the route reads. */
  datatype Env = Env(
    openRouterApiKey: Option<string>,
    parallelApiKey: Option<string>,
    openRouterModel: Option<string>,
    openRouterSiteUrl: Option<string>,
    openRouterAppName: Option<string>)

  datatype Config = Config(
    openRouterApiKey: string,
    openRouterModel: string,
    openRouterSiteUrl: Option<string>,
    openRouterAppName: Option<string>,
    parallelApiKey: string)

  /** The argument handed to the orchestrator. */
  datatype Request = Request(config: Config, contextSummary: string, seedPrompt: string)

  /** The route's answer: a JSON reply with status 200, the 502 failure, or
      an exception that escapes the handler (a body that is not JSON). */
  datatype Response =
    | Reply(mode: string, message: string, package: SummaryPackage, plan: SearchPlan, results: seq<Value>)
    | Failure(status: int, error: string)
    | Unhandled

  const DEFAULT_MODEL := "anthropic/claude-3.5-haiku"
  const DEFAULT_SEED := "Summarize the most relevant sources for the user."
  const MOCK_INTRO := "Mock mode is active. Configure API keys to run live orchestration."
  const MOCK_MESSAGE := "Mock orchestration response"
  const FAILURE_MESSAGE := "Orchestration failed"

  /** `OPENROUTER_MODEL ?? 'anthropic/claude-3.5-haiku'`: a set variable is
      used even when it is empty. */
  function ModelName(env: Env): (m: string)
    ensures env.openRouterModel.Some? ==> m == env.openRouterModel.value
    ensures env.openRouterModel.None? ==> m == DEFAULT_MODEL
  {
    if env.openRouterModel.Some? then env.openRouterModel.value else DEFAULT_MODEL
  }

  /** `Array.isArray(body?.messages) ? body.messages : []` */
  function MessagesOf(body: Value): (r: seq<Value>)
    ensures Prop(body, "messages").Arr? ==> r == Prop(body, "messages").items
    ensures !Prop(body, "messages").Arr? ==> r == []
  {
    match Prop(body, "messages")
    case Arr(items) => items
    case _ => []
  }

  function Reversed<T>(s: seq<T>): (r: seq<T>)
    ensures |r| == |s|
    ensures forall i :: 0 <= i < |s| ==> r[i] == s[|s| - 1 - i]
  {
    if s == [] then [] else [s[|s| - 1]] + Reversed(s[..|s| - 1])
  }

  predicate IsUser(m: ChatMessage)
  {
    m.role == "user"
  }

  /** `find`: the first message with role `user`. */
  function FindUser(s: seq<ChatMessage>): (r: Option<ChatMessage>)
  {
    if s == [] then None
    else if IsUser(s[0]) then Some(s[0])
    else FindUser(s[1..])
  }

  /** `[...messages].reverse().find(m => m.role === 'user')` */
  function LastUserMessage(msgs: seq<ChatMessage>): Option<ChatMessage>
  {
    FindUser(Reversed(msgs))
  }

  lemma {:induction false} FindUserFinds(s: seq<ChatMessage>)
    ensures FindUser(s).None? <==> forall i :: 0 <= i < |s| ==> !IsUser(s[i])
    ensures FindUser(s).Some? ==>
      exists k :: 0 <= k < |s| && s[k] == FindUser(s).value && IsUser(s[k])
        && forall j :: 0 <= j < k ==> !IsUser(s[j])
  {
    if s != [] && !IsUser(s[0]) {
      FindUserFinds(s[1..]);
      if FindUser(s).Some? {
        var k :| 0 <= k < |s[1..]| && s[1..][k] == FindUser(s).value && IsUser(s[1..][k])
          && forall j :: 0 <= j < k ==> !IsUser(s[1..][j]);
        assert s[k + 1] == FindUser(s).value;
        assert forall j :: 0 <= j < k + 1 ==> !IsUser(s[j]) by {
          forall j | 0 <= j < k + 1 ensures !IsUser(s[j]) {
            if j > 0 { assert s[j] == s[1..][j - 1]; }
          }
        }
      }
    } else if s != [] {
      assert IsUser(s[0]);
    }
  }

  /** The message found is the latest one from the user: there is none
      exactly when no message has role `user`, and otherwise it is a user
      message with no user message after it. */
  lemma LastUserMessageIsLatest(msgs: seq<ChatMessage>)
    ensures LastUserMessage(msgs).None? <==> forall i :: 0 <= i < |msgs| ==> !IsUser(msgs[i])
    ensures LastUserMessage(msgs).Some? ==>
      exists i :: 0 <= i < |msgs| && msgs[i] == LastUserMessage(msgs).value && IsUser(msgs[i])
        && forall j :: i < j < |msgs| ==> !IsUser(msgs[j])
  {
    var r := Reversed(msgs);
    FindUserFinds(r);
    if LastUserMessage(msgs).None? {
      forall i | 0 <= i < |msgs| ensures !IsUser(msgs[i]) {
        assert msgs[i] == r[|msgs| - 1 - i];
      }
    } else {
      var k :| 0 <= k < |r| && r[k] == FindUser(r).value && IsUser(r[k])
        && forall j :: 0 <= j < k ==> !IsUser(r[j]);
      var i := |msgs| - 1 - k;
      forall j | i < j < |msgs| ensures !IsUser(msgs[j]) {
        assert msgs[j] == r[|msgs| - 1 - j];
      }
      assert msgs[i] == r[k];
    }
  }

  /** `lastUserMessage?.content ?? DEFAULT_SEED` */
  function SeedPrompt(msgs: seq<ChatMessage>): (seed: string)
    ensures LastUserMessage(msgs).Some? ==> seed == LastUserMessage(msgs).value.content
    ensures LastUserMessage(msgs).None? ==> seed == DEFAULT_SEED
  {
    match LastUserMessage(msgs)
    case Some(m) => m.content
    case None => DEFAULT_SEED
  }

  /** With no user message in the history, the seed is the default sentence;
      otherwise it is what the latest user message says. */
  lemma SeedPromptIsLatestUserContent(msgs: seq<ChatMessage>)
    ensures (forall i :: 0 <= i < |msgs| ==> !IsUser(msgs[i])) ==> SeedPrompt(msgs) == DEFAULT_SEED
    ensures (exists i :: 0 <= i < |msgs| && IsUser(msgs[i])) ==>
      exists i :: 0 <= i < |msgs| && IsUser(msgs[i]) && SeedPrompt(msgs) == msgs[i].content
        && forall j :: i < j < |msgs| ==> !IsUser(msgs[j])
  {
    LastUserMessageIsLatest(msgs);
  }

  const MOCK_HEADLINE := "Starter research bundle"
  const MOCK_SUMMARY := "Use this as a scaffold while wiring credentials. The UI and orchestration flow are fully wired and ready for live data."
  const SOURCE_URL_1 := "https://example.com/source-1"
  const SOURCE_URL_2 := "https://example.com/source-2"
  const SOURCE_URL_3 := "https://example.com/source-3"
  const SOURCE_2 := Source("Evidence-based literacy overview", SOURCE_URL_2,
    "Placeholder citation to demonstrate multi-source summaries.")
  const SOURCE_3 := Source("At-home reading routines", SOURCE_URL_3,
    "Shows how follow-up research links are rendered for users.")
  const MOCK_FOLLOWUPS := ["Which source should we trust most and why?", "What is the simplest first experiment to run?"]

  lemma MockSourceUrlsDiffer()
    ensures SOURCE_URL_1 != SOURCE_URL_2 && SOURCE_URL_1 != SOURCE_URL_3 && SOURCE_URL_2 != SOURCE_URL_3
  {
    assert SOURCE_URL_1[27] == '1' && SOURCE_URL_2[27] == '2' && SOURCE_URL_3[27] == '3';
  }

  /** `buildMockPackage(topic)` */
  function BuildMockPackage(topic: string): (p: SummaryPackage)
    ensures |p.sources| == 3 && |p.followups| == 2 && p.headline != ""
    ensures p.sources[0].title == "Sample source for: " + topic
    ensures forall i, j :: 0 <= i < j < |p.sources| ==> p.sources[i].url != p.sources[j].url
  {
    MockSourceUrlsDiffer();
    SummaryPackage(
      MOCK_INTRO, MOCK_HEADLINE, MOCK_SUMMARY,
      [ Source("Sample source for: " + topic, SOURCE_URL_1,
               "Demonstrates source packaging and rationale text in the response UI."),
        SOURCE_2, SOURCE_3 ],
      MOCK_FOLLOWUPS)
  }

  const MOCK_QUERY_SUFFIXES := [" evidence", " implementation guide", " expert recommendations"]

  /** The plan a mock reply carries. */
  function MockPlan(seed: string): (plan: SearchPlan)
    ensures plan.objective == "Find practical sources for: " + seed
    ensures |plan.searchQueries| == 3
    ensures forall i :: 0 <= i < 3 ==> plan.searchQueries[i] == seed + MOCK_QUERY_SUFFIXES[i]
  {
    SearchPlan("Find practical sources for: " + seed,
      [seed + " evidence", seed + " implementation guide", seed + " expert recommendations"])
  }

  /** Each mock query starts with the seed, and no two are the same. */
  lemma MockQueriesExtendSeed(seed: string)
    ensures forall i :: 0 <= i < 3 ==> MockPlan(seed).searchQueries[i][..|seed|] == seed
    ensures forall i, j :: 0 <= i < j < 3 ==> MockPlan(seed).searchQueries[i] != MockPlan(seed).searchQueries[j]
  {
    var q := MockPlan(seed).searchQueries;
    forall i | 0 <= i < 3 ensures q[i][..|seed|] == seed {
      assert q[i] == seed + MOCK_QUERY_SUFFIXES[i];
    }
    forall i, j | 0 <= i < j < 3 ensures q[i] != q[j] {
      assert |q[i]| - |seed| == |MOCK_QUERY_SUFFIXES[i]|;
      assert |q[j]| - |seed| == |MOCK_QUERY_SUFFIXES[j]|;
    }
  }

  /** `!openRouterApiKey || !parallelApiKey`: mock mode. */
  predicate MockMode(env: Env)
    ensures env.openRouterApiKey == Some("") || env.parallelApiKey == Some("") ==> MockMode(env)
    ensures env.openRouterApiKey.None? || env.parallelApiKey.None? ==> MockMode(env)
    ensures !MockMode(env) ==>
      && env.openRouterApiKey.Some? && env.openRouterApiKey.value != ""
      && env.parallelApiKey.Some? && env.parallelApiKey.value != ""
  {
    !Present(env.openRouterApiKey) || !Present(env.parallelApiKey)
  }

  /** What the route hands the orchestrator in live mode. */
  function LiveRequest(body: Value, env: Env, sanitize: seq<Value> -> seq<ChatMessage>,
                       summarizeContext: Value -> string): (req: Request)
    requires !MockMode(env)
    ensures req.config.openRouterApiKey == env.openRouterApiKey.value
    ensures req.config.parallelApiKey == env.parallelApiKey.value
    ensures req.config.openRouterModel == ModelName(env)
    ensures req.config.openRouterSiteUrl == env.openRouterSiteUrl
    ensures req.config.openRouterAppName == env.openRouterAppName
    ensures req.seedPrompt == SeedPrompt(sanitize(MessagesOf(body)))
    ensures req.contextSummary == summarizeContext(Prop(body, "context"))
  {
    Request(
      Config(env.openRouterApiKey.value, ModelName(env), env.openRouterSiteUrl,
             env.openRouterAppName, env.parallelApiKey.value),
      summarizeContext(Prop(body, "context")),
      SeedPrompt(sanitize(MessagesOf(body))))
  }

  /** The handler. `body` is None when the request body is not JSON, which
      `request.json()` throws on outside the try block. */
  function Post(body: Option<Value>, env: Env, sanitize: seq<Value> -> seq<ChatMessage>,
                summarizeContext: Value -> string, orchestrate: Request -> Outcome): (r: Response)
    ensures body.None? ==> r == Unhandled
    ensures body.Some? ==> (r.Reply? && r.mode == "mock" <==> MockMode(env))
    ensures body.Some? && !MockMode(env) ==> r.Failure? || (r.Reply? && r.mode == "live")
  {
    match body
    case None => Unhandled
    case Some(b) =>
      var seed := SeedPrompt(sanitize(MessagesOf(b)));
      if MockMode(env) then
        Reply("mock", MOCK_MESSAGE, BuildMockPackage(seed), MockPlan(seed), [])
      else
        match orchestrate(LiveRequest(b, env, sanitize, summarizeContext))
        case Completed(o) => Reply("live", o.summary.intro, o.summary, o.plan, o.results)
        case Threw => Failure(502, FAILURE_MESSAGE)
  }

  /** In mock mode the reply is the mock bundle for the seed prompt, with the
      three-query plan and no results. */
  lemma MockReply(body: Value, env: Env, sanitize: seq<Value> -> seq<ChatMessage>,
                  summarizeContext: Value -> string, orchestrate: Request -> Outcome)
    requires MockMode(env)
    ensures var seed := SeedPrompt(sanitize(MessagesOf(body)));
      Post(Some(body), env, sanitize, summarizeContext, orchestrate)
        == Reply("mock", MOCK_MESSAGE, BuildMockPackage(seed), MockPlan(seed), [])
  {
  }

  /** In mock mode the orchestrator is never consulted: any two orchestrators
      give the same reply. */
  lemma MockNeverCallsOrchestrator(body: Option<Value>, env: Env, sanitize: seq<Value> -> seq<ChatMessage>,
                                   summarizeContext: Value -> string, o1: Request -> Outcome, o2: Request -> Outcome)
    requires MockMode(env)
    ensures Post(body, env, sanitize, summarizeContext, o1) == Post(body, env, sanitize, summarizeContext, o2)
  {
  }

  /** A live success passes the orchestrator's summary, plan and results
      through unchanged, with the summary's intro as the message. */
  lemma LiveSuccessPassesThrough(body: Value, env: Env, sanitize: seq<Value> -> seq<ChatMessage>,
                                 summarizeContext: Value -> string, orchestrate: Request -> Outcome)
    requires !MockMode(env)
    requires orchestrate(LiveRequest(body, env, sanitize, summarizeContext)).Completed?
    ensures var o := orchestrate(LiveRequest(body, env, sanitize, summarizeContext)).orchestration;
      Post(Some(body), env, sanitize, summarizeContext, orchestrate)
        == Reply("live", o.summary.intro, o.summary, o.plan, o.results)
  {
  }

  /** A live failure yields only the 502 error, with no package. */
  lemma LiveFailureIs502(body: Value, env: Env, sanitize: seq<Value> -> seq<ChatMessage>,
                         summarizeContext: Value -> string, orchestrate: Request -> Outcome)
    requires !MockMode(env)
    requires orchestrate(LiveRequest(body, env, sanitize, summarizeContext)).Threw?
    ensures Post(Some(body), env, sanitize, summarizeContext, orchestrate) == Failure(502, "Orchestration failed")
  {
  }

  /** A `messages` field that is not an array reaches the sanitiser as an
      empty history. */
  lemma NonArrayMessagesAreEmpty(body: Value)
    requires !Prop(body, "messages").Arr?
    ensures MessagesOf(body) == []
  {
  }
}
