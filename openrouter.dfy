/** The LLM suggestion pipeline of `OpenRouterService`: request building,
    message sanitising, the retrying transport call and response normalising.

    The chat-completion transport is an oracle `transport: nat -> Outcome`
    whose value at `k` is what the `k`-th call (counting from 0) resolves or
    rejects with. Sleeping is an abstract step that appends its delay to a
    returned log `waits`. JSON parsing and stringifying are injected as a
    `JsonCodec`. */
module OpenRouter {
  import opened Wrappers
  import opened CampaignTypes

  // ---------------------------------------------------------------------
  // Messages, configuration and the outbound request
  // ---------------------------------------------------------------------

  datatype Role = System | User | Assistant

  datatype ChatMessage = ChatMessage(role: Role, content: string)

  /** Sampling parameters a caller may configure; the request never reads them. */
  datatype DefaultParams = DefaultParams(temperature: Option<real>, topP: Option<real>, maxTokens: Option<int>)

  const NoParams := DefaultParams(None, None, None)

  datatype ServiceConfig = ServiceConfig(apiKey: string, defaultModel: Option<string>, defaultParams: Option<DefaultParams>)

  /** The configuration an `OpenRouterService` instance holds. It is fixed by
      the constructor and never changes, so the service is a value. */
  datatype Service = Service(apiKey: string, defaultModel: string, defaultParams: DefaultParams)

  /** The payload handed to the chat-completion transport. */
  datatype ChatRequest = ChatRequest(model: string, messages: seq<ChatMessage>, temperature: real, maxTokens: nat)

  const MaxTokens: nat := 1000
  const FallbackModel := "gpt-3.5-turbo"
  /** The sampling temperature, kept as an uninterpreted constant. */
  const Temperature: real := 0.7
  const MaxContentLength: nat := 2000

  const SystemPrompt := "You are a marketing expert AI. Analyze the provided campaign content and suggest improvements. Focus on making the content more engaging, persuasive, and effective for marketing purposes. Provide specific suggestions while maintaining the original message's intent."
  const GroupSeparator := ", "
  const NoGroupsText := "No specific groups"

  const InvalidCampaignMessage := "Invalid campaign"
  const AuthMessage := "Sprawdź klucz API"
  const RateLimitMessage := "Rate limit exceeded, please try again later"
  const TransportPrefix := "OpenAI error: "
  const NoResponseMessage := "No response from OpenAI"
  const ModelsPrefix := "Failed to fetch models: "

  /** The constructor: an empty or absent setting falls back to its default. */
  function NewService(config: Option<ServiceConfig>, envApiKey: string): (s: Service)
    ensures s.defaultModel != ""
    ensures config.Some? && config.value.defaultModel.Some? && config.value.defaultModel.value != ""
            ==> s.defaultModel == config.value.defaultModel.value
    ensures config.None? || config.value.defaultModel.None? || config.value.defaultModel.value == ""
            ==> s.defaultModel == FallbackModel
    ensures config.Some? && config.value.apiKey != "" ==> s.apiKey == config.value.apiKey
    ensures config.None? || config.value.apiKey == "" ==> s.apiKey == envApiKey
    ensures s.defaultParams == (if config.Some? && config.value.defaultParams.Some?
                                then config.value.defaultParams.value else NoParams)
  {
    match config
    case None => Service(envApiKey, FallbackModel, NoParams)
    case Some(cfg) =>
      Service(OrDefault(Some(cfg.apiKey), envApiKey),
              OrDefault(cfg.defaultModel, FallbackModel),
              cfg.defaultParams.GetOr(NoParams))
  }

  /** The elements with `sep` between each two neighbours, as JavaScript's
      array join (openrouter-service.ts line 54). */
  function Join(xs: seq<string>, sep: string): string
    decreases |xs|
  {
    if |xs| == 0 then "" else if |xs| == 1 then xs[0] else xs[0] + sep + Join(xs[1..], sep)
  }

  /** Joining one more element puts one separator before it. */
  lemma {:induction false} JoinSnoc(xs: seq<string>, x: string, sep: string)
    requires xs != []
    ensures Join(xs + [x], sep) == Join(xs, sep) + sep + x
    decreases |xs|
  {
    if |xs| == 1 {
      assert xs + [x] == [xs[0], x];
    } else {
      assert (xs + [x])[1..] == xs[1..] + [x];
      JoinSnoc(xs[1..], x, sep);
    }
  }

  /** With a non-empty separator the join is empty exactly for `[]` and `[""]`. */
  lemma JoinEmpty(xs: seq<string>, sep: string)
    requires sep != ""
    ensures Join(xs, sep) == "" <==> xs == [] || xs == [""]
  {
    if |xs| >= 2 {
      assert |Join(xs, sep)| >= |sep|;
    } else if |xs| == 1 {
      assert xs == [xs[0]];
    }
  }

  /** The target-groups line of the prompt: the groups joined by ", ", or the
      placeholder when they are absent or join to the empty string
      (openrouter-service.ts line 54). */
  function GroupsText(groups: Option<seq<string>>): (r: string)
    ensures groups.None? || groups.value == [] || groups.value == [""] ==> r == NoGroupsText
    ensures groups.Some? && |groups.value| >= 2 ==> r == Join(groups.value, GroupSeparator)
    ensures groups.Some? && |groups.value| == 1 && groups.value[0] != "" ==> r == groups.value[0]
  {
    match groups
    case None => OrDefault(None, NoGroupsText)
    case Some(gs) =>
      JoinEmpty(gs, GroupSeparator);
      OrDefault(Some(Join(gs, GroupSeparator)), NoGroupsText)
  }

  /** The user message before sanitising; `title` and `description` are
      interpolated as given (an absent one is the empty string). */
  function UserPrompt(title: string, description: string, groupsText: string): string
  {
    "Please analyze and suggest improvements for this marketing campaign:\n"
    + "        Title: " + title + "\n"
    + "        Description: " + description + "\n"
    + "        Target Groups: " + groupsText + "\n"
    + "        \n"
    + "        Please provide improved version of the text I'm currently editing."
  }

  /** The two-message conversation for a campaign, before sanitising. */
  function CampaignMessages(c: Campaign): seq<ChatMessage>
  {
    [ChatMessage(System, SystemPrompt),
     ChatMessage(User, UserPrompt(c.title, c.description, GroupsText(c.groups)))]
  }

  // ---------------------------------------------------------------------
  // Sanitising
  // ---------------------------------------------------------------------

  /** A message content cut to its first 2000 characters
      (openrouter-service.ts lines 128-130). */
  function SanitizeContent(content: string): (r: string)
    ensures |r| == Min(|content|, MaxContentLength)
    ensures r == content[..|r|]
  {
    content[..Min(|content|, MaxContentLength)]
  }

  lemma SanitizeContentIdempotent(content: string)
    ensures SanitizeContent(SanitizeContent(content)) == SanitizeContent(content)
  {
  }

  /** Every message keeps its role; its content is sanitised. */
  function SanitizeMessages(ms: seq<ChatMessage>): (r: seq<ChatMessage>)
    ensures |r| == |ms|
    ensures forall i | 0 <= i < |r| ::
      r[i].role == ms[i].role && r[i].content == SanitizeContent(ms[i].content)
    decreases |ms|
  {
    if ms == [] then []
    else [ChatMessage(ms[0].role, SanitizeContent(ms[0].content))] + SanitizeMessages(ms[1..])
  }

  /** Sanitised messages are within the length bound, and sanitising twice
      changes nothing more. */
  lemma {:induction false} SanitizeMessagesIdempotent(ms: seq<ChatMessage>)
    ensures forall i | 0 <= i < |SanitizeMessages(ms)| :: |SanitizeMessages(ms)[i].content| <= MaxContentLength
    ensures SanitizeMessages(SanitizeMessages(ms)) == SanitizeMessages(ms)
  {
    var once := SanitizeMessages(ms);
    var twice := SanitizeMessages(once);
    forall i | 0 <= i < |once| ensures twice[i] == once[i] {
      SanitizeContentIdempotent(ms[i].content);
    }
  }

  /** `formatMessages`: a field-by-field copy. */
  function FormatMessages(ms: seq<ChatMessage>): (r: seq<ChatMessage>)
    ensures r == ms
  {
    seq(|ms|, i requires 0 <= i < |ms| => ChatMessage(ms[i].role, ms[i].content))
  }

  /** `provideSuggestion` accepts a campaign only when its `uuid` is truthy. */
  predicate ValidCampaign(c: Campaign)
  {
    c.uuid.Some? && c.uuid.value != ""
  }

  /** The payload `provideSuggestion` sends for a campaign. */
  function BuildRequest(s: Service, c: Campaign): (req: ChatRequest)
    ensures |req.messages| == 2
    ensures req.messages[0].role == System && req.messages[1].role == User
    ensures forall i | 0 <= i < |req.messages| :: |req.messages[i].content| <= MaxContentLength
    ensures req.messages[0].content == SystemPrompt
    ensures var full := UserPrompt(c.title, c.description, GroupsText(c.groups));
            req.messages[1].content == full[..Min(|full|, MaxContentLength)]
    ensures req.model == s.defaultModel
    ensures req.maxTokens == MaxTokens && req.temperature == Temperature
  {
    ChatRequest(s.defaultModel, FormatMessages(SanitizeMessages(CampaignMessages(c))), Temperature, MaxTokens)
  }

  /** The request depends on the configured model only: the API key and the
      configured default parameters are never consulted. */
  lemma {:induction false} RequestIgnoresParams(s1: Service, s2: Service, c: Campaign)
    requires s1.defaultModel == s2.defaultModel
    ensures BuildRequest(s1, c) == BuildRequest(s2, c)
  {
  }

  /** The model sent is the configured one, or the fallback when none is set. */
  lemma RequestModel(config: Option<ServiceConfig>, envApiKey: string, c: Campaign)
    ensures var m := BuildRequest(NewService(config, envApiKey), c).model;
            m == (if config.Some? && config.value.defaultModel.Some? && config.value.defaultModel.value != ""
                  then config.value.defaultModel.value else FallbackModel)
  {
  }

  // ---------------------------------------------------------------------
  // The transport and the retry loop
  // ---------------------------------------------------------------------

  datatype FunctionCall = FunctionCall(arguments: Option<string>)
  datatype ChoiceMessage = ChoiceMessage(content: Option<string>, functionCall: Option<FunctionCall>)
  datatype Choice = Choice(message: Option<ChoiceMessage>)
  /** The parts of a chat-completion response the service reads. */
  datatype ChatResponse = ChatResponse(choices: Option<seq<Choice>>)

  /** `error.response`, when the rejection carries one. */
  datatype ErrorResponse = ErrorResponse(status: Option<int>)
  /** A rejection: no `response` at all means a network failure. */
  datatype ApiError = ApiError(response: Option<ErrorResponse>, message: Option<string>)

  datatype Outcome = Resolved(response: ChatResponse) | Rejected(error: ApiError)

  const MaxRetries: nat := 3
  const InitialDelay: nat := 1000
  /** The delays slept before the second, third and fourth call. */
  const Backoff: seq<nat> := [1000, 2000, 4000]

  /** The HTTP status of the rejection's response, absent when there is no
      response or it has no status. */
  function Status(e: ApiError): Option<int>
  {
    if e.response.Some? then e.response.value.status else None
  }

  /** A rejection the loop may retry: rate-limited or a network failure. */
  predicate Transient(e: ApiError)
  {
    Status(e) == Some(429) || e.response.None?
  }

  /** The message a rejection ends the loop with. */
  function TerminalMessage(e: ApiError): (m: string)
    ensures Status(e) == Some(401) <==> m == AuthMessage
    ensures Status(e) == Some(429) <==> m == RateLimitMessage
    ensures Status(e) != Some(401) && Status(e) != Some(429) ==> m == TransportPrefix + MessageText(e.message)
  {
    if Status(e) == Some(401) then AuthMessage
    else if Status(e) == Some(429) then RateLimitMessage
    else
      var m := TransportPrefix + MessageText(e.message);
      assert m[0] == 'O';
      m
  }

  /** The delay held by `delay` once `attempt` retries have been made. */
  function DelayAt(attempt: nat): nat
  {
    if attempt == 0 then InitialDelay else 2 * DelayAt(attempt - 1)
  }

  /** What a run of the loop from some point on produces: its result, the
      number of transport calls and the delays slept. */
  datatype Run = Run(result: Result<ChatResponse, string>, calls: nat, waits: seq<nat>)

  /** The loop of `callOpenAI` from `attempt` retries made and `delay` on. */
  function Retry(transport: nat -> Outcome, attempt: nat, delay: nat): (run: Run)
    requires attempt <= MaxRetries
    ensures 1 <= run.calls <= MaxRetries + 1 - attempt
    ensures |run.waits| == run.calls - 1
    decreases MaxRetries - attempt
  {
    match transport(attempt)
    case Resolved(response) => Run(Ok(response), 1, [])
    case Rejected(e) =>
      if Transient(e) && attempt < MaxRetries then
        var rest := Retry(transport, attempt + 1, delay * 2);
        Run(rest.result, rest.calls + 1, [delay] + rest.waits)
      else
        Run(Err(TerminalMessage(e)), 1, [])
  }

  /** A run that starts after `attempt` calls that slept `waits`. */
  function Resume(attempt: nat, waits: seq<nat>, rest: Run): Run
  {
    Run(rest.result, attempt + rest.calls, waits + rest.waits)
  }

  /** Resuming after one more retry is resuming one step later. */
  lemma ResumeRetry(attempt: nat, waits: seq<nat>, delay: nat, rest: Run)
    ensures Resume(attempt, waits, Resume(1, [delay], rest)) == Resume(attempt + 1, waits + [delay], rest)
  {
    assert waits + ([delay] + rest.waits) == (waits + [delay]) + rest.waits;
  }

  /** `callOpenAI`: call the transport, sleeping `delay` and doubling it
      before each retry of a transient rejection, at most `MaxRetries` times. */
  method CallOpenAI(payload: ChatRequest, transport: nat -> Outcome)
    returns (response: Result<ChatResponse, string>, sent: seq<ChatRequest>, waits: seq<nat>)
    ensures Run(response, |sent|, waits) == Retry(transport, 0, InitialDelay)
    ensures forall i | 0 <= i < |sent| :: sent[i] == payload
  {
    var attempt: nat := 0;
    var delay: nat := InitialDelay;
    sent, waits := [], [];
    while true
      invariant attempt <= MaxRetries
      invariant |sent| == attempt
      invariant forall i | 0 <= i < |sent| :: sent[i] == payload
      invariant Retry(transport, 0, InitialDelay) == Resume(attempt, waits, Retry(transport, attempt, delay))
      decreases MaxRetries - attempt
    {
      var outcome := transport(attempt);
      sent := sent + [payload];
      match outcome {
        case Resolved(r) =>
          response := Ok(r);
          assert Retry(transport, attempt, delay) == Run(Ok(r), 1, []);
          assert waits + [] == waits;
          return;
        case Rejected(e) =>
          if Transient(e) && attempt < MaxRetries {
            assert Retry(transport, attempt, delay)
                == Resume(1, [delay], Retry(transport, attempt + 1, delay * 2));
            ResumeRetry(attempt, waits, delay, Retry(transport, attempt + 1, delay * 2));
            attempt := attempt + 1;
            waits := waits + [delay];
            delay := delay * 2;
          } else {
            response := Err(TerminalMessage(e));
            assert Retry(transport, attempt, delay) == Run(response, 1, []);
            assert waits + [] == waits;
            return;
          }
      }
    }
  }

  /** The delays slept are the first `calls - 1` entries of `Backoff`. */
  lemma {:induction false} RetryWaits(transport: nat -> Outcome, attempt: nat)
    requires attempt <= MaxRetries
    ensures var run := Retry(transport, attempt, DelayAt(attempt));
            run.waits == Backoff[attempt..attempt + run.calls - 1]
    decreases MaxRetries - attempt
  {
    var run := Retry(transport, attempt, DelayAt(attempt));
    match transport(attempt)
    case Resolved(_) =>
    case Rejected(e) =>
      if Transient(e) && attempt < MaxRetries {
        RetryWaits(transport, attempt + 1);
        assert DelayAt(attempt) == Backoff[attempt];
      }
  }

  /** Every call before the last was a transient rejection, and the last
      outcome decides the result: a resolution is returned as is, a rejection
      ends the run with its terminal message, and a transient one only when
      the retries are used up. */
  lemma {:induction false} RetryStops(transport: nat -> Outcome, attempt: nat, delay: nat)
    requires attempt <= MaxRetries
    ensures var run := Retry(transport, attempt, delay);
            var last := attempt + run.calls - 1;
            && (forall k | attempt <= k < last :: transport(k).Rejected? && Transient(transport(k).error))
            && (transport(last).Resolved? ==> run.result == Ok(transport(last).response))
            && (transport(last).Rejected? ==>
                  run.result == Err(TerminalMessage(transport(last).error))
                  && (Transient(transport(last).error) ==> last == MaxRetries))
    decreases MaxRetries - attempt
  {
    match transport(attempt)
    case Resolved(_) =>
    case Rejected(e) =>
      if Transient(e) && attempt < MaxRetries {
        RetryStops(transport, attempt + 1, delay * 2);
      }
  }

  /** The converse: the run stops at the first call that is not a transient
      rejection, or at the call after the last retry. */
  lemma {:induction false} RetryCalls(transport: nat -> Outcome, attempt: nat, delay: nat, last: nat)
    requires attempt <= last <= MaxRetries
    requires forall k | attempt <= k < last :: transport(k).Rejected? && Transient(transport(k).error)
    requires last < MaxRetries ==> transport(last).Resolved? || !Transient(transport(last).error)
    ensures Retry(transport, attempt, delay).calls == last - attempt + 1
    decreases last - attempt
  {
    if attempt < last {
      RetryCalls(transport, attempt + 1, delay * 2, last);
    }
  }

  /** The loop makes one to four calls and sleeps on the backoff schedule. */
  lemma RetryBounds(transport: nat -> Outcome)
    ensures var run := Retry(transport, 0, InitialDelay);
            && 1 <= run.calls <= MaxRetries + 1
            && run.waits == Backoff[..run.calls - 1]
  {
    RetryWaits(transport, 0);
  }

  // ---------------------------------------------------------------------
  // Response normalising
  // ---------------------------------------------------------------------

  datatype JsonValue =
    | JNull | JBool(b: bool) | JNumber(n: int) | JString(s: string)
    | JArray(items: seq<JsonValue>) | JObject(members: seq<(string, JsonValue)>)

  /** `JSON.parse` (partial: `None` is a thrown `SyntaxError`) and `JSON.stringify`. */
  datatype JsonCodec = JsonCodec(parse: string -> Option<JsonValue>, stringify: JsonValue -> string)

  /** `s` is JSON that stringifying its parse gives back unchanged. */
  predicate Canonical(json: JsonCodec, s: string)
  {
    json.parse(s).Some? && json.stringify(json.parse(s).value) == s
  }

  /** What `validateResponse` returns: the plain content as a string, or the
      re-stringified function-call arguments wrapped as `{ content }`. */
  datatype Suggestion = Plain(text: string) | Wrapped(content: string)

  /** The message of the reply's first choice, absent when the reply has no
      choices, an empty list of them, or a first choice without a message
      (openrouter-service.ts line 110). */
  function FirstMessage(response: ChatResponse): Option<ChoiceMessage>
  {
    if response.choices.Some? && |response.choices.value| > 0 then response.choices.value[0].message else None
  }

  function ValidateResponse(response: ChatResponse, json: JsonCodec): (r: Result<Suggestion, string>)
    ensures FirstMessage(response).None? <==> r == Err(NoResponseMessage)
    ensures r.Err? ==> r.error == NoResponseMessage
    ensures FirstMessage(response).Some? && FirstMessage(response).value.functionCall.None? ==>
              r == Ok(Plain(OrDefault(FirstMessage(response).value.content, "")))
    ensures FirstMessage(response).Some? && FirstMessage(response).value.functionCall.Some? ==>
              var m := FirstMessage(response).value;
              match json.parse(OrDefault(m.functionCall.value.arguments, "{}"))
              case Some(v) => r == Ok(Wrapped(json.stringify(v)))
              case None => r == Ok(Plain(OrDefault(m.content, "")))
  {
    match FirstMessage(response)
    case None => Err(NoResponseMessage)
    case Some(m) =>
      if m.functionCall.Some? then
        match json.parse(OrDefault(m.functionCall.value.arguments, "{}"))
        case Some(args) => Ok(Wrapped(json.stringify(args)))
        case None => Ok(Plain(OrDefault(m.content, "")))
      else
        Ok(Plain(OrDefault(m.content, "")))
  }

  /** The text of a suggestion, whether plain or wrapped
      (openrouter-service.ts line 70). */
  function SuggestionText(s: Suggestion): string
  {
    match s
    case Plain(t) => t
    case Wrapped(c) => c
  }

  function Normalize(response: ChatResponse, json: JsonCodec): Result<string, string>
  {
    match ValidateResponse(response, json)
    case Ok(s) => Ok(SuggestionText(s))
    case Err(m) => Err(m)
  }

  /** A reply without a function call yields its content, or "" without one. */
  lemma NormalizePlain(response: ChatResponse, json: JsonCodec, m: ChoiceMessage)
    requires FirstMessage(response) == Some(m) && m.functionCall.None?
    ensures Normalize(response, json) == Ok(if m.content.Some? then m.content.value else "")
  {
  }

  /** A function-call reply whose arguments are canonical JSON yields the
      arguments unchanged. */
  lemma NormalizeFunctionCall(response: ChatResponse, json: JsonCodec, m: ChoiceMessage, args: string)
    requires FirstMessage(response) == Some(m) && m.functionCall == Some(FunctionCall(Some(args)))
    requires args != "" && Canonical(json, args)
    ensures Normalize(response, json) == Ok(args)
  {
  }

  /** A function-call reply yields the stringified parse of its arguments,
      of "{}" when they are absent or empty. */
  lemma NormalizeParsed(response: ChatResponse, json: JsonCodec, m: ChoiceMessage, v: JsonValue)
    requires FirstMessage(response) == Some(m) && m.functionCall.Some?
    requires json.parse(OrDefault(m.functionCall.value.arguments, "{}")) == Some(v)
    ensures Normalize(response, json) == Ok(json.stringify(v))
  {
  }

  /** Absent or empty arguments are read as the empty object "{}". */
  lemma NormalizeEmptyArguments(response: ChatResponse, json: JsonCodec, m: ChoiceMessage)
    requires FirstMessage(response) == Some(m) && m.functionCall.Some?
    requires m.functionCall.value.arguments.None? || m.functionCall.value.arguments == Some("")
    requires json.parse("{}").Some?
    ensures Normalize(response, json) == Ok(json.stringify(json.parse("{}").value))
  {
    NormalizeParsed(response, json, m, json.parse("{}").value);
  }

  /** Arguments that do not parse fall back to the content, without an error. */
  lemma NormalizeParseFailure(response: ChatResponse, json: JsonCodec, m: ChoiceMessage)
    requires FirstMessage(response) == Some(m) && m.functionCall.Some?
    requires json.parse(OrDefault(m.functionCall.value.arguments, "{}")).None?
    ensures Normalize(response, json) == Ok(if m.content.Some? then m.content.value else "")
  {
  }

  // ---------------------------------------------------------------------
  // The facade
  // ---------------------------------------------------------------------

  /** What one `provideSuggestion` produces: its result, the payloads handed
      to the transport, in call order, and the delays slept. */
  datatype SuggestionRun = SuggestionRun(result: Result<string, string>, sent: seq<ChatRequest>, waits: seq<nat>)

  function Repeat(req: ChatRequest, n: nat): (r: seq<ChatRequest>)
    ensures |r| == n && forall i | 0 <= i < n :: r[i] == req
  {
    seq(n, _ => req)
  }

  /** The specification of `provideSuggestion`. */
  function Suggest(s: Service, c: Campaign, transport: nat -> Outcome, json: JsonCodec): SuggestionRun
  {
    if !ValidCampaign(c) then SuggestionRun(Err(InvalidCampaignMessage), [], [])
    else
      var run := Retry(transport, 0, InitialDelay);
      var result := match run.result
        case Ok(response) => Normalize(response, json)
        case Err(m) => Err(m);
      SuggestionRun(result, Repeat(BuildRequest(s, c), run.calls), run.waits)
  }

  method ProvideSuggestion(s: Service, c: Campaign, transport: nat -> Outcome, json: JsonCodec)
    returns (r: Result<string, string>, sent: seq<ChatRequest>, waits: seq<nat>)
    ensures SuggestionRun(r, sent, waits) == Suggest(s, c, transport, json)
    ensures !ValidCampaign(c) ==> r == Err(InvalidCampaignMessage) && sent == [] && waits == []
    ensures ValidCampaign(c) ==> 1 <= |sent| <= MaxRetries + 1 && waits == Backoff[..|sent| - 1]
    ensures forall i | 0 <= i < |sent| :: sent[i] == BuildRequest(s, c)
  {
    if !ValidCampaign(c) {
      return Err(InvalidCampaignMessage), [], [];
    }
    var payload := BuildRequest(s, c);
    var response;
    response, sent, waits := CallOpenAI(payload, transport);
    match response {
      case Ok(resp) => r := Normalize(resp, json);
      case Err(m) => r := Err(m);
    }
    assert sent == Repeat(payload, |sent|);
    RetryBounds(transport);
  }

  /** A campaign without a truthy `uuid` is rejected before any call. */
  lemma InvalidCampaignRejected(s: Service, c: Campaign, transport: nat -> Outcome, json: JsonCodec)
    requires !ValidCampaign(c)
    ensures Suggest(s, c, transport, json) == SuggestionRun(Err(InvalidCampaignMessage), [], [])
  {
  }

  /** Every payload of a valid campaign has the shape the service promises. */
  lemma SuggestPayload(s: Service, c: Campaign, transport: nat -> Outcome, json: JsonCodec)
    requires ValidCampaign(c)
    ensures var run := Suggest(s, c, transport, json);
            && 1 <= |run.sent| <= MaxRetries + 1
            && run.waits == Backoff[..|run.sent| - 1]
            && forall i | 0 <= i < |run.sent| ::
                 && run.sent[i].model == s.defaultModel
                 && run.sent[i].maxTokens == MaxTokens
                 && |run.sent[i].messages| == 2
                 && run.sent[i].messages[0].role == System
                 && run.sent[i].messages[1].role == User
                 && |run.sent[i].messages[0].content| <= MaxContentLength
                 && |run.sent[i].messages[1].content| <= MaxContentLength
  {
    RetryBounds(transport);
  }

  /** A 401 on the first call fails after exactly that call. */
  lemma UnauthorizedFailsFast(s: Service, c: Campaign, transport: nat -> Outcome, json: JsonCodec)
    requires ValidCampaign(c)
    requires transport(0).Rejected? && Status(transport(0).error) == Some(401)
    ensures var run := Suggest(s, c, transport, json);
            run.result == Err(AuthMessage) && |run.sent| == 1 && run.waits == []
  {
  }

  /** A rejection with a response whose status is neither 429 nor 401 is not
      retried and is reported with its message. */
  lemma OtherStatusNotRetried(s: Service, c: Campaign, transport: nat -> Outcome, json: JsonCodec)
    requires ValidCampaign(c)
    requires transport(0).Rejected? && transport(0).error.response.Some?
    requires Status(transport(0).error) != Some(429) && Status(transport(0).error) != Some(401)
    ensures var run := Suggest(s, c, transport, json);
            && run.result == Err(TransportPrefix + MessageText(transport(0).error.message))
            && |run.sent| == 1
  {
  }

  /** When every call is rate-limited the service gives up after four calls. */
  lemma RateLimitExhausted(s: Service, c: Campaign, transport: nat -> Outcome, json: JsonCodec)
    requires ValidCampaign(c)
    requires forall k: nat :: transport(k).Rejected? && Status(transport(k).error) == Some(429)
    ensures var run := Suggest(s, c, transport, json);
            run.result == Err(RateLimitMessage) && |run.sent| == 4 && run.waits == Backoff
  {
    RetryCalls(transport, 0, InitialDelay, MaxRetries);
    RetryStops(transport, 0, InitialDelay);
    RetryBounds(transport);
  }

  /** When every call fails at the network level the service gives up after
      four calls with the last error's message. */
  lemma NetworkExhausted(s: Service, c: Campaign, transport: nat -> Outcome, json: JsonCodec)
    requires ValidCampaign(c)
    requires forall k: nat :: transport(k).Rejected? && transport(k).error.response.None?
    ensures var run := Suggest(s, c, transport, json);
            && run.result == Err(TransportPrefix + MessageText(transport(MaxRetries).error.message))
            && |run.sent| == 4 && run.waits == Backoff
  {
    RetryCalls(transport, 0, InitialDelay, MaxRetries);
    RetryStops(transport, 0, InitialDelay);
    RetryBounds(transport);
  }

  /** Two network failures and then a resolution: three calls, the
      resolution's suggestion, two sleeps. */
  lemma RecoversAfterTwoNetworkFailures(s: Service, c: Campaign, transport: nat -> Outcome, json: JsonCodec)
    requires ValidCampaign(c)
    requires transport(0).Rejected? && transport(0).error.response.None?
    requires transport(1).Rejected? && transport(1).error.response.None?
    requires transport(2).Resolved?
    ensures var run := Suggest(s, c, transport, json);
            && run.result == Normalize(transport(2).response, json)
            && |run.sent| == 3 && run.waits == [1000, 2000]
  {
    RetryCalls(transport, 0, InitialDelay, 2);
    RetryStops(transport, 0, InitialDelay);
    RetryBounds(transport);
  }

  // ---------------------------------------------------------------------
  // Model listing
  // ---------------------------------------------------------------------

  datatype ModelInfo = ModelInfo(id: string)

  /** `getSupportedModels` over the outcome of the model-listing call. */
  function SupportedModels(listing: Result<seq<ModelInfo>, ApiError>): (r: Result<seq<string>, string>)
    ensures listing.Ok? ==> r.Ok? && |r.value| == |listing.value|
                            && forall i | 0 <= i < |r.value| :: r.value[i] == listing.value[i].id
    ensures listing.Err? ==> r == Err(ModelsPrefix + MessageText(listing.error.message))
  {
    match listing
    case Ok(models) => Ok(seq(|models|, i requires 0 <= i < |models| => models[i].id))
    case Err(e) => Err(ModelsPrefix + MessageText(e.message))
  }

  // ---------------------------------------------------------------------
  // The scenarios of the service's unit tests
  // ---------------------------------------------------------------------

  /** The tests' campaign: uuid "campaign-123" and every other field absent. */
  const SampleCampaign := Campaign(Some("campaign-123"), None, "", "", None, 0, 0)
  const TestService := NewService(Some(ServiceConfig("test-key", None, None)), "")
  const FooBarArguments := "{\"foo\":\"bar\"}"

  function Reply(m: ChoiceMessage): ChatResponse
  {
    ChatResponse(Some([Choice(Some(m))]))
  }

  /** The transports the tests script. */
  function AlwaysResolves(m: ChoiceMessage): nat -> Outcome
  {
    _ => Resolved(Reply(m))
  }

  function AlwaysRejects(e: ApiError): nat -> Outcome
  {
    _ => Rejected(e)
  }

  function NetworkTwiceThen(m: ChoiceMessage): nat -> Outcome
  {
    k => if k < 2 then Rejected(ApiError(None, None)) else Resolved(Reply(m))
  }

  lemma ParsesSimpleResponse(json: JsonCodec)
    ensures var run := Suggest(TestService, SampleCampaign, AlwaysResolves(ChoiceMessage(Some("hello world"), None)), json);
            run.result == Ok("hello world") && |run.sent| == 1
  {
  }

  lemma ParsesFunctionCallArguments(json: JsonCodec)
    requires Canonical(json, FooBarArguments)
    ensures var run := Suggest(TestService, SampleCampaign,
                               AlwaysResolves(ChoiceMessage(None, Some(FunctionCall(Some(FooBarArguments))))), json);
            run.result == Ok(FooBarArguments)
  {
  }

  lemma RetriesOnNetworkErrors(json: JsonCodec)
    ensures var run := Suggest(TestService, SampleCampaign, NetworkTwiceThen(ChoiceMessage(Some("retry success"), None)), json);
            run.result == Ok("retry success") && |run.sent| == 3
  {
    var m := ChoiceMessage(Some("retry success"), None);
    var t := NetworkTwiceThen(m);
    RecoversAfterTwoNetworkFailures(TestService, SampleCampaign, t, json);
    assert t(2) == Resolved(Reply(m));
    assert FirstMessage(Reply(m)) == Some(m);
    NormalizePlain(Reply(m), json, m);
  }

  lemma ThrowsOnUnauthorized(json: JsonCodec)
    ensures var run := Suggest(TestService, SampleCampaign,
                               AlwaysRejects(ApiError(Some(ErrorResponse(Some(401))), Some("unauthorized"))), json);
            run.result == Err("Sprawdź klucz API")
  {
  }

  lemma ThrowsOnRateLimitAfterRetries(json: JsonCodec)
    ensures var run := Suggest(TestService, SampleCampaign,
                               AlwaysRejects(ApiError(Some(ErrorResponse(Some(429))), Some("rate"))), json);
            run.result == Err("Rate limit exceeded, please try again later") && |run.sent| == 4
  {
    RateLimitExhausted(TestService, SampleCampaign,
                       AlwaysRejects(ApiError(Some(ErrorResponse(Some(429))), Some("rate"))), json);
  }

  lemma FetchesSupportedModels()
    ensures SupportedModels(Ok([ModelInfo("model1"), ModelInfo("model2")])) == Ok(["model1", "model2"])
  {
    var r := SupportedModels(Ok([ModelInfo("model1"), ModelInfo("model2")]));
    assert r.value == ["model1", "model2"];
  }

  lemma PropagatesListModelsFailure()
    ensures SupportedModels(Err(ApiError(None, Some("fail")))) == Err("Failed to fetch models: fail")
  {
    assert ModelsPrefix + "fail" == "Failed to fetch models: fail";
  }
}
