/** The chat gateway: the `POST` handler of the `/api/agent` endpoint.
    It validates the request body, picks one of three OpenAI-compatible
    providers, prepends the fixed system prompt to the caller's transcript,
    makes one completion call and normalises the reply or the error.
    The completion call itself is an oracle passed in by the caller. */
module ChatGateway {
  import opened Util

  // ---------------------------------------------------------------- data

  datatype Role = System | User | Assistant

  /** One conversation turn, `{ role, content }`. */
  datatype Turn = Turn(role: Role, content: string)

  /** The three providers the endpoint knows. */
  datatype Provider = Gemini | OpenRouter | Groq {
    /** The string the request body uses for this provider. */
    function Name(): string {
      match this
      case Gemini => "gemini"
      case OpenRouter => "openrouter"
      case Groq => "groq"
    }
  }

  /** The `messages` field of the parsed body. */
  datatype MessagesField =
    | Absent            // missing, null or another falsy value
    | NotAnArray        // present but not an array
    | Turns(turns: seq<Turn>)

  /** A request as the handler sees it: either reading the body threw with
      `parseError` (invalid JSON, or a `null` body that cannot be
      destructured) or it yields three fields.
      `provider` and `model` are `None` when missing or not strings. */
  datatype Request =
    | Unparsable(parseError: string)
    | Body(messages: MessagesField, provider: Option<string>, model: Option<string>)

  datatype ResponseBody = ReplyBody(reply: string) | ErrorBody(error: string)

  /** A JSON response: HTTP status and body. */
  datatype Response = Response(status: int, body: ResponseBody)

  /** The OpenAI client configuration chosen for a provider. */
  datatype Client = Client(apiKey: string, baseUrl: string)

  /** The arguments of `client.chat.completions.create`. The temperature is
      kept as the exact decimal the source writes. */
  datatype Completion = Completion(model: string, messages: seq<Turn>, temperature: real)

  /** One element of `response.choices`; `content` is `None` when the choice
      has no message or the message has no content. */
  datatype Choice = Choice(content: Option<string>)

  /** What the completion call produces: a response, or a thrown error. */
  datatype UpstreamOutcome = Completed(choices: seq<Choice>) | Threw(message: string)

  /** What the handler does after its local checks: answer at once, or make
      exactly one upstream call with this client and these arguments. */
  datatype Step = Respond(response: Response) | CallUpstream(client: Client, completion: Completion)

  // ----------------------------------------------------------- constants

  const INVALID_MESSAGES := "Invalid messages format"
  const INVALID_PROVIDER := "Invalid provider selected"
  const INTERNAL_ERROR := "Internal Server Error"
  const NO_REPLY := "Sorry, I couldn't generate a response."
  const DUMMY_KEY := "dummy-key"
  const TEMPERATURE: real := 0.3

  /** The environment variable that holds a provider's API key. */
  function ApiKeyVariable(p: Provider): (v: string)
    ensures |v| > 8 && v[|v| - 8..] == "_API_KEY"
  {
    match p
    case Gemini => "GEMINI_API_KEY"
    case OpenRouter => "OPENROUTER_API_KEY"
    case Groq => "GROQ_API_KEY"
  }

  /** The provider's OpenAI-compatible endpoint. */
  function BaseUrl(p: Provider): (u: string)
    ensures |u| > 8 && u[..8] == "https://"
  {
    var rest :=
      match p
      case Gemini => "generativelanguage.googleapis.com/v1beta/openai/"
      case OpenRouter => "openrouter.ai/api/v1"
      case Groq => "api.groq.com/openai/v1";
    assert ("https://" + rest)[..8] == "https://";
    "https://" + rest
  }

  /** The model used when the request names none. */
  function DefaultModel(p: Provider): (m: string)
    ensures m != ""
  {
    match p
    case Gemini => "gemini-2.0-flash"
    case OpenRouter => "meta-llama/llama-4-scout-17b-16e-instruct"
    case Groq => "llama-3.2-11b-vision-preview"
  }

  // ---------------------------------------------------------- operations

  /** The `switch (provider)`: only the three exact strings are accepted. */
  function ParseProvider(provider: Option<string>): (r: Option<Provider>)
    ensures r.Some? <==> provider.Some? && provider.value in {"gemini", "openrouter", "groq"}
    ensures r.Some? ==> r.value.Name() == provider.value
  {
    if provider == Some("gemini") then Some(Gemini)
    else if provider == Some("openrouter") then Some(OpenRouter)
    else if provider == Some("groq") then Some(Groq)
    else None
  }

  /** `process.env.<KEY> || 'dummy-key'`: an unset or empty variable falls back. */
  function ApiKey(env: map<string, string>, p: Provider): (key: string)
    ensures key != ""
    ensures ApiKeyVariable(p) in env && env[ApiKeyVariable(p)] != "" ==> key == env[ApiKeyVariable(p)]
    ensures ApiKeyVariable(p) !in env || env[ApiKeyVariable(p)] == "" ==> key == DUMMY_KEY
  {
    var name := ApiKeyVariable(p);
    if name in env then OrElse(env[name], DUMMY_KEY) else DUMMY_KEY
  }

  function ClientFor(env: map<string, string>, p: Provider): (c: Client)
    ensures c.baseUrl == BaseUrl(p) && c.apiKey == ApiKey(env, p)
  {
    Client(ApiKey(env, p), BaseUrl(p))
  }

  /** `model || <provider default>`: a falsy model is replaced by the
      provider's default, a truthy one passes through unchanged. */
  function SelectModel(model: Option<string>, p: Provider): (m: string)
    ensures m != ""
    ensures Truthy(model) ==> m == model.value
    ensures !Truthy(model) ==> m == DefaultModel(p)
  {
    if model.Some? then OrElse(model.value, DefaultModel(p)) else DefaultModel(p)
  }

  /** The upstream transcript: one system turn, then the caller's turns. */
  function UpstreamMessages(systemPrompt: string, turns: seq<Turn>): (ms: seq<Turn>)
    ensures |ms| == |turns| + 1
    ensures ms[0] == Turn(System, systemPrompt)
    ensures forall i :: 0 <= i < |turns| ==> ms[i + 1] == turns[i]
  {
    [Turn(System, systemPrompt)] + turns
  }

  /** The response for a caught error: status 500 and the error's message,
      or a generic message when that is empty. */
  function ErrorResponse(message: string): (r: Response)
    ensures r.status == 500 && r.body.ErrorBody? && r.body.error != ""
    ensures message != "" ==> r.body.error == message
    ensures message == "" ==> r.body.error == INTERNAL_ERROR
  {
    Response(500, ErrorBody(OrElse(message, INTERNAL_ERROR)))
  }

  /** `response.choices[0]?.message?.content`, with a missing value read as "". */
  function FirstContent(choices: seq<Choice>): (s: string)
    ensures |choices| > 0 && choices[0].content.Some? ==> s == choices[0].content.value
    ensures |choices| == 0 || choices[0].content.None? ==> s == ""
  {
    if |choices| > 0 && choices[0].content.Some? then choices[0].content.value else ""
  }

  /** Everything the handler does before the completion call. The body is
      checked first, then the provider; only a request that passes both
      produces an upstream call. */
  function Prepare(systemPrompt: string, env: map<string, string>, req: Request): (s: Step)
    ensures req.Unparsable? ==> s == Respond(ErrorResponse(req.parseError))
    ensures req.Body? && !req.messages.Turns? ==> s == Respond(Response(400, ErrorBody(INVALID_MESSAGES)))
    ensures req.Body? && req.messages.Turns? && ParseProvider(req.provider).None? ==>
              s == Respond(Response(400, ErrorBody(INVALID_PROVIDER)))
    ensures s.CallUpstream? <==> req.Body? && req.messages.Turns? && ParseProvider(req.provider).Some?
    ensures s.CallUpstream? ==>
              var p := ParseProvider(req.provider).value;
              && s.client == ClientFor(env, p)
              && s.completion.model == SelectModel(req.model, p)
              && s.completion.messages == UpstreamMessages(systemPrompt, req.messages.turns)
              && s.completion.temperature == TEMPERATURE
  {
    match req
    case Unparsable(e) => Respond(ErrorResponse(e))
    case Body(messages, provider, model) =>
      if !messages.Turns? then
        Respond(Response(400, ErrorBody(INVALID_MESSAGES)))
      else
        match ParseProvider(provider)
        case None => Respond(Response(400, ErrorBody(INVALID_PROVIDER)))
        case Some(p) =>
          CallUpstream(ClientFor(env, p),
                       Completion(SelectModel(model, p), UpstreamMessages(systemPrompt, messages.turns), TEMPERATURE))
  }

  /** Everything the handler does after the completion call: a non-empty
      first choice is the reply, an empty or missing one gives the fixed
      apology, and a thrown error becomes a 500. */
  function Finish(outcome: UpstreamOutcome): (r: Response)
    ensures r.status == 200 <==> outcome.Completed?
    ensures outcome.Completed? ==> r.body.ReplyBody? && r.body.reply != ""
    ensures outcome.Completed? && FirstContent(outcome.choices) != "" ==> r.body.reply == FirstContent(outcome.choices)
    ensures outcome.Completed? && FirstContent(outcome.choices) == "" ==> r.body.reply == NO_REPLY
    ensures (outcome.Completed? && |outcome.choices| > 0 && outcome.choices[0].content.Some?
             && outcome.choices[0].content.value != "") ==> r.body.reply == outcome.choices[0].content.value
    ensures outcome.Threw? ==> r == ErrorResponse(outcome.message)
  {
    match outcome
    case Completed(choices) => Response(200, ReplyBody(OrElse(FirstContent(choices), NO_REPLY)))
    case Threw(message) => ErrorResponse(message)
  }

  /** The whole handler. `upstream` stands for the completion call; it is
      consulted only when `Prepare` asks for an upstream call. */
  function Post(systemPrompt: string, env: map<string, string>, req: Request,
                upstream: (Client, Completion) -> UpstreamOutcome): (r: Response)
    ensures r.status in {200, 400, 500}
    ensures r.status == 200 <==> r.body.ReplyBody?
    ensures r.body.ReplyBody? ==> r.body.reply != ""
    ensures r.body.ErrorBody? ==> r.body.error != ""
    ensures Prepare(systemPrompt, env, req).Respond? ==> r == Prepare(systemPrompt, env, req).response
  {
    match Prepare(systemPrompt, env, req)
    case Respond(response) => response
    case CallUpstream(client, completion) => Finish(upstream(client, completion))
  }

  // -------------------------------------------------------------- lemmas

  /** A body without a messages array is rejected with 400 before the
      provider is looked at, whatever the provider and the upstream. */
  lemma MessagesCheckedFirst(systemPrompt: string, env: map<string, string>, req: Request,
                             upstream: (Client, Completion) -> UpstreamOutcome)
    requires req.Body? && !req.messages.Turns?
    ensures Post(systemPrompt, env, req, upstream) == Response(400, ErrorBody(INVALID_MESSAGES))
  {
  }

  /** An unknown provider is rejected with 400, whatever the upstream. */
  lemma UnknownProviderRejected(systemPrompt: string, env: map<string, string>, req: Request,
                                upstream: (Client, Completion) -> UpstreamOutcome)
    requires req.Body? && req.messages.Turns?
    requires req.provider.None? || req.provider.value !in {"gemini", "openrouter", "groq"}
    ensures Post(systemPrompt, env, req, upstream) == Response(400, ErrorBody(INVALID_PROVIDER))
  {
  }

  /** A request rejected by the local checks does not depend on the
      upstream at all: two different upstreams give the same answer. */
  lemma RejectionMakesNoCall(systemPrompt: string, env: map<string, string>, req: Request,
                             u1: (Client, Completion) -> UpstreamOutcome,
                             u2: (Client, Completion) -> UpstreamOutcome)
    requires Prepare(systemPrompt, env, req).Respond?
    ensures Post(systemPrompt, env, req, u1) == Post(systemPrompt, env, req, u2)
  {
  }

  /** The provider's name parses back to the provider, and the three
      providers are told apart by their names, base URLs and key variables. */
  lemma ProviderNamesRoundTrip(p: Provider, q: Provider)
    ensures ParseProvider(Some(p.Name())) == Some(p)
    ensures p != q ==> p.Name() != q.Name() && BaseUrl(p) != BaseUrl(q) && ApiKeyVariable(p) != ApiKeyVariable(q)
  {
  }

  /** A successful answer is the first choice's content when that is
      non-empty and the fixed apology otherwise; the upstream is called
      exactly with the prepared client and arguments. */
  lemma ReplyOfUpstream(systemPrompt: string, env: map<string, string>, req: Request,
                        upstream: (Client, Completion) -> UpstreamOutcome)
    requires Prepare(systemPrompt, env, req).CallUpstream?
    ensures var s := Prepare(systemPrompt, env, req);
            var outcome := upstream(s.client, s.completion);
            && (outcome.Completed? ==>
                  Post(systemPrompt, env, req, upstream) ==
                  Response(200, ReplyBody(OrElse(FirstContent(outcome.choices), NO_REPLY))))
            && (outcome.Threw? ==>
                  Post(systemPrompt, env, req, upstream) == ErrorResponse(outcome.message))
  {
  }
}
