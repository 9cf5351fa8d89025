/** The "Ask AI" chat widget's client state: the transcript, the input
    line, the chosen provider and model, and the like/dislike marks on
    replies. `sendMessage` posts to the chat gateway; the HTTP round trip
    is an oracle from the request to what the client receives. */
module ChatWidget {
  import opened Util
  import opened ChatGateway

  const CHAT_APOLOGY := "Sorry, something went wrong. Please try again."

  /** The `MODELS` table: the models the menu offers for each provider. */
  function Models(p: Provider): (ms: seq<string>)
    ensures |ms| >= 1
    ensures forall i :: 0 <= i < |ms| ==> ms[i] != ""
  {
    match p
    case Gemini => ["gemini-2.0-flash", "gemini-2.5-flash", "gemini-2.5-flash-lite"]
    case OpenRouter => ["mistralai/mistral-7b-instruct:free", "nvidia/nemotron-nano-9b-v2:free",
                        "qwen/qwen3-coder:free", "tngtech/deepseek-r1t2-chimera:free"]
    case Groq => ["meta-llama/llama-4-scout-17b-16e-instruct", "llama-3.3-70b-versatile"]
  }

  // ------------------------------------------------------------ trimming

  /** The characters `String.prototype.trim` removes: ECMAScript WhiteSpace
      (tab, vertical tab, form feed, space, no-break space, byte order mark
      and the Unicode space separators) and LineTerminator. */
  predicate IsJsWhiteSpace(c: char) {
    || c == '\t' || c == '\n' || c == '\U{000B}' || c == '\U{000C}' || c == '\r' || c == ' '
    || c == '\U{00A0}' || c == '\U{1680}' || ('\U{2000}' <= c <= '\U{200A}')
    || c == '\U{2028}' || c == '\U{2029}' || c == '\U{202F}' || c == '\U{205F}'
    || c == '\U{3000}' || c == '\U{FEFF}'
  }

  predicate IsBlank(s: string) {
    forall i :: 0 <= i < |s| ==> IsJsWhiteSpace(s[i])
  }

  /** Drops leading white space: the result is a suffix of `s`, what was
      dropped is all white space, and the result starts with a non-space. */
  function TrimStart(s: string): (r: string)
    ensures |r| <= |s| && r == s[|s| - |r|..]
    ensures IsBlank(s[..|s| - |r|])
    ensures r == [] || !IsJsWhiteSpace(r[0])
  {
    if s != [] && IsJsWhiteSpace(s[0]) then TrimStart(s[1..]) else s
  }

  /** Drops trailing white space: the result is a prefix of `s`, what was
      dropped is all white space, and the result ends with a non-space. */
  function TrimEnd(s: string): (r: string)
    ensures |r| <= |s| && r == s[..|r|]
    ensures IsBlank(s[|r|..])
    ensures r == [] || !IsJsWhiteSpace(r[|r| - 1])
  {
    if s != [] && IsJsWhiteSpace(s[|s| - 1]) then TrimEnd(s[..|s| - 1]) else s
  }

  /** `s.trim()`: no longer than `s`, with white space at neither end, and
      empty (so `!input.trim()` holds) exactly for strings made only of
      white space. */
  function Trim(s: string): (r: string)
    ensures |r| <= |s|
    ensures r == [] || (!IsJsWhiteSpace(r[0]) && !IsJsWhiteSpace(r[|r| - 1]))
    ensures r == "" <==> IsBlank(s)
  {
    TrimEnd(TrimStart(s))
  }

  /** `s.trim()` is the slice of `s` left after cutting white space from
      both ends. */
  lemma TrimIsSlice(s: string)
    ensures var r := Trim(s);
            exists a :: 0 <= a <= |s| - |r| && r == s[a..a + |r|] && IsBlank(s[..a]) && IsBlank(s[a + |r|..])
  {
    var t := TrimStart(s);
    var a := |s| - |t|;
    assert Trim(s) == s[a..a + |Trim(s)|];
  }

  // ---------------------------------------------------- like / dislike

  datatype Reaction = Neutral | Liked | Disliked

  /** The mark a reply shows, read from the two index sets. */
  function ReactionOf(liked: set<nat>, disliked: set<nat>, i: nat): Reaction {
    if i in liked then Liked else if i in disliked then Disliked else Neutral
  }

  /** `handleLike(idx)` on the two sets: a liked reply is unliked; any other
      is liked and loses a dislike. Only `idx` changes, and disjoint sets
      stay disjoint. */
  function Like(liked: set<nat>, disliked: set<nat>, idx: nat): (r: (set<nat>, set<nat>))
    ensures forall i :: i != idx ==> (i in r.0 <==> i in liked) && (i in r.1 <==> i in disliked)
    ensures idx in r.0 <==> idx !in liked
    ensures idx !in liked ==> idx !in r.1
    ensures idx in liked ==> (idx in r.1 <==> idx in disliked)
    ensures liked !! disliked ==> r.0 !! r.1
  {
    if idx in liked then (liked - {idx}, disliked) else (liked + {idx}, disliked - {idx})
  }

  /** `handleDislike(idx)`: the mirror image of `Like`. */
  function Dislike(liked: set<nat>, disliked: set<nat>, idx: nat): (r: (set<nat>, set<nat>))
    ensures forall i :: i != idx ==> (i in r.0 <==> i in liked) && (i in r.1 <==> i in disliked)
    ensures idx in r.1 <==> idx !in disliked
    ensures idx !in disliked ==> idx !in r.0
    ensures idx in disliked ==> (idx in r.0 <==> idx in liked)
    ensures liked !! disliked ==> r.0 !! r.1
  {
    if idx in disliked then (liked, disliked - {idx}) else (liked - {idx}, disliked + {idx})
  }

  /** On disjoint sets, liking toggles the reply between Liked and Neutral
      and turns a dislike into a like; every other reply keeps its mark. */
  lemma LikeReactions(liked: set<nat>, disliked: set<nat>, idx: nat, i: nat)
    requires liked !! disliked
    ensures var r := Like(liked, disliked, idx);
            ReactionOf(r.0, r.1, i) ==
              if i != idx then ReactionOf(liked, disliked, i)
              else if ReactionOf(liked, disliked, idx) == Liked then Neutral
              else Liked
  {
  }

  /** On disjoint sets, disliking toggles the reply between Disliked and
      Neutral and turns a like into a dislike; every other reply keeps its mark. */
  lemma DislikeReactions(liked: set<nat>, disliked: set<nat>, idx: nat, i: nat)
    requires liked !! disliked
    ensures var r := Dislike(liked, disliked, idx);
            ReactionOf(r.0, r.1, i) ==
              if i != idx then ReactionOf(liked, disliked, i)
              else if ReactionOf(liked, disliked, idx) == Disliked then Neutral
              else Disliked
  {
  }

  // -------------------------------------------------------- the request

  /** What `fetch` and `response.json()` give back: the gateway's JSON
      response, or a thrown error (network failure, unparsable body). */
  datatype ServerAnswer = Delivered(response: Response) | RequestFailed

  /** The assistant turn `sendMessage` appends for an answer: the reply, or
      the apology when the body has a truthy `error` or the request threw.
      An error body with an empty message (which the gateway never sends)
      would leave `data.reply` undefined; it is read as "". */
  function AssistantText(answer: ServerAnswer): (text: string)
    ensures answer.RequestFailed? ==> text == CHAT_APOLOGY
    ensures answer.Delivered? && answer.response.body.ReplyBody? ==> text == answer.response.body.reply
    ensures answer.Delivered? && answer.response.body.ErrorBody? && answer.response.body.error != "" ==>
              text == CHAT_APOLOGY
  {
    match answer
    case RequestFailed => CHAT_APOLOGY
    case Delivered(Response(_, ReplyBody(reply))) => reply
    case Delivered(Response(_, ErrorBody(error))) => if error != "" then CHAT_APOLOGY else ""
  }

  /** The body `sendMessage` posts. */
  function ChatRequest(history: seq<Turn>, p: Provider, model: string): (r: Request)
    ensures r.Body? && r.messages == Turns(history) && r.model == Some(model)
    ensures ParseProvider(r.provider) == Some(p)
  {
    Body(Turns(history), Some(p.Name()), Some(model))
  }

  /** Every request the widget can send passes the gateway's checks and is
      forwarded with the widget's own model (never a provider default) and
      with the transcript after the system turn. */
  lemma WidgetRequestReachesUpstream(systemPrompt: string, env: map<string, string>,
                                     history: seq<Turn>, p: Provider, model: string)
    requires model in Models(p)
    ensures Prepare(systemPrompt, env, ChatRequest(history, p, model)) ==
              CallUpstream(ClientFor(env, p), Completion(model, UpstreamMessages(systemPrompt, history), TEMPERATURE))
  {
  }

  /** Against the gateway, the assistant turn is never empty: it is the
      gateway's reply on success and the apology on any error response. */
  lemma AssistantTextFromGateway(systemPrompt: string, env: map<string, string>, req: Request,
                                 upstream: (Client, Completion) -> UpstreamOutcome)
    ensures var response := Post(systemPrompt, env, req, upstream);
            var text := AssistantText(Delivered(response));
            && text != ""
            && (response.body.ReplyBody? ==> text == response.body.reply)
            && (response.body.ErrorBody? ==> text == CHAT_APOLOGY)
  {
  }

  // ------------------------------------------------------------- the widget

  /** All of the widget's state that these handlers touch. */
  datatype State = State(
    messages: seq<Turn>,
    input: string,
    isLoading: bool,
    provider: Provider,
    model: string,
    providerMenuOpen: bool,
    modelMenuOpen: bool,
    liked: set<nat>,
    disliked: set<nat>)

  class Widget {
    var messages: seq<Turn>
    var input: string
    var isLoading: bool
    var provider: Provider
    var model: string
    var providerMenuOpen: bool
    var modelMenuOpen: bool
    var liked: set<nat>
    var disliked: set<nat>

    ghost function Snapshot(): State
      reads this
    {
      State(messages, input, isLoading, provider, model, providerMenuOpen, modelMenuOpen, liked, disliked)
    }

    /** No reply is both liked and disliked, and the model is one the menu
        offers for the current provider. */
    ghost predicate Valid()
      reads this
    {
      liked !! disliked && model in Models(provider)
    }

    /** The initial state: empty transcript and input, Gemini with its first model. */
    constructor ()
      ensures Valid()
      ensures Snapshot() == State([], "", false, Gemini, "gemini-2.0-flash", false, false, {}, {})
    {
      messages := [];
      input := "";
      isLoading := false;
      provider := Gemini;
      model := Models(Gemini)[0];
      providerMenuOpen := false;
      modelMenuOpen := false;
      liked := {};
      disliked := {};
    }

    /** `handleProviderSelect(p)`: switch provider, take its first model, close the menu. */
    method HandleProviderSelect(p: Provider)
      requires Valid()
      modifies this
      ensures Valid()
      ensures Snapshot() == old(Snapshot()).(provider := p, model := Models(p)[0], providerMenuOpen := false)
    {
      provider := p;
      model := Models(p)[0];
      providerMenuOpen := false;
    }

    /** `handleModelSelect(m)`: take the model and close the menu. The menu
        offers only the current provider's models, and those keep `Valid()`. */
    method HandleModelSelect(m: string)
      requires Valid()
      modifies this
      ensures Snapshot() == old(Snapshot()).(model := m, modelMenuOpen := false)
      ensures Valid() <==> m in Models(provider)
    {
      model := m;
      modelMenuOpen := false;
    }

    /** The input field's `onChange`. */
    method SetInput(value: string)
      modifies this
      ensures Snapshot() == old(Snapshot()).(input := value)
    {
      input := value;
    }

    /** `handleLike(idx)`: copy both sets, toggle `idx` as `Like` says. */
    method HandleLike(idx: nat)
      requires Valid()
      modifies this
      ensures Valid()
      ensures (liked, disliked) == Like(old(liked), old(disliked), idx)
      ensures Snapshot() == old(Snapshot()).(liked := liked, disliked := disliked)
    {
      var newLiked := liked;
      var newDisliked := disliked;
      if idx in newLiked {
        newLiked := newLiked - {idx};
      } else {
        newLiked := newLiked + {idx};
        newDisliked := newDisliked - {idx};
      }
      liked := newLiked;
      disliked := newDisliked;
    }

    /** `handleDislike(idx)`: copy both sets, toggle `idx` as `Dislike` says. */
    method HandleDislike(idx: nat)
      requires Valid()
      modifies this
      ensures Valid()
      ensures (liked, disliked) == Dislike(old(liked), old(disliked), idx)
      ensures Snapshot() == old(Snapshot()).(liked := liked, disliked := disliked)
    {
      var newLiked := liked;
      var newDisliked := disliked;
      if idx in newDisliked {
        newDisliked := newDisliked - {idx};
      } else {
        newDisliked := newDisliked + {idx};
        newLiked := newLiked - {idx};
      }
      liked := newLiked;
      disliked := newDisliked;
    }

    /** `sendMessage()`. Blank input changes nothing and posts nothing.
        Otherwise the user turn is appended and the input cleared, the
        earlier transcript plus the user turn is posted with the current
        provider and model, exactly one assistant turn is appended for the
        answer, and `isLoading` ends false. The result is the posted request. */
    method SendMessage(server: Request -> ServerAnswer) returns (posted: Option<Request>)
      requires Valid()
      modifies this
      ensures Valid()
      ensures IsBlank(old(input)) ==> posted == None && Snapshot() == old(Snapshot())
      ensures !IsBlank(old(input)) ==>
                var userTurn := Turn(User, old(input));
                && posted == Some(ChatRequest(old(messages) + [userTurn], provider, model))
                && Snapshot() == old(Snapshot()).(
                     messages := old(messages) + [userTurn, Turn(Assistant, AssistantText(server(posted.value)))],
                     input := "",
                     isLoading := false)
      ensures !IsBlank(old(input)) && server(posted.value).RequestFailed? ==>
                messages[|messages| - 1] == Turn(Assistant, CHAT_APOLOGY)
      ensures !IsBlank(old(input)) && server(posted.value).Delivered? && server(posted.value).response.body.ReplyBody? ==>
                messages[|messages| - 1] == Turn(Assistant, server(posted.value).response.body.reply)
    {
      if Trim(input) == "" {
        return None;
      }
      var userMessage := Turn(User, input);
      var history := messages;
      messages := messages + [userMessage];
      input := "";
      isLoading := true;
      var request := ChatRequest(history + [userMessage], provider, model);
      posted := Some(request);
      var answer := server(request);
      messages := messages + [Turn(Assistant, AssistantText(answer))];
      isLoading := false;
    }
  }
}
