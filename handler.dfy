/** The request gate and the chat pipeline of `Handler` (api/main.go:222-583):
    the model-list routes, the service-status fallback, CORS preflight, the
    bearer check, and for a chat request the steps up to the upstream call:
    system normalisation, history folding, uploads of long history content,
    and the query. What the upstream answers is turned into the reply by
    `Translate.Conclude`.

    The request body arrives decoded (or not); the clock, the UUIDs and the
    upload service are parameters. */
module Handler {
  import opened Outcomes
  import opened Text
  import opened Messages
  import opened Tokens
  import opened History
  import opened Externalise
  import opened Upstream
  import opened ModelNames
  import opened PlainText

  const ModelsPath: string := "/v1/models"
  const ApiModelsPath: string := "/api/v1/models"
  const ChatPaths: set<string> := {"/v1/chat/completions", "/none/v1/chat/completions", "/such/chat/completions"}
  const BearerPrefix: string := "Bearer "
  const Options: string := "OPTIONS"

  /** `OpenAIRequest`. */
  datatype ChatRequest = ChatRequest(messages: seq<Message>, stream: bool, model: string)

  /** What the handler reads of an HTTP request: the method, the path, the
      `Authorization` header ("" when absent) and the body, decoded as JSON
      (`None` when it does not decode). */
  datatype Request = Request(httpMethod: string, path: string, authorization: string, body: Option<ChatRequest>)

  /** What the handler takes from outside: the agent model ids, the time for
      the model list, the chat and turn ids with the trace time, and the
      upload service. */
  datatype Environment = Environment(agentIds: seq<string>, now: int, ids: Correlation, upload: Uploader)

  /** How the handler ends before the response of the upstream is read. */
  datatype Outcome =
    | ModelList(listing: ModelListing)
    | ServiceStatus(status: string, message: string)
    | Preflight
    | HttpError(code: int, message: string)
    | IndexPanic
    | CallUpstream(query: seq<Param>, cookies: map<string, string>, stream: bool, requestedModel: string)

  /** The credential of an `Authorization` header, if it is a bearer header. */
  function BearerCredential(authorization: string): (r: Option<string>)
    ensures r.Some? <==> HasPrefix(authorization, BearerPrefix)
    ensures r.Some? ==> BearerPrefix + r.value == authorization
  {
    if HasPrefix(authorization, BearerPrefix) then Some(TrimPrefix(authorization, BearerPrefix)) else None
  }

  /** The header for a credential is read back as that credential. */
  lemma BearerRoundTrip(credential: string)
    ensures BearerCredential(BearerPrefix + credential) == Some(credential)
  {
    var h := BearerPrefix + credential;
    assert h[..|BearerPrefix|] == BearerPrefix;
    assert h[|BearerPrefix|..] == credential;
  }

  /** The folded history of a normalised message list. */
  function HistoryOf(msgs: seq<Message>): seq<ChatEntry> {
    Turns(Conversation(AllButLast(msgs)))
  }

  /** The chat pipeline once the request is authorised and decoded. */
  function ChatOutcome(credential: string, chat: ChatRequest, env: Environment): Outcome {
    var msgs := Normalised(chat.messages);
    match ExternaliseAll(HistoryOf(msgs), env.upload)
    case Failure(msg) => HttpError(500, msg)
    case Success(ext) =>
      if msgs == [] then IndexPanic
      else
        match BuildQuery(ext.history, ext.sources, msgs[|msgs| - 1], chat.model, env.agentIds, env.ids, env.upload)
        case Failure(msg) => HttpError(500, msg)
        case Success(query) => CallUpstream(query, GetCookies(credential), chat.stream, chat.model)
  }

  /** The handler, route by route. */
  function Respond(req: Request, env: Environment): Outcome {
    if req.path == ModelsPath || req.path == ApiModelsPath then
      if req.httpMethod == Options then Preflight
      else ModelList(ListModels(ModelMap().Keys, env.agentIds, env.now))
    else if req.path !in ChatPaths then ServiceStatus("You2Api Service Running...", "MoLoveSze...")
    else if req.httpMethod == Options then Preflight
    else
      match BearerCredential(req.authorization)
      case None => HttpError(401, "Missing or invalid authorization header")
      case Some(credential) =>
        match req.body
        case None => HttpError(400, "Invalid request body")
        case Some(chat) => ChatOutcome(credential, chat, env)
  }

  /** `Handler` up to the upstream call: the same steps in the same order,
      with the loops of the source. */
  method Handle(req: Request, env: Environment) returns (outcome: Outcome)
    ensures outcome == Respond(req, env)
  {
    if req.path == ModelsPath || req.path == ApiModelsPath {
      if req.httpMethod == Options {
        return Preflight;
      }
      return ModelList(ListModels(ModelMap().Keys, env.agentIds, env.now));
    }
    if req.path !in ChatPaths {
      return ServiceStatus("You2Api Service Running...", "MoLoveSze...");
    }
    if req.httpMethod == Options {
      return Preflight;
    }
    if !HasPrefix(req.authorization, BearerPrefix) {
      return HttpError(401, "Missing or invalid authorization header");
    }
    var credential := TrimPrefix(req.authorization, BearerPrefix);
    if req.body.None? {
      return HttpError(400, "Invalid request body");
    }
    var chat := req.body.value;
    outcome := HandleChat(credential, chat, env);
  }

  /** The chat part of `Handler`. */
  method HandleChat(credential: string, chat: ChatRequest, env: Environment) returns (outcome: Outcome)
    ensures outcome == ChatOutcome(credential, chat, env)
  {
    var msgs, ext := PrepareHistory(chat.messages, env.upload);
    if ext.Failure? {
      return HttpError(500, ext.error);
    }
    if |msgs| == 0 {
      return IndexPanic;
    }
    var query := TurnQuery(ext.value.history, ext.value.sources, msgs[|msgs| - 1], chat.model,
                           env.agentIds, env.ids, env.upload);
    match query {
      case Failure(msg) =>
        outcome := HttpError(500, msg);
      case Success(params) =>
        outcome := CallUpstream(params, GetCookies(credential), chat.stream, chat.model);
    }
  }

  /** Normalisation, folding and the uploads of the history, in the order of
      `Handler`; the folded history is rewritten in place. */
  method PrepareHistory(messages: seq<Message>, upload: Uploader)
    returns (msgs: seq<Message>, ext: Result<Externalised>)
    ensures msgs == Normalised(messages)
    ensures ext == ExternaliseAll(HistoryOf(msgs), upload)
  {
    msgs := ConvertSystemToUser(messages);
    var folded := FoldHistory(msgs);
    var history := EntryArray(folded);
    var sources, failure := ExternaliseHistory(history, upload);
    if failure.Some? {
      ext := Failure(failure.value);
    } else {
      ext := Success(Externalised(history[..], sources));
    }
  }

  /** The slice `chatHistory` as a fresh array the rewriting loop can update. */
  method EntryArray(entries: seq<ChatEntry>) returns (a: array<ChatEntry>)
    ensures fresh(a) && a[..] == entries
  {
    a := new ChatEntry[|entries|](i requires 0 <= i < |entries| => entries[i]);
  }

  /** The query assembly of `Handler`: the current turn's estimate decides
      whether it is uploaded as one more file. */
  method TurnQuery(history: seq<ChatEntry>, sources: seq<Source>, last: Message, model: string,
                   agentIds: seq<string>, ids: Correlation, upload: Uploader)
    returns (r: Result<seq<Param>>)
    ensures r == BuildQuery(history, sources, last, model, agentIds, ids, upload)
  {
    var lastTokens, _ := CountTokens([last]);
    TotalTokensSingle(last);
    var head := BaseParams(history, ids) + SelectorParams(model, agentIds);
    if lastTokens > MaxContextTokens {
      var reply := upload(|sources|, AddUtf8Bom(last.content));
      if !reply.Uploaded? {
        return Failure(FailureMessage(reply));
      }
      var all := sources + [SourceOf(reply, last.content)];
      r := Success(head + TailParams(all, Placeholder(reply.userFilename), history));
    } else {
      r := Success(head + TailParams(sources, last.content, history));
    }
  }

  /** Without a bearer header a chat request is refused with 401 before its
      body is looked at: the answer is the same whatever the body. */
  lemma UnauthorisedBeforeBody(req: Request, env: Environment, body: Option<ChatRequest>)
    requires req.path in ChatPaths && req.httpMethod != Options
    requires !HasPrefix(req.authorization, BearerPrefix)
    ensures Respond(req, env) == HttpError(401, "Missing or invalid authorization header")
    ensures Respond(req.(body := body), env) == Respond(req, env)
  {
    assert req.path != ModelsPath && req.path != ApiModelsPath;
  }

  /** A bearer request whose body does not decode is refused with 400. */
  lemma UndecodableBody(req: Request, env: Environment)
    requires req.path in ChatPaths && req.httpMethod != Options
    requires HasPrefix(req.authorization, BearerPrefix) && req.body.None?
    ensures Respond(req, env) == HttpError(400, "Invalid request body")
  {
    assert req.path != ModelsPath && req.path != ApiModelsPath;
  }

  /** Both model-list paths list every model of the table and every agent
      id, whatever the credentials; OPTIONS on them is a preflight. */
  lemma ModelRoutes(req: Request, env: Environment)
    requires req.path == ModelsPath || req.path == ApiModelsPath
    ensures req.httpMethod == Options ==> Respond(req, env) == Preflight
    ensures req.httpMethod != Options ==>
              && Respond(req, env).ModelList?
              && (forall id :: id in ModelMap() ==> Detail(id, env.now) in Respond(req, env).listing.mapped)
              && (forall d :: d in Respond(req, env).listing.mapped ==> d.id in ModelMap())
              && |Respond(req, env).listing.agents| == |env.agentIds|
  {
  }

  /** Any path other than the model and chat paths gets the status object. */
  lemma OtherPaths(req: Request, env: Environment)
    requires req.path != ModelsPath && req.path != ApiModelsPath && req.path !in ChatPaths
    ensures Respond(req, env) == ServiceStatus("You2Api Service Running...", "MoLoveSze...")
  {
  }

  /** An authorised chat request with no messages at all reaches the index
      of the last message and panics. */
  lemma EmptyConversationPanics(req: Request, env: Environment)
    requires req.path in ChatPaths && req.httpMethod != Options
    requires HasPrefix(req.authorization, BearerPrefix)
    requires req.body.Some? && req.body.value.messages == []
    ensures Respond(req, env) == IndexPanic
  {
    assert req.path != ModelsPath && req.path != ApiModelsPath;
    var msgs := Normalised(req.body.value.messages);
    NormalisedNonEmpty(req.body.value.messages);
    assert HistoryOf(msgs) == [];
    assert ToUpload([]) == [];
    NothingToUpload([], env.upload);
  }

  /** A request that reaches the upstream carries the credential as the `DS`
      cookie and the requested model and mode unchanged. */
  lemma UpstreamCarriesCredential(credential: string, chat: ChatRequest, env: Environment)
    requires ChatOutcome(credential, chat, env).CallUpstream?
    ensures ChatOutcome(credential, chat, env).cookies["DS"] == credential
    ensures ChatOutcome(credential, chat, env).cookies.Keys == CookieNames
    ensures ChatOutcome(credential, chat, env).stream == chat.stream
    ensures ChatOutcome(credential, chat, env).requestedModel == chat.model
  {
  }

  /** A single short message with no system message goes upstream as `q`,
      with an empty history and no sources. */
  lemma SingleShortMessage(credential: string, m: Message, stream: bool, model: string, env: Environment)
    requires m.role != System && !TurnNeedsUpload(m.content)
    ensures var r := ChatOutcome(credential, ChatRequest([m], stream, model), env);
      && r.CallUpstream?
      && Lookup(r.query, Query) == Some(Plain(m.content))
      && Lookup(r.query, Sources) == None
      && Lookup(r.query, Chat) == Some(ChatJson([]))
  {
    var msgs := Normalised([m]);
    assert SystemContents([m]) == [] by {
      assert SystemContents([m]) == SystemContents([]) + (if m.role == System then [m.content] else []) by {
        assert [m][..0] == [];
      }
    }
    assert msgs == [m];
    assert AllButLast(msgs) == [];
    assert HistoryOf(msgs) == [];
    assert ToUpload([]) == [];
    NothingToUpload([], env.upload);
    QueryParams([], [], m, model, env.agentIds, env.ids, env.upload);
  }
}
