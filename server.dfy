/** The HTTP handlers (src/server.rs): each calls one engine operation and
    maps its result to a response. Status codes are those of RFC 9110
    (section 15.3.1 200 OK, section 15.4.4 303 See Other, section 15.5.5
    404 Not Found, section 15.5.10 409 Conflict). */
module Server {
  import opened Wrappers
  import opened Models
  import opened Stats
  import Engine

  datatype CreateRequest = CreateRequest(name: Option<string>, target: string)

  datatype CreateResponse = CreateResponse(name: string, target: string)

  datatype StatusCode = OK | SeeOther | NotFound | Conflict
  {
    function Code(): int
    {
      match this
      case OK => 200
      case SeeOther => 303
      case NotFound => 404
      case Conflict => 409
    }
  }

  /** The JSON (or empty) body of a response. */
  datatype Body =
    | Empty
    | CreatedJson(created: CreateResponse)
    | ErrorJson(code: int, msg: string, name: string)
    | StatsJson(stat: AggregateStat)

  datatype HttpResponse = HttpResponse(status: StatusCode, location: Option<string>, body: Body)

  const AlreadyExistsPrefix := "Shortlink already exists: \""

  /** The `msg` field of the conflict body: the name in double quotes after
      a fixed prefix. */
  function AlreadyExistsMessage(name: string): string
  {
    AlreadyExistsPrefix + name + "\""
  }

  /** The message quotes the name verbatim, between the prefix and a
      closing quote. */
  lemma AlreadyExistsMessageQuotesName(name: string)
    ensures var msg := AlreadyExistsMessage(name);
      && |msg| == |AlreadyExistsPrefix| + |name| + 1
      && msg[..|AlreadyExistsPrefix|] == AlreadyExistsPrefix
      && msg[|AlreadyExistsPrefix|..|msg| - 1] == name
      && msg[|msg| - 1] == '"'
  {
  }

  /** Different names give different messages. */
  lemma AlreadyExistsMessageInjective(a: string, b: string)
    requires AlreadyExistsMessage(a) == AlreadyExistsMessage(b)
    ensures a == b
  {
    AlreadyExistsMessageQuotesName(a);
    AlreadyExistsMessageQuotesName(b);
  }

  datatype CreateError = ShortlinkAlreadyExists(name: string)
  {
    /** ResponseError::status_code: a taken name is a conflict. */
    function StatusCode(): (s: StatusCode)
      ensures s.Code() == 409
    {
      Conflict
    }

    /** ResponseError::error_response: 409 with body {code, msg, name}. */
    function ErrorResponse(): (resp: HttpResponse)
      ensures resp.status == StatusCode() && resp.location.None?
      ensures resp.body.ErrorJson? && resp.body.code == 409
      ensures resp.body.name == name && resp.body.msg == AlreadyExistsMessage(name)
    {
      match this
      case ShortlinkAlreadyExists(n) =>
        HttpResponse(Conflict, None, ErrorJson(409, AlreadyExistsMessage(n), n))
    }
  }

  /** The tail of `create`: a shortlink from the engine becomes the
      response, its absence the conflict error for the requested name.
      Only a request with a name can come back empty. */
  function CreateOutcome(request: CreateRequest, result: Option<Shortlink>): (r: Result<CreateResponse, CreateError>)
    requires request.name.None? ==> result.Some?
    ensures r.Ok? <==> result.Some?
    ensures r.Ok? ==> r.value.name == result.value.name && r.value.target == result.value.target
    ensures r.Err? ==> request.name.Some? && r.error == ShortlinkAlreadyExists(request.name.value)
  {
    if result.Some? then
      Ok(CreateResponse(result.value.name, result.value.target))
    else
      Err(ShortlinkAlreadyExists(request.name.value))
  }

  /** How the handler's result is sent: JSON with 200 on success, the
      error's own response on failure. */
  function CreateReply(outcome: Result<CreateResponse, CreateError>): (resp: HttpResponse)
    ensures resp.status == OK <==> outcome.Ok?
    ensures outcome.Ok? ==> resp.body == CreatedJson(outcome.value)
    ensures outcome.Err? ==> resp.status.Code() == 409 && resp.body.ErrorJson? && resp.body.name == outcome.error.name
    ensures outcome.Err? ==> resp == outcome.error.ErrorResponse()
  {
    match outcome
    case Ok(created) => HttpResponse(OK, None, CreatedJson(created))
    case Err(e) => e.ErrorResponse()
  }

  /** POST /create: a named request goes to the custom table, an unnamed one
      to canonical allocation, which always yields a shortlink. */
  method Create(store: Engine.Store, request: CreateRequest, candidates: seq<string>)
    returns (r: Result<CreateResponse, CreateError>)
    requires store.Valid()
    requires request.name.None? ==> Engine.CanAllocate(candidates, store.canonical, request.target)
    modifies store
    ensures store.Valid()
    ensures store.visits == old(store.visits) && store.createdOn == old(store.createdOn)
    ensures r.Err? <==> request.name.Some? && (request.name.value in old(store.canonical) || request.name.value in old(store.custom))
    ensures r.Err? ==> r.error == ShortlinkAlreadyExists(request.name.value)
    ensures r.Ok? ==> r.value.target == request.target
    ensures r.Ok? && request.name.Some? ==> r.value.name == request.name.value && store.custom == old(store.custom)[r.value.name := request.target]
    ensures request.name.Some? ==> store.canonical == old(store.canonical)
    ensures request.name.Some? && r.Err? ==> store.custom == old(store.custom)
    ensures request.name.None? ==> r.Ok? && store.custom == old(store.custom)
    ensures request.name.None? ==> r.value.name in store.canonical && store.canonical[r.value.name] == request.target
    ensures request.name.None? && request.target in old(store.canonical.Values) ==> store.canonical == old(store.canonical)
    ensures request.name.None? && request.target !in old(store.canonical.Values) ==>
              && r.value.name == candidates[Engine.FirstFresh(candidates, old(store.canonical.Keys))]
              && store.canonical == old(store.canonical)[r.value.name := request.target]
  {
    var result: Option<Shortlink>;
    match request.name {
      case Some(name) =>
        result := store.CreateCustomShortlink(name, request.target);
      case None =>
        var created := store.CreateShortlink(request.target, candidates);
        result := Some(created);
    }
    r := CreateOutcome(request, result);
  }

  /** The response of GET /{name}: a redirect to the target, or 404. */
  function LoadResponse(found: Option<string>): (resp: HttpResponse)
    ensures found.Some? ==> resp.status == SeeOther && resp.status.Code() == 303 && resp.location == found
    ensures found.None? ==> resp.status == NotFound && resp.status.Code() == 404 && resp.location.None?
    ensures resp.body == Empty
  {
    match found
    case Some(target) => HttpResponse(SeeOther, Some(target), Empty)
    case None => HttpResponse(NotFound, None, Empty)
  }

  /** GET /{name}: resolve the name, recording the peer's address on a hit. */
  method Load(store: Engine.Store, name: string, peerAddr: Option<string>) returns (resp: HttpResponse)
    modifies store
    ensures store.canonical == old(store.canonical) && store.custom == old(store.custom)
    ensures store.createdOn == old(store.createdOn)
    ensures resp.status == SeeOther <==> name in store.canonical || name in store.custom
    ensures resp.status == NotFound <==> name !in store.canonical && name !in store.custom
    ensures name in store.canonical ==> resp.location == Some(store.canonical[name])
    ensures name !in store.canonical && name in store.custom ==> resp.location == Some(store.custom[name])
    ensures store.visits == old(store.visits) + (if resp.status == SeeOther then [Visit(name, peerAddr)] else [])
  {
    var found := store.FindTarget(name, peerAddr);
    resp := LoadResponse(found);
  }

  /** The response of GET /stats/{name}: the summary as JSON, or 404. */
  function StatsResponse(stats: Option<AggregateStat>): (resp: HttpResponse)
    ensures stats.Some? ==> resp.status == OK && resp.body == StatsJson(stats.value)
    ensures stats.None? ==> resp.status == NotFound && resp.body == Empty
    ensures resp.location.None?
  {
    match stats
    case Some(s) => HttpResponse(OK, None, StatsJson(s))
    case None => HttpResponse(NotFound, None, Empty)
  }

  /** GET /stats/{name}, over the store and the rows of the stored
      aggregate query. */
  function StatsHandler(store: Engine.Store, name: string, aggregate: seq<AggregateVisits>): (resp: HttpResponse)
    reads store
    ensures resp.status == OK <==> name in store.createdOn
    ensures resp.status == OK ==> resp.body.StatsJson? && resp.body.stat.name == name
    ensures resp.status == OK ==> resp.body == StatsJson(store.GetStats(name, aggregate).value)
    ensures resp.status == NotFound <==> name !in store.createdOn
  {
    StatsResponse(store.GetStats(name, aggregate))
  }
}
