/** The JSON endpoints `POST /query` and `POST /config` (api/routes.py). Each is a chain of
    guard clauses inside the error-handling decorator. The parsed request body, the query
    engine and the text-generation service are parameters: the engine is a function from the
    query to what `query_engine.query` returns or raises, the service a function from a key to
    what `update_api_key` raises, if anything. */
module Routes {
  import opened Wrappers
  import opened Scoring
  import opened ErrorHandler

  /** What `request.json` gave: the parsed body, or what parsing it raised. */
  type Request = Result<Json, Exc>

  /** Python's name for the type of a parsed JSON value. */
  function TypeName(j: Json): string {
    match j
    case Null => "NoneType"
    case Bool(_) => "bool"
    case Num(_) => "int"
    case Float(_) => "float"
    case Str(_) => "str"
    case Arr(_) => "list"
    case Obj(_) => "dict"
  }

  /** `data.get(key, default)` on the parsed body; only a JSON object has `get`. */
  function BodyGet(data: Json, key: string, default: Json): (r: Result<Json, Raised>)
    ensures data.Obj? ==> r == Ok(Get(data.fields, key, default))
    ensures !data.Obj? ==> r.Err? && r.error.Other?
  {
    match data
    case Obj(fields) => Ok(Get(fields, key, default))
    case _ => Err(Other(Exception("AttributeError", "'" + TypeName(data) + "' object has no attribute 'get'")))
  }

  /** What a view raised or returned, and the argument it passed to the engine or service,
      if it got that far. */
  datatype View = View(outcome: Result<Json, Raised>, used: Option<Json>)

  function Raise(e: ApiError): View {
    View(Err(Api(e)), None)
  }

  /** The HTTP status of a decorated view's response: 200 for a value it returned. */
  function Status(r: Response<Json>): int {
    match r
    case Returned(_) => 200
    case Handled(_, status) => status
  }

  /** The `"error"` message of a response, if it is an error response. */
  function ErrorOf(r: Response<Json>): Option<string> {
    match r
    case Handled(body, _) =>
      (match Field(body, "error") case Some(Str(m)) => Some(m) case _ => None)
    case Returned(_) => None
  }

  // ---------------------------------------------------------------------------
  // POST /query

  const NoQuery: string := "No query provided"
  const NoEngine: string := "Query engine not available"

  /** `process_query`'s body: read `query` (default `""`), reject a falsy one, look up the
      engine, and answer `{"response": ...}`; an engine failure becomes a bad request. */
  function ProcessQuery(request: Request, engine: Option<Json -> Result<Json, Exc>>): View {
    match request
    case Err(exc) => View(Err(Other(exc)), None)
    case Ok(data) =>
      match BodyGet(data, "query", Str(""))
      case Err(raised) => View(Err(raised), None)
      case Ok(query) => Answer(query, engine)
  }

  /** `process_query` once the body's `query` is read. */
  function Answer(query: Json, engine: Option<Json -> Result<Json, Exc>>): View {
    if !Truthy(query) then Raise(BadRequest(NoQuery))
    else if engine.None? then Raise(NotFound(NoEngine))
    else
      match engine.value(query)
      case Ok(response) => View(Ok(Obj([("response", response)])), Some(query))
      case Err(exc) => View(Err(Api(BadRequest("Error processing query: " + ExcMessage(exc)))), Some(query))
  }

  /** The decorated endpoint. */
  function QueryEndpoint(request: Request, engine: Option<Json -> Result<Json, Exc>>): Response<Json> {
    ApiErrorHandler(ProcessQuery(request, engine).outcome)
  }

  /** A raised `APIError` answers with its own status and message. */
  lemma Rejects(e: ApiError)
    ensures Status(ApiErrorHandler(Err(Api(e)))) == e.statusCode
    ensures ErrorOf(ApiErrorHandler(Err(Api(e)))) == Some(e.message)
  {
    assert Field(HandleApiError(e).0, "error") == Some(Str(e.message));
  }

  /** `POST /query` with a JSON object body reads its `query`, `""` when absent. */
  lemma QueryDispatch(fields: Dict<Json>, engine: Option<Json -> Result<Json, Exc>>)
    ensures ProcessQuery(Ok(Obj(fields)), engine) == Answer(Get(fields, "query", Str("")), engine)
  {
  }

  /** The guards of `POST /query` in the order they fire. A falsy query is a 400 whatever the
      engine, and the engine is not asked; with a query, a missing engine is a 404; an engine
      failure is a 400 carrying its message, not a 500; otherwise the answer comes back
      verbatim under `"response"` with status 200. */
  lemma AnswerGuards(query: Json, engine: Option<Json -> Result<Json, Exc>>)
    ensures var v := Answer(query, engine);
            var r := ApiErrorHandler(v.outcome);
            && (!Truthy(query) ==> Status(r) == 400 && ErrorOf(r) == Some(NoQuery) && v.used.None?)
            && (Truthy(query) && engine.None? ==> Status(r) == 404 && ErrorOf(r) == Some(NoEngine) && v.used.None?)
            && (Truthy(query) && engine.Some? ==> v.used == Some(query))
            && (Truthy(query) && engine.Some? && engine.value(query).Err? ==>
                  Status(r) == 400 &&
                  ErrorOf(r) == Some("Error processing query: " + ExcMessage(engine.value(query).error)))
            && (Truthy(query) && engine.Some? && engine.value(query).Ok? ==>
                  r == Returned(Obj([("response", engine.value(query).value)])))
  {
    if !Truthy(query) {
      Rejects(BadRequest(NoQuery));
    } else if engine.None? {
      Rejects(NotFound(NoEngine));
    } else if engine.value(query).Err? {
      Rejects(BadRequest("Error processing query: " + ExcMessage(engine.value(query).error)));
    }
  }

  /** A body that is not a JSON object, or one that failed to parse, is an internal error. */
  lemma QueryMalformedBody(request: Request, engine: Option<Json -> Result<Json, Exc>>)
    requires request.Err? || !request.value.Obj?
    ensures Status(QueryEndpoint(request, engine)) == 500
    ensures ProcessQuery(request, engine).used.None?
  {
  }

  /** A query of only spaces is truthy, so it reaches the engine. */
  lemma BlankQueryPasses(engine: Json -> Result<Json, Exc>)
    ensures ProcessQuery(Ok(Obj([("query", Str("  "))])), Some(engine)).used == Some(Str("  "))
  {
    assert Get([("query", Str("  "))], "query", Str("")) == Str("  ");
    QueryDispatch([("query", Str("  "))], Some(engine));
  }

  // ---------------------------------------------------------------------------
  // POST /config

  const Unavailable: string := "OpenAI service or default API key not available"
  const NoKey: string := "No API key provided"
  const NoService: string := "OpenAI service not available"

  function Success(message: string): Json {
    Obj([("status", Str("success")), ("message", Str(message))])
  }

  /** The service's `update_api_key(key)`: what it raises, if anything. */
  type Service = Json -> Option<Exc>

  /** `configure_api`'s body: a truthy `use_default` restores the configured default key;
      otherwise `api_key` must be given and is installed. */
  function ConfigureApi(request: Request, service: Option<Service>, defaultKey: Option<string>): View {
    match request
    case Err(exc) => View(Err(Other(exc)), None)
    case Ok(data) =>
      match BodyGet(data, "use_default", Bool(false))
      case Err(raised) => View(Err(raised), None)
      case Ok(useDefault) =>
        if Truthy(useDefault) then RestoreDefault(service, defaultKey)
        else
          match BodyGet(data, "api_key", Null)
          case Err(raised) => View(Err(raised), None)
          case Ok(key) => InstallKey(key, service)
  }

  /** The restore path of `configure_api`. */
  function RestoreDefault(service: Option<Service>, defaultKey: Option<string>): View {
    if service.None? || defaultKey.None? || defaultKey.value == "" then Raise(NotFound(Unavailable))
    else
      var key := Str(defaultKey.value);
      match service.value(key)
      case None => View(Ok(Success("Restored default API key")), Some(key))
      case Some(exc) =>
        View(Err(Api(BadRequest("Error restoring default API key: " + ExcMessage(exc)))), Some(key))
  }

  /** The key path of `configure_api`, given the body's `api_key`. */
  function InstallKey(key: Json, service: Option<Service>): View {
    if !Truthy(key) then Raise(BadRequest(NoKey))
    else if service.None? then Raise(NotFound(NoService))
    else
      match service.value(key)
      case None => View(Ok(Success("API key configured successfully")), Some(key))
      case Some(exc) => View(Err(Api(BadRequest("Invalid API key: " + ExcMessage(exc)))), Some(key))
  }

  function ConfigEndpoint(request: Request, service: Option<Service>, defaultKey: Option<string>): Response<Json> {
    ApiErrorHandler(ConfigureApi(request, service, defaultKey).outcome)
  }

  /** A truthy `use_default` takes the restore path whatever `api_key` holds; otherwise the
      body's `api_key` (`None` when absent) is installed. */
  lemma ConfigDispatch(fields: Dict<Json>, service: Option<Service>, defaultKey: Option<string>)
    ensures ConfigureApi(Ok(Obj(fields)), service, defaultKey) ==
            if Truthy(Get(fields, "use_default", Bool(false))) then RestoreDefault(service, defaultKey)
            else InstallKey(Get(fields, "api_key", Null), service)
  {
  }

  /** The restore path: a missing service or default key is a 404 and nothing is installed;
      otherwise the default key is installed, and a failure to install it is a 400. */
  lemma RestoreGuards(service: Option<Service>, defaultKey: Option<string>)
    ensures var v := RestoreDefault(service, defaultKey);
            var r := ApiErrorHandler(v.outcome);
            && (service.None? || defaultKey.None? || defaultKey.value == "" ==>
                  Status(r) == 404 && ErrorOf(r) == Some(Unavailable) && v.used.None?)
            && (service.Some? && defaultKey.Some? && defaultKey.value != "" ==>
                  && v.used == Some(Str(defaultKey.value))
                  && (service.value(Str(defaultKey.value)).None? ==> r == Returned(Success("Restored default API key")))
                  && (service.value(Str(defaultKey.value)).Some? ==>
                        Status(r) == 400 &&
                        ErrorOf(r) == Some("Error restoring default API key: " +
                                           ExcMessage(service.value(Str(defaultKey.value)).value))))
  {
    if service.None? || defaultKey.None? || defaultKey.value == "" {
      Rejects(NotFound(Unavailable));
    } else if service.value(Str(defaultKey.value)).Some? {
      Rejects(BadRequest("Error restoring default API key: " + ExcMessage(service.value(Str(defaultKey.value)).value)));
    }
  }

  /** The key path: a missing or falsy `api_key` is a 400 checked before the service is looked
      up; a missing service is a 404; a key the service rejects is a 400 "Invalid API key". */
  lemma InstallKeyGuards(key: Json, service: Option<Service>)
    ensures var v := InstallKey(key, service);
            var r := ApiErrorHandler(v.outcome);
            && (!Truthy(key) ==> Status(r) == 400 && ErrorOf(r) == Some(NoKey) && v.used.None?)
            && (Truthy(key) && service.None? ==> Status(r) == 404 && ErrorOf(r) == Some(NoService) && v.used.None?)
            && (Truthy(key) && service.Some? ==>
                  && v.used == Some(key)
                  && (service.value(key).None? ==> r == Returned(Success("API key configured successfully")))
                  && (service.value(key).Some? ==>
                        Status(r) == 400 &&
                        ErrorOf(r) == Some("Invalid API key: " + ExcMessage(service.value(key).value))))
  {
    if !Truthy(key) {
      Rejects(BadRequest(NoKey));
    } else if service.None? {
      Rejects(NotFound(NoService));
    } else if service.value(key).Some? {
      Rejects(BadRequest("Invalid API key: " + ExcMessage(service.value(key).value)));
    }
  }
}
