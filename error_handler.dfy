/** The API's error types and the decorator that turns whatever a view raises into a JSON
    error response with a status code (utils/error_handler.py). */
module ErrorHandler {
  import opened Wrappers
  import opened Scoring

  /** A JSON value as `request.json` parses it and `jsonify` renders it. A number without a
      fraction or exponent is an `int`, any other a `float`. An object is a dictionary with
      distinct keys in insertion order. */
  datatype Json =
    | Null
    | Bool(b: bool)
    | Num(n: int)
    | Float(x: real)
    | Str(s: string)
    | Arr(items: seq<Json>)
    | Obj(fields: Dict<Json>)

  /** Python truthiness of the parsed value: `None`, `False`, `0`, `0.0`, `""`, `[]` and `{}`
      are false. */
  predicate Truthy(j: Json) {
    match j
    case Null => false
    case Bool(b) => b
    case Num(n) => n != 0
    case Float(x) => x != 0.0
    case Str(s) => s != ""
    case Arr(items) => items != []
    case Obj(fields) => fields != []
  }

  /** The class an error was raised as. */
  datatype ErrorClass = APIErrorClass | BadRequestClass | NotFoundClass | InternalServerClass

  /** An `APIError`: its class, message, HTTP status and details. */
  datatype ApiError = ApiError(cls: ErrorClass, message: string, statusCode: int, details: Dict<Json>)

  /** The status a subclass of `APIError` always passes to the base constructor. */
  function ClassStatus(cls: ErrorClass): (s: int)
    requires cls != APIErrorClass
  {
    match cls
    case BadRequestClass => 400
    case NotFoundClass => 404
    case InternalServerClass => 500
  }

  /** The message a subclass of `APIError` uses when none is given. */
  function ClassMessage(cls: ErrorClass): string
    requires cls != APIErrorClass
  {
    match cls
    case BadRequestClass => "Bad request"
    case NotFoundClass => "Resource not found"
    case InternalServerClass => "Internal server error"
  }

  /** An error whose status is the one its class fixes (any status for the base class). */
  predicate WellFormed(e: ApiError) {
    e.cls != APIErrorClass ==> e.statusCode == ClassStatus(e.cls)
  }

  /** `APIError(message, status_code=500, details=None)`, storing `details or {}`. */
  function NewApiError(message: string, statusCode: Option<int>, details: Option<Dict<Json>>): (e: ApiError)
    ensures e.cls == APIErrorClass && e.message == message && WellFormed(e)
    ensures statusCode.None? ==> e.statusCode == 500
    ensures statusCode.Some? ==> e.statusCode == statusCode.value
    ensures details.None? ==> e.details == []
    ensures details.Some? ==> e.details == details.value
  {
    ApiError(APIErrorClass, message, statusCode.GetOr(500), details.GetOr([]))
  }

  /** `BadRequestError`, `NotFoundError` or `InternalServerError` with an optional message and
      details. */
  function Subclass(cls: ErrorClass, message: Option<string>, details: Option<Dict<Json>>): (e: ApiError)
    requires cls != APIErrorClass
    ensures e.cls == cls && WellFormed(e)
    ensures message.None? ==> e.message == ClassMessage(cls)
    ensures message.Some? ==> e.message == message.value
    ensures details.None? ==> e.details == []
    ensures details.Some? ==> e.details == details.value
  {
    var base := NewApiError(message.GetOr(ClassMessage(cls)), Some(ClassStatus(cls)), details);
    base.(cls := cls)
  }

  function BadRequest(message: string): ApiError {
    Subclass(BadRequestClass, Some(message), None)
  }

  function NotFound(message: string): ApiError {
    Subclass(NotFoundClass, Some(message), None)
  }

  /** The three subclasses' statuses and default messages. */
  lemma SubclassDefaults(details: Option<Dict<Json>>)
    ensures var e := Subclass(BadRequestClass, None, details);
            e.statusCode == 400 && e.message == "Bad request"
    ensures var e := Subclass(NotFoundClass, None, details);
            e.statusCode == 404 && e.message == "Resource not found"
    ensures var e := Subclass(InternalServerClass, None, details);
            e.statusCode == 500 && e.message == "Internal server error"
  {
  }

  /** What a view did: returned a value, raised an `APIError`, or raised anything else. */
  datatype Raised = Api(e: ApiError) | Other(exc: Exc)

  /** The message `str(e)` of an exception. */
  function ExcMessage(exc: Exc): string {
    exc.message
  }

  /** The value of `key` in a JSON object, if it is one and has the key. */
  function Field(j: Json, key: string): (v: Option<Json>)
    ensures v.Some? ==> j.Obj? && HasKey(j.fields, key)
  {
    match j
    case Obj(fields) => if HasKey(fields, key) then Some(Get(fields, key, Null)) else None
    case _ => None
  }

  /** `handle_api_error(error)`: the body `{"error": message, "details": details}` and the
      error's own status. */
  function HandleApiError(error: ApiError): (r: (Json, int))
    ensures r.1 == error.statusCode
    ensures r.0.Obj? && Keys(r.0.fields) == ["error", "details"]
    ensures Field(r.0, "error") == Some(Str(error.message))
    ensures Field(r.0, "details") == Some(Obj(error.details))
  {
    var body := [("error", Str(error.message)), ("details", Obj(error.details))];
    assert HasKey(body, "error") && HasKey(body, "details") by {
      assert body[0].0 == "error" && body[1].0 == "details";
    }
    (Obj(body), error.statusCode)
  }

  /** What the decorated view answers: its own return value, or an error body and status. */
  datatype Response<T> = Returned(value: T) | Handled(body: Json, status: int)

  /** `api_error_handler`: the view's result unchanged when it raises nothing, the error's own
      response for an `APIError`, and an `InternalServerError(str(e))` response for anything
      else. */
  function ApiErrorHandler<T>(outcome: Result<T, Raised>): (r: Response<T>)
    ensures outcome.Ok? <==> r.Returned?
    ensures outcome.Ok? ==> r == Returned(outcome.value)
    ensures outcome.Err? && outcome.error.Api? ==>
              var e := outcome.error.e;
              r == Handled(HandleApiError(e).0, e.statusCode)
    ensures outcome.Err? && outcome.error.Other? ==>
              r.Handled? && r.status == 500 &&
              Field(r.body, "error") == Some(Str(ExcMessage(outcome.error.exc))) &&
              Field(r.body, "details") == Some(Obj([]))
  {
    match outcome
    case Ok(v) => Returned(v)
    case Err(Api(e)) =>
      var (body, status) := HandleApiError(e);
      Handled(body, status)
    case Err(Other(exc)) =>
      var (body, status) := HandleApiError(Subclass(InternalServerClass, Some(ExcMessage(exc)), None));
      Handled(body, status)
  }

  /** Whatever a view raises, the response carries an error message, and its status is the
      raised error's class status (500 for anything that is not an `APIError`). */
  lemma HandlerStatus<T>(outcome: Result<T, Raised>)
    requires outcome.Err?
    requires outcome.error.Api? ==> WellFormed(outcome.error.e) && outcome.error.e.cls != APIErrorClass
    ensures var r := ApiErrorHandler(outcome);
            && r.Handled?
            && r.status == (if outcome.error.Api? then ClassStatus(outcome.error.e.cls) else 500)
            && Field(r.body, "error").Some?
  {
  }
}
