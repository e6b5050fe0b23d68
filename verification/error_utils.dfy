/** Error classification: the closed set of application error kinds, the
    records that carry them, the type-tag check, and the mapping from an
    error kind to an HTTP status code. */
module ErrorUtils {
  import opened Wrappers

  /** The five application error kinds. The source spells each as a string
      literal; `Tag` gives that spelling. */
  datatype ErrorType = Conflict | NotFound | Unauthorized | WrongSchema | BadRequest

  /** An application error. `kind` is the source's `type` field (`type` is a
      Dafny keyword). The constructors accept an optional message and store
      it as given, so `message` may be absent. */
  datatype AppError = AppError(kind: ErrorType, name: string, message: Option<string>)

  /** Any thrown object, seen as a record whose fields may be missing. The
      `type` field is kept as the raw string found there. */
  datatype ErrorObject = ErrorObject(kind: Option<string>, name: Option<string>, message: Option<string>)

  /** The string literal that stands for each error kind. */
  function Tag(t: ErrorType): string
  {
    match t
    case Conflict => "conflict"
    case NotFound => "not_found"
    case Unauthorized => "unauthorized"
    case WrongSchema => "wrong_schema"
    case BadRequest => "bad_request"
  }

  /** Reads an error kind back from its string literal; `None` for any
      string that is not one of the five. */
  function ParseTag(s: string): (r: Option<ErrorType>)
    ensures r.Some? ==> Tag(r.value) == s
  {
    if s == "conflict" then Some(Conflict)
    else if s == "not_found" then Some(NotFound)
    else if s == "unauthorized" then Some(Unauthorized)
    else if s == "wrong_schema" then Some(WrongSchema)
    else if s == "bad_request" then Some(BadRequest)
    else None
  }

  /** Tags are distinct, so each kind is recovered from its tag. */
  lemma TagRoundTrip(t: ErrorType)
    ensures ParseTag(Tag(t)) == Some(t)
  {
  }

  /** The fixed `name` that each constructor pairs with its kind. */
  function ErrorName(t: ErrorType): string
  {
    match t
    case Conflict => "Conflict"
    case NotFound => "NotFound"
    case Unauthorized => "Unauthorized"
    case WrongSchema => "WrongSchema"
    case BadRequest => "BadRequest"
  }

  /** Views an application error as a plain object with every field present. */
  function AsObject(e: AppError): (o: ErrorObject)
    ensures o.kind == Some(Tag(e.kind)) && o.name == Some(e.name) && o.message == e.message
  {
    ErrorObject(Some(Tag(e.kind)), Some(e.name), e.message)
  }

  /** The type-tag check: an object is taken for an application error exactly
      when its `type` field is present, whatever its name and message. */
  function IsAppError(o: ErrorObject): (b: bool)
    ensures b <==> o.kind != None
  {
    o.kind.Some?
  }

  /** Every application error, viewed as an object, passes the check, and its
      `type` field reads back as its kind. */
  lemma AppErrorObjectsPassCheck(e: AppError)
    ensures IsAppError(AsObject(e))
    ensures ParseTag(AsObject(e).kind.value) == Some(e.kind)
  {
    TagRoundTrip(e.kind);
  }

  /** The HTTP status code for an error kind; `bad_request` is the
      fall-through. */
  function ErrorTypeToStatusCode(t: ErrorType): (code: int)
    ensures code == 409 <==> t == Conflict
    ensures code == 404 <==> t == NotFound
    ensures code == 401 <==> t == Unauthorized
    ensures code == 422 <==> t == WrongSchema
    ensures code == 400 <==> t == BadRequest
  {
    if t.Conflict? then 409
    else if t.NotFound? then 404
    else if t.Unauthorized? then 401
    else if t.WrongSchema? then 422
    else 400
  }

  /** The status code is always one of the five codes above. */
  lemma StatusCodeRange(t: ErrorType)
    ensures ErrorTypeToStatusCode(t) in {400, 401, 404, 409, 422}
  {
  }

  /** Distinct error kinds get distinct status codes. */
  lemma StatusCodeInjective(t1: ErrorType, t2: ErrorType)
    ensures ErrorTypeToStatusCode(t1) == ErrorTypeToStatusCode(t2) ==> t1 == t2
  {
  }

  function BadRequestError(message: Option<string>): (e: AppError)
    ensures e.kind == BadRequest && e.name == "BadRequest" && e.message == message
  {
    AppError(BadRequest, ErrorName(BadRequest), message)
  }

  function ConflictError(message: Option<string>): (e: AppError)
    ensures e.kind == Conflict && e.name == "Conflict" && e.message == message
  {
    AppError(Conflict, ErrorName(Conflict), message)
  }

  function NotFoundError(message: Option<string>): (e: AppError)
    ensures e.kind == NotFound && e.name == "NotFound" && e.message == message
  {
    AppError(NotFound, ErrorName(NotFound), message)
  }

  function UnauthorizedError(message: Option<string>): (e: AppError)
    ensures e.kind == Unauthorized && e.name == "Unauthorized" && e.message == message
  {
    AppError(Unauthorized, ErrorName(Unauthorized), message)
  }

  function WrongSchemaError(message: Option<string>): (e: AppError)
    ensures e.kind == WrongSchema && e.name == "WrongSchema" && e.message == message
  {
    AppError(WrongSchema, ErrorName(WrongSchema), message)
  }

  /** Each constructor's error maps to the status code of its kind, and its
      `name` is the one fixed for that kind. */
  lemma ConstructorsMatchStatusCodes(m: Option<string>)
    ensures ErrorTypeToStatusCode(BadRequestError(m).kind) == 400
    ensures ErrorTypeToStatusCode(ConflictError(m).kind) == 409
    ensures ErrorTypeToStatusCode(NotFoundError(m).kind) == 404
    ensures ErrorTypeToStatusCode(UnauthorizedError(m).kind) == 401
    ensures ErrorTypeToStatusCode(WrongSchemaError(m).kind) == 422
  {
  }

  /** The output of every constructor passes the type-tag check. */
  lemma ConstructorsPassCheck(m: Option<string>)
    ensures IsAppError(AsObject(BadRequestError(m)))
    ensures IsAppError(AsObject(ConflictError(m)))
    ensures IsAppError(AsObject(NotFoundError(m)))
    ensures IsAppError(AsObject(UnauthorizedError(m)))
    ensures IsAppError(AsObject(WrongSchemaError(m)))
  {
  }

  /** Constructor names are pairwise distinct, so the name alone identifies
      the kind of a constructed error. */
  lemma ErrorNameInjective(t1: ErrorType, t2: ErrorType)
    ensures ErrorName(t1) == ErrorName(t2) ==> t1 == t2
  {
  }
}
