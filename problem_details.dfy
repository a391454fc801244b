/** The HTTP error responses (src/pet/api/exceptions_handler.py): every error
    the application lets escape is answered with a problem-details document
    (RFC 9457) whose fields come from the error and the request. */
module ProblemDetails {
  import opened Wrappers
  import opened DomainErrors
  import opened Exceptions

  const ProblemMediaType := "application/problem+json"
  const AboutBlank := "about:blank"
  const UnprocessableEntity := 422
  const InternalServerError := 500

  /** The parts of a request the handlers read: the URL path, the id a
      middleware may have stored on the request state, and the X-Request-ID header. */
  datatype Request = Request(path: string, stateRequestId: Option<string>, requestIdHeader: Option<string>)

  /** A JSON response: body, status, media type and extra headers. */
  datatype Response = Response(
    payload: map<string, Value>,
    statusCode: int,
    mediaType: string,
    headers: Option<map<string, string>>)

  /** _request_id: the id on the request state when it is truthy, else the header. */
  function RequestId(r: Request): (id: Option<string>)
    ensures Truthy(r.stateRequestId) ==> id == r.stateRequestId
    ensures !Truthy(r.stateRequestId) ==> id == r.requestIdHeader
  {
    if Truthy(r.stateRequestId) then r.stateRequestId else r.requestIdHeader
  }

  /** The request carries an id exactly when one of its two sources has one. */
  lemma RequestIdPresent(r: Request)
    ensures RequestId(r).Some? <==> Truthy(r.stateRequestId) || r.requestIdHeader.Some?
  {
  }

  /** `resp` is the problem document for the given arguments: the status is
      both the response's and the body's, `type`, `title` and `status` are always
      present, each optional member is present exactly when it was given and then
      holds its value, and nothing else is in the body. */
  predicate IsProblem(resp: Response, title: string, status: int, type_: string,
                      detail: Option<string>, instance: Option<string>, code: Option<string>,
                      errors: Option<Value>, requestId: Option<string>, headers: Option<map<string, string>>)
  {
    && resp.statusCode == status
    && resp.mediaType == ProblemMediaType
    && resp.headers == headers
    && resp.payload.Keys <= {"type", "title", "status", "detail", "instance", "code", "errors", "request_id"}
    && "type" in resp.payload && "title" in resp.payload && "status" in resp.payload
    && ("detail" in resp.payload <==> detail.Some?)
    && ("instance" in resp.payload <==> instance.Some?)
    && ("code" in resp.payload <==> code.Some?)
    && ("errors" in resp.payload <==> errors.Some?)
    && ("request_id" in resp.payload <==> requestId.Some?)
    && resp.payload["type"] == Str(type_)
    && resp.payload["title"] == Str(title)
    && resp.payload["status"] == Int(status)
    && (detail.Some? ==> resp.payload["detail"] == Str(detail.value))
    && (instance.Some? ==> resp.payload["instance"] == Str(instance.value))
    && (code.Some? ==> resp.payload["code"] == Str(code.value))
    && (errors.Some? ==> resp.payload["errors"] == errors.value)
    && (requestId.Some? ==> resp.payload["request_id"] == Str(requestId.value))
  }

  /** The arguments determine the problem document completely. */
  lemma ProblemDetermined(r1: Response, r2: Response, title: string, status: int, type_: string,
                          detail: Option<string>, instance: Option<string>, code: Option<string>,
                          errors: Option<Value>, requestId: Option<string>, headers: Option<map<string, string>>)
    requires IsProblem(r1, title, status, type_, detail, instance, code, errors, requestId, headers)
    requires IsProblem(r2, title, status, type_, detail, instance, code, errors, requestId, headers)
    ensures r1 == r2
  {
    forall k | k in r1.payload
      ensures r1.payload[k] == r2.payload[k]
    {
      assert k in {"type", "title", "status", "detail", "instance", "code", "errors", "request_id"};
    }
    assert r1.payload == r2.payload;
  }

  /** problem: the body starts with `type`, `title` and `status` and gains each
      optional member that is not `None`. */
  method Problem(title: string, status: int, type_: string := AboutBlank,
                 detail: Option<string> := None, instance: Option<string> := None,
                 code: Option<string> := None, errors: Option<Value> := None,
                 requestId: Option<string> := None,
                 headers: Option<map<string, string>> := None) returns (resp: Response)
    ensures IsProblem(resp, title, status, type_, detail, instance, code, errors, requestId, headers)
  {
    var payload := map["type" := Str(type_), "title" := Str(title), "status" := Int(status)];
    if detail.Some? {
      payload := payload["detail" := Str(detail.value)];
    }
    if instance.Some? {
      payload := payload["instance" := Str(instance.value)];
    }
    if code.Some? {
      payload := payload["code" := Str(code.value)];
    }
    if errors.Some? {
      payload := payload["errors" := errors.value];
    }
    if requestId.Some? {
      payload := payload["request_id" := Str(requestId.value)];
    }
    resp := Response(payload, status, ProblemMediaType, headers);
  }

  /** app_error_handler: the error's own title, status, detail and code, the
      request path as instance; `extra` is not exposed. */
  method AppErrorHandler(r: Request, exc: AppError) returns (resp: Response)
    ensures IsProblem(resp, exc.title, exc.statusCode, AboutBlank, exc.detail, Some(r.path),
                      Some(exc.code), None, RequestId(r), None)
    ensures "extra" !in resp.payload
  {
    resp := Problem(title := exc.title, status := exc.statusCode, detail := exc.detail,
                    instance := Some(r.path), code := Some(exc.code), requestId := RequestId(r));
  }

  /** db_error_handler: the error's title, status and detail; the code is the
      kind's string value. */
  method DbErrorHandler(r: Request, exc: DBError) returns (resp: Response)
    ensures IsProblem(resp, exc.title, exc.statusCode, AboutBlank, exc.detail, Some(r.path),
                      Some(exc.kind.Value()), None, RequestId(r), None)
  {
    resp := Problem(status := exc.statusCode, title := exc.title, detail := exc.detail,
                    code := Some(exc.kind.Value()), instance := Some(r.path), requestId := RequestId(r));
  }

  /** The headers of an HTTP exception as a dictionary, empty when it has none. */
  function HeadersOrEmpty(h: Option<map<string, string>>): (d: map<string, string>)
    ensures h.Some? ==> d == h.value
    ensures h.None? ==> d == map[]
  {
    if h.Some? then h.value else map[]
  }

  /** http_error_handler: title "HTTPException", code "http_error", the
      exception's status and detail, and its headers passed on (always a dictionary). */
  method HttpErrorHandler(r: Request, statusCode: int, detail: string, headers: Option<map<string, string>>)
    returns (resp: Response)
    ensures IsProblem(resp, "HTTPException", statusCode, AboutBlank, Some(detail), Some(r.path),
                      Some("http_error"), None, RequestId(r), Some(HeadersOrEmpty(headers)))
  {
    resp := Problem(title := "HTTPException", status := statusCode, detail := Some(detail),
                    instance := Some(r.path), code := Some("http_error"), requestId := RequestId(r),
                    headers := Some(HeadersOrEmpty(headers)));
  }

  /** validation_error_handler: status 422 and the validation errors listed. */
  method ValidationErrorHandler(r: Request, errors: seq<Value>) returns (resp: Response)
    ensures IsProblem(resp, "Validation Error", UnprocessableEntity, AboutBlank,
                      Some("Request validation failed"), Some(r.path), Some("validation_error"),
                      Some(List(errors)), RequestId(r), None)
  {
    resp := Problem(status := UnprocessableEntity, title := "Validation Error",
                    detail := Some("Request validation failed"), code := Some("validation_error"),
                    errors := Some(List(errors)), instance := Some(r.path), requestId := RequestId(r));
  }

  /** unhandled_error_handler: a fixed 500 document that reveals nothing of the error. */
  method UnhandledErrorHandler(r: Request) returns (resp: Response)
    ensures IsProblem(resp, "Internal Server Error", InternalServerError, AboutBlank,
                      Some("Unexpected error"), Some(r.path), Some("internal_error"), None, RequestId(r), None)
  {
    resp := Problem(status := InternalServerError, title := "Internal Server Error",
                    detail := Some("Unexpected error"), code := Some("internal_error"),
                    instance := Some(r.path), requestId := RequestId(r));
  }

  /** The title a handled exception is answered with. */
  function TitleOf(exc: Exception): string
  {
    match exc
    case App(e) => e.title
    case Db(e) => e.title
    case Http(_, _, _) => "HTTPException"
    case Validation(_) => "Validation Error"
    case _ => "Internal Server Error"
  }

  /** The status a handled exception is answered with. */
  function StatusOf(exc: Exception): int
  {
    match exc
    case App(e) => e.statusCode
    case Db(e) => e.statusCode
    case Http(s, _, _) => s
    case Validation(_) => UnprocessableEntity
    case _ => InternalServerError
  }

  /** The detail a handled exception is answered with. */
  function DetailOf(exc: Exception): Option<string>
  {
    match exc
    case App(e) => e.detail
    case Db(e) => e.detail
    case Http(_, d, _) => Some(d)
    case Validation(_) => Some("Request validation failed")
    case _ => Some("Unexpected error")
  }

  /** The code a handled exception is answered with. */
  function CodeOf(exc: Exception): string
  {
    match exc
    case App(e) => e.code
    case Db(e) => e.kind.Value()
    case Http(_, _, _) => "http_error"
    case Validation(_) => "validation_error"
    case _ => "internal_error"
  }

  /** The `errors` member: only a validation failure lists its errors. */
  function ErrorsOf(exc: Exception): Option<Value>
  {
    if exc.Validation? then Some(List(exc.errors)) else None
  }

  /** The response headers: only an HTTP exception passes its headers on. */
  function HeadersOf(exc: Exception): Option<map<string, string>>
  {
    if exc.Http? then Some(HeadersOrEmpty(exc.headers)) else None
  }

  /** The registered handlers, chosen by the exception's class: AppError,
      DBError, HTTPException, RequestValidationError, and Exception for the rest. */
  method Handle(r: Request, exc: Exception) returns (resp: Response)
    ensures IsProblem(resp, TitleOf(exc), StatusOf(exc), AboutBlank, DetailOf(exc), Some(r.path),
                      Some(CodeOf(exc)), ErrorsOf(exc), RequestId(r), HeadersOf(exc))
  {
    match exc
    case App(e) => resp := AppErrorHandler(r, e);
    case Db(e) => resp := DbErrorHandler(r, e);
    case Http(s, d, h) => resp := HttpErrorHandler(r, s, d, h);
    case Validation(errs) => resp := ValidationErrorHandler(r, errs);
    case _ => resp := UnhandledErrorHandler(r);
  }

  /** A storage error the handler raised and the executor classified reaches
      the client with the translated status and the kind as its code: a unique
      violation as 409, every other kind as 500. */
  lemma TranslatedDbErrorAnswer(e: DBError)
    ensures StatusOf(App(TranslateDbError(e))) == (if e.kind == Unique then 409 else 500)
    ensures CodeOf(App(TranslateDbError(e))) == e.kind.Value()
    ensures DetailOf(App(TranslateDbError(e))) == e.detail
  {
  }

  /** Any exception without a handler of its own is answered with the generic
      500 document, whatever it carries. */
  lemma UnhandledHidden(exc: Exception)
    requires !(exc.App? || exc.Db? || exc.Http? || exc.Validation?)
    ensures StatusOf(exc) == 500 && CodeOf(exc) == "internal_error" && TitleOf(exc) == "Internal Server Error"
    ensures DetailOf(exc) == Some("Unexpected error") && ErrorsOf(exc).None? && HeadersOf(exc).None?
  {
  }
}
