/** The middleware's unit tests, each replayed through `Handle` against a
    downstream handler that answers an empty 200 response. Each method hands
    back what its test asserts: the status, the response's `Content-Type`,
    and (ghost) whether the downstream handler ran. */
module EnsureCorrectApiHeadersTest {
  import opened HttpFoundation
  import opened EnsureCorrectApiHeaders

  const Ok: int := 200

  /** A request carrying the given `Accept` and `Content-Type` headers, and
      no input. */
  function TestRequest(rawMethod: string, accept: Option<string>, contentType: Option<string>): (request: Request)
    ensures Lookup(request.headers, AcceptHeader) == accept
    ensures Lookup(request.headers, ContentTypeHeader) == contentType
    ensures request.rawMethod == rawMethod && request.inputKeys == {}
  {
    HeaderKeysDiffer();
    var withAccept := if accept.Some? then Put(map[], AcceptHeader, accept.value) else map[];
    var headers := if contentType.Some? then Put(withAccept, ContentTypeHeader, contentType.value) else withAccept;
    Request(rawMethod, headers, {})
  }

  /** Runs the gate with a downstream handler answering `new Response()`. */
  method RunGate(request: Request) returns (status: int, contentType: Option<string>, ghost downstreamCalled: bool)
    ensures contentType == Some(JsonApiMediaType)
    ensures downstreamCalled <==> Negotiate(request) == Delegate
    ensures status == match Negotiate(request)
                      case RejectNotAcceptable => NotAcceptable
                      case RejectUnsupportedMediaType => UnsupportedMediaType
                      case Delegate => Ok
  {
    var downstream := new Response("", Ok);
    var response, called := Handle(request, _ => downstream);
    status, contentType, downstreamCalled := response.status, Lookup(response.headers.entries, ContentTypeHeader), called;
  }

  /** A request without `Accept` is refused before the handler runs. */
  method AbortsWithoutAcceptHeader() returns (status: int, ghost downstreamCalled: bool)
    ensures status == NotAcceptable && !downstreamCalled
  {
    var contentType;
    status, contentType, downstreamCalled := RunGate(TestRequest("GET", None, None));
  }

  /** A GET with only a JSON:API `Accept` gets the handler's 200. */
  method AcceptsGetWithJsonApiAccept() returns (status: int)
    ensures status == Ok
  {
    var contentType; ghost var called;
    status, contentType, called := RunGate(TestRequest("GET", Some(JsonApiMediaType), None));
  }

  /** A POST or a PATCH without `Content-Type` is refused with 415. */
  method AbortsBodyRequestWithoutContentType(rawMethod: string) returns (status: int, ghost downstreamCalled: bool)
    requires rawMethod == "POST" || rawMethod == "PATCH"
    ensures status == UnsupportedMediaType && !downstreamCalled
  {
    var contentType;
    status, contentType, downstreamCalled := RunGate(TestRequest(rawMethod, Some(JsonApiMediaType), None));
  }

  /** A POST or a PATCH with both headers right gets the handler's 200. */
  method AcceptsBodyRequestWithJsonApiHeaders(rawMethod: string) returns (status: int)
    requires rawMethod == "POST" || rawMethod == "PATCH"
    ensures status == Ok
  {
    var contentType; ghost var called;
    status, contentType, called := RunGate(TestRequest(rawMethod, Some(JsonApiMediaType), Some(JsonApiMediaType)));
  }

  /** A delegated response leaves with the JSON:API `Content-Type`. */
  method StampsDelegatedResponse() returns (status: int, contentType: Option<string>)
    ensures status == Ok && contentType == Some(JsonApiMediaType)
  {
    ghost var called;
    status, contentType, called := RunGate(TestRequest("GET", Some(JsonApiMediaType), Some(JsonApiMediaType)));
  }

  /** A 406 leaves with the JSON:API `Content-Type`. */
  method StampsNotAcceptableResponse() returns (status: int, contentType: Option<string>)
    ensures status == NotAcceptable && contentType == Some(JsonApiMediaType)
  {
    ghost var called;
    status, contentType, called := RunGate(TestRequest("GET", None, None));
  }

  /** A 415 leaves with the JSON:API `Content-Type`. */
  method StampsUnsupportedMediaTypeResponse() returns (status: int, contentType: Option<string>)
    ensures status == UnsupportedMediaType && contentType == Some(JsonApiMediaType)
  {
    ghost var called;
    status, contentType, called := RunGate(TestRequest("POST", Some(JsonApiMediaType), None));
  }
}
