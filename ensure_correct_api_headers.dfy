/** The JSON:API content-negotiation gate (`EnsureCorrectAPIHeaders`):
    a request whose `Accept` header is not exactly the JSON:API media type is
    answered 406, one that must declare its body type and does not declare
    exactly that media type is answered 415, any other one goes on to the
    downstream handler; every response leaves with the media type as its
    `Content-Type`. */
module EnsureCorrectApiHeaders {
  import opened HttpFoundation

  const JsonApiMediaType: string := "application/vnd.api+json"
  const AcceptHeader: string := "Accept"
  const ContentTypeHeader: string := "Content-Type"

  /** 406 Not Acceptable, section 15.5.7 of RFC 9110. */
  const NotAcceptable: int := 406
  /** 415 Unsupported Media Type, section 15.5.16 of RFC 9110. */
  const UnsupportedMediaType: int := 415

  /** Which of its three exits the gate takes for a request. */
  datatype Decision = RejectNotAcceptable | RejectUnsupportedMediaType | Delegate

  /** The `Accept` header is exactly the media type (absent never is). */
  predicate AcceptsJsonApi(request: Request) {
    Lookup(request.headers, AcceptHeader) == Some(JsonApiMediaType)
  }

  /** The `Content-Type` header is exactly the media type (absent never is). */
  predicate DeclaresJsonApi(request: Request) {
    Lookup(request.headers, ContentTypeHeader) == Some(JsonApiMediaType)
  }

  /** The second check runs when the request INPUT has a `Content-Type` key,
      or the method is POST or PATCH. */
  predicate ContentTypeCheckApplies(request: Request) {
    request.Has(ContentTypeHeader) || request.IsMethod("POST") || request.IsMethod("PATCH")
  }

  /** The decision `handle` takes, in the order it takes it. */
  function Negotiate(request: Request): Decision
  {
    if !AcceptsJsonApi(request) then RejectNotAcceptable
    else if ContentTypeCheckApplies(request) && !DeclaresJsonApi(request) then RejectUnsupportedMediaType
    else Delegate
  }

  /** The header bag `addCorrectContentType` leaves behind. */
  function Stamped(entries: Entries): Entries
  {
    Put(entries, ContentTypeHeader, JsonApiMediaType)
  }

  /** The two headers the gate reads are filed under different keys. */
  lemma HeaderKeysDiffer()
    ensures NormalizeName(AcceptHeader) != NormalizeName(ContentTypeHeader)
  {
  }

  // ---------------------------------------------------------------------------
  // The middleware
  // ---------------------------------------------------------------------------

  /** `addCorrectContentType`: overwrites the response's `Content-Type` in its
      header bag and hands back the same response object. */
  method AddCorrectContentType(response: Response) returns (stamped: Response)
    modifies response.headers
    ensures stamped == response
    ensures unchanged(response)
    ensures response.headers.entries == Stamped(old(response.headers.entries))
  {
    response.headers.Set(ContentTypeHeader, JsonApiMediaType);
    stamped := response;
  }

  /** `handle`: the 406 check, then the 415 check, then delegation to `next`;
      the response of every path is stamped. `nextCalled` records whether the
      downstream handler ran. */
  method Handle(request: Request, next: Request -> Response) returns (response: Response, ghost nextCalled: bool)
    requires allocated(next(request))
    modifies next(request).headers
    ensures nextCalled <==> Negotiate(request) == Delegate
    ensures Negotiate(request) == RejectNotAcceptable ==>
      fresh(response) && response.status == NotAcceptable && response.content == ""
      && response.headers.entries == Stamped(map[])
    ensures Negotiate(request) == RejectUnsupportedMediaType ==>
      fresh(response) && response.status == UnsupportedMediaType && response.content == ""
      && response.headers.entries == Stamped(map[])
    ensures Negotiate(request) != Delegate ==> unchanged(next(request).headers)
    ensures Negotiate(request) == Delegate ==>
      response == next(request)
      && response.status == old(next(request).status) && response.content == old(next(request).content)
      && response.headers.entries == Stamped(old(next(request).headers.entries))
    ensures Lookup(response.headers.entries, ContentTypeHeader) == Some(JsonApiMediaType)
  {
    if Lookup(request.headers, AcceptHeader) != Some(JsonApiMediaType) {
      var rejected := new Response("", NotAcceptable);
      nextCalled := false;
      response := AddCorrectContentType(rejected);
      return;
    }
    if request.Has(ContentTypeHeader) || request.IsMethod("POST") || request.IsMethod("PATCH") {
      if Lookup(request.headers, ContentTypeHeader) != Some(JsonApiMediaType) {
        var rejected := new Response("", UnsupportedMediaType);
        nextCalled := false;
        response := AddCorrectContentType(rejected);
        return;
      }
    }
    var downstream := next(request);
    nextCalled := true;
    response := AddCorrectContentType(downstream);
  }

  // ---------------------------------------------------------------------------
  // Properties of the decision
  // ---------------------------------------------------------------------------

  /** 406 exactly when `Accept` is absent or anything but the media type. */
  lemma NotAcceptableExactlyOnBadAccept(request: Request)
    ensures Negotiate(request) == RejectNotAcceptable
        <==> Lookup(request.headers, AcceptHeader) != Some(JsonApiMediaType)
  {
  }

  /** 415 exactly when `Accept` passes, the check applies (POST, PATCH or a
      `Content-Type` input key) and `Content-Type` is absent or anything but
      the media type. */
  lemma UnsupportedExactlyOnBadContentType(request: Request)
    ensures Negotiate(request) == RejectUnsupportedMediaType
        <==> && Lookup(request.headers, AcceptHeader) == Some(JsonApiMediaType)
             && (request.IsMethod("POST") || request.IsMethod("PATCH") || request.Has(ContentTypeHeader))
             && Lookup(request.headers, ContentTypeHeader) != Some(JsonApiMediaType)
  {
  }

  /** The downstream handler runs exactly when both checks pass. */
  lemma DelegatesExactlyWhenBothChecksPass(request: Request)
    ensures Negotiate(request) == Delegate
        <==> && Lookup(request.headers, AcceptHeader) == Some(JsonApiMediaType)
             && (ContentTypeCheckApplies(request) ==> Lookup(request.headers, ContentTypeHeader) == Some(JsonApiMediaType))
  {
  }

  /** The `Accept` check comes first: a request that fails both checks is
      answered 406, never 415. */
  lemma AcceptCheckTakesPrecedence(request: Request)
    requires !AcceptsJsonApi(request)
    requires ContentTypeCheckApplies(request) && !DeclaresJsonApi(request)
    ensures Negotiate(request) == RejectNotAcceptable
  {
  }

  /** Without POST, PATCH or a `Content-Type` input key, the `Content-Type`
      header is never looked at: whatever it holds, or if it is absent, the
      decision rests on `Accept` alone. */
  lemma ContentTypeHeaderIgnoredWhenCheckSkipped(request: Request, value: string)
    requires !request.IsMethod("POST") && !request.IsMethod("PATCH") && !request.Has(ContentTypeHeader)
    ensures Negotiate(request) == if AcceptsJsonApi(request) then Delegate else RejectNotAcceptable
    ensures Negotiate(request.(headers := Put(request.headers, ContentTypeHeader, value))) == Negotiate(request)
    ensures Negotiate(request.(headers := request.headers - {NormalizeName(ContentTypeHeader)})) == Negotiate(request)
  {
    LookupAfterPut(request.headers, ContentTypeHeader, value, AcceptHeader);
  }

  /** A GET whose only header is a JSON:API `Accept` reaches the handler. */
  lemma GetWithOnlyAcceptIsDelegated()
    ensures Negotiate(Request("GET", Put(map[], AcceptHeader, JsonApiMediaType), {})) == Delegate
  {
  }

  /** The comparison is exact: media-type parameters are rejected. */
  lemma MediaTypeParametersAreRejected()
    ensures Negotiate(Request("GET", Put(map[], AcceptHeader, JsonApiMediaType + "; charset=utf-8"), {}))
         == RejectNotAcceptable
    ensures Negotiate(Request("POST",
                              Put(Put(map[], AcceptHeader, JsonApiMediaType),
                                  ContentTypeHeader, JsonApiMediaType + "; charset=utf-8"),
                              {}))
         == RejectUnsupportedMediaType
  {
  }

  /** The method comparison goes through upper-casing: a request sent as
      `post` must declare its body type like a `POST`. */
  lemma LowerCaseMethodIsChecked()
    ensures Negotiate(Request("post", Put(map[], AcceptHeader, JsonApiMediaType), {}))
         == RejectUnsupportedMediaType
  {
  }

  /** Applicability follows the request input, not the header: a GET whose
      input carries a `Content-Type` key and which has no such header is
      refused with 415. */
  lemma ContentTypeInputKeyTriggersCheck()
    ensures Negotiate(Request("GET", Put(map[], AcceptHeader, JsonApiMediaType), {ContentTypeHeader}))
         == RejectUnsupportedMediaType
  {
  }

  // ---------------------------------------------------------------------------
  // Properties of the stamp
  // ---------------------------------------------------------------------------

  /** After the stamp, `Content-Type` reads as the media type under any
      spelling of the name, whatever it held before. */
  lemma StampOverwritesContentType(entries: Entries, name: string)
    requires NormalizeName(name) == NormalizeName(ContentTypeHeader)
    ensures Lookup(Stamped(entries), name) == Some(JsonApiMediaType)
    ensures Stamped(entries)[NormalizeName(name)] == [JsonApiMediaType]
  {
  }

  /** The stamp changes the `Content-Type` entry and no other. */
  lemma StampChangesOnlyContentType(entries: Entries, name: string)
    requires NormalizeName(name) != NormalizeName(ContentTypeHeader)
    ensures Lookup(Stamped(entries), name) == Lookup(entries, name)
    ensures Stamped(entries) - {NormalizeName(ContentTypeHeader)} == entries - {NormalizeName(ContentTypeHeader)}
  {
    PutChangesOnlyItsKey(entries, ContentTypeHeader, JsonApiMediaType);
  }

  /** Stamping twice leaves the same header bag as stamping once. */
  lemma StampIdempotent(entries: Entries)
    ensures Stamped(Stamped(entries)) == Stamped(entries)
  {
    PutIdempotent(entries, ContentTypeHeader, JsonApiMediaType);
  }
}
