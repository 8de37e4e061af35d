# JSON:API content negotiation gate

This project models the `EnsureCorrectAPIHeaders` middleware of a small
JSON:API "authors" service, and proves properties of that model. The
middleware sits in front of every route and works in three steps:

1. If the request's `Accept` header is not exactly `application/vnd.api+json`,
   it answers with an empty-bodied 406 Not Acceptable (section 15.5.7 of
   RFC 9110).
2. If the request is a POST or a PATCH, or its input has a `Content-Type`
   key, and its `Content-Type` header is not exactly that media type, it
   answers with an empty-bodied 415 Unsupported Media Type (section 15.5.16 of
   RFC 9110).
3. Otherwise it passes the request to the downstream handler `$next`.

On all three paths, `addCorrectContentType` then sets the response's
`Content-Type` header to the media type, replacing any earlier value.

Files:

- `http_foundation.dfy` (module `HttpFoundation`) holds the framework pieces
  the middleware uses. A header bag files each header under its folded name
  (ASCII capitals to lower case, `_` to `-`).
  - `Lookup` is `headers->get`, used at
    app/Http/Middleware/EnsureCorrectAPIHeaders.php:22 and :27. It returns the
    first stored value, or null (`None`).
  - `Put` is `headers->set` (line 37). It replaces all earlier values with a
    single new one.
  - The request is a value: the method as the client sent it, its header bag,
    and the keys of its input. `Request.IsMethod` is `isMethod` (line 26). It
    compares the ASCII upper-cased method, as `getMethod()` reports it.
    `Request.Has` is `has` (line 26). It tests the input keys.
  - The response is a class. It has a status, a body and its own mutable
    `HeaderBag` object.
- `ensure_correct_api_headers.dfy` (module `EnsureCorrectApiHeaders`) holds
  the middleware. `Negotiate` is the decision `handle` takes
  (app/Http/Middleware/EnsureCorrectAPIHeaders.php:22-32). `Stamped` is the
  header bag `addCorrectContentType` leaves behind (line 37).
  `AddCorrectContentType` and `Handle` are the imperative methods, proved
  against these two functions. The lemmas state the properties of the decision and of the stamp.
- `ensure_correct_api_headers_test.dfy` (module `EnsureCorrectApiHeadersTest`)
  replays the middleware's unit tests through `Handle`. Each test is a method
  whose postcondition is what that test asserts.

`$next` is a parameter of type `Request -> Response`. `Handle` may modify only
the header bag of the response `$next` returns, and it leaves that bag
untouched unless it delegates. A ghost out-parameter records whether `$next`
was called.

The 415 check depends on the request input, not on its headers.
`$request->has('Content-Type')`
(app/Http/Middleware/EnsureCorrectAPIHeaders.php:26) looks for a
`Content-Type` query or body key. A GET that has the header but not the key
skips the check. A GET that has the key but not the header gets 415.
`ContentTypeHeaderIgnoredWhenCheckSkipped` and
`ContentTypeInputKeyTriggersCheck` state both cases.

## Model

| member | source | states |
|---|---|---|
| `HttpFoundation.FoldChar` | app/Http/Middleware/EnsureCorrectAPIHeaders.php:22 | A folded character is never an ASCII capital or `_`. Capitals map to the matching lower-case letter, `_` maps to `-`, and every other character is unchanged. |
| `HttpFoundation.NormalizeName` | app/Http/Middleware/EnsureCorrectAPIHeaders.php:22 | The key under which a header name is filed has the same length as the name, folds it character by character, and is itself a folded name. |
| `HttpFoundation.NormalizeNameFixesExactlyNormalNames` | app/Http/Middleware/EnsureCorrectAPIHeaders.php:22 | A name is its own key exactly when it is already folded, in both directions. |
| `HttpFoundation.NormalizeNameIdempotent` | app/Http/Middleware/EnsureCorrectAPIHeaders.php:22 | Folding an already folded key changes nothing. |
| `HttpFoundation.LookupIgnoresNameSpelling` | app/Http/Middleware/EnsureCorrectAPIHeaders.php:22 | Two spellings of a header name that fold to the same key read the same header. |
| `HttpFoundation.UpperChar` | app/Http/Middleware/EnsureCorrectAPIHeaders.php:26 | An upper-cased character is never an ASCII lower-case letter. Lower-case letters map to the matching capital, and every other character is unchanged. |
| `HttpFoundation.ToUpper` | app/Http/Middleware/EnsureCorrectAPIHeaders.php:26 | The upper-cased string has the same length, upper-cases each character, and contains no lower-case letter. |
| `HttpFoundation.ToUpperFixesExactlyUpperCase` | app/Http/Middleware/EnsureCorrectAPIHeaders.php:26 | Upper-casing leaves a string unchanged exactly when it has no lower-case letter, in both directions. So `isMethod('POST')` compares against `POST` as written. |
| `HttpFoundation.ToUpperIdempotent` | app/Http/Middleware/EnsureCorrectAPIHeaders.php:26 | Upper-casing twice gives the same result as upper-casing once. |
| `HttpFoundation.Request.Method` | app/Http/Middleware/EnsureCorrectAPIHeaders.php:26 | The method the request reports is upper-case and as long as the method the client sent. |
| `HttpFoundation.Put` | app/Http/Middleware/EnsureCorrectAPIHeaders.php:37 | After a set, the header holds exactly the one new value and reads as that value. The bag's keys are the old keys plus the set key. Every other entry is unchanged. |
| `HttpFoundation.LookupAfterPut` | app/Http/Middleware/EnsureCorrectAPIHeaders.php:37 | After a set, reading any spelling of the set name gives the new value. Reading any other header gives what it gave before. |
| `HttpFoundation.PutIdempotent` | app/Http/Middleware/EnsureCorrectAPIHeaders.php:37 | Setting the same header to the same value twice leaves the same bag as setting it once. |
| `HttpFoundation.PutChangesOnlyItsKey` | app/Http/Middleware/EnsureCorrectAPIHeaders.php:37 | With the set key removed, the bag after a set equals the bag before it. |
| `HttpFoundation.HeaderBag.Set` | app/Http/Middleware/EnsureCorrectAPIHeaders.php:37 | The bag's new entries are `Put` of its old entries. |
| `HttpFoundation.Response.constructor` | app/Http/Middleware/EnsureCorrectAPIHeaders.php:23 | A new response has the given body and status, and a fresh, empty header bag. |
| `EnsureCorrectApiHeaders.HeaderKeysDiffer` | app/Http/Middleware/EnsureCorrectAPIHeaders.php:22-27 | `Accept` and `Content-Type` are filed under different keys. |
| `EnsureCorrectApiHeaders.AddCorrectContentType` | app/Http/Middleware/EnsureCorrectAPIHeaders.php:35-39 | Returns the same response object. The status, body and bag object are unchanged. The bag's new entries are the stamped old entries. Nothing else is modified. |
| `EnsureCorrectApiHeaders.Handle` | app/Http/Middleware/EnsureCorrectAPIHeaders.php:19-33 | `$next` runs exactly when the decision is to delegate. On a 406 or 415, the header bag of `$next`'s response is untouched. A 406 or 415 is a fresh response with an empty body and a header bag holding only `Content-Type`. A delegated result is `$next`'s own object, with its status and body unchanged and its headers stamped. Every result reads `Content-Type: application/vnd.api+json`. |
| `EnsureCorrectApiHeaders.NotAcceptableExactlyOnBadAccept` | app/Http/Middleware/EnsureCorrectAPIHeaders.php:22-24 | The decision is 406 if and only if `Accept` is absent or not exactly the media type. |
| `EnsureCorrectApiHeaders.UnsupportedExactlyOnBadContentType` | app/Http/Middleware/EnsureCorrectAPIHeaders.php:26-29 | The decision is 415 if and only if three things hold: `Accept` is exact; the method is POST or PATCH, or the input has a `Content-Type` key; and `Content-Type` is absent or not exact. |
| `EnsureCorrectApiHeaders.DelegatesExactlyWhenBothChecksPass` | app/Http/Middleware/EnsureCorrectAPIHeaders.php:22-32 | The request is delegated if and only if `Accept` is exact and, whenever the second check applies, `Content-Type` is exact too. |
| `EnsureCorrectApiHeaders.AcceptCheckTakesPrecedence` | app/Http/Middleware/EnsureCorrectAPIHeaders.php:22-30 | A request that fails both checks gets 406, never 415. |
| `EnsureCorrectApiHeaders.ContentTypeHeaderIgnoredWhenCheckSkipped` | app/Http/Middleware/EnsureCorrectAPIHeaders.php:26 | Take a request that is not a POST or PATCH and has no `Content-Type` input key. Its decision depends on `Accept` alone. Setting or removing its `Content-Type` header does not change the decision. |
| `EnsureCorrectApiHeaders.GetWithOnlyAcceptIsDelegated` | app/Http/Middleware/EnsureCorrectAPIHeaders.php:22-32 | A GET with only a JSON:API `Accept` header is delegated. |
| `EnsureCorrectApiHeaders.MediaTypeParametersAreRejected` | app/Http/Middleware/EnsureCorrectAPIHeaders.php:22-28 | The media type with `; charset=utf-8` added is refused: with 406 in `Accept`, and with 415 in the `Content-Type` of a POST. |
| `EnsureCorrectApiHeaders.LowerCaseMethodIsChecked` | app/Http/Middleware/EnsureCorrectAPIHeaders.php:26-29 | A request sent as `post` with an exact `Accept` and no `Content-Type` gets 415, just as a `POST` does. |
| `EnsureCorrectApiHeaders.ContentTypeInputKeyTriggersCheck` | app/Http/Middleware/EnsureCorrectAPIHeaders.php:26-29 | A GET whose input has a `Content-Type` key but which has no such header gets 415. |
| `EnsureCorrectApiHeaders.StampOverwritesContentType` | app/Http/Middleware/EnsureCorrectAPIHeaders.php:35-38 | After the stamp, every spelling of `Content-Type` reads the media type, and that entry holds that single value, whatever it held before. |
| `EnsureCorrectApiHeaders.StampChangesOnlyContentType` | app/Http/Middleware/EnsureCorrectAPIHeaders.php:35-38 | The stamp does not change how any other header reads. With the `Content-Type` key removed, the bag equals the bag before the stamp. |
| `EnsureCorrectApiHeaders.StampIdempotent` | app/Http/Middleware/EnsureCorrectAPIHeaders.php:37 | Stamping twice gives the same header bag as stamping once. |
| `EnsureCorrectApiHeadersTest.TestRequest` | tests/Unit/EnsureCorrectApiHeadersTest.php:87-89 | A test request reads back exactly the `Accept` and `Content-Type` it was built with, and has no input. |
| `EnsureCorrectApiHeadersTest.RunGate` | tests/Unit/EnsureCorrectApiHeadersTest.php:91-95 | With a downstream handler that returns an empty 200, the status is 406, 415 or 200 as the decision says. The handler runs exactly on delegation. The `Content-Type` read back is always the media type. |
| `EnsureCorrectApiHeadersTest.AbortsWithoutAcceptHeader` | tests/Unit/EnsureCorrectApiHeadersTest.php:16-27 | No `Accept` header gives 406, and the handler is not run. |
| `EnsureCorrectApiHeadersTest.AcceptsGetWithJsonApiAccept` | tests/Unit/EnsureCorrectApiHeadersTest.php:32-45 | A GET with a JSON:API `Accept` gives 200. |
| `EnsureCorrectApiHeadersTest.AbortsBodyRequestWithoutContentType` | tests/Unit/EnsureCorrectApiHeadersTest.php:50-79 | A POST or PATCH without `Content-Type` gives 415, and the handler is not run. |
| `EnsureCorrectApiHeadersTest.AcceptsBodyRequestWithJsonApiHeaders` | tests/Unit/EnsureCorrectApiHeadersTest.php:85-116 | A POST or PATCH with both headers exact gives 200. |
| `EnsureCorrectApiHeadersTest.StampsDelegatedResponse` | tests/Unit/EnsureCorrectApiHeadersTest.php:121-136 | A delegated GET gives 200 with the JSON:API `Content-Type`. |
| `EnsureCorrectApiHeadersTest.StampsNotAcceptableResponse` | tests/Unit/EnsureCorrectApiHeadersTest.php:141-152 | A GET without `Accept` gives 406 with the JSON:API `Content-Type`. |
| `EnsureCorrectApiHeadersTest.StampsUnsupportedMediaTypeResponse` | tests/Unit/EnsureCorrectApiHeadersTest.php:157-169 | A POST without `Content-Type` gives 415 with the JSON:API `Content-Type`. |

## Left out

- The exception-to-error-document handler, the author controller, the paginated collection response and sorting by `?sort=name` are not part of this model. They take no part in content negotiation and run outside this middleware. The controller only delegates to the ORM, and the paginated response only shapes pagination links.
- Persistence, authentication, timestamps and URL generation are framework services and I/O, so they are left out.
- The internals of `$next` are left out. It is a function parameter that returns some response object, and `Handle` requires that object to exist already.
- The headers the framework adds on its own are not modelled. A new response starts with an empty header bag here, so the automatic `Cache-Control` and `Date` headers are missing. The header bag's record of each name's original spelling is missing too.
- Test requests carry only the headers the tests set. The framework's test-request factory also adds defaults: a browser-style `Accept`, and a form `Content-Type` on POST. The model leaves these out. Both differ from the exact media type, so they lead to the same decision as an absent header.
- Header bags hold only string values, and `set` always replaces. Appending with `replace = false`, array values and null values are not used by the middleware, so they are left out.
- Method overriding is not modelled: the framework can replace a POST's method with the `X-HTTP-METHOD-OVERRIDE` header or a `_method` parameter. The model takes the method as the client sent it, upper-cased.
- `IsMethod` does not upper-case its argument. The middleware passes only `POST` and `PATCH`, which upper-casing leaves unchanged (`ToUpperFixesExactlyUpperCase`).
- `has('Content-Type')` is modelled as membership in the set of top-level input keys. The framework's dot-notation lookup never applies, because the key has no dot.
- The response returned by `$next` may also be a redirect response. The model treats every response alike, because only its status, body and headers are involved.
