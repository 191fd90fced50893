/**
 * The Matrix-style error catalogue of pkg/server/errors.go: the `M_` errcode
 * constants, the HAL error constructor NewHALError, the forty Error*
 * descriptors built with it and the `Errors` table that keys 37 of them by
 * HTTP status.
 */
module ErrorCatalogue {
  import opened Wrappers
  import opened Representor

  // Matrix errcode constants; the comment names the HTTP status each stands for.
  const CodeBadRequest: string := "M_BAD_REQUEST"  // 400
  const CodeUnauthorized: string := "M_UNAUTHORIZED"  // 401
  const CodePaymentRequired: string := "M_PAYMENT_REQUIRED"  // 402
  const CodeForbidden: string := "M_FORBIDDEN"  // 403
  const CodeNotFound: string := "M_NOT_FOUND"  // 404
  const CodeMethodNotAllowed: string := "M_METHOD_NOT_ALLOWED"  // 405
  const CodeNotAcceptable: string := "M_NOT_ACCEPTABLE"  // 406
  const CodeProxyAuthRequired: string := "M_PROXY_AUTH_REQUIRED"  // 407
  const CodeRequestTimeout: string := "M_REQUEST_TIMEOUT"  // 408
  const CodeConflict: string := "M_CONFLICT"  // 409
  const CodeGone: string := "M_GONE"  // 410
  const CodeLengthRequired: string := "M_LENGTH_REQUIRED"  // 411
  const CodePreconditionFailed: string := "M_PRECONDITION_FAILED"  // 412
  const CodeRequestEntityTooLarge: string := "M_REQUEST_ENTITY_TOO_LARGE"  // 413
  const CodeRequestURITooLong: string := "M_REQUEST_URI_TOO_LONG"  // 414
  const CodeUnsupportedMediaType: string := "M_UNSUPPORTED_MEDIA_TYPE"  // 415
  const CodeRequestedRangeNotSatisfiable: string := "M_REQUESTED_RANGE_NOT_SATISFIABLE"  // 416
  const CodeExpectationFailed: string := "M_EXPECTATION_FAILED"  // 417
  const CodeTeapot: string := "M_TEAPOT"  // 418
  const CodeMisdirectedRequest: string := "M_MISDIRECTED_REQUEST"  // 421
  const CodeUnprocessableEntity: string := "M_UNPROCESSABLE_ENTITY"  // 422
  const CodeLocked: string := "M_LOCKED"  // 423
  const CodeFailedDependency: string := "M_FAILED_DEPENDENCY"  // 424
  const CodeTooEarly: string := "M_TOO_EARLY"  // 425
  const CodeUpgradeRequired: string := "M_UPGRADE_REQUIRED"  // 426
  const CodePreconditionRequired: string := "M_PRECONDITION_REQUIRED"  // 428
  const CodeTooManyRequests: string := "M_TOO_MANY_REQUESTS"  // 429
  const CodeRequestHeaderFieldsTooLarge: string := "M_REQUEST_HEADER_FIELDS_TOO_LARGE"  // 431
  const CodeUnavailableForLegalReasons: string := "M_UNAVAILABLE_FOR_LEGAL_REASONS"  // 451
  const CodeInternalServerError: string := "M_INTERNAL_SERVER_ERROR"  // 500
  const CodeNotImplemented: string := "M_NOT_IMPLEMENTED"  // 501
  const CodeBadGateway: string := "M_BAD_GATEWAY"  // 502
  const CodeServiceUnavailable: string := "M_SERVICE_UNAVAILABLE"  // 503
  const CodeGatewayTimeout: string := "M_GATEWAY_TIMEOUT"  // 504
  const CodeHTTPVersionNotSupported: string := "M_HTTP_VERSION_NOT_SUPPORTED"  // 505
  const CodeVariantAlsoNegotiates: string := "M_VARIANT_ALSO_NEGOTIATES"  // 506
  const CodeInsufficientStorage: string := "M_INSUFFICIENT_STORAGE"  // 507
  const CodeLoopDetected: string := "M_LOOP_DETECTED"  // 508
  const CodeNotExtended: string := "M_NOT_EXTENDED"  // 510
  const CodeNetworkAuthenticationRequired: string := "M_NETWORK_AUTHENTICATION_REQUIRED"  // 511

  /** The errcode constant whose comment names `status`, if there is one. */
  function CodeForStatus(status: int): Option<string>
  {
    match status
    case 400 => Some(CodeBadRequest)
    case 401 => Some(CodeUnauthorized)
    case 402 => Some(CodePaymentRequired)
    case 403 => Some(CodeForbidden)
    case 404 => Some(CodeNotFound)
    case 405 => Some(CodeMethodNotAllowed)
    case 406 => Some(CodeNotAcceptable)
    case 407 => Some(CodeProxyAuthRequired)
    case 408 => Some(CodeRequestTimeout)
    case 409 => Some(CodeConflict)
    case 410 => Some(CodeGone)
    case 411 => Some(CodeLengthRequired)
    case 412 => Some(CodePreconditionFailed)
    case 413 => Some(CodeRequestEntityTooLarge)
    case 414 => Some(CodeRequestURITooLong)
    case 415 => Some(CodeUnsupportedMediaType)
    case 416 => Some(CodeRequestedRangeNotSatisfiable)
    case 417 => Some(CodeExpectationFailed)
    case 418 => Some(CodeTeapot)
    case 421 => Some(CodeMisdirectedRequest)
    case 422 => Some(CodeUnprocessableEntity)
    case 423 => Some(CodeLocked)
    case 424 => Some(CodeFailedDependency)
    case 425 => Some(CodeTooEarly)
    case 426 => Some(CodeUpgradeRequired)
    case 428 => Some(CodePreconditionRequired)
    case 429 => Some(CodeTooManyRequests)
    case 431 => Some(CodeRequestHeaderFieldsTooLarge)
    case 451 => Some(CodeUnavailableForLegalReasons)
    case 500 => Some(CodeInternalServerError)
    case 501 => Some(CodeNotImplemented)
    case 502 => Some(CodeBadGateway)
    case 503 => Some(CodeServiceUnavailable)
    case 504 => Some(CodeGatewayTimeout)
    case 505 => Some(CodeHTTPVersionNotSupported)
    case 506 => Some(CodeVariantAlsoNegotiates)
    case 507 => Some(CodeInsufficientStorage)
    case 508 => Some(CodeLoopDetected)
    case 510 => Some(CodeNotExtended)
    case 511 => Some(CodeNetworkAuthenticationRequired)
    case _ => None
  }

  /**
   * The flat Matrix error body `{errcode, error, extra?}`. The source declares
   * it but never builds one; here it is the shape a HAL error document is read
   * back into. `extra` is an arbitrary JSON value in the source, kept here as
   * its serialised text.
   */
  datatype Error = Error(extra: Option<string>, code: string, message: string)

  /** The path every error document's self link lives under. */
  const ErrorsPath: string := "/_matrix/errors/"

  predicate IsUpper(ch: char) { 'A' <= ch <= 'Z' }

  /** The characters an errcode is made of: ASCII upper case and underscore. */
  predicate IsCodeChar(ch: char) { IsUpper(ch) || ch == '_' }

  predicate CodeChars(s: string) { forall i :: 0 <= i < |s| ==> IsCodeChar(s[i]) }

  /** A Matrix errcode: `M_` followed by upper case letters and underscores. */
  predicate ValidCode(c: string) { |c| > 2 && c[..2] == "M_" && CodeChars(c) }

  /** ASCII lower-casing of one character; every other character is kept. */
  function LowerChar(ch: char): char
  {
    if IsUpper(ch) then (ch as int + 32) as char else ch
  }

  /** strings.ToLower restricted to ASCII: every character lower-cased in place. */
  function Lower(s: string): string
  {
    seq(|s|, i requires 0 <= i < |s| => LowerChar(s[i]))
  }

  /** The self link target of the error document for errcode `c`. */
  function SelfHref(c: string): string
  {
    ErrorsPath + Lower(c)
  }

  /**
   * NewHALError(m, c): a HAL document with one `self` link to the errcode's
   * page (titled with the errcode), the properties errcode and error, and
   * nothing embedded.
   */
  function NewHALError(m: string, c: string): HALBody
  {
    HALBody(
      map["self" := [HALLink(SelfHref(c), c)]],
      map["errcode" := c, "error" := m],
      map[])
  }

  /**
   * Reads the flat error back out of a HAL document, provided the document has
   * exactly the shape of an error document: one `self` relation holding one
   * link whose href and title are derived from the errcode, just the
   * properties errcode and error, and nothing embedded.
   */
  function Decode(b: HALBody): Option<Error>
  {
    if b.links.Keys == {"self"} && |b.links["self"]| == 1
       && b.properties.Keys == {"errcode", "error"} && b.embedded == map[]
       && b.links["self"][0] == HALLink(SelfHref(b.properties["errcode"]), b.properties["errcode"])
    then Some(Error(None, b.properties["errcode"], b.properties["error"]))
    else None
  }

  /** The errcode property of a document, if it has one. */
  function Errcode(b: HALBody): Option<string>
  {
    if "errcode" in b.properties then Some(b.properties["errcode"]) else None
  }

  /** The self link of a document, if it has exactly one. */
  function SelfLink(b: HALBody): Option<HALLink>
  {
    if "self" in b.links && |b.links["self"]| == 1 then Some(b.links["self"][0]) else None
  }

  /** The two arguments of one NewHALError call: the message and the errcode. */
  datatype Descriptor = Descriptor(message: string, code: string)

  /** The HAL error document a descriptor stands for. */
  function Render(d: Descriptor): HALBody
  {
    NewHALError(d.message, d.code)
  }


  // The Error* descriptors, one per errcode constant: the arguments of each NewHALError call.
  const ErrorBadRequest: Descriptor := Descriptor("Bad Request", CodeBadRequest)
  const ErrorUnauthorized: Descriptor := Descriptor("Unauthorized", CodeUnauthorized)
  const ErrorPaymentRequired: Descriptor := Descriptor("Payment Required", CodePaymentRequired)
  const ErrorForbidden: Descriptor := Descriptor("Forbidden", CodeForbidden)
  const ErrorNotFound: Descriptor := Descriptor("Not Found", CodeNotFound)
  const ErrorMethodNotAllowed: Descriptor := Descriptor("Method Not Allowed", CodeMethodNotAllowed)
  const ErrorNotAcceptable: Descriptor := Descriptor("Not Acceptable", CodeNotAcceptable)
  const ErrorProxyAuthRequired: Descriptor := Descriptor("Proxy Auth Required", CodeProxyAuthRequired)
  const ErrorRequestTimeout: Descriptor := Descriptor("Request Timeout", CodeRequestTimeout)
  const ErrorConflict: Descriptor := Descriptor("Conflict", CodeConflict)
  const ErrorGone: Descriptor := Descriptor("Gone", CodeGone)
  const ErrorLengthRequired: Descriptor := Descriptor("Length Required", CodeLengthRequired)
  const ErrorPreconditionFailed: Descriptor := Descriptor("Precondition Failed", CodePreconditionFailed)
  const ErrorRequestEntityTooLarge: Descriptor := Descriptor("Request Entity Too Large", CodeRequestEntityTooLarge)
  const ErrorRequestURITooLong: Descriptor := Descriptor("Request URI Too Long", CodeRequestURITooLong)
  const ErrorUnsupportedMediaType: Descriptor := Descriptor("Unsupported Media Type", CodeUnsupportedMediaType)
  const ErrorRequestedRangeNotSatisfiable: Descriptor := Descriptor("Requested Range Not Satisfiable", CodeRequestedRangeNotSatisfiable)
  const ErrorExpectationFailed: Descriptor := Descriptor("Expectation Failed", CodeExpectationFailed)
  const ErrorTeapot: Descriptor := Descriptor("Teapot", CodeTeapot)
  const ErrorMisdirectedRequest: Descriptor := Descriptor("Misdirected Request", CodeMisdirectedRequest)
  const ErrorUnprocessableEntity: Descriptor := Descriptor("Unprocessable Entity", CodeUnprocessableEntity)
  const ErrorLocked: Descriptor := Descriptor("Locked", CodeLocked)
  const ErrorFailedDependency: Descriptor := Descriptor("Failed Dependency", CodeFailedDependency)
  const ErrorTooEarly: Descriptor := Descriptor("Too Early", CodeTooEarly)
  const ErrorUpgradeRequired: Descriptor := Descriptor("Upgrade Required", CodeUpgradeRequired)
  const ErrorPreconditionRequired: Descriptor := Descriptor("Precondition Required", CodePreconditionRequired)
  const ErrorTooManyRequests: Descriptor := Descriptor("Too Many Requests", CodeTooManyRequests)
  const ErrorRequestHeaderFieldsTooLarge: Descriptor := Descriptor("Request Header Fields Too Large", CodeRequestHeaderFieldsTooLarge)
  const ErrorUnavailableForLegalReasons: Descriptor := Descriptor("Unavailable For Legal Reasons", CodeUnavailableForLegalReasons)
  const ErrorInternalServerError: Descriptor := Descriptor("Internal Server Error", CodeInternalServerError)
  const ErrorNotImplemented: Descriptor := Descriptor("Not Implemented", CodeNotImplemented)
  const ErrorBadGateway: Descriptor := Descriptor("Bad Gateway", CodeBadGateway)
  const ErrorServiceUnavailable: Descriptor := Descriptor("Service Unavailable", CodeServiceUnavailable)
  const ErrorGatewayTimeout: Descriptor := Descriptor("Gateway Timeout", CodeGatewayTimeout)
  const ErrorHTTPVersionNotSupported: Descriptor := Descriptor("HTTP Version Not Supported", CodeHTTPVersionNotSupported)
  const ErrorVariantAlsoNegotiates: Descriptor := Descriptor("Variant Also Negotiates", CodeVariantAlsoNegotiates)
  const ErrorInsufficientStorage: Descriptor := Descriptor("Insufficient Storage", CodeInsufficientStorage)
  const ErrorLoopDetected: Descriptor := Descriptor("Loop Detected", CodeLoopDetected)
  const ErrorNotExtended: Descriptor := Descriptor("Not Extended", CodeNotExtended)
  const ErrorNetworkAuthenticationRequired: Descriptor := Descriptor("Network Authentication Required", CodeNetworkAuthenticationRequired)

  /**
   * The `Errors` literal, one case per entry: the descriptor keyed under an
   * HTTP status (commented with its net/http name), None for a status that
   * is not a key. 426, 428 and 429 are not keys.
   */
  function ErrorsEntry(status: int): Option<Descriptor>
  {
    match status
    case 400 => Some(ErrorBadRequest)                     // StatusBadRequest
    case 401 => Some(ErrorUnauthorized)                   // StatusUnauthorized
    case 402 => Some(ErrorPaymentRequired)                // StatusPaymentRequired
    case 403 => Some(ErrorForbidden)                      // StatusForbidden
    case 404 => Some(ErrorNotFound)                       // StatusNotFound
    case 405 => Some(ErrorMethodNotAllowed)               // StatusMethodNotAllowed
    case 406 => Some(ErrorNotAcceptable)                  // StatusNotAcceptable
    case 407 => Some(ErrorProxyAuthRequired)              // StatusProxyAuthRequired
    case 408 => Some(ErrorRequestTimeout)                 // StatusRequestTimeout
    case 409 => Some(ErrorConflict)                       // StatusConflict
    case 410 => Some(ErrorGone)                           // StatusGone
    case 411 => Some(ErrorLengthRequired)                 // StatusLengthRequired
    case 412 => Some(ErrorPreconditionFailed)             // StatusPreconditionFailed
    case 413 => Some(ErrorRequestEntityTooLarge)          // StatusRequestEntityTooLarge
    case 414 => Some(ErrorRequestURITooLong)              // StatusRequestURITooLong
    case 415 => Some(ErrorUnsupportedMediaType)           // StatusUnsupportedMediaType
    case 416 => Some(ErrorRequestedRangeNotSatisfiable)   // StatusRequestedRangeNotSatisfiable
    case 417 => Some(ErrorExpectationFailed)              // StatusExpectationFailed
    case 418 => Some(ErrorTeapot)                         // StatusTeapot
    case 421 => Some(ErrorMisdirectedRequest)             // StatusMisdirectedRequest
    case 422 => Some(ErrorUnprocessableEntity)            // StatusUnprocessableEntity
    case 423 => Some(ErrorLocked)                         // StatusLocked
    case 424 => Some(ErrorFailedDependency)               // StatusFailedDependency
    case 425 => Some(ErrorTooEarly)                       // StatusTooEarly
    case 431 => Some(ErrorRequestHeaderFieldsTooLarge)    // StatusRequestHeaderFieldsTooLarge
    case 451 => Some(ErrorUnavailableForLegalReasons)     // StatusUnavailableForLegalReasons
    case 500 => Some(ErrorInternalServerError)            // StatusInternalServerError
    case 501 => Some(ErrorNotImplemented)                 // StatusNotImplemented
    case 502 => Some(ErrorBadGateway)                     // StatusBadGateway
    case 503 => Some(ErrorServiceUnavailable)             // StatusServiceUnavailable
    case 504 => Some(ErrorGatewayTimeout)                 // StatusGatewayTimeout
    case 505 => Some(ErrorHTTPVersionNotSupported)        // StatusHTTPVersionNotSupported
    case 506 => Some(ErrorVariantAlsoNegotiates)          // StatusVariantAlsoNegotiates
    case 507 => Some(ErrorInsufficientStorage)            // StatusInsufficientStorage
    case 508 => Some(ErrorLoopDetected)                   // StatusLoopDetected
    case 510 => Some(ErrorNotExtended)                    // StatusNotExtended
    case 511 => Some(ErrorNetworkAuthenticationRequired)  // StatusNetworkAuthenticationRequired
    case _ => None
  }

  /** Every HTTP status the table answers for is an error status, 400 to 599. */
  const MinErrorStatus: int := 400
  const MaxErrorStatus: int := 599

  /** Errors, the status-to-document table: each key's descriptor rendered with NewHALError. */
  const Errors: map<int, HALBody> :=
    map s | MinErrorStatus <= s <= MaxErrorStatus && ErrorsEntry(s).Some? :: Render(ErrorsEntry(s).value)

  // ---- Properties of the constructor ----

  /**
   * An error document has one `self` link, titled with the errcode and
   * pointing at the errors path plus the lower-cased errcode, and reads back
   * as the flat error with the same errcode and message and no extra.
   */
  lemma DecodeNewHALError(m: string, c: string)
    ensures NewHALError(m, c).links.Keys == {"self"}
    ensures SelfLink(NewHALError(m, c)) == Some(HALLink(ErrorsPath + Lower(c), c))
    ensures NewHALError(m, c).embedded == map[]
    ensures Errcode(NewHALError(m, c)) == Some(c)
    ensures Decode(NewHALError(m, c)) == Some(Error(None, c, m))
  {
  }

  /** Conversely, every document that reads back as an error is the one NewHALError builds from it. */
  lemma DecodeExact(b: HALBody)
    requires Decode(b).Some?
    ensures Decode(b).value.extra == None
    ensures b == NewHALError(Decode(b).value.message, Decode(b).value.code)
  {
    var c, m := b.properties["errcode"], b.properties["error"];
    var l := HALLink(SelfHref(c), c);
    assert b.links["self"] == [l];
    assert b.links.Keys == map["self" := [l]].Keys;
    assert b.links == map["self" := [l]];
    assert b.properties.Keys == map["errcode" := c, "error" := m].Keys;
  }

  /**
   * For a Matrix errcode the self href is the errors path followed by a
   * segment as long as the errcode that starts with `m_` and holds only
   * lower case letters and underscores.
   */
  lemma SelfHrefShape(c: string)
    requires ValidCode(c)
    ensures var h := SelfHref(c);
      |h| == |ErrorsPath| + |c| && h[..|ErrorsPath|] == ErrorsPath
      && h[|ErrorsPath|..|ErrorsPath| + 2] == "m_"
      && forall i :: |ErrorsPath| <= i < |h| ==> ('a' <= h[i] <= 'z' || h[i] == '_')
  {
    var h := SelfHref(c);
    assert c[0] == 'M' && c[1] == '_';
    assert h[|ErrorsPath|..|ErrorsPath| + 2] == [h[|ErrorsPath|], h[|ErrorsPath| + 1]];
  }

  /** Lower-casing loses nothing on errcode characters. */
  lemma LowerInjective(a: string, b: string)
    requires CodeChars(a) && CodeChars(b)
    requires Lower(a) == Lower(b)
    ensures a == b
  {
    assert |a| == |b|;
    forall i | 0 <= i < |a| ensures a[i] == b[i] {
      assert LowerChar(a[i]) == Lower(a)[i] == Lower(b)[i] == LowerChar(b[i]);
    }
  }

  /** Two errcodes have the same self href only if they are the same errcode. */
  lemma SelfHrefInjective(a: string, b: string)
    requires CodeChars(a) && CodeChars(b)
    requires SelfHref(a) == SelfHref(b)
    ensures a == b
  {
    assert Lower(a) == SelfHref(a)[|ErrorsPath|..];
    assert Lower(b) == SelfHref(b)[|ErrorsPath|..];
    LowerInjective(a, b);
  }


  /** No status other than `status` has `c` as its errcode constant. */
  ghost predicate OnlyStatusFor(c: string, status: int)
  {
    forall t :: CodeForStatus(t) == Some(c) ==> t == status
  }

  // One lemma per errcode constant keeps each of these literal checks small: the
  // constant is a Matrix errcode, and no other status's constant has the same text.
  lemma CodeBadRequestFacts() ensures ValidCode(CodeBadRequest) && OnlyStatusFor(CodeBadRequest, 400) {}
  lemma CodeUnauthorizedFacts() ensures ValidCode(CodeUnauthorized) && OnlyStatusFor(CodeUnauthorized, 401) {}
  lemma CodePaymentRequiredFacts() ensures ValidCode(CodePaymentRequired) && OnlyStatusFor(CodePaymentRequired, 402) {}
  lemma CodeForbiddenFacts() ensures ValidCode(CodeForbidden) && OnlyStatusFor(CodeForbidden, 403) {}
  lemma CodeNotFoundFacts() ensures ValidCode(CodeNotFound) && OnlyStatusFor(CodeNotFound, 404) {}
  lemma CodeMethodNotAllowedFacts() ensures ValidCode(CodeMethodNotAllowed) && OnlyStatusFor(CodeMethodNotAllowed, 405) {}
  lemma CodeNotAcceptableFacts() ensures ValidCode(CodeNotAcceptable) && OnlyStatusFor(CodeNotAcceptable, 406) {}
  lemma CodeProxyAuthRequiredFacts() ensures ValidCode(CodeProxyAuthRequired) && OnlyStatusFor(CodeProxyAuthRequired, 407) {}
  lemma CodeRequestTimeoutFacts() ensures ValidCode(CodeRequestTimeout) && OnlyStatusFor(CodeRequestTimeout, 408) {}
  lemma CodeConflictFacts() ensures ValidCode(CodeConflict) && OnlyStatusFor(CodeConflict, 409) {}
  lemma CodeGoneFacts() ensures ValidCode(CodeGone) && OnlyStatusFor(CodeGone, 410) {}
  lemma CodeLengthRequiredFacts() ensures ValidCode(CodeLengthRequired) && OnlyStatusFor(CodeLengthRequired, 411) {}
  lemma CodePreconditionFailedFacts() ensures ValidCode(CodePreconditionFailed) && OnlyStatusFor(CodePreconditionFailed, 412) {}
  lemma CodeRequestEntityTooLargeFacts() ensures ValidCode(CodeRequestEntityTooLarge) && OnlyStatusFor(CodeRequestEntityTooLarge, 413) {}
  lemma CodeRequestURITooLongFacts() ensures ValidCode(CodeRequestURITooLong) && OnlyStatusFor(CodeRequestURITooLong, 414) {}
  lemma CodeUnsupportedMediaTypeFacts() ensures ValidCode(CodeUnsupportedMediaType) && OnlyStatusFor(CodeUnsupportedMediaType, 415) {}
  lemma CodeRequestedRangeNotSatisfiableFacts() ensures ValidCode(CodeRequestedRangeNotSatisfiable) && OnlyStatusFor(CodeRequestedRangeNotSatisfiable, 416) {}
  lemma CodeExpectationFailedFacts() ensures ValidCode(CodeExpectationFailed) && OnlyStatusFor(CodeExpectationFailed, 417) {}
  lemma CodeTeapotFacts() ensures ValidCode(CodeTeapot) && OnlyStatusFor(CodeTeapot, 418) {}
  lemma CodeMisdirectedRequestFacts() ensures ValidCode(CodeMisdirectedRequest) && OnlyStatusFor(CodeMisdirectedRequest, 421) {}
  lemma CodeUnprocessableEntityFacts() ensures ValidCode(CodeUnprocessableEntity) && OnlyStatusFor(CodeUnprocessableEntity, 422) {}
  lemma CodeLockedFacts() ensures ValidCode(CodeLocked) && OnlyStatusFor(CodeLocked, 423) {}
  lemma CodeFailedDependencyFacts() ensures ValidCode(CodeFailedDependency) && OnlyStatusFor(CodeFailedDependency, 424) {}
  lemma CodeTooEarlyFacts() ensures ValidCode(CodeTooEarly) && OnlyStatusFor(CodeTooEarly, 425) {}
  lemma CodeUpgradeRequiredFacts() ensures ValidCode(CodeUpgradeRequired) && OnlyStatusFor(CodeUpgradeRequired, 426) {}
  lemma CodePreconditionRequiredFacts() ensures ValidCode(CodePreconditionRequired) && OnlyStatusFor(CodePreconditionRequired, 428) {}
  lemma CodeTooManyRequestsFacts() ensures ValidCode(CodeTooManyRequests) && OnlyStatusFor(CodeTooManyRequests, 429) {}
  lemma CodeRequestHeaderFieldsTooLargeFacts() ensures ValidCode(CodeRequestHeaderFieldsTooLarge) && OnlyStatusFor(CodeRequestHeaderFieldsTooLarge, 431) {}
  lemma CodeUnavailableForLegalReasonsFacts() ensures ValidCode(CodeUnavailableForLegalReasons) && OnlyStatusFor(CodeUnavailableForLegalReasons, 451) {}
  lemma CodeInternalServerErrorFacts() ensures ValidCode(CodeInternalServerError) && OnlyStatusFor(CodeInternalServerError, 500) {}
  lemma CodeNotImplementedFacts() ensures ValidCode(CodeNotImplemented) && OnlyStatusFor(CodeNotImplemented, 501) {}
  lemma CodeBadGatewayFacts() ensures ValidCode(CodeBadGateway) && OnlyStatusFor(CodeBadGateway, 502) {}
  lemma CodeServiceUnavailableFacts() ensures ValidCode(CodeServiceUnavailable) && OnlyStatusFor(CodeServiceUnavailable, 503) {}
  lemma CodeGatewayTimeoutFacts() ensures ValidCode(CodeGatewayTimeout) && OnlyStatusFor(CodeGatewayTimeout, 504) {}
  lemma CodeHTTPVersionNotSupportedFacts() ensures ValidCode(CodeHTTPVersionNotSupported) && OnlyStatusFor(CodeHTTPVersionNotSupported, 505) {}
  lemma CodeVariantAlsoNegotiatesFacts() ensures ValidCode(CodeVariantAlsoNegotiates) && OnlyStatusFor(CodeVariantAlsoNegotiates, 506) {}
  lemma CodeInsufficientStorageFacts() ensures ValidCode(CodeInsufficientStorage) && OnlyStatusFor(CodeInsufficientStorage, 507) {}
  lemma CodeLoopDetectedFacts() ensures ValidCode(CodeLoopDetected) && OnlyStatusFor(CodeLoopDetected, 508) {}
  lemma CodeNotExtendedFacts() ensures ValidCode(CodeNotExtended) && OnlyStatusFor(CodeNotExtended, 510) {}
  lemma CodeNetworkAuthenticationRequiredFacts() ensures ValidCode(CodeNetworkAuthenticationRequired) && OnlyStatusFor(CodeNetworkAuthenticationRequired, 511) {}

  /** The forty errcode constants are pairwise distinct: no two statuses' comments name the same text. */
  lemma CodesDistinct()
    ensures forall a, b :: CodeForStatus(a).Some? && CodeForStatus(a) == CodeForStatus(b) ==> a == b
  {
    CodeBadRequestFacts();
    CodeUnauthorizedFacts();
    CodePaymentRequiredFacts();
    CodeForbiddenFacts();
    CodeNotFoundFacts();
    CodeMethodNotAllowedFacts();
    CodeNotAcceptableFacts();
    CodeProxyAuthRequiredFacts();
    CodeRequestTimeoutFacts();
    CodeConflictFacts();
    CodeGoneFacts();
    CodeLengthRequiredFacts();
    CodePreconditionFailedFacts();
    CodeRequestEntityTooLargeFacts();
    CodeRequestURITooLongFacts();
    CodeUnsupportedMediaTypeFacts();
    CodeRequestedRangeNotSatisfiableFacts();
    CodeExpectationFailedFacts();
    CodeTeapotFacts();
    CodeMisdirectedRequestFacts();
    CodeUnprocessableEntityFacts();
    CodeLockedFacts();
    CodeFailedDependencyFacts();
    CodeTooEarlyFacts();
    CodeUpgradeRequiredFacts();
    CodePreconditionRequiredFacts();
    CodeTooManyRequestsFacts();
    CodeRequestHeaderFieldsTooLargeFacts();
    CodeUnavailableForLegalReasonsFacts();
    CodeInternalServerErrorFacts();
    CodeNotImplementedFacts();
    CodeBadGatewayFacts();
    CodeServiceUnavailableFacts();
    CodeGatewayTimeoutFacts();
    CodeHTTPVersionNotSupportedFacts();
    CodeVariantAlsoNegotiatesFacts();
    CodeInsufficientStorageFacts();
    CodeLoopDetectedFacts();
    CodeNotExtendedFacts();
    CodeNetworkAuthenticationRequiredFacts();
  }

  /**
   * Every errcode constant, reached through the status its comment names,
   * starts with `M_` and is made of upper case letters and underscores.
   */
  lemma CodeForStatusValid()
    ensures forall s :: CodeForStatus(s).Some? ==> ValidCode(CodeForStatus(s).value)
  {
    CodeBadRequestFacts();
    CodeUnauthorizedFacts();
    CodePaymentRequiredFacts();
    CodeForbiddenFacts();
    CodeNotFoundFacts();
    CodeMethodNotAllowedFacts();
    CodeNotAcceptableFacts();
    CodeProxyAuthRequiredFacts();
    CodeRequestTimeoutFacts();
    CodeConflictFacts();
    CodeGoneFacts();
    CodeLengthRequiredFacts();
    CodePreconditionFailedFacts();
    CodeRequestEntityTooLargeFacts();
    CodeRequestURITooLongFacts();
    CodeUnsupportedMediaTypeFacts();
    CodeRequestedRangeNotSatisfiableFacts();
    CodeExpectationFailedFacts();
    CodeTeapotFacts();
    CodeMisdirectedRequestFacts();
    CodeUnprocessableEntityFacts();
    CodeLockedFacts();
    CodeFailedDependencyFacts();
    CodeTooEarlyFacts();
    CodeUpgradeRequiredFacts();
    CodePreconditionRequiredFacts();
    CodeTooManyRequestsFacts();
    CodeRequestHeaderFieldsTooLargeFacts();
    CodeUnavailableForLegalReasonsFacts();
    CodeInternalServerErrorFacts();
    CodeNotImplementedFacts();
    CodeBadGatewayFacts();
    CodeServiceUnavailableFacts();
    CodeGatewayTimeoutFacts();
    CodeHTTPVersionNotSupportedFacts();
    CodeVariantAlsoNegotiatesFacts();
    CodeInsufficientStorageFacts();
    CodeLoopDetectedFacts();
    CodeNotExtendedFacts();
    CodeNetworkAuthenticationRequiredFacts();
  }

  /** Every entry of the literal is the descriptor of the errcode constant whose comment names its key. */
  lemma ErrorsEntryMatchesStatus()
    ensures forall s :: ErrorsEntry(s).Some? ==> CodeForStatus(s) == Some(ErrorsEntry(s).value.code)
  {
  }

  /**
   * The keys of Errors are exactly the statuses named by errcode comments,
   * except 426, 428 and 429, whose descriptors exist but are not in the table.
   */
  lemma ErrorsKeys()
    ensures forall s :: s in Errors <==> CodeForStatus(s).Some? && s != 426 && s != 428 && s != 429
  {
  }

  /**
   * Every document of the table is an error document: it reads back as the
   * flat error of its descriptor, and its errcode is the Matrix errcode the
   * comments assign to the status it is keyed under.
   */
  lemma ErrorsAreErrorDocuments()
    ensures forall s :: s in Errors ==>
      Decode(Errors[s]) == Some(Error(None, ErrorsEntry(s).value.code, ErrorsEntry(s).value.message))
      && Errcode(Errors[s]) == CodeForStatus(s)
      && ValidCode(Errcode(Errors[s]).value)
      && SelfLink(Errors[s]) == Some(HALLink(SelfHref(Errcode(Errors[s]).value), Errcode(Errors[s]).value))
  {
    ErrorsEntryMatchesStatus();
    CodeForStatusValid();
    forall s | s in Errors
      ensures Decode(Errors[s]) == Some(Error(None, ErrorsEntry(s).value.code, ErrorsEntry(s).value.message))
      ensures SelfLink(Errors[s]) == Some(HALLink(SelfHref(ErrorsEntry(s).value.code), ErrorsEntry(s).value.code))
    {
      DecodeNewHALError(ErrorsEntry(s).value.message, ErrorsEntry(s).value.code);
    }
  }

  /** No two statuses of the table are answered with the same errcode. */
  lemma ErrcodesUnique()
    ensures forall a, b :: a in Errors && b in Errors && a != b ==> Errcode(Errors[a]) != Errcode(Errors[b])
  {
    ErrorsAreErrorDocuments();
    CodesDistinct();
  }

  /** Equivalently, distinct entries of the table link to distinct error pages. */
  lemma HrefsUnique()
    ensures forall a, b :: a in Errors && b in Errors && a != b ==>
      SelfLink(Errors[a]).Some? && SelfLink(Errors[b]).Some?
      && SelfLink(Errors[a]).value.href != SelfLink(Errors[b]).value.href
  {
    ErrorsAreErrorDocuments();
    ErrcodesUnique();
    forall a, b | a in Errors && b in Errors && a != b
      ensures SelfLink(Errors[a]).value.href != SelfLink(Errors[b]).value.href
    {
      var ca, cb := Errcode(Errors[a]).value, Errcode(Errors[b]).value;
      if SelfHref(ca) == SelfHref(cb) {
        SelfHrefInjective(ca, cb);
      }
    }
  }

  /** The 404 entry, as a client sees it. */
  lemma NotFoundEntry()
    ensures 404 in Errors
    ensures Errcode(Errors[404]) == Some("M_NOT_FOUND")
    ensures Errors[404].properties["error"] == "Not Found"
    ensures SelfLink(Errors[404]) == Some(HALLink("/_matrix/errors/m_not_found", "M_NOT_FOUND"))
  {
    assert Lower("M_NOT_FOUND") == "m_not_found";
    assert ErrorsPath + "m_not_found" == "/_matrix/errors/m_not_found";
  }

  /** The 500 entry carries the internal-server-error errcode; 418 carries M_TEAPOT. */
  lemma InternalServerErrorEntry()
    ensures 500 in Errors && Errors[500] == NewHALError("Internal Server Error", "M_INTERNAL_SERVER_ERROR")
    ensures 418 in Errors && Errcode(Errors[418]) == Some("M_TEAPOT")
  {
  }

  /** 426, 428 and 429 have errcode constants and descriptors, but they are not keys of the table. */
  lemma UnmappedStatuses()
    ensures 426 !in Errors && 428 !in Errors && 429 !in Errors
    ensures CodeForStatus(426) == Some(ErrorUpgradeRequired.code)
    ensures CodeForStatus(428) == Some(ErrorPreconditionRequired.code)
    ensures CodeForStatus(429) == Some(ErrorTooManyRequests.code)
  {
  }

  /**
   * A descriptor whose errcode belongs to a status outside the table renders
   * to a document that no key of the table maps to.
   */
  lemma NotInTable(d: Descriptor, status: int)
    requires CodeForStatus(status) == Some(d.code) && status !in Errors
    ensures forall s :: s in Errors ==> Errors[s] != Render(d)
  {
    ErrorsEntryMatchesStatus();
    CodesDistinct();
    forall s | s in Errors ensures Errors[s] != Render(d) {
      assert CodeForStatus(s) != Some(d.code);
      assert Errors[s].properties["errcode"] == ErrorsEntry(s).value.code != d.code;
    }
  }

  /** So the documents of ErrorUpgradeRequired, ErrorPreconditionRequired and ErrorTooManyRequests are never served. */
  lemma UnmappedDocuments()
    ensures forall s :: s in Errors ==>
      Errors[s] != Render(ErrorUpgradeRequired) && Errors[s] != Render(ErrorPreconditionRequired)
      && Errors[s] != Render(ErrorTooManyRequests)
  {
    UnmappedStatuses();
    NotInTable(ErrorUpgradeRequired, 426);
    NotInTable(ErrorPreconditionRequired, 428);
    NotInTable(ErrorTooManyRequests, 429);
  }

}
