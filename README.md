# serv: the Matrix error catalogue and the error handler, modelled in Dafny

This project models the part of the `serv` web server package with behaviour worth stating:

- The Matrix-style error catalogue of `pkg/server/errors.go`:
  - the forty `M_` errcode constants;
  - the HAL error constructor `NewHALError`;
  - the forty `Error*` error documents;
  - the `Errors` table, which keys 37 of those documents by HTTP status.
- From `pkg/server/server.go`:
  - the rule the installed HTTP error handler uses to pick a status and a body;
  - the configuration that `New` copies into the echo engine;
  - `Load`, which appends a module to the server.

Files:

- `wrappers.dfy`: `Option`. A Go map index that misses, giving a nil pointer, is `None`.
- `representor.dfy`: the HAL document types `HALLink` and `HALBody`, restated from the representor package. That package is not part of this model.
- `errors.dfy` (module `ErrorCatalogue`): the catalogue and its properties.
  - `NewHALError` builds the document. Its partner `Decode` reads a document back as the flat Matrix `Error`. The two are proved inverse on error documents, in both directions.
  - The self href is the errors path followed by the ASCII lower-casing of the errcode. Lower-casing is proved injective on errcode characters, so distinct errcodes get distinct hrefs.
  - Each `Error*` value is the `Descriptor` (message, errcode) that its `NewHALError` call receives. `Render` turns a descriptor into the document.
  - The `Errors` literal is the function `ErrorsEntry`, one case per entry. `Errors` itself is the map built from it.
  - `CodeForStatus` records which status the comment beside each errcode constant names.
  - Properties proved about the table:
    - its keys are exactly the commented statuses except 426, 428 and 429;
    - every entry carries the errcode of its status;
    - distinct entries have distinct errcodes and distinct hrefs;
    - no key maps to the 426, 428 and 429 documents, so the handler never serves them.
- `server.dfy` (module `Server`):
  - `Handle` models the error handler as a function from the failure to the response. The failure is either an echo `HTTPError` or any other error.
  - `Engine` holds the three engine settings that `New` writes.
  - `Server` holds the engine and the appended list of modules.

The handler indexes the table with the derived status and nothing else. The model follows that code:

- A status the table lacks is answered with that status and a `null` body. Examples are 499, and 426, 428 and 429, whose documents exist.
- The body does not fall back to the 500 document.

## Model

| member | source | states |
|---|---|---|
| ErrorCatalogue.DecodeNewHALError | pkg/server/errors.go:68-88 | the document has exactly the link relation `self`; its one self link points at `/_matrix/errors/` plus the lower-cased errcode and is titled with the errcode; nothing is embedded; its errcode property is `c`; it reads back as the error (no extra, `c`, `m`) |
| ErrorCatalogue.DecodeExact | pkg/server/errors.go:68-88 | conversely, any document that reads back as an error has no extra and is exactly `NewHALError(message, errcode)`: one self link, just the errcode and error properties, nothing embedded |
| ErrorCatalogue.SelfHrefShape | pkg/server/errors.go:74 | for a Matrix errcode the href is the errors path followed by a segment as long as the errcode, starting with `m_`, and made only of `a`-`z` and `_` |
| ErrorCatalogue.LowerInjective | pkg/server/errors.go:74 | lower-casing two strings of upper case letters and underscores gives equal results only when the strings are equal |
| ErrorCatalogue.SelfHrefInjective | pkg/server/errors.go:74 | two errcodes have the same self href only if they are the same errcode |
| ErrorCatalogue.CodeBadRequestFacts | pkg/server/errors.go:13 | `M_BAD_REQUEST` is a Matrix errcode (`M_` then upper case letters and underscores) and is the constant of status 400 only |
| ErrorCatalogue.CodeUnauthorizedFacts | pkg/server/errors.go:14 | `M_UNAUTHORIZED` is a Matrix errcode (`M_` then upper case letters and underscores) and is the constant of status 401 only |
| ErrorCatalogue.CodePaymentRequiredFacts | pkg/server/errors.go:15 | `M_PAYMENT_REQUIRED` is a Matrix errcode (`M_` then upper case letters and underscores) and is the constant of status 402 only |
| ErrorCatalogue.CodeForbiddenFacts | pkg/server/errors.go:16 | `M_FORBIDDEN` is a Matrix errcode (`M_` then upper case letters and underscores) and is the constant of status 403 only |
| ErrorCatalogue.CodeNotFoundFacts | pkg/server/errors.go:17 | `M_NOT_FOUND` is a Matrix errcode (`M_` then upper case letters and underscores) and is the constant of status 404 only |
| ErrorCatalogue.CodeMethodNotAllowedFacts | pkg/server/errors.go:18 | `M_METHOD_NOT_ALLOWED` is a Matrix errcode (`M_` then upper case letters and underscores) and is the constant of status 405 only |
| ErrorCatalogue.CodeNotAcceptableFacts | pkg/server/errors.go:19 | `M_NOT_ACCEPTABLE` is a Matrix errcode (`M_` then upper case letters and underscores) and is the constant of status 406 only |
| ErrorCatalogue.CodeProxyAuthRequiredFacts | pkg/server/errors.go:20 | `M_PROXY_AUTH_REQUIRED` is a Matrix errcode (`M_` then upper case letters and underscores) and is the constant of status 407 only |
| ErrorCatalogue.CodeRequestTimeoutFacts | pkg/server/errors.go:21 | `M_REQUEST_TIMEOUT` is a Matrix errcode (`M_` then upper case letters and underscores) and is the constant of status 408 only |
| ErrorCatalogue.CodeConflictFacts | pkg/server/errors.go:22 | `M_CONFLICT` is a Matrix errcode (`M_` then upper case letters and underscores) and is the constant of status 409 only |
| ErrorCatalogue.CodeGoneFacts | pkg/server/errors.go:23 | `M_GONE` is a Matrix errcode (`M_` then upper case letters and underscores) and is the constant of status 410 only |
| ErrorCatalogue.CodeLengthRequiredFacts | pkg/server/errors.go:24 | `M_LENGTH_REQUIRED` is a Matrix errcode (`M_` then upper case letters and underscores) and is the constant of status 411 only |
| ErrorCatalogue.CodePreconditionFailedFacts | pkg/server/errors.go:25 | `M_PRECONDITION_FAILED` is a Matrix errcode (`M_` then upper case letters and underscores) and is the constant of status 412 only |
| ErrorCatalogue.CodeRequestEntityTooLargeFacts | pkg/server/errors.go:26 | `M_REQUEST_ENTITY_TOO_LARGE` is a Matrix errcode (`M_` then upper case letters and underscores) and is the constant of status 413 only |
| ErrorCatalogue.CodeRequestURITooLongFacts | pkg/server/errors.go:27 | `M_REQUEST_URI_TOO_LONG` is a Matrix errcode (`M_` then upper case letters and underscores) and is the constant of status 414 only |
| ErrorCatalogue.CodeUnsupportedMediaTypeFacts | pkg/server/errors.go:28 | `M_UNSUPPORTED_MEDIA_TYPE` is a Matrix errcode (`M_` then upper case letters and underscores) and is the constant of status 415 only |
| ErrorCatalogue.CodeRequestedRangeNotSatisfiableFacts | pkg/server/errors.go:29 | `M_REQUESTED_RANGE_NOT_SATISFIABLE` is a Matrix errcode (`M_` then upper case letters and underscores) and is the constant of status 416 only |
| ErrorCatalogue.CodeExpectationFailedFacts | pkg/server/errors.go:30 | `M_EXPECTATION_FAILED` is a Matrix errcode (`M_` then upper case letters and underscores) and is the constant of status 417 only |
| ErrorCatalogue.CodeTeapotFacts | pkg/server/errors.go:31 | `M_TEAPOT` is a Matrix errcode (`M_` then upper case letters and underscores) and is the constant of status 418 only |
| ErrorCatalogue.CodeMisdirectedRequestFacts | pkg/server/errors.go:32 | `M_MISDIRECTED_REQUEST` is a Matrix errcode (`M_` then upper case letters and underscores) and is the constant of status 421 only |
| ErrorCatalogue.CodeUnprocessableEntityFacts | pkg/server/errors.go:33 | `M_UNPROCESSABLE_ENTITY` is a Matrix errcode (`M_` then upper case letters and underscores) and is the constant of status 422 only |
| ErrorCatalogue.CodeLockedFacts | pkg/server/errors.go:34 | `M_LOCKED` is a Matrix errcode (`M_` then upper case letters and underscores) and is the constant of status 423 only |
| ErrorCatalogue.CodeFailedDependencyFacts | pkg/server/errors.go:35 | `M_FAILED_DEPENDENCY` is a Matrix errcode (`M_` then upper case letters and underscores) and is the constant of status 424 only |
| ErrorCatalogue.CodeTooEarlyFacts | pkg/server/errors.go:36 | `M_TOO_EARLY` is a Matrix errcode (`M_` then upper case letters and underscores) and is the constant of status 425 only |
| ErrorCatalogue.CodeUpgradeRequiredFacts | pkg/server/errors.go:37 | `M_UPGRADE_REQUIRED` is a Matrix errcode (`M_` then upper case letters and underscores) and is the constant of status 426 only |
| ErrorCatalogue.CodePreconditionRequiredFacts | pkg/server/errors.go:38 | `M_PRECONDITION_REQUIRED` is a Matrix errcode (`M_` then upper case letters and underscores) and is the constant of status 428 only |
| ErrorCatalogue.CodeTooManyRequestsFacts | pkg/server/errors.go:39 | `M_TOO_MANY_REQUESTS` is a Matrix errcode (`M_` then upper case letters and underscores) and is the constant of status 429 only |
| ErrorCatalogue.CodeRequestHeaderFieldsTooLargeFacts | pkg/server/errors.go:40 | `M_REQUEST_HEADER_FIELDS_TOO_LARGE` is a Matrix errcode (`M_` then upper case letters and underscores) and is the constant of status 431 only |
| ErrorCatalogue.CodeUnavailableForLegalReasonsFacts | pkg/server/errors.go:41 | `M_UNAVAILABLE_FOR_LEGAL_REASONS` is a Matrix errcode (`M_` then upper case letters and underscores) and is the constant of status 451 only |
| ErrorCatalogue.CodeInternalServerErrorFacts | pkg/server/errors.go:43 | `M_INTERNAL_SERVER_ERROR` is a Matrix errcode (`M_` then upper case letters and underscores) and is the constant of status 500 only |
| ErrorCatalogue.CodeNotImplementedFacts | pkg/server/errors.go:44 | `M_NOT_IMPLEMENTED` is a Matrix errcode (`M_` then upper case letters and underscores) and is the constant of status 501 only |
| ErrorCatalogue.CodeBadGatewayFacts | pkg/server/errors.go:45 | `M_BAD_GATEWAY` is a Matrix errcode (`M_` then upper case letters and underscores) and is the constant of status 502 only |
| ErrorCatalogue.CodeServiceUnavailableFacts | pkg/server/errors.go:46 | `M_SERVICE_UNAVAILABLE` is a Matrix errcode (`M_` then upper case letters and underscores) and is the constant of status 503 only |
| ErrorCatalogue.CodeGatewayTimeoutFacts | pkg/server/errors.go:47 | `M_GATEWAY_TIMEOUT` is a Matrix errcode (`M_` then upper case letters and underscores) and is the constant of status 504 only |
| ErrorCatalogue.CodeHTTPVersionNotSupportedFacts | pkg/server/errors.go:48 | `M_HTTP_VERSION_NOT_SUPPORTED` is a Matrix errcode (`M_` then upper case letters and underscores) and is the constant of status 505 only |
| ErrorCatalogue.CodeVariantAlsoNegotiatesFacts | pkg/server/errors.go:49 | `M_VARIANT_ALSO_NEGOTIATES` is a Matrix errcode (`M_` then upper case letters and underscores) and is the constant of status 506 only |
| ErrorCatalogue.CodeInsufficientStorageFacts | pkg/server/errors.go:50 | `M_INSUFFICIENT_STORAGE` is a Matrix errcode (`M_` then upper case letters and underscores) and is the constant of status 507 only |
| ErrorCatalogue.CodeLoopDetectedFacts | pkg/server/errors.go:51 | `M_LOOP_DETECTED` is a Matrix errcode (`M_` then upper case letters and underscores) and is the constant of status 508 only |
| ErrorCatalogue.CodeNotExtendedFacts | pkg/server/errors.go:52 | `M_NOT_EXTENDED` is a Matrix errcode (`M_` then upper case letters and underscores) and is the constant of status 510 only |
| ErrorCatalogue.CodeNetworkAuthenticationRequiredFacts | pkg/server/errors.go:53 | `M_NETWORK_AUTHENTICATION_REQUIRED` is a Matrix errcode (`M_` then upper case letters and underscores) and is the constant of status 511 only |
| ErrorCatalogue.CodesDistinct | pkg/server/errors.go:13-53 | no two statuses named in the constants' comments share an errcode text |
| ErrorCatalogue.CodeForStatusValid | pkg/server/errors.go:13-53 | every one of the forty errcode constants (the errcode of every commented status) starts with `M_` and is made of upper case letters and underscores |
| ErrorCatalogue.ErrorsEntryMatchesStatus | pkg/server/errors.go:92-132 | every entry of the `Errors` literal is the descriptor of the errcode constant whose comment names its key |
| ErrorCatalogue.ErrorsKeys | pkg/server/errors.go:92-132 | a status is a key of `Errors` exactly when an errcode constant's comment names it and it is not 426, 428 or 429 |
| ErrorCatalogue.ErrorsAreErrorDocuments | pkg/server/errors.go:92-132 | every document of the table reads back as its descriptor's error; its errcode is the one commented for the status it is keyed under and is a Matrix errcode; its self link is the href and title derived from that errcode |
| ErrorCatalogue.ErrcodesUnique | pkg/server/errors.go:93-131 | two different keys of the table map to documents with different errcodes |
| ErrorCatalogue.HrefsUnique | pkg/server/errors.go:93-131 | two different keys of the table map to documents whose self links have different hrefs |
| ErrorCatalogue.NotFoundEntry | pkg/server/errors.go:97 | 404 is a key; its document has errcode `M_NOT_FOUND`, error `Not Found`, and a self link to `/_matrix/errors/m_not_found` titled `M_NOT_FOUND` (the descriptor at errors.go line 140) |
| ErrorCatalogue.InternalServerErrorEntry | pkg/server/errors.go:111-121 | 500 maps to the document of `Internal Server Error` with errcode `M_INTERNAL_SERVER_ERROR`; 418 maps to a document with errcode `M_TEAPOT` |
| ErrorCatalogue.UnmappedStatuses | pkg/server/errors.go:37-39 | 426, 428 and 429 have errcode constants and descriptors but are not keys of `Errors` |
| ErrorCatalogue.NotInTable | pkg/server/errors.go:92-132 | a descriptor whose errcode belongs to a status outside the table renders to a document that no key maps to |
| ErrorCatalogue.UnmappedDocuments | pkg/server/errors.go:160-162 | the documents of `ErrorUpgradeRequired`, `ErrorPreconditionRequired` and `ErrorTooManyRequests` are the value of no key |
| Server.DeriveStatus | pkg/server/server.go:76-79 | a failure that is not an HTTP error gets 500; an HTTP error gets its own code, whether or not the table knows it |
| Server.Lookup | pkg/server/server.go:81 | the lookup finds a document exactly for the commented statuses other than 426, 428 and 429; what it finds is the table's document, whose errcode is the status's errcode; a miss is None, never another document |
| Server.Handle | pkg/server/server.go:75-86 | the response status is the derived status; the body is present exactly when that status is a key and is then the table's document for it, carrying that status's errcode; any other failure is answered with the `M_INTERNAL_SERVER_ERROR` document |
| Server.NoFallback | pkg/server/server.go:81 | an HTTP error with a code outside the table is answered with that code and a null body, which differs from the body of the 500 answer |
| Server.UnmappedCodesAnswerNull | pkg/server/server.go:81 | the HTTP errors 499, 426, 428 and 429 are each answered with their own status and a null body |
| Server.UnmappedNeverServed | pkg/server/server.go:81 | whatever the failure, the handler's body is never the document of `ErrorUpgradeRequired`, `ErrorPreconditionRequired` or `ErrorTooManyRequests` |
| Server.MappedCodeKeepsItsDocument | pkg/server/server.go:81 | an HTTP error whose code is a key other than 500 gets a body, and not the body that the 500 answer carries |
| Server.LevelFor | pkg/server/server.go:66-70 | the logger level is DEBUG exactly when the configuration asks for debugging, and INFO exactly when it does not |
| Server.Engine.SetLevel | pkg/server/server.go:67-69 | setting the level changes the level to the one given and leaves the banner and port flags alone |
| Server.Engine.constructor | pkg/server/server.go:64 | a fresh engine shows both the banner and the port (both hide flags false) |
| Server.Server.New | pkg/server/server.go:63-91 | a new server owns a fresh engine whose level is `LevelFor(c)`, whose hide-banner and hide-port flags are copied from the configuration, and has no modules |
| Server.Server.Load | pkg/server/server.go:38-40 | the module list grows by exactly one entry, the new module is last, and all earlier entries are unchanged |

## Left out

- The echo engine as a running server is not modelled: `Use`, `Logger`, `Start` (pkg/server/server.go:32-52) and the internals of `echo.New`. These are network I/O and delegation into a library that is not part of this model.
- The JSON serialisation of the chosen body by `c.JSON`, the error it may return, and the two `Logger().Error` calls (pkg/server/server.go:81-85) are output and logging. The model states only which status and which body are chosen.
- The installed handler is a closure in the engine's `HTTPErrorHandler` field. Here it is the module-level function `Server.Handle`, and the engine has no field for it.
- The `omitempty` treatment of `Error.Extra` by the JSON encoder (pkg/server/errors.go:58-62) is library behaviour and is not modelled. `Extra` is kept as optional text.
- HAL properties are `interface{}` values in the source; here they are strings. Every property the catalogue writes is a string.
- `NewModule` (pkg/server/modules.go:18-31) hands each route to echo's `Group.Add` and logs it. That is delegation into echo with nothing observable to state. `Module` is therefore an opaque value (prefix and route metadata).
- The `Router` interface and the `Route` handler type (pkg/server/router.go) carry no behaviour. `RouteMeta` is kept as an opaque value, and its `Method` field is named `verb` here because `method` is a Dafny keyword.
- `strings.ToLower` and `fmt.Sprintf` are reduced to ASCII lower-casing and sequence concatenation. Every errcode is ASCII upper case and underscores.
- Go's package initialisation order is not modelled: the `Errors` literal uses `Error*` variables declared after it. The table is taken as built.
- Pointers and aliasing are not modelled:
  - the table's values and the `Error*` variables are shared `*HALError` pointers;
  - `Modules` is a slice of `*Module`.
  The model treats all of them as values, so changes made through a shared pointer are not captured.
- The `Context` wrapper type (pkg/server/server.go:21-23) carries no behaviour.
- Server.Engine.constructor: the starting log level of a fresh echo logger is not visible in the source. The constructor uses ERROR. `New` overwrites it on both branches, so no stated property depends on it.
- ErrorCatalogue.ErrorsKeys: the key set is characterised through `CodeForStatus` (40 commented statuses minus three) rather than by the count 37.
