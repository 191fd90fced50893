/**
 * The server of pkg/server/server.go: the configuration that `New` reads,
 * the rule by which the installed error handler picks a status and a body,
 * and the list of modules that `Load` appends to.
 *
 * The echo engine is reduced to the three settings `New` writes (log level,
 * banner and port flags); the error handler is the pure function `Handle`.
 */
module Server {
  import opened Wrappers
  import opened Representor
  import opened ErrorCatalogue

  /** The adjustable configuration. */
  datatype Config = Config(hideBanner: bool, hidePort: bool, debug: bool)

  /** The log levels of the logger the engine carries. */
  datatype Level = DEBUG | INFO | WARN | ERROR | OFF

  /**
   * What the handler is given: either an HTTP error carrying its own status
   * code, or any other error value.
   */
  datatype Failure = HTTPError(code: int) | Other

  /** What the handler writes: a status and a JSON body, None being `null`. */
  datatype Response = Response(status: int, body: Option<HALBody>)

  /** Route metadata, kept as an opaque value. */
  datatype RouteMeta = RouteMeta(verb: string, path: string, name: string)

  /** A module: a route group under a path prefix, kept as an opaque value. */
  datatype Module = Module(prefix: string, routes: seq<RouteMeta>)

  /**
   * The status the handler answers with: 500 unless the failure is an HTTP
   * error, whose own code is used whether or not the table knows it.
   */
  function DeriveStatus(f: Failure): (code: int)
    ensures f.Other? ==> code == 500
    ensures f.HTTPError? ==> code == f.code
  {
    match f
    case HTTPError(c) => c
    case Other => 500
  }

  /**
   * Indexing the error table: a miss yields None (a nil body in the source),
   * never a substitute document.
   */
  function Lookup(code: int): (r: Option<HALBody>)
    ensures r.Some? <==> CodeForStatus(code).Some? && code != 426 && code != 428 && code != 429
    ensures r.Some? ==> code in Errors && r.value == Errors[code]
    ensures r.Some? ==> Errcode(r.value) == CodeForStatus(code) && ValidCode(Errcode(r.value).value)
  {
    ErrorsKeys();
    ErrorsAreErrorDocuments();
    if code in Errors then Some(Errors[code]) else None
  }

  /**
   * The installed error handler: the status is the derived one, and the body
   * is the table document for that status, carrying that status's errcode,
   * or null when the table has no entry.
   */
  function Handle(f: Failure): (r: Response)
    ensures r.status == DeriveStatus(f)
    ensures r.body.Some? <==> r.status in Errors
    ensures r.body.Some? ==> r.body.value == Errors[r.status]
    ensures r.body.Some? ==> Errcode(r.body.value) == CodeForStatus(r.status)
    ensures f.Other? ==> r.body.Some? && Errcode(r.body.value) == Some(CodeInternalServerError)
  {
    InternalServerErrorEntry();
    var code := DeriveStatus(f);
    Response(code, Lookup(code))
  }

  /**
   * There is no fallback: an HTTP error whose code is not in the table is
   * answered with its own status and a null body, not with the 500 document;
   * 426, 428 and 429 are such codes although their descriptors exist, and so
   * is 499.
   */
  lemma NoFallback(code: int)
    requires code !in Errors
    ensures Handle(HTTPError(code)) == Response(code, None)
    ensures Handle(HTTPError(code)).body != Handle(Other).body
  {
  }

  /** The unmapped codes that are worth naming. */
  lemma UnmappedCodesAnswerNull()
    ensures Handle(HTTPError(499)) == Response(499, None)
    ensures Handle(HTTPError(426)) == Response(426, None)
    ensures Handle(HTTPError(429)) == Response(429, None)
    ensures Handle(HTTPError(428)) == Response(428, None)
  {
  }

  /** The documents of the three unmapped descriptors reach no client. */
  lemma UnmappedNeverServed(f: Failure)
    ensures Handle(f).body != Some(Render(ErrorUpgradeRequired))
    ensures Handle(f).body != Some(Render(ErrorPreconditionRequired))
    ensures Handle(f).body != Some(Render(ErrorTooManyRequests))
  {
    UnmappedDocuments();
  }

  /** A mapped HTTP error is answered with its own document, not the 500 one. */
  lemma MappedCodeKeepsItsDocument(code: int)
    requires code in Errors && code != 500
    ensures Handle(HTTPError(code)).body.Some?
    ensures Handle(HTTPError(code)).body != Handle(Other).body
  {
  }

  /** The level `New` gives the logger: DEBUG when debugging, INFO otherwise. */
  function LevelFor(c: Config): (l: Level)
    ensures l == DEBUG <==> c.debug
    ensures l == INFO <==> !c.debug
  {
    if c.debug then DEBUG else INFO
  }

  /** The part of the echo engine that `New` configures. */
  class Engine {
    var level: Level
    var hideBanner: bool
    var hidePort: bool

    /** A fresh engine: both flags false; the starting level is always overwritten by `New`. */
    constructor ()
      ensures level == ERROR && !hideBanner && !hidePort
    {
      level := ERROR;
      hideBanner := false;
      hidePort := false;
    }

    /** Sets the logger level and nothing else. */
    method SetLevel(l: Level)
      modifies this
      ensures level == l
      ensures hideBanner == old(hideBanner) && hidePort == old(hidePort)
    {
      level := l;
    }
  }

  /** The core process: an engine and the modules loaded into it. */
  class Server {
    const engine: Engine
    var modules: seq<Module>

    /**
     * A server for a configuration: a fresh engine whose level follows the
     * debug flag and whose banner and port flags are copied, and no modules.
     */
    constructor New(c: Config)
      ensures fresh(engine)
      ensures engine.level == LevelFor(c)
      ensures engine.hideBanner == c.hideBanner && engine.hidePort == c.hidePort
      ensures modules == []
    {
      var e := new Engine();
      if c.debug {
        e.SetLevel(DEBUG);
      } else {
        e.SetLevel(INFO);
      }
      e.hideBanner := c.hideBanner;
      e.hidePort := c.hidePort;
      engine := e;
      modules := [];
    }

    /** Appends a module: one more entry, the new one last, the others untouched. */
    method Load(m: Module)
      modifies this
      ensures modules == old(modules) + [m]
      ensures |modules| == |old(modules)| + 1 && modules[|modules| - 1] == m
      ensures forall i :: 0 <= i < |old(modules)| ==> modules[i] == old(modules)[i]
    {
      modules := modules + [m];
    }
  }
}
