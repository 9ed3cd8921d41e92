/** The HTTP entry point (index.js `handler`): CORS headers on every response, the
    preflight short-circuit, the fixed routes, the two proxied operations and the
    error mapping. The pathname is taken as already parsed from the request URL, and
    the timestamp written into the info and health bodies is an opaque input. */
module Handler {
  import opened Wrappers
  import opened JsonValues
  import Strings
  import Pdpj

  const ProcessPrefix := "/api/processo/"
  const DocumentsPrefix := "/api/documentos/"

  /** The three headers set before anything else. */
  const CorsHeaders: seq<(string, string)> := [
    ("Access-Control-Allow-Origin", "*"),
    ("Access-Control-Allow-Methods", "GET, POST, OPTIONS"),
    ("Access-Control-Allow-Headers", "Content-Type")
  ]

  /** `res.end()` sends no body; `res.json(v)` sends `v`. */
  datatype Body = NoBody | JsonBody(value: Value)

  datatype Response = Response(status: nat, headers: seq<(string, string)>, body: Body)

  /** The two proxied operations. */
  datatype Operation = ConsultProcess | ListDocuments

  /** What the handler does before any operation runs: answer at once, or run an
      operation on an extracted process number. */
  datatype Decision = Answer(response: Response) | Invoke(op: Operation, numero: string)

  function SendJson(status: nat, body: Json): Response {
    Response(status, CorsHeaders, JsonBody(Defined(body)))
  }

  function ErrorBody(message: string): Json {
    JObject(map["error" := JString(message)])
  }

  function InfoBody(stamp: string): Json {
    JObject(map[
      "message" := JString("MCP-PDPJ API"),
      "description" := JString("API para consulta de processos no PDPJ"),
      "endpoints" := JObject(map[
        "/api/processo/:numero" := JString("Consultar processo específico"),
        "/api/documentos/:numero" := JString("Listar documentos de um processo")
      ]),
      "version" := JString("1.0.0"),
      "timestamp" := JString(stamp)
    ])
  }

  function HealthBody(stamp: string): Json {
    JObject(map["status" := JString("ok"), "timestamp" := JString(stamp)])
  }

  const Preflight := Response(200, CorsHeaders, NoBody)

  /** The fixed 500 of the operation branch, whatever went wrong in it. */
  const Unavailable := SendJson(500, JObject(map[
    "error" := JString("Service temporarily unavailable"),
    "details" := JString("Unable to load PDPJ module")
  ]))

  const MissingNumero := SendJson(400, ErrorBody("Número do processo é obrigatório"))

  const NotFound := SendJson(404, ErrorBody("Endpoint não encontrado"))

  predicate IsInfoPath(pathname: string) {
    pathname == "/" || pathname == "/api"
  }

  predicate IsOperationPath(pathname: string) {
    ProcessPrefix <= pathname || DocumentsPrefix <= pathname
  }

  /** `url.pathname.split('/').pop()` */
  function Numero(pathname: string): string {
    Strings.Last(Strings.Split(pathname, '/'))
  }

  /** The process number, or the 400 when it is empty. */
  function Route(op: Operation, pathname: string): Decision {
    var numero := Numero(pathname);
    if numero == "" then Answer(MissingNumero) else Invoke(op, numero)
  }

  /** The handler up to the point where it awaits an operation. `loaded` says whether
      the dynamic import of the client module succeeded. */
  function Decide(httpMethod: string, pathname: string, loaded: bool, stamp: string): (d: Decision)
    ensures d.Answer? ==> d.response.headers == CorsHeaders
    ensures d.Invoke? <==>
      httpMethod != "OPTIONS" && IsOperationPath(pathname) && loaded && Numero(pathname) != ""
    ensures d.Invoke? ==>
      d.numero == Numero(pathname) && (d.op == ConsultProcess <==> ProcessPrefix <= pathname)
  {
    if httpMethod == "OPTIONS" then Answer(Preflight)
    else if IsInfoPath(pathname) then Answer(SendJson(200, InfoBody(stamp)))
    else if pathname == "/health" then Answer(SendJson(200, HealthBody(stamp)))
    else if IsOperationPath(pathname) then
      if !loaded then Answer(Unavailable)
      else if ProcessPrefix <= pathname then Route(ConsultProcess, pathname)
      else Route(ListDocuments, pathname)
    else Answer(NotFound)
  }

  /** The response to an operation's outcome: its value unchanged, or the fixed 500. */
  function Complete(outcome: Result<Value, Pdpj.Fault>): Response {
    match outcome
    case Success(v) => Response(200, CorsHeaders, JsonBody(v))
    case Failure(_) => Unavailable
  }

  /** The whole handler, with the operations given as `run`. */
  function Handle(httpMethod: string, pathname: string, loaded: bool,
                  run: (Operation, string) -> Result<Value, Pdpj.Fault>, stamp: string): (r: Response)
    ensures r.headers == CorsHeaders
    ensures r.status in {200, 400, 404, 500}
    ensures httpMethod == "OPTIONS" ==> r == Preflight
    ensures r.status == 400 <==>
      httpMethod != "OPTIONS" && IsOperationPath(pathname) && loaded && Numero(pathname) == ""
    ensures r.status == 404 <==>
      httpMethod != "OPTIONS" && !IsInfoPath(pathname) && pathname != "/health" && !IsOperationPath(pathname)
  {
    match Decide(httpMethod, pathname, loaded, stamp)
    case Answer(response) => response
    case Invoke(op, numero) => Complete(run(op, numero))
  }

  /** Runs of the operations from cache `c`, as the handler would await them. */
  function Runner(c: Pdpj.CacheState, now: int, ex: Pdpj.LoginExchange, upstream: Pdpj.Request -> Pdpj.Reply)
    : (Operation, string) -> Result<Value, Pdpj.Fault>
  {
    (op: Operation, numero: string) => Perform(op, numero, c, now, ex, upstream).outcome
  }

  /** One operation from cache `c`, its JSON result seen as a value. */
  function Perform(op: Operation, numero: string, c: Pdpj.CacheState, now: int,
                   ex: Pdpj.LoginExchange, upstream: Pdpj.Request -> Pdpj.Reply): Pdpj.Step<Value>
  {
    match op
    case ConsultProcess =>
      var s := Pdpj.Consult(c, numero, now, ex, upstream);
      Pdpj.Step(s.state, if s.outcome.Success? then Success(Defined(s.outcome.value)) else Failure(s.outcome.error))
    case ListDocuments => Pdpj.ListDocs(c, numero, now, ex, upstream)
  }

  /** One request served against the live token cache. */
  method Serve(cache: Pdpj.TokenCache, httpMethod: string, pathname: string, loaded: bool, stamp: string,
               now: int, ex: Pdpj.LoginExchange, upstream: Pdpj.Request -> Pdpj.Reply)
    returns (response: Response)
    modifies cache
    ensures response == Handle(httpMethod, pathname, loaded, Runner(old(cache.State()), now, ex, upstream), stamp)
    ensures var d := Decide(httpMethod, pathname, loaded, stamp);
      cache.State() == if d.Invoke? then Perform(d.op, d.numero, old(cache.State()), now, ex, upstream).state
                       else old(cache.State())
  {
    var d := Decide(httpMethod, pathname, loaded, stamp);
    match d {
      case Answer(r) =>
        response := r;
      case Invoke(op, numero) =>
        var outcome: Result<Value, Pdpj.Fault>;
        if op == ConsultProcess {
          var r := Pdpj.ConsultarProcesso(cache, numero, now, ex, upstream);
          outcome := if r.Success? then Success(Defined(r.value)) else Failure(r.error);
        } else {
          outcome := Pdpj.ListarDocumentos(cache, numero, now, ex, upstream);
        }
        response := Complete(outcome);
    }
  }

  // ---------------------------------------------------------------------------
  // Properties of the decision table

  /** A preflight request gets 200 with no body whatever its path, and nothing runs. */
  lemma PreflightShortCircuits(pathname: string, loaded: bool, stamp: string)
    ensures Decide("OPTIONS", pathname, loaded, stamp) == Answer(Preflight)
  {
  }

  /** The info and health routes answer by path alone: every non-preflight method gets
      the same 200. */
  lemma FixedRoutesIgnoreMethod(m1: string, m2: string, pathname: string, loaded: bool,
                                run1: (Operation, string) -> Result<Value, Pdpj.Fault>,
                                run2: (Operation, string) -> Result<Value, Pdpj.Fault>, stamp: string)
    requires m1 != "OPTIONS" && m2 != "OPTIONS"
    requires IsInfoPath(pathname) || pathname == "/health"
    ensures Handle(m1, pathname, loaded, run1, stamp) == Handle(m2, pathname, loaded, run2, stamp)
    ensures Handle(m1, pathname, loaded, run1, stamp) ==
      SendJson(200, if pathname == "/health" then HealthBody(stamp) else InfoBody(stamp))
  {
  }

  /** Whenever the handler answers before the operation stage, the operations do not
      matter: none of them is run. */
  lemma AnswerRunsNothing(httpMethod: string, pathname: string, loaded: bool,
                          run1: (Operation, string) -> Result<Value, Pdpj.Fault>,
                          run2: (Operation, string) -> Result<Value, Pdpj.Fault>, stamp: string)
    requires Decide(httpMethod, pathname, loaded, stamp).Answer?
    ensures Handle(httpMethod, pathname, loaded, run1, stamp) == Handle(httpMethod, pathname, loaded, run2, stamp)
  {
  }

  /** The process number is the text after the last `/` of the pathname: it holds no `/`,
      it ends the pathname, and it follows a `/`. */
  lemma NumeroIsLastSegment(pathname: string)
    requires IsOperationPath(pathname)
    ensures var n := Numero(pathname);
      '/' !in n && |n| < |pathname| && pathname[|pathname| - |n|..] == n && pathname[|pathname| - |n| - 1] == '/'
  {
    Strings.LastPieceIsTail(pathname, '/');
    var n := Numero(pathname);
    assert '/' in pathname by {
      if ProcessPrefix <= pathname {
        assert pathname[0] == ProcessPrefix[0];
      } else {
        assert pathname[0] == DocumentsPrefix[0];
      }
    }
  }

  /** A trailing slash gives the 400 and runs nothing, once the client module loaded. */
  lemma TrailingSlashIsBadRequest(httpMethod: string, pathname: string, stamp: string)
    requires httpMethod != "OPTIONS" && IsOperationPath(pathname)
    requires pathname[|pathname| - 1] == '/'
    ensures Decide(httpMethod, pathname, true, stamp) == Answer(MissingNumero)
  {
    var parts := Strings.Split(pathname, '/');
    assert pathname == pathname[..|pathname| - 1] + ['/'];
  }

  /** A failed import of the client module gives the 500 before the number is checked,
      so even an empty number is answered with 500. */
  lemma LoadFailureBeforeValidation(httpMethod: string, pathname: string, stamp: string)
    requires httpMethod != "OPTIONS" && IsOperationPath(pathname)
    ensures Decide(httpMethod, pathname, false, stamp) == Answer(Unavailable)
  {
  }

  /** A successful operation's result is sent with 200, unchanged, and the prefix picks
      the operation. */
  lemma SuccessPassesThrough(httpMethod: string, pathname: string,
                             run: (Operation, string) -> Result<Value, Pdpj.Fault>, stamp: string)
    requires httpMethod != "OPTIONS" && IsOperationPath(pathname) && Numero(pathname) != ""
    requires var op := if ProcessPrefix <= pathname then ConsultProcess else ListDocuments;
      run(op, Numero(pathname)).Success?
    ensures var op := if ProcessPrefix <= pathname then ConsultProcess else ListDocuments;
      Handle(httpMethod, pathname, true, run, stamp) ==
        Response(200, CorsHeaders, JsonBody(run(op, Numero(pathname)).value))
  {
  }

  /** Any failure of the operation gives the same fixed 500: the upstream status and the
      cause are not passed on. */
  lemma FailureIsOpaque(httpMethod: string, pathname: string,
                        run: (Operation, string) -> Result<Value, Pdpj.Fault>, stamp: string)
    requires httpMethod != "OPTIONS" && IsOperationPath(pathname) && Numero(pathname) != ""
    requires var op := if ProcessPrefix <= pathname then ConsultProcess else ListDocuments;
      run(op, Numero(pathname)).Failure?
    ensures Handle(httpMethod, pathname, true, run, stamp) == Unavailable
  {
  }

  /** `/api/processo/a/b` asks for process `b`. */
  lemma NestedPathExample(stamp: string)
    ensures Decide("GET", "/api/processo/a/b", true, stamp) == Invoke(ConsultProcess, "b")
  {
    assert ProcessPrefix <= "/api/processo/a/b";
    NumeroIsLastSegment("/api/processo/a/b");
    assert "/api/processo/a/b"[16..] == "b";
  }

  /** `/api/` and `/sse` are not routes. */
  lemma UnroutedPaths(httpMethod: string, loaded: bool, stamp: string)
    requires httpMethod != "OPTIONS"
    ensures Decide(httpMethod, "/api/", loaded, stamp) == Answer(NotFound)
    ensures Decide(httpMethod, "/sse", loaded, stamp) == Answer(NotFound)
  {
  }

  /** An upstream answer with a non-ok status reaches the client as the fixed 500. */
  lemma UpstreamStatusHidden(cache: Pdpj.CacheState, pathname: string, stamp: string, now: int,
                             ex: Pdpj.LoginExchange, upstream: Pdpj.Request -> Pdpj.Reply)
    requires ProcessPrefix <= pathname && Numero(pathname) != ""
    requires var g := Pdpj.Authorize(cache, now, ex);
      g.header.Success? &&
      var reply := upstream(Pdpj.Request(Pdpj.ProcessUrl(Numero(pathname)), g.header.value));
      reply.Received? && !Pdpj.IsOk(reply.status)
    ensures Handle("GET", pathname, true, Runner(cache, now, ex, upstream), stamp) == Unavailable
  {
  }
}
