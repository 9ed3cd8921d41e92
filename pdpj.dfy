/** The client side of the upstream judicial-process service (tools/pdpj.js):
    a cached bearer token obtained by the OAuth 2.0 resource-owner password grant
    (section 4.3 of RFC 6749), the process lookup and the documents projection.
    Network replies and clock readings are inputs; the token endpoint's JSON reply
    is given already read. */
module Pdpj {
  import opened Wrappers
  import opened JsonValues
  import Strings

  /** Upstream address of a process; the number is appended as it is. */
  const ProcessBase := "https://portaldeservicos.pdpj.jus.br/api/v2/processos/"

  /** One minute of slack taken off every token lifetime, in milliseconds. */
  const SafetyMarginMs := 60000

  /** Prefix of the message of the error thrown for a non-ok upstream status. */
  const StatusPrefix := "Status "

  /** The stored expiry instant in milliseconds. `NaN` is what
      `Date.now() + undefined * 1000 - 60000` yields when the token reply has no
      `expires_in`; every comparison with it is false. */
  datatype Expiry = Millis(ms: int) | NaN

  /** The two module-level variables `token` and `expires`. */
  datatype CacheState = CacheState(token: Option<string>, expires: Expiry)

  /** `let token, expires = 0;` */
  const Initial := CacheState(None, Millis(0))

  /** What the token endpoint gave back: the `access_token` and `expires_in` (seconds)
      fields of its JSON body, whatever the HTTP status (a body that is an array, a
      string, a number or a boolean has neither field), or a rejection: the POST
      failed, the body was not JSON, or the body was JSON `null`. */
  datatype LoginReply = TokenBody(accessToken: Option<string>, expiresIn: Option<int>) | LoginRejected

  /** One run of `login()`: the reply, and the clock when `Date.now()` is read after it. */
  datatype LoginExchange = LoginExchange(reply: LoginReply, clock: int)

  /** Why an operation throws. */
  datatype Fault =
    | HttpError(message: string)  // the upstream answered with a non-ok status
    | LoginFailed                 // `login()` rejected
    | FetchFailed                 // the upstream GET rejected
    | BodyUnreadable              // the upstream body was not JSON
    | NullData                    // `dados.documentos` on a null body

  /** The upstream GET: its URL and its `Authorization` header value. */
  datatype Request = Request(url: string, authorization: string)

  /** The upstream answer to a GET: a status with its parsed body (None when the body
      is not JSON), or no answer at all. */
  datatype Reply = Received(status: nat, body: Option<Json>) | Unreachable

  /** What one `auth()` call does: the new cache, the header value or the fault,
      and whether `login()` ran. */
  datatype Grant = Grant(state: CacheState, header: Result<string, Fault>, loggedIn: bool)

  /** The cache after an operation, and what the operation returned or threw. */
  datatype Step<T> = Step(state: CacheState, outcome: Result<T, Fault>)

  /** One sequential `auth()` call: the instant of its check and the login it would make. */
  datatype Call = Call(now: int, exchange: LoginExchange)

  /** The cache after a series of calls, and how many of them logged in. */
  datatype Tally = Tally(state: CacheState, logins: nat)

  /** JavaScript truthiness of the stored token. */
  predicate Truthy(token: Option<string>) {
    token.Some? && token.value != ""
  }

  /** The guard of `auth()`: `!token || Date.now() > expires`. */
  predicate NeedsLogin(c: CacheState, now: int) {
    !Truthy(c.token) || (c.expires.Millis? && now > c.expires.ms)
  }

  /** `${token}` */
  function TokenText(token: Option<string>): string {
    match token
    case Some(t) => t
    case None => "undefined"
  }

  /** The `Authorization` value built from the stored token. */
  function Bearer(token: Option<string>): (h: string)
    ensures |h| >= 7 && h[..7] == "Bearer "
    ensures token.Some? ==> h[7..] == token.value
    ensures token.None? ==> h[7..] == "undefined"
  {
    "Bearer " + TokenText(token)
  }

  /** The cache that `login()` leaves behind, or the fault it throws. */
  function Relogin(ex: LoginExchange): (r: Result<CacheState, Fault>)
    ensures r.Failure? <==> ex.reply.LoginRejected?
    ensures r.Success? ==> r.value.token == ex.reply.accessToken
    ensures r.Success? && ex.reply.expiresIn.Some? ==>
      r.value.expires.Millis? &&
      r.value.expires.ms + SafetyMarginMs == ex.clock + ex.reply.expiresIn.value * 1000
    ensures r.Success? && ex.reply.expiresIn.None? ==> r.value.expires == NaN
  {
    match ex.reply
    case LoginRejected => Failure(LoginFailed)
    case TokenBody(t, e) =>
      var exp := match e
        case Some(secs) => Millis(ex.clock + secs * 1000 - SafetyMarginMs)
        case None => NaN;
      Success(CacheState(t, exp))
  }

  /** One `auth()` call from cache `c` at instant `now`. */
  function Authorize(c: CacheState, now: int, ex: LoginExchange): (g: Grant)
    ensures g.loggedIn <==> NeedsLogin(c, now)
    ensures !g.loggedIn ==> g.state == c && g.header == Success(Bearer(c.token))
    ensures g.header.Failure? <==> g.loggedIn && ex.reply.LoginRejected?
    ensures g.header.Failure? ==> g.state == c
    ensures g.header.Success? ==> g.header.value == Bearer(g.state.token)
    ensures g.loggedIn && ex.reply.TokenBody? ==> g.state == Relogin(ex).value
  {
    if !NeedsLogin(c, now) then Grant(c, Success(Bearer(c.token)), false)
    else
      match Relogin(ex)
      case Failure(f) => Grant(c, Failure(f), true)
      case Success(renewed) => Grant(renewed, Success(Bearer(renewed.token)), true)
  }

  /** The token cache held in module state. */
  class TokenCache {
    var token: Option<string>
    var expires: Expiry

    function State(): CacheState
      reads this
    {
      CacheState(token, expires)
    }

    constructor ()
      ensures State() == Initial
    {
      token := None;
      expires := Millis(0);
    }

    /** `login()`: overwrites both fields from the reply, or throws leaving them as they were. */
    method Login(ex: LoginExchange) returns (failure: Option<Fault>)
      modifies this
      ensures Relogin(ex).Success? ==> failure == None && State() == Relogin(ex).value
      ensures Relogin(ex).Failure? ==> failure == Some(Relogin(ex).error) && State() == old(State())
    {
      match ex.reply {
        case LoginRejected =>
          failure := Some(LoginFailed);
        case TokenBody(t, e) =>
          token := t;
          expires := if e.Some? then Millis(ex.clock + e.value * 1000 - SafetyMarginMs) else NaN;
          failure := None;
      }
    }

    /** `auth()`: logs in when the token is missing or stale, then returns the header. */
    method Auth(now: int, ex: LoginExchange) returns (header: Result<string, Fault>, loggedIn: bool)
      modifies this
      ensures Authorize(old(State()), now, ex) == Grant(State(), header, loggedIn)
    {
      loggedIn := token.None? || token.value == "" || (expires.Millis? && now > expires.ms);
      if loggedIn {
        var failure := Login(ex);
        if failure.Some? {
          header := Failure(failure.value);
          return;
        }
      }
      header := Success(Bearer(token));
    }
  }

  /** The upstream URL of process `numero`. */
  function ProcessUrl(numero: string): (url: string)
    ensures |url| == |ProcessBase| + |numero|
    ensures url[..|ProcessBase|] == ProcessBase && url[|ProcessBase|..] == numero
  {
    ProcessBase + numero
  }

  /** The message of `new Error(`Status ${status}`)`. */
  function StatusMessage(status: nat): string {
    StatusPrefix + Strings.Decimal(status)
  }

  /** The status code that a `Status N` message carries, if it is one. */
  function StatusOf(message: string): Option<nat> {
    if |message| > |StatusPrefix| && message[..|StatusPrefix|] == StatusPrefix &&
       Strings.IsDigits(message[|StatusPrefix|..])
    then Some(Strings.ParseDecimal(message[|StatusPrefix|..]))
    else None
  }

  /** The error message names the upstream status exactly. */
  lemma StatusMessageNamesStatus(status: nat)
    ensures StatusOf(StatusMessage(status)) == Some(status)
  {
    var m := StatusMessage(status);
    assert m[|StatusPrefix|..] == Strings.Decimal(status);
    Strings.DecimalRoundTrip(status);
  }

  /** `r.ok` of the Fetch standard: a status in the range 200 to 299. */
  predicate IsOk(status: nat) {
    200 <= status <= 299
  }

  /** What the lookup makes of the upstream answer: the parsed body of an ok reply,
      otherwise the fault it throws. */
  function ReadReply(reply: Reply): (r: Result<Json, Fault>)
    ensures r.Success? <==> reply.Received? && IsOk(reply.status) && reply.body.Some?
    ensures r.Success? ==> r.value == reply.body.value
    ensures reply.Received? && !IsOk(reply.status) ==>
      r.Failure? && r.error.HttpError? && r.error.message == StatusMessage(reply.status) &&
      StatusOf(r.error.message) == Some(reply.status)
  {
    match reply
    case Unreachable => Failure(FetchFailed)
    case Received(status, body) =>
      if !IsOk(status) then
        StatusMessageNamesStatus(status);
        Failure(HttpError(StatusMessage(status)))
      else if body.None? then Failure(BodyUnreadable)
      else Success(body.value)
  }

  /** `dados.documentos`: the field as it is, `undefined` when absent, a throw on null. */
  function Documentos(dados: Json): (r: Result<Value, Fault>)
    ensures r.Failure? <==> dados.JNull?
    ensures r.Success? && r.value.Defined? ==>
      dados.JObject? && "documentos" in dados.members && dados.members["documentos"] == r.value.json
    ensures dados.JObject? && "documentos" in dados.members ==>
      r == Success(Defined(dados.members["documentos"]))
  {
    match dados
    case JNull => Failure(NullData)
    case JObject(members) =>
      if "documentos" in members then Success(Defined(members["documentos"])) else Success(Undefined)
    case _ => Success(Undefined)
  }

  /** `consultarProcesso.run({ numero })` from cache `c`: one `auth()`, then one GET of
      the process URL with the resulting header. */
  function Consult(c: CacheState, numero: string, now: int, ex: LoginExchange, upstream: Request -> Reply): (s: Step<Json>)
    ensures s.state == Authorize(c, now, ex).state
    ensures Authorize(c, now, ex).header.Failure? ==> s.outcome == Failure(LoginFailed)
    ensures Authorize(c, now, ex).header.Success? ==>
      s.outcome == ReadReply(upstream(Request(ProcessUrl(numero), Bearer(s.state.token))))
  {
    var g := Authorize(c, now, ex);
    match g.header
    case Failure(f) => Step(g.state, Failure(f))
    case Success(h) => Step(g.state, ReadReply(upstream(Request(ProcessUrl(numero), h))))
  }

  /** `listarDocumentos.run({ numero })`: the lookup, then its `documentos` field. */
  function ListDocs(c: CacheState, numero: string, now: int, ex: LoginExchange, upstream: Request -> Reply): (s: Step<Value>)
    ensures s.state == Consult(c, numero, now, ex, upstream).state
    ensures Consult(c, numero, now, ex, upstream).outcome.Failure? ==>
      s.outcome == Failure(Consult(c, numero, now, ex, upstream).outcome.error)
    ensures Consult(c, numero, now, ex, upstream).outcome.Success? ==>
      s.outcome == Documentos(Consult(c, numero, now, ex, upstream).outcome.value)
  {
    var looked := Consult(c, numero, now, ex, upstream);
    match looked.outcome
    case Failure(f) => Step(looked.state, Failure(f))
    case Success(dados) => Step(looked.state, Documentos(dados))
  }

  /** `consultarProcesso.run`, against the live cache. */
  method ConsultarProcesso(cache: TokenCache, numero: string, now: int, ex: LoginExchange, upstream: Request -> Reply)
    returns (r: Result<Json, Fault>)
    modifies cache
    ensures Consult(old(cache.State()), numero, now, ex, upstream) == Step(cache.State(), r)
  {
    var header, loggedIn := cache.Auth(now, ex);
    if header.Failure? {
      return Failure(header.error);
    }
    var reply := upstream(Request(ProcessUrl(numero), header.value));
    r := ReadReply(reply);
  }

  /** `listarDocumentos.run`, against the live cache. */
  method ListarDocumentos(cache: TokenCache, numero: string, now: int, ex: LoginExchange, upstream: Request -> Reply)
    returns (r: Result<Value, Fault>)
    modifies cache
    ensures ListDocs(old(cache.State()), numero, now, ex, upstream) == Step(cache.State(), r)
  {
    var dados := ConsultarProcesso(cache, numero, now, ex, upstream);
    if dados.Failure? {
      return Failure(dados.error);
    }
    r := Documentos(dados.value);
  }

  // ---------------------------------------------------------------------------
  // The caching rule over sequential calls

  /** Sequential `auth()` calls from cache `c`. */
  function Series(c: CacheState, calls: seq<Call>): (t: Tally)
    ensures t.logins <= |calls|
    decreases |calls|
  {
    if calls == [] then Tally(c, 0)
    else
      var g := Authorize(c, calls[0].now, calls[0].exchange);
      var rest := Series(g.state, calls[1..]);
      Tally(rest.state, rest.logins + if g.loggedIn then 1 else 0)
  }

  /** Whether a token obtained through `ex` is still reused at instant `t`: always when
      the reply had no lifetime, otherwise up to one minute before it runs out. */
  predicate ReusedAt(ex: LoginExchange, t: int)
    requires ex.reply.TokenBody?
  {
    match ex.reply.expiresIn
    case None => true
    case Some(secs) => t <= ex.clock + secs * 1000 - SafetyMarginMs
  }

  /** The first `auth()` after start-up always logs in. */
  lemma FirstAuthLogsIn(now: int, ex: LoginExchange)
    ensures Authorize(Initial, now, ex).loggedIn
  {
  }

  /** The comparison is strict: at the stored instant itself the token is still reused. */
  lemma ReusedAtExpiryInstant(c: CacheState, ex: LoginExchange)
    requires Truthy(c.token) && c.expires.Millis?
    ensures Authorize(c, c.expires.ms, ex) == Grant(c, Success(Bearer(c.token)), false)
  {
  }

  /** A call after the stored instant logs in again. */
  lemma RefreshAfterExpiry(c: CacheState, now: int, ex: LoginExchange)
    requires c.expires.Millis? && now > c.expires.ms
    ensures Authorize(c, now, ex).loggedIn
  {
  }

  /** While the cached token is usable, any number of calls keep it and never log in. */
  lemma {:induction false} NoLoginWhileValid(c: CacheState, calls: seq<Call>)
    requires forall i :: 0 <= i < |calls| ==> !NeedsLogin(c, calls[i].now)
    ensures Series(c, calls) == Tally(c, 0)
    decreases |calls|
  {
    if calls != [] {
      NoLoginWhileValid(c, calls[1..]);
    }
  }

  /** One login per validity window: a call that must log in and gets a usable token,
      followed by calls within that token's window, logs in exactly once and leaves the
      cache holding that token. */
  lemma {:induction false} OneLoginPerWindow(c: CacheState, first: Call, rest: seq<Call>)
    requires NeedsLogin(c, first.now)
    requires first.exchange.reply.TokenBody? && Truthy(first.exchange.reply.accessToken)
    requires forall i :: 0 <= i < |rest| ==> ReusedAt(first.exchange, rest[i].now)
    ensures Series(c, [first] + rest) == Tally(Relogin(first.exchange).value, 1)
  {
    var renewed := Relogin(first.exchange).value;
    var calls := [first] + rest;
    assert calls[1..] == rest;
    forall i | 0 <= i < |rest|
      ensures !NeedsLogin(renewed, rest[i].now)
    {
      assert ReusedAt(first.exchange, rest[i].now);
    }
    NoLoginWhileValid(renewed, rest);
  }

  /** Two calls at the same instant log in at most once, provided the token lifetime is
      at least the one-minute margin and the clock does not run backwards during login. */
  lemma TwoCallsSameInstant(c: CacheState, now: int, ex1: LoginExchange, ex2: LoginExchange)
    requires ex1.reply.TokenBody? && Truthy(ex1.reply.accessToken)
    requires ex1.reply.expiresIn.Some? ==> ex1.reply.expiresIn.value >= 60
    requires now <= ex1.clock
    ensures Series(c, [Call(now, ex1), Call(now, ex2)]).logins <= 1
  {
    if NeedsLogin(c, now) {
      OneLoginPerWindow(c, Call(now, ex1), [Call(now, ex2)]);
    } else {
      NoLoginWhileValid(c, [Call(now, ex1), Call(now, ex2)]);
    }
  }

  /** Without the lifetime bound the rule fails: a 59-second token is stale at once, so
      a second call at the same instant logs in again. */
  lemma ShortLifetimeLogsInTwice(now: int, t: string, ex2: LoginExchange)
    requires t != ""
    ensures Series(Initial, [Call(now, LoginExchange(TokenBody(Some(t), Some(59)), now)), Call(now, ex2)]).logins == 2
  {
  }

  /** A token reply without `expires_in` is never refreshed while the token is truthy. */
  lemma MissingLifetimeNeverExpires(c: CacheState, now: int, ex: LoginExchange)
    requires Truthy(c.token) && c.expires == NaN
    ensures !Authorize(c, now, ex).loggedIn
  {
  }

  /** A reply without `access_token` (such as an error body) still replaces the cached
      token, so the next call logs in again. */
  lemma MissingAccessTokenOverwrites(c: CacheState, now: int, e: Option<int>, clock: int, later: int, ex2: LoginExchange)
    requires NeedsLogin(c, now)
    ensures var g := Authorize(c, now, LoginExchange(TokenBody(None, e), clock));
      g.state.token == None && g.header == Success("Bearer undefined") &&
      Authorize(g.state, later, ex2).loggedIn
  {
    var ex := LoginExchange(TokenBody(None, e), clock);
    assert Relogin(ex).value.token == None;
    assert Bearer(None) == "Bearer undefined";
  }

  /** The lookup throws the status of a non-ok upstream answer in its message. */
  lemma NonOkStatusThrows(c: CacheState, numero: string, now: int, ex: LoginExchange, upstream: Request -> Reply)
    requires Authorize(c, now, ex).header.Success?
    requires var reply := upstream(Request(ProcessUrl(numero), Bearer(Authorize(c, now, ex).state.token)));
      reply.Received? && !IsOk(reply.status)
    ensures var s := Consult(c, numero, now, ex, upstream);
      s.outcome.Failure? && s.outcome.error.HttpError? &&
      StatusOf(s.outcome.error.message) == Some(upstream(Request(ProcessUrl(numero), Bearer(s.state.token))).status)
  {
  }
}
