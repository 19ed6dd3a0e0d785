/** The OAuth callback route (apps/web/src/app/api/auth/callback/route.ts).
    A request carries `code`, `redirect`, `error` and `error_description` in its
    query; the handler chooses one redirect: back to the sign-in page with the
    upstream error, back to the sign-in page after a failed code exchange, or
    to the requested destination. Creating the backend client and the code
    exchange are calls into the identity backend and are a parameter here.
    URL resolution and query-string encoding are kept abstract: a location is
    a path, the base URL it is resolved against and the value of its `error`
    search parameter. Resolution is taken to succeed; where `new URL` throws
    for an unparsable `redirect` the handler throws instead of redirecting,
    and that outcome is not modelled. */
module Callback {
  import opened Js

  /** The query as URLSearchParams holds it: name/value pairs, in order. */
  type Query = seq<(string, string)>

  datatype Request = Request(origin: string, query: Query)

  /** What the exchange block does: the exchange succeeds, resolves with an
      error, or something throws (creating the client or the exchange itself). */
  datatype Exchange = Exchanged | ExchangeError(message: string) | ExchangeThrew(message: string)

  /** `new URL(path, base)`, with the `error` search parameter when it is set.
      `base` is the URL `path` is resolved against, not the origin of the
      result: an absolute `path` resolves to its own origin. */
  datatype Location = Location(path: string, base: string, errorParam: Option<string>)

  /** The redirect, and the code the exchange block was entered with, if it
      was entered. */
  datatype Response = Response(codeTried: Option<string>, location: Location)

  datatype HttpMethod = GET | POST

  const SignInPath := "/signin"
  const DefaultRedirect := "/"
  const UpstreamFallbackMessage := "Google sign-in failed"
  const ExchangeFailedMessage := "Authentication failed. Please try again."

  function SignIn(origin: string, message: string): Location {
    Location(SignInPath, origin, Some(message))
  }

  /** URLSearchParams.get: the value of the first pair with that name, or null. */
  function Param(q: Query, name: string): (r: Option<string>)
    ensures r.None? <==> forall i :: 0 <= i < |q| ==> q[i].0 != name
    ensures r.Some? ==> exists i :: 0 <= i < |q| && q[i] == (name, r.value) && FirstWithName(q, name, i)
  {
    if q == [] then None
    else if q[0].0 == name then
      assert FirstWithName(q, name, 0);
      Some(q[0].1)
    else
      var r := Param(q[1..], name);
      if r.Some? then
        var i :| 0 <= i < |q| - 1 && q[1..][i] == (name, r.value) && FirstWithName(q[1..], name, i);
        assert FirstWithName(q, name, i + 1) by {
          forall j | 0 <= j < i + 1 ensures q[j].0 != name {
            if j > 0 { assert q[j] == q[1..][j - 1]; }
          }
        }
        r
      else r
  }

  /** No pair before position i has that name. */
  predicate FirstWithName(q: Query, name: string, i: nat) {
    forall j :: 0 <= j < i && j < |q| ==> q[j].0 != name
  }

  /** The decision the GET handler makes from the four parameters as
      URLSearchParams.get returns them. `exchange` says what the backend does
      with a code. */
  function Decide(origin: string, code: Option<string>, redirect: Option<string>,
                  error: Option<string>, errorDescription: Option<string>,
                  exchange: string -> Exchange): (r: Response)
    // The exchange block is entered, with the code, exactly when `code` is
    // non-empty and `error` is empty or missing.
    ensures r.codeTried.Some? <==> Truthy(code) && !Truthy(error)
    ensures r.codeTried.Some? ==> r.codeTried == code
    // An upstream error goes back to sign-in with error_description, else error.
    ensures Truthy(error) ==>
              r.location == SignIn(origin, if Truthy(errorDescription) then errorDescription.value else error.value)
    // A failed exchange, however it fails, goes back to sign-in with the fixed message.
    ensures r.codeTried.Some? && !exchange(r.codeTried.value).Exchanged? ==>
              r.location == SignIn(origin, ExchangeFailedMessage)
    // Otherwise the redirect parameter (or "/") is the target, with no error.
    ensures !Truthy(error) && (r.codeTried.None? || exchange(r.codeTried.value).Exchanged?) ==>
              r.location == Location(if Truthy(redirect) then redirect.value else DefaultRedirect, origin, None)
    // Every location is resolved against the request's origin as its base
    // (an absolute redirect still lands elsewhere), and every one carrying an
    // error is the sign-in page.
    ensures r.location.base == origin
    ensures r.location.errorParam.Some? ==> r.location.path == SignInPath
  {
    var redirectTo := Or(redirect, DefaultRedirect);
    if Truthy(error) then
      Response(None, SignIn(origin, Or(errorDescription, Or(error, UpstreamFallbackMessage))))
    else if Truthy(code) then
      match exchange(code.value)
      case Exchanged => Response(code, Location(redirectTo, origin, None))
      case ExchangeError(_) => Response(code, SignIn(origin, ExchangeFailedMessage))
      case ExchangeThrew(_) => Response(code, SignIn(origin, ExchangeFailedMessage))
    else
      Response(None, Location(redirectTo, origin, None))
  }

  /** The GET handler: the four parameters are read from the query by name. */
  function Get(request: Request, exchange: string -> Exchange): (r: Response)
    ensures var code, error := Param(request.query, "code"), Param(request.query, "error");
            && (r.codeTried.Some? <==> Truthy(code) && !Truthy(error))
            && (r.codeTried.Some? ==> r.codeTried == code)
            && (Truthy(error) ==> r.location.path == SignInPath)
    ensures r.location.base == request.origin
    ensures r.location.errorParam.Some? ==> r.location.path == SignInPath
  {
    Decide(request.origin, Param(request.query, "code"), Param(request.query, "redirect"),
           Param(request.query, "error"), Param(request.query, "error_description"), exchange)
  }

  /** The exported handlers: POST is bound to the GET function itself. */
  function Route(verb: HttpMethod, request: Request, exchange: string -> Exchange): (r: Response)
    ensures r == Get(request, exchange)
  {
    match verb
    case GET => Get(request, exchange)
    case POST => Get(request, exchange)
  }

  lemma PostIsGet(request: Request, exchange: string -> Exchange)
    ensures Route(POST, request, exchange) == Route(GET, request, exchange)
  {
  }

  /** The generic fallback message is never the one chosen: it would need
      `error` to be empty inside the branch taken only when it is not. */
  lemma UpstreamFallbackUnreachable(origin: string, code: Option<string>, redirect: Option<string>,
                                    error: Option<string>, errorDescription: Option<string>,
                                    exchange: string -> Exchange)
    requires Truthy(error)
    ensures Decide(origin, code, redirect, error, errorDescription, exchange).location.errorParam
         == Some(Or(errorDescription, error.value))
  {
  }

  /** Two exchange behaviours that agree on success give the same response:
      whether a failure is returned or thrown, and its detail, never reach the URL. */
  lemma ExchangeFailureDetailHidden(request: Request, e1: string -> Exchange, e2: string -> Exchange)
    requires forall c :: e1(c).Exchanged? == e2(c).Exchanged?
    ensures Get(request, e1) == Get(request, e2)
  {
  }

  /** A parameter that is missing and one that is present but empty read the same. */
  function Normalised(v: Option<string>): Option<string> {
    if Truthy(v) then v else None
  }

  /** The decision depends on the four parameters only through their
      non-empty values: `?error=` does not short-circuit, `?code=` does not
      exchange, and `?redirect=` falls back to "/". */
  lemma EmptyParamsAreAbsent(origin: string, code: Option<string>, redirect: Option<string>,
                             error: Option<string>, errorDescription: Option<string>,
                             exchange: string -> Exchange)
    ensures Decide(origin, code, redirect, error, errorDescription, exchange)
         == Decide(origin, Normalised(code), Normalised(redirect), Normalised(error),
                   Normalised(errorDescription), exchange)
  {
  }

  /** `?error=access_denied&error_description=User denied` goes to the sign-in
      page with the description, and no exchange happens even with a code. */
  lemma UpstreamErrorScenario(exchange: string -> Exchange)
    ensures Get(Request("https://app.example", [("code", "abc123"), ("error", "access_denied"),
                                                ("error_description", "User denied")]), exchange)
         == Response(None, SignIn("https://app.example", "User denied"))
  {
  }

  /** `?code=abc123&redirect=/dashboard` with a successful exchange goes to /dashboard. */
  lemma SuccessScenario(exchange: string -> Exchange)
    requires exchange("abc123") == Exchanged
    ensures Get(Request("https://app.example", [("code", "abc123"), ("redirect", "/dashboard")]), exchange)
         == Response(Some("abc123"), Location("/dashboard", "https://app.example", None))
  {
  }

  /** `?code=abc123` with a failing exchange goes to sign-in with the fixed message. */
  lemma ExchangeFailureScenario(exchange: string -> Exchange)
    requires !exchange("abc123").Exchanged?
    ensures Get(Request("https://app.example", [("code", "abc123")]), exchange)
         == Response(Some("abc123"), SignIn("https://app.example", ExchangeFailedMessage))
  {
  }

  /** No code and no error: straight to "/" without an exchange. */
  lemma NoParamsScenario(exchange: string -> Exchange)
    ensures Get(Request("https://app.example", []), exchange)
         == Response(None, Location(DefaultRedirect, "https://app.example", None))
  {
  }
}
