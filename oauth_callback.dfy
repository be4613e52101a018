/**
 * The redirect handler of the authorization-code flow (OAuthHandler.do_GET): the local
 * server accepts a code only on the registered redirect path, only with the `state` it
 * sent out (the anti-CSRF check of section 10.12 of RFC 6749), and only when a `code` is
 * present (the authorization response of section 4.1.2 of RFC 6749).
 */
module OAuthCallback {
  import opened Wrappers

  /** A parsed query string as `urllib.parse.parse_qs` returns it: name to its values. */
  type Query = map<string, seq<string>>

  /** parse_qs never lists a name without a value. */
  predicate ParsedQuery(q: Query) {
    forall name :: name in q ==> |q[name]| > 0
  }

  /** `qs.get(name, [default])[0]` */
  function FirstOr(q: Query, name: string, default: Option<string>): (r: Option<string>)
    requires ParsedQuery(q)
    ensures name in q ==> r == Some(q[name][0])
    ensures name !in q ==> r == default
  {
    if name in q then Some(q[name][0]) else default
  }

  /** The handler's answer: a status code and, on success, the code it recorded. */
  datatype Decision = NotFound | BadState | MissingCode | Authorized(code: string)

  function Status(d: Decision): (status: int)
    ensures status == 200 <==> d.Authorized?
    ensures status == 404 <==> d.NotFound?
    ensures status == 400 <==> d.BadState? || d.MissingCode?
  {
    match d
    case NotFound => 404
    case BadState => 400
    case MissingCode => 400
    case Authorized(_) => 200
  }

  /**
   * do_GET's decision on a request whose URL has path `path` and query `q`, for the
   * registered `redirectPath` and the per-run `expectedState`: a wrong path is 404; a
   * `state` other than the expected one (a missing one reads as "") is 400; no `code` is
   * 400; otherwise the first `code` is accepted.
   */
  function Decide(redirectPath: string, expectedState: string, path: string, q: Query): (d: Decision)
    requires ParsedQuery(q)
    ensures d.NotFound? <==> path != redirectPath
    ensures d.Authorized? ==> "code" in q && d.code == q["code"][0]
  {
    if path != redirectPath then NotFound
    else if FirstOr(q, "state", Some("")).value != expectedState then BadState
    else match FirstOr(q, "code", None)
      case None => MissingCode
      case Some(code) => Authorized(code)
  }

  /**
   * A code is accepted exactly when the path is the redirect path, the first `state` is
   * the expected one and a `code` is present; with a non-empty expected state (the
   * handler's is a random URL-safe token), a request without any `state` never gets in.
   */
  lemma AcceptsExactlyMatchingRequests(redirectPath: string, expectedState: string, path: string, q: Query)
    requires ParsedQuery(q)
    ensures Decide(redirectPath, expectedState, path, q).Authorized?
            <==> && path == redirectPath
                 && (("state" in q && q["state"][0] == expectedState) || ("state" !in q && expectedState == ""))
                 && "code" in q
    ensures |expectedState| > 0 && "state" !in q ==> !Decide(redirectPath, expectedState, path, q).Authorized?
    ensures path == redirectPath && "state" in q && q["state"][0] != expectedState ==>
              Decide(redirectPath, expectedState, path, q) == BadState
  {
  }

  /** The local server: the registered path, the state sent out, and the code received so far. */
  class CallbackServer {
    const redirectPath: string
    const expectedState: string
    var authCode: Option<string>

    constructor (redirectPath: string, expectedState: string)
      ensures this.redirectPath == redirectPath && this.expectedState == expectedState
      ensures authCode.None?
    {
      this.redirectPath := redirectPath;
      this.expectedState := expectedState;
      authCode := None;
    }

    /**
     * do_GET: answers with the decision's status, and records the code only when it is
     * accepted; any other request leaves what was recorded before untouched.
     */
    method DoGet(path: string, q: Query) returns (status: int)
      requires ParsedQuery(q)
      modifies this
      ensures status == Status(Decide(redirectPath, expectedState, path, q))
      ensures Decide(redirectPath, expectedState, path, q).Authorized? ==>
                authCode == Some(Decide(redirectPath, expectedState, path, q).code)
      ensures !Decide(redirectPath, expectedState, path, q).Authorized? ==> authCode == old(authCode)
    {
      if path != redirectPath {
        return 404;
      }
      var state := FirstOr(q, "state", Some(""));
      if state.value != expectedState {
        return 400;
      }
      var code := FirstOr(q, "code", None);
      if code.None? {
        return 400;
      }
      authCode := code;
      return 200;
    }
  }
}
