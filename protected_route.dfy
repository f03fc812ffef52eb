/**
 * The dashboard's route guard: it starts out checking, ends authorized or unauthorized
 * after one server-side verification of the session token, and drops a token the server
 * rejects.
 */
module ProtectedRoute {
  import opened Wrappers
  import opened Api
  import Session

  /** What the guard renders in place of its subtree. */
  datatype Output = Spinner | Children | RedirectToLogin

  /** The verify call made with the token in the cookie store. */
  function VerifyRequest(token: Option<string>): Request {
    Request(Get, "/api/auth/verify", Some(Bearer(token)), [])
  }

  class Guard {
    /** `isAuthenticated`: `null` until the check settles. */
    var isAuthenticated: Option<bool>
    var loading: bool

    constructor ()
      ensures isAuthenticated == None && loading
      ensures Render() == Spinner
    {
      isAuthenticated := None;
      loading := true;
    }

    /**
     * The component's output: a spinner while loading, then the protected children exactly
     * when authenticated and a redirect to `/login` otherwise.
     */
    function Render(): (out: Output)
      reads this
      ensures loading ==> out == Spinner
      ensures !loading ==> (out == Children <==> isAuthenticated == Some(true))
      ensures !loading ==> (out == RedirectToLogin <==> isAuthenticated != Some(true))
    {
      if loading then Spinner
      else if isAuthenticated == Some(true) then Children
      else RedirectToLogin
    }

    /**
     * verifyToken up to its await. Without a token the guard settles unauthenticated at once
     * and makes no request; with one it sends the verify request and keeps waiting.
     */
    method BeginVerify(jar: Session.CookieJar) returns (request: Option<Request>)
      modifies this
      ensures !jar.HasToken() ==> request == None && isAuthenticated == Some(false) && !loading
      ensures jar.HasToken() ==> request == Some(VerifyRequest(jar.token))
                                 && isAuthenticated == old(isAuthenticated) && loading == old(loading)
    {
      if !jar.HasToken() {
        isAuthenticated := Some(false);
        loading := false;
        return None;
      }
      request := Some(VerifyRequest(jar.token));
    }

    /**
     * verifyToken after its await. `success` authenticates and keeps the token; a negative
     * answer or a thrown error leaves the guard unauthenticated and removes the token.
     * Loading ends on every path.
     */
    method FinishVerify(jar: Session.CookieJar, response: Fetched<bool>)
      modifies this, jar
      ensures !loading
      ensures response == Received(true) ==> isAuthenticated == Some(true) && jar.token == old(jar.token)
      ensures response != Received(true) ==> isAuthenticated == Some(false) && jar.token == None
    {
      match response {
        case Received(success) =>
          if success {
            isAuthenticated := Some(true);
          } else {
            isAuthenticated := Some(false);
            jar.Remove();
          }
        case Failed(_) =>
          isAuthenticated := Some(false);
          jar.Remove();
      }
      loading := false;
    }
  }

  /**
   * One mount of the guard, the verify call answered by `response`: without a token there
   * is no request and a redirect; with one there is exactly one request, then the children
   * if the server accepted the token and otherwise a redirect with the token removed.
   */
  method Mount(jar: Session.CookieJar, response: Fetched<bool>) returns (guard: Guard, requests: seq<Request>)
    modifies jar
    ensures fresh(guard) && !guard.loading
    ensures !old(jar.HasToken()) ==> requests == [] && guard.Render() == RedirectToLogin && jar.token == old(jar.token)
    ensures old(jar.HasToken()) ==> requests == [VerifyRequest(old(jar.token))]
    ensures old(jar.HasToken()) && response == Received(true) ==>
              guard.Render() == Children && jar.token == old(jar.token)
    ensures old(jar.HasToken()) && response != Received(true) ==>
              guard.Render() == RedirectToLogin && jar.token == None
  {
    guard := new Guard();
    var request := guard.BeginVerify(jar);
    if request.Some? {
      requests := [request.value];
      guard.FinishVerify(jar, response);
    } else {
      requests := [];
    }
  }
}
