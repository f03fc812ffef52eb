/** The session token, kept by js-cookie in the cookie named `token`. */
module Session {
  import opened Wrappers

  class CookieJar {
    var token: Option<string>

    constructor (token: Option<string>)
      ensures this.token == token
    {
      this.token := token;
    }

    /** `!!Cookies.get('token')`: a cookie is present and its value is not the empty string. */
    predicate HasToken()
      reads this
    {
      token.Some? && token.value != ""
    }

    /** `Cookies.remove('token')`. */
    method Remove()
      modifies this
      ensures token == None && !HasToken()
    {
      token := None;
    }
  }
}
