/** The login screen and its submit handler (src/views/Login.tsx). */
module Login {
  import opened Outcomes
  import opened Session
  import opened ProtectedRoute
  import opened App

  /** The one message the screen shows for every kind of failure. */
  const InvalidCredentials: string := "Invalid username or password"

  /** The body of the `POST /token` request. */
  datatype Credentials = Credentials(username: string, password: string)

  /**
   * The screen the login flow navigates to for a decoded role claim: only
   * the two known roles navigate, any other claim stays on the login screen.
   */
  function LandingRoute(role: Option<string>): (r: Option<string>)
    ensures r == Some(MerchantsPath) <==> role == Some(AdminRole)
    ensures r == Some(TransactionsPath) <==> role == Some(MerchantRole)
    ensures r.None? <==> role !in {Some(AdminRole), Some(MerchantRole)}
  {
    if role == Some(AdminRole) then Some(MerchantsPath)
    else if role == Some(MerchantRole) then Some(TransactionsPath)
    else None
  }

  /**
   * The storage after a login attempt: a token received from the server is
   * stored before anything is decoded; a failed request removes nothing.
   */
  function StoredAfterLogin(items: map<string, string>, response: ApiResult<string>): (r: map<string, string>)
    ensures response.Success? ==> TokenKey in r && r[TokenKey] == response.payload
    ensures response.Failure? ==> r == items
    ensures forall k :: k != TokenKey ==> GetItem(r, k) == GetItem(items, k)
  {
    match response
    case Success(token) => items[TokenKey := token]
    case Failure => items
  }

  /**
   * Whether the attempt lands in the `catch` block: the request failed or
   * the received token could not be decoded.
   */
  predicate LoginFails(response: ApiResult<string>, decode: JwtDecoder)
  {
    response.Failure? || decode(response.payload).None?
  }

  /** The state of the login form. */
  class LoginForm {
    var username: string
    var password: string
    var error: string

    /** A freshly mounted form: both inputs and the error message are empty. */
    constructor ()
      ensures username == "" && password == "" && error == ""
    {
      username, password, error := "", "", "";
    }

    /** The username input's `onChange`. */
    method SetUsername(value: string)
      modifies this
      ensures username == value && password == old(password) && error == old(error)
    {
      username := value;
    }

    /** The password input's `onChange`. */
    method SetPassword(value: string)
      modifies this
      ensures password == value && username == old(username) && error == old(error)
    {
      password := value;
    }

    /**
     * `handleLogin`: sends the form's credentials, stores the received token,
     * decodes it and navigates by its role claim.  `response` is the outcome
     * of the request; the returned `nav` is the navigation performed, if any.
     */
    method HandleLogin(storage: LocalStorage, response: ApiResult<string>, decode: JwtDecoder)
      returns (sent: Credentials, nav: Option<string>)
      modifies this, storage
      ensures sent == Credentials(old(username), old(password))
      ensures username == old(username) && password == old(password)
      ensures storage.items == StoredAfterLogin(old(storage.items), response)
      ensures nav == if LoginFails(response, decode) then None
                     else LandingRoute(decode(response.payload).value.role)
      // a failure shows the fixed message; a success leaves the message as it was
      ensures error == if LoginFails(response, decode) then InvalidCredentials else old(error)
    {
      sent := Credentials(username, password);
      nav := None;
      match response {
        case Failure =>
          error := InvalidCredentials;
        case Success(token) =>
          storage.SetItem(TokenKey, token);
          var payload := decode(token);
          match payload {
            case None =>
              error := InvalidCredentials;
            case Some(claims) =>
              if claims.role == Some(AdminRole) {
                nav := Some(MerchantsPath);
              } else if claims.role == Some(MerchantRole) {
                nav := Some(TransactionsPath);
              }
          }
      }
    }
  }

  /**
   * Wherever a login navigates, the guard of that screen admits the session
   * the login has just stored.
   */
  lemma LandingIsAdmitted(items: map<string, string>, token: string, decode: JwtDecoder)
    requires token != ""
    requires !LoginFails(Success(token), decode)
    requires LandingRoute(decode(token).value.role).Some?
    ensures Visit(LandingRoute(decode(token).value.role).value,
                  StoredAfterLogin(items, Success(token)), decode).Shows?
  {
    var stored := StoredAfterLogin(items, Success(token));
    var role := decode(token).value.role;
    assert HasToken(stored);
    if role == Some(AdminRole) {
      AdminScenario(stored, decode);
    } else {
      MerchantScenario(stored, decode);
    }
  }

  /**
   * A token that decodes but carries a role the console does not know is
   * kept in storage, yet every guarded screen turns the session away.
   */
  lemma UnknownRoleIsStoredButUnauthorized(items: map<string, string>, token: string, decode: JwtDecoder, path: string)
    requires token != ""
    requires decode(token).Some? && LandingRoute(decode(token).value.role).None?
    requires path in {MerchantsPath, TransactionsPath}
    ensures StoredAfterLogin(items, Success(token))[TokenKey] == token
    ensures Visit(path, StoredAfterLogin(items, Success(token)), decode) == RedirectsTo(UnauthorizedPath)
  {
    assert HasToken(StoredAfterLogin(items, Success(token)));
  }
}
