/** Login: `LoginUserDetailsService` turns the account with the requested
    username into Spring Security's `UserDetails`, and `LoginFilter` checks
    the submitted credentials against it and, on success, answers with an
    Authorization header carrying a token signed with the shared key. */
module AccountLogin {
  import opened Common
  import opened Tables
  import opened Records
  import opened Tokens
  import opened Http
  import opened Accounts
  import opened AccountAuth

  /** Spring Security's `User`: username, password and authority names. */
  datatype UserDetails = UserDetails(username: string, password: string, authorities: seq<string>)

  /** The JSON body of a login request; either field may be missing. */
  datatype Credentials = Credentials(username: Option<string>, password: Option<string>)

  /** `UsernamePasswordAuthenticationToken(principal, credentials, authorities)`
      as the login filter builds it: the username, the account id and the
      authority names. */
  datatype LoginToken = LoginToken(principal: string, credentials: int, authorities: seq<string>)
  {
    function GetName(): string { principal }

    function GetCredentials(): int { credentials }
  }

  /** The message of the IllegalArgumentException `User`'s constructor throws. */
  const USER_ARGUMENTS: string := "Cannot pass null or empty values to constructor"

  const PROVIDE_CREDENTIALS: string := "Please provide username and password."
  const USERNAME_NOT_FOUND: string := "Account username was not found."
  const INVALID_LOGIN: string := "Invalid login: please check username and password provided."

  /** `loadUserByUsername`: null when no account has the username; otherwise
      a user with the requested username, the stored password and the single
      authority ROLE_ADMIN for "admin", ROLE_USER for everyone else. Several
      accounts with the username make the lookup throw; `User` refuses an
      empty username or a null password. */
  function LoadUserByUsername(rows: seq<Row<AccountData>>, username: Option<string>): (r: Result<Option<UserDetails>>)
    ensures r == Success(None) <==> forall i :: 0 <= i < |rows| ==> rows[i].data.username != username
    ensures r.Success? && r.value.Some? ==>
      username.Some? && r.value.value.username == username.value
      && r.value.value.authorities == [RoleFor(username.value)]
      && exists i :: 0 <= i < |rows| && rows[i].data.username == username
                     && rows[i].data.password == Some(r.value.value.password)
  {
    match FindByUsername(rows, username)
    case Ambiguous => Failure(IncorrectResultSizeDataAccessException)
    case Absent => Success(None)
    case Unique(account) =>
      if username.None? then Failure(NullPointerException)
      else
        var auth := if username.value == "admin" then ["ROLE_ADMIN"] else ["ROLE_USER"];
        var password := account.data.password;
        if username.value == "" || password.None? then Failure(IllegalArgumentException(USER_ARGUMENTS))
        else Success(Some(UserDetails(username.value, password.value, auth)))
  }

  /** `getAccountId`: the key of the account with that username; with no
      such account the null lookup is dereferenced. */
  function GetAccountId(rows: seq<Row<AccountData>>, username: string): (r: Result<int>)
    ensures r == Failure(NullPointerException) <==> forall i :: 0 <= i < |rows| ==> rows[i].data.username != Some(username)
    ensures r.Success? ==> exists i :: 0 <= i < |rows| && rows[i].id == r.value && rows[i].data.username == Some(username)
  {
    match FindByUsername(rows, Some(username))
    case Absent => Failure(NullPointerException)
    case Unique(account) => Success(account.id)
    case Ambiguous => Failure(IncorrectResultSizeDataAccessException)
  }

  /** `attemptAuthentication`: the decision chain of a login request. */
  function AttemptAuthentication(rows: seq<Row<AccountData>>, creds: Credentials): (r: Result<LoginToken>)
    ensures creds.username.None? || creds.password.None? ==> r == Failure(ServletException(PROVIDE_CREDENTIALS))
    ensures creds.username.Some? && creds.password.Some?
            && (forall i :: 0 <= i < |rows| ==> rows[i].data.username != creds.username) ==>
      r == Failure(ServletException(USERNAME_NOT_FOUND))
  {
    if creds.username.None? || creds.password.None? then Failure(ServletException(PROVIDE_CREDENTIALS))
    else match LoadUserByUsername(rows, creds.username)
      case Failure(e) => Failure(e)
      case Success(None) => Failure(ServletException(USERNAME_NOT_FOUND))
      case Success(Some(account)) =>
        match GetAccountId(rows, creds.username.value)
        case Failure(e) => Failure(e)
        case Success(id) =>
          if creds.username.value == account.username && creds.password.value == account.password then
            Success(LoginToken(account.username, id, account.authorities))
          else Failure(ServletException(INVALID_LOGIN))
  }

  /** A login succeeds exactly when one account holds the (non-empty)
      username and its stored password is the submitted one; the result then
      carries that username, that account's key and the username's role. */
  lemma LoginSucceedsExactly(rows: seq<Row<AccountData>>, username: string, password: string)
    ensures var r := AttemptAuthentication(rows, Credentials(Some(username), Some(password)));
      r.Success? <==>
        username != ""
        && exists k :: 0 <= k < |rows| && rows[k].data.username == Some(username)
                       && rows[k].data.password == Some(password)
                       && forall i :: 0 <= i < |rows| && i != k ==> rows[i].data.username != Some(username)
    ensures var r := AttemptAuthentication(rows, Credentials(Some(username), Some(password)));
      forall k :: 0 <= k < |rows| && rows[k].data.username == Some(username) && r.Success? ==>
        r.value == LoginToken(username, rows[k].id, [RoleFor(username)])
  {
    var r := AttemptAuthentication(rows, Credentials(Some(username), Some(password)));
    var found := FindByUsername(rows, Some(username));
    if r.Success? {
      assert found.Unique?;
      var k :| 0 <= k < |rows| && rows[k] == found.value;
      assert forall i :: 0 <= i < |rows| && i != k ==> rows[i].data.username != Some(username);
    }
    if username != "" && (exists k :: 0 <= k < |rows| && rows[k].data.username == Some(username)
                           && rows[k].data.password == Some(password)
                           && forall i :: 0 <= i < |rows| && i != k ==> rows[i].data.username != Some(username)) {
      var k :| 0 <= k < |rows| && rows[k].data.username == Some(username)
               && rows[k].data.password == Some(password)
               && forall i :: 0 <= i < |rows| && i != k ==> rows[i].data.username != Some(username);
      FindOnlyUsername(rows, k);
    }
  }

  /** A known username with a different stored password is refused with the
      invalid-login message. */
  lemma WrongPasswordRejected(rows: seq<Row<AccountData>>, k: int, password: string)
    requires 0 <= k < |rows| && rows[k].data.username.Some? && rows[k].data.username.value != ""
    requires forall i :: 0 <= i < |rows| && i != k ==> rows[i].data.username != rows[k].data.username
    requires rows[k].data.password.Some? && rows[k].data.password != Some(password)
    ensures AttemptAuthentication(rows, Credentials(rows[k].data.username, Some(password)))
            == Failure(ServletException(INVALID_LOGIN))
  {
    FindOnlyUsername(rows, k);
  }

  /** The Authorization header `successfulAuthentication` adds: "Bearer " and
      a token whose subject is the principal's name and whose `id` claim is
      the credentials (the account key), signed with the shared key. No
      expiry is set. */
  function IssuedHeader(mac: Mac, authentication: LoginToken): string
  {
    BEARER + Sign(mac, SECRET, Claims(Some(authentication.GetName()), Some(authentication.GetCredentials())))
  }

  /** `successfulAuthentication`: adds the issued Authorization header to the response. */
  method SuccessfulAuthentication(mac: Mac, response: ServletResponse, authentication: LoginToken)
    modifies response
    ensures response.headers == old(response.headers) + [("Authorization", IssuedHeader(mac, authentication))]
  {
    var jwt := Sign(mac, SECRET, Claims(Some(authentication.GetName()), Some(authentication.GetCredentials())));
    response.AddHeader("Authorization", BEARER + jwt);
  }

  /** The header issued at login is accepted by the request filter, which
      grants the same single role the login computed; and its token carries
      the account's key, for the services that read the `id` claim. */
  lemma IssuedHeaderAuthenticates(mac: Mac, rows: seq<Row<AccountData>>, creds: Credentials)
    requires AttemptAuthentication(rows, creds).Success?
    ensures var t := AttemptAuthentication(rows, creds).value;
      Authenticate(mac, IssuedHeader(mac, t)) == Success(AccountProfile(t.principal, RoleFor(t.principal)))
      && t.authorities == AccountProfile(t.principal, RoleFor(t.principal)).GetAuthorities()
      && Verify(mac, SECRET, Sign(mac, SECRET, Claims(Some(t.principal), Some(t.credentials))))
         == Success(Claims(Some(t.principal), Some(t.credentials)))
  {
    var t := AttemptAuthentication(rows, creds).value;
    SignedHeaderAuthenticates(mac, t.principal, Some(t.credentials));
    VerifySign(mac, SECRET, Claims(Some(t.principal), Some(t.credentials)));
  }
}
