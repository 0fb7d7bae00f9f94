/** The account service's request filter and the principal it places in the
    security context. A request that carries an Authorization header must
    carry a token signed with the shared key: its subject becomes the
    principal's name, with authority ROLE_ADMIN for the subject "admin" and
    ROLE_USER for every other subject. A request without the header passes
    through unauthenticated. */
module AccountAuth {
  import opened Common
  import opened JavaText
  import opened Tokens
  import opened Http

  /** An immutable `Authentication` holding a username and one authority. */
  datatype AccountProfile = AccountProfile(username: string, authority: string)
  {
    /** Always the one authority given at construction. */
    function GetAuthorities(): seq<string> { [authority] }

    function GetCredentials(): Option<string> { None }

    function GetDetails(): Option<int> { None }

    function GetPrincipal(): Option<string> { None }

    function IsAuthenticated(): bool { true }

    /** A no-op: the profile is immutable and stays authenticated. */
    function SetAuthenticated(isAuthenticated: bool): AccountProfile { this }

    function GetName(): string { username }
  }

  /** The prefix of the Authorization header, removed wherever it occurs. */
  const BEARER: string := "Bearer "

  /** The authority granted to a verified subject. */
  function RoleFor(subject: string): (role: string)
    ensures role == "ROLE_ADMIN" <==> subject == "admin"
    ensures role == "ROLE_ADMIN" || role == "ROLE_USER"
  {
    if subject == "admin" then "ROLE_ADMIN" else "ROLE_USER"
  }

  /** The profile built from an Authorization header: every "Bearer " is
      removed, the rest is verified with the shared key (a malformed or
      forged token throws), and a token without a subject throws
      NullPointerException when its subject is compared with "admin". */
  function Authenticate(mac: Mac, authorization: string): Result<AccountProfile>
  {
    match Verify(mac, SECRET, RemoveAll(authorization, BEARER))
    case Failure(e) => Failure(e)
    case Success(claims) =>
      if claims.subject.None? then Failure(NullPointerException)
      else Success(AccountProfile(claims.subject.value, RoleFor(claims.subject.value)))
  }

  /** `doFilter`: with no Authorization header the request goes on with the
      context untouched; with one, either the request fails with the
      verification's exception (the chain is not called and the context is
      unchanged) or the context receives the profile and the request goes on. */
  method DoFilter(mac: Mac, authorization: Option<string>, context: SecurityContext<AccountProfile>, chain: FilterChain)
    returns (r: Outcome)
    modifies context, chain
    ensures authorization.None? ==>
      r == Pass && context.authentication == old(context.authentication)
      && chain.invocations == old(chain.invocations) + 1
    ensures authorization.Some? ==>
      match Authenticate(mac, authorization.value)
      case Failure(e) =>
        r == Fail(e) && context.authentication == old(context.authentication)
        && chain.invocations == old(chain.invocations)
      case Success(profile) =>
        r == Pass && context.authentication == Some(profile)
        && chain.invocations == old(chain.invocations) + 1
  {
    if authorization.Some? {
      var s := authorization.value;
      var claims := Verify(mac, SECRET, RemoveAll(s, BEARER));
      if claims.Failure? {
        return Fail(claims.error);
      }
      var username := claims.value.subject;
      if username.None? {
        return Fail(NullPointerException);
      }
      if username.value == "admin" {
        context.SetAuthentication(Some(AccountProfile(username.value, "ROLE_ADMIN")));
      } else {
        context.SetAuthentication(Some(AccountProfile(username.value, "ROLE_USER")));
      }
    }
    chain.DoFilter();
    r := Pass;
  }

  /** The header the login filter issues ("Bearer " and a token signed with
      the shared key) authenticates as its subject, with the subject's role. */
  lemma SignedHeaderAuthenticates(mac: Mac, username: string, id: Option<int>)
    ensures Authenticate(mac, BEARER + Sign(mac, SECRET, Claims(Some(username), id)))
            == Success(AccountProfile(username, RoleFor(username)))
  {
    var c := Claims(Some(username), id);
    var token := Sign(mac, SECRET, c);
    RemoveAllPrefix(BEARER, token);
    TokenHasNoSpace(c, mac(SECRET, HEADER + "." + Payload(c)));
    RemoveAllAbsent(token, BEARER, ' ');
    VerifySign(mac, SECRET, c);
  }

  /** A header whose token was not signed with the shared key is rejected,
      and the context then keeps whatever it held. */
  lemma ForgedHeaderRejected(mac: Mac, c: Claims, signature: string)
    requires signature != mac(SECRET, HEADER + "." + Payload(c))
    ensures Authenticate(mac, BEARER + Join([HEADER, Payload(c), Field(Some(signature))], "."))
            == Failure(SignatureException)
  {
    var token := Join([HEADER, Payload(c), Field(Some(signature))], ".");
    RemoveAllPrefix(BEARER, token);
    TokenHasNoSpace(c, signature);
    RemoveAllAbsent(token, BEARER, ' ');
    ForgedSignatureRejected(mac, SECRET, c, signature);
  }

  /** A validly signed token without a subject fails with NullPointerException. */
  lemma SubjectlessHeaderFails(mac: Mac, id: Option<int>)
    ensures Authenticate(mac, BEARER + Sign(mac, SECRET, Claims(None, id))) == Failure(NullPointerException)
  {
    var c := Claims(None, id);
    var token := Sign(mac, SECRET, c);
    RemoveAllPrefix(BEARER, token);
    TokenHasNoSpace(c, mac(SECRET, HEADER + "." + Payload(c)));
    RemoveAllAbsent(token, BEARER, ' ');
    VerifySign(mac, SECRET, c);
  }

  /** The role is decided by the subject alone: the `id` claim is not consulted. */
  lemma RoleIgnoresId(mac: Mac, username: string, id1: Option<int>, id2: Option<int>)
    ensures Authenticate(mac, BEARER + Sign(mac, SECRET, Claims(Some(username), id1)))
            == Authenticate(mac, BEARER + Sign(mac, SECRET, Claims(Some(username), id2)))
  {
    SignedHeaderAuthenticates(mac, username, id1);
    SignedHeaderAuthenticates(mac, username, id2);
  }

  /** What a profile reports is exactly what it was built from. */
  lemma ProfileReportsConstruction(username: string, authority: string, flag: bool)
    ensures var p := AccountProfile(username, authority).SetAuthenticated(flag);
      p.GetName() == username && p.GetAuthorities() == [authority] && p.GetDetails() == None
      && p.GetCredentials() == None && p.GetPrincipal() == None && p.IsAuthenticated()
  {
  }
}
