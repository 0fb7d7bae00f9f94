/** `AccountController`: the `/accounts` routes. Listing, creating and
    removing all accounts map an empty table or a taken username to a
    status; reading, editing and removing one account answer 404 for an
    unknown key before any authorisation, and otherwise let through only the
    account's owner or an administrator, answering 403 to anyone else. */
module AccountWeb {
  import opened Common
  import opened JavaText
  import opened Tables
  import opened Records
  import opened Http
  import opened Accounts
  import opened AccountAuth

  const NO_ACCOUNTS: string := "NO CONTENT: there is no account stored."
  const ALL_REMOVED: string := "OK: all accounts have been removed."
  const USERNAME_TAKEN: string := "An account already exists for the provided username."
  const CREATED: string := "Account was successfully created."
  const UNKNOWN_ACCOUNT: string := "Account details requested do not exist"
  const FORBIDDEN: string := "Your account does not have permission to access to the requested details."
  const UPDATED: string := "Account has been updated successfully."
  const REMOVED: string := "OK: your account has been removed."

  /** `getAuthorities().toString()`: Java's rendering of a collection. */
  function AuthoritiesText(authorities: seq<string>): string
  {
    "[" + Join(authorities, ", ") + "]"
  }

  /** The owner-or-admin rule as the handlers write it: the stored username
      equals the principal's name, or the rendered authorities contain
      "ROLE_ADMIN". A stored null username is dereferenced. */
  function MayAccess(accountUsername: Option<string>, principal: AccountProfile): (r: Result<bool>)
    ensures r.Failure? <==> accountUsername.None?
  {
    match accountUsername
    case None => Failure(NullPointerException)
    case Some(u) =>
      Success(u == principal.GetName() || Contains(AuthoritiesText(principal.GetAuthorities()), "ROLE_ADMIN"))
  }

  /** The decision for the principal in the security context (null there is dereferenced too). */
  function Permit(account: AccountData, authentication: Option<AccountProfile>): (r: Result<bool>)
    ensures r.Failure? <==> authentication.None? || account.username.None?
  {
    match authentication
    case None => Failure(NullPointerException)
    case Some(principal) => MayAccess(account.username, principal)
  }

  /** A profile as the request filter builds it: its authority is the role of its subject. */
  predicate FromFilter(principal: AccountProfile)
  {
    principal.authority == RoleFor(principal.username)
  }

  /** For the profiles the request filter builds, the textual rule is exactly
      "the owner, or the administrator": "[ROLE_USER]" does not contain
      "ROLE_ADMIN" and "[ROLE_ADMIN]" does. */
  lemma OwnerOrAdmin(accountUsername: string, principal: AccountProfile)
    requires FromFilter(principal)
    ensures MayAccess(Some(accountUsername), principal)
            == Success(accountUsername == principal.username || principal.username == "admin")
  {
    var text := AuthoritiesText(principal.GetAuthorities());
    if principal.username == "admin" {
      assert text == "[ROLE_ADMIN]";
      assert OccursAt(text, "ROLE_ADMIN", 1);
    } else {
      assert text == "[ROLE_USER]";
      forall j | 0 <= j <= |text| - 10 ensures !OccursAt(text, "ROLE_ADMIN", j) {
        assert text[j..j + 10][6] != "ROLE_ADMIN"[6];
      }
    }
  }

  class AccountController {
    const service: AccountService
    const context: SecurityContext<AccountProfile>

    ghost predicate Valid()
      reads this, service
    {
      service.Valid()
    }

    constructor (service: AccountService, context: SecurityContext<AccountProfile>)
      requires service.Valid()
      ensures this.service == service && this.context == context && Valid()
    {
      this.service := service;
      this.context := context;
    }

    /** `GET /accounts`: 204 without a body for an empty table, otherwise 200 with every account. */
    function GetAllAccounts(): (r: Response<seq<Row<AccountData>>>)
      reads this, service
      ensures r.status == NoContent <==> |service.rows| == 0
      ensures r.status == NoContent ==> r.body == NoBody
      ensures r.status != NoContent ==> r == Response(Ok, Content(service.rows))
    {
      var accounts := service.RetrieveAllAccounts();
      if |accounts| == 0 then Response(NoContent, NoBody) else Response(Ok, Content(accounts))
    }

    /** `DELETE /accounts`: on an empty table only a message; otherwise every account is removed. */
    method RemoveAllAccounts() returns (r: Response<()>)
      requires Valid()
      modifies service`rows
      ensures Valid()
      ensures |old(service.rows)| == 0 ==> r == Response(Ok, Text(NO_ACCOUNTS)) && service.rows == old(service.rows)
      ensures |old(service.rows)| > 0 ==> r == Response(Ok, Text(ALL_REMOVED)) && service.rows == []
    {
      var accounts := service.RetrieveAllAccounts();
      if |accounts| == 0 {
        return Response(Ok, Text(NO_ACCOUNTS));
      }
      service.DeleteAllAccounts();
      r := Response(Ok, Text(ALL_REMOVED));
    }

    /** `POST /accounts`: 409 and nothing saved when an account already has the
        username; otherwise the account is saved and the answer is 201. */
    method AddAccount(id: Option<int>, account: AccountData) returns (r: Result<Response<()>>)
      requires Valid()
      modifies service
      ensures Valid()
      ensures var taken := old(service.CheckUsername(account.username));
        (taken.Failure? ==>
           r == Failure(taken.error)
           && service.rows == old(service.rows) && service.nextId == old(service.nextId))
        && (taken == Success(true) ==>
              r == Success(Response(Conflict, Text(USERNAME_TAKEN)))
              && service.rows == old(service.rows) && service.nextId == old(service.nextId))
        && (taken == Success(false) ==>
              var s := Save(old(service.rows), old(service.nextId), id, account);
              r == Success(Response(Created, Text(CREATED)))
              && service.rows == s.rows && service.nextId == s.nextId)
    {
      var taken := service.CheckUsername(account.username);
      if taken.Failure? {
        return Failure(taken.error);
      }
      if taken.value {
        return Success(Response(Conflict, Text(USERNAME_TAKEN)));
      }
      service.SaveAccount(id, account);
      r := Success(Response(Created, Text(CREATED)));
    }

    /** `GET /accounts/id={id}`: 404 for an unknown key, whoever asks;
        otherwise the account to its owner or an administrator, 403 to
        anyone else. */
    function GetAccountById(id: int): (r: Result<Response<AccountData>>)
      requires Valid()
      reads this, service, context
      ensures !HasId(service.rows, id) ==> r == Success(Response(NotFound, Text(UNKNOWN_ACCOUNT)))
      ensures HasId(service.rows, id) ==>
        var account := FindOne(service.rows, id).value;
        match Permit(account, context.authentication)
        case Failure(e) => r == Failure(e)
        case Success(true) => r == Success(Response(Ok, Content(account)))
        case Success(false) => r == Success(Response(Forbidden, Text(FORBIDDEN)))
      ensures HasId(service.rows, id) && r.Success? ==> Row(id, FindOne(service.rows, id).value) in service.rows
    {
      if !service.CheckAccountExist(id) then Success(Response(NotFound, Text(UNKNOWN_ACCOUNT)))
      else
        var account := service.RetrieveAccountById(id).value;
        match Permit(account, context.authentication)
        case Failure(e) => Failure(e)
        case Success(allowed) =>
          if allowed then Success(Response(Ok, Content(account)))
          else Success(Response(Forbidden, Text(FORBIDDEN)))
    }

    /** `PUT /accounts/id={id}`: 404 for an unknown key; then 409 when any
        account, the edited one included, already has the new username; then
        the update for the owner or an administrator, 403 for anyone else.
        Only the authorised path changes the table. */
    method EditAccount(id: int, update: AccountData) returns (r: Result<Response<()>>)
      requires Valid()
      modifies service`rows
      ensures Valid()
      ensures !HasId(old(service.rows), id) ==>
        r == Success(Response(NotFound, Text(UNKNOWN_ACCOUNT + "."))) && service.rows == old(service.rows)
      ensures HasId(old(service.rows), id) ==>
        var taken := old(service.CheckUsername(update.username));
        var permit := Permit(FindOne(old(service.rows), id).value, context.authentication);
        (taken.Failure? ==> r == Failure(taken.error) && service.rows == old(service.rows))
        && (taken == Success(true) ==>
              r == Success(Response(Conflict, Text(USERNAME_TAKEN))) && service.rows == old(service.rows))
        && (taken == Success(false) && permit.Failure? ==>
              r == Failure(permit.error) && service.rows == old(service.rows))
        && (taken == Success(false) && permit == Success(false) ==>
              r == Success(Response(Forbidden, Text(FORBIDDEN))) && service.rows == old(service.rows))
        && (taken == Success(false) && permit == Success(true) ==>
              r == Success(Response(Ok, Text(UPDATED)))
              && service.rows == Updated(old(service.rows), service.nextId, id, update).value)
    {
      if !service.CheckAccountExist(id) {
        return Success(Response(NotFound, Text(UNKNOWN_ACCOUNT + ".")));
      }
      var taken := service.CheckUsername(update.username);
      if taken.Failure? {
        return Failure(taken.error);
      }
      if taken.value {
        return Success(Response(Conflict, Text(USERNAME_TAKEN)));
      }
      var account := service.RetrieveAccountById(id).value;
      var permit := Permit(account, context.authentication);
      if permit.Failure? {
        return Failure(permit.error);
      }
      if permit.value {
        var updated := service.UpdateAccount(id, update);
        return Success(Response(Ok, Text(UPDATED)));
      }
      r := Success(Response(Forbidden, Text(FORBIDDEN)));
    }

    /** `DELETE /accounts/id={id}`: 404 for an unknown key; otherwise the
        owner or an administrator removes the account, and anyone else gets
        403 with nothing deleted. */
    method RemoveAccount(id: int) returns (r: Result<Response<()>>)
      requires Valid()
      modifies service`rows
      ensures Valid()
      ensures !HasId(old(service.rows), id) ==>
        r == Success(Response(NotFound, Text(UNKNOWN_ACCOUNT))) && service.rows == old(service.rows)
      ensures HasId(old(service.rows), id) ==>
        match Permit(FindOne(old(service.rows), id).value, context.authentication)
        case Failure(e) => r == Failure(e) && service.rows == old(service.rows)
        case Success(false) => r == Success(Response(Forbidden, Text(FORBIDDEN))) && service.rows == old(service.rows)
        case Success(true) =>
          r == Success(Response(Ok, Text(REMOVED))) && service.rows == Delete(old(service.rows), id).value
    {
      if !service.CheckAccountExist(id) {
        return Success(Response(NotFound, Text(UNKNOWN_ACCOUNT)));
      }
      var account := service.RetrieveAccountById(id).value;
      var permit := Permit(account, context.authentication);
      if permit.Failure? {
        return Failure(permit.error);
      }
      if permit.value {
        var deleted := service.DeleteAccount(id);
        return Success(Response(Ok, Text(REMOVED)));
      }
      r := Success(Response(Forbidden, Text(FORBIDDEN)));
    }
  }

  /** Through a filter-built principal, reading an existing account with a
      username succeeds exactly for its owner and for the administrator. */
  lemma ReadAllowedExactly(controller: AccountController, id: int)
    requires controller.Valid() && HasId(controller.service.rows, id)
    requires controller.context.authentication.Some? && FromFilter(controller.context.authentication.value)
    requires FindOne(controller.service.rows, id).value.username.Some?
    ensures var name := controller.context.authentication.value.username;
      controller.GetAccountById(id).Success?
      && (controller.GetAccountById(id).value.status == Ok <==>
            FindOne(controller.service.rows, id).value.username == Some(name) || name == "admin")
      && (controller.GetAccountById(id).value.status != Ok ==> controller.GetAccountById(id).value.status == Forbidden)
  {
    OwnerOrAdmin(FindOne(controller.service.rows, id).value.username.value, controller.context.authentication.value);
  }
}
