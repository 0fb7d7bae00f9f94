/** `AccountService`: the account table and the operations the account
    controller and the login filter run on it. The table is Spring Data's
    `AccountRepository`: `findOne`, `findAll`, `save`, `delete`, `deleteAll`
    and the derived `findByAccountUsername`, whose null argument becomes an
    `IS NULL` condition and whose several matches throw. */
module Accounts {
  import opened Common
  import opened Tables
  import opened Records

  /** Rows whose username column equals `username` (both null counts as equal). */
  function UsernameIs(username: Option<string>): Row<AccountData> -> bool
  {
    (r: Row<AccountData>) => r.data.username == username
  }

  /** `findByAccountUsername(username)`. */
  function FindByUsername(rows: seq<Row<AccountData>>, username: Option<string>): (r: Lookup<Row<AccountData>>)
    ensures r == Absent <==> forall i :: 0 <= i < |rows| ==> rows[i].data.username != username
    ensures r.Unique? ==> r.value in rows && r.value.data.username == username
    ensures r.Unique? ==> forall i :: 0 <= i < |rows| && rows[i].data.username == username ==> rows[i] == r.value
    ensures r == Ambiguous <==>
      exists i, j :: 0 <= i < j < |rows| && rows[i].data.username == username && rows[j].data.username == username
  {
    var matches := Filter(rows, UsernameIs(username));
    FilterElements(rows, UsernameIs(username));
    FilterKeeps(rows, UsernameIs(username));
    FilterPair(rows, UsernameIs(username));
    if |matches| == 0 then
      assert forall i :: 0 <= i < |rows| ==> !UsernameIs(username)(rows[i]);
      Absent
    else
      assert UsernameIs(username)(matches[0]);
      if |matches| == 1 then
        forall i | 0 <= i < |rows| && rows[i].data.username == username ensures rows[i] == matches[0] {
          assert UsernameIs(username)(rows[i]);
          assert rows[i] in matches;
        }
        Unique(matches[0])
      else
        Ambiguous
  }

  /** A row that is the only one with its username is what the lookup finds. */
  lemma FindOnlyUsername(rows: seq<Row<AccountData>>, k: int)
    requires 0 <= k < |rows|
    requires forall i :: 0 <= i < |rows| && i != k ==> rows[i].data.username != rows[k].data.username
    ensures FindByUsername(rows, rows[k].data.username) == Unique(rows[k])
  {
  }

  class AccountService {
    var rows: seq<Row<AccountData>>
    var nextId: int

    ghost predicate Valid()
      reads this
    {
      Keyed(rows, nextId)
    }

    constructor (rows: seq<Row<AccountData>>, nextId: int)
      requires Keyed(rows, nextId)
      ensures this.rows == rows && this.nextId == nextId && Valid()
    {
      this.rows := rows;
      this.nextId := nextId;
    }

    /** `retrieveAllAccounts`: `findAll`. */
    function RetrieveAllAccounts(): seq<Row<AccountData>>
      reads this
    {
      rows
    }

    /** `deleteAllAccounts`: `deleteAll` empties the table. */
    method DeleteAllAccounts()
      requires Valid()
      modifies this`rows
      ensures Valid() && rows == []
    {
      rows := [];
    }

    /** `retrieveAccountById`: the stored account with that key, or null. */
    function RetrieveAccountById(id: int): (r: Option<AccountData>)
      requires Valid()
      reads this
      ensures r.Some? <==> HasId(rows, id)
      ensures r.Some? ==> Row(id, r.value) in rows
    {
      FindOne(rows, id)
    }

    /** `saveAccount`: the account, with the key its request body carried
        (if any), goes through `save`: a stored key is overwritten, any other
        is appended under a new key. */
    method SaveAccount(id: Option<int>, data: AccountData)
      requires Valid()
      modifies this
      ensures Valid()
      ensures var s := Save(old(rows), old(nextId), id, data); rows == s.rows && nextId == s.nextId
    {
      var s := Save(rows, nextId, id, data);
      rows, nextId := s.rows, s.nextId;
    }

    /** `updateAccount`: replaces every column of the account with key `id`
        and saves it under the same key; throws NullPointerException (and
        changes nothing) when there is no such account. */
    method UpdateAccount(id: int, update: AccountData) returns (r: Outcome)
      requires Valid()
      modifies this`rows
      ensures Valid()
      ensures var u := Updated(old(rows), nextId, id, update);
        (u.Failure? ==> r == Fail(u.error) && rows == old(rows))
        && (u.Success? ==> r == Pass && rows == u.value)
      ensures HasId(old(rows), id) ==>
        |rows| == |old(rows)|
        && forall i :: 0 <= i < |rows| ==>
             rows[i] == if old(rows)[i].id == id then Row(id, update) else old(rows)[i]
    {
      var account := FindOne(rows, id);
      if account.None? {
        return Fail(NullPointerException);
      }
      var s := Save(rows, nextId, Some(id), update);
      rows := s.rows;
      r := Pass;
    }

    /** `deleteAccount`: `delete(id)`, which throws when there is no such account. */
    method DeleteAccount(id: int) returns (r: Outcome)
      requires Valid()
      modifies this`rows
      ensures Valid()
      ensures HasId(old(rows), id) ==> r == Pass && rows == Delete(old(rows), id).value
      ensures !HasId(old(rows), id) ==> r == Fail(EmptyResultDataAccessException) && rows == old(rows)
    {
      var after := Delete(rows, id);
      if after.Failure? {
        return Fail(after.error);
      }
      FilterKeyed(rows, nextId, KeyIsNot(id));
      rows := after.value;
      r := Pass;
    }

    /** `checkUsername`: whether some account has that username; a username
        held by several accounts makes the single-result query throw. */
    function CheckUsername(username: Option<string>): (r: Result<bool>)
      reads this
      ensures r.Success? ==> (r.value <==> exists i :: 0 <= i < |rows| && rows[i].data.username == username)
      ensures r.Failure? <==>
        exists i, j :: 0 <= i < j < |rows| && rows[i].data.username == username && rows[j].data.username == username
      ensures r.Failure? ==> r.error == IncorrectResultSizeDataAccessException
    {
      match FindByUsername(rows, username)
      case Absent => Success(false)
      case Unique(_) => Success(true)
      case Ambiguous => Failure(IncorrectResultSizeDataAccessException)
    }

    /** `checkAccountExist`: whether an account has key `id`. */
    function CheckAccountExist(id: int): (r: bool)
      reads this
      ensures r <==> exists i :: 0 <= i < |rows| && rows[i].id == id
    {
      FindOne(rows, id).Some?
    }
  }
}
