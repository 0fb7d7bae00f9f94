/** The principal the cart and order services' request filters place in the
    security context: an immutable `Authentication` built from a verified
    token, holding the username, the account id and one authority. */
module CartAuth {
  import opened Common

  datatype CartProfile = CartProfile(username: string, id: Option<int>, authority: string)
  {
    /** Always the one authority given at construction. */
    function GetAuthorities(): seq<string> { [authority] }

    function GetCredentials(): Option<string> { None }

    /** The account id given at construction. */
    function GetDetails(): Option<int> { id }

    function GetPrincipal(): Option<string> { None }

    function IsAuthenticated(): bool { true }

    /** A no-op: the profile is immutable and stays authenticated. */
    function SetAuthenticated(isAuthenticated: bool): CartProfile { this }

    function GetName(): string { username }
  }

  /** What a profile reports is exactly what it was built from, whatever is
      done to it with `setAuthenticated`. */
  lemma ProfileReportsConstruction(username: string, id: Option<int>, authority: string, flag: bool)
    ensures var p := CartProfile(username, id, authority).SetAuthenticated(flag);
      p.GetName() == username && p.GetDetails() == id && p.GetAuthorities() == [authority]
      && p.GetCredentials() == None && p.GetPrincipal() == None && p.IsAuthenticated()
  {
  }
}
