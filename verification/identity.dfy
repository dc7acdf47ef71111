// Who is asking: the signed-in user, or else the `email` query parameter;
// and which client project belongs to them.

module Identity {
  import opened Wrappers
  import opened Text
  import opened Records

  /** The user the request headers carry. */
  datatype HeaderUser = HeaderUser(email: string, userId: string)

  datatype Caller = Caller(email: string, userId: string)

  /**
   * The header user wins; otherwise a non-empty `email` parameter is
   * normalised and hashed into a user id (`userIdOf`, the hash of the email,
   * is a parameter). Without both an email and a user id there is no caller.
   */
  function ResolveCaller(header: Option<HeaderUser>, emailParam: Option<string>, userIdOf: string -> string): (r: Option<Caller>)
    ensures r.Some? ==> r.value.email != "" && r.value.userId != ""
    ensures header.Some? ==>
      (r.Some? <==> header.value.email != "" && header.value.userId != "")
      && (r.Some? ==> r.value == Caller(header.value.email, header.value.userId))
    ensures header.None? && !Truthy(emailParam) ==> r.None?
    ensures header.None? && Truthy(emailParam) ==>
      var e := NormalizeEmail(emailParam.value);
      && (r.Some? <==> e != "" && userIdOf(e) != "")
      && (r.Some? ==> r.value == Caller(e, userIdOf(e)))
  {
    var (email, userId) :=
      if header.Some? then (header.value.email, header.value.userId)
      else if Truthy(emailParam) then (NormalizeEmail(emailParam.value), userIdOf(NormalizeEmail(emailParam.value)))
      else ("", "");
    if email == "" || userId == "" then None else Some(Caller(email, userId))
  }

  predicate Owns(c: Client, who: Caller) {
    c.userId == who.userId || c.email == who.email
  }

  /** `i` is the position of the first client owned by `who`. */
  predicate FirstOwned(clients: seq<Client>, who: Caller, i: int) {
    0 <= i < |clients| && Owns(clients[i], who) && forall j :: 0 <= j < i ==> !Owns(clients[j], who)
  }

  /** The first client whose user id or email matches. */
  function FindClient(clients: seq<Client>, who: Caller): (r: Option<Client>)
    ensures r.None? <==> forall i :: 0 <= i < |clients| ==> !Owns(clients[i], who)
    ensures r.Some? ==> exists i :: FirstOwned(clients, who, i) && clients[i] == r.value
  {
    if clients == [] then None
    else if Owns(clients[0], who) then
      assert FirstOwned(clients, who, 0);
      Some(clients[0])
    else
      var r := FindClient(clients[1..], who);
      if r.Some? then
        var i :| FirstOwned(clients[1..], who, i) && clients[1..][i] == r.value;
        assert FirstOwned(clients, who, i + 1);
        r
      else r
  }
}
