// The two endpoints that write records: a quiz submission, and the
// onboarding status of a client keyed by user and plan.

module QuizSubmissions {
  import opened Wrappers
  import opened Text
  import opened PhaseStructure
  import opened Records
  import UsersLookup
  import Identity

  /** The request body; a field that is absent is `None`. */
  datatype Body = Body(
    full_name: Option<string>,
    email: Option<string>,
    phone_number: Option<string>,
    brand_name: Option<string>,
    logo_status: Option<string>,
    brand_goals: Option<seq<string>>,
    online_presence: Option<string>,
    audience: Option<seq<string>>,
    brand_style: Option<string>,
    timeline: Option<string>,
    preferred_kit: Option<string>)

  datatype Response = MissingFields | Created(submission: QuizSubmission)

  /** The response and the submissions stored afterwards, newest first. */
  datatype Outcome = Outcome(response: Response, store: seq<QuizSubmission>)

  /** All seven required fields are present and non-empty. */
  predicate HasRequired(b: Body) {
    && Truthy(b.email) && Truthy(b.full_name) && Truthy(b.brand_name) && Truthy(b.logo_status)
    && Truthy(b.online_presence) && Truthy(b.brand_style) && Truthy(b.timeline)
  }

  /** The stored kit: the input upper-cased and trimmed when that is LAUNCH or GROWTH, else null. */
  function StoredKit(k: Option<string>): (r: Option<string>)
    ensures r.Some? ==> UsersLookup.IsKit(r.value)
    ensures r.Some? <==> k.Some? && UsersLookup.IsKit(Trim(Upper(k.value)))
    ensures r.Some? ==> r.value == Trim(Upper(k.value))
  {
    if k.Some? && UsersLookup.IsKit(Trim(Upper(k.value))) then Some(Trim(Upper(k.value))) else None
  }

  /** A kit name already in stored form is stored as it is, so normalising twice changes nothing. */
  lemma StoredKitIdempotent(k: Option<string>)
    ensures StoredKit(StoredKit(k)) == StoredKit(k)
  {
    if StoredKit(k).Some? {
      var v := StoredKit(k).value;
      assert Upper(v) == v;
      assert TrimStart(v) == v;
      assert TrimEnd(v) == v;
    }
  }

  /**
   * POST: a body missing a required field stores nothing; otherwise the
   * submission is stored with the email normalised, the kit normalised or
   * dropped, no phone for an empty one, and empty lists for missing goals
   * and audience. The record id comes from the store and is a parameter.
   */
  function Post(b: Body, id: string, store: seq<QuizSubmission>): (r: Outcome)
    ensures r.response.MissingFields? <==> !HasRequired(b)
    ensures r.response.MissingFields? ==> r.store == store
    ensures r.response.Created? ==> (
      var s := r.response.submission;
      && r.store == [s] + store
      && s.id == id
      && s.email == NormalizeEmail(b.email.value)
      && s.fullName == b.full_name.value && s.brandName == b.brand_name.value
      && s.logoStatus == b.logo_status.value && s.onlinePresence == b.online_presence.value
      && s.brandStyle == b.brand_style.value && s.timeline == b.timeline.value
      && s.phoneNumber == OrNull(b.phone_number)
      && s.brandGoals == b.brand_goals.GetOr([])
      && s.audience == b.audience.GetOr([])
      && s.preferredKit == StoredKit(b.preferred_kit))
  {
    if !HasRequired(b) then Outcome(MissingFields, store)
    else
      var s := QuizSubmission(id, NormalizeEmail(b.email.value), b.full_name.value, OrNull(b.phone_number),
        b.brand_name.value, b.logo_status.value, b.brand_goals.GetOr([]), b.online_presence.value,
        b.audience.GetOr([]), b.brand_style.value, b.timeline.value, StoredKit(b.preferred_kit));
      Outcome(Created(s), [s] + store)
  }

  /**
   * Once a quiz is stored, signing in with the same email finds it as the
   * latest submission, and a kit chosen in the quiz becomes the kit of the
   * sign-in.
   */
  lemma PostThenLookup(b: Body, id: string, store: seq<QuizSubmission>, clients: seq<Client>,
                       userIdOf: string -> string)
    requires HasRequired(b)
    ensures var s := Post(b, id, store).response.submission;
      var res := UsersLookup.Lookup(UsersLookup.EmailText(b.email.value), Post(b, id, store).store, clients, userIdOf);
      && res.Found?
      && res.result.latest == s
      && (s.preferredKit.Some? ==> res.result.kit_type == s.preferredKit.value
                                   && res.result.kit_type in res.result.available_kit_types)
  {
    var s := Post(b, id, store).response.submission;
    var email := NormalizeEmail(b.email.value);
    var stored := Post(b, id, store).store;
    assert stored[0] == s && s.email == email;
    var mine := UsersLookup.SubmissionsFor(stored, email);
    assert mine != [] && mine[0] == s;
    if s.preferredKit.Some? {
      var who := Identity.Caller(email, userIdOf(email));
      UsersLookup.ResolvePreferred(mine, UsersLookup.OwnedClients(clients, who));
    }
  }
}

module UsersOnboarding {
  import opened Wrappers
  import opened Text
  import opened PhaseStructure
  import opened Records
  import Identity

  datatype StatusView = StatusView(email: string, onboarding_finished: bool, kit_type: string,
                                   onboarding_completed_at: Option<string>)

  datatype GetResponse = MissingEmail | NoClient | Status(view: StatusView)

  /**
   * GET: the first client owned by the normalised email or its user id, and
   * whether its onboarding is at 100 percent. `userIdOf` (the hash of the
   * email) is a parameter.
   */
  function Get(emailParam: Option<string>, clients: seq<Client>, userIdOf: string -> string): (r: GetResponse)
    ensures r.MissingEmail? <==> !Truthy(emailParam)
    ensures r.NoClient? <==> (Truthy(emailParam) &&
      var e := NormalizeEmail(emailParam.value);
      forall i :: 0 <= i < |clients| ==> !Identity.Owns(clients[i], Identity.Caller(e, userIdOf(e))))
    ensures r.Status? ==> (
      var e := NormalizeEmail(emailParam.value);
      exists i :: Identity.FirstOwned(clients, Identity.Caller(e, userIdOf(e)), i)
        && r.view == StatusView(clients[i].email, Finished(clients[i]), clients[i].plan,
                                OrNull(clients[i].onboardingCompletedAt)))
  {
    if !Truthy(emailParam) then MissingEmail
    else
      var e := NormalizeEmail(emailParam.value);
      match Identity.FindClient(clients, Identity.Caller(e, userIdOf(e)))
      case None => NoClient
      case Some(c) => Status(StatusView(c.email, Finished(c), c.plan, OrNull(c.onboardingCompletedAt)))
  }

  /** The client table's unique key: user id and plan. */
  datatype ClientKey = ClientKey(userId: string, plan: string)

  type ClientTable = map<ClientKey, Client>

  /** Every row is stored under its own user id and plan. */
  predicate Keyed(t: ClientTable) {
    forall k :: k in t ==> t[k].userId == k.userId && t[k].plan == k.plan
  }

  datatype PostBody = PostBody(email: Option<string>, onboarding_finished: bool, kit_type: Option<string>)

  datatype PostResponse = PostMissingEmail | Saved(email: string, onboarding_finished: bool, kit_type: string)

  datatype PostOutcome = PostOutcome(response: PostResponse, table: ClientTable)

  /** The percent written: 100 for a finished onboarding, else 0. */
  function WrittenPercent(finished: bool): int {
    if finished then 100 else 0
  }

  /**
   * POST: the row for the email's user id and the kit (LAUNCH when none is
   * given) gets the percent; a missing row is created with the normalised
   * email. `onboarding_finished` is the truthiness of the body's flag, and
   * the new row's id and the user-id hash are parameters.
   */
  function Post(b: PostBody, t: ClientTable, userIdOf: string -> string, newId: string): (r: PostOutcome)
    ensures r.response.PostMissingEmail? <==> !Truthy(b.email)
    ensures r.response.PostMissingEmail? ==> r.table == t
    ensures r.response.Saved? ==> (
      var e := NormalizeEmail(b.email.value);
      var key := ClientKey(userIdOf(e), OrElse(b.kit_type, LAUNCH));
      && key in r.table
      && r.table.Keys == t.Keys + {key}
      && (forall k :: k in t && k != key ==> r.table[k] == t[k])
      && r.table[key].onboardingPercent == WrittenPercent(b.onboarding_finished)
      && (key in t ==> r.table[key] == t[key].(onboardingPercent := WrittenPercent(b.onboarding_finished)))
      && (key !in t ==> r.table[key].email == e && r.table[key].userId == key.userId
                        && r.table[key].plan == key.plan && r.table[key].id == newId)
      && r.response == Saved(r.table[key].email, b.onboarding_finished, r.table[key].plan))
  {
    if !Truthy(b.email) then PostOutcome(PostMissingEmail, t)
    else
      var e := NormalizeEmail(b.email.value);
      var key := ClientKey(userIdOf(e), OrElse(b.kit_type, LAUNCH));
      var percent := WrittenPercent(b.onboarding_finished);
      var row := if key in t then t[key].(onboardingPercent := percent)
                 else Client(newId, key.userId, e, None, key.plan, percent, None, None, None, None, []);
      PostOutcome(Saved(row.email, Finished(row), row.plan), t[key := row])
  }

  /** The upsert keeps every row under its own key. */
  lemma PostKeepsKeyed(b: PostBody, t: ClientTable, userIdOf: string -> string, newId: string)
    requires Keyed(t)
    ensures Keyed(Post(b, t, userIdOf, newId).table)
  {
  }

  /** Repeating the same request changes nothing further. */
  lemma PostIdempotent(b: PostBody, t: ClientTable, userIdOf: string -> string, newId: string, otherId: string)
    ensures var once := Post(b, t, userIdOf, newId);
      Post(b, once.table, userIdOf, otherId) == once
  {
    var once := Post(b, t, userIdOf, newId);
    if Truthy(b.email) {
      var e := NormalizeEmail(b.email.value);
      var key := ClientKey(userIdOf(e), OrElse(b.kit_type, LAUNCH));
      assert once.table[key].(onboardingPercent := WrittenPercent(b.onboarding_finished)) == once.table[key];
      assert once.table[key := once.table[key]] == once.table;
    }
  }

  /** After a POST, the row stored under the caller's key is finished exactly as the request said. */
  lemma PostThenFinished(b: PostBody, t: ClientTable, userIdOf: string -> string, newId: string)
    requires Truthy(b.email)
    ensures var e := NormalizeEmail(b.email.value);
      var row := Post(b, t, userIdOf, newId).table[ClientKey(userIdOf(e), OrElse(b.kit_type, LAUNCH))];
      Finished(row) == b.onboarding_finished
  {
  }
}
