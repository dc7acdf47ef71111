// Signing in by email: the lookup endpoint that decides whether the email
// may sign in and which kits it has, and the login form's state machine
// that consumes the lookup and writes the browser session.

module UsersLookup {
  import opened Wrappers
  import opened Text
  import opened PhaseStructure
  import opened Records
  import Identity
  import ListOps

  /** The `email` of the request body: absent, not a string, or a string. */
  datatype EmailField = EmailMissing | EmailNotString | EmailText(text: string)

  datatype LookupResult = LookupResult(
    name: string,
    kit_type: string,
    available_kit_types: seq<string>,
    onboarding_finished: bool,
    latest: QuizSubmission)

  datatype Response = BadRequest | NotRegistered | Found(result: LookupResult)

  predicate IsKit(k: string) {
    k == LAUNCH || k == GROWTH
  }

  /**
   * The submissions stored under the normalised email, newest first as the
   * store returns them: all of them, in the store's order, headed by the
   * newest.
   */
  function SubmissionsFor(subs: seq<QuizSubmission>, email: string): (r: seq<QuizSubmission>)
    ensures forall i :: 0 <= i < |r| ==> r[i].email == email && r[i] in subs
    ensures (exists i :: 0 <= i < |subs| && subs[i].email == email) <==> r != []
    ensures forall k :: NewestFor(subs, email, k) ==> r != [] && r[0] == subs[k]
  {
    var stored := (s: QuizSubmission) => s.email == email;
    var r := ListOps.Filter(subs, stored);
    assert forall i :: 0 <= i < |r| ==> r[i] in r && stored(r[i]);
    assert forall i :: 0 <= i < |subs| && subs[i].email == email ==> stored(subs[i]) && subs[i] in r;
    assert forall k :: NewestFor(subs, email, k) ==> r != [] && r[0] == subs[k] by {
      forall k | NewestFor(subs, email, k)
        ensures r != [] && r[0] == subs[k]
      {
        ListOps.FilterHead(subs, stored, k);
      }
    }
    r
  }

  /** A submission's preferred kit when it is LAUNCH or GROWTH. */
  function KitOf(s: QuizSubmission): seq<string> {
    if s.preferredKit.Some? && IsKit(s.preferredKit.value) then [s.preferredKit.value] else []
  }

  /**
   * The quiz kits: each submission's preferred kit, when it is LAUNCH or
   * GROWTH, in the submissions' order.
   */
  function QuizKits(subs: seq<QuizSubmission>): (r: seq<string>)
    ensures forall i :: 0 <= i < |r| ==> IsKit(r[i])
    ensures forall i :: 0 <= i < |subs| && subs[i].preferredKit.Some? && IsKit(subs[i].preferredKit.value) ==>
      subs[i].preferredKit.value in r
  {
    if subs == [] then []
    else
      var rest := QuizKits(subs[1..]);
      assert forall i :: 1 <= i < |subs| ==> subs[i] == subs[1..][i - 1];
      KitOf(subs[0]) + rest
  }

  /** The kits of consecutive runs of submissions follow each other. */
  lemma {:induction false} QuizKitsAppend(a: seq<QuizSubmission>, b: seq<QuizSubmission>)
    ensures QuizKits(a + b) == QuizKits(a) + QuizKits(b)
  {
    if a == [] {
      assert a + b == b;
    } else {
      var ab := a + b;
      assert ab[0] == a[0];
      assert ab[1..] == a[1..] + b;
      QuizKitsAppend(a[1..], b);
      calc {
        QuizKits(ab);
        KitOf(a[0]) + QuizKits(a[1..] + b);
        KitOf(a[0]) + (QuizKits(a[1..]) + QuizKits(b));
        (KitOf(a[0]) + QuizKits(a[1..])) + QuizKits(b);
      }
    }
  }

  /** One submission contributes its preferred kit exactly when that is LAUNCH or GROWTH. */
  lemma QuizKitsOne(s: QuizSubmission)
    ensures QuizKits([s]) == if s.preferredKit.Some? && IsKit(s.preferredKit.value) then [s.preferredKit.value] else []
  {
    assert [s][1..] == [];
  }

  /** The clients matching the email or its user id. */
  function OwnedClients(clients: seq<Client>, who: Identity.Caller): (r: seq<Client>)
    ensures forall i :: 0 <= i < |r| ==> Identity.Owns(r[i], who) && r[i] in clients
    ensures forall c :: c in clients && Identity.Owns(c, who) ==> c in r
  {
    if clients == [] then []
    else
      var rest := OwnedClients(clients[1..], who);
      assert forall c :: c in clients ==> c == clients[0] || c in clients[1..];
      if Identity.Owns(clients[0], who) then [clients[0]] + rest else rest
  }

  function Plans(clients: seq<Client>): (r: seq<string>)
    ensures |r| == |clients| && forall i :: 0 <= i < |r| ==> r[i] == clients[i].plan
  {
    seq(|clients|, i requires 0 <= i < |clients| => clients[i].plan)
  }

  predicate Distinct(s: seq<string>) {
    forall i, j :: 0 <= i < j < |s| ==> s[i] != s[j]
  }

  /** The position of the first occurrence of `x` in `s`. */
  function FirstIndex(s: seq<string>, x: string): (i: nat)
    requires x in s
    ensures i < |s| && s[i] == x && forall j :: 0 <= j < i ==> s[j] != x
  {
    if s[0] == x then 0 else 1 + FirstIndex(s[1..], x)
  }

  /** Appending a value does not move the first occurrence of a value already present. */
  lemma FirstIndexExtend(s: seq<string>, x: string, y: string)
    requires y in s
    ensures FirstIndex(s + [x], y) == FirstIndex(s, y)
  {
    var k := FirstIndex(s, y);
    assert (s + [x])[k] == y;
    assert forall j :: 0 <= j < k ==> (s + [x])[j] == s[j];
  }

  /** One more value keeps the deduplicated values distinct, complete and in first-occurrence order. */
  lemma DedupSnoc(init: seq<string>, x: string, d: seq<string>)
    requires Distinct(d) && forall y :: y in d <==> y in init
    requires forall i, j :: 0 <= i < j < |d| ==> FirstIndex(init, d[i]) < FirstIndex(init, d[j])
    ensures var s := init + [x]; var r := if x in d then d else d + [x];
      && Distinct(r) && (forall y :: y in r <==> y in s)
      && forall i, j :: 0 <= i < j < |r| ==> FirstIndex(s, r[i]) < FirstIndex(s, r[j])
  {
    var s := init + [x];
    forall y | y in init
      ensures FirstIndex(s, y) == FirstIndex(init, y) < |init|
    {
      FirstIndexExtend(init, x, y);
    }
    if x !in d {
      assert FirstIndex(s, x) == |init|;
    }
  }

  /**
   * `Array.from(new Set(s))`: the values of `s` once each, in order of first
   * occurrence.
   */
  function Dedup(s: seq<string>): (r: seq<string>)
    ensures Distinct(r)
    ensures forall x :: x in r <==> x in s
    ensures forall i, j :: 0 <= i < j < |r| ==> FirstIndex(s, r[i]) < FirstIndex(s, r[j])
    ensures s != [] ==> r != [] && r[0] == s[0]
    decreases |s|
  {
    if s == [] then []
    else
      var init := s[..|s| - 1];
      var d := Dedup(init);
      var x := s[|s| - 1];
      assert s == init + [x];
      assert |s| > 1 ==> init[0] == s[0];
      DedupSnoc(init, x, d);
      if x in d then d else d + [x]
  }

  /** Some project's onboarding is at 100 percent. */
  predicate AnyFinished(clients: seq<Client>) {
    exists i :: 0 <= i < |clients| && Finished(clients[i])
  }

  /**
   * A registered email's answer, from its submissions (newest first) and
   * its projects: the kits are the quiz kits followed by the project plans,
   * once each; the kit is the latest submission's preferred kit, else the
   * first kit, else LAUNCH; the available kits fall back to the preferred
   * kit, else LAUNCH.
   */
  function Resolve(mine: seq<QuizSubmission>, owned: seq<Client>): (r: LookupResult)
    requires mine != []
    ensures r.latest == mine[0] && r.name == mine[0].fullName
    ensures r.available_kit_types != []
    ensures Truthy(mine[0].preferredKit) ==> r.kit_type == mine[0].preferredKit.value
    ensures !Truthy(mine[0].preferredKit) && QuizKits(mine) != [] ==> r.kit_type == QuizKits(mine)[0]
    ensures !Truthy(mine[0].preferredKit) && QuizKits(mine) == [] && owned != [] && owned[0].plan != "" ==>
      r.kit_type == owned[0].plan
    ensures !Truthy(mine[0].preferredKit) && QuizKits(mine) == [] && (owned == [] || owned[0].plan == "") ==>
      r.kit_type == LAUNCH
    ensures QuizKits(mine) + Plans(owned) != [] ==>
      r.available_kit_types == Dedup(QuizKits(mine) + Plans(owned))
      && r.available_kit_types[0] == (QuizKits(mine) + Plans(owned))[0]
    ensures QuizKits(mine) == [] && owned == [] ==> r.available_kit_types == FallbackKits(mine[0].preferredKit)
  {
    var latest := mine[0];
    var quiz, plans := QuizKits(mine), Plans(owned);
    var allKits := Dedup(quiz + plans);
    assert quiz == [] ==> quiz + plans == plans;
    assert quiz != [] ==> (quiz + plans)[0] == quiz[0];
    assert (quiz + plans == []) == (quiz == [] && owned == []);
    var kit := if Truthy(latest.preferredKit) then latest.preferredKit.value
               else if allKits != [] && allKits[0] != "" then allKits[0] else LAUNCH;
    var available := if allKits != [] then allKits else FallbackKits(latest.preferredKit);
    LookupResult(latest.fullName, kit, available, AnyFinished(owned), latest)
  }

  /**
   * The lookup. A missing, non-string or empty email is a bad request; an
   * email without quiz submissions cannot sign in; otherwise the projects
   * owned by the email or its user id are resolved with the submissions.
   * `userIdOf` (the hash of the email) is a parameter.
   */
  function Lookup(field: EmailField, subs: seq<QuizSubmission>, clients: seq<Client>,
                  userIdOf: string -> string): (r: Response)
    ensures r.BadRequest? <==> (!field.EmailText? || field.text == "")
    ensures r.NotRegistered? <==> (field.EmailText? && field.text != ""
      && forall i :: 0 <= i < |subs| ==> subs[i].email != NormalizeEmail(field.text))
    ensures r.Found? ==> r.result.available_kit_types != []
    ensures r.Found? ==> var email := NormalizeEmail(field.text);
      r.result == Resolve(SubmissionsFor(subs, email), OwnedClients(clients, Identity.Caller(email, userIdOf(email))))
  {
    if !field.EmailText? || field.text == "" then BadRequest
    else
      var email := NormalizeEmail(field.text);
      var mine := SubmissionsFor(subs, email);
      if mine == [] then NotRegistered
      else Found(Resolve(mine, OwnedClients(clients, Identity.Caller(email, userIdOf(email)))))
  }

  /** The kits offered when the quizzes and projects name none. */
  function FallbackKits(preferred: Option<string>): (r: seq<string>)
    ensures |r| == 1
    ensures Truthy(preferred) ==> r == [preferred.value]
    ensures !Truthy(preferred) ==> r == [LAUNCH]
  {
    if Truthy(preferred) then [preferred.value] else [LAUNCH]
  }

  /**
   * Every kit offered comes from a submission or an owned project, each is
   * offered once, and every owned project's plan is offered.
   */
  lemma ResolveKits(mine: seq<QuizSubmission>, owned: seq<Client>)
    requires mine != []
    ensures var r := Resolve(mine, owned);
      && Distinct(r.available_kit_types)
      && (forall i :: 0 <= i < |owned| ==> owned[i].plan in r.available_kit_types)
      && (forall k :: k in r.available_kit_types ==>
            k in QuizKits(mine) || k in Plans(owned) || Some(k) == mine[0].preferredKit || k == LAUNCH)
  {
    var quiz := QuizKits(mine);
    var plans := Plans(owned);
    var allKits := Dedup(quiz + plans);
    assert Resolve(mine, owned).available_kit_types
      == if allKits != [] then allKits else FallbackKits(mine[0].preferredKit);
    PlansOffered(quiz, owned);
    if allKits == [] {
      assert |quiz + plans| == 0;
    }
  }

  /** Every plan of an owned project is among the deduplicated kits. */
  lemma PlansOffered(quiz: seq<string>, owned: seq<Client>)
    ensures forall i :: 0 <= i < |owned| ==> owned[i].plan in Dedup(quiz + Plans(owned))
    ensures forall k :: k in Dedup(quiz + Plans(owned)) ==> k in quiz || k in Plans(owned)
  {
    var s := quiz + Plans(owned);
    forall i | 0 <= i < |owned|
      ensures owned[i].plan in s
    {
      assert s[|quiz| + i] == Plans(owned)[i];
    }
  }

  /** A valid preferred kit on the latest submission is both the kit and an offered kit. */
  lemma ResolvePreferred(mine: seq<QuizSubmission>, owned: seq<Client>)
    requires mine != [] && mine[0].preferredKit.Some? && IsKit(mine[0].preferredKit.value)
    ensures Resolve(mine, owned).kit_type == mine[0].preferredKit.value
    ensures Resolve(mine, owned).kit_type in Resolve(mine, owned).available_kit_types
  {
    var k := mine[0].preferredKit.value;
    assert k in QuizKits(mine);
    assert k in QuizKits(mine) + Plans(owned);
  }

  /** Onboarding counts as finished exactly when some owned project is at 100 percent. */
  lemma ResolveFinished(mine: seq<QuizSubmission>, owned: seq<Client>)
    requires mine != []
    ensures Resolve(mine, owned).onboarding_finished <==> exists c :: c in owned && Finished(c)
  {
    if exists c :: c in owned && Finished(c) {
      var c :| c in owned && Finished(c);
      var i :| 0 <= i < |owned| && owned[i] == c;
    }
  }

  /**
   * What a found lookup reports about the stored data: the latest
   * submission is the newest stored under the normalised email, every
   * project owned by the email or its user id has its plan offered, and
   * `onboarding_finished` holds exactly when such a project is at 100
   * percent.
   */
  lemma FoundFacts(field: EmailField, subs: seq<QuizSubmission>, clients: seq<Client>, userIdOf: string -> string)
    requires Lookup(field, subs, clients, userIdOf).Found?
    ensures var email := NormalizeEmail(field.text);
      var res := Lookup(field, subs, clients, userIdOf).result;
      var who := Identity.Caller(email, userIdOf(email));
      && res.latest == SubmissionsFor(subs, email)[0]
      && res.latest in subs && res.latest.email == email
      && (forall k :: NewestFor(subs, email, k) ==> res.latest == subs[k])
      && (res.onboarding_finished <==> exists c :: c in clients && Identity.Owns(c, who) && Finished(c))
      && (forall c :: c in clients && Identity.Owns(c, who) ==> c.plan in res.available_kit_types)
  {
    var email := NormalizeEmail(field.text);
    var who := Identity.Caller(email, userIdOf(email));
    var mine := SubmissionsFor(subs, email);
    var owned := OwnedClients(clients, who);
    ResolveKits(mine, owned);
    ResolveFinished(mine, owned);
    forall c | c in clients && Identity.Owns(c, who)
      ensures c.plan in Resolve(mine, owned).available_kit_types
    {
      var i :| 0 <= i < |owned| && owned[i] == c;
    }
  }
}

module LoginFlow {
  import opened Wrappers
  import opened Text
  import opened PhaseStructure
  import opened Records
  import UsersLookup
  import OnboardingDraft

  datatype LoginStep = EmailStep | Loading | UserFound | ErrorStep

  /** The lookup response as the browser reads it: every field but `exists` may be missing. */
  datatype LookupData = LookupData(
    exists_: bool,
    name: Option<string>,
    kit_type: Option<string>,
    available_kit_types: Option<seq<string>>,
    onboarding_finished: Option<bool>,
    preferred_kit: Option<string>,
    error: Option<string>)

  /** The outcome of the lookup request: a thrown network error, or a response and its status. */
  datatype Reply = Failed(message: string) | Responded(ok: bool, data: LookupData)

  /** The session written to the browser on continue. */
  datatype Session = Session(email: string, name: Option<string>, kit_type: string, kitType: string,
                             onboarding_finished: bool)

  const NotRegisteredMessage := "This email is not registered. Please contact support to get access."
  const LookupFailedMessage := "Failed to lookup user"
  const GenericErrorMessage := "An error occurred. Please try again."
  const SelectPlanMessage := "Please select a plan to continue."
  const LaunchStart := "/launch-kit/onboarding/step-1"
  const GrowthStart := "/growth-kit/onboarding/step-1"

  /** A found lookup as the endpoint sends it. */
  function AsSent(r: UsersLookup.LookupResult): LookupData {
    LookupData(true, Some(r.name), Some(r.kit_type), Some(r.available_kit_types), Some(r.onboarding_finished),
      r.latest.preferredKit, None)
  }

  /**
   * The preselected kit: the first available kit, else the upper-cased
   * preferred kit of the quiz, else the lookup's kit; without any of them
   * the selection is left as it was.
   */
  function Preselect(d: LookupData, current: string): (k: string)
    ensures d.available_kit_types.Some? && |d.available_kit_types.value| > 0 ==> k == d.available_kit_types.value[0]
    ensures !(d.available_kit_types.Some? && |d.available_kit_types.value| > 0) && Truthy(d.preferred_kit) ==>
      k == Upper(d.preferred_kit.value)
    ensures (!(d.available_kit_types.Some? && |d.available_kit_types.value| > 0) && !Truthy(d.preferred_kit)
      && Truthy(d.kit_type)) ==> k == d.kit_type.value
    ensures (!(d.available_kit_types.Some? && |d.available_kit_types.value| > 0) && !Truthy(d.preferred_kit)
      && !Truthy(d.kit_type)) ==> k == current
  {
    if d.available_kit_types.Some? && |d.available_kit_types.value| > 0 then d.available_kit_types.value[0]
    else if Truthy(d.preferred_kit) then Upper(d.preferred_kit.value)
    else if Truthy(d.kit_type) then d.kit_type.value
    else current
  }

  /** The kit continue uses: the selection, else the lookup's kit; none when both are empty. */
  function ContinueKit(selected: string, d: Option<LookupData>): (k: Option<string>)
    ensures k.Some? ==> k.value != ""
    ensures selected != "" ==> k == Some(selected)
    ensures selected == "" ==> (k.Some? <==> d.Some? && Truthy(d.value.kit_type))
  {
    if selected != "" then Some(selected)
    else if d.Some? && Truthy(d.value.kit_type) then d.value.kit_type
    else None
  }

  /** Where continue leads: home once onboarding is finished, else step 1 of the kit's onboarding. */
  function RedirectFor(finished: bool, kit: string): (page: string)
    ensures finished <==> page == "/home"
    ensures !finished ==> (page == LaunchStart <==> kit == LAUNCH)
    ensures !finished && kit != LAUNCH ==> page == GrowthStart
  {
    if finished then "/home" else if kit == LAUNCH then LaunchStart else GrowthStart
  }

  /** The session as the onboarding forms read it. */
  function AsSessionUser(s: Session): OnboardingDraft.SessionUser {
    OnboardingDraft.SessionUser(Some(s.email), None, Some(s.kitType), Some(s.kit_type), s.onboarding_finished)
  }

  /**
   * The login form. `trace` records every step the form shows, in order;
   * `session` and `authenticated` are what it writes to the browser, and
   * `redirect` where it navigates.
   */
  class LoginForm {
    var step: LoginStep
    var email: string
    var userData: Option<LookupData>
    var selectedKit: string
    var isLoading: bool
    var error: Option<string>
    var trace: seq<LoginStep>
    var session: Option<Session>
    var authenticated: bool
    var redirect: Option<string>

    constructor()
      ensures step == EmailStep && email == "" && userData.None? && selectedKit == ""
      ensures !isLoading && error.None? && trace == [EmailStep]
      ensures session.None? && !authenticated && redirect.None?
    {
      step := EmailStep;
      email := "";
      userData := None;
      selectedKit := "";
      isLoading := false;
      error := None;
      trace := [EmailStep];
      session := None;
      authenticated := false;
      redirect := None;
    }

    method SetStep(s: LoginStep)
      modifies this
      ensures step == s && trace == old(trace) + [s]
      ensures email == old(email) && userData == old(userData) && selectedKit == old(selectedKit)
      ensures isLoading == old(isLoading) && error == old(error)
      ensures session == old(session) && authenticated == old(authenticated) && redirect == old(redirect)
    {
      step := s;
      trace := trace + [s];
    }

    method TypeEmail(e: string)
      modifies this
      ensures email == e
      ensures step == old(step) && trace == old(trace) && userData == old(userData) && selectedKit == old(selectedKit)
      ensures isLoading == old(isLoading) && error == old(error)
      ensures session == old(session) && authenticated == old(authenticated) && redirect == old(redirect)
    {
      email := e;
    }

    /**
     * `handleEmailSubmit`: always shows loading first; a failed request or
     * an unknown email ends in the error step with its message, a known one
     * in the user-found step with the lookup kept and a kit preselected.
     */
    method SubmitEmail(reply: Reply)
      modifies this
      ensures |trace| == |old(trace)| + 2 && trace[..|old(trace)|] == old(trace)
      ensures trace[|old(trace)|] == Loading && trace[|old(trace)| + 1] == step
      ensures !isLoading
      ensures email == old(email) && session == old(session) && authenticated == old(authenticated)
      ensures redirect == old(redirect)
      ensures reply.Failed? ==>
        step == ErrorStep && error == Some(if reply.message != "" then reply.message else GenericErrorMessage)
        && userData == old(userData) && selectedKit == old(selectedKit)
      ensures reply.Responded? && !reply.ok ==>
        step == ErrorStep && error == Some(OrElse(reply.data.error, LookupFailedMessage))
        && userData == old(userData) && selectedKit == old(selectedKit)
      ensures reply.Responded? && reply.ok && !reply.data.exists_ ==>
        step == ErrorStep && error == Some(NotRegisteredMessage)
        && userData == old(userData) && selectedKit == old(selectedKit)
      ensures reply.Responded? && reply.ok && reply.data.exists_ ==>
        step == UserFound && error.None? && userData == Some(reply.data)
        && selectedKit == Preselect(reply.data, old(selectedKit))
    {
      isLoading := true;
      error := None;
      SetStep(Loading);
      if reply.Failed? {
        SetStep(ErrorStep);
        error := Some(if reply.message != "" then reply.message else GenericErrorMessage);
        isLoading := false;
        return;
      }
      var data := reply.data;
      if !reply.ok {
        SetStep(ErrorStep);
        error := Some(OrElse(data.error, LookupFailedMessage));
        isLoading := false;
        return;
      }
      if !data.exists_ {
        SetStep(ErrorStep);
        error := Some(NotRegisteredMessage);
        isLoading := false;
        return;
      }
      userData := Some(data);
      selectedKit := Preselect(data, selectedKit);
      SetStep(UserFound);
      isLoading := false;
    }

    method SelectKit(k: string)
      modifies this
      ensures selectedKit == k
      ensures step == old(step) && trace == old(trace) && email == old(email) && userData == old(userData)
      ensures isLoading == old(isLoading) && error == old(error)
      ensures session == old(session) && authenticated == old(authenticated) && redirect == old(redirect)
    {
      selectedKit := k;
    }

    /**
     * `handleContinue`: without a lookup or a kit, an error and nothing
     * stored; otherwise the session is written with the chosen kit under
     * both names and the page moves on.
     */
    method Continue()
      modifies this
      ensures step == old(step) && trace == old(trace) && email == old(email) && userData == old(userData)
      ensures selectedKit == old(selectedKit) && isLoading == old(isLoading)
      ensures var k := ContinueKit(old(selectedKit), old(userData));
        if old(userData).None? || k.None? then
          error == Some(SelectPlanMessage) && session == old(session)
          && authenticated == old(authenticated) && redirect == old(redirect)
        else
          var d := old(userData).value;
          var finished := d.onboarding_finished == Some(true);
          && error == old(error)
          && session == Some(Session(old(email), OrNull(d.name), k.value, k.value, finished))
          && authenticated
          && redirect == Some(RedirectFor(finished, k.value))
    {
      var k := ContinueKit(selectedKit, userData);
      if userData.None? || k.None? {
        error := Some(SelectPlanMessage);
        return;
      }
      var d := userData.value;
      var finished := d.onboarding_finished == Some(true);
      session := Some(Session(email, OrNull(d.name), k.value, k.value, finished));
      authenticated := true;
      redirect := Some(RedirectFor(finished, k.value));
    }

    /** `handleBack`: back to the email step with no error and no lookup; the kit selection stays. */
    method Back()
      modifies this
      ensures step == EmailStep && trace == old(trace) + [EmailStep] && error.None? && userData.None?
      ensures selectedKit == old(selectedKit) && email == old(email) && isLoading == old(isLoading)
      ensures session == old(session) && authenticated == old(authenticated) && redirect == old(redirect)
    {
      SetStep(EmailStep);
      error := None;
      userData := None;
    }
  }

  /**
   * A found lookup always preselects its first available kit, which the
   * endpoint never leaves empty; when that kit is a non-empty name, continue
   * succeeds with it.
   */
  lemma FoundLookupPreselects(r: UsersLookup.LookupResult, current: string)
    requires r.available_kit_types != []
    ensures Preselect(AsSent(r), current) == r.available_kit_types[0]
    ensures r.available_kit_types[0] != "" ==>
      ContinueKit(Preselect(AsSent(r), current), Some(AsSent(r))) == Some(r.available_kit_types[0])
  {
  }

  /**
   * The session continue writes is read back by the onboarding forms with
   * the chosen kit: they save under that kit and load from its draft.
   */
  lemma SessionKitReadBack(s: Session, defaultKit: string)
    requires s.kit_type == s.kitType && s.kitType != ""
    ensures OnboardingDraft.SaveKit(AsSessionUser(s), defaultKit) == s.kitType
    ensures OnboardingDraft.LoadKey(AsSessionUser(s)) == OnboardingDraft.DraftKey(s.kitType)
    ensures OnboardingDraft.CommitEmail(AsSessionUser(s)) == Some(s.email) || s.email == ""
  {
  }

  /** The complete sign-in: a lookup that finds the email, then continue. */
  method SignIn(form: LoginForm, r: UsersLookup.LookupResult)
    requires r.available_kit_types != [] && r.available_kit_types[0] != ""
    modifies form
    ensures form.step == UserFound && form.authenticated
    ensures form.session.Some? && form.session.value.kit_type == r.available_kit_types[0]
    ensures form.redirect == Some(RedirectFor(r.onboarding_finished, r.available_kit_types[0]))
  {
    form.SubmitEmail(Responded(true, AsSent(r)));
    FoundLookupPreselects(r, old(form.selectedKit));
    form.Continue();
  }
}
