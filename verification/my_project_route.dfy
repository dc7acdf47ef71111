// GET /api/my-project: the caller's project with its merged phases, or a
// not-yet-started placeholder project when no client record exists.

module MyProjectRoute {
  import opened Wrappers
  import opened PhaseStructure
  import opened Records
  import opened PhaseRows
  import opened Identity

  datatype ProjectView = ProjectView(
    id: Option<string>,
    user_id: string,
    email: Option<string>,
    kit_type: string,
    current_day_of_14: Option<int>,
    next_from_us: Option<string>,
    next_from_you: Option<string>,
    onboarding_finished: bool,
    onboarding_percent: int,
    phases_state: Option<map<string, PhaseState>>,
    phases: seq<MergedPhase>)

  datatype Response = Unauthorized | Project(project: ProjectView)

  /** The newest quiz submission for the email (submissions are newest first). */
  function LatestQuiz(subs: seq<QuizSubmission>, email: string): (r: Option<QuizSubmission>)
    ensures r.None? <==> forall i :: 0 <= i < |subs| ==> subs[i].email != email
    ensures r.Some? ==> r.value.email == email && r.value in subs
  {
    if subs == [] then None
    else if subs[0].email == email then Some(subs[0])
    else LatestQuiz(subs[1..], email)
  }

  /** The lookup returns the email's first submission. */
  lemma {:induction false} LatestIsNewest(subs: seq<QuizSubmission>, email: string, k: int)
    requires NewestFor(subs, email, k)
    ensures LatestQuiz(subs, email) == Some(subs[k])
  {
    if k > 0 {
      assert subs[0].email != email;
      assert NewestFor(subs[1..], email, k - 1) by {
        forall j | 0 <= j < k - 1 ensures subs[1..][j].email != email {
          assert subs[1..][j] == subs[j + 1];
        }
      }
      LatestIsNewest(subs[1..], email, k - 1);
    }
  }

  /** The kit of the placeholder project: the latest quiz's preferred kit, else LAUNCH. */
  function FallbackKit(subs: seq<QuizSubmission>, email: string): (kit: string)
    ensures (forall i :: 0 <= i < |subs| ==> subs[i].email != email) ==> kit == LAUNCH
    ensures forall k :: NewestFor(subs, email, k) ==>
      kit == (if Truthy(subs[k].preferredKit) then subs[k].preferredKit.value else LAUNCH)
  {
    var q := LatestQuiz(subs, email);
    forall k | NewestFor(subs, email, k)
      ensures q == Some(subs[k])
    {
      LatestIsNewest(subs, email, k);
    }
    if q.Some? && Truthy(q.value.preferredKit) then q.value.preferredKit.value else LAUNCH
  }

  function Placeholder(who: Caller, subs: seq<QuizSubmission>): ProjectView {
    var kit := FallbackKit(subs, who.email);
    ProjectView(None, who.userId, Some(who.email), kit, None, None, None, false, 0, None,
      Merge(GetPhaseStructureForKitType(kit), None))
  }

  function ClientProject(c: Client, state: map<string, PhaseState>): ProjectView {
    ProjectView(Some(c.id), c.userId, None, c.plan, c.currentDayOf14, c.nextFromUs, c.nextFromYou,
      true, c.onboardingPercent, StateArg(state),
      Merge(GetPhaseStructureForKitType(c.plan), StateArg(state)))
  }

  function MyProjectResponse(header: Option<HeaderUser>, emailParam: Option<string>,
                             userIdOf: string -> string, clients: seq<Client>,
                             subs: seq<QuizSubmission>): Response
  {
    var who := ResolveCaller(header, emailParam, userIdOf);
    if who.None? then Unauthorized
    else
      var c := FindClient(clients, who.value);
      if c.None? then Project(Placeholder(who.value, subs))
      else Project(ClientProject(c.value, RowsToState(c.value.phaseStates)))
  }

  /**
   * A caller without a client record gets an unstarted, unfinished project
   * on the kit of their latest quiz (LAUNCH by default); a caller with one
   * gets a finished onboarding, the stored percentage, and the state built
   * from its phase rows (null when there are none) merged into the catalog
   * of its plan. Either way there are four phases.
   */
  lemma ResponseShape(header: Option<HeaderUser>, emailParam: Option<string>,
                      userIdOf: string -> string, clients: seq<Client>, subs: seq<QuizSubmission>)
    ensures var r := MyProjectResponse(header, emailParam, userIdOf, clients, subs);
      var who := ResolveCaller(header, emailParam, userIdOf);
      && (r.Unauthorized? <==> who.None?)
      && (r.Project? ==> |r.project.phases| == 4)
      && (r.Project? && FindClient(clients, who.value).None? ==>
            && !r.project.onboarding_finished && r.project.onboarding_percent == 0
            && r.project.phases_state.None? && r.project.id.None?
            && r.project.user_id == who.value.userId && r.project.email == Some(who.value.email)
            && r.project.current_day_of_14.None? && r.project.next_from_us.None? && r.project.next_from_you.None?
            && r.project.kit_type == FallbackKit(subs, who.value.email)
            && r.project.phases == Merge(GetPhaseStructureForKitType(r.project.kit_type), None)
            && (forall i :: 0 <= i < 4 ==>
                  (&& r.project.phases[i].status == NotStarted
                   && forall j :: 0 <= j < |r.project.phases[i].checklist| ==> !r.project.phases[i].checklist[j].is_done)))
      && (r.Project? && FindClient(clients, who.value).Some? ==>
            var c := FindClient(clients, who.value).value;
            && r.project.onboarding_finished && r.project.onboarding_percent == c.onboardingPercent
            && r.project.kit_type == c.plan && r.project.id == Some(c.id)
            && r.project.user_id == c.userId && r.project.email.None?
            && r.project.current_day_of_14 == c.currentDayOf14
            && r.project.next_from_us == c.nextFromUs && r.project.next_from_you == c.nextFromYou
            && r.project.phases_state == StateArg(RowsToState(c.phaseStates))
            && r.project.phases == Merge(GetPhaseStructureForKitType(c.plan), r.project.phases_state)
            && (r.project.phases_state.None? <==> c.phaseStates == []))
  {
    var who := ResolveCaller(header, emailParam, userIdOf);
    if who.Some? {
      var c := FindClient(clients, who.value);
      if c.Some? {
        StateArgNullIffNoRows(c.value.phaseStates);
      } else {
        PlaceholderShape(who.value, subs);
      }
    }
  }

  /** The placeholder: the fallback kit's catalog, every phase unstarted and unticked. */
  lemma PlaceholderShape(who: Caller, subs: seq<QuizSubmission>)
    ensures var v := Placeholder(who, subs);
      && v.kit_type == FallbackKit(subs, who.email)
      && v.phases == Merge(GetPhaseStructureForKitType(v.kit_type), None)
      && |v.phases| == 4
      && !v.onboarding_finished && v.onboarding_percent == 0 && v.phases_state.None? && v.id.None?
      && (forall i :: 0 <= i < 4 ==>
            (&& v.phases[i].status == NotStarted
             && forall j :: 0 <= j < |v.phases[i].checklist| ==> !v.phases[i].checklist[j].is_done))
  {
  }

  /** The route handler; the stored rows become the state map through the row loop. */
  method Get(header: Option<HeaderUser>, emailParam: Option<string>, userIdOf: string -> string,
             clients: seq<Client>, subs: seq<QuizSubmission>) returns (resp: Response)
    ensures resp == MyProjectResponse(header, emailParam, userIdOf, clients, subs)
    ensures resp.Project? ==> |resp.project.phases| == 4
  {
    var who := ResolveCaller(header, emailParam, userIdOf);
    if who.None? {
      return Unauthorized;
    }
    var found := FindClient(clients, who.value);
    if found.None? {
      return Project(Placeholder(who.value, subs));
    }
    var state := BuildPhasesState(found.value.phaseStates);
    resp := Project(ClientProject(found.value, state));
  }
}
