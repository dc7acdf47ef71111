// The browser-side onboarding draft: each step form upserts its step record
// into the draft stored under `onboarding_<kit>`, recomputes the overall
// percentage, and the last step marks the onboarding finished and builds the
// commit request for the completion endpoint.

module OnboardingDraft {
  import opened Wrappers
  import opened Percent
  import opened OnboardingTypes
  import opened OnboardingComplete

  /** The `user` entry of browser storage, as far as the forms read it. */
  datatype SessionUser = SessionUser(
    email: Option<string>,
    email_address: Option<string>,
    kitType: Option<string>,
    kit_type: Option<string>,
    onboarding_finished: bool)

  /** The stored onboarding draft of one kit. */
  datatype Draft = Draft(steps: seq<OnboardingStep>, onboarding_percent: int, onboarding_finished: bool)

  datatype FinishOutcome = NoUser | NotFinished | Finished(commit: Option<CompleteRequest>)

  /** The instant of a save: `Date.now()` as text, used in step ids, and as an ISO timestamp. */
  datatype Clock = Clock(millis: string, iso: string)

  const EmptyDraft := Draft([], 0, false)

  function DraftKey(kit: string): string {
    "onboarding_" + kit
  }

  /** The kit a save writes under: `kitType`, else `kit_type`, else the form's own kit. */
  function SaveKit(user: SessionUser, defaultKit: string): (k: string)
    ensures Truthy(user.kitType) ==> k == user.kitType.value
    ensures !Truthy(user.kitType) && Truthy(user.kit_type) ==> k == user.kit_type.value
    ensures !Truthy(user.kitType) && !Truthy(user.kit_type) ==> k == defaultKit
  {
    OrElse(user.kitType, OrElse(user.kit_type, defaultKit))
  }

  /** The key the growth forms read a draft from: only `kitType` is consulted, interpolated as text. */
  function LoadKey(user: SessionUser): string {
    DraftKey(if user.kitType.Some? then user.kitType.value else "undefined")
  }

  function ExistingDraft(drafts: map<string, Draft>, key: string): Draft {
    if key in drafts then drafts[key] else EmptyDraft
  }

  /** `steps.findIndex(s => s.step_number === n)`, as an option. */
  function FindStep(steps: seq<OnboardingStep>, n: int): (r: Option<nat>)
    ensures r.None? <==> forall i :: 0 <= i < |steps| ==> steps[i].step_number != n
    ensures r.Some? ==> r.value < |steps| && steps[r.value].step_number == n
    ensures r.Some? ==> forall i :: 0 <= i < r.value ==> steps[i].step_number != n
  {
    if steps == [] then None
    else if steps[0].step_number == n then Some(0)
    else
      var rest := FindStep(steps[1..], n);
      if rest.None? then None else Some(rest.value + 1)
  }

  /** Replace the first step with the same number in place, else append. */
  function UpsertStep(steps: seq<OnboardingStep>, s: OnboardingStep): seq<OnboardingStep> {
    match FindStep(steps, s.step_number)
    case Some(i) => steps[i := s]
    case None => steps + [s]
  }

  predicate UniqueStepNumbers(steps: seq<OnboardingStep>) {
    forall i, j :: 0 <= i < j < |steps| ==> steps[i].step_number != steps[j].step_number
  }

  /**
   * The upsert puts the new step where the first step with its number was,
   * or at the end when there was none; every other step keeps its place,
   * the list grows by at most one, and step numbers stay unique.
   */
  lemma UpsertStepEffect(steps: seq<OnboardingStep>, s: OnboardingStep)
    ensures var r := UpsertStep(steps, s);
      var at := FindStep(steps, s.step_number);
      && |r| == |steps| + (if at.None? then 1 else 0)
      && (at.Some? ==> r[at.value] == s)
      && (at.None? ==> r[|steps|] == s)
      && (forall i :: 0 <= i < |steps| && steps[i].step_number != s.step_number ==> r[i] == steps[i])
      && (UniqueStepNumbers(steps) ==> UniqueStepNumbers(r))
  {
  }

  /** Saving the same step twice is the same as saving it once. */
  lemma UpsertStepIdempotent(steps: seq<OnboardingStep>, s: OnboardingStep)
    ensures UpsertStep(UpsertStep(steps, s), s) == UpsertStep(steps, s)
  {
    var r := UpsertStep(steps, s);
    var at := FindStep(steps, s.step_number);
    if at.Some? {
      assert FindStep(r, s.step_number) == at by {
        assert r[at.value] == s;
        assert forall i :: 0 <= i < at.value ==> r[i] == steps[i];
      }
    } else {
      assert FindStep(r, s.step_number) == Some(|steps|) by {
        assert r[|steps|] == s;
        assert forall i :: 0 <= i < |steps| ==> r[i] == steps[i];
      }
    }
  }

  /** The draft after saving a step: the upserted list and its recomputed percentage. */
  function WithStep(d: Draft, s: OnboardingStep): (r: Draft)
    ensures r.onboarding_finished == d.onboarding_finished
    ensures r.onboarding_percent == RoundPercent(SumCompleted(r.steps), SumTotal(r.steps))
  {
    var steps := UpsertStep(d.steps, s);
    Draft(steps, StepsPercent(steps), d.onboarding_finished)
  }

  /** While every saved step is consistent the stored percentage stays between 0 and 100. */
  lemma WithStepKeepsPercentBounded(d: Draft, s: OnboardingStep)
    requires forall i :: 0 <= i < |d.steps| ==> Consistent(d.steps[i])
    requires Consistent(s)
    ensures forall i :: 0 <= i < |WithStep(d, s).steps| ==> Consistent(WithStep(d, s).steps[i])
    ensures 0 <= WithStep(d, s).onboarding_percent <= 100
  {
    var r := WithStep(d, s);
    UpsertStepEffect(d.steps, s);
    assert forall i :: 0 <= i < |r.steps| ==> r.steps[i] == s || r.steps[i] in d.steps;
    StepsPercentBounded(r.steps);
  }

  /** The drafts after a save by `u`: the step upserted into the draft of the kit `u` saves under. */
  function AfterSave(drafts: map<string, Draft>, u: SessionUser, defaultKit: string, s: OnboardingStep): map<string, Draft> {
    var key := DraftKey(SaveKit(u, defaultKit));
    drafts[key := WithStep(ExistingDraft(drafts, key), s)]
  }

  /** The drafts after a complete finish: the save, with the draft marked finished. */
  function AfterFinish(drafts: map<string, Draft>, u: SessionUser, defaultKit: string, s: OnboardingStep): map<string, Draft> {
    var key := DraftKey(SaveKit(u, defaultKit));
    drafts[key := WithStep(ExistingDraft(drafts, key), s).(onboarding_finished := true)]
  }

  /** The fields a kit sends for a saved step when it re-derives nothing: the saved ones. */
  function OwnFields(s: OnboardingStep): StepFields {
    s.fields
  }

  /**
   * The step record a form saves: DONE with a completion time exactly when
   * the form counts as complete, otherwise IN_PROGRESS without one; the
   * start time is the step's own, else now.
   */
  function StepRecord(n: int, title: string, time: string, total: int, completed: nat, complete: bool,
                      fields: StepFields, startedAt: Option<string>, clock: Clock): (r: OnboardingStep)
    ensures r.step_number == n && r.title == title && r.time_estimate == time && r.fields == fields
    ensures r.required_fields_total == total && r.required_fields_completed == completed
    ensures r.status == StepDone <==> complete
    ensures r.status != StepNotStarted
    ensures r.completed_at.Some? <==> complete
    ensures r.started_at.Some?
    ensures Truthy(startedAt) ==> r.started_at == startedAt
    ensures completed <= total ==> Consistent(r)
  {
    OnboardingStep(Some("step-" + [('0' as int + n % 10) as char] + "-" + clock.millis), n, title,
      if complete then StepDone else StepInProgress, total, completed, time, fields,
      Some(OrElse(startedAt, clock.iso)), if complete then Some(clock.iso) else None)
  }

  /** Where a save navigates: the next step only when asked to continue and the step is complete. */
  function SaveRoute(continueToNext: bool, complete: bool, nextPage: string, kitPage: string): (page: string)
    ensures continueToNext && complete ==> page == nextPage
    ensures !(continueToNext && complete) ==> page == kitPage
  {
    if continueToNext && complete then nextPage else kitPage
  }

  /** The fields of step `n` in the draft the growth forms read, if any. */
  function StoredFields(user: Option<SessionUser>, drafts: map<string, Draft>, n: int): (r: Option<StepFields>)
    ensures r.Some? ==> user.Some? && LoadKey(user.value) in drafts
  {
    if user.None? || LoadKey(user.value) !in drafts then None
    else
      var steps := drafts[LoadKey(user.value)].steps;
      var at := FindStep(steps, n);
      if at.None? then None else Some(steps[at.value].fields)
  }

  /**
   * A saved step is what the growth forms read back, provided the session
   * carries `kitType`, which is the key both sides then agree on.
   */
  lemma SavedStepReloads(u: SessionUser, drafts: map<string, Draft>, defaultKit: string, s: OnboardingStep)
    requires Truthy(u.kitType)
    ensures var key := DraftKey(SaveKit(u, defaultKit));
      StoredFields(Some(u), drafts[key := WithStep(ExistingDraft(drafts, key), s)], s.step_number) == Some(s.fields)
  {
    var key := DraftKey(SaveKit(u, defaultKit));
    var steps := WithStep(ExistingDraft(drafts, key), s).steps;
    UpsertStepEffect(ExistingDraft(drafts, key).steps, s);
    var at := FindStep(ExistingDraft(drafts, key).steps, s.step_number);
    if at.Some? {
      assert FindStep(steps, s.step_number) == at by {
        assert forall i :: 0 <= i < at.value ==> steps[i] == ExistingDraft(drafts, key).steps[i];
      }
    } else {
      assert FindStep(steps, s.step_number) == Some(|ExistingDraft(drafts, key).steps|);
    }
  }

  /** The email sent with the commit: `email`, else `email_address`. */
  function CommitEmail(u: SessionUser): Option<string> {
    if Truthy(u.email) then u.email else u.email_address
  }

  /**
   * One step of the commit body: no `id`, the fields as the kit re-derives
   * them, and a DONE step without a completion time gets `now`.
   */
  function CommitStep(s: OnboardingStep, now: string, fieldsOf: OnboardingStep -> StepFields): OnboardingStep {
    s.(id := None, fields := fieldsOf(s),
       completed_at := if Truthy(s.completed_at) then s.completed_at
                       else if s.status == StepDone then Some(now) else None)
  }

  /**
   * The commit request, sent only when the draft holds exactly three steps
   * and the session has an email; otherwise nothing is sent (the missing
   * email raises an error that the form swallows).
   */
  function CommitRequest(u: SessionUser, kit: string, steps: seq<OnboardingStep>, now: string,
                         fieldsOf: OnboardingStep -> StepFields): Option<CompleteRequest>
  {
    var email := CommitEmail(u);
    if |steps| != 3 || !Truthy(email) then None
    else Some(CompleteRequest(email, Some(kit),
                StepList(seq(|steps|, i requires 0 <= i < |steps| => CommitStep(steps[i], now, fieldsOf)))))
  }

  /**
   * A commit is built exactly when three steps are saved and the session
   * has an email; the endpoint accepts every commit the forms build, and
   * it keeps every completion time the form has set on a DONE step.
   */
  lemma CommitIsAccepted(u: SessionUser, kit: string, steps: seq<OnboardingStep>, now: string,
                         fieldsOf: OnboardingStep -> StepFields, serverNow: string)
    requires kit != "" && now != ""
    ensures CommitRequest(u, kit, steps, now, fieldsOf).Some? <==>
      |steps| == 3 && (Truthy(u.email) || Truthy(u.email_address))
    ensures var c := CommitRequest(u, kit, steps, now, fieldsOf);
      c.Some? ==>
        && Validate(c.value).Accepted?
        && Validate(c.value).kit == kit
        && forall j :: 0 <= j < 3 ==>
             (var t := Validate(c.value).steps[j];
              && t.step_number == steps[j].step_number
              && (t.status == StepDone ==> Stamped(t, serverNow).completed_at == t.completed_at))
  {
  }

  /** Browser storage: the session user and the drafts keyed by `onboarding_<kit>`. */
  class BrowserStorage {
    var user: Option<SessionUser>
    var drafts: map<string, Draft>

    constructor (user: Option<SessionUser>, drafts: map<string, Draft>)
      ensures this.user == user && this.drafts == drafts
    {
      this.user := user;
      this.drafts := drafts;
    }

    /**
     * The save every step form performs: without a session user nothing is
     * written; otherwise the step is upserted into the kit's draft (a fresh
     * one if none is stored) and the percentage recomputed.
     */
    method SaveStep(defaultKit: string, s: OnboardingStep) returns (saved: bool)
      modifies this
      ensures user == old(user)
      ensures saved <==> old(user).Some?
      ensures !saved ==> drafts == old(drafts)
      ensures saved ==> drafts == AfterSave(old(drafts), old(user).value, defaultKit, s)
    {
      if user.None? {
        return false;
      }
      var key := DraftKey(SaveKit(user.value, defaultKit));
      var d := ExistingDraft(drafts, key);
      var steps := d.steps;
      var i := 0;
      while i < |steps| && steps[i].step_number != s.step_number
        invariant 0 <= i <= |steps|
        invariant forall j :: 0 <= j < i ==> steps[j].step_number != s.step_number
      {
        i := i + 1;
      }
      if i < |steps| {
        assert FindStep(steps, s.step_number) == Some(i);
        steps := steps[i := s];
      } else {
        steps := steps + [s];
      }
      drafts := drafts[key := Draft(steps, RoundPercent(SumCompleted(steps), SumTotal(steps)), d.onboarding_finished)];
      saved := true;
    }

    /**
     * The last step's finish: save the step; when every field is complete,
     * mark the draft and the session user finished and build the commit
     * (sent only when three steps are saved). An incomplete finish sets no
     * flag and sends nothing.
     */
    method Finish(defaultKit: string, s: OnboardingStep, allComplete: bool, now: string,
                  fieldsOf: OnboardingStep -> StepFields) returns (outcome: FinishOutcome)
      modifies this
      ensures old(user).None? ==> outcome == NoUser && user == old(user) && drafts == old(drafts)
      ensures old(user).Some? && !allComplete ==>
        outcome == NotFinished && user == old(user) && drafts == AfterSave(old(drafts), old(user).value, defaultKit, s)
      ensures old(user).Some? && allComplete ==>
        var u := old(user).value;
        && drafts == AfterFinish(old(drafts), u, defaultKit, s)
        && user == Some(u.(onboarding_finished := true))
        && outcome == Finished(CommitRequest(u, SaveKit(u, defaultKit), AfterSave(old(drafts), u, defaultKit, s)[DraftKey(SaveKit(u, defaultKit))].steps, now, fieldsOf))
    {
      var saved := SaveStep(defaultKit, s);
      if !saved {
        return NoUser;
      }
      if !allComplete {
        return NotFinished;
      }
      var u := user.value;
      var kit := SaveKit(u, defaultKit);
      var key := DraftKey(kit);
      var d := drafts[key];
      drafts := drafts[key := d.(onboarding_finished := true)];
      user := Some(u.(onboarding_finished := true));
      outcome := Finished(CommitRequest(u, kit, d.steps, now, fieldsOf));
    }
  }
}
