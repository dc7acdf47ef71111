// What the kit pages and the dashboard derive from a project: the current
// onboarding step and which steps are locked or active, the current build
// phase, the "continue" list, the task list and the onboarding link.

module KitContent {
  import opened Wrappers
  import opened Text
  import opened OnboardingTypes

  /** An onboarding step as the project view carries it. */
  datatype StepSummary = StepSummary(
    id: string,
    step_number: int,
    title: string,
    status: StepStatus,
    time_estimate: string,
    required_fields_completed: int,
    required_fields_total: int)

  datatype KitProject = KitProject(onboarding_steps: Option<seq<StepSummary>>, onboarding_percent: int)

  /** One card of the step strip. */
  datatype StepCard = StepCard(href: string, locked: bool, active: bool, complete: bool)

  datatype KitView =
    | Placeholder
    | Wizard(current: Option<nat>, cards: seq<StepCard>, caption_step: int, percent: int)

  function StepsOf(p: KitProject): seq<StepSummary> {
    if p.onboarding_steps.Some? then p.onboarding_steps.value else []
  }

  predicate HasStatus(steps: seq<StepSummary>, st: StepStatus) {
    exists i :: 0 <= i < |steps| && steps[i].status == st
  }

  /** The first step with the given status. */
  function FindStep(steps: seq<StepSummary>, st: StepStatus): (r: Option<nat>)
    ensures r.None? <==> !HasStatus(steps, st)
    ensures r.Some? ==> (r.value < |steps| && steps[r.value].status == st
      && forall j :: 0 <= j < r.value ==> steps[j].status != st)
  {
    if steps == [] then None
    else if steps[0].status == st then Some(0)
    else
      var r := FindStep(steps[1..], st);
      if r.Some? then
        assert steps[r.value + 1] == steps[1..][r.value];
        Some(r.value + 1)
      else
        assert forall i :: 1 <= i < |steps| ==> steps[i] == steps[1..][i - 1];
        None
  }

  /**
   * The current step: the first IN_PROGRESS step, else the first
   * NOT_STARTED step, else the first step; none only for an empty list.
   */
  function CurrentStep(steps: seq<StepSummary>): (r: Option<nat>)
    ensures r.None? <==> steps == []
    ensures r.Some? ==> r.value < |steps|
    ensures HasStatus(steps, StepInProgress) ==> (r.Some? && steps[r.value].status == StepInProgress
      && forall j :: 0 <= j < r.value ==> steps[j].status != StepInProgress)
    ensures !HasStatus(steps, StepInProgress) && HasStatus(steps, StepNotStarted) ==>
      (r.Some? && steps[r.value].status == StepNotStarted
       && forall j :: 0 <= j < r.value ==> steps[j].status != StepNotStarted)
    ensures !HasStatus(steps, StepInProgress) && !HasStatus(steps, StepNotStarted) && steps != [] ==> r == Some(0)
  {
    var a := FindStep(steps, StepInProgress);
    if a.Some? then a
    else
      var b := FindStep(steps, StepNotStarted);
      if b.Some? then b
      else if steps == [] then None
      else Some(0)
  }

  /** A step is locked when it is not the first and the one before it is not DONE. */
  predicate IsLocked(steps: seq<StepSummary>, i: int)
    requires 0 <= i < |steps|
  {
    i > 0 && steps[i - 1].status != StepDone
  }

  /** A step is active when its id is the current step's id. */
  predicate IsActive(steps: seq<StepSummary>, i: int)
    requires 0 <= i < |steps|
  {
    var c := CurrentStep(steps);
    c.Some? && steps[i].id == steps[c.value].id
  }

  predicate UniqueIds(steps: seq<StepSummary>) {
    forall i, j :: 0 <= i < j < |steps| ==> steps[i].id != steps[j].id
  }

  /** With distinct ids, exactly the current step is active. */
  lemma ExactlyOneActive(steps: seq<StepSummary>)
    requires UniqueIds(steps) && steps != []
    ensures forall i :: 0 <= i < |steps| ==> (IsActive(steps, i) <==> Some(i) == CurrentStep(steps))
  {
    var c := CurrentStep(steps).value;
    assert forall i :: 0 <= i < |steps| && i != c ==> steps[i].id != steps[c].id;
  }

  /**
   * When every step is DONE, the first step is current and none is locked;
   * and in any list the first step is never locked.
   */
  lemma AllDoneUnlocked(steps: seq<StepSummary>)
    requires steps != []
    ensures !IsLocked(steps, 0)
    ensures (forall i :: 0 <= i < |steps| ==> steps[i].status == StepDone) ==>
      CurrentStep(steps) == Some(0) && forall i :: 0 <= i < |steps| ==> !IsLocked(steps, i)
  {
    if forall i :: 0 <= i < |steps| ==> steps[i].status == StepDone {
      assert !HasStatus(steps, StepInProgress) && !HasStatus(steps, StepNotStarted);
    }
  }

  /** The caption's step: the current step's number, or 1 when there is none or it is 0. */
  function CaptionStep(steps: seq<StepSummary>): (n: int)
    ensures CurrentStep(steps).None? ==> n == 1
    ensures CurrentStep(steps).Some? ==>
      n == (if steps[CurrentStep(steps).value].step_number != 0 then steps[CurrentStep(steps).value].step_number else 1)
    ensures n != 0
  {
    var c := CurrentStep(steps);
    if c.Some? && steps[c.value].step_number != 0 then steps[c.value].step_number else 1
  }

  function StepHref(kitPath: string, n: int): (s: string)
    ensures StartsWith(s, kitPath + "/onboarding/step-")
  {
    var prefix := kitPath + "/onboarding/step-";
    assert (prefix + IntString(n))[..|prefix|] == prefix;
    prefix + IntString(n)
  }

  /**
   * The kit page: a placeholder without a project; otherwise one card per
   * step, locked, active and complete by the rules above. A click on a
   * locked card is cancelled, so a card navigates exactly when it is not locked.
   */
  function Render(p: Option<KitProject>, kitPath: string): (v: KitView)
    ensures p.None? <==> v.Placeholder?
    ensures p.Some? ==>
      var steps := StepsOf(p.value);
      && v.current == CurrentStep(steps)
      && v.caption_step == CaptionStep(steps)
      && v.percent == p.value.onboarding_percent
      && |v.cards| == |steps|
      && forall i :: 0 <= i < |steps| ==>
        && v.cards[i].locked == IsLocked(steps, i)
        && v.cards[i].active == IsActive(steps, i)
        && (v.cards[i].complete <==> steps[i].status == StepDone)
        && v.cards[i].href == StepHref(kitPath, steps[i].step_number)
  {
    if p.None? then Placeholder
    else
      var steps := StepsOf(p.value);
      var cards := seq(|steps|, i requires 0 <= i < |steps| =>
        StepCard(StepHref(kitPath, steps[i].step_number), IsLocked(steps, i), IsActive(steps, i),
                 steps[i].status == StepDone));
      Wizard(CurrentStep(steps), cards, CaptionStep(steps), p.value.onboarding_percent)
  }

  const LaunchKitPath := "/launch-kit"
  const GrowthKitPath := "/growth-kit"

  /** The launch kit page: every card links under the launch kit's onboarding. */
  function LaunchKitView(p: Option<KitProject>): (v: KitView)
    ensures p.None? <==> v.Placeholder?
    ensures v.Wizard? ==> forall i :: 0 <= i < |v.cards| ==> StartsWith(v.cards[i].href, LaunchKitPath + "/onboarding/step-")
  {
    Render(p, LaunchKitPath)
  }

  /** The growth kit page: the same rules, every card linking under the growth kit's onboarding. */
  function GrowthKitView(p: Option<KitProject>): (v: KitView)
    ensures p.None? <==> v.Placeholder?
    ensures v.Wizard? ==> forall i :: 0 <= i < |v.cards| ==> StartsWith(v.cards[i].href, GrowthKitPath + "/onboarding/step-")
  {
    Render(p, GrowthKitPath)
  }
}

module Dashboard {
  import opened Wrappers
  import opened Text
  import opened OnboardingTypes
  import opened PhaseStructure
  import opened KitContent
  import ProgressRoute
  import ListOps

  datatype DashProject = DashProject(
    kit_type: string,
    onboarding_steps: Option<seq<StepSummary>>,
    phases: Option<seq<MergedPhase>>)

  /** One entry of the "continue" list. */
  datatype ContinueItem = ContinueItem(id: string, title: string, stepNumber: int, kitType: string,
                                       completed: int, total: int, status: StepStatus)

  datatype TaskKind = PhaseTask | OnboardingTask

  datatype Task = Task(id: string, title: string, kind: TaskKind, description: string, status: string)

  function StepsIn(p: Option<DashProject>): seq<StepSummary> {
    if p.Some? && p.value.onboarding_steps.Some? then p.value.onboarding_steps.value else []
  }

  function PhasesIn(p: Option<DashProject>): seq<MergedPhase> {
    if p.Some? && p.value.phases.Some? then p.value.phases.value else []
  }

  function Min(a: int, b: int): int {
    if a <= b then a else b
  }

  /** The number of DONE steps. */
  function CompletedSteps(steps: seq<StepSummary>): (n: nat)
    ensures n <= |steps|
    ensures n == |steps| <==> forall i :: 0 <= i < |steps| ==> steps[i].status == StepDone
    ensures n == 0 <==> forall i :: 0 <= i < |steps| ==> steps[i].status != StepDone
  {
    if steps == [] then 0
    else
      var rest := CompletedSteps(steps[1..]);
      assert forall i :: 1 <= i < |steps| ==> steps[i] == steps[1..][i - 1];
      (if steps[0].status == StepDone then 1 else 0) + rest
  }

  /** The onboarding card's "c/t completed": the step count, or 3 when there are no steps. */
  function OnboardingCard(steps: seq<StepSummary>): (c: (nat, nat))
    ensures c.0 == CompletedSteps(steps) && c.0 <= c.1
    ensures c.1 == (if steps == [] then 3 else |steps|)
  {
    (CompletedSteps(steps), if |steps| == 0 then 3 else |steps|)
  }

  /**
   * The dashboard's current phase: the first IN_PROGRESS phase, else the
   * first WAITING_ON_CLIENT phase, else none; a DONE phase is never chosen.
   */
  function CurrentPhase(phases: seq<MergedPhase>): (r: Option<nat>)
    ensures r.Some? ==> r.value < |phases| && phases[r.value].status in {InProgress, WaitingOnClient}
    ensures r.None? <==> forall i :: 0 <= i < |phases| ==> phases[i].status !in {InProgress, WaitingOnClient}
    ensures ProgressRoute.HasStatus(phases, InProgress) ==> (r.Some? && phases[r.value].status == InProgress
      && forall j :: 0 <= j < r.value ==> phases[j].status != InProgress)
  {
    var a := ProgressRoute.FindStatus(phases, InProgress);
    if a.Some? then a else ProgressRoute.FindStatus(phases, WaitingOnClient)
  }

  /**
   * Whenever the dashboard shows a current phase, the progress endpoint
   * reports the same one; when it shows none, the endpoint reports a DONE
   * phase or the first phase (or none for no phases).
   */
  lemma CurrentPhaseAgrees(phases: seq<MergedPhase>)
    ensures CurrentPhase(phases).Some? ==> ProgressRoute.SelectCurrentPhase(phases) == CurrentPhase(phases)
    ensures CurrentPhase(phases).None? && phases != [] ==>
      ProgressRoute.SelectCurrentPhase(phases).Some?
      && var k := ProgressRoute.SelectCurrentPhase(phases).value;
         phases[k].status == Done || k == 0
  {
    var c := CurrentPhase(phases);
    var s := ProgressRoute.SelectCurrentPhase(phases);
    if c.Some? && phases[c.value].status == WaitingOnClient {
      assert !ProgressRoute.HasStatus(phases, InProgress);
    }
  }

  /** The Build Progress card: "n/4 phases" for the current phase, else "Not started". */
  function BuildProgressLabel(phases: seq<MergedPhase>): (s: string)
    ensures CurrentPhase(phases).None? ==> s == "Not started"
    ensures CurrentPhase(phases).Some? ==> s == IntString(phases[CurrentPhase(phases).value].phase_number) + "/4 phases"
  {
    var c := CurrentPhase(phases);
    if c.Some? then IntString(phases[c.value].phase_number) + "/4 phases" else "Not started"
  }

  /** The Project Status card: the current phase's title, else "Onboarding". */
  function ProjectStatusLabel(phases: seq<MergedPhase>): (s: string)
    ensures s != ""
    ensures CurrentPhase(phases).Some? && phases[CurrentPhase(phases).value].title != "" ==>
      s == phases[CurrentPhase(phases).value].title
  {
    var c := CurrentPhase(phases);
    if c.Some? && phases[c.value].title != "" then phases[c.value].title else "Onboarding"
  }

  predicate Unfinished(s: StepSummary) {
    s.status != StepDone
  }

  /** The steps that are not DONE, in their order: `filter(step => step.status !== 'DONE')`. */
  function NotDone(steps: seq<StepSummary>): (r: seq<StepSummary>)
    ensures r == ListOps.Filter(steps, Unfinished)
    ensures |r| == |steps| - CompletedSteps(steps)
  {
    if steps == [] then []
    else
      var rest := NotDone(steps[1..]);
      if Unfinished(steps[0]) then [steps[0]] + rest else rest
  }

  /** The first step that is not DONE. */
  function FirstNotDone(steps: seq<StepSummary>): (r: Option<nat>)
    ensures r.None? <==> forall i :: 0 <= i < |steps| ==> steps[i].status == StepDone
    ensures r.Some? ==> (r.value < |steps| && steps[r.value].status != StepDone
      && forall j :: 0 <= j < r.value ==> steps[j].status == StepDone)
  {
    if steps == [] then None
    else if steps[0].status != StepDone then Some(0)
    else
      var r := FirstNotDone(steps[1..]);
      if r.Some? then
        assert steps[r.value + 1] == steps[1..][r.value];
        Some(r.value + 1)
      else
        assert forall i :: 1 <= i < |steps| ==> steps[i] == steps[1..][i - 1];
        None
  }

  /** The not-DONE list starts with the first step that is not DONE. */
  lemma {:induction false} NotDoneHead(steps: seq<StepSummary>)
    ensures NotDone(steps) != [] <==> FirstNotDone(steps).Some?
    ensures NotDone(steps) != [] ==> NotDone(steps)[0] == steps[FirstNotDone(steps).value]
  {
    if steps != [] && steps[0].status == StepDone {
      NotDoneHead(steps[1..]);
    }
  }

  function ItemOf(s: StepSummary, kit: string): ContinueItem {
    ContinueItem(s.id, s.title, s.step_number, kit, s.required_fields_completed, s.required_fields_total, s.status)
  }

  /** The kit the dashboard links to: the project's kit type, else LAUNCH. */
  function KitOf(p: Option<DashProject>): (k: string)
    ensures k != ""
  {
    if p.Some? && p.value.kit_type != "" then p.value.kit_type else LAUNCH
  }

  /** "Continue working": the first three steps that are not DONE, in order. */
  function ContinueItems(p: Option<DashProject>): (r: seq<ContinueItem>)
    ensures |r| == Min(3, |StepsIn(p)| - CompletedSteps(StepsIn(p)))
    ensures forall i :: 0 <= i < |r| ==> r[i] == ItemOf(NotDone(StepsIn(p))[i], KitOf(p))
  {
    var nd := NotDone(StepsIn(p));
    var k := Min(3, |nd|);
    seq(k, i requires 0 <= i < k => ItemOf(nd[i], KitOf(p)))
  }

  function OnboardingPath(kit: string, n: int): string {
    "/" + Lower(kit) + "-kit/onboarding/step-" + IntString(n)
  }

  /** The hero button: "Continue Onboarding" exactly when some step is not DONE, aimed at the first such step. */
  function ContinueTarget(p: Option<DashProject>): (r: Option<string>)
    ensures r.Some? <==> p.Some? && FirstNotDone(StepsIn(p)).Some?
    ensures r.Some? ==> r.value == OnboardingPath(p.value.kit_type, StepsIn(p)[FirstNotDone(StepsIn(p)).value].step_number)
  {
    var f := FirstNotDone(StepsIn(p));
    if p.Some? && f.Some? then Some(OnboardingPath(p.value.kit_type, StepsIn(p)[f.value].step_number)) else None
  }

  /** The first "continue" item is the step the hero button opens. */
  lemma ContinueListLeadsWithTarget(p: Option<DashProject>)
    requires p.Some?
    ensures ContinueItems(p) != [] <==> ContinueTarget(p).Some?
    ensures ContinueItems(p) != [] ==> ContinueItems(p)[0].stepNumber == StepsIn(p)[FirstNotDone(StepsIn(p)).value].step_number
  {
    NotDoneHead(StepsIn(p));
  }

  /** A phase task's description: the subtitle, else the day range, else "Project phase". */
  function Description(ph: MergedPhase): (s: string)
    ensures s != ""
    ensures Truthy(ph.subtitle) ==> s == ph.subtitle.value
    ensures !Truthy(ph.subtitle) && ph.day_range != "" ==> s == ph.day_range
  {
    if Truthy(ph.subtitle) then ph.subtitle.value else if ph.day_range != "" then ph.day_range else "Project phase"
  }

  /** The first three phases as tasks. */
  function PhaseTasks(phases: seq<MergedPhase>): (r: seq<Task>)
    ensures |r| == Min(3, |phases|)
    ensures forall i :: 0 <= i < |r| ==> (r[i].kind == PhaseTask && r[i].title == phases[i].title
      && r[i].description == Description(phases[i]) && r[i].id == phases[i].phase_id)
  {
    var k := Min(3, |phases|);
    seq(k, i requires 0 <= i < k => Task(phases[i].phase_id, phases[i].title, PhaseTask, Description(phases[i]), phases[i].status.Name()))
  }

  /**
   * The task list: the phase tasks when there are phases, else the first
   * three steps as "Step n of total" tasks.
   */
  function DisplayTasks(p: Option<DashProject>): (r: seq<Task>)
    ensures |r| <= 3
    ensures PhasesIn(p) != [] ==> r == PhaseTasks(PhasesIn(p))
    ensures PhasesIn(p) == [] ==> (|r| == Min(3, |StepsIn(p)|)
      && forall i :: 0 <= i < |r| ==> (r[i].kind == OnboardingTask && r[i].id == StepsIn(p)[i].id
        && r[i].description == "Step " + IntString(StepsIn(p)[i].step_number) + " of " + IntString(OnboardingCard(StepsIn(p)).1)))
  {
    var tasks := PhaseTasks(PhasesIn(p));
    if |tasks| > 0 then tasks
    else
      var steps := StepsIn(p);
      var total := OnboardingCard(steps).1;
      var k := Min(3, |steps|);
      seq(k, i requires 0 <= i < k =>
        Task(steps[i].id, steps[i].title, OnboardingTask, "Step " + IntString(steps[i].step_number) + " of " + IntString(total),
             steps[i].status.Name()))
  }
}
