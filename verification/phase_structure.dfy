// The fixed four-phase plans of the two kits and the merge of a plan with
// the per-phase state a project stores.

module PhaseStructure {
  import opened Wrappers

  const LAUNCH: string := "LAUNCH"
  const GROWTH: string := "GROWTH"

  datatype Status = NotStarted | InProgress | WaitingOnClient | Done {
    /** The status as stored and sent over the wire. */
    function Name(): string {
      match this
      case NotStarted => "NOT_STARTED"
      case InProgress => "IN_PROGRESS"
      case WaitingOnClient => "WAITING_ON_CLIENT"
      case Done => "DONE"
    }
  }

  /** A link shown under a phase; `caption` is the source's `label` (a Dafny keyword). */
  datatype PhaseLink = PhaseLink(caption: string, url: Option<string>)

  /** One phase of a kit's plan: everything except progress is fixed here. */
  datatype PhaseDef = PhaseDef(
    phase_id: string,
    phase_number: int,
    title: string,
    subtitle: Option<string>,
    day_range: string,
    checklist: seq<string>,
    links: Option<seq<PhaseLink>>)

  /**
   * The stored progress of one phase; a status that is absent or empty is
   * `None`, and checklist entries are keyed by label.
   */
  datatype PhaseState = PhaseState(
    status: Option<Status>,
    started_at: Option<string>,
    completed_at: Option<string>,
    checklist: map<string, bool>)

  /** `text` is the source's item `label`. */
  datatype ChecklistItem = ChecklistItem(text: string, is_done: bool)

  /** A phase of the plan together with its progress. */
  datatype MergedPhase = MergedPhase(
    phase_id: string,
    phase_number: int,
    title: string,
    subtitle: Option<string>,
    day_range: string,
    links: Option<seq<PhaseLink>>,
    status: Status,
    started_at: Option<string>,
    completed_at: Option<string>,
    checklist: seq<ChecklistItem>)

  function Link(caption: string): PhaseLink {
    PhaseLink(caption, None)
  }

  const LaunchKitPhases: seq<PhaseDef> := [
    PhaseDef("PHASE_1", 1, "Inputs & clarity", Some("Lock the message and plan."), "Days 0-2",
      ["Onboarding steps completed",
       "Brand / strategy call completed",
       "Simple 14 day plan agreed"],
      None),
    PhaseDef("PHASE_2", 2, "Words that sell", Some("We write your 3 pages."), "Days 3-5",
      ["Draft homepage copy ready",
       "Draft offer / services page ready",
       "Draft contact / about copy ready",
       "You reviewed and approved copy"],
      Some([Link("View copy doc")])),
    PhaseDef("PHASE_3", 3, "Design & build", Some("We turn copy into a 3 page site."), "Days 6-10",
      ["Site layout built for all 3 pages",
       "Mobile checks done",
       "Testimonials and proof added",
       "Staging link shared with you"],
      Some([Link("View staging site")])),
    PhaseDef("PHASE_4", 4, "Test & launch", Some("We connect domain, test and go live."), "Days 11-14",
      ["Forms tested",
       "Domain connected",
       "Final tweaks applied",
       "Loom walkthrough recorded and shared"],
      Some([Link("View live site"), Link("Watch Loom walkthrough")]))
  ]

  const GrowthKitPhases: seq<PhaseDef> := [
    PhaseDef("PHASE_1", 1, "Strategy locked in", Some("Offer, goal and funnel map agreed."), "Days 0-2",
      ["Onboarding complete",
       "Strategy / funnel call done",
       "Main offer + 90 day goal confirmed",
       "Simple funnel map agreed"],
      None),
    PhaseDef("PHASE_2", 2, "Copy & email engine", Some("We write your site copy and 5 emails."), "Days 3-5",
      ["Draft website copy ready",
       "Draft 5-email nurture sequence ready",
       "You reviewed and approved copy",
       "Any changes locked in"],
      Some([Link("View website copy"), Link("View email sequence")])),
    PhaseDef("PHASE_3", 3, "Build the funnel", Some("Pages, lead magnet and blog hub built."), "Days 6-10",
      ["4-6 page site built on staging",
       "Lead magnet page + thank you page built",
       "Opt-in forms wired to your email platform",
       "Blog hub and 1-2 starter posts set up",
       "Staging link shared"],
      Some([Link("View staging funnel")])),
    PhaseDef("PHASE_4", 4, "Test & handover", Some("We test the full journey and go live."), "Days 11-14",
      ["Funnel tested from first visit to booked call",
       "Domain connected",
       "Tracking checked (Analytics / pixels)",
       "5-email sequence switched on",
       "Loom walkthrough recorded and shared"],
      Some([Link("View live funnel"), Link("Watch Loom walkthrough")]))
  ]

  /** Phases numbered 1..n in order, distinct ids, distinct labels within a phase. */
  predicate WellFormed(plan: seq<PhaseDef>) {
    && (forall i :: 0 <= i < |plan| ==> plan[i].phase_number == i + 1)
    && (forall i, j :: 0 <= i < j < |plan| ==> plan[i].phase_id != plan[j].phase_id)
    && (forall i :: 0 <= i < |plan| ==> DistinctLabels(plan[i].checklist))
  }

  predicate DistinctLabels(labels: seq<string>) {
    forall i, j :: 0 <= i < j < |labels| ==> labels[i] != labels[j]
  }

  function ItemCount(plan: seq<PhaseDef>): nat {
    if plan == [] then 0 else |plan[0].checklist| + ItemCount(plan[1..])
  }

  /** Both plans have four phases, numbered 1 to 4, with 15 and 18 checklist items. */
  lemma CatalogShape()
    ensures |LaunchKitPhases| == 4 && |GrowthKitPhases| == 4
    ensures WellFormed(LaunchKitPhases) && WellFormed(GrowthKitPhases)
    ensures ItemCount(LaunchKitPhases) == 15 && ItemCount(GrowthKitPhases) == 18
  {
    LaunchWellFormed();
    GrowthWellFormed();
    CatalogItemCounts();
  }

  lemma LaunchWellFormed()
    ensures |LaunchKitPhases| == 4 && WellFormed(LaunchKitPhases)
  {
    var plan := LaunchKitPhases;
    assert plan[0].phase_number == 1 && plan[1].phase_number == 2;
    assert plan[2].phase_number == 3 && plan[3].phase_number == 4;
    LaunchLabelsDistinct();
    PhaseIdsDistinct();
    FourPhasesWellFormed(plan);
  }

  lemma GrowthWellFormed()
    ensures |GrowthKitPhases| == 4 && WellFormed(GrowthKitPhases)
  {
    var plan := GrowthKitPhases;
    assert plan[0].phase_number == 1 && plan[1].phase_number == 2;
    assert plan[2].phase_number == 3 && plan[3].phase_number == 4;
    GrowthLabelsDistinct();
    PhaseIdsDistinct();
    FourPhasesWellFormed(plan);
  }

  /** Four phases numbered 1 to 4, with distinct ids and labels, are well formed. */
  lemma FourPhasesWellFormed(plan: seq<PhaseDef>)
    requires |plan| == 4
    requires plan[0].phase_number == 1 && plan[1].phase_number == 2
    requires plan[2].phase_number == 3 && plan[3].phase_number == 4
    requires forall i, j :: 0 <= i < j < |plan| ==> plan[i].phase_id != plan[j].phase_id
    requires forall i :: 0 <= i < |plan| ==> DistinctLabels(plan[i].checklist)
    ensures WellFormed(plan)
  {
  }

  lemma PhaseIdsDistinct()
    ensures forall i, j :: 0 <= i < j < |LaunchKitPhases| ==> LaunchKitPhases[i].phase_id != LaunchKitPhases[j].phase_id
    ensures forall i, j :: 0 <= i < j < |GrowthKitPhases| ==> GrowthKitPhases[i].phase_id != GrowthKitPhases[j].phase_id
  {
    var ids := ["PHASE_1", "PHASE_2", "PHASE_3", "PHASE_4"];
    assert forall i :: 0 <= i < 4 ==> LaunchKitPhases[i].phase_id == ids[i] && GrowthKitPhases[i].phase_id == ids[i];
    assert forall i :: 0 <= i < 4 ==> ids[i][6] == "1234"[i];
  }

  lemma CatalogItemCounts()
    ensures ItemCount(LaunchKitPhases) == 15 && ItemCount(GrowthKitPhases) == 18
  {
    assert ItemCount(LaunchKitPhases[3..]) == 4;
    assert ItemCount(LaunchKitPhases[2..]) == 8;
    assert ItemCount(LaunchKitPhases[1..]) == 12;
    assert ItemCount(GrowthKitPhases[3..]) == 5;
    assert ItemCount(GrowthKitPhases[2..]) == 10;
    assert ItemCount(GrowthKitPhases[1..]) == 14;
  }

  lemma LaunchLabelsDistinct()
    ensures forall i :: 0 <= i < |LaunchKitPhases| ==> DistinctLabels(LaunchKitPhases[i].checklist)
  {
    LaunchLabelsDistinctEarly();
    LaunchLabelsDistinctLate();
  }

  lemma LaunchLabelsDistinctEarly()
    ensures DistinctLabels(LaunchKitPhases[0].checklist) && DistinctLabels(LaunchKitPhases[1].checklist)
  {
    assert DistinctLabels(LaunchKitPhases[0].checklist);
  }

  lemma LaunchLabelsDistinctLate()
    ensures DistinctLabels(LaunchKitPhases[2].checklist) && DistinctLabels(LaunchKitPhases[3].checklist)
  {
    assert DistinctLabels(LaunchKitPhases[2].checklist);
  }

  lemma GrowthLabelsDistinct()
    ensures forall i :: 0 <= i < |GrowthKitPhases| ==> DistinctLabels(GrowthKitPhases[i].checklist)
  {
    GrowthLabelsDistinctEarly();
    GrowthLabelsDistinctLate();
  }

  lemma GrowthLabelsDistinctEarly()
    ensures DistinctLabels(GrowthKitPhases[0].checklist) && DistinctLabels(GrowthKitPhases[1].checklist)
  {
    assert DistinctLabels(GrowthKitPhases[0].checklist);
  }

  lemma GrowthLabelsDistinctLate()
    ensures DistinctLabels(GrowthKitPhases[2].checklist) && DistinctLabels(GrowthKitPhases[3].checklist)
  {
    assert DistinctLabels(GrowthKitPhases[2].checklist);
  }

  /** The LAUNCH plan exactly for the kit type "LAUNCH"; every other value gets the GROWTH plan. */
  function GetPhaseStructureForKitType(kit: string): (plan: seq<PhaseDef>)
    ensures |plan| == 4
    ensures (plan == LaunchKitPhases) <==> kit == LAUNCH
    ensures kit != LAUNCH ==> plan == GrowthKitPhases
  {
    assert LaunchKitPhases[0].title != GrowthKitPhases[0].title;
    if kit == LAUNCH then LaunchKitPhases else GrowthKitPhases
  }

  function Labels(items: seq<ChecklistItem>): (labels: seq<string>)
    ensures |labels| == |items|
  {
    seq(|items|, i requires 0 <= i < |items| => items[i].text)
  }

  /** The phase with no stored progress at all. */
  function Unstarted(def: PhaseDef): MergedPhase {
    MergedPhase(def.phase_id, def.phase_number, def.title, def.subtitle, def.day_range, def.links,
      NotStarted, None, None,
      seq(|def.checklist|, i requires 0 <= i < |def.checklist| => ChecklistItem(def.checklist[i], false)))
  }

  /** Stand-in for a phase the stored state does not mention. */
  const MissingState := PhaseState(Some(NotStarted), None, None, map[])

  /** A label is done when the stored checklist maps it to true. */
  function IsDone(st: PhaseState, text: string): bool {
    text in st.checklist && st.checklist[text]
  }

  function MergeOne(def: PhaseDef, st: PhaseState): MergedPhase {
    MergedPhase(def.phase_id, def.phase_number, def.title, def.subtitle, def.day_range, def.links,
      st.status.GetOr(NotStarted), OrNull(st.started_at), OrNull(st.completed_at),
      seq(|def.checklist|, i requires 0 <= i < |def.checklist| => ChecklistItem(def.checklist[i], IsDone(st, def.checklist[i]))))
  }

  function StateFor(states: map<string, PhaseState>, id: string): PhaseState {
    if id in states then states[id] else MissingState
  }

  /**
   * The plan with progress laid over it: one merged phase per plan phase, in
   * plan order, with the plan's own labels. Without stored state every phase
   * is unstarted.
   */
  function Merge(plan: seq<PhaseDef>, states: Option<map<string, PhaseState>>): (r: seq<MergedPhase>)
    ensures |r| == |plan|
    ensures forall i :: 0 <= i < |plan| ==>
      && r[i].phase_id == plan[i].phase_id && r[i].phase_number == plan[i].phase_number
      && r[i].title == plan[i].title && r[i].subtitle == plan[i].subtitle
      && r[i].day_range == plan[i].day_range && r[i].links == plan[i].links
      && Labels(r[i].checklist) == plan[i].checklist
  {
    match states
    case None => seq(|plan|, i requires 0 <= i < |plan| => Unstarted(plan[i]))
    case Some(m) => seq(|plan|, i requires 0 <= i < |plan| => MergeOne(plan[i], StateFor(m, plan[i].phase_id)))
  }

  /** Progress in a merged phase is exactly what the stored state says, with the defaults for what it omits. */
  lemma MergeReadsState(plan: seq<PhaseDef>, m: map<string, PhaseState>, i: int, j: int)
    requires 0 <= i < |plan| && 0 <= j < |plan[i].checklist|
    ensures var p := Merge(plan, Some(m))[i];
      var id := plan[i].phase_id;
      && p.checklist[j].is_done == (id in m && plan[i].checklist[j] in m[id].checklist && m[id].checklist[plan[i].checklist[j]])
      && p.status == (if id in m && m[id].status.Some? then m[id].status.value else NotStarted)
      && p.started_at == (if id in m then OrNull(m[id].started_at) else None)
      && p.completed_at == (if id in m then OrNull(m[id].completed_at) else None)
      && (p.started_at.Some? <==> id in m && Truthy(m[id].started_at))
      && (p.completed_at.Some? <==> id in m && Truthy(m[id].completed_at))
  {
  }

  /** No stored state and an empty state give the same merged plan. */
  lemma MergeNullIsEmpty(plan: seq<PhaseDef>)
    ensures Merge(plan, None) == Merge(plan, Some(map[]))
  {
    assert forall i :: 0 <= i < |plan| ==> Unstarted(plan[i]) == MergeOne(plan[i], MissingState);
  }

  /** State stored under an id the plan does not have is ignored. */
  lemma MergeIgnoresUnknownPhase(plan: seq<PhaseDef>, m: map<string, PhaseState>, id: string, st: PhaseState)
    requires forall i :: 0 <= i < |plan| ==> plan[i].phase_id != id
    ensures Merge(plan, Some(m[id := st])) == Merge(plan, Some(m))
  {
    assert forall i :: 0 <= i < |plan| ==> StateFor(m[id := st], plan[i].phase_id) == StateFor(m, plan[i].phase_id);
  }

  /** Checklist entries for labels the plan does not list are ignored. */
  lemma MergeIgnoresUnknownLabel(def: PhaseDef, st: PhaseState, text: string, b: bool)
    requires text !in def.checklist
    ensures MergeOne(def, st.(checklist := st.checklist[text := b])) == MergeOne(def, st)
  {
    var st' := st.(checklist := st.checklist[text := b]);
    assert forall i :: 0 <= i < |def.checklist| ==> IsDone(st', def.checklist[i]) == IsDone(st, def.checklist[i]);
  }

  function InitialChecklist(labels: seq<string>): (m: map<string, bool>)
    ensures m.Keys == set l | l in labels
    ensures forall l :: l in m ==> !m[l]
  {
    map l | l in labels :: false
  }

  /** The state a new project starts from, built phase by phase (a later duplicate id overwrites). */
  function InitialState(plan: seq<PhaseDef>): (m: map<string, PhaseState>)
    ensures m.Keys == set i | 0 <= i < |plan| :: plan[i].phase_id
    ensures forall id :: id in m ==>
      (&& m[id].status == Some(NotStarted) && m[id].started_at == None && m[id].completed_at == None
       && forall l :: l in m[id].checklist ==> !m[id].checklist[l])
  {
    if plan == [] then map[]
    else
      var last := plan[|plan| - 1];
      var rest := InitialState(plan[..|plan| - 1]);
      rest[last.phase_id := PhaseState(Some(NotStarted), None, None, InitialChecklist(last.checklist))]
  }

  /** A phase whose stored state is the initial one merges as an unstarted phase. */
  lemma MergeOneInitial(def: PhaseDef, st: PhaseState)
    requires st.status == Some(NotStarted) && st.started_at == None && st.completed_at == None
    requires forall l :: l in st.checklist ==> !st.checklist[l]
    ensures MergeOne(def, st) == Unstarted(def)
  {
    assert forall j :: 0 <= j < |def.checklist| ==> !IsDone(st, def.checklist[j]);
  }

  /** A freshly initialised project merges exactly like a project with no stored state. */
  lemma InitialStateMergesUnstarted(plan: seq<PhaseDef>)
    ensures Merge(plan, Some(InitialState(plan))) == Merge(plan, None)
  {
    var m := InitialState(plan);
    forall i | 0 <= i < |plan|
      ensures MergeOne(plan[i], StateFor(m, plan[i].phase_id)) == Unstarted(plan[i])
    {
      assert plan[i].phase_id in m;
      MergeOneInitial(plan[i], m[plan[i].phase_id]);
    }
  }

  /** The inner loop of the initialisation: every label of one phase, unticked. */
  method InitialChecklistOf(labels: seq<string>) returns (checklist: map<string, bool>)
    ensures checklist == InitialChecklist(labels)
  {
    checklist := map[];
    var j := 0;
    while j < |labels|
      invariant 0 <= j <= |labels|
      invariant checklist == InitialChecklist(labels[..j])
    {
      assert labels[..j + 1] == labels[..j] + [labels[j]];
      checklist := checklist[labels[j] := false];
      j := j + 1;
    }
    assert labels[..j] == labels;
  }

  /** Builds the initial state of a kit's plan, entry by entry, as the source's nested loops do. */
  method InitializePhasesState(kit: string) returns (state: map<string, PhaseState>)
    ensures state == InitialState(GetPhaseStructureForKitType(kit))
  {
    var plan := GetPhaseStructureForKitType(kit);
    state := map[];
    var i := 0;
    while i < |plan|
      invariant 0 <= i <= |plan|
      invariant state == InitialState(plan[..i])
    {
      var checklist := InitialChecklistOf(plan[i].checklist);
      assert plan[..i + 1][..i] == plan[..i];
      state := state[plan[i].phase_id := PhaseState(Some(NotStarted), None, None, checklist)];
      i := i + 1;
    }
    assert plan[..i] == plan;
  }
}
