// GET /api/my-project/progress: the progress figures of the caller's
// project, computed from its merged phases.

module ProgressRoute {
  import opened Wrappers
  import opened PhaseStructure
  import opened Records
  import opened PhaseRows
  import opened Identity
  import opened Percent

  const TOTAL_DAYS := 14

  datatype Overall = Overall(
    total_phases: nat,
    completed_phases: nat,
    in_progress_phases: nat,
    not_started_phases: nat,
    phase_completion_percent: int)

  /** Checklist figures; percentages are in tenths of a percent. */
  datatype ChecklistProgress = ChecklistProgress(
    total_items: nat,
    completed_items: nat,
    remaining_items: int,
    completion_tenths: int)

  datatype Completion = Completion(completed: nat, total: nat, percent_tenths: int)

  datatype CurrentPhase = CurrentPhase(
    phase_id: string,
    phase_number: int,
    title: string,
    status: Status,
    checklist_completion: Completion)

  datatype Timeline = Timeline(current_day: int, total_days: int, days_remaining: int, percent_tenths: int)

  datatype Progress = Progress(
    overall: Overall,
    checklist: ChecklistProgress,
    current_phase: Option<CurrentPhase>,
    from_us: Option<string>,
    from_you: Option<string>,
    timeline: Timeline)

  datatype Response = Unauthorized | NotFound | Found(progress: Progress)

  function CountStatus(ps: seq<MergedPhase>, st: Status): (n: nat)
    ensures n <= |ps|
  {
    if ps == [] then 0 else (if ps[0].status == st then 1 else 0) + CountStatus(ps[1..], st)
  }

  /** Every phase has exactly one of the four statuses. */
  lemma {:induction false} StatusCountsPartition(ps: seq<MergedPhase>)
    ensures CountStatus(ps, NotStarted) + CountStatus(ps, InProgress)
      + CountStatus(ps, WaitingOnClient) + CountStatus(ps, Done) == |ps|
  {
    if ps != [] {
      StatusCountsPartition(ps[1..]);
    }
  }

  function DoneCount(items: seq<ChecklistItem>): (n: nat)
    ensures n <= |items|
  {
    if items == [] then 0 else (if items[0].is_done then 1 else 0) + DoneCount(items[1..])
  }

  function TotalItems(ps: seq<MergedPhase>): nat {
    if ps == [] then 0 else |ps[0].checklist| + TotalItems(ps[1..])
  }

  function DoneItems(ps: seq<MergedPhase>): nat {
    if ps == [] then 0 else DoneCount(ps[0].checklist) + DoneItems(ps[1..])
  }

  /** Done items never outnumber items. */
  lemma {:induction false} DoneItemsBounded(ps: seq<MergedPhase>)
    ensures DoneItems(ps) <= TotalItems(ps)
  {
    if ps != [] {
      DoneItemsBounded(ps[1..]);
    }
  }

  /** The merged plan has exactly the plan's items, whatever the stored state. */
  lemma {:induction false} MergedItemCount(plan: seq<PhaseDef>, st: Option<map<string, PhaseState>>)
    ensures TotalItems(Merge(plan, st)) == ItemCount(plan)
  {
    if plan != [] {
      var ps := Merge(plan, st);
      assert ps[1..] == Merge(plan[1..], st);
      assert |ps[0].checklist| == |Labels(ps[0].checklist)| == |plan[0].checklist|;
      MergedItemCount(plan[1..], st);
    }
  }

  /** The item-counting loops: every item of every phase, and the done ones. */
  method CountChecklistItems(ps: seq<MergedPhase>) returns (total: nat, completed: nat)
    ensures total == TotalItems(ps) && completed == DoneItems(ps)
  {
    total, completed := 0, 0;
    var i := 0;
    while i < |ps|
      invariant 0 <= i <= |ps|
      invariant total + TotalItems(ps[i..]) == TotalItems(ps)
      invariant completed + DoneItems(ps[i..]) == DoneItems(ps)
    {
      assert ps[i..][1..] == ps[i + 1..];
      var items := ps[i].checklist;
      var j := 0;
      while j < |items|
        invariant 0 <= j <= |items|
        invariant total + (|items| - j) + TotalItems(ps[i + 1..]) == TotalItems(ps)
        invariant completed + DoneCount(items[j..]) + DoneItems(ps[i + 1..]) == DoneItems(ps)
      {
        assert items[j..][1..] == items[j + 1..];
        total := total + 1;
        if items[j].is_done {
          completed := completed + 1;
        }
        j := j + 1;
      }
      i := i + 1;
    }
  }

  /** Index of the first phase with status `st`. */
  function FindStatus(ps: seq<MergedPhase>, st: Status): (r: Option<nat>)
    ensures r.None? <==> forall i :: 0 <= i < |ps| ==> ps[i].status != st
    ensures r.Some? ==>
      (r.value < |ps| && ps[r.value].status == st && forall j :: 0 <= j < r.value ==> ps[j].status != st)
  {
    if ps == [] then None
    else if ps[0].status == st then Some(0)
    else
      var r := FindStatus(ps[1..], st);
      if r.Some? then Some(r.value + 1) else None
  }

  /**
   * `i` is the head of the DONE phases sorted by phase number, highest
   * first, with a stable sort: the highest number, and the earliest phase
   * among equal numbers.
   */
  predicate TopDoneAt(ps: seq<MergedPhase>, i: int) {
    && 0 <= i < |ps| && ps[i].status == Done
    && (forall j :: 0 <= j < |ps| && ps[j].status == Done ==> ps[j].phase_number <= ps[i].phase_number)
    && (forall j :: 0 <= j < i && ps[j].status == Done ==> ps[j].phase_number < ps[i].phase_number)
  }

  function HighestDone(ps: seq<MergedPhase>): (r: Option<nat>)
    ensures r.None? <==> forall i :: 0 <= i < |ps| ==> ps[i].status != Done
    ensures r.Some? ==> TopDoneAt(ps, r.value)
  {
    if ps == [] then None
    else
      var rest := HighestDone(ps[1..]);
      if ps[0].status == Done && (rest.None? || ps[0].phase_number >= ps[1..][rest.value].phase_number) then
        Some(0)
      else if rest.Some? then
        Some(rest.value + 1)
      else
        None
  }

  predicate HasStatus(ps: seq<MergedPhase>, st: Status) {
    exists i :: 0 <= i < |ps| && ps[i].status == st
  }

  /**
   * The current phase: the first IN_PROGRESS phase, else the first waiting
   * on the client, else the highest-numbered DONE phase, else the first
   * phase; nothing only when there are no phases.
   */
  function SelectCurrentPhase(ps: seq<MergedPhase>): (r: Option<nat>)
    ensures r.None? <==> ps == []
    ensures r.Some? ==> r.value < |ps|
    ensures HasStatus(ps, InProgress) ==>
      (r.Some? && ps[r.value].status == InProgress && forall j :: 0 <= j < r.value ==> ps[j].status != InProgress)
    ensures !HasStatus(ps, InProgress) && HasStatus(ps, WaitingOnClient) ==>
      (r.Some? && ps[r.value].status == WaitingOnClient
       && forall j :: 0 <= j < r.value ==> ps[j].status != WaitingOnClient)
    ensures !HasStatus(ps, InProgress) && !HasStatus(ps, WaitingOnClient) && HasStatus(ps, Done) ==>
      r.Some? && TopDoneAt(ps, r.value)
    ensures ps != [] && !HasStatus(ps, InProgress) && !HasStatus(ps, WaitingOnClient) && !HasStatus(ps, Done) ==>
      r == Some(0)
  {
    var inProgress := FindStatus(ps, InProgress);
    var waiting := FindStatus(ps, WaitingOnClient);
    var done := HighestDone(ps);
    if inProgress.Some? then inProgress
    else if waiting.Some? then waiting
    else if done.Some? then done
    else if ps != [] then Some(0)
    else None
  }

  /** The current phase's checklist: its done items, its items, and the rounded tenths of their ratio. */
  function CompletionOf(p: MergedPhase): (c: Completion)
    ensures c.completed == DoneCount(p.checklist) && c.total == |p.checklist|
    ensures c.percent_tenths == RoundTenths(c.completed, c.total)
    ensures c.completed <= c.total && 0 <= c.percent_tenths <= 1000
  {
    TenthsBounds(DoneCount(p.checklist), |p.checklist|);
    Completion(DoneCount(p.checklist), |p.checklist|, RoundTenths(DoneCount(p.checklist), |p.checklist|))
  }

  /** Day `currentDayOf14 || 0`; the percentage is not clamped. */
  function TimelineOf(day: Option<int>): (t: Timeline)
    ensures t.current_day == day.GetOr(0) && t.total_days == TOTAL_DAYS
    ensures t.days_remaining == (if TOTAL_DAYS - t.current_day > 0 then TOTAL_DAYS - t.current_day else 0)
    ensures t.percent_tenths == RoundTenths(t.current_day, TOTAL_DAYS)
    ensures t.days_remaining >= 0
    ensures 0 <= t.current_day <= TOTAL_DAYS ==>
      t.days_remaining == TOTAL_DAYS - t.current_day && 0 <= t.percent_tenths <= 1000
    ensures t.current_day > TOTAL_DAYS ==> t.days_remaining == 0 && t.percent_tenths > 1000
  {
    var d := day.GetOr(0);
    Timeline(d, TOTAL_DAYS, if TOTAL_DAYS - d > 0 then TOTAL_DAYS - d else 0, RoundTenths(d, TOTAL_DAYS))
  }

  /** The current phase as reported: its id, number, title and status, and its checklist figures. */
  function CurrentOf(p: MergedPhase): CurrentPhase {
    CurrentPhase(p.phase_id, p.phase_number, p.title, p.status, CompletionOf(p))
  }

  function MergedPhasesOf(c: Client): seq<MergedPhase> {
    Merge(GetPhaseStructureForKitType(c.plan), StateArg(RowsToState(c.phaseStates)))
  }

  /** The figures for one merged plan, given its item totals. */
  function Figures(c: Client, ps: seq<MergedPhase>, total: nat, completed: nat): Progress {
    var cur := SelectCurrentPhase(ps);
    Progress(
      Overall(|ps|, CountStatus(ps, Done), CountStatus(ps, InProgress), CountStatus(ps, NotStarted),
        RoundPercent(CountStatus(ps, Done), |ps|)),
      ChecklistProgress(total, completed, total - completed, RoundTenths(completed, total)),
      if cur.Some? then
        Some(CurrentOf(ps[cur.value]))
      else None,
      c.nextFromUs, c.nextFromYou,
      TimelineOf(c.currentDayOf14))
  }

  function ProgressOf(c: Client): Progress {
    var ps := MergedPhasesOf(c);
    Figures(c, ps, TotalItems(ps), DoneItems(ps))
  }

  function ProgressResponse(header: Option<HeaderUser>, emailParam: Option<string>,
                            userIdOf: string -> string, clients: seq<Client>): Response
  {
    var who := ResolveCaller(header, emailParam, userIdOf);
    if who.None? then Unauthorized
    else
      var c := FindClient(clients, who.value);
      if c.None? then NotFound else Found(ProgressOf(c.value))
  }

  /**
   * What the progress figures always satisfy: four phases, phase counts that
   * add up, a phase percentage in steps of 25, every plan item counted once
   * with the done ones among them, and a current phase chosen by priority
   * with its own checklist figures; the next actions and the timeline come
   * from the client.
   */
  lemma ProgressInvariants(c: Client)
    ensures var p := ProgressOf(c); var ps := MergedPhasesOf(c);
      && p.overall.total_phases == 4
      && p.overall.completed_phases == CountStatus(ps, Done)
      && p.overall.in_progress_phases == CountStatus(ps, InProgress)
      && p.overall.not_started_phases == CountStatus(ps, NotStarted)
      && p.overall.completed_phases + p.overall.in_progress_phases + p.overall.not_started_phases <= 4
      && p.overall.phase_completion_percent == 25 * p.overall.completed_phases
      && p.checklist.total_items == (if c.plan == LAUNCH then 15 else 18)
      && p.checklist.completed_items == DoneItems(ps)
      && p.checklist.completed_items <= p.checklist.total_items
      && p.checklist.remaining_items == p.checklist.total_items - p.checklist.completed_items
      && p.checklist.completion_tenths == RoundTenths(p.checklist.completed_items, p.checklist.total_items)
      && 0 <= p.checklist.completion_tenths <= 1000
      && SelectCurrentPhase(ps).Some?
      && p.current_phase == Some(CurrentOf(ps[SelectCurrentPhase(ps).value]))
      && p.from_us == c.nextFromUs && p.from_you == c.nextFromYou
      && p.timeline == TimelineOf(c.currentDayOf14)
  {
    ProgressValues(c);
    PlanCounts(c);
  }

  /** The counts behind the figures: four phases, 15 or 18 items, and the bounds they keep. */
  lemma PlanCounts(c: Client)
    ensures var ps := MergedPhasesOf(c); var done := CountStatus(ps, Done);
      && |ps| == 4
      && done + CountStatus(ps, InProgress) + CountStatus(ps, NotStarted) <= 4
      && RoundPercent(done, |ps|) == 25 * done
      && TotalItems(ps) == (if c.plan == LAUNCH then 15 else 18)
      && DoneItems(ps) <= TotalItems(ps)
      && 0 <= RoundTenths(DoneItems(ps), TotalItems(ps)) <= 1000
  {
    var ps := MergedPhasesOf(c);
    StatusCountsPartition(ps);
    var done := CountStatus(ps, Done);
    QuarterPercent(done);
    MergedItemCount(GetPhaseStructureForKitType(c.plan), StateArg(RowsToState(c.phaseStates)));
    CatalogShape();
    DoneItemsBounded(ps);
    TenthsBounds(DoneItems(ps), TotalItems(ps));
  }

  /** Out of four phases, each done phase is 25 percent. */
  lemma QuarterPercent(done: nat)
    requires done <= 4
    ensures RoundPercent(done, 4) == 25 * done
  {
    if done == 0 {} else if done == 1 {} else if done == 2 {} else if done == 3 {} else {}
  }

  /** Where each figure of the response comes from. */
  lemma ProgressValues(c: Client)
    ensures var p := ProgressOf(c); var ps := MergedPhasesOf(c);
      && p.overall == Overall(|ps|, CountStatus(ps, Done), CountStatus(ps, InProgress), CountStatus(ps, NotStarted),
           RoundPercent(CountStatus(ps, Done), |ps|))
      && p.checklist == ChecklistProgress(TotalItems(ps), DoneItems(ps), TotalItems(ps) - DoneItems(ps),
           RoundTenths(DoneItems(ps), TotalItems(ps)))
      && (SelectCurrentPhase(ps).Some? ==> p.current_phase == Some(CurrentOf(ps[SelectCurrentPhase(ps).value])))
      && p.from_us == c.nextFromUs && p.from_you == c.nextFromYou
      && p.timeline == TimelineOf(c.currentDayOf14)
  {
  }

  /** The route handler: resolves the caller, finds the project and counts its items with the loops above. */
  method Get(header: Option<HeaderUser>, emailParam: Option<string>, userIdOf: string -> string,
             clients: seq<Client>) returns (resp: Response)
    ensures resp == ProgressResponse(header, emailParam, userIdOf, clients)
    ensures resp.Found? ==> resp.progress.checklist.completed_items <= resp.progress.checklist.total_items
  {
    var who := ResolveCaller(header, emailParam, userIdOf);
    if who.None? {
      return Unauthorized;
    }
    var found := FindClient(clients, who.value);
    if found.None? {
      return NotFound;
    }
    var c := found.value;
    var state := BuildPhasesState(c.phaseStates);
    var ps := Merge(GetPhaseStructureForKitType(c.plan), StateArg(state));
    var total, completed := CountChecklistItems(ps);
    DoneItemsBounded(ps);
    resp := Found(Figures(c, ps, total, completed));
  }
}
