// POST /api/onboarding/complete: validates the three-step submission, finds
// or creates the project for (email, kit), upserts one step row per
// submitted step keyed by (project, step number) and marks the project
// finished with the recomputed percentage.

module OnboardingComplete {
  import opened Wrappers
  import opened Text
  import opened OnboardingTypes

  /** The `steps` member of the body: absent or null, a value that is not an array, or an array. */
  datatype StepsField = StepsMissing | NotAnArray | StepList(items: seq<OnboardingStep>)

  datatype CompleteRequest = CompleteRequest(email: Option<string>, kit_type: Option<string>, steps: StepsField)

  datatype Checked = Rejected(message: string) | Accepted(email: string, kit: string, steps: seq<OnboardingStep>)

  datatype ProjectRow = ProjectRow(id: string, email: string, kit_type: string, onboarding_percent: int, onboarding_finished: bool)

  /** A stored step row; the submitted step's `id` is not stored. */
  datatype StepRow = StepRow(project_id: string, step: OnboardingStep)

  datatype Response =
    | BadRequest(message: string)
    | ServerMisconfigured
    | Saved(project: ProjectRow, steps: seq<StepRow>)

  /** The response together with the two tables after the request. */
  datatype Outcome = Outcome(response: Response, projects: seq<ProjectRow>, rows: seq<StepRow>)

  const MissingFieldsMessage := "Email, kit_type, and steps are required"
  const StepCountMessage := "Exactly 3 steps are required"

  /** The two 400 checks, made before any store is touched. */
  function Validate(req: CompleteRequest): (r: Checked)
    ensures r.Accepted? <==>
      Truthy(req.email) && Truthy(req.kit_type) && req.steps.StepList? && |req.steps.items| == 3
    ensures r.Accepted? ==>
      r.email == req.email.value && r.kit == req.kit_type.value && r.steps == req.steps.items
    ensures r.Rejected? ==>
      (r.message == MissingFieldsMessage <==> (!Truthy(req.email) || !Truthy(req.kit_type) || req.steps.StepsMissing?))
    ensures r.Rejected? ==> r.message in {MissingFieldsMessage, StepCountMessage}
  {
    if !Truthy(req.email) || !Truthy(req.kit_type) || req.steps.StepsMissing? then
      Rejected(MissingFieldsMessage)
    else if !req.steps.StepList? || |req.steps.items| != 3 then
      Rejected(StepCountMessage)
    else
      Accepted(req.email.value, req.kit_type.value, req.steps.items)
  }

  /** The project stored for (email, kit), first match. */
  function FindProject(projects: seq<ProjectRow>, email: string, kit: string): (r: Option<nat>)
    ensures r.None? <==> forall i :: 0 <= i < |projects| ==> !(projects[i].email == email && projects[i].kit_type == kit)
    ensures r.Some? ==> r.value < |projects| && projects[r.value].email == email && projects[r.value].kit_type == kit
  {
    if projects == [] then None
    else if projects[0].email == email && projects[0].kit_type == kit then Some(0)
    else
      var rest := FindProject(projects[1..], email, kit);
      if rest.None? then None else Some(rest.value + 1)
  }

  /** The step row stored for (project, step number), first match. */
  function FindRow(rows: seq<StepRow>, pid: string, n: int): (r: Option<nat>)
    ensures r.None? <==> forall i :: 0 <= i < |rows| ==> !(rows[i].project_id == pid && rows[i].step.step_number == n)
    ensures r.Some? ==> r.value < |rows| && rows[r.value].project_id == pid && rows[r.value].step.step_number == n
  {
    if rows == [] then None
    else if rows[0].project_id == pid && rows[0].step.step_number == n then Some(0)
    else
      var rest := FindRow(rows[1..], pid, n);
      if rest.None? then None else Some(rest.value + 1)
  }

  /**
   * The timestamps a step is written with: `started_at` falls back to now,
   * `completed_at` keeps a given value, else is now for a DONE step and
   * null otherwise. Nothing else about the step changes.
   */
  function Stamped(s: OnboardingStep, now: string): (r: OnboardingStep)
    ensures r.started_at.Some?
    ensures Truthy(s.started_at) ==> r.started_at == s.started_at
    ensures !Truthy(s.started_at) ==> r.started_at == Some(now)
    ensures Truthy(s.completed_at) ==> r.completed_at == s.completed_at
    ensures !Truthy(s.completed_at) ==> (r.completed_at.Some? <==> s.status == StepDone)
    ensures !Truthy(s.completed_at) && s.status == StepDone ==> r.completed_at == Some(now)
    ensures r.(started_at := s.started_at, completed_at := s.completed_at) == s
  {
    s.(started_at := Some(OrElse(s.started_at, now)),
       completed_at := if Truthy(s.completed_at) then s.completed_at
                       else if s.status == StepDone then Some(now) else None)
  }

  /** One step's write: update the row with the same key, else insert one. */
  function UpsertRow(rows: seq<StepRow>, pid: string, s: OnboardingStep, now: string): seq<StepRow> {
    var row := StepRow(pid, Stamped(s, now));
    match FindRow(rows, pid, s.step_number)
    case Some(i) => rows[i := row]
    case None => rows + [row]
  }

  /** The step rows after the loop has written `steps` in order. */
  function UpsertAll(rows: seq<StepRow>, pid: string, steps: seq<OnboardingStep>, now: string): seq<StepRow>
    decreases |steps|
  {
    if steps == [] then rows
    else UpsertRow(UpsertAll(rows, pid, steps[..|steps| - 1], now), pid, steps[|steps| - 1], now)
  }

  /** The rows the response lists, one per submitted step in order. */
  function SavedRows(pid: string, steps: seq<OnboardingStep>, now: string): (r: seq<StepRow>)
    ensures |r| == |steps|
    ensures forall i :: 0 <= i < |steps| ==> r[i] == StepRow(pid, Stamped(steps[i], now))
  {
    seq(|steps|, i requires 0 <= i < |steps| => StepRow(pid, Stamped(steps[i], now)))
  }

  /** The saved rows of one more step are those of the others plus its own. */
  lemma SavedRowsAppend(pid: string, steps: seq<OnboardingStep>, now: string)
    requires steps != []
    ensures SavedRows(pid, steps, now)
      == SavedRows(pid, steps[..|steps| - 1], now) + [StepRow(pid, Stamped(steps[|steps| - 1], now))]
  {
  }

  predicate SameKey(a: StepRow, b: StepRow) {
    a.project_id == b.project_id && a.step.step_number == b.step.step_number
  }

  /** At most one row per (project, step number). */
  predicate UniqueRowKeys(rows: seq<StepRow>) {
    forall i, j :: 0 <= i < j < |rows| ==> !SameKey(rows[i], rows[j])
  }

  /** At most one project per (email, kit). */
  predicate UniqueProjectKeys(projects: seq<ProjectRow>) {
    forall i, j :: 0 <= i < j < |projects| ==>
      !(projects[i].email == projects[j].email && projects[i].kit_type == projects[j].kit_type)
  }

  predicate DistinctStepNumbers(steps: seq<OnboardingStep>) {
    forall i, j :: 0 <= i < j < |steps| ==> steps[i].step_number != steps[j].step_number
  }

  /**
   * One upsert leaves every row with another key where it was, grows the
   * table only when the key was absent, stores the stamped step, and keeps
   * keys unique.
   */
  lemma UpsertRowEffect(rows: seq<StepRow>, pid: string, s: OnboardingStep, now: string)
    ensures var r := UpsertRow(rows, pid, s, now);
      && StepRow(pid, Stamped(s, now)) in r
      && |r| == |rows| + (if FindRow(rows, pid, s.step_number).None? then 1 else 0)
      && (forall i :: 0 <= i < |rows| && !SameKey(rows[i], StepRow(pid, s)) ==> r[i] == rows[i])
      && (UniqueRowKeys(rows) ==> UniqueRowKeys(r))
  {
    var r := UpsertRow(rows, pid, s, now);
    var row := StepRow(pid, Stamped(s, now));
    var found := FindRow(rows, pid, s.step_number);
    if found.Some? {
      assert r[found.value] == row;
    } else {
      assert r[|rows|] == row;
    }
  }

  /**
   * The whole loop: rows of other projects keep their place, keys stay
   * unique, the table grows by at most one row per step, and with distinct
   * step numbers every submitted step ends up stored, stamped.
   */
  lemma {:induction false} UpsertAllEffect(rows: seq<StepRow>, pid: string, steps: seq<OnboardingStep>, now: string)
    ensures var r := UpsertAll(rows, pid, steps, now);
      && |rows| <= |r| <= |rows| + |steps|
      && (forall i :: 0 <= i < |rows| && rows[i].project_id != pid ==> r[i] == rows[i])
      && (UniqueRowKeys(rows) ==> UniqueRowKeys(r))
      && (DistinctStepNumbers(steps) ==>
            forall j :: 0 <= j < |steps| ==> StepRow(pid, Stamped(steps[j], now)) in r)
    decreases |steps|
  {
    if steps != [] {
      var init := steps[..|steps| - 1];
      var last := steps[|steps| - 1];
      var prev := UpsertAll(rows, pid, init, now);
      UpsertAllEffect(rows, pid, init, now);
      UpsertRowEffect(prev, pid, last, now);
      var r := UpsertRow(prev, pid, last, now);
      if DistinctStepNumbers(steps) {
        assert DistinctStepNumbers(init);
        forall j | 0 <= j < |steps|
          ensures StepRow(pid, Stamped(steps[j], now)) in r
        {
          if j < |steps| - 1 {
            var x := StepRow(pid, Stamped(steps[j], now));
            assert steps[j] == init[j];
            assert x in prev;
            var k :| 0 <= k < |prev| && prev[k] == x;
            assert steps[j].step_number != last.step_number;
            assert r[k] == prev[k];
          }
        }
      }
    }
  }

  /** The project table with the (email, kit) project present, and that project's index. */
  function EnsureProject(projects: seq<ProjectRow>, email: string, kit: string, newId: string): (r: (seq<ProjectRow>, nat))
    ensures r.1 < |r.0|
    ensures r.0[r.1].email == email && r.0[r.1].kit_type == kit
    ensures FindProject(projects, email, kit).Some? ==> r.0 == projects && r.1 == FindProject(projects, email, kit).value
    ensures FindProject(projects, email, kit).None? ==>
      r.0 == projects + [ProjectRow(newId, email, kit, 0, false)] && r.1 == |projects|
  {
    var found := FindProject(projects, email, kit);
    if found.Some? then (projects, found.value)
    else (projects + [ProjectRow(newId, email, kit, 0, false)], |projects|)
  }

  /**
   * The whole request against the two tables. `configured` is whether the
   * service credentials are set, `now` the request time, `newId` the id a
   * new project row would get, and `projectUpdateOk` whether the final
   * project update succeeded.
   */
  function CompleteOutcome(projects: seq<ProjectRow>, rows: seq<StepRow>, req: CompleteRequest,
                           configured: bool, now: string, newId: string, projectUpdateOk: bool): Outcome
  {
    var checked := Validate(req);
    if checked.Rejected? then Outcome(BadRequest(checked.message), projects, rows)
    else if !configured then Outcome(ServerMisconfigured, projects, rows)
    else
      var email := NormalizeEmail(checked.email);
      var (withProject, at) := EnsureProject(projects, email, checked.kit, newId);
      var pid := withProject[at].id;
      var percent := StepsPercent(checked.steps);
      var finalProjects :=
        if projectUpdateOk
        then withProject[at := withProject[at].(onboarding_percent := percent, onboarding_finished := true)]
        else withProject;
      Outcome(Saved(ProjectRow(pid, email, checked.kit, percent, true), SavedRows(pid, checked.steps, now)),
              finalProjects, UpsertAll(rows, pid, checked.steps, now))
  }

  /** A rejected or misconfigured request changes neither table. */
  lemma RejectedChangesNothing(projects: seq<ProjectRow>, rows: seq<StepRow>, req: CompleteRequest,
                               configured: bool, now: string, newId: string, ok: bool)
    ensures var o := CompleteOutcome(projects, rows, req, configured, now, newId, ok);
      && (o.response.BadRequest? <==> Validate(req).Rejected?)
      && (o.response.ServerMisconfigured? <==> (Validate(req).Accepted? && !configured))
      && (!o.response.Saved? ==> o.projects == projects && o.rows == rows)
  {
  }

  /**
   * A saved request reports the normalised email, the submitted kit, the
   * percentage over the submitted steps and a finished onboarding whether
   * or not the final project update went through; it reuses the stored
   * project for (email, kit) or creates one at 0 percent, and when the
   * final update goes through that project gets the step percentage and is
   * finished, every other project staying as it was; it upserts every
   * submitted step, keeps the key uniqueness of both tables and leaves
   * other projects' step rows in place.
   */
  lemma SavedOutcome(projects: seq<ProjectRow>, rows: seq<StepRow>, req: CompleteRequest,
                     configured: bool, now: string, newId: string, ok: bool)
    requires Validate(req).Accepted? && configured
    ensures var o := CompleteOutcome(projects, rows, req, configured, now, newId, ok);
      var a := Validate(req);
      var email := NormalizeEmail(a.email);
      var found := FindProject(projects, email, a.kit);
      var pid := if found.Some? then projects[found.value].id else newId;
      var at := if found.Some? then found.value else |projects|;
      && o.response.Saved?
      && o.response.project == ProjectRow(pid, email, a.kit, StepsPercent(a.steps), true)
      && |o.response.steps| == 3
      && |o.projects| == |projects| + (if found.Some? then 0 else 1)
      && o.projects[at] == (if ok then ProjectRow(pid, email, a.kit, StepsPercent(a.steps), true)
                            else if found.Some? then projects[at] else ProjectRow(newId, email, a.kit, 0, false))
      && (forall i :: 0 <= i < |projects| && i != at ==> o.projects[i] == projects[i])
      && o.rows == UpsertAll(rows, pid, a.steps, now)
      && |rows| <= |o.rows| <= |rows| + 3
      && (UniqueProjectKeys(projects) ==> UniqueProjectKeys(o.projects))
      && (UniqueRowKeys(rows) ==> UniqueRowKeys(o.rows))
      && (forall i :: 0 <= i < |rows| && rows[i].project_id != pid ==> o.rows[i] == rows[i])
      && (DistinctStepNumbers(a.steps) ==> forall j :: 0 <= j < 3 ==> o.response.steps[j] in o.rows)
  {
    var a := Validate(req);
    var email := NormalizeEmail(a.email);
    var found := FindProject(projects, email, a.kit);
    var pid := if found.Some? then projects[found.value].id else newId;
    SavedProjects(projects, rows, req, now, newId, ok);
    UpsertAllEffect(rows, pid, a.steps, now);
  }

  /** The project table after a saved request: the (email, kit) project updated when the update succeeds, the rest kept. */
  lemma SavedProjects(projects: seq<ProjectRow>, rows: seq<StepRow>, req: CompleteRequest,
                      now: string, newId: string, ok: bool)
    requires Validate(req).Accepted?
    ensures var o := CompleteOutcome(projects, rows, req, true, now, newId, ok);
      var a := Validate(req);
      var email := NormalizeEmail(a.email);
      var found := FindProject(projects, email, a.kit);
      var pid := if found.Some? then projects[found.value].id else newId;
      var at := if found.Some? then found.value else |projects|;
      && |o.projects| == |projects| + (if found.Some? then 0 else 1)
      && o.projects[at] == (if ok then ProjectRow(pid, email, a.kit, StepsPercent(a.steps), true)
                            else if found.Some? then projects[at] else ProjectRow(newId, email, a.kit, 0, false))
      && (forall i :: 0 <= i < |projects| && i != at ==> o.projects[i] == projects[i])
      && o.rows == UpsertAll(rows, pid, a.steps, now)
  {
  }

  /** The project and step tables behind the endpoint. */
  class OnboardingDatabase {
    var projects: seq<ProjectRow>
    var stepRows: seq<StepRow>

    constructor (projects: seq<ProjectRow>, stepRows: seq<StepRow>)
      ensures this.projects == projects && this.stepRows == stepRows
    {
      this.projects := projects;
      this.stepRows := stepRows;
    }

    /** The step loop: one upsert per submitted step, in order. */
    method WriteSteps(pid: string, steps: seq<OnboardingStep>, now: string) returns (saved: seq<StepRow>)
      modifies this
      ensures projects == old(projects)
      ensures stepRows == UpsertAll(old(stepRows), pid, steps, now)
      ensures saved == SavedRows(pid, steps, now)
    {
      saved := [];
      var i := 0;
      while i < |steps|
        invariant 0 <= i <= |steps|
        invariant projects == old(projects)
        invariant stepRows == UpsertAll(old(stepRows), pid, steps[..i], now)
        invariant saved == SavedRows(pid, steps[..i], now)
      {
        var s := steps[i];
        var row := StepRow(pid, Stamped(s, now));
        ghost var before := stepRows;
        var existing := FindRow(stepRows, pid, s.step_number);
        if existing.Some? {
          stepRows := stepRows[existing.value := row];
        } else {
          stepRows := stepRows + [row];
        }
        assert stepRows == UpsertRow(before, pid, s, now);
        assert steps[..i + 1][..i] == steps[..i] && steps[..i + 1][i] == s;
        assert stepRows == UpsertAll(old(stepRows), pid, steps[..i + 1], now);
        SavedRowsAppend(pid, steps[..i + 1], now);
        saved := saved + [row];
        i := i + 1;
      }
      assert steps[..i] == steps;
    }

    /** The route handler. */
    method Complete(req: CompleteRequest, configured: bool, now: string, newId: string, projectUpdateOk: bool)
      returns (resp: Response)
      modifies this
      ensures var o := CompleteOutcome(old(projects), old(stepRows), req, configured, now, newId, projectUpdateOk);
        resp == o.response && projects == o.projects && stepRows == o.rows
    {
      var checked := Validate(req);
      if checked.Rejected? {
        return BadRequest(checked.message);
      }
      if !configured {
        return ServerMisconfigured;
      }
      var email := NormalizeEmail(checked.email);
      var (withProject, at) := EnsureProject(projects, email, checked.kit, newId);
      projects := withProject;
      var pid := projects[at].id;
      var percent := StepsPercent(checked.steps);
      var saved := WriteSteps(pid, checked.steps, now);
      if projectUpdateOk {
        projects := projects[at := projects[at].(onboarding_percent := percent, onboarding_finished := true)];
      }
      resp := Saved(ProjectRow(pid, email, checked.kit, percent, true), saved);
    }
  }
}
