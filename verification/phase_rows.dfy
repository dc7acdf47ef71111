// The conversion of stored phase rows into the state map that the merge
// reads, shared by the project, progress and admin phase routes.

module PhaseRows {
  import opened Wrappers
  import opened PhaseStructure
  import opened Records

  function RowState(row: PhaseRow): PhaseState {
    PhaseState(Some(row.status), OrNull(row.startedAt), OrNull(row.completedAt), row.checklist.GetOr(map[]))
  }

  /** The state map, assigned row by row: a later row for the same phase replaces an earlier one. */
  function RowsToState(rows: seq<PhaseRow>): (m: map<string, PhaseState>)
    ensures m.Keys == set i | 0 <= i < |rows| :: rows[i].phaseId
  {
    if rows == [] then map[]
    else
      var last := rows[|rows| - 1];
      var m := RowsToState(rows[..|rows| - 1]);
      assert forall i :: 0 <= i < |rows| - 1 ==> rows[..|rows| - 1][i] == rows[i];
      m[last.phaseId := RowState(last)]
  }

  /** Each phase's state comes from the last row stored for that phase. */
  lemma {:induction false} LastRowWins(rows: seq<PhaseRow>, k: int)
    requires 0 <= k < |rows|
    requires forall j :: k < j < |rows| ==> rows[j].phaseId != rows[k].phaseId
    ensures rows[k].phaseId in RowsToState(rows)
    ensures RowsToState(rows)[rows[k].phaseId] == RowState(rows[k])
  {
    if k < |rows| - 1 {
      var front := rows[..|rows| - 1];
      LastRowWins(front, k);
    }
  }

  /** The merge receives the map, or null when no row exists. */
  function StateArg(m: map<string, PhaseState>): (r: Option<map<string, PhaseState>>)
    ensures r.None? <==> m == map[]
    ensures r.Some? ==> r.value == m
  {
    if |m| > 0 then Some(m) else None
  }

  /** The merge gets null exactly when the client has no phase rows. */
  lemma StateArgNullIffNoRows(rows: seq<PhaseRow>)
    ensures StateArg(RowsToState(rows)).None? <==> rows == []
  {
    if rows != [] {
      assert rows[0].phaseId in RowsToState(rows);
    }
  }

  /** The row-by-row assignment loop. */
  method BuildPhasesState(rows: seq<PhaseRow>) returns (m: map<string, PhaseState>)
    ensures m == RowsToState(rows)
  {
    m := map[];
    var i := 0;
    while i < |rows|
      invariant 0 <= i <= |rows|
      invariant m == RowsToState(rows[..i])
    {
      assert rows[..i + 1][..i] == rows[..i];
      m := m[rows[i].phaseId := RowState(rows[i])];
      i := i + 1;
    }
    assert rows[..i] == rows;
  }
}
