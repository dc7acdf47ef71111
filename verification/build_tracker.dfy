// The growth kit build tracker: a local copy of the project's phases whose
// checklist items the client ticks, saved to and reloaded from a browser
// snapshot keyed by phase number, with one phase expanded at a time.

module BuildTracker {
  import opened Wrappers
  import opened Percent
  import opened PhaseStructure

  const TOTAL_DAYS := 14
  /** The day bar is fixed at day 1. */
  const CURRENT_DAY := 1

  /** A checklist item as the tracker receives it: it carries an id. */
  datatype TrackerItem = TrackerItem(id: string, text: string, is_done: bool)

  /** A phase as the tracker receives it; the checklist may be absent. */
  datatype TrackerPhase = TrackerPhase(
    phase_id: string,
    phase_number: int,
    title: string,
    status: Status,
    checklist: Option<seq<TrackerItem>>)

  /** One saved item: its id and whether it is done. */
  datatype SavedItem = SavedItem(id: string, is_done: bool)

  /** The saved snapshot: phase number to that phase's saved items. */
  type Snapshot = map<int, seq<SavedItem>>

  /** Items that differ at most in `is_done`. */
  predicate SameItems(a: seq<TrackerItem>, b: seq<TrackerItem>) {
    |a| == |b| && forall j :: 0 <= j < |a| ==> a[j].(is_done := b[j].is_done) == b[j]
  }

  predicate SamePhase(x: TrackerPhase, y: TrackerPhase) {
    && x.(checklist := y.checklist) == y
    && x.checklist.Some? == y.checklist.Some?
    && (x.checklist.Some? ==> SameItems(x.checklist.value, y.checklist.value))
  }

  /** Phase lists that differ at most in which items are done. */
  predicate SameShape(q: seq<TrackerPhase>, p: seq<TrackerPhase>) {
    |q| == |p| && forall i :: 0 <= i < |q| ==> SamePhase(q[i], p[i])
  }

  predicate UniqueItemIds(items: seq<TrackerItem>) {
    forall j, k :: 0 <= j < k < |items| ==> items[j].id != items[k].id
  }

  /** Phase numbers are distinct and every checklist has distinct item ids. */
  predicate WellKeyed(ps: seq<TrackerPhase>) {
    && (forall i, k :: 0 <= i < k < |ps| ==> ps[i].phase_number != ps[k].phase_number)
    && (forall i :: 0 <= i < |ps| && ps[i].checklist.Some? ==> UniqueItemIds(ps[i].checklist.value))
  }

  // ---- toggling an item ----

  function ToggleItems(items: seq<TrackerItem>, id: string): (r: seq<TrackerItem>)
    ensures SameItems(items, r)
    ensures forall j :: 0 <= j < |items| ==> (r[j].is_done != items[j].is_done <==> items[j].id == id)
  {
    seq(|items|, j requires 0 <= j < |items| =>
      if items[j].id == id then items[j].(is_done := !items[j].is_done) else items[j])
  }

  function TogglePhase(p: TrackerPhase, id: string): TrackerPhase {
    p.(checklist := if p.checklist.Some? then Some(ToggleItems(p.checklist.value, id)) else None)
  }

  /**
   * `toggleChecklistItem`: in the phase numbered `n`, flip `is_done` of the
   * items with id `id`; nothing else changes.
   */
  function ToggleChecklistItem(ps: seq<TrackerPhase>, n: int, id: string): (r: seq<TrackerPhase>)
    ensures SameShape(ps, r)
    ensures forall i :: 0 <= i < |ps| && ps[i].phase_number != n ==> r[i] == ps[i]
    ensures forall i, j :: 0 <= i < |ps| && ps[i].checklist.Some? && 0 <= j < |ps[i].checklist.value| ==>
      ((r[i].checklist.value[j].is_done != ps[i].checklist.value[j].is_done) <==>
       (ps[i].phase_number == n && ps[i].checklist.value[j].id == id))
  {
    seq(|ps|, i requires 0 <= i < |ps| => if ps[i].phase_number == n then TogglePhase(ps[i], id) else ps[i])
  }

  /** Toggling the same item twice gives back the phases. */
  lemma ToggleTwice(ps: seq<TrackerPhase>, n: int, id: string)
    ensures ToggleChecklistItem(ToggleChecklistItem(ps, n, id), n, id) == ps
  {
    var r := ToggleChecklistItem(ToggleChecklistItem(ps, n, id), n, id);
    forall i | 0 <= i < |ps|
      ensures r[i] == ps[i]
    {
      if ps[i].phase_number == n && ps[i].checklist.Some? {
        var a := ps[i].checklist.value;
        assert ToggleItems(ToggleItems(a, id), id) == a;
      }
    }
  }

  // ---- the snapshot ----

  function SavedItems(items: seq<TrackerItem>): (r: seq<SavedItem>)
    ensures |r| == |items|
    ensures forall j :: 0 <= j < |items| ==> r[j] == SavedItem(items[j].id, items[j].is_done)
  {
    seq(|items|, j requires 0 <= j < |items| => SavedItem(items[j].id, items[j].is_done))
  }

  /** The snapshot the tracker saves: phases in order, a later phase with the same number overwriting. */
  function SnapshotOf(ps: seq<TrackerPhase>): Snapshot
    decreases |ps|
  {
    if ps == [] then map[]
    else
      var m := SnapshotOf(ps[..|ps| - 1]);
      var p := ps[|ps| - 1];
      if p.checklist.Some? then m[p.phase_number := SavedItems(p.checklist.value)] else m
  }

  /** Some phase numbered `n` has a checklist. */
  predicate HasChecklistNumbered(ps: seq<TrackerPhase>, n: int) {
    exists i :: 0 <= i < |ps| && ps[i].phase_number == n && ps[i].checklist.Some?
  }

  /**
   * With distinct phase numbers, the snapshot holds exactly the phases that
   * have a checklist, each under its number, with its items in order.
   */
  lemma {:induction false} SnapshotEntries(ps: seq<TrackerPhase>)
    requires forall i, k :: 0 <= i < k < |ps| ==> ps[i].phase_number != ps[k].phase_number
    ensures forall n :: n in SnapshotOf(ps) <==> HasChecklistNumbered(ps, n)
    ensures forall i :: 0 <= i < |ps| && ps[i].checklist.Some? ==>
      ps[i].phase_number in SnapshotOf(ps) && SnapshotOf(ps)[ps[i].phase_number] == SavedItems(ps[i].checklist.value)
    decreases |ps|
  {
    if ps != [] {
      var init := ps[..|ps| - 1];
      SnapshotEntries(init);
      forall n | HasChecklistNumbered(init, n)
        ensures HasChecklistNumbered(ps, n)
      {
        var i :| 0 <= i < |init| && init[i].phase_number == n && init[i].checklist.Some?;
        assert ps[i] == init[i];
      }
      forall n | HasChecklistNumbered(ps, n)
        ensures n in SnapshotOf(ps)
      {
        var i :| 0 <= i < |ps| && ps[i].phase_number == n && ps[i].checklist.Some?;
        if i < |init| {
          assert init[i] == ps[i];
        }
      }
      forall i | 0 <= i < |ps| && ps[i].checklist.Some?
        ensures ps[i].phase_number in SnapshotOf(ps) && SnapshotOf(ps)[ps[i].phase_number] == SavedItems(ps[i].checklist.value)
      {
        if i < |init| {
          assert init[i] == ps[i];
        }
      }
    }
  }

  /** The save loop: every phase with a checklist writes its items under its number. */
  method SaveSnapshot(ps: seq<TrackerPhase>) returns (m: Snapshot)
    ensures m == SnapshotOf(ps)
  {
    m := map[];
    var i := 0;
    while i < |ps|
      invariant 0 <= i <= |ps|
      invariant m == SnapshotOf(ps[..i])
    {
      assert ps[..i + 1][..i] == ps[..i];
      if ps[i].checklist.Some? {
        var items := ps[i].checklist.value;
        var saved: seq<SavedItem> := [];
        var j := 0;
        while j < |items|
          invariant 0 <= j <= |items|
          invariant saved == SavedItems(items[..j])
        {
          assert items[..j + 1][..j] == items[..j];
          saved := saved + [SavedItem(items[j].id, items[j].is_done)];
          j := j + 1;
        }
        assert items[..j] == items;
        m := m[ps[i].phase_number := saved];
      }
      i := i + 1;
    }
    assert ps[..i] == ps;
  }

  // ---- loading the snapshot ----

  /** The first saved item with the given id. */
  function FindSaved(saved: seq<SavedItem>, id: string): (r: Option<nat>)
    ensures r.None? <==> forall j :: 0 <= j < |saved| ==> saved[j].id != id
    ensures r.Some? ==> (r.value < |saved| && saved[r.value].id == id
      && forall j :: 0 <= j < r.value ==> saved[j].id != id)
  {
    if saved == [] then None
    else if saved[0].id == id then Some(0)
    else
      var r := FindSaved(saved[1..], id);
      if r.Some? then Some(r.value + 1) else None
  }

  /** Each item takes `is_done` from the first saved item with its id; an item with none keeps its own. */
  function LoadItems(items: seq<TrackerItem>, saved: seq<SavedItem>): (r: seq<TrackerItem>)
    ensures SameItems(items, r)
    ensures forall k :: 0 <= k < |items| && FindSaved(saved, items[k].id).None? ==> r[k] == items[k]
    ensures forall k :: 0 <= k < |items| && FindSaved(saved, items[k].id).Some? ==>
      r[k].is_done == saved[FindSaved(saved, items[k].id).value].is_done
  {
    seq(|items|, k requires 0 <= k < |items| =>
      var f := FindSaved(saved, items[k].id);
      if f.Some? then items[k].(is_done := saved[f.value].is_done) else items[k])
  }

  function LoadPhase(p: TrackerPhase, snap: Snapshot): TrackerPhase {
    if p.phase_number in snap && p.checklist.Some? then p.(checklist := Some(LoadItems(p.checklist.value, snap[p.phase_number])))
    else p
  }

  /** Loading a snapshot: phases without a saved entry, and unmatched items, stay as they are. */
  function LoadSnapshot(ps: seq<TrackerPhase>, snap: Snapshot): (r: seq<TrackerPhase>)
    ensures SameShape(ps, r)
    ensures forall i :: 0 <= i < |ps| && ps[i].phase_number !in snap ==> r[i] == ps[i]
  {
    seq(|ps|, i requires 0 <= i < |ps| => LoadPhase(ps[i], snap))
  }

  /** Reading back the items of a saved list with distinct ids gives each item its saved flag. */
  lemma LoadSavedItems(items: seq<TrackerItem>, from: seq<TrackerItem>)
    requires SameItems(items, from) && UniqueItemIds(from)
    ensures LoadItems(items, SavedItems(from)) == from
  {
    var saved := SavedItems(from);
    var r := LoadItems(items, saved);
    forall k | 0 <= k < |items|
      ensures r[k] == from[k]
    {
      assert saved[k].id == items[k].id == from[k].id;
      assert forall j :: 0 <= j < k ==> saved[j].id != saved[k].id by {
        assert forall j :: 0 <= j < k ==> saved[j].id == from[j].id;
      }
      FindSavedAt(saved, k);
      assert r[k] == items[k].(is_done := from[k].is_done);
    }
  }

  /** An id seen for the first time at `k` is found at `k`. */
  lemma FindSavedAt(saved: seq<SavedItem>, k: int)
    requires 0 <= k < |saved| && forall j :: 0 <= j < k ==> saved[j].id != saved[k].id
    ensures FindSaved(saved, saved[k].id) == Some(k)
  {
  }

  /**
   * The round trip: loading the snapshot of `p` into phases `q` of the same
   * shape (the phases as delivered again) gives back `p`, provided phase
   * numbers and item ids are distinct.
   */
  lemma SaveLoadRoundTrip(q: seq<TrackerPhase>, p: seq<TrackerPhase>)
    requires SameShape(q, p) && WellKeyed(p)
    ensures LoadSnapshot(q, SnapshotOf(p)) == p
  {
    var snap := SnapshotOf(p);
    SnapshotEntries(p);
    var r := LoadSnapshot(q, snap);
    forall i | 0 <= i < |q|
      ensures r[i] == p[i]
    {
      if p[i].checklist.Some? {
        LoadSavedItems(q[i].checklist.value, p[i].checklist.value);
      } else {
        assert p[i].phase_number !in snap;
      }
    }
  }

  /** Reloading after a toggle restores the toggled state. */
  lemma ReloadAfterToggle(ps: seq<TrackerPhase>, n: int, id: string)
    requires WellKeyed(ps)
    ensures LoadSnapshot(ps, SnapshotOf(ToggleChecklistItem(ps, n, id))) == ToggleChecklistItem(ps, n, id)
  {
    var t := ToggleChecklistItem(ps, n, id);
    forall i | 0 <= i < |t| && t[i].checklist.Some?
      ensures UniqueItemIds(t[i].checklist.value)
    {
      assert SamePhase(ps[i], t[i]);
    }
    SaveLoadRoundTrip(ps, t);
  }

  // ---- what each phase card shows ----

  datatype PhaseProgress = PhaseProgress(completed: nat, total: nat, percent: int)

  function DoneItems(items: seq<TrackerItem>): (n: nat)
    ensures n <= |items|
  {
    if items == [] then 0 else (if items[0].is_done then 1 else 0) + DoneItems(items[1..])
  }

  /** Per-phase progress: done items over items, 0 for a phase without items. */
  function ProgressOf(p: TrackerPhase): (r: PhaseProgress)
    ensures var items := p.checklist.GetOr([]);
      r.completed == DoneItems(items) && r.total == |items|
      && r.percent == (if r.total > 0 then RoundPercent(r.completed, r.total) else 0)
    ensures r.completed <= r.total
    ensures 0 <= r.percent <= 100
    ensures r.total == 0 ==> r.percent == 0
    ensures r.percent == 100 <==> r.total > 0 && 200 * r.completed >= 199 * r.total
  {
    var items := if p.checklist.Some? then p.checklist.value else [];
    var c := DoneItems(items);
    PercentBounds(c, |items|);
    PhaseProgress(c, |items|, if |items| > 0 then RoundPercent(c, |items|) else 0)
  }

  /** Toggling an item moves the done count of its phase by exactly one when ids are distinct. */
  lemma {:induction false} ToggleOneMovesCount(items: seq<TrackerItem>, k: int)
    requires UniqueItemIds(items) && 0 <= k < |items|
    ensures DoneItems(ToggleItems(items, items[k].id)) == DoneItems(items) + (if items[k].is_done then -1 else 1)
  {
    var t := ToggleItems(items, items[k].id);
    assert t[1..] == ToggleItems(items[1..], items[k].id);
    if k > 0 {
      assert items[1..][k - 1] == items[k];
      ToggleOneMovesCount(items[1..], k - 1);
    } else {
      assert t[1..] == items[1..];
    }
  }

  /** `hasActionNeeded`: the phase waits on the client and there is something for them to do. */
  predicate HasActionNeeded(p: TrackerPhase, nextFromYou: Option<string>) {
    p.status == WaitingOnClient && Truthy(nextFromYou)
  }

  /** The fixed day bar: day 1 of 14 is 7 percent. */
  function DayPercentage(): (r: int)
    ensures r == 7
  {
    RoundPercent(CURRENT_DAY, TOTAL_DAYS)
  }

  /** The phase card click: the expanded phase collapses, any other one expands. */
  function ClickPhase(expanded: Option<int>, n: int): (r: Option<int>)
    ensures r.None? <==> expanded == Some(n)
    ensures r.Some? ==> r.value == n
  {
    if expanded == Some(n) then None else Some(n)
  }

  /** Clicking the same card twice restores the expanded phase, unless another one was open. */
  lemma ClickTwice(expanded: Option<int>, n: int)
    ensures ClickPhase(ClickPhase(expanded, n), n) == expanded <==> expanded.None? || expanded == Some(n)
  {
  }

  /** The expanded phase's details: the first phase with that number. */
  function FindPhase(ps: seq<TrackerPhase>, n: int): (r: Option<nat>)
    ensures r.None? <==> forall i :: 0 <= i < |ps| ==> ps[i].phase_number != n
    ensures r.Some? ==> (r.value < |ps| && ps[r.value].phase_number == n
      && forall i :: 0 <= i < r.value ==> ps[i].phase_number != n)
  {
    if ps == [] then None
    else if ps[0].phase_number == n then Some(0)
    else
      var r := FindPhase(ps[1..], n);
      if r.Some? then Some(r.value + 1) else None
  }

  /** The tracker's state: its copy of the phases, the expanded phase and the browser's saved snapshot. */
  class Tracker {
    var phases: seq<TrackerPhase>
    var expanded: Option<int>
    var stored: Option<Snapshot>

    /** Phase 1 starts expanded. */
    constructor(ps: seq<TrackerPhase>, stored: Option<Snapshot>)
      ensures phases == ps && expanded == Some(1) && this.stored == stored
    {
      phases := ps;
      expanded := Some(1);
      this.stored := stored;
    }

    /** On mount: apply the saved snapshot, if there is one. */
    method Load()
      modifies this
      ensures stored == old(stored) && expanded == old(expanded)
      ensures phases == if stored.Some? then LoadSnapshot(old(phases), stored.value) else old(phases)
    {
      if stored.Some? {
        phases := LoadSnapshot(phases, stored.value);
      }
    }

    /** Flip an item and save the snapshot of the new phases. */
    method Toggle(n: int, id: string)
      modifies this
      ensures phases == ToggleChecklistItem(old(phases), n, id)
      ensures stored == Some(SnapshotOf(phases))
      ensures expanded == old(expanded)
    {
      phases := ToggleChecklistItem(phases, n, id);
      var snap := SaveSnapshot(phases);
      stored := Some(snap);
    }

    method Click(n: int)
      modifies this
      ensures expanded == ClickPhase(old(expanded), n)
      ensures phases == old(phases) && stored == old(stored)
    {
      expanded := ClickPhase(expanded, n);
    }

    /** The close button of the details panel. */
    method Close()
      modifies this
      ensures expanded.None? && phases == old(phases) && stored == old(stored)
    {
      expanded := None;
    }
  }

  /**
   * A toggle followed by a fresh tracker over the same delivered phases
   * loading the saved snapshot shows the toggled state.
   */
  method ToggleThenReload(ps: seq<TrackerPhase>, n: int, id: string) returns (shown: seq<TrackerPhase>)
    requires WellKeyed(ps)
    ensures shown == ToggleChecklistItem(ps, n, id)
  {
    var t := new Tracker(ps, None);
    t.Toggle(n, id);
    var reloaded := new Tracker(ps, t.stored);
    reloaded.Load();
    ReloadAfterToggle(ps, n, id);
    shown := reloaded.phases;
  }
}
