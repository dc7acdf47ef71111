// The admin listing endpoints: unique quiz users, projects with their
// phases, and clients with display names. All three page their results
// with an offset and a limit and report whether more follow.

module Paging {
  function Min(a: int, b: int): int {
    if a <= b then a else b
  }

  /**
   * `list.slice(offset, offset + limit)`, which is also what the store's
   * skip/take returns: the entries from `offset` on, at most `limit` of them.
   */
  function Page<T>(s: seq<T>, offset: nat, limit: nat): (r: seq<T>)
    ensures |r| <= limit
    ensures offset >= |s| ==> r == []
    ensures offset < |s| ==> |r| == Min(limit, |s| - offset)
    ensures forall i :: 0 <= i < |r| ==> r[i] == s[offset + i]
  {
    if offset >= |s| then [] else s[offset..offset + Min(limit, |s| - offset)]
  }

  /** `has_more`: `offset + limit < total`. */
  predicate HasMore(offset: nat, limit: nat, total: nat) {
    offset + limit < total
  }

  /** More follow exactly when something lies after the page, and then the page is full. */
  lemma HasMoreIffBeyond<T>(s: seq<T>, offset: nat, limit: nat)
    ensures HasMore(offset, limit, |s|) <==> offset + |Page(s, offset, limit)| < |s|
    ensures HasMore(offset, limit, |s|) ==> |Page(s, offset, limit)| == limit
    ensures !HasMore(offset, limit, |s|) && offset <= |s| ==> Page(s, offset, limit) == s[offset..]
  {
  }

  /** Two consecutive pages are the page of their combined size. */
  lemma PagesTile<T>(s: seq<T>, offset: nat, a: nat, b: nat)
    ensures Page(s, offset, a) + Page(s, offset + a, b) == Page(s, offset, a + b)
  {
    var l := Page(s, offset, a);
    var r := Page(s, offset + a, b);
    var w := Page(s, offset, a + b);
    assert |l| + |r| == |w|;
    forall i | 0 <= i < |w|
      ensures (l + r)[i] == w[i]
    {
      if i >= |l| {
        assert (l + r)[i] == r[i - |l|];
      }
    }
  }
}

module Grouping {
  import opened Paging
  /** The keys of the entries of `s`. */
  function KeySet<T>(s: seq<T>, key: T -> string): set<string> {
    set i | 0 <= i < |s| :: key(s[i])
  }

  /** No earlier entry has the same key as `s[k]`. */
  predicate FirstWithKey<T>(s: seq<T>, key: T -> string, k: int)
    requires 0 <= k < |s|
  {
    forall j :: 0 <= j < k ==> key(s[j]) != key(s[k])
  }

  /** `x` is an entry of `s` that is the first in `s` with its key. */
  ghost predicate IsFirstIn<T>(x: T, s: seq<T>, key: T -> string) {
    exists k :: 0 <= k < |s| && x == s[k] && FirstWithKey(s, key, k)
  }

  /** Every entry of `v` is an entry of `s` that is the first in `s` with its key. */
  ghost predicate EachFirstWithKey<T>(v: seq<T>, s: seq<T>, key: T -> string) {
    forall i :: 0 <= i < |v| ==> IsFirstIn(v[i], s, key)
  }

  predicate DistinctKeys<T>(u: seq<T>, key: T -> string) {
    forall i, j :: 0 <= i < j < |u| ==> key(u[i]) != key(u[j])
  }

  lemma KeySetAppend<T>(u: seq<T>, x: T, key: T -> string)
    ensures KeySet(u + [x], key) == KeySet(u, key) + {key(x)}
  {
    var r := u + [x];
    forall y | y in KeySet(r, key)
      ensures y in KeySet(u, key) + {key(x)}
    {
      var i :| 0 <= i < |r| && key(r[i]) == y;
      if i < |u| {
        assert r[i] == u[i];
      }
    }
    forall y | y in KeySet(u, key) + {key(x)}
      ensures y in KeySet(r, key)
    {
      if y == key(x) {
        assert key(r[|u|]) == y;
      } else {
        var i :| 0 <= i < |u| && key(u[i]) == y;
        assert key(r[i]) == y;
      }
    }
  }

  /** A slice of a list with distinct keys has distinct keys. */
  lemma DistinctKeysSlice<T>(u: seq<T>, key: T -> string, a: nat, b: nat)
    requires DistinctKeys(u, key) && a <= b <= |u|
    ensures DistinctKeys(u[a..b], key)
  {
    var v := u[a..b];
    forall i, j | 0 <= i < j < |v|
      ensures key(v[i]) != key(v[j])
    {
      assert v[i] == u[a + i] && v[j] == u[a + j];
    }
  }

  /**
   * The values of a first-wins map filled entry by entry, in insertion
   * order: an entry is kept when no earlier one has its key.
   */
  function FirstPerKey<T>(s: seq<T>, key: T -> string): (u: seq<T>)
    ensures KeySet(u, key) == KeySet(s, key)
    ensures DistinctKeys(u, key)
    ensures EachFirstWithKey(u, s, key)
    decreases |s|
  {
    if s == [] then []
    else
      var front := s[..|s| - 1];
      var x := s[|s| - 1];
      var u := FirstPerKey(front, key);
      assert forall k :: 0 <= k < |front| ==> front[k] == s[k];
      assert s == front + [x];
      KeySetAppend(front, x, key);
      if key(x) in KeySet(u, key) then u
      else
        assert FirstWithKey(s, key, |s| - 1);
        KeySetAppend(u, x, key);
        u + [x]
  }

  /** The position of the first entry of `s` with key `kv`. */
  function FirstKeyIndex<T>(s: seq<T>, key: T -> string, kv: string): (i: nat)
    requires kv in KeySet(s, key)
    ensures i < |s| && key(s[i]) == kv && FirstWithKey(s, key, i)
    decreases |s|
  {
    if key(s[0]) == kv then 0
    else
      assert kv in KeySet(s[1..], key) by {
        var k :| 0 <= k < |s| && key(s[k]) == kv;
        assert key(s[1..][k - 1]) == kv;
      }
      1 + FirstKeyIndex(s[1..], key, kv)
  }

  /** The keys of `u` occur in `s`, and in the order of their first entries in `s`. */
  predicate KeysInFirstOrder<T>(u: seq<T>, s: seq<T>, key: T -> string) {
    forall i, j :: 0 <= i < j < |u| ==>
      key(u[i]) in KeySet(s, key) && key(u[j]) in KeySet(s, key)
      && FirstKeyIndex(s, key, key(u[i])) < FirstKeyIndex(s, key, key(u[j]))
  }

  /** Appending an entry does not move the first entry of a key already present. */
  lemma FirstKeyIndexExtend<T>(s: seq<T>, x: T, key: T -> string, kv: string)
    requires kv in KeySet(s, key)
    ensures kv in KeySet(s + [x], key) && FirstKeyIndex(s + [x], key, kv) == FirstKeyIndex(s, key, kv)
  {
    KeySetAppend(s, x, key);
    var k := FirstKeyIndex(s, key, kv);
    assert (s + [x])[k] == s[k];
    assert forall j :: 0 <= j < k ==> (s + [x])[j] == s[j];
  }

  /**
   * The kept entries are in the order their keys first appear, which is the
   * insertion order of the map the entries are gathered in.
   */
  lemma {:induction false} FirstPerKeyOrder<T>(s: seq<T>, key: T -> string)
    ensures KeysInFirstOrder(FirstPerKey(s, key), s, key)
    decreases |s|
  {
    if s != [] {
      var front := s[..|s| - 1];
      var x := s[|s| - 1];
      assert s == front + [x];
      FirstPerKeyOrder(front, key);
      OrderSnoc(front, x, FirstPerKey(front, key), key);
    }
  }

  /** Keeping or appending one more entry keeps the kept entries in first-key order. */
  lemma OrderSnoc<T>(front: seq<T>, x: T, uf: seq<T>, key: T -> string)
    requires KeysInFirstOrder(uf, front, key) && KeySet(uf, key) == KeySet(front, key)
    ensures KeysInFirstOrder(if key(x) in KeySet(uf, key) then uf else uf + [x], front + [x], key)
  {
    var s := front + [x];
    assert forall i :: 0 <= i < |uf| ==> key(uf[i]) in KeySet(uf, key);
    forall kv | kv in KeySet(front, key)
      ensures kv in KeySet(s, key) && FirstKeyIndex(s, key, kv) == FirstKeyIndex(front, key, kv) < |front|
    {
      FirstKeyIndexExtend(front, x, key, kv);
    }
    if key(x) !in KeySet(uf, key) {
      OrderAppendNew(front, x, uf, key);
    } else {
      forall i, j | 0 <= i < j < |uf|
        ensures key(uf[i]) in KeySet(s, key) && key(uf[j]) in KeySet(s, key)
        ensures FirstKeyIndex(s, key, key(uf[i])) < FirstKeyIndex(s, key, key(uf[j]))
      {
        assert FirstKeyIndex(front, key, key(uf[i])) < FirstKeyIndex(front, key, key(uf[j]));
      }
    }
  }

  /** An entry with a new key goes last, after every key seen before it. */
  lemma OrderAppendNew<T>(front: seq<T>, x: T, uf: seq<T>, key: T -> string)
    requires KeysInFirstOrder(uf, front, key) && KeySet(uf, key) == KeySet(front, key)
    requires key(x) !in KeySet(uf, key)
    requires forall kv :: kv in KeySet(front, key) ==>
      kv in KeySet(front + [x], key) && FirstKeyIndex(front + [x], key, kv) == FirstKeyIndex(front, key, kv) < |front|
    ensures KeysInFirstOrder(uf + [x], front + [x], key)
  {
    var s := front + [x];
    var u := uf + [x];
    KeySetAppend(front, x, key);
    assert FirstKeyIndex(s, key, key(x)) == |front|;
    forall i, j | 0 <= i < j < |u|
      ensures key(u[i]) in KeySet(s, key) && key(u[j]) in KeySet(s, key)
      ensures FirstKeyIndex(s, key, key(u[i])) < FirstKeyIndex(s, key, key(u[j]))
    {
      assert u[i] == uf[i] && key(uf[i]) in KeySet(uf, key);
      if j < |uf| {
        assert u[j] == uf[j] && key(uf[j]) in KeySet(uf, key);
        assert FirstKeyIndex(front, key, key(uf[i])) < FirstKeyIndex(front, key, key(uf[j]));
      } else {
        assert u[j] == x;
      }
    }
  }

  /** Every entry that is the first with its key is kept, so no key is lost. */
  lemma {:induction false} FirstsKept<T>(s: seq<T>, key: T -> string, k: int)
    requires 0 <= k < |s| && FirstWithKey(s, key, k)
    ensures s[k] in FirstPerKey(s, key)
    decreases |s|
  {
    var front := s[..|s| - 1];
    assert forall j :: 0 <= j < |front| ==> front[j] == s[j];
    if k < |s| - 1 {
      FirstsKept(front, key, k);
    } else {
      assert key(s[k]) !in KeySet(front, key);
    }
  }

  /** A slice of the kept entries has distinct keys, each entry being the first with its key. */
  lemma FirstPerKeySlice<T>(s: seq<T>, key: T -> string, a: nat, b: nat)
    requires a <= b <= |FirstPerKey(s, key)|
    ensures DistinctKeys(FirstPerKey(s, key)[a..b], key)
    ensures EachFirstWithKey(FirstPerKey(s, key)[a..b], s, key)
  {
    var u := FirstPerKey(s, key);
    DistinctKeysSlice(u, key, a, b);
    EachFirstSlice(u, s, key, a, b);
  }

  /** A slice of entries that are each first with their key in `s` keeps that property. */
  lemma EachFirstSlice<T>(u: seq<T>, s: seq<T>, key: T -> string, a: nat, b: nat)
    requires EachFirstWithKey(u, s, key) && a <= b <= |u|
    ensures EachFirstWithKey(u[a..b], s, key)
  {
    var v := u[a..b];
    forall i | 0 <= i < |v|
      ensures IsFirstIn(v[i], s, key)
    {
      assert v[i] == u[a + i];
    }
  }

  /** A page of the kept entries has distinct keys, each entry being the first with its key. */
  lemma FirstPerKeyPage<T>(s: seq<T>, key: T -> string, offset: nat, limit: nat)
    ensures DistinctKeys(Page(FirstPerKey(s, key), offset, limit), key)
    ensures EachFirstWithKey(Page(FirstPerKey(s, key), offset, limit), s, key)
  {
    var u := FirstPerKey(s, key);
    var v := Page(u, offset, limit);
    if v != [] {
      assert v == u[offset..offset + |v|];
      FirstPerKeySlice(s, key, offset, offset + |v|);
    }
  }

  /** With distinct keys there are as many keys as entries. */
  lemma {:induction false} DistinctKeysCount<T>(u: seq<T>, key: T -> string)
    requires DistinctKeys(u, key)
    ensures |KeySet(u, key)| == |u|
  {
    if u != [] {
      var front := u[..|u| - 1];
      assert forall i :: 0 <= i < |front| ==> front[i] == u[i];
      DistinctKeysCount(front, key);
      assert u == front + [u[|u| - 1]];
      KeySetAppend(front, u[|u| - 1], key);
    }
  }
}

module QuizUsers {
  import opened Wrappers
  import opened Text
  import opened Records
  import opened ListOps
  import opened Paging
  import opened Grouping

  /** The submissions the query returns: the email and kit filters apply when given. */
  predicate Matches(s: QuizSubmission, email: Option<string>, kitType: Option<string>) {
    (Truthy(email) ==> s.email == NormalizeEmail(email.value))
    && (Truthy(kitType) ==> s.preferredKit == kitType)
  }

  /** The key users are grouped by. */
  function Key(s: QuizSubmission): string {
    NormalizeEmail(s.email)
  }

  /**
   * The users: one submission per normalised email, the first met.
   * Submissions come newest first, so each user is represented by the
   * latest submission.
   */
  function UniqueUsers(subs: seq<QuizSubmission>): seq<QuizSubmission> {
    FirstPerKey(subs, Key)
  }

  /** The grouping loop, with `seen` standing for the map's keys. */
  method GroupByEmail(subs: seq<QuizSubmission>) returns (users: seq<QuizSubmission>)
    ensures users == UniqueUsers(subs)
  {
    users := [];
    var seen: set<string> := {};
    var i := 0;
    while i < |subs|
      invariant 0 <= i <= |subs|
      invariant users == FirstPerKey(subs[..i], Key)
      invariant seen == KeySet(users, Key)
    {
      assert subs[..i + 1][..i] == subs[..i];
      var email := Key(subs[i]);
      if email !in seen {
        var before := users;
        users := users + [subs[i]];
        seen := seen + {email};
        KeySetAppend(before, subs[i], Key);
      }
      i := i + 1;
    }
    assert subs[..i] == subs;
  }

  datatype ProjectSummary = ProjectSummary(id: string, kit_type: string, onboarding_finished: bool,
                                           onboarding_percent: int)

  datatype UserEntry = UserEntry(submission: QuizSubmission, has_project: bool, project: Option<ProjectSummary>)

  datatype Response =
    | Unauthorized
    | Users(users: seq<UserEntry>, total: nat, limit: nat, offset: nat, has_more: bool)

  /** The first client stored under the given email. */
  function ClientFor(clients: seq<Client>, email: string): (r: Option<Client>)
    ensures r.Some? <==> exists c :: c in clients && c.email == email
    ensures r.Some? ==> r.value in clients && r.value.email == email
  {
    if clients == [] then None
    else if clients[0].email == email then Some(clients[0])
    else
      assert forall c :: c in clients[1..] ==> c in clients;
      ClientFor(clients[1..], email)
  }

  /** A user with the project stored under the submission's lower-cased email, if any. */
  function Enrich(s: QuizSubmission, clients: seq<Client>): (e: UserEntry)
    ensures e.submission == s
    ensures e.has_project <==> exists c :: c in clients && c.email == Lower(s.email)
    ensures e.project.Some? <==> e.has_project
    ensures e.project.Some? ==> (e.project.value.onboarding_finished <==> e.project.value.onboarding_percent == 100)
  {
    match ClientFor(clients, Lower(s.email))
    case None => UserEntry(s, false, None)
    case Some(c) => UserEntry(s, true, Some(ProjectSummary(c.id, c.plan, Finished(c), c.onboardingPercent)))
  }

  function Matching(subs: seq<QuizSubmission>, email: Option<string>, kitType: Option<string>): seq<QuizSubmission> {
    Filter(subs, s => Matches(s, email, kitType))
  }

  /**
   * GET: the matching submissions grouped by email, one page of users, the
   * number of users (not of submissions) as the total, and whether more
   * users follow. `authenticated` is the outcome of the request's sign-in
   * check, which is not part of this model.
   */
  function Get(authenticated: bool, subs: seq<QuizSubmission>, clients: seq<Client>,
               email: Option<string>, kitType: Option<string>, offset: nat, limit: nat): (r: Response)
    ensures r.Unauthorized? <==> !authenticated
    ensures r.Users? ==> (
      var users := UniqueUsers(Matching(subs, email, kitType));
      var page := Page(users, offset, limit);
      && r.total == |users|
      && (r.has_more <==> offset + limit < |users|)
      && |r.users| == |page| <= limit
      && forall i :: 0 <= i < |r.users| ==> r.users[i] == Enrich(page[i], clients))
  {
    if !authenticated then Unauthorized
    else
      var users := UniqueUsers(Matching(subs, email, kitType));
      var page := Page(users, offset, limit);
      Users(seq(|page|, i requires 0 <= i < |page| => Enrich(page[i], clients)),
            |users|, limit, offset, HasMore(offset, limit, |users|))
  }

  function Submissions(users: seq<UserEntry>): (r: seq<QuizSubmission>)
    ensures |r| == |users| && forall i :: 0 <= i < |users| ==> r[i] == users[i].submission
  {
    seq(|users|, i requires 0 <= i < |users| => users[i].submission)
  }

  /** The total is the number of distinct normalised emails among the matching submissions. */
  lemma TotalCountsEmails(subs: seq<QuizSubmission>, clients: seq<Client>,
                          email: Option<string>, kitType: Option<string>, offset: nat, limit: nat)
    ensures Get(true, subs, clients, email, kitType, offset, limit).total == |KeySet(Matching(subs, email, kitType), Key)|
  {
    DistinctKeysCount(UniqueUsers(Matching(subs, email, kitType)), Key);
  }

  /**
   * The users listed are distinct people: no two entries share a
   * normalised email, and each is that person's latest matching submission.
   */
  lemma GetListsDistinctUsers(subs: seq<QuizSubmission>, clients: seq<Client>,
                              email: Option<string>, kitType: Option<string>, offset: nat, limit: nat)
    ensures var listed := Submissions(Get(true, subs, clients, email, kitType, offset, limit).users);
      var matching := Matching(subs, email, kitType);
      && DistinctKeys(listed, Key)
      && EachFirstWithKey(listed, matching, Key)
  {
    var matching := Matching(subs, email, kitType);
    var users := UniqueUsers(matching);
    var listed := Submissions(Get(true, subs, clients, email, kitType, offset, limit).users);
    assert users == FirstPerKey(matching, Key);
    assert listed == Page(users, offset, limit);
    FirstPerKeyPage(matching, Key, offset, limit);
  }

  /** Whoever has a matching submission is listed on some page. */
  lemma EveryUserListed(subs: seq<QuizSubmission>, email: Option<string>, kitType: Option<string>, k: int)
    requires var m := Matching(subs, email, kitType); 0 <= k < |m| && FirstWithKey(m, Key, k)
    ensures Matching(subs, email, kitType)[k] in UniqueUsers(Matching(subs, email, kitType))
  {
    FirstsKept(Matching(subs, email, kitType), Key, k);
  }
}

module ProjectsPhases {
  import opened Wrappers
  import opened Text
  import opened PhaseStructure
  import opened Records
  import opened PhaseRows
  import opened ListOps
  import opened Paging

  /** The client's plan merged with its stored rows (null when it has none). */
  function ClientPhases(c: Client): seq<MergedPhase> {
    Merge(GetPhaseStructureForKitType(c.plan), StateArg(RowsToState(c.phaseStates)))
  }

  /** The status filter: a phase is kept when its status is the parameter upper-cased. */
  predicate HasStatus(p: MergedPhase, status: string) {
    p.status.Name() == Upper(status)
  }

  datatype ProjectEntry = ProjectEntry(client: Client, onboarding_finished: bool, phases: seq<MergedPhase>)

  datatype Response =
    | Unauthorized
    | Projects(projects: seq<ProjectEntry>, total: nat, limit: nat, offset: nat, has_more: bool)

  function Process(c: Client, status: Option<string>): (e: ProjectEntry)
    ensures e.client == c && (e.onboarding_finished <==> c.onboardingPercent == 100)
    ensures !Truthy(status) ==> e.phases == ClientPhases(c)
    ensures Truthy(status) ==> forall p :: p in e.phases <==> p in ClientPhases(c) && HasStatus(p, status.value)
    ensures Truthy(status) ==> e.phases == Filter(ClientPhases(c), p => HasStatus(p, status.value))
  {
    var phases := ClientPhases(c);
    ProjectEntry(c, Finished(c),
      if Truthy(status) then Filter(phases, p => HasStatus(p, status.value)) else phases)
  }

  /** With a status filter, a project left without phases is dropped. */
  predicate Keep(e: ProjectEntry, status: Option<string>) {
    !(Truthy(status) && e.phases == [])
  }

  predicate KitMatches(c: Client, kitType: Option<string>) {
    Truthy(kitType) ==> c.plan == kitType.value
  }

  /** The clients the query pages through. */
  function Listed(clients: seq<Client>, kitType: Option<string>): seq<Client> {
    Filter(clients, c => KitMatches(c, kitType))
  }

  /** Every client of the page with its phases. */
  function Processed(page: seq<Client>, status: Option<string>): (r: seq<ProjectEntry>)
    ensures |r| == |page| && forall i :: 0 <= i < |page| ==> r[i] == Process(page[i], status)
  {
    seq(|page|, i requires 0 <= i < |page| => Process(page[i], status))
  }

  /**
   * GET: the page of clients of the requested kit, each with its merged
   * phases, narrowed by status when one is given; the total and `has_more`
   * count clients before the status filter.
   */
  function Get(authenticated: bool, clients: seq<Client>, kitType: Option<string>, status: Option<string>,
               offset: nat, limit: nat): (r: Response)
    ensures r.Unauthorized? <==> !authenticated
    ensures r.Projects? ==> (
      var listed := Listed(clients, kitType);
      var processed := Processed(Page(listed, offset, limit), status);
      && r.total == |listed|
      && (r.has_more <==> offset + limit < |listed|)
      && r.projects == Filter(processed, e => Keep(e, status))
      && |r.projects| <= |processed|
      && (forall e :: e in r.projects <==> e in processed && Keep(e, status)))
  {
    if !authenticated then Unauthorized
    else
      var listed := Listed(clients, kitType);
      var kept := Filter(Processed(Page(listed, offset, limit), status), e => Keep(e, status));
      Projects(kept, |listed|, limit, offset, HasMore(offset, limit, |listed|))
  }

  /** Without a status filter, every client of the page is reported with its whole merged plan. */
  lemma NoStatusKeepsAll(clients: seq<Client>, kitType: Option<string>, offset: nat, limit: nat, i: int)
    requires 0 <= i < |Page(Listed(clients, kitType), offset, limit)|
    ensures var c := Page(Listed(clients, kitType), offset, limit)[i];
      ProjectEntry(c, Finished(c), ClientPhases(c)) in Get(true, clients, kitType, None, offset, limit).projects
  {
    var page := Page(Listed(clients, kitType), offset, limit);
    assert Processed(page, None)[i] in Processed(page, None);
  }

  /** With a status filter, a project keeps only the phases with that status. */
  lemma StatusFilterNarrows(c: Client, status: string)
    requires status != ""
    ensures forall p :: p in Process(c, Some(status)).phases <==> p in ClientPhases(c) && HasStatus(p, status)
  {
  }

  /** With a status filter, a project stays exactly when one of its merged phases has that status. */
  lemma KeepIff(c: Client, status: string)
    requires status != ""
    ensures Keep(Process(c, Some(status)), Some(status)) <==> exists p :: p in ClientPhases(c) && HasStatus(p, status)
  {
    if exists p :: p in ClientPhases(c) && HasStatus(p, status) {
      var p :| p in ClientPhases(c) && HasStatus(p, status);
      assert p in Process(c, Some(status)).phases;
    }
  }

  /**
   * With a status filter, a client of the page is reported exactly when one
   * of its merged phases has that status.
   */
  lemma StatusFilterKeeps(clients: seq<Client>, kitType: Option<string>, status: string,
                          offset: nat, limit: nat, i: int)
    requires status != ""
    requires 0 <= i < |Page(Listed(clients, kitType), offset, limit)|
    ensures var c := Page(Listed(clients, kitType), offset, limit)[i];
      (Process(c, Some(status)) in Get(true, clients, kitType, Some(status), offset, limit).projects)
        <==> (exists p :: p in ClientPhases(c) && HasStatus(p, status))
  {
    var page := Page(Listed(clients, kitType), offset, limit);
    assert Processed(page, Some(status))[i] in Processed(page, Some(status));
    KeepIff(page[i], status);
  }

  /** A status the phases never report, such as a misspelt one, leaves no project. */
  lemma UnknownStatusListsNothing(clients: seq<Client>, kitType: Option<string>, status: string,
                                  offset: nat, limit: nat)
    requires status != ""
    requires forall s: Status :: s.Name() != Upper(status)
    ensures Get(true, clients, kitType, Some(status), offset, limit).projects == []
  {
    var page := Page(Listed(clients, kitType), offset, limit);
    var processed := Processed(page, Some(status));
    forall i | 0 <= i < |processed|
      ensures !Keep(processed[i], Some(status))
    {
      assert processed[i].phases == [];
    }
  }
}

module ProjectsClients {
  import opened Wrappers
  import opened Text
  import opened Records
  import opened ListOps
  import opened Paging

  /** The `onboarding_finished` parameter: absent, `true`, or any other value. */
  datatype FinishedFilter = AnyProgress | OnlyFinished | OnlyUnfinished

  function FinishedFilterFrom(param: Option<string>): (f: FinishedFilter)
    ensures f.AnyProgress? <==> param.None?
    ensures f.OnlyFinished? <==> param == Some("true")
  {
    if param.None? then AnyProgress else if param.value == "true" then OnlyFinished else OnlyUnfinished
  }

  predicate Matches(c: Client, kitType: Option<string>, f: FinishedFilter) {
    && (Truthy(kitType) ==> c.plan == kitType.value)
    && match f
       case AnyProgress => true
       case OnlyFinished => c.onboardingPercent == 100
       case OnlyUnfinished => c.onboardingPercent != 100
  }

  /** `key` is the lower-cased email of a submission that has a name. */
  predicate Named(s: QuizSubmission, key: string) {
    Lower(s.email) == key && s.fullName != ""
  }

  /**
   * The email-to-name map, submission by submission: the first submission
   * (the latest) with a non-empty name sets the name for its lower-cased
   * email; later ones never overwrite it.
   */
  function NameMap(subs: seq<QuizSubmission>): (m: map<string, string>)
    ensures forall k :: k in m <==> exists i :: 0 <= i < |subs| && Named(subs[i], k)
    ensures forall k :: k in m ==> m[k] != ""
    decreases |subs|
  {
    if subs == [] then map[]
    else
      var front := subs[..|subs| - 1];
      var s := subs[|subs| - 1];
      var m := NameMap(front);
      assert forall i :: 0 <= i < |front| ==> front[i] == subs[i];
      if Lower(s.email) in m || s.fullName == "" then m else m[Lower(s.email) := s.fullName]
  }

  /** The name stored for an email is that of its first named submission. */
  lemma {:induction false} NameMapFirstWins(subs: seq<QuizSubmission>, k: int)
    requires 0 <= k < |subs| && subs[k].fullName != ""
    requires forall j :: 0 <= j < k ==> !Named(subs[j], Lower(subs[k].email))
    ensures Lower(subs[k].email) in NameMap(subs)
    ensures NameMap(subs)[Lower(subs[k].email)] == subs[k].fullName
    decreases |subs|
  {
    var front := subs[..|subs| - 1];
    assert forall j :: 0 <= j < |front| ==> front[j] == subs[j];
    if k < |subs| - 1 {
      NameMapFirstWins(front, k);
    } else {
      assert Lower(subs[k].email) !in NameMap(front);
    }
  }

  /** The forEach that fills the map. */
  method BuildNameMap(subs: seq<QuizSubmission>) returns (m: map<string, string>)
    ensures m == NameMap(subs)
  {
    m := map[];
    var i := 0;
    while i < |subs|
      invariant 0 <= i <= |subs|
      invariant m == NameMap(subs[..i])
    {
      assert subs[..i + 1][..i] == subs[..i];
      var email := Lower(subs[i].email);
      if email !in m && subs[i].fullName != "" {
        m := m[email := subs[i].fullName];
      }
      i := i + 1;
    }
    assert subs[..i] == subs;
  }

  /** `client.name || emailToName.get(email) || null`. */
  function DisplayName(c: Client, names: map<string, string>): (r: Option<string>)
    ensures Truthy(c.name) ==> r == c.name
    ensures !Truthy(c.name) ==> (r.Some? <==> Lower(c.email) in names && names[Lower(c.email)] != "")
    ensures !Truthy(c.name) && r.Some? ==> r.value == names[Lower(c.email)]
    ensures r.Some? ==> r.value != ""
  {
    if Truthy(c.name) then c.name
    else if Lower(c.email) in names && names[Lower(c.email)] != "" then Some(names[Lower(c.email)])
    else None
  }

  datatype ClientEntry = ClientEntry(client: Client, name: Option<string>, onboarding_finished: bool)

  datatype Response =
    | Unauthorized
    | Clients(clients: seq<ClientEntry>, total: nat, count: nat, limit: nat, offset: nat, has_more: bool)

  function Emails(cs: seq<Client>): set<string> {
    set c | c in cs :: c.email
  }

  /** The quiz submissions the route reads for a page: those stored under one of its clients' emails, newest first. */
  function PageSubmissions(subs: seq<QuizSubmission>, page: seq<Client>): seq<QuizSubmission> {
    Filter(subs, (s: QuizSubmission) => s.email in Emails(page))
  }

  /**
   * GET: the page of matching clients; names fall back to the quiz
   * submissions stored under exactly those clients' emails, newest first.
   */
  function Get(authenticated: bool, clients: seq<Client>, subs: seq<QuizSubmission>, kitType: Option<string>,
               finishedParam: Option<string>, offset: nat, limit: nat): (r: Response)
    ensures r.Unauthorized? <==> !authenticated
    ensures r.Clients? ==> (
      var listed := Filter(clients, c => Matches(c, kitType, FinishedFilterFrom(finishedParam)));
      && r.total == |listed|
      && r.count == |r.clients| == |Page(listed, offset, limit)|
      && (r.has_more <==> offset + limit < |listed|)
      && forall i :: 0 <= i < |r.clients| ==>
           && r.clients[i].client == listed[offset + i]
           && (r.clients[i].onboarding_finished <==> listed[offset + i].onboardingPercent == 100)
           && r.clients[i].name == DisplayName(listed[offset + i], NameMap(PageSubmissions(subs, Page(listed, offset, limit))))
           && (r.clients[i].name.Some? ==> r.clients[i].name.value != ""))
  {
    if !authenticated then Unauthorized
    else
      var listed := Filter(clients, c => Matches(c, kitType, FinishedFilterFrom(finishedParam)));
      var page := Page(listed, offset, limit);
      var names := NameMap(PageSubmissions(subs, page));
      var entries := seq(|page|, i requires 0 <= i < |page| =>
        ClientEntry(page[i], DisplayName(page[i], names), Finished(page[i])));
      Clients(entries, |listed|, |entries|, limit, offset, HasMore(offset, limit, |listed|))
  }

  /** `read[k]` is the first submission named under `key`. */
  predicate FirstNamed(read: seq<QuizSubmission>, key: string, k: int) {
    0 <= k < |read| && Named(read[k], key) && forall j :: 0 <= j < k ==> !Named(read[j], key)
  }

  /**
   * A client's name: its own when set; otherwise the full name of the first
   * submission that has the client's lower-cased email and a name; with no
   * such submission, none.
   */
  lemma NameRule(c: Client, read: seq<QuizSubmission>)
    ensures Truthy(c.name) ==> DisplayName(c, NameMap(read)) == c.name
    ensures !Truthy(c.name) && (forall j :: 0 <= j < |read| ==> !Named(read[j], Lower(c.email))) ==>
      DisplayName(c, NameMap(read)) == None
    ensures forall k :: FirstNamed(read, Lower(c.email), k) && !Truthy(c.name) ==>
      DisplayName(c, NameMap(read)) == Some(read[k].fullName)
  {
    forall k | FirstNamed(read, Lower(c.email), k)
      ensures NameMap(read)[Lower(c.email)] == read[k].fullName
    {
      NameMapFirstWins(read, k);
    }
  }

  /**
   * The name listed for a client of the page follows `NameRule` over the
   * submissions the route reads for that page.
   */
  lemma ListedName(clients: seq<Client>, subs: seq<QuizSubmission>, kitType: Option<string>,
                   finishedParam: Option<string>, offset: nat, limit: nat, i: int)
    requires 0 <= i < |Get(true, clients, subs, kitType, finishedParam, offset, limit).clients|
    ensures var r := Get(true, clients, subs, kitType, finishedParam, offset, limit);
      var c := r.clients[i].client;
      var read := PageSubmissions(subs, Page(Filter(clients, c => Matches(c, kitType, FinishedFilterFrom(finishedParam))), offset, limit));
      && (Truthy(c.name) ==> r.clients[i].name == c.name)
      && (!Truthy(c.name) && (forall j :: 0 <= j < |read| ==> !Named(read[j], Lower(c.email))) ==>
            r.clients[i].name == None)
      && (forall k :: FirstNamed(read, Lower(c.email), k) && !Truthy(c.name) ==>
            r.clients[i].name == Some(read[k].fullName))
  {
    var r := Get(true, clients, subs, kitType, finishedParam, offset, limit);
    var listed := Filter(clients, c => Matches(c, kitType, FinishedFilterFrom(finishedParam)));
    var read := PageSubmissions(subs, Page(listed, offset, limit));
    assert r.clients[i].name == DisplayName(r.clients[i].client, NameMap(read));
    NameRule(r.clients[i].client, read);
  }

  /** The finished filter splits the clients: every client is listed under exactly one of `true` and `false`. */
  lemma FinishedFilterPartitions(c: Client, kitType: Option<string>)
    ensures Matches(c, kitType, FinishedFilterFrom(None)) <==> Truthy(kitType) ==> c.plan == kitType.value
    ensures Matches(c, kitType, FinishedFilterFrom(Some("true"))) != Matches(c, kitType, FinishedFilterFrom(Some("false")))
      || !(Truthy(kitType) ==> c.plan == kitType.value)
  {
  }
}
