/**
 What a server's container snapshot says about every resource: the status each application,
 preview, database and service part must end with, resource by resource. Nothing here depends on
 the order in which the job looks at things.
 */
module PushSpec {
  import opened Text
  import opened ContainerStatus

  /** The labels of a container that the job reads. */
  datatype Labels = Labels(
    managed: bool,
    applicationId: Option<string>,
    pullRequestId: Option<string>,
    serviceId: Option<string>,
    subType: Option<string>,
    subId: Option<string>,
    composeService: Option<string>,
    kind: Option<string>)

  datatype Container = Container(name: string, state: Option<string>, health: Option<string>, labels: Labels)

  datatype PreviewKey = PreviewKey(application: string, pullRequest: string)
  datatype SubType = ApplicationPart | DatabasePart
  datatype Part = Part(subType: SubType, id: string)
  datatype PartKey = PartKey(service: string, part: Part)

  datatype Application = Application(singleServer: bool, excluded: set<string>)
  datatype PartInfo = PartInfo(service: string, excluded: set<string>)

  /** The resources recorded for a server. */
  datatype Server = Server(
    applications: map<string, Application>,
    previews: set<PreviewKey>,
    databases: set<string>,
    parts: map<Part, PartInfo>)

  /** The recorded statuses. */
  datatype Statuses = Statuses(
    applications: map<string, string>,
    previews: map<PreviewKey, string>,
    databases: map<string, string>,
    parts: map<Part, string>)

  predicate Covers(server: Server, s: Statuses) {
    && s.applications.Keys == server.applications.Keys
    && s.previews.Keys == server.previews
    && s.databases.Keys == server.databases
    && s.parts.Keys == server.parts.Keys
  }

  // ------------------------------------------------------------------ reading one container

  /** State and health as one text; an exited container has no health. */
  function StatusOf(c: Container): string {
    var state := match c.state case None => "exited" case Some(s) => s;
    var health := match c.health case None => "unknown" case Some(h) => h;
    if state == "exited" then state else state + ":" + health
  }

  /** The compose service that a container's status is kept under, if it has a usable one. */
  function ComposeName(c: Container): Option<string> {
    match c.labels.composeService
    case None => None
    case Some(name) => if name == "" || name == "0" then None else Some(name)
  }

  function PullRequest(c: Container): string {
    match c.labels.pullRequestId case None => "0" case Some(id) => id
  }

  predicate IsEmptyId(id: Option<string>) {
    match id
    case None => true
    case Some(s) => Trim(PhpBlank, s) == "" || Trim(PhpBlank, s) == "0"
  }

  predicate ApplicationContainer(id: string, c: Container) {
    c.labels.managed && c.labels.applicationId == Some(id) && PullRequest(c) == "0"
  }

  predicate PreviewContainer(key: PreviewKey, c: Container) {
    c.labels.managed && c.labels.applicationId == Some(key.application)
    && PullRequest(c) != "0" && PullRequest(c) == key.pullRequest
  }

  predicate PartContainer(part: Part, c: Container) {
    && c.labels.managed && c.labels.applicationId.None? && c.labels.serviceId.Some?
    && !IsEmptyId(c.labels.subId) && c.labels.subId == Some(part.id)
    && c.labels.subType ==
         Some(match part.subType case ApplicationPart => "application" case DatabasePart => "database")
  }

  predicate PartOfContainer(key: PartKey, c: Container) {
    PartContainer(key.part, c) && c.labels.serviceId == Some(key.service)
  }

  /** A tracked container of a standalone database: no proxy, no running service, and not gone. */
  predicate DatabaseContainer(uuid: string, c: Container) {
    && c.labels.managed && c.labels.applicationId.None? && c.labels.serviceId.None?
    && !(c.name == "coolify-proxy" && IsRunning(StatusOf(c)))
    && !(c.labels.kind == Some("service") && IsRunning(StatusOf(c)))
    && c.labels.composeService == Some(uuid) && IsActiveOrTransient(StatusOf(c))
  }

  type ContainerTest = Container -> bool

  function OfApplication(id: string): ContainerTest { c => ApplicationContainer(id, c) }
  function OfPreview(key: PreviewKey): ContainerTest { c => PreviewContainer(key, c) }
  function OfPart(part: Part): ContainerTest { c => PartContainer(part, c) }
  function OfPartKey(key: PartKey): ContainerTest { c => PartOfContainer(key, c) }
  function OfDatabase(uuid: string): ContainerTest { c => DatabaseContainer(uuid, c) }

  // ------------------------------------------------------------------ reading a snapshot

  predicate Seen(snapshot: seq<Container>, p: ContainerTest) {
    exists c | c in snapshot :: p(c)
  }

  /** The statuses of the selected containers by compose service; of two under one name the later counts. */
  function Names(snapshot: seq<Container>, p: ContainerTest): map<string, string> {
    if snapshot == [] then map[]
    else
      var c, before := snapshot[|snapshot| - 1], Names(snapshot[..|snapshot| - 1], p);
      if p(c) && ComposeName(c).Some? then before[ComposeName(c).value := StatusOf(c)] else before
  }

  /** The status of the last selected container. */
  function LastStatus(snapshot: seq<Container>, p: ContainerTest): (r: Option<string>)
    ensures r.Some? <==> Seen(snapshot, p)
  {
    if snapshot == [] then None
    else
      var c := snapshot[|snapshot| - 1];
      assert snapshot == snapshot[..|snapshot| - 1] + [c];
      if p(c) then Some(StatusOf(c)) else LastStatus(snapshot[..|snapshot| - 1], p)
  }

  /** What becomes of a resource with no container: exited, unless its status says so already. */
  function Gone(was: string): string {
    if "exited" <= was then was else "exited"
  }

  // ------------------------------------------------------------------ the status of each resource

  ghost function ApplicationStatus(server: Server, snapshot: seq<Container>, id: string, was: string): string
    requires id in server.applications
  {
    var app := server.applications[id];
    if Seen(snapshot, OfApplication(id)) then Aggregated(Names(snapshot, OfApplication(id)), app.excluded)
    else if app.singleServer then Gone(was)
    else was
  }

  function PreviewStatus(snapshot: seq<Container>, key: PreviewKey, was: string): string {
    match LastStatus(snapshot, OfPreview(key)) case Some(s) => s case None => Gone(was)
  }

  function DatabaseStatus(snapshot: seq<Container>, uuid: string, was: string): string {
    match LastStatus(snapshot, OfDatabase(uuid)) case Some(s) => s case None => Gone(was)
  }

  /** A part whose containers all name another service keeps its status. */
  ghost function PartStatus(server: Server, snapshot: seq<Container>, part: Part, was: string): string
    requires part in server.parts
  {
    var info := server.parts[part];
    var key := PartKey(info.service, part);
    if !Seen(snapshot, OfPart(part)) then "exited"
    else if Seen(snapshot, OfPartKey(key)) then Aggregated(Names(snapshot, OfPartKey(key)), info.excluded)
    else was
  }

  /** All statuses after a push; an empty snapshot changes nothing. */
  ghost function Pushed(server: Server, snapshot: seq<Container>, was: Statuses): (r: Statuses)
    requires Covers(server, was)
    ensures Covers(server, r)
  {
    if snapshot == [] then was
    else
      Statuses(
        map id | id in server.applications :: ApplicationStatus(server, snapshot, id, was.applications[id]),
        map key | key in server.previews :: PreviewStatus(snapshot, key, was.previews[key]),
        map uuid | uuid in server.databases :: DatabaseStatus(snapshot, uuid, was.databases[uuid]),
        map part | part in server.parts :: PartStatus(server, snapshot, part, was.parts[part]))
  }

  // ------------------------------------------------------------------ handling a snapshot twice

  /** Handling the same snapshot twice leaves the same statuses as handling it once. */
  lemma TwiceIsOnce(server: Server, snapshot: seq<Container>, was: Statuses)
    requires Covers(server, was)
    ensures Pushed(server, snapshot, Pushed(server, snapshot, was)) == Pushed(server, snapshot, was)
  {
    hide Seen;
    hide Names;
    hide LastStatus;
    hide Aggregated;
    var once := Pushed(server, snapshot, was);
    var twice := Pushed(server, snapshot, once);
    if snapshot != [] {
      forall id | id in server.applications
        ensures twice.applications[id] == once.applications[id]
      {
      }
      assert twice.applications == once.applications;
      assert twice.previews == once.previews;
      assert twice.databases == once.databases;
      assert twice.parts == once.parts;
    }
  }

  // ------------------------------------------------------------------ order does not matter

  predicate SameContainers(s: seq<Container>, t: seq<Container>) {
    (forall c | c in s :: c in t) && (forall c | c in t :: c in s)
  }

  /** Two containers that the job would store under the same key. */
  ghost predicate SameSlot(c: Container, d: Container) {
    || (exists id ::
          ApplicationContainer(id, c) && ApplicationContainer(id, d)
          && ComposeName(c).Some? && ComposeName(c) == ComposeName(d))
    || (exists key :: PreviewContainer(key, c) && PreviewContainer(key, d))
    || (exists key ::
          PartOfContainer(key, c) && PartOfContainer(key, d)
          && ComposeName(c).Some? && ComposeName(c) == ComposeName(d))
    || (exists uuid :: DatabaseContainer(uuid, c) && DatabaseContainer(uuid, d))
  }

  /** No two containers with different statuses claim the same key. */
  ghost predicate Unambiguous(s: seq<Container>) {
    forall c, d | c in s && d in s && SameSlot(c, d) :: StatusOf(c) == StatusOf(d)
  }

  lemma SeenAlike(s: seq<Container>, t: seq<Container>, p: ContainerTest)
    requires SameContainers(s, t)
    ensures Seen(s, p) == Seen(t, p)
  {
  }

  lemma {:induction false} NamesFromContainers(s: seq<Container>, p: ContainerTest)
    ensures forall c | c in s && p(c) && ComposeName(c).Some? :: ComposeName(c).value in Names(s, p)
    ensures forall name | name in Names(s, p) ::
              exists c | c in s :: p(c) && ComposeName(c) == Some(name) && Names(s, p)[name] == StatusOf(c)
  {
    hide ComposeName;
    hide StatusOf;
    if s != [] {
      var init, last := s[..|s| - 1], s[|s| - 1];
      NamesFromContainers(init, p);
      assert s == init + [last];
      forall name | name in Names(s, p)
        ensures exists c | c in s :: p(c) && ComposeName(c) == Some(name) && Names(s, p)[name] == StatusOf(c)
      {
        if p(last) && ComposeName(last) == Some(name) {
          assert last in s;
        } else {
          var c :| c in init && p(c) && ComposeName(c) == Some(name) && Names(init, p)[name] == StatusOf(c);
          assert c in s;
        }
      }
    }
  }

  lemma NamesAlike(s: seq<Container>, t: seq<Container>, p: ContainerTest)
    requires SameContainers(s, t)
    requires forall c, d |
               c in s && d in s && p(c) && p(d) && ComposeName(c).Some? && ComposeName(c) == ComposeName(d) ::
               StatusOf(c) == StatusOf(d)
    ensures Names(s, p) == Names(t, p)
  {
    hide ComposeName;
    hide StatusOf;
    hide Names;
    NamesFromContainers(s, p);
    NamesFromContainers(t, p);
    var m, n := Names(s, p), Names(t, p);
    forall name | name in m
      ensures name in n && n[name] == m[name]
    {
      var c :| c in s && p(c) && ComposeName(c) == Some(name) && m[name] == StatusOf(c);
      assert c in t;
      var d :| d in t && p(d) && ComposeName(d) == Some(name) && n[name] == StatusOf(d);
      assert d in s;
    }
    forall name | name in n
      ensures name in m
    {
      var d :| d in t && p(d) && ComposeName(d) == Some(name) && n[name] == StatusOf(d);
      assert d in s;
    }
    assert m.Keys == n.Keys;
  }

  lemma {:induction false} LastStatusFromContainer(s: seq<Container>, p: ContainerTest)
    requires Seen(s, p)
    ensures exists c | c in s :: p(c) && LastStatus(s, p) == Some(StatusOf(c))
  {
    hide StatusOf;
    var init, last := s[..|s| - 1], s[|s| - 1];
    assert s == init + [last];
    if !p(last) {
      LastStatusFromContainer(init, p);
      var c :| c in init && p(c) && LastStatus(init, p) == Some(StatusOf(c));
      assert c in s;
    }
  }

  lemma LastStatusAlike(s: seq<Container>, t: seq<Container>, p: ContainerTest)
    requires SameContainers(s, t)
    requires forall c, d | c in s && d in s && p(c) && p(d) :: StatusOf(c) == StatusOf(d)
    ensures LastStatus(s, p) == LastStatus(t, p)
  {
    hide StatusOf;
    hide LastStatus;
    SeenAlike(s, t, p);
    if Seen(s, p) {
      LastStatusFromContainer(s, p);
      LastStatusFromContainer(t, p);
      var c :| c in s && p(c) && LastStatus(s, p) == Some(StatusOf(c));
      var d :| d in t && p(d) && LastStatus(t, p) == Some(StatusOf(d));
      assert d in s;
    }
  }

  /**
   The order of the containers does not matter: two snapshots with the same containers give the
   same statuses when no two containers compete for a key with different statuses. Permutations
   of a snapshot without repeated keys are a special case.
   */
  lemma OrderDoesNotMatter(server: Server, s: seq<Container>, t: seq<Container>, was: Statuses)
    requires Covers(server, was) && SameContainers(s, t) && Unambiguous(s)
    ensures Pushed(server, s, was) == Pushed(server, t, was)
  {
    hide StatusOf;
    hide ComposeName;
    hide Names;
    hide LastStatus;
    hide Seen;
    hide Aggregated;
    hide Gone;
    if s == [] {
      if t != [] {
        HasContainer(t);
      }
      return;
    }
    assert s[0] in s;
    var a, b := Pushed(server, s, was), Pushed(server, t, was);
    forall id | id in server.applications
      ensures a.applications[id] == b.applications[id]
    {
      ApplicationAlike(s, t, id);
    }
    forall key | key in server.previews
      ensures a.previews[key] == b.previews[key]
    {
      PreviewAlike(s, t, key);
    }
    forall uuid | uuid in server.databases
      ensures a.databases[uuid] == b.databases[uuid]
    {
      DatabaseAlike(s, t, uuid);
    }
    forall part | part in server.parts
      ensures a.parts[part] == b.parts[part]
    {
      PartAlike(s, t, PartKey(server.parts[part].service, part));
    }
    assert a.applications == b.applications && a.previews == b.previews;
    assert a.databases == b.databases && a.parts == b.parts;
  }

  /** No key is claimed by two places of the snapshot. */
  ghost predicate NoRepeatedKey(s: seq<Container>) {
    forall i, j | 0 <= i < |s| && 0 <= j < |s| && i != j :: !SameSlot(s[i], s[j])
  }

  /** Any permutation of a snapshot without repeated keys gives the same statuses. */
  lemma PermutationGivesSameStatuses(server: Server, s: seq<Container>, t: seq<Container>, was: Statuses)
    requires Covers(server, was) && multiset(s) == multiset(t) && NoRepeatedKey(s)
    ensures Pushed(server, s, was) == Pushed(server, t, was)
  {
    hide StatusOf;
    hide SameSlot;
    hide Pushed;
    PermutationIsAlike(s, t);
    assert Unambiguous(s) by {
      forall c, d | c in s && d in s && SameSlot(c, d)
        ensures StatusOf(c) == StatusOf(d)
      {
        var i :| 0 <= i < |s| && s[i] == c;
        var j :| 0 <= j < |s| && s[j] == d;
        if i != j {
          assert false;
        }
      }
    }
    OrderDoesNotMatter(server, s, t, was);
  }

  lemma HasContainer(t: seq<Container>)
    requires t != []
    ensures exists c :: c in t
  {
    assert t[0] in t;
  }

  lemma ApplicationAlike(s: seq<Container>, t: seq<Container>, id: string)
    requires SameContainers(s, t) && Unambiguous(s)
    ensures Seen(s, OfApplication(id)) == Seen(t, OfApplication(id))
    ensures Names(s, OfApplication(id)) == Names(t, OfApplication(id))
  {
    hide StatusOf;
    hide ComposeName;
    hide ApplicationContainer;
    SeenAlike(s, t, OfApplication(id));
    NamesAlike(s, t, OfApplication(id));
  }

  lemma PreviewAlike(s: seq<Container>, t: seq<Container>, key: PreviewKey)
    requires SameContainers(s, t) && Unambiguous(s)
    ensures LastStatus(s, OfPreview(key)) == LastStatus(t, OfPreview(key))
  {
    hide StatusOf;
    hide ComposeName;
    hide PreviewContainer;
    LastStatusAlike(s, t, OfPreview(key));
  }

  lemma DatabaseAlike(s: seq<Container>, t: seq<Container>, uuid: string)
    requires SameContainers(s, t) && Unambiguous(s)
    ensures LastStatus(s, OfDatabase(uuid)) == LastStatus(t, OfDatabase(uuid))
  {
    hide StatusOf;
    hide ComposeName;
    hide DatabaseContainer;
    LastStatusAlike(s, t, OfDatabase(uuid));
  }

  lemma PartAlike(s: seq<Container>, t: seq<Container>, key: PartKey)
    requires SameContainers(s, t) && Unambiguous(s)
    ensures Seen(s, OfPart(key.part)) == Seen(t, OfPart(key.part))
    ensures Seen(s, OfPartKey(key)) == Seen(t, OfPartKey(key))
    ensures Names(s, OfPartKey(key)) == Names(t, OfPartKey(key))
  {
    hide StatusOf;
    hide ComposeName;
    hide PartContainer;
    hide PartOfContainer;
    SeenAlike(s, t, OfPart(key.part));
    SeenAlike(s, t, OfPartKey(key));
    NamesAlike(s, t, OfPartKey(key));
  }

  // ------------------------------------------------------------------ when the order does matter

  /** All containers that pass the test have the same status. */
  predicate OneStatus(s: seq<Container>, p: ContainerTest) {
    forall c, d | c in s && d in s && p(c) && p(d) :: StatusOf(c) == StatusOf(d)
  }

  /** The same snapshot with container i listed last. */
  function MovedLast(s: seq<Container>, i: nat): (r: seq<Container>)
    requires i < |s|
    ensures multiset(r) == multiset(s)
  {
    assert s == s[..i] + ([s[i]] + s[i + 1..]);
    (s[..i] + s[i + 1..]) + [s[i]]
  }

  lemma LastOneWins(s: seq<Container>, i: nat, p: ContainerTest)
    requires i < |s| && p(s[i])
    ensures LastStatus(MovedLast(s, i), p) == Some(StatusOf(s[i]))
  {
  }

  lemma PermutationIsAlike(s: seq<Container>, t: seq<Container>)
    requires multiset(s) == multiset(t)
    ensures SameContainers(s, t)
  {
    forall c
      ensures c in s <==> c in t
    {
      assert c in s <==> c in multiset(s);
      assert c in t <==> c in multiset(t);
    }
  }

  ghost predicate OrderFree(s: seq<Container>, p: ContainerTest) {
    forall t | multiset(t) == multiset(s) :: LastStatus(t, p) == LastStatus(s, p)
  }

  lemma OrderFreeExactly(s: seq<Container>, p: ContainerTest)
    ensures OrderFree(s, p) <==> OneStatus(s, p)
  {
    hide StatusOf;
    hide LastStatus;
    hide MovedLast;
    if OneStatus(s, p) {
      forall t | multiset(t) == multiset(s)
        ensures LastStatus(t, p) == LastStatus(s, p)
      {
        PermutationIsAlike(s, t);
        LastStatusAlike(s, t, p);
      }
    } else {
      var c, d :| c in s && d in s && p(c) && p(d) && StatusOf(c) != StatusOf(d);
      var i :| 0 <= i < |s| && s[i] == c;
      var j :| 0 <= j < |s| && s[j] == d;
      LastOneWins(s, i, p);
      LastOneWins(s, j, p);
    }
  }

  lemma NotEmptied(s: seq<Container>, t: seq<Container>)
    requires multiset(s) == multiset(t)
    ensures |s| == |t|
  {
    assert |s| == |multiset(s)| && |t| == |multiset(t)|;
  }

  /** A preview gets one status in whatever order the snapshot lists, if and only if all its containers have one. */
  lemma PreviewOrderExactly(server: Server, s: seq<Container>, key: PreviewKey, was: Statuses)
    requires Covers(server, was) && key in server.previews
    ensures (forall t | multiset(t) == multiset(s) ::
               Pushed(server, t, was).previews[key] == Pushed(server, s, was).previews[key])
            <==> OneStatus(s, OfPreview(key))
  {
    hide StatusOf;
    hide LastStatus;
    hide PreviewContainer;
    hide OneStatus;
    OrderFreeExactly(s, OfPreview(key));
    forall t | multiset(t) == multiset(s)
      ensures Pushed(server, t, was).previews[key] == Pushed(server, s, was).previews[key]
              <==> LastStatus(t, OfPreview(key)) == LastStatus(s, OfPreview(key))
    {
      NotEmptied(s, t);
      PermutationIsAlike(s, t);
      SeenAlike(s, t, OfPreview(key));
    }
  }

  /** The same holds of a standalone database. */
  lemma DatabaseOrderExactly(server: Server, s: seq<Container>, uuid: string, was: Statuses)
    requires Covers(server, was) && uuid in server.databases
    ensures (forall t | multiset(t) == multiset(s) ::
               Pushed(server, t, was).databases[uuid] == Pushed(server, s, was).databases[uuid])
            <==> OneStatus(s, OfDatabase(uuid))
  {
    hide StatusOf;
    hide LastStatus;
    hide DatabaseContainer;
    hide OneStatus;
    OrderFreeExactly(s, OfDatabase(uuid));
    forall t | multiset(t) == multiset(s)
      ensures Pushed(server, t, was).databases[uuid] == Pushed(server, s, was).databases[uuid]
              <==> LastStatus(t, OfDatabase(uuid)) == LastStatus(s, OfDatabase(uuid))
    {
      NotEmptied(s, t);
      PermutationIsAlike(s, t);
      SeenAlike(s, t, OfDatabase(uuid));
    }
  }

  /** Whichever of a preview's containers is listed last decides its status. */
  lemma OrderDecidesUnderOneKey(server: Server, key: PreviewKey, s: seq<Container>, i: nat, was: Statuses)
    requires Covers(server, was) && key in server.previews
    requires i < |s| && PreviewContainer(key, s[i])
    ensures Pushed(server, MovedLast(s, i), was).previews[key] == StatusOf(s[i])
  {
    hide StatusOf;
    hide PreviewContainer;
    hide LastStatus;
    LastOneWins(s, i, OfPreview(key));
  }
}
