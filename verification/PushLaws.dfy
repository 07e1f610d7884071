/**
 What a pushed snapshot leaves recorded, in terms of the containers' own fields: the status of every
 preview, database, application and service part, with and without containers.
 */
module PushLaws {
  import opened Text
  import opened ContainerStatus
  import opened PushSpec
  import opened StatusText

  // ------------------------------------------------------------------ the last container decides

  /** Container i is the last one that passes the test. */
  predicate LastOf(s: seq<Container>, p: ContainerTest, i: nat) {
    i < |s| && p(s[i]) && forall j | i < j < |s| :: !p(s[j])
  }

  lemma {:induction false} LastStatusIs(s: seq<Container>, p: ContainerTest, i: nat)
    requires LastOf(s, p, i)
    ensures LastStatus(s, p) == Some(StatusOf(s[i]))
  {
    hide StatusOf;
    if i < |s| - 1 {
      LastStatusIs(s[..|s| - 1], p, i);
    }
  }

  lemma NoneSeen(s: seq<Container>, p: ContainerTest)
    requires forall c | c in s :: !p(c)
    ensures LastStatus(s, p) == None && !Seen(s, p)
  {
  }

  /** A preview ends with the state and health of the last of its containers, or exited if that has exited. */
  lemma PreviewText(server: Server, s: seq<Container>, key: PreviewKey, was: Statuses, i: nat)
    requires Covers(server, was) && key in server.previews && LastOf(s, OfPreview(key), i)
    ensures var status := Pushed(server, s, was).previews[key];
            && (s[i].state == None || s[i].state == Some("exited") ==> status == "exited")
            && (forall state, health | s[i].state == Some(state) && state != "exited" && s[i].health == Some(health) ::
                  status == state + ":" + health)
            && (forall state | s[i].state == Some(state) && state != "exited" && s[i].health == None ::
                  status == state + ":unknown")
  {
    hide LastOf;
    hide LastStatus;
    hide StatusOf;
    NotEmpty(s, OfPreview(key), i);
    LastStatusIs(s, OfPreview(key), i);
    TextOf(s[i]);
  }

  lemma NotEmpty(s: seq<Container>, p: ContainerTest, i: nat)
    requires LastOf(s, p, i)
    ensures s != [] && i < |s| && s[i] in s && p(s[i])
  {
  }

  /** The same for a database and its tracked containers. */
  lemma DatabaseText(server: Server, s: seq<Container>, uuid: string, was: Statuses, i: nat)
    requires Covers(server, was) && uuid in server.databases && LastOf(s, OfDatabase(uuid), i)
    ensures var status := Pushed(server, s, was).databases[uuid];
            && (s[i].state == None || s[i].state == Some("exited") ==> status == "exited")
            && (forall state, health | s[i].state == Some(state) && state != "exited" && s[i].health == Some(health) ::
                  status == state + ":" + health)
            && (forall state | s[i].state == Some(state) && state != "exited" && s[i].health == None ::
                  status == state + ":unknown")
  {
    hide LastOf;
    hide LastStatus;
    hide StatusOf;
    NotEmpty(s, OfDatabase(uuid), i);
    LastStatusIs(s, OfDatabase(uuid), i);
    TextOf(s[i]);
  }

  /**
   A standalone database's tracked containers by their fields: managed, of no application and no service,
   named by the database, and in a state that is neither exited nor gone.
   */
  lemma TrackedExactly(uuid: string, c: Container)
    requires FromDocker(c)
    ensures DatabaseContainer(uuid, c) <==>
              && c.labels.managed && c.labels.applicationId == None && c.labels.serviceId == None
              && c.labels.composeService == Some(uuid)
              && c.state.Some? && c.state != Some("exited")
              && (c.state == Some("dead") || c.state == Some("removing") ==> c.health == Some("starting"))
              && (c.state == Some("running") ==> c.name != "coolify-proxy" && c.labels.kind != Some("service"))
  {
    hide IsRunning;
    hide IsActiveOrTransient;
    hide StatusOf;
    TrackedText(c);
  }

  /** An application's and a preview's containers by their labels: no pull request is pull request "0". */
  lemma ApplicationsExactly(id: string, pullRequest: string, c: Container)
    ensures ApplicationContainer(id, c) <==>
              && c.labels.managed && c.labels.applicationId == Some(id)
              && (c.labels.pullRequestId == None || c.labels.pullRequestId == Some("0"))
    ensures PreviewContainer(PreviewKey(id, pullRequest), c) <==>
              && c.labels.managed && c.labels.applicationId == Some(id)
              && c.labels.pullRequestId == Some(pullRequest) && pullRequest != "0"
  {
  }

  /** A service part's containers by their labels; a part without a number, or with number zero, has none. */
  lemma PartsExactly(id: string, c: Container)
    requires id != "" ==> !PhpBlank(id[0]) && !PhpBlank(id[|id| - 1])
    ensures PartContainer(Part(ApplicationPart, id), c) <==>
              && c.labels.managed && c.labels.applicationId == None && c.labels.serviceId.Some?
              && c.labels.subType == Some("application") && c.labels.subId == Some(id) && id != "" && id != "0"
    ensures PartContainer(Part(DatabasePart, id), c) <==>
              && c.labels.managed && c.labels.applicationId == None && c.labels.serviceId.Some?
              && c.labels.subType == Some("database") && c.labels.subId == Some(id) && id != "" && id != "0"
  {
    hide IsEmptyId;
    hide PhpBlank;
    EmptyIds(id);
  }

  lemma EmptyIds(id: string)
    requires id != "" ==> !PhpBlank(id[0]) && !PhpBlank(id[|id| - 1])
    ensures IsEmptyId(Some(id)) <==> id == "" || id == "0"
  {
    hide PhpBlank;
    hide Trim;
    TrimIdentity(PhpBlank, id);
  }

  // ------------------------------------------------------------------ the group of an application or a part

  /** A container that is kept under a name: the compose service, which must be filled. */
  predicate Named(c: Container) {
    c.labels.composeService.Some? && c.labels.composeService != Some("") && c.labels.composeService != Some("0")
  }

  /** Container i is the last one under its name. */
  predicate LastOfName(s: seq<Container>, p: ContainerTest, i: nat)
    ensures LastOfName(s, p, i) ==> i < |s| && s[i].labels.composeService.Some?
  {
    && i < |s| && p(s[i]) && Named(s[i])
    && forall j | i < j < |s| :: !(p(s[j]) && s[j].labels.composeService == s[i].labels.composeService)
  }

  /** The containers that count: the last ones under names that are not excluded. */
  ghost function Counted(s: seq<Container>, p: ContainerTest, excluded: set<string>): set<Container> {
    set i | 0 <= i < |s| && LastOfName(s, p, i) && s[i].labels.composeService.value !in excluded :: s[i]
  }

  /** The status kept under the name is that of container i. */
  predicate Keeps(s: seq<Container>, p: ContainerTest, i: nat, name: string) {
    && i < |s| && p(s[i]) && ComposeName(s[i]) == Some(name)
    && forall j | i < j < |s| :: !(p(s[j]) && ComposeName(s[j]) == Some(name))
  }

  lemma {:induction false} KeeperOf(s: seq<Container>, p: ContainerTest, name: string) returns (i: nat)
    requires name in Names(s, p)
    ensures Keeps(s, p, i, name)
  {
    hide StatusOf;
    hide ComposeName;
    var n := |s| - 1;
    if p(s[n]) && ComposeName(s[n]) == Some(name) {
      i := n;
    } else {
      i := KeeperOf(s[..n], p, name);
      assert forall j | i < j < n :: s[j] == s[..n][j];
    }
  }

  lemma {:induction false} KeptText(s: seq<Container>, p: ContainerTest, i: nat, name: string)
    requires Keeps(s, p, i, name)
    ensures name in Names(s, p) && Names(s, p)[name] == StatusOf(s[i])
  {
    hide StatusOf;
    hide ComposeName;
    if i < |s| - 1 {
      KeptText(s[..|s| - 1], p, i, name);
    }
  }

  lemma KeeperIsLast(s: seq<Container>, p: ContainerTest, i: nat)
    ensures forall name :: Keeps(s, p, i, name) ==> LastOfName(s, p, i) && s[i].labels.composeService == Some(name)
    ensures LastOfName(s, p, i) ==> Keeps(s, p, i, s[i].labels.composeService.value)
  {
  }

  lemma CountedTexts(s: seq<Container>, p: ContainerTest, excluded: set<string>)
    ensures (Names(s, p) - excluded).Values == Texts(Counted(s, p, excluded))
  {
    hide StatusOf;
    hide Names;
    hide LastOfName;
    hide Keeps;
    var names, cs := Names(s, p) - excluded, Counted(s, p, excluded);
    forall text | text in names.Values
      ensures text in Texts(cs)
    {
      var name :| name in names && names[name] == text;
      var i := KeeperOf(s, p, name);
      KeptText(s, p, i, name);
      KeeperIsLast(s, p, i);
      assert LastOfName(s, p, i) && s[i] in cs;
    }
    forall text | text in Texts(cs)
      ensures text in names.Values
    {
      var i :| 0 <= i < |s| && LastOfName(s, p, i) && s[i] in cs && StatusOf(s[i]) == text
               && s[i].labels.composeService.value !in excluded;
      KeeperIsLast(s, p, i);
      var name := s[i].labels.composeService.value;
      KeptText(s, p, i, name);
      assert name in names && names[name] == text;
    }
  }

  /** The verdict on the containers that count, or on all of them if every name is excluded. */
  ghost function GroupVerdict(s: seq<Container>, p: ContainerTest, excluded: set<string>): string {
    if Counted(s, p, excluded) != {} then Verdict(Counted(s, p, excluded)) else ExcludedVerdict(Counted(s, p, {}))
  }

  lemma GroupText(s: seq<Container>, p: ContainerTest, excluded: set<string>)
    requires AllFromDocker(Counted(s, p, {}))
    ensures Aggregated(Names(s, p), excluded) == GroupVerdict(s, p, excluded)
  {
    hide Names;
    hide StatusOf;
    hide LastOfName;
    hide Verdict;
    hide ExcludedVerdict;
    hide FromDocker;
    hide Aggregate;
    hide AppendExcludedSuffix;
    var relevant, counted := Names(s, p) - excluded, Counted(s, p, excluded);
    CountedTexts(s, p, excluded);
    CountedTexts(s, p, {});
    assert Names(s, p) - {} == Names(s, p);
    assert counted <= Counted(s, p, {});
    if counted != {} {
      AggregateIsVerdict(counted);
      var c :| c in counted;
      assert StatusOf(c) in relevant.Values;
    } else {
      ExcludedIsVerdict(Counted(s, p, {}));
      assert relevant.Values == {};
      EmptyMap(relevant);
    }
  }

  lemma EmptyMap(m: map<string, string>)
    requires m.Values == {}
    ensures m == map[]
  {
    assert forall key | key in m :: m[key] in m.Values;
  }

  /** An application with containers gets the verdict on them, for all states and healths Docker reports. */
  lemma ApplicationText(server: Server, s: seq<Container>, id: string, was: Statuses)
    requires Covers(server, was) && id in server.applications
    requires (exists c | c in s :: ApplicationContainer(id, c)) && AllFromDocker(Counted(s, OfApplication(id), {}))
    ensures Pushed(server, s, was).applications[id]
         == GroupVerdict(s, OfApplication(id), server.applications[id].excluded)
  {
    hide ApplicationContainer;
    hide Names;
    hide Aggregated;
    hide GroupVerdict;
    hide Counted;
    GroupText(s, OfApplication(id), server.applications[id].excluded);
  }

  /** A service part with containers that name its service gets the verdict on those. */
  lemma PartText(server: Server, s: seq<Container>, part: Part, was: Statuses)
    requires Covers(server, was) && part in server.parts
    requires var key := PartKey(server.parts[part].service, part);
             (exists c | c in s :: PartOfContainer(key, c)) && AllFromDocker(Counted(s, OfPartKey(key), {}))
    ensures Pushed(server, s, was).parts[part]
         == GroupVerdict(s, OfPartKey(PartKey(server.parts[part].service, part)), server.parts[part].excluded)
  {
    hide PartContainer;
    hide Names;
    hide Aggregated;
    hide GroupVerdict;
    hide Counted;
    var key := PartKey(server.parts[part].service, part);
    GroupText(s, OfPartKey(key), server.parts[part].excluded);
    var c :| c in s && PartOfContainer(key, c);
    assert OfPart(part)(c) && OfPartKey(key)(c);
  }

  /** With one container that counts and runs, the application's health is that container's. */
  lemma ApplicationOfOne(server: Server, s: seq<Container>, id: string, was: Statuses, c: Container)
    requires Covers(server, was) && id in server.applications && AllFromDocker(Counted(s, OfApplication(id), {}))
    requires Counted(s, OfApplication(id), server.applications[id].excluded) == {c} && c.state == Some("running")
    ensures var status := Pushed(server, s, was).applications[id];
            && (c.health == Some("healthy") ==> status == "running:healthy")
            && (c.health == Some("unhealthy") ==> status == "running:unhealthy")
            && (c.health == None || c.health == Some("unknown") ==> status == "running:unknown")
            && (c.health == Some("starting") ==> status == "running:healthy")
  {
    CountedIsThere(s, OfApplication(id), server.applications[id].excluded, c);
    hide Counted;
    ApplicationText(server, s, id, was);
    hide Pushed;
    OnlyOne(c, {c});
  }

  lemma OnlyOne(c: Container, cs: set<Container>)
    requires cs == {c}
    ensures Has(cs, Restarting) <==> Restarting(c)
    ensures Has(cs, Up) <==> Up(c)
    ensures Has(cs, Down) <==> Down(c)
    ensures Has(cs, Coming) <==> Coming(c)
    ensures Has(cs, UpUnhealthy) <==> UpUnhealthy(c)
    ensures Has(cs, UpUnknown) <==> UpUnknown(c)
  {
  }

  lemma CountedIsThere(s: seq<Container>, p: ContainerTest, excluded: set<string>, c: Container)
    requires c in Counted(s, p, excluded)
    ensures c in s && p(c)
  {
  }

  /** One running and one exited container that count, and none that restarts, make the application degraded. */
  lemma ApplicationOfMixed(server: Server, s: seq<Container>, id: string, was: Statuses, c: Container, d: Container)
    requires Covers(server, was) && id in server.applications && AllFromDocker(Counted(s, OfApplication(id), {}))
    requires var cs := Counted(s, OfApplication(id), server.applications[id].excluded);
             c in cs && d in cs && forall e | e in cs :: e.state != Some("restarting")
    requires c.state == Some("running") && d.state == Some("exited")
    ensures Pushed(server, s, was).applications[id] == "degraded:unhealthy"
  {
    CountedIsThere(s, OfApplication(id), server.applications[id].excluded, c);
    hide Counted;
    ApplicationText(server, s, id, was);
    hide Pushed;
    assert Up(c) && Down(d);
  }

  /** A part whose containers all name another service counts as found and keeps its status. */
  lemma PartOfOthers(server: Server, s: seq<Container>, part: Part, was: Statuses)
    requires Covers(server, was) && part in server.parts && exists c | c in s :: PartContainer(part, c)
    requires forall c | c in s && PartContainer(part, c) :: c.labels.serviceId != Some(server.parts[part].service)
    ensures Pushed(server, s, was).parts[part] == was.parts[part]
  {
    hide PartContainer;
    hide Names;
    hide Aggregated;
    var c :| c in s && PartContainer(part, c);
    assert OfPart(part)(c);
  }

  // ------------------------------------------------------------------ nothing of it in the snapshot

  /** A status that becomes exited where nothing is found: one that says so already keeps its text. */
  predicate ExitedFrom(was: string, status: string) {
    "exited" <= status && (if "exited" <= was then status == was else status == "exited")
  }

  lemma GoneIsExited(was: string)
    ensures ExitedFrom(was, Gone(was))
  {
  }

  /** What has no container in a snapshot ends exited, except applications on several servers. */
  lemma NothingFound(server: Server, s: seq<Container>, was: Statuses)
    requires Covers(server, was) && s != []
    ensures var now := Pushed(server, s, was);
            && (forall id | id in server.applications && forall c | c in s :: !ApplicationContainer(id, c) ::
                  if server.applications[id].singleServer then ExitedFrom(was.applications[id], now.applications[id])
                  else now.applications[id] == was.applications[id])
            && (forall key | key in server.previews && forall c | c in s :: !PreviewContainer(key, c) ::
                  ExitedFrom(was.previews[key], now.previews[key]))
            && (forall uuid | uuid in server.databases && forall c | c in s :: !DatabaseContainer(uuid, c) ::
                  ExitedFrom(was.databases[uuid], now.databases[uuid]))
            && (forall part | part in server.parts && forall c | c in s :: !PartContainer(part, c) ::
                  now.parts[part] == "exited")
  {
    hide ExitedFrom;
    hide Gone;
    hide ApplicationContainer;
    hide PreviewContainer;
    hide DatabaseContainer;
    hide PartContainer;
    hide LastStatus;
    hide Aggregated;
    hide Names;
    forall was
      ensures ExitedFrom(was, Gone(was))
    {
      GoneIsExited(was);
    }
  }
}
