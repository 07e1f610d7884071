/**
 The job that turns a container snapshot into recorded statuses. One loop over the snapshot
 collects what was found and writes preview and database statuses as it goes; afterwards resources
 without containers are marked exited, and applications and service parts get aggregated statuses.
 */
module PushServerUpdate {
  import opened Text
  import opened ContainerStatus
  import opened PushSpec

  datatype Resource =
    | OfApp(application: string)
    | OfPreviewKey(key: PreviewKey)
    | OfDb(uuid: string)
    | OfServicePart(part: Part)

  // ------------------------------------------------------------------ what the loop has collected

  ghost predicate ApplicationsCollected(
    server: Server, seen: seq<Container>, found: seq<string>, names: map<string, map<string, string>>)
  {
    && (forall id :: id in found <==>
          id in server.applications && server.applications[id].singleServer && Seen(seen, OfApplication(id)))
    && (forall id :: id in names <==> Seen(seen, OfApplication(id)))
    && (forall id | id in names :: names[id] == Names(seen, OfApplication(id)))
  }

  ghost predicate PreviewsCollected(server: Server, seen: seq<Container>, found: seq<PreviewKey>,
                                    was: map<PreviewKey, string>, now: map<PreviewKey, string>) {
    && (forall key :: key in found <==> key in server.previews && Seen(seen, OfPreview(key)))
    && was.Keys == now.Keys == server.previews
    && (forall key | key in now ::
          now[key] == match LastStatus(seen, OfPreview(key)) case Some(s) => s case None => was[key])
  }

  ghost predicate DatabasesCollected(server: Server, seen: seq<Container>, found: seq<string>,
                                     was: map<string, string>, now: map<string, string>) {
    && (forall uuid :: uuid in found <==> uuid in server.databases && Seen(seen, OfDatabase(uuid)))
    && was.Keys == now.Keys == server.databases
    && (forall uuid | uuid in now ::
          now[uuid] == match LastStatus(seen, OfDatabase(uuid)) case Some(s) => s case None => was[uuid])
  }

  ghost predicate PartsCollected(seen: seq<Container>, found: seq<Part>, names: map<PartKey, map<string, string>>) {
    && (forall part :: part in found <==> Seen(seen, OfPart(part)))
    && (forall key :: key in names <==> Seen(seen, OfPartKey(key)))
    && (forall key | key in names :: names[key] == Names(seen, OfPartKey(key)))
  }

  lemma OneMore(seen: seq<Container>, c: Container, p: ContainerTest)
    ensures Seen(seen + [c], p) <==> Seen(seen, p) || p(c)
    ensures LastStatus(seen + [c], p) == if p(c) then Some(StatusOf(c)) else LastStatus(seen, p)
    ensures Names(seen + [c], p)
         == if p(c) && ComposeName(c).Some? then Names(seen, p)[ComposeName(c).value := StatusOf(c)] else Names(seen, p)
  {
  }

  /** The status map of a key after one more of its containers. */
  function Stored(names: map<string, string>, c: Container): map<string, string> {
    if ComposeName(c).Some? then names[ComposeName(c).value := StatusOf(c)] else names
  }

  lemma NamesOfUnseen(seen: seq<Container>, p: ContainerTest)
    requires !Seen(seen, p)
    ensures Names(seen, p) == map[]
    decreases |seen|
  {
  }

  lemma ApplicationsStep(
    server: Server, seen: seq<Container>, c: Container, found: seq<string>, names: map<string, map<string, string>>,
    mine: Option<string>)
    requires ApplicationsCollected(server, seen, found, names)
    requires forall id :: ApplicationContainer(id, c) <==> mine == Some(id)
    ensures mine.None? ==> ApplicationsCollected(server, seen + [c], found, names)
    ensures mine.Some? ==>
              var id := mine.value;
              var found' :=
                if id in server.applications && server.applications[id].singleServer then found + [id] else found;
              var names' := names[id := Stored(if id in names then names[id] else map[], c)];
              ApplicationsCollected(server, seen + [c], found', names')
  {
    hide StatusOf;
    hide ComposeName;
    hide ApplicationContainer;
    hide Seen;
    hide Names;
    forall id: string
      ensures Seen(seen + [c], OfApplication(id)) <==> Seen(seen, OfApplication(id)) || mine == Some(id)
      ensures mine != Some(id) ==> Names(seen + [c], OfApplication(id)) == Names(seen, OfApplication(id))
      ensures mine == Some(id) ==> Names(seen + [c], OfApplication(id)) == Stored(Names(seen, OfApplication(id)), c)
      ensures !Seen(seen, OfApplication(id)) ==> Names(seen, OfApplication(id)) == map[]
    {
      OneMore(seen, c, OfApplication(id));
      if !Seen(seen, OfApplication(id)) {
        NamesOfUnseen(seen, OfApplication(id));
      }
    }
  }

  lemma PartsStep(seen: seq<Container>, c: Container, found: seq<Part>, names: map<PartKey, map<string, string>>,
      mine: Option<PartKey>)
    requires PartsCollected(seen, found, names)
    requires forall part :: PartContainer(part, c) <==> mine.Some? && mine.value.part == part
    requires forall key :: PartOfContainer(key, c) <==> mine == Some(key)
    ensures mine.None? ==> PartsCollected(seen + [c], found, names)
    ensures mine.Some? ==>
              var key := mine.value;
              var kept := if key in names then names[key] else map[];
              PartsCollected(seen + [c], found + [key.part], names[key := Stored(kept, c)])
  {
    hide StatusOf;
    hide ComposeName;
    hide PartContainer;
    hide PartOfContainer;
    hide Seen;
    hide Names;
    forall part: Part
      ensures Seen(seen + [c], OfPart(part)) <==> Seen(seen, OfPart(part)) || (mine.Some? && mine.value.part == part)
    {
      OneMore(seen, c, OfPart(part));
    }
    forall key: PartKey
      ensures Seen(seen + [c], OfPartKey(key)) <==> Seen(seen, OfPartKey(key)) || mine == Some(key)
      ensures mine != Some(key) ==> Names(seen + [c], OfPartKey(key)) == Names(seen, OfPartKey(key))
      ensures mine == Some(key) ==> Names(seen + [c], OfPartKey(key)) == Stored(Names(seen, OfPartKey(key)), c)
      ensures !Seen(seen, OfPartKey(key)) ==> Names(seen, OfPartKey(key)) == map[]
    {
      OneMore(seen, c, OfPartKey(key));
      if !Seen(seen, OfPartKey(key)) {
        NamesOfUnseen(seen, OfPartKey(key));
      }
    }
  }

  lemma PreviewsStep(server: Server, seen: seq<Container>, c: Container, found: seq<PreviewKey>,
                     was: map<PreviewKey, string>, now: map<PreviewKey, string>, mine: Option<PreviewKey>)
    requires PreviewsCollected(server, seen, found, was, now)
    requires forall key :: PreviewContainer(key, c) <==> mine == Some(key)
    ensures mine.None? || mine.value !in server.previews ==> PreviewsCollected(server, seen + [c], found, was, now)
    ensures mine.Some? && mine.value in server.previews ==>
              PreviewsCollected(server, seen + [c], found + [mine.value], was, now[mine.value := StatusOf(c)])
  {
    hide StatusOf;
    hide ComposeName;
    hide PreviewContainer;
    hide Seen;
    hide LastStatus;
    forall key: PreviewKey
      ensures Seen(seen + [c], OfPreview(key)) <==> Seen(seen, OfPreview(key)) || mine == Some(key)
      ensures LastStatus(seen + [c], OfPreview(key))
           == if mine == Some(key) then Some(StatusOf(c)) else LastStatus(seen, OfPreview(key))
    {
      OneMore(seen, c, OfPreview(key));
    }
  }

  lemma DatabasesStep(server: Server, seen: seq<Container>, c: Container, found: seq<string>,
                      was: map<string, string>, now: map<string, string>, mine: Option<string>)
    requires DatabasesCollected(server, seen, found, was, now)
    requires forall uuid :: DatabaseContainer(uuid, c) <==> mine == Some(uuid)
    ensures mine.None? || mine.value !in server.databases ==> DatabasesCollected(server, seen + [c], found, was, now)
    ensures mine.Some? && mine.value in server.databases ==>
              DatabasesCollected(server, seen + [c], found + [mine.value], was, now[mine.value := StatusOf(c)])
  {
    hide StatusOf;
    hide ComposeName;
    hide DatabaseContainer;
    hide Seen;
    hide LastStatus;
    forall uuid: string
      ensures Seen(seen + [c], OfDatabase(uuid)) <==> Seen(seen, OfDatabase(uuid)) || mine == Some(uuid)
      ensures LastStatus(seen + [c], OfDatabase(uuid))
           == if mine == Some(uuid) then Some(StatusOf(c)) else LastStatus(seen, OfDatabase(uuid))
    {
      OneMore(seen, c, OfDatabase(uuid));
    }
  }

  /** Which resource, of each kind, a container belongs to. */
  function ApplicationOf(c: Container): Option<string> {
    if c.labels.managed && PullRequest(c) == "0" then c.labels.applicationId else None
  }

  function PreviewOf(c: Container): Option<PreviewKey> {
    if c.labels.managed && PullRequest(c) != "0" && c.labels.applicationId.Some?
    then Some(PreviewKey(c.labels.applicationId.value, PullRequest(c))) else None
  }

  function SubTypeOf(c: Container): Option<SubType> {
    if c.labels.subType == Some("application") then Some(ApplicationPart)
    else if c.labels.subType == Some("database") then Some(DatabasePart)
    else None
  }

  function PartKeyOf(c: Container): Option<PartKey> {
    if c.labels.managed && c.labels.applicationId.None? && c.labels.serviceId.Some? && !IsEmptyId(c.labels.subId)
      && SubTypeOf(c).Some?
    then Some(PartKey(c.labels.serviceId.value, Part(SubTypeOf(c).value, c.labels.subId.value))) else None
  }

  function DatabaseOf(c: Container): Option<string> {
    if && c.labels.managed && c.labels.applicationId.None? && c.labels.serviceId.None?
       && !(c.name == "coolify-proxy" && IsRunning(StatusOf(c)))
       && !(c.labels.kind == Some("service") && IsRunning(StatusOf(c)))
       && IsActiveOrTransient(StatusOf(c))
    then c.labels.composeService else None
  }

  lemma Belongs(c: Container)
    ensures forall id :: ApplicationContainer(id, c) <==> ApplicationOf(c) == Some(id)
    ensures forall key :: PreviewContainer(key, c) <==> PreviewOf(c) == Some(key)
    ensures forall part :: PartContainer(part, c) <==> PartKeyOf(c).Some? && PartKeyOf(c).value.part == part
    ensures forall key :: PartOfContainer(key, c) <==> PartKeyOf(c) == Some(key)
    ensures forall uuid :: DatabaseContainer(uuid, c) <==> DatabaseOf(c) == Some(uuid)
  {
    hide StatusOf;
    hide IsRunning;
    hide IsActiveOrTransient;
    hide Trim;
    forall part: Part
      ensures PartContainer(part, c) <==> PartKeyOf(c).Some? && PartKeyOf(c).value.part == part
    {
      PartBelongs(part, c);
    }
  }

  lemma PartBelongs(part: Part, c: Container)
    ensures PartContainer(part, c) <==> PartKeyOf(c).Some? && PartKeyOf(c).value.part == part
  {
    hide StatusOf;
    hide Trim;
    assert "application"[0] == 'a' && "database"[0] == 'd';
  }

  // ------------------------------------------------------------------ the job

  class PushServerUpdateJob {
    const server: Server
    const containers: seq<Container>

    var foundApplicationIds: seq<string>
    var foundPreviewKeys: seq<PreviewKey>
    var foundDatabaseUuids: seq<string>
    var foundServiceParts: seq<Part>
    var applicationContainerStatuses: map<string, map<string, string>>
    var serviceContainerStatuses: map<PartKey, map<string, string>>

    // the recorded statuses
    var applications: map<string, string>
    var previews: map<PreviewKey, string>
    var databases: map<string, string>
    var parts: map<Part, string>

    // which resources a not-found step marked exited, and which were given a container status
    var markedExited: set<Resource>
    var givenStatus: set<Resource>

    // the statuses at the start
    ghost const before: Statuses

    constructor (server: Server, containers: seq<Container>, recorded: Statuses)
      requires Covers(server, recorded)
      ensures this.server == server && this.containers == containers && before == recorded && Recorded() == recorded
      ensures Fresh()
    {
      this.server, this.containers, before := server, containers, recorded;
      foundApplicationIds, foundPreviewKeys, foundDatabaseUuids, foundServiceParts := [], [], [], [];
      applicationContainerStatuses, serviceContainerStatuses := map[], map[];
      applications, previews, databases, parts :=
        recorded.applications, recorded.previews, recorded.databases, recorded.parts;
      markedExited, givenStatus := {}, {};
    }

    function Recorded(): Statuses
      reads this
    {
      Statuses(applications, previews, databases, parts)
    }

    predicate Fresh()
      reads this
    {
      && foundApplicationIds == [] && foundPreviewKeys == [] && foundDatabaseUuids == [] && foundServiceParts == []
      && applicationContainerStatuses == map[] && serviceContainerStatuses == map[]
      && markedExited == {} && givenStatus == {}
    }

    ghost predicate Collected(seen: seq<Container>)
      reads this
    {
      && ApplicationsCollected(server, seen, foundApplicationIds, applicationContainerStatuses)
      && PreviewsCollected(server, seen, foundPreviewKeys, before.previews, previews)
      && DatabasesCollected(server, seen, foundDatabaseUuids, before.databases, databases)
      && PartsCollected(seen, foundServiceParts, serviceContainerStatuses)
      && applications == before.applications && parts == before.parts
      && previews.Keys == server.previews && databases.Keys == server.databases
      && markedExited == {}
      && (forall r | r in givenStatus ::
           (r.OfPreviewKey? && r.key in foundPreviewKeys) || (r.OfDb? && r.uuid in foundDatabaseUuids))
    }

    /** One container of the snapshot. */
    method ProcessContainer(c: Container, ghost seen: seq<Container>)
      requires Collected(seen)
      modifies this
      ensures Collected(seen + [c])
    {
      hide *;
      Belongs(c);
      NoOwner(c);
      if !c.labels.managed {
        Unowned(c, seen);
        return;
      }
      if c.labels.applicationId.Some? {
        ProcessApplicationContainer(c, c.labels.applicationId.value, seen);
      } else if c.labels.serviceId.Some? {
        ProcessServiceContainer(c, c.labels.serviceId.value, seen);
      } else {
        ProcessOtherContainer(c, seen);
      }
    }

    /** A container that belongs to no recorded resource changes nothing. */
    lemma Unowned(c: Container, seen: seq<Container>)
      requires Collected(seen)
      requires ApplicationOf(c).None? && PreviewOf(c).None? && DatabaseOf(c).None? && PartKeyOf(c).None?
      ensures Collected(seen + [c])
    {
      hide ApplicationsCollected;
      hide PreviewsCollected;
      hide DatabasesCollected;
      hide PartsCollected;
      hide ApplicationOf;
      hide PreviewOf;
      hide DatabaseOf;
      hide PartKeyOf;
      Belongs(c);
      ApplicationsStep(server, seen, c, foundApplicationIds, applicationContainerStatuses, None);
      PreviewsStep(server, seen, c, foundPreviewKeys, before.previews, previews, None);
      DatabasesStep(server, seen, c, foundDatabaseUuids, before.databases, databases, None);
      PartsStep(seen, c, foundServiceParts, serviceContainerStatuses, None);
    }

    method ProcessApplicationContainer(c: Container, applicationId: string, ghost seen: seq<Container>)
      requires Collected(seen) && c.labels.managed && c.labels.applicationId == Some(applicationId)
      modifies this
      ensures Collected(seen + [c])
    {
      hide StatusOf;
      hide PullRequest;
      hide Stored;
      hide ApplicationContainer;
      hide PreviewContainer;
      hide PartContainer;
      hide PartOfContainer;
      hide DatabaseContainer;
      hide ApplicationsCollected;
      hide PreviewsCollected;
      hide DatabasesCollected;
      hide PartsCollected;
      Belongs(c);
      ApplicationsStep(server, seen, c, foundApplicationIds, applicationContainerStatuses, ApplicationOf(c));
      PreviewsStep(server, seen, c, foundPreviewKeys, before.previews, previews, PreviewOf(c));
      DatabasesStep(server, seen, c, foundDatabaseUuids, before.databases, databases, None);
      PartsStep(seen, c, foundServiceParts, serviceContainerStatuses, None);
      if PullRequest(c) == "0" {
        if applicationId in server.applications && server.applications[applicationId].singleServer {
          foundApplicationIds := foundApplicationIds + [applicationId];
        }
        var kept := map[];
        if applicationId in applicationContainerStatuses {
          kept := applicationContainerStatuses[applicationId];
        }
        applicationContainerStatuses := applicationContainerStatuses[applicationId := Stored(kept, c)];
      } else {
        var previewKey := PreviewKey(applicationId, PullRequest(c));
        if previewKey in server.previews {
          foundPreviewKeys := foundPreviewKeys + [previewKey];
          previews := previews[previewKey := StatusOf(c)];
          givenStatus := givenStatus + {OfPreviewKey(previewKey)};
        }
      }
    }

    method ProcessServiceContainer(c: Container, serviceId: string, ghost seen: seq<Container>)
      requires Collected(seen) && c.labels.managed && c.labels.applicationId.None?
                 && c.labels.serviceId == Some(serviceId)
      modifies this
      ensures Collected(seen + [c])
    {
      hide StatusOf;
      hide IsEmptyId;
      hide Stored;
      hide ApplicationContainer;
      hide PreviewContainer;
      hide PartContainer;
      hide PartOfContainer;
      hide DatabaseContainer;
      hide ApplicationsCollected;
      hide PreviewsCollected;
      hide DatabasesCollected;
      hide PartsCollected;
      Belongs(c);
      ApplicationsStep(server, seen, c, foundApplicationIds, applicationContainerStatuses, None);
      PreviewsStep(server, seen, c, foundPreviewKeys, before.previews, previews, None);
      DatabasesStep(server, seen, c, foundDatabaseUuids, before.databases, databases, None);
      PartsStep(seen, c, foundServiceParts, serviceContainerStatuses, PartKeyOf(c));
      if IsEmptyId(c.labels.subId) {
        return;
      }
      var subType := SubTypeOf(c);
      if subType.Some? {
        EmptyIdHasText(c.labels.subId);
        var part := Part(subType.value, c.labels.subId.value);
        var key := PartKey(serviceId, part);
        foundServiceParts := foundServiceParts + [part];
        var kept := if key in serviceContainerStatuses then serviceContainerStatuses[key] else map[];
        serviceContainerStatuses := serviceContainerStatuses[key := Stored(kept, c)];
      }
    }

    method ProcessOtherContainer(c: Container, ghost seen: seq<Container>)
      requires Collected(seen) && c.labels.managed && c.labels.applicationId.None? && c.labels.serviceId.None?
      modifies this
      ensures Collected(seen + [c])
    {
      hide StatusOf;
      hide IsRunning;
      hide IsActiveOrTransient;
      hide ApplicationContainer;
      hide PreviewContainer;
      hide PartContainer;
      hide PartOfContainer;
      hide DatabaseContainer;
      hide ApplicationsCollected;
      hide PreviewsCollected;
      hide DatabasesCollected;
      hide PartsCollected;
      Belongs(c);
      ApplicationsStep(server, seen, c, foundApplicationIds, applicationContainerStatuses, None);
      PreviewsStep(server, seen, c, foundPreviewKeys, before.previews, previews, None);
      DatabasesStep(server, seen, c, foundDatabaseUuids, before.databases, databases, DatabaseOf(c));
      PartsStep(seen, c, foundServiceParts, serviceContainerStatuses, None);
      var containerStatus := StatusOf(c);
      if c.name == "coolify-proxy" && IsRunning(containerStatus) {
      } else if c.labels.kind == Some("service") && IsRunning(containerStatus) {
      } else if c.labels.composeService.Some? && c.labels.composeService.value in server.databases
        && IsActiveOrTransient(containerStatus) {
        var uuid := c.labels.composeService.value;
        foundDatabaseUuids := foundDatabaseUuids + [uuid];
        databases := databases[uuid := containerStatus];
        givenStatus := givenStatus + {OfDb(uuid)};
      }
    }

    predicate NotFoundApplication(id: string)
      reads this
    {
      id in server.applications && server.applications[id].singleServer && id !in foundApplicationIds
    }

    /** One batch update: applications on this server alone that were not found become exited. */
    method UpdateNotFoundApplicationStatus()
      modifies this`applications, this`markedExited
      ensures applications.Keys == old(applications).Keys
      ensures forall id | id in applications ::
                applications[id] == if NotFoundApplication(id) then Gone(old(applications)[id])
                  else old(applications)[id]
      ensures forall r :: r in markedExited <==>
                r in old(markedExited)
                  || (r.OfApp? && r.application in applications && NotFoundApplication(r.application)
                  && !("exited" <= old(applications)[r.application]))
    {
      markedExited := markedExited
        + set id | id in applications && NotFoundApplication(id) && !("exited" <= applications[id]) :: OfApp(id);
      applications := map id | id in applications ::
        if NotFoundApplication(id) && !("exited" <= applications[id]) then "exited" else applications[id];
    }

    /** The previews to change are collected first, then changed in one batch update. */
    method UpdateNotFoundApplicationPreviewStatus()
      modifies this`previews, this`markedExited
      ensures previews.Keys == old(previews).Keys
      ensures forall key | key in previews ::
                previews[key] == if key !in foundPreviewKeys then Gone(old(previews)[key]) else old(previews)[key]
      ensures forall r :: r in markedExited <==>
                r in old(markedExited)
                  || (r.OfPreviewKey? && r.key in previews && r.key !in foundPreviewKeys
                  && !("exited" <= old(previews)[r.key]))
    {
      var keysToUpdate := set key | key in previews && key !in foundPreviewKeys && !("exited" <= previews[key]);
      markedExited := markedExited + set key | key in keysToUpdate :: OfPreviewKey(key);
      previews := map key | key in previews :: if key in keysToUpdate then "exited" else previews[key];
    }

    /** Databases are updated one by one. */
    method UpdateNotFoundDatabaseStatus()
      modifies this`databases, this`markedExited
      ensures databases.Keys == old(databases).Keys
      ensures forall uuid | uuid in databases ::
                databases[uuid] == if uuid !in foundDatabaseUuids then Gone(old(databases)[uuid])
                  else old(databases)[uuid]
      ensures forall r :: r in markedExited <==>
                r in old(markedExited)
                  || (r.OfDb? && r.uuid in databases && r.uuid !in foundDatabaseUuids
                  && !("exited" <= old(databases)[r.uuid]))
    {
      var todo := set uuid | uuid in databases && uuid !in foundDatabaseUuids;
      ghost var all := todo;
      while todo != {}
        invariant todo <= all
        invariant databases.Keys == old(databases).Keys
        invariant forall uuid | uuid in databases ::
                    databases[uuid] == if uuid in all && uuid !in todo then Gone(old(databases)[uuid])
                      else old(databases)[uuid]
        invariant forall r :: r in markedExited <==>
                    r in old(markedExited)
                      || (r.OfDb? && r.uuid in all && r.uuid !in todo && !("exited" <= old(databases)[r.uuid]))
        decreases todo
      {
        var uuid :| uuid in todo;
        if !("exited" <= databases[uuid]) {
          databases := databases[uuid := "exited"];
          markedExited := markedExited + {OfDb(uuid)};
        }
        todo := todo - {uuid};
      }
    }

    /** One batch update per kind of part; here an exited status with a suffix is overwritten too. */
    method UpdateNotFoundServiceStatus()
      modifies this`parts, this`markedExited
      ensures parts.Keys == old(parts).Keys
      ensures forall part | part in parts ::
                parts[part] == if part !in foundServiceParts then "exited" else old(parts)[part]
      ensures forall r :: r in markedExited <==>
                r in old(markedExited)
                  || (r.OfServicePart? && r.part in parts && r.part !in foundServiceParts
                  && old(parts)[r.part] != "exited")
    {
      markedExited := markedExited
        + set part | part in parts && part !in foundServiceParts && parts[part] != "exited" :: OfServicePart(part);
      parts := map part | part in parts ::
        if part !in foundServiceParts && parts[part] != "exited" then "exited" else parts[part];
    }

    /** One application: it gets the aggregated status of its containers, if it is recorded. */
    method AggregateApplication(id: string)
      requires applications.Keys == server.applications.Keys && id in applicationContainerStatuses
      modifies this`applications, this`givenStatus
      ensures applications ==
                if id !in server.applications then old(applications)
                else
                  var excluded := server.applications[id].excluded;
                  old(applications)[id := Aggregated(applicationContainerStatuses[id], excluded)]
      ensures givenStatus == if id in server.applications then old(givenStatus) + {OfApp(id)} else old(givenStatus)
    {
      hide Aggregated;
      if id in server.applications {
        var aggregatedStatus := CalculateStatus(applicationContainerStatuses[id], server.applications[id].excluded);
        if applications[id] != aggregatedStatus {
          applications := applications[id := aggregatedStatus];
        }
        givenStatus := givenStatus + {OfApp(id)};
      }
    }

    method AggregateMultiContainerStatuses()
      requires applications.Keys == server.applications.Keys
      modifies this`applications, this`givenStatus
      ensures applications.Keys == old(applications).Keys
      ensures forall id | id in applications ::
                applications[id] == if id in applicationContainerStatuses
                                    then Aggregated(applicationContainerStatuses[id], server.applications[id].excluded)
                                    else old(applications)[id]
      ensures forall r :: r in givenStatus <==>
                r in old(givenStatus)
                  || (r.OfApp? && r.application in applicationContainerStatuses && r.application in server.applications)
    {
      hide Aggregated;
      var todo := applicationContainerStatuses.Keys;
      while todo != {}
        invariant todo <= applicationContainerStatuses.Keys
        invariant applications.Keys == old(applications).Keys
        invariant forall id | id in applications ::
                    applications[id] == if id in applicationContainerStatuses && id !in todo
                                        then Aggregated(applicationContainerStatuses[id],
                                          server.applications[id].excluded)
                                        else old(applications)[id]
        invariant forall r :: r in givenStatus <==>
                    r in old(givenStatus)
                      || (r.OfApp? && r.application in applicationContainerStatuses && r.application !in todo
                      && r.application in server.applications)
        decreases todo
      {
        var applicationId :| applicationId in todo;
        AggregateApplication(applicationId);
        todo := todo - {applicationId};
      }
    }

    /** A key counts only if its part is recorded under the very service it names. */
    predicate KnownPart(key: PartKey) {
      key.part in server.parts && server.parts[key.part].service == key.service
    }

    function KeyOfPart(part: Part): PartKey
      requires part in server.parts
    {
      PartKey(server.parts[part].service, part)
    }

    /** One key: the part it names gets the aggregated status, if it is recorded under that service. */
    method AggregatePart(key: PartKey)
      requires parts.Keys == server.parts.Keys && key in serviceContainerStatuses
      modifies this`parts, this`givenStatus
      ensures parts == if KnownPart(key)
                then old(parts)[key.part := Aggregated(serviceContainerStatuses[key], server.parts[key.part].excluded)]
                       else old(parts)
      ensures givenStatus == if KnownPart(key) then old(givenStatus) + {OfServicePart(key.part)} else old(givenStatus)
    {
      hide Aggregated;
      if KnownPart(key) {
        var aggregatedStatus := CalculateStatus(serviceContainerStatuses[key], server.parts[key.part].excluded);
        if parts[key.part] != aggregatedStatus {
          parts := parts[key.part := aggregatedStatus];
        }
        givenStatus := givenStatus + {OfServicePart(key.part)};
      }
    }

    method AggregateServiceContainerStatuses()
      requires parts.Keys == server.parts.Keys
      modifies this`parts, this`givenStatus
      ensures parts.Keys == old(parts).Keys
      ensures forall part | part in parts ::
                parts[part] == if KeyOfPart(part) in serviceContainerStatuses
                               then Aggregated(serviceContainerStatuses[KeyOfPart(part)], server.parts[part].excluded)
                               else old(parts)[part]
      ensures forall r :: r in givenStatus <==>
                r in old(givenStatus)
                  || (r.OfServicePart? && r.part in server.parts && KeyOfPart(r.part) in serviceContainerStatuses)
    {
      hide Aggregated;
      var todo := serviceContainerStatuses.Keys;
      while todo != {}
        invariant todo <= serviceContainerStatuses.Keys
        invariant parts.Keys == old(parts).Keys
        invariant forall part | part in parts ::
                    parts[part] == if KeyOfPart(part) in serviceContainerStatuses && KeyOfPart(part) !in todo
                                   then Aggregated(serviceContainerStatuses[KeyOfPart(part)],
                                     server.parts[part].excluded)
                                   else old(parts)[part]
        invariant forall r :: r in givenStatus <==>
                    r in old(givenStatus)
                      || (r.OfServicePart? && r.part in server.parts && KeyOfPart(r.part) in serviceContainerStatuses
                      && KeyOfPart(r.part) !in todo)
        decreases todo
      {
        var key :| key in todo;
        AggregatePart(key);
        todo := todo - {key};
      }
    }

    /** Resources that the loop over the snapshot found no container for. */
    predicate NotFound(r: Resource)
      reads this
    {
      match r
      case OfApp(id) => NotFoundApplication(id)
      case OfPreviewKey(key) => key !in foundPreviewKeys
      case OfDb(uuid) => uuid !in foundDatabaseUuids
      case OfServicePart(part) => part !in foundServiceParts
    }

    /** The four not-found steps. */
    method UpdateNotFound()
      requires Covers(server, before) && containers != [] && Collected(containers)
      modifies this`applications, this`previews, this`databases, this`parts, this`markedExited
      ensures applications.Keys == server.applications.Keys && parts.Keys == server.parts.Keys
      ensures forall id | id in applications ::
                applications[id] == if NotFoundApplication(id) then Gone(before.applications[id])
                  else before.applications[id]
      ensures previews == Pushed(server, containers, before).previews
      ensures databases == Pushed(server, containers, before).databases
      ensures forall part | part in parts ::
                parts[part] == if part !in foundServiceParts then "exited" else before.parts[part]
      ensures forall r | r in markedExited :: NotFound(r)
    {
      hide ApplicationsCollected;
      hide PreviewsCollected;
      hide DatabasesCollected;
      hide PartsCollected;
      hide Pushed;
      hide Gone;
      UpdateNotFoundApplicationStatus();
      UpdateNotFoundKeyed();
      UpdateNotFoundServiceStatus();
    }

    /** Previews and databases, whose statuses are final after this. */
    method UpdateNotFoundKeyed()
      requires Covers(server, before) && containers != []
      requires PreviewsCollected(server, containers, foundPreviewKeys, before.previews, previews)
      requires DatabasesCollected(server, containers, foundDatabaseUuids, before.databases, databases)
      modifies this`previews, this`databases, this`markedExited
      ensures previews == Pushed(server, containers, before).previews
      ensures databases == Pushed(server, containers, before).databases
      ensures forall r | r in markedExited :: r in old(markedExited) || NotFound(r)
    {
      hide PreviewsCollected;
      hide DatabasesCollected;
      hide Pushed;
      hide Gone;
      ghost var previewsBefore, databasesBefore := previews, databases;
      UpdateNotFoundApplicationPreviewStatus();
      PreviewsFinal(server, containers, before, foundPreviewKeys, previewsBefore, previews);
      UpdateNotFoundDatabaseStatus();
      DatabasesFinal(server, containers, before, foundDatabaseUuids, databasesBefore, databases);
    }

    /** The two aggregation steps. */
    method AggregateStatuses()
      requires Covers(server, before) && containers != []
      requires ApplicationsCollected(server, containers, foundApplicationIds, applicationContainerStatuses)
      requires PartsCollected(containers, foundServiceParts, serviceContainerStatuses)
      requires applications.Keys == server.applications.Keys && parts.Keys == server.parts.Keys
      requires forall id | id in applications ::
                 applications[id] == if NotFoundApplication(id) then Gone(before.applications[id])
                   else before.applications[id]
      requires forall part | part in parts ::
                 parts[part] == if part !in foundServiceParts then "exited" else before.parts[part]
      requires forall r | r in givenStatus :: !NotFound(r)
      modifies this`applications, this`parts, this`givenStatus
      ensures applications == Pushed(server, containers, before).applications
      ensures parts == Pushed(server, containers, before).parts
      ensures forall r | r in givenStatus :: !NotFound(r)
    {
      hide ApplicationsCollected;
      hide PartsCollected;
      hide Aggregated;
      hide Pushed;
      hide Gone;
      FoundIfNamed(server, containers, foundApplicationIds, applicationContainerStatuses);
      PartFoundIfNamed(containers, foundServiceParts, serviceContainerStatuses);
      AggregateMultiContainerStatuses();
      ApplicationsFinal(server, containers, before, foundApplicationIds, applicationContainerStatuses, applications);
      AggregateServiceContainerStatuses();
      PartsFinal(server, containers, before, foundServiceParts, serviceContainerStatuses, parts);
    }

    /**
     The job. Every status ends as the specification says, resource by resource, and no resource is
     both marked exited and given a container status.
     */
    method Handle()
      requires Covers(server, before) && Recorded() == before && Fresh()
      modifies this
      ensures Covers(server, before) && Recorded() == Pushed(server, containers, before)
      ensures markedExited !! givenStatus
    {
      hide ApplicationsCollected;
      hide PreviewsCollected;
      hide DatabasesCollected;
      hide PartsCollected;
      hide Collected;
      hide Pushed;
      hide Gone;
      hide Seen;
      NothingPushed(server, before);
      if containers == [] {
        return;
      }
      CollectAll();
      CollectedParts(this);
      UpdateNotFound();
      AggregateStatuses();
    }

    /** The loop over the snapshot. */
    method CollectAll()
      requires Covers(server, before) && Recorded() == before && Fresh()
      modifies this
      ensures Collected(containers)
    {
      hide ApplicationsCollected;
      hide PreviewsCollected;
      hide DatabasesCollected;
      hide PartsCollected;
      NothingSeen(server, before);
      for i := 0 to |containers|
        invariant Collected(containers[..i])
      {
        assert containers[..i + 1] == containers[..i] + [containers[i]];
        ProcessContainer(containers[i], containers[..i]);
      }
      assert containers[..|containers|] == containers;
    }
  }

  // ------------------------------------------------------------------ from the tables to the specification

  lemma NothingPushed(server: Server, before: Statuses)
    requires Covers(server, before)
    ensures Pushed(server, [], before) == before
  {
  }

  lemma CollectedParts(job: PushServerUpdateJob)
    requires job.Collected(job.containers)
    ensures ApplicationsCollected(job.server, job.containers, job.foundApplicationIds, job.applicationContainerStatuses)
    ensures PartsCollected(job.containers, job.foundServiceParts, job.serviceContainerStatuses)
    ensures forall r | r in job.givenStatus :: !job.NotFound(r)
  {
  }

  lemma ApplicationsFinal(server: Server, snapshot: seq<Container>, before: Statuses,
                          found: seq<string>, names: map<string, map<string, string>>, now: map<string, string>)
    requires Covers(server, before) && snapshot != [] && ApplicationsCollected(server, snapshot, found, names)
    requires now.Keys == server.applications.Keys
    requires forall id | id in now ::
               now[id] == if id in names then Aggregated(names[id], server.applications[id].excluded)
                          else if server.applications[id].singleServer && id !in found
                            then Gone(before.applications[id])
                          else before.applications[id]
    ensures now == Pushed(server, snapshot, before).applications
  {
  }

  lemma FoundIfNamed(server: Server, seen: seq<Container>, found: seq<string>, names: map<string, map<string, string>>)
    requires ApplicationsCollected(server, seen, found, names)
    ensures forall id | id in names && id in server.applications && server.applications[id].singleServer :: id in found
  {
  }

  lemma PartFoundIfNamed(seen: seq<Container>, found: seq<Part>, names: map<PartKey, map<string, string>>)
    requires PartsCollected(seen, found, names)
    ensures forall key | key in names :: key.part in found
  {
  }

  lemma PreviewsFinal(server: Server, snapshot: seq<Container>, before: Statuses, found: seq<PreviewKey>,
                      mid: map<PreviewKey, string>, now: map<PreviewKey, string>)
    requires Covers(server, before) && snapshot != []
    requires PreviewsCollected(server, snapshot, found, before.previews, mid) && now.Keys == mid.Keys
    requires forall key | key in now :: now[key] == if key !in found then Gone(mid[key]) else mid[key]
    ensures now == Pushed(server, snapshot, before).previews
  {
    hide Seen;
    hide PreviewContainer;
    hide Gone;
    hide ApplicationStatus;
    hide DatabaseStatus;
    hide PartStatus;
  }

  lemma DatabasesFinal(server: Server, snapshot: seq<Container>, before: Statuses, found: seq<string>,
                       mid: map<string, string>, now: map<string, string>)
    requires Covers(server, before) && snapshot != []
    requires DatabasesCollected(server, snapshot, found, before.databases, mid) && now.Keys == mid.Keys
    requires forall uuid | uuid in now :: now[uuid] == if uuid !in found then Gone(mid[uuid]) else mid[uuid]
    ensures now == Pushed(server, snapshot, before).databases
  {
    hide Seen;
    hide DatabaseContainer;
    hide Gone;
    hide ApplicationStatus;
    hide PreviewStatus;
    hide PartStatus;
  }

  lemma PartsFinal(server: Server, snapshot: seq<Container>, before: Statuses,
                   found: seq<Part>, names: map<PartKey, map<string, string>>, now: map<Part, string>)
    requires Covers(server, before) && snapshot != [] && PartsCollected(snapshot, found, names)
    requires now.Keys == server.parts.Keys
    requires forall part | part in now ::
               var info := server.parts[part];
               var key := PartKey(info.service, part);
               now[part] == if key in names then Aggregated(names[key], info.excluded)
                            else if part !in found then "exited" else before.parts[part]
    ensures now == Pushed(server, snapshot, before).parts
  {
    hide Aggregated;
    hide Seen;
    hide Names;
    hide PartContainer;
    hide PartOfContainer;
    hide ApplicationStatus;
    hide PreviewStatus;
    hide DatabaseStatus;
    forall key: PartKey | Seen(snapshot, OfPartKey(key))
      ensures Seen(snapshot, OfPart(key.part))
    {
      SeenPartKey(snapshot, key);
    }
  }

  lemma SeenPartKey(snapshot: seq<Container>, key: PartKey)
    requires Seen(snapshot, OfPartKey(key))
    ensures Seen(snapshot, OfPart(key.part))
  {
  }

  lemma NothingSeen(server: Server, recorded: Statuses)
    requires Covers(server, recorded)
    ensures ApplicationsCollected(server, [], [], map[])
    ensures PreviewsCollected(server, [], [], recorded.previews, recorded.previews)
    ensures DatabasesCollected(server, [], [], recorded.databases, recorded.databases)
    ensures PartsCollected([], [], map[])
  {
  }

  lemma NoOwner(c: Container)
    ensures !c.labels.managed ==>
              ApplicationOf(c).None? && PreviewOf(c).None? && DatabaseOf(c).None? && PartKeyOf(c).None?
  {
  }

  lemma EmptyIdHasText(id: Option<string>)
    requires !IsEmptyId(id)
    ensures id.Some?
  {
  }
}
