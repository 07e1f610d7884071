/**
 The loop of a scheduled backup over its databases: one record each, a local dump, an optional
 upload, and the local copy removed only after that database's own upload. Failures of one
 database do not stop the others.
 */
module DatabaseBackup {
  import opened Text

  datatype Status = Running | Success | Failed

  /** A row of the table of backup executions. */
  datatype Record = Record(
    database: string,
    filename: Option<string>,
    status: Status,
    s3Uploaded: Option<bool>,
    localDeleted: bool)

  /**
   One database with everything the outside world answers for it: the content its dump would
   have, what a failed dump leaves in the file, and which remote commands succeed.
   */
  datatype Item = Item(
    database: string,
    file: string,
    uuidFound: bool,
    createOk: bool,
    dumpOk: bool,
    content: int,
    leftBehind: Option<int>,
    sizePositive: bool,
    uploadOk: bool,
    cleanupOk: bool,
    deleteThrows: bool,
    deleteWorks: bool)

  datatype Config = Config(disableLocal: bool, s3Missing: bool)

  /** Everything the loop changes. `log` is the position of the record it currently holds, if any. */
  datatype State = State(
    records: seq<Record>,
    log: Option<nat>,
    saveS3: bool,
    s3Uploaded: bool,
    local: map<string, int>,
    s3: map<string, int>)

  predicate LogInRange(s: State) {
    s.log.Some? ==> s.log.value < |s.records|
  }

  // ------------------------------------------------------------------ the outcome of one database

  predicate LocalOk(item: Item) {
    item.createOk && item.dumpOk && item.sizePositive
  }

  /** The upload command chain ran through; removing its helper container may still have failed. */
  predicate Uploads(c: Config, item: Item, saveS3: bool) {
    LocalOk(item) && saveS3 && !c.s3Missing && item.uploadOk
  }

  /** The branch that removes the local copy is reached. */
  predicate DeletesLocal(c: Config, item: Item, saveS3: bool) {
    Uploads(c, item, saveS3) && item.cleanupOk && c.disableLocal
  }

  /** The record a database ends with, judged on its own. */
  function OwnRecord(c: Config, item: Item, saveS3: bool): Record {
    if !LocalOk(item) then Record(item.database, None, Failed, None, false)
    else Record(item.database, Some(item.file), Success,
                if saveS3 && !c.s3Missing then Some(item.uploadOk) else None,
                DeletesLocal(c, item, saveS3) && !item.deleteThrows)
  }

  function LocalAfter(c: Config, item: Item, saveS3: bool, local: map<string, int>): map<string, int> {
    if !item.createOk then local
    else
      var dumped := if item.dumpOk then local[item.file := item.content]
                    else match item.leftBehind
                         case None => local
                         case Some(part) => local[item.file := part];
      if DeletesLocal(c, item, saveS3) && item.deleteWorks then dumped - {item.file} else dumped
  }

  function S3After(c: Config, item: Item, saveS3: bool, s3: map<string, int>): map<string, int> {
    if Uploads(c, item, saveS3) then s3[item.file := item.content] else s3
  }

  /** A record that a later failure is written over. */
  function Overwritten(r: Record): Record {
    r.(status := Failed, filename := None, s3Uploaded := None)
  }

  /**
   The state after one database. If its record cannot be created, the failure is written to the
   record that is still held from the database before.
   */
  function Next(c: Config, s: State, item: Item): (r: State)
    requires LogInRange(s)
    ensures LogInRange(r)
  {
    State(
      if item.createOk then s.records + [OwnRecord(c, item, s.saveS3)]
      else if s.log.None? then s.records
      else s.records[s.log.value := Overwritten(s.records[s.log.value])],
      if item.createOk then Some(|s.records|) else s.log,
      s.saveS3 && !(LocalOk(item) && c.s3Missing),
      if LocalOk(item) && s.saveS3 && !c.s3Missing then item.uploadOk else s.s3Uploaded,
      LocalAfter(c, item, s.saveS3, s.local),
      S3After(c, item, s.saveS3, s.s3))
  }

  function AfterAll(c: Config, s: State, items: seq<Item>): (r: State)
    requires LogInRange(s)
    ensures LogInRange(r)
  {
    if items == [] then s else Next(c, AfterAll(c, s, items[..|items| - 1]), items[|items| - 1])
  }

  // ------------------------------------------------------------------ the loop as it runs

  class DatabaseBackupJob {
    const config: Config
    var records: seq<Record>
    var backupLog: Option<nat>
    var saveS3: bool
    var s3Uploaded: bool
    var local: map<string, int>
    var s3: map<string, int>

    constructor (config: Config, records: seq<Record>, saveS3: bool, local: map<string, int>, s3: map<string, int>)
      ensures this.config == config && Now() == State(records, None, saveS3, false, local, s3)
    {
      this.config := config;
      this.records, backupLog, this.saveS3, s3Uploaded := records, None, saveS3, false;
      this.local, this.s3 := local, s3;
    }

    function Now(): State
      reads this
    {
      State(records, backupLog, saveS3, s3Uploaded, local, s3)
    }

    /** Creates the record, dumps the database and checks that something was written. */
    method LocalBackup(item: Item) returns (ok: bool)
      modifies this
      ensures ok == LocalOk(item)
      ensures Now() == old(Now()).(
                records := if !item.createOk then old(records)
                           else old(records) + [Record(item.database, Some(item.file), Running, None, false)],
                log := if item.createOk then Some(|old(records)|) else old(backupLog),
                local := if !item.createOk then old(local)
                         else if item.dumpOk then old(local)[item.file := item.content]
                         else match item.leftBehind
                              case None => old(local)
                              case Some(part) => old(local)[item.file := part])
    {
      if !item.createOk {
        return false;
      }
      backupLog := Some(|records|);
      records := records + [Record(item.database, Some(item.file), Running, None, false)];
      if !item.dumpOk {
        if item.leftBehind.Some? {
          local := local[item.file := item.leftBehind.value];
        }
        return false;
      }
      local := local[item.file := item.content];
      return item.sizePositive;
    }

    /** Uploads the dump; a missing storage switches uploads off for the whole schedule. */
    method UploadToS3(item: Item) returns (ok: bool)
      modifies this
      ensures ok <==> !config.s3Missing && item.uploadOk && item.cleanupOk
      ensures Now() == old(Now()).(
                saveS3 := old(saveS3) && !config.s3Missing,
                s3Uploaded := if config.s3Missing then old(s3Uploaded) else item.uploadOk,
                s3 := if !config.s3Missing && item.uploadOk then old(s3)[item.file := item.content] else old(s3))
    {
      if config.s3Missing {
        saveS3 := false;
        return false;
      }
      if item.uploadOk {
        s3 := s3[item.file := item.content];
        s3Uploaded := true;
      } else {
        s3Uploaded := false;
      }
      return item.uploadOk && item.cleanupOk;
    }

    /** Uploads the dump if that is on, and removes the local copy if the upload went through and none is wanted. */
    method UploadAndClean(item: Item) returns (localStorageDeleted: bool)
      requires LocalOk(item)
      modifies this
      ensures records == old(records) && backupLog == old(backupLog)
      ensures saveS3 == (old(saveS3) && !config.s3Missing)
      ensures s3Uploaded == if old(saveS3) && !config.s3Missing then item.uploadOk else old(s3Uploaded)
      ensures s3 == S3After(config, item, old(saveS3), old(s3))
      ensures local == if DeletesLocal(config, item, old(saveS3)) && item.deleteWorks
                       then old(local) - {item.file}
                       else old(local)
      ensures localStorageDeleted == (DeletesLocal(config, item, old(saveS3)) && !item.deleteThrows)
    {
      localStorageDeleted := false;
      if saveS3 {
        var uploaded := UploadToS3(item);
        if uploaded && config.disableLocal {
          if item.deleteWorks {
            local := local - {item.file};
          }
          if !item.deleteThrows {
            localStorageDeleted := true;
          }
        }
      }
    }

    method BackupOne(item: Item)
      requires LogInRange(Now())
      modifies this
      ensures LogInRange(Now())
      ensures Now() == Next(config, old(Now()), item)
    {
      var localBackupSucceeded := LocalBackup(item);
      if !localBackupSucceeded {
        if backupLog.Some? {
          records := records[backupLog.value := Overwritten(records[backupLog.value])];
        }
        return;
      }
      var localStorageDeleted := UploadAndClean(item);
      var held := records[backupLog.value];
      records := records[backupLog.value := held.(
        status := Success,
        s3Uploaded := if saveS3 then Some(s3Uploaded) else None,
        localDeleted := localStorageDeleted)];
    }

    /** The loop. It ends early only when no unused identifier was found for a record. */
    method BackupAll(items: seq<Item>) returns (done: nat)
      requires LogInRange(Now())
      modifies this
      ensures done <= |items|
      ensures done < |items| ==> !items[done].uuidFound
      ensures forall i | 0 <= i < done :: items[i].uuidFound
      ensures LogInRange(old(Now())) && Now() == AfterAll(config, old(Now()), items[..done])
    {
      done := 0;
      while done < |items|
        invariant done <= |items|
        invariant forall i | 0 <= i < done :: items[i].uuidFound
        invariant LogInRange(Now())
        invariant Now() == AfterAll(config, old(Now()), items[..done])
      {
        if !items[done].uuidFound {
          return;
        }
        BackupOne(items[done]);
        assert items[..done + 1][..done] == items[..done];
        done := done + 1;
      }
    }
  }

  /** Looks for an identifier no record uses, at most three times. `taken` says which tries collide. */
  method FreshIdentifier(taken: seq<bool>) returns (found: bool, attempts: nat)
    requires |taken| == 3
    ensures found <==> !(taken[0] && taken[1] && taken[2])
    ensures 1 <= attempts <= 3
    ensures found ==> !taken[attempts - 1] && forall i | 0 <= i < attempts - 1 :: taken[i]
  {
    attempts := 0;
    var collision := true;
    while collision
      invariant 0 <= attempts <= 3
      invariant attempts == 0 ==> collision
      invariant forall i | 0 <= i < attempts - 1 :: taken[i]
      invariant attempts > 0 ==> collision == taken[attempts - 1]
      invariant attempts == 3 ==> !collision
      decreases 3 - attempts
    {
      collision := taken[attempts];
      attempts := attempts + 1;
      if attempts >= 3 && collision {
        return false, attempts;
      }
    }
    found := true;
  }

  // ------------------------------------------------------------------ what the loop guarantees

  /** Whether uploads are still on when database i is reached. */
  function SaveS3At(c: Config, saveS3: bool, items: seq<Item>, i: nat): bool
    requires i <= |items|
  {
    saveS3 && !(c.s3Missing && exists j | 0 <= j < i :: LocalOk(items[j]))
  }

  lemma {:induction false} SaveS3AfterAll(c: Config, s: State, items: seq<Item>)
    requires LogInRange(s)
    ensures AfterAll(c, s, items).saveS3 == SaveS3At(c, s.saveS3, items, |items|)
  {
    if items != [] {
      var n := |items| - 1;
      SaveS3AfterAll(c, s, items[..n]);
      assert forall j | 0 <= j < n :: items[..n][j] == items[j];
    }
  }

  /** One more database leaves an earlier record alone, unless its own creation throws while that record is held. */
  lemma EarlierRecord(c: Config, b: State, item: Item, at: nat)
    requires LogInRange(b) && at < |b.records|
    ensures var out := Next(c, b, item);
            && at < |out.records|
            && out.records[at] ==
                 (if !item.createOk && b.log == Some(at) then Overwritten(b.records[at]) else b.records[at])
            && (out.log == Some(at) <==> b.log == Some(at) && !item.createOk)
  {
  }

  /**
   The record of database i at the end of a run: its own outcome, but turned into a failure when
   the next record creation throws; and whether the run still holds it.
   */
  ghost predicate RecordAt(c: Config, s: State, items: seq<Item>, i: nat, out: State)
    requires i < |items|
  {
    var own := OwnRecord(c, items[i], SaveS3At(c, s.saveS3, items, i));
    var at := |s.records| + Created(items[..i]);
    && at < |out.records|
    && (out.log == Some(at) <==> forall j | i < j < |items| :: !items[j].createOk)
    && out.records[at] == if i + 1 < |items| && !items[i + 1].createOk then Overwritten(own) else own
  }

  lemma JustRecorded(c: Config, s: State, items: seq<Item>, i: nat)
    requires s.log.None? && i == |items| - 1 && items[i].createOk
    ensures RecordAt(c, s, items, i, AfterAll(c, s, items))
  {
    hide OwnRecord;
    hide LocalAfter;
    hide S3After;
    hide LocalOk;
    CountRecords(c, s, items[..i]);
    SaveS3AfterAll(c, s, items[..i]);
    SaveS3Prefix(c, s.saveS3, items, i, i);
    CreatedNow(c, AfterAll(c, s, items[..i]), items[i]);
  }

  lemma StillRecorded(c: Config, s: State, items: seq<Item>, i: nat, before: State)
    requires i < |items| - 1 && LogInRange(before)
    requires RecordAt(c, s, items[..|items| - 1], i, before)
    ensures RecordAt(c, s, items, i, Next(c, before, items[|items| - 1]))
  {
    hide OwnRecord;
    hide SaveS3At;
    hide Created;
    hide Next;
    hide LogInRange;
    var n := |items| - 1;
    assert items[..n][..i] == items[..i];
    SaveS3Prefix(c, s.saveS3, items, i, n);
    EarlierRecord(c, before, items[n], |s.records| + Created(items[..i]));
  }

  /**
   The records of a run in which record creation may fail: one per created record, judged on its
   own, except that a record is turned into a failure when the creation that follows it throws.
   */
  lemma {:induction false} RecordsExactly(c: Config, s: State, items: seq<Item>, i: nat)
    requires s.log.None? && i < |items| && items[i].createOk
    ensures RecordAt(c, s, items, i, AfterAll(c, s, items))
    decreases |items|
  {
    assert LogInRange(s);
    hide *;
    var n := |items| - 1;
    LastStep(c, s, items);
    if i == n {
      JustRecorded(c, s, items, i);
    } else {
      RecordsExactly(c, s, items[..n], i);
      StillRecorded(c, s, items, i, AfterAll(c, s, items[..n]));
    }
  }

  lemma LastStep(c: Config, s: State, items: seq<Item>)
    requires LogInRange(s) && items != []
    ensures AfterAll(c, s, items) == Next(c, AfterAll(c, s, items[..|items| - 1]), items[|items| - 1])
  {
  }

  lemma CreatedNow(c: Config, b: State, item: Item)
    requires LogInRange(b) && item.createOk
    ensures Next(c, b, item).records == b.records + [OwnRecord(c, item, b.saveS3)]
    ensures Next(c, b, item).log == Some(|b.records|)
  {
  }

  /** Later databases have no say in whether uploads are on when database i is reached. */
  lemma SaveS3Prefix(c: Config, saveS3: bool, items: seq<Item>, i: nat, n: nat)
    requires i <= n <= |items|
    ensures SaveS3At(c, saveS3, items[..n], i) == SaveS3At(c, saveS3, items, i)
  {
  }

  function Created(items: seq<Item>): nat {
    if items == [] then 0 else Created(items[..|items| - 1]) + (if items[|items| - 1].createOk then 1 else 0)
  }

  lemma {:induction false} CountRecords(c: Config, s: State, items: seq<Item>)
    requires s.log.None?
    ensures var out := AfterAll(c, s, items);
            && |out.records| == |s.records| + Created(items)
            && s.records <= out.records
            && (out.log.None? <==> Created(items) == 0)
            && (out.log.Some? ==> out.log.value == |out.records| - 1)
  {
    if items != [] {
      CountRecords(c, s, items[..|items| - 1]);
    }
  }

  lemma {:induction false} AllCreated(items: seq<Item>)
    ensures Created(items) <= |items|
    ensures Created(items) == |items| <==> forall i | 0 <= i < |items| :: items[i].createOk
  {
    if items != [] {
      AllCreated(items[..|items| - 1]);
    }
  }

  predicate Terminal(r: Record) {
    r.status != Running
  }

  /**
   A final record that says whether the dump is there, names its file if so, and says of an upload that was
   due whether it went through. The local copy counts as deleted only after an upload and its cleanup.
   */
  predicate TellsOutcome(c: Config, r: Record, item: Item, saveS3: bool) {
    && Terminal(r) && r.database == item.database
    && (r.status == Success <==> LocalOk(item))
    && (if r.status == Success then r.filename == Some(item.file) else r.filename == None)
    && (r.s3Uploaded.Some? <==> r.status == Success && saveS3 && !c.s3Missing)
    && (r.s3Uploaded.Some? ==> r.s3Uploaded.value == item.uploadOk)
    && (r.localDeleted <==>
         r.s3Uploaded == Some(true) && item.cleanupOk && c.disableLocal && !item.deleteThrows)
  }

  lemma OwnRecordTellsOutcome(c: Config, item: Item, saveS3: bool)
    ensures TellsOutcome(c, OwnRecord(c, item, saveS3), item, saveS3)
  {
  }

  /** The run kept its promise: exactly one final record each, and each the database's own outcome. */
  predicate OneOwnRecordEach(c: Config, s: State, items: seq<Item>)
    requires LogInRange(s)
  {
    var out := AfterAll(c, s, items).records;
    && |out| == |s.records| + |items|
    && s.records <= out
    && forall i | 0 <= i < |items| ::
         && out[|s.records| + i] == OwnRecord(c, items[i], SaveS3At(c, s.saveS3, items, i))
         && TellsOutcome(c, out[|s.records| + i], items[i], SaveS3At(c, s.saveS3, items, i))
  }

  lemma OwnRecordKept(c: Config, s: State, items: seq<Item>, i: nat)
    requires s.log.None? && i < |items| && forall k | 0 <= k < |items| :: items[k].createOk
    ensures var saveS3 := SaveS3At(c, s.saveS3, items, i);
            var out := AfterAll(c, s, items).records;
            && |s.records| + i < |out|
            && out[|s.records| + i] == OwnRecord(c, items[i], saveS3)
            && TellsOutcome(c, out[|s.records| + i], items[i], saveS3)
  {
    hide OwnRecord;
    hide TellsOutcome;
    hide AfterAll;
    hide SaveS3At;
    hide Created;
    RecordsExactly(c, s, items, i);
    AllCreated(items[..i]);
    OwnRecordTellsOutcome(c, items[i], SaveS3At(c, s.saveS3, items, i));
  }

  /** Each database gets exactly one final record with its own outcome if and only if no creation throws. */
  lemma IsolationExactly(c: Config, s: State, items: seq<Item>)
    requires s.log.None?
    ensures OneOwnRecordEach(c, s, items) <==> forall i | 0 <= i < |items| :: items[i].createOk
  {
    hide OwnRecord;
    hide TellsOutcome;
    hide AfterAll;
    hide SaveS3At;
    hide Created;
    CountRecords(c, s, items);
    AllCreated(items);
    if forall i | 0 <= i < |items| :: items[i].createOk {
      forall i | 0 <= i < |items|
        ensures
          var own := AfterAll(c, s, items).records[|s.records| + i];
          var saveS3 := SaveS3At(c, s.saveS3, items, i);
          own == OwnRecord(c, items[i], saveS3) && TellsOutcome(c, own, items[i], saveS3)
      {
        OwnRecordKept(c, s, items, i);
      }
    }
  }

  /** A record creation that throws turns the previous database's outcome into a failure, though its dump is there. */
  lemma CreationFailureHitsPrevious(c: Config, s: State, items: seq<Item>, i: nat)
    requires s.log.None? && i + 1 < |items| && items[i].createOk && !items[i + 1].createOk
    ensures var at := |s.records| + Created(items[..i]);
            var before, after := AfterAll(c, s, items[..i + 1]).records, AfterAll(c, s, items).records;
            && at < |before| && TellsOutcome(c, before[at], items[i], SaveS3At(c, s.saveS3, items, i))
            && at < |after| && after[at] == Overwritten(before[at])
            && after[at].status == Failed && after[at].filename == None
    ensures LocalOk(items[i]) && Distinct(Files(items)) ==> Survives(items[i], AfterAll(c, s, items))
  {
    hide OwnRecord;
    hide LocalOk;
    hide TellsOutcome;
    hide AfterAll;
    hide Created;
    assert items[..i + 1][..i] == items[..i];
    RecordsExactly(c, s, items[..i + 1], i);
    RecordsExactly(c, s, items, i);
    SaveS3Prefix(c, s.saveS3, items, i, i + 1);
    OwnRecordTellsOutcome(c, items[i], SaveS3At(c, s.saveS3, items, i));
    if LocalOk(items[i]) && Distinct(Files(items)) {
      SuccessSurvives(c, s, items, i);
    }
  }

  /**
   With distinct file names, every successful backup has a surviving copy of its own dump, local
   or in S3, and its local copy is gone only if its own upload went through.
   */
  lemma {:induction false} SuccessSurvives(c: Config, s: State, items: seq<Item>, i: nat)
    requires LogInRange(s) && Distinct(Files(items))
    requires i < |items| && LocalOk(items[i])
    ensures var out := AfterAll(c, s, items);
            var item, saveS3 := items[i], SaveS3At(c, s.saveS3, items, i);
            var here := item.file in out.local && out.local[item.file] == item.content;
            var there := item.file in out.s3 && out.s3[item.file] == item.content;
            && (here || there)
            && (!here ==> DeletesLocal(c, item, saveS3) && item.deleteWorks)
            && (Uploads(c, item, saveS3) ==> there)
            && (DeletesLocal(c, item, saveS3) && item.deleteWorks ==> item.file !in out.local)
    decreases |items|
  {
    var n := |items| - 1;
    var before := items[..n];
    SaveS3Prefix(c, s.saveS3, items, i, n);
    LastStep(c, s, items);
    hide AfterAll;
    if i < n {
      SuccessSurvives(c, s, before, i);
      OtherFileUntouched(c, AfterAll(c, s, before), items[n], items[i].file);
    } else {
      SaveS3AfterAll(c, s, before);
      SaveS3Prefix(c, s.saveS3, items, n, n);
    }
  }

  lemma OtherFileUntouched(c: Config, b: State, item: Item, file: string)
    requires LogInRange(b) && item.file != file
    ensures var out := Next(c, b, item);
            && (file in out.local <==> file in b.local) && (file in b.local ==> out.local[file] == b.local[file])
            && (file in out.s3 <==> file in b.s3) && (file in b.s3 ==> out.s3[file] == b.s3[file])
  {
  }

  /** The files the databases are dumped to. */
  function Files(items: seq<Item>): (r: seq<string>)
    ensures |r| == |items| && forall i | 0 <= i < |r| :: r[i] == items[i].file
  {
    seq(|items|, i requires 0 <= i < |items| => items[i].file)
  }

  predicate Distinct(files: seq<string>) {
    forall i, j | 0 <= i < j < |files| :: files[i] != files[j]
  }

  /** The dump of the database is there, locally or in S3. */
  predicate Survives(item: Item, out: State) {
    || (item.file in out.local && out.local[item.file] == item.content)
    || (item.file in out.s3 && out.s3[item.file] == item.content)
  }

  ghost predicate EverySuccessSurvives(c: Config, s: State, items: seq<Item>)
    requires LogInRange(s)
  {
    forall i | 0 <= i < |items| && LocalOk(items[i]) :: Survives(items[i], AfterAll(c, s, items))
  }

  /** A run over the given files in which everything works, without S3; each dump has a content of its own. */
  function Working(files: seq<string>): (r: seq<Item>)
    ensures |r| == |files|
    ensures forall i | 0 <= i < |r| :: LocalOk(r[i]) && r[i].file == files[i] && r[i].content == i
  {
    seq(|files|, i requires 0 <= i < |files| =>
      Item("", files[i], true, true, true, i, None, true, true, true, false, true))
  }

  const LOCAL_ONLY := Config(false, false)
  const NOTHING_YET := State([], None, false, false, map[], map[])

  /** In such a run a file holds the dump of the last database that was written to it. */
  lemma {:induction false} LastWriterWins(files: seq<string>, n: nat)
    requires n <= |files|
    ensures var out := AfterAll(LOCAL_ONLY, NOTHING_YET, Working(files)[..n]);
            && out.s3 == map[] && !out.saveS3
            && forall i | 0 <= i < n :: files[i] in out.local && out.local[files[i]] >= i
  {
    if n > 0 {
      LastWriterWins(files, n - 1);
      var items := Working(files)[..n];
      assert items[..n - 1] == Working(files)[..n - 1];
      LastStep(LOCAL_ONLY, NOTHING_YET, items);
    }
  }

  /** Two databases under one file name: the earlier backup is lost although nothing failed. */
  lemma SharedNameLosesBackup(files: seq<string>, i: nat, j: nat)
    requires i < j < |files| && files[i] == files[j]
    ensures !EverySuccessSurvives(LOCAL_ONLY, NOTHING_YET, Working(files))
  {
    LastWriterWins(files, |files|);
    assert Working(files)[..|files|] == Working(files);
    assert !Survives(Working(files)[i], AfterAll(LOCAL_ONLY, NOTHING_YET, Working(files)));
  }

  /** Every success keeps its own dump, in every run over the given files, if and only if their names are distinct. */
  lemma SurvivalExactly(files: seq<string>)
    ensures (forall c, s, items | LogInRange(s) && Files(items) == files :: EverySuccessSurvives(c, s, items)) <==>
              Distinct(files)
  {
    if Distinct(files) {
      forall c, s, items | LogInRange(s) && Files(items) == files
        ensures EverySuccessSurvives(c, s, items)
      {
        DistinctSurvives(c, s, items);
      }
    } else {
      var i, j :| 0 <= i < j < |files| && files[i] == files[j];
      SharedNameLosesBackup(files, i, j);
      assert Files(Working(files)) == files;
    }
  }

  lemma DistinctSurvives(c: Config, s: State, items: seq<Item>)
    requires LogInRange(s) && Distinct(Files(items))
    ensures EverySuccessSurvives(c, s, items)
  {
    hide AfterAll;
    forall i | 0 <= i < |items| && LocalOk(items[i])
      ensures Survives(items[i], AfterAll(c, s, items))
    {
      SuccessSurvives(c, s, items, i);
    }
  }
}
