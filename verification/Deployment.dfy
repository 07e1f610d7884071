/**
 The world a deployment runs in: its row in the deployment queue, the application's containers,
 the helper container, and the commands sent to the servers, together with what every step keeps.
 */
module Deployment {

  datatype Status = Queued | InProgress | Finished | Failed | CancelledByUser

  /** Terminal states cannot be left. */
  predicate Terminal(s: Status) {
    s == Finished || s == Failed || s == CancelledByUser
  }

  datatype Host = Main | Build

  datatype BuildPack = Nixpacks | Static | DockerfilePack | DockerImage | DockerCompose

  /**
   The settings of one deployment. `olds` are the application's containers at the start, `newName`
   the name of the container the deployment starts. `successThrows` and `failureThrows` tell whether the events and
   notifications sent on success or failure raise an exception.
   */
  datatype Config = Config(
    pullRequest: bool,
    inlineDockerfile: bool,
    buildPack: BuildPack,
    restartRequested: bool,
    forceRebuild: bool,
    additionalServer: bool,
    buildServerEnabled: bool,
    hasRegistry: bool,
    fixedName: bool,
    portsOrAddress: bool,
    healthcheckOff: bool,
    startPeriod: nat,
    interval: nat,
    retries: nat,
    maxRetries: nat,
    successThrows: bool,
    failureThrows: bool,
    olds: set<string>,
    newName: string)
  {
    /** A restart request is dropped for images and Dockerfiles, which have nothing to restart from. */
    predicate RestartOnly() {
      restartRequested && buildPack != DockerImage && buildPack != DockerfilePack
    }

    /** The new container is started next to the old ones, checked, and only then replaces them. */
    predicate Rolling() {
      !pullRequest && !fixedName && !portsOrAddress && buildPack != DockerCompose
    }

    /** The situation in which an application must stay up. */
    predicate Protected() {
      Rolling() && olds != {} && !successThrows
    }

    /** Reporting this status raises. */
    predicate Throws(s: Status) {
      (s == Finished && successThrows) || (s == Failed && failureThrows)
    }

    /** The build paths that are meant to work with a build server. */
    predicate BuildServerPath() {
      !RestartOnly() && (
        if pullRequest then buildPack != DockerCompose
        else inlineDockerfile || (buildPack != DockerCompose && buildPack != DockerImage))
    }

    /** The image comes from a registry and is not built. */
    predicate PullsImage() {
      !pullRequest && !inlineDockerfile && buildPack == DockerImage
    }

    /** An existing image is never reused. */
    predicate AlwaysBuilds() {
      !RestartOnly() && (pullRequest || inlineDockerfile || buildPack == DockerCompose || forceRebuild)
    }

    /** A built image is pushed to the registry. */
    predicate Pushes() {
      hasRegistry && !additionalServer && buildPack != DockerImage
      && (buildPack == DockerCompose ==> inlineDockerfile && !pullRequest)
    }

    /** A compose application that is deployed as a stack. */
    predicate ComposePath() {
      buildPack == DockerCompose && !RestartOnly() && (pullRequest || !inlineDockerfile)
    }

    /** What the new container replaces is stopped before it starts. */
    predicate StopsFirst() {
      pullRequest || fixedName || portsOrAddress || ComposePath()
    }

    /** The new container takes the name of the one it replaces, and the others are left alone. */
    predicate KeepsName() {
      fixedName || (pullRequest && buildPack != DockerCompose)
    }

    /** The restart of a compose preview keeps the name unless it turns into a full deployment. */
    predicate MayKeepName() {
      fixedName || (pullRequest && !ComposePath())
    }

    /** The containers that go if the name is not kept. */
    function ToReplace(): set<string> {
      if pullRequest then olds else olds - {newName}
    }

    predicate Valid() {
      Rolling() ==> newName !in olds
    }
  }

  datatype Command =
    | StartHelper
    | StopHelper
    | BuildImage
    | PushImage
    | StartContainer(name: string)
    | Probe
    | StopContainer(name: string)
    | RemoveContainer(name: string)
    | Other

  /** A command that was sent, with the server it went to and the row's status at that moment. */
  datatype Issued = Issued(command: Command, host: Host, status: Status)

  /** What happened so far: every status of the row, every set of containers, every command sent. */
  datatype History = History(statuses: seq<Status>, snapshots: seq<set<string>>, commands: seq<Issued>)

  /** What was reported: the next deployment queued, the success and the failure notification. */
  datatype Reports = Reports(queuedNext: nat, successSent: nat, failureSent: nat)

  /** The milestones for which a command was sent, and the containers whose stop or removal was. */
  datatype Progress = Progress(built: bool, pushed: bool, started: bool, stopped: set<string>, removed: set<string>) {
    predicate UpTo(later: Progress) {
      && (built ==> later.built) && (pushed ==> later.pushed) && (started ==> later.started)
      && stopped <= later.stopped && removed <= later.removed
    }

    function After(command: Command): Progress {
      match command
      case BuildImage => this.(built := true)
      case PushImage => this.(pushed := true)
      case StartContainer(_) => this.(started := true)
      case StopContainer(name) => this.(stopped := stopped + {name})
      case RemoveContainer(name) => this.(removed := removed + {name})
      case _ => this
    }
  }

  /**
   The servers to which the stop of a started helper container is due, and those where one runs. They
   differ when a command was sent but had no effect, or when a canceller removed the helper.
   */
  datatype Helpers = Helpers(due: set<Host>, running: set<Host>) {
    function Sent(command: Command, host: Host): Helpers {
      this.(due := Started(command, host, due))
    }

    function Worked(command: Command, host: Host): Helpers {
      this.(running := Started(command, host, running))
    }
  }

  function Started(command: Command, host: Host, hosts: set<Host>): set<Host> {
    if command == StartHelper then hosts + {host}
    else if command == StopHelper then hosts - {host}
    else hosts
  }

  /**
   The row's status, the application's running containers, the helper containers, whether a container
   that was to be removed is still there, and whether anything outside has gone wrong so far: a
   failure, a lost connection, an exception or a cancellation.
   */
  datatype World = World(
    status: Status,
    containers: set<string>,
    helpers: Helpers,
    incomplete: bool,
    disrupted: bool,
    progress: Progress,
    reports: Reports,
    history: History)
  {
    function SetStatus(s: Status): World {
      this.(status := s, history := history.(statuses := history.statuses + [s]))
    }

    /** A command leaves, takes effect or not, and may be known to have gone wrong. */
    function Dispatch(command: Command, host: Host, works: bool, wrong: bool): World {
      var sent := Issue(command, host);
      var done := if works then sent.Work(command, host) else sent;
      if wrong then done.Disrupt() else done
    }

    function Disrupt(): World {
      this.(disrupted := true)
    }

    function SetContainers(c: set<string>): World {
      this.(containers := c, history := history.(snapshots := history.snapshots + [c]))
    }

    function DueAfter(command: Command, host: Host): set<Host> {
      Started(command, host, helpers.due)
    }

    /** A command takes effect. */
    function Work(command: Command, host: Host): World {
      var w := this.(helpers := helpers.Worked(command, host));
      if Effect(command, containers) == containers then w else w.SetContainers(Effect(command, containers))
    }

    /** A command leaves for a server. */
    function Issue(command: Command, host: Host): World {
      this.(history := history.(commands := history.commands + [Issued(command, host, status)]),
            progress := progress.After(command),
            helpers := helpers.Sent(command, host))
    }
  }

  /** The containers after a command that took effect. */
  function Effect(command: Command, containers: set<string>): set<string> {
    match command
    case StartContainer(name) => containers + {name}
    case StopContainer(name) => containers - {name}
    case RemoveContainer(name) => containers - {name}
    case _ => containers
  }

  function InitialWorld(cfg: Config): World {
    World(
      Queued, cfg.olds, Helpers({}, {}), false, false, Progress(false, false, false, {}, {}), Reports(0, 0, 0),
      History([Queued], [cfg.olds], []))
  }

  function BuildHost(chosen: bool): Host {
    if chosen then Build else Main
  }

  /** Images are built and pushed where the build runs; containers are handled on the main server. */
  predicate HostOk(chosen: bool, e: Issued) {
    match e.command
    case BuildImage => e.host == BuildHost(chosen)
    case PushImage => e.host == BuildHost(chosen)
    case StartHelper => e.host == BuildHost(chosen)
    case StartContainer(_) => e.host == Main
    case Probe => e.host == Main
    case StopContainer(_) => e.host == Main
    case RemoveContainer(_) => e.host == Main
    case _ => true
  }

  /** Without a build server, or on a path made for one, commands go where they should. */
  predicate Regular(cfg: Config, chosen: bool) {
    chosen ==> cfg.BuildServerPath()
  }

  // ------------------------------------------------------------------ stopping before starting

  predicate WasSent(commands: seq<Issued>, command: Command) {
    exists e | e in commands :: e.command == command
  }

  predicate AllStopped(commands: seq<Issued>, names: set<string>) {
    forall name | name in names :: WasSent(commands, StopContainer(name))
  }

  /** The container whose name is kept was told to stop and to go, or each container to be replaced to stop. */
  predicate Cleared(cfg: Config, commands: seq<Issued>) {
    var one := WasSent(commands, StopContainer(cfg.newName)) && WasSent(commands, RemoveContainer(cfg.newName));
    var all := AllStopped(commands, cfg.ToReplace());
    if cfg.KeepsName() then one else all || (cfg.MayKeepName() && one)
  }

  /** The same by the record of what was sent. */
  predicate ClearedBy(cfg: Config, p: Progress) {
    var one := cfg.newName in p.stopped && cfg.newName in p.removed;
    var all := cfg.ToReplace() <= p.stopped;
    if cfg.KeepsName() then one else all || (cfg.MayKeepName() && one)
  }

  predicate IsStart(e: Issued) {
    e.command.StartContainer?
  }

  /** The stop of the container whose name is kept comes before every start, even if something goes wrong. */
  predicate StopComesFirst(cfg: Config, commands: seq<Issued>) {
    forall i | 0 <= i < |commands| && IsStart(commands[i]) :: WasSent(commands[..i], StopContainer(cfg.newName))
  }

  /** All that is to be replaced is told to go before every start. */
  predicate ClearedFirst(cfg: Config, commands: seq<Issued>) {
    forall i | 0 <= i < |commands| && IsStart(commands[i]) :: Cleared(cfg, commands[..i])
  }

  /** What is on record was sent. */
  predicate OnRecord(p: Progress, commands: seq<Issued>) {
    && (p.built ==> WasSent(commands, BuildImage))
    && (p.pushed ==> WasSent(commands, PushImage))
    && (p.started ==> exists e | e in commands :: IsStart(e))
    && (forall name | name in p.stopped :: WasSent(commands, StopContainer(name)))
    && (forall name | name in p.removed :: WasSent(commands, RemoveContainer(name)))
  }

  /** The record is true, and nothing was started too early. */
  predicate InOrder(cfg: Config, w: World) {
    && OnRecord(w.progress, w.history.commands)
    && (cfg.StopsFirst() && cfg.KeepsName() ==> StopComesFirst(cfg, w.history.commands))
    && (cfg.StopsFirst() && !w.disrupted ==> ClearedFirst(cfg, w.history.commands))
  }

  /** The new container may be started now, unless the row is cancelled, which will hold the command back. */
  predicate MayStart(cfg: Config, w: World) {
    cfg.StopsFirst() && cfg.maxRetries > 0 && w.status != CancelledByUser ==>
      && (cfg.KeepsName() ==> cfg.newName in w.progress.stopped)
      && (!w.disrupted ==> ClearedBy(cfg, w.progress))
  }

  /** A command that starts a container is sent only when that may be. */
  predicate Timely(cfg: Config, command: Command, w: World) {
    command.StartContainer? ==> MayStart(cfg, w)
  }

  lemma SentEarlier(commands: seq<Issued>, e: Issued, command: Command)
    ensures WasSent(commands, command) || e.command == command ==> WasSent(commands + [e], command)
  {
    if WasSent(commands, command) {
      var earlier :| earlier in commands && earlier.command == command;
      assert earlier in commands + [e];
    }
    assert e in commands + [e];
  }

  lemma RecordHolds(cfg: Config, w: World)
    requires InOrder(cfg, w)
    ensures ClearedBy(cfg, w.progress) ==> Cleared(cfg, w.history.commands)
    ensures cfg.newName in w.progress.stopped ==> WasSent(w.history.commands, StopContainer(cfg.newName))
  {
    hide WasSent;
  }

  lemma OneMore(commands: seq<Issued>, e: Issued, i: nat)
    requires i <= |commands|
    ensures (commands + [e])[..i] == commands[..i]
  {
  }

  lemma StillFirst(cfg: Config, commands: seq<Issued>, e: Issued)
    ensures StopComesFirst(cfg, commands) && (IsStart(e) ==> WasSent(commands, StopContainer(cfg.newName))) ==>
              StopComesFirst(cfg, commands + [e])
    ensures ClearedFirst(cfg, commands) && (IsStart(e) ==> Cleared(cfg, commands)) ==> ClearedFirst(cfg, commands + [e])
  {
    hide WasSent;
    hide Cleared;
    hide IsStart;
    var more := commands + [e];
    forall i | 0 <= i < |more|
      ensures more[..i] == commands[..i] && more[i] == if i < |commands| then commands[i] else e
    {
      OneMore(commands, e, i);
    }
    assert commands[..|commands|] == commands;
  }

  lemma RecordGrows(p: Progress, commands: seq<Issued>, e: Issued)
    requires OnRecord(p, commands)
    ensures OnRecord(p.After(e.command), commands + [e])
  {
    hide WasSent;
    var later, more := p.After(e.command), commands + [e];
    assert e in more;
    SentEarlier(commands, e, BuildImage);
    SentEarlier(commands, e, PushImage);
    forall name | name in later.stopped
      ensures WasSent(more, StopContainer(name))
    {
      SentEarlier(commands, e, StopContainer(name));
    }
    forall name | name in later.removed
      ensures WasSent(more, RemoveContainer(name))
    {
      SentEarlier(commands, e, RemoveContainer(name));
    }
    if p.started {
      var start :| start in commands && IsStart(start);
      assert start in more;
    }
  }

  lemma IssueInOrder(cfg: Config, w: World, command: Command, host: Host)
    requires InOrder(cfg, w) && Timely(cfg, command, w) && w.status != CancelledByUser && cfg.maxRetries > 0
    ensures InOrder(cfg, w.Issue(command, host))
  {
    hide WasSent;
    hide StopComesFirst;
    hide ClearedFirst;
    hide Cleared;
    hide ClearedBy;
    var e := Issued(command, host, w.status);
    RecordHolds(cfg, w);
    hide OnRecord;
    StillFirst(cfg, w.history.commands, e);
    RecordGrows(w.progress, w.history.commands, e);
  }

  // ------------------------------------------------------------------ what every step keeps

  /** No status after a terminal one. */
  predicate StatusHistory(w: World) {
    && w.history.statuses != [] && w.history.statuses[|w.history.statuses| - 1] == w.status
    && forall i | 0 <= i < |w.history.statuses| - 1 :: !Terminal(w.history.statuses[i])
  }

  /** The next deployment is queued at most once, and at most one kind of notification goes out. */
  predicate ReportsOnce(w: World) {
    && w.reports.queuedNext <= 1 && w.reports.successSent <= 1 && w.reports.failureSent <= 1
    && (w.reports.queuedNext == 1 ==> w.status == Finished || w.status == Failed)
    && (w.reports.successSent == 1 ==> w.status == Finished)
    && (w.reports.failureSent == 1 ==> w.status == Failed)
  }

  /**
   Between two steps a finished or failed row has been reported exactly once and the next deployment
   has been queued; if the notifications raise, the next deployment is not queued.
   */
  predicate Announced(cfg: Config, w: World) {
    && (w.status == Finished ==>
          w.reports.failureSent == 0
          && if cfg.successThrows then w.reports.queuedNext == 0 else w.reports == Reports(1, 1, 0))
    && (w.status == Failed ==>
          w.reports.successSent == 0
          && if cfg.failureThrows then w.reports.queuedNext == 0 else w.reports == Reports(1, 0, 1))
    && (w.status != Finished && w.status != Failed ==> w.reports == Reports(0, 0, 0))
    && (cfg.Throws(w.status) ==> w.disrupted)
  }

  /** No command is sent once the row says cancelled, and every command goes to the right server. */
  predicate Commands(cfg: Config, chosen: bool, w: World) {
    && (forall e | e in w.history.commands :: e.status != CancelledByUser)
    && (cfg.maxRetries == 0 ==> w.history.commands == [] && w.helpers == Helpers({}, {}))
    && (Regular(cfg, chosen) ==>
          && (forall e | e in w.history.commands :: HostOk(chosen, e))
          && w.helpers.due <= {BuildHost(chosen)} && w.helpers.running <= {BuildHost(chosen)})
  }

  /** An application that must stay up always has a running container. */
  predicate StaysUp(cfg: Config, w: World) {
    && (cfg.Protected() ==> w.containers != {} && forall s | s in w.history.snapshots :: s != {})
    && (cfg.Rolling() ==> w.containers <= cfg.olds + {cfg.newName})
  }

  predicate Inv(cfg: Config, chosen: bool, w: World) {
    StatusHistory(w) && ReportsOnce(w) && Commands(cfg, chosen, w) && StaysUp(cfg, w) && InOrder(cfg, w)
  }

  /** Steps that at most see the row cancelled: no other change of status, no report, no container touched. */
  predicate Quiet(cfg: Config, a: World, b: World) {
    && (b.status == a.status || (!Terminal(a.status) && b.status == CancelledByUser))
    && b.reports == a.reports
    && b.incomplete == a.incomplete && a.progress.UpTo(b.progress)
    && (a.disrupted ==> b.disrupted) && (b.status != a.status ==> b.disrupted)
    && (cfg.Rolling() || !b.disrupted ==> b.containers == a.containers)
  }

  lemma InitialInv(cfg: Config, chosen: bool)
    ensures Inv(cfg, chosen, InitialWorld(cfg))
  {
  }

  /** Writing a status keeps everything, as long as the status before is not terminal. */
  lemma SetStatusKeeps(cfg: Config, chosen: bool, w: World, s: Status)
    requires Inv(cfg, chosen, w) && !Terminal(w.status)
    ensures Inv(cfg, chosen, w.SetStatus(s))
  {
  }

  lemma SetContainersKeeps(cfg: Config, chosen: bool, w: World, c: set<string>)
    requires Inv(cfg, chosen, w)
    requires cfg.Protected() ==> c != {}
    requires cfg.Rolling() ==> c <= cfg.olds + {cfg.newName}
    ensures Inv(cfg, chosen, w.SetContainers(c))
  {
  }

  lemma UpNow(cfg: Config, chosen: bool, w: World)
    requires Inv(cfg, chosen, w)
    ensures cfg.Protected() ==> w.containers != {}
    ensures cfg.Rolling() ==> w.containers <= cfg.olds + {cfg.newName}
  {
  }

  lemma DisruptKeeps(cfg: Config, chosen: bool, w: World)
    requires Inv(cfg, chosen, w)
    ensures Inv(cfg, chosen, w.Disrupt())
  {
  }

  lemma WorkKeeps(cfg: Config, chosen: bool, w: World, command: Command, host: Host)
    requires Inv(cfg, chosen, w) && cfg.maxRetries > 0
    requires Regular(cfg, chosen) ==> HostOk(chosen, Issued(command, host, w.status))
    requires cfg.Protected() ==> Effect(command, w.containers) != {}
    requires cfg.Rolling() ==> Effect(command, w.containers) <= cfg.olds + {cfg.newName}
    ensures Inv(cfg, chosen, w.Work(command, host))
  {
    hide StopComesFirst;
    hide ClearedFirst;
    hide OnRecord;
    var after := w.(helpers := w.helpers.Worked(command, host));
    SetContainersKeeps(cfg, chosen, after, Effect(command, w.containers));
  }

  lemma DispatchKeeps(cfg: Config, chosen: bool, w: World, command: Command, host: Host, works: bool, wrong: bool)
    requires Inv(cfg, chosen, w) && w.status != CancelledByUser && cfg.maxRetries > 0
    requires Regular(cfg, chosen) ==> HostOk(chosen, Issued(command, host, w.status))
    requires cfg.Protected() ==> Effect(command, w.containers) != {}
    requires cfg.Rolling() ==> Effect(command, w.containers) <= cfg.olds + {cfg.newName}
    requires Timely(cfg, command, w)
    ensures Inv(cfg, chosen, w.Dispatch(command, host, works, wrong))
  {
    hide Inv;
    var sent := w.Issue(command, host);
    IssueKeeps(cfg, chosen, w, command, host);
    if works {
      WorkKeeps(cfg, chosen, sent, command, host);
    }
    DisruptKeeps(cfg, chosen, if works then sent.Work(command, host) else sent);
  }

  lemma ReportsKeep(cfg: Config, chosen: bool, w: World, reports: Reports)
    requires Inv(cfg, chosen, w) && ReportsOnce(w.(reports := reports))
    ensures Inv(cfg, chosen, w.(reports := reports))
  {
  }

  /** A canceller may remove the helper container, but it looks for it on the main server only. */
  lemma HelperRemovedKeeps(cfg: Config, chosen: bool, w: World)
    requires Inv(cfg, chosen, w)
    ensures Inv(cfg, chosen, w.(helpers := w.helpers.(running := w.helpers.running - {Main})))
  {
  }

  /** Before anything is sent the choice of a build server makes no difference. */
  lemma ChoiceKeeps(cfg: Config, chosen: bool, other: bool, w: World)
    requires Inv(cfg, chosen, w) && w.history.commands == [] && w.helpers == Helpers({}, {})
    ensures Inv(cfg, other, w)
  {
  }

  lemma IncompleteKeeps(cfg: Config, chosen: bool, w: World)
    requires Inv(cfg, chosen, w)
    ensures Inv(cfg, chosen, w.(incomplete := true))
  {
  }

  lemma IssueKeeps(cfg: Config, chosen: bool, w: World, command: Command, host: Host)
    requires Inv(cfg, chosen, w) && w.status != CancelledByUser && cfg.maxRetries > 0
    requires Regular(cfg, chosen) ==> HostOk(chosen, Issued(command, host, w.status))
    requires Timely(cfg, command, w)
    ensures Inv(cfg, chosen, w.Issue(command, host))
  {
    IssueInOrder(cfg, w, command, host);
    hide InOrder;
  }
}
