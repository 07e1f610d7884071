/**
 The deployment job as it runs, with the queue worker around it. Remote commands may fail, anything
 may throw, and a cancellation may land between any two steps.
 */
module DeploymentJob {
  import opened Deployment

  const CANCELLED := 69420

  /** What a method ends with: normally, or with an exception that carries a code. */
  datatype Outcome = Ok | Threw(code: int) {
    predicate IsFailure() {
      Threw?
    }

    function PropagateFailure(): Outcome
      requires IsFailure()
    {
      this
    }
  }

  /** One try at a remote command: done, failed in a way worth another try, or raised. */
  datatype Attempt = Done | Lost | Raised(o: Outcome)

  datatype ProbeResult = Healthy | Unhealthy | Undecided

  /** An exception means that something went wrong; the code of a cancellation is only ever used for one. */
  predicate Honest(o: Outcome, w: World) {
    (o.Threw? ==> w.disrupted) && (o == Threw(CANCELLED) ==> w.status == CancelledByUser)
  }

  class Job {
    const cfg: Config
    var w: World
    var server: Host
    var useBuildServer: bool
    var buildServerChosen: bool
    var restartOnly: bool
    var newVersionIsHealthy: bool
    var imageFound: bool
    var consistentName: bool
    var jobFailed: bool
    var probes: seq<ProbeResult>
    var slept: nat
    /** The rolling update has failed the row, whether or not the report of that raised. */
    var rollbackReached: bool

    constructor (cfg: Config)
      requires cfg.Valid()
      ensures this.cfg == cfg && AsQueued()
    {
      this.cfg := cfg;
      w := InitialWorld(cfg);
      server, useBuildServer, buildServerChosen := Main, false, false;
      restartOnly, consistentName := cfg.RestartOnly(), cfg.fixedName;
      newVersionIsHealthy, imageFound, jobFailed := false, false, false;
      probes, slept, rollbackReached := [], 0, false;
    }

    /** A job as it was put into the queue. */
    predicate AsQueued()
      reads this
    {
      && cfg.Valid() && w == InitialWorld(cfg)
      && server == Main && !useBuildServer && !buildServerChosen && restartOnly == cfg.RestartOnly()
      && consistentName == cfg.fixedName && !newVersionIsHealthy && !jobFailed
      && !rollbackReached && probes == [] && slept == 0
    }

    /** The world is as it should be, and only a run that chose a build server ever leaves the main one. */
    predicate Good()
      reads this
    {
      Sound() && Announced(cfg, w)
    }

    predicate Sound()
      reads this
    {
      && cfg.Valid()
      && Inv(cfg, buildServerChosen, w)
      && (!buildServerChosen ==> server == Main && !useBuildServer)
      && (RegularRun() ==> useBuildServer == buildServerChosen)
      && (jobFailed || rollbackReached ==> Terminal(w.status))
      && (consistentName ==> cfg.MayKeepName()) && (cfg.fixedName ==> consistentName)
      && (w.status == CancelledByUser ==> w.disrupted)
      && (!w.disrupted ==> w.helpers.running == w.helpers.due)
      && (w.incomplete && cfg.maxRetries > 0 ==> w.disrupted)
    }

    /** The server that builds run on. */
    function Target(): Host
      reads this
    {
      if useBuildServer then Build else Main
    }

    predicate RegularRun()
      reads this
    {
      Regular(cfg, buildServerChosen)
    }

    /** During a build the current server is the one that builds. */
    predicate AtTarget()
      reads this
    {
      RegularRun() ==> server == Target()
    }

    // ---------------------------------------------------------------- the outside world

    /** A canceller reads a queued or running row and writes it, in one step. */
    method Cancel()
      requires Good()
      modifies this`w
      ensures Good()
      ensures w == if Terminal(old(w).status) then old(w) else old(w).Disrupt().SetStatus(CancelledByUser)
    {
      if w.status == Queued || w.status == InProgress {
        DisruptKeeps(cfg, buildServerChosen, w);
        SetStatusKeeps(cfg, buildServerChosen, w.Disrupt(), CancelledByUser);
        hide Inv;
        w := w.Disrupt().SetStatus(CancelledByUser);
      }
    }

    /** Whoever cancels removes the helper container, if it is found on the main server. */
    method RemoveHelper()
      requires Good() && w.status == CancelledByUser
      modifies this`w
      ensures Good() && w == old(w).(helpers := old(w).helpers.(running := old(w).helpers.running - {Main}))
    {
      HelperRemovedKeeps(cfg, buildServerChosen, w);
      hide Inv;
      w := w.(helpers := w.helpers.(running := w.helpers.running - {Main}));
    }

    /** Whoever cancels a preview stops its containers. */
    method StopPreviewContainers()
      requires Good() && w.status == CancelledByUser && cfg.pullRequest
      modifies this`w
      ensures Good() && w == old(w).SetContainers({})
    {
      SetContainersKeeps(cfg, buildServerChosen, w, {});
      hide Inv;
      w := w.SetContainers({});
    }

    /**
     Between two steps the row may be cancelled, and the canceller may do its part. Cancelling is one
     step, as is a job's reading of the status and writing of the next one.
     */
    method Interleave()
      requires Good()
      modifies this`w
      ensures Good() && Quiet(cfg, old(w), w)
      ensures old(w).status == Finished || old(w).status == Failed || !w.disrupted ==> w == old(w)
      ensures w.history.commands == old(w).history.commands
      ensures w.helpers.due == old(w).helpers.due
      ensures old(w).helpers.running - {Main} <= w.helpers.running <= old(w).helpers.running
    {
      hide Inv;
      if * {
        Cancel();
      }
      if w.status == CancelledByUser {
        if * {
          RemoveHelper();
        }
        if cfg.pullRequest {
          if * {
            StopPreviewContainers();
          }
        }
      }
    }

    /** Something outside has gone wrong. */
    method Disrupt()
      requires Good()
      modifies this`w
      ensures Good() && w == old(w).Disrupt()
    {
      DisruptKeeps(cfg, buildServerChosen, w);
      hide Inv;
      w := w.Disrupt();
    }

    /** A remote query outside the job's command runner: not held back by a cancellation, but it may throw. */
    method Instant() returns (o: Outcome)
      requires Good()
      modifies this`w
      ensures Good() && Quiet(cfg, old(w), w) && Honest(o, w)
      ensures !w.disrupted ==> w == old(w)
      ensures w.history.commands == old(w).history.commands
      ensures w.helpers.due == old(w).helpers.due && w.helpers.running <= old(w).helpers.running
    {
      Interleave();
      if * {
        Disrupt();
        return Threw(0);
      }
      return Ok;
    }

    /** Running a container command must not take away the last container of a protected application. */
    predicate SafeOn(command: Command, containers: set<string>) {
      && (cfg.Protected() ==> cfg.maxRetries == 0 || Effect(command, containers) != {})
      && (cfg.Rolling() ==> Effect(command, containers) <= cfg.olds + {cfg.newName})
    }

    /** The progress a command stands for is on record. */
    predicate Progressed(command: Command, w: World) {
      && (command == BuildImage ==> w.progress.built)
      && (command == PushImage ==> w.progress.pushed)
      && (command.StartContainer? ==> w.progress.started)
      && (command.StopContainer? ==> command.name in w.progress.stopped)
      && (command.RemoveContainer? ==> command.name in w.progress.removed)
    }

    lemma StaysProgressed(command: Command, a: World, b: World)
      requires Progressed(command, a) && a.progress.UpTo(b.progress)
      ensures Progressed(command, b)
    {
    }

    predicate Recorded(command: Command)
      reads this
    {
      Progressed(command, w)
    }

    predicate Harmless(command: Command)
      reads this
    {
      SafeOn(command, w.containers) && Timely(cfg, command, w)
    }

    /** What sending a command may change: the containers by its effect, the pending helpers by its kind. */
    predicate Sent(command: Command, host: Host, a: World, b: World) {
      && Quiet(cfg, a.(containers := b.containers), b)
      && (cfg.Rolling() || !b.disrupted ==>
           b.containers == a.containers || b.containers == Effect(command, a.containers))
      && (b.helpers.due == a.helpers.due || b.helpers.due == a.DueAfter(command, host))
    }

    lemma NothingSent(command: Command, host: Host, a: World, b: World)
      requires Quiet(cfg, a, b) && b.helpers.due == a.helpers.due
      ensures Sent(command, host, a, b) && (a.disrupted ==> b.disrupted) && a.progress.UpTo(b.progress)
      ensures b.status == a.status || b.status == CancelledByUser
      ensures cfg.Rolling() ==> b.containers == a.containers
    {
    }

    lemma SentAgain(command: Command, host: Host, a: World, b: World, c: World)
      requires Sent(command, host, a, b) && Sent(command, host, b, c)
      ensures Sent(command, host, a, c) && (a.disrupted ==> b.disrupted) && (b.disrupted ==> c.disrupted)
      ensures b.DueAfter(command, host) == a.DueAfter(command, host)
      ensures cfg.Rolling() && c.containers == Effect(command, b.containers) ==>
                c.containers == Effect(command, a.containers)
    {
    }

    lemma StillSafe(command: Command, host: Host, a: World, b: World)
      requires Sent(command, host, a, b) && SafeOn(command, a.containers) && Timely(cfg, command, a)
      ensures SafeOn(command, b.containers) && Timely(cfg, command, b)
    {
    }

    lemma DispatchedState(command: Command, host: Host, works: bool, wrong: bool, a: World)
      requires works || wrong
      ensures var b := a.Dispatch(command, host, works, wrong);
              && b.status == a.status && b.reports == a.reports && b.incomplete == a.incomplete
              && b.disrupted == (a.disrupted || wrong)
              && (!wrong && a.helpers.running == a.helpers.due ==> b.helpers.running == b.helpers.due)
    {
    }

    lemma Dispatched(command: Command, host: Host, works: bool, wrong: bool, a: World)
      ensures var b := a.Dispatch(command, host, works, wrong);
              && Sent(command, host, a, b) && b.status == a.status && b.disrupted == (a.disrupted || wrong)
              && b.helpers.due == a.DueAfter(command, host) && Progressed(command, b)
              && b.containers == (if works then Effect(command, a.containers) else a.containers)
              && b.history.commands == a.history.commands + [Issued(command, host, a.status)]
    {
    }

    /** The command is sent; one that has no effect has gone wrong. */
    method Dispatch(command: Command, host: Host, works: bool, wrong: bool)
      requires Good() && Harmless(command) && w.status != CancelledByUser && cfg.maxRetries > 0
      requires RegularRun() ==> HostOk(buildServerChosen, Issued(command, host, w.status))
      requires works || wrong
      modifies this`w
      ensures Good() && w == old(w).Dispatch(command, host, works, wrong)
    {
      hide Inv;
      hide Effect;
      hide Sent;
      hide World.Dispatch;
      DispatchKeeps(cfg, buildServerChosen, w, command, host, works, wrong);
      DispatchedState(command, host, works, wrong, w);
      w := w.Dispatch(command, host, works, wrong);
    }

    /** A failed command: a cancellation in the meantime counts first, then whether it is worth another try. */
    method JudgeFailure() returns (r: Attempt)
      requires Good() && w.disrupted
      modifies this`w
      ensures Good() && Quiet(cfg, old(w), w) && w.helpers.due == old(w).helpers.due
      ensures w.history.commands == old(w).history.commands
      ensures r.Raised? ==> r.o.Threw? && Honest(r.o, w)
      ensures w.status == CancelledByUser ==> r == Raised(Threw(CANCELLED))
      ensures !r.Raised? ==> r.Lost?
    {
      Interleave();
      if w.status == CancelledByUser {
        return Raised(Threw(CANCELLED));
      }
      if * {
        return Lost;
      }
      return Raised(Threw(0));
    }

    /** One try; a command that fails may or may not have taken effect. */
    method TryOnce(command: Command, host: Host, ignoreErrors: bool) returns (r: Attempt)
      requires Good() && Harmless(command) && w.status != CancelledByUser && cfg.maxRetries > 0
      requires RegularRun() ==> HostOk(buildServerChosen, Issued(command, host, w.status))
      modifies this`w
      ensures Good() && Sent(command, host, old(w), w)
      ensures w.helpers.due == old(w).DueAfter(command, host) && Recorded(command)
      ensures |w.history.commands| == |old(w).history.commands| + 1
      ensures !w.disrupted ==> r.Done? && w.containers == Effect(command, old(w).containers)
      ensures r.Raised? ==> r.o.Threw? && Honest(r.o, w)
      ensures w.status == CancelledByUser ==> r == Raised(Threw(CANCELLED))
      ensures !r.Raised? ==> w.status == old(w).status
      ensures cfg.Rolling() && r.Done? && !ignoreErrors ==> w.containers == Effect(command, old(w).containers)
    {
      hide Inv;
      hide Quiet;
      hide Sent;
      hide SafeOn;
      hide Timely;
      hide Progressed;
      hide Effect;
      var worked: bool, exitZero: bool, timedOut: bool := *, *, *;
      worked := worked || (exitZero && !timedOut);
      var wrong := !worked || timedOut || (!exitZero && !ignoreErrors);
      Dispatched(command, host, worked, wrong, w);
      Dispatch(command, host, worked, wrong);
      if timedOut {
        return Raised(Threw(0));
      }
      if exitZero || ignoreErrors {
        return Done;
      }
      ghost var sent := w;
      r := JudgeFailure();
      NothingSent(command, host, sent, w);
      SentAgain(command, host, old(w), sent, w);
      StaysProgressed(command, sent, w);
    }

    /** After a lost connection the last try gives up; otherwise a cancellation ends the waiting. */
    method BeforeNextTry(lastTry: bool) returns (o: Outcome)
      requires Good() && w.disrupted
      modifies this`w
      ensures Good() && Quiet(cfg, old(w), w) && Honest(o, w)
      ensures w.helpers.due == old(w).helpers.due && w.history.commands == old(w).history.commands
      ensures o.Ok? ==> !lastTry && w.status != CancelledByUser
    {
      hide Inv;
      if lastTry {
        return Threw(0);
      }
      o := CheckForCancellation();
    }

    /** One try, and the wait for the next one. */
    method TryAndWait(command: Command, host: Host, ignoreErrors: bool, lastTry: bool) returns (r: Attempt)
      requires Good() && Harmless(command) && w.status != CancelledByUser && cfg.maxRetries > 0
      requires RegularRun() ==> HostOk(buildServerChosen, Issued(command, host, w.status))
      modifies this`w
      ensures Good() && Sent(command, host, old(w), w)
      ensures w.helpers.due == old(w).DueAfter(command, host) && Recorded(command)
      ensures |w.history.commands| == |old(w).history.commands| + 1
      ensures !w.disrupted ==> r.Done? && w.containers == Effect(command, old(w).containers)
      ensures r.Raised? ==> r.o.Threw? && Honest(r.o, w)
      ensures !r.Raised? ==> w.status == old(w).status
      ensures r.Lost? ==> !lastTry
      ensures cfg.Rolling() && r.Done? && !ignoreErrors ==> w.containers == Effect(command, old(w).containers)
    {
      hide Inv;
      hide Quiet;
      hide Sent;
      hide SafeOn;
      hide Timely;
      hide Progressed;
      hide Effect;
      r := TryOnce(command, host, ignoreErrors);
      if r.Lost? {
        ghost var before := w;
        var waited := BeforeNextTry(lastTry);
        NothingSent(command, host, before, w);
        SentAgain(command, host, old(w), before, w);
        StaysProgressed(command, before, w);
        if waited.Threw? {
          r := Raised(waited);
        }
      }
    }

    /**
     Runs one command. It is not sent if the row is cancelled, and a lost connection is retried.
     With no retries configured nothing is sent and nothing is raised.
     */
    method Exec(command: Command, host: Host, ignoreErrors: bool) returns (o: Outcome)
      requires Good() && Harmless(command)
      requires RegularRun() ==> HostOk(buildServerChosen, Issued(command, host, w.status))
      modifies this`w
      ensures Good() && Honest(o, w) && Sent(command, host, old(w), w)
      ensures cfg.Rolling() && cfg.maxRetries == 0 ==> w.containers == old(w).containers
      ensures cfg.Rolling() && o.Ok? && !ignoreErrors && cfg.maxRetries > 0 ==>
                w.containers == Effect(command, old(w).containers)
      ensures (o.Ok? || w.status != CancelledByUser) && cfg.maxRetries > 0 ==>
                w.helpers.due == old(w).DueAfter(command, host)
      ensures !w.disrupted ==>
                w.containers == if cfg.maxRetries == 0 then old(w).containers else Effect(command, old(w).containers)
      ensures old(w).status == CancelledByUser ==>
                o == Threw(CANCELLED) && w.helpers.due == old(w).helpers.due
                && w.history.commands == old(w).history.commands
      ensures |old(w).history.commands| <= |w.history.commands| <= |old(w).history.commands| + cfg.maxRetries
      ensures (o.Ok? || w.status != CancelledByUser) && cfg.maxRetries > 0 ==> Recorded(command)
    {
      hide Inv;
      hide Quiet;
      hide Sent;
      hide SafeOn;
      hide Timely;
      hide Progressed;
      hide Effect;
      Interleave();
      NothingSent(command, host, old(w), w);
      if cfg.Rolling() {
        QuietContainers(cfg, old(w), w);
      }
      if w.status == CancelledByUser {
        return Threw(CANCELLED);
      }
      var attempt, commandExecuted, lastError := 0, false, false;
      while attempt < cfg.maxRetries && !commandExecuted
        invariant cfg.maxRetries == 0 ==>
                    attempt == 0 && !commandExecuted && !lastError
                    && (cfg.Rolling() ==> w.containers == old(w).containers)
        invariant 0 <= attempt && (cfg.maxRetries > 0 ==> attempt < cfg.maxRetries)
        invariant Good() && Sent(command, host, old(w), w) && w.status != CancelledByUser
        invariant cfg.Rolling() && commandExecuted && !ignoreErrors ==>
                    w.containers == Effect(command, old(w).containers)
        invariant !w.disrupted ==>
                    w.containers == if commandExecuted then Effect(command, old(w).containers) else old(w).containers
        invariant attempt > 0 || commandExecuted ==> w.helpers.due == old(w).DueAfter(command, host)
        invariant |w.history.commands| == |old(w).history.commands| + attempt + if commandExecuted then 1 else 0
        invariant attempt > 0 || commandExecuted ==> Recorded(command)
        decreases cfg.maxRetries - attempt, !commandExecuted
      {
        ghost var before := w;
        StillSafe(command, host, old(w), w);
        var r := TryAndWait(command, host, ignoreErrors, attempt >= cfg.maxRetries - 1);
        SentAgain(command, host, old(w), before, w);
        match r {
          case Done => commandExecuted := true;
          case Raised(raised) => return raised;
          case Lost => attempt, lastError := attempt + 1, true;
        }
      }
      if !commandExecuted && lastError {
        // the row would be set to failed here, without looking at its status; this is never reached
        assert false;
      }
      return Ok;
    }

    // ---------------------------------------------------------------- status transitions

    method CheckForCancellation() returns (o: Outcome)
      requires Good()
      modifies this`w
      ensures Good() && Quiet(cfg, old(w), w) && Honest(o, w)
      ensures w.helpers.due == old(w).helpers.due && w.history.commands == old(w).history.commands
      ensures o.Ok? <==> w.status != CancelledByUser
    {
      Interleave();
      return if w.status == CancelledByUser then Threw(CANCELLED) else Ok;
    }

    /** A terminal row is left alone, a cancelled one raises; otherwise the new status is written and reported. */
    method TransitionToStatus(s: Status) returns (o: Outcome)
      requires Good() && (s == Finished || s == Failed)
      modifies this`w
      ensures Good() && Honest(o, w) && Terminal(w.status)
      ensures cfg.Rolling() || !w.disrupted ==> w.containers == old(w).containers
      ensures old(w).disrupted ==> w.disrupted
      ensures w.history.commands == old(w).history.commands
      ensures w.incomplete == old(w).incomplete && w.helpers.due == old(w).helpers.due
                && old(w).progress.UpTo(w.progress)
      ensures Terminal(old(w).status) ==> w.status == old(w).status
      ensures w.status == CancelledByUser ==> o == Threw(CANCELLED)
      ensures old(w).status == Finished || old(w).status == Failed ==> o.Ok? && w == old(w)
      ensures !Terminal(old(w).status) && w.status != CancelledByUser ==> w.status == s && (o.Ok? <==> !cfg.Throws(s))
    {
      Interleave();
      if w.status == Finished || w.status == Failed {
        return Ok;
      }
      if w.status == CancelledByUser {
        return Threw(CANCELLED);
      }
      hide Inv;
      o := EnterStatus(s);
    }

    /** The status is written, reported, and the next deployment queued. */
    method EnterStatus(s: Status) returns (o: Outcome)
      requires Good() && (s == Finished || s == Failed) && !Terminal(w.status)
      modifies this`w
      ensures Good() && w.status == s && (o.Ok? <==> !cfg.Throws(s)) && Honest(o, w)
      ensures w.history.commands == old(w).history.commands
      ensures w == old(w).(
                status := s, disrupted := old(w).disrupted || cfg.Throws(s), reports := w.reports, history := w.history)
    {
      hide Commands;
      hide InOrder;
      hide StaysUp;
      hide StatusHistory;
      SetStatusKeeps(cfg, buildServerChosen, w, s);
      w := w.SetStatus(s);
      if s == Finished {
        o := HandleSuccessfulDeployment();
      } else {
        o := HandleFailedDeployment();
      }
      if o.Threw? {
        return o;
      }
      var queued := w.reports.(queuedNext := w.reports.queuedNext + 1);
      ReportsKeep(cfg, buildServerChosen, w, queued);
      w := w.(reports := queued);
      return Ok;
    }

    method HandleSuccessfulDeployment() returns (o: Outcome)
      requires Sound() && w.status == Finished && w.reports == Reports(0, 0, 0)
      modifies this`w
      ensures Sound() && w == old(w).(
                disrupted := old(w).disrupted || cfg.successThrows,
                reports := old(w).reports.(successSent := w.reports.successSent))
      ensures !cfg.successThrows ==> w.reports.successSent == 1
      ensures o == if cfg.successThrows then Threw(0) else Ok
    {
      hide Commands;
      hide InOrder;
      hide StaysUp;
      hide StatusHistory;
      var sent := w.reports.(successSent := w.reports.successSent + 1);
      ReportsKeep(cfg, buildServerChosen, w, sent);
      if cfg.successThrows {
        if * {
          w := w.(reports := sent);
        }
        DisruptKeeps(cfg, buildServerChosen, w);
        w := w.Disrupt();
        return Threw(0);
      }
      w := w.(reports := sent);
      return Ok;
    }

    method HandleFailedDeployment() returns (o: Outcome)
      requires Sound() && w.status == Failed && w.reports == Reports(0, 0, 0)
      modifies this`w
      ensures Sound() && w == old(w).(
                disrupted := old(w).disrupted || cfg.failureThrows,
                reports := old(w).reports.(failureSent := w.reports.failureSent))
      ensures !cfg.failureThrows ==> w.reports.failureSent == 1
      ensures o == if cfg.failureThrows then Threw(0) else Ok
    {
      hide Commands;
      hide InOrder;
      hide StaysUp;
      hide StatusHistory;
      var sent := w.reports.(failureSent := w.reports.failureSent + 1);
      ReportsKeep(cfg, buildServerChosen, w, sent);
      if cfg.failureThrows {
        if * {
          w := w.(reports := sent);
        }
        DisruptKeeps(cfg, buildServerChosen, w);
        w := w.Disrupt();
        return Threw(0);
      }
      w := w.(reports := sent);
      return Ok;
    }

    // ---------------------------------------------------------------- helper container and servers

    /** A command on the current server that touches no container. */
    method Plain() returns (o: Outcome)
      requires Good()
      modifies this`w
      ensures Good() && Quiet(cfg, old(w), w) && Honest(o, w) && w.helpers.due == old(w).helpers.due
    {
      o := Exec(Other, server, false);
    }

    /** Stops the helper container on the current server; an exception is only logged. */
    method ShutdownHelper()
      requires Good()
      modifies this`w
      ensures Good() && Quiet(cfg, old(w), w)
      ensures w.status != CancelledByUser && cfg.maxRetries > 0 ==> w.helpers.due == old(w).helpers.due - {server}
      ensures old(w).status == CancelledByUser ==> w.helpers.due == old(w).helpers.due
      ensures w.helpers.due <= old(w).helpers.due
    {
      var o := Exec(StopHelper, server, true);
    }

    /** Files are copied to the main server; afterwards a build goes on where it was. */
    method CopyToMain(withReadme: bool) returns (o: Outcome)
      requires Good()
      modifies this`w, this`server
      ensures Good() && Quiet(cfg, old(w), w) && Honest(o, w) && w.helpers.due == old(w).helpers.due
      ensures !useBuildServer ==> server == old(server)
      ensures o.Ok? && useBuildServer ==> server == Build
    {
      hide Inv;
      if useBuildServer {
        server := Main;
      }
      :- Plain();
      :- Plain();
      if withReadme {
        :- Plain();
      }
      if useBuildServer {
        server := Build;
      }
      return Ok;
    }

    method WriteDeploymentConfigurations() returns (o: Outcome)
      requires Good()
      modifies this`w, this`server
      ensures Good() && Quiet(cfg, old(w), w) && Honest(o, w) && w.helpers.due == old(w).helpers.due
      ensures !useBuildServer ==> server == old(server)
      ensures o.Ok? ==> server == old(server) || (useBuildServer && server == Build)
    {
      hide Inv;
      var preserveRepository: bool, composeFileKnown: bool := *, *;
      if preserveRepository {
        :- CopyToMain(false);
      }
      if composeFileKnown {
        :- CopyToMain(true);
      }
      return Ok;
    }

    method CreateWorkdir() returns (o: Outcome)
      requires Good()
      modifies this`w, this`server
      ensures Good() && Quiet(cfg, old(w), w) && Honest(o, w)
      ensures o.Ok? ==> server == if useBuildServer then Build else old(server)
    {
      if useBuildServer {
        server := Main;
        :- Plain();
        server := Build;
        :- Plain();
        :- Plain();
      } else {
        :- Plain();
        :- Plain();
      }
      return Ok;
    }

    /** The server is looked at before its helper starts; a build server must be logged in to a registry. */
    method LookAtServer() returns (o: Outcome)
      requires Good()
      modifies this`w
      ensures Good() && Quiet(cfg, old(w), w) && Honest(o, w)
    {
      hide Inv;
      :- Instant();
      :- Instant();
      var dockerConfigFileExists: bool := *;
      if useBuildServer && !dockerConfigFileExists {
        Disrupt();
        return Threw(0);
      }
      return Ok;
    }

    /** The helper is started anew on the current server. */
    method StartHelperContainer() returns (o: Outcome)
      requires Good() && AtTarget()
      modifies this`w
      ensures Good() && Quiet(cfg, old(w), w) && Honest(o, w)
      ensures o.Ok? && cfg.maxRetries > 0 ==> server in w.helpers.due && (!w.disrupted ==> server in w.helpers.running)
    {
      hide Inv;
      ShutdownHelper();
      UpNow(cfg, buildServerChosen, w);
      :- Exec(StartHelper, server, false);
      :- Plain();
      return Ok;
    }

    method PrepareBuilderImage() returns (o: Outcome)
      requires Good() && AtTarget()
      modifies this`w
      ensures Good() && Quiet(cfg, old(w), w) && Honest(o, w)
      ensures o.Ok? && cfg.maxRetries > 0 ==> server in w.helpers.due && (!w.disrupted ==> server in w.helpers.running)
    {
      hide Inv;
      :- CheckForCancellation();
      :- LookAtServer();
      :- StartHelperContainer();
      var preDeploymentCommand: bool := *;
      if preDeploymentCommand {
        :- Instant();
        :- Plain();
      }
      return Ok;
    }

    method CheckGitIfBuildNeeded() returns (o: Outcome)
      requires Good() && AtTarget()
      modifies this`w
      ensures Good() && Quiet(cfg, old(w), w) && Honest(o, w)
    {
      hide Inv;
      :- Plain();
      var restartHelper: bool := *;
      if restartHelper {
        ShutdownHelper();
        :- PrepareBuilderImage();
      }
      return Ok;
    }

    method CloneRepository() returns (o: Outcome)
      requires Good()
      modifies this`w, this`server
      ensures Good() && Quiet(cfg, old(w), w) && Honest(o, w)
      ensures o.Ok? ==> server == if useBuildServer then Build else old(server)
    {
      hide Inv;
      :- Plain();
      :- CreateWorkdir();
      :- Plain();
      return Ok;
    }

    method GenerateComposeFile() returns (o: Outcome)
      requires Good()
      modifies this`w, this`server
      ensures Good() && Quiet(cfg, old(w), w) && Honest(o, w)
      ensures o.Ok? ==> server == if useBuildServer then Build else old(server)
    {
      hide Inv;
      :- CheckForCancellation();
      :- CreateWorkdir();
      :- Plain();
      return Ok;
    }

    method BuildTheImage() returns (o: Outcome)
      requires Good() && AtTarget()
      modifies this`w
      ensures Good() && Quiet(cfg, old(w), w) && Honest(o, w)
      ensures o.Ok? && cfg.maxRetries > 0 ==> w.progress.built
    {
      hide Inv;
      :- Plain();
      UpNow(cfg, buildServerChosen, w);
      :- Exec(BuildImage, server, false);
      return Ok;
    }

    /** One command on the main server; afterwards a build goes on where it was. */
    method OnMain() returns (o: Outcome)
      requires Good()
      modifies this`w, this`server
      ensures Good() && Quiet(cfg, old(w), w) && Honest(o, w)
      ensures o.Ok? ==> server == if useBuildServer then Build else old(server)
    {
      hide Inv;
      if useBuildServer {
        server := Main;
      }
      o := Plain();
      if o.Ok? && useBuildServer {
        server := Build;
      }
    }

    /** The runtime .env file goes next to the build and, on the main server, into the configuration directory. */
    method SaveRuntimeEnvironmentVariables() returns (o: Outcome)
      requires Good()
      modifies this`w, this`server
      ensures Good() && Quiet(cfg, old(w), w) && Honest(o, w)
      ensures o.Ok? ==> server == if useBuildServer then Build else old(server)
    {
      hide Inv;
      var noVariables: bool := *;
      if noVariables && cfg.buildPack != DockerCompose && cfg.buildPack != DockerImage {
        if useBuildServer {
          :- OnMain();
        }
        o := Plain();
        return;
      }
      :- Plain();
      o := OnMain();
    }

    method PushToDockerRegistry() returns (o: Outcome)
      requires Good() && AtTarget()
      modifies this`w
      ensures Good() && Quiet(cfg, old(w), w) && Honest(o, w)
      ensures o.Ok? && cfg.maxRetries > 0 && cfg.Pushes() && !restartOnly ==> w.progress.pushed
    {
      hide Inv;
      if !cfg.hasRegistry || restartOnly || cfg.buildPack == DockerImage || cfg.additionalServer {
        return Ok;
      }
      :- Instant();
      UpNow(cfg, buildServerChosen, w);
      :- Exec(PushImage, server, false);
      return Ok;
    }

    method CheckImageLocallyOrRemotely() returns (o: Outcome)
      requires Good()
      modifies this`w, this`imageFound
      ensures Good() && Quiet(cfg, old(w), w) && Honest(o, w)
    {
      hide Inv;
      :- Plain();
      imageFound := *;
      if !imageFound && cfg.hasRegistry {
        :- Plain();
        :- Plain();
        imageFound := *;
      }
      return Ok;
    }

    // ---------------------------------------------------------------- containers

    predicate Reported()
      reads this
    {
      w.status == Finished || w.status == Failed
    }

    /** The old containers are all still there. */
    predicate Intact()
      reads this
    {
      cfg.Rolling() ==> cfg.olds <= w.containers
    }

    /** As long as nothing goes wrong the containers are the ones the deployment began with. */
    predicate Untouched()
      reads this
    {
      !w.disrupted ==> w.containers == cfg.olds
    }

    /**
     If nothing went wrong, the new container has replaced what it should: the container whose name it
     keeps, or else all of them.
     */
    predicate Replaced()
      reads this
    {
      cfg.maxRetries > 0 && !w.disrupted ==>
        && (cfg.KeepsName() ==> consistentName)
        && w.containers == if consistentName then cfg.olds + {cfg.newName} else {cfg.newName}
    }

    /** The new container was told to start, and runs unless something went wrong. */
    predicate Started()
      reads this
    {
      cfg.maxRetries > 0 ==> w.progress.started && (!w.disrupted ==> cfg.newName in w.containers)
    }

    /** A build that was due was made, and pushed where it should be. */
    predicate Built()
      reads this
    {
      cfg.maxRetries > 0 && !cfg.PullsImage() && (cfg.AlwaysBuilds() || !imageFound) ==>
        w.progress.built && (cfg.Pushes() ==> w.progress.pushed)
    }

    /** All of the results leave the matter open. */
    static predicate AllUndecided(results: seq<ProbeResult>) {
      forall i | 0 <= i < |results| :: results[i] == Undecided
    }

    /** The seconds slept when n probes were followed by a pause. */
    function SleptAfter(n: nat): nat {
      cfg.startPeriod + n * cfg.interval
    }

    /**
     The health check has been carried through: if it is on, probes were made up to the first
     decisive one or up to the limit, with the start period before and an interval after every
     undecided one, and the new version is healthy exactly if the decisive one says so.
     */
    predicate Judged()
      reads this`newVersionIsHealthy, this`probes, this`slept
    {
      if cfg.healthcheckOff then newVersionIsHealthy && probes == [] && slept == 0
      else
        && |probes| <= cfg.retries
        && (|probes| > 0 ==> AllUndecided(probes[..|probes| - 1]))
        && (newVersionIsHealthy <==> |probes| > 0 && probes[|probes| - 1] == Healthy)
        && (AllUndecided(probes) ==> |probes| == cfg.retries)
        && slept == SleptAfter(if AllUndecided(probes) then |probes| else |probes| - 1)
    }

    predicate Accepted()
      reads this`newVersionIsHealthy, this`probes, this`slept
    {
      newVersionIsHealthy && Judged()
    }

    /** The new container has taken over; unless cancelled or a removal failed, it is the only one. */
    predicate Switched()
      reads this
    {
      cfg.Rolling() ==>
        && Accepted()
        && (cfg.maxRetries > 0 ==>
              && cfg.newName in w.containers
              && (w.status != CancelledByUser && !w.incomplete ==> w.containers == {cfg.newName}))
    }

    /**
     The row says failed, for a reason; the old containers are there, and unless a removal failed
     the new one is gone.
     */
    predicate RolledBack()
      reads this
    {
      && w.status == Failed
      && (w.disrupted || (!newVersionIsHealthy && Judged() && (cfg.Rolling() || cfg.buildPack == DockerCompose)))
      && (cfg.Rolling() ==> cfg.olds <= w.containers && (!w.incomplete ==> w.containers == cfg.olds))
    }

    lemma StoppedThenRemoved(name: string, host: Host, a: World, b: World, c: World)
      requires Sent(StopContainer(name), host, a, b) && Sent(RemoveContainer(name), host, b, c)
      ensures b.disrupted ==> c.disrupted
      ensures b.progress.UpTo(c.progress) && (c.status != CancelledByUser ==> b.status != CancelledByUser)
      ensures Quiet(cfg, a.(containers := c.containers), c)
      ensures cfg.Rolling() || !c.disrupted ==> c.containers == a.containers || c.containers == a.containers - {name}
    {
    }

    lemma NotThere(name: string, containers: set<string>)
      ensures name !in Effect(RemoveContainer(name), containers)
    {
    }

    lemma StillSafeToRemove(name: string, host: Host, a: World, b: World)
      requires Sent(StopContainer(name), host, a, b) && SafeOn(StopContainer(name), a.containers)
      ensures SafeOn(RemoveContainer(name), b.containers)
      ensures Sent(RemoveContainer(name), host, b, b)
    {
    }

    /** Stops and removes a container; an exception is only logged. */
    method GracefulShutdownContainer(name: string)
      requires Good() && Harmless(StopContainer(name)) && (RegularRun() ==> server == Main)
      modifies this`w
      ensures Good()
      ensures Quiet(cfg, old(w).(containers := w.containers, incomplete := w.incomplete), w)
      ensures w.incomplete == (old(w).incomplete || (w.status != CancelledByUser && name in w.containers))
      ensures !w.disrupted && cfg.maxRetries > 0 ==> name !in w.containers
      ensures cfg.maxRetries > 0 ==> ToldToGo(name)
      ensures cfg.Rolling() || !w.disrupted ==>
                w.containers == old(w).containers || w.containers == old(w).containers - {name}
      ensures cfg.Rolling() && cfg.maxRetries == 0 ==> w.containers == old(w).containers
    {
      StopAndRemove(name);
      if w.status != CancelledByUser && name in w.containers {
        IncompleteKeeps(cfg, buildServerChosen, w);
        hide Inv;
        w := w.(incomplete := true);
      }
    }

    /** The container was told to stop unless the row is cancelled; if nothing went wrong it was removed, too. */
    predicate ToldToGo(name: string)
      reads this
    {
      && (w.status != CancelledByUser ==> name in w.progress.stopped)
      && (!w.disrupted ==> name in w.progress.removed)
    }

    method StopAndRemove(name: string)
      requires Good() && Harmless(StopContainer(name)) && (RegularRun() ==> server == Main)
      modifies this`w
      ensures Good() && Quiet(cfg, old(w).(containers := w.containers), w)
      ensures cfg.maxRetries > 0 ==> ToldToGo(name)
      ensures !w.disrupted && cfg.maxRetries > 0 ==> name !in w.containers
      ensures cfg.Rolling() || !w.disrupted ==>
                w.containers == old(w).containers || w.containers == old(w).containers - {name}
      ensures cfg.Rolling() && cfg.maxRetries == 0 ==> w.containers == old(w).containers
    {
      hide Inv;
      hide Quiet;
      hide Sent;
      hide SafeOn;
      hide Effect;
      var o := Exec(StopContainer(name), server, true);
      ghost var stopped := w;
      StillSafeToRemove(name, server, old(w), w);
      NotThere(name, w.containers);
      if o.Ok? {
        o := Exec(RemoveContainer(name), server, true);
      }
      StoppedThenRemoved(name, server, old(w), stopped, w);
    }

    method PullLatest() returns (o: Outcome)
      requires Good()
      modifies this`w
      ensures Good() && Quiet(cfg, old(w), w) && Honest(o, w)
    {
      hide Inv;
      :- Plain();
      if cfg.buildPack == DockerImage {
        :- Plain();
      }
      return Ok;
    }

    lemma StillMayStart(a: World, b: World)
      requires Quiet(cfg, a, b) && MayStart(cfg, a)
      ensures MayStart(cfg, b)
    {
    }

    method StartByComposeFile() returns (o: Outcome)
      requires Good() && (RegularRun() ==> server == Main) && MayStart(cfg, w)
      modifies this`w
      ensures Good() && Honest(o, w)
      ensures Quiet(cfg, old(w).(containers := w.containers), w)
      ensures cfg.Rolling() || !w.disrupted ==>
                w.containers == old(w).containers || w.containers == old(w).containers + {cfg.newName}
      ensures cfg.Rolling() && o.Ok? && cfg.maxRetries > 0 ==> cfg.newName in w.containers
      ensures o.Ok? ==> Started()
    {
      hide Inv;
      hide MayStart;
      :- PullLatest();
      StillMayStart(old(w), w);
      UpNow(cfg, buildServerChosen, w);
      :- Exec(StartContainer(cfg.newName), server, false);
      return Ok;
    }

    method Sleep(seconds: nat)
      modifies this`slept
      ensures slept == old(slept) + seconds
    {
      var sleeptime := 0;
      while sleeptime < seconds
        invariant 0 <= sleeptime <= seconds && slept == old(slept) + sleeptime
      {
        slept := slept + 1;
        sleeptime := sleeptime + 1;
      }
    }

    method QueryLogs() returns (o: Outcome)
      requires Good()
      modifies this`w
      ensures Good() && Quiet(cfg, old(w), w) && Honest(o, w)
    {
      o := Exec(Other, server, true);
    }

    /** One probe: status and log of the new container's health. */
    method ProbeHealth() returns (o: Outcome, result: ProbeResult)
      requires Good() && (RegularRun() ==> server == Main)
      modifies this`w
      ensures Good() && Quiet(cfg, old(w), w) && Honest(o, w)
    {
      result := Undecided;
      o := Exec(Probe, server, false);
      if o.Threw? {
        return;
      }
      o := Exec(Probe, server, false);
      if cfg.maxRetries > 0 {
        result := *;
      }
    }

    lemma SleptGrows(n: nat)
      requires n < cfg.retries
      ensures SleptAfter(n) + cfg.interval == SleptAfter(n + 1) <= SleptAfter(cfg.retries)
    {
    }

    /** One round of the check: a probe, and a pause if it left the matter open. */
    method HealthRound() returns (o: Outcome, result: ProbeResult)
      requires Good() && (RegularRun() ==> server == Main) && !newVersionIsHealthy && |probes| < cfg.retries
      requires AllUndecided(probes) && slept == SleptAfter(|probes|)
      modifies this`w, this`newVersionIsHealthy, this`probes, this`slept
      ensures Good() && Quiet(cfg, old(w), w) && Honest(o, w)
      ensures probes == old(probes) || probes == old(probes) + [result]
      ensures slept <= SleptAfter(cfg.retries)
      ensures o.Ok? ==> probes == old(probes) + [result] && (newVersionIsHealthy <==> result == Healthy)
      ensures o.Ok? && result != Undecided ==> slept == old(slept)
      ensures o.Ok? && result == Undecided ==> slept == SleptAfter(|probes|)
    {
      hide Inv;
      SleptGrows(|probes|);
      hide SleptAfter;
      o, result := ProbeHealth();
      if o.Threw? {
        return;
      }
      probes := probes + [result];
      if result == Healthy {
        newVersionIsHealthy := true;
      } else if result == Unhealthy {
        newVersionIsHealthy := false;
        o := QueryLogs();
      } else {
        Sleep(cfg.interval);
      }
    }

    /**
     The health check. If it ends normally, the new version counts as healthy exactly when the
     first decisive probe within the allowed number says so; it probes and sleeps within bounds.
     */
    method HealthCheck() returns (o: Outcome)
      requires Good() && (RegularRun() ==> server == Main) && !newVersionIsHealthy && probes == [] && slept == 0
      modifies this`w, this`newVersionIsHealthy, this`probes, this`slept
      ensures Good() && Quiet(cfg, old(w), w) && Honest(o, w)
      ensures |probes| <= cfg.retries && slept <= SleptAfter(cfg.retries)
      ensures cfg.healthcheckOff ==> o.Ok?
      ensures o.Ok? ==> Judged()
    {
      hide Inv;
      if cfg.healthcheckOff {
        newVersionIsHealthy := true;
        return Ok;
      }
      Sleep(cfg.startPeriod);
      assert slept == SleptAfter(0) <= SleptAfter(cfg.retries) by {
        assert 0 * cfg.interval <= cfg.retries * cfg.interval;
      }
      hide SleptAfter;
      var counter := 1;
      var last := Undecided;
      while counter <= cfg.retries && last == Undecided
        invariant 1 <= counter && slept <= SleptAfter(cfg.retries) && |probes| <= cfg.retries
        invariant Good() && Quiet(cfg, old(w), w)
        invariant last == Undecided ==>
                    counter == |probes| + 1 && AllUndecided(probes) && slept == SleptAfter(|probes|)
                    && !newVersionIsHealthy
        invariant last != Undecided ==>
                    && |probes| > 0 && probes[|probes| - 1] == last && AllUndecided(probes[..|probes| - 1])
                    && (newVersionIsHealthy <==> last == Healthy) && slept == SleptAfter(|probes| - 1)
        decreases cfg.retries - counter, last == Undecided
      {
        ghost var undecided := probes;
        o, last := HealthRound();
        assert (undecided + [last])[..|undecided|] == undecided;
        if o.Threw? {
          return;
        }
        if last == Undecided {
          counter := counter + 1;
        }
      }
      if last == Undecided {
        var stillStarting: bool := *;
        if stillStarting {
          :- QueryLogs();
        }
      }
      return Ok;
    }

    lemma OldIsHarmless(name: string)
      requires Good() && (cfg.Rolling() && cfg.maxRetries > 0 ==> cfg.newName in w.containers && name != cfg.newName)
      ensures Harmless(StopContainer(name))
    {
      assert cfg.Rolling() && cfg.maxRetries > 0 ==> cfg.newName in w.containers - {name};
    }

    /** The containers that are looked up to be stopped: a preview's are, whatever their names. */
    function Listed(containers: set<string>): set<string> {
      if cfg.pullRequest then containers else containers - {cfg.newName}
    }

    /** If nothing went wrong, the listed ones of these containers were told to stop and are gone, and only they. */
    predicate ListedAreGone(before: set<string>)
      reads this
    {
      cfg.maxRetries > 0 && !w.disrupted ==>
        Listed(before) <= w.progress.stopped && w.containers == before - Listed(before)
    }

    /** What stopping the running container has done to these containers. */
    predicate CameDown(before: set<string>)
      reads this
    {
      cfg.maxRetries > 0 ==>
        if consistentName then ToldToGo(cfg.newName) && (!w.disrupted ==> w.containers == before - {cfg.newName})
        else ListedAreGone(before)
    }

    /** After that the new container may start, if nothing else happened to the old ones before. */
    lemma DownMayStart(before: set<string>)
      requires Sound() && CameDown(before) && (!w.disrupted ==> before == cfg.olds)
      requires cfg.KeepsName() ==> consistentName
      ensures MayStart(cfg, w)
    {
      hide Inv;
    }

    /** The application's containers that are not the new one are listed and stopped. */
    method StopOldContainers()
      requires Good() && (RegularRun() ==> server == Main)
      requires cfg.Rolling() && cfg.maxRetries > 0 ==> cfg.newName in w.containers
      modifies this`w
      ensures Good()
      ensures Quiet(cfg, old(w).(containers := w.containers, incomplete := w.incomplete), w)
      ensures cfg.Rolling() && cfg.maxRetries > 0 ==>
                && cfg.newName in w.containers
                && (w.status != CancelledByUser && !w.incomplete ==> w.containers == {cfg.newName})
      ensures !cfg.pullRequest && !w.disrupted && cfg.newName in old(w).containers ==> cfg.newName in w.containers
      ensures ListedAreGone(old(w).containers)
    {
      var listing := Instant();
      if listing.Threw? {
        IncompleteKeeps(cfg, buildServerChosen, w);
        hide Inv;
        w := w.(incomplete := true);
        return;
      }
      hide Inv;
      StopEach(Listed(w.containers));
    }

    /** The listed containers are stopped one by one, in the order they come. */
    method StopEach(listed: set<string>)
      requires Good() && (RegularRun() ==> server == Main)
      requires cfg.Rolling() && cfg.maxRetries > 0 ==> cfg.newName in w.containers
      requires !cfg.pullRequest ==> cfg.newName !in listed && w.containers <= listed + {cfg.newName}
      modifies this`w
      ensures Good()
      ensures Quiet(cfg, old(w).(containers := w.containers, incomplete := w.incomplete), w)
      ensures cfg.Rolling() && cfg.maxRetries > 0 ==>
                && cfg.newName in w.containers
                && (w.status != CancelledByUser && !w.incomplete ==> w.containers == {cfg.newName})
      ensures !cfg.pullRequest && !w.disrupted && cfg.newName in old(w).containers ==> cfg.newName in w.containers
      ensures cfg.maxRetries > 0 && !w.disrupted ==>
                listed <= w.progress.stopped && w.containers == old(w).containers - listed
    {
      hide Inv;
      hide SafeOn;
      hide Effect;
      var todo := listed;
      while todo != {}
        invariant Good() && Quiet(cfg, old(w).(containers := w.containers, incomplete := w.incomplete), w)
        invariant todo <= listed
        invariant cfg.Rolling() && cfg.maxRetries > 0 ==> cfg.newName in w.containers
        invariant !cfg.pullRequest && !w.disrupted && cfg.newName in old(w).containers ==> cfg.newName in w.containers
        invariant cfg.Rolling() && w.status != CancelledByUser && !w.incomplete ==> w.containers <= todo + {cfg.newName}
        invariant cfg.maxRetries > 0 && !w.disrupted ==>
                    listed - todo <= w.progress.stopped && w.containers == old(w).containers - (listed - todo)
        decreases todo
      {
        var name :| name in todo;
        OldIsHarmless(name);
        GracefulShutdownContainer(name);
        todo := todo - {name};
      }
    }

    method StopRunningContainer(force: bool) returns (o: Outcome)
      requires Good() && !Reported() && (RegularRun() ==> server == Main)
      requires cfg.Rolling() ==> !force
      requires !force ==> !cfg.fixedName && !cfg.pullRequest && (cfg.Rolling() || cfg.buildPack == DockerCompose)
      requires cfg.Rolling() && newVersionIsHealthy ==>
                 Accepted() && (cfg.maxRetries > 0 ==> cfg.newName in w.containers)
      requires !newVersionIsHealthy ==> Intact() && (!force ==> Judged())
      modifies this`w, this`rollbackReached
      ensures Good() && Honest(o, w)
      ensures old(w).disrupted ==> w.disrupted
      ensures newVersionIsHealthy || force ==> o.Ok? && Switched() && !Reported() && CameDown(old(w).containers)
      ensures newVersionIsHealthy && !force && !w.disrupted && cfg.newName in old(w).containers ==>
                cfg.newName in w.containers
      ensures !newVersionIsHealthy && !force ==>
                if o.Ok? then RolledBack()
                else
                  && Intact() && rollbackReached
                  && (w.status == CancelledByUser || (w.status == Failed && cfg.failureThrows))
      ensures old(w).progress.UpTo(w.progress)
    {
      hide Inv;
      if newVersionIsHealthy || force {
        StopReplaced();
        return Ok;
      }
      o := RollBack();
    }

    /** The container whose name is kept is stopped, or else the listed ones. */
    method StopReplaced()
      requires Good() && !Reported() && (RegularRun() ==> server == Main)
      requires cfg.Rolling() ==> Accepted() && (cfg.maxRetries > 0 ==> cfg.newName in w.containers)
      modifies this`w
      ensures Good() && Switched() && !Reported() && CameDown(old(w).containers)
      ensures old(w).disrupted ==> w.disrupted
      ensures !consistentName && !cfg.pullRequest && !w.disrupted && cfg.newName in old(w).containers ==>
                cfg.newName in w.containers
      ensures old(w).progress.UpTo(w.progress)
    {
      hide Inv;
      if consistentName {
        GracefulShutdownContainer(cfg.newName);
      } else {
        StopOldContainers();
      }
    }

    /** The row is failed; then the new container is removed. */
    method RollBack() returns (o: Outcome)
      requires Good() && !Reported() && (RegularRun() ==> server == Main)
      requires cfg.Rolling() || cfg.buildPack == DockerCompose
      requires !newVersionIsHealthy && Intact() && Judged()
      modifies this`w, this`rollbackReached
      ensures Good() && Honest(o, w)
      ensures old(w).disrupted ==> w.disrupted
      ensures if o.Ok? then RolledBack()
              else
                && Intact() && rollbackReached
                && (w.status == CancelledByUser || (w.status == Failed && cfg.failureThrows))
      ensures old(w).progress.UpTo(w.progress)
    {
      hide Inv;
      o := TransitionToStatus(Failed);
      rollbackReached := true;
      if o.Threw? {
        return;
      }
      UpNow(cfg, buildServerChosen, w);
      GracefulShutdownContainer(cfg.newName);
      return Ok;
    }

    /** With a build server the configurations are written from there; then the main server takes over. */
    method ToMainServer() returns (o: Outcome)
      requires Good()
      modifies this`w, this`server
      ensures Good() && Quiet(cfg, old(w), w) && Honest(o, w)
      ensures o.Ok? ==> server == if useBuildServer then Main else old(server)
      ensures !useBuildServer ==> server == old(server)
    {
      hide Inv;
      :- CheckForCancellation();
      if useBuildServer {
        :- WriteDeploymentConfigurations();
        server := Main;
      }
      return Ok;
    }

    method RollingUpdate() returns (o: Outcome)
      requires Good() && !Reported() && Intact() && Untouched() && !cfg.ComposePath()
      requires RegularRun() && !useBuildServer ==> server == Main
      requires cfg.pullRequest || (!newVersionIsHealthy && probes == [] && slept == 0)
      modifies this`w, this`server, this`newVersionIsHealthy, this`consistentName, this`probes, this`slept,
               this`rollbackReached
      ensures Good() && Honest(o, w)
      ensures o.Ok? ==> (Switched() && !Reported() && Started() && Replaced()) || RolledBack()
      ensures o.Threw? ==> Intact() && (!Reported() || (w.status == Failed && cfg.failureThrows))
      ensures useBuildServer ==> o.Ok? ==> server == Main
      ensures !useBuildServer ==> server == old(server)
      ensures old(w).progress.UpTo(w.progress)
    {
      hide Inv;
      hide Switched;
      hide Started;
      hide Replaced;
      hide RolledBack;
      hide Judged;
      :- ToMainServer();
      if cfg.portsOrAddress || cfg.fixedName || cfg.pullRequest {
        o := StopThenStart();
      } else {
        o := StartCheckAndSwitch();
      }
    }

    /** Without a rolling update the running container is stopped first; a preview has a fixed name from here on. */
    method StopThenStart() returns (o: Outcome)
      requires Good() && !Reported() && !cfg.Rolling() && (RegularRun() ==> server == Main)
      requires Untouched() && !cfg.ComposePath()
      requires cfg.portsOrAddress || cfg.fixedName || cfg.pullRequest
      modifies this`w, this`consistentName, this`rollbackReached
      ensures Good() && Honest(o, w) && !Reported()
      ensures o.Ok? ==> Switched() && Started() && Replaced()
      ensures old(w).progress.UpTo(w.progress)
    {
      hide Inv;
      if cfg.pullRequest {
        consistentName := true;
      }
      var stopped := StopRunningContainer(true);
      DownMayStart(old(w).containers);
      hide MayStart;
      o := StartByComposeFile();
    }

    /** The rolling part: start the new container, check it, and let it take over or be removed. */
    method StartCheckAndSwitch() returns (o: Outcome)
      requires Good() && !Reported() && Intact() && (RegularRun() ==> server == Main)
      requires Untouched() && !cfg.ComposePath()
      requires !cfg.fixedName && !cfg.pullRequest && !cfg.portsOrAddress
      requires !newVersionIsHealthy && probes == [] && slept == 0
      modifies this`w, this`newVersionIsHealthy, this`probes, this`slept, this`rollbackReached
      ensures Good() && Honest(o, w)
      ensures o.Ok? ==> (Switched() && !Reported() && Started() && Replaced()) || RolledBack()
      ensures o.Threw? ==> Intact() && (!Reported() || (w.status == Failed && cfg.failureThrows))
      ensures old(w).progress.UpTo(w.progress)
    {
      hide Inv;
      hide Judged;
      hide SleptAfter;
      :- StartByComposeFile();
      :- HealthCheck();
      :- StopRunningContainer(false);
      return Ok;
    }

    // ---------------------------------------------------------------- the deployment paths

    /** Where a deployment may stand when an exception leaves it. */
    predicate ThrewState()
      reads this
    {
      || (w.status == CancelledByUser && (Intact() || Switched()))
      || (!Terminal(w.status) && Intact())
      || (cfg.successThrows && w.status == Finished && Switched() && Started() && Built())
      || (cfg.failureThrows && w.status == Failed && Intact())
    }

    /** Where it stands when its containers are done. */
    predicate Deployed()
      reads this
    {
      (Switched() && !Reported() && Started() && Replaced() && Built()) || RolledBack()
    }

    /** Where it stands when it is complete. */
    predicate Completed()
      reads this
    {
      (w.status == Finished && !cfg.successThrows && Switched() && Started() && Replaced() && Built()) || RolledBack()
    }

    /** The health check has not run yet, except that a preview counts as healthy from the start. */
    predicate Unchecked()
      reads this
    {
      probes == [] && slept == 0 && (newVersionIsHealthy ==> cfg.pullRequest)
    }

    /** Ready for a deployment path. */
    predicate Ready()
      reads this
    {
      && Good() && !jobFailed && !Reported() && Intact() && Untouched() && Unchecked()
      && (restartOnly ==> cfg.RestartOnly()) && consistentName == cfg.fixedName
    }

    /** At the start of a path the current server is the main one, unless the run is one no path is made for. */
    predicate AtMain()
      reads this
    {
      RegularRun() ==> server == Main
    }

    method DecideWhatToDo() returns (o: Outcome)
      requires Ready() && AtMain()
      modifies this
      ensures Good() && Honest(o, w) && (jobFailed ==> !cfg.Rolling())
      ensures if o.Ok? then Completed() else ThrewState()
      decreases restartOnly, 3
    {
      hide Inv;
      if restartOnly {
        o := JustRestart();
        return;
      } else if cfg.pullRequest {
        :- DeployPullRequest();
      } else if cfg.inlineDockerfile {
        :- DeploySimpleDockerfile();
      } else if cfg.buildPack == DockerCompose {
        :- DeployDockerComposeBuildpack();
      } else if cfg.buildPack == DockerImage {
        :- DeployDockerImageBuildpack();
      } else {
        :- DeployFromRepository();
      }
      o := PostDeployment();
    }

    method CompleteDeployment() returns (o: Outcome)
      requires Good() && (Deployed() || Completed())
      modifies this`w
      ensures Good() && Honest(o, w)
      ensures if o.Ok? then Completed() else ThrewState()
    {
      hide Inv;
      o := TransitionToStatus(Finished);
    }

    /** The row is completed first; what follows can no longer fail the deployment. */
    method PostDeployment() returns (o: Outcome)
      requires Good() && (Deployed() || Completed())
      modifies this`w
      ensures Good() && Honest(o, w)
      ensures if o.Ok? then Completed() else ThrewState()
    {
      hide Inv;
      :- CompleteDeployment();
      var postDeploymentCommand: bool := *;
      if postDeploymentCommand {
        var listed := Instant();
        if listed.Ok? {
          var ignored := Plain();
        }
      }
      return Ok;
    }

    /**
     Restarts from the existing image. The helper runs on the main server; the build server is out of
     play meanwhile.
     */
    method JustRestart() returns (o: Outcome)
      requires Ready() && AtMain() && restartOnly
      modifies this
      ensures Good() && Honest(o, w) && (jobFailed ==> !cfg.Rolling())
      ensures if o.Ok? then Completed() else ThrewState()
      decreases restartOnly, 2
    {
      hide Inv;
      var originalUseBuildServer := useBuildServer;
      useBuildServer := false;
      :- PrepareBuilderImage();
      :- CheckGitIfBuildNeeded();
      :- CheckImageLocallyOrRemotely();
      useBuildServer := originalUseBuildServer;
      var skipped;
      o, skipped := ShouldSkipBuild();
      if o.Threw? {
        return;
      }
      o := CompleteDeployment();
    }

    /**
     With the image at hand the build is skipped and the containers are replaced. Otherwise a
     restart turns into a full deployment: `restart_only` is cleared before the dispatcher is
     entered again, so this happens at most once.
     */
    method ShouldSkipBuild() returns (o: Outcome, skipped: bool)
      requires Ready() && AtTarget() && !cfg.AlwaysBuilds() && !cfg.ComposePath()
      modifies this
      ensures Good() && Honest(o, w) && (jobFailed ==> !cfg.Rolling())
      ensures o.Threw? ==> ThrewState()
      ensures o.Ok? && skipped ==> Deployed()
      ensures o.Ok? && !skipped && old(restartOnly) ==> Completed()
      ensures o.Ok? && !skipped && !old(restartOnly) ==>
                Ready() && AtTarget() && !restartOnly && server == old(server) && useBuildServer == old(useBuildServer)
      decreases restartOnly, 1
    {
      hide Inv;
      skipped := false;
      if imageFound {
        var configurationChanged: bool := *;
        if cfg.additionalServer || !configurationChanged {
          o := DeployWithoutBuild();
          skipped := o.Ok?;
          return;
        }
      }
      if restartOnly {
        restartOnly := false;
        o := DecideWhatToDo();
        return;
      }
      return Ok, false;
    }

    method DeployWithoutBuild() returns (o: Outcome)
      requires Ready() && AtTarget() && imageFound && !cfg.AlwaysBuilds() && !cfg.ComposePath()
      modifies this`w, this`server, this`newVersionIsHealthy, this`consistentName, this`probes, this`slept,
               this`rollbackReached
      ensures Good() && Honest(o, w)
      ensures if o.Ok? then Deployed() else ThrewState()
    {
      hide Inv;
      :- GenerateComposeFile();
      o := SavePushAndRoll();
    }

    /** The end of every path but compose: save the variables, push what was built, replace the containers. */
    method SavePushAndRoll() returns (o: Outcome)
      requires Ready() && AtTarget() && !cfg.ComposePath()
      requires cfg.maxRetries > 0 && !cfg.PullsImage() && (cfg.AlwaysBuilds() || !imageFound) ==>
                 w.progress.built && !restartOnly
      modifies this`w, this`server, this`newVersionIsHealthy, this`consistentName, this`probes, this`slept,
               this`rollbackReached
      ensures Good() && Honest(o, w)
      ensures if o.Ok? then Deployed() else ThrewState()
    {
      hide Inv;
      :- SaveRuntimeEnvironmentVariables();
      :- PushToDockerRegistry();
      :- RollingUpdate();
      return Ok;
    }

    /** The build-time variables, and the Dockerfile with its ARG lines. */
    method WriteBuildFiles(addBuildArgs: bool) returns (o: Outcome)
      requires Good()
      modifies this`w
      ensures Good() && Quiet(cfg, old(w), w) && Honest(o, w)
    {
      hide Inv;
      o := Plain();
      if o.Ok? && addBuildArgs {
        o := Plain();
      }
    }

    method ConfigureAndBuild(addBuildArgs: bool) returns (o: Outcome)
      requires Good() && AtTarget()
      modifies this`w, this`server
      ensures Good() && Quiet(cfg, old(w), w) && Honest(o, w)
      ensures o.Ok? ==> AtTarget() && (cfg.maxRetries > 0 ==> w.progress.built)
    {
      hide Inv;
      :- GenerateComposeFile();
      :- WriteBuildFiles(addBuildArgs);
      :- BuildTheImage();
      return Ok;
    }

    /** The common tail of the build paths. */
    method BuildPushAndRoll(addBuildArgs: bool) returns (o: Outcome)
      requires Ready() && AtTarget() && !restartOnly && !cfg.ComposePath()
      modifies this`w, this`server, this`newVersionIsHealthy, this`consistentName, this`probes, this`slept,
               this`rollbackReached
      ensures Good() && Honest(o, w)
      ensures if o.Ok? then Deployed() else ThrewState()
    {
      hide Inv;
      :- ConfigureAndBuild(addBuildArgs);
      o := SavePushAndRoll();
    }

    method DeploySimpleDockerfile() returns (o: Outcome)
      requires Ready() && AtMain() && !restartOnly && cfg.inlineDockerfile && !cfg.pullRequest
      modifies this
      ensures Good() && Honest(o, w) && (jobFailed ==> !cfg.Rolling())
      ensures if o.Ok? then Deployed() else ThrewState()
      decreases restartOnly, 2
    {
      hide Inv;
      if useBuildServer {
        server := Build;
      }
      :- PrepareBuilderImage();
      :- Plain();
      o := BuildPushAndRoll(true);
    }

    /** Helper container and commit for a build from a repository; a Dockerfile build also clones here. */
    method PrepareRepository(clone: bool) returns (o: Outcome)
      requires Good() && AtTarget()
      modifies this`w, this`server
      ensures Good() && Quiet(cfg, old(w), w) && Honest(o, w)
      ensures o.Ok? ==> AtTarget()
    {
      hide Inv;
      :- PrepareBuilderImage();
      :- CheckGitIfBuildNeeded();
      if clone {
        :- CloneRepository();
      }
      return Ok;
    }

    /** The remaining preparation: the clone if it is still due, the cleanup of git, and the build plan. */
    method FinishRepository(clone: bool) returns (o: Outcome)
      requires Good() && AtTarget()
      modifies this`w, this`server
      ensures Good() && Quiet(cfg, old(w), w) && Honest(o, w)
      ensures o.Ok? ==> AtTarget()
    {
      hide Inv;
      if clone {
        :- CloneRepository();
      }
      :- Plain();
      if cfg.buildPack == Nixpacks {
        :- Plain();
      }
      return Ok;
    }

    /** Nixpacks, static and Dockerfile builds differ in when the repository is cloned. */
    method DeployFromRepository() returns (o: Outcome)
      requires Ready() && AtMain() && !restartOnly
      requires !cfg.pullRequest && !cfg.inlineDockerfile && cfg.buildPack != DockerCompose
                 && cfg.buildPack != DockerImage
      modifies this
      ensures Good() && Honest(o, w) && (jobFailed ==> !cfg.Rolling())
      ensures if o.Ok? then Deployed() else ThrewState()
      decreases restartOnly, 2
    {
      hide Inv;
      if useBuildServer {
        server := Build;
      }
      :- PrepareRepository(cfg.buildPack == DockerfilePack);
      if !cfg.forceRebuild {
        :- CheckImageLocallyOrRemotely();
        var skip;
        o, skip := ShouldSkipBuild();
        if o.Threw? || skip {
          return;
        }
      }
      o := CloneBuildAndRoll();
    }

    method CloneBuildAndRoll() returns (o: Outcome)
      requires Ready() && AtTarget() && !restartOnly && !cfg.ComposePath()
      modifies this`w, this`server, this`newVersionIsHealthy, this`consistentName, this`probes, this`slept,
               this`rollbackReached
      ensures Good() && Honest(o, w)
      ensures if o.Ok? then Deployed() else ThrewState()
    {
      hide Inv;
      :- FinishRepository(cfg.buildPack != DockerfilePack);
      o := BuildPushAndRoll(cfg.buildPack == DockerfilePack);
    }

    method DeployDockerImageBuildpack() returns (o: Outcome)
      requires Ready() && AtTarget() && cfg.PullsImage()
      modifies this
      ensures Good() && Honest(o, w) && (jobFailed ==> !cfg.Rolling())
      ensures if o.Ok? then Deployed() else ThrewState()
      decreases restartOnly, 2
    {
      hide Inv;
      :- PrepareBuilderImage();
      :- GenerateComposeFile();
      :- SaveRuntimeEnvironmentVariables();
      :- RollingUpdate();
      return Ok;
    }

    method DeployPullRequest() returns (o: Outcome)
      requires Ready() && AtMain() && !restartOnly && cfg.pullRequest
      modifies this
      ensures Good() && Honest(o, w) && (jobFailed ==> !cfg.Rolling())
      ensures if o.Ok? then Deployed() else ThrewState()
      decreases restartOnly, 2
    {
      hide Inv;
      if cfg.buildPack == DockerCompose {
        o := DeployDockerComposeBuildpack();
        return;
      }
      if useBuildServer {
        server := Build;
      }
      newVersionIsHealthy := true;
      :- PrepareRepository(true);
      :- FinishRepository(false);
      o := BuildPushAndRoll(cfg.buildPack == DockerfilePack);
    }

    method DeployDockerComposeBuildpack() returns (o: Outcome)
      requires Ready() && AtMain() && !restartOnly && cfg.buildPack == DockerCompose
      requires cfg.pullRequest || !cfg.inlineDockerfile
      modifies this
      ensures Good() && Honest(o, w) && (jobFailed ==> !cfg.Rolling())
      ensures if o.Ok? then Deployed() else ThrewState()
      decreases restartOnly, 1
    {
      hide Inv;
      :- PrepareStack();
      var parsed: bool := *;
      if !parsed {
        Disrupt();
        o := Fail(0);
        return;
      }
      o := BuildAndReplaceStack();
    }

    method PrepareStack() returns (o: Outcome)
      requires Good() && AtTarget()
      modifies this`w, this`server
      ensures Good() && Quiet(cfg, old(w), w) && Honest(o, w)
      ensures o.Ok? ==> AtTarget()
    {
      hide Inv;
      :- PrepareRepository(true);
      :- Plain();
      return Ok;
    }

    method BuildAndReplaceStack() returns (o: Outcome)
      requires Ready() && AtTarget() && cfg.buildPack == DockerCompose && (RegularRun() ==> !useBuildServer)
      requires cfg.pullRequest || !cfg.inlineDockerfile
      modifies this`w, this`server, this`rollbackReached
      ensures Good() && Honest(o, w)
      ensures if o.Ok? then Deployed() else ThrewState()
    {
      hide Inv;
      :- BuildStack();
      o := ReplaceComposeStack();
    }

    method BuildStack() returns (o: Outcome)
      requires Good() && AtTarget()
      modifies this`w, this`server
      ensures Good() && Quiet(cfg, old(w), w) && Honest(o, w)
      ensures o.Ok? ==> AtTarget() && (cfg.maxRetries > 0 ==> w.progress.built)
    {
      hide Inv;
      :- Plain();
      :- BuildTheImage();
      :- SaveRuntimeEnvironmentVariables();
      return Ok;
    }

    /** A compose application is stopped before its new version starts. */
    method ReplaceComposeStack() returns (o: Outcome)
      requires Good() && !Reported() && AtTarget() && cfg.buildPack == DockerCompose
                 && (RegularRun() ==> !useBuildServer)
      requires Built() && Untouched() && consistentName == cfg.fixedName
      modifies this`w, this`server, this`rollbackReached
      ensures Good() && Honest(o, w)
      ensures if o.Ok? then Deployed() else ThrewState()
    {
      hide Inv;
      hide Judged;
      hide MayStart;
      :- StopStack();
      o := StartStack();
    }

    /** What runs of the stack is stopped; then its network is set up. */
    method StopStack() returns (o: Outcome)
      requires Good() && !Reported() && AtTarget() && cfg.buildPack == DockerCompose
                 && (RegularRun() ==> !useBuildServer)
      requires Untouched() && consistentName == cfg.fixedName
      modifies this`w, this`rollbackReached
      ensures Good() && Honest(o, w) && !Reported() && MayStart(cfg, w) && old(w).progress.UpTo(w.progress)
      ensures cfg.maxRetries > 0 && !w.disrupted ==>
                w.containers <= if consistentName then cfg.olds else {cfg.newName}
      ensures cfg.maxRetries > 0 && !w.disrupted && consistentName ==> cfg.olds <= w.containers + {cfg.newName}
    {
      hide Inv;
      hide Judged;
      hide RolledBack;
      hide ToldToGo;
      var stopped := StopRunningContainer(true);
      DownMayStart(old(w).containers);
      ghost var down := w;
      o := Plain();
      StillMayStart(down, w);
    }

    /** The configurations are written before or after the stack starts. */
    method StartStack() returns (o: Outcome)
      requires Good() && AtTarget() && cfg.buildPack == DockerCompose && (RegularRun() ==> !useBuildServer)
      requires MayStart(cfg, w)
      modifies this`w, this`server
      ensures Good() && Honest(o, w) && Quiet(cfg, old(w).(containers := w.containers), w)
      ensures o.Ok? ==> Started()
      ensures o.Ok? && cfg.maxRetries > 0 && !w.disrupted ==> w.containers == old(w).containers + {cfg.newName}
    {
      hide Inv;
      hide MayStart;
      var startsFirst: bool := *;
      if startsFirst {
        :- Exec(StartContainer(cfg.newName), server, false);
        o := WriteDeploymentConfigurations();
      } else {
        :- WriteDeploymentConfigurations();
        StillMayStart(old(w), w);
        o := Exec(StartContainer(cfg.newName), server, false);
      }
    }

    // ---------------------------------------------------------------- failure

    /** Marks the queued job as failed; its failure handler runs once. */
    method Fail(code: int) returns (o: Outcome)
      requires Good() && ThrewState() && Honest(Threw(code), w)
      modifies this`w, this`jobFailed
      ensures Good() && Honest(o, w) && jobFailed && w.helpers.due == old(w).helpers.due
      ensures w.disrupted
      ensures old(jobFailed) ==> o.Ok? && w == old(w)
      ensures !old(jobFailed) ==> Ended()
      ensures !old(jobFailed) && cfg.buildPack == DockerCompose && o.Threw? ==>
                w.status == CancelledByUser || cfg.failureThrows
      ensures !old(jobFailed) && o.Ok? ==> w.status != CancelledByUser
      ensures !old(jobFailed) && w.status == Finished ==> old(w).status == Finished
      ensures Terminal(old(w).status) ==> w.status == old(w).status
    {
      if jobFailed {
        return Ok;
      }
      o := HandleFailure(code);
      jobFailed := true;
    }

    /** What a finished run leaves behind, by the status of its row. */
    predicate Ended()
      reads this
    {
      && Terminal(w.status)
      && (w.status == CancelledByUser ==> Intact() || Switched())
      && (w.status == Failed ==> Intact() && (!cfg.failureThrows || rollbackReached ==> RolledBack()))
      && (w.status == Finished ==> Started() && Replaced() && Built() && (cfg.Rolling() ==> Accepted()))
      && (w.status == Finished ==>
            if cfg.successThrows then cfg.Rolling() && cfg.maxRetries > 0 && !w.incomplete ==> w.containers == {}
            else Switched())
    }

    /**
     The failure handler. It works on the job as it was queued, with the main server as current
     server. On a cancelled row it stops at once and leaves every container alone.
     */
    method HandleFailure(code: int) returns (o: Outcome)
      requires Good() && ThrewState() && Honest(Threw(code), w)
      modifies this`w
      ensures Good() && Honest(o, w) && Ended() && w.helpers.due == old(w).helpers.due
      ensures w.disrupted
      ensures w.status == CancelledByUser ==>
                && w.history.commands == old(w).history.commands
                && (cfg.Rolling() ==> w.containers == old(w).containers)
      ensures w.status == Finished ==> old(w).status == Finished
      ensures Terminal(old(w).status) ==> w.status == old(w).status
      ensures cfg.buildPack == DockerCompose && o.Threw? ==> w.status == CancelledByUser || cfg.failureThrows
      ensures o.Ok? ==> w.status != CancelledByUser
      ensures cfg.buildPack != DockerCompose && !cfg.fixedName && !cfg.pullRequest && cfg.maxRetries > 0 ==>
                w.status != CancelledByUser && (Terminal(old(w).status) || !cfg.failureThrows) ==>
                  cfg.newName in w.progress.removed
    {
      o := TransitionToStatus(Failed);
      if o.Threw? {
        return;
      }
      if cfg.buildPack != DockerCompose && code != CANCELLED {
        if !cfg.fixedName && !cfg.pullRequest {
          o := RemoveNewContainer();
          return;
        }
      }
      return Ok;
    }

    method RemoveNewContainer() returns (o: Outcome)
      requires Good() && Reported() && (cfg.Protected() ==> cfg.olds <= w.containers)
      modifies this`w
      ensures Good() && Honest(o, w) && w.status == old(w).status && w.helpers.due == old(w).helpers.due
      ensures cfg.Rolling() ==> w.containers == old(w).containers || w.containers == old(w).containers - {cfg.newName}
      ensures old(w).disrupted ==> w.disrupted
      ensures old(w).progress.UpTo(w.progress)
      ensures w.incomplete == (old(w).incomplete || cfg.newName in w.containers)
      ensures cfg.maxRetries > 0 ==> cfg.newName in w.progress.removed
    {
      hide Inv;
      UpNow(cfg, buildServerChosen, w);
      o := Exec(RemoveContainer(cfg.newName), Main, true);
      if cfg.newName in w.containers {
        IncompleteKeeps(cfg, buildServerChosen, w);
        w := w.(incomplete := true);
      }
    }

    // ---------------------------------------------------------------- the whole run

    /** The guarded part of the handler: pick the build server, then deploy. */
    method Deploy() returns (o: Outcome)
      requires Ready() && server == Main && !buildServerChosen && w.history.commands == []
                 && w.helpers == Helpers({}, {})
      modifies this
      ensures Good() && Honest(o, w) && (jobFailed ==> !cfg.Rolling())
      ensures if o.Ok? then Completed() else ThrewState()
    {
      hide Inv;
      o := Instant();
      if o.Threw? {
        return;
      }
      var invalidTarget: bool := *;
      if invalidTarget {
        Disrupt();
        return Threw(0);
      }
      if cfg.buildServerEnabled {
        var suitableServer: bool := *;
        if suitableServer {
          ChoiceKeeps(cfg, buildServerChosen, true, w);
          useBuildServer, buildServerChosen := true, true;
        }
      }
      var buildKit := Instant();
      o := DecideWhatToDo();
    }

    /** An exception fails the job and is thrown on; an error that is no exception is only thrown on. */
    method TryDeploy() returns (o: Outcome)
      requires Ready() && server == Main && !buildServerChosen && w.history.commands == []
                 && w.helpers == Helpers({}, {})
      modifies this
      ensures Good() && Honest(o, w)
      ensures if o.Threw? && !jobFailed then ThrewState() else Ended()
    {
      hide Inv;
      o := Deploy();
      if o.Threw? {
        var caught: bool := *;
        if caught {
          var failing := Fail(o.code);
          if failing.Threw? {
            o := failing;
          }
        }
      }
    }

    /**
     What always follows: configurations are written, and the helper is shut down on the server it
     runs on, but not by a run that finds its row cancelled.
     */
    method Finally()
      requires Good()
      modifies this`w, this`server
      ensures Good() && Quiet(cfg, old(w), w)
      ensures old(w).status == CancelledByUser ==> w.helpers.due == old(w).helpers.due
      ensures RegularRun() && w.status != CancelledByUser ==> w.helpers.due == {}
      ensures RegularRun() && !w.disrupted ==> w.helpers.running == {}
    {
      if useBuildServer {
        server := Build;
      } else {
        var written := WriteDeploymentConfigurations();
      }
      ShutdownHelper();
    }

    /** A run that finds its row cancelled does not begin; otherwise the row says in progress. */
    method Begin() returns (cancelled: bool)
      requires AsQueued()
      modifies this`w
      ensures Good() && w.helpers == Helpers({}, {}) && w.history.commands == []
      ensures (cfg.Rolling() ==> w.containers == cfg.olds) && Untouched()
      ensures w.status == if cancelled then CancelledByUser else InProgress
    {
      InitialInv(cfg, false);
      Interleave();
      if w.status == CancelledByUser {
        return true;
      }
      SetStatusKeeps(cfg, false, w, InProgress);
      w := w.SetStatus(InProgress);
      return false;
    }

    method Handle() returns (o: Outcome)
      requires AsQueued()
      modifies this
      ensures Good() && Honest(o, w)
      ensures if o.Threw? && !jobFailed then ThrewState() else Ended()
      ensures RegularRun() && w.status != CancelledByUser ==> w.helpers.due == {}
    {
      hide Inv;
      hide Accepted;
      hide Judged;
      var cancelled := Begin();
      if cancelled {
        return Ok;
      }
      var serverFunctional: bool := *;
      if !serverFunctional {
        Disrupt();
        o := Fail(0);
        return;
      }
      o := TryDeploy();
      Finally();
    }

    /**
     The queue worker: an exception that leaves the handler is routed to the failure handler. What
     every run from the queue guarantees, wherever cancellations, failures and exceptions fall.
     */
    method RunJob()
      requires AsQueued()
      modifies this
      ensures Good() && Ended()
      // the row ends in a terminal state and never left one before
      ensures Terminal(w.status) && forall i | 0 <= i < |w.history.statuses| - 1 :: !Terminal(w.history.statuses[i])
      // a run in which nothing goes wrong carries the health check through and finishes, unless that says unhealthy
      ensures !w.disrupted && cfg.Rolling() ==> Judged()
      ensures !w.disrupted && cfg.buildPack != DockerCompose ==>
                w.status == if cfg.Rolling() && !newVersionIsHealthy then Failed else Finished
      // then the new container has replaced the one whose name it keeps, or else all containers there were
      ensures !w.disrupted && w.status == Finished && cfg.maxRetries > 0 ==>
                && w.containers == (if consistentName then cfg.olds + {cfg.newName} else {cfg.newName})
                && (cfg.KeepsName() ==> consistentName) && (consistentName ==> cfg.MayKeepName())
      // a finished run has told the new container to start, and has built and pushed what it must
      ensures w.status == Finished && cfg.maxRetries > 0 ==> exists e | e in w.history.commands :: IsStart(e)
      ensures w.status == Finished && cfg.maxRetries > 0 && cfg.AlwaysBuilds() && !cfg.PullsImage() ==>
                && WasSent(w.history.commands, BuildImage)
                && (cfg.Pushes() ==> WasSent(w.history.commands, PushImage))
      // where that is stopped first, no start was sent before the stops
      ensures cfg.StopsFirst() && cfg.KeepsName() ==> StopComesFirst(cfg, w.history.commands)
      ensures cfg.StopsFirst() && !w.disrupted ==> ClearedFirst(cfg, w.history.commands)
      // it is reported once, and by one kind of notification
      ensures w.reports.queuedNext <= 1 && w.reports.successSent + w.reports.failureSent <= 1
      ensures !cfg.Throws(w.status) ==>
                w.reports == match w.status
                             case Finished => Reports(1, 1, 0)
                             case Failed => Reports(1, 0, 1)
                             case _ => Reports(0, 0, 0)
      // a protected application is up at every moment
      ensures cfg.Protected() ==> forall s | s in w.history.snapshots :: s != {}
      // a healthy end leaves the new container, an unhealthy or failed one the old containers
      ensures cfg.Rolling() && w.status == Finished ==> Accepted()
      ensures cfg.Rolling() && cfg.maxRetries > 0 && !w.incomplete && w.status == Finished ==>
                w.containers == if cfg.successThrows then {} else {cfg.newName}
      ensures cfg.Rolling() && w.status == Failed ==> cfg.olds <= w.containers
      ensures cfg.Rolling() && w.status == Failed && (!cfg.failureThrows || rollbackReached) && !w.incomplete ==>
                w.containers == cfg.olds
      // commands go to the right server, and none leaves once the row is cancelled
      ensures RegularRun() ==> forall e | e in w.history.commands :: HostOk(buildServerChosen, e)
      ensures forall e | e in w.history.commands :: e.status != CancelledByUser
      // unless the row was cancelled the stop of every helper was sent; if nothing went wrong none is left running
      ensures RegularRun() && w.status != CancelledByUser ==> w.helpers.due == {}
      ensures RegularRun() && !w.disrupted ==> w.helpers.running == {}
    {
      RunToEnd();
    }

    method RunToEnd()
      requires AsQueued()
      modifies this
      ensures Good() && Ended()
      ensures RegularRun() && w.status != CancelledByUser ==> w.helpers.due == {}
    {
      hide Inv;
      var o := Handle();
      if o.Threw? && !jobFailed {
        var failing := Fail(o.code);
      }
    }
  }

  lemma QuietContainers(cfg: Config, a: World, b: World)
    requires Quiet(cfg, a, b) && cfg.Rolling()
    ensures b.containers == a.containers
  {
  }
}
