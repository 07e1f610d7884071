/**
 The row of a deployment as the job and any number of cancellers see it when reading the status and
 writing it are two separate steps. Says which guarantees need each read-then-write to be atomic,
 exactly when terminal states survive, and which guarantees never depend on it.
 */
module DeploymentProtocol {
  import opened Deployment

  datatype Actor = Job | Canceller(id: nat)

  datatype Step = Read(actor: Actor) | Write(actor: Actor, status: Status)

  /**
   The row, what each actor read last and has not acted on, whether the job has written its first
   status, and the finished or failed statuses it wrote: each of these queues the next deployment
   and sends its notification.
   */
  datatype State = State(row: Status, seen: map<Actor, Status>, started: bool, reported: seq<Status>)

  const INITIAL := State(Queued, map[], false, [])

  /** What an actor must have read to write a status. The job's first write only looks for a cancellation. */
  predicate Guard(actor: Actor, status: Status, seen: Status) {
    match actor
    case Job =>
      if status == InProgress then seen != CancelledByUser
      else (status == Finished || status == Failed) && !Terminal(seen)
    case Canceller(_) => status == CancelledByUser && (seen == Queued || seen == InProgress)
  }

  predicate Enabled(st: State, step: Step) {
    step.Write? ==>
      && step.actor in st.seen && Guard(step.actor, step.status, st.seen[step.actor])
      && (step.actor == Job ==> (step.status == InProgress <==> !st.started))
  }

  function Apply(st: State, step: Step): State {
    match step
    case Read(actor) => st.(seen := st.seen[actor := st.row])
    case Write(actor, status) =>
      State(status, st.seen - {actor}, st.started || actor == Job,
            if actor == Job && status != InProgress then st.reported + [status] else st.reported)
  }

  predicate Runs(st: State, trace: seq<Step>)
    decreases trace
  {
    trace != [] ==> Enabled(st, trace[0]) && Runs(Apply(st, trace[0]), trace[1..])
  }

  function After(st: State, trace: seq<Step>): State
    decreases trace
  {
    if trace == [] then st else After(Apply(st, trace[0]), trace[1..])
  }

  /** No step of the trace leaves a terminal state. */
  predicate KeepsTerminal(st: State, trace: seq<Step>)
    decreases trace
  {
    trace != [] ==>
      && (Terminal(st.row) ==> Apply(st, trace[0]).row == st.row)
      && KeepsTerminal(Apply(st, trace[0]), trace[1..])
  }

  /** Every write that changes the row would pass its guard again on the row as it is at that moment. */
  predicate Revalidated(st: State, trace: seq<Step>)
    decreases trace
  {
    trace != [] ==>
      && (trace[0].Write? && trace[0].status != st.row ==> Guard(trace[0].actor, trace[0].status, st.row))
      && Revalidated(Apply(st, trace[0]), trace[1..])
  }

  /** The job starts once, and what it reported stays on the row unless a canceller writes over it. */
  predicate Consistent(st: State) {
    && (!st.started ==> (st.row == Queued || st.row == CancelledByUser) && st.reported == [])
    && |st.reported| <= 1
    && (st.reported != [] ==>
          && (st.row == st.reported[0] || st.row == CancelledByUser)
          && Terminal(st.reported[0])
          && (Job in st.seen ==> Terminal(st.seen[Job])))
  }

  lemma StepIsConsistent(st: State, step: Step)
    requires Consistent(st) && Enabled(st, step)
    ensures Consistent(Apply(st, step))
  {
  }

  /**
   However reads and writes interleave, the job reports at most one final status: the next
   deployment is queued at most once, success and failure are never both sent, and the row ends
   with what was reported or with a cancellation.
   */
  lemma {:induction false} ReportsAtMostOnce(st: State, trace: seq<Step>)
    requires Consistent(st) && Runs(st, trace)
    ensures Consistent(After(st, trace))
    decreases trace
  {
    if trace != [] {
      StepIsConsistent(st, trace[0]);
      ReportsAtMostOnce(Apply(st, trace[0]), trace[1..]);
    }
  }

  /** Terminal states survive a run exactly when every changing write would still pass its guard. */
  lemma {:induction false} TerminalKeptExactly(st: State, trace: seq<Step>)
    requires Consistent(st) && Runs(st, trace)
    ensures KeepsTerminal(st, trace) <==> Revalidated(st, trace)
    decreases trace
  {
    if trace != [] {
      StepIsConsistent(st, trace[0]);
      TerminalKeptExactly(Apply(st, trace[0]), trace[1..]);
    }
  }

  // ------------------------------------------------------------------ atomic steps

  /** Nobody changes the row between an actor's read and its write. */
  predicate Undisturbed(st: State, trace: seq<Step>)
    decreases trace
  {
    trace != [] ==>
      && (trace[0].Write? ==> trace[0].actor in st.seen && st.seen[trace[0].actor] == st.row)
      && Undisturbed(Apply(st, trace[0]), trace[1..])
  }

  lemma {:induction false} UndisturbedIsRevalidated(st: State, trace: seq<Step>)
    requires Runs(st, trace) && Undisturbed(st, trace)
    ensures Revalidated(st, trace)
    decreases trace
  {
    if trace != [] {
      UndisturbedIsRevalidated(Apply(st, trace[0]), trace[1..]);
    }
  }

  /** A read followed at once by the write it is for. */
  datatype Move = Move(actor: Actor, status: Status)

  function Steps(moves: seq<Move>): seq<Step> {
    if moves == [] then []
    else [Read(moves[0].actor), Write(moves[0].actor, moves[0].status)] + Steps(moves[1..])
  }

  lemma FirstMove(moves: seq<Move>)
    requires moves != []
    ensures |Steps(moves)| >= 2
    ensures Steps(moves)[0] == Read(moves[0].actor) && Steps(moves)[1] == Write(moves[0].actor, moves[0].status)
    ensures Steps(moves)[1..][1..] == Steps(moves[1..])
  {
  }

  lemma {:induction false} MovesAreUndisturbed(st: State, moves: seq<Move>)
    ensures Undisturbed(st, Steps(moves))
    decreases moves
  {
    if moves != [] {
      FirstMove(moves);
      var trace := Steps(moves);
      var read := Apply(st, trace[0]);
      assert trace[1..][0] == trace[1];
      MovesAreUndisturbed(Apply(read, trace[1]), moves[1..]);
    }
  }

  /** With every read-then-write as one step, no interleaving leaves a terminal state. */
  lemma AtomicStepsKeepTerminal(moves: seq<Move>)
    requires Runs(INITIAL, Steps(moves))
    ensures KeepsTerminal(INITIAL, Steps(moves))
  {
    MovesAreUndisturbed(INITIAL, moves);
    UndisturbedIsRevalidated(INITIAL, Steps(moves));
    TerminalKeptExactly(INITIAL, Steps(moves));
  }

  // ------------------------------------------------------------------ what separate steps lose

  lemma RunsOf(st: State, step: Step, rest: seq<Step>)
    ensures Runs(st, [step] + rest) <==> Enabled(st, step) && Runs(Apply(st, step), rest)
    ensures After(st, [step] + rest) == After(Apply(st, step), rest)
    ensures KeepsTerminal(st, [step] + rest) <==>
              (Terminal(st.row) ==> Apply(st, step).row == st.row) && KeepsTerminal(Apply(st, step), rest)
  {
  }

  /** A running deployment, as the job's first two steps leave it. */
  lemma RunningIsReached()
    ensures var start := [Read(Job), Write(Job, InProgress)];
            Runs(INITIAL, start) && After(INITIAL, start) == State(InProgress, map[], true, [])
  {
  }

  /** The four steps of two actors that both read before either writes. */
  function Race(first: Step, second: Step): seq<Step> {
    [Read(first.actor)] + ([Read(second.actor)] + ([first] + ([second] + [])))
  }

  lemma RaceFrom(st: State, first: Step, second: Step)
    requires first.Write? && second.Write? && first.actor != second.actor
    requires Guard(first.actor, first.status, st.row) && Guard(second.actor, second.status, st.row)
    requires first.actor == Job ==> (first.status == InProgress <==> !st.started)
    requires second.actor == Job ==> (second.status == InProgress <==> !st.started)
    ensures Runs(st, Race(first, second)) && After(st, Race(first, second)).row == second.status
    ensures Terminal(first.status) && first.status != second.status ==> !KeepsTerminal(st, Race(first, second))
  {
    var a := Apply(st, Read(first.actor));
    var b := Apply(a, Read(second.actor));
    var c := Apply(b, first);
    RunsOf(st, Read(first.actor), [Read(second.actor)] + ([first] + ([second] + [])));
    RunsOf(a, Read(second.actor), [first] + ([second] + []));
    RunsOf(b, first, [second] + []);
    RunsOf(c, second, []);
  }

  /**
   Split into two steps, the job finishes a running deployment that its user has cancelled, a
   canceller marks a finished one as cancelled, and one cancelled in the queue starts all the same.
   Each race can happen in every such state.
   */
  lemma SplitStepsLoseTerminal(running: State, queued: State, id: nat)
    requires running.row == InProgress && running.started
    requires queued.row == Queued && !queued.started
    ensures var trace := Race(Write(Canceller(id), CancelledByUser), Write(Job, Finished));
            Runs(running, trace) && !KeepsTerminal(running, trace) && After(running, trace).row == Finished
    ensures var trace := Race(Write(Job, Finished), Write(Canceller(id), CancelledByUser));
            Runs(running, trace) && !KeepsTerminal(running, trace) && After(running, trace).row == CancelledByUser
    ensures var trace := Race(Write(Canceller(id), CancelledByUser), Write(Job, InProgress));
            Runs(queued, trace) && !KeepsTerminal(queued, trace) && After(queued, trace).row == InProgress
  {
    RaceFrom(running, Write(Canceller(id), CancelledByUser), Write(Job, Finished));
    RaceFrom(running, Write(Job, Finished), Write(Canceller(id), CancelledByUser));
    RaceFrom(queued, Write(Canceller(id), CancelledByUser), Write(Job, InProgress));
  }
}
