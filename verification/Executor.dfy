/** A whole job on the Docker executor: the lifecycle it records and the result it reports. */
module Executor {
  import opened Prelude
  import opened LogBuffer
  import opened WorkflowPlan
  import opened WorkflowEngine
  import opened WorkflowRuns
  import opened Protocol
  import opened Journal
  import CommandRun
  import LogPipeline
  import States

  /** What a job asks for: a workflow, or the one command of its container. */
  datatype Work = Workflow(plan: Plan, env: Env) | SingleCommand(world: CommandRun.World)

  /** The fates of the seven lifecycle transitions, and whether each fallible stage between them works. */
  datatype Luck = Luck(transition: nat -> Fate, admitted: bool, prepared: bool, collected: bool)

  const MAX_WORKFLOW_ITERATIONS := 20

  /** The bound job validation puts on a workflow's iterations. */
  predicate ValidWork(work: Work) {
    work.Workflow? ==> 1 <= work.plan.maxIterations <= MAX_WORKFLOW_ITERATIONS
  }

  function PhaseName(phase: Phase): string {
    match phase
    case SetupPhase => "setup"
    case InitializePhase => "initialize"
    case AgentPhase => "agent"
    case VerifierPhase => "verifier"
    case PublishPhase => "publish"
  }

  function WorkflowResult(key: JobKey, status: Status, s: Run, failedPhase: Option<Phase>, dropped: bool): JobResult {
    JobResult(
      key, status,
      if status.Cancelled? || status.TimedOut? then None else Some(if status.Completed? then 0 else 1),
      s.truncated || dropped, s.stdout, s.stderr,
      FailureFor(status, "workflow_failed"),
      if status.Completed? then None
      else if status.Cancelled? || status.TimedOut? then Some(States.StatusText(status))
      else if failedPhase.Some? then Some(PhaseName(failedPhase.value))
      else Some("workflow"))
  }

  function CommandResult(key: JobKey, end: CommandRun.CommandEnd, dropped: bool): JobResult {
    JobResult(
      key, end.status, end.exitCode, end.truncated || dropped, end.stdout, end.stderr,
      FailureFor(end.status, "command_failed"),
      if end.status.Completed? then None else Some("command"))
  }

  function Stamped(key: JobKey, states: seq<States.State>): seq<Event> {
    seq(|states|, i requires 0 <= i < |states| => Event(key, states[i]))
  }

  /** `after` adds to `before` the first `n` states of the chain for `key`. */
  ghost predicate Recorded(before: seq<Event>, after: seq<Event>, key: JobKey, terminal: States.State, n: nat) {
    n <= 7 && after == before + Stamped(key, States.Chain(terminal)[..n])
  }

  /** One transition of the chain; if it fails, the chain stays as long as it was. */
  method Enter(j: Store, key: JobKey, state: States.State, fate: Fate,
               ghost before: seq<Event>, ghost terminal: States.State, ghost n: nat)
    returns (ok: bool)
    requires n < 7 && state == States.Chain(terminal)[n] && Recorded(before, j.events, key, terminal, n)
    modifies j`jobs, j`events
    ensures Recorded(before, j.events, key, terminal, if ok then n + 1 else n)
    ensures ok ==> key in j.jobs && j.jobs[key] == state
    ensures j.jobs - {key} == old(j.jobs) - {key}
    ensures ok <==> fate.Done?
  {
    ghost var states := States.Chain(terminal);
    assert Stamped(key, states[..n]) + [Event(key, states[n])] == Stamped(key, states[..n + 1]);
    ok := j.Transition(key, state, fate);
  }

  /** Consecutive transitions with nothing fallible in between; stops at the first that fails. */
  method EnterAll(j: Store, key: JobKey, states: seq<States.State>, fates: nat -> Fate, start: nat,
                  ghost before: seq<Event>, ghost terminal: States.State)
    returns (ok: bool, ghost n: nat)
    requires start + |states| <= 7 && states == States.Chain(terminal)[start..start + |states|] && states != []
    requires Recorded(before, j.events, key, terminal, start)
    modifies j`jobs, j`events
    ensures Recorded(before, j.events, key, terminal, n)
    ensures ok ==> n == start + |states| && key in j.jobs && j.jobs[key] == states[|states| - 1]
    ensures !ok ==> start <= n < start + |states| && !fates(n).Done?
    ensures forall i | start <= i < n :: fates(i).Done?
    ensures j.jobs - {key} == old(j.jobs) - {key}
  {
    hide Recorded, Stamped;
    ok, n := true, start;
    for i := 0 to |states|
      invariant ok && n == start + i && Recorded(before, j.events, key, terminal, n)
      invariant i > 0 ==> key in j.jobs && j.jobs[key] == states[i - 1]
      invariant forall c | start <= c < n :: fates(c).Done?
      invariant j.jobs - {key} == old(j.jobs) - {key}
    {
      ok := Enter(j, key, states[i], fates(start + i), before, terminal, n);
      if !ok {
        return;
      }
      n := n + 1;
    }
  }

  /** Why the work can break off without a result: Docker, or a feedback file that could not be written. */
  ghost predicate BreaksOff(work: Work, s: Run, now: nat) {
    match work
    case Workflow(plan, env) => Broke(env, s.history, now) && !Succeeded(plan, s.history)
    case SingleCommand(world) => world.end.StreamBroke? || world.inspected.None?
  }

  /** A result says what the work came to. */
  ghost predicate Truthful(work: Work, limit: nat, s: Run, dropped: bool, rechecked: nat, now: nat, r: JobResult) {
    match work
    case Workflow(plan, env) =>
      Faithful(plan, env, limit, s, dropped, rechecked, now, r) && Shaped(r, "workflow_failed")
    case SingleCommand(world) =>
      CommandFaithful(world, limit, dropped, r) && Shaped(r, "command_failed")
  }

  /** The part between Running and Collecting: the work itself and the result it would report. */
  method Perform(key: JobKey, work: Work, limit: nat, dropped: bool)
    returns (r: Option<JobResult>, emitted: seq<Chunk>, ghost s: Run, ghost rechecked: nat, ghost now: nat)
    requires ValidWork(work) && (work.Workflow? ==> Sticky(work.env))
    ensures r.None? ==> BreaksOff(work, s, now)
    ensures work.SingleCommand? ==> (r.None? <==> work.world.end.StreamBroke? || work.world.inspected.None?)
    ensures r.Some? ==>
      && Coherent(r.value) && r.value.key == key
      && Carried(emitted, r.value) && LogIsTruthful(emitted, dropped, r.value)
      && Truthful(work, limit, s, dropped, rechecked, now, r.value)
  {
    hide Coherent, Carried, Faithful, CommandFaithful, Shaped, LogIsTruthful, WorkflowResult, CommandResult;
    hide Follows, Next, Succeeded, Buffered, FromEnv, SetupLost, Exhausted;
    match work {
      case Workflow(plan, env) =>
        var run, desk, outcome, last := RunWorkflow(plan, env, limit);
        s, emitted, rechecked, now := run, run.emitted, last, desk.now;
        if outcome.Aborted? {
          return None, emitted, s, rechecked, now;
        }
        WorkflowResultHolds(key, plan, env, limit, outcome.status, run, desk, last, dropped);
        LiveLogIsTheResult(
          emitted, dropped, WorkflowResult(key, outcome.status, run, desk.failedPhase, dropped));
        r := Some(WorkflowResult(key, outcome.status, run, desk.failedPhase, dropped));
      case SingleCommand(world) =>
        s, rechecked, now := Run([], [], [], false, []), 0, 0;
        var end;
        end, emitted := CommandRun.RunCommand(limit, world);
        if end.None? {
          return None, emitted, s, rechecked, now;
        }
        CommandResultHolds(key, limit, world, end.value, emitted, dropped);
        LiveLogIsTheResult(emitted, dropped, CommandResult(key, end.value, dropped));
        r := Some(CommandResult(key, end.value, dropped));
    }
  }

  lemma WorkflowResultHolds(
    key: JobKey, plan: Plan, env: Env, limit: nat, status: Status, s: Run, desk: Desk, rechecked: nat, dropped: bool)
    requires Halted(s.history) ==> s.history[|s.history| - 1].raw.Ran?
    requires Follows(plan, limit, s.history) && Buffered(limit, s) && FromEnv(env, s.history)
    requires plan.maxIterations >= 1
    requires status.Completed? <==>
      Succeeded(plan, s.history) && !env.cancelled(rechecked) && !env.expired(rechecked + 1)
    requires status.Failed? ==>
      && !Halted(s.history) && Next(plan, s.history) == None && !Succeeded(plan, s.history)
      && (SetupLost(plan, s.history) || Exhausted(plan, s.history))
      && desk.failedPhase == LastFailure(plan, s.history)
    requires forall reason | StoppedBy(s.history, reason) :: status == StatusFor(reason)
    requires !Halted(s.history) && env.cancelled(rechecked) ==> status == Cancelled
    requires status == Cancelled ==> Explained(env, s.history, desk.now, ByCancellation)
    requires status == TimedOut ==> Explained(env, s.history, desk.now, ByDeadline)
    ensures var r := WorkflowResult(key, status, s, desk.failedPhase, dropped);
      && Coherent(r) && r.key == key && Carried(s.emitted, r)
      && Faithful(plan, env, limit, s, dropped, rechecked, desk.now, r) && Shaped(r, "workflow_failed")
  {
    EmittedIsOutput(plan, limit, s.history);
    WorkflowResultIsShaped(key, status, s, desk.failedPhase, dropped);
    if status.Failed? {
      FailureHasPhase(plan, limit, s.history);
      LastFailureIsBlamed(plan, s.history);
    }
    hide Follows, Next, Succeeded, Output, Emitted, Collected, LastFailure, PhaseName, FromEnv, SetupLost, Exhausted;
    hide Explained, Blames, Halted, Coherent, Shaped, First;
    assert Carried(s.emitted, WorkflowResult(key, status, s, desk.failedPhase, dropped)) by {
      WholeStreams(limit, s, WorkflowResult(key, status, s, desk.failedPhase, dropped), dropped);
    }
  }

  lemma WorkflowResultIsShaped(
    key: JobKey, status: Status, s: Run, failedPhase: Option<Phase>, dropped: bool)
    ensures var r := WorkflowResult(key, status, s, failedPhase, dropped);
      Coherent(r) && Shaped(r, "workflow_failed")
  {
    hide PhaseName, States.StatusText;
  }

  lemma WholeStreams(limit: nat, s: Run, r: JobResult, dropped: bool)
    requires Buffered(limit, s) && r.stdout == s.stdout && r.stderr == s.stderr
    requires r.logTruncated <==> s.truncated || dropped
    requires Collected(Emitted(s.history), StdOut) == Output(s.history, StdOut)
    requires Collected(Emitted(s.history), StdErr) == Output(s.history, StdErr)
    ensures Carried(s.emitted, r)
  {
    hide Collected, Emitted, Output;
  }

  /** The name of a phase tells what kind of step failed. */
  predicate NamesPhase(step: Step, name: string) {
    && (step.Setup? <==> name == "setup")
    && (step.Initialize? <==> name == "initialize")
    && (step.Agent? <==> name == "agent")
    && (step.Verify? || step.Mandate? <==> name == "verifier")
    && (step.Publish? <==> name == "publish")
  }

  /** The phase named is that of the last exec that counts as a failure. */
  ghost predicate Blames(plan: Plan, h: History, phase: Option<string>) {
    && phase.Some?
    && exists i | 0 <= i < |h| :: LastFailing(plan, h, i) && NamesPhase(h[i].step, phase.value)
  }

  predicate LastFailing(plan: Plan, h: History, i: nat)
    requires i < |h|
  {
    Failing(plan, h[i]) && forall j | i < j < |h| :: !Failing(plan, h[j])
  }

  lemma PhaseNamesStep(step: Step)
    ensures NamesPhase(step, PhaseName(PhaseOf(step)))
  {}

  lemma LastFailureIsBlamed(plan: Plan, h: History)
    requires LastFailure(plan, h).Some?
    ensures Blames(plan, h, Some(PhaseName(LastFailure(plan, h).value)))
  {
    hide NamesPhase, PhaseName, PhaseOf, Failing, LastFailure;
    BlameIsReal(plan, h);
    var i: nat :| i < |h| && Failing(plan, h[i]) && PhaseOf(h[i].step) == LastFailure(plan, h).value
      && forall j | i < j < |h| :: !Failing(plan, h[j]);
    PhaseNamesStep(h[i].step);
    assert LastFailing(plan, h, i);
  }

  /** A run that Docker did not break has passed on exactly its output. */
  lemma EmittedIsOutput(plan: Plan, limit: nat, h: History)
    requires Follows(plan, limit, h) && (Halted(h) ==> h[|h| - 1].raw.Ran?)
    ensures Collected(Emitted(h), StdOut) == Output(h, StdOut) && Collected(Emitted(h), StdErr) == Output(h, StdErr)
  {
    hide Follows, Emitted, Collected, Output, Written;
    forall i | 0 <= i < |h|
      ensures h[i].raw.Ran?
    {
      if i < |h| - 1 {
        NothingAfterTheEnd(plan, limit, h, i, i + 1);
      }
    }
    EmittedCarries(h, StdOut);
    EmittedCarries(h, StdErr);
  }

  lemma CommandResultHolds(
    key: JobKey, limit: nat, world: CommandRun.World, end: CommandRun.CommandEnd, emitted: seq<Chunk>, dropped: bool)
    requires !world.end.StreamBroke? && world.inspected.Some?
    requires emitted == CommandRun.NonEmpty(CommandRun.Clipped(limit, world.items))
    requires end.status.Cancelled? <==> CommandRun.WasCancelled(world)
    requires end.status.TimedOut? <==> CommandRun.RanOut(world)
    requires end.status.Completed? <==> CommandRun.Publishes(world) && world.publishError.None?
    requires end.exitCode.None? <==> CommandRun.WasCancelled(world) || CommandRun.RanOut(world)
    requires end.exitCode.Some? ==>
      var code := if world.inspected.value.Some? then world.inspected.value.value else -1;
      end.exitCode.value == if code == 0 && world.publishError.Some? then 1 else code
    requires end.stdout == Collected(CommandRun.Clipped(limit, world.items), StdOut)
    requires end.stderr == Collected(CommandRun.Clipped(limit, world.items), StdErr) + CommandRun.Appended(world)
    requires end.truncated <==> CommandRun.Overrun(limit, world.items)
    ensures var r := CommandResult(key, end, dropped);
      && Coherent(r) && r.key == key && Carried(emitted, r)
      && CommandFaithful(world, limit, dropped, r) && Shaped(r, "command_failed")
  {
    CommandRun.NonEmptyCarries(CommandRun.Clipped(limit, world.items), StdOut);
    CommandRun.NonEmptyCarries(CommandRun.Clipped(limit, world.items), StdErr);
    hide Collected, CommandRun.NonEmpty, CommandRun.Clipped, CommandRun.Overrun;
  }

  /** A workflow's result says what its run `s` did, from its last look at token and clock to its end at `now`. */
  ghost predicate Faithful(
    plan: Plan, env: Env, limit: nat, s: Run, dropped: bool, rechecked: nat, now: nat, r: JobResult)
  {
    && Follows(plan, limit, s.history)
    && FromEnv(env, s.history)
    && r.stdout == First(limit, Output(s.history, StdOut))
    && r.stderr == First(limit, Output(s.history, StdErr))
    && (r.logTruncated <==>
        dropped || |Output(s.history, StdOut)| > limit || |Output(s.history, StdErr)| > limit)
    && (r.status.Completed? <==>
        Succeeded(plan, s.history) && !env.cancelled(rechecked) && !env.expired(rechecked + 1))
    && (r.status.Failed? ==>
        && !Succeeded(plan, s.history)
        && (SetupLost(plan, s.history) || Exhausted(plan, s.history))
        && r.exitCode == Some(1)
        && Blames(plan, s.history, r.failedPhase))
    && (r.status.Cancelled? ==> Explained(env, s.history, now, ByCancellation) && r.failedPhase == Some("cancelled"))
    && (r.status.TimedOut? ==> Explained(env, s.history, now, ByDeadline) && r.failedPhase == Some("timed_out"))
    && (forall reason | StoppedBy(s.history, reason) :: r.status == StatusFor(reason))
    && (!Halted(s.history) && env.cancelled(rechecked) ==> r.status.Cancelled?)
  }

  /** The result of a single command says what happened to its container. */
  ghost predicate CommandFaithful(world: CommandRun.World, limit: nat, dropped: bool, r: JobResult) {
    var cancelled := world.end.CancelSeen? || world.cancelledAfter;
    var late := !cancelled && (world.end.DeadlineSeen? || world.expiredAfter);
    var well := !cancelled && !late && world.inspected == Some(Some(0));
    var code := if world.inspected.Some? && world.inspected.value.Some? then world.inspected.value.value else -1;
    && (r.status.Cancelled? <==> cancelled)
    && (r.status.TimedOut? <==> late)
    && (r.status.Completed? <==> well && world.publishError.None?)
    && (r.status.Failed? ==> r.exitCode == Some(if well then 1 else code))
    && (!r.status.Completed? ==> r.failedPhase == Some("command"))
    && r.stdout == Collected(CommandRun.Clipped(limit, world.items), StdOut)
    && r.stderr == Collected(CommandRun.Clipped(limit, world.items), StdErr)
                   + (if well && world.publishError.Some? then world.publishError.value else [])
    && (r.logTruncated <==> dropped || CommandRun.Overrun(limit, world.items))
  }

  /** Exit code and failure as the status demands; `failedCode` is the code of a plain failure. */
  predicate Shaped(r: JobResult, failedCode: string) {
    match r.status
    case Completed => r.exitCode == Some(0) && r.failure == None && r.failedPhase == None
    case Failed => r.exitCode.Some? && r.failure == Some(FailureInfo(Execution, failedCode))
    case Cancelled => r.exitCode == None && r.failure == Some(FailureInfo(Cancellation, "cancelled"))
    case TimedOut => r.exitCode == None && r.failure == Some(FailureInfo(Timeout, "timeout"))
  }

  /** A result that claims a whole log has the streams of the live log; a failed publish may add to stderr. */
  predicate Carried(emitted: seq<Chunk>, r: JobResult) {
    !r.logTruncated ==>
      && Collected(emitted, StdOut) == r.stdout
      && Collected(emitted, StdErr) <= r.stderr
      && (r.status.Completed? ==> Collected(emitted, StdErr) == r.stderr)
  }

  /**
   A schedule of the log pipeline with this executor as its producer: its calls are the live log of the
   job, it returned when the pipeline stood at `q`, and its result was flagged by its own truncation or by
   chunks the queue had dropped.
   */
  ghost predicate Uploaded(
    emitted: seq<Chunk>, dropped: bool, r: JobResult,
    before: seq<LogPipeline.Step>, q: LogPipeline.Pipe, truncated: bool,
    after: seq<LogPipeline.Step>, p: LogPipeline.Pipe)
  {
    && LogPipeline.Runs(LogPipeline.INITIAL, before, q)
    && LogPipeline.Enabled(q, LogPipeline.ReturnOk(truncated))
    && q.calls == emitted
    && (dropped <==> q.dropped != [])
    && (r.logTruncated <==> truncated || dropped)
    && LogPipeline.Runs(LogPipeline.Apply(q, LogPipeline.ReturnOk(truncated)), after, p)
  }

  /**
   In every such schedule, the completion's flag is that of the result unless the flush was cut off, and
   a completion with the flag off comes with a log that says what the result says.
   */
  ghost predicate LogIsTruthful(emitted: seq<Chunk>, dropped: bool, r: JobResult) {
    forall before, q, truncated, after, p | Uploaded(emitted, dropped, r, before, q, truncated, after, p) ::
      p.phase.Enqueued? ==>
        && p.phase.ok
        && (p.phase.flag <==> r.logTruncated || p.uploader.Aborted?)
        && (!p.phase.flag ==> Carried(LogPipeline.ChunksOf(p.acked), r))
  }

  /**
   End to end: if a job's completion has `log_truncated` off, the log the control plane acknowledged
   says on each stream what the result says.
   */
  lemma LiveLogIsTheResult(emitted: seq<Chunk>, dropped: bool, r: JobResult)
    requires Carried(emitted, r)
    ensures LogIsTruthful(emitted, dropped, r)
  {
    forall before, q, truncated, after, p
      | Uploaded(emitted, dropped, r, before, q, truncated, after, p) && p.phase.Enqueued?
      ensures p.phase.ok && (p.phase.flag <==> r.logTruncated || p.uploader.Aborted?)
      ensures !p.phase.flag ==> Carried(LogPipeline.ChunksOf(p.acked), r)
    {
      var step := LogPipeline.ReturnOk(truncated);
      var returned := LogPipeline.Apply(q, step);
      LogPipeline.CompletionFlagExactly(before, q, step, after, p);
      LogPipeline.FlagIsKept(returned, after, p);
      LogPipeline.RunsOneMore(LogPipeline.INITIAL, before, q, step);
      LogPipeline.RunsOn(LogPipeline.INITIAL, before + [step], returned, after, p);
      if !p.phase.flag {
        LogPipeline.UntruncatedMeansComplete(before + [step] + after, p, StdOut);
        LogPipeline.UntruncatedMeansComplete(before + [step] + after, p, StdErr);
      }
    }
  }

  lemma NothingRecorded(events: seq<Event>, key: JobKey, terminal: States.State)
    ensures Recorded(events, events, key, terminal, 0)
  {}

  /** Up to Collecting the chain does not depend on how the run will end. */
  lemma TerminalIsOpen(before: seq<Event>, after: seq<Event>, key: JobKey, a: States.State, b: States.State)
    requires Recorded(before, after, key, a, 4)
    ensures Recorded(before, after, key, b, 4)
  {
    assert States.Chain(a)[..4] == States.Chain(b)[..4];
  }

  lemma ChainEnds(terminal: States.State)
    ensures |States.Chain(terminal)| == 7
    ensures States.Chain(terminal)[2] == States.Running && States.Chain(terminal)[3] == States.Collecting
    ensures States.Chain(terminal)[0..2] == [States.Received, States.Preparing]
    ensures States.Chain(terminal)[4..7] == [terminal, States.Destroying, States.Destroyed]
  {}

  /** Each status is recorded as the terminal state of its own name. */
  predicate SameEnd(terminal: States.State, status: Status) {
    && (terminal.Completed? <==> status.Completed?)
    && (terminal.Failed? <==> status.Failed?)
    && (terminal.Cancelled? <==> status.Cancelled?)
    && (terminal.TimedOut? <==> status.TimedOut?)
  }

  lemma EachStatusHasItsState(status: Status)
    ensures SameEnd(States.FromStr(States.StatusText(status)), status)
  {}

  /** Why a job stops after `n` recorded states. */
  ghost predicate Stalls(work: Work, luck: Luck, s: Run, now: nat, n: nat) {
    || !luck.transition(n).Done?
    || (n == 0 && (!luck.admitted || (work.Workflow? && !(1 <= work.plan.maxIterations <= 20))))
    || (n == 2 && !luck.prepared)
    || (n == 3 && BreaksOff(work, s, now))
    || (n == 4 && !luck.collected)
  }

  /** The states added by a whole run. */
  function Lifecycle(key: JobKey, terminal: States.State): seq<Event> {
    [Event(key, States.Received), Event(key, States.Preparing), Event(key, States.Running),
     Event(key, States.Collecting), Event(key, terminal), Event(key, States.Destroying),
     Event(key, States.Destroyed)]
  }

  /** The transitions before the work, with the preparation between them. */
  method Commence(j: Store, key: JobKey, luck: Luck, ghost before: seq<Event>, ghost open: States.State)
    returns (ok: bool, ghost n: nat)
    requires Recorded(before, j.events, key, open, 0)
    modifies j`jobs, j`events
    ensures Recorded(before, j.events, key, open, n)
    ensures ok ==> n == 3
    ensures !ok ==> n < 3 && (!luck.transition(n).Done? || (n == 2 && !luck.prepared))
    ensures forall i | 0 <= i < n :: luck.transition(i).Done?
    ensures j.jobs - {key} == old(j.jobs) - {key}
  {
    ChainEnds(open);
    hide Recorded, States.Chain;
    ok, n := EnterAll(j, key, [States.Received, States.Preparing], luck.transition, 0, before, open);
    if !ok {
      return;
    }
    if !luck.prepared {
      return false, n;
    }
    ok := Enter(j, key, States.Running, luck.transition(2), before, open, n);
    if ok {
      n := 3;
    }
  }

  /** The transitions after the work: the state of its status, and the removal of its container. */
  method Conclude(j: Store, key: JobKey, status: Status, fates: nat -> Fate,
                  ghost before: seq<Event>, ghost open: States.State)
    returns (ok: bool, ghost terminal: States.State, ghost n: nat)
    requires Recorded(before, j.events, key, open, 4)
    modifies j`jobs, j`events
    ensures States.Terminal(terminal) && SameEnd(terminal, status) && Recorded(before, j.events, key, terminal, n)
    ensures ok ==> n == 7 && key in j.jobs && j.jobs[key] == States.Destroyed
    ensures ok ==> j.events == before + Lifecycle(key, terminal)
    ensures !ok ==> 4 <= n < 7 && !fates(n).Done?
    ensures forall i | 4 <= i < n :: fates(i).Done?
    ensures j.jobs - {key} == old(j.jobs) - {key}
  {
    var final := States.FromStr(States.StatusText(status));
    terminal := final;
    hide Recorded, SameEnd, States.FromStr, States.StatusText, States.Chain, Lifecycle;
    States.StatusIsTerminal(status);
    EachStatusHasItsState(status);
    TerminalIsOpen(before, j.events, key, open, final);
    ChainEnds(final);
    ok, n := EnterAll(j, key, [final, States.Destroying, States.Destroyed], fates, 4, before, final);
    if ok {
      WholeLifecycle(before, j.events, key, final);
    }
  }

  /**
   Runs a job from admission to the result, recording every stage it enters. It stops early only for a
   reason, and returns a result exactly if it has recorded the whole lifecycle.
   */
  method RunJob(j: Store, key: JobKey, work: Work, limit: nat, luck: Luck, dropped: bool)
    returns (
      r: Option<JobResult>, emitted: seq<Chunk>,
      ghost s: Run, ghost terminal: States.State, ghost n: nat, ghost rechecked: nat, ghost now: nat)
    requires work.Workflow? ==> Sticky(work.env)
    modifies j`jobs, j`events
    ensures States.Terminal(terminal) && Recorded(old(j.events), j.events, key, terminal, n)
    ensures r.Some? <==> n == 7
    ensures n < 7 ==> Stalls(work, luck, s, now, n)
    ensures forall i | 0 <= i < n :: luck.transition(i).Done?
    ensures r.Some? ==>
      && SameEnd(terminal, r.value.status)
      && Coherent(r.value) && r.value.key == key
      && Carried(emitted, r.value) && LogIsTruthful(emitted, dropped, r.value)
      && Truthful(work, limit, s, dropped, rechecked, now, r.value)
      && key in j.jobs && j.jobs[key] == States.Destroyed
      && j.events == old(j.events) + Lifecycle(key, terminal)
    ensures j.jobs - {key} == old(j.jobs) - {key}
  {
    r, emitted, s, terminal, n := None, [], Run([], [], [], false, []), States.Failed, 0;
    rechecked, now := 0, 0;
    NothingRecorded(j.events, key, terminal);
    hide Recorded, Coherent, Truthful, Carried, LogIsTruthful, ValidWork, BreaksOff, SameEnd, Lifecycle;
    hide States.FromStr, States.StatusText, States.Chain;
    if !luck.admitted || !ValidWork(work) {
      return;
    }
    var ok;
    ok, n := Commence(j, key, luck, old(j.events), terminal);
    if !ok {
      return;
    }
    var result;
    result, emitted, s, rechecked, now := Perform(key, work, limit, dropped);
    if result.None? {
      return;
    }
    ChainEnds(terminal);
    ok := Enter(j, key, States.Collecting, luck.transition(3), old(j.events), terminal, n);
    if !ok {
      return;
    }
    n := 4;
    if !luck.collected {
      return;
    }
    ok, terminal, n := Conclude(j, key, result.value.status, luck.transition, old(j.events), terminal);
    if !ok {
      return;
    }
    r := result;
  }

  lemma WholeLifecycle(before: seq<Event>, after: seq<Event>, key: JobKey, terminal: States.State)
    requires Recorded(before, after, key, terminal, 7)
    ensures after == before + Lifecycle(key, terminal)
  {
    var states := States.Chain(terminal);
    assert states[..7] == states;
  }
}
