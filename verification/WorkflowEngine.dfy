/**
 The workflow engine in its own form: sequential and nested loops that share the
 flags `setupOk`, `termination`, `allPassed` and the report under construction.
 Every loop invariant says where in the flat machine of WorkflowPlan the loop is.
 */
module WorkflowEngine {
  import opened Prelude
  import opened LogBuffer
  import opened WorkflowPlan
  import opened WorkflowRuns
  import opened Protocol

  /**
   Everything the engine cannot decide: what the n-th exec does, and, at each of its
   observations, whether the job is cancelled, the deadline has passed and a file can be written.
   */
  datatype Env = Env(
    run: (nat, Command) -> RawExec, cancelled: nat -> bool, expired: nat -> bool, writable: nat -> bool)

  /** A cancellation token is never reset and the clock never goes back. */
  ghost predicate Sticky(env: Env) {
    && (forall i: nat, j: nat :: i <= j && env.cancelled(i) ==> env.cancelled(j))
    && (forall i: nat, j: nat :: i <= j && env.expired(i) ==> env.expired(j))
  }

  /** What has run so far, the log buffers it left and the live log it passed on. */
  datatype Run = Run(history: History, stdout: Bytes, stderr: Bytes, truncated: bool, emitted: seq<Chunk>)

  /** The runner's other variables: the feedback file, the failed phase, and the observations made. */
  datatype Desk = Desk(feedback: Feedback, failedPhase: Option<Phase>, now: nat)

  /**
   The buffers are flat truncations of all output so far, the flag says exactly that bytes were lost
   in them, and the live log got everything.
   */
  predicate Buffered(limit: nat, s: Run) {
    && s.emitted == Emitted(s.history)
    && s.stdout == First(limit, Output(s.history, StdOut))
    && s.stderr == First(limit, Output(s.history, StdErr))
    && (s.truncated <==> |Output(s.history, StdOut)| > limit || |Output(s.history, StdErr)| > limit)
  }

  /** The history follows the plan and the environment, stays within iteration `k`, and the buffers agree with it. */
  predicate Sound(plan: Plan, env: Env, limit: nat, s: Run, k: nat) {
    Follows(plan, limit, s.history) && Within(s.history, k) && Buffered(limit, s) && FromEnv(env, s.history)
  }

  /** What each exec did is what the environment answered to its command. */
  predicate FromEnv(env: Env, h: History) {
    forall i | 0 <= i < |h| :: h[i].raw == env.run(i, h[i].command)
  }

  predicate Within(h: History, k: nat) {
    forall i | 0 <= i < |h| :: IterationOf(h[i].step) <= k
  }

  predicate Halted(h: History) {
    h != [] && Halts(h[|h| - 1])
  }

  predicate StoppedBy(h: History, reason: Termination) {
    h != [] && h[|h| - 1].raw.Ran? && h[|h| - 1].raw.end == Stopped(reason)
  }

  /** The run stopped early because the environment said so, in the last exec or, after it ended, at a check. */
  predicate Explained(env: Env, h: History, now: nat, reason: Termination) {
    || StoppedBy(h, reason)
    || (!Halted(h) && reason.ByCancellation? && env.cancelled(now))
    || (!Halted(h) && reason.ByDeadline? && env.expired(now))
  }

  /** At a check, a cancellation that is seen comes before the deadline. */
  predicate CancellationFirst(env: Env, h: History, now: nat, reason: Termination) {
    !Halted(h) && env.cancelled(now) ==> reason.ByCancellation?
  }

  /** An abort has a cause: Docker failed in the last exec, or the last feedback write failed. */
  predicate Broke(env: Env, h: History, now: nat) {
    (h != [] && h[|h| - 1].raw.Broken?) || (now > 0 && !env.writable(now - 1))
  }

  /** The engine stands in iteration `k` after an exec that ran to its end, its flags in step with the history. */
  predicate Standing(
    plan: Plan, env: Env, limit: nat, s: Run, failedPhase: Option<Phase>, k: nat, allPassed: bool, report: seq<Line>)
  {
    && Sound(plan, env, limit, s, k)
    && !Halted(s.history)
    && failedPhase == LastFailure(plan, s.history)
    && allPassed == Passed(plan, s.history, k)
    && report == ReportOf(plan, limit, s.history, k)
  }

  lemma BufferedStep(limit: nat, s0: Run, s: Run, e: Exec)
    requires Buffered(limit, s0) && s.history == s0.history + [e]
    requires e.raw.Broken? ==> s.stdout == s0.stdout && s.stderr == s0.stderr && s.truncated == s0.truncated
    requires e.raw.Ran? ==>
      var r := Summarized(e.raw, limit);
      && s.stdout == First(limit, s0.stdout + r.stdout)
      && s.stderr == First(limit, s0.stderr + r.stderr)
      && (s.truncated <==>
          s0.truncated || r.truncated || |s0.stdout| + |r.stdout| > limit || |s0.stderr| + |r.stderr| > limit)
    requires s.emitted == s0.emitted + Live(e.raw.chunks)
    ensures Buffered(limit, s)
  {
    assert s.history[..|s.history| - 1] == s0.history;
    var out, err := Output(s0.history, StdOut), Output(s0.history, StdErr);
    assert Output(s.history, StdOut) == out + if e.raw.Ran? then Collected(e.raw.chunks, StdOut) else [];
    assert Output(s.history, StdErr) == err + if e.raw.Ran? then Collected(e.raw.chunks, StdErr) else [];
    assert Emitted(s.history) == Emitted(s0.history) + Live(e.raw.chunks);
    hide Live, Collected, Output, Emitted;
    if e.raw.Ran? {
      FirstOfFirsts(limit, out, Collected(e.raw.chunks, StdOut));
      FirstOfFirsts(limit, err, Collected(e.raw.chunks, StdErr));
    }
    hide First;
  }

  lemma FollowsOn(plan: Plan, env: Env, limit: nat, h: History, e: Exec, k: nat)
    requires Follows(plan, limit, h) && Within(h, k) && FromEnv(env, h)
    requires IterationOf(e.step) <= k && Allowed(plan, limit, h, e) && e.raw == env.run(|h|, e.command)
    ensures Follows(plan, limit, h + [e]) && Within(h + [e], k) && FromEnv(env, h + [e])
  {
    assert (h + [e])[..|h|] == h;
    hide Allowed;
  }

  /** Runs one command of the plan and adds its output to the run's buffers. */
  method Launch(plan: Plan, env: Env, limit: nat, s0: Run, seen: Feedback, step: Step, ghost k: nat)
    returns (s: Run, result: Option<ExecResult>, ghost e: Exec)
    requires Sound(plan, env, limit, s0, k) && IterationOf(step) <= k
    requires Next(plan, s0.history) == Some(step) && InPlan(plan, step)
    requires seen == FeedbackFor(plan, limit, s0.history, IterationOf(step))
    ensures e == Exec(step, CommandOf(plan, step), seen, env.run(|s0.history|, CommandOf(plan, step)))
    ensures Allowed(plan, limit, s0.history, e)
    ensures s.history == s0.history + [e] && s.history != [] && s.history[|s.history| - 1] == e
    ensures Sound(plan, env, limit, s, k)
    ensures result.None? <==> e.raw.Broken?
    ensures result.Some? ==>
      && result.value == Summarized(e.raw, limit)
      && (result.value.termination.None? <==> !Halts(e))
      && (result.value.termination.None? ==> (result.value.status == 0 <==> ExitedZero(e)))
  {
    hide Next, Follows, Within, Output, FeedbackFor, Collected, Live, Emitted;
    var command := CommandOf(plan, step);
    var raw := env.run(|s0.history|, command);
    e := Exec(step, command, seen, raw);
    var emitted;
    result, emitted := ExecCommand(raw, limit);
    s := s0.(history := s0.history + [Exec(step, command, seen, raw)], emitted := s0.emitted + emitted);
    if result.Some? {
      var r := result.value;
      var truncated := s0.truncated || r.truncated;
      var stdout, cutOut := AppendBounded(s0.stdout, r.stdout, limit);
      truncated := truncated || cutOut;
      var stderr, cutErr := AppendBounded(s0.stderr, r.stderr, limit);
      truncated := truncated || cutErr;
      s := s.(stdout := stdout, stderr := stderr, truncated := truncated);
    }
    BufferedStep(limit, s0, s, e);
    FollowsOn(plan, env, limit, s0.history, e, k);
    hide Buffered, Allowed, FromEnv;
  }

  /** After an exec that ran to its end, the flags updated as the loops do are in step again. */
  lemma Advance(plan: Plan, env: Env, limit: nat, s0: Run, s: Run, e: Exec,
                phase0: Option<Phase>, phase: Option<Phase>, allPassed: bool, report: seq<Line>)
    requires !Halts(e) && Allowed(plan, limit, s0.history, e)
    requires Standing(plan, env, limit, s0, phase0, IterationOf(e.step), allPassed, report)
    requires Sound(plan, env, limit, s, IterationOf(e.step))
    requires s.history == s0.history + [e]
    requires phase == if Failing(plan, e) then Some(PhaseOf(e.step)) else phase0
    ensures Standing(plan, env, limit, s, phase, IterationOf(e.step),
                     allPassed && !Failing(plan, e), report + LineOf(plan, limit, e))
    ensures FeedbackFor(plan, limit, s.history, IterationOf(e.step)) == e.seen
  {
    var k := IterationOf(e.step);
    Extend(plan, limit, s0.history, e, k);
    if k > 1 {
      Extend(plan, limit, s0.history, e, k - 1);
    }
  }

  /** Where each kind of exec leads when it ran to its end. */
  lemma Onward(plan: Plan, h: History, step: Step, k: nat, i: nat)
    requires h != [] && h[|h| - 1].step == step && !Halts(h[|h| - 1])
    ensures step == Setup(i) ==> Next(plan, h) == SetupFrom(plan, h, i + 1)
    ensures step == Initialize ==> Next(plan, h) == if ExitedZero(h[|h| - 1]) then Begin(plan, 1) else None
    ensures step == Agent(k) ==> Next(plan, h) == VerifyFrom(plan, h, k, 0)
    ensures step == Verify(k, i) ==> Next(plan, h) == VerifyFrom(plan, h, k, i + 1)
    ensures step == Mandate(k, i) ==> Next(plan, h) == MandateFrom(plan, h, k, i + 1)
    ensures step == Publish(k) ==> Next(plan, h) == if ExitedZero(h[|h| - 1]) then None else Begin(plan, k + 1)
  {}

  /** One write of the feedback file; a failed write ends the run with an error. */
  method WriteFeedback(env: Env, d0: Desk, feedback: Feedback) returns (d: Desk, aborted: bool)
    ensures aborted <==> !env.writable(d0.now)
    ensures d == d0.(now := d0.now + 1, feedback := if aborted then d0.feedback else feedback)
  {
    aborted := !env.writable(d0.now);
    d := d0.(now := d0.now + 1);
    if !aborted {
      d := d.(feedback := feedback);
    }
  }

  /** The common promise of every part of the engine: how it may leave the run. */
  predicate Reached(plan: Plan, env: Env, limit: nat, s: Run, d: Desk, k: nat, allPassed: bool, report: seq<Line>,
                    termination: Option<Termination>, aborted: bool) {
    && Sound(plan, env, limit, s, k)
    && (aborted ==> Broke(env, s.history, d.now) && !Succeeded(plan, s.history))
    && (!aborted && termination.Some? ==> StoppedBy(s.history, termination.value))
    && (!aborted && termination.None? ==> Standing(plan, env, limit, s, d.failedPhase, k, allPassed, report))
  }

  method RunSetupCommand(plan: Plan, env: Env, limit: nat, s0: Run, d0: Desk, i: nat, setupOk0: bool)
    returns (s: Run, d: Desk, setupOk: bool, termination: Option<Termination>, aborted: bool)
    requires i < |plan.setup| && d0.feedback == NoFeedbackYet
    requires Standing(plan, env, limit, s0, d0.failedPhase, 0, setupOk0, []) && Next(plan, s0.history) == Some(Setup(i))
    ensures Reached(plan, env, limit, s, d, 0, setupOk, [], termination, aborted)
    ensures !aborted && termination.None? ==> Next(plan, s.history) == SetupFrom(plan, s.history, i + 1)
    ensures d == d0.(failedPhase := d.failedPhase)
  {
    hide Next, Follows, Within, Buffered, Passed, ReportOf, LastFailure, SetupFrom;
    var result; ghost var e;
    s, result, e := Launch(plan, env, limit, s0, d0.feedback, Setup(i), 0);
    d, setupOk, termination, aborted := d0, setupOk0, None, result.None?;
    if aborted {
      return;
    }
    termination := result.value.termination;
    if termination.Some? {
      d := d.(failedPhase := Some(SetupPhase));
      return;
    }
    if result.value.status != 0 {
      setupOk := false;
      d := d.(failedPhase := Some(SetupPhase));
    }
    Advance(plan, env, limit, s0, s, e, d0.failedPhase, d.failedPhase, setupOk0, []);
    Onward(plan, s.history, Setup(i), 0, i);
  }

  method RunSetup(plan: Plan, env: Env, limit: nat, s0: Run, d0: Desk)
    returns (s: Run, d: Desk, setupOk: bool, termination: Option<Termination>, aborted: bool)
    requires Sticky(env)
    requires s0.history == [] && d0.feedback == NoFeedbackYet
    requires Standing(plan, env, limit, s0, d0.failedPhase, 0, true, [])
    ensures Sound(plan, env, limit, s, 0)
    ensures aborted ==> Broke(env, s.history, d.now)
    ensures !aborted && termination.Some? ==>
      Explained(env, s.history, d.now, termination.value) && CancellationFirst(env, s.history, d.now, termination.value)
    ensures !aborted && termination.None? ==>
      && Standing(plan, env, limit, s, d.failedPhase, 0, setupOk, [])
      && Next(plan, s.history) == SetupFrom(plan, s.history, |plan.setup|)
      && d.feedback == if setupOk then NoFeedbackYet else SetupFailed
  {
    hide Follows, Within, Buffered, Passed, LastFailure;
    s, d, setupOk, termination, aborted := s0, d0, true, None, false;
    for i := 0 to |plan.setup|
      invariant !aborted && termination.None?
      invariant Standing(plan, env, limit, s, d.failedPhase, 0, setupOk, [])
      invariant Next(plan, s.history) == SetupFrom(plan, s.history, i)
      invariant d.feedback == NoFeedbackYet
    {
      if env.cancelled(d.now) || env.expired(d.now) {
        d := d.(now := d.now + 1);
        termination := Some(if env.cancelled(d.now) then ByCancellation else ByDeadline);
        d := d.(failedPhase := Some(SetupPhase));
        return;
      }
      d := d.(now := d.now + 1);
      s, d, setupOk, termination, aborted := RunSetupCommand(plan, env, limit, s, d, i, setupOk);
      if aborted || termination.Some? {
        return;
      }
    }
    if !setupOk {
      d, aborted := WriteFeedback(env, d, SetupFailed);
    }
  }

  /** The feedback after a failed initialize: its exit code and what is kept of its output. */
  ghost predicate TellsInitialize(limit: nat, e: Exec, feedback: Feedback) {
    feedback == InitializeFailed(CodeOf(e), First(limit, Collected(e.raw.chunks, StdOut)))
  }

  method RunInitialize(plan: Plan, env: Env, limit: nat, s0: Run, d0: Desk, setupOk0: bool)
    returns (s: Run, d: Desk, setupOk: bool, termination: Option<Termination>, aborted: bool)
    requires Sticky(env)
    requires Standing(plan, env, limit, s0, d0.failedPhase, 0, setupOk0, [])
    requires Next(plan, s0.history) == SetupFrom(plan, s0.history, |plan.setup|)
    requires setupOk0 ==> d0.feedback == NoFeedbackYet
    ensures Reached(plan, env, limit, s, d, 0, setupOk, [], termination, aborted)
    ensures !aborted && termination.None? ==>
      && (Next(plan, s.history) == (if setupOk then Begin(plan, 1) else None) || env.cancelled(d.now))
      && (setupOk ==> d.feedback == NoFeedbackYet)
      && (!setupOk0 ==> !setupOk && d.feedback == d0.feedback)
      && (setupOk0 && !setupOk ==> s.history != [] && TellsInitialize(limit, s.history[|s.history| - 1], d.feedback))
  {
    hide Next, Follows, Within, Buffered, Passed, ReportOf, LastFailure;
    s, d, setupOk, termination, aborted := s0, d0.(now := d0.now + 1), setupOk0, None, false;
    if !env.cancelled(d0.now) && setupOk && plan.initialize.Some? {
      var result; ghost var e;
      s, result, e := Launch(plan, env, limit, s0, d.feedback, Initialize, 0);
      aborted := result.None?;
      if aborted {
        return;
      }
      termination := result.value.termination;
      if termination.Some? {
        d := d.(failedPhase := Some(InitializePhase));
        return;
      }
      if result.value.status != 0 {
        setupOk := false;
        d := d.(failedPhase := Some(InitializePhase));
        d, aborted := WriteFeedback(env, d, InitializeFailed(result.value.status, result.value.stdout));
      }
      Advance(plan, env, limit, s0, s, e, d0.failedPhase, d.failedPhase, setupOk0, []);
      Onward(plan, s.history, Initialize, 0, 0);
    }
  }

  /** The last exec belongs to iteration `k` and the feedback file is the one that iteration works from. */
  predicate Amid(plan: Plan, limit: nat, s: Run, d: Desk, k: nat) {
    && s.history != []
    && IterationOf(s.history[|s.history| - 1].step) == k
    && d.feedback == FeedbackFor(plan, limit, s.history, k)
  }

  method RunAgent(plan: Plan, env: Env, limit: nat, s0: Run, d0: Desk, k: nat)
    returns (s: Run, d: Desk, allPassed: bool, report: seq<Line>, termination: Option<Termination>, aborted: bool)
    requires 1 <= k <= plan.maxIterations
    requires Standing(plan, env, limit, s0, d0.failedPhase, k, true, [])
    requires d0.feedback == FeedbackFor(plan, limit, s0.history, k)
    requires Next(plan, s0.history) == Some(Agent(k))
    ensures Reached(plan, env, limit, s, d, k, allPassed, report, termination, aborted)
    ensures !aborted && termination.None? ==>
      Amid(plan, limit, s, d, k) && Next(plan, s.history) == VerifyFrom(plan, s.history, k, 0)
    ensures d == d0.(failedPhase := d.failedPhase)
  {
    hide Next, Follows, Within, Buffered, Passed, ReportOf, LastFailure, FeedbackFor, VerifyFrom;
    var result; ghost var e;
    s, result, e := Launch(plan, env, limit, s0, d0.feedback, Agent(k), k);
    d, allPassed, report, termination, aborted := d0, true, [], None, result.None?;
    if aborted {
      return;
    }
    termination := result.value.termination;
    if termination.Some? {
      d := d.(failedPhase := Some(AgentPhase));
      return;
    }
    allPassed := result.value.status == 0;
    if result.value.status != 0 {
      d := d.(failedPhase := Some(AgentPhase));
    }
    report := [AgentLine(k, result.value.status)];
    Advance(plan, env, limit, s0, s, e, d0.failedPhase, d.failedPhase, true, []);
    Onward(plan, s.history, Agent(k), k, 0);
  }

  method RunVerifier(
    plan: Plan, env: Env, limit: nat, s0: Run, d0: Desk, k: nat, i: nat, allPassed0: bool, report0: seq<Line>)
    returns (s: Run, d: Desk, allPassed: bool, report: seq<Line>, termination: Option<Termination>, aborted: bool)
    requires 1 <= k <= plan.maxIterations && i < |plan.verifiers|
    requires Standing(plan, env, limit, s0, d0.failedPhase, k, allPassed0, report0) && Amid(plan, limit, s0, d0, k)
    requires Next(plan, s0.history) == Some(Verify(k, i))
    ensures Reached(plan, env, limit, s, d, k, allPassed, report, termination, aborted)
    ensures !aborted && termination.None? ==>
      Amid(plan, limit, s, d, k) && Next(plan, s.history) == VerifyFrom(plan, s.history, k, i + 1)
    ensures d == d0.(failedPhase := d.failedPhase)
  {
    hide Next, Follows, Within, Buffered, Passed, ReportOf, LastFailure, FeedbackFor, VerifyFrom;
    var result; ghost var e;
    s, result, e := Launch(plan, env, limit, s0, d0.feedback, Verify(k, i), k);
    d, allPassed, report, termination, aborted := d0, allPassed0, report0, None, result.None?;
    if aborted {
      return;
    }
    termination := result.value.termination;
    if termination.Some? {
      d := d.(failedPhase := Some(VerifierPhase));
      return;
    }
    var verifier := plan.verifiers[i];
    report := report + [VerifierLine(verifier.name, result.value.status, result.value.stdout, result.value.stderr)];
    if verifier.required && result.value.status != 0 {
      allPassed := false;
      d := d.(failedPhase := Some(VerifierPhase));
    }
    Advance(plan, env, limit, s0, s, e, d0.failedPhase, d.failedPhase, allPassed0, report0);
    Onward(plan, s.history, Verify(k, i), k, i);
  }

  method RunMandatoryVerifier(
    plan: Plan, env: Env, limit: nat, s0: Run, d0: Desk, k: nat, i: nat, allPassed0: bool, report0: seq<Line>)
    returns (s: Run, d: Desk, allPassed: bool, report: seq<Line>, termination: Option<Termination>, aborted: bool)
    requires 1 <= k <= plan.maxIterations && i < |plan.mandatory|
    requires Standing(plan, env, limit, s0, d0.failedPhase, k, allPassed0, report0) && Amid(plan, limit, s0, d0, k)
    requires Next(plan, s0.history) == Some(Mandate(k, i))
    ensures Reached(plan, env, limit, s, d, k, allPassed, report, termination, aborted)
    ensures !aborted && termination.None? ==>
      Amid(plan, limit, s, d, k) && Next(plan, s.history) == MandateFrom(plan, s.history, k, i + 1)
    ensures d == d0.(failedPhase := d.failedPhase)
  {
    hide Next, Follows, Within, Buffered, Passed, ReportOf, LastFailure, FeedbackFor, MandateFrom;
    var result; ghost var e;
    s, result, e := Launch(plan, env, limit, s0, d0.feedback, Mandate(k, i), k);
    d, allPassed, report, termination, aborted := d0, allPassed0, report0, None, result.None?;
    if aborted {
      return;
    }
    termination := result.value.termination;
    if termination.Some? {
      d := d.(failedPhase := Some(VerifierPhase));
      return;
    }
    report := report
      + [MandatoryLine(plan.mandatory[i].argv, result.value.status, result.value.stdout, result.value.stderr)];
    if result.value.status != 0 {
      allPassed := false;
      d := d.(failedPhase := Some(VerifierPhase));
    }
    Advance(plan, env, limit, s0, s, e, d0.failedPhase, d.failedPhase, allPassed0, report0);
    Onward(plan, s.history, Mandate(k, i), k, i);
  }

  /** The job's verifiers, then the runner's; none of them starts after a termination. */
  method RunChecks(plan: Plan, env: Env, limit: nat, s0: Run, d0: Desk, k: nat, allPassed0: bool, report0: seq<Line>)
    returns (s: Run, d: Desk, allPassed: bool, report: seq<Line>, termination: Option<Termination>, aborted: bool)
    requires 1 <= k <= plan.maxIterations
    requires Standing(plan, env, limit, s0, d0.failedPhase, k, allPassed0, report0) && Amid(plan, limit, s0, d0, k)
    requires Next(plan, s0.history) == VerifyFrom(plan, s0.history, k, 0)
    ensures Reached(plan, env, limit, s, d, k, allPassed, report, termination, aborted)
    ensures !aborted && termination.None? ==>
      Amid(plan, limit, s, d, k) && Next(plan, s.history) == PublishFrom(plan, s.history, k)
    ensures d == d0.(failedPhase := d.failedPhase)
  {
    hide Next, Follows, Within, Buffered, Passed, ReportOf, LastFailure, FeedbackFor, PublishFrom;
    s, d, allPassed, report, termination, aborted := s0, d0, allPassed0, report0, None, false;
    for i := 0 to |plan.verifiers|
      invariant !aborted && termination.None?
      invariant Standing(plan, env, limit, s, d.failedPhase, k, allPassed, report) && Amid(plan, limit, s, d, k)
      invariant Next(plan, s.history) == VerifyFrom(plan, s.history, k, i)
      invariant d == d0.(failedPhase := d.failedPhase)
    {
      s, d, allPassed, report, termination, aborted := RunVerifier(plan, env, limit, s, d, k, i, allPassed, report);
      if aborted || termination.Some? {
        return;
      }
    }
    for i := 0 to |plan.mandatory|
      invariant !aborted && termination.None?
      invariant Standing(plan, env, limit, s, d.failedPhase, k, allPassed, report) && Amid(plan, limit, s, d, k)
      invariant Next(plan, s.history) == MandateFrom(plan, s.history, k, i)
      invariant d == d0.(failedPhase := d.failedPhase)
    {
      s, d, allPassed, report, termination, aborted :=
        RunMandatoryVerifier(plan, env, limit, s, d, k, i, allPassed, report);
      if aborted || termination.Some? {
        return;
      }
    }
  }

  method RunPublish(plan: Plan, env: Env, limit: nat, s0: Run, d0: Desk, k: nat, report: seq<Line>)
    returns (s: Run, d: Desk, allPassed: bool, termination: Option<Termination>, aborted: bool)
    requires 1 <= k <= plan.maxIterations && plan.publish.Some?
    requires Standing(plan, env, limit, s0, d0.failedPhase, k, true, report) && Amid(plan, limit, s0, d0, k)
    requires Next(plan, s0.history) == Some(Publish(k))
    ensures Reached(plan, env, limit, s, d, k, allPassed, report, termination, aborted)
    ensures !aborted && termination.None? ==>
      && Amid(plan, limit, s, d, k)
      && Next(plan, s.history) == if allPassed then None else Begin(plan, k + 1)
    ensures d == d0.(failedPhase := d.failedPhase)
  {
    hide Next, Follows, Within, Buffered, Passed, ReportOf, LastFailure, FeedbackFor, Begin;
    var result; ghost var e;
    s, result, e := Launch(plan, env, limit, s0, d0.feedback, Publish(k), k);
    d, allPassed, termination, aborted := d0, true, None, result.None?;
    if aborted {
      return;
    }
    termination := result.value.termination;
    if termination.Some? {
      d := d.(failedPhase := Some(PublishPhase));
    } else {
      allPassed := result.value.status == 0;
      if !allPassed {
        d := d.(failedPhase := Some(PublishPhase));
      }
      Advance(plan, env, limit, s0, s, e, d0.failedPhase, d.failedPhase, true, report);
      Onward(plan, s.history, Publish(k), k, 0);
    }
  }

  /** With the checks and the publish command behind it, an iteration succeeds exactly if everything passed. */
  lemma Verdict(plan: Plan, h: History, k: nat, allPassed: bool)
    requires 1 <= k && h != [] && IterationOf(h[|h| - 1].step) == k && !Halts(h[|h| - 1])
    requires allPassed == Passed(plan, h, k)
    requires Next(plan, h) == if allPassed then None else Begin(plan, k + 1)
    ensures allPassed <==> Succeeded(plan, h)
  {}

  lemma NothingToPublish(plan: Plan, h: History, k: nat, allPassed: bool)
    requires allPassed == Passed(plan, h, k) && Next(plan, h) == PublishFrom(plan, h, k)
    requires !allPassed || plan.publish.None?
    ensures Next(plan, h) == if allPassed then None else Begin(plan, k + 1)
  {}

  /** One agent attempt with all its checks, up to the report for the next attempt. */
  method RunIteration(plan: Plan, env: Env, limit: nat, s0: Run, d0: Desk, k: nat)
    returns (s: Run, d: Desk, completed: bool, termination: Option<Termination>, aborted: bool)
    requires 1 <= k <= plan.maxIterations
    requires Standing(plan, env, limit, s0, d0.failedPhase, k, true, [])
    requires d0.feedback == FeedbackFor(plan, limit, s0.history, k)
    requires Next(plan, s0.history) == Some(Agent(k))
    ensures Sound(plan, env, limit, s, k)
    ensures aborted ==> Broke(env, s.history, d.now)
    ensures aborted || termination.Some? ==> !completed && !Succeeded(plan, s.history)
    ensures !aborted && termination.Some? ==> StoppedBy(s.history, termination.value)
    ensures !aborted && termination.None? ==>
      && !Halted(s.history)
      && d.failedPhase == LastFailure(plan, s.history)
      && (completed <==> Succeeded(plan, s.history))
    ensures !aborted && termination.None? && !completed ==>
      && Next(plan, s.history) == Begin(plan, k + 1)
      && d.feedback == FeedbackFor(plan, limit, s.history, k + 1)
  {
    hide Next, Follows, Within, Buffered, Passed, ReportOf, LastFailure, Begin;
    var allPassed, report;
    completed := false;
    s, d, allPassed, report, termination, aborted := RunAgent(plan, env, limit, s0, d0, k);
    if aborted || termination.Some? {
      return;
    }
    s, d, allPassed, report, termination, aborted := RunChecks(plan, env, limit, s, d, k, allPassed, report);
    if aborted {
      return;
    }
    if termination.None? && allPassed && plan.publish.Some? {
      s, d, allPassed, termination, aborted := RunPublish(plan, env, limit, s, d, k, report);
      if aborted {
        return;
      }
    } else if termination.None? {
      NothingToPublish(plan, s.history, k, allPassed);
    }
    if termination.None? {
      Verdict(plan, s.history, k, allPassed);
    }
    if termination.None? && allPassed {
      completed := true;
      return;
    }
    d, aborted := WriteFeedback(env, d, Report(report));
  }

  /** An iteration that has not begun has passed so far and has nothing to report. */
  lemma {:induction false} NotYet(plan: Plan, limit: nat, h: History, k: nat)
    requires 1 <= k && Within(h, k - 1)
    ensures Passed(plan, h, k) && ReportOf(plan, limit, h, k) == []
  {
    if h == [] {
    } else {
      NotYet(plan, limit, h[..|h| - 1], k);
    }
  }

  /** Agent attempts until one succeeds, the iterations are used up, or the run is stopped. */
  method RunIterations(plan: Plan, env: Env, limit: nat, s0: Run, d0: Desk)
    returns (s: Run, d: Desk, completed: bool, termination: Option<Termination>, aborted: bool)
    requires Sticky(env)
    requires Standing(plan, env, limit, s0, d0.failedPhase, 0, true, [])
    requires Next(plan, s0.history) == Begin(plan, 1) || env.cancelled(d0.now)
    requires d0.feedback == NoFeedbackYet
    ensures Sound(plan, env, limit, s, plan.maxIterations)
    ensures aborted ==> Broke(env, s.history, d.now)
    ensures aborted || termination.Some? ==> !completed && !Succeeded(plan, s.history)
    ensures !aborted && termination.Some? ==> StoppedBy(s.history, termination.value)
    ensures !aborted && termination.None? ==>
      && !Halted(s.history)
      && d.failedPhase == LastFailure(plan, s.history)
      && (Next(plan, s.history) == None || env.cancelled(d.now))
      && (completed <==> Succeeded(plan, s.history))
  {
    hide Next, Follows, Buffered, Passed, LastFailure;
    s, d, completed, termination, aborted := s0, d0, false, None, false;
    for k := 1 to plan.maxIterations + 1
      invariant !completed && !aborted && termination.None?
      invariant Sound(plan, env, limit, s, k - 1) && !Halted(s.history)
      invariant d.failedPhase == LastFailure(plan, s.history)
      invariant Next(plan, s.history) == Begin(plan, k) || env.cancelled(d.now)
      invariant !Succeeded(plan, s.history)
      invariant d.feedback == FeedbackFor(plan, limit, s.history, k)
    {
      var cancelled := env.cancelled(d.now);
      d := d.(now := d.now + 1);
      if cancelled {
        return;
      }
      NotYet(plan, limit, s.history, k);
      s, d, completed, termination, aborted := RunIteration(plan, env, limit, s, d, k);
      if aborted || termination.Some? || completed {
        return;
      }
    }
  }

  function StatusFor(reason: Termination): Status {
    match reason
    case ByCancellation => Cancelled
    case ByDeadline => TimedOut
  }

  /** The engine either aborts with an error or finishes with a status. */
  datatype Outcome = Aborted | Finished(status: Status)

  /** The last look at the token and the clock, after which nothing can stop the run any more. */
  method Recheck(env: Env, ghost h: History, d0: Desk, termination0: Option<Termination>)
    returns (d: Desk, termination: Option<Termination>)
    requires Sticky(env)
    requires termination0.Some? ==> Explained(env, h, d0.now, termination0.value)
    requires termination0.None? ==> !Halted(h)
    ensures d == d0.(now := d.now) && d.now >= d0.now
    ensures termination0.Some? ==> termination == termination0
    ensures termination.Some? ==> Explained(env, h, d.now, termination.value)
    ensures termination0.None? ==>
      && (termination.None? <==> !env.cancelled(d0.now) && !env.expired(d0.now + 1))
      && (env.cancelled(d0.now) ==> termination == Some(ByCancellation))
    ensures termination.None? ==>
      d.now == d0.now + 2 && forall t: nat | t <= d0.now :: !env.cancelled(t) && !env.expired(t)
  {
    d, termination := d0, termination0;
    if termination.None? {
      if env.cancelled(d.now) {
        termination := Some(ByCancellation);
      }
      d := d.(now := d.now + 1);
    }
    if termination.None? {
      if env.expired(d.now) {
        termination := Some(ByDeadline);
      }
      d := d.(now := d.now + 1);
    }
  }

  lemma FollowsPlan(plan: Plan, env: Env, limit: nat, s: Run, k: nat)
    requires Sound(plan, env, limit, s, k)
    ensures Follows(plan, limit, s.history)
  {}

  lemma SetupNeverSucceeds(plan: Plan, h: History)
    ensures Within(h, 0) ==> !Succeeded(plan, h)
  {
    hide Next, Passed;
  }

  /** The three parts of a run, each started only if the one before it lets it. */
  method RunPhases(plan: Plan, env: Env, limit: nat)
    returns (s: Run, d: Desk, completed: bool, termination: Option<Termination>, aborted: bool)
    requires Sticky(env)
    ensures Sound(plan, env, limit, s, plan.maxIterations)
    ensures aborted ==> Broke(env, s.history, d.now)
    ensures completed <==> Succeeded(plan, s.history)
    ensures aborted || termination.Some? ==> !completed
    ensures !aborted && termination.Some? ==>
      Explained(env, s.history, d.now, termination.value) && CancellationFirst(env, s.history, d.now, termination.value)
    ensures !aborted && termination.None? ==>
      && !Halted(s.history)
      && d.failedPhase == LastFailure(plan, s.history)
      && (Next(plan, s.history) == None || env.cancelled(d.now))
  {
    s, d := Run([], [], [], false, []), Desk(NoFeedbackYet, None, 0);
    assert Standing(plan, env, limit, s, None, 0, true, []);
    hide Follows, Buffered, LastFailure;
    var setupOk;
    completed := false;
    s, d, setupOk, termination, aborted := RunSetup(plan, env, limit, s, d);
    SetupNeverSucceeds(plan, s.history);
    if aborted {
      return;
    }
    if termination.None? {
      s, d, setupOk, termination, aborted := RunInitialize(plan, env, limit, s, d, setupOk);
      SetupNeverSucceeds(plan, s.history);
      if aborted {
        return;
      }
    }
    if setupOk && termination.None? {
      s, d, completed, termination, aborted := RunIterations(plan, env, limit, s, d);
    }
  }

  /**
   The whole run, from the first setup command to the status it reports. It is completed exactly if
   everything succeeded and neither the token nor the deadline was seen at the last look, `rechecked`.
   */
  method RunWorkflow(plan: Plan, env: Env, limit: nat)
    returns (s: Run, d: Desk, outcome: Outcome, ghost rechecked: nat)
    requires Sticky(env)
    ensures Sound(plan, env, limit, s, plan.maxIterations)
    ensures outcome.Aborted? ==> Broke(env, s.history, d.now) && !Succeeded(plan, s.history)
    ensures outcome == Finished(Completed) <==>
      Succeeded(plan, s.history) && !env.cancelled(rechecked) && !env.expired(rechecked + 1)
    ensures outcome == Finished(Failed) ==>
      && !Halted(s.history)
      && Next(plan, s.history) == None
      && !Succeeded(plan, s.history)
      && (SetupLost(plan, s.history) || Exhausted(plan, s.history))
      && d.failedPhase == LastFailure(plan, s.history)
    ensures outcome.Finished? ==>
      && (Halted(s.history) ==> s.history[|s.history| - 1].raw.Ran?)
      && forall reason | StoppedBy(s.history, reason) :: outcome == Finished(StatusFor(reason))
    ensures outcome.Finished? && !Halted(s.history) && env.cancelled(rechecked) ==> outcome == Finished(Cancelled)
    ensures outcome == Finished(Cancelled) ==> Explained(env, s.history, d.now, ByCancellation)
    ensures outcome == Finished(TimedOut) ==> Explained(env, s.history, d.now, ByDeadline)
    ensures outcome == Finished(Completed) || outcome == Finished(Failed) ==>
      d.now >= 2 && forall t: nat | t <= d.now - 2 :: !env.cancelled(t) && !env.expired(t)
  {
    hide Sound, Next, LastFailure, Succeeded;
    var completed, termination, aborted;
    s, d, completed, termination, aborted := RunPhases(plan, env, limit);
    rechecked := d.now;
    if aborted {
      return s, d, Aborted, rechecked;
    }
    d, termination := Recheck(env, s.history, d, termination);
    if termination.Some? {
      var reason := termination.value;
      assert reason.ByCancellation? || reason.ByDeadline?;
      return s, d, Finished(StatusFor(reason)), rechecked;
    }
    if !completed {
      assert Follows(plan, limit, s.history) by { FollowsPlan(plan, env, limit, s, plan.maxIterations); }
      FailureIsReal(plan, limit, s.history);
    }
    outcome := Finished(if completed then Completed else Failed);
  }
}
