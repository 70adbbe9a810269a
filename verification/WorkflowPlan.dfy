/**
 The workflow engine as one flat machine. A history is the sequence of execs a
 run has performed; `Next` is the only step a plan allows after a history. The
 nested loops of the engine (module WorkflowEngine) are proved to follow it, and
 the promises about whole runs (module WorkflowRuns) are proved of it.
 */
module WorkflowPlan {
  import opened Prelude
  import opened LogBuffer

  datatype Command = Command(argv: seq<string>, workingDirectory: Option<string>)
  datatype Verifier = Verifier(name: string, command: Command, required: bool)

  /** A job's workflow together with the verifiers the runner's own configuration adds. */
  datatype Plan = Plan(
    setup: seq<Command>, initialize: Option<Command>, agent: Command, verifiers: seq<Verifier>,
    mandatory: seq<Command>, publish: Option<Command>, maxIterations: nat)

  datatype Step =
    | Setup(index: nat)
    | Initialize
    | Agent(iteration: nat)
    | Verify(iteration: nat, index: nat)
    | Mandate(iteration: nat, index: nat)
    | Publish(iteration: nat)

  /** A line group of the verifier report; the fixed wording around the values is left out. */
  datatype Line =
    | AgentLine(iteration: nat, status: int)
    | VerifierLine(name: string, status: int, stdout: Bytes, stderr: Bytes)
    | MandatoryLine(argv: seq<string>, status: int, stdout: Bytes, stderr: Bytes)

  /** What the runner last wrote to the feedback file. */
  datatype Feedback =
    | NoFeedbackYet
    | SetupFailed
    | InitializeFailed(status: int, stdout: Bytes)
    | Report(lines: seq<Line>)

  /** One exec: which step it was, what ran, the feedback in place when it started, and what came back. */
  datatype Exec = Exec(step: Step, command: Command, seen: Feedback, raw: RawExec)

  type History = seq<Exec>

  /** Setup and initialize count as iteration 0. */
  function IterationOf(step: Step): nat {
    match step
    case Setup(_) => 0
    case Initialize => 0
    case Agent(k) => k
    case Verify(k, _) => k
    case Mandate(k, _) => k
    case Publish(k) => k
  }

  predicate InPlan(plan: Plan, step: Step) {
    match step
    case Setup(i) => i < |plan.setup|
    case Initialize => plan.initialize.Some?
    case Agent(k) => 1 <= k <= plan.maxIterations
    case Verify(k, i) => 1 <= k <= plan.maxIterations && i < |plan.verifiers|
    case Mandate(k, i) => 1 <= k <= plan.maxIterations && i < |plan.mandatory|
    case Publish(k) => 1 <= k <= plan.maxIterations && plan.publish.Some?
  }

  function CommandOf(plan: Plan, step: Step): Command
    requires InPlan(plan, step)
  {
    match step
    case Setup(i) => plan.setup[i]
    case Initialize => plan.initialize.value
    case Agent(_) => plan.agent
    case Verify(_, i) => plan.verifiers[i].command
    case Mandate(_, i) => plan.mandatory[i]
    case Publish(_) => plan.publish.value
  }

  /** A failing optional verifier is reported but never counts against the iteration. */
  predicate Counts(plan: Plan, step: Step) {
    step.Verify? && step.index < |plan.verifiers| ==> plan.verifiers[step.index].required
  }

  /** The exec ended the run: it was cancelled, timed out, or Docker failed. */
  predicate Halts(e: Exec) {
    e.raw.Broken? || e.raw.end.Stopped?
  }

  predicate ExitedZero(e: Exec) {
    !Halts(e) && StatusOf(e.raw.end) == 0
  }

  predicate Failing(plan: Plan, e: Exec) {
    !Halts(e) && Counts(plan, e.step) && !ExitedZero(e)
  }

  /** No exec of iteration `k` counts against it. */
  predicate Passed(plan: Plan, h: History, k: nat) {
    forall i | 0 <= i < |h| && IterationOf(h[i].step) == k :: !Failing(plan, h[i])
  }

  function Begin(plan: Plan, k: nat): Option<Step> {
    if 1 <= k <= plan.maxIterations then Some(Agent(k)) else None
  }

  function SetupFrom(plan: Plan, h: History, i: nat): Option<Step> {
    if i < |plan.setup| then Some(Setup(i))
    else if !Passed(plan, h, 0) then None
    else if plan.initialize.Some? then Some(Initialize)
    else Begin(plan, 1)
  }

  function VerifyFrom(plan: Plan, h: History, k: nat, i: nat): Option<Step> {
    if i < |plan.verifiers| then Some(Verify(k, i)) else MandateFrom(plan, h, k, 0)
  }

  function MandateFrom(plan: Plan, h: History, k: nat, i: nat): Option<Step> {
    if i < |plan.mandatory| then Some(Mandate(k, i)) else PublishFrom(plan, h, k)
  }

  function PublishFrom(plan: Plan, h: History, k: nat): Option<Step> {
    if !Passed(plan, h, k) then Begin(plan, k + 1)
    else if plan.publish.Some? then Some(Publish(k))
    else None
  }

  /** Where the plan goes after exec `e`, the last of `h`. */
  function After(plan: Plan, h: History, e: Exec): Option<Step> {
    if Halts(e) then None else
    match e.step
    case Setup(i) => SetupFrom(plan, h, i + 1)
    case Initialize => if ExitedZero(e) then Begin(plan, 1) else None
    case Agent(k) => VerifyFrom(plan, h, k, 0)
    case Verify(k, i) => VerifyFrom(plan, h, k, i + 1)
    case Mandate(k, i) => MandateFrom(plan, h, k, i + 1)
    case Publish(k) => if ExitedZero(e) then None else Begin(plan, k + 1)
  }

  /** The only step `plan` allows after `h`; None when the run is over. */
  function Next(plan: Plan, h: History): Option<Step> {
    if h == [] then SetupFrom(plan, h, 0) else After(plan, h, h[|h| - 1])
  }

  function LineOf(plan: Plan, limit: nat, e: Exec): seq<Line> {
    if Halts(e) then [] else
    var r := Summarized(e.raw, limit);
    match e.step
    case Agent(k) => [AgentLine(k, r.status)]
    case Verify(_, i) =>
      if i < |plan.verifiers| then [VerifierLine(plan.verifiers[i].name, r.status, r.stdout, r.stderr)] else []
    case Mandate(_, i) =>
      if i < |plan.mandatory| then [MandatoryLine(plan.mandatory[i].argv, r.status, r.stdout, r.stderr)] else []
    case _ => []
  }

  /** The report on iteration `k`: one entry per agent or verifier exec that ran to its end. */
  function ReportOf(plan: Plan, limit: nat, h: History, k: nat): seq<Line> {
    if h == [] then []
    else
      var e := h[|h| - 1];
      ReportOf(plan, limit, h[..|h| - 1], k) + if IterationOf(e.step) == k then LineOf(plan, limit, e) else []
  }

  /** The feedback every exec of iteration `k` has to find in place. */
  function FeedbackFor(plan: Plan, limit: nat, h: History, k: nat): Feedback {
    if k <= 1 then NoFeedbackYet else Report(ReportOf(plan, limit, h, k - 1))
  }

  /** `e` is the exec the plan asks for after `h`. */
  predicate Allowed(plan: Plan, limit: nat, h: History, e: Exec) {
    && Next(plan, h) == Some(e.step)
    && InPlan(plan, e.step)
    && e.command == CommandOf(plan, e.step)
    && e.seen == FeedbackFor(plan, limit, h, IterationOf(e.step))
  }

  /** Every exec of `h` is the one the plan asks for at its place. */
  predicate Follows(plan: Plan, limit: nat, h: History) {
    h == [] || (Follows(plan, limit, h[..|h| - 1]) && Allowed(plan, limit, h[..|h| - 1], h[|h| - 1]))
  }

  /** The run is over because an iteration passed all its checks and, if asked to, published. */
  predicate Succeeded(plan: Plan, h: History) {
    && h != []
    && var e := h[|h| - 1];
    && !Halts(e)
    && 1 <= IterationOf(e.step)
    && Next(plan, h) == None
    && Passed(plan, h, IterationOf(e.step))
  }

  datatype Phase = SetupPhase | InitializePhase | AgentPhase | VerifierPhase | PublishPhase

  function PhaseOf(step: Step): Phase {
    match step
    case Setup(_) => SetupPhase
    case Initialize => InitializePhase
    case Agent(_) => AgentPhase
    case Verify(_, _) => VerifierPhase
    case Mandate(_, _) => VerifierPhase
    case Publish(_) => PublishPhase
  }

  /** The phase of the most recent exec that counted as a failure. */
  function LastFailure(plan: Plan, h: History): Option<Phase> {
    if h == [] then None
    else if Failing(plan, h[|h| - 1]) then Some(PhaseOf(h[|h| - 1].step))
    else LastFailure(plan, h[..|h| - 1])
  }

  /** All raw output a run reports on one stream, execs in order and nothing truncated. */
  function Output(h: History, stream: Stream): Bytes {
    if h == [] then []
    else
      var e := h[|h| - 1];
      Output(h[..|h| - 1], stream) + if e.raw.Ran? then Collected(e.raw.chunks, stream) else []
  }

  /** The live log of a run: what its execs passed on, in order. */
  function Emitted(h: History): seq<Chunk> {
    if h == [] then []
    else
      var e := h[|h| - 1];
      Emitted(h[..|h| - 1]) + Live(e.raw.chunks)
  }

  /** Everything the execs of a run wrote on one stream, also what arrived before Docker failed. */
  function Written(h: History, stream: Stream): Bytes {
    if h == [] then []
    else
      Written(h[..|h| - 1], stream) + Collected(h[|h| - 1].raw.chunks, stream)
  }

  /** The live log carries all that was written, which is all output of a run that Docker did not break. */
  lemma {:induction false} EmittedCarries(h: History, stream: Stream)
    requires !stream.OtherStream?
    ensures Collected(Emitted(h), stream) == Written(h, stream)
    ensures (forall i | 0 <= i < |h| :: h[i].raw.Ran?) ==> Written(h, stream) == Output(h, stream)
  {
    if h == [] {
    } else {
      var n := |h| - 1;
      EmittedCarries(h[..n], stream);
      CollectedSplits(Emitted(h[..n]), Live(h[n].raw.chunks), stream);
      LiveCarries(h[n].raw.chunks, stream);
      hide Collected, Live;
      assert (forall i | 0 <= i < |h| :: h[i].raw.Ran?) ==> forall i | 0 <= i < n :: h[..n][i].raw.Ran?;
    }
  }

  /** How each derived value grows when a history is extended by one exec. */
  lemma Extend(plan: Plan, limit: nat, h: History, e: Exec, k: nat)
    ensures Passed(plan, h + [e], k) <==> Passed(plan, h, k) && !(IterationOf(e.step) == k && Failing(plan, e))
    ensures ReportOf(plan, limit, h + [e], k)
         == ReportOf(plan, limit, h, k) + if IterationOf(e.step) == k then LineOf(plan, limit, e) else []
    ensures LastFailure(plan, h + [e]) == if Failing(plan, e) then Some(PhaseOf(e.step)) else LastFailure(plan, h)
  {
    var g := h + [e];
    assert g[..|g| - 1] == h && g[|g| - 1] == e;
    if Passed(plan, g, k) {
      assert forall i | 0 <= i < |h| :: g[i] == h[i];
    }
  }
}
