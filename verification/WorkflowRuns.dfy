/**
 What every run of the workflow engine keeps, proved of the flat machine: for
 all plans and all histories that follow them.
 */
module WorkflowRuns {
  import opened Prelude
  import opened LogBuffer
  import opened WorkflowPlan

  lemma {:induction false} PrefixFollows(plan: Plan, limit: nat, h: History, i: nat)
    requires Follows(plan, limit, h) && i <= |h|
    ensures Follows(plan, limit, h[..i])
    ensures i < |h| ==> Allowed(plan, limit, h[..i], h[i])
  {
    var n := |h| - 1;
    if i < n {
      PrefixFollows(plan, limit, h[..n], i);
      assert h[..n][..i] == h[..i] && h[..n][i] == h[i];
    } else if i == |h| {
      assert h[..i] == h;
    }
  }

  /** Each exec but the first is where its predecessor leads. */
  lemma Succession(plan: Plan, limit: nat, h: History, i: nat)
    requires Follows(plan, limit, h) && 0 < i < |h|
    ensures After(plan, h[..i], h[i - 1]) == Some(h[i].step)
    ensures InPlan(plan, h[i].step) && InPlan(plan, h[i - 1].step) && !Halts(h[i - 1])
  {
    PrefixFollows(plan, limit, h, i);
    PrefixFollows(plan, limit, h, i - 1);
    assert h[..i][i - 1] == h[i - 1];
  }

  /** No command starts after an exec that was cancelled, timed out or broke, or after a successful publish. */
  lemma NothingAfterTheEnd(plan: Plan, limit: nat, h: History, i: nat, j: nat)
    requires Follows(plan, limit, h) && i < j < |h|
    ensures !Halts(h[i])
    ensures h[i].step.Publish? ==> !ExitedZero(h[i])
  {
    Succession(plan, limit, h, i + 1);
  }

  /** Position of a step within its iteration. */
  function Offset(plan: Plan, step: Step): nat {
    match step
    case Setup(i) => i
    case Initialize => |plan.setup|
    case Agent(_) => 0
    case Verify(_, i) => 1 + i
    case Mandate(_, i) => 1 + |plan.verifiers| + i
    case Publish(_) => 1 + |plan.verifiers| + |plan.mandatory|
  }

  /** The step at position `o` of iteration `k`. */
  function StepAt(plan: Plan, k: nat, o: nat): Step {
    if k == 0 then if o < |plan.setup| then Setup(o) else Initialize
    else if o == 0 then Agent(k)
    else if o - 1 < |plan.verifiers| then Verify(k, o - 1)
    else if o - 1 - |plan.verifiers| < |plan.mandatory| then Mandate(k, o - 1 - |plan.verifiers|)
    else Publish(k)
  }

  lemma StepAtItsOffset(plan: Plan, step: Step)
    requires InPlan(plan, step)
    ensures step == StepAt(plan, IterationOf(step), Offset(plan, step))
  {}

  /** Within an iteration, every step leads to the next. */
  lemma AfterOffset(plan: Plan, g: History, e: Exec, step: Step)
    requires After(plan, g, e) == Some(step) && InPlan(plan, e.step) && Offset(plan, step) > 0
    ensures IterationOf(step) == IterationOf(e.step) && Offset(plan, step) == Offset(plan, e.step) + 1
  {
    hide Passed, ExitedZero;
  }

  lemma FirstStep(plan: Plan, limit: nat, h: History)
    requires Follows(plan, limit, h) && h != []
    ensures InPlan(plan, h[0].step) && Offset(plan, h[0].step) == 0
    ensures h[0].step.Agent? ==> h[0].step == Agent(1) && plan.setup == [] && plan.initialize.None?
  {
    PrefixFollows(plan, limit, h, 0);
    assert h[..0] == [];
    hide Follows, FeedbackFor, Passed;
  }

  lemma Predecessor(plan: Plan, limit: nat, h: History, i: nat)
    requires Follows(plan, limit, h) && i < |h|
    ensures InPlan(plan, h[i].step)
    ensures Offset(plan, h[i].step) > 0 ==>
      && i > 0 && !Halts(h[i - 1])
      && IterationOf(h[i - 1].step) == IterationOf(h[i].step)
      && Offset(plan, h[i - 1].step) == Offset(plan, h[i].step) - 1
  {
    hide Follows, After, InPlan, Offset, IterationOf, Halts;
    if i == 0 {
      FirstStep(plan, limit, h);
    } else {
      Succession(plan, limit, h, i);
      if Offset(plan, h[i].step) > 0 {
        AfterOffset(plan, h[..i], h[i - 1], h[i].step);
      }
    }
  }

  /** `h[i]` is preceded by all earlier steps of its iteration, in order, each run to its end. */
  ghost predicate BlockAt(plan: Plan, h: History, i: nat)
    requires i < |h|
  {
    var k, o := IterationOf(h[i].step), Offset(plan, h[i].step);
    && o <= i
    && h[i].step == StepAt(plan, k, o)
    && forall j | i - o <= j < i :: h[j].step == StepAt(plan, k, j - (i - o)) && !Halts(h[j])
  }

  lemma {:induction false} Block(plan: Plan, limit: nat, h: History, i: nat)
    requires Follows(plan, limit, h) && i < |h|
    ensures BlockAt(plan, h, i)
  {
    hide Follows, InPlan, Offset, IterationOf, StepAt, Halts;
    Predecessor(plan, limit, h, i);
    StepAtItsOffset(plan, h[i].step);
    if Offset(plan, h[i].step) == 0 {
    } else {
      Block(plan, limit, h, i - 1);
    }
  }

  // ---- Commands and exit codes, in the plan's own terms ----

  predicate Ended(e: Exec) {
    e.raw.Ran? && e.raw.end.Exited?
  }

  predicate Zero(e: Exec) {
    e.raw.Ran? && e.raw.end == Exited(Some(0))
  }

  lemma ZeroExactly(e: Exec)
    ensures ExitedZero(e) <==> Zero(e)
    ensures Halts(e) <==> !Ended(e)
  {}

  /** The commands a run starts with. */
  function SetupCommands(plan: Plan): seq<Command> {
    plan.setup + if plan.initialize.Some? then [plan.initialize.value] else []
  }

  function VerifierCommands(verifiers: seq<Verifier>): seq<Command> {
    seq(|verifiers|, i requires 0 <= i < |verifiers| => verifiers[i].command)
  }

  /** The commands of one iteration: the agent, the job's verifiers, the runner's, and publish. */
  function IterationCommands(plan: Plan): seq<Command> {
    [plan.agent] + VerifierCommands(plan.verifiers) + plan.mandatory
    + if plan.publish.Some? then [plan.publish.value] else []
  }

  /** Position `o` of an iteration is a verifier that is not required. */
  predicate Optional(plan: Plan, o: nat) {
    1 <= o <= |plan.verifiers| && !plan.verifiers[o - 1].required
  }

  lemma PlannedCommand(plan: Plan, step: Step)
    requires InPlan(plan, step)
    ensures var o := Offset(plan, step);
      if IterationOf(step) == 0 then o < |SetupCommands(plan)| && CommandOf(plan, step) == SetupCommands(plan)[o]
      else o < |IterationCommands(plan)| && CommandOf(plan, step) == IterationCommands(plan)[o]
  {}

  lemma CountsExactly(plan: Plan, step: Step)
    requires InPlan(plan, step)
    ensures Counts(plan, step) <==> IterationOf(step) == 0 || !Optional(plan, Offset(plan, step))
  {}

  /** Every exec of a run ran the command at its place. */
  lemma CommandsArePlanned(plan: Plan, limit: nat, h: History, i: nat)
    requires Follows(plan, limit, h) && i < |h|
    ensures var o := Offset(plan, h[i].step);
      if IterationOf(h[i].step) == 0 then o < |SetupCommands(plan)| && h[i].command == SetupCommands(plan)[o]
      else o < |IterationCommands(plan)| && h[i].command == IterationCommands(plan)[o]
  {
    PrefixFollows(plan, limit, h, i);
    hide Follows, CommandOf, FeedbackFor, Offset, SetupCommands, IterationCommands;
    PlannedCommand(plan, h[i].step);
  }

  lemma OffsetOfStepAt(plan: Plan, k: nat, o: nat)
    requires k >= 1 && o < |IterationCommands(plan)|
    ensures var step := StepAt(plan, k, o);
      IterationOf(step) == k && Offset(plan, step) == o && (Counts(plan, step) <==> !Optional(plan, o))
    ensures 1 <= k <= plan.maxIterations ==> InPlan(plan, StepAt(plan, k, o))
  {}

  /** `e` ran the planned command at position `o` of iteration `k`, to its end. */
  predicate AsPlanned(plan: Plan, e: Exec, k: nat, o: nat) {
    && o < |IterationCommands(plan)|
    && e.step == StepAt(plan, k, o)
    && e.command == IterationCommands(plan)[o]
    && Ended(e)
  }

  /** `h[a..]` begins with the first `n` execs of iteration `k`: the planned commands in order, each run to its end. */
  ghost predicate Performed(plan: Plan, h: History, k: nat, a: nat, n: nat) {
    && k >= 1
    && a + n <= |h| && n <= |IterationCommands(plan)|
    && forall i | a <= i < a + n :: AsPlanned(plan, h[i], k, i - a)
  }

  /** Every setup command and the initialize command ran at the very start, in order, and exited 0. */
  ghost predicate Prepared(plan: Plan, h: History) {
    && |SetupCommands(plan)| <= |h|
    && forall j | 0 <= j < |SetupCommands(plan)| ::
         h[j].step == StepAt(plan, 0, j) && h[j].command == SetupCommands(plan)[j] && Zero(h[j])
  }

  /** Iteration 0 is never entered again. */
  lemma SetupFollowsSetup(plan: Plan, g: History, e: Exec, step: Step)
    requires After(plan, g, e) == Some(step) && InPlan(plan, e.step) && IterationOf(step) == 0
    ensures Offset(plan, step) > 0
  {
    hide Passed, ExitedZero;
  }

  /** Iteration 0 starts at the very start. */
  lemma {:induction false} SetupComesFirst(plan: Plan, limit: nat, h: History, i: nat)
    requires Follows(plan, limit, h) && i < |h| && IterationOf(h[i].step) == 0
    ensures Offset(plan, h[i].step) == i
  {
    hide Follows, After, InPlan, Offset, IterationOf;
    if i == 0 {
      FirstStep(plan, limit, h);
    } else {
      Succession(plan, limit, h, i);
      SetupFollowsSetup(plan, h[..i], h[i - 1], h[i].step);
      AfterOffset(plan, h[..i], h[i - 1], h[i].step);
      SetupComesFirst(plan, limit, h, i - 1);
    }
  }

  /** No agent starts before setup and initialize have all succeeded. */
  lemma {:induction false} AgentNeedsSetup(plan: Plan, limit: nat, h: History, i: nat)
    requires Follows(plan, limit, h) && i < |h| && IterationOf(h[i].step) >= 1
    ensures Prepared(plan, h)
  {
    Block(plan, limit, h, i);
    var a := i - Offset(plan, h[i].step);
    assert h[a].step == StepAt(plan, IterationOf(h[i].step), 0);
    hide Follows, After, Halts, ExitedZero, Zero;
    if a == 0 {
      FirstStep(plan, limit, h);
      assert SetupCommands(plan) == [];
    } else if IterationOf(h[a - 1].step) >= 1 {
      AgentNeedsSetup(plan, limit, h, a - 1);
    } else {
      SetupSucceeded(plan, limit, h, a);
    }
  }

  /** What has to be behind a plan that goes on to the first agent, or to initialize. */
  lemma SetupLeadsOn(plan: Plan, g: History, e: Exec, step: Step)
    requires After(plan, g, e) == Some(step) && InPlan(plan, e.step) && InPlan(plan, step)
    requires IterationOf(e.step) == 0 && (step.Agent? || step.Initialize?)
    ensures !Halts(e)
    ensures e.step.Initialize? ==> step.Agent? && ExitedZero(e)
    ensures !e.step.Initialize? ==>
      && e.step == Setup(|plan.setup| - 1) && Passed(plan, g, 0)
      && (step.Agent? ==> plan.initialize.None?)
  {
    hide Passed;
  }

  lemma SetupPassed(plan: Plan, h: History, t: nat, j: nat)
    requires j < t <= |h| && Passed(plan, h[..t], 0) && h[j].step.Setup? && !Halts(h[j])
    ensures ExitedZero(h[j])
  {
    assert h[..t][j] == h[j];
  }

  lemma SetupSucceeded(plan: Plan, limit: nat, h: History, a: nat)
    requires Follows(plan, limit, h) && 0 < a < |h|
    requires h[a].step.Agent? && IterationOf(h[a - 1].step) == 0
    ensures Prepared(plan, h)
  {
    hide Follows, After, Passed, Halts, ExitedZero;
    Succession(plan, limit, h, a);
    SetupLeadsOn(plan, h[..a], h[a - 1], h[a].step);
    SetupComesFirst(plan, limit, h, a - 1);
    Block(plan, limit, h, a - 1);
    var s := |plan.setup|;
    if h[a - 1].step.Initialize? && s > 0 {
      Succession(plan, limit, h, a - 1);
      SetupComesFirst(plan, limit, h, a - 2);
      SetupLeadsOn(plan, h[..a - 1], h[a - 2], h[a - 1].step);
    }
    forall j | 0 <= j < s
      ensures h[j].step == StepAt(plan, 0, j) && ExitedZero(h[j])
    {
      SetupPassed(plan, h, s, j);
    }
    PreparedFrom(plan, limit, h, |SetupCommands(plan)|);
  }

  lemma PreparedFrom(plan: Plan, limit: nat, h: History, p: nat)
    requires Follows(plan, limit, h) && p == |SetupCommands(plan)| <= |h|
    requires forall j | 0 <= j < p :: h[j].step == StepAt(plan, 0, j) && ExitedZero(h[j])
    ensures Prepared(plan, h)
  {
    hide Follows, ExitedZero, Halts, Zero, CommandOf;
    forall j | 0 <= j < p
      ensures h[j].command == SetupCommands(plan)[j] && Zero(h[j])
    {
      CommandsArePlanned(plan, limit, h, j);
      ZeroExactly(h[j]);
    }
  }

  /**
   The last execs are the agent of iteration `k`, every verifier, every mandatory verifier and the publish
   command if there is one, in this order and with the plan's own commands. All of them ran to their end,
   and all but verifiers that are not required exited 0.
   */
  ghost predicate PassedInFull(plan: Plan, h: History, k: nat) {
    var n := |IterationCommands(plan)|;
    && 1 <= k <= plan.maxIterations
    && n <= |h|
    && Performed(plan, h, k, |h| - n, n)
    && forall o | 0 <= o < n :: Optional(plan, o) || Zero(h[|h| - n + o])
  }

  /** A successful run ends with the last step of an iteration. */
  lemma LastCheck(plan: Plan, h: History)
    requires Succeeded(plan, h) && InPlan(plan, h[|h| - 1].step)
    ensures Offset(plan, h[|h| - 1].step) == |IterationCommands(plan)| - 1
  {}

  lemma PerformedAt(plan: Plan, limit: nat, h: History, j: nat, k: nat, o: nat)
    requires Follows(plan, limit, h) && j < |h| && k >= 1 && !Halts(h[j])
    requires h[j].step == StepAt(plan, k, o) && o < |IterationCommands(plan)|
    ensures AsPlanned(plan, h[j], k, o)
  {
    hide Follows, Halts, Ended, IterationCommands, SetupCommands, StepAt, Offset, IterationOf;
    OffsetOfStepAt(plan, k, o);
    CommandsArePlanned(plan, limit, h, j);
    ZeroExactly(h[j]);
  }

  /** The execs of an iteration up to `h[i]` ran the planned commands. */
  lemma BlockPerformed(plan: Plan, limit: nat, h: History, i: nat)
    requires Follows(plan, limit, h) && i < |h| && !Halts(h[i]) && IterationOf(h[i].step) >= 1
    ensures var o := Offset(plan, h[i].step);
      o <= i && Performed(plan, h, IterationOf(h[i].step), i - o, o + 1)
  {
    hide Follows, Halts, Ended, IterationCommands, SetupCommands, StepAt, Offset, IterationOf;
    Block(plan, limit, h, i);
    CommandsArePlanned(plan, limit, h, i);
    var k, a := IterationOf(h[i].step), i - Offset(plan, h[i].step);
    hide AsPlanned;
    forall j | a <= j <= i
      ensures AsPlanned(plan, h[j], k, j - a)
    {
      PerformedAt(plan, limit, h, j, k, j - a);
    }
  }

  /** Of an iteration that passed, every exec that counts exited 0. */
  lemma PassedIsZero(plan: Plan, h: History, t: nat, k: nat, a: nat, o: nat)
    requires t <= |h| && Passed(plan, h[..t], k) && a + o < t
    requires k >= 1 && o < |IterationCommands(plan)| && h[a + o].step == StepAt(plan, k, o) && Ended(h[a + o])
    ensures Optional(plan, o) || Zero(h[a + o])
  {
    OffsetOfStepAt(plan, k, o);
    ZeroExactly(h[a + o]);
    assert h[..t][a + o] == h[a + o];
    hide IterationCommands, StepAt, Offset, Optional, IterationOf;
  }

  /**
   A run that succeeds has really run its commands and passed everything, and no exec of it was
   cancelled or timed out.
   */
  lemma SuccessIsEarned(plan: Plan, limit: nat, h: History)
    requires Follows(plan, limit, h) && Succeeded(plan, h)
    ensures Prepared(plan, h)
    ensures PassedInFull(plan, h, IterationOf(h[|h| - 1].step))
    ensures forall i | 0 <= i < |h| :: Ended(h[i])
  {
    assert h != [];
    hide Follows, Succeeded, Prepared, PassedInFull, Performed, Passed, Halts, Ended, Offset, IterationOf, InPlan;
    hide IterationCommands;
    var last := |h| - 1;
    var k := IterationOf(h[last].step);
    Predecessor(plan, limit, h, last);
    LastCheck(plan, h);
    WhatSucceeded(plan, h);
    AgentNeedsSetup(plan, limit, h, last);
    BlockPerformed(plan, limit, h, last);
    AllZero(plan, h, k);
    AllEnded(plan, limit, h);
  }

  lemma WhatSucceeded(plan: Plan, h: History)
    requires Succeeded(plan, h) && InPlan(plan, h[|h| - 1].step)
    ensures var k := IterationOf(h[|h| - 1].step);
      1 <= k <= plan.maxIterations && Passed(plan, h, k) && !Halts(h[|h| - 1])
  {
    hide Next;
  }

  lemma AllZero(plan: Plan, h: History, k: nat)
    requires var n := |IterationCommands(plan)|; n <= |h| && Performed(plan, h, k, |h| - n, n)
    requires 1 <= k <= plan.maxIterations && Passed(plan, h, k)
    ensures PassedInFull(plan, h, k)
  {
    hide Passed, Ended, Optional, Zero, IterationCommands, StepAt;
    assert h[..|h|] == h;
    var n := |IterationCommands(plan)|;
    forall o | 0 <= o < n
      ensures Optional(plan, o) || Zero(h[|h| - n + o])
    {
      PassedIsZero(plan, h, |h|, k, |h| - n, o);
    }
  }

  lemma AllEnded(plan: Plan, limit: nat, h: History)
    requires Follows(plan, limit, h) && (h != [] ==> !Halts(h[|h| - 1]))
    ensures forall i | 0 <= i < |h| :: Ended(h[i])
  {
    hide Follows, Halts, Ended;
    forall i | 0 <= i < |h|
      ensures Ended(h[i])
    {
      if i < |h| - 1 {
        NothingAfterTheEnd(plan, limit, h, i, |h| - 1);
      }
      ZeroExactly(h[i]);
    }
  }

  /** Publish runs only right after an agent and checks that all passed. */
  lemma PublishIsEarned(plan: Plan, limit: nat, h: History, i: nat)
    requires Follows(plan, limit, h) && i < |h| && h[i].step.Publish?
    ensures Prepared(plan, h)
    ensures var n := 1 + |plan.verifiers| + |plan.mandatory|;
      && n <= i
      && Performed(plan, h, h[i].step.iteration, i - n, n)
      && forall o | 0 <= o < n :: Optional(plan, o) || Zero(h[i - n + o])
  {
    hide Follows, After, Passed, Halts, Ended, Prepared, Offset, Optional, Zero, IterationOf, InPlan, IterationCommands;
    PublishIsLast(plan, limit, h, i);
    AgentNeedsSetup(plan, limit, h, i);
    var k, n := h[i].step.iteration, 1 + |plan.verifiers| + |plan.mandatory|;
    BlockPerformed(plan, limit, h, i - 1);
    PublishNeedsPass(plan, h[..i], h[i - 1], k);
    forall o | 0 <= o < n
      ensures Optional(plan, o) || Zero(h[i - n + o])
    {
      PassedIsZero(plan, h, i, k, i - n, o);
    }
  }

  /** A publish comes right after the last check of its iteration. */
  lemma PublishIsLast(plan: Plan, limit: nat, h: History, i: nat)
    requires Follows(plan, limit, h) && i < |h| && h[i].step.Publish?
    ensures var k, n := h[i].step.iteration, 1 + |plan.verifiers| + |plan.mandatory|;
      && IterationOf(h[i].step) == k >= 1 && n <= |IterationCommands(plan)|
      && i > 0 && !Halts(h[i - 1]) && IterationOf(h[i - 1].step) == k && Offset(plan, h[i - 1].step) == n - 1
      && After(plan, h[..i], h[i - 1]) == Some(Publish(k))
  {
    hide Follows, After, Halts;
    Predecessor(plan, limit, h, i);
    Succession(plan, limit, h, i);
  }

  lemma PublishNeedsPass(plan: Plan, g: History, e: Exec, k: nat)
    requires After(plan, g, e) == Some(Publish(k))
    ensures Passed(plan, g, k)
  {
    hide Passed;
  }

  /** Place of a step in the longest run the plan allows. */
  function Rank(plan: Plan, step: Step): nat {
    if IterationOf(step) == 0 then Offset(plan, step)
    else |plan.setup| + 1 + (IterationOf(step) - 1) * Width(plan) + Offset(plan, step)
  }

  function Width(plan: Plan): nat {
    |plan.verifiers| + |plan.mandatory| + 2
  }

  lemma AfterRank(plan: Plan, g: History, e: Exec, step: Step)
    requires After(plan, g, e) == Some(step) && InPlan(plan, e.step) && InPlan(plan, step)
    ensures IterationOf(step) == IterationOf(e.step) ==> Offset(plan, e.step) < Offset(plan, step)
    ensures IterationOf(step) != IterationOf(e.step) ==> IterationOf(step) == IterationOf(e.step) + 1
  {
    hide Passed, ExitedZero;
  }

  lemma OffsetBound(plan: Plan, step: Step)
    requires InPlan(plan, step)
    ensures if IterationOf(step) == 0 then Offset(plan, step) <= |plan.setup| else Offset(plan, step) < Width(plan)
  {}

  lemma RankRises(plan: Plan, limit: nat, h: History, i: nat)
    requires Follows(plan, limit, h) && 0 < i < |h|
    ensures Rank(plan, h[i - 1].step) < Rank(plan, h[i].step)
  {
    hide Follows, After, InPlan, Offset, IterationOf, Width;
    Succession(plan, limit, h, i);
    AfterRank(plan, h[..i], h[i - 1], h[i].step);
    OffsetBound(plan, h[i - 1].step);
    var k := IterationOf(h[i - 1].step);
    if 0 < k < IterationOf(h[i].step) {
      assert k * Width(plan) == (k - 1) * Width(plan) + Width(plan);
    }
  }

  /** No step is repeated: ranks rise strictly along the whole run. */
  lemma {:induction false} RanksRise(plan: Plan, limit: nat, h: History, i: nat, j: nat)
    requires Follows(plan, limit, h) && i < j < |h|
    ensures Rank(plan, h[i].step) < Rank(plan, h[j].step)
    decreases j
  {
    RankRises(plan, limit, h, j);
    if i == j - 1 {
    } else {
      RanksRise(plan, limit, h, i, j - 1);
    }
  }

  lemma {:induction false} IndexBelowRank(plan: Plan, limit: nat, h: History, i: nat)
    requires Follows(plan, limit, h) && i < |h|
    ensures i <= Rank(plan, h[i].step)
  {
    if i == 0 {
    } else {
      RankRises(plan, limit, h, i);
      IndexBelowRank(plan, limit, h, i - 1);
    }
  }

  lemma RankIsBounded(plan: Plan, step: Step)
    requires InPlan(plan, step)
    ensures Rank(plan, step) < |plan.setup| + 1 + plan.maxIterations * Width(plan)
  {
    OffsetBound(plan, step);
    RankBound(IterationOf(step), plan.maxIterations, Width(plan));
    assert IterationOf(step) <= plan.maxIterations;
    hide Offset, IterationOf, InPlan, Width;
  }

  /** The number of execs of any run is bounded by the plan alone. */
  lemma ExecBound(plan: Plan, limit: nat, h: History)
    requires Follows(plan, limit, h)
    ensures |h| <= |plan.setup| + 1 + plan.maxIterations * (|plan.verifiers| + |plan.mandatory| + 2)
  {
    assert Width(plan) == |plan.verifiers| + |plan.mandatory| + 2;
    hide Follows, InPlan, Rank, Width;
    if h == [] {
      RankBound(0, plan.maxIterations, Width(plan));
    } else {
      var i := |h| - 1;
      IndexBelowRank(plan, limit, h, i);
      Predecessor(plan, limit, h, i);
      RankIsBounded(plan, h[i].step);
    }
  }

  lemma RankBound(k: nat, m: nat, w: nat)
    ensures m * w >= 0
    ensures 1 <= k <= m ==> (k - 1) * w + w <= m * w
  {
    if 1 <= k <= m {
      assert m * w == (k - 1) * w + w + (m - k) * w;
    }
  }

  /** The converse of SuccessIsEarned: a run that ends with an iteration passed in full has succeeded. */
  lemma PassingInFullSucceeds(plan: Plan, limit: nat, h: History, k: nat)
    requires Follows(plan, limit, h) && PassedInFull(plan, h, k)
    ensures Succeeded(plan, h)
  {
    var n := |IterationCommands(plan)|;
    var a := |h| - n;
    assert h[a + 0].step == StepAt(plan, k, 0);
    forall i | 0 <= i < |h| && IterationOf(h[i].step) == k
      ensures !Failing(plan, h[i])
    {
      hide Follows, Zero, Ended, ExitedZero, Halts, IterationCommands, Optional;
      if i < a {
        RanksRise(plan, limit, h, i, a);
        RankOfAgent(plan, h[i].step, k);
      } else {
        OffsetOfStepAt(plan, k, i - a);
        ZeroExactly(h[a + (i - a)]);
      }
    }
    assert Passed(plan, h, k);
    assert h[|h| - 1].step == StepAt(plan, k, n - 1);
    ZeroExactly(h[a + (n - 1)]);
    FullIterationIsOver(plan, h, k);
  }

  lemma FullIterationIsOver(plan: Plan, h: History, k: nat)
    requires 1 <= k <= plan.maxIterations && h != [] && Passed(plan, h, k) && Ended(h[|h| - 1])
    requires h[|h| - 1].step == StepAt(plan, k, |IterationCommands(plan)| - 1)
    ensures Succeeded(plan, h)
  {
    ZeroExactly(h[|h| - 1]);
    assert h[|h| - 1].step.Publish? ==> !Failing(plan, h[|h| - 1]);
    hide Passed;
  }

  /** What the agent of the next iteration is told: one entry for the agent and one per verifier, in order. */
  function FullReport(plan: Plan, limit: nat, block: History): seq<Line> {
    if block == [] then [] else FullReport(plan, limit, block[..|block| - 1]) + LineOf(plan, limit, block[|block| - 1])
  }

  lemma {:induction false} ReportSkips(plan: Plan, limit: nat, h: History, a: nat, k: nat)
    requires a <= |h|
    requires forall i | 0 <= i < a :: IterationOf(h[i].step) != k
    requires forall i | a <= i < |h| :: IterationOf(h[i].step) == k
    ensures ReportOf(plan, limit, h, k) == FullReport(plan, limit, h[a..])
  {
    hide LineOf;
    if h == [] {
    } else {
      var n := |h| - 1;
      var g := h[..n];
      assert forall i | 0 <= i < n :: g[i] == h[i];
      ReportSkips(plan, limit, g, if a <= n then a else n, k);
      if a <= n {
        var block := h[a..];
        assert block[..|block| - 1] == g[a..] && block[|block| - 1] == h[n];
      } else {
        assert g[n..] == [] && h[a..] == [];
      }
    }
  }

  lemma BeforeNextAgent(plan: Plan, limit: nat, h: History, i: nat, k: nat)
    requires Follows(plan, limit, h) && i < |h| && k >= 1 && h[i].step == Agent(k + 1)
    ensures i > 0 && IterationOf(h[i - 1].step) == k
    ensures Offset(plan, h[i - 1].step) >= |plan.verifiers| + |plan.mandatory|
  {
    hide Follows, Passed, ExitedZero, Halts;
    if i == 0 {
      FirstStep(plan, limit, h);
    } else {
      Succession(plan, limit, h, i);
    }
  }

  /** Nothing of iteration `k` ranks below its agent. */
  lemma RankOfAgent(plan: Plan, step: Step, k: nat)
    requires k >= 1 && Rank(plan, step) < Rank(plan, Agent(k))
    ensures IterationOf(step) != k
  {}

  /** Up to the end of the first iteration no command finds any feedback. */
  lemma NoFeedbackAtFirst(plan: Plan, limit: nat, h: History, i: nat)
    requires Follows(plan, limit, h) && i < |h| && IterationOf(h[i].step) <= 1
    ensures h[i].seen == NoFeedbackYet
  {
    hide Follows;
    PrefixFollows(plan, limit, h, i);
  }

  // ---- What a report says ----

  /** The exit code Docker gave, or -1. */
  function CodeOf(e: Exec): int {
    if Ended(e) && e.raw.end.code.Some? then e.raw.end.code.value else -1
  }

  /** The entry of a report on the exec at position `o` of iteration `k`. */
  ghost predicate Tells(plan: Plan, limit: nat, line: Line, e: Exec, k: nat, o: nat) {
    var out, err := First(limit, Collected(e.raw.chunks, StdOut)), First(limit, Collected(e.raw.chunks, StdErr));
    var v := |plan.verifiers|;
    && (o == 0 ==> line == AgentLine(k, CodeOf(e)))
    && (1 <= o <= v ==> line == VerifierLine(plan.verifiers[o - 1].name, CodeOf(e), out, err))
    && (v < o <= v + |plan.mandatory| ==> line == MandatoryLine(plan.mandatory[o - 1 - v].argv, CodeOf(e), out, err))
  }

  lemma LineTells(plan: Plan, limit: nat, e: Exec, k: nat, o: nat)
    requires k >= 1 && e.step == StepAt(plan, k, o) && Ended(e)
    ensures o <= |plan.verifiers| + |plan.mandatory| ==>
      |LineOf(plan, limit, e)| == 1 && Tells(plan, limit, LineOf(plan, limit, e)[0], e, k, o)
    ensures o > |plan.verifiers| + |plan.mandatory| ==> LineOf(plan, limit, e) == []
  {
    hide First, Collected;
  }

  /** A report on a whole iteration has one entry for the agent and one per verifier, with codes and outputs. */
  lemma {:induction false} ReportTells(plan: Plan, limit: nat, block: History, k: nat)
    requires k >= 1 && |block| <= |IterationCommands(plan)|
    requires forall o | 0 <= o < |block| :: block[o].step == StepAt(plan, k, o) && Ended(block[o])
    ensures var lines, n := FullReport(plan, limit, block), 1 + |plan.verifiers| + |plan.mandatory|;
      && |lines| == (if |block| < n then |block| else n)
      && forall o | 0 <= o < |lines| :: Tells(plan, limit, lines[o], block[o], k, o)
  {
    if block == [] {
    } else {
      var o := |block| - 1;
      var before := block[..o];
      assert FullReport(plan, limit, block) == FullReport(plan, limit, before) + LineOf(plan, limit, block[o]);
      hide Tells, LineOf, StepAt, Ended, FullReport, IterationCommands;
      ReportTells(plan, limit, before, k);
      LineTells(plan, limit, block[o], k, o);
      TellsOn(plan, limit, FullReport(plan, limit, before), LineOf(plan, limit, block[o]), block, k);
    }
  }

  lemma TellsOn(plan: Plan, limit: nat, lines: seq<Line>, line: seq<Line>, block: History, k: nat)
    requires block != [] && |lines| <= |block| - 1
    requires forall o | 0 <= o < |lines| :: Tells(plan, limit, lines[o], block[..|block| - 1][o], k, o)
    requires line == []
      || (&& |line| == 1 && |lines| == |block| - 1
          && Tells(plan, limit, line[0], block[|block| - 1], k, |lines|))
    ensures |lines + line| <= |block|
    ensures forall o | 0 <= o < |lines + line| :: Tells(plan, limit, (lines + line)[o], block[o], k, o)
  {
    hide Tells;
  }

  /**
   The agent of iteration k + 1 starts with exactly the report on iteration k in the feedback file: one
   entry for its agent and one for each of its checks, in order, with exit codes and outputs.
   */
  lemma FeedbackIsLastReport(plan: Plan, limit: nat, h: History, i: nat, k: nat) returns (a: nat, lines: seq<Line>)
    requires Follows(plan, limit, h) && i < |h| && k >= 1 && h[i].step == Agent(k + 1)
    ensures a + 1 + |plan.verifiers| + |plan.mandatory| <= i && Performed(plan, h, k, a, i - a)
    ensures h[i].seen == Report(lines) && |lines| == 1 + |plan.verifiers| + |plan.mandatory|
    ensures forall o | 0 <= o < |lines| :: Tells(plan, limit, lines[o], h[a..i][o], k, o)
  {
    hide Follows, Performed, CommandOf, Halts, Ended, IterationCommands, Tells, StepAt, FullReport, After;
    BeforeNextAgent(plan, limit, h, i, k);
    Succession(plan, limit, h, i);
    a := IterationBlock(plan, limit, h, i - 1);
    PrefixFollows(plan, limit, h, i);
    lines := FullReport(plan, limit, h[a..i]);
    PerformedReports(plan, limit, h, i, k, a);
  }

  lemma PerformedReports(plan: Plan, limit: nat, h: History, i: nat, k: nat, a: nat)
    requires a < i < |h| && k >= 1 && Performed(plan, h, k, a, i - a) && Allowed(plan, limit, h[..i], h[i])
    requires forall j | 0 <= j < a :: IterationOf(h[j].step) != k
    requires h[i].step == Agent(k + 1) && i - a >= 1 + |plan.verifiers| + |plan.mandatory|
    ensures var lines := FullReport(plan, limit, h[a..i]);
      && h[i].seen == Report(lines)
      && |lines| == 1 + |plan.verifiers| + |plan.mandatory|
      && forall o | 0 <= o < |lines| :: Tells(plan, limit, lines[o], h[a..i][o], k, o)
  {
    var block := h[a..i];
    assert h[i].seen == Report(ReportOf(plan, limit, h[..i], k));
    hide Next, CommandOf, InPlan, IterationCommands, StepAt, Ended, Tells, FullReport, ReportOf, Offset;
    forall o | 0 <= o < |block|
      ensures block[o].step == StepAt(plan, k, o) && Ended(block[o]) && IterationOf(block[o].step) == k
    {
      assert AsPlanned(plan, h[a + o], k, o);
      OffsetOfStepAt(plan, k, o);
    }
    ReportTells(plan, limit, block, k);
    assert h[..i][a..] == block;
    forall j | a <= j < i
      ensures IterationOf(h[..i][j].step) == k
    {
      assert h[j] == block[j - a];
    }
    ReportSkips(plan, limit, h[..i], a, k);
  }

  // ---- What a failed run did ----

  /** Setup ran all its commands and one of them failed, or setup succeeded and initialize failed. */
  ghost predicate SetupLost(plan: Plan, h: History) {
    var s := |plan.setup|;
    || (&& |h| == s
        && (forall j | 0 <= j < s :: h[j].command == plan.setup[j] && Ended(h[j]))
        && (exists j | 0 <= j < s :: !Zero(h[j])))
    || (&& plan.initialize.Some? && |h| == s + 1
        && (forall j | 0 <= j < s :: h[j].command == plan.setup[j] && Zero(h[j]))
        && h[s].command == plan.initialize.value && Ended(h[s]) && !Zero(h[s]))
  }

  /**
   Iteration `k` began at `h[a]`, ran its agent and all its checks, and failed: one of them that is not
   optional did not exit 0, or publish ran as well and did not.
   */
  ghost predicate IterationFailed(plan: Plan, h: History, k: nat, a: nat) {
    var n := 1 + |plan.verifiers| + |plan.mandatory|;
    && Performed(plan, h, k, a, n)
    && (|| (exists o | 0 <= o < n :: !Optional(plan, o) && !Zero(h[a + o]))
        || (plan.publish.Some? && Performed(plan, h, k, a, n + 1) && !Zero(h[a + n])))
  }

  ghost predicate Lost(plan: Plan, h: History, k: nat) {
    exists a: nat :: IterationFailed(plan, h, k, a)
  }

  /** Setup succeeded, and every single iteration the plan allows was made and failed. */
  ghost predicate Exhausted(plan: Plan, h: History) {
    && Prepared(plan, h)
    && forall k: nat | 1 <= k <= plan.maxIterations :: Lost(plan, h, k)
  }

  lemma FailingExactly(plan: Plan, e: Exec)
    requires InPlan(plan, e.step) && Ended(e)
    ensures Failing(plan, e) <==>
      (IterationOf(e.step) == 0 || !Optional(plan, Offset(plan, e.step))) && !Zero(e)
  {
    ZeroExactly(e);
    CountsExactly(plan, e.step);
  }

  lemma PerformedPrefix(plan: Plan, h: History, k: nat, a: nat, m: nat, n: nat)
    requires Performed(plan, h, k, a, m) && n <= m
    ensures Performed(plan, h, k, a, n)
  {
    hide AsPlanned;
  }

  lemma WhoFailed(plan: Plan, h: History, t: nat, k: nat) returns (i: nat)
    requires t <= |h| && !Passed(plan, h[..t], k)
    ensures i < t && IterationOf(h[i].step) == k && Failing(plan, h[i])
  {
    i :| 0 <= i < t && IterationOf(h[..t][i].step) == k && Failing(plan, h[..t][i]);
  }

  lemma FailsAsPlanned(plan: Plan, e: Exec, k: nat, o: nat)
    requires 1 <= k <= plan.maxIterations && AsPlanned(plan, e, k, o) && Failing(plan, e)
    ensures !Optional(plan, o) && !Zero(e)
  {
    hide Failing, IterationCommands, Optional, Zero, StepAt, Offset;
    OffsetOfStepAt(plan, k, o);
    FailingExactly(plan, e);
  }

  lemma IterationLength(plan: Plan)
    ensures |IterationCommands(plan)|
      == 1 + |plan.verifiers| + |plan.mandatory| + if plan.publish.Some? then 1 else 0
  {}

  /** A whole iteration that did not pass has failed in the sense above. */
  lemma BlockFailed(plan: Plan, h: History, t: nat, k: nat, a: nat)
    requires a <= t <= |h| && Performed(plan, h, k, a, t - a) && t - a >= 1 + |plan.verifiers| + |plan.mandatory|
    requires 1 <= k <= plan.maxIterations
    requires forall j | 0 <= j < a :: IterationOf(h[j].step) != k
    requires !Passed(plan, h[..t], k)
    ensures IterationFailed(plan, h, k, a)
  {
    hide Passed, Failing, IterationCommands, AsPlanned, IterationOf, Optional, Zero;
    var n := 1 + |plan.verifiers| + |plan.mandatory|;
    IterationLength(plan);
    PerformedPrefix(plan, h, k, a, t - a, n);
    var i := WhoFailed(plan, h, t, k);
    assert i >= a && AsPlanned(plan, h[i], k, i - a);
    FailsAsPlanned(plan, h[i], k, i - a);
    var o := i - a;
    assert h[a + o] == h[i];
  }

  /** The execs of the iteration of `h[i]` so far, and that none of them came before its agent. */
  lemma IterationBlock(plan: Plan, limit: nat, h: History, i: nat) returns (a: nat)
    requires Follows(plan, limit, h) && i < |h| && !Halts(h[i]) && IterationOf(h[i].step) >= 1
    ensures var k := IterationOf(h[i].step);
      && a + Offset(plan, h[i].step) == i
      && 1 <= k <= plan.maxIterations && h[a].step == Agent(k)
      && Performed(plan, h, k, a, i + 1 - a)
      && forall j | 0 <= j < a :: IterationOf(h[j].step) != k
  {
    hide Follows, Halts, Width, Ended, IterationCommands;
    var k := IterationOf(h[i].step);
    Predecessor(plan, limit, h, i);
    BlockPerformed(plan, limit, h, i);
    a := i - Offset(plan, h[i].step);
    assert h[a + 0].step == StepAt(plan, k, 0);
    forall j | 0 <= j < a
      ensures IterationOf(h[j].step) != k
    {
      RanksRise(plan, limit, h, j, a);
      RankOfAgent(plan, h[j].step, k);
    }
  }

  /** A plan goes on to the next agent only from an iteration that did not pass. */
  lemma LeavingFailed(plan: Plan, g: History, e: Exec, k: nat)
    requires g != [] && g[|g| - 1] == e && !Halts(e) && IterationOf(e.step) == k >= 1
    requires After(plan, g, e) == Some(Agent(k + 1))
    ensures !Passed(plan, g, k)
  {
    if e.step.Publish? {
      assert Failing(plan, g[|g| - 1]);
    }
    hide Passed;
  }

  /** A plan ends without success in an iteration only if that one did not pass and was the last. */
  lemma EndingFailed(plan: Plan, h: History)
    requires h != [] && InPlan(plan, h[|h| - 1].step) && !Halts(h[|h| - 1]) && IterationOf(h[|h| - 1].step) >= 1
    requires Next(plan, h) == None && !Succeeded(plan, h)
    requires h[|h| - 1].step.Publish? && ExitedZero(h[|h| - 1]) ==> Passed(plan, h, h[|h| - 1].step.iteration)
    ensures var k := IterationOf(h[|h| - 1].step);
      && k == plan.maxIterations && !Passed(plan, h, k)
      && Offset(plan, h[|h| - 1].step) >= |plan.verifiers| + |plan.mandatory|
  {
    hide Passed, ExitedZero, Halts;
  }

  /** The iteration right before an agent's has failed. */
  lemma LostBefore(plan: Plan, limit: nat, h: History, i: nat, k: nat) returns (a: nat)
    requires Follows(plan, limit, h) && i < |h| && h[i].step == Agent(k + 1) && k >= 1
    ensures a < i && h[a].step == Agent(k) && IterationFailed(plan, h, k, a)
  {
    hide Follows, IterationFailed, After, Passed, Performed, Halts, Offset, IterationOf, InPlan;
    BeforeNextAgent(plan, limit, h, i, k);
    Succession(plan, limit, h, i);
    a := IterationBlock(plan, limit, h, i - 1);
    assert h[..i][i - 1] == h[i - 1];
    LeavingFailed(plan, h[..i], h[i - 1], k);
    BlockFailed(plan, h, i, k, a);
  }

  /** Each iteration before an agent's has failed. */
  lemma {:induction false} EarlierFailed(plan: Plan, limit: nat, h: History, i: nat, k: nat)
    requires Follows(plan, limit, h) && i < |h| && h[i].step == Agent(k) && k >= 1
    ensures forall c: nat | 1 <= c < k :: Lost(plan, h, c)
  {
    hide Follows, IterationFailed;
    if k == 1 {
    } else {
      var a := LostBefore(plan, limit, h, i, k - 1);
      EarlierFailed(plan, limit, h, a, k - 1);
    }
  }

  /** An iteration that published has passed. */
  lemma PublishedPassed(plan: Plan, limit: nat, h: History)
    requires Follows(plan, limit, h) && h != [] && h[|h| - 1].step.Publish? && ExitedZero(h[|h| - 1])
    ensures Passed(plan, h, h[|h| - 1].step.iteration)
  {
    var i := |h| - 1;
    PublishIsLast(plan, limit, h, i);
    PublishNeedsPass(plan, h[..i], h[i - 1], h[i].step.iteration);
    assert h == h[..i] + [h[i]];
    Extend(plan, limit, h[..i], h[i], h[i].step.iteration);
    hide Follows, Passed;
  }

  lemma IterationsFailed(plan: Plan, limit: nat, h: History)
    requires Follows(plan, limit, h) && Next(plan, h) == None && !Succeeded(plan, h)
    requires h != [] && !Halts(h[|h| - 1]) && IterationOf(h[|h| - 1].step) >= 1
    ensures Exhausted(plan, h)
  {
    hide Follows, IterationFailed, Next, Succeeded, Passed, Performed, Halts, Offset, IterationOf, Prepared, InPlan;
    var i := |h| - 1;
    Predecessor(plan, limit, h, i);
    AgentNeedsSetup(plan, limit, h, i);
    if h[i].step.Publish? && ExitedZero(h[i]) {
      PublishedPassed(plan, limit, h);
    }
    EndingFailed(plan, h);
    var a := IterationBlock(plan, limit, h, i);
    assert h[..|h|] == h;
    BlockFailed(plan, h, |h|, plan.maxIterations, a);
    EarlierFailed(plan, limit, h, a, plan.maxIterations);
  }

  /** How a plan can end within iteration 0. */
  lemma EndingInSetup(plan: Plan, h: History)
    requires Next(plan, h) == None && (h != [] ==> InPlan(plan, h[|h| - 1].step) && !Halts(h[|h| - 1]))
    requires h != [] ==> IterationOf(h[|h| - 1].step) == 0
    ensures h == [] ==> SetupCommands(plan) == [] && plan.maxIterations == 0
    ensures h != [] && h[|h| - 1].step.Setup? ==>
      && h[|h| - 1].step.index == |plan.setup| - 1
      && (!Passed(plan, h, 0) || (plan.initialize.None? && plan.maxIterations == 0))
    ensures h != [] && h[|h| - 1].step.Initialize? ==> !ExitedZero(h[|h| - 1]) || plan.maxIterations == 0
  {
    assert h == [] ==> Passed(plan, h, 0);
    hide Passed, ExitedZero, Halts;
  }

  /** The execs of iteration 0 ran setup's commands in order. */
  lemma SetupPerformed(plan: Plan, limit: nat, h: History, j: nat)
    requires Follows(plan, limit, h) && j < |h| && IterationOf(h[|h| - 1].step) == 0 && !Halts(h[|h| - 1])
    ensures j < |SetupCommands(plan)| && h[j].command == SetupCommands(plan)[j] && Ended(h[j])
    ensures h[j].step == StepAt(plan, 0, j) && IterationOf(h[j].step) == 0
  {
    hide Follows, Halts, Ended, SetupCommands, Offset, StepAt;
    SetupComesFirst(plan, limit, h, |h| - 1);
    Block(plan, limit, h, |h| - 1);
    AllEnded(plan, limit, h);
    assert h[j].step == StepAt(plan, 0, j);
    IterationOfSetup(plan, j);
    SetupComesFirst(plan, limit, h, j);
    CommandsArePlanned(plan, limit, h, j);
  }

  lemma IterationOfSetup(plan: Plan, j: nat)
    ensures IterationOf(StepAt(plan, 0, j)) == 0
  {}

  lemma SetupAlone(plan: Plan, limit: nat, h: History)
    requires Follows(plan, limit, h) && Next(plan, h) == None
    requires h != [] ==> !Halts(h[|h| - 1]) && IterationOf(h[|h| - 1].step) == 0
    ensures SetupLost(plan, h) || (Prepared(plan, h) && plan.maxIterations == 0)
  {
    if h == [] {
      EndingInSetup(plan, h);
    } else {
      var last := |h| - 1;
      Predecessor(plan, limit, h, last);
      SetupComesFirst(plan, limit, h, last);
      EndingInSetup(plan, h);
      forall j | 0 <= j < |h|
        ensures j < |SetupCommands(plan)| && h[j].command == SetupCommands(plan)[j] && Ended(h[j])
        ensures h[j].step == StepAt(plan, 0, j) && IterationOf(h[j].step) == 0
        ensures ExitedZero(h[j]) <==> Zero(h[j])
      {
        SetupPerformed(plan, limit, h, j);
        ZeroExactly(h[j]);
      }
      SetupVerdict(plan, limit, h);
    }
  }

  lemma SetupVerdict(plan: Plan, limit: nat, h: History)
    requires h != [] && IterationOf(h[|h| - 1].step) == 0 && Offset(plan, h[|h| - 1].step) == |h| - 1
    requires Follows(plan, limit, h) && InPlan(plan, h[|h| - 1].step)
    requires forall j | 0 <= j < |h| ::
      && j < |SetupCommands(plan)| && h[j].command == SetupCommands(plan)[j] && Ended(h[j])
      && h[j].step == StepAt(plan, 0, j) && IterationOf(h[j].step) == 0
    requires h[|h| - 1].step.Setup? ==>
      && |h| == |plan.setup| && (!Passed(plan, h, 0) || (plan.initialize.None? && plan.maxIterations == 0))
    requires h[|h| - 1].step.Initialize? ==> !ExitedZero(h[|h| - 1]) || plan.maxIterations == 0
    ensures SetupLost(plan, h) || (Prepared(plan, h) && plan.maxIterations == 0)
  {
    hide Follows, Ended, Halts;
    var last := |h| - 1;
    if h[last].step.Initialize? {
      InitializeAfterZeros(plan, limit, h);
      ZeroExactly(h[last]);
    } else if Passed(plan, h, 0) {
      forall j | 0 <= j < |h|
        ensures Zero(h[j])
      {
        FailingExactly0(plan, h, j);
      }
    } else {
      var j :| 0 <= j < |h| && IterationOf(h[j].step) == 0 && Failing(plan, h[j]);
      ZeroExactly(h[j]);
    }
  }

  lemma FailingExactly0(plan: Plan, h: History, j: nat)
    requires j < |h| && Passed(plan, h, 0) && h[j].step == StepAt(plan, 0, j) && Ended(h[j])
    ensures Zero(h[j])
  {
    ZeroExactly(h[j]);
    assert Counts(plan, h[j].step);
  }

  /** Initialize runs only after every setup command exited 0. */
  lemma InitializeAfterZeros(plan: Plan, limit: nat, h: History)
    requires Follows(plan, limit, h) && h != [] && h[|h| - 1].step.Initialize?
    requires forall j | 0 <= j < |h| :: h[j].step == StepAt(plan, 0, j) && Ended(h[j])
    requires |h| == |plan.setup| + 1
    ensures forall j | 0 <= j < |plan.setup| :: Zero(h[j])
  {
    hide Follows, After, Passed, Halts, Ended, Zero;
    var last := |h| - 1;
    if last > 0 {
      assert h[last - 1].step == Setup(last - 1);
      PrefixFollows(plan, limit, h, last);
      Succession(plan, limit, h, last);
      InPlanOfSetup(plan, last - 1);
      SetupLeadsOn(plan, h[..last], h[last - 1], h[last].step);
      forall j | 0 <= j < last
        ensures Zero(h[j])
      {
        assert h[..last][j] == h[j];
        FailingExactly0(plan, h[..last], j);
      }
    }
  }

  lemma InPlanOfSetup(plan: Plan, j: nat)
    requires j < |plan.setup|
    ensures InPlan(plan, Setup(j))
  {}

  /**
   A run that ended without success has a reason in the plan's own terms: setup or initialize failed, or
   every iteration the plan allows was made in full and failed.
   */
  lemma FailureIsReal(plan: Plan, limit: nat, h: History)
    requires Follows(plan, limit, h) && Next(plan, h) == None && !Succeeded(plan, h)
    requires h != [] ==> !Halts(h[|h| - 1])
    ensures SetupLost(plan, h) || Exhausted(plan, h)
  {
    hide Follows, Next, Succeeded, Halts, SetupLost, Prepared, IterationOf;
    if h == [] || IterationOf(h[|h| - 1].step) == 0 {
      SetupAlone(plan, limit, h);
    } else {
      IterationsFailed(plan, limit, h);
    }
  }

  /** The phase a run blames is the phase of an exec that failed and after which none failed. */
  lemma {:induction false} BlameIsReal(plan: Plan, h: History)
    ensures LastFailure(plan, h).Some? ==>
      exists i: nat :: i < |h| && Failing(plan, h[i]) && PhaseOf(h[i].step) == LastFailure(plan, h).value
                    && forall j | i < j < |h| :: !Failing(plan, h[j])
    ensures LastFailure(plan, h).None? ==> forall j | 0 <= j < |h| :: !Failing(plan, h[j])
  {
    if h == [] || Failing(plan, h[|h| - 1]) {
    } else {
      var g := h[..|h| - 1];
      BlameIsReal(plan, g);
      assert forall j | 0 <= j < |g| :: h[j] == g[j];
    }
  }

  /**
   A run that ended without success, was not stopped, and may iterate at all, always has a phase to
   blame; so the fallback phase is never reported for a workflow with at least one iteration.
   */
  lemma FailureHasPhase(plan: Plan, limit: nat, h: History)
    requires Follows(plan, limit, h) && Next(plan, h) == None && !Succeeded(plan, h)
    requires h != [] ==> !Halts(h[|h| - 1])
    ensures plan.maxIterations >= 1 ==> LastFailure(plan, h).Some?
  {
    if h != [] {
      Predecessor(plan, limit, h, |h| - 1);
      NothingFailed(plan, h, IterationOf(h[|h| - 1].step));
    }
    NothingFailed(plan, h, 0);
    hide Follows, LastFailure, Passed;
  }

  lemma NothingFailed(plan: Plan, h: History, k: nat)
    ensures LastFailure(plan, h).None? ==> Passed(plan, h, k)
  {
    BlameIsReal(plan, h);
  }

  /** Without that bound the claim fails: with no iteration allowed, an empty run blames nothing. */
  lemma FallbackPhaseNeedsZeroIterations()
    ensures exists plan, h ::
      && Follows(plan, 0, h) && plan.maxIterations == 0
      && Next(plan, h) == None && !Succeeded(plan, h) && LastFailure(plan, h).None?
  {
    var plan := Plan([], None, Command([], None), [], [], None, 0);
    assert Follows(plan, 0, []) && Next(plan, []) == None;
  }
}
