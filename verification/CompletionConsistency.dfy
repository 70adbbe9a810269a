/**
 When every completion that is sent is the one in the outbox. A worker sends the result it holds,
 while its row keeps what was stored first, so this is not so in every run; here is exactly when.
 */
module CompletionConsistency {
  import opened Prelude
  import opened Protocol
  import opened IdempotencyKey
  import opened Journal
  import opened CompletionProtocol

  predicate Matches(o: Outbox, request: Request)
    requires RowsSound(o)
  {
    request.result.key in o && request == RequestOf(o[request.result.key])
  }

  /** Every request is the one its row stands for. */
  predicate SendsMatch(o: Outbox, sends: seq<Request>)
    requires RowsSound(o)
  {
    forall r | 0 <= r < |sends| :: Matches(o, sends[r])
  }

  /** Every worker with a row is going to send what the row stands for. */
  predicate WorkersMatch(s: Sys)
    requires RowsSound(s.outbox)
  {
    forall w | w in s.workers && !s.workers[w].stage.AtEnqueue? :: Matches(s.outbox, Pledge(s.workers[w]))
  }

  /** The server holds nothing but the payloads of rows, each under its own key. */
  predicate ServerMatches(o: Outbox, server: map<string, JobResult>)
    requires RowsSound(o)
  {
    && (forall k | k in o && KeyOf(k) in server :: server[KeyOf(k)] == ReplayedResult(o[k]))
    && (forall ik | ik in server :: exists k :: k in o && KeyOf(k) == ik)
  }

  /** What was sent, what will be sent and what the server holds all agree with the outbox. */
  predicate Consistent(s: Sys) {
    RowsSound(s.outbox) && WorkersMatch(s) && SendsMatch(s.outbox, s.sends) && ServerMatches(s.outbox, s.server)
  }

  /** Enqueueing finds a row of its key with another lease or payload, and leaves it as it is. */
  predicate Clashes(s: Sys, step: Step) {
    && step.Enqueue?
    && step.w in s.workers
    && var worker := s.workers[step.w];
    && worker.result.key in s.outbox
    && (|| s.outbox[worker.result.key].lease != worker.lease
        || s.outbox[worker.result.key].payload != Encoded(worker.result))
  }

  ghost predicate NeverClashes(states: seq<Sys>, steps: seq<Step>)
    requires IsRun(states, steps)
  {
    forall i | 0 <= i < |steps| :: !Clashes(states[i], steps[i])
  }

  predicate Begins(step: Step, w: nat) {
    step.Finish? && step.w == w
  }

  /** The worker that clashed in step `i` sends in step `j`. */
  ghost predicate SendsAfterClash(states: seq<Sys>, steps: seq<Step>, i: nat, j: nat)
    requires IsRun(states, steps) && i < j < |steps|
  {
    && Clashes(states[i], steps[i])
    && steps[j] == Send(steps[i].w)
    && forall k | i < k < j :: !Begins(steps[k], steps[i].w)
  }

  /** No worker that clashed gets to send within the first `n` steps. */
  ghost predicate ClashesStayQuiet(states: seq<Sys>, steps: seq<Step>, n: nat)
    requires IsRun(states, steps) && n <= |steps|
  {
    forall i: nat, j: nat | i < j < n :: !SendsAfterClash(states, steps, i, j)
  }

  // ---- Single steps ----

  lemma MatchCarries(o: Outbox, o': Outbox, request: Request)
    requires RowsSound(o) && RowsSound(o') && Preserves(o, o') && request.result.key in o
    ensures Matches(o, request) <==> Matches(o', request)
  {
    hide KeyOf;
  }

  /** A worker that is not new was there before, with the same lease and result. */
  lemma WorkerBefore(s: Sys, step: Step, w: nat)
    requires Enabled(s, step) && w in Apply(s, step).workers && !Begins(step, w)
    ensures w in s.workers && Pledge(Apply(s, step).workers[w]) == Pledge(s.workers[w])
    ensures Apply(s, step).workers[w].stage.AtEnqueue? ==> s.workers[w].stage.AtEnqueue?
    ensures s.workers[w].stage.AtEnqueue? && !Apply(s, step).workers[w].stage.AtEnqueue? ==>
      step.Enqueue? && step.w == w
  {
    hide KeyOf, PendingList, Agreeable, Sendable;
  }

  lemma NewWorkersWait(s: Sys, step: Step, w: nat)
    requires Enabled(s, step) && Begins(step, w)
    ensures w in Apply(s, step).workers && Apply(s, step).workers[w].stage.AtEnqueue?
  {
    hide KeyOf, PendingList, Agreeable, Sendable;
  }

  /** After enqueueing, a worker matches its row unless it clashed. */
  lemma EnqueueMatches(s: Sys, step: Step)
    requires Sound(s) && Enabled(s, step) && step.Enqueue? && RowsSound(Apply(s, step).outbox)
    ensures Matches(Apply(s, step).outbox, Pledge(s.workers[step.w])) <==> !Clashes(s, step)
  {
    hide KeyOf, SendsSound, DeliveredSound, WorkersSound, DaemonSound;
  }

  lemma ReplayRequestMatches(s: Sys)
    requires Sound(s) && Enabled(s, ReplaySend)
    ensures Matches(s.outbox, RequestOf(s.daemon.entries[0].row))
  {
    assert s.daemon.entries[0] in s.daemon.entries;
  }

  // ---- What clashes do ----

  /** A request that clashed matches its row in no later state. */
  lemma ClashNeverMatches(states: seq<Sys>, steps: seq<Step>, i: nat, j: nat)
    requires IsRun(states, steps) && i < |steps| && i < j < |states| && Clashes(states[i], steps[i])
    ensures RowsSound(states[j].outbox) && !Matches(states[j].outbox, Pledge(states[i].workers[steps[i].w]))
  {
    EveryRunIsSound(states, steps, i);
    EveryRunIsSound(states, steps, j);
    RowsArePermanent(states, steps, i, j);
    MatchCarries(states[i].outbox, states[j].outbox, Pledge(states[i].workers[steps[i].w]));
  }

  /** A worker that does not match its row has clashed. */
  lemma {:induction false} LooseWorkerClashed(states: seq<Sys>, steps: seq<Step>, n: nat, w: nat) returns (i: nat)
    requires IsRun(states, steps) && n < |states| && RowsSound(states[n].outbox)
    requires w in states[n].workers && !states[n].workers[w].stage.AtEnqueue?
    requires !Matches(states[n].outbox, Pledge(states[n].workers[w]))
    ensures i < n && Clashes(states[i], steps[i]) && steps[i].w == w
    ensures forall k | i < k < n :: !Begins(steps[k], w)
  {
    hide Apply, Enabled, Matches, Clashes, Preserves, Begins, RowsSound;
    var s, step := states[n - 1], steps[n - 1];
    EveryRunIsSound(states, steps, n - 1);
    SoundStep(s, step);
    if Begins(step, w) {
      NewWorkersWait(s, step, w);
    }
    WorkerBefore(s, step, w);
    if step.Enqueue? && step.w == w {
      EnqueueMatches(s, step);
      i := n - 1;
    } else {
      assert WorkerSound(s, s.workers[w]);
      MatchCarries(s.outbox, states[n].outbox, Pledge(s.workers[w]));
      i := LooseWorkerClashed(states, steps, n - 1, w);
    }
  }

  /** What a worker sends does not change while it lives. */
  lemma {:induction false} WorkerStays(states: seq<Sys>, steps: seq<Step>, i: nat, j: nat, w: nat)
    requires IsRun(states, steps) && i <= j < |states| && w in states[j].workers
    requires forall k | i <= k < j :: !Begins(steps[k], w)
    ensures w in states[i].workers && Pledge(states[j].workers[w]) == Pledge(states[i].workers[w])
    decreases j
  {
    hide Apply, Enabled, Begins;
    if i == j {
    } else {
      WorkerBefore(states[j - 1], steps[j - 1], w);
      WorkerStays(states, steps, i, j - 1, w);
    }
  }

  lemma {:induction false} SendsArePermanent(states: seq<Sys>, steps: seq<Step>, i: nat, j: nat)
    requires IsRun(states, steps) && i <= j < |states|
    ensures states[i].sends <= states[j].sends
    decreases j
  {
    hide Apply, Enabled;
    if i == j {
    } else {
      SendsArePermanent(states, steps, i, j - 1);
      SendsGrow(states[j - 1], steps[j - 1]);
    }
  }

  lemma SendsMatchCarries(o: Outbox, o': Outbox, sends: seq<Request>)
    requires RowsSound(o) && RowsSound(o') && Preserves(o, o')
    requires forall r | 0 <= r < |sends| :: sends[r].result.key in o
    ensures SendsMatch(o, sends) <==> SendsMatch(o', sends)
  {
    forall r | 0 <= r < |sends|
      ensures Matches(o, sends[r]) <==> Matches(o', sends[r])
    {
      MatchCarries(o, o', sends[r]);
    }
    hide RowsSound, Preserves, Matches;
  }

  /** Sends that match now have matched their rows all along. */
  lemma SendsMatchedBefore(states: seq<Sys>, steps: seq<Step>, i: nat, j: nat)
    requires IsRun(states, steps) && i <= j < |states|
    requires RowsSound(states[j].outbox) && SendsMatch(states[j].outbox, states[j].sends)
    ensures RowsSound(states[i].outbox) && SendsMatch(states[i].outbox, states[i].sends)
  {
    hide Apply, Enabled, Matches, RowsSound, Preserves;
    EveryRunIsSound(states, steps, i);
    RowsArePermanent(states, steps, i, j);
    SendsArePermanent(states, steps, i, j);
    forall r | 0 <= r < |states[i].sends|
      ensures Matches(states[j].outbox, states[i].sends[r])
    {
      assert states[i].sends[r] == states[j].sends[r];
    }
    SendsMatchCarries(states[i].outbox, states[j].outbox, states[i].sends);
  }

  lemma SendsMatchStep(s: Sys, step: Step)
    requires Sound(s) && Enabled(s, step) && SendsMatch(s.outbox, s.sends)
    requires RowsSound(Apply(s, step).outbox) && Preserves(s.outbox, Apply(s, step).outbox)
    requires step.Send? ==> Matches(s.outbox, Pledge(s.workers[step.w]))
    ensures SendsMatch(Apply(s, step).outbox, Apply(s, step).sends)
  {
    SendsGrow(s, step);
    if step.ReplaySend? {
      ReplayRequestMatches(s);
    }
    hide Apply, Enabled, Matches, RowsSound, Preserves, SendsSound, DeliveredSound, WorkersSound, DaemonSound;
    var sends := Apply(s, step).sends;
    assert SendsMatch(s.outbox, sends);
    MatchingHaveRows(s.outbox, sends);
    SendsMatchCarries(s.outbox, Apply(s, step).outbox, sends);
  }

  lemma MatchingHaveRows(o: Outbox, sends: seq<Request>)
    requires RowsSound(o) && SendsMatch(o, sends)
    ensures forall r | 0 <= r < |sends| :: sends[r].result.key in o
  {
    forall r | 0 <= r < |sends|
      ensures sends[r].result.key in o
    {
      assert Matches(o, sends[r]);
    }
  }

  /** A worker that sends while clashes stay quiet matches its row. */
  lemma QuietSender(states: seq<Sys>, steps: seq<Step>, j: nat)
    requires IsRun(states, steps) && j < |steps| && steps[j].Send? && ClashesStayQuiet(states, steps, j + 1)
    requires RowsSound(states[j].outbox) && Sound(states[j])
    ensures steps[j].w in states[j].workers && Matches(states[j].outbox, Pledge(states[j].workers[steps[j].w]))
  {
    assert Enabled(states[j], steps[j]);
    hide Apply, Enabled, Matches, RowsSound, Clashes, Begins;
    var w := steps[j].w;
    forall i: nat | i < j && Clashes(states[i], steps[i]) && steps[i].w == w
      ensures exists k :: i < k < j && Begins(steps[k], w)
    {
      assert !SendsAfterClash(states, steps, i, j);
    }
    if !Matches(states[j].outbox, Pledge(states[j].workers[w])) {
      var i := LooseWorkerClashed(states, steps, j, w);
    }
  }

  lemma {:induction false} QuietSendsMatch(states: seq<Sys>, steps: seq<Step>, n: nat)
    requires IsRun(states, steps) && n <= |steps| && ClashesStayQuiet(states, steps, n)
    ensures RowsSound(states[n].outbox) && SendsMatch(states[n].outbox, states[n].sends)
  {
    if n == 0 {
      assert states[0] == INITIAL;
    } else {
      hide Apply, Enabled, Matches, RowsSound, Preserves, Clashes, SendsAfterClash, WorkersSound, DaemonSound;
      var s, step := states[n - 1], steps[n - 1];
      EveryRunIsSound(states, steps, n - 1);
      assert ClashesStayQuiet(states, steps, n - 1);
      QuietSendsMatch(states, steps, n - 1);
      if step.Send? {
        QuietSender(states, steps, n - 1);
      }
      SoundStep(s, step);
      SendsMatchStep(s, step);
    }
  }

  /** In every run, every request sent is the one in its row exactly if no worker sends after it clashed. */
  lemma SendsMatchExactly(states: seq<Sys>, steps: seq<Step>)
    requires IsRun(states, steps)
    ensures var s := states[|steps|];
      RowsSound(s.outbox) && (SendsMatch(s.outbox, s.sends) <==> ClashesStayQuiet(states, steps, |steps|))
  {
    var n := |steps|;
    EveryRunIsSound(states, steps, n);
    if ClashesStayQuiet(states, steps, n) {
      QuietSendsMatch(states, steps, n);
    } else {
      var i: nat, j: nat :| i < j < n && SendsAfterClash(states, steps, i, j);
      SentClashShows(states, steps, i, j);
    }
  }

  lemma SentClashShows(states: seq<Sys>, steps: seq<Step>, i: nat, j: nat)
    requires IsRun(states, steps) && i < j < |steps| && SendsAfterClash(states, steps, i, j)
    ensures var s := states[|steps|];
      RowsSound(s.outbox) && !SendsMatch(s.outbox, s.sends)
  {
    var w, n := steps[i].w, |steps|;
    assert Enabled(states[j], steps[j]) && !Begins(steps[i], w);
    hide Apply, Enabled, Matches, Clashes, RowsSound;
    WorkerStays(states, steps, i, j, w);
    SendsGrow(states[j], steps[j]);
    SendsArePermanent(states, steps, j + 1, n);
    ClashNeverMatches(states, steps, i, n);
    var r := |states[j].sends|;
    assert states[n].sends[r] == states[j + 1].sends[r] == Pledge(states[i].workers[w]);
  }

  /** The server's view survives any change of the outbox that adds no key the server knows. */
  lemma ServerCarries(o: Outbox, o': Outbox, server: map<string, JobResult>)
    requires RowsSound(o) && RowsSound(o') && Preserves(o, o') && ServerMatches(o, server)
    requires forall k | k in o' && k !in o :: KeyOf(k) !in server
    ensures ServerMatches(o', server)
  {
    hide KeyOf;
  }

  /** A key without a row is unknown to the server, since no other row can have the same key text. */
  lemma UnknownKey(o: Outbox, server: map<string, JobResult>, key: JobKey)
    requires RowsSound(o) && ServerMatches(o, server) && key !in o
    ensures KeyOf(key) !in server
  {
    if KeyOf(key) in server {
      var k :| k in o && KeyOf(k) == KeyOf(key);
      KeysAreDistinct(k, key);
    }
  }

  lemma ServeMatches(o: Outbox, server: map<string, JobResult>, key: JobKey)
    requires RowsSound(o) && ServerMatches(o, server) && key in o
    ensures ServerMatches(o, server[KeyOf(key) := ReplayedResult(o[key])])
  {
    forall k | k in o && KeyOf(k) == KeyOf(key)
      ensures k == key
    {
      KeysAreDistinct(k, key);
    }
    hide KeyOf, Sendable;
  }

  lemma ServerMatchesStep(s: Sys, step: Step)
    requires Sound(s) && SendsMatch(s.outbox, s.sends) && ServerMatches(s.outbox, s.server)
    requires Enabled(s, step) && RowsSound(Apply(s, step).outbox) && Preserves(s.outbox, Apply(s, step).outbox)
    ensures ServerMatches(Apply(s, step).outbox, Apply(s, step).server)
  {
    hide KeyOf, RowsSound, Preserves, PendingList, Agreeable, Sendable, ServerMatches;
    if step.Serve? {
      assert Matches(s.outbox, s.sends[step.sent]);
      ServeMatches(s.outbox, s.server, s.sends[step.sent].result.key);
    } else {
      OnlyServeChangesServer(s, step);
      hide Apply, Enabled, Sound;
      var o := Apply(s, step).outbox;
      forall k | k in o && k !in s.outbox
        ensures KeyOf(k) !in s.server
      {
        UnknownKey(s.outbox, s.server, k);
      }
      ServerCarries(s.outbox, o, s.server);
    }
  }

  /** As long as the sends match, the server holds nothing but what is in the outbox. */
  lemma {:induction false} ServerFollowsSends(states: seq<Sys>, steps: seq<Step>, n: nat)
    requires IsRun(states, steps) && n < |states|
    requires RowsSound(states[n].outbox) && SendsMatch(states[n].outbox, states[n].sends)
    ensures ServerMatches(states[n].outbox, states[n].server)
  {
    if n == 0 {
    } else {
      hide Apply, SendsMatch, RowsSound, Preserves, ServerMatches;
      var s, step := states[n - 1], steps[n - 1];
      EveryRunIsSound(states, steps, n - 1);
      SendsMatchedBefore(states, steps, n - 1, n);
      ServerFollowsSends(states, steps, n - 1);
      SoundStep(s, step);
      ServerMatchesStep(s, step);
    }
  }

  /**
   A run stays consistent in every state exactly if no enqueueing ever finds a row of its key with
   another lease or payload.
   */
  lemma ConsistentExactly(states: seq<Sys>, steps: seq<Step>)
    requires IsRun(states, steps)
    ensures (forall n | 0 <= n < |states| :: Consistent(states[n])) <==> NeverClashes(states, steps)
  {
    if NeverClashes(states, steps) {
      forall n | 0 <= n < |states|
        ensures Consistent(states[n])
      {
        ConsistentState(states, steps, n);
      }
    } else {
      var i :| 0 <= i < |steps| && Clashes(states[i], steps[i]);
      ClashShows(states, steps, i);
    }
  }

  lemma ConsistentState(states: seq<Sys>, steps: seq<Step>, n: nat)
    requires IsRun(states, steps) && NeverClashes(states, steps) && n < |states|
    ensures Consistent(states[n])
  {
    EveryRunIsSound(states, steps, n);
    QuietSendsMatch(states, steps, n);
    hide Apply, Enabled, SendsMatch, RowsSound, Matches, Clashes, ServerMatches;
    ServerFollowsSends(states, steps, n);
    forall w | w in states[n].workers && !states[n].workers[w].stage.AtEnqueue?
      ensures Matches(states[n].outbox, Pledge(states[n].workers[w]))
    {
      if !Matches(states[n].outbox, Pledge(states[n].workers[w])) {
        var i := LooseWorkerClashed(states, steps, n, w);
      }
    }
  }

  lemma ClashShows(states: seq<Sys>, steps: seq<Step>, i: nat)
    requires IsRun(states, steps) && i < |steps| && Clashes(states[i], steps[i])
    ensures !Consistent(states[i + 1])
  {
    ClashNeverMatches(states, steps, i, i + 1);
    var w := steps[i].w;
    assert w in states[i + 1].workers && states[i + 1].workers[w].stage.AtRecord?;
    assert Pledge(states[i + 1].workers[w]) == Pledge(states[i].workers[w]);
    hide Apply, Enabled, Matches, Clashes, SendsMatch, ServerMatches, RowsSound;
  }

  /** A clash can always reach the wire: two more steps send a request that contradicts its row. */
  lemma ClashCanBeSent(s: Sys, step: Step, now: nat)
    requires Sound(s) && Enabled(s, step) && Clashes(s, step)
    ensures var t := Apply(s, step);
      && Enabled(t, Record(step.w, now))
      && var u := Apply(t, Record(step.w, now));
      && Enabled(u, Send(step.w))
      && Apply(u, Send(step.w)).sends == s.sends + [Pledge(s.workers[step.w])]
  {
    hide KeyOf;
  }

  /**
   Despite lost answers, timeouts and crashes, as long as no worker sends after a clash, every request
   ever sent for an attempt is the one in its row, the server stores nothing else for it, and it never
   has a reason to answer with a conflict.
   */
  lemma CompletionsAreConsistent(states: seq<Sys>, steps: seq<Step>, i: nat, r: nat)
    requires IsRun(states, steps) && i < |states| && r < |states[i].sends| && ClashesStayQuiet(states, steps, i)
    ensures var key := states[i].sends[r].result.key;
      && key in states[i].outbox
      && Sendable(states[i].outbox[key])
      && states[i].sends[r] == RequestOf(states[i].outbox[key])
      && (KeyOf(key) in states[i].server ==> states[i].server[KeyOf(key)] == states[i].sends[r].result)
      && Enabled(states[i], Serve(r))
  {
    QuietSendsMatch(states, steps, i);
    ServerFollowsSends(states, steps, i);
    assert Matches(states[i].outbox, states[i].sends[r]);
  }

  // ---- Runs that enqueue or execute each attempt once ----

  /** No enqueueing finds a row of its key at all. */
  ghost predicate EnqueuesOnce(states: seq<Sys>, steps: seq<Step>)
    requires IsRun(states, steps)
  {
    forall i | 0 <= i < |steps| && steps[i].Enqueue? ::
      steps[i].w in states[i].workers ==> states[i].workers[steps[i].w].result.key !in states[i].outbox
  }

  /** No attempt's result is produced twice. */
  ghost predicate ExecutesOnce(states: seq<Sys>, steps: seq<Step>)
    requires IsRun(states, steps)
  {
    forall i | 0 <= i < |steps| && steps[i].Finish? :: steps[i].result.key !in states[i].executed
  }

  lemma EnqueueingOnceNeverClashes(states: seq<Sys>, steps: seq<Step>)
    requires IsRun(states, steps) && EnqueuesOnce(states, steps)
    ensures NeverClashes(states, steps)
  {
    hide IsRun;
  }

  predicate SingleWorker(s: Sys, w: Worker) {
    w.result.key in s.executed && (w.stage.AtEnqueue? <==> w.result.key !in s.outbox)
  }

  /** No two workers have the same key, and each has a row exactly if it has enqueued it. */
  predicate Singles(s: Sys) {
    && s.outbox.Keys <= s.executed
    && (forall i | i in s.workers :: SingleWorker(s, s.workers[i]))
    && (forall i, j | i in s.workers && j in s.workers && i != j ::
          s.workers[i].result.key != s.workers[j].result.key)
  }

  /** Only enqueueing adds a key, and workers otherwise only move on or end. */
  lemma OnlyEnqueueAdds(s: Sys, step: Step)
    requires Enabled(s, step) && !step.Enqueue?
    ensures Apply(s, step).outbox.Keys == s.outbox.Keys
    ensures s.executed <= Apply(s, step).executed
    ensures !step.Finish? ==> forall i | i in Apply(s, step).workers ::
      i in s.workers && Apply(s, step).workers[i] == s.workers[i].(stage := Apply(s, step).workers[i].stage)
      && (s.workers[i].stage.AtEnqueue? <==> Apply(s, step).workers[i].stage.AtEnqueue?)
  {
    hide KeyOf, PendingList, Agreeable, Sendable;
  }

  lemma SinglesCarry(s: Sys, s': Sys)
    requires Singles(s) && s'.outbox.Keys == s.outbox.Keys && s.executed <= s'.executed
    requires forall i | i in s'.workers ::
      i in s.workers && s'.workers[i] == s.workers[i].(stage := s'.workers[i].stage)
      && (s.workers[i].stage.AtEnqueue? <==> s'.workers[i].stage.AtEnqueue?)
    ensures Singles(s')
  {}

  lemma SinglesStep(s: Sys, step: Step)
    requires Sound(s) && Singles(s) && Enabled(s, step)
    requires step.Finish? ==> step.result.key !in s.executed
    ensures Singles(Apply(s, step))
  {
    hide KeyOf, Sound, PendingList, Agreeable, Sendable;
    if !step.Enqueue? && !step.Finish? {
      OnlyEnqueueAdds(s, step);
      hide Enabled, Apply, Singles;
      SinglesCarry(s, Apply(s, step));
    }
  }

  lemma {:induction false} EveryRunIsSingle(states: seq<Sys>, steps: seq<Step>, i: nat)
    requires IsRun(states, steps) && ExecutesOnce(states, steps) && i < |states|
    ensures Singles(states[i])
  {
    if i == 0 {
    } else {
      hide Apply, Singles;
      EveryRunIsSingle(states, steps, i - 1);
      EveryRunIsSound(states, steps, i - 1);
      SinglesStep(states[i - 1], steps[i - 1]);
    }
  }

  /** Executing each attempt once is enough, though more than is needed. */
  lemma ExecutingOnceEnqueuesOnce(states: seq<Sys>, steps: seq<Step>)
    requires IsRun(states, steps) && ExecutesOnce(states, steps)
    ensures EnqueuesOnce(states, steps)
  {
    forall i | 0 <= i < |steps| && steps[i].Enqueue?
      ensures steps[i].w in states[i].workers && states[i].workers[steps[i].w].result.key !in states[i].outbox
    {
      EveryRunIsSingle(states, steps, i);
      assert Enabled(states[i], steps[i]);
      assert SingleWorker(states[i], states[i].workers[steps[i].w]);
    }
  }

  /** The row of a completion after its first attempt. */
  function FirstRow(first: JobResult, lease: string): Row {
    Row(lease, KeyOf(first.key), Encoded(first), 1, false, 0)
  }

  /** The state while a worker waits for the first answer for its completion. */
  function AfterSend(first: JobResult, lease: string): Sys {
    Sys(map[first.key := FirstRow(first, lease)], Serving, map[0 := Worker(lease, first, Waiting(0, 0))],
        [Request(lease, first)], {}, map[], {first.key}, 1)
  }

  lemma SendsFirst(first: JobResult, lease: string) returns (states: seq<Sys>, steps: seq<Step>)
    ensures IsRun(states, steps) && states[|steps|] == AfterSend(first, lease)
  {
    hide KeyOf;
    states, steps := [INITIAL], [];
    states, steps := OneMoreState(states, steps, Start([]));
    states, steps := OneMoreState(states, steps, ReplayDone);
    states, steps := OneMoreState(states, steps, Finish(0, lease, first));
    states, steps := OneMoreState(states, steps, Enqueue(0, 0));
    states, steps := OneMoreState(states, steps, Record(0, 0));
    states, steps := OneMoreState(states, steps, Send(0));
    assert states[|steps|] == AfterSend(first, lease);
  }

  /** The state after an attempt was executed and its result sent once, by a worker that then ended. */
  function AfterFirst(first: JobResult, lease: string): Sys {
    AfterSend(first, lease).(workers := map[])
  }

  lemma FirstExecution(first: JobResult, lease: string) returns (states: seq<Sys>, steps: seq<Step>)
    ensures IsRun(states, steps) && states[|steps|] == AfterFirst(first, lease)
  {
    hide KeyOf;
    states, steps := SendsFirst(first, lease);
    states, steps := OneMoreState(states, steps, Exit(0));
    assert states[|steps|].workers == map[];
  }

  /**
   A run that is not consistent: an attempt is executed again with another outcome, its row keeps the
   first one, and the second send contradicts it.
   */
  lemma TwiceExecutedSendsDiffer(key: JobKey) returns (states: seq<Sys>, steps: seq<Step>)
    ensures IsRun(states, steps) && !ExecutesOnce(states, steps) && !ClashesStayQuiet(states, steps, |steps|)
    ensures var s := states[|steps|];
      && |s.sends| == 2 && key in s.outbox && s.sends[1].result.key == key
      && Parse(s.outbox[key].payload) == Some(s.sends[0].result)
      && s.sends[1].result != s.sends[0].result
  {
    hide KeyOf;
    var first := JobResult(key, Completed, Some(0), false, [], [], None, None);
    var second := first.(logTruncated := true);
    states, steps := FirstExecution(first, "lease");
    ghost var i := |steps|;
    states, steps := OneMoreState(states, steps, Finish(0, "lease", second));
    assert steps[i].Finish? && steps[i].result.key in states[i].executed;
    states, steps := OneMoreState(states, steps, Enqueue(0, 0));
    states, steps := OneMoreState(states, steps, Record(0, 0));
    states, steps := OneMoreState(states, steps, Send(0));
    assert steps[i].Finish? && steps[i].result.key in states[i].executed;
    SendsMatchExactly(states, steps);
    assert !Matches(states[|steps|].outbox, states[|steps|].sends[1]);
  }

  /** The state after a completion was accepted but the daemon crashed before it learned so. */
  function AfterLostAck(first: JobResult, lease: string): Sys {
    AfterFirst(first, lease).(daemon := Down, accepted := {0}, server := map[KeyOf(first.key) := first])
  }

  lemma AckIsLost(first: JobResult, lease: string) returns (states: seq<Sys>, steps: seq<Step>)
    ensures IsRun(states, steps) && states[|steps|] == AfterLostAck(first, lease)
  {
    hide KeyOf;
    states, steps := SendsFirst(first, lease);
    states, steps := OneMoreState(states, steps, Serve(0));
    states, steps := OneMoreState(states, steps, Crash);
    assert states[|steps|].accepted == {0};
  }

  /** The state while the replay waits for the answer for the same completion. */
  function AfterResend(first: JobResult, lease: string): Sys {
    var row := FirstRow(first, lease);
    AfterLostAck(first, lease).(
      daemon := Replaying([Pending(first.key, row)], Awaiting(1)),
      outbox := map[first.key := row.(attempts := 2, updatedAt := 1)],
      sends := [Request(lease, first), Request(lease, first)], starts := 2)
  }

  lemma ReplaySendsAgain(first: JobResult, lease: string) returns (states: seq<Sys>, steps: seq<Step>)
    ensures IsRun(states, steps) && states[|steps|] == AfterResend(first, lease)
  {
    hide KeyOf;
    states, steps := AckIsLost(first, lease);
    states, steps := OneMoreState(states, steps, Start([Pending(first.key, FirstRow(first, lease))]));
    states, steps := OneMoreState(states, steps, ReplayRecord(1));
    states, steps := OneMoreState(states, steps, ReplaySend);
    assert states[|steps|].outbox == AfterResend(first, lease).outbox;
  }

  /** Recovery: the answer is lost in a crash, the replay sends the same request again, and it is delivered. */
  lemma CrashIsRecovered(first: JobResult, lease: string) returns (states: seq<Sys>, steps: seq<Step>)
    ensures IsRun(states, steps)
    ensures var s := states[|steps|];
      && s.daemon.Serving? && s.starts == 2
      && s.sends == [Request(lease, first), Request(lease, first)]
      && first.key in s.outbox && s.outbox[first.key].delivered && s.outbox[first.key].attempts == 2
      && s.server == map[KeyOf(first.key) := first]
  {
    hide KeyOf;
    states, steps := ReplaySendsAgain(first, lease);
    states, steps := OneMoreState(states, steps, Serve(1));
    states, steps := OneMoreState(states, steps, ReplayAck);
    states, steps := OneMoreState(states, steps, ReplayMark(1));
    states, steps := OneMoreState(states, steps, ReplayDone);
  }
}
