/** How the attempt counter of a row relates to the sends for it. */
module CompletionCounts {
  import opened Protocol
  import opened IdempotencyKey
  import opened Journal
  import opened CompletionProtocol
  import opened CompletionConsistency

  function CountFor(sends: seq<Request>, key: JobKey): nat {
    if sends == [] then 0
    else CountFor(sends[..|sends| - 1], key) + if sends[|sends| - 1].result.key == key then 1 else 0
  }

  lemma {:induction false} CountUnsent(sends: seq<Request>, key: JobKey)
    requires forall r | 0 <= r < |sends| :: sends[r].result.key != key
    ensures CountFor(sends, key) == 0
  {
    if sends == [] {
    } else {
      CountUnsent(sends[..|sends| - 1], key);
    }
  }

  lemma CountSent(sends: seq<Request>, request: Request, key: JobKey)
    ensures CountFor(sends + [request], key) == CountFor(sends, key) + if request.result.key == key then 1 else 0
  {
    assert (sends + [request])[..|sends|] == sends;
  }

  // ---- No send without a recorded attempt, in any run ----

  predicate Commits(w: Worker, key: JobKey) {
    w.stage.AtSend? && w.result.key == key
  }

  /** The workers that have recorded an attempt for `key` and not sent it yet. */
  function Committed(workers: map<nat, Worker>, key: JobKey): set<nat> {
    set w | w in workers && Commits(workers[w], key)
  }

  /** The same for the replay. */
  function ReplayCommitted(s: Sys, key: JobKey): nat {
    if AtEntry(s) && s.daemon.stage.Sending? && s.daemon.entries[0].key == key then 1 else 0
  }

  /** Every send and every send about to happen has been counted. */
  predicate Covered(s: Sys, key: JobKey) {
    key in s.outbox ==>
      CountFor(s.sends, key) + |Committed(s.workers, key)| + ReplayCommitted(s, key) <= s.outbox[key].attempts
  }

  /** How the number of committed workers changes when one worker does. */
  lemma CommittedUpdate(workers: map<nat, Worker>, w: nat, worker: Worker, key: JobKey)
    ensures var before := if w in workers && Commits(workers[w], key) then 1 else 0;
      var after := if Commits(worker, key) then 1 else 0;
      |Committed(workers[w := worker], key)| == |Committed(workers, key)| - before + after
  {
    var others := Committed(workers, key) - {w};
    assert Committed(workers, key) == if w in workers && Commits(workers[w], key) then others + {w} else others;
    assert Committed(workers[w := worker], key) == if Commits(worker, key) then others + {w} else others;
  }

  lemma CommittedRemove(workers: map<nat, Worker>, w: nat, key: JobKey)
    ensures |Committed(workers - {w}, key)| <= |Committed(workers, key)|
  {
    assert Committed(workers - {w}, key) == Committed(workers, key) - {w};
  }

  lemma CoveredRecord(s: Sys, w: nat, now: nat, key: JobKey)
    requires Enabled(s, Record(w, now)) && Covered(s, key)
    ensures Covered(Apply(s, Record(w, now)), key)
  {
    hide KeyOf, CountFor, Committed;
    CommittedUpdate(s.workers, w, Apply(s, Record(w, now)).workers[w], key);
  }

  lemma CoveredSend(s: Sys, w: nat, key: JobKey)
    requires Enabled(s, Send(w)) && Covered(s, key)
    ensures Covered(Apply(s, Send(w)), key)
  {
    hide KeyOf, CountFor, Committed;
    CountSent(s.sends, Pledge(s.workers[w]), key);
    CommittedUpdate(s.workers, w, Apply(s, Send(w)).workers[w], key);
  }

  lemma CoveredReplaySend(s: Sys, key: JobKey)
    requires Sound(s) && Enabled(s, ReplaySend) && Covered(s, key)
    ensures Covered(Apply(s, ReplaySend), key)
  {
    EntryKey(s);
    hide KeyOf, CountFor, Committed, Sendable, Sound;
    CountSent(s.sends, RequestOf(s.daemon.entries[0].row), key);
  }

  lemma CoveredReplay(s: Sys, step: Step, key: JobKey)
    requires Enabled(s, step) && Covered(s, key)
    requires step.ReplayRecord? || step.ReplayAck? || step.ReplayMark? || step.ReplayNext?
    ensures Covered(Apply(s, step), key)
  {
    hide KeyOf, CountFor, Committed, Sendable;
  }

  /** A key without a row has no sends and nobody about to send. */
  lemma NobodyCommits(s: Sys, key: JobKey)
    requires Sound(s) && key !in s.outbox
    ensures CountFor(s.sends, key) == 0 && Committed(s.workers, key) == {} && ReplayCommitted(s, key) == 0
  {
    CountUnsent(s.sends, key);
    hide KeyOf, CountFor, RowsSound, SendsSound, DeliveredSound;
    forall w | w in s.workers
      ensures !Commits(s.workers[w], key)
    {
      assert WorkerSound(s, s.workers[w]);
    }
    if AtEntry(s) {
      assert s.daemon.entries[0] in s.daemon.entries;
    }
  }

  lemma CoveredEnqueue(s: Sys, w: nat, now: nat, key: JobKey)
    requires Sound(s) && Enabled(s, Enqueue(w, now)) && Covered(s, key)
    ensures Covered(Apply(s, Enqueue(w, now)), key)
  {
    hide KeyOf, CountFor, Committed, Sound;
    CommittedUpdate(s.workers, w, Apply(s, Enqueue(w, now)).workers[w], key);
    if key !in s.outbox {
      NobodyCommits(s, key);
    }
  }

  lemma CoveredWorker(s: Sys, step: Step, key: JobKey)
    requires Enabled(s, step) && Covered(s, key)
    requires step.Finish? || step.Ack? || step.Nack? || step.Mark? || step.Exit?
    ensures Covered(Apply(s, step), key)
  {
    hide KeyOf, CountFor, Committed;
    if step.w in Apply(s, step).workers {
      CommittedUpdate(s.workers, step.w, Apply(s, step).workers[step.w], key);
    } else {
      CommittedRemove(s.workers, step.w, key);
    }
  }

  lemma CoveredElse(s: Sys, step: Step, key: JobKey)
    requires Enabled(s, step) && Covered(s, key)
    requires step.Serve? || step.Crash? || step.Start? || step.ReplayDone?
    ensures Covered(Apply(s, step), key)
  {
    assert step.Crash? ==> Committed(map[], key) == {};
    hide KeyOf, CountFor, Committed, PendingList, Agreeable;
  }

  lemma CoveredStep(s: Sys, step: Step, key: JobKey)
    requires Sound(s) && Enabled(s, step) && Covered(s, key)
    ensures Covered(Apply(s, step), key)
  {
    hide Apply, Covered, Sound;
    match step {
      case Enqueue(w, now) => CoveredEnqueue(s, w, now, key);
      case Record(w, now) => CoveredRecord(s, w, now, key);
      case Send(w) => CoveredSend(s, w, key);
      case ReplaySend => CoveredReplaySend(s, key);
      case ReplayRecord(_) => CoveredReplay(s, step, key);
      case ReplayAck => CoveredReplay(s, step, key);
      case ReplayMark(_) => CoveredReplay(s, step, key);
      case ReplayNext => CoveredReplay(s, step, key);
      case Serve(_) => CoveredElse(s, step, key);
      case Crash => CoveredElse(s, step, key);
      case Start(_) => CoveredElse(s, step, key);
      case ReplayDone => CoveredElse(s, step, key);
      case _ => CoveredWorker(s, step, key);
    }
  }

  /** In every run a row's attempt counter is at least the number of sends for it. */
  lemma {:induction false} SendsAreCounted(states: seq<Sys>, steps: seq<Step>, i: nat, key: JobKey)
    requires IsRun(states, steps) && i < |states|
    ensures Covered(states[i], key)
    ensures key in states[i].outbox ==> CountFor(states[i].sends, key) <= states[i].outbox[key].attempts
  {
    hide Apply, Enabled, Sound;
    if i == 0 {
      assert states[0] == INITIAL;
    } else {
      SendsAreCounted(states, steps, i - 1, key);
      EveryRunIsSound(states, steps, i - 1);
      CoveredStep(states[i - 1], steps[i - 1], key);
    }
  }

  // ---- The budget of attempts ----

  /** The attempts a worker has recorded by the time it stands at `stage`, at most. */
  function Spent(stage: Stage): nat {
    match stage
    case AtEnqueue => 0
    case AtRecord(tries) => tries
    case AtSend(tries) => tries + 1
    case Waiting(tries, _) => tries + 1
    case AtMark(_) => COMPLETION_ATTEMPTS
  }

  predicate Apart(a: Worker, b: Worker) {
    a.stage.AtEnqueue? || b.stage.AtEnqueue? || a.result.key != b.result.key
  }

  /** A worker that has enqueued has recorded all attempts on its row. */
  predicate Accounts(o: Outbox, w: Worker) {
    !w.stage.AtEnqueue? && w.result.key in o ==> o[w.result.key].attempts <= Spent(w.stage)
  }

  /** Every worker past enqueueing is alone with its row, and the only one to have spent attempts on it. */
  predicate Alone(o: Outbox, workers: map<nat, Worker>) {
    && (forall i, j | i in workers && j in workers && i != j :: Apart(workers[i], workers[j]))
    && (forall i | i in workers :: Accounts(o, workers[i]))
  }

  /** Rows the replay has not yet recorded still have this start's attempt to spend. */
  predicate ReplayBudgeted(s: Sys) {
    s.daemon.Replaying? ==>
      forall i | (if s.daemon.stage.Checking? then 0 else 1) <= i < |s.daemon.entries| ::
        var key := s.daemon.entries[i].key;
        key in s.outbox ==> s.outbox[key].attempts + 2 <= COMPLETION_ATTEMPTS + s.starts
  }

  predicate RowsBudgeted(o: Outbox, starts: nat) {
    && (o.Keys != {} ==> starts >= 1)
    && forall k | k in o :: o[k].attempts + 1 <= COMPLETION_ATTEMPTS + starts
  }

  predicate Budgeted(s: Sys) {
    && (!s.daemon.Down? ==> s.starts >= 1)
    && RowsBudgeted(s.outbox, s.starts)
    && Alone(s.outbox, s.workers)
    && ReplayBudgeted(s)
  }

  // ---- One worker moves, or one row changes ----

  lemma AloneMoves(o: Outbox, workers: map<nat, Worker>, w: nat, worker: Worker)
    requires Alone(o, workers) && Accounts(o, worker)
    requires forall i | i in workers && i != w :: Apart(workers[i], worker) && Apart(worker, workers[i])
    ensures Alone(o, workers[w := worker])
  {
    hide Apart, Accounts;
  }

  lemma AloneLeaves(o: Outbox, workers: map<nat, Worker>, w: nat)
    requires Alone(o, workers)
    ensures Alone(o, workers - {w})
  {
    hide Apart, Accounts;
  }

  /** A worker that goes on with the same key stays apart from the others. */
  lemma StaysApart(o: Outbox, workers: map<nat, Worker>, w: nat, worker: Worker)
    requires Alone(o, workers) && w in workers && !workers[w].stage.AtEnqueue?
    requires worker.result == workers[w].result && !worker.stage.AtEnqueue? && Accounts(o, worker)
    ensures Alone(o, workers[w := worker])
  {
    assert forall i | i in workers && i != w :: Apart(workers[i], workers[w]) && Apart(workers[w], workers[i]);
    AloneMoves(o, workers, w, worker);
  }

  predicate SameAttempts(o: Outbox, o': Outbox) {
    o'.Keys == o.Keys && forall k | k in o :: o'[k].attempts == o[k].attempts
  }

  lemma AloneCarries(o: Outbox, o': Outbox, workers: map<nat, Worker>)
    requires Alone(o, workers) && SameAttempts(o, o')
    ensures Alone(o', workers)
  {
    forall i | i in workers
      ensures Accounts(o', workers[i])
    {
      assert Accounts(o, workers[i]);
    }
    hide Apart;
  }

  lemma DeliveredKeepsAttempts(o: Outbox, key: JobKey, now: nat)
    ensures SameAttempts(o, Delivered(o, key, now))
  {}

  // ---- The steps ----

  lemma BudgetedFinish(s: Sys, w: nat, lease: string, result: JobResult)
    requires Budgeted(s) && Enabled(s, Finish(w, lease, result))
    ensures Budgeted(Apply(s, Finish(w, lease, result)))
  {
    AloneMoves(s.outbox, s.workers, w, Worker(lease, result, AtEnqueue));
    hide Alone, RowsBudgeted;
  }

  lemma BudgetedMove(s: Sys, step: Step)
    requires Sound(s) && Budgeted(s) && Enabled(s, step) && (step.Send? || step.Ack? || step.Nack?)
    ensures Budgeted(Apply(s, step))
  {
    var w := step.w;
    assert WorkerSound(s, s.workers[w]) && Accounts(s.outbox, s.workers[w]);
    hide Sound, RowsBudgeted, Alone, KeyOf;
    if w in Apply(s, step).workers {
      StaysApart(s.outbox, s.workers, w, Apply(s, step).workers[w]);
    } else {
      AloneLeaves(s.outbox, s.workers, w);
    }
  }

  lemma BudgetedLeave(s: Sys, step: Step)
    requires Sound(s) && Budgeted(s) && Enabled(s, step) && (step.Mark? || step.Exit?)
    ensures Budgeted(Apply(s, step))
  {
    AloneLeaves(s.outbox, s.workers, step.w);
    if step.Mark? {
      DeliveredKeepsAttempts(s.outbox, s.workers[step.w].result.key, step.now);
      AloneCarries(s.outbox, Apply(s, step).outbox, s.workers - {step.w});
    }
    hide RowsSound, SendsSound, DeliveredSound, WorkersSound, EntriesSound, Alone, KeyOf;
  }

  lemma BudgetedEnqueue(s: Sys, w: nat, now: nat)
    requires Sound(s) && Budgeted(s) && Enabled(s, Enqueue(w, now)) && s.workers[w].result.key !in s.outbox
    ensures Budgeted(Apply(s, Enqueue(w, now)))
  {
    var t := Apply(s, Enqueue(w, now));
    forall i | i in s.workers && i != w
      ensures Apart(s.workers[i], t.workers[w]) && Apart(t.workers[w], s.workers[i]) && Accounts(t.outbox, s.workers[i])
    {
      assert WorkerSound(s, s.workers[i]) && Accounts(s.outbox, s.workers[i]);
    }
    hide KeyOf, RowsSound, SendsSound, DeliveredSound, WorkersSound, EntriesSound;
    assert Accounts(t.outbox, s.workers[w]);
    assert Alone(t.outbox, s.workers);
    AloneMoves(t.outbox, s.workers, w, t.workers[w]);
    hide Alone;
  }

  lemma BudgetedRecord(s: Sys, w: nat, now: nat)
    requires Sound(s) && Budgeted(s) && Enabled(s, Record(w, now))
    ensures Budgeted(Apply(s, Record(w, now)))
  {
    var t := Apply(s, Record(w, now));
    assert WorkerSound(s, s.workers[w]) && Accounts(s.outbox, s.workers[w]);
    hide KeyOf, RowsSound, SendsSound, DeliveredSound, WorkersSound, EntriesSound;
    forall i | i in s.workers && i != w
      ensures Apart(s.workers[i], t.workers[w]) && Apart(t.workers[w], s.workers[i]) && Accounts(t.outbox, s.workers[i])
    {
      assert Apart(s.workers[i], s.workers[w]) && Accounts(s.outbox, s.workers[i]);
    }
    OthersAlone(s.outbox, t.outbox, s.workers, w, t.workers[w]);
    hide Alone;
  }

  lemma OthersAlone(o: Outbox, o': Outbox, workers: map<nat, Worker>, w: nat, worker: Worker)
    requires Alone(o, workers) && Accounts(o', worker)
    requires forall i | i in workers && i != w ::
      Apart(workers[i], worker) && Apart(worker, workers[i]) && Accounts(o', workers[i])
    ensures Alone(o', workers[w := worker])
  {
    hide Apart, Accounts;
  }

  lemma BudgetedServe(s: Sys, step: Step)
    requires Budgeted(s) && Enabled(s, step) && (step.Serve? || step.Crash?)
    ensures Budgeted(Apply(s, step))
  {
    hide KeyOf, Agreeable, RowsBudgeted;
  }

  lemma BudgetedStart(s: Sys, step: Step)
    requires Sound(s) && Budgeted(s) && Enabled(s, step) && (step.Start? || step.ReplayDone?)
    ensures Budgeted(Apply(s, step))
  {
    hide KeyOf, RowsSound, SendsSound, DeliveredSound, WorkersSound;
  }

  lemma BudgetedReplay(s: Sys, step: Step)
    requires Sound(s) && Budgeted(s) && Enabled(s, step)
    requires step.ReplaySend? || step.ReplayAck? || step.ReplayMark? || step.ReplayNext?
    ensures Budgeted(Apply(s, step))
  {
    assert s.workers == map[];
    hide KeyOf, Sendable, RowsSound, SendsSound, DeliveredSound, WorkersSound, EntriesSound;
  }

  lemma BudgetedReplayRecord(s: Sys, now: nat)
    requires Sound(s) && Budgeted(s) && Enabled(s, ReplayRecord(now))
    ensures Budgeted(Apply(s, ReplayRecord(now)))
  {
    assert s.workers == map[];
    hide KeyOf, Sendable, RowsSound, SendsSound, DeliveredSound, WorkersSound;
  }

  lemma BudgetedStep(s: Sys, step: Step)
    requires Sound(s) && Budgeted(s) && Enabled(s, step)
    requires step.Enqueue? ==> step.w in s.workers && s.workers[step.w].result.key !in s.outbox
    ensures Budgeted(Apply(s, step))
  {
    hide Apply, Budgeted, Sound;
    match step {
      case Finish(w, lease, result) => BudgetedFinish(s, w, lease, result);
      case Enqueue(w, now) => BudgetedEnqueue(s, w, now);
      case Record(w, now) => BudgetedRecord(s, w, now);
      case Send(_) => BudgetedMove(s, step);
      case Ack(_) => BudgetedMove(s, step);
      case Nack(_) => BudgetedMove(s, step);
      case Mark(_, _) => BudgetedLeave(s, step);
      case Exit(_) => BudgetedLeave(s, step);
      case Serve(_) => BudgetedServe(s, step);
      case Crash => BudgetedServe(s, step);
      case Start(_) => BudgetedStart(s, step);
      case ReplayDone => BudgetedStart(s, step);
      case ReplayRecord(now) => BudgetedReplayRecord(s, now);
      case _ => BudgetedReplay(s, step);
    }
  }

  lemma InitiallyBudgeted()
    ensures Budgeted(INITIAL)
  {}

  /** Where a run enqueues, the worker is there and its row is not. */
  lemma StepAt(states: seq<Sys>, steps: seq<Step>, i: nat)
    requires IsRun(states, steps) && EnqueuesOnce(states, steps) && i < |steps|
    ensures Enabled(states[i], steps[i]) && states[i + 1] == Apply(states[i], steps[i])
    ensures steps[i].Enqueue? ==>
      steps[i].w in states[i].workers && states[i].workers[steps[i].w].result.key !in states[i].outbox
  {
    hide Apply, PendingList, Agreeable, Sendable;
  }

  lemma {:induction false} EveryRunIsBudgeted(states: seq<Sys>, steps: seq<Step>, i: nat)
    requires IsRun(states, steps) && EnqueuesOnce(states, steps) && i < |states|
    ensures Budgeted(states[i])
  {
    hide Apply, Enabled, Budgeted, Sound;
    if i == 0 {
      InitiallyBudgeted();
    } else {
      StepAt(states, steps, i - 1);
      EveryRunIsBudgeted(states, steps, i - 1);
      EveryRunIsSound(states, steps, i - 1);
      BudgetedStep(states[i - 1], steps[i - 1]);
    }
  }

  /**
   If no enqueueing finds its row already there, a row's attempt counter is at least the number of its
   sends and at most five plus the number of restarts.
   */
  lemma AttemptsAreBounded(states: seq<Sys>, steps: seq<Step>, i: nat, key: JobKey)
    requires IsRun(states, steps) && EnqueuesOnce(states, steps) && i < |states| && key in states[i].outbox
    ensures states[i].starts >= 1
    ensures CountFor(states[i].sends, key) <= states[i].outbox[key].attempts
    ensures states[i].outbox[key].attempts <= 5 + (states[i].starts - 1)
  {
    hide Apply, Enabled;
    EveryRunIsBudgeted(states, steps, i);
    SendsAreCounted(states, steps, i, key);
  }
}
