/**
 The completion protocol over every interleaving of workers, server, crashes and
 restarts. A completion becomes a durable row before it is sent; a worker sends it
 up to five times; what is still undelivered is sent again at the next start.
 */
module CompletionProtocol {
  import opened Protocol
  import opened IdempotencyKey
  import opened Journal

  const COMPLETION_ATTEMPTS := 5

  /** What `complete` puts on the wire; the idempotency key is derived from the result. */
  datatype Request = Request(lease: string, result: JobResult)

  /** Where a worker with a finished result stands; `tries` counts the attempts before this one. */
  datatype Stage =
    | AtEnqueue
    | AtRecord(tries: nat)
    | AtSend(tries: nat)
    | Waiting(tries: nat, sent: nat)
    | AtMark(sent: nat)
  datatype Worker = Worker(lease: string, result: JobResult, stage: Stage)

  /** Where the replay at startup stands with the first of its remaining entries. */
  datatype ReplayStage = Checking | Sending | Awaiting(sent: nat) | Marking(sent: nat)
  datatype Daemon = Down | Replaying(entries: seq<Pending>, stage: ReplayStage) | Serving

  /**
   `sends` is every request ever put on the wire, by index; `accepted` are those the server has
   accepted; `server` is what it stores per idempotency key; `executed` are the attempts whose
   execution has produced a result; `starts` counts daemon starts.
   */
  datatype Sys = Sys(
    outbox: Outbox, daemon: Daemon, workers: map<nat, Worker>,
    sends: seq<Request>, accepted: set<nat>, server: map<string, JobResult>,
    executed: set<JobKey>, starts: nat)

  const INITIAL := Sys(map[], Down, map[], [], {}, map[], {}, 0)

  datatype Step =
    | Finish(w: nat, lease: string, result: JobResult)
    | Enqueue(w: nat, now: nat)
    | Record(w: nat, now: nat)
    | Send(w: nat)
    | Ack(w: nat)
    | Nack(w: nat)
    | Mark(w: nat, now: nat)
    | Exit(w: nat)
    | Serve(sent: nat)
    | Crash
    | Start(entries: seq<Pending>)
    | ReplayRecord(now: nat)
    | ReplaySend
    | ReplayAck
    | ReplayMark(now: nat)
    | ReplayNext
    | ReplayDone

  /** What reading the pending rows at startup may return: those rows, each once, or nothing on an error. */
  ghost predicate PendingList(o: Outbox, entries: seq<Pending>) {
    && (forall p | p in entries :: p.key in PendingKeys(o) && p.row == o[p.key])
    && (forall i, j | 0 <= i < j < |entries| :: entries[i].key != entries[j].key)
    && (entries == [] || forall k | k in PendingKeys(o) :: Pending(k, o[k]) in entries)
  }

  /** The replay's check of an entry: it parses, and its key belongs to the result. */
  predicate Sendable(row: Row) {
    Parse(row.payload).Some? && row.idempotencyKey == KeyOf(Parse(row.payload).value.key)
  }

  predicate AtEntry(s: Sys) {
    s.daemon.Replaying? && s.daemon.entries != []
  }

  ghost predicate Enabled(s: Sys, step: Step) {
    match step
    case Finish(w, _, _) => s.daemon.Serving? && w !in s.workers
    case Enqueue(w, _) => w in s.workers && s.workers[w].stage.AtEnqueue?
    case Record(w, _) => w in s.workers && s.workers[w].stage.AtRecord?
    case Send(w) => w in s.workers && s.workers[w].stage.AtSend?
    case Ack(w) => w in s.workers && s.workers[w].stage.Waiting? && s.workers[w].stage.sent in s.accepted
    case Nack(w) => w in s.workers && s.workers[w].stage.Waiting?
    case Mark(w, _) => w in s.workers && s.workers[w].stage.AtMark?
    case Exit(w) => w in s.workers
    case Serve(r) => r < |s.sends| && Agreeable(s, s.sends[r])
    case Crash => !s.daemon.Down?
    case Start(entries) => s.daemon.Down? && PendingList(s.outbox, entries)
    case ReplayRecord(_) => AtEntry(s) && s.daemon.stage.Checking? && Sendable(s.daemon.entries[0].row)
    case ReplaySend => AtEntry(s) && s.daemon.stage.Sending? && Sendable(s.daemon.entries[0].row)
    case ReplayAck => AtEntry(s) && s.daemon.stage.Awaiting? && s.daemon.stage.sent in s.accepted
    case ReplayMark(_) => AtEntry(s) && s.daemon.stage.Marking?
    case ReplayNext => AtEntry(s) && !s.daemon.stage.Sending?
    case ReplayDone => s.daemon.Replaying? && s.daemon.entries == []
  }

  /** The server accepts a first result for a key and identical repetitions, and rejects a conflicting one. */
  predicate Agreeable(s: Sys, r: Request) {
    KeyOf(r.result.key) in s.server ==> s.server[KeyOf(r.result.key)] == r.result
  }

  function WithStage(s: Sys, w: nat, stage: Stage): Sys
    requires w in s.workers
  {
    s.(workers := s.workers[w := s.workers[w].(stage := stage)])
  }

  function ReplayedResult(row: Row): JobResult
    requires Sendable(row)
  {
    Parse(row.payload).value
  }

  ghost function Apply(s: Sys, step: Step): Sys
    requires Enabled(s, step)
  {
    match step
    case Finish(w, lease, result) =>
      s.(workers := s.workers[w := Worker(lease, result, AtEnqueue)], executed := s.executed + {result.key})
    case Enqueue(w, now) =>
      var k := s.workers[w].result.key;
      WithStage(s, w, AtRecord(0))
        .(outbox := Enqueued(s.outbox, k, s.workers[w].lease, KeyOf(k), Encoded(s.workers[w].result), now))
    case Record(w, now) =>
      WithStage(s, w, AtSend(s.workers[w].stage.tries))
        .(outbox := Attempted(s.outbox, s.workers[w].result.key, now))
    case Send(w) =>
      WithStage(s, w, Waiting(s.workers[w].stage.tries, |s.sends|))
        .(sends := s.sends + [Request(s.workers[w].lease, s.workers[w].result)])
    case Ack(w) => WithStage(s, w, AtMark(s.workers[w].stage.sent))
    case Nack(w) =>
      var tries := s.workers[w].stage.tries + 1;
      if tries < COMPLETION_ATTEMPTS then WithStage(s, w, AtRecord(tries)) else s.(workers := s.workers - {w})
    case Mark(w, now) =>
      s.(outbox := Delivered(s.outbox, s.workers[w].result.key, now), workers := s.workers - {w})
    case Exit(w) => s.(workers := s.workers - {w})
    case Serve(r) =>
      s.(server := s.server[KeyOf(s.sends[r].result.key) := s.sends[r].result], accepted := s.accepted + {r})
    case Crash => s.(daemon := Down, workers := map[])
    case Start(entries) => s.(daemon := Replaying(entries, Checking), starts := s.starts + 1)
    case ReplayRecord(now) =>
      s.(daemon := Replaying(s.daemon.entries, Sending), outbox := Attempted(s.outbox, s.daemon.entries[0].key, now))
    case ReplaySend =>
      var row := s.daemon.entries[0].row;
      s.(daemon := Replaying(s.daemon.entries, Awaiting(|s.sends|)),
         sends := s.sends + [Request(row.lease, ReplayedResult(row))])
    case ReplayAck => s.(daemon := Replaying(s.daemon.entries, Marking(s.daemon.stage.sent)))
    case ReplayMark(now) =>
      s.(daemon := Replaying(s.daemon.entries[1..], Checking),
         outbox := Delivered(s.outbox, s.daemon.entries[0].key, now))
    case ReplayNext => s.(daemon := Replaying(s.daemon.entries[1..], Checking))
    case ReplayDone => s.(daemon := Serving)
  }

  /** `states` is a run: it starts empty and every state follows from the one before by an enabled step. */
  ghost predicate IsRun(states: seq<Sys>, steps: seq<Step>) {
    && |states| == |steps| + 1
    && states[0] == INITIAL
    && forall i | 0 <= i < |steps| :: Enabled(states[i], steps[i]) && states[i + 1] == Apply(states[i], steps[i])
  }

  /** The request a worker sends. */
  function Pledge(w: Worker): Request {
    Request(w.lease, w.result)
  }

  /** The request a row stands for. */
  function RequestOf(row: Row): Request
    requires Sendable(row)
  {
    Request(row.lease, ReplayedResult(row))
  }

  lemma OneMoreState(before: seq<Sys>, taken: seq<Step>, step: Step) returns (states: seq<Sys>, steps: seq<Step>)
    requires IsRun(before, taken) && Enabled(before[|taken|], step)
    ensures IsRun(states, steps) && |steps| == |taken| + 1 && before <= states && taken <= steps
    ensures steps[|taken|] == step && states[|steps|] == Apply(before[|taken|], step)
  {
    hide Enabled, Apply;
    states, steps := before + [Apply(before[|taken|], step)], taken + [step];
    forall i | 0 <= i < |steps|
      ensures Enabled(states[i], steps[i]) && states[i + 1] == Apply(states[i], steps[i])
    {
      assert i < |taken| ==> states[i] == before[i] && steps[i] == taken[i] && states[i + 1] == before[i + 1];
    }
  }

  /** `steps` can be taken one after another from `s` and lead to `t`. */
  ghost predicate Leads(s: Sys, steps: seq<Step>, t: Sys)
    decreases |steps|
  {
    if steps == [] then s == t
    else Enabled(s, steps[0]) && Leads(Apply(s, steps[0]), steps[1..], t)
  }

  lemma {:induction false} LeadsOn(s: Sys, a: seq<Step>, t: Sys, b: seq<Step>, u: Sys)
    requires Leads(s, a, t) && Leads(t, b, u)
    ensures Leads(s, a + b, u)
    decreases |a|
  {
    hide Enabled, Apply;
    if a == [] {
      assert a + b == b;
    } else {
      LeadsOn(Apply(s, a[0]), a[1..], t, b, u);
      assert (a + b)[0] == a[0] && (a + b)[1..] == a[1..] + b;
    }
  }

  lemma Then(s: Sys, before: seq<Step>, t: Sys, step: Step) returns (steps: seq<Step>, u: Sys)
    requires Leads(s, before, t) && Enabled(t, step)
    ensures Leads(s, steps, u) && u == Apply(t, step)
  {
    hide Enabled, Apply;
    steps, u := before + [step], Apply(t, step);
    assert [step][1..] == [];
    assert Leads(u, [], u);
    LeadsOn(s, before, t, [step], u);
  }

  /** Such steps continue any run that has reached `s`. */
  lemma {:induction false} LeadsExtendsRun(before: seq<Sys>, taken: seq<Step>, more: seq<Step>, t: Sys)
    returns (states: seq<Sys>, steps: seq<Step>)
    requires IsRun(before, taken) && Leads(before[|taken|], more, t)
    ensures IsRun(states, steps) && before <= states && steps == taken + more && states[|steps|] == t
    decreases |more|
  {
    hide Enabled, Apply;
    if more == [] {
      states, steps := before, taken;
      assert taken + more == taken;
    } else {
      states, steps := OneMoreState(before, taken, more[0]);
      assert steps == taken + [more[0]];
      states, steps := LeadsExtendsRun(states, steps, more[1..], t);
      assert taken + [more[0]] + more[1..] == taken + more;
    }
  }

  // ---- What every run keeps ----

  predicate SameCompletion(a: Row, b: Row) {
    a.lease == b.lease && a.idempotencyKey == b.idempotencyKey && a.payload == b.payload
  }

  /** Rows stay, keep their payload, lease and key, and stay delivered once delivered. */
  predicate Preserves(o: Outbox, o': Outbox) {
    forall k | k in o :: k in o' && SameCompletion(o[k], o'[k]) && (o[k].delivered ==> o'[k].delivered)
  }

  /** Every row passes the replay's check and belongs to its own key. */
  predicate RowsSound(o: Outbox) {
    forall k | k in o :: Sendable(o[k]) && ReplayedResult(o[k]).key == k
  }

  /** No request without a row, and none accepted that the server does not know. */
  predicate SendsSound(s: Sys) {
    && (forall r | 0 <= r < |s.sends| :: s.sends[r].result.key in s.outbox)
    && (forall r | r in s.accepted :: r < |s.sends| && KeyOf(s.sends[r].result.key) in s.server)
  }

  /** Whatever is marked delivered was accepted by the server under its key. */
  predicate DeliveredSound(s: Sys) {
    forall k | k in s.outbox && s.outbox[k].delivered :: KeyOf(k) in s.server
  }

  predicate WorkerSound(s: Sys, w: Worker) {
    && (!w.stage.AtEnqueue? ==> w.result.key in s.outbox)
    && (w.stage.AtRecord? || w.stage.AtSend? || w.stage.Waiting? ==> w.stage.tries < COMPLETION_ATTEMPTS)
    && (w.stage.Waiting? || w.stage.AtMark? ==>
        w.stage.sent < |s.sends| && s.sends[w.stage.sent] == Request(w.lease, w.result))
    && (w.stage.AtMark? ==> w.stage.sent in s.accepted)
  }

  predicate WorkersSound(s: Sys) {
    forall i | i in s.workers :: WorkerSound(s, s.workers[i])
  }

  predicate EntriesSound(o: Outbox, entries: seq<Pending>) {
    && (forall p | p in entries :: p.key in o && SameCompletion(p.row, o[p.key]))
    && (forall i, j | 0 <= i < j < |entries| :: entries[i].key != entries[j].key)
  }

  /** The replay works on a true copy of the rows, and alone. */
  predicate DaemonSound(s: Sys) {
    && (!s.daemon.Serving? ==> s.workers == map[])
    && (s.daemon.Replaying? ==>
        var entries, stage := s.daemon.entries, s.daemon.stage;
        && EntriesSound(s.outbox, entries)
        && (entries == [] ==> stage.Checking?)
        && (stage.Awaiting? || stage.Marking? ==>
            stage.sent < |s.sends| && s.sends[stage.sent].result.key == entries[0].key)
        && (stage.Marking? ==> stage.sent in s.accepted))
  }

  predicate Sound(s: Sys) {
    RowsSound(s.outbox) && SendsSound(s) && DeliveredSound(s) && WorkersSound(s) && DaemonSound(s)
  }

  /** The three statements on the outbox keep its rows sound and never disturb what is there. */
  lemma EnqueueKeeps(o: Outbox, lease: string, result: JobResult, now: nat)
    requires RowsSound(o)
    ensures var o' := Enqueued(o, result.key, lease, KeyOf(result.key), Encoded(result), now);
      RowsSound(o') && Preserves(o, o') && result.key in o'
  {
    hide KeyOf;
  }

  lemma UpdatesKeep(o: Outbox, key: JobKey, now: nat)
    requires RowsSound(o)
    ensures RowsSound(Attempted(o, key, now)) && Preserves(o, Attempted(o, key, now))
    ensures RowsSound(Delivered(o, key, now)) && Preserves(o, Delivered(o, key, now))
  {
    hide KeyOf;
  }

  lemma OutboxUnchanged(s: Sys, step: Step)
    requires Enabled(s, step)
    requires !step.Enqueue? && !step.Record? && !step.Mark? && !step.ReplayRecord? && !step.ReplayMark?
    ensures Apply(s, step).outbox == s.outbox
  {
    hide KeyOf, PendingList, Agreeable, Sendable;
  }

  lemma PreservesOn(a: Outbox, b: Outbox, c: Outbox)
    requires Preserves(a, b) && Preserves(b, c)
    ensures Preserves(a, c)
  {}

  lemma PreservesItself(o: Outbox)
    ensures Preserves(o, o)
  {}

  lemma OutboxStep(s: Sys, step: Step)
    requires RowsSound(s.outbox) && Enabled(s, step)
    ensures RowsSound(Apply(s, step).outbox) && Preserves(s.outbox, Apply(s, step).outbox)
  {
    hide RowsSound, Preserves, KeyOf, PendingList, Agreeable, Sendable, Enqueued, Attempted, Delivered;
    match step {
      case Enqueue(w, now) => EnqueueKeeps(s.outbox, s.workers[w].lease, s.workers[w].result, now);
      case Record(w, now) => UpdatesKeep(s.outbox, s.workers[w].result.key, now);
      case Mark(w, now) => UpdatesKeep(s.outbox, s.workers[w].result.key, now);
      case ReplayRecord(now) => UpdatesKeep(s.outbox, s.daemon.entries[0].key, now);
      case ReplayMark(now) => UpdatesKeep(s.outbox, s.daemon.entries[0].key, now);
      case _ =>
        hide Apply, Enabled;
        OutboxUnchanged(s, step);
        PreservesItself(s.outbox);
    }
  }

  /** Only the two send steps put something on the wire. */
  lemma SendsGrow(s: Sys, step: Step)
    requires Enabled(s, step)
    ensures Apply(s, step).sends ==
      match step
      case Send(w) => s.sends + [Pledge(s.workers[w])]
      case ReplaySend => s.sends + [RequestOf(s.daemon.entries[0].row)]
      case _ => s.sends
  {
    hide KeyOf, PendingList, Agreeable, Sendable;
  }

  lemma OnlyServeChangesServer(s: Sys, step: Step)
    requires Enabled(s, step) && !step.Serve?
    ensures Apply(s, step).server == s.server && Apply(s, step).accepted == s.accepted
  {
    hide KeyOf, PendingList, Agreeable, Sendable;
  }

  /** Keys, requests and acceptances are never taken back. */
  lemma NothingIsTakenBack(s: Sys, step: Step)
    requires RowsSound(s.outbox) && Enabled(s, step)
    ensures s.outbox.Keys <= Apply(s, step).outbox.Keys && s.sends <= Apply(s, step).sends
    ensures s.accepted <= Apply(s, step).accepted && s.server.Keys <= Apply(s, step).server.Keys
  {
    OutboxStep(s, step);
    SendsGrow(s, step);
    if !step.Serve? {
      OnlyServeChangesServer(s, step);
      hide Apply, Enabled, RowsSound;
    } else {
      hide Agreeable, KeyOf, RowsSound;
    }
  }

  /** What is sent has its row. */
  lemma NewSendHasRow(s: Sys, step: Step)
    requires Sound(s) && Enabled(s, step) && (step.Send? || step.ReplaySend?)
    ensures step.Send? ==> s.workers[step.w].result.key in s.outbox
    ensures step.ReplaySend? ==> ReplayedResult(s.daemon.entries[0].row).key in s.outbox
  {
    hide KeyOf, RowsSound, SendsSound, DeliveredSound;
    if step.Send? {
      assert WorkerSound(s, s.workers[step.w]);
    } else {
      EntryKey(s);
      assert s.daemon.entries[0] in s.daemon.entries;
    }
  }

  lemma SendsStep(s: Sys, step: Step)
    requires Sound(s) && Enabled(s, step)
    ensures SendsSound(Apply(s, step))
  {
    hide Apply, RowsSound, DeliveredSound, WorkersSound, DaemonSound, KeyOf;
    if step.Serve? {
      ServeKeepsSends(s, step.sent);
    } else {
      NothingIsTakenBack(s, step);
      SendsGrow(s, step);
      OnlyServeChangesServer(s, step);
      if step.Send? || step.ReplaySend? {
        NewSendHasRow(s, step);
      }
    }
  }

  lemma ServeKeepsSends(s: Sys, r: nat)
    requires SendsSound(s) && Enabled(s, Serve(r))
    ensures SendsSound(Apply(s, Serve(r)))
  {
    hide KeyOf, Agreeable;
  }

  lemma OnlyMarksDeliver(s: Sys, step: Step, k: JobKey)
    requires Enabled(s, step) && !step.Mark? && !step.ReplayMark?
    requires k in Apply(s, step).outbox && Apply(s, step).outbox[k].delivered
    ensures k in s.outbox && s.outbox[k].delivered
  {
    hide KeyOf, PendingList, Agreeable, Sendable;
    if !step.Enqueue? && !step.Record? && !step.ReplayRecord? {
      OutboxUnchanged(s, step);
      hide Apply, Enabled;
    }
  }

  /** The key a mark step delivers was accepted. */
  lemma MarksAfterAcceptance(s: Sys, step: Step, k: JobKey)
    requires Sound(s) && Enabled(s, step) && (step.Mark? || step.ReplayMark?)
    requires k in Apply(s, step).outbox && Apply(s, step).outbox[k].delivered
    ensures KeyOf(k) in s.server
  {
    hide KeyOf, RowsSound, PendingList, Agreeable, Sendable, EntriesSound;
    if step.Mark? {
      assert WorkerSound(s, s.workers[step.w]);
    }
    hide WorkersSound;
  }

  lemma DeliveredStep(s: Sys, step: Step)
    requires Sound(s) && Enabled(s, step)
    ensures DeliveredSound(Apply(s, step))
  {
    NothingIsTakenBack(s, step);
    hide Apply, Enabled, KeyOf, RowsSound, SendsSound, WorkersSound, DaemonSound;
    forall k | k in Apply(s, step).outbox && Apply(s, step).outbox[k].delivered
      ensures KeyOf(k) in Apply(s, step).server
    {
      if step.Mark? || step.ReplayMark? {
        MarksAfterAcceptance(s, step, k);
      } else {
        OnlyMarksDeliver(s, step, k);
      }
    }
  }

  lemma WorkerCarries(s: Sys, s': Sys, w: Worker)
    requires WorkerSound(s, w)
    requires s.outbox.Keys <= s'.outbox.Keys && s.sends <= s'.sends && s.accepted <= s'.accepted
    ensures WorkerSound(s', w)
  {}

  /** Workers begin and move on only by their own steps. */
  lemma OnlyItsOwnStep(s: Sys, step: Step, i: nat)
    requires Enabled(s, step)
    requires i in Apply(s, step).workers && (i in s.workers ==> Apply(s, step).workers[i] != s.workers[i])
    ensures step.Finish? || step.Enqueue? || step.Record? || step.Send? || step.Ack? || step.Nack?
    ensures step.w == i
  {
    hide KeyOf, PendingList, Agreeable, Sendable, Enqueued, Attempted, Delivered;
  }

  lemma Acts(s: Sys, step: Step)
    requires Enabled(s, step) && (step.Send? || step.Ack? || step.Nack?)
    ensures step.w in s.workers
  {}

  lemma PreparesSoundly(s: Sys, step: Step)
    requires Enabled(s, step) && (step.Finish? || step.Enqueue? || step.Record?)
    requires step.w in s.workers ==> WorkerSound(s, s.workers[step.w])
    ensures WorkerSound(Apply(s, step), Apply(s, step).workers[step.w])
  {
    hide KeyOf;
  }

  lemma SendsSoundly(s: Sys, step: Step)
    requires Enabled(s, step) && (step.Send? || step.Ack? || step.Nack?) && WorkerSound(s, s.workers[step.w])
    ensures step.w in Apply(s, step).workers ==> WorkerSound(Apply(s, step), Apply(s, step).workers[step.w])
  {
    hide KeyOf;
  }

  lemma WorkersStep(s: Sys, step: Step)
    requires Sound(s) && Enabled(s, step)
    ensures WorkersSound(Apply(s, step))
  {
    NothingIsTakenBack(s, step);
    hide Apply, Enabled, RowsSound, SendsSound, DeliveredSound, DaemonSound, WorkerSound;
    var s' := Apply(s, step);
    forall i | i in s'.workers
      ensures WorkerSound(s', s'.workers[i])
    {
      if i in s.workers && s'.workers[i] == s.workers[i] {
        WorkerCarries(s, s', s.workers[i]);
      } else {
        OnlyItsOwnStep(s, step, i);
        if step.Finish? || step.Enqueue? || step.Record? {
          PreparesSoundly(s, step);
        } else {
          Acts(s, step);
          SendsSoundly(s, step);
        }
      }
    }
  }

  lemma EntriesCarry(o: Outbox, o': Outbox, entries: seq<Pending>)
    requires EntriesSound(o, entries) && Preserves(o, o')
    ensures EntriesSound(o', entries)
    ensures entries != [] ==> EntriesSound(o', entries[1..])
  {}

  lemma PendingEntriesAreSound(o: Outbox, entries: seq<Pending>)
    requires PendingList(o, entries)
    ensures EntriesSound(o, entries)
  {}

  lemma DaemonStep(s: Sys, step: Step)
    requires Sound(s) && Enabled(s, step)
    ensures DaemonSound(Apply(s, step))
  {
    hide KeyOf, DeliveredSound, Agreeable, WorkersSound, RowsSound, EntriesSound, Preserves;
    OutboxStep(s, step);
    if s.daemon.Replaying? {
      if AtEntry(s) && step.ReplaySend? {
        EntryKey(s);
      }
      EntriesCarry(s.outbox, Apply(s, step).outbox, s.daemon.entries);
    } else if step.Start? {
      PendingEntriesAreSound(s.outbox, step.entries);
    }
    hide PendingList, Sendable;
  }

  lemma EntryKey(s: Sys)
    requires Sound(s) && Enabled(s, ReplaySend)
    ensures ReplayedResult(s.daemon.entries[0].row).key == s.daemon.entries[0].key
  {
    assert s.daemon.entries[0] in s.daemon.entries;
    hide KeyOf;
  }

  /** One step keeps all of it. */
  lemma SoundStep(s: Sys, step: Step)
    requires Sound(s) && Enabled(s, step)
    ensures Sound(Apply(s, step)) && Preserves(s.outbox, Apply(s, step).outbox)
  {
    OutboxStep(s, step);
    SendsStep(s, step);
    DeliveredStep(s, step);
    WorkersStep(s, step);
    DaemonStep(s, step);
    hide Apply, Enabled, RowsSound, SendsSound, DeliveredSound, WorkersSound, DaemonSound, Preserves;
  }

  lemma {:induction false} EveryRunIsSound(states: seq<Sys>, steps: seq<Step>, i: nat)
    requires IsRun(states, steps) && i < |states|
    ensures Sound(states[i])
  {
    hide Apply, Enabled, Sound, Preserves;
    if i == 0 {
      InitiallySound();
    } else {
      EveryRunIsSound(states, steps, i - 1);
      SoundStep(states[i - 1], steps[i - 1]);
    }
  }

  lemma InitiallySound()
    ensures Sound(INITIAL)
  {}

  /** Over any stretch of any run no row disappears, changes what it completes, or becomes pending again. */
  lemma {:induction false} RowsArePermanent(states: seq<Sys>, steps: seq<Step>, i: nat, j: nat)
    requires IsRun(states, steps) && i <= j < |states|
    ensures Preserves(states[i].outbox, states[j].outbox)
    decreases j
  {
    hide Apply, Enabled, Sound, Preserves;
    if i == j {
      PreservesItself(states[i].outbox);
    } else {
      RowsArePermanent(states, steps, i, j - 1);
      EveryRunIsSound(states, steps, j - 1);
      SoundStep(states[j - 1], steps[j - 1]);
      PreservesOn(states[i].outbox, states[j - 1].outbox, states[j].outbox);
    }
  }

  /** No completion is put on the wire before its row is in the outbox. */
  lemma RowComesBeforeSend(states: seq<Sys>, steps: seq<Step>, i: nat)
    requires IsRun(states, steps) && i < |steps| && |states[i].sends| < |states[i + 1].sends|
    ensures states[i + 1].sends == states[i].sends + [states[i + 1].sends[|states[i].sends|]]
    ensures states[i + 1].sends[|states[i].sends|].result.key in states[i].outbox
  {
    EveryRunIsSound(states, steps, i);
    RowBeforeSend(states[i], steps[i]);
  }

  lemma RowBeforeSend(s: Sys, step: Step)
    requires Sound(s) && Enabled(s, step) && |s.sends| < |Apply(s, step).sends|
    ensures Apply(s, step).sends == s.sends + [Apply(s, step).sends[|s.sends|]]
    ensures Apply(s, step).sends[|s.sends|].result.key in s.outbox
  {
    SendsGrow(s, step);
    NewSendHasRow(s, step);
    hide Apply, Enabled;
  }

  /** Delivered means accepted: the server holds a result under the row's key. */
  lemma DeliveredMeansAccepted(states: seq<Sys>, steps: seq<Step>, i: nat, key: JobKey)
    requires IsRun(states, steps) && i < |states| && key in states[i].outbox && states[i].outbox[key].delivered
    ensures KeyOf(key) in states[i].server
  {
    EveryRunIsSound(states, steps, i);
  }

  /** The replay never has to skip a row: everything it finds passes its own checks. */
  lemma ReplayCanSend(states: seq<Sys>, steps: seq<Step>, i: nat, now: nat)
    requires IsRun(states, steps) && i < |states|
    requires states[i].daemon.Replaying? && states[i].daemon.entries != [] && states[i].daemon.stage.Checking?
    ensures Enabled(states[i], ReplayRecord(now))
  {
    EveryRunIsSound(states, steps, i);
    var p := states[i].daemon.entries[0];
    assert p in states[i].daemon.entries;
  }
}
