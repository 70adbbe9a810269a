/** The two loops that send completions: a worker's retries, and the replay at daemon startup. */
module CompletionLoops {
  import opened Prelude
  import opened Protocol
  import opened IdempotencyKey
  import opened Journal
  import opened CompletionProtocol

  /** How one call of the control plane ends. */
  datatype Reply = Accepted | Refused | NoAnswer

  /** Rows other than `key` are exactly as before. */
  ghost predicate OnlyTouches(o: Outbox, o': Outbox, key: JobKey) {
    forall k | k != key :: (k in o <==> k in o') && (k in o ==> o[k] == o'[k])
  }

  /** From `o` to `o'` only the row of `key` changed, at `now`: `n` more attempts, and delivered if `ok`. */
  ghost predicate Progress(o: Outbox, o': Outbox, key: JobKey, n: nat, ok: bool, now: nat) {
    && OnlyTouches(o, o', key)
    && key in o && key in o'
    && o'[key] == o[key].(
         attempts := o[key].attempts + n, delivered := o[key].delivered || ok,
         updatedAt := if n == 0 && !ok then o[key].updatedAt else now)
  }

  lemma ProgressStep(o: Outbox, o': Outbox, key: JobKey, n: nat, now: nat)
    requires Progress(o, o', key, n, false, now)
    ensures Progress(o, Attempted(o', key, now), key, n + 1, false, now)
    ensures Progress(o, Delivered(o', key, now), key, n, true, now)
  {}

  // ---- The retries as steps of the protocol ----

  /** The state while a worker waits for the answer to attempt `tries`. */
  function Asked(t: Sys, w: nat, tries: nat, now: nat): Sys
    requires w in t.workers
  {
    var worker := t.workers[w];
    t.(workers := t.workers[w := worker.(stage := Waiting(tries, |t.sends|))],
       outbox := Attempted(t.outbox, worker.result.key, now), sends := t.sends + [Pledge(worker)])
  }

  lemma AttemptIsSent(t: Sys, w: nat, now: nat) returns (steps: seq<Step>)
    requires w in t.workers && t.workers[w].stage.AtRecord?
    ensures Leads(t, steps, Asked(t, w, t.workers[w].stage.tries, now))
  {
    hide KeyOf, Leads;
    assert Leads(t, [], t) by { LeadsNowhere(t); }
    var u;
    steps, u := Then(t, [], t, Record(w, now));
    steps, u := Then(t, steps, u, Send(w));
    assert u.workers == Asked(t, w, t.workers[w].stage.tries, now).workers;
  }

  lemma AttemptIsAccepted(t: Sys, w: nat, tries: nat, now: nat, marks: bool) returns (steps: seq<Step>, u: Sys)
    requires w in t.workers && Agreeable(t, Pledge(t.workers[w]))
    ensures Leads(Asked(t, w, tries, now), steps, u) && u.daemon == t.daemon
    ensures u.sends == t.sends + [Pledge(t.workers[w])] && u.workers == t.workers - {w}
    ensures var key := t.workers[w].result.key;
      u.outbox == if marks then Delivered(Attempted(t.outbox, key, now), key, now) else Attempted(t.outbox, key, now)
  {
    var s := Asked(t, w, tries, now);
    hide KeyOf, Leads, Attempted, Delivered;
    assert Leads(s, [], s) by { LeadsNowhere(s); }
    assert s.sends[|t.sends|] == Pledge(t.workers[w]);
    steps, u := Then(s, [], s, Serve(|t.sends|));
    steps, u := Then(s, steps, u, Ack(w));
    steps, u := Then(s, steps, u, if marks then Mark(w, now) else Exit(w));
    assert u.workers == t.workers - {w};
  }

  /** One attempt of a worker, journal working up to the mark. */
  lemma AttemptRuns(t: Sys, w: nat, now: nat, accepted: bool, marks: bool) returns (steps: seq<Step>, u: Sys)
    requires w in t.workers && t.workers[w].stage.AtRecord? && t.workers[w].stage.tries < COMPLETION_ATTEMPTS
    requires accepted ==> Agreeable(t, Pledge(t.workers[w]))
    ensures Leads(t, steps, u) && u.daemon == t.daemon
    ensures u.sends == t.sends + [Pledge(t.workers[w])]
    ensures var key, tries := t.workers[w].result.key, t.workers[w].stage.tries;
      && u.outbox == (if accepted && marks then Delivered(Attempted(t.outbox, key, now), key, now)
                      else Attempted(t.outbox, key, now))
      && u.workers == (if accepted || tries + 1 == COMPLETION_ATTEMPTS then t.workers - {w}
                       else t.workers[w := t.workers[w].(stage := AtRecord(tries + 1))])
      && (!accepted ==> u.server == t.server)
  {
    hide KeyOf, Leads, Attempted, Delivered, Agreeable;
    var tries := t.workers[w].stage.tries;
    var s := Asked(t, w, tries, now);
    steps := AttemptIsSent(t, w, now);
    if accepted {
      var more;
      more, u := AttemptIsAccepted(t, w, tries, now, marks);
      LeadsOn(t, steps, s, more, u);
      steps := steps + more;
    } else {
      steps, u := Then(t, steps, s, Nack(w));
      assert s.workers - {w} == t.workers - {w};
    }
  }

  lemma LeadsNowhere(s: Sys)
    ensures Leads(s, [], s)
  {}

  /** The server accepts `request` only where the protocol lets it. */
  ghost predicate Honest(s: Sys, request: Request, reply: nat -> Reply) {
    forall i: nat | reply(i).Accepted? :: Agreeable(s, request)
  }

  /** The steps taken since `s` are steps of the protocol, and leave this outbox and these sends. */
  ghost predicate Tracks(s: Sys, steps: seq<Step>, t: Sys, o: Outbox, sent: seq<Request>) {
    Leads(s, steps, t) && t.outbox == o && t.sends == s.sends + sent && t.daemon == s.daemon
  }

  /** The worker has made `tries` attempts, none of them accepted. */
  ghost predicate Retrying(s: Sys, t: Sys, w: nat, worker: Worker, tries: nat) {
    && t.server == s.server
    && t.workers == if tries == COMPLETION_ATTEMPTS then s.workers - {w}
                    else s.workers[w := worker.(stage := AtRecord(tries))]
  }

  lemma AttemptTracks(
    s: Sys, before: seq<Step>, t: Sys, w: nat, worker: Worker, tries: nat, sent: seq<Request>,
    now: nat, accepted: bool, marks: bool)
    returns (steps: seq<Step>, u: Sys)
    requires Tracks(s, before, t, t.outbox, sent) && Retrying(s, t, w, worker, tries) && tries < COMPLETION_ATTEMPTS
    requires accepted ==> Agreeable(s, Request(worker.lease, worker.result))
    ensures var recorded := Attempted(t.outbox, worker.result.key, now);
      Tracks(s, steps, u, if accepted && marks then Delivered(recorded, worker.result.key, now) else recorded,
             sent + [Request(worker.lease, worker.result)])
    ensures if accepted then u.workers == s.workers - {w} else Retrying(s, u, w, worker, tries + 1)
  {
    assert s.workers[w := worker.(stage := AtRecord(tries))] - {w} == s.workers - {w};
    var more;
    more, u := AttemptRuns(t, w, now, accepted, marks);
    LeadsOn(s, before, t, more, u);
    steps := before + more;
    hide Leads, KeyOf;
    var request := Request(worker.lease, worker.result);
    assert s.sends + sent + [request] == s.sends + (sent + [request]);
  }

  lemma ExitTracks(s: Sys, before: seq<Step>, t: Sys, w: nat, sent: seq<Request>) returns (steps: seq<Step>, u: Sys)
    requires Tracks(s, before, t, t.outbox, sent) && w in t.workers
    ensures Tracks(s, steps, u, t.outbox, sent) && u.workers == t.workers - {w}
  {
    hide Leads, KeyOf;
    steps, u := Then(s, before, t, Exit(w));
  }

  /**
   The retry loop: at most five sends, each preceded by a recorded attempt, none after an acceptance.
   With an honest server, what it does from state `s` on is a run of the protocol.
   */
  method SendWithRetries(
    j: Store, lease: string, result: JobResult, reply: nat -> Reply, works: nat -> bool, now: nat,
    ghost s: Sys, ghost w: nat)
    returns (sent: seq<Request>, ok: bool, ghost steps: seq<Step>, ghost t: Sys)
    requires result.key in j.outbox
    requires s.outbox == j.outbox && w in s.workers && s.workers[w] == Worker(lease, result, AtRecord(0))
    modifies j`outbox
    ensures Progress(old(j.outbox), j.outbox, result.key, |sent|, ok, now)
    ensures |sent| <= 5 && forall r | r in sent :: r == Request(lease, result)
    ensures forall i | 0 <= i < |sent| - 1 :: !reply(i).Accepted?
    ensures ok ==> sent != [] && reply(|sent| - 1).Accepted?
    ensures (forall i: nat :: works(i)) ==>
      && (ok <==> exists i: nat | i < 5 :: reply(i).Accepted?)
      && (!ok ==> |sent| == 5)
    ensures Honest(s, Request(lease, result), reply) ==>
      Tracks(s, steps, t, j.outbox, sent) && t.workers == s.workers - {w}
  {
    sent, ok, steps, t := [], false, [], s;
    hide Tracks, Retrying, Honest, Progress, Attempted, Delivered, Agreeable;
    ghost var worker := Worker(lease, result, AtEnqueue);
    ghost var honest := Honest(s, Request(lease, result), reply);
    BeforeRetries(s, w, worker, now);
    for attempt := 0 to COMPLETION_ATTEMPTS
      invariant Progress(old(j.outbox), j.outbox, result.key, attempt, false, now)
      invariant |sent| == attempt && forall r | r in sent :: r == Request(lease, result)
      invariant forall i | 0 <= i < attempt :: !reply(i).Accepted?
      invariant honest ==> Tracks(s, steps, t, j.outbox, sent) && Retrying(s, t, w, worker, attempt)
    {
      ghost var accepted, marks := reply(attempt).Accepted?, works(2 * attempt + 1);
      if honest {
        if accepted {
          HonestReply(s, Request(lease, result), reply, attempt);
        }
        steps, t := RetryTracks(
          s, steps, t, w, worker, attempt, j.outbox, sent, now, works(2 * attempt), accepted, marks);
      }
      ProgressStep(old(j.outbox), j.outbox, result.key, attempt, now);
      var fine := j.RecordCompletionAttempt(result.key, now, works(2 * attempt));
      if !fine {
        return;
      }
      sent := sent + [Request(lease, result)];
      ProgressStep(old(j.outbox), j.outbox, result.key, attempt + 1, now);
      if reply(attempt).Accepted? {
        ok := j.MarkCompletionDelivered(result.key, now, works(2 * attempt + 1));
        return;
      }
    }
    if honest {
      RetriesEnd(s, t, w, worker);
    }
  }

  /** One round of the retry loop, whatever fails in it. */
  lemma RetryTracks(
    s: Sys, before: seq<Step>, t: Sys, w: nat, worker: Worker, tries: nat, o: Outbox, sent: seq<Request>,
    now: nat, records: bool, accepted: bool, marks: bool)
    returns (steps: seq<Step>, u: Sys)
    requires Tracks(s, before, t, o, sent) && Retrying(s, t, w, worker, tries) && tries < COMPLETION_ATTEMPTS
    requires w in s.workers && (accepted ==> Agreeable(s, Request(worker.lease, worker.result)))
    ensures !records ==> Tracks(s, steps, u, o, sent) && u.workers == s.workers - {w}
    ensures records ==>
      var recorded := Attempted(o, worker.result.key, now);
      && Tracks(s, steps, u, if accepted && marks then Delivered(recorded, worker.result.key, now) else recorded,
                sent + [Request(worker.lease, worker.result)])
      && if accepted then u.workers == s.workers - {w} else Retrying(s, u, w, worker, tries + 1)
  {
    hide Leads, Agreeable;
    if records {
      steps, u := AttemptTracks(s, before, t, w, worker, tries, sent, now, accepted, marks);
    } else {
      steps, u := ExitTracks(s, before, t, w, sent);
      assert s.workers[w := worker.(stage := AtRecord(tries))] - {w} == s.workers - {w};
    }
  }

  lemma BeforeRetries(s: Sys, w: nat, worker: Worker, now: nat)
    requires w in s.workers && s.workers[w] == worker.(stage := AtRecord(0)) && worker.result.key in s.outbox
    ensures Tracks(s, [], s, s.outbox, []) && Retrying(s, s, w, worker, 0)
    ensures Progress(s.outbox, s.outbox, worker.result.key, 0, false, now)
  {
    LeadsNowhere(s);
    assert s.sends + [] == s.sends;
  }

  lemma HonestReply(s: Sys, request: Request, reply: nat -> Reply, i: nat)
    requires Honest(s, request, reply) && reply(i).Accepted?
    ensures Agreeable(s, request)
  {}

  lemma RetriesEnd(s: Sys, t: Sys, w: nat, worker: Worker)
    requires Retrying(s, t, w, worker, COMPLETION_ATTEMPTS)
    ensures t.workers == s.workers - {w}
  {}

  /** A worker's last act: make the completion durable, then try to deliver it. */
  method DeliverCompletion(
    j: Store, lease: string, result: JobResult, reply: nat -> Reply, works: nat -> bool, enqueues: bool, now: nat,
    ghost s: Sys, ghost w: nat)
    returns (sent: seq<Request>, ok: bool, ghost steps: seq<Step>, ghost t: Sys)
    requires s.outbox == j.outbox && w in s.workers && s.workers[w] == Worker(lease, result, AtEnqueue)
    modifies j`outbox
    ensures OnlyTouches(old(j.outbox), j.outbox, result.key) && Preserves(old(j.outbox), j.outbox)
    ensures RowsSound(old(j.outbox)) ==> RowsSound(j.outbox)
    ensures enqueues || sent != [] || ok ==> result.key in j.outbox && j.outbox[result.key].attempts >= |sent|
    ensures ok ==> j.outbox[result.key].delivered && sent != [] && reply(|sent| - 1).Accepted?
    ensures forall r | r in sent :: r == Request(lease, result)
    ensures result.key !in old(j.outbox) && result.key in j.outbox ==>
      && j.outbox[result.key].attempts == |sent| <= COMPLETION_ATTEMPTS
      && j.outbox[result.key].updatedAt == now
      && (j.outbox[result.key].delivered <==> ok)
      && forall r | r in sent :: Sendable(j.outbox[result.key]) && r == RequestOf(j.outbox[result.key])
    ensures enqueues && (forall i: nat :: works(i)) ==>
      (ok <==> exists i: nat | i < COMPLETION_ATTEMPTS :: reply(i).Accepted?)
    ensures Honest(s, Request(lease, result), reply) ==>
      Tracks(s, steps, t, j.outbox, sent) && t.workers == s.workers - {w}
  {
    sent, ok := [], false;
    steps, t := FirstTracks(s, w, now, enqueues, reply);
    assert Preserves(j.outbox, j.outbox);
    hide KeyOf, Tracks, Honest, Progress, RowsSound, Preserves, Sendable, OnlyTouches, Enqueued;
    assert OnlyTouches(j.outbox, j.outbox, result.key) by { TouchesNothing(j.outbox, result.key); }
    var fine := j.EnqueueCompletion(result.key, lease, KeyOf(result.key), Encoded(result), now, enqueues);
    if !fine {
      return;
    }
    ghost var more, u;
    sent, ok, more, u := SendWithRetries(j, lease, result, reply, works, now, t, w);
    hide Enqueued;
    Delivering(old(j.outbox), lease, result, now, j.outbox, sent, ok);
    if Honest(s, Request(lease, result), reply) {
      TracksOn(s, steps, t, more, u, j.outbox, sent);
      steps, t := steps + more, u;
    }
  }

  lemma TouchesNothing(o: Outbox, key: JobKey)
    ensures OnlyTouches(o, o, key)
  {}

  /** What enqueueing and then sending comes to for the outbox. */
  lemma Delivering(
    o: Outbox, lease: string, result: JobResult, now: nat, o': Outbox, sent: seq<Request>, ok: bool)
    requires var a := Enqueued(o, result.key, lease, KeyOf(result.key), Encoded(result), now);
      Progress(a, o', result.key, |sent|, ok, now)
    requires forall r | r in sent :: r == Request(lease, result)
    ensures OnlyTouches(o, o', result.key) && Preserves(o, o') && (RowsSound(o) ==> RowsSound(o'))
    ensures result.key in o' && o'[result.key].attempts >= |sent| && (ok ==> o'[result.key].delivered)
    ensures result.key !in o ==>
      && o'[result.key].attempts == |sent|
      && o'[result.key].updatedAt == now
      && (o'[result.key].delivered <==> ok)
      && forall r | r in sent :: Sendable(o'[result.key]) && r == RequestOf(o'[result.key])
  {
    hide KeyOf;
  }

  /** Enqueueing, or giving up when it fails. */
  lemma FirstTracks(s: Sys, w: nat, now: nat, enqueues: bool, reply: nat -> Reply)
    returns (steps: seq<Step>, t: Sys)
    requires w in s.workers && s.workers[w].stage.AtEnqueue?
    ensures var worker := s.workers[w];
      var key := worker.result.key;
      var o := Enqueued(s.outbox, key, worker.lease, KeyOf(key), Encoded(worker.result), now);
      && Tracks(s, steps, t, if enqueues then o else s.outbox, [])
      && (!enqueues ==> t.workers == s.workers - {w})
      && (enqueues ==>
          && t.workers == s.workers[w := worker.(stage := AtRecord(0))]
          && (Honest(s, Request(worker.lease, worker.result), reply) ==>
              Honest(t, Request(worker.lease, worker.result), reply)))
  {
    hide KeyOf, Leads;
    assert Leads(s, [], s) by { LeadsNowhere(s); }
    steps, t := Then(s, [], s, if enqueues then Enqueue(w, now) else Exit(w));
  }

  lemma TracksOn(s: Sys, a: seq<Step>, t: Sys, b: seq<Step>, u: Sys, o: Outbox, sent: seq<Request>)
    requires Tracks(s, a, t, t.outbox, []) && Tracks(t, b, u, o, sent)
    ensures Tracks(s, a + b, u, o, sent)
  {
    LeadsOn(s, a, t, b, u);
    hide Leads;
  }

  // ---- The replay, also as steps of the protocol ----

  /** The outbox after one entry was replayed. */
  function Replayed(o: Outbox, p: Pending, sends: bool, delivers: bool, now: nat): Outbox {
    if !sends then o
    else if delivers then Delivered(Attempted(o, p.key, now), p.key, now)
    else Attempted(o, p.key, now)
  }

  /** The state while the server is asked about the first entry. */
  function Asking(t: Sys, now: nat): Sys
    requires AtEntry(t) && Sendable(t.daemon.entries[0].row)
  {
    var p := t.daemon.entries[0];
    t.(daemon := Replaying(t.daemon.entries, Awaiting(|t.sends|)),
       outbox := Attempted(t.outbox, p.key, now), sends := t.sends + [RequestOf(p.row)])
  }

  lemma EntryIsSent(t: Sys, now: nat) returns (steps: seq<Step>)
    requires AtEntry(t) && t.daemon.stage.Checking? && Sendable(t.daemon.entries[0].row)
    ensures Leads(t, steps, Asking(t, now))
  {
    hide KeyOf, Leads, Sendable;
    assert Leads(t, [], t) by { LeadsNowhere(t); }
    var u;
    steps, u := Then(t, [], t, ReplayRecord(now));
    steps, u := Then(t, steps, u, ReplaySend);
  }

  /** The state once the server has accepted the first entry and its answer has come. */
  function Answered(t: Sys, now: nat): Sys
    requires AtEntry(t) && Sendable(t.daemon.entries[0].row)
  {
    var result := ReplayedResult(t.daemon.entries[0].row);
    Asking(t, now).(daemon := Replaying(t.daemon.entries, Marking(|t.sends|)),
                    server := t.server[KeyOf(result.key) := result], accepted := t.accepted + {|t.sends|})
  }

  lemma EntryIsAnswered(t: Sys, now: nat) returns (steps: seq<Step>)
    requires AtEntry(t) && Sendable(t.daemon.entries[0].row) && Agreeable(t, RequestOf(t.daemon.entries[0].row))
    ensures Leads(Asking(t, now), steps, Answered(t, now))
  {
    var s := Asking(t, now);
    hide KeyOf, Leads, Sendable, Attempted;
    assert Leads(s, [], s) by { LeadsNowhere(s); }
    assert s.sends[|t.sends|] == RequestOf(t.daemon.entries[0].row);
    var u;
    steps, u := Then(s, [], s, Serve(|t.sends|));
    steps, u := Then(s, steps, u, ReplayAck);
  }

  lemma EntryIsAccepted(t: Sys, now: nat, marks: bool) returns (steps: seq<Step>, u: Sys)
    requires AtEntry(t) && Sendable(t.daemon.entries[0].row) && Agreeable(t, RequestOf(t.daemon.entries[0].row))
    ensures var p := t.daemon.entries[0];
      && Leads(Asking(t, now), steps, u)
      && u.daemon == Replaying(t.daemon.entries[1..], Checking)
      && u.outbox == Replayed(t.outbox, p, true, marks, now)
      && u.sends == t.sends + [RequestOf(p.row)]
      && u.server == t.server[KeyOf(ReplayedResult(p.row).key) := ReplayedResult(p.row)]
  {
    hide KeyOf, Leads, Sendable, Agreeable, Attempted, Delivered;
    steps := EntryIsAnswered(t, now);
    steps, u := Then(Asking(t, now), steps, Answered(t, now), if marks then ReplayMark(now) else ReplayNext);
  }

  lemma EntryRuns(t: Sys, now: nat, records: bool, accepted: bool, marks: bool) returns (steps: seq<Step>, u: Sys)
    requires AtEntry(t) && t.daemon.stage.Checking?
    requires var row := t.daemon.entries[0].row;
      accepted && Sendable(row) ==> Agreeable(t, RequestOf(row))
    ensures var p := t.daemon.entries[0];
      var sends := Sendable(p.row) && records;
      && Leads(t, steps, u)
      && u.daemon == Replaying(t.daemon.entries[1..], Checking)
      && u.outbox == Replayed(t.outbox, p, sends, accepted && marks, now)
      && u.sends == (if sends then t.sends + [RequestOf(p.row)] else t.sends)
      && u.server == (if sends && accepted then t.server[KeyOf(ReplayedResult(p.row).key) := ReplayedResult(p.row)]
                      else t.server)
  {
    hide KeyOf, Leads, Sendable;
    assert Leads(t, [], t) by { LeadsNowhere(t); }
    if Sendable(t.daemon.entries[0].row) && records {
      steps := EntryIsSent(t, now);
      if accepted {
        var more;
        more, u := EntryIsAccepted(t, now, marks);
        LeadsOn(t, steps, Asking(t, now), more, u);
        steps := steps + more;
      } else {
        steps, u := Then(t, steps, Asking(t, now), ReplayNext);
      }
    } else {
      steps, u := Then(t, [], t, ReplayNext);
    }
  }

  /** One entry of the replay: check it, record the attempt, send it, and mark it if it was accepted. */
  method ReplayEntry(j: Store, p: Pending, reply: Reply, records: bool, marks: bool, now: nat)
    returns (sent: Option<Request>)
    modifies j`outbox
    ensures OnlyTouches(old(j.outbox), j.outbox, p.key)
    ensures sent == if Sendable(p.row) && records then Some(RequestOf(p.row)) else None
    ensures sent.Some? ==>
      && Parse(p.row.payload) == Some(sent.value.result) && sent.value.lease == p.row.lease
      && p.row.idempotencyKey == KeyOf(sent.value.result.key)
    ensures j.outbox == Replayed(old(j.outbox), p, sent.Some?, reply.Accepted? && marks, now)
    ensures p.key in old(j.outbox) ==>
      && p.key in j.outbox
      && SameCompletion(old(j.outbox)[p.key], j.outbox[p.key])
      && (j.outbox[p.key].delivered <==>
          old(j.outbox)[p.key].delivered || (sent.Some? && reply.Accepted? && marks))
      && j.outbox[p.key].attempts == old(j.outbox)[p.key].attempts + if sent.Some? then 1 else 0
  {
    hide KeyOf;
    sent := None;
    if Parse(p.row.payload).None? || p.row.idempotencyKey != KeyOf(Parse(p.row.payload).value.key) {
      return;
    }
    var fine := j.RecordCompletionAttempt(p.key, now, records);
    if !fine {
      return;
    }
    sent := Some(Request(p.row.lease, Parse(p.row.payload).value));
    if reply.Accepted? {
      fine := j.MarkCompletionDelivered(p.key, now, marks);
    }
  }

  /** The server accepts only those entries from `n` on that the protocol lets it accept. */
  ghost predicate HonestFrom(t: Sys, pending: seq<Pending>, n: nat, reply: nat -> Reply) {
    forall m | n <= m < |pending| && reply(m).Accepted? && Sendable(pending[m].row) ::
      Agreeable(t, RequestOf(pending[m].row))
  }

  /** The replay has dealt with `n` entries by steps of the protocol. */
  ghost predicate ReplayTracks(
    s: Sys, steps: seq<Step>, t: Sys, o: Outbox, sent: seq<Request>, pending: seq<Pending>, n: nat,
    reply: nat -> Reply)
  {
    && n <= |pending|
    && Leads(s, steps, t)
    && t.outbox == o
    && t.sends == s.sends + sent
    && t.daemon == Replaying(pending[n..], Checking)
    && HonestFrom(t, pending, n, reply)
  }

  /** Serving one entry does not concern the keys of the others. */
  lemma HonestStays(t: Sys, u: Sys, pending: seq<Pending>, n: nat, reply: nat -> Reply)
    requires n < |pending| && HonestFrom(t, pending, n, reply)
    requires forall p | p in pending && Sendable(p.row) :: ReplayedResult(p.row).key == p.key
    requires forall i, j | 0 <= i < j < |pending| :: pending[i].key != pending[j].key
    requires u.server == t.server
      || (Sendable(pending[n].row) && u.server == t.server[KeyOf(pending[n].key) := ReplayedResult(pending[n].row)])
    ensures HonestFrom(u, pending, n + 1, reply)
  {
    forall m | n + 1 <= m < |pending| && reply(m).Accepted? && Sendable(pending[m].row)
      ensures Agreeable(u, RequestOf(pending[m].row))
    {
      assert pending[m] in pending && ReplayedResult(pending[m].row).key == pending[m].key;
      assert Agreeable(t, RequestOf(pending[m].row));
      if KeyOf(pending[m].key) == KeyOf(pending[n].key) {
        KeysAreDistinct(pending[m].key, pending[n].key);
      }
      hide KeyOf, Sendable;
    }
  }

  lemma EntryTracks(
    s: Sys, before: seq<Step>, t: Sys, o: Outbox, sent: seq<Request>, pending: seq<Pending>, n: nat,
    reply: nat -> Reply, now: nat, records: bool, marks: bool)
    returns (steps: seq<Step>, u: Sys)
    requires ReplayTracks(s, before, t, o, sent, pending, n, reply) && n < |pending|
    requires forall p | p in pending && Sendable(p.row) :: ReplayedResult(p.row).key == p.key
    requires forall i, j | 0 <= i < j < |pending| :: pending[i].key != pending[j].key
    ensures var p := pending[n];
      var sends := Sendable(p.row) && records;
      ReplayTracks(s, steps, u, Replayed(o, p, sends, reply(n).Accepted? && marks, now),
                   if sends then sent + [RequestOf(p.row)] else sent, pending, n + 1, reply)
  {
    var p := pending[n];
    assert pending[n..][0] == p && pending[n..][1..] == pending[n + 1..] && p in pending;
    var more;
    more, u := EntryRuns(t, now, records, reply(n).Accepted?, marks);
    LeadsOn(s, before, t, more, u);
    steps := before + more;
    HonestStays(t, u, pending, n, reply);
    hide Leads, KeyOf, Sendable, HonestFrom, Replayed;
    if Sendable(p.row) && records {
      assert s.sends + sent + [RequestOf(p.row)] == s.sends + (sent + [RequestOf(p.row)]);
    }
  }

  /** The requests a list of entries stands for. */
  function Requests(pending: seq<Pending>): seq<Request>
    requires forall p | p in pending :: Sendable(p.row)
  {
    seq(|pending|, i requires 0 <= i < |pending| => RequestOf(pending[i].row))
  }

  /** How far a replay of `pending` has got: the first `n` entries are settled, the rest untouched. */
  ghost predicate Settled(o: Outbox, o': Outbox, pending: seq<Pending>, n: nat) {
    && o'.Keys == o.Keys
    && (forall k | k in o && k !in PendingKeys(o) :: o'[k] == o[k])
    && (forall i | 0 <= i < |pending| :: pending[i].key in o && SameCompletion(o[pending[i].key], o'[pending[i].key]))
    && (forall i | n <= i < |pending| :: o'[pending[i].key] == o[pending[i].key])
  }

  /** What the first `n` entries come to when the journal works throughout. */
  ghost predicate Resent(
    o': Outbox, pending: seq<Pending>, reply: nat -> Reply, sent: seq<Request>, n: nat, now: nat)
  {
    && n <= |pending|
    && (forall p | p in pending :: Sendable(p.row) && p.key in o')
    && sent == Requests(pending[..n])
    && forall i | 0 <= i < n ::
         && o'[pending[i].key].attempts == pending[i].row.attempts + 1
         && o'[pending[i].key].updatedAt == now
         && (o'[pending[i].key].delivered <==> reply(i).Accepted?)
  }

  lemma SettledStep(o: Outbox, a: Outbox, b: Outbox, pending: seq<Pending>, n: nat)
    requires PendingList(o, pending) && n < |pending| && Settled(o, a, pending, n)
    requires OnlyTouches(a, b, pending[n].key) && pending[n].key in b
    requires SameCompletion(a[pending[n].key], b[pending[n].key])
    ensures Settled(o, b, pending, n + 1)
  {
    assert b.Keys == a.Keys;
    assert pending[n] in pending && pending[n].key in PendingKeys(o);
    hide PendingKeys;
    forall i | 0 <= i < |pending|
      ensures SameCompletion(o[pending[i].key], b[pending[i].key])
    {
      assert i != n ==> pending[i].key != pending[n].key;
    }
  }

  lemma ResentStep(
    a: Outbox, b: Outbox, pending: seq<Pending>, reply: nat -> Reply, sent: seq<Request>, n: nat, now: nat)
    requires n < |pending| && Resent(a, pending, reply, sent, n, now) && a.Keys == b.Keys
    requires forall i, j | 0 <= i < j < |pending| :: pending[i].key != pending[j].key
    requires OnlyTouches(a, b, pending[n].key)
    requires b[pending[n].key].attempts == pending[n].row.attempts + 1 && b[pending[n].key].updatedAt == now
    requires b[pending[n].key].delivered <==> reply(n).Accepted?
    ensures Resent(b, pending, reply, sent + [RequestOf(pending[n].row)], n + 1, now)
  {
    assert Requests(pending[..n + 1]) == Requests(pending[..n]) + [RequestOf(pending[n].row)];
    hide Sendable, RequestOf;
    forall i | 0 <= i < n
      ensures b[pending[i].key] == a[pending[i].key]
    {}
  }

  /** What dealing with entry `n` comes to, given what was sent for it and whether it was marked. */
  lemma AfterEntry(
    o: Outbox, a: Outbox, b: Outbox, pending: seq<Pending>, n: nat, reply: nat -> Reply, sent: seq<Request>,
    request: Option<Request>, marked: bool, now: nat, lucky: bool)
    requires PendingList(o, pending) && n < |pending| && Settled(o, a, pending, n)
    requires b == Replayed(a, pending[n], request.Some?, marked, now)
    requires lucky ==>
      && Resent(a, pending, reply, sent, n, now) && marked == reply(n).Accepted?
      && (Sendable(pending[n].row) ==> request == Some(RequestOf(pending[n].row)))
    ensures Settled(o, b, pending, n + 1)
    ensures lucky ==> request.Some? && Resent(b, pending, reply, sent + [request.value], n + 1, now)
  {
    Untouched(o, a, pending, n);
    ReplayedTouches(a, pending[n], request.Some?, marked, now);
    hide Settled, Replayed, KeyOf, PendingKeys;
    SettledStep(o, a, b, pending, n);
    if lucky {
      assert pending[n] in pending;
      ResentStep(a, b, pending, reply, sent, n, now);
    }
  }

  lemma ReplayedTouches(a: Outbox, p: Pending, sends: bool, marked: bool, now: nat)
    requires p.key in a
    ensures var b := Replayed(a, p, sends, marked, now);
      && OnlyTouches(a, b, p.key) && b.Keys == a.Keys
      && SameCompletion(a[p.key], b[p.key])
      && (sends ==> b[p.key].attempts == a[p.key].attempts + 1 && b[p.key].updatedAt == now
                    && (b[p.key].delivered <==> a[p.key].delivered || marked))
  {}

  /**
   The replay at startup. If the journal works, every undelivered row of a sound outbox is sent
   once more, oldest first, and is delivered afterwards exactly if the server accepted it now. With an
   honest server it is a run of the protocol from `s`, the state before the start, until jobs are served.
   */
  method ReplayPendingCompletions(j: Store, reply: nat -> Reply, works: nat -> bool, now: nat, ghost s: Sys)
    returns (sent: seq<Request>, pending: seq<Pending>, ghost steps: seq<Step>, ghost t: Sys)
    requires s.outbox == j.outbox && s.daemon.Down?
    modifies j`outbox
    ensures PendingList(old(j.outbox), pending)
    ensures forall a, b | 0 <= a < b < |pending| :: pending[a].row.updatedAt <= pending[b].row.updatedAt
    ensures Settled(old(j.outbox), j.outbox, pending, |pending|)
    ensures RowsSound(old(j.outbox)) && (forall i: nat :: works(i)) ==>
      && (forall k | k in PendingKeys(old(j.outbox)) :: Pending(k, old(j.outbox)[k]) in pending)
      && Resent(j.outbox, pending, reply, sent, |pending|, now)
    ensures Sound(s) && HonestFrom(s, pending, 0, reply) ==>
      Leads(s, steps, t) && t.outbox == j.outbox && t.sends == s.sends + sent && t.daemon.Serving?
  {
    sent, pending := [], [];
    if works(0) {
      pending := j.PendingCompletions();
    }
    hide PendingKeys, Settled, Resent, RowsSound, HonestFrom, Leads, PendingList;
    assert PendingList(j.outbox, pending) by { ReadsPending(j.outbox, pending); }
    sent, steps, t := ReplayEntries(j, pending, reply, works, now, s);
  }

  lemma ReadsPending(o: Outbox, pending: seq<Pending>)
    requires forall p | p in pending :: p.key in PendingKeys(o) && p.row == o[p.key]
    requires forall i, j | 0 <= i < j < |pending| :: pending[i].key != pending[j].key
    requires pending == [] || forall k | k in PendingKeys(o) :: Pending(k, o[k]) in pending
    ensures PendingList(o, pending)
  {}

  /** The loop over what was read. */
  method ReplayEntries(
    j: Store, pending: seq<Pending>, reply: nat -> Reply, works: nat -> bool, now: nat, ghost s: Sys)
    returns (sent: seq<Request>, ghost steps: seq<Step>, ghost t: Sys)
    requires s.outbox == j.outbox && s.daemon.Down? && PendingList(j.outbox, pending)
    modifies j`outbox
    ensures Settled(old(j.outbox), j.outbox, pending, |pending|)
    ensures RowsSound(old(j.outbox)) && (forall i: nat :: works(i)) ==>
      Resent(j.outbox, pending, reply, sent, |pending|, now)
    ensures Sound(s) && HonestFrom(s, pending, 0, reply) ==>
      Leads(s, steps, t) && t.outbox == j.outbox && t.sends == s.sends + sent && t.daemon.Serving?
  {
    sent := [];
    ghost var o := j.outbox;
    ghost var lucky := RowsSound(o) && forall i: nat :: works(i);
    ghost var honest := Sound(s) && HonestFrom(s, pending, 0, reply);
    BeforeReplay(o, pending, reply, now);
    steps, t := ReplayStarts(s, pending, reply);
    hide KeyOf, Settled, Resent, RowsSound, HonestFrom, ReplayTracks, Leads, PendingList, OnlyTouches, Replayed;
    hide SameCompletion, Sendable, Sound;
    for n := 0 to |pending|
      invariant Settled(o, j.outbox, pending, n)
      invariant lucky ==> Resent(j.outbox, pending, reply, sent, n, now)
      invariant honest ==> ReplayTracks(s, steps, t, j.outbox, sent, pending, n, reply)
    {
      ghost var a := j.outbox;
      if honest {
        steps, t := EntryTracks(s, steps, t, a, sent, pending, n, reply, now, works(1 + 2 * n), works(2 + 2 * n));
      }
      var request := ReplayEntry(j, pending[n], reply(n), works(1 + 2 * n), works(2 + 2 * n), now);
      AfterEntry(o, a, j.outbox, pending, n, reply, sent, request, reply(n).Accepted? && works(2 + 2 * n), now, lucky);
      if request.Some? {
        sent := sent + [request.value];
      }
    }
    if honest {
      steps, t := ReplayEnds(s, steps, t, j.outbox, sent, pending, reply);
    }
  }

  lemma ReplayStarts(s: Sys, pending: seq<Pending>, reply: nat -> Reply) returns (steps: seq<Step>, t: Sys)
    requires s.daemon.Down? && PendingList(s.outbox, pending)
    ensures HonestFrom(s, pending, 0, reply) ==> ReplayTracks(s, steps, t, s.outbox, [], pending, 0, reply)
    ensures RowsSound(s.outbox) ==>
      forall p | p in pending && Sendable(p.row) :: ReplayedResult(p.row).key == p.key
    ensures forall i, j | 0 <= i < j < |pending| :: pending[i].key != pending[j].key
  {
    hide KeyOf, Leads;
    assert Leads(s, [], s) by { LeadsNowhere(s); }
    steps, t := Then(s, [], s, Start(pending));
    assert pending[0..] == pending;
  }

  lemma ReplayEnds(
    s: Sys, before: seq<Step>, t: Sys, o: Outbox, sent: seq<Request>, pending: seq<Pending>, reply: nat -> Reply)
    returns (steps: seq<Step>, u: Sys)
    requires ReplayTracks(s, before, t, o, sent, pending, |pending|, reply)
    ensures Leads(s, steps, u) && u.outbox == o && u.sends == s.sends + sent && u.daemon.Serving?
  {
    hide Leads, HonestFrom;
    assert pending[|pending|..] == [];
    steps, u := Then(s, before, t, ReplayDone);
  }

  lemma BeforeReplay(o: Outbox, pending: seq<Pending>, reply: nat -> Reply, now: nat)
    requires PendingList(o, pending)
    ensures Settled(o, o, pending, 0)
    ensures RowsSound(o) ==> Resent(o, pending, reply, [], 0, now)
  {
    hide KeyOf;
    assert forall i | 0 <= i < |pending| :: pending[i] in pending;
  }

  lemma Untouched(o: Outbox, a: Outbox, pending: seq<Pending>, n: nat)
    requires PendingList(o, pending) && n < |pending| && Settled(o, a, pending, n)
    ensures pending[n].key in a && a[pending[n].key] == pending[n].row && !pending[n].row.delivered
  {
    assert pending[n] in pending;
  }
}
