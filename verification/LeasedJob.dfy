/** How the end of a job meets the heartbeat of its lease. */
module LeasedJob {
  import opened LogPipeline
  import Heartbeat

  /** Past the flush: the worker has handed over the completion, or has panicked before it could. */
  predicate PastFlush(p: Pipe) {
    p.phase.Enqueued? || p.phase.Panicked?
  }

  /**
   What the heartbeat meets. `answers` is what it would meet without the worker: the server's answers,
   and a shutdown. A worker that gets past the flush cancels the token, which round `r` is the first to
   see; one that panics leaves the heartbeat behind, and its token alone.
   */
  function Met(p: Pipe, answers: nat -> Heartbeat.Round, r: nat): nat -> Heartbeat.Round {
    (i: nat) => if p.phase.Enqueued? && i >= r then Heartbeat.CancelledElsewhere else answers(i)
  }

  ghost predicate Stops(rounds: nat -> Heartbeat.Round) {
    exists i: nat :: Heartbeat.Fatal(rounds, i)
  }

  lemma SameRoundsSameEnd(a: nat -> Heartbeat.Round, b: nat -> Heartbeat.Round, i: nat)
    requires forall j: nat :: a(j) == b(j)
    ensures Heartbeat.Fatal(a, i) <==> Heartbeat.Fatal(b, i)
  {}

  /**
   The heartbeat stops exactly if the worker did not panic or the answers alone end it, and no later
   than the round that sees the worker's cancellation.
   */
  lemma WorkerStopsHeartbeatExactly(steps: seq<Step>, p: Pipe, answers: nat -> Heartbeat.Round, r: nat)
    requires Runs(INITIAL, steps, p) && PastFlush(p)
    ensures Stops(Met(p, answers, r)) <==> p.phase.Enqueued? || Stops(answers)
    ensures p.phase.Enqueued? ==> Heartbeat.Fatal(Met(p, answers, r), r)
  {
    var met := Met(p, answers, r);
    if p.phase.Enqueued? {
      assert Heartbeat.Fatal(met, r);
    } else {
      forall i: nat
        ensures Heartbeat.Fatal(met, i) <==> Heartbeat.Fatal(answers, i)
      {
        SameRoundsSameEnd(met, answers, i);
      }
    }
  }

  /** While the server keeps answering, the lease outlives the job exactly if the uploader died or lost a chunk. */
  lemma LeaseOutlivesJobExactly(steps: seq<Step>, p: Pipe, answers: nat -> Heartbeat.Round, r: nat)
    requires Runs(INITIAL, steps, p) && PastFlush(p) && !Stops(answers)
    ensures !Stops(Met(p, answers, r)) <==> p.uploader.Dead? || (p.uploader.Finished? && p.loss)
  {
    WorkerStopsHeartbeatExactly(steps, p, answers, r);
    CompletionLostExactly(steps, p);
  }

  /** A job that ran well, lost its completion over one chunk, and keeps its lease for ever. */
  lemma LostJobKeepsItsLease(r: nat) returns (steps: seq<Step>, p: Pipe, answers: nat -> Heartbeat.Round)
    ensures Runs(INITIAL, steps, p) && p.phase.Panicked? && !Stops(Met(p, answers, r))
    ensures forall i: nat :: answers(i) == Heartbeat.Continue
  {
    steps, p := OneLostChunkLosesTheJob();
    answers := (i: nat) => Heartbeat.Continue;
    hide Runs;
    forall i: nat
      ensures !Heartbeat.Fatal(answers, i)
    {
      assert answers(i) == Heartbeat.Continue;
    }
    WorkerStopsHeartbeatExactly(steps, p, answers, r);
  }
}
