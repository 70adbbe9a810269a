/** The lease heartbeat: one response after another until one of them ends the lease. */
module Heartbeat {
  import opened Prelude

  const FAILURE_LIMIT := 3

  /** What one round of the loop meets; `CancelledElsewhere` is the token being cancelled while it sleeps. */
  datatype Round = CancelledElsewhere | Continue | Cancel | LeaseLost | Error

  datatype Decision = Cancelled | Lost

  /** Round `i` is a reason to stop: the job was cancelled, the lease is gone, or it is the third error in a row. */
  predicate Fatal(rounds: nat -> Round, i: nat) {
    || rounds(i).CancelledElsewhere?
    || rounds(i).Cancel?
    || rounds(i).LeaseLost?
    || (i + 1 >= FAILURE_LIMIT && forall j: nat | i - FAILURE_LIMIT < j <= i :: rounds(j).Error?)
  }

  /** How many rounds directly before round `n` were errors. */
  function TrailingErrors(rounds: nat -> Round, n: nat): nat {
    if n == 0 || !rounds(n - 1).Error? then 0 else TrailingErrors(rounds, n - 1) + 1
  }

  /** The count is at least `k` exactly if the last `k` rounds were all errors. */
  lemma {:induction false} TrailingErrorsAreARun(rounds: nat -> Round, n: nat, k: nat)
    ensures TrailingErrors(rounds, n) >= k <==> k <= n && forall j: nat | n - k <= j < n :: rounds(j).Error?
  {
    if k == 0 || n == 0 {
    } else {
      TrailingErrorsAreARun(rounds, n - 1, k - 1);
      assert k <= n && (forall j: nat | n - k <= j < n :: rounds(j).Error?) ==> rounds(n - 1).Error?;
    }
  }

  function DecisionFor(round: Round): Decision {
    if round.LeaseLost? || round.Error? then Lost else Cancelled
  }

  /**
   The loop over the first `n` rounds of any response sequence. It stops at the first fatal round
   and at no other; `cancels` tells whether it cancelled the job itself.
   */
  method RunHeartbeat(rounds: nat -> Round, n: nat)
    returns (decision: Option<Decision>, stopped: nat, failures: nat, cancels: bool)
    ensures decision.None? <==> forall i: nat | i < n :: !Fatal(rounds, i)
    ensures decision.None? ==> failures == TrailingErrors(rounds, n) < 3 && !cancels && stopped == n
    ensures decision.Some? && rounds(stopped).Error? ==> failures == 3
    ensures decision.Some? ==>
      && stopped < n && Fatal(rounds, stopped)
      && (forall i: nat | i < stopped :: !Fatal(rounds, i))
      && decision == Some(DecisionFor(rounds(stopped)))
      && (decision.value.Lost? <==> rounds(stopped).LeaseLost? || rounds(stopped).Error?)
      && (decision.value.Cancelled? <==> rounds(stopped).Cancel? || rounds(stopped).CancelledElsewhere?)
      && (cancels <==> !rounds(stopped).CancelledElsewhere?)
      && failures <= FAILURE_LIMIT
  {
    failures, stopped, cancels, decision := 0, 0, false, None;
    while stopped < n
      invariant stopped <= n && decision.None? && !cancels
      invariant failures == TrailingErrors(rounds, stopped) < FAILURE_LIMIT
      invariant forall i: nat | i < stopped :: !Fatal(rounds, i)
    {
      TrailingErrorsAreARun(rounds, stopped + 1, FAILURE_LIMIT);
      assert Fatal(rounds, stopped) || !rounds(stopped).CancelledElsewhere?;
      match rounds(stopped) {
        case CancelledElsewhere =>
          decision := Some(Cancelled);
          return;
        case Continue =>
          failures := 0;
        case Cancel =>
          cancels, decision := true, Some(Cancelled);
          return;
        case LeaseLost =>
          cancels, decision := true, Some(Lost);
          return;
        case Error =>
          failures := failures + 1;
          if failures >= FAILURE_LIMIT {
            cancels, decision := true, Some(Lost);
            return;
          }
      }
      stopped := stopped + 1;
    }
  }
}
