/** The result a runner reports for one attempt at a job, and what makes such a result coherent. */
module Protocol {
  import opened Prelude
  import opened LogBuffer

  datatype Status = Completed | Failed | Cancelled | TimedOut

  datatype FailureKind = Validation | Policy | Secret | Execution | Cancellation | Timeout | Infrastructure
  datatype FailureInfo = FailureInfo(kind: FailureKind, code: string)

  /** Attempts are numbered per job id. */
  datatype JobKey = JobKey(id: string, attempt: nat)

  datatype JobResult = JobResult(
    key: JobKey, status: Status, exitCode: Option<int>, logTruncated: bool, stdout: Bytes, stderr: Bytes,
    failure: Option<FailureInfo>, failedPhase: Option<string>)

  /** The fields of a result agree with its status. */
  predicate Coherent(r: JobResult) {
    && (r.status.Completed? <==> r.failure.None?)
    && (r.status.Completed? <==> r.failedPhase.None?)
    && (r.status.Completed? ==> r.exitCode == Some(0))
    && (r.status.Cancelled? ==> r.exitCode.None? && r.failure.value.kind == Cancellation)
    && (r.status.TimedOut? ==> r.exitCode.None? && r.failure.value.kind == Timeout)
    && (r.status.Failed? && r.exitCode.Some? ==> r.exitCode.value != 0)
  }

  /** The failure both executor paths attach; `failedCode` is what differs between them. */
  function FailureFor(status: Status, failedCode: string): Option<FailureInfo> {
    match status
    case Completed => None
    case Cancelled => Some(FailureInfo(Cancellation, "cancelled"))
    case TimedOut => Some(FailureInfo(Timeout, "timeout"))
    case Failed => Some(FailureInfo(Execution, failedCode))
  }

  /** A result made up without any execution to report on. */
  function FailedFromFailure(key: JobKey, failure: FailureInfo, message: Bytes): JobResult {
    JobResult(key, Failed, None, false, [], message, Some(failure), None)
  }

  /** Why a leased job has no result of its own, in the order the worker finds out. */
  datatype Mishap =
    | JobRejected
    | ExecutorUnavailable
    | ExecutorRejected
    | ExecutionFailed(cancelled: bool, docker: Option<DockerFailure>)
  datatype DockerFailure = DockerFailure(code: string, phase: string)

  function Synthesized(key: JobKey, mishap: Mishap, message: Bytes): JobResult {
    var (failure, phase) :=
      match mishap
      case JobRejected => (FailureInfo(Policy, "job_admission_rejected"), "admission")
      case ExecutorUnavailable => (FailureInfo(Infrastructure, "executor_initialization_failed"), "initialization")
      case ExecutorRejected => (FailureInfo(Policy, "executor_admission_rejected"), "admission")
      case ExecutionFailed(true, _) => (FailureInfo(Cancellation, "cancelled"), "execution")
      case ExecutionFailed(false, Some(d)) => (FailureInfo(Infrastructure, d.code), d.phase)
      case ExecutionFailed(false, None) => (FailureInfo(Infrastructure, "executor_operation_failed"), "execution");
    FailedFromFailure(key, failure, message).(failedPhase := Some(phase))
  }

  /** What a worker hands to the completion outbox: the executor's result or a synthesized one. */
  function Reported(
    key: JobKey, executed: Option<JobResult>, mishap: Mishap, message: Bytes, logLoss: bool): JobResult
  {
    var r := if executed.Some? then executed.value else Synthesized(key, mishap, message);
    if logLoss then r.(logTruncated := true) else r
  }

  /** What the failure of a result without an execution has to say about the mishap behind it. */
  predicate Tells(mishap: Mishap, failure: FailureInfo, phase: string) {
    match mishap
    case JobRejected => failure == FailureInfo(Policy, "job_admission_rejected") && phase == "admission"
    case ExecutorUnavailable =>
      failure == FailureInfo(Infrastructure, "executor_initialization_failed") && phase == "initialization"
    case ExecutorRejected => failure == FailureInfo(Policy, "executor_admission_rejected") && phase == "admission"
    case ExecutionFailed(cancelled, docker) =>
      && (cancelled ==> failure == FailureInfo(Cancellation, "cancelled") && phase == "execution")
      && (!cancelled ==> failure.kind == Infrastructure)
      && (!cancelled && docker.Some? ==> failure.code == docker.value.code && phase == docker.value.phase)
      && (!cancelled && docker.None? ==> failure.code == "executor_operation_failed" && phase == "execution")
  }

  /**
   A result of the executor is passed on as it is, but for a flag that loss of log switches on. Without
   one, the result says failed, why and where, carries the message as its only output, and has the flag
   on only for loss at the uploader.
   */
  lemma ReportedIsPassedOn(key: JobKey, executed: Option<JobResult>, mishap: Mishap, message: Bytes, logLoss: bool)
    ensures var r := Reported(key, executed, mishap, message, logLoss);
      && (executed.Some? ==> r == executed.value.(logTruncated := executed.value.logTruncated || logLoss))
      && (executed.None? ==>
          && r.key == key && r.status == Failed && r.exitCode == None && r.stdout == [] && r.stderr == message
          && (r.logTruncated <==> logLoss)
          && r.failure.Some? && r.failedPhase.Some? && Tells(mishap, r.failure.value, r.failedPhase.value))
  {}

  /** Coherence survives the last step of a worker, for every way a job can go wrong. */
  lemma ReportedIsCoherent(key: JobKey, executed: Option<JobResult>, mishap: Mishap, message: Bytes, logLoss: bool)
    requires executed.Some? ==> Coherent(executed.value) && executed.value.key == key
    ensures Coherent(Reported(key, executed, mishap, message, logLoss))
    ensures Reported(key, executed, mishap, message, logLoss).key == key
    ensures executed.None? ==> Reported(key, executed, mishap, message, logLoss).status == Failed
    ensures logLoss ==> Reported(key, executed, mishap, message, logLoss).logTruncated
  {}
}
