/** States of a Push/Sync job and of its device rows, their transition tables, and the job
    state derived from the rows (mdm-server/styly_mdm/push_jobs.py). */
module PushJobs {

  type JobId = string
  type DeviceId = string

  datatype Option<+T> = None | Some(value: T)

  datatype Protocol = JobV1 | Legacy

  datatype JobState =
    | Created | Uploading | Packaging | Ready | Running | JobReconciling
    | JobSucceeded | CompletedWithErrors | JobFailed | JobInterrupted

  datatype DeviceState =
    | Queued | WaitingTransfer | Dispatching | Downloading | Validating | Applying
    | Reconciling | Succeeded | Failed | Interrupted | Unconfirmed

  predicate TerminalJob(s: JobState) {
    (s == JobSucceeded || s == CompletedWithErrors || s == JobFailed || s == JobInterrupted)
  }

  predicate TerminalDevice(s: DeviceState) {
    (s == Succeeded || s == Failed || s == Interrupted || s == Unconfirmed)
  }

  predicate ActiveDevice(s: DeviceState) {
    || s == WaitingTransfer || s == Dispatching || s == Downloading || s == Validating || s == Applying
    || s == Reconciling
  }

  /** The client is known to have begun the work. */
  predicate Started(s: DeviceState) {
    (s == Downloading || s == Validating || s == Applying)
  }

  /** The row keeps its job running. */
  predicate Underway(s: DeviceState) {
    (s == Queued || s == WaitingTransfer || s == Dispatching || s == Downloading || s == Validating || s == Applying)
  }

  /** JOB_TRANSITIONS. */
  predicate JobEdge(src: JobState, dst: JobState) {
    match src
    case Created => (dst == Uploading || dst == JobInterrupted || dst == JobFailed)
    case Uploading => (dst == Packaging || dst == JobInterrupted || dst == JobFailed)
    case Packaging => (dst == Ready || dst == JobInterrupted || dst == JobFailed)
    case Ready => (dst == Running || dst == JobFailed)
    case Running => (dst == JobReconciling || dst == JobSucceeded || dst == CompletedWithErrors || dst == JobFailed)
    case JobReconciling => (dst == Running || dst == JobSucceeded || dst == CompletedWithErrors || dst == JobFailed)
    case _ => false
  }

  /** DEVICE_TRANSITIONS. */
  predicate DeviceEdge(src: DeviceState, dst: DeviceState) {
    match src
    case Queued => (dst == WaitingTransfer || dst == Failed || dst == Interrupted)
    case WaitingTransfer => (dst == Queued || dst == Dispatching || dst == Failed || dst == Interrupted)
    case Dispatching => (dst == Queued || dst == Downloading || dst == Reconciling || dst == Failed)
    case Downloading => (dst == Validating || dst == Reconciling || dst == Failed)
    case Validating => (dst == Applying || dst == Reconciling || dst == Failed)
    case Applying => (dst == Succeeded || dst == Reconciling || dst == Failed)
    case Reconciling =>
      || dst == Downloading || dst == Validating || dst == Applying || dst == Queued || dst == Succeeded
      || dst == Failed || dst == Interrupted || dst == Unconfirmed
    case _ => false
  }

  /** `validate_job_transition` does not raise. */
  predicate JobTransitionValid(src: JobState, dst: JobState) {
    src == dst || (!TerminalJob(src) && JobEdge(src, dst))
  }

  /** `validate_device_transition` does not raise. */
  predicate DeviceTransitionValid(src: DeviceState, dst: DeviceState) {
    src == dst || (!TerminalDevice(src) && DeviceEdge(src, dst))
  }

  /** `derive_dispatched_job_state`. The original asks only `any` and `all` of the rows'
      states, so the set of states is all it depends on. */
  function Derive(states: set<DeviceState>): (job: JobState)
    requires states != {}
    ensures TerminalJob(job) <==> forall s :: s in states ==> TerminalDevice(s)
    ensures job == JobReconciling <==> Reconciling in states
    ensures job == JobSucceeded <==> states == {Succeeded}
    ensures job == JobFailed <==> states <= {Failed, Interrupted}
    ensures job == Running <==> Reconciling !in states && exists s :: s in states && !TerminalDevice(s)
    ensures TerminalJob(job) || job == Running || job == JobReconciling
    ensures job != JobInterrupted
  {
    if Reconciling in states then JobReconciling
    else if exists s :: s in states && Underway(s) then Running
    else if forall s :: s in states ==> s == Succeeded then
      assert exists s :: s in states;
      assert states == {Succeeded};
      JobSucceeded
    else if Unconfirmed in states then CompletedWithErrors
    else if Succeeded in states then CompletedWithErrors
    else JobFailed
  }
}
