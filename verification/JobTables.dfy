/** The three durable tables of the Push/Sync server and the effect of every transaction on
    them (mdm-server/styly_mdm/push_job_store.py, push_job_manager.py). A transaction either
    commits one new value of the tables or leaves them as they were; times are parameters. */
module JobTables {
  import opened PushJobs

  /** Primary key of a device row. */
  datatype Key = Key(job: JobId, device: DeviceId)

  datatype QueueReason = AwaitingDispatch | DispatchPaused | DispatchRecovery | SameDeviceJob | CommandAcceptReplay

  datatype ReconReason =
    | CommandAcceptTimeout | DisconnectBeforeAccept | DeviceDisconnect | TransferTimeout
    | UnexpectedDispatchFailure | ServerRestartBeforeAccept | ServerRestartAfterAccept

  datatype Counts = Counts(added: int, updated: int, deleted: int)

  datatype Row = Row(
    state: DeviceState, enqueueSeq: nat, protocol: Protocol, queueReason: Option<QueueReason>,
    acceptReplays: nat, acceptDeadline: Option<int>, acceptedAt: Option<int>,
    transferCompletedAt: Option<int>, validationCompletedAt: Option<int>, applyStartedAt: Option<int>,
    updatedAt: int, terminalAt: Option<int>, failureCode: Option<string>, failureDetail: Option<string>,
    counts: Option<Counts>, reconReason: Option<ReconReason>, reconDeadline: Option<int>)

  datatype Job = Job(
    requestId: string, fingerprint: string, revision: nat, state: JobState, artifact: Option<string>,
    files: Option<Counts>, dispatchEnabled: bool, pausedReason: Option<string>, createExpiresAt: int,
    uploadStartedAt: Option<int>, readyAt: Option<int>, dispatchStartedAt: Option<int>,
    updatedAt: int, terminalAt: Option<int>, failureCode: Option<string>, failureDetail: Option<string>)

  /** What a client says is running when the server has no row for it. */
  datatype OpaqueIdentity = KnownActive(job: JobId, artifact: Option<string>) | UnknownActive

  /** The CHECK constraint of the fence table admits exactly these two shapes. */
  datatype Fence =
    | JobFence(job: JobId, protocol: Protocol, process: Option<string>, reason: string, createdAt: int, updatedAt: int)
    | OpaqueFence(identity: OpaqueIdentity, protocol: Protocol, process: Option<string>, reason: string,
                  createdAt: int, updatedAt: int)

  datatype Db = Db(jobs: map<JobId, Job>, rows: map<Key, Row>, fences: map<DeviceId, Fence>, nextSeq: nat)

  datatype Refusal = ConflictingTerminalResult | UnexpectedResultState | StaleResult | UnknownJob | MalformedResult

  /** `Changed` and `Kept` are commits (an accepted answer), `Refused` is a commit that answers
      no; `NotFound` and `Conflict` are raised errors, after which nothing is written. */
  datatype Reply = Changed | Kept | Refused(why: Refusal) | NotFound | Conflict

  datatype Tx = Tx(db: Db, reply: Reply)

  datatype Request = Request(requestId: string, fingerprint: string, targets: seq<(DeviceId, Protocol)>)

  /** A worker's terminal result, as the store receives it. */
  datatype Verdict = Verdict(success: bool, counts: Counts, failureCode: Option<string>, failureDetail: string)

  datatype ReportStatus = Active | Absent | ClientInterrupted | OtherStatus

  const DETAIL_LIMIT := 2000

  const RECONCILIATION_TIMEOUT := "reconciliation_timeout"
  const ARTIFACT_MISSING := "artifact_missing"
  const ARTIFACT_MISMATCH := "artifact_identity_mismatch"
  const ARTIFACT_MISMATCH_DETAIL := "REGISTER active artifact did not match the canonical assignment"
  const CLIENT_RESTARTED := "client_restarted"
  const CLIENT_STATE_ABSENT := "client_state_absent"
  const REPORTED_INTERRUPTED := "client reported interrupted"
  const REPORTED_ABSENT := "client reported absent"
  const UPLOAD_NOT_STARTED := "upload_not_started_timeout"
  const UPLOAD_NOT_STARTED_DETAIL := "upload did not start before create_expires_at"
  const SERVER_RESTART := "server_restart"
  const SERVER_RESTART_DETAIL := "server restarted during non-resumable upload or packaging"

  function Clip(s: string, limit: nat): string {
    if |s| <= limit then s else s[..limit]
  }

  // ---- Pieces shared by the transactions ----

  /** States of the rows of one job. */
  function States(rows: map<Key, Row>, j: JobId): set<DeviceState> {
    set k | k in rows && k.job == j :: rows[k].state
  }

  /** `_increment_revision`. */
  function Bumped(job: Job, now: int): Job {
    job.(revision := job.revision + 1, updatedAt := now)
  }

  /** The states `_rederive_job` leaves alone. */
  predicate NeverDerived(s: JobState) {
    s == Created || s == Uploading || s == Packaging || s == Ready || s == JobInterrupted || s == JobFailed
  }

  /** `_rederive_job`; deriving from no rows raises there, and no job is without rows. */
  function Rederived(job: Job, states: set<DeviceState>, now: int): Job {
    if NeverDerived(job.state) || states == {} then job
    else
      var derived := Derive(states);
      if derived == job.state then job
      else job.(state := derived, terminalAt := if TerminalJob(derived) then Some(now) else None, updatedAt := now)
  }

  /** The tail of every transaction that touches rows or fences: the jobs `ids` get a new
      revision and, where the transaction rederives, the state their rows now give. */
  function Commit(db: Db, rows: map<Key, Row>, fences: map<DeviceId, Fence>, ids: set<JobId>, rederive: bool,
                  now: int): Db
  {
    db.(rows := rows, fences := fences,
        jobs := map j | j in db.jobs ::
          if j !in ids then db.jobs[j]
          else if rederive then Rederived(Bumped(db.jobs[j], now), States(rows, j), now)
          else Bumped(db.jobs[j], now))
  }

  function Rewrite(db: Db, k: Key, row: Row, now: int): Db {
    Commit(db, db.rows[k := row], db.fences, {k.job}, true, now)
  }

  predicate HasRow(db: Db, j: JobId, d: DeviceId) {
    Key(j, d) in db.rows
  }

  predicate Newest(rows: map<Key, Row>, k: Key) {
    k in rows && forall o :: o in rows && o.device == k.device ==> rows[o].enqueueSeq <= rows[k].enqueueSeq
  }

  /** `_visible_job_ids`: unfinished jobs of the device, the blocking job, and, for an opaque
      fence, the device's newest job. */
  function VisibleJobs(db: Db, d: DeviceId, blocking: Option<JobId>): set<JobId> {
    (set j | j in db.jobs && HasRow(db, j, d) && !TerminalJob(db.jobs[j].state))
    + (if blocking.Some? && blocking.value in db.jobs then {blocking.value} else {})
    + (if d in db.fences && db.fences[d].OpaqueFence?
       then set k | k in db.rows && k.device == d && Newest(db.rows, k) :: k.job
       else {})
  }

  // ---- Upload and dispatch gate ----

  predicate ValidRequest(request: Request) {
    && request.targets != []
    && forall i, l :: 0 <= i < l < |request.targets| ==> request.targets[i].0 != request.targets[l].0
  }

  function NewRow(protocol: Protocol, enqueueSeq: nat, now: int): Row {
    Row(Queued, enqueueSeq, protocol, Some(AwaitingDispatch), 0, None, None, None, None, None, now, None, None, None,
        None, None, None)
  }

  function NewJob(request: Request, expires: int, now: int): Job {
    Job(request.requestId, request.fingerprint, 1, Created, None, None, false, None, expires,
        None, None, None, now, None, None, None)
  }

  function NewRows(id: JobId, request: Request, start: nat, now: int): map<Key, Row>
    requires ValidRequest(request)
  {
    map i | 0 <= i < |request.targets| ::
      Key(id, request.targets[i].0) := NewRow(request.targets[i].1, start + i, now)
  }

  /** `create_job`; `id` is the fresh identifier the transaction draws. */
  function CreateJob(db: Db, request: Request, id: JobId, timeout: int, now: int): Tx
    requires ValidRequest(request)
  {
    if exists j :: j in db.jobs && db.jobs[j].requestId == request.requestId then
      if exists j :: j in db.jobs && db.jobs[j].requestId == request.requestId
                     && db.jobs[j].fingerprint != request.fingerprint
      then Tx(db, Conflict)
      else Tx(db, Kept)
    else
      Tx(db.(jobs := db.jobs[id := NewJob(request, now + timeout, now)],
             rows := db.rows + NewRows(id, request, db.nextSeq, now),
             nextSeq := db.nextSeq + |request.targets|),
         Changed)
  }

  function SetJob(db: Db, j: JobId, job: Job): Tx {
    Tx(db.(jobs := db.jobs[j := job]), Changed)
  }

  function Ended(job: Job, state: JobState, code: string, detail: string, now: int): Job {
    Bumped(job, now).(state := state, terminalAt := Some(now), failureCode := Some(code), failureDetail := Some(detail))
  }

  function Expired(job: Job, now: int): Job {
    Ended(job, JobInterrupted, UPLOAD_NOT_STARTED, UPLOAD_NOT_STARTED_DETAIL, now)
  }

  /** `start_upload`; past the deadline it commits the interruption and then raises. */
  function StartUpload(db: Db, j: JobId, now: int): Tx {
    if j !in db.jobs then Tx(db, NotFound)
    else if db.jobs[j].state != Created then Tx(db, Conflict)
    else if now >= db.jobs[j].createExpiresAt then SetJob(db, j, Expired(db.jobs[j], now)).(reply := Conflict)
    else SetJob(db, j, Bumped(db.jobs[j], now).(state := Uploading, uploadStartedAt := Some(now)))
  }

  /** `expire_created`. */
  function ExpireCreated(db: Db, j: JobId, deadline: Option<int>, now: int): Tx {
    if j !in db.jobs || db.jobs[j].state != Created then Tx(db, Kept)
    else if deadline.Some? && db.jobs[j].createExpiresAt != deadline.value then Tx(db, Kept)
    else if now < db.jobs[j].createExpiresAt then Tx(db, Kept)
    else SetJob(db, j, Expired(db.jobs[j], now))
  }

  /** `mark_packaging`. */
  function MarkPackaging(db: Db, j: JobId, files: Counts, now: int): Tx {
    if j !in db.jobs then Tx(db, NotFound)
    else if db.jobs[j].state != Uploading then Tx(db, Conflict)
    else SetJob(db, j, Bumped(db.jobs[j], now).(state := Packaging, files := Some(files)))
  }

  /** `publish_artifact`. */
  function PublishArtifact(db: Db, j: JobId, artifact: string, now: int): Tx {
    if j !in db.jobs then Tx(db, NotFound)
    else if db.jobs[j].state != Packaging then Tx(db, Conflict)
    else SetJob(db, j, Bumped(db.jobs[j], now).(state := Ready, artifact := Some(artifact), readyAt := Some(now)))
  }

  /** `fail_pre_dispatch`. */
  function FailPreDispatch(db: Db, j: JobId, state: JobState, code: string, detail: string, now: int): Tx {
    if state != JobFailed && state != JobInterrupted then Tx(db, Conflict)
    else if j !in db.jobs then Tx(db, NotFound)
    else if !JobTransitionValid(db.jobs[j].state, state) then Tx(db, Conflict)
    else SetJob(db, j, Ended(db.jobs[j], state, code, detail, now))
  }

  /** `enable_dispatch`. */
  function EnableDispatch(db: Db, j: JobId, now: int): Tx {
    if j !in db.jobs then Tx(db, NotFound)
    else
      var job := db.jobs[j];
      if (job.state == Ready || job.state == Running || job.state == JobReconciling) then
        if job.dispatchEnabled then Tx(db, Kept)
        else SetJob(db, j, Bumped(job, now).(
          state := if job.state == Ready then Running else job.state, dispatchEnabled := true, pausedReason := None,
          dispatchStartedAt := if job.dispatchStartedAt.Some? then job.dispatchStartedAt else Some(now)))
      else if TerminalJob(job.state) then Tx(db, Kept)
      else Tx(db, Conflict)
  }

  // ---- Claim and dispatch ----

  predicate WaitsInLine(db: Db, k: Key) {
    k in db.rows && db.rows[k].state == Queued && k.job in db.jobs && !TerminalJob(db.jobs[k.job].state)
  }

  predicate FirstInLine(db: Db, k: Key)
    requires k in db.rows
  {
    forall o :: o in db.rows && o.device == k.device && WaitsInLine(db, o) ==>
      db.rows[k].enqueueSeq <= db.rows[o].enqueueSeq
  }

  predicate DeviceBusy(db: Db, d: DeviceId) {
    exists k :: k in db.rows && k.device == d && ActiveDevice(db.rows[k].state)
  }

  /** What `claim_next` asks of a row. */
  predicate Claimable(db: Db, k: Key) {
    && k in db.rows && db.rows[k].state == Queued
    && k.job in db.jobs && db.jobs[k.job].dispatchEnabled
    && (db.jobs[k.job].state == Running || db.jobs[k.job].state == JobReconciling)
    && k.device !in db.fences
    && !DeviceBusy(db, k.device)
    && FirstInLine(db, k)
  }

  /** The row `claim_next` takes: the oldest claimable row of an online device, if any. */
  predicate ClaimChoice(db: Db, online: set<DeviceId>, choice: Option<Key>) {
    match choice
    case None => forall k :: k in db.rows && k.device in online ==> !Claimable(db, k)
    case Some(k) =>
      && k.device in online && Claimable(db, k)
      && forall o :: o in db.rows && o.device in online && Claimable(db, o) ==>
        db.rows[k].enqueueSeq <= db.rows[o].enqueueSeq
  }

  function Claim(db: Db, choice: Option<Key>, now: int): Tx
    requires choice.Some? ==> choice.value in db.rows
  {
    if choice.None? then Tx(db, Kept)
    else
      var row := db.rows[choice.value].(state := WaitingTransfer, queueReason := None, updatedAt := now);
      Tx(Rewrite(db, choice.value, row, now), Changed)
  }

  /** `prepare_dispatch`. */
  function PrepareDispatch(db: Db, k: Key, protocol: Protocol, acceptDeadline: Option<int>, now: int): Tx {
    if k !in db.rows then Tx(db, NotFound)
    else if db.rows[k].state != WaitingTransfer then Tx(db, Conflict)
    else
      var row := db.rows[k].(state := Dispatching, protocol := protocol,
                             acceptDeadline := acceptDeadline, updatedAt := now);
      Tx(Rewrite(db, k, row, now), Changed)
  }

  // ---- transition_device, one constructor per caller ----

  datatype Change =
    | BackToQueue(queueReason: QueueReason, error: Option<string>)
    | SendRace(owner: string)
    | LegacyStarted
    | CommandAccepted
    | BusyWithThis
    | BusyWithOther(active: JobId)
    | FailCurrent(from: set<DeviceState>, code: string, detail: string)
    | ArtifactMismatch(seen: DeviceState)
    | TransferComplete
    | LegacyDownloaded
    | ValidationComplete
    | PhaseApplying
    | ToReconciling(seen: DeviceState, reason: ReconReason, deadline: int)

  /** What the callers in push_scheduler.py and push_runtime.py pass. */
  predicate CallerMakes(c: Change) {
    match c
    case BackToQueue(reason, _) => (reason == AwaitingDispatch || reason == DispatchRecovery)
    case FailCurrent(from, _, _) =>
      from in {{WaitingTransfer}, {Dispatching}, {Reconciling}, {Dispatching, Reconciling}}
    case ArtifactMismatch(seen) => !TerminalDevice(seen)
    case ToReconciling(seen, reason, _) =>
      && (seen == Dispatching || seen == Downloading || seen == Validating || seen == Applying)
      && ((reason == DeviceDisconnect || reason == TransferTimeout || reason == UnexpectedDispatchFailure)
          || (reason == DisconnectBeforeAccept && seen == Dispatching))
    case _ => true
  }

  function Expected(c: Change): set<DeviceState> {
    match c
    case BackToQueue(_, _) => {WaitingTransfer}
    case SendRace(_) => {Dispatching}
    case LegacyStarted => {Dispatching}
    case CommandAccepted => {Dispatching, Reconciling}
    case BusyWithThis => {Dispatching, Reconciling}
    case BusyWithOther(_) => {Dispatching, Reconciling}
    case FailCurrent(from, _, _) => from
    case ArtifactMismatch(seen) => {seen}
    case TransferComplete => {Downloading}
    case LegacyDownloaded => {Downloading}
    case ValidationComplete => {Validating}
    case PhaseApplying => {Validating, Reconciling}
    case ToReconciling(seen, _, _) => {seen}
  }

  function Target(c: Change): DeviceState {
    match c
    case BackToQueue(_, _) => Queued
    case SendRace(_) => Queued
    case LegacyStarted => Downloading
    case CommandAccepted => Downloading
    case BusyWithThis => Downloading
    case BusyWithOther(_) => Queued
    case FailCurrent(_, _, _) => Failed
    case ArtifactMismatch(_) => Failed
    case TransferComplete => Validating
    case LegacyDownloaded => Validating
    case ValidationComplete => Validating
    case PhaseApplying => Applying
    case ToReconciling(_, _, _) => Reconciling
  }

  /** The columns each caller writes besides state and time. */
  function Written(c: Change, row: Row, now: int): Row {
    match c
    case BackToQueue(reason, error) =>
      if error.None? then row.(queueReason := Some(reason))
      else row.(queueReason := Some(reason), failureCode := None,
                failureDetail := Some(Clip(error.value, DETAIL_LIMIT)))
    case SendRace(error) =>
      row.(queueReason := Some(AwaitingDispatch), acceptDeadline := None, failureCode := None,
           failureDetail := Some(Clip(error, DETAIL_LIMIT)))
    case LegacyStarted => row.(acceptedAt := Some(now), acceptDeadline := None)
    case CommandAccepted => row.(acceptedAt := Some(now), acceptDeadline := None, reconReason := None,
                                 reconDeadline := None)
    case BusyWithThis => row.(acceptedAt := Some(now), acceptDeadline := None)
    case BusyWithOther(_) => row.(queueReason := Some(SameDeviceJob), acceptDeadline := None)
    case FailCurrent(_, code, detail) =>
      row.(failureCode := Some(code), failureDetail := Some(Clip(detail, DETAIL_LIMIT)), acceptDeadline := None,
           reconReason := None, reconDeadline := None, terminalAt := Some(now))
    case ArtifactMismatch(_) =>
      row.(failureCode := Some(ARTIFACT_MISMATCH),
           failureDetail := Some(ARTIFACT_MISMATCH_DETAIL),
           acceptDeadline := None, reconReason := None, reconDeadline := None, terminalAt := Some(now))
    case TransferComplete =>
      row.(transferCompletedAt := Some(now), acceptDeadline := None, reconReason := None, reconDeadline := None)
    case LegacyDownloaded => row.(transferCompletedAt := Some(now))
    case ValidationComplete => row.(validationCompletedAt := Some(now))
    case PhaseApplying => row.(applyStartedAt := Some(now), reconReason := None, reconDeadline := None)
    case ToReconciling(_, reason, deadline) =>
      row.(reconReason := Some(reason), reconDeadline := Some(deadline), acceptDeadline := None)
  }

  function TransitionDevice(db: Db, k: Key, c: Change, now: int): Tx {
    if k !in db.rows then Tx(db, NotFound)
    else if db.rows[k].state !in Expected(c) then Tx(db, Conflict)
    else if !DeviceTransitionValid(db.rows[k].state, Target(c)) then Tx(db, Conflict)
    else Tx(Rewrite(db, k, Written(c, db.rows[k], now).(state := Target(c), updatedAt := now), now), Changed)
  }

  /** `mark_acceptance_reconciling`. */
  function AcceptTimeout(db: Db, k: Key, expected: int, deadline: int, now: int): Tx {
    if k !in db.rows then Tx(db, NotFound)
    else
      var row := db.rows[k];
      var exact := row.acceptDeadline == Some(expected);
      if row.state == Reconciling && row.acceptedAt.None? && exact && row.reconReason == Some(CommandAcceptTimeout)
      then Tx(db, Kept)
      else if row.state != Dispatching || row.acceptedAt.Some? || !exact then Tx(db, Conflict)
      else Tx(Rewrite(db, k, row.(state := Reconciling, reconReason := Some(CommandAcceptTimeout),
                                  reconDeadline := Some(deadline), updatedAt := now), now), Changed)
  }

  // ---- Fences ----

  function Upserted(db: Db, d: DeviceId, fence: Fence): map<DeviceId, Fence> {
    db.fences[d := if d in db.fences then fence.(createdAt := db.fences[d].createdAt) else fence]
  }

  function UnconfirmedRows(db: Db, k: Key, detail: string, now: int): map<Key, Row>
    requires k in db.rows
  {
    db.rows[k := db.rows[k].(state := Unconfirmed, terminalAt := Some(now), updatedAt := now,
                             failureCode := Some(RECONCILIATION_TIMEOUT),
                             failureDetail := Some(Clip(detail, DETAIL_LIMIT)),
                             reconReason := None, reconDeadline := None, acceptDeadline := None)]
  }

  /** `mark_unconfirmed`. */
  function MarkUnconfirmed(db: Db, k: Key, process: Option<string>, detail: string, deadline: Option<int>,
                           now: int): Tx {
    if k !in db.rows then Tx(db, NotFound)
    else
      var row := db.rows[k];
      if row.state != Reconciling then Tx(db, Conflict)
      else if deadline.Some? && (row.reconDeadline != deadline || now < deadline.value) then Tx(db, Conflict)
      else
        var rows := UnconfirmedRows(db, k, detail, now);
        var fences := Upserted(db, k.device,
                               JobFence(k.job, row.protocol, process, Clip(detail, DETAIL_LIMIT), now, now));
        Tx(Commit(db, rows, fences, VisibleJobs(db.(rows := rows, fences := fences), k.device, Some(k.job)), true, now),
           Changed)
  }

  /** `add_opaque_fence`. */
  function AddOpaqueFence(db: Db, d: DeviceId, identity: OpaqueIdentity, protocol: Protocol, process: Option<string>,
                          reason: string, now: int): Tx {
    var fence := OpaqueFence(identity, protocol, process, Clip(reason, DETAIL_LIMIT), now, now);
    if d in db.fences && db.fences[d] == OpaqueFence(identity, protocol, process, fence.reason, db.fences[d].createdAt,
                                                     db.fences[d].updatedAt)
    then Tx(db, Kept)
    else
      var fences := Upserted(db, d, fence);
      Tx(Commit(db, db.rows, fences, VisibleJobs(db.(fences := fences), d, None), false, now), Changed)
  }

  function WithoutFence(db: Db, d: DeviceId): map<DeviceId, Fence> {
    map o | o in db.fences && o != d :: db.fences[o]
  }

  /** Delete the fence of `d` and give a revision to the jobs that showed it; `early` when the
      transaction lists those jobs before the delete. */
  function DropFence(db: Db, d: DeviceId, blocking: Option<JobId>, early: bool, now: int): Db {
    var fences := WithoutFence(db, d);
    Commit(db, db.rows, fences, VisibleJobs(if early then db else db.(fences := fences), d, blocking), false, now)
  }

  predicate FencedBy(db: Db, d: DeviceId, j: JobId) {
    d in db.fences && db.fences[d].JobFence? && db.fences[d].job == j
  }

  /** `clear_fence_on_process_replacement`. */
  function ClearOnReplacement(db: Db, d: DeviceId, process: Option<string>, jobV1: bool, now: int): Tx {
    if d !in db.fences || !jobV1 || process.None? || db.fences[d].process == process then Tx(db, Kept)
    else
      var fence := db.fences[d];
      Tx(DropFence(db, d, if fence.JobFence? then Some(fence.job) else None, true, now), Changed)
  }

  /** `clear_matching_fence`. */
  function ClearMatching(db: Db, k: Key, attempt: int, now: int): Tx {
    if attempt != 1 || !FencedBy(db, k.device, k.job) then Tx(db, Kept)
    else Tx(DropFence(db, k.device, Some(k.job), false, now), Changed)
  }

  predicate OpaqueMatches(db: Db, k: Key) {
    && k.device in db.fences && db.fences[k.device].OpaqueFence?
    && db.fences[k.device].protocol == JobV1
    && db.fences[k.device].identity.KnownActive?
    && db.fences[k.device].identity.job == k.job
  }

  /** `clear_matching_opaque_fence`. */
  function ClearMatchingOpaque(db: Db, k: Key, now: int): Tx {
    if !OpaqueMatches(db, k) then Tx(db, Kept)
    else Tx(DropFence(db, k.device, None, true, now), Changed)
  }

  /** `settle_late_fenced_result`. */
  function SettleLate(db: Db, k: Key, attempt: int, now: int): Tx {
    if attempt != 1 || k !in db.rows || db.rows[k].state != Unconfirmed then Tx(db, Refused(StaleResult))
    else if k.device !in db.fences then Tx(db, Kept)
    else if !FencedBy(db, k.device, k.job) then Tx(db, Refused(StaleResult))
    else Tx(DropFence(db, k.device, Some(k.job), false, now), Changed)
  }

  // ---- Evidence from the client ----

  /** The one pre-accept replay a row may still make. */
  predicate Replayable(row: Row, dispatchEnabled: bool) {
    && row.acceptedAt.None?
    && (row.reconReason == Some(CommandAcceptTimeout) || row.reconReason == Some(DisconnectBeforeAccept))
    && row.acceptReplays < 1
    && dispatchEnabled
  }

  /** `reconcile_report`. */
  function ReconcileReport(db: Db, k: Key, attempt: int, status: ReportStatus, phase: Option<DeviceState>,
                           detail: Option<string>, now: int): Tx {
    if attempt != 1 then Tx(db, Conflict)
    else if k !in db.rows || k.job !in db.jobs then Tx(db, NotFound)
    else
      var row := db.rows[k];
      if row.state == Unconfirmed && (status == Absent || status == ClientInterrupted) then
        if FencedBy(db, k.device, k.job) then Tx(DropFence(db, k.device, Some(k.job), false, now), Changed)
        else Tx(db, Conflict)
      else if row.state != Reconciling then Tx(db, Conflict)
      else
        var settled := row.(acceptDeadline := None, reconReason := None, reconDeadline := None, updatedAt := now);
        match status
        case Active =>
          if phase.None? || !Started(phase.value) then Tx(db, Conflict)
          else
            var accepted := if row.acceptedAt.Some? then row.acceptedAt else Some(now);
            Tx(Rewrite(db, k, settled.(state := phase.value, acceptedAt := accepted), now), Changed)
        case OtherStatus => Tx(db, Conflict)
        case _ =>
          if status == Absent && Replayable(row, db.jobs[k.job].dispatchEnabled) then
            var queued := settled.(state := Queued, queueReason := Some(CommandAcceptReplay),
                                   acceptReplays := row.acceptReplays + 1, failureCode := None, failureDetail := None);
            Tx(Rewrite(db, k, queued, now), Changed)
          else
            Tx(Rewrite(db, k, settled.(state := Interrupted, terminalAt := Some(now),
                 failureCode := Some(if status == ClientInterrupted then CLIENT_RESTARTED else CLIENT_STATE_ABSENT),
                 failureDetail := Some(Clip(if detail.Some? && detail.value != "" then detail.value
                                            else if status == ClientInterrupted then REPORTED_INTERRUPTED
                                            else REPORTED_ABSENT, DETAIL_LIMIT))), now), Changed)
  }

  predicate SameVerdict(row: Row, v: Verdict) {
    && row.state == (if v.success then Succeeded else Failed)
    && row.failureCode == v.failureCode && row.failureDetail == Some(v.failureDetail) && row.counts == Some(v.counts)
  }

  function Settled(row: Row, v: Verdict, now: int): Row {
    row.(state := if v.success then Succeeded else Failed, queueReason := None, updatedAt := now,
         terminalAt := Some(now),
         failureCode := v.failureCode, failureDetail := Some(v.failureDetail), counts := Some(v.counts),
         acceptDeadline := None, reconReason := None, reconDeadline := None)
  }

  /** `settle_result`. */
  function SettleResult(db: Db, k: Key, attempt: int, v: Verdict, now: int): Tx {
    if attempt != 1 then Tx(db, Conflict)
    else if k !in db.rows then Tx(db, NotFound)
    else
      var row := db.rows[k];
      if TerminalDevice(row.state) then Tx(db, if SameVerdict(row, v) then Kept else Refused(ConflictingTerminalResult))
      else if row.state == Queued || row.state == WaitingTransfer then Tx(db, Refused(UnexpectedResultState))
      else
        var fences := if FencedBy(db, k.device, k.job) then WithoutFence(db, k.device) else db.fences;
        Tx(Commit(db, db.rows[k := Settled(row, v, now)], fences, {k.job}, true, now), Changed)
  }

  // ---- Startup ----

  predicate RecoveryEndsJob(job: Job, now: int) {
    (job.state == Created && now >= job.createExpiresAt) || (job.state == Uploading || job.state == Packaging)
  }

  /** The job branch of recovery writes the job. */
  predicate RecoveryUpdatesJob(job: Job, now: int) {
    RecoveryEndsJob(job, now) || job.state == Running || job.state == JobReconciling
  }

  function RecoveredJob(job: Job, now: int): Job {
    if job.state == Created && now >= job.createExpiresAt then Expired(job, now)
    else if (job.state == Uploading || job.state == Packaging) then
      Ended(job, JobInterrupted, SERVER_RESTART, SERVER_RESTART_DETAIL, now)
    else if (job.state == Running || job.state == JobReconciling) then
      Bumped(job, now).(dispatchEnabled := false, pausedReason := Some(SERVER_RESTART))
    else job
  }

  function RecoveredRow(row: Row, acceptTimeout: int, timeout: int, now: int): Row {
    match row.state
    case WaitingTransfer => row.(state := Queued, queueReason := Some(DispatchPaused), updatedAt := now)
    case Dispatching =>
      row.(state := Reconciling, reconReason := Some(ServerRestartBeforeAccept),
           reconDeadline := Some(now + acceptTimeout),
           acceptDeadline := None, updatedAt := now)
    case Downloading | Validating | Applying =>
      row.(state := Reconciling, reconReason := Some(ServerRestartAfterAccept), reconDeadline := Some(now + timeout),
           acceptDeadline := None, updatedAt := now)
    case Reconciling =>
      row.(reconReason := Some(if row.acceptedAt.None? then ServerRestartBeforeAccept else ServerRestartAfterAccept),
           reconDeadline := Some(now + if row.acceptedAt.None? then acceptTimeout else timeout),
           acceptDeadline := None, updatedAt := now)
    case _ => row
  }

  /** The jobs recovery touches: those its job branch updates and those with an active row. */
  predicate RecoveryTouches(db: Db, j: JobId, now: int) {
    && j in db.jobs
    && (RecoveryUpdatesJob(db.jobs[j], now) || exists k :: k in db.rows && k.job == j && ActiveDevice(db.rows[k].state))
  }

  function RecoveredRows(rows: map<Key, Row>, acceptTimeout: int, timeout: int, now: int): map<Key, Row> {
    map k | k in rows :: RecoveredRow(rows[k], acceptTimeout, timeout, now)
  }

  /** `recover_startup_sync`. */
  function Recover(db: Db, acceptTimeout: int, timeout: int, now: int): Tx {
    var rows := RecoveredRows(db.rows, acceptTimeout, timeout, now);
    Tx(db.(rows := rows,
           jobs := map j | j in db.jobs ::
             if RecoveryTouches(db, j, now) then Rederived(RecoveredJob(db.jobs[j], now), States(rows, j), now)
             else db.jobs[j]),
       Changed)
  }

  predicate ArtifactLost(job: Job, absent: set<string>) {
    && (job.state == Ready || job.state == Running || job.state == JobReconciling)
    && job.artifact.Some? && job.artifact.value in absent
  }

  predicate RowLost(db: Db, k: Key, absent: set<string>)
    requires k in db.rows
  {
    && k.job in db.jobs && ArtifactLost(db.jobs[k.job], absent) && db.jobs[k.job].state != Ready
    && Unservable(db.rows[k].state)
  }

  function LossDetail(job: Job): string {
    "referenced immutable artifact " + (if job.artifact.Some? then job.artifact.value else "") + " is missing"
  }

  function LostRow(row: Row, job: Job, now: int): Row {
    row.(state := Failed, terminalAt := Some(now), failureCode := Some(ARTIFACT_MISSING),
         failureDetail := Some(LossDetail(job)), updatedAt := now)
  }

  function LostJob(job: Job, now: int): Job {
    Ended(job, JobFailed, ARTIFACT_MISSING, LossDetail(job), now).(dispatchEnabled := false)
  }

  predicate Unservable(s: DeviceState) {
    s == Queued || s == WaitingTransfer || s == Dispatching || s == Downloading
  }

  function SalvagedRows(db: Db, absent: set<string>, now: int): map<Key, Row> {
    map k | k in db.rows :: if RowLost(db, k, absent) then LostRow(db.rows[k], db.jobs[k.job], now) else db.rows[k]
  }

  /** `reconcile_missing_artifacts_sync`; `absent` names the artifacts whose file is gone. */
  function MissingArtifacts(db: Db, absent: set<string>, now: int): Tx {
    var rows := SalvagedRows(db, absent, now);
    Tx(db.(rows := rows,
           jobs := map j | j in db.jobs ::
             if !ArtifactLost(db.jobs[j], absent) then db.jobs[j]
             else if db.jobs[j].state == Ready then LostJob(db.jobs[j], now)
             else Rederived(Bumped(db.jobs[j], now), States(rows, j), now)),
       Changed)
  }
}
