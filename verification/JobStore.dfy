/** The transactions as the server performs them: field by field on the tables, with a loop
    wherever the original iterates. Each is proved to commit exactly what the functions of
    `JobTables` say. */
module JobStore {
  import opened PushJobs
  import opened JobTables

  class PushJobStore {
    var jobs: map<JobId, Job>
    var rows: map<Key, Row>
    var fences: map<DeviceId, Fence>
    var nextSeq: nat

    function Tables(): Db
      reads this
    {
      Db(jobs, rows, fences, nextSeq)
    }

    /** The foreign key of the row table. */
    ghost predicate Valid()
      reads this
    {
      forall k :: k in rows ==> k.job in jobs
    }

    constructor ()
      ensures Valid() && Tables() == Db(map[], map[], map[], 1)
    {
      jobs, rows, fences, nextSeq := map[], map[], map[], 1;
    }

    // ---- Shared pieces ----

    method IncrementRevision(j: JobId, now: int)
      modifies this`jobs
      ensures jobs == if j in old(jobs) then old(jobs)[j := Bumped(old(jobs[j]), now)] else old(jobs)
    {
      if j in jobs {
        jobs := jobs[j := jobs[j].(revision := jobs[j].revision + 1, updatedAt := now)];
      }
    }

    /** The states found among the rows of one job. */
    method RowStates(j: JobId) returns (states: set<DeviceState>)
      ensures states == States(rows, j)
    {
      states := {};
      var todo := rows.Keys;
      while todo != {}
        invariant todo <= rows.Keys
        invariant states == set k | k in rows && k !in todo && k.job == j :: rows[k].state
        decreases todo
      {
        var k :| k in todo;
        if k.job == j {
          states := states + {rows[k].state};
        }
        todo := todo - {k};
      }
    }

    method RederiveJob(j: JobId, now: int)
      requires j in jobs
      modifies this`jobs
      ensures jobs == old(jobs)[j := Rederived(old(jobs[j]), States(rows, j), now)]
    {
      var current := jobs[j].state;
      if current == Created || current == Uploading || current == Packaging || current == Ready
         || current == JobInterrupted || current == JobFailed {
        return;
      }
      var states := RowStates(j);
      if states == {} {
        return;
      }
      var derived := Derive(states);
      if derived == current {
        return;
      }
      jobs := jobs[j := jobs[j].(state := derived, terminalAt := if TerminalJob(derived) then Some(now) else None,
                                 updatedAt := now)];
    }

    /** The closing loop over the affected jobs. */
    method PublishTo(ids: set<JobId>, rederive: bool, now: int)
      modifies this`jobs
      ensures jobs == Commit(old(Tables()), rows, fences, ids, rederive, now).jobs
    {
      ghost var before := Tables();
      ghost var after := Commit(before, rows, fences, ids, rederive, now).jobs;
      var todo := ids * jobs.Keys;
      while todo != {}
        invariant todo <= ids && jobs.Keys == before.jobs.Keys
        invariant forall j :: j in jobs ==>
          jobs[j] == if j in todo then before.jobs[j] else after[j]
        decreases todo
      {
        var j :| j in todo;
        IncrementRevision(j, now);
        if rederive {
          RederiveJob(j, now);
        }
        todo := todo - {j};
      }
    }

    method RewriteRow(k: Key, row: Row, now: int)
      requires Valid() && k in rows
      modifies this`rows, this`jobs
      ensures Valid() && Tables() == Rewrite(old(Tables()), k, row, now)
    {
      rows := rows[k := row];
      PublishTo({k.job}, true, now);
    }

    // ---- Upload and dispatch gate ----

    method InsertRows(id: JobId, request: Request, start: nat, now: int)
      requires ValidRequest(request)
      requires forall k :: k in rows ==> k.job != id
      modifies this`rows
      ensures rows == old(rows) + NewRows(id, request, start, now)
    {
      hide NewRows, NewRow;
      for ordinal := 0 to |request.targets|
        invariant forall k :: k in rows <==>
          k in old(rows) || (k.job == id && exists i :: 0 <= i < ordinal && request.targets[i].0 == k.device)
        invariant forall k :: k in old(rows) ==> rows[k] == old(rows)[k]
        invariant forall i :: 0 <= i < ordinal ==>
          rows[Key(id, request.targets[i].0)] == NewRow(request.targets[i].1, start + i, now)
      {
        var target := request.targets[ordinal];
        rows := rows[Key(id, target.0) := NewRow(target.1, start + ordinal, now)];
      }
      NewRowsAre(id, request, start, now);
    }

    method CreateJob(request: Request, id: JobId, timeout: int, now: int) returns (reply: Reply)
      requires Valid() && ValidRequest(request) && id !in jobs
      modifies this
      ensures Valid() && Tx(Tables(), reply) == JobTables.CreateJob(old(Tables()), request, id, timeout, now)
    {
      if exists j :: j in jobs && jobs[j].requestId == request.requestId {
        if exists j :: j in jobs && jobs[j].requestId == request.requestId
                       && jobs[j].fingerprint != request.fingerprint {
          return Conflict;
        }
        return Kept;
      }
      jobs := jobs[id := NewJob(request, now + timeout, now)];
      var start := nextSeq;
      nextSeq := start + |request.targets|;
      InsertRows(id, request, start, now);
      reply := Changed;
    }

    method StartUpload(j: JobId, now: int) returns (reply: Reply)
      requires Valid()
      modifies this`jobs
      ensures Valid() && Tx(Tables(), reply) == JobTables.StartUpload(old(Tables()), j, now)
    {
      if j !in jobs {
        return NotFound;
      }
      if jobs[j].state != Created {
        return Conflict;
      }
      if now >= jobs[j].createExpiresAt {
        jobs := jobs[j := Expired(jobs[j], now)];
        return Conflict;
      }
      jobs := jobs[j := Bumped(jobs[j], now).(state := Uploading, uploadStartedAt := Some(now))];
      reply := Changed;
    }

    method ExpireCreated(j: JobId, deadline: Option<int>, now: int) returns (reply: Reply)
      requires Valid()
      modifies this`jobs
      ensures Valid() && Tx(Tables(), reply) == JobTables.ExpireCreated(old(Tables()), j, deadline, now)
    {
      if j !in jobs || jobs[j].state != Created {
        return Kept;
      }
      if deadline.Some? && jobs[j].createExpiresAt != deadline.value {
        return Kept;
      }
      if now < jobs[j].createExpiresAt {
        return Kept;
      }
      jobs := jobs[j := Expired(jobs[j], now)];
      reply := Changed;
    }

    method MarkPackaging(j: JobId, files: Counts, now: int) returns (reply: Reply)
      requires Valid()
      modifies this`jobs
      ensures Valid() && Tx(Tables(), reply) == JobTables.MarkPackaging(old(Tables()), j, files, now)
    {
      if j !in jobs {
        return NotFound;
      }
      if jobs[j].state != Uploading {
        return Conflict;
      }
      jobs := jobs[j := Bumped(jobs[j], now).(state := Packaging, files := Some(files))];
      reply := Changed;
    }

    method PublishArtifact(j: JobId, artifact: string, now: int) returns (reply: Reply)
      requires Valid()
      modifies this`jobs
      ensures Valid() && Tx(Tables(), reply) == JobTables.PublishArtifact(old(Tables()), j, artifact, now)
    {
      if j !in jobs {
        return NotFound;
      }
      if jobs[j].state != Packaging {
        return Conflict;
      }
      jobs := jobs[j := Bumped(jobs[j], now).(state := Ready, artifact := Some(artifact), readyAt := Some(now))];
      reply := Changed;
    }

    method FailPreDispatch(j: JobId, state: JobState, code: string, detail: string, now: int) returns (reply: Reply)
      requires Valid()
      modifies this`jobs
      ensures Valid() && Tx(Tables(), reply) == JobTables.FailPreDispatch(old(Tables()), j, state, code, detail, now)
    {
      if state != JobFailed && state != JobInterrupted {
        return Conflict;
      }
      if j !in jobs {
        return NotFound;
      }
      if !JobTransitionValid(jobs[j].state, state) {
        return Conflict;
      }
      jobs := jobs[j := Ended(jobs[j], state, code, detail, now)];
      reply := Changed;
    }

    method EnableDispatch(j: JobId, now: int) returns (reply: Reply)
      requires Valid()
      modifies this`jobs
      ensures Valid() && Tx(Tables(), reply) == JobTables.EnableDispatch(old(Tables()), j, now)
    {
      if j !in jobs {
        return NotFound;
      }
      var job := jobs[j];
      if job.state == Ready || job.state == Running || job.state == JobReconciling {
        if job.dispatchEnabled {
          return Kept;
        }
        jobs := jobs[j := Bumped(job, now).(
          state := if job.state == Ready then Running else job.state, dispatchEnabled := true, pausedReason := None,
          dispatchStartedAt := if job.dispatchStartedAt.Some? then job.dispatchStartedAt else Some(now))];
        return Changed;
      }
      return if TerminalJob(job.state) then Kept else Conflict;
    }

    // ---- Claim and dispatch ----

    /** Take the globally oldest eligible row of an online device. */
    method ClaimNext(online: set<DeviceId>, now: int) returns (choice: Option<Key>)
      requires Valid()
      modifies this`rows, this`jobs
      ensures ClaimChoice(old(Tables()), online, choice)
      ensures choice.Some? ==> choice.value in old(rows)
      ensures Valid() && Tables() == Claim(old(Tables()), choice, now).db
    {
      choice := None;
      var todo := rows.Keys;
      while todo != {}
        invariant todo <= rows.Keys
        invariant choice.Some? ==> choice.value.device in online && Claimable(Tables(), choice.value)
        invariant forall k :: k in rows && k !in todo && k.device in online && Claimable(Tables(), k) ==>
          choice.Some? && rows[choice.value].enqueueSeq <= rows[k].enqueueSeq
        decreases todo
      {
        var k :| k in todo;
        if k.device in online && Claimable(Tables(), k)
           && (choice.None? || rows[k].enqueueSeq < rows[choice.value].enqueueSeq) {
          choice := Some(k);
        }
        todo := todo - {k};
      }
      if choice.Some? {
        var k := choice.value;
        RewriteRow(k, rows[k].(state := WaitingTransfer, queueReason := None, updatedAt := now), now);
      }
    }

    method PrepareDispatch(k: Key, protocol: Protocol, acceptDeadline: Option<int>, now: int) returns (reply: Reply)
      requires Valid()
      modifies this`rows, this`jobs
      ensures Valid()
      ensures Tx(Tables(), reply) == JobTables.PrepareDispatch(old(Tables()), k, protocol, acceptDeadline, now)
    {
      if k !in rows {
        return NotFound;
      }
      if rows[k].state != WaitingTransfer {
        return Conflict;
      }
      var row := rows[k].(state := Dispatching, protocol := protocol,
                          acceptDeadline := acceptDeadline, updatedAt := now);
      RewriteRow(k, row, now);
      reply := Changed;
    }

    method TransitionDevice(k: Key, c: Change, now: int) returns (reply: Reply)
      requires Valid()
      modifies this`rows, this`jobs
      ensures Valid() && Tx(Tables(), reply) == JobTables.TransitionDevice(old(Tables()), k, c, now)
    {
      if k !in rows {
        return NotFound;
      }
      if rows[k].state !in Expected(c) || !DeviceTransitionValid(rows[k].state, Target(c)) {
        return Conflict;
      }
      RewriteRow(k, Written(c, rows[k], now).(state := Target(c), updatedAt := now), now);
      reply := Changed;
    }

    method MarkAcceptanceReconciling(k: Key, expected: int, deadline: int, now: int) returns (reply: Reply)
      requires Valid()
      modifies this`rows, this`jobs
      ensures Valid() && Tx(Tables(), reply) == AcceptTimeout(old(Tables()), k, expected, deadline, now)
    {
      if k !in rows {
        return NotFound;
      }
      var row := rows[k];
      var exact := row.acceptDeadline == Some(expected);
      if row.state == Reconciling && row.acceptedAt.None? && exact && row.reconReason == Some(CommandAcceptTimeout) {
        return Kept;
      }
      if row.state != Dispatching || row.acceptedAt.Some? || !exact {
        return Conflict;
      }
      RewriteRow(k, row.(state := Reconciling, reconReason := Some(CommandAcceptTimeout),
                         reconDeadline := Some(deadline),
                         updatedAt := now), now);
      reply := Changed;
    }

    // ---- Fences ----

    method MarkUnconfirmed(k: Key, process: Option<string>, detail: string, deadline: Option<int>, now: int)
      returns (reply: Reply)
      requires Valid()
      modifies this
      ensures Valid()
      ensures Tx(Tables(), reply) == JobTables.MarkUnconfirmed(old(Tables()), k, process, detail, deadline, now)
    {
      if k !in rows {
        return NotFound;
      }
      var row := rows[k];
      if row.state != Reconciling {
        return Conflict;
      }
      if deadline.Some? && (row.reconDeadline != deadline || now < deadline.value) {
        return Conflict;
      }
      var tables := Tables();
      rows := UnconfirmedRows(tables, k, detail, now);
      fences := Upserted(tables, k.device,
                         JobFence(k.job, row.protocol, process, Clip(detail, DETAIL_LIMIT), now, now));
      PublishTo(VisibleJobs(Tables(), k.device, Some(k.job)), true, now);
      reply := Changed;
    }

    method AddOpaqueFence(d: DeviceId, identity: OpaqueIdentity, protocol: Protocol, process: Option<string>,
                          reason: string, now: int)
      returns (reply: Reply)
      requires Valid()
      modifies this`fences, this`jobs
      ensures Valid()
      ensures Tx(Tables(), reply)
           == JobTables.AddOpaqueFence(old(Tables()), d, identity, protocol, process, reason, now)
    {
      var fence := OpaqueFence(identity, protocol, process, Clip(reason, DETAIL_LIMIT), now, now);
      if d in fences && fences[d] == OpaqueFence(identity, protocol, process, fence.reason, fences[d].createdAt,
                                                 fences[d].updatedAt) {
        return Kept;
      }
      fences := Upserted(Tables(), d, fence);
      PublishTo(VisibleJobs(Tables(), d, None), false, now);
      reply := Changed;
    }

    /** Removes the device's fence and gives a revision to every job that showed it. */
    method DeleteFence(d: DeviceId, blocking: Option<JobId>, early: bool, now: int)
      requires Valid()
      modifies this`fences, this`jobs
      ensures Valid() && Tables() == DropFence(old(Tables()), d, blocking, early, now)
    {
      var ids := VisibleJobs(Tables(), d, blocking);
      fences := WithoutFence(Tables(), d);
      if !early {
        ids := VisibleJobs(Tables(), d, blocking);
      }
      PublishTo(ids, false, now);
    }

    method ClearFenceOnProcessReplacement(d: DeviceId, process: Option<string>, jobV1: bool, now: int)
      returns (reply: Reply)
      requires Valid()
      modifies this`fences, this`jobs
      ensures Valid() && Tx(Tables(), reply) == ClearOnReplacement(old(Tables()), d, process, jobV1, now)
    {
      if d !in fences || !jobV1 || process.None? || fences[d].process == process {
        return Kept;
      }
      DeleteFence(d, if fences[d].JobFence? then Some(fences[d].job) else None, true, now);
      reply := Changed;
    }

    method ClearMatchingFence(k: Key, attempt: int, now: int) returns (reply: Reply)
      requires Valid()
      modifies this`fences, this`jobs
      ensures Valid() && Tx(Tables(), reply) == ClearMatching(old(Tables()), k, attempt, now)
    {
      if attempt != 1 || !FencedBy(Tables(), k.device, k.job) {
        return Kept;
      }
      DeleteFence(k.device, Some(k.job), false, now);
      reply := Changed;
    }

    method ClearMatchingOpaqueFence(k: Key, now: int) returns (reply: Reply)
      requires Valid()
      modifies this`fences, this`jobs
      ensures Valid() && Tx(Tables(), reply) == ClearMatchingOpaque(old(Tables()), k, now)
    {
      if !OpaqueMatches(Tables(), k) {
        return Kept;
      }
      DeleteFence(k.device, None, true, now);
      reply := Changed;
    }

    method SettleLateFencedResult(k: Key, attempt: int, now: int) returns (reply: Reply)
      requires Valid()
      modifies this`fences, this`jobs
      ensures Valid() && Tx(Tables(), reply) == SettleLate(old(Tables()), k, attempt, now)
    {
      if attempt != 1 || k !in rows || rows[k].state != Unconfirmed {
        return Refused(StaleResult);
      }
      if k.device !in fences {
        return Kept;
      }
      if !FencedBy(Tables(), k.device, k.job) {
        return Refused(StaleResult);
      }
      DeleteFence(k.device, Some(k.job), false, now);
      reply := Changed;
    }

    // ---- Evidence from the client ----

    method ReconcileReport(k: Key, attempt: int, status: ReportStatus, phase: Option<DeviceState>,
                           detail: Option<string>, now: int)
      returns (reply: Reply)
      requires Valid()
      modifies this
      ensures Valid()
      ensures Tx(Tables(), reply) == JobTables.ReconcileReport(old(Tables()), k, attempt, status, phase, detail, now)
    {
      hide Rewrite, DropFence, Clip, REPORTED_INTERRUPTED, REPORTED_ABSENT, CLIENT_RESTARTED, CLIENT_STATE_ABSENT;
      if attempt != 1 {
        return Conflict;
      }
      if k !in rows {
        return NotFound;
      }
      var row := rows[k];
      if row.state == Unconfirmed && (status == Absent || status == ClientInterrupted) {
        if !FencedBy(Tables(), k.device, k.job) {
          return Conflict;
        }
        DeleteFence(k.device, Some(k.job), false, now);
        return Changed;
      }
      if row.state != Reconciling || status == OtherStatus {
        return Conflict;
      }
      var next := row.(acceptDeadline := None, reconReason := None, reconDeadline := None, updatedAt := now);
      if status == Active {
        if phase.None? || !Started(phase.value) {
          return Conflict;
        }
        next := next.(state := phase.value, acceptedAt := if row.acceptedAt.Some? then row.acceptedAt else Some(now));
      } else if status == Absent && Replayable(row, jobs[k.job].dispatchEnabled) {
        next := next.(state := Queued, queueReason := Some(CommandAcceptReplay), acceptReplays := row.acceptReplays + 1,
                      failureCode := None, failureDetail := None);
      } else {
        var text := if detail.Some? && detail.value != "" then detail.value
                    else if status == ClientInterrupted then REPORTED_INTERRUPTED else REPORTED_ABSENT;
        var code := if status == ClientInterrupted then CLIENT_RESTARTED else CLIENT_STATE_ABSENT;
        next := next.(state := Interrupted, terminalAt := Some(now), failureCode := Some(code),
                      failureDetail := Some(Clip(text, DETAIL_LIMIT)));
      }
      RewriteRow(k, next, now);
      reply := Changed;
    }

    method SettleResult(k: Key, attempt: int, v: Verdict, now: int) returns (reply: Reply)
      requires Valid()
      modifies this
      ensures Valid() && Tx(Tables(), reply) == JobTables.SettleResult(old(Tables()), k, attempt, v, now)
    {
      if attempt != 1 {
        return Conflict;
      }
      if k !in rows {
        return NotFound;
      }
      var row := rows[k];
      if TerminalDevice(row.state) {
        return if SameVerdict(row, v) then Kept else Refused(ConflictingTerminalResult);
      }
      if row.state == Queued || row.state == WaitingTransfer {
        return Refused(UnexpectedResultState);
      }
      rows := rows[k := Settled(row, v, now)];
      if FencedBy(Tables(), k.device, k.job) {
        fences := WithoutFence(Tables(), k.device);
      }
      PublishTo({k.job}, true, now);
      reply := Changed;
    }

    // ---- Startup ----

    method RecoverJobs(now: int) returns (touched: set<JobId>)
      modifies this`jobs
      ensures jobs.Keys == old(jobs.Keys)
      ensures forall j :: j in jobs ==> jobs[j] == RecoveredJob(old(jobs)[j], now)
      ensures touched == set j | j in old(jobs) && RecoveryUpdatesJob(old(jobs)[j], now)
    {
      touched := {};
      var left := jobs.Keys;
      while left != {}
        invariant left <= jobs.Keys && jobs.Keys == old(jobs.Keys)
        invariant forall j :: j in jobs ==>
          jobs[j] == if j in left then old(jobs)[j] else RecoveredJob(old(jobs)[j], now)
        invariant touched == set j | j in old(jobs) && j !in left && RecoveryUpdatesJob(old(jobs)[j], now)
        decreases left
      {
        var j :| j in left;
        if RecoveryUpdatesJob(jobs[j], now) {
          touched := touched + {j};
        }
        jobs := jobs[j := RecoveredJob(jobs[j], now)];
        left := left - {j};
      }
    }

    method RecoverRows(acceptTimeout: int, timeout: int, now: int) returns (touched: set<JobId>)
      modifies this`rows
      ensures rows == RecoveredRows(old(rows), acceptTimeout, timeout, now)
      ensures touched == set k | k in old(rows) && ActiveDevice(old(rows)[k].state) :: k.job
    {
      touched := {};
      var left := rows.Keys;
      while left != {}
        invariant left <= rows.Keys && rows.Keys == old(rows.Keys)
        invariant forall k :: k in rows ==>
          rows[k] == if k in left then old(rows)[k] else RecoveredRow(old(rows)[k], acceptTimeout, timeout, now)
        invariant touched == set k | k in old(rows) && k !in left && ActiveDevice(old(rows)[k].state) :: k.job
        decreases left
      {
        var k :| k in left;
        if ActiveDevice(rows[k].state) {
          touched := touched + {k.job};
        }
        rows := rows[k := RecoveredRow(rows[k], acceptTimeout, timeout, now)];
        left := left - {k};
      }
    }

    method RederiveAll(ids: set<JobId>, now: int)
      requires ids <= jobs.Keys
      modifies this`jobs
      ensures jobs.Keys == old(jobs.Keys)
      ensures forall j :: j in jobs ==>
        jobs[j] == if j in ids then Rederived(old(jobs)[j], States(rows, j), now) else old(jobs)[j]
    {
      var left := ids;
      while left != {}
        invariant left <= ids && jobs.Keys == old(jobs.Keys)
        invariant forall j :: j in jobs ==>
          jobs[j] == if j in ids && j !in left then Rederived(old(jobs)[j], States(rows, j), now) else old(jobs)[j]
        decreases left
      {
        var j :| j in left;
        RederiveJob(j, now);
        left := left - {j};
      }
    }

    method RecoverStartup(acceptTimeout: int, timeout: int, now: int)
      requires Valid()
      modifies this`jobs, this`rows
      ensures Valid() && Tables() == Recover(old(Tables()), acceptTimeout, timeout, now).db
    {
      hide RecoveredJob, Rederived, States;
      ghost var before := Tables();
      var gated := RecoverJobs(now);
      var moved := RecoverRows(acceptTimeout, timeout, now);
      forall j ensures j in gated + moved <==> RecoveryTouches(before, j, now) {
      }
      RederiveAll(gated + moved, now);
      forall j | j in before.jobs && !RecoveryTouches(before, j, now)
        ensures RecoveredJob(before.jobs[j], now) == before.jobs[j]
      {
        Untouched(before.jobs[j], now);
      }
      assert jobs == Recover(before, acceptTimeout, timeout, now).db.jobs;
    }

    /** Fails those rows of the job that still need its artifact. */
    method FailUnservable(j: JobId, now: int)
      requires j in jobs
      modifies this`rows
      ensures rows.Keys == old(rows.Keys)
      ensures forall k :: k in rows ==>
        rows[k] == if k.job == j && Unservable(old(rows)[k].state) then LostRow(old(rows)[k], jobs[j], now)
                   else old(rows)[k]
    {
      var job := jobs[j];
      rows := map k | k in rows ::
        if k.job == j && Unservable(rows[k].state) then LostRow(rows[k], job, now) else rows[k];
    }

    method LoseArtifactOf(j: JobId, now: int)
      requires j in jobs
      modifies this`jobs, this`rows
      ensures rows.Keys == old(rows.Keys) && jobs.Keys == old(jobs.Keys)
      ensures forall k :: k in rows ==>
        if k.job == j then RowAfterLoss(old(rows)[k], rows[k], old(jobs)[j], true, now) else rows[k] == old(rows)[k]
      ensures forall o :: o in jobs ==>
        if o == j then JobAfterLoss(old(jobs)[j], jobs[j], true, States(rows, j), now) else jobs[o] == old(jobs)[o]
    {
      if jobs[j].state == Ready {
        jobs := jobs[j := LostJob(jobs[j], now)];
      } else {
        FailUnservable(j, now);
        IncrementRevision(j, now);
        RederiveJob(j, now);
      }
    }

    method ReconcileMissingArtifacts(absent: set<string>, now: int)
      requires Valid()
      modifies this`jobs, this`rows
      ensures Valid() && Tables() == MissingArtifacts(old(Tables()), absent, now).db
    {
      hide Rederived, States, ArtifactLost, MissingArtifacts, Progress, Unservable;
      ghost var before, after := Tables(), MissingArtifacts(Tables(), absent, now).db;
      MissingArtifactsGives(before, absent, now);
      var missing := set j | j in jobs && ArtifactLost(jobs[j], absent);
      ProgressStarts(before, after, absent, missing, now);
      while missing != {}
        invariant missing <= jobs.Keys && jobs.Keys == before.jobs.Keys
        invariant Progress(before, after, Tables(), missing)
        invariant forall j :: j in missing ==> ArtifactLost(before.jobs[j], absent)
        decreases missing
      {
        var j :| j in missing;
        ghost var mid := Tables();
        LoseArtifactOf(j, now);
        ProgressGoesOn(before, after, absent, mid, Tables(), missing, j, now);
        missing := missing - {j};
      }
      ProgressEnds(before, after, Tables());
    }
  }

  /** The jobs in `missing` and their rows are still to be handled. */
  ghost predicate Progress(before: Db, after: Db, db: Db, missing: set<JobId>) {
    && db.jobs.Keys == before.jobs.Keys == after.jobs.Keys && db.rows.Keys == before.rows.Keys == after.rows.Keys
    && db.fences == after.fences && db.nextSeq == after.nextSeq
    && (forall j :: j in db.jobs ==> db.jobs[j] == if j in missing then before.jobs[j] else after.jobs[j])
    && (forall k :: k in db.rows ==> db.rows[k] == if k.job in missing then before.rows[k] else after.rows[k])
  }

  predicate RowAfterLoss(r: Row, s: Row, job: Job, lost: bool, now: int) {
    s == if lost && job.state != Ready && Unservable(r.state) then LostRow(r, job, now) else r
  }

  predicate JobAfterLoss(p: Job, q: Job, lost: bool, states: set<DeviceState>, now: int) {
    q == if !lost then p else if p.state == Ready then LostJob(p, now) else Rederived(Bumped(p, now), states, now)
  }

  ghost predicate AfterLoss(db: Db, after: Db, absent: set<string>, now: int) {
    && after.rows.Keys == db.rows.Keys && after.jobs.Keys == db.jobs.Keys
    && after.fences == db.fences && after.nextSeq == db.nextSeq
    && (forall k :: k in db.rows ==>
          && k.job in db.jobs
          && RowAfterLoss(db.rows[k], after.rows[k], db.jobs[k.job], ArtifactLost(db.jobs[k.job], absent), now))
    && (forall j :: j in db.jobs ==>
          JobAfterLoss(db.jobs[j], after.jobs[j], ArtifactLost(db.jobs[j], absent), States(after.rows, j), now))
  }

  lemma MissingArtifactsGives(db: Db, absent: set<string>, now: int)
    requires forall k :: k in db.rows ==> k.job in db.jobs
    ensures AfterLoss(db, MissingArtifacts(db, absent, now).db, absent, now)
  {
    hide LostRow, LostJob, Rederived, Bumped, States, Unservable, ArtifactLost;
  }

  lemma ProgressStarts(before: Db, after: Db, absent: set<string>, missing: set<JobId>, now: int)
    requires missing == set j | j in before.jobs && ArtifactLost(before.jobs[j], absent)
    requires AfterLoss(before, after, absent, now)
    ensures Progress(before, after, before, missing)
  {
    hide LostRow, LostJob, Rederived, Bumped, States, Unservable, ArtifactLost;
  }

  /** Losing the artifact of `j` turned `mid` into `db`. */
  ghost predicate LostOne(mid: Db, db: Db, j: JobId, now: int)
    requires j in mid.jobs
  {
    && db.fences == mid.fences && db.nextSeq == mid.nextSeq
    && db.rows.Keys == mid.rows.Keys && db.jobs.Keys == mid.jobs.Keys
    && (forall k :: k in mid.rows ==>
          if k.job == j then RowAfterLoss(mid.rows[k], db.rows[k], mid.jobs[j], true, now)
          else db.rows[k] == mid.rows[k])
    && (forall o :: o in mid.jobs ==>
          if o == j then JobAfterLoss(mid.jobs[j], db.jobs[j], true, States(db.rows, j), now)
          else db.jobs[o] == mid.jobs[o])
  }

  lemma LostRowsAreAfter(before: Db, after: Db, absent: set<string>, mid: Db, db: Db, missing: set<JobId>, j: JobId,
                         now: int)
    requires AfterLoss(before, after, absent, now) && Progress(before, after, mid, missing)
    requires j in missing && j in mid.jobs && ArtifactLost(before.jobs[j], absent) && LostOne(mid, db, j, now)
    ensures forall k :: k in db.rows && k.job == j ==> k in after.rows && db.rows[k] == after.rows[k]
  {
    hide LostRow, States, Unservable, ArtifactLost, JobAfterLoss;
  }

  lemma ProgressGoesOn(before: Db, after: Db, absent: set<string>, mid: Db, db: Db, missing: set<JobId>, j: JobId,
                       now: int)
    requires AfterLoss(before, after, absent, now) && Progress(before, after, mid, missing)
    requires j in missing && j in mid.jobs && ArtifactLost(before.jobs[j], absent) && LostOne(mid, db, j, now)
    ensures Progress(before, after, db, missing - {j})
  {
    hide LostRow, LostJob, Rederived, Bumped, States, Unservable, ArtifactLost, RowAfterLoss;
    LostRowsAreAfter(before, after, absent, mid, db, missing, j, now);
    SameStates(db.rows, after.rows, j);
  }

  lemma ProgressEnds(before: Db, after: Db, db: Db)
    requires Progress(before, after, db, {})
    ensures db == after
  {
    assert db.jobs == after.jobs && db.rows == after.rows;
  }

  lemma Untouched(job: Job, now: int)
    requires !RecoveryUpdatesJob(job, now)
    ensures RecoveredJob(job, now) == job
  {
  }

  lemma NewRowsAre(id: JobId, request: Request, start: nat, now: int)
    requires ValidRequest(request)
    ensures var added := NewRows(id, request, start, now);
      && (forall k :: k in added <==>
            (k.job == id && exists i :: 0 <= i < |request.targets| && request.targets[i].0 == k.device))
      && (forall i :: 0 <= i < |request.targets| ==>
            Key(id, request.targets[i].0) in added
            && added[Key(id, request.targets[i].0)] == NewRow(request.targets[i].1, start + i, now))
  {
    forall k ensures k in NewRows(id, request, start, now) <==>
        k.job == id && exists i :: 0 <= i < |request.targets| && request.targets[i].0 == k.device
    {
      if k.job == id && exists i :: 0 <= i < |request.targets| && request.targets[i].0 == k.device {
        var i :| 0 <= i < |request.targets| && request.targets[i].0 == k.device;
        assert k == Key(id, request.targets[i].0);
      }
    }
  }

  lemma SameStates(rows: map<Key, Row>, after: map<Key, Row>, j: JobId)
    requires rows.Keys == after.Keys
    requires forall k :: k in rows && k.job == j ==> rows[k] == after[k]
    ensures States(rows, j) == States(after, j)
  {
    forall s ensures s in States(rows, j) <==> s in States(after, j) {
      if s in States(rows, j) {
        var k :| k in rows && k.job == j && rows[k].state == s;
        assert after[k].state == s;
      }
      if s in States(after, j) {
        var k :| k in after && k.job == j && after[k].state == s;
        assert rows[k].state == s;
      }
    }
  }
}
