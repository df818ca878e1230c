/** What holds in every run of the Push/Sync server. */
module JobTheorems {
  import opened PushJobs
  import opened JobTables
  import opened JobInvariants
  import opened JobRuns

  // ---- Rows ----

  lemma {:induction false} NoRestart(ws: seq<World>, steps: seq<Step>, i: nat, k: nat, key: Key)
    requires Run(ws, steps) && i <= k < |ws|
    requires key in ws[i].db.rows && !MayRestart(ws[i].db.rows[key])
    ensures key in ws[k].db.rows && !MayRestart(ws[k].db.rows[key])
    decreases k
  {
    hide Run, RunInv, JobsEvolve, FencesEvolve, Claimable;
    if i < k {
      NoRestart(ws, steps, i, k - 1, key);
      RunLength(ws, steps);
      RunsKeepInv(ws, steps, k - 1);
    }
  }

  lemma RunLength(ws: seq<World>, steps: seq<Step>)
    requires Run(ws, steps)
    ensures |ws| == |steps| + 1
  {
  }

  /** At most once: work the client has begun is never queued, prepared or sent again. */
  lemma AtMostOnce(ws: seq<World>, steps: seq<Step>, i: nat, k: nat, key: Key)
    requires Run(ws, steps) && i <= k < |ws|
    requires key in ws[i].db.rows && Started(ws[i].db.rows[key].state)
    ensures key in ws[k].db.rows
    ensures ws[k].db.rows[key].state != Queued
    ensures ws[k].db.rows[key].state != WaitingTransfer
    ensures ws[k].db.rows[key].state != Dispatching
  {
    hide Run;
    NoRestart(ws, steps, i, k, key);
  }

  /** A terminal row never changes again, in any column. */
  lemma {:induction false} TerminalRowsAreFrozen(ws: seq<World>, steps: seq<Step>, i: nat, k: nat, key: Key)
    requires Run(ws, steps) && i <= k < |ws|
    requires key in ws[i].db.rows && TerminalDevice(ws[i].db.rows[key].state)
    ensures key in ws[k].db.rows && ws[k].db.rows[key] == ws[i].db.rows[key]
    decreases k
  {
    hide Run, RunInv, JobsEvolve, FencesEvolve, Claimable;
    if i < k {
      TerminalRowsAreFrozen(ws, steps, i, k - 1, key);
      RunLength(ws, steps);
      RunsKeepInv(ws, steps, k - 1);
    }
  }

  lemma {:induction false} ReplaysGrow(ws: seq<World>, steps: seq<Step>, i: nat, k: nat, key: Key)
    requires Run(ws, steps) && i <= k < |ws| && key in ws[i].db.rows
    ensures key in ws[k].db.rows && ws[i].db.rows[key].acceptReplays <= ws[k].db.rows[key].acceptReplays
    decreases k
  {
    hide Run, RunInv, JobsEvolve, FencesEvolve, Claimable;
    if i < k {
      ReplaysGrow(ws, steps, i, k - 1, key);
      RunLength(ws, steps);
      RunsKeepInv(ws, steps, k - 1);
    }
  }

  predicate ReplaysAt(a: Db, b: Db, key: Key) {
    key in a.rows && key in b.rows && a.rows[key].state == Reconciling && b.rows[key].state == Queued
  }

  /** A row is replayed from reconciliation at most once. */
  lemma ReplayedOnce(ws: seq<World>, steps: seq<Step>, i: nat, k: nat, key: Key)
    requires Run(ws, steps) && i < |steps| && k < |steps|
    requires ReplaysAt(ws[i].db, ws[i + 1].db, key) && ReplaysAt(ws[k].db, ws[k + 1].db, key)
    ensures i == k
  {
    hide Run, RunInv, JobsEvolve, FencesEvolve, Claimable;
    RunLength(ws, steps);
    RunsKeepInv(ws, steps, i);
    RunsKeepInv(ws, steps, k);
    if i < k {
      ReplaysGrow(ws, steps, i + 1, k, key);
    } else if k < i {
      ReplaysGrow(ws, steps, k + 1, i, key);
    }
  }

  // ---- Order of claims ----

  predicate ClaimsAt(step: Step, key: Key) {
    Taken(step) == Some(key)
  }

  lemma {:induction false} StaysPassed(ws: seq<World>, steps: seq<Step>, i: nat, k: nat, key: Key)
    requires Run(ws, steps) && i <= k < |ws|
    requires key in ws[i].db.rows && key.job in ws[i].db.jobs && Passed(ws[i].db, key)
    ensures key in ws[k].db.rows && key.job in ws[k].db.jobs && Passed(ws[k].db, key)
    ensures ws[k].db.rows[key].enqueueSeq == ws[i].db.rows[key].enqueueSeq
    decreases k
  {
    hide Run, RunInv, Passed, Evolves;
    if i < k {
      StaysPassed(ws, steps, i, k - 1, key);
      RunLength(ws, steps);
      RunsKeepInv(ws, steps, k - 1);
      PassedStays(ws[k - 1].db, ws[k].db, Taken(steps[k - 1]), key);
      SeqStays(ws[k - 1].db, ws[k].db, Taken(steps[k - 1]), key);
    }
  }

  lemma {:induction false} SeqsStay(ws: seq<World>, steps: seq<Step>, i: nat, k: nat, key: Key)
    requires Run(ws, steps) && i <= k < |ws|
    ensures key in ws[i].db.rows ==>
      key in ws[k].db.rows && ws[k].db.rows[key].enqueueSeq == ws[i].db.rows[key].enqueueSeq
    ensures key !in ws[i].db.rows && key in ws[k].db.rows ==> ws[i].db.nextSeq <= ws[k].db.rows[key].enqueueSeq
    ensures ws[i].db.nextSeq <= ws[k].db.nextSeq
    decreases k
  {
    hide Run, RunInv, JobsEvolve, FencesEvolve, Claimable;
    if i < k {
      SeqsStay(ws, steps, i, k - 1, key);
      RunLength(ws, steps);
      RunsKeepInv(ws, steps, k - 1);
    }
  }

  /** Claims on one device come in enqueue order, through requeues, pauses and restarts. */
  lemma ClaimsInOrder(ws: seq<World>, steps: seq<Step>, i: nat, k: nat, first: Key, later: Key)
    requires Run(ws, steps) && i < k < |steps|
    requires ClaimsAt(steps[i], first) && ClaimsAt(steps[k], later) && first.device == later.device
    ensures first in ws[i].db.rows && later in ws[k].db.rows
    ensures ws[i].db.rows[first].enqueueSeq <= ws[k].db.rows[later].enqueueSeq
  {
    hide Run, RowsStep, RowsAppear, JobsEvolve, FencesEvolve, FirstInLine, DeviceBusy, JobFits, SingleActive,
      ClaimedInOrder, ClaimedWereDispatched, FencedIsNewestClaim, SightedAreOver, FencesNameUnconfirmed;
    RunLength(ws, steps);
    RunsKeepInv(ws, steps, i);
    RunsKeepInv(ws, steps, k);
    SeqsStay(ws, steps, i, k, later);
    if ws[k].db.rows[later].enqueueSeq < ws[i].db.rows[first].enqueueSeq {
      ClaimPassesOlder(ws[i].db, first, later);
      StaysPassed(ws, steps, i, k, later);
    }
  }

  // ---- Fences ----

  /** A fence that names a job stands for an unconfirmed row of a device with nothing active. */
  lemma FencedRowsAreUnconfirmed(ws: seq<World>, steps: seq<Step>, i: nat, d: DeviceId)
    requires Run(ws, steps) && i < |ws| && d in ws[i].db.fences && ws[i].db.fences[d].JobFence?
    ensures var named := Key(ws[i].db.fences[d].job, d);
      named in ws[i].db.rows && ws[i].db.rows[named].state == Unconfirmed
    ensures forall k :: k in ws[i].db.rows && k.device == d ==> !ActiveDevice(ws[i].db.rows[k].state)
  {
    hide Run, JobsFit, SingleActive, SeqsDiffer;
    RunsKeepInv(ws, steps, i);
  }

  /** The fence DELETE inside `settle_result` never removes anything. */
  lemma SettleClearsNoFence(ws: seq<World>, steps: seq<Step>, i: nat, key: Key, attempt: int, v: Verdict, now: int)
    requires Run(ws, steps) && i < |ws|
    ensures SettleResult(ws[i].db, key, attempt, v, now).db.fences == ws[i].db.fences
  {
    hide Run, JobsFit, SingleActive, Rederived, States;
    RunsKeepInv(ws, steps, i);
  }

  /** The evidence that ends the fence of `d`: a new process of a job-v1 client, or word from the
      client that the very execution the fence stands for is over. */
  predicate Clears(db: Db, step: Step, d: DeviceId) {
    d in db.fences &&
    match step
    case ReplaceProcess(device, process, jobV1, _) =>
      device == d && jobV1 && process.Some? && db.fences[d].process != process
    case ClearFence(k, attempt, _) => k.device == d && attempt == 1 && FencedBy(db, d, k.job)
    case ClearOpaque(k, _) => k.device == d && OpaqueMatches(db, k)
    case LateResult(k, attempt, _) => k.device == d && attempt == 1 && FencedBy(db, d, k.job)
    case Report(k, attempt, status, _, _, _) =>
      k.device == d && attempt == 1 && FencedBy(db, d, k.job) && (status == Absent || status == ClientInterrupted)
    case _ => false
  }

  predicate TouchesFences(step: Step) {
    || step.ReplaceProcess? || step.ClearFence? || step.ClearOpaque? || step.LateResult? || step.Report?
    || step.TimeOutReconcile? || step.FenceOpaque? || step.Settle?
  }

  lemma OtherStepsKeepFences(w: World, step: Step)
    requires Allowed(w, step) && !TouchesFences(step)
    ensures Next(w, step).db.fences == w.db.fences
  {
    hide States, Rederived, FirstInLine, DeviceBusy, NewRows, RecoveredRows, SalvagedRows, Written, VisibleJobs,
      Derive, Claimable, JobTransitionValid, RecoveryTouches, ArtifactLost, SeesOther, CallerMakes;
  }

  /** A step removes a fence exactly when it carries that evidence. */
  lemma FenceEndsExactlyOn(w: World, step: Step, d: DeviceId)
    requires Inv(w.db) && Allowed(w, step) && d in w.db.fences
    ensures d !in Next(w, step).db.fences <==> Clears(w.db, step, d)
  {
    hide States, Rederived, JobsFit, SingleActive, VisibleJobs, SeqsDiffer, ReconcilingHasDeadline, Settled,
      Replayable;
    if !TouchesFences(step) {
      hide Effect, Allowed;
      OtherStepsKeepFences(w, step);
    }
  }

  /** Between a moment with the fence and a later one without it lies the step that cleared it. */
  lemma {:induction false} FencedUntilEvidence(ws: seq<World>, steps: seq<Step>, i: nat, k: nat, d: DeviceId)
    returns (m: nat)
    requires Run(ws, steps) && i <= k < |ws| && d in ws[i].db.fences && d !in ws[k].db.fences
    ensures i <= m < k && d in ws[m].db.fences && Clears(ws[m].db, steps[m], d) && d !in ws[m + 1].db.fences
    decreases k
  {
    hide Effect, RunInv, Clears;
    if d in ws[k - 1].db.fences {
      m := k - 1;
      RunsKeepInv(ws, steps, m);
      RunInvHasInv(ws[m]);
      FenceEndsExactlyOn(ws[m], steps[m], d);
    } else {
      m := FencedUntilEvidence(ws, steps, i, k - 1, d);
    }
  }

  lemma RunInvHasInv(w: World)
    requires RunInv(w)
    ensures Inv(w.db)
  {
  }

  /** Once a device is fenced, nothing of it is claimed until evidence has cleared the fence. */
  lemma FencedDeviceClaimsNothing(ws: seq<World>, steps: seq<Step>, i: nat, k: nat, key: Key)
    requires Run(ws, steps) && i <= k < |steps|
    requires key.device in ws[i].db.fences && ClaimsAt(steps[k], key)
    ensures exists m :: i <= m < k && key.device in ws[m].db.fences && Clears(ws[m].db, steps[m], key.device)
                        && key.device !in ws[m + 1].db.fences
  {
    hide Effect, RunInv, FirstInLine, DeviceBusy, Clears;
    assert key.device !in ws[k].db.fences;
    var m := FencedUntilEvidence(ws, steps, i, k, key.device);
  }

  /** No stranded reconciliation: at its deadline a reconciling row becomes unconfirmed and its
      device fenced in one commit; any other deadline value changes nothing. */
  lemma ReconciliationEnds(ws: seq<World>, steps: seq<Step>, i: nat, key: Key, process: Option<string>, detail: string,
                           now: int)
    requires Run(ws, steps) && i < |ws| && key in ws[i].db.rows && ws[i].db.rows[key].state == Reconciling
    ensures var db := ws[i].db; var due := db.rows[key].reconDeadline;
      && due.Some?
      && (now >= due.value ==>
            var tx := MarkUnconfirmed(db, key, process, detail, due, now);
            && tx.reply == Changed && key in tx.db.rows && tx.db.rows[key].state == Unconfirmed
            && FencedBy(tx.db, key.device, key.job) && !DeviceBusy(tx.db, key.device))
      && (forall other :: Some(other) != due ==>
            MarkUnconfirmed(db, key, process, detail, Some(other), now) == Tx(db, Conflict))
  {
    hide Run, JobsFit, Rederived, States, Newest, Evolves;
    RunsKeepInv(ws, steps, i);
  }

  // ---- Jobs ----

  /** Every change of a job's state, validated or written by plain SQL, is in the table. */
  lemma JobStatesFollowTable(ws: seq<World>, steps: seq<Step>, i: nat, j: JobId)
    requires Run(ws, steps) && i < |steps| && j in ws[i].db.jobs
    ensures j in ws[i + 1].db.jobs && JobTransitionValid(ws[i].db.jobs[j].state, ws[i + 1].db.jobs[j].state)
  {
    hide Run, RunInv, RowsStep, RowsAppear, FencesEvolve, Claimable;
    RunLength(ws, steps);
    RunsKeepInv(ws, steps, i);
  }

  lemma {:induction false} TerminalJobsStay(ws: seq<World>, steps: seq<Step>, i: nat, k: nat, j: JobId)
    requires Run(ws, steps) && i <= k < |ws|
    requires j in ws[i].db.jobs && TerminalJob(ws[i].db.jobs[j].state)
    ensures j in ws[k].db.jobs && ws[k].db.jobs[j].state == ws[i].db.jobs[j].state
    decreases k
  {
    hide Run;
    if i < k {
      TerminalJobsStay(ws, steps, i, k - 1, j);
      RunLength(ws, steps);
      JobStatesFollowTable(ws, steps, k - 1, j);
    }
  }

  ghost predicate AllAgree(db: Db) {
    forall j :: j in db.jobs ==> Agrees(db.jobs[j], States(db.rows, j))
  }

  /** An admin enables a ready job none of whose rows is still queued. */
  predicate EnablesWithoutWork(w: World, step: Step) {
    && step.Enable? && step.job in w.db.jobs && !w.db.jobs[step.job].dispatchEnabled
    && EnabledWithoutWork(w.db.jobs[step.job], States(w.db.rows, step.job))
  }

  lemma StepKeepsAgreement(w: World, step: Step)
    requires RunInv(w) && Allowed(w, step) && AllAgree(w.db)
    ensures AllAgree(Next(w, step).db) <==> !EnablesWithoutWork(w, step)
  {
    hide Effect, RunInv, RowsStep, RowsAppear, FencesEvolve, Claimable, States, JobFits, Derive;
    NextKeepsRunInv(w, step);
    RunInvHasInv(w);
    var v := Next(w, step);
    if EnablesWithoutWork(w, step) {
      EnablingBreaks(w, step);
    } else {
      forall j | j in v.db.jobs ensures Agrees(v.db.jobs[j], States(v.db.rows, j)) {
        if j in w.db.jobs && w.db.jobs[j].state == Ready && v.db.jobs[j].state == Running {
          OnlyEnableRuns(w, step, j);
        }
      }
    }
  }

  lemma EnabledJobDisagrees(job: Job, enabled: Job, states: set<DeviceState>)
    requires JobFits(job, states) && EnabledWithoutWork(job, states)
    requires enabled.state == Running && Dispatched(enabled)
    ensures !Agrees(enabled, states)
  {
    assert states <= {Failed};
  }

  lemma EnablingBreaks(w: World, step: Step)
    requires JobsFit(w.db) && Allowed(w, step) && EnablesWithoutWork(w, step)
    ensures step.job in Next(w, step).db.jobs
    ensures !Agrees(Next(w, step).db.jobs[step.job], States(Next(w, step).db.rows, step.job))
  {
    hide States, Agrees, Derive;
    assert JobFits(w.db.jobs[step.job], States(w.db.rows, step.job));
    EnabledJobDisagrees(w.db.jobs[step.job], Next(w, step).db.jobs[step.job], States(w.db.rows, step.job));
  }

  ghost predicate ReadyStays(a: Db, b: Db) {
    forall j :: j in a.jobs && a.jobs[j].state == Ready ==> j in b.jobs && b.jobs[j].state == Ready
  }

  lemma CommitsKeepReady(db: Db)
    ensures ReadyStays(db, db)
    ensures forall rows, fences, ids, rederive, now :: ReadyStays(db, Commit(db, rows, fences, ids, rederive, now))
  {
    hide States, Derive;
  }

  predicate AtGate(step: Step) {
    || step.Create? || step.Upload? || step.Expire? || step.Package? || step.Publish? || step.FailUpload?
    || step.Enable? || step.Restart? || step.LoseArtifacts?
  }

  lemma DeviceStepsKeepReady(w: World, step: Step)
    requires Allowed(w, step) && !AtGate(step)
    ensures ReadyStays(w.db, Next(w, step).db)
  {
    hide Commit, ReadyStays, Rederived, States, VisibleJobs, Written, FirstInLine, DeviceBusy, SeesOther, CallerMakes,
      Clip, Settled, SameVerdict, Replayable, Upserted, WithoutFence, UnconfirmedRows, OpaqueMatches, FencedBy,
      DeviceTransitionValid;
    CommitsKeepReady(w.db);
  }

  lemma RecoveryRunsNothing(db: Db, acceptTimeout: int, timeout: int, now: int, absent: set<string>, j: JobId)
    requires j in db.jobs && db.jobs[j].state == Ready
    ensures Recover(db, acceptTimeout, timeout, now).db.jobs[j].state == Ready
    ensures MissingArtifacts(db, absent, now).db.jobs[j].state != Running
  {
    hide States, Derive, RecoveredRows, SalvagedRows, RecoveryTouches, LossDetail;
  }

  lemma UploadRunsNothing(w: World, step: Step, j: JobId)
    requires Allowed(w, step) && j in w.db.jobs && w.db.jobs[j].state == Ready
    requires step.Create? || step.Upload? || step.Expire? || step.Package? || step.Publish? || step.FailUpload?
    ensures j in Next(w, step).db.jobs && Next(w, step).db.jobs[j].state != Running
  {
    hide NewRows, NewRow, UPLOAD_NOT_STARTED, UPLOAD_NOT_STARTED_DETAIL, JobEdge;
  }

  lemma OnlyEnableRuns(w: World, step: Step, j: JobId)
    requires Allowed(w, step) && j in w.db.jobs && w.db.jobs[j].state == Ready
    requires j in Next(w, step).db.jobs && Next(w, step).db.jobs[j].state == Running
    ensures step.Enable? && step.job == j && !w.db.jobs[j].dispatchEnabled
  {
    if !AtGate(step) {
      hide Effect, Allowed;
      DeviceStepsKeepReady(w, step);
    } else if step.Restart? {
      RecoveryRunsNothing(w.db, step.acceptTimeout, step.reconcileTimeout, step.now, {}, j);
    } else if step.LoseArtifacts? {
      RecoveryRunsNothing(w.db, 0, 0, step.now, step.absent, j);
    } else if !step.Enable? {
      hide Effect, Allowed;
      UploadRunsNothing(w, step, j);
    }
  }

  /** Dispatched jobs agree with their rows throughout a run exactly when the run never enables
      a ready job whose rows have all failed already. */
  lemma {:induction false} JobsAgreeExactlyWhen(ws: seq<World>, steps: seq<Step>)
    requires Run(ws, steps)
    ensures (forall i :: 0 <= i < |ws| ==> AllAgree(ws[i].db))
       <==> (forall i :: 0 <= i < |steps| ==> !EnablesWithoutWork(ws[i], steps[i]))
  {
    hide AllAgree, EnablesWithoutWork, RunInv, Effect;
    if forall i :: 0 <= i < |steps| ==> !EnablesWithoutWork(ws[i], steps[i]) {
      assert AllAgree(ws[0].db) by { StartAgrees(); }
      for i := 0 to |steps|
        invariant forall m :: 0 <= m <= i ==> AllAgree(ws[m].db)
      {
        RunsKeepInv(ws, steps, i);
        StepKeepsAgreement(ws[i], steps[i]);
      }
    } else {
      var i :| 0 <= i < |steps| && EnablesWithoutWork(ws[i], steps[i]);
      if AllAgree(ws[i].db) {
        RunsKeepInv(ws, steps, i);
        StepKeepsAgreement(ws[i], steps[i]);
        assert !AllAgree(ws[i + 1].db);
      }
    }
  }

  /** The tables hold the one job of `k` with the one device of `k`. */
  predicate OneJob(w: World, k: Key, job: JobState, row: DeviceState) {
    && w.db.jobs.Keys == {k.job} && w.db.jobs[k.job].state == job
    && w.db.jobs[k.job].createExpiresAt == 10 && !w.db.jobs[k.job].dispatchEnabled
    && w.db.rows.Keys == {k} && w.db.rows[k].state == row
  }

  lemma OneRow(k: Key, request: Request)
    requires request.targets == [(k.device, JobV1)]
    ensures NewRows(k.job, request, 1, 0).Keys == {k}
    ensures NewRows(k.job, request, 1, 0)[k].state == Queued
  {
    hide NewRows;
    forall o ensures o in NewRows(k.job, request, 1, 0) <==> o == k {
      NewRowsAppear(k.job, request, 1, 0, o);
    }
    NewRowsAppear(k.job, request, 1, 0, k);
  }

  lemma OneJobCreated(k: Key, request: Request)
    requires request.targets == [(k.device, JobV1)]
    ensures Allowed(START, Create(request, k.job, 10, 0))
    ensures OneJob(Next(START, Create(request, k.job, 10, 0)), k, Created, Queued)
  {
    OneRow(k, request);
    hide NewRows, NewRow;
    var rows := NewRows(k.job, request, 1, 0);
    assert map[] + rows == rows;
  }

  lemma OneJobUploads(w: World, k: Key, artifact: string)
    ensures OneJob(w, k, Created, Queued) ==> OneJob(Next(w, Upload(k.job, 1)), k, Uploading, Queued)
    ensures OneJob(w, k, Uploading, Queued) ==>
      OneJob(Next(w, Package(k.job, Counts(1, 1, 0), 2)), k, Packaging, Queued)
    ensures OneJob(w, k, Packaging, Queued) ==> OneJob(Next(w, Publish(k.job, artifact, 3)), k, Ready, Queued)
  {
    hide TransitionDevice, Claim, Recover, MissingArtifacts, CreateJob, ReconcileReport;
  }

  lemma MismatchFails(db: Db, k: Key)
    requires k in db.rows && k.job in db.jobs && db.rows[k].state == Queued && db.jobs[k.job].state == Ready
    ensures var after := TransitionDevice(db, k, ArtifactMismatch(Queued), 4).db;
      && after.jobs.Keys == db.jobs.Keys && after.jobs[k.job] == Bumped(db.jobs[k.job], 4)
      && after.rows.Keys == db.rows.Keys && after.rows[k].state == Failed
  {
    hide States, Derive, ARTIFACT_MISMATCH, ARTIFACT_MISMATCH_DETAIL, Clip;
  }

  lemma OneJobMismatch(w: World, k: Key)
    requires OneJob(w, k, Ready, Queued)
    ensures OneJob(Next(w, Transition(k, ArtifactMismatch(Queued), 4)), k, Ready, Failed)
  {
    hide TransitionDevice;
    MismatchFails(w.db, k);
  }

  lemma Extend(ws: seq<World>, steps: seq<Step>, step: Step) returns (longer: seq<World>, more: seq<Step>)
    requires Run(ws, steps) && Allowed(ws[|steps|], step)
    ensures Run(longer, more) && more == steps + [step] && longer == ws + [Next(ws[|steps|], step)]
  {
    hide Effect;
    longer, more := ws + [Next(ws[|steps|], step)], steps + [step];
  }

  /** Agreement does fail, for any identifiers: a job's only device is failed for its artifact at
      REGISTER before the job is enabled, and the job then runs with nothing left to do. */
  lemma AgreementCanFail(k: Key, request: Request, artifact: string) returns (ws: seq<World>, steps: seq<Step>)
    requires request.targets == [(k.device, JobV1)]
    ensures Run(ws, steps) && |steps| > 0 && steps[|steps| - 1] == Enable(k.job, 5) && !AllAgree(ws[|steps|].db)
  {
    hide Run, Effect, AllAgree, Next, OneJob, Allowed;
    ws, steps := [START], [];
    EmptyRun();
    OneJobCreated(k, request);
    ws, steps := Extend(ws, steps, Create(request, k.job, 10, 0));
    OneJobUploads(ws[1], k, artifact);
    AllowsUpload(ws[1], k, artifact);
    ws, steps := Extend(ws, steps, Upload(k.job, 1));
    OneJobUploads(ws[2], k, artifact);
    AllowsUpload(ws[2], k, artifact);
    ws, steps := Extend(ws, steps, Package(k.job, Counts(1, 1, 0), 2));
    OneJobUploads(ws[3], k, artifact);
    AllowsUpload(ws[3], k, artifact);
    ws, steps := Extend(ws, steps, Publish(k.job, artifact, 3));
    OneJobMismatch(ws[4], k);
    AllowsUpload(ws[4], k, artifact);
    ws, steps := Extend(ws, steps, Transition(k, ArtifactMismatch(Queued), 4));
    AllowsUpload(ws[5], k, artifact);
    OneJobIdle(ws[5], k);
    ws, steps := Extend(ws, steps, Enable(k.job, 5));
    JobsAgreeAtBreak(ws, steps);
  }

  lemma EmptyRun()
    ensures Run([START], [])
  {
  }

  lemma AllowsUpload(w: World, k: Key, artifact: string)
    ensures Allowed(w, Upload(k.job, 1)) && Allowed(w, Package(k.job, Counts(1, 1, 0), 2))
    ensures Allowed(w, Publish(k.job, artifact, 3))
    ensures Allowed(w, Transition(k, ArtifactMismatch(Queued), 4)) && Allowed(w, Enable(k.job, 5))
  {
  }

  lemma OneJobIdle(w: World, k: Key)
    requires OneJob(w, k, Ready, Failed)
    ensures EnablesWithoutWork(w, Enable(k.job, 5))
  {
  }

  lemma JobsAgreeAtBreak(ws: seq<World>, steps: seq<Step>)
    requires Run(ws, steps) && |steps| > 0 && EnablesWithoutWork(ws[|steps| - 1], steps[|steps| - 1])
    ensures !AllAgree(ws[|steps|].db)
  {
    hide Effect, EnablesWithoutWork, RunInv;
    RunsKeepInv(ws, steps, |steps| - 1);
    RunInvHasInv(ws[|steps| - 1]);
    EnablingBreaks(ws[|steps| - 1], steps[|steps| - 1]);
  }

  lemma StartAgrees()
    ensures AllAgree(START.db)
  {
  }

  // ---- Revisions ----

  /** Two moments at which a job has the same revision show the same job and the same rows. */
  ghost predicate SameContent(a: Db, b: Db, j: JobId)
    requires j in a.jobs && j in b.jobs
  {
    && a.jobs[j] == b.jobs[j]
    && (forall k :: k in a.rows && k.job == j ==> k in b.rows && b.rows[k] == a.rows[k])
    && (forall k :: k in b.rows && k.job == j ==> k in a.rows)
  }

  /** Revisions never go back, and a step that changes a job or one of its rows raises it. */
  lemma {:induction false} RevisionsIdentifyContent(ws: seq<World>, steps: seq<Step>, i: nat, k: nat, j: JobId)
    requires Run(ws, steps) && i <= k < |ws| && j in ws[i].db.jobs
    ensures j in ws[k].db.jobs && ws[i].db.jobs[j].revision <= ws[k].db.jobs[j].revision
    ensures ws[i].db.jobs[j].revision == ws[k].db.jobs[j].revision ==> SameContent(ws[i].db, ws[k].db, j)
    decreases k
  {
    hide Run, RunInv, RowStep, FencesEvolve, Claimable, JobFits, Agrees, States;
    if i < k {
      RevisionsIdentifyContent(ws, steps, i, k - 1, j);
      RunLength(ws, steps);
      RunsKeepInv(ws, steps, k - 1);
    }
  }

  // ---- Single active assignment ----

  /** The claim guard alone keeps one active row per device: the unique index never objects. */
  lemma ClaimNeedsNoIndex(ws: seq<World>, steps: seq<Step>, i: nat, online: set<DeviceId>, choice: Option<Key>,
                          now: int)
    requires Run(ws, steps) && i < |ws| && ClaimChoice(ws[i].db, online, choice)
    ensures SingleActive(ws[i].db)
    ensures choice.Some? ==> choice.value in ws[i].db.rows
    ensures SingleActive(Claim(ws[i].db, choice, now).db)
  {
    hide Run, JobsFit, Rederived, States, FirstInLine, RowsStep, JobsEvolve, FencesEvolve, RowsAppear;
    RunsKeepInv(ws, steps, i);
    NextKeepsRunInv(ws[i], ClaimNext(online, choice, now));
  }

  // ---- Results ----

  /** After a result settled a row, every copy of it is accepted and changes nothing, and every
      other result is refused and changes nothing, at any later moment. */
  lemma SettledOnce(ws: seq<World>, steps: seq<Step>, i: nat, k: nat, v: Verdict, other: Verdict, now: int)
    requires Run(ws, steps) && i < k < |ws| && steps[i].Settle? && steps[i].verdict == v
    requires Effect(ws[i], steps[i]).reply == Changed
    ensures SettleResult(ws[k].db, steps[i].key, 1, other, now)
         == Tx(ws[k].db, if other == v then Kept else Refused(ConflictingTerminalResult))
  {
    var key := steps[i].key;
    assert ws[i + 1].db.rows[key] == Settled(ws[i].db.rows[key], v, steps[i].now) by {
      hide Rederived, States;
    }
    hide Run, Effect;
    TerminalRowsAreFrozen(ws, steps, i + 1, k, key);
  }
}
