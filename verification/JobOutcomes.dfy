/** What each transaction of the server achieves, told in the columns of the tables: when it acts,
    what it leaves alone, and what follows for rows that wait, run or are in doubt. */
module JobOutcomes {
  import opened PushJobs
  import opened JobTables
  import opened JobInvariants
  import opened JobRuns
  import opened JobTheorems
  import opened JobUploads

  /** Nothing moved but row `k` and its job, which has a new revision. */
  ghost predicate OnlyRow(a: Db, b: Db, k: Key) {
    && b.nextSeq == a.nextSeq && b.rows.Keys == a.rows.Keys && b.jobs.Keys == a.jobs.Keys && k in b.rows
    && (forall o :: o in a.rows && o != k ==> b.rows[o] == a.rows[o])
    && (forall j :: j in a.jobs && j != k.job ==> b.jobs[j] == a.jobs[j])
    && (k.job in a.jobs ==> b.jobs[k.job].revision == a.jobs[k.job].revision + 1)
  }

  lemma CommitMovesOneRow(db: Db, k: Key, row: Row, fences: map<DeviceId, Fence>, now: int)
    requires k in db.rows
    ensures var after := Commit(db, db.rows[k := row], fences, {k.job}, true, now);
      OnlyRow(db, after, k) && after.rows[k] == row && after.fences == fences
  {
    hide States, Derive;
  }

  lemma RewriteMovesOneRow(db: Db, k: Key, row: Row, now: int)
    requires k in db.rows
    ensures var after := Rewrite(db, k, row, now);
      OnlyRow(db, after, k) && after.rows[k] == row && after.fences == db.fences
  {
    hide Commit, OnlyRow;
    CommitMovesOneRow(db, k, row, db.fences, now);
  }

  /** A text is cut to its limit, never changed otherwise. */
  lemma ClippedIsThePrefix(s: string, limit: nat)
    ensures Clip(s, limit) <= s && |Clip(s, limit)| == if |s| <= limit then |s| else limit
  {
  }

  // ---- Requests ----

  /** Which of a repeated request's two answers comes is decided by the body stored first, and a
      new job has one queued row per target, in the order of the request. */
  lemma RequestIsAnswered(db: Db, request: Request, id: JobId, timeout: int, now: int)
    requires UploadInv(db) && ValidRequest(request) && id !in db.jobs
    ensures var tx := CreateJob(db, request, id, timeout, now);
      && (forall j :: j in db.jobs && db.jobs[j].requestId == request.requestId ==>
            tx == Tx(db, if db.jobs[j].fingerprint == request.fingerprint then Kept else Conflict))
      && ((forall j :: j in db.jobs ==> db.jobs[j].requestId != request.requestId) ==>
            && tx.reply == Changed && tx.db.jobs.Keys == db.jobs.Keys + {id} && tx.db.fences == db.fences
            && (forall j :: j in db.jobs ==> tx.db.jobs[j] == db.jobs[j])
            && (forall k :: k in db.rows && k.job != id ==> k in tx.db.rows && tx.db.rows[k] == db.rows[k])
            && tx.db.jobs[id].state == Created && tx.db.jobs[id].createExpiresAt == now + timeout
            && tx.db.jobs[id].requestId == request.requestId && tx.db.jobs[id].fingerprint == request.fingerprint
            && tx.db.nextSeq == db.nextSeq + |request.targets|)
  {
    hide NewRows, Staged;
    forall k ensures k in NewRows(id, request, db.nextSeq, now) ==> k.job == id {
      NewRowsAppear(id, request, db.nextSeq, now, k);
    }
  }

  lemma TargetsAreQueued(db: Db, request: Request, id: JobId, timeout: int, now: int, i: nat)
    requires ValidRequest(request) && id !in db.jobs && i < |request.targets|
    requires forall j :: j in db.jobs ==> db.jobs[j].requestId != request.requestId
    ensures var after, k := CreateJob(db, request, id, timeout, now).db, Key(id, request.targets[i].0);
      && k in after.rows && after.rows[k].state == Queued && after.rows[k].enqueueSeq == db.nextSeq + i
      && after.rows[k].protocol == request.targets[i].1
  {
    NewRowsAppear(id, request, db.nextSeq, now, Key(id, request.targets[i].0));
  }

  // ---- Results ----

  /** A result settles exactly a row that has been sent out and is not over; a row never sent
      refuses it, and a finished one accepts exactly what its columns already say. */
  lemma ResultSettlesExactly(db: Db, k: Key, v: Verdict, now: int)
    requires k in db.rows
    ensures var tx, row := SettleResult(db, k, 1, v, now), db.rows[k];
      && (tx.reply == Changed <==>
            || row.state == Dispatching || row.state == Downloading || row.state == Validating || row.state == Applying
            || row.state == Reconciling)
      && (tx.reply == Changed ==>
            && OnlyRow(db, tx.db, k)
            && tx.db.rows[k].state == (if v.success then Succeeded else Failed)
            && tx.db.rows[k].counts == Some(v.counts) && tx.db.rows[k].failureCode == v.failureCode
            && tx.db.rows[k].failureDetail == Some(v.failureDetail) && tx.db.rows[k].terminalAt == Some(now)
            && tx.db.rows[k].acceptDeadline == None && tx.db.rows[k].reconDeadline == None
            && tx.db.rows[k].reconReason == None && tx.db.rows[k].queueReason == None)
      && (tx.reply != Changed ==> tx.db == db)
      && (tx.reply == Refused(UnexpectedResultState) <==> row.state == Queued || row.state == WaitingTransfer)
      && (|| tx.reply == Changed || tx.reply == Kept || tx.reply == Refused(UnexpectedResultState)
          || tx.reply == Refused(ConflictingTerminalResult))
      && (tx.reply == Kept <==>
            && row.state == (if v.success then Succeeded else Failed) && row.counts == Some(v.counts)
            && row.failureCode == v.failureCode && row.failureDetail == Some(v.failureDetail))
  {
    hide Commit, OnlyRow;
    var row := db.rows[k];
    CommitMovesOneRow(db, k, Settled(row, v, now),
                      if FencedBy(db, k.device, k.job) then WithoutFence(db, k.device) else db.fences, now);
  }

  // ---- Reports ----

  /** What the client's report makes of a row in doubt. It goes back to the queue exactly if the
      client knows nothing of it, cannot have begun it, has not been asked again before and the
      job is enabled; word of a phase resumes it, and anything else ends it. */
  lemma ReportDecides(db: Db, k: Key, status: ReportStatus, phase: Option<DeviceState>, text: Option<string>, now: int)
    requires k in db.rows && k.job in db.jobs && db.rows[k].state == Reconciling
    ensures var tx, row := ReconcileReport(db, k, 1, status, phase, text, now), db.rows[k];
      var after := if k in tx.db.rows then tx.db.rows[k] else row;
      && (tx.reply == Changed ==> OnlyRow(db, tx.db, k) && tx.db.fences == db.fences)
      && (tx.reply == Changed ==>
            after.reconReason == None && after.reconDeadline == None && after.acceptDeadline == None)
      && (tx.reply != Changed ==> tx.db == db)
      && (tx.reply == Changed <==>
            || status == Absent || status == ClientInterrupted
            || (status == Active
                && (phase == Some(Downloading) || phase == Some(Validating) || phase == Some(Applying))))
      && (status == Absent ==>
            (after.state == Queued <==>
               && row.acceptedAt == None && row.acceptReplays == 0 && db.jobs[k.job].dispatchEnabled
               && (row.reconReason == Some(CommandAcceptTimeout) || row.reconReason == Some(DisconnectBeforeAccept))))
      && (status == Absent && after.state == Queued ==>
            after.acceptReplays == 1 && after.queueReason == Some(CommandAcceptReplay) && after.failureCode == None)
      && (status == Absent && after.state != Queued ==>
            after.state == Interrupted && after.failureCode == Some("client_state_absent"))
      && (status == ClientInterrupted ==>
            after.state == Interrupted && after.failureCode == Some("client_restarted"))
      && (after.state == Interrupted ==> after.terminalAt == Some(now))
      && (status == Active && tx.reply == Changed ==>
            && after.state == phase.value
            && after.acceptedAt == (if row.acceptedAt.Some? then row.acceptedAt else Some(now)))
  {
    hide Rewrite, OnlyRow, Clip, REPORTED_INTERRUPTED, REPORTED_ABSENT;
    var tx := ReconcileReport(db, k, 1, status, phase, text, now);
    forall row ensures OnlyRow(db, Rewrite(db, k, row, now), k) && Rewrite(db, k, row, now).fences == db.fences
      ensures k in Rewrite(db, k, row, now).rows && Rewrite(db, k, row, now).rows[k] == row
    {
      RewriteMovesOneRow(db, k, row, now);
      RowIsThere(db, Rewrite(db, k, row, now), k);
    }
  }

  /** A report on any other row: word that fenced work is over ends the fence of an unconfirmed row,
      and everything else is a conflict. No row moves. */
  lemma ReportElsewhere(db: Db, k: Key, attempt: int, status: ReportStatus, phase: Option<DeviceState>,
                        text: Option<string>, now: int)
    requires k in db.rows && k.job in db.jobs && (db.rows[k].state != Reconciling || attempt != 1)
    ensures var tx := ReconcileReport(db, k, attempt, status, phase, text, now);
      && tx.db.rows == db.rows
      && (tx.reply == Changed <==>
            && attempt == 1 && db.rows[k].state == Unconfirmed && (status == Absent || status == ClientInterrupted)
            && k.device in db.fences && db.fences[k.device].JobFence? && db.fences[k.device].job == k.job)
      && (tx.reply == Changed ==> k.device !in tx.db.fences && ShownTo(db, tx.db, k.device, Some(k.job)))
      && (tx.reply != Changed ==> tx == Tx(db, Conflict))
  {
    DroppedFence(db, k.device, Some(k.job), false, now);
    hide DropFence, ShownTo, Rewrite;
  }

  /** What names no row or another attempt is an error and changes nothing. */
  lemma StrayResultsChangeNothing(db: Db, k: Key, attempt: int, v: Verdict, now: int)
    requires k !in db.rows || attempt != 1
    ensures SettleResult(db, k, attempt, v, now) == Tx(db, if attempt != 1 then Conflict else NotFound)
    ensures SettleLate(db, k, attempt, now) == Tx(db, Refused(StaleResult))
  {
  }

  /** The two targeted clearings answer whether they cleared. */
  lemma ClearingAnswers(db: Db, k: Key, attempt: int, now: int)
    ensures var tx := ClearMatching(db, k, attempt, now);
      && (tx.reply == Changed <==>
            attempt == 1 && k.device in db.fences && db.fences[k.device].JobFence? && db.fences[k.device].job == k.job)
      && (tx.reply == Changed ==>
            k.device !in tx.db.fences && tx.db.rows == db.rows && ShownTo(db, tx.db, k.device, Some(k.job)))
      && (tx.reply != Changed ==> tx == Tx(db, Kept))
    ensures var tx := ClearMatchingOpaque(db, k, now);
      && (tx.reply == Changed <==>
            && k.device in db.fences && db.fences[k.device].OpaqueFence? && db.fences[k.device].protocol == JobV1
            && db.fences[k.device].identity.KnownActive? && db.fences[k.device].identity.job == k.job)
      && (tx.reply == Changed ==>
            k.device !in tx.db.fences && tx.db.rows == db.rows && ShownTo(db, tx.db, k.device, None))
      && (tx.reply != Changed ==> tx == Tx(db, Kept))
  {
    DroppedFence(db, k.device, Some(k.job), false, now);
    DroppedFence(db, k.device, None, true, now);
    hide DropFence, ShownTo;
  }

  lemma RowIsThere(a: Db, b: Db, k: Key)
    requires OnlyRow(a, b, k)
    ensures k in b.rows
  {
  }

  // ---- Claims ----

  /** A device with nothing under way and no fence, online, whose oldest waiting work is enabled. */
  ghost predicate Eligible(db: Db, online: set<DeviceId>, k: Key) {
    && k in db.rows && k.job in db.jobs && k.device in online && k.device !in db.fences
    && db.rows[k].state == Queued
    && Dispatched(db.jobs[k.job]) && db.jobs[k.job].dispatchEnabled && !TerminalJob(db.jobs[k.job].state)
    && (forall o :: o in db.rows && o.device == k.device ==>
          && db.rows[o].state != WaitingTransfer && db.rows[o].state != Dispatching && db.rows[o].state != Downloading
          && db.rows[o].state != Validating && db.rows[o].state != Applying && db.rows[o].state != Reconciling)
    && (forall o :: o in db.rows && o.device == k.device && db.rows[o].state == Queued && o.job in db.jobs ==>
          db.rows[o].enqueueSeq < db.rows[k].enqueueSeq ==> TerminalJob(db.jobs[o.job].state))
  }

  lemma EligibleIsClaimable(db: Db, online: set<DeviceId>, k: Key)
    requires Inv(db) && k in db.rows
    ensures Eligible(db, online, k) <==> k.device in online && Claimable(db, k)
  {
    hide States, SingleActive, FencesNameUnconfirmed, SeqsDiffer, ReconcilingHasDeadline, Derive;
    if k.job in db.jobs && Dispatched(db.jobs[k.job]) && !TerminalJob(db.jobs[k.job].state) {
      assert JobFits(db.jobs[k.job], States(db.rows, k.job));
      DerivedIsRunning(States(db.rows, k.job));
    }
    if k.job in db.jobs && (db.jobs[k.job].state == Running || db.jobs[k.job].state == JobReconciling) {
      assert JobFits(db.jobs[k.job], States(db.rows, k.job));
    }
    assert DeviceBusy(db, k.device) <==>
      exists o :: o in db.rows && o.device == k.device && ActiveDevice(db.rows[o].state);
    assert FirstInLine(db, k) <==> forall o :: o in db.rows && o.device == k.device && WaitsInLine(db, o) ==>
      db.rows[k].enqueueSeq <= db.rows[o].enqueueSeq;
  }

  lemma DerivedIsRunning(states: set<DeviceState>)
    requires states != {}
    ensures TerminalJob(Derive(states)) || Derive(states) == Running || Derive(states) == JobReconciling
  {
  }

  /** The claim never passes over a device that could work: in every reachable state it takes the
      oldest eligible row of all, also of a job with another device in doubt, and takes none
      exactly if there is none. */
  lemma ClaimTakesOldestEligible(ws: seq<World>, steps: seq<Step>, i: nat, online: set<DeviceId>, choice: Option<Key>)
    requires Run(ws, steps) && i < |ws| && ClaimChoice(ws[i].db, online, choice)
    ensures choice.Some? ==> Eligible(ws[i].db, online, choice.value)
    ensures forall k :: Eligible(ws[i].db, online, k) ==>
      choice.Some? && ws[i].db.rows[choice.value].enqueueSeq <= ws[i].db.rows[k].enqueueSeq
  {
    hide Run, Inv, Eligible, Claimable;
    var db := ws[i].db;
    RunsKeepInv(ws, steps, i);
    RunInvHasInv(ws[i]);
    forall k | k in db.rows ensures Eligible(db, online, k) <==> k.device in online && Claimable(db, k) {
      EligibleIsClaimable(db, online, k);
    }
    forall k | Eligible(db, online, k) ensures k in db.rows {
      EligibleIsARow(db, online, k);
    }
    if choice.Some? {
      ClaimableIsARow(db, choice.value);
    }
  }

  lemma EligibleIsARow(db: Db, online: set<DeviceId>, k: Key)
    requires Eligible(db, online, k)
    ensures k in db.rows
  {
  }

  lemma ClaimableIsARow(db: Db, k: Key)
    requires Claimable(db, k)
    ensures k in db.rows
  {
  }

  /** A claim moves its row from the queue to the transfer and nothing else; preparing a waiting row
      sends it out with its protocol and accept deadline. */
  lemma ClaimAndPrepareMoveOn(db: Db, k: Key, protocol: Protocol, deadline: Option<int>, now: int)
    requires k in db.rows
    ensures var claimed := Claim(db, Some(k), now).db;
      && OnlyRow(db, claimed, k) && claimed.fences == db.fences
      && claimed.rows[k] == db.rows[k].(state := WaitingTransfer, queueReason := None, updatedAt := now)
    ensures var tx := PrepareDispatch(db, k, protocol, deadline, now);
      && (tx.reply == Changed <==> db.rows[k].state == WaitingTransfer) && (tx.reply != Changed ==> tx.db == db)
      && (tx.reply == Changed ==>
            && OnlyRow(db, tx.db, k) && tx.db.fences == db.fences
            && tx.db.rows[k].state == Dispatching && tx.db.rows[k].protocol == protocol
            && tx.db.rows[k].acceptDeadline == deadline && tx.db.rows[k].acceptedAt == db.rows[k].acceptedAt)
  {
    hide Rewrite, OnlyRow;
    RewriteMovesOneRow(db, k, db.rows[k].(state := WaitingTransfer, queueReason := None, updatedAt := now), now);
    var sent := db.rows[k].(state := Dispatching, protocol := protocol, acceptDeadline := deadline, updatedAt := now);
    RewriteMovesOneRow(db, k, sent, now);
    RowIsThere(db, Claim(db, Some(k), now).db, k);
    if db.rows[k].state == WaitingTransfer {
      RowIsThere(db, PrepareDispatch(db, k, protocol, deadline, now).db, k);
    }
  }

  // ---- Restart ----

  /** What a restart makes of one row: work not sent out returns to the queue, work that may be
      running is in doubt, with the short deadline if the client has not accepted it. */
  ghost predicate Restarted(r: Row, s: Row, acceptTimeout: int, timeout: int, now: int) {
    && s.enqueueSeq == r.enqueueSeq && s.acceptedAt == r.acceptedAt && s.acceptReplays == r.acceptReplays
    && match r.state
       case WaitingTransfer => s.state == Queued
       case Dispatching =>
         && s.state == Reconciling && s.reconDeadline == Some(now + acceptTimeout)
         && s.reconReason == Some(ServerRestartBeforeAccept)
       case Downloading | Validating | Applying =>
         && s.state == Reconciling && s.reconDeadline == Some(now + timeout)
         && s.reconReason == Some(ServerRestartAfterAccept)
       case Reconciling =>
         && s.state == Reconciling
         && (r.acceptedAt == None ==>
               s.reconDeadline == Some(now + acceptTimeout) && s.reconReason == Some(ServerRestartBeforeAccept))
         && (r.acceptedAt != None ==>
               s.reconDeadline == Some(now + timeout) && s.reconReason == Some(ServerRestartAfterAccept))
       case Queued => s == r
       case Succeeded => s == r
       case Failed => s == r
       case Interrupted => s == r
       case Unconfirmed => s == r
  }

  /** What a restart makes of one job: nothing is being uploaded, nothing is overdue, and nothing
      under way goes on by itself. */
  ghost predicate Paused(p: Job, q: Job, now: int) {
    && q.state != Uploading && q.state != Packaging
    && (p.state == Uploading || p.state == Packaging ==>
              q.state == JobInterrupted && q.failureCode == Some("server_restart"))
    && (p.state == Created ==> q.state == if p.createExpiresAt <= now then JobInterrupted else Created)
    && (q.state == Running || q.state == JobReconciling ==>
              !q.dispatchEnabled && q.pausedReason == Some("server_restart"))
    && (TerminalJob(p.state) || p.state == Ready ==> q == p)
  }

  lemma RowsRestart(db: Db, acceptTimeout: int, timeout: int, now: int, k: Key)
    requires k in db.rows
    ensures var rows := Recover(db, acceptTimeout, timeout, now).db.rows;
      k in rows && Restarted(db.rows[k], rows[k], acceptTimeout, timeout, now)
  {
    hide RecoveryTouches, Rederived, States, RecoveredJob;
  }

  lemma RestartedIsAtRest(r: Row, s: Row, acceptTimeout: int, timeout: int, now: int)
    requires Restarted(r, s, acceptTimeout, timeout, now)
    ensures s.state != WaitingTransfer && s.state != Dispatching && !Started(s.state)
  {
  }

  lemma RederivedOutcome(job: Job, states: set<DeviceState>, now: int)
    ensures var q := Rederived(job, states, now);
      && q == job.(state := q.state, terminalAt := q.terminalAt, updatedAt := q.updatedAt)
      && (NeverDerived(job.state) ==> q == job)
      && (q.state == job.state || TerminalJob(q.state) || q.state == Running || q.state == JobReconciling)
  {
    if states != {} {
      DerivedIsRunning(states);
    }
  }

  lemma UntouchedUnlessUnderway(db: Db, j: JobId, now: int)
    requires Inv(db) && j in db.jobs && RecoveryTouches(db, j, now)
    ensures RecoveryUpdatesJob(db.jobs[j], now)
  {
    hide JobFits, States, FencesNameUnconfirmed, SingleActive, SeqsDiffer, ReconcilingHasDeadline, RecoveryEndsJob;
    if !RecoveryUpdatesJob(db.jobs[j], now) {
      var k :| k in db.rows && k.job == j && ActiveDevice(db.rows[k].state);
      ActiveRowsJob(db, k);
    }
  }

  lemma RecoveredIsPaused(p: Job, states: set<DeviceState>, now: int)
    requires RecoveryUpdatesJob(p, now)
    ensures Paused(p, Rederived(RecoveredJob(p, now), states, now), now)
  {
    hide Rederived, UPLOAD_NOT_STARTED, UPLOAD_NOT_STARTED_DETAIL, SERVER_RESTART_DETAIL;
    RederivedOutcome(RecoveredJob(p, now), states, now);
  }

  lemma JobRestarts(db: Db, acceptTimeout: int, timeout: int, now: int, j: JobId)
    requires Inv(db) && j in db.jobs
    ensures var jobs := Recover(db, acceptTimeout, timeout, now).db.jobs;
      j in jobs && Paused(db.jobs[j], jobs[j], now)
  {
    hide States, RecoveredRows, Rederived, RecoveredJob, Inv;
    if RecoveryTouches(db, j, now) {
      UntouchedUnlessUnderway(db, j, now);
      hide RecoveryTouches, RecoveryUpdatesJob, Paused;
      var rows := RecoveredRows(db.rows, acceptTimeout, timeout, now);
      RecoveredIsPaused(db.jobs[j], States(rows, j), now);
    }
  }

  ghost predicate NothingOnItsWay(db: Db) {
    forall k :: k in db.rows ==>
      db.rows[k].state != WaitingTransfer && db.rows[k].state != Dispatching && !Started(db.rows[k].state)
  }

  /** After a restart in any reachable state: no row is on its way, every row that was is queued or
      in doubt with its deadline, every upload is over and every job under way is paused. */
  lemma RestartResets(ws: seq<World>, steps: seq<Step>, i: nat)
    requires Run(ws, steps) && i < |steps| && steps[i].Restart?
    ensures ws[i + 1].db.rows.Keys == ws[i].db.rows.Keys && ws[i + 1].db.jobs.Keys == ws[i].db.jobs.Keys
    ensures ws[i + 1].db.fences == ws[i].db.fences
    ensures forall k :: k in ws[i].db.rows ==>
      Restarted(ws[i].db.rows[k], ws[i + 1].db.rows[k], steps[i].acceptTimeout, steps[i].reconcileTimeout, steps[i].now)
    ensures NothingOnItsWay(ws[i + 1].db)
    ensures forall j :: j in ws[i].db.jobs ==> Paused(ws[i].db.jobs[j], ws[i + 1].db.jobs[j], steps[i].now)
  {
    hide Restarted, Paused, Inv, RecoveredRows, RecoveryTouches, Rederived, States, RecoveredJob;
    RunsKeepInv(ws, steps, i);
    RunInvHasInv(ws[i]);
    var db, step := ws[i].db, steps[i];
    var after := Recover(db, step.acceptTimeout, step.reconcileTimeout, step.now).db;
    assert ws[i + 1].db == after;
    forall k | k in db.rows
      ensures k in after.rows && after.rows[k].state != WaitingTransfer && after.rows[k].state != Dispatching
      ensures !Started(after.rows[k].state)
      ensures Restarted(db.rows[k], after.rows[k], step.acceptTimeout, step.reconcileTimeout, step.now)
    {
      RowsRestart(db, step.acceptTimeout, step.reconcileTimeout, step.now, k);
      RestartedIsAtRest(db.rows[k], after.rows[k], step.acceptTimeout, step.reconcileTimeout, step.now);
    }
    forall j | j in db.jobs ensures j in after.jobs && Paused(db.jobs[j], after.jobs[j], step.now) {
      JobRestarts(db, step.acceptTimeout, step.reconcileTimeout, step.now, j);
    }
    RecoveredRowsKeys(db.rows, step.acceptTimeout, step.reconcileTimeout, step.now);
  }

  predicate Shut(db: Db, j: JobId) {
    j in db.jobs && db.jobs[j].dispatchEnabled ==> TerminalJob(db.jobs[j].state)
  }

  lemma UploadKeepsGateShut(w: World, step: Step, j: JobId)
    requires Allowed(w, step) && AtGate(step) && !step.Restart? && !step.LoseArtifacts?
    requires j in Next(w, step).db.jobs && Next(w, step).db.jobs[j].dispatchEnabled
    requires !(step.Enable? && step.job == j)
    ensures j in w.db.jobs && w.db.jobs[j].dispatchEnabled
  {
    hide NewRows, UPLOAD_NOT_STARTED, UPLOAD_NOT_STARTED_DETAIL, JobTransitionValid;
  }

  lemma RestartKeepsGateShut(db: Db, acceptTimeout: int, timeout: int, absent: set<string>, now: int, j: JobId)
    requires j in db.jobs && !db.jobs[j].dispatchEnabled
    ensures !Recover(db, acceptTimeout, timeout, now).db.jobs[j].dispatchEnabled
    ensures !MissingArtifacts(db, absent, now).db.jobs[j].dispatchEnabled
  {
    hide Rederived, States, RecoveredRows, SalvagedRows, RecoveryTouches, LossDetail;
    var rows, saved := RecoveredRows(db.rows, acceptTimeout, timeout, now), SalvagedRows(db, absent, now);
    RederivedOutcome(RecoveredJob(db.jobs[j], now), States(rows, j), now);
    RederivedOutcome(Bumped(db.jobs[j], now), States(saved, j), now);
  }

  lemma DeviceKeepsGates(w: World, step: Step)
    requires Allowed(w, step) && !AtGate(step)
    ensures GatesKept(w.db, Next(w, step).db) && Next(w, step).db.jobs.Keys == w.db.jobs.Keys
  {
    hide Commit, GatesKept, Rederived, States, VisibleJobs, Written, FirstInLine, DeviceBusy, SeesOther, CallerMakes,
      Clip, Settled, SameVerdict, Replayable, Upserted, WithoutFence, UnconfirmedRows, OpaqueMatches, FencedBy,
      DeviceTransitionValid;
    CommitsKeepGates(w.db);
    OnlyCreateAdds(w, step);
  }

  /** Only an admin's enabling opens a job's gate. */
  lemma OnlyEnableOpens(w: World, step: Step, j: JobId)
    requires Allowed(w, step) && j in Next(w, step).db.jobs && Next(w, step).db.jobs[j].dispatchEnabled
    requires j in w.db.jobs ==> !w.db.jobs[j].dispatchEnabled
    ensures step.Enable? && step.job == j
  {
    if !AtGate(step) {
      hide Effect, Allowed;
      DeviceKeepsGates(w, step);
    } else if step.Restart? {
      RestartKeepsGateShut(w.db, step.acceptTimeout, step.reconcileTimeout, {}, step.now, j);
    } else if step.LoseArtifacts? {
      RestartKeepsGateShut(w.db, 0, 0, step.absent, step.now, j);
    } else if !(step.Enable? && step.job == j) {
      hide Effect, Allowed;
      UploadKeepsGateShut(w, step, j);
    }
  }

  lemma {:induction false} ShutUntilEnabled(ws: seq<World>, steps: seq<Step>, i: nat, k: nat, j: JobId)
    requires Run(ws, steps) && i <= k < |ws| && Shut(ws[i].db, j)
    requires forall m :: i <= m < k ==> !(steps[m].Enable? && steps[m].job == j)
    ensures Shut(ws[k].db, j)
    decreases k
  {
    hide Effect, Allowed;
    if i < k {
      ShutUntilEnabled(ws, steps, i, k - 1, j);
      var w, step := ws[k - 1], steps[k - 1];
      if j in ws[k].db.jobs && ws[k].db.jobs[j].dispatchEnabled {
        if j in w.db.jobs && w.db.jobs[j].dispatchEnabled {
          TerminalJobsStay(ws, steps, k - 1, k, j);
        } else {
          OnlyEnableOpens(w, step, j);
        }
      }
    }
  }

  /** Nothing of a job is claimed between a restart and the moment an admin enables it again. */
  lemma NothingClaimedUntilEnabled(ws: seq<World>, steps: seq<Step>, i: nat, k: nat, key: Key)
    requires Run(ws, steps) && i < k < |steps| && steps[i].Restart? && ClaimsAt(steps[k], key)
    ensures exists m :: i < m < k && steps[m].Enable? && steps[m].job == key.job
  {
    hide Effect, FirstInLine, DeviceBusy, Restarted, Inv;
    var j := key.job;
    if forall m :: i < m < k ==> !(steps[m].Enable? && steps[m].job == j) {
      RestartResets(ws, steps, i);
      RunsKeepUploadInv(ws, steps, i + 1);
      assert Shut(ws[i + 1].db, j);
      ShutUntilEnabled(ws, steps, i + 1, k, j);
    }
  }

  // ---- The steps of one row ----

  /** In which states a caller's change acts. */
  ghost predicate ActsIn(c: Change, s: DeviceState) {
    match c
    case BackToQueue(_, _) => s == WaitingTransfer
    case SendRace(_) => s == Dispatching
    case LegacyStarted => s == Dispatching
    case CommandAccepted => s == Dispatching || s == Reconciling
    case BusyWithThis => s == Dispatching || s == Reconciling
    case BusyWithOther(_) => s == Dispatching || s == Reconciling
    case FailCurrent(from, _, _) => s in from && s != Succeeded && s != Interrupted && s != Unconfirmed
    case ArtifactMismatch(seen) => s == seen && s != Succeeded && s != Interrupted && s != Unconfirmed
    case TransferComplete => s == Downloading
    case LegacyDownloaded => s == Downloading
    case ValidationComplete => s == Validating
    case PhaseApplying => s == Validating || s == Reconciling
    case ToReconciling(seen, _, _) =>
      s == seen && (s == Dispatching || s == Downloading || s == Validating || s == Applying || s == Reconciling)
  }

  /** Where it takes the row, with the deadline and the moment it records. */
  ghost predicate Reaches(c: Change, r: Row, s: Row, now: int) {
    match c
    case BackToQueue(reason, _) => s.state == Queued && s.queueReason == Some(reason)
    case SendRace(_) => s.state == Queued && s.queueReason == Some(AwaitingDispatch) && s.acceptDeadline == None
    case LegacyStarted => s.state == Downloading && s.acceptedAt == Some(now) && s.acceptDeadline == None
    case CommandAccepted =>
      && s.state == Downloading && s.acceptedAt == Some(now) && s.acceptDeadline == None
      && s.reconReason == None && s.reconDeadline == None
    case BusyWithThis => s.state == Downloading && s.acceptedAt == Some(now) && s.acceptDeadline == None
    case BusyWithOther(_) => s.state == Queued && s.queueReason == Some(SameDeviceJob) && s.acceptDeadline == None
    case FailCurrent(_, code, _) =>
      && s.state == Failed && s.failureCode == Some(code) && s.terminalAt == Some(now)
      && s.acceptDeadline == None && s.reconDeadline == None
    case ArtifactMismatch(_) =>
      && s.state == Failed && s.failureCode == Some("artifact_identity_mismatch") && s.terminalAt == Some(now)
      && s.acceptDeadline == None && s.reconDeadline == None
    case TransferComplete => s.state == Validating && s.transferCompletedAt == Some(now) && s.acceptedAt == r.acceptedAt
    case LegacyDownloaded => s.state == Validating && s.transferCompletedAt == Some(now)
    case ValidationComplete => s.state == Validating && s.validationCompletedAt == Some(now)
    case PhaseApplying => s.state == Applying && s.applyStartedAt == Some(now) && s.reconDeadline == None
    case ToReconciling(_, reason, deadline) =>
      && s.state == Reconciling && s.reconReason == Some(reason) && s.reconDeadline == Some(deadline)
      && s.acceptDeadline == None && s.acceptedAt == r.acceptedAt
  }

  lemma ChangeReaches(row: Row, c: Change, now: int)
    ensures row.state in Expected(c) && DeviceTransitionValid(row.state, Target(c)) <==> ActsIn(c, row.state)
    ensures Reaches(c, row, Written(c, row, now).(state := Target(c), updatedAt := now), now)
  {
    hide Clip;
  }

  /** Every caller's change acts exactly in its states, takes the row where it says, and moves
      nothing else. */
  lemma TransitionsReach(db: Db, k: Key, c: Change, now: int)
    requires k in db.rows
    ensures var tx := TransitionDevice(db, k, c, now);
      && (tx.reply == Changed <==> ActsIn(c, db.rows[k].state)) && (tx.reply != Changed ==> tx == Tx(db, Conflict))
      && (tx.reply == Changed ==>
            OnlyRow(db, tx.db, k) && tx.db.fences == db.fences && Reaches(c, db.rows[k], tx.db.rows[k], now))
  {
    hide Rewrite, OnlyRow, ActsIn, Reaches, Written, Target, Expected, DeviceTransitionValid;
    var row := db.rows[k];
    var next := Written(c, row, now).(state := Target(c), updatedAt := now);
    ChangeReaches(row, c, now);
    RewriteMovesOneRow(db, k, next, now);
    RowIsThere(db, Rewrite(db, k, next, now), k);
  }

  /** A command not accepted by its very deadline is in doubt from then on; a second report of the
      same timeout is accepted and changes nothing, and any other is refused. */
  lemma AcceptTimeoutDecides(db: Db, k: Key, expected: int, deadline: int, now: int)
    requires k in db.rows
    ensures var tx, row := AcceptTimeout(db, k, expected, deadline, now), db.rows[k];
      && (tx.reply == Changed <==>
            row.state == Dispatching && row.acceptedAt == None && row.acceptDeadline == Some(expected))
      && (tx.reply == Kept <==>
            && row.state == Reconciling && row.acceptedAt == None && row.acceptDeadline == Some(expected)
            && row.reconReason == Some(CommandAcceptTimeout))
      && (tx.reply != Changed ==> tx.db == db)
      && (tx.reply == Changed ==>
            && OnlyRow(db, tx.db, k) && tx.db.fences == db.fences && tx.db.rows[k].state == Reconciling
            && tx.db.rows[k].reconReason == Some(CommandAcceptTimeout) && tx.db.rows[k].reconDeadline == Some(deadline)
            && tx.db.rows[k].acceptDeadline == Some(expected))
  {
    hide Rewrite, OnlyRow;
    var next := db.rows[k].(state := Reconciling, reconReason := Some(CommandAcceptTimeout),
                            reconDeadline := Some(deadline), updatedAt := now);
    RewriteMovesOneRow(db, k, next, now);
    RowIsThere(db, Rewrite(db, k, next, now), k);
  }

  // ---- Fences ----

  /** The jobs that show a device's fence are told: each unfinished one with a row there, and `j`;
      jobs without a row there are left alone. */
  ghost predicate ShownTo(a: Db, b: Db, d: DeviceId, j: Option<JobId>) {
    && b.jobs.Keys == a.jobs.Keys && b.rows.Keys == a.rows.Keys && b.nextSeq == a.nextSeq
    && (forall i :: i in a.jobs && HasRow(a, i, d) && !TerminalJob(a.jobs[i].state) ==>
          b.jobs[i].revision == a.jobs[i].revision + 1)
    && (j.Some? && j.value in a.jobs ==> b.jobs[j.value].revision == a.jobs[j.value].revision + 1)
    && (forall i :: i in a.jobs && !HasRow(a, i, d) && j != Some(i) ==> b.jobs[i] == a.jobs[i])
  }

  lemma VisibleIsShown(db: Db, rows: map<Key, Row>, fences: map<DeviceId, Fence>, seen: Db, d: DeviceId,
                       j: Option<JobId>,
                       rederive: bool, now: int)
    requires rows.Keys == db.rows.Keys == seen.rows.Keys && seen.jobs == db.jobs
    ensures ShownTo(db, Commit(db, rows, fences, VisibleJobs(seen, d, j), rederive, now), d, j)
  {
    hide Rederived, States, Newest;
    forall i | i in db.jobs
      ensures Rederived(Bumped(db.jobs[i], now), States(rows, i), now).revision == db.jobs[i].revision + 1
    {
      RederivedOutcome(Bumped(db.jobs[i], now), States(rows, i), now);
    }
    forall i | i in VisibleJobs(seen, d, j) && j != Some(i) ensures HasRow(db, i, d) {
    }
  }

  /** A device that reports work the server does not know is fenced for exactly that work; an
      unchanged report changes nothing. */
  lemma OpaqueFenceStands(db: Db, d: DeviceId, identity: OpaqueIdentity, protocol: Protocol, process: Option<string>,
                          reason: string, now: int)
    ensures var tx := AddOpaqueFence(db, d, identity, protocol, process, reason, now);
      && d in tx.db.fences && tx.db.fences[d].OpaqueFence? && tx.db.fences[d].identity == identity
      && tx.db.fences[d].protocol == protocol && tx.db.fences[d].process == process
      && (d in db.fences ==> tx.db.fences[d].createdAt == db.fences[d].createdAt)
      && (forall o :: o in db.fences && o != d ==> o in tx.db.fences && tx.db.fences[o] == db.fences[o])
      && (forall o :: o in tx.db.fences && o != d ==> o in db.fences)
      && tx.db.rows == db.rows && (tx.db == db || ShownTo(db, tx.db, d, None))
      && (tx.reply == Changed || (tx.reply == Kept && tx.db == db))
  {
    hide Commit, VisibleJobs, ShownTo, Clip;
    var fence := OpaqueFence(identity, protocol, process, Clip(reason, DETAIL_LIMIT), now, now);
    var fences := Upserted(db, d, fence);
    VisibleIsShown(db, db.rows, fences, db.(fences := fences), d, None, false, now);
    CommitGives(db, db.rows, fences, VisibleJobs(db.(fences := fences), d, None), false, now);
  }

  lemma CommitGives(db: Db, rows: map<Key, Row>, fences: map<DeviceId, Fence>, ids: set<JobId>, rederive: bool,
                    now: int)
    ensures var after := Commit(db, rows, fences, ids, rederive, now);
      after.rows == rows && after.fences == fences && after.nextSeq == db.nextSeq
  {
  }

  /** The end of a doubt: the row is unconfirmed for good and its device fenced in its name. */
  lemma DoubtEndsInFence(db: Db, k: Key, process: Option<string>, detail: string, due: Option<int>, now: int)
    requires k in db.rows
    ensures var tx, row := MarkUnconfirmed(db, k, process, detail, due, now), db.rows[k];
      && (tx.reply == Changed <==>
            row.state == Reconciling && (due.Some? ==> row.reconDeadline == due && due.value <= now))
      && (tx.reply != Changed ==> tx.db == db)
      && (tx.reply == Changed ==>
            && k in tx.db.rows && tx.db.rows[k].state == Unconfirmed && tx.db.rows[k].terminalAt == Some(now)
            && tx.db.rows[k].failureCode == Some("reconciliation_timeout") && tx.db.rows[k].reconDeadline == None
            && (forall o :: o in db.rows && o != k ==> o in tx.db.rows && tx.db.rows[o] == db.rows[o])
            && FencedBy(tx.db, k.device, k.job) && tx.db.fences[k.device].process == process
            && tx.db.fences[k.device].protocol == row.protocol
            && (forall d :: d in db.fences && d != k.device ==> d in tx.db.fences && tx.db.fences[d] == db.fences[d])
            && ShownTo(db, tx.db, k.device, Some(k.job)))
  {
    hide Commit, VisibleJobs, ShownTo, Clip;
    var row := db.rows[k];
    var rows := UnconfirmedRows(db, k, detail, now);
    var fences := Upserted(db, k.device, JobFence(k.job, row.protocol, process, Clip(detail, DETAIL_LIMIT), now, now));
    VisibleIsShown(db, rows, fences, db.(rows := rows, fences := fences), k.device, Some(k.job), true, now);
    CommitGives(db, rows, fences, VisibleJobs(db.(rows := rows, fences := fences), k.device, Some(k.job)), true, now);
  }

  /** A late result of an unconfirmed row is accepted unless the device is fenced for other work. */
  lemma LateResultIsAccepted(db: Db, k: Key, now: int)
    requires k in db.rows
    ensures var tx := SettleLate(db, k, 1, now);
      && (!tx.reply.Refused? <==>
            && db.rows[k].state == Unconfirmed
            && (k.device in db.fences ==> db.fences[k.device].JobFence? && db.fences[k.device].job == k.job))
      && tx.db.rows == db.rows && (!tx.reply.Refused? ==> k.device !in tx.db.fences)
      && (forall d :: d in db.fences && d != k.device ==> d in tx.db.fences && tx.db.fences[d] == db.fences[d])
      && (tx.reply == Changed ==> ShownTo(db, tx.db, k.device, Some(k.job)))
      && (tx.reply != Changed ==> tx.db == db)
  {
    DroppedFence(db, k.device, Some(k.job), false, now);
    hide Commit, VisibleJobs, ShownTo, DropFence;
  }

  lemma DroppedFence(db: Db, d: DeviceId, j: Option<JobId>, early: bool, now: int)
    ensures var after := DropFence(db, d, j, early, now);
      && after.rows == db.rows && d !in after.fences && ShownTo(db, after, d, j)
      && (forall o :: o in db.fences && o != d ==> o in after.fences && after.fences[o] == db.fences[o])
  {
    hide Commit, VisibleJobs, ShownTo;
    var fences := WithoutFence(db, d);
    var seen := if early then db else db.(fences := fences);
    VisibleIsShown(db, db.rows, fences, seen, d, j, false, now);
    CommitGives(db, db.rows, fences, VisibleJobs(seen, d, j), false, now);
  }

  /** A new process of a job-v1 client ends its fence, whatever the fence stands for. */
  lemma NewProcessEndsFence(db: Db, d: DeviceId, process: Option<string>, jobV1: bool, now: int)
    ensures var tx := ClearOnReplacement(db, d, process, jobV1, now);
      && (tx.reply == Changed <==> d in db.fences && jobV1 && process.Some? && db.fences[d].process != process)
      && (tx.reply != Changed ==> tx == Tx(db, Kept))
      && (tx.reply == Changed ==> d !in tx.db.fences && tx.db.rows == db.rows)
      && (tx.reply == Changed && db.fences[d].JobFence? ==> ShownTo(db, tx.db, d, Some(db.fences[d].job)))
  {
    if d in db.fences {
      DroppedFence(db, d, if db.fences[d].JobFence? then Some(db.fences[d].job) else None, true, now);
    }
    hide Commit, VisibleJobs, ShownTo, DropFence;
  }

  // ---- Lost artifacts ----

  /** A lost artifact fails a ready job, and of a job under way exactly the rows that still need it. */
  lemma LossFailsWhatNeedsIt(db: Db, absent: set<string>, now: int, k: Key)
    requires k in db.rows && k.job in db.jobs
    ensures var after, job, row := MissingArtifacts(db, absent, now).db, db.jobs[k.job], db.rows[k];
      var lost := job.artifact.Some? && job.artifact.value in absent;
      && k in after.rows && k.job in after.jobs
      && (lost && job.state == Ready ==>
            && after.jobs[k.job].state == JobFailed && after.jobs[k.job].failureCode == Some("artifact_missing")
            && after.rows[k] == row)
      && (lost && (job.state == Running || job.state == JobReconciling) ==>
            if || row.state == Queued || row.state == WaitingTransfer || row.state == Dispatching
               || row.state == Downloading
            then && after.rows[k].state == Failed && after.rows[k].failureCode == Some("artifact_missing")
                 && after.rows[k].terminalAt == Some(now)
            else after.rows[k] == row)
      && (!lost || (job.state != Ready && job.state != Running && job.state != JobReconciling) ==>
            after.jobs[k.job] == job && after.rows[k] == row)
  {
    hide Rederived, States, LossDetail;
  }

  // ---- Progress ----

  /** Nothing gets stuck: from every active state some transaction that needs no more than word from
      the client, its disconnection or the passing of the deadline takes the row on. */
  lemma ActiveRowsMoveOn(ws: seq<World>, steps: seq<Step>, i: nat, k: Key, v: Verdict, now: int)
    requires Run(ws, steps) && i < |ws| && k in ws[i].db.rows && ActiveDevice(ws[i].db.rows[k].state)
    ensures var db, row := ws[i].db, ws[i].db.rows[k];
      && (row.state == WaitingTransfer ==>
            && PrepareDispatch(db, k, row.protocol, None, now).reply == Changed
            && TransitionDevice(db, k, BackToQueue(DispatchRecovery, None), now).reply == Changed)
      && (row.state != WaitingTransfer ==> SettleResult(db, k, 1, v, now).reply == Changed)
      && (row.state != WaitingTransfer && row.state != Reconciling ==>
            TransitionDevice(db, k, ToReconciling(row.state, DeviceDisconnect, now), now).reply == Changed)
      && (row.state == Reconciling ==>
            && row.reconDeadline.Some?
            && (row.reconDeadline.value <= now ==>
                      MarkUnconfirmed(db, k, None, [], row.reconDeadline, now).reply == Changed))
  {
    hide Run, PrepareDispatch, TransitionDevice, SettleResult, MarkUnconfirmed, Claim, Inv, RunInv, OnlyRow, ShownTo,
      Reaches, FencedBy;
    RunsKeepInv(ws, steps, i);
    RunInvHasInv(ws[i]);
    var db, row := ws[i].db, ws[i].db.rows[k];
    if row.state == WaitingTransfer {
      ClaimAndPrepareMoveOn(db, k, row.protocol, None, now);
      TransitionsReach(db, k, BackToQueue(DispatchRecovery, None), now);
    } else {
      ResultSettlesExactly(db, k, v, now);
      TransitionsReach(db, k, ToReconciling(row.state, DeviceDisconnect, now), now);
      ReconcilingIsDue(db, k);
      DoubtEndsInFence(db, k, None, [], row.reconDeadline, now);
    }
  }

  lemma ReconcilingIsDue(db: Db, k: Key)
    requires Inv(db) && k in db.rows
    ensures db.rows[k].state == Reconciling ==> db.rows[k].reconDeadline.Some?
  {
  }
}
