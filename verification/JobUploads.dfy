/** The life of a job before its devices get it, over whole runs: request, upload, packaging,
    publication and the dispatch gate (mdm-server/styly_mdm/push_job_store.py). */
module JobUploads {
  import opened PushJobs
  import opened JobTables
  import opened JobRuns
  import opened JobTheorems

  /** The job was derived from device rows at least once. */
  predicate HasRun(s: JobState) {
    s == Running || s == JobReconciling || s == JobSucceeded || s == CompletedWithErrors
  }

  /** What a job holds at each stage of its upload. */
  predicate Staged(job: Job) {
    && (job.state == Created ==> job.uploadStartedAt.None?)
    && (job.state == Uploading || job.state == Packaging ==> job.uploadStartedAt.Some?)
    && (job.state == Created || job.state == Uploading || job.state == Packaging ==> job.artifact.None?)
    && (job.state == Created || job.state == Uploading ==> job.files.None?)
    && (job.state == Packaging ==> job.files.Some?)
    && (job.state == Ready || HasRun(job.state) || job.dispatchStartedAt.Some? ==> job.artifact.Some?)
    && (HasRun(job.state) || job.dispatchEnabled ==> job.dispatchStartedAt.Some?)
    && (job.dispatchEnabled ==>
          job.state != Created && job.state != Uploading && job.state != Packaging && job.state != Ready)
    && (job.artifact.Some? ==> job.uploadStartedAt.Some? && job.files.Some? && job.readyAt.Some?)
    && (job.uploadStartedAt.Some? ==> job.uploadStartedAt.value < job.createExpiresAt)
    && (TerminalJob(job.state) <==> job.terminalAt.Some?)
  }

  /** What a job was once given stays. */
  predicate Continues(p: Job, q: Job) {
    && q.requestId == p.requestId && q.fingerprint == p.fingerprint && q.createExpiresAt == p.createExpiresAt
    && (p.uploadStartedAt.Some? ==> q.uploadStartedAt == p.uploadStartedAt)
    && (p.files.Some? ==> q.files == p.files)
    && (p.artifact.Some? ==> q.artifact == p.artifact)
    && (p.dispatchStartedAt.Some? ==> q.dispatchStartedAt == p.dispatchStartedAt)
  }

  /** Only the device side of the job moved. */
  predicate SameGate(p: Job, q: Job) {
    && q == p.(state := q.state, revision := q.revision, updatedAt := q.updatedAt, terminalAt := q.terminalAt)
    && (q.state == p.state || (HasRun(p.state) && (HasRun(q.state) || q.state == JobFailed)))
    && (if q.state == p.state then q.terminalAt == p.terminalAt else TerminalJob(q.state) <==> q.terminalAt.Some?)
  }

  lemma SameGateStages(p: Job, q: Job)
    requires Staged(p) && SameGate(p, q)
    ensures Staged(q) && Continues(p, q)
  {
  }

  lemma RederivedKeepsGate(job: Job, states: set<DeviceState>, now: int)
    ensures SameGate(job, Rederived(job, states, now))
  {
  }

  ghost predicate GatesKept(a: Db, b: Db) {
    forall j :: j in a.jobs ==> j in b.jobs && SameGate(a.jobs[j], b.jobs[j])
  }

  lemma CommitKeepsGates(db: Db, rows: map<Key, Row>, fences: map<DeviceId, Fence>, ids: set<JobId>, rederive: bool,
                         now: int)
    ensures GatesKept(db, Commit(db, rows, fences, ids, rederive, now))
  {
    hide Rederived, States;
    forall j | j in db.jobs ensures SameGate(db.jobs[j], Commit(db, rows, fences, ids, rederive, now).jobs[j]) {
      RederivedKeepsGate(Bumped(db.jobs[j], now), States(rows, j), now);
    }
  }

  lemma CommitsKeepGates(db: Db)
    ensures GatesKept(db, db)
    ensures forall rows, fences, ids, rederive, now :: GatesKept(db, Commit(db, rows, fences, ids, rederive, now))
  {
    forall rows, fences, ids, rederive, now ensures GatesKept(db, Commit(db, rows, fences, ids, rederive, now)) {
      CommitKeepsGates(db, rows, fences, ids, rederive, now);
    }
  }

  // ---- One transaction ----

  predicate Published(s: JobState) {
    s == Ready || s == Running || s == JobReconciling
  }

  /** Nothing but job `j` moved, one stage on at most, and with a new revision exactly if it did. */
  ghost predicate OnlyJob(a: Db, b: Db, j: JobId) {
    && (b == a || (j in a.jobs && j in b.jobs && b == a.(jobs := a.jobs[j := b.jobs[j]])
                   && b.jobs[j].revision == a.jobs[j].revision + 1))
    && (j in a.jobs && Staged(a.jobs[j]) ==> j in b.jobs && Staged(b.jobs[j]) && Continues(a.jobs[j], b.jobs[j]))
  }

  /** An upload starts exactly in time; a late one ends the job and is answered with an error. */
  lemma UploadStartsExactlyInTime(db: Db, j: JobId, now: int)
    ensures var tx := StartUpload(db, j, now);
      && OnlyJob(db, tx.db, j)
      && (tx.reply == Changed <==> j in db.jobs && db.jobs[j].state == Created && now < db.jobs[j].createExpiresAt)
      && (tx.reply == Changed ==> tx.db.jobs[j].state == Uploading && tx.db.jobs[j].uploadStartedAt == Some(now))
      && (tx.reply != Changed && tx.db != db ==> tx.db.jobs[j].state == JobInterrupted)
  {
    hide UPLOAD_NOT_STARTED, UPLOAD_NOT_STARTED_DETAIL;
  }

  /** The expiry ends exactly a created job that is due, and only if the deadline is still its own. */
  lemma ExpiryEndsExactlyWhen(db: Db, j: JobId, deadline: Option<int>, now: int)
    ensures var tx := ExpireCreated(db, j, deadline, now);
      && OnlyJob(db, tx.db, j)
      && (tx.db != db <==> j in db.jobs && db.jobs[j].state == Created && db.jobs[j].createExpiresAt <= now
                           && (deadline.Some? ==> deadline.value == db.jobs[j].createExpiresAt))
      && (tx.db != db ==> tx.db.jobs[j].state == JobInterrupted && tx.db.jobs[j].artifact == db.jobs[j].artifact)
  {
    hide UPLOAD_NOT_STARTED, UPLOAD_NOT_STARTED_DETAIL;
    if j in db.jobs {
      assert Expired(db.jobs[j], now).revision != db.jobs[j].revision;
    }
  }

  /** Packaging follows exactly a running upload. */
  lemma PackagingFollowsUpload(db: Db, j: JobId, files: Counts, now: int)
    ensures var tx := MarkPackaging(db, j, files, now);
      && OnlyJob(db, tx.db, j)
      && (tx.reply == Changed <==> j in db.jobs && db.jobs[j].state == Uploading)
      && (tx.reply == Changed ==> tx.db.jobs[j].state == Packaging && tx.db.jobs[j].files == Some(files))
      && (tx.reply != Changed ==> tx.db == db)
  {
  }

  /** Publication follows exactly packaging, and gives the artifact its job never loses. */
  lemma PublicationFollowsPackaging(db: Db, j: JobId, artifact: string, now: int)
    ensures var tx := PublishArtifact(db, j, artifact, now);
      && OnlyJob(db, tx.db, j)
      && (tx.reply == Changed <==> j in db.jobs && db.jobs[j].state == Packaging)
      && (tx.reply == Changed ==> tx.db.jobs[j].state == Ready && tx.db.jobs[j].artifact == Some(artifact))
      && (tx.reply != Changed ==> tx.db == db)
  {
  }

  /** A failed upload ends the job exactly along the table, with its reason, and keeps what it had. */
  lemma FailureEndsExactlyAlongTable(db: Db, j: JobId, state: JobState, code: string, detail: string, now: int)
    ensures var tx := FailPreDispatch(db, j, state, code, detail, now);
      && (tx.reply == Changed <==>
            && (state == JobFailed || state == JobInterrupted) && j in db.jobs
            && (|| db.jobs[j].state == state || db.jobs[j].state == Created || db.jobs[j].state == Uploading
                || db.jobs[j].state == Packaging || (state == JobFailed && Published(db.jobs[j].state))))
      && (tx.reply != Changed ==> tx.db == db)
      && (tx.reply == Changed ==>
            && tx.db.jobs[j].state == state && tx.db.jobs[j].terminalAt == Some(now)
            && tx.db.jobs[j].failureCode == Some(code) && tx.db.jobs[j].failureDetail == Some(detail))
      && OnlyJob(db, tx.db, j)
  {
  }

  /** Enabling opens the gate of a published job and of no other; the first time it starts the job. */
  lemma EnablingOpensExactlyPublished(db: Db, j: JobId, now: int)
    ensures var tx := EnableDispatch(db, j, now);
      && OnlyJob(db, tx.db, j)
      && (tx.reply == Changed <==> j in db.jobs && !db.jobs[j].dispatchEnabled && Published(db.jobs[j].state))
      && (tx.reply == Changed ==>
            && tx.db.jobs[j].dispatchEnabled && tx.db.jobs[j].pausedReason == None
            && (db.jobs[j].dispatchStartedAt.Some? ==>
                  tx.db.jobs[j].dispatchStartedAt == db.jobs[j].dispatchStartedAt)
            && (db.jobs[j].dispatchStartedAt.None? ==> tx.db.jobs[j].dispatchStartedAt == Some(now)))
      && (tx.reply == Kept <==>
            && j in db.jobs
            && (TerminalJob(db.jobs[j].state) || (Published(db.jobs[j].state) && db.jobs[j].dispatchEnabled)))
      && (tx.reply == Changed ==>
            tx.db.jobs[j].state == if db.jobs[j].state == Ready then Running else db.jobs[j].state)
      && (tx.reply != Changed ==> tx.db == db)
  {
  }

  // ---- Every step ----

  ghost predicate Carries(a: Db, b: Db, j: JobId) {
    j in a.jobs && Staged(a.jobs[j]) ==> j in b.jobs && Staged(b.jobs[j]) && Continues(a.jobs[j], b.jobs[j])
  }

  lemma UploadStages(w: World, step: Step, j: JobId)
    requires Allowed(w, step)
    requires step.Upload? || step.Expire? || step.Package? || step.Publish? || step.FailUpload? || step.Enable?
    ensures Carries(w.db, Next(w, step).db, j)
  {
    hide StartUpload, ExpireCreated, MarkPackaging, PublishArtifact, FailPreDispatch, EnableDispatch, Staged,
      Continues;
    var db := w.db;
    match step {
      case Upload(i, now) => UploadStartsExactlyInTime(db, i, now);
      case Expire(i, due, now) => ExpiryEndsExactlyWhen(db, i, due, now);
      case Package(i, files, now) => PackagingFollowsUpload(db, i, files, now);
      case Publish(i, artifact, now) => PublicationFollowsPackaging(db, i, artifact, now);
      case FailUpload(i, state, code, detail, now) => FailureEndsExactlyAlongTable(db, i, state, code, detail, now);
      case Enable(i, now) => EnablingOpensExactlyPublished(db, i, now);
    }
    UntouchedCarries(db, j);
  }

  lemma UntouchedCarries(db: Db, j: JobId)
    ensures Carries(db, db, j)
    ensures j in db.jobs ==> Continues(db.jobs[j], db.jobs[j])
  {
  }

  lemma RecoveryStages(db: Db, acceptTimeout: int, timeout: int, now: int, j: JobId)
    ensures Carries(db, Recover(db, acceptTimeout, timeout, now).db, j)
  {
    hide Rederived, States, RecoveryTouches, RecoveredRows;
    if j in db.jobs && Staged(db.jobs[j]) {
      var job, rows := RecoveredJob(db.jobs[j], now), RecoveredRows(db.rows, acceptTimeout, timeout, now);
      assert Staged(job) && Continues(db.jobs[j], job);
      RederivedKeepsGate(job, States(rows, j), now);
      SameGateStages(job, Rederived(job, States(rows, j), now));
    }
  }

  lemma LossStages(db: Db, absent: set<string>, now: int, j: JobId)
    ensures Carries(db, MissingArtifacts(db, absent, now).db, j)
  {
    hide Rederived, States, SalvagedRows, LossDetail;
    if j in db.jobs && Staged(db.jobs[j]) {
      var job, rows := Bumped(db.jobs[j], now), SalvagedRows(db, absent, now);
      assert Staged(LostJob(db.jobs[j], now));
      RederivedKeepsGate(job, States(rows, j), now);
      SameGateStages(job, Rederived(job, States(rows, j), now));
    }
  }

  lemma DeviceStages(w: World, step: Step, j: JobId)
    requires Allowed(w, step)
    requires !step.Create? && !step.Upload? && !step.Expire?
    requires !step.Package? && !step.Publish? && !step.FailUpload? && !step.Enable?
    requires !step.Restart? && !step.LoseArtifacts?
    ensures Carries(w.db, Next(w, step).db, j)
  {
    hide Commit, Staged, Continues, GatesKept, Rederived, States, VisibleJobs, Written, FirstInLine, DeviceBusy,
      SeesOther, CallerMakes, Clip, Settled, SameVerdict, Replayable, Upserted, WithoutFence, UnconfirmedRows,
      OpaqueMatches, FencedBy, DeviceTransitionValid;
    CommitsKeepGates(w.db);
    assert GatesKept(w.db, Next(w, step).db);
    GatesKeptCarries(w.db, Next(w, step).db, j);
  }

  lemma GatesKeptCarries(a: Db, b: Db, j: JobId)
    requires GatesKept(a, b)
    ensures Carries(a, b, j)
  {
    hide Staged, Continues, SameGate;
    if j in a.jobs && Staged(a.jobs[j]) {
      SameGateStages(a.jobs[j], b.jobs[j]);
    }
  }

  lemma StepStages(w: World, step: Step, j: JobId)
    requires Allowed(w, step)
    ensures Carries(w.db, Next(w, step).db, j)
  {
    hide Staged, Continues, Recover, MissingArtifacts;
    if step.Restart? {
      RecoveryStages(w.db, step.acceptTimeout, step.reconcileTimeout, step.now, j);
    } else if step.LoseArtifacts? {
      LossStages(w.db, step.absent, step.now, j);
    } else if step.Create? {
      UntouchedCarries(w.db, j);
    } else if step.Upload? || step.Expire? || step.Package? || step.Publish? || step.FailUpload? || step.Enable? {
      UploadStages(w, step, j);
    } else {
      DeviceStages(w, step, j);
    }
  }

  lemma OnlyCreateAdds(w: World, step: Step)
    requires Allowed(w, step) && !step.Create?
    ensures Next(w, step).db.jobs.Keys == w.db.jobs.Keys
  {
    hide States, Rederived, VisibleJobs, Written, FirstInLine, DeviceBusy, RecoveredRows, SalvagedRows, SeesOther,
      CallerMakes, Upserted, WithoutFence, RecoveryTouches, ArtifactLost, DeviceTransitionValid, Derive,
      JobTransitionValid, Clip;
  }

  /** A new job comes from a request nobody made before. */
  lemma NewJobsAreNew(w: World, step: Step, j: JobId)
    requires Allowed(w, step) && j !in w.db.jobs && j in Next(w, step).db.jobs
    ensures Staged(Next(w, step).db.jobs[j])
    ensures forall o :: o in w.db.jobs ==> w.db.jobs[o].requestId != Next(w, step).db.jobs[j].requestId
    ensures forall o :: o in Next(w, step).db.jobs && o !in w.db.jobs ==> o == j
  {
    if !step.Create? {
      OnlyCreateAdds(w, step);
    } else {
      hide NewRows;
    }
  }

  // ---- Whole runs ----

  ghost predicate UploadInv(db: Db) {
    && (forall j :: j in db.jobs ==> Staged(db.jobs[j]))
    && (forall j, o :: j in db.jobs && o in db.jobs && db.jobs[j].requestId == db.jobs[o].requestId ==> j == o)
  }

  lemma {:induction false} RunsKeepUploadInv(ws: seq<World>, steps: seq<Step>, i: nat)
    requires Run(ws, steps) && i < |ws|
    ensures UploadInv(ws[i].db)
  {
    hide Staged, Effect, Allowed;
    if i > 0 {
      RunsKeepUploadInv(ws, steps, i - 1);
      var w, step, v := ws[i - 1], steps[i - 1], ws[i];
      forall j | j in v.db.jobs
        ensures Staged(v.db.jobs[j]) && (j in w.db.jobs ==> Continues(w.db.jobs[j], v.db.jobs[j]))
      {
        if j in w.db.jobs {
          StepStages(w, step, j);
        } else {
          NewJobsAreNew(w, step, j);
        }
      }
      forall j, o | j in v.db.jobs && o in v.db.jobs && v.db.jobs[j].requestId == v.db.jobs[o].requestId
        ensures j == o
      {
        if j !in w.db.jobs {
          NewJobsAreNew(w, step, j);
        }
        if o !in w.db.jobs {
          NewJobsAreNew(w, step, o);
        }
      }
    }
  }

  /** In every run a request makes at most one job, whatever is repeated. */
  lemma OneJobPerRequest(ws: seq<World>, steps: seq<Step>, i: nat, j: JobId, o: JobId)
    requires Run(ws, steps) && i < |ws| && j in ws[i].db.jobs && o in ws[i].db.jobs
    requires ws[i].db.jobs[j].requestId == ws[i].db.jobs[o].requestId
    ensures j == o
  {
    RunsKeepUploadInv(ws, steps, i);
  }

  /** What a job was given it keeps: request, deadline, upload, file counts and above all its
      artifact, from any moment of a run to any later one. */
  lemma {:induction false} ArtifactsAreImmutable(ws: seq<World>, steps: seq<Step>, i: nat, k: nat, j: JobId)
    requires Run(ws, steps) && i <= k < |ws| && j in ws[i].db.jobs
    ensures j in ws[k].db.jobs && Continues(ws[i].db.jobs[j], ws[k].db.jobs[j])
    decreases k
  {
    hide Staged, Effect, Allowed;
    if i < k {
      ArtifactsAreImmutable(ws, steps, i, k - 1, j);
      RunsKeepUploadInv(ws, steps, k - 1);
      StepStages(ws[k - 1], steps[k - 1], j);
    }
  }

  /** At every moment of a run exactly the finished jobs carry the time they ended. */
  lemma EndedJobsAreDated(ws: seq<World>, steps: seq<Step>, i: nat, j: JobId)
    requires Run(ws, steps) && i < |ws| && j in ws[i].db.jobs
    ensures TerminalJob(ws[i].db.jobs[j].state) <==> ws[i].db.jobs[j].terminalAt.Some?
  {
    hide Run;
    RunsKeepUploadInv(ws, steps, i);
  }

  /** Nothing is claimed for a device before its job has an artifact, whose upload began in time. */
  lemma ClaimedJobsAreUploaded(ws: seq<World>, steps: seq<Step>, i: nat, key: Key)
    requires Run(ws, steps) && i < |steps| && ClaimsAt(steps[i], key)
    ensures key.job in ws[i].db.jobs
    ensures var job := ws[i].db.jobs[key.job];
      && job.dispatchEnabled && job.artifact.Some? && job.uploadStartedAt.Some?
      && job.uploadStartedAt.value < job.createExpiresAt
  {
    hide Effect, FirstInLine, DeviceBusy;
    RunsKeepUploadInv(ws, steps, i);
  }
}
