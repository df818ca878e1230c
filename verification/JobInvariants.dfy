/** What every transaction keeps: the inductive invariant of the tables, and the relation
    `Evolves` that bounds how one transaction may change rows, jobs and fences. */
module JobInvariants {
  import opened PushJobs
  import opened JobTables

  // ---- The invariant ----

  predicate Dispatched(job: Job) {
    job.dispatchStartedAt.Some?
  }

  predicate Agrees(job: Job, states: set<DeviceState>) {
    Dispatched(job) ==> states != {} && job.state == Derive(states)
  }

  /** A dispatched job has the state its rows give, except that enabling dispatch after every
      row failed leaves it running. A job not yet dispatched has only queued or failed rows. */
  predicate JobFits(job: Job, states: set<DeviceState>) {
    && states != {}
    && if Dispatched(job) then
         Agrees(job, states) || (job.state == Running && states == {Failed})
       else
         && NeverDerived(job.state)
         && states <= {Queued, Failed}
  }

  ghost predicate RowsBelong(db: Db) {
    forall k :: k in db.rows ==> k.job in db.jobs && db.rows[k].enqueueSeq < db.nextSeq
  }

  ghost predicate SeqsDiffer(db: Db) {
    forall k, o :: k in db.rows && o in db.rows && db.rows[k].enqueueSeq == db.rows[o].enqueueSeq ==> k == o
  }

  ghost predicate JobsFit(db: Db) {
    forall j :: j in db.jobs ==> JobFits(db.jobs[j], States(db.rows, j))
  }

  /** What the unique index ux_push_job_device_active would enforce. */
  ghost predicate SingleActive(db: Db) {
    forall k, o | k in db.rows && o in db.rows && k.device == o.device ::
      ActiveDevice(db.rows[k].state) && ActiveDevice(db.rows[o].state) ==> k == o
  }

  ghost predicate FencesNameUnconfirmed(db: Db) {
    forall d :: d in db.fences && db.fences[d].JobFence? ==>
      && HasRow(db, db.fences[d].job, d)
      && db.rows[Key(db.fences[d].job, d)].state == Unconfirmed
      && !DeviceBusy(db, d)
  }

  ghost predicate ReconcilingHasDeadline(db: Db) {
    forall k :: k in db.rows && db.rows[k].state == Reconciling ==> db.rows[k].reconDeadline.Some?
  }

  ghost predicate Inv(db: Db) {
    && RowsBelong(db)
    && SeqsDiffer(db)
    && JobsFit(db)
    && SingleActive(db)
    && FencesNameUnconfirmed(db)
    && ReconcilingHasDeadline(db)
  }

  // ---- One transaction ----

  /** The row can still reach the queue again. */
  predicate MayRestart(row: Row) {
    || (row.state == Queued || row.state == WaitingTransfer || row.state == Dispatching)
    || (row.state == Reconciling && row.acceptedAt.None?
        && (row.reconReason == Some(CommandAcceptTimeout) || row.reconReason == Some(DisconnectBeforeAccept)))
  }

  /** A terminal result may skip the phases whose frames were lost. */
  predicate ResultJump(src: DeviceState, dst: DeviceState) {
    (src == Dispatching || src == Downloading || src == Validating) && dst == Succeeded
  }

  predicate RowMove(r: Row, s: Row) {
    && !TerminalDevice(r.state)
    && s.enqueueSeq == r.enqueueSeq
    && (s.state == r.state || DeviceEdge(r.state, s.state) || ResultJump(r.state, s.state))
    && (r.state == Queued ==> s.state == Failed)
    && (MayRestart(s) ==> MayRestart(r))
    && (s.state == Reconciling ==> s.reconDeadline.Some?)
    && r.acceptReplays <= s.acceptReplays
    && (r.state == Reconciling && s.state == Queued ==> r.acceptReplays == 0 && s.acceptReplays == 1)
  }

  predicate RowClaim(r: Row, s: Row) {
    && r.state == Queued && s.state == WaitingTransfer
    && s.enqueueSeq == r.enqueueSeq && s.acceptReplays == r.acceptReplays
  }

  predicate RowStep(r: Row, s: Row, taken: bool) {
    s == r || RowMove(r, s) || (taken && RowClaim(r, s))
  }

  /** The gap through which a job's state may stop agreeing with its rows. */
  predicate EnabledWithoutWork(job: Job, states: set<DeviceState>) {
    job.state == Ready && Queued !in states
  }

  predicate JobMove(p: Job, q: Job, before: set<DeviceState>, after: set<DeviceState>) {
    && p.revision <= q.revision
    && (p != q ==> p.revision < q.revision)
    && JobTransitionValid(p.state, q.state)
    && (Dispatched(p) ==> Dispatched(q))
    && JobFits(q, after)
    && (Agrees(p, before) && !Agrees(q, after) ==> EnabledWithoutWork(p, before) && q.state == Running)
  }

  predicate FreshRow(a: Db, b: Db, k: Key) {
    && k in b.rows && k.job !in a.jobs && k.job in b.jobs
    && b.rows[k].state == Queued
    && a.nextSeq <= b.rows[k].enqueueSeq < b.nextSeq
  }

  ghost predicate RowsStep(before: map<Key, Row>, after: map<Key, Row>, claimed: Option<Key>) {
    forall k :: k in before ==> k in after && RowStep(before[k], after[k], claimed == Some(k))
  }

  ghost predicate RowsAppear(a: Db, b: Db) {
    && (forall k :: k in b.rows && k !in a.rows ==> FreshRow(a, b, k))
    && (forall k, o | k in b.rows && k !in a.rows && o in b.rows && o !in a.rows ::
          b.rows[k].enqueueSeq == b.rows[o].enqueueSeq ==> k == o)
  }

  ghost predicate JobsEvolve(a: Db, b: Db) {
    && (forall j :: j in a.jobs ==>
          j in b.jobs && JobMove(a.jobs[j], b.jobs[j], States(a.rows, j), States(b.rows, j)))
    && (forall j :: j in b.jobs && j !in a.jobs ==>
          JobFits(b.jobs[j], States(b.rows, j)) && Agrees(b.jobs[j], States(b.rows, j)))
    && (forall k :: k in a.rows && k in b.rows && k.job in a.jobs && k.job in b.jobs && b.rows[k] != a.rows[k] ==>
          a.jobs[k.job].revision < b.jobs[k.job].revision)
  }

  ghost predicate FencesEvolve(a: Db, rows: map<Key, Row>, fences: map<DeviceId, Fence>) {
    forall d :: d in fences && fences[d].JobFence? ==>
      || FencedBy(a, d, fences[d].job)
      || (&& HasRow(a, fences[d].job, d) && a.rows[Key(fences[d].job, d)].state == Reconciling
          && Key(fences[d].job, d) in rows && rows[Key(fences[d].job, d)].state == Unconfirmed)
  }

  ghost predicate Evolves(a: Db, b: Db, claimed: Option<Key>) {
    && a.nextSeq <= b.nextSeq
    && (claimed.Some? ==> Claimable(a, claimed.value))
    && RowsStep(a.rows, b.rows, claimed)
    && RowsAppear(a, b)
    && JobsEvolve(a, b)
    && FencesEvolve(a, b.rows, b.fences)
  }

  // ---- Facts about the states of one job's rows ----

  lemma StatesUnchanged(rows: map<Key, Row>, after: map<Key, Row>, j: JobId)
    requires forall k: Key :: k.job == j ==> (k in rows <==> k in after)
    requires forall k :: k in rows && k in after && k.job == j ==> rows[k].state == after[k].state
    ensures States(rows, j) == States(after, j)
  {
    forall s | s in States(rows, j) ensures s in States(after, j) {
      var k :| k in rows && k.job == j && rows[k].state == s;
      assert k in after && after[k].state == s;
    }
    forall s | s in States(after, j) ensures s in States(rows, j) {
      var k :| k in after && k.job == j && after[k].state == s;
      assert k in rows && rows[k].state == s;
    }
  }

  lemma StateListed(rows: map<Key, Row>, k: Key)
    requires k in rows
    ensures rows[k].state in States(rows, k.job)
  {
  }

  /** An active row belongs to a running or reconciling job: recovery relies on it to bump the
      revision of every job whose rows it changes. */
  lemma ActiveRowsJob(db: Db, k: Key)
    requires Inv(db) && k in db.rows && ActiveDevice(db.rows[k].state)
    ensures k.job in db.jobs && Dispatched(db.jobs[k.job])
    ensures (db.jobs[k.job].state == Running || db.jobs[k.job].state == JobReconciling)
  {
    StateListed(db.rows, k);
  }

  /** The rows of a finished dispatched job are all terminal. */
  lemma FinishedRows(db: Db, k: Key)
    requires Inv(db) && k in db.rows && Dispatched(db.jobs[k.job]) && TerminalJob(db.jobs[k.job].state)
    ensures TerminalDevice(db.rows[k].state)
  {
    StateListed(db.rows, k);
  }

  lemma StatesRemain(before: map<Key, Row>, after: map<Key, Row>, j: JobId)
    requires before.Keys <= after.Keys && States(before, j) != {}
    ensures States(after, j) != {}
  {
    var s :| s in States(before, j);
    var k :| k in before && k.job == j && before[k].state == s;
    StateListed(after, k);
  }

  lemma IdleStatesStay(before: map<Key, Row>, after: map<Key, Row>, j: JobId)
    requires after.Keys == before.Keys
    requires forall k :: k in before && k.job == j ==> RowStep(before[k], after[k], false)
    requires States(before, j) <= {Queued, Failed}
    ensures States(after, j) <= {Queued, Failed}
  {
    forall s | s in States(after, j) ensures s == Queued || s == Failed {
      var k :| k in after && k.job == j && after[k].state == s;
      StateListed(before, k);
    }
  }

  lemma TerminalStatesStay(before: map<Key, Row>, after: map<Key, Row>, j: JobId, claimed: Option<Key>)
    requires after.Keys == before.Keys
    requires forall k :: k in before && k.job == j ==> RowStep(before[k], after[k], claimed == Some(k))
    requires forall s :: s in States(before, j) ==> TerminalDevice(s)
    ensures States(after, j) == States(before, j)
  {
    forall k | k in before && k.job == j ensures after[k].state == before[k].state {
      StateListed(before, k);
    }
    StatesUnchanged(before, after, j);
  }

  // ---- Every kind of transaction evolves the tables ----

  lemma RederivedMoves(job: Job, base: Job, before: set<DeviceState>, after: set<DeviceState>, now: int)
    requires JobFits(job, before) && after != {}
    requires base.state == job.state && base.dispatchStartedAt == job.dispatchStartedAt && base.revision > job.revision
    requires !Dispatched(job) ==> after <= {Queued, Failed}
    requires (forall s :: s in before ==> TerminalDevice(s)) ==> after == before
    ensures JobMove(job, Rederived(base, after, now), before, after)
  {
  }

  lemma RowsMoveJob(before: map<Key, Row>, after: map<Key, Row>, j: JobId, job: Job, base: Job, claimed: Option<Key>,
                    now: int)
    requires JobFits(job, States(before, j))
    requires after.Keys == before.Keys
    requires forall k :: k in before && k.job == j ==> RowStep(before[k], after[k], claimed == Some(k))
    requires claimed.Some? && claimed.value.job == j ==> Dispatched(job)
    requires base.state == job.state && base.dispatchStartedAt == job.dispatchStartedAt && base.revision > job.revision
    ensures JobMove(job, Rederived(base, States(after, j), now), States(before, j), States(after, j))
  {
    StatesRemain(before, after, j);
    if !Dispatched(job) {
      IdleStatesStay(before, after, j);
    }
    if forall s :: s in States(before, j) ==> TerminalDevice(s) {
      TerminalStatesStay(before, after, j, claimed);
    }
    RederivedMoves(job, base, States(before, j), States(after, j), now);
  }

  lemma CommitMovesJob(db: Db, rows: map<Key, Row>, fences: map<DeviceId, Fence>, ids: set<JobId>, rederive: bool,
                       claimed: Option<Key>, now: int, j: JobId)
    requires j in db.jobs && JobFits(db.jobs[j], States(db.rows, j))
    requires rows.Keys == db.rows.Keys
    requires forall k :: k in db.rows && k.job == j ==>
      rows[k] == db.rows[k] || (rederive && k.job in ids && RowStep(db.rows[k], rows[k], claimed == Some(k)))
    requires claimed.Some? && claimed.value.job == j ==> Dispatched(db.jobs[j])
    ensures JobMove(db.jobs[j], Commit(db, rows, fences, ids, rederive, now).jobs[j], States(db.rows, j),
                    States(rows, j))
  {
    if j in ids && rederive {
      RowsMoveJob(db.rows, rows, j, db.jobs[j], Bumped(db.jobs[j], now), claimed, now);
    } else {
      StatesUnchanged(db.rows, rows, j);
    }
  }

  ghost predicate RowsMoveIn(before: map<Key, Row>, after: map<Key, Row>, ids: set<JobId>, moves: bool,
                             claimed: Option<Key>) {
    && after.Keys == before.Keys
    && forall k :: k in before ==>
         after[k] == before[k] || (moves && k.job in ids && RowStep(before[k], after[k], claimed == Some(k)))
  }

  lemma MovesAreSteps(before: map<Key, Row>, after: map<Key, Row>, ids: set<JobId>, moves: bool, claimed: Option<Key>)
    requires RowsMoveIn(before, after, ids, moves, claimed)
    ensures RowsStep(before, after, claimed)
  {
  }

  lemma ClaimedJobDispatched(db: Db, claimed: Option<Key>)
    requires JobsFit(db) && (claimed.Some? ==> Claimable(db, claimed.value))
    ensures claimed.Some? ==> claimed.value.job in db.jobs && Dispatched(db.jobs[claimed.value.job])
  {
    hide FirstInLine, DeviceBusy, States;
  }

  lemma CommitJobsEvolve(db: Db, rows: map<Key, Row>, fences: map<DeviceId, Fence>, ids: set<JobId>, rederive: bool,
                         claimed: Option<Key>, now: int)
    requires JobsFit(db) && (claimed.Some? ==> Claimable(db, claimed.value))
    requires RowsMoveIn(db.rows, rows, ids, rederive, claimed)
    ensures JobsEvolve(db, Commit(db, rows, fences, ids, rederive, now))
  {
    hide Rederived, States, JobFits, Claimable, RowStep, Agrees;
    var after := Commit(db, rows, fences, ids, rederive, now);
    ClaimedJobDispatched(db, claimed);
    forall j | j in db.jobs
      ensures JobMove(db.jobs[j], after.jobs[j], States(db.rows, j), States(rows, j))
      ensures j in ids ==> db.jobs[j].revision < after.jobs[j].revision
    {
      CommitMovesJob(db, rows, fences, ids, rederive, claimed, now, j);
      RederivedRevision(Bumped(db.jobs[j], now), States(rows, j), now);
    }
  }

  lemma RederivedRevision(job: Job, states: set<DeviceState>, now: int)
    ensures Rederived(job, states, now).revision == job.revision
  {
  }

  lemma CommitEvolves(db: Db, rows: map<Key, Row>, fences: map<DeviceId, Fence>, ids: set<JobId>, rederive: bool,
                      claimed: Option<Key>, now: int)
    requires JobsFit(db)
    requires claimed.Some? ==> Claimable(db, claimed.value)
    requires rows.Keys == db.rows.Keys
    requires forall k :: k in db.rows ==>
      rows[k] == db.rows[k] || (rederive && k.job in ids && RowStep(db.rows[k], rows[k], claimed == Some(k)))
    requires FencesEvolve(db, rows, fences)
    ensures Evolves(db, Commit(db, rows, fences, ids, rederive, now), claimed)
  {
    hide JobsFit, Claimable, RowStep, RowsStep, JobsEvolve, FencesEvolve, Rederived, States;
    assert RowsMoveIn(db.rows, rows, ids, rederive, claimed);
    MovesAreSteps(db.rows, rows, ids, rederive, claimed);
    CommitJobsEvolve(db, rows, fences, ids, rederive, claimed, now);
  }

  lemma RewriteEvolves(db: Db, k: Key, row: Row, claimed: Option<Key>, now: int)
    requires JobsFit(db) && k in db.rows && RowStep(db.rows[k], row, claimed == Some(k))
    requires claimed.Some? ==> Claimable(db, claimed.value)
    ensures Evolves(db, Rewrite(db, k, row, now), claimed)
  {
    CommitEvolves(db, db.rows[k := row], db.fences, {k.job}, true, claimed, now);
  }

  lemma JobOnlyEvolves(db: Db, j: JobId, job: Job)
    requires JobsFit(db) && j in db.jobs
    requires JobMove(db.jobs[j], job, States(db.rows, j), States(db.rows, j))
    ensures Evolves(db, db.(jobs := db.jobs[j := job]), None)
  {
  }

  lemma DropFenceEvolves(db: Db, d: DeviceId, blocking: Option<JobId>, early: bool, now: int)
    requires JobsFit(db)
    ensures Evolves(db, DropFence(db, d, blocking, early, now), None)
  {
    var fences := WithoutFence(db, d);
    CommitEvolves(db, db.rows, fences, VisibleJobs(if early then db else db.(fences := fences), d, blocking), false,
                  None, now);
  }

  lemma NewRowsAppear(id: JobId, request: Request, start: nat, now: int, k: Key)
    requires ValidRequest(request)
    ensures k in NewRows(id, request, start, now) ==>
      var row := NewRows(id, request, start, now)[k];
      && k.job == id && row.state == Queued && start <= row.enqueueSeq < start + |request.targets|
      && k.device == request.targets[row.enqueueSeq - start].0
    ensures Key(id, request.targets[0].0) in NewRows(id, request, start, now)
  {
  }

  lemma CreateAddsRows(db: Db, request: Request, id: JobId, timeout: int, now: int)
    requires ValidRequest(request) && id !in db.jobs && RowsBelong(db)
    requires CreateJob(db, request, id, timeout, now).reply == Changed
    ensures var after := CreateJob(db, request, id, timeout, now).db;
      && RowsAppear(db, after)
      && (forall k :: k in db.rows ==> k in after.rows && after.rows[k] == db.rows[k])
      && (forall k :: k in after.rows && k !in db.rows ==> k.job == id && after.rows[k].state == Queued)
      && Key(id, request.targets[0].0) in after.rows
  {
    hide NewRows;
    forall k {
      NewRowsAppear(id, request, db.nextSeq, now, k);
    }
  }

  lemma CreateEvolves(db: Db, request: Request, id: JobId, timeout: int, now: int)
    requires JobsFit(db) && RowsBelong(db) && ValidRequest(request) && id !in db.jobs
    ensures Evolves(db, CreateJob(db, request, id, timeout, now).db, None)
  {
    hide NewRows, JobFits, RowMove, RowClaim, FreshRow, RowsAppear;
    if CreateJob(db, request, id, timeout, now).reply == Changed {
      var after := CreateJob(db, request, id, timeout, now).db;
      CreateAddsRows(db, request, id, timeout, now);
      NewJobFits(after, id, Key(id, request.targets[0].0));
      forall j | j in db.jobs ensures States(db.rows, j) == States(after.rows, j) {
        StatesUnchanged(db.rows, after.rows, j);
      }
    } else {
      NothingEvolves(db);
    }
  }

  lemma NewJobFits(db: Db, j: JobId, k: Key)
    requires j in db.jobs && db.jobs[j].state == Created && !Dispatched(db.jobs[j])
    requires k in db.rows && k.job == j
    requires forall o :: o in db.rows && o.job == j ==> db.rows[o].state == Queued
    ensures JobFits(db.jobs[j], States(db.rows, j))
  {
    StateListed(db.rows, k);
    assert States(db.rows, j) <= {Queued};
  }

  lemma Assemble(a: Db, b: Db)
    requires b.nextSeq == a.nextSeq && b.fences == a.fences && a.rows.Keys == b.rows.Keys && a.jobs.Keys == b.jobs.Keys
    requires RowsStep(a.rows, b.rows, None)
    requires forall j :: j in a.jobs ==> JobMove(a.jobs[j], b.jobs[j], States(a.rows, j), States(b.rows, j))
    requires forall k :: k in a.rows && b.rows[k] != a.rows[k] && k.job in a.jobs ==>
      a.jobs[k.job].revision < b.jobs[k.job].revision
    ensures Evolves(a, b, None)
  {
    hide JobMove, RowStep;
  }

  lemma ChangeMovesRow(row: Row, c: Change, now: int)
    requires CallerMakes(c) && !c.BusyWithOther? && row.state in Expected(c)
    ensures DeviceTransitionValid(row.state, Target(c))
    ensures RowMove(row, Written(c, row, now).(state := Target(c), updatedAt := now))
  {
  }

  lemma TransitionEvolves(db: Db, k: Key, c: Change, now: int)
    requires JobsFit(db) && CallerMakes(c)
    requires c.BusyWithOther? && k in db.rows ==> TerminalDevice(db.rows[k].state)
    ensures Evolves(db, TransitionDevice(db, k, c, now).db, None)
  {
    hide Evolves;
    hide JobsFit;
    hide Rewrite;
    hide Written;
    if k in db.rows && db.rows[k].state in Expected(c) {
      ChangeMovesRow(db.rows[k], c, now);
      RewriteEvolves(db, k, Written(c, db.rows[k], now).(state := Target(c), updatedAt := now), None, now);
    } else {
      NothingEvolves(db);
    }
  }

  lemma NothingEvolves(db: Db)
    requires JobsFit(db)
    ensures Evolves(db, db, None)
  {
  }

  lemma UnconfirmedEvolves(db: Db, k: Key, process: Option<string>, detail: string, deadline: Option<int>, now: int)
    requires JobsFit(db) && RowsBelong(db)
    ensures Evolves(db, MarkUnconfirmed(db, k, process, detail, deadline, now).db, None)
  {
    hide Evolves, JobsFit, Rederived, States, Commit, FencesEvolve, RowMove, Newest;
    var tx := MarkUnconfirmed(db, k, process, detail, deadline, now);
    if tx.reply == Changed {
      UnconfirmedMoves(db, k, process, detail, deadline, now);
      var rows := UnconfirmedRows(db, k, detail, now);
      var fences := Upserted(db, k.device,
                             JobFence(k.job, db.rows[k].protocol, process, Clip(detail, DETAIL_LIMIT), now, now));
      CommitEvolves(db, rows, fences, VisibleJobs(db.(rows := rows, fences := fences), k.device, Some(k.job)), true,
                    None, now);
    } else {
      NothingEvolves(db);
    }
  }

  lemma UnconfirmedMoves(db: Db, k: Key, process: Option<string>, detail: string, deadline: Option<int>, now: int)
    requires k in db.rows && db.rows[k].state == Reconciling
    ensures var rows := UnconfirmedRows(db, k, detail, now);
      && RowMove(db.rows[k], rows[k])
      && FencesEvolve(db, rows,
           Upserted(db, k.device, JobFence(k.job, db.rows[k].protocol, process, Clip(detail, DETAIL_LIMIT), now, now)))
  {
  }

  lemma ReportMovesRow(db: Db, k: Key, status: ReportStatus, phase: Option<DeviceState>, detail: Option<string>,
                       now: int)
    requires ReconcileReport(db, k, 1, status, phase, detail, now).reply == Changed && db.rows[k].state == Reconciling
    ensures var after := ReconcileReport(db, k, 1, status, phase, detail, now).db;
      k in after.rows && RowMove(db.rows[k], after.rows[k]) && after == Rewrite(db, k, after.rows[k], now)
  {
    hide Rederived, States;
  }

  lemma ReportEvolves(db: Db, k: Key, attempt: int, status: ReportStatus, phase: Option<DeviceState>,
                      detail: Option<string>, now: int)
    requires JobsFit(db)
    ensures Evolves(db, ReconcileReport(db, k, attempt, status, phase, detail, now).db, None)
  {
    hide Evolves, JobsFit, Rewrite, DropFence;
    var tx := ReconcileReport(db, k, attempt, status, phase, detail, now);
    if tx.reply != Changed {
      NothingEvolves(db);
    } else if db.rows[k].state == Unconfirmed {
      DropFenceEvolves(db, k.device, Some(k.job), false, now);
    } else {
      ReportMovesRow(db, k, status, phase, detail, now);
      RewriteEvolves(db, k, tx.db.rows[k], None, now);
    }
  }

  lemma SettleEvolves(db: Db, k: Key, attempt: int, v: Verdict, now: int)
    requires JobsFit(db)
    ensures Evolves(db, SettleResult(db, k, attempt, v, now).db, None)
  {
    hide Evolves, JobsFit, Rederived;
    var tx := SettleResult(db, k, attempt, v, now);
    if tx.reply == Changed {
      assert RowMove(db.rows[k], Settled(db.rows[k], v, now));
      CommitEvolves(db, tx.db.rows, tx.db.fences, {k.job}, true, None, now);
    } else {
      NothingEvolves(db);
    }
  }

  lemma RecoveredRowMoves(row: Row, acceptTimeout: int, timeout: int, now: int)
    ensures RowStep(row, RecoveredRow(row, acceptTimeout, timeout, now), false)
    ensures RecoveredRow(row, acceptTimeout, timeout, now) != row ==> ActiveDevice(row.state)
  {
  }

  lemma RecoveredRowsStep(db: Db, acceptTimeout: int, timeout: int, now: int)
    requires Inv(db)
    ensures RowsStep(db.rows, RecoveredRows(db.rows, acceptTimeout, timeout, now), None)
    ensures forall k :: k in db.rows && RecoveredRows(db.rows, acceptTimeout, timeout, now)[k] != db.rows[k] ==>
      k.job in db.jobs && (db.jobs[k.job].state == Running || db.jobs[k.job].state == JobReconciling)
  {
    hide RecoveredRow, RowStep, Inv;
    var rows := RecoveredRows(db.rows, acceptTimeout, timeout, now);
    forall k | k in db.rows
      ensures RowStep(db.rows[k], rows[k], false)
      ensures rows[k] != db.rows[k] ==>
        k.job in db.jobs && (db.jobs[k.job].state == Running || db.jobs[k.job].state == JobReconciling)
    {
      RecoveredRowMoves(db.rows[k], acceptTimeout, timeout, now);
      if ActiveDevice(db.rows[k].state) {
        ActiveRowsJob(db, k);
      }
    }
  }

  lemma PausedJobMoves(job: Job, states: set<DeviceState>, now: int)
    requires JobFits(job, states) && job.state != Running && job.state != JobReconciling
    ensures Rederived(RecoveredJob(job, now), states, now) == RecoveredJob(job, now)
    ensures JobMove(job, RecoveredJob(job, now), states, states)
  {
  }

  lemma RecoveryMovesJob(db: Db, acceptTimeout: int, timeout: int, now: int, j: JobId)
    requires Inv(db) && j in db.jobs
    ensures var after := Recover(db, acceptTimeout, timeout, now).db;
      && JobMove(db.jobs[j], after.jobs[j], States(db.rows, j), States(after.rows, j))
      && (db.jobs[j].state == Running || db.jobs[j].state == JobReconciling ==>
                db.jobs[j].revision < after.jobs[j].revision)
  {
    hide RecoveredRows, RowStep, States, Derive, JobFits, JobMove;
    RecoveredRowsStep(db, acceptTimeout, timeout, now);
    var rows := RecoveredRows(db.rows, acceptTimeout, timeout, now);
    RecoveredRowsKeys(db.rows, acceptTimeout, timeout, now);
    assert JobFits(db.jobs[j], States(db.rows, j));
    if db.jobs[j].state == Running || db.jobs[j].state == JobReconciling {
      RowsMoveJob(db.rows, rows, j, db.jobs[j], RecoveredJob(db.jobs[j], now), None, now);
    } else {
      StatesUnchanged(db.rows, rows, j);
      PausedJobMoves(db.jobs[j], States(db.rows, j), now);
    }
  }

  lemma RecoveredRowsKeys(rows: map<Key, Row>, acceptTimeout: int, timeout: int, now: int)
    ensures RecoveredRows(rows, acceptTimeout, timeout, now).Keys == rows.Keys
  {
  }

  /** Startup recovery bumps a revision only in its job branch; every row it changes is active,
      so its job is one of those. */
  lemma RecoverEvolves(db: Db, acceptTimeout: int, timeout: int, now: int)
    requires Inv(db)
    ensures Evolves(db, Recover(db, acceptTimeout, timeout, now).db, None)
  {
    hide RecoveredRows, RowStep, RowsStep, JobMove, Inv, Evolves, Rederived, States, RecoveryTouches;
    var after := Recover(db, acceptTimeout, timeout, now).db;
    RecoveredRowsStep(db, acceptTimeout, timeout, now);
    RecoveredRowsKeys(db.rows, acceptTimeout, timeout, now);
    forall j | j in db.jobs
      ensures JobMove(db.jobs[j], after.jobs[j], States(db.rows, j), States(after.rows, j))
      ensures db.jobs[j].state == Running || db.jobs[j].state == JobReconciling ==>
        db.jobs[j].revision < after.jobs[j].revision
    {
      RecoveryMovesJob(db, acceptTimeout, timeout, now, j);
    }
    assert after.jobs.Keys == db.jobs.Keys;
    Assemble(db, after);
  }

  lemma SalvagedRowsStep(db: Db, absent: set<string>, now: int)
    ensures RowsStep(db.rows, SalvagedRows(db, absent, now), None)
    ensures SalvagedRows(db, absent, now).Keys == db.rows.Keys
    ensures forall k :: k in db.rows && SalvagedRows(db, absent, now)[k] != db.rows[k] ==> RowLost(db, k, absent)
  {
  }

  lemma MissingMovesJob(db: Db, absent: set<string>, now: int, j: JobId)
    requires j in db.jobs && JobFits(db.jobs[j], States(db.rows, j))
    ensures var after := MissingArtifacts(db, absent, now).db;
      JobMove(db.jobs[j], after.jobs[j], States(db.rows, j), States(after.rows, j))
  {
    hide SalvagedRows, RowStep;
    SalvagedRowsStep(db, absent, now);
    var rows := SalvagedRows(db, absent, now);
    if ArtifactLost(db.jobs[j], absent) && db.jobs[j].state != Ready {
      RowsMoveJob(db.rows, rows, j, db.jobs[j], Bumped(db.jobs[j], now), None, now);
    } else {
      StatesUnchanged(db.rows, rows, j);
    }
  }

  lemma MissingEvolves(db: Db, absent: set<string>, now: int)
    requires JobsFit(db)
    ensures Evolves(db, MissingArtifacts(db, absent, now).db, None)
  {
    hide SalvagedRows, RowStep, RowsStep, JobMove, JobFits, Evolves;
    var after := MissingArtifacts(db, absent, now).db;
    SalvagedRowsStep(db, absent, now);
    forall j | j in db.jobs
      ensures JobMove(db.jobs[j], after.jobs[j], States(db.rows, j), States(after.rows, j))
    {
      MissingMovesJob(db, absent, now, j);
    }
    assert after.jobs.Keys == db.jobs.Keys;
    Assemble(db, after);
  }

  // ---- Evolving keeps the invariant ----

  lemma ActiveTrace(a: Db, b: Db, claimed: Option<Key>, k: Key)
    requires RowsStep(a.rows, b.rows, claimed) && RowsAppear(a, b)
    requires k in b.rows && ActiveDevice(b.rows[k].state)
    ensures k in a.rows && (ActiveDevice(a.rows[k].state) || (claimed == Some(k)))
  {
  }

  lemma KeepsSingleActive(a: Db, b: Db, claimed: Option<Key>)
    requires SingleActive(a) && Evolves(a, b, claimed)
    ensures SingleActive(b)
  {
    hide JobsEvolve, FencesEvolve, FirstInLine, RowStep, FreshRow;
    forall k, o | k in b.rows && o in b.rows && k.device == o.device
      && ActiveDevice(b.rows[k].state) && ActiveDevice(b.rows[o].state)
      ensures k == o
    {
      ActiveTrace(a, b, claimed, k);
      ActiveTrace(a, b, claimed, o);
    }
  }

  lemma KeepsFences(a: Db, b: Db, claimed: Option<Key>)
    requires SingleActive(a) && FencesNameUnconfirmed(a) && Evolves(a, b, claimed)
    ensures FencesNameUnconfirmed(b)
  {
    hide JobsEvolve, FirstInLine, RowMove;
    forall d | d in b.fences && b.fences[d].JobFence?
      ensures HasRow(b, b.fences[d].job, d) && b.rows[Key(b.fences[d].job, d)].state == Unconfirmed && !DeviceBusy(b, d)
    {
      var named := Key(b.fences[d].job, d);
      assert named in a.rows && RowStep(a.rows[named], b.rows[named], claimed == Some(named));
      TerminalRowStays(a.rows[named], b.rows[named], claimed == Some(named));
      forall k | k in b.rows && k.device == d ensures !ActiveDevice(b.rows[k].state) {
        if ActiveDevice(b.rows[k].state) {
          ActiveTrace(a, b, claimed, k);
          assert false;
        }
      }
    }
  }

  lemma TerminalRowStays(r: Row, s: Row, taken: bool)
    requires RowStep(r, s, taken)
    ensures TerminalDevice(r.state) ==> s == r
  {
  }

  lemma KeepsRows(a: Db, b: Db, claimed: Option<Key>)
    requires RowsBelong(a) && SeqsDiffer(a) && ReconcilingHasDeadline(a) && Evolves(a, b, claimed)
    ensures RowsBelong(b) && SeqsDiffer(b) && ReconcilingHasDeadline(b)
  {
    hide JobMove, JobFits, FencesEvolve, Claimable;
    forall k | k in a.rows ensures b.rows[k].enqueueSeq == a.rows[k].enqueueSeq {
    }
  }

  lemma EvolvesKeepsInv(a: Db, b: Db, claimed: Option<Key>)
    requires Inv(a) && Evolves(a, b, claimed)
    ensures Inv(b)
  {
    hide SingleActive, FencesNameUnconfirmed, RowsBelong, SeqsDiffer, ReconcilingHasDeadline, RowsStep, RowsAppear,
      FencesEvolve, Claimable, JobFits;
    KeepsRows(a, b, claimed);
    KeepsSingleActive(a, b, claimed);
    KeepsFences(a, b, claimed);
  }
}
