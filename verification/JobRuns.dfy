/** Whole runs of the Push/Sync server: any interleaving of its transactions, with restarts,
    lost and late client messages, and callers that act on what they read some steps ago. */
module JobRuns {
  import opened PushJobs
  import opened JobTables
  import opened JobInvariants

  /** The tables, plus two records of the past that no table keeps: the rows ever claimed, and
      what each `_handle_busy` call has read so far about the execution the client named. */
  datatype World = World(db: Db, claimed: set<Key>, sightings: set<(Key, JobId)>)

  datatype Step =
    | Create(request: Request, id: JobId, timeout: int, now: int)
    | Upload(job: JobId, now: int)
    | Expire(job: JobId, due: Option<int>, now: int)
    | Package(job: JobId, files: Counts, now: int)
    | Publish(job: JobId, artifact: string, now: int)
    | FailUpload(job: JobId, state: JobState, code: string, detail: string, now: int)
    | Enable(job: JobId, now: int)
    | ClaimNext(online: set<DeviceId>, choice: Option<Key>, now: int)
    | Prepare(key: Key, protocol: Protocol, acceptDeadline: Option<int>, now: int)
    | Transition(key: Key, change: Change, now: int)
    | TimeOutAccept(key: Key, expected: int, deadline: int, now: int)
    | TimeOutReconcile(key: Key, process: Option<string>, detail: string, due: Option<int>, now: int)
    | FenceOpaque(device: DeviceId, identity: OpaqueIdentity, protocol: Protocol, process: Option<string>,
                  reason: string, now: int)
    | ReplaceProcess(device: DeviceId, process: Option<string>, jobV1: bool, now: int)
    | ClearFence(key: Key, attempt: int, now: int)
    | ClearOpaque(key: Key, now: int)
    | LateResult(key: Key, attempt: int, now: int)
    | Report(key: Key, attempt: int, status: ReportStatus, phase: Option<DeviceState>, text: Option<string>, now: int)
    | Settle(key: Key, attempt: int, verdict: Verdict, now: int)
    | Restart(acceptTimeout: int, reconcileTimeout: int, now: int)
    | LoseArtifacts(absent: set<string>, now: int)
    | Sight(key: Key, active: JobId)

  /** What `_handle_busy` must see before it puts a row back in the queue. */
  predicate SeesOther(db: Db, k: Key, active: JobId) {
    && active != k.job && HasRow(db, active, k.device)
    && (ActiveDevice(db.rows[Key(active, k.device)].state)
        || (db.rows[Key(active, k.device)].state == Unconfirmed && FencedBy(db, k.device, active)))
  }

  /** The calls the server makes. A busy reply answers a command that was sent, so its row has
      been claimed; the requeue may come any number of steps after the reads that justify it. */
  predicate Allowed(w: World, step: Step) {
    match step
    case Create(request, id, _, _) => ValidRequest(request) && id !in w.db.jobs
    case FailUpload(j, state, _, _, _) =>
      state == JobFailed && j in w.db.jobs ==> w.db.jobs[j].state != Running && w.db.jobs[j].state != JobReconciling
    case ClaimNext(online, choice, _) => ClaimChoice(w.db, online, choice)
    case Transition(k, change, _) =>
      CallerMakes(change) && (change.BusyWithOther? ==> (k, change.active) in w.sightings)
    case Sight(k, active) => k in w.claimed && SeesOther(w.db, k, active)
    case _ => true
  }

  function Effect(w: World, step: Step): Tx
    requires Allowed(w, step)
  {
    match step
    case Create(request, id, timeout, now) => CreateJob(w.db, request, id, timeout, now)
    case Upload(j, now) => StartUpload(w.db, j, now)
    case Expire(j, deadline, now) => ExpireCreated(w.db, j, deadline, now)
    case Package(j, files, now) => MarkPackaging(w.db, j, files, now)
    case Publish(j, artifact, now) => PublishArtifact(w.db, j, artifact, now)
    case FailUpload(j, state, code, detail, now) => FailPreDispatch(w.db, j, state, code, detail, now)
    case Enable(j, now) => EnableDispatch(w.db, j, now)
    case ClaimNext(_, choice, now) => Claim(w.db, choice, now)
    case Prepare(k, protocol, acceptDeadline, now) => PrepareDispatch(w.db, k, protocol, acceptDeadline, now)
    case Transition(k, change, now) => TransitionDevice(w.db, k, change, now)
    case TimeOutAccept(k, expected, deadline, now) => AcceptTimeout(w.db, k, expected, deadline, now)
    case TimeOutReconcile(k, process, detail, due, now) => MarkUnconfirmed(w.db, k, process, detail, due, now)
    case FenceOpaque(d, identity, protocol, process, reason, now) =>
      AddOpaqueFence(w.db, d, identity, protocol, process, reason, now)
    case ReplaceProcess(d, process, jobV1, now) => ClearOnReplacement(w.db, d, process, jobV1, now)
    case ClearFence(k, attempt, now) => ClearMatching(w.db, k, attempt, now)
    case ClearOpaque(k, now) => ClearMatchingOpaque(w.db, k, now)
    case LateResult(k, attempt, now) => SettleLate(w.db, k, attempt, now)
    case Report(k, attempt, status, phase, text, now) => ReconcileReport(w.db, k, attempt, status, phase, text, now)
    case Settle(k, attempt, verdict, now) => SettleResult(w.db, k, attempt, verdict, now)
    case Restart(acceptTimeout, timeout, now) => Recover(w.db, acceptTimeout, timeout, now)
    case LoseArtifacts(absent, now) => MissingArtifacts(w.db, absent, now)
    case Sight(_, _) => Tx(w.db, Kept)
  }

  function Taken(step: Step): Option<Key> {
    if step.ClaimNext? then step.choice else None
  }

  function Next(w: World, step: Step): World
    requires Allowed(w, step)
  {
    World(Effect(w, step).db,
          if Taken(step).Some? then w.claimed + {Taken(step).value} else w.claimed,
          if step.Sight? then w.sightings + {(step.key, step.active)} else w.sightings)
  }

  const START := World(Db(map[], map[], map[], 1), {}, {})

  ghost predicate Run(ws: seq<World>, steps: seq<Step>) {
    && |ws| == |steps| + 1
    && ws[0] == START
    && forall i :: 0 <= i < |steps| ==> Allowed(ws[i], steps[i]) && ws[i + 1] == Next(ws[i], steps[i])
  }

  // ---- The invariant of a run ----

  predicate Passed(db: Db, k: Key)
    requires k in db.rows && k.job in db.jobs
  {
    TerminalDevice(db.rows[k].state) || TerminalJob(db.jobs[k.job].state)
  }

  ghost predicate ClaimedWereDispatched(w: World) {
    && (forall k :: k in w.claimed ==> k in w.db.rows && k.job in w.db.jobs && Dispatched(w.db.jobs[k.job]))
    && (forall k :: k in w.db.rows && w.db.rows[k].state != Queued && w.db.rows[k].state != Failed ==> k in w.claimed)
  }

  ghost predicate ClaimedInOrder(w: World) {
    forall k, o | k in w.claimed && k in w.db.rows && o in w.db.rows && o.device == k.device && o.job in w.db.jobs ::
      w.db.rows[o].enqueueSeq < w.db.rows[k].enqueueSeq ==> Passed(w.db, o)
  }

  ghost predicate FencedIsNewestClaim(w: World) {
    forall k, d | k in w.claimed && k in w.db.rows && d in w.db.fences && w.db.fences[d].JobFence? && k.device == d ::
      HasRow(w.db, w.db.fences[d].job, d) ==>
        w.db.rows[k].enqueueSeq <= w.db.rows[Key(w.db.fences[d].job, d)].enqueueSeq
  }

  ghost predicate SightedAreOver(w: World) {
    forall s :: s in w.sightings ==> s.0 in w.db.rows && TerminalDevice(w.db.rows[s.0].state)
  }

  ghost predicate RunInv(w: World) {
    && Inv(w.db)
    && ClaimedWereDispatched(w)
    && ClaimedInOrder(w)
    && FencedIsNewestClaim(w)
    && SightedAreOver(w)
  }

  lemma UploadMovesJob(w: World, step: Step)
    requires Allowed(w, step) && Effect(w, step).db != w.db
    requires step.Upload? || step.Expire? || step.Package? || step.Publish? || step.FailUpload? || step.Enable?
    ensures var db, after := w.db, Effect(w, step).db;
      step.job in db.jobs && step.job in after.jobs && after == db.(jobs := db.jobs[step.job := after.jobs[step.job]])
  {
  }

  lemma UploadKeepsFit(w: World, step: Step)
    requires Allowed(w, step) && Effect(w, step).db != w.db
    requires step.Upload? || step.Expire? || step.Package? || step.Publish? || step.FailUpload? || step.Enable?
    requires step.job in w.db.jobs && step.job in Effect(w, step).db.jobs
    requires JobFits(w.db.jobs[step.job], States(w.db.rows, step.job))
    ensures var states := States(w.db.rows, step.job);
      JobMove(w.db.jobs[step.job], Effect(w, step).db.jobs[step.job], states, states)
  {
    hide States, UPLOAD_NOT_STARTED, UPLOAD_NOT_STARTED_DETAIL;
  }

  lemma UploadEvolves(w: World, step: Step)
    requires JobsFit(w.db) && Allowed(w, step)
    requires step.Upload? || step.Expire? || step.Package? || step.Publish? || step.FailUpload? || step.Enable?
    ensures Evolves(w.db, Effect(w, step).db, None)
  {
    hide Evolves, States, Effect, Allowed, JobFits, JobMove;
    var db, after := w.db, Effect(w, step).db;
    if after != db {
      UploadMovesJob(w, step);
      UploadKeepsFit(w, step);
      JobOnlyEvolves(db, step.job, after.jobs[step.job]);
    } else {
      NothingEvolves(db);
    }
  }

  lemma DispatchEvolves(w: World, step: Step)
    requires JobsFit(w.db) && Allowed(w, step)
    requires step.ClaimNext? || step.Prepare? || step.TimeOutAccept?
    ensures Evolves(w.db, Effect(w, step).db, Taken(step))
  {
    hide Evolves, JobsFit, Rewrite, FirstInLine, DeviceBusy;
    var db := w.db;
    if Effect(w, step).reply != Changed {
      NothingEvolves(db);
    } else {
      match step
      case ClaimNext(_, choice, now) =>
        var row := db.rows[choice.value].(state := WaitingTransfer, queueReason := None, updatedAt := now);
        RewriteEvolves(db, choice.value, row, choice, now);
      case Prepare(k, protocol, acceptDeadline, now) =>
        var row := db.rows[k].(state := Dispatching, protocol := protocol,
                               acceptDeadline := acceptDeadline, updatedAt := now);
        RewriteEvolves(db, k, row, None, now);
      case TimeOutAccept(k, _, deadline, now) =>
        RewriteEvolves(db, k, db.rows[k].(state := Reconciling, reconReason := Some(CommandAcceptTimeout),
                                          reconDeadline := Some(deadline), updatedAt := now), None, now);
    }
  }

  lemma FenceStepEvolves(w: World, step: Step)
    requires JobsFit(w.db) && Allowed(w, step)
    requires step.FenceOpaque? || step.ReplaceProcess? || step.ClearFence? || step.ClearOpaque? || step.LateResult?
    ensures Evolves(w.db, Effect(w, step).db, None)
  {
    hide Evolves, JobsFit, DropFence, Commit, VisibleJobs;
    var db := w.db;
    if Effect(w, step).reply != Changed {
      NothingEvolves(db);
    } else {
      match step
      case FenceOpaque(d, identity, protocol, process, reason, now) =>
        var fences := Upserted(db, d, OpaqueFence(identity, protocol, process, Clip(reason, DETAIL_LIMIT), now, now));
        CommitEvolves(db, db.rows, fences, VisibleJobs(db.(fences := fences), d, None), false, None, now);
      case ReplaceProcess(d, _, _, now) =>
        DropFenceEvolves(db, d, if db.fences[d].JobFence? then Some(db.fences[d].job) else None, true, now);
      case ClearFence(k, _, now) => DropFenceEvolves(db, k.device, Some(k.job), false, now);
      case ClearOpaque(k, now) => DropFenceEvolves(db, k.device, None, true, now);
      case LateResult(k, _, now) => DropFenceEvolves(db, k.device, Some(k.job), false, now);
    }
  }

  /** The busy requeue is dead code: its row is already terminal when it comes. */
  lemma BusyRequeueIsDead(w: World, k: Key, active: JobId, now: int)
    requires RunInv(w) && Allowed(w, Transition(k, BusyWithOther(active), now))
    ensures TransitionDevice(w.db, k, BusyWithOther(active), now) == Tx(w.db, Conflict)
  {
    assert (k, active) in w.sightings;
  }

  lemma StepEvolves(w: World, step: Step)
    requires RunInv(w) && Allowed(w, step)
    ensures Evolves(w.db, Effect(w, step).db, Taken(step))
  {
    hide Evolves, JobsFit, RowsBelong, SightedAreOver, SingleActive;
    match step
    case Create(request, id, timeout, now) => CreateEvolves(w.db, request, id, timeout, now);
    case Transition(k, change, now) =>
      if change.BusyWithOther? {
        BusyRequeueIsDead(w, k, change.active, now);
        NothingEvolves(w.db);
      } else {
        TransitionEvolves(w.db, k, change, now);
      }
    case TimeOutReconcile(k, process, detail, due, now) => UnconfirmedEvolves(w.db, k, process, detail, due, now);
    case Report(k, attempt, status, phase, text, now) => ReportEvolves(w.db, k, attempt, status, phase, text, now);
    case Settle(k, attempt, verdict, now) => SettleEvolves(w.db, k, attempt, verdict, now);
    case Restart(acceptTimeout, timeout, now) => RecoverEvolves(w.db, acceptTimeout, timeout, now);
    case LoseArtifacts(absent, now) => MissingEvolves(w.db, absent, now);
    case Sight(_, _) => NothingEvolves(w.db);
    case ClaimNext(_, _, _) => DispatchEvolves(w, step);
    case Prepare(_, _, _, _) => DispatchEvolves(w, step);
    case TimeOutAccept(_, _, _, _) => DispatchEvolves(w, step);
    case FenceOpaque(_, _, _, _, _, _) => FenceStepEvolves(w, step);
    case ReplaceProcess(_, _, _, _) => FenceStepEvolves(w, step);
    case ClearFence(_, _, _) => FenceStepEvolves(w, step);
    case ClearOpaque(_, _) => FenceStepEvolves(w, step);
    case LateResult(_, _, _) => FenceStepEvolves(w, step);
    case _ => UploadEvolves(w, step);
  }

  // ---- Every step keeps the invariant ----

  lemma PassedStays(a: Db, b: Db, claimed: Option<Key>, k: Key)
    requires Evolves(a, b, claimed) && k in a.rows && k.job in a.jobs && Passed(a, k)
    ensures k in b.rows && k.job in b.jobs && Passed(b, k)
  {
    TerminalRowStays(a.rows[k], b.rows[k], claimed == Some(k));
  }

  lemma SeqStays(a: Db, b: Db, claimed: Option<Key>, k: Key)
    requires Evolves(a, b, claimed) && k in a.rows
    ensures k in b.rows && b.rows[k].enqueueSeq == a.rows[k].enqueueSeq
  {
  }

  /** When a row is claimed, every older row of the device is over or belongs to a finished job. */
  lemma ClaimPassesOlder(db: Db, k: Key, o: Key)
    requires Inv(db) && Claimable(db, k)
    requires o in db.rows && o.device == k.device && db.rows[o].enqueueSeq < db.rows[k].enqueueSeq
    ensures o.job in db.jobs && Passed(db, o)
  {
    hide SingleActive, FencesNameUnconfirmed, JobFits;
    assert WaitsInLine(db, o) || ActiveDevice(db.rows[o].state) || Passed(db, o);
  }

  lemma NextKeepsClaimed(w: World, step: Step)
    requires RunInv(w) && Allowed(w, step) && Evolves(w.db, Effect(w, step).db, Taken(step))
    ensures ClaimedWereDispatched(Next(w, step))
  {
    hide Effect, FirstInLine, DeviceBusy, JobFits, FencesEvolve;
    var v := Next(w, step);
    forall k | k in v.claimed ensures k in v.db.rows && k.job in v.db.jobs && Dispatched(v.db.jobs[k.job]) {
      if k !in w.claimed {
        assert Claimable(w.db, k) && JobFits(w.db.jobs[k.job], States(w.db.rows, k.job));
        RunningIsDispatched(w.db, k.job);
      }
    }
    forall k | k in v.db.rows && v.db.rows[k].state != Queued && v.db.rows[k].state != Failed ensures k in v.claimed {
      assert k in w.db.rows && RowStep(w.db.rows[k], v.db.rows[k], Taken(step) == Some(k));
    }
  }

  lemma RunningIsDispatched(db: Db, j: JobId)
    requires Inv(db) && j in db.jobs && (db.jobs[j].state == Running || db.jobs[j].state == JobReconciling)
    ensures Dispatched(db.jobs[j])
  {
    assert JobFits(db.jobs[j], States(db.rows, j));
  }

  lemma NextKeepsOrder(w: World, step: Step)
    requires RunInv(w) && Allowed(w, step) && Evolves(w.db, Effect(w, step).db, Taken(step))
    ensures ClaimedInOrder(Next(w, step))
  {
    hide Effect, JobsEvolve, FencesEvolve, RowStep, FirstInLine, DeviceBusy, Passed;
    var v := Next(w, step);
    forall k, o | k in v.claimed && k in v.db.rows && o in v.db.rows && o.device == k.device && o.job in v.db.jobs
      && v.db.rows[o].enqueueSeq < v.db.rows[k].enqueueSeq
      ensures Passed(v.db, o)
    {
      SeqStays(w.db, v.db, Taken(step), k);
      assert w.db.rows[k].enqueueSeq < w.db.nextSeq;
      assert o in w.db.rows by { assert o !in w.db.rows ==> FreshRow(w.db, v.db, o); }
      SeqStays(w.db, v.db, Taken(step), o);
      if k !in w.claimed {
        ClaimPassesOlder(w.db, k, o);
      }
      PassedStays(w.db, v.db, Taken(step), o);
    }
  }

  lemma UnderwayIsNotPassed(w: World, k: Key)
    requires RunInv(w) && k in w.claimed && !TerminalDevice(w.db.rows[k].state)
    ensures !Passed(w.db, k)
  {
    hide JobFits, SingleActive, FencesNameUnconfirmed, ClaimedInOrder, FencedIsNewestClaim, SightedAreOver;
    if TerminalJob(w.db.jobs[k.job].state) {
      FinishedRows(w.db, k);
    }
  }

  /** A device is fenced for its newest claimed row. */
  lemma NewFenceIsNewest(w: World, k: Key, named: Key)
    requires RunInv(w) && named in w.db.rows && w.db.rows[named].state == Reconciling
    requires k in w.claimed && k.device == named.device
    ensures w.db.rows[k].enqueueSeq <= w.db.rows[named].enqueueSeq
  {
    hide JobsFit, SingleActive, FencesNameUnconfirmed, FencedIsNewestClaim, SightedAreOver, Passed,
      ReconcilingHasDeadline;
    UnderwayIsNotPassed(w, named);
  }

  lemma NextKeepsFencedNewest(w: World, step: Step)
    requires RunInv(w) && Allowed(w, step) && Evolves(w.db, Effect(w, step).db, Taken(step))
    ensures FencedIsNewestClaim(Next(w, step))
  {
    hide Effect, JobsEvolve, RowStep, RowsAppear, FirstInLine, JobFits, SingleActive, ClaimedInOrder, SightedAreOver;
    var v := Next(w, step);
    forall k, d | k in v.claimed && k in v.db.rows && d in v.db.fences && v.db.fences[d].JobFence? && k.device == d
      && HasRow(v.db, v.db.fences[d].job, d)
      ensures v.db.rows[k].enqueueSeq <= v.db.rows[Key(v.db.fences[d].job, d)].enqueueSeq
    {
      var named := Key(v.db.fences[d].job, d);
      if k !in w.claimed {
        assert false;
      }
      SeqStays(w.db, v.db, Taken(step), k);
      SeqStays(w.db, v.db, Taken(step), named);
      if !FencedBy(w.db, d, named.job) {
        NewFenceIsNewest(w, k, named);
      }
    }
  }

  /** A row that was claimed is over whenever the device is seen busy with another job. */
  lemma SightedIsOver(w: World, k: Key, active: JobId)
    requires RunInv(w) && k in w.claimed && SeesOther(w.db, k, active)
    ensures TerminalDevice(w.db.rows[k].state)
  {
    hide JobFits, SingleActive, SightedAreOver, JobsFit, ReconcilingHasDeadline, FencesNameUnconfirmed, Passed;
    var db, other := w.db, Key(active, k.device);
    assert other in w.claimed && other.job in db.jobs && db.rows[other].enqueueSeq != db.rows[k].enqueueSeq;
    if db.rows[k].enqueueSeq < db.rows[other].enqueueSeq {
      if !TerminalDevice(db.rows[k].state) {
        UnderwayIsNotPassed(w, k);
      }
    } else {
      assert Passed(db, other);
      if ActiveDevice(db.rows[other].state) {
        UnderwayIsNotPassed(w, other);
      }
    }
  }

  lemma NextKeepsSightings(w: World, step: Step)
    requires RunInv(w) && Allowed(w, step) && Evolves(w.db, Effect(w, step).db, Taken(step))
    ensures SightedAreOver(Next(w, step))
  {
    hide Effect, JobsEvolve, FencesEvolve, Claimable, RowMove;
    var v := Next(w, step);
    forall s | s in v.sightings ensures s.0 in v.db.rows && TerminalDevice(v.db.rows[s.0].state) {
      if s !in w.sightings {
        SightedIsOver(w, s.0, s.1);
      }
      TerminalRowStays(w.db.rows[s.0], v.db.rows[s.0], Taken(step) == Some(s.0));
    }
  }

  lemma NextKeepsRunInv(w: World, step: Step)
    requires RunInv(w) && Allowed(w, step)
    ensures Evolves(w.db, Next(w, step).db, Taken(step)) && RunInv(Next(w, step))
  {
    hide Evolves, Effect, Inv, ClaimedWereDispatched, ClaimedInOrder, FencedIsNewestClaim, SightedAreOver;
    StepEvolves(w, step);
    EvolvesKeepsInv(w.db, Next(w, step).db, Taken(step));
    NextKeepsClaimed(w, step);
    NextKeepsOrder(w, step);
    NextKeepsFencedNewest(w, step);
    NextKeepsSightings(w, step);
  }

  lemma {:induction false} RunsKeepInv(ws: seq<World>, steps: seq<Step>, i: nat)
    requires Run(ws, steps) && i < |ws|
    ensures RunInv(ws[i])
    ensures i < |steps| ==> Evolves(ws[i].db, ws[i + 1].db, Taken(steps[i]))
  {
    hide Effect, Evolves;
    if i > 0 {
      RunsKeepInv(ws, steps, i - 1);
      hide RunInv;
      NextKeepsRunInv(ws[i - 1], steps[i - 1]);
    }
    if i < |steps| {
      NextKeepsRunInv(ws[i], steps[i]);
    }
  }
}
