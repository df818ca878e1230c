/** What the client's handlers achieve, told in the fields of its records and messages. */
module CoordinatorOutcomes {
  import opened PushJobs
  import opened PushProtocol
  import opened Coordinator
  import opened CoordinatorRuns
  import Blanks

  // ---- Commands ----

  lemma LowercaseInStore(checks: Checks, c: Command)
    requires Storable(checks, c)
    ensures c.artifactSha256.Some? ==> Lowercase(c.artifactSha256.value) == c.artifactSha256.value
  {
    hide CommandAccepted, Lowercase, Trim, CommandToJson;
    CommandFields(c);
  }

  /** Two commands the client keeps are the same execution exactly if they are the same command. */
  lemma SameExecutionIsEquality(checks: Checks, a: Command, b: Command)
    requires Storable(checks, a) && Storable(checks, b)
    ensures SameExecution(a, b) <==> a == b
  {
    hide Storable, Lowercase;
    LowercaseInStore(checks, a);
    LowercaseInStore(checks, b);
  }

  /** The gate grants a free lease, knows the very execution it holds, tells a clash of identities
      from it, and is busy for everything else and for whatever has no identity. */
  lemma GateDecides(lease: Option<Command>, c: Command)
    ensures var decision := Decide(lease, c);
      && (decision == Granted <==> lease == None)
      && (lease.Some? && lease.value.jobId.Some? && lease.value.jobId == c.jobId && lease.value.attempt == c.attempt ==>
            decision == if SameExecution(lease.value, c) then Duplicate else Clash)
      && (lease.Some? ==>
            lease.value.jobId == None || lease.value.jobId != c.jobId || lease.value.attempt != c.attempt ==>
            decision == HeldBy(lease.value))
  {
    hide SameExecution;
  }

  /** A job-v1 order in every situation: a known result is repeated or, for other content under
      the same identity, refused; without durability it is refused; the very execution under way
      is accepted again with its phase; a busy client says with what; and an idle one accepts only
      what it has saved. */
  lemma OrderIsAnswered(checks: Checks, m: Memory, payload: Object, c: Command, ok: bool, now: int)
    requires ParseCommand(checks, payload) == Some(c) && c.jobId.Some? && m.lease == ActiveCommand(m.state)
    ensures var o, known := OnCommand(checks, m, payload, ok, now), FindTerminal(m.state, c);
      && (known.Some? ==>
            && o.sent == [if SameExecution(known.value.command, c) then Terminal(ResultToJson(known.value.result))
                          else IdentityMismatch(c)]
            && o.saved == None && o.start == None)
      && (known.None? && !m.durable ==> o.sent == [PersistenceUnavailable(c)] && o.saved == None && o.start == None)
      && (known.None? && m.durable && m.state.active.Some? ==>
            var a := m.state.active.value;
            && o.saved == None && o.start == None
            && o.sent == [if !SameIdentity(a.command, c) then Busy(c, a.command)
                          else if SameExecution(a.command, c) then Accepted(c, a.phase) else IdentityMismatch(c)])
      && (known.None? && m.durable && m.state.active.None? && !ok ==>
            o.sent == [PersistenceUnavailable(c)] && o.saved == None && o.start == None && !o.memory.durable)
      && (known.None? && m.durable && m.state.active.None? && ok ==>
            && o.saved.Some? && o.saved.value.state.active == Some(Active(c, "downloading"))
            && o.saved.value.receiptTime == None
            && o.memory.state == o.saved.value.state && o.memory.lease == Some(c) && o.memory.durable
            && o.sent == [Accepted(c, "downloading")] && o.start == Some(c))
  {
    hide ParseCommand, SameExecution, ResultToJson, FindTerminal;
    hide RetainedReceipts, TakeLast;
  }

  /** An order without identity, from an old server: never a duplicate, started only by an idle client
      that has saved it, and then without a message. Anything malformed starts nothing. */
  lemma LegacyOrderIsAnswered(checks: Checks, m: Memory, payload: Object, ok: bool, now: int)
    requires m.lease == ActiveCommand(m.state)
    ensures var o, parsed := OnCommand(checks, m, payload, ok, now), ParseCommand(checks, payload);
      && (parsed.None? ==> o == Outcome(None, [Malformed(payload)], None, m))
      && (parsed.Some? && parsed.value.jobId == None ==>
            var c := parsed.value;
            && (m.durable && m.state.active.None? && ok ==>
                  && o.saved.Some? && o.saved.value.state.active == Some(Active(c, "downloading"))
                  && o.sent == [] && o.start == Some(c))
            && (m.durable && m.state.active.Some? ==>
                      o == Outcome(None, [Busy(c, m.state.active.value.command)], None, m))
            && (!m.durable || (m.state.active.None? && !ok) ==>
                  o.saved == None && o.sent == [PersistenceUnavailable(c)] && o.start == None))
  {
    hide ParseCommand, RetainedReceipts, TakeLast;
    var parsed := ParseCommand(checks, payload);
    if parsed.Some? {
      FindReceiptFinds(m.state.pending, parsed.value);
      FindReceiptFinds(m.state.completed, parsed.value);
    }
  }

  /** The receipt found for an order carries its identity, and there is none exactly if no result of
      that job and attempt is kept. */
  lemma FoundReceiptIsItsOwn(s: State, c: Command)
    ensures var known := FindTerminal(s, c);
      && (known.Some? ==>
            && (known.value in s.pending || known.value in s.completed)
            && known.value.command.jobId == c.jobId && known.value.command.attempt == c.attempt)
      && (known.None? <==> forall r :: r in s.pending || r in s.completed ==>
            !(r.command.jobId.Some? && r.command.jobId == c.jobId && r.command.attempt == c.attempt))
  {
    FindReceiptFinds(s.pending, c);
    FindReceiptFinds(s.completed, c);
  }

  // ---- Phases and results ----

  /** The phase saved is the one reached, of the execution it belongs to; the rest stays. */
  lemma PhasesAreSaved(m: Memory, c: Command, received: int, ok: bool, now: int)
    requires m.state.active.Some? && m.state.active.value.command == c
    ensures var o := OnTransferComplete(m, c, received, ok, now);
      if ok then
        && o.saved == Some(Saved(Normalize(m.state.(active := Some(Active(c, "validating"))), now), None))
        && o.memory.state == o.saved.value.state && o.sent == [Transferred(c, received)]
      else o.saved == None && o.sent == [] && !o.memory.durable && o.memory.state == m.state
    ensures var o := OnApplying(m, c, ok, now);
      if ok then
        && o.saved == Some(Saved(Normalize(m.state.(active := Some(Active(c, "applying"))), now), None))
        && o.memory.state == o.saved.value.state && o.sent == (if c.jobId.Some? then [ApplyingNow(c)] else [])
      else o.saved == None && o.sent == [] && !o.memory.durable && o.memory.state == m.state
    ensures OnValidated(m, c)
      == Outcome(None, if m.state.active.value.phase == "validating" && c.jobId.Some? then [Validated(c)] else [], None,
                 m)
  {
    hide Normalize;
  }

  /** A worker of another execution changes nothing and says nothing. */
  lemma StrayWorkersAreIgnored(m: Memory, c: Command, received: int, r: Result, ok: bool, now: int)
    requires m.state.active.None? || m.state.active.value.command.jobId != c.jobId
    ensures OnTransferComplete(m, c, received, ok, now) == Outcome(None, [], None, m)
    ensures OnValidated(m, c) == Outcome(None, [], None, m) && OnApplying(m, c, ok, now) == Outcome(None, [], None, m)
    ensures OnTerminal(m, c, r, ok, now) == Outcome(None, [], None, m)
  {
  }

  /** A worker's result ends the execution: it is the newest receipt and, for a job, the newest of
      the outbox; the lease is free; and the very result is sent. A failed save leaves all as it was. */
  lemma ResultIsRecorded(m: Memory, c: Command, r: Result, ok: bool, now: int)
    requires m.state.active.Some? && m.state.active.value.command == c && m.lease == Some(c)
    ensures var o := OnTerminal(m, c, r, ok, now);
      var pending := if c.jobId.Some? then m.state.pending + [Receipt(c, r)] else m.state.pending;
      if ok then
        && o.saved.Some? && o.saved.value.receiptTime == Some(r.completedAt)
        && o.saved.value.state
           == Normalize(State(None, pending, TakeLast(m.state.completed + [Receipt(c, r)], 256)), now)
        && o.memory.lease == None && o.memory.state == o.saved.value.state && o.sent == [Terminal(ResultToJson(r))]
      else
        && o.saved == None && o.sent == [] && o.memory.lease == Some(c)
        && o.memory.state == m.state && !o.memory.durable
  {
    hide ResultToJson, Normalize, TakeLast;
  }

  /** An acknowledgement that concludes takes exactly the results of its job and attempt out of the
      outbox and keeps the newest of them as a receipt; any other changes nothing. */
  lemma AckMovesResult(s: State, ack: Ack)
    ensures ApplyAck(s, ack) == None <==>
      ((!ack.accepted && ack.retryable)
       || forall r :: r in s.pending ==> r.result.jobId != Some(ack.jobId) || r.result.attempt != ack.attempt)
    ensures ApplyAck(s, ack).Some? ==>
      var t := ApplyAck(s, ack).value;
      && t.active == s.active && t.completed != []
      && (forall r :: r in t.pending <==>
            r in s.pending && (r.result.jobId != Some(ack.jobId) || r.result.attempt != ack.attempt))
      && var kept := t.completed[|t.completed| - 1];
      && kept in s.pending && kept.result.jobId == Some(ack.jobId) && kept.result.attempt == ack.attempt
  {
    AckedParts(s.pending, ack);
    AckedParts(s.completed, ack);
  }

  /** What normalising keeps: the newest 256 of the outbox, and of the receipts the newest 256 that
      carry no time or are at most seven days old. */
  lemma {:induction false} NormalizedReceipts(rs: seq<Receipt>, now: int)
    ensures forall r :: r in RetainedReceipts(rs, now - RETENTION_MS) <==>
      r in rs && (r.result.completedAt <= 0 || now - r.result.completedAt <= 7 * 24 * 60 * 60 * 1000)
  {
    if rs != [] {
      NormalizedReceipts(rs[..|rs| - 1], now);
      assert rs == rs[..|rs| - 1] + [rs[|rs| - 1]];
    }
  }

  lemma NormalizedIsNewest(s: State, now: int)
    ensures var t, young := Normalize(s, now), RetainedReceipts(s.completed, now - RETENTION_MS);
      && t.active == s.active
      && t.pending == (if |s.pending| <= 256 then s.pending else s.pending[|s.pending| - 256..])
      && t.completed == (if |young| <= 256 then young else young[|young| - 256..])
  {
  }

  // ---- Reconciliation ----

  ghost predicate Asks(id: Identity, c: Command) {
    && c.jobId == Some(id.jobId) && c.attempt == id.attempt
    && (id.artifactId.Some? ==> c.artifactId == id.artifactId)
  }

  lemma {:induction false} ReconciledIsIts(rs: seq<Receipt>, id: Identity)
    ensures var found := FindReconciled(rs, id);
      && (found.Some? ==> found.value in rs && Asks(id, found.value.command))
      && (found.None? ==> forall r :: r in rs ==> !Asks(id, r.command))
  {
    if rs != [] {
      ReconciledIsIts(rs[1..], id);
      assert rs == [rs[0]] + rs[1..];
    }
  }

  /** The answer about an execution is its own: the phase of the active one, a result kept for that
      identity, or absence exactly if neither is there. */
  lemma AnswerTellsItsOwn(s: State, id: Identity)
    ensures var answer := Answer(s, id);
      && (s.active.Some? && Asks(id, s.active.value.command) ==> answer == ReportActive(id, s.active.value.phase))
      && (s.active.None? || !Asks(id, s.active.value.command) ==>
            if exists r :: (r in s.pending || r in s.completed) && Asks(id, r.command) then
              exists r :: (r in s.pending || r in s.completed) && Asks(id, r.command)
                          && answer == Terminal(ResultToJson(r.result))
            else answer == ReportAbsent(id))
  {
    hide ResultToJson;
    ReconciledIsIts(s.pending, id);
    ReconciledIsIts(s.completed, id);
    assert s.active.Some? ==> (Matches(id, s.active.value.command) <==> Asks(id, s.active.value.command));
  }

  // ---- Interrupted work ----

  /** The message of an execution that a crash has ended: a failure that says so. */
  ghost predicate TellsInterruption(wire: Object, c: Command) {
    && StringAt(wire, StatusKey) == Some("fail") && StringAt(wire, FailureCodeKey) == Some("client_restarted")
    && StringAt(wire, JobIdKey) == c.jobId && StringAt(wire, DestPathKey) == Some(c.destPath)
  }

  lemma RestartCodeIsText()
    ensures !Blanks.Blank(RESTART_CODE)
  {
    assert !Blanks.Whitespace(RESTART_CODE[0]);
  }

  lemma RestartIsAFailure(c: Command, at: int)
    ensures TellsInterruption(ResultToJson(ClientRestarted(c, at)), c)
    ensures !ClientRestarted(c, at).success
  {
    hide Blanks.Blank, RESTART_DETAIL;
    RestartCodeIsText();
  }

  /** A process that boots over an active execution records it as a failure by restart: the newest
      receipt, and for a job the newest of the outbox, is that command's with that message. */
  lemma BootRecordsInterruption(checks: Checks, disk: State, loadedAt: int, now: int, times: seq<int>)
    requires Good(checks, disk) && Fits(disk, times) && Fresh(times, loadedAt) && Fresh(times + [now], now)
    requires disk.active.Some?
    ensures var o, c := OnBoot(checks, disk, loadedAt, now, true), disk.active.value.command;
      && o.saved.Some? && o.saved.value.state.active == None && o.saved.value.state.completed != []
      && var t := o.saved.value.state;
      && var last := t.completed[|t.completed| - 1];
      && last.command == c && TellsInterruption(ResultToJson(last.result), c) && !last.result.success
      && (c.jobId.Some? ==> t.pending != [] && t.pending[|t.pending| - 1] == last)
  {
    hide Normalize, Good, Fits, Commands, GoodCommand, GoodReceipt, StateFromJson, StateToJson, RereadAll,
      ClientRestarted, ResultToJson, TellsInterruption;
    var loaded := State(disk.active, RereadAll(disk.pending), RereadAll(disk.completed));
    var c := disk.active.value.command;
    GoodIsStorable(checks, disk);
    StateReread(checks, disk);
    RereadKeepsGood(checks, disk, times);
    NothingTrimmed(loaded, times, loadedAt);
    RestartIsAFailure(c, now);
    var r := Receipt(c, ClientRestarted(c, now));
    GoodRestart(checks, disk, now);
    WithReceiptKeepsGood(checks, loaded, r, times);
    RestartTime(c, now);
    NothingTrimmed(WithReceipt(loaded, r), times + [now], now);
  }

  lemma RestartTime(c: Command, now: int)
    ensures ClientRestarted(c, now).completedAt == now
  {
  }

  lemma GoodRestart(checks: Checks, disk: State, now: int)
    requires Good(checks, disk) && disk.active.Some?
    ensures var c := disk.active.value.command; GoodReceipt(checks, Receipt(c, ClientRestarted(c, now)))
  {
    hide GoodCommand, Commands, AllGood;
    AttemptOf(checks, disk.active.value.command);
  }

  // ---- Every result kept was told by a worker or ended by a crash ----

  ghost predicate ToldAt(step: Step, r: Receipt) {
    && step.Handle? && step.event.Finished? && step.event.command == r.command
    && ResultToJson(step.event.result) == ResultToJson(r.result) && step.event.result.success == r.result.success
  }

  ghost predicate Explained(steps: seq<Step>, r: Receipt) {
    || (exists m :: 0 <= m < |steps| && ToldAt(steps[m], r))
    || (TellsInterruption(ResultToJson(r.result), r.command) && !r.result.success)
  }

  ghost predicate AllExplained(steps: seq<Step>, rs: seq<Receipt>) {
    forall r :: r in rs ==> Explained(steps, r)
  }

  lemma ExplainedLater(steps: seq<Step>, step: Step, rs: seq<Receipt>)
    requires AllExplained(steps, rs)
    ensures AllExplained(steps + [step], rs)
  {
    hide ToldAt, TellsInterruption;
    forall r | r in rs ensures Explained(steps + [step], r) {
      if m :| 0 <= m < |steps| && ToldAt(steps[m], r) {
        assert ToldAt((steps + [step])[m], r);
      }
    }
  }

  lemma RereadIsExplained(checks: Checks, steps: seq<Step>, rs: seq<Receipt>)
    requires AllGood(checks, rs) && AllExplained(steps, rs)
    ensures AllExplained(steps, RereadAll(rs))
  {
    hide GoodCommand, ResultToJson, ResultToStateJson, ResultFromJson, TellsInterruption;
    forall r | r in RereadAll(rs) ensures Explained(steps, r) {
      var i :| 0 <= i < |rs| && r == RereadAll(rs)[i];
      var q := rs[i];
      assert GoodReceipt(checks, q) && Explained(steps, q);
      GoodText(checks, q.command);
      ResultReread(q.result);
      ResultResentIsSame(q.result);
      assert ResultToJson(r.result) == ResultToJson(q.result);
      assert r.result.success == q.result.success && r.command == q.command;
      if m :| 0 <= m < |steps| && ToldAt(steps[m], q) {
        assert ToldAt(steps[m], r);
      }
    }
  }

  lemma FewerExplained(steps: seq<Step>, rs: seq<Receipt>, fewer: seq<Receipt>)
    requires AllExplained(steps, rs) && forall r :: r in fewer ==> r in rs
    ensures AllExplained(steps, fewer)
  {
    hide Explained;
  }

  lemma {:induction false} RetainedAreThere(rs: seq<Receipt>, cutoff: int)
    ensures forall r :: r in RetainedReceipts(rs, cutoff) ==> r in rs
  {
    if rs != [] {
      RetainedAreThere(rs[..|rs| - 1], cutoff);
    }
  }

  lemma NormalizedIsExplained(steps: seq<Step>, s: State, now: int)
    requires AllExplained(steps, s.pending) && AllExplained(steps, s.completed)
    ensures AllExplained(steps, Normalize(s, now).pending) && AllExplained(steps, Normalize(s, now).completed)
  {
    hide AllExplained;
    RetainedAreThere(s.completed, now - RETENTION_MS);
    FewerExplained(steps, s.pending, Normalize(s, now).pending);
    FewerExplained(steps, s.completed, Normalize(s, now).completed);
  }

  lemma WithReceiptIsExplained(steps: seq<Step>, s: State, r: Receipt)
    requires AllExplained(steps, s.pending) && AllExplained(steps, s.completed) && Explained(steps, r)
    ensures AllExplained(steps, WithReceipt(s, r).pending) && AllExplained(steps, WithReceipt(s, r).completed)
  {
    hide Explained;
  }

  lemma AckedIsExplained(steps: seq<Step>, s: State, ack: Ack)
    requires AllExplained(steps, s.pending) && AllExplained(steps, s.completed) && ApplyAck(s, ack).Some?
    ensures AllExplained(steps, ApplyAck(s, ack).value.pending) && AllExplained(steps, ApplyAck(s, ack).value.completed)
  {
    hide Explained;
    AckedParts(s.pending, ack);
    AckedParts(s.completed, ack);
  }

  ghost predicate DiskExplained(steps: seq<Step>, s: State) {
    AllExplained(steps, s.pending) && AllExplained(steps, s.completed)
  }

  lemma BootExplains(checks: Checks, p: Phone, step: Step, steps: seq<Step>)
    requires step.Handle? && step.event.Boot? && step.ok && Good(checks, p.disk) && DiskExplained(steps, p.disk)
    ensures DiskExplained(steps, OnBoot(checks, p.disk, step.event.loadedAt, step.now, true).saved.value.state)
  {
    hide Normalize, Good, Commands, GoodCommand, GoodReceipt, StateFromJson, StateToJson, RereadAll, ClientRestarted,
      ResultToJson, TellsInterruption, AllExplained, WithReceipt, AllGood;
    var disk := p.disk;
    GoodReceiptsOf(checks, disk);
    GoodIsStorable(checks, disk);
    StateReread(checks, disk);
    RereadIsExplained(checks, steps, disk.pending);
    RereadIsExplained(checks, steps, disk.completed);
    var read := State(disk.active, RereadAll(disk.pending), RereadAll(disk.completed));
    NormalizedIsExplained(steps, read, step.event.loadedAt);
    var loaded := Normalize(read, step.event.loadedAt);
    if loaded.active.Some? {
      var c := loaded.active.value.command;
      RestartIsAFailure(c, step.now);
      var r := Receipt(c, ClientRestarted(c, step.now));
      assert Explained(steps, r);
      WithReceiptIsExplained(steps, loaded, r);
      NormalizedIsExplained(steps, WithReceipt(loaded, r), step.now);
    } else {
      NormalizedIsExplained(steps, loaded, step.now);
    }
  }

  lemma GoodReceiptsOf(checks: Checks, s: State)
    requires Good(checks, s)
    ensures AllGood(checks, s.pending) && AllGood(checks, s.completed)
  {
  }

  lemma ReactionExplains(checks: Checks, p: Phone, step: Step, steps: seq<Step>)
    requires Sound(checks, p) && step.Handle? && Enabled(p, step.event) && DiskExplained(steps, p.disk)
    requires step.event.Finished? ==> Explained(steps, Receipt(step.event.command, step.event.result))
    ensures DiskExplained(steps, Written(p, Reaction(checks, p, step.event, step.ok, step.now)).disk)
  {
    hide ParseCommand, ResultToJson, Normalize, SameExecution, GoodCommand, Good, Fits, Stored, FindTerminal, Known,
      StartsStored, NoJobTwice, ApplyAck, WithReceipt, Load, Recovered, AllExplained, Explained, Answers, Replayed,
      FRESH;
    var o := Reaction(checks, p, step.event, step.ok, step.now);
    if o.saved.Some? {
      if step.event.Boot? {
        BootExplains(checks, p, step, steps);
      } else {
        var m := p.process.value.memory;
        var s := m.state;
        FreshSavesNothing(checks, p, step);
        match step.event {
          case Ordered(payload) =>
            NormalizedIsExplained(steps, s.(active := o.saved.value.state.active), step.now);
          case Acknowledged(ack) =>
            AckedIsExplained(steps, s, ack);
            NormalizedIsExplained(steps, ApplyAck(s, ack).value, step.now);
          case Finished(c, r) =>
            WithReceiptIsExplained(steps, s, Receipt(c, r));
            NormalizedIsExplained(steps, WithReceipt(s, Receipt(c, r)), step.now);
          case TransferComplete(_, _) =>
            NormalizedIsExplained(steps, s.(active := o.saved.value.state.active), step.now);
          case Applying(_) => NormalizedIsExplained(steps, s.(active := o.saved.value.state.active), step.now);
          case _ =>
        }
      }
    }
  }

  lemma FreshSavesNothing(checks: Checks, p: Phone, step: Step)
    requires Sound(checks, p) && step.Handle? && Enabled(p, step.event) && !step.event.Boot?
    requires Reaction(checks, p, step.event, step.ok, step.now).saved.Some?
    ensures p.process.value.memory.ready && p.process.value.memory.state == p.disk
  {
    hide ParseCommand, ResultToJson, Normalize, SameExecution, Good, Fits, StartsStored, NoJobTwice, Known, Stored;
  }

  /** In every retentive run each result the phone keeps is the result a worker of that very command
      finished with, or tells that a crash ended it. */
  lemma {:induction false} ResultsAreExplained(checks: Checks, steps: seq<Step>)
    requires RetentiveRun(checks, steps)
    ensures DiskExplained(steps, Run(checks, NEW_PHONE, steps).disk)
  {
    hide Reaction, Sound, Retentive, Explained, Written, Enabled;
    if steps != [] {
      var front, step := steps[..|steps| - 1], steps[|steps| - 1];
      var p := Run(checks, NEW_PHONE, front);
      ResultsAreExplained(checks, front);
      RetentiveRunsAreSound(checks, front);
      ExplainedLater(front, step, p.disk.pending);
      ExplainedLater(front, step, p.disk.completed);
      assert front + [step] == steps;
      if step.Handle? && Enabled(p, step.event) {
        if step.event.Finished? {
          assert Explained(steps, Receipt(step.event.command, step.event.result)) by { ToldNow(steps); }
        }
        ReactionExplains(checks, p, step, steps);
      }
    }
  }

  lemma ToldNow(steps: seq<Step>)
    requires steps != [] && steps[|steps| - 1].Handle? && steps[|steps| - 1].event.Finished?
    ensures var e := steps[|steps| - 1].event; Explained(steps, Receipt(e.command, e.result))
  {
    hide ResultToJson, TellsInterruption;
    assert ToldAt(steps[|steps| - 1], Receipt(steps[|steps| - 1].event.command, steps[|steps| - 1].event.result));
  }

  /** No crash produces a success: a success kept for a command was finished by its worker. */
  lemma SuccessIsEarned(checks: Checks, steps: seq<Step>, r: Receipt)
    requires RetentiveRun(checks, steps) && r.result.success
    requires r in Run(checks, NEW_PHONE, steps).disk.pending || r in Run(checks, NEW_PHONE, steps).disk.completed
    ensures exists m :: 0 <= m < |steps| && steps[m].Handle? && steps[m].event.Finished?
                        && steps[m].event.command == r.command && steps[m].event.result.success
                        && ResultToJson(steps[m].event.result) == ResultToJson(r.result)
  {
    hide Run, RetentiveRun, ResultToJson, TellsInterruption;
    ResultsAreExplained(checks, steps);
    assert Explained(steps, r);
  }
}
