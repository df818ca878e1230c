/** The client's coordinator over whole runs: messages in any order and number, saves that fail,
    and a process that dies before a save, after it, or between two of the messages that follow.
    `starts`, `accepted` and `receipts` are the history the theorems speak of: workers started,
    commands the server was told are accepted, completion times of the receipts made. */
module CoordinatorRuns {
  import opened PushJobs
  import opened PushProtocol
  import opened Blanks
  import opened Coordinator

  datatype Process = Process(memory: Memory, running: seq<Command>)

  datatype Phone = Phone(disk: State, process: Option<Process>, starts: seq<Command>, accepted: set<Command>,
                         receipts: seq<int>)

  datatype Event =
    | Boot(loadedAt: int)
    | Ordered(payload: Object)
    | Acknowledged(ack: Ack)
    | Asked(ids: seq<Identity>)
    | Registered
    | TransferComplete(command: Command, received: int)
    | ZipValidated(command: Command)
    | Applying(command: Command)
    | Finished(command: Command, result: Result)

  /** Where the process dies while it handles an event. */
  datatype Cut = Whole | BeforeSave | AfterMessages(n: nat)

  datatype Step = Die | Handle(event: Event, ok: bool, now: int, cut: Cut)

  const NEW_PHONE := Phone(EMPTY, None, [], {}, [])

  /** Workers call back only in their own process, with results of their own command. */
  predicate Enabled(p: Phone, e: Event) {
    match e
    case Boot(_) => p.process.None?
    case TransferComplete(c, _) => p.process.Some? && c in p.process.value.running
    case ZipValidated(c) => p.process.Some? && c in p.process.value.running
    case Applying(c) => p.process.Some? && c in p.process.value.running
    case Finished(c, r) =>
      p.process.Some? && c in p.process.value.running && r.jobId == c.jobId && r.attempt == c.attempt
    case _ => p.process.Some?
  }

  function Reaction(checks: Checks, p: Phone, e: Event, ok: bool, now: int): Outcome
    requires Enabled(p, e)
  {
    match e
    case Boot(loadedAt) => OnBoot(checks, p.disk, loadedAt, now, ok)
    case Ordered(payload) => OnCommand(checks, p.process.value.memory, payload, ok, now)
    case Acknowledged(ack) => OnAck(p.process.value.memory, ack, ok, now)
    case Asked(ids) => OnReconcile(p.process.value.memory, ids)
    case Registered => OnRegistered(p.process.value.memory)
    case TransferComplete(c, received) => OnTransferComplete(p.process.value.memory, c, received, ok, now)
    case ZipValidated(c) => OnValidated(p.process.value.memory, c)
    case Applying(c) => OnApplying(p.process.value.memory, c, ok, now)
    case Finished(c, r) => OnTerminal(p.process.value.memory, c, r, ok, now)
  }

  function AcceptedIn(msgs: seq<Msg>): set<Command> {
    set m | m in msgs && m.Accepted? :: m.command
  }

  function NewReceipt(o: Outcome): seq<int> {
    if o.saved.Some? && o.saved.value.receiptTime.Some? then [o.saved.value.receiptTime.value] else []
  }

  function Started(o: Outcome): seq<Command> {
    if o.start.Some? then [o.start.value] else []
  }

  function Written(p: Phone, o: Outcome): Phone {
    p.(disk := if o.saved.Some? then o.saved.value.state else p.disk, receipts := p.receipts + NewReceipt(o))
  }

  function Running(p: Phone): seq<Command> {
    if p.process.Some? then p.process.value.running else []
  }

  /** A step that is not enabled does nothing. */
  function After(checks: Checks, p: Phone, step: Step): Phone {
    match step
    case Die => p.(process := None)
    case Handle(e, ok, now, cut) =>
      if !Enabled(p, e) then p
      else
        var o := Reaction(checks, p, e, ok, now);
        match cut
        case BeforeSave => p.(process := None)
        case AfterMessages(n) =>
          Written(p, o).(process := None,
                         accepted := p.accepted + AcceptedIn(if n <= |o.sent| then o.sent[..n] else o.sent))
        case Whole =>
          Written(p, o).(process := Some(Process(o.memory, Running(p) + Started(o))),
                         starts := p.starts + Started(o), accepted := p.accepted + AcceptedIn(o.sent))
  }

  function Run(checks: Checks, p: Phone, steps: seq<Step>): Phone {
    if steps == [] then p else After(checks, Run(checks, p, steps[..|steps| - 1]), steps[|steps| - 1])
  }

  // ---- A crash comes between any two deeds ----

  /** The phone after some deeds, one after the other. */
  function Performed(p: Phone, deeds: seq<Deed>): Phone {
    if deeds == [] then p
    else
      var q := Performed(p, deeds[..|deeds| - 1]);
      match deeds[|deeds| - 1]
      case Saves(saved) =>
        q.(disk := saved.state,
           receipts := q.receipts + (if saved.receiptTime.Some? then [saved.receiptTime.value] else []))
      case Sends(msg) => if msg.Accepted? then q.(accepted := q.accepted + {msg.command}) else q
      case Starts(command) => q.(starts := q.starts + [command])
  }

  lemma PerformedOne(p: Phone, deeds: seq<Deed>, deed: Deed)
    ensures Performed(p, deeds + [deed]) == Performed(Performed(p, deeds), [deed])
  {
    assert (deeds + [deed])[..|deeds|] == deeds && [deed][..0] == [];
  }

  lemma {:induction false} PerformedSends(p: Phone, msgs: seq<Msg>)
    ensures Performed(p, Sending(msgs)) == p.(accepted := p.accepted + AcceptedIn(msgs))
  {
    if msgs == [] {
      assert p.accepted + AcceptedIn(msgs) == p.accepted;
    } else {
      var front, last := msgs[..|msgs| - 1], msgs[|msgs| - 1];
      PerformedSends(p, front);
      assert forall m :: m in msgs <==> m in front || m == last;
      assert AcceptedIn(msgs) == AcceptedIn(front) + (if last.Accepted? then {last.command} else {});
      assert Sending(msgs)[..|front|] == Sending(front);
    }
  }

  lemma {:induction false} PerformedAfter(p: Phone, first: seq<Deed>, second: seq<Deed>)
    ensures Performed(p, first + second) == Performed(Performed(p, first), second)
  {
    if second == [] {
      assert first + second == first;
    } else {
      var front, last := second[..|second| - 1], second[|second| - 1];
      PerformedAfter(p, first, front);
      assert first + second == (first + front) + [last] && second == front + [last];
      PerformedOne(p, first + front, last);
      PerformedOne(Performed(p, first), front, last);
    }
  }

  lemma PerformedSave(p: Phone, o: Outcome)
    ensures Performed(p, if o.saved.Some? then [Saves(o.saved.value)] else []) == Written(p, o)
  {
    if o.saved.Some? {
      assert [Saves(o.saved.value)][..0] == [];
    }
    assert p.receipts + [] == p.receipts;
  }

  function CutAt(o: Outcome, n: nat): Cut {
    var saves := if o.saved.Some? then 1 else 0;
    if n < saves then BeforeSave else AfterMessages(n - saves)
  }

  /** The deeds of a handler may stop after any number of them: the phone is then as one of the
      cuts leaves it, and after all of them as a whole step followed by death leaves it. */
  lemma CrashesAreThePrefixes(checks: Checks, p: Phone, e: Event, ok: bool, now: int, n: nat)
    requires Enabled(p, e) && n <= |Deeds(Reaction(checks, p, e, ok, now))|
    ensures var o := Reaction(checks, p, e, ok, now);
      Performed(p, Deeds(o)[..n]).(process := None)
        == if n == |Deeds(o)| then After(checks, After(checks, p, Handle(e, ok, now, Whole)), Die)
           else After(checks, p, Handle(e, ok, now, CutAt(o, n)))
  {
    hide Reaction, Sending, Performed;
    var o := Reaction(checks, p, e, ok, now);
    PrefixIs(p, o, n);
  }

  lemma PrefixIs(p: Phone, o: Outcome, n: nat)
    requires n <= |Deeds(o)|
    ensures n < (if o.saved.Some? then 1 else 0) ==> Performed(p, Deeds(o)[..n]) == p
    ensures n == |Deeds(o)| ==>
      Performed(p, Deeds(o)[..n]) == Written(p, o).(accepted := p.accepted + AcceptedIn(o.sent),
                                                    starts := p.starts + Started(o))
    ensures (if o.saved.Some? then 1 else 0) <= n < |Deeds(o)| ==>
      var m := n - (if o.saved.Some? then 1 else 0);
      Performed(p, Deeds(o)[..n])
        == Written(p, o).(accepted := p.accepted + AcceptedIn(if m <= |o.sent| then o.sent[..m] else o.sent))
  {
    hide Performed, Sending, AcceptedIn, Written, Started;
    var save: seq<Deed> := if o.saved.Some? then [Saves(o.saved.value)] else [];
    var start: seq<Deed> := if o.start.Some? then [Starts(o.start.value)] else [];
    PerformedSave(p, o);
    WrittenKeeps(p, o);
    if n < |save| {
      PerformedNothing(p, Deeds(o)[..n]);
    } else {
      var m := n - |save|;
      var some := if m <= |o.sent| then o.sent[..m] else o.sent;
      assert n < |Deeds(o)| ==> m <= |o.sent| && Deeds(o)[..n] == save + Sending(some);
      PerformedAfter(p, save, Sending(some));
      PerformedSends(Written(p, o), some);
      if n == |Deeds(o)| {
        assert Deeds(o)[..n] == (save + Sending(o.sent)) + start;
        assert some == o.sent;
        PerformedAfter(p, save + Sending(o.sent), start);
        PerformedStart(Performed(p, save + Sending(o.sent)), o);
      }
    }
  }

  lemma PerformedNothing(p: Phone, none: seq<Deed>)
    requires none == []
    ensures Performed(p, none) == p
  {
  }

  lemma WrittenKeeps(p: Phone, o: Outcome)
    ensures Written(p, o).accepted == p.accepted && Written(p, o).starts == p.starts
  {
  }

  lemma PerformedStart(p: Phone, o: Outcome)
    ensures Performed(p, if o.start.Some? then [Starts(o.start.value)] else []) == p.(starts := p.starts + Started(o))
  {
    if o.start.Some? {
      assert [Starts(o.start.value)][..0] == [];
    }
    assert p.starts + [] == p.starts;
  }

  // ---- In every run: what the process knows is what the disk holds ----

  ghost predicate InStep(p: Phone) {
    p.process.Some? ==>
      var m := p.process.value.memory;
      && (m.ready ==> m.state == p.disk && m.lease == ActiveCommand(p.disk))
      && (m.ready && m.lease.Some? ==> m.lease.value in p.process.value.running)
      && (!m.ready ==> m == FRESH)
  }

  lemma ReactionInStep(checks: Checks, p: Phone, e: Event, ok: bool, now: int)
    requires InStep(p) && Enabled(p, e)
    ensures var o := Reaction(checks, p, e, ok, now);
      InStep(Written(p, o).(process := Some(Process(o.memory, Running(p) + Started(o)))))
  {
    hide ParseCommand, Normalize, Load, Recovered, ResultToJson, SameExecution, FindTerminal, Answers, Replayed,
      WithoutAcked;
  }

  lemma {:induction false} RunsInStep(checks: Checks, steps: seq<Step>)
    ensures InStep(Run(checks, NEW_PHONE, steps))
  {
    hide Reaction, InStep, Written;
    if steps == [] {
      assert InStep(NEW_PHONE) by { RestingInStep(NEW_PHONE); }
    } else {
      var p, step := Run(checks, NEW_PHONE, steps[..|steps| - 1]), steps[|steps| - 1];
      RunsInStep(checks, steps[..|steps| - 1]);
      if step.Die? || (Enabled(p, step.event) && !step.cut.Whole?) {
        RestingInStep(After(checks, p, step));
      } else if Enabled(p, step.event) {
        ReactionInStep(checks, p, step.event, step.ok, step.now);
        var o, q := Reaction(checks, p, step.event, step.ok, step.now), After(checks, p, step);
        InStepOf(q, Written(p, o).(process := q.process));
      }
    }
  }

  lemma RestingInStep(p: Phone)
    requires p.process.None?
    ensures InStep(p)
  {
  }

  lemma InStepOf(p: Phone, q: Phone)
    requires InStep(q) && p.disk == q.disk && p.process == q.process
    ensures InStep(p)
  {
  }

  lemma {:induction false} FindReceiptFinds(rs: seq<Receipt>, c: Command)
    ensures FindReceipt(rs, c).Some? <==> exists r :: r in rs && SameIdentity(r.command, c)
    ensures FindReceipt(rs, c).Some? ==>
      FindReceipt(rs, c).value in rs && SameIdentity(FindReceipt(rs, c).value.command, c)
  {
    if rs != [] {
      FindReceiptFinds(rs[1..], c);
      assert forall r :: r in rs <==> r == rs[0] || r in rs[1..];
    }
  }

  ghost predicate HoldsIdentity(s: State, c: Command) {
    || (s.active.Some? && SameIdentity(s.active.value.command, c))
    || (exists r :: r in s.pending && SameIdentity(r.command, c))
    || (exists r :: r in s.completed && SameIdentity(r.command, c))
  }

  /** In every run a job's worker starts exactly when saving works, the phone is idle and the disk
      does not hold the job: the disk alone decides, whatever was accepted or answered before. */
  lemma StartsExactlyWhen(checks: Checks, steps: seq<Step>, payload: Object, ok: bool, now: int, c: Command)
    requires Run(checks, NEW_PHONE, steps).process.Some?
    requires ParseCommand(checks, payload) == Some(c) && c.jobId.Some?
    ensures var p := Run(checks, NEW_PHONE, steps);
      Reaction(checks, p, Ordered(payload), ok, now).start
        == (if ok && p.process.value.memory.durable && p.disk.active.None? && !HoldsIdentity(p.disk, c) then Some(c)
            else None)
  {
    hide ParseCommand, Run, Normalize, SameExecution, ResultToJson;
    var p := Run(checks, NEW_PHONE, steps);
    RunsInStep(checks, steps);
    FindReceiptFinds(p.disk.pending, c);
    FindReceiptFinds(p.disk.completed, c);
  }

  // ---- Within retention: what the disk holds is never forgotten ----

  function Commands(rs: seq<Receipt>): set<Command> {
    set r | r in rs :: r.command
  }

  function Settled(s: State): set<Command> {
    Commands(s.pending) + Commands(s.completed)
  }

  function Stored(s: State): set<Command> {
    Settled(s) + (if s.active.Some? then {s.active.value.command} else {})
  }

  ghost predicate GoodCommand(checks: Checks, c: Command) {
    Storable(checks, c) && c.attempt == 1 && (c.jobId.Some? ==> !Blank(c.jobId.value))
  }

  ghost predicate GoodReceipt(checks: Checks, r: Receipt) {
    && GoodCommand(checks, r.command) && r.result.jobId == r.command.jobId
    && (r.command.jobId.Some? ==> r.result.attempt == 1)
  }

  ghost predicate OneCommandPerJob(cs: set<Command>) {
    forall c, d :: c in cs && d in cs && c.jobId.Some? && c.jobId == d.jobId ==> c == d
  }

  ghost predicate AllGood(checks: Checks, rs: seq<Receipt>) {
    forall r :: r in rs ==> GoodReceipt(checks, r)
  }

  ghost predicate Good(checks: Checks, s: State) {
    && (s.active.Some? ==> GoodCommand(checks, s.active.value.command))
    && AllGood(checks, s.pending) && AllGood(checks, s.completed)
    && OneCommandPerJob(Settled(s))
    && (s.active.Some? && s.active.value.command.jobId.Some? ==>
          forall d :: d in Settled(s) ==> d.jobId != s.active.value.command.jobId)
    && Commands(s.pending) <= Commands(s.completed)
  }

  ghost predicate TimedBy(rs: seq<Receipt>, times: seq<int>) {
    |rs| <= |times| && forall r :: r in rs ==> r.result.completedAt in times
  }

  ghost predicate Fits(s: State, times: seq<int>) {
    TimedBy(s.pending, times) && TimedBy(s.completed, times)
  }

  /** No receipt made so far has been dropped for its age at `now`, or for their number. */
  ghost predicate Fresh(times: seq<int>, now: int) {
    |times| <= 256 && forall t :: t in times ==> t <= 0 || now - t <= 7 * 24 * 60 * 60 * 1000
  }

  lemma {:induction false} NothingAged(rs: seq<Receipt>, cutoff: int)
    requires forall r :: r in rs ==> Retained(r.result.completedAt, cutoff)
    ensures RetainedReceipts(rs, cutoff) == rs
  {
    if rs != [] {
      NothingAged(rs[..|rs| - 1], cutoff);
    }
  }

  lemma NothingTrimmed(s: State, times: seq<int>, now: int)
    requires Fits(s, times) && Fresh(times, now)
    ensures Normalize(s, now) == s
  {
    NothingAged(s.completed, now - RETENTION_MS);
  }

  lemma AcceptKeepsGood(checks: Checks, s: State, c: Command, phase: string)
    requires Good(checks, s) && s.active.None? && GoodCommand(checks, c)
    requires c.jobId.Some? ==> !HoldsIdentity(s, c)
    ensures Good(checks, s.(active := Some(Active(c, phase))))
  {
    hide GoodCommand;
    var t := s.(active := Some(Active(c, phase)));
    assert Settled(t) == Settled(s);
    if c.jobId.Some? {
      forall d | d in Settled(s) ensures d.jobId != c.jobId {
        GoodAttempt(checks, s, d);
        assert c.attempt == 1 by { AttemptOf(checks, c); }
      }
    }
  }

  lemma AttemptOf(checks: Checks, c: Command)
    requires GoodCommand(checks, c)
    ensures c.attempt == 1
  {
  }

  lemma GoodAttempt(checks: Checks, s: State, d: Command)
    requires Good(checks, s) && d in Settled(s)
    ensures d.attempt == 1
  {
  }

  lemma OneMoreReceipt(checks: Checks, rs: seq<Receipt>, r: Receipt, times: seq<int>)
    requires AllGood(checks, rs) && GoodReceipt(checks, r) && TimedBy(rs, times)
    ensures AllGood(checks, rs + [r]) && TimedBy(rs + [r], times + [r.result.completedAt])
    ensures TimedBy(rs, times + [r.result.completedAt]) && Commands(rs + [r]) == Commands(rs) + {r.command}
  {
    hide GoodReceipt;
  }

  lemma WithReceiptKeepsGood(checks: Checks, s: State, r: Receipt, times: seq<int>)
    requires Good(checks, s) && GoodReceipt(checks, r)
    requires s.active.Some? && r.command.jobId == s.active.value.command.jobId
    requires Fits(s, times) && |times| < MAX_RECEIPTS
    ensures Good(checks, WithReceipt(s, r)) && Fits(WithReceipt(s, r), times + [r.result.completedAt])
    ensures Settled(WithReceipt(s, r)) == Settled(s) + {r.command}
  {
    hide GoodCommand, GoodReceipt, AllGood, TimedBy, Commands, MAX_RECEIPTS;
    OneMoreReceipt(checks, s.pending, r, times);
    OneMoreReceipt(checks, s.completed, r, times);
    assert |s.completed| <= |times| by { TimedLength(s.completed, times); }
    assert Settled(WithReceipt(s, r)) == Settled(s) + {r.command};
  }

  lemma TimedLength(rs: seq<Receipt>, times: seq<int>)
    requires TimedBy(rs, times)
    ensures |rs| <= |times|
  {
  }

  lemma {:induction false} AckedParts(rs: seq<Receipt>, ack: Ack)
    ensures forall r :: r in WithoutAcked(rs, ack) <==> r in rs && !Acked(ack, r)
    ensures |WithoutAcked(rs, ack)| <= |rs|
    ensures (exists r :: r in rs && Acked(ack, r)) ==> |WithoutAcked(rs, ack)| < |rs|
    ensures LastAcked(rs, ack).None? ==> forall r :: r in rs ==> !Acked(ack, r)
    ensures LastAcked(rs, ack).Some? ==> LastAcked(rs, ack).value in rs && Acked(ack, LastAcked(rs, ack).value)
  {
    if rs != [] {
      AckedParts(rs[..|rs| - 1], ack);
      assert rs == rs[..|rs| - 1] + [rs[|rs| - 1]];
    }
  }

  lemma AckKeepsGood(checks: Checks, s: State, ack: Ack, times: seq<int>)
    requires Good(checks, s) && Fits(s, times) && |times| <= MAX_RECEIPTS && ApplyAck(s, ack).Some?
    ensures Good(checks, ApplyAck(s, ack).value) && Fits(ApplyAck(s, ack).value, times)
    ensures Settled(ApplyAck(s, ack).value) == Settled(s)
  {
    hide GoodReceipt, OneCommandPerJob, Acked, WithoutAcked, LastAcked;
    var settled := LastAcked(s.pending, ack).value;
    var t := ApplyAck(s, ack).value;
    AckedParts(s.pending, ack);
    AckedParts(s.completed, ack);
    AckShrinks(checks, s, ack, settled);
    assert t.completed == WithoutAcked(s.completed, ack) + [settled];
    AckKeepsCommands(checks, s, ack, settled, t.completed);
    assert Commands(t.pending) <= Commands(s.pending) && Settled(t) == Settled(s);
  }

  /** A pending result has a completed twin, which the acknowledgement finds too. */
  lemma AckShrinks(checks: Checks, s: State, ack: Ack, settled: Receipt)
    requires Good(checks, s) && settled in s.pending && Acked(ack, settled)
    ensures |WithoutAcked(s.completed, ack)| < |s.completed|
  {
    hide GoodCommand;
    AckedParts(s.completed, ack);
    assert settled.command in Commands(s.pending);
    var twin :| twin in s.completed && twin.command == settled.command;
    assert Acked(ack, twin);
  }

  /** What the acknowledgement removes from the completed receipts it puts back. */
  lemma AckKeepsCommands(checks: Checks, s: State, ack: Ack, settled: Receipt, completed: seq<Receipt>)
    requires Good(checks, s) && settled in s.pending && Acked(ack, settled)
    requires forall r :: r in completed <==> (r in s.completed && !Acked(ack, r)) || r == settled
    ensures Commands(completed) == Commands(s.completed)
  {
    hide GoodCommand;
    assert settled.command in Commands(s.pending);
    forall c | c in Commands(s.completed) ensures c in Commands(completed) {
      var r :| r in s.completed && r.command == c;
      if Acked(ack, r) {
        assert c.jobId == settled.command.jobId == Some(ack.jobId);
        assert c in Settled(s) && settled.command in Settled(s);
        assert settled in completed;
      } else {
        assert r in completed;
      }
    }
  }

  lemma RereadKeepsGood(checks: Checks, s: State, times: seq<int>)
    requires Good(checks, s) && Fits(s, times)
    ensures var t := State(s.active, RereadAll(s.pending), RereadAll(s.completed));
      Good(checks, t) && Fits(t, times) && Stored(t) == Stored(s) && Settled(t) == Settled(s)
  {
    hide GoodCommand, RereadAll, Commands, AllGood, TimedBy, OneCommandPerJob;
    RereadKeepsReceipts(checks, s.pending, times);
    RereadKeepsReceipts(checks, s.completed, times);
    RereadCommands(s.pending);
    RereadCommands(s.completed);
  }

  lemma RereadKeepsReceipts(checks: Checks, rs: seq<Receipt>, times: seq<int>)
    requires AllGood(checks, rs) && TimedBy(rs, times)
    ensures AllGood(checks, RereadAll(rs)) && TimedBy(RereadAll(rs), times)
  {
    hide GoodCommand;
    forall r | r in RereadAll(rs) ensures GoodReceipt(checks, r) && r.result.completedAt in times {
      var i :| 0 <= i < |rs| && r == RereadAll(rs)[i];
      assert rs[i] in rs;
    }
  }

  lemma RereadCommands(rs: seq<Receipt>)
    ensures Commands(RereadAll(rs)) == Commands(rs)
  {
    assert forall i :: 0 <= i < |rs| ==> RereadAll(rs)[i].command == rs[i].command;
    forall c | c in Commands(rs) ensures c in Commands(RereadAll(rs)) {
      var i :| 0 <= i < |rs| && rs[i].command == c;
      assert RereadAll(rs)[i] in RereadAll(rs);
    }
  }

  /** The save keeps every job the disk holds, within the receipts counted so far. */
  ghost predicate Grows(checks: Checks, s: State, times: seq<int>, o: Outcome) {
    o.saved.Some? ==>
      && Good(checks, o.saved.value.state) && Fits(o.saved.value.state, times + NewReceipt(o))
      && (forall c :: c in Stored(s) && c.jobId.Some? ==> c in Stored(o.saved.value.state))
  }

  ghost predicate FreshAfter(times: seq<int>, o: Outcome, now: int) {
    o.saved.Some? ==> Fresh(times + NewReceipt(o), now)
  }

  lemma CommandGrows(checks: Checks, m: Memory, payload: Object, ok: bool, now: int, times: seq<int>)
    requires Good(checks, m.state) && Fits(m.state, times) && m.lease == ActiveCommand(m.state)
    requires FreshAfter(times, OnCommand(checks, m, payload, ok, now), now)
    ensures var o := OnCommand(checks, m, payload, ok, now);
      && Grows(checks, m.state, times, o) && (o.saved.Some? ==> o.saved.value.state.pending == m.state.pending)
      && (o.start.Some? ==>
            o.saved.Some? && GoodCommand(checks, o.start.value) && o.start.value in Stored(o.saved.value.state))
      && (o.start.Some? && o.start.value.jobId.Some? ==> forall d :: d in Stored(m.state) ==>
                d.jobId != o.start.value.jobId)
  {
    hide ParseCommand, Normalize, ResultToJson, SameExecution, GoodCommand, Fits, Fresh, GoodReceipt;
    var o := OnCommand(checks, m, payload, ok, now);
    if o.start.Some? {
      var c := o.start.value;
      ParsedIsGood(checks, payload, c);
      FindReceiptFinds(m.state.pending, c);
      FindReceiptFinds(m.state.completed, c);
      AcceptKeepsGood(checks, m.state, c, DOWNLOADING);
      var next := m.state.(active := Some(Active(c, DOWNLOADING)));
      SameReceiptsFit(m.state, next, times);
      assert times + NewReceipt(o) == times;
      NothingTrimmed(next, times, now);
    }
  }

  lemma ParsedIsGood(checks: Checks, payload: Object, c: Command)
    requires ParseCommand(checks, payload) == Some(c)
    ensures GoodCommand(checks, c)
  {
    hide ParseCommand;
    ParsedIsStorable(checks, payload, c);
  }

  lemma SameReceiptsFit(s: State, t: State, times: seq<int>)
    requires Fits(s, times) && t.pending == s.pending && t.completed == s.completed
    ensures Fits(t, times)
  {
  }

  lemma PhaseGrows(checks: Checks, m: Memory, c: Command, phase: string, sent: seq<Msg>, ok: bool, now: int,
                   times: seq<int>)
    requires Good(checks, m.state) && Fits(m.state, times)
    requires FreshAfter(times, OnPhase(m, c, phase, sent, ok, now), now)
    ensures var o := OnPhase(m, c, phase, sent, ok, now);
      Grows(checks, m.state, times, o) && (o.saved.Some? ==> o.saved.value.state.pending == m.state.pending)
  {
    hide Normalize, GoodCommand, Fits, Fresh, AllGood, OneCommandPerJob, Commands;
    var o := OnPhase(m, c, phase, sent, ok, now);
    if o.saved.Some? {
      var next := m.state.(active := Some(m.state.active.value.(phase := phase)));
      SameReceiptsFit(m.state, next, times);
      assert times + NewReceipt(o) == times;
      NothingTrimmed(next, times, now);
    }
  }

  lemma TerminalGrows(checks: Checks, m: Memory, c: Command, result: Result, ok: bool, now: int, times: seq<int>)
    requires Good(checks, m.state) && Fits(m.state, times) && GoodCommand(checks, c)
    requires result.jobId == c.jobId && result.attempt == c.attempt
    requires m.state.active.Some? && c.jobId.Some? && c.jobId == m.state.active.value.command.jobId ==>
      c == m.state.active.value.command
    requires FreshAfter(times, OnTerminal(m, c, result, ok, now), now)
    ensures var o := OnTerminal(m, c, result, ok, now);
      Grows(checks, m.state, times, o) && (o.saved.Some? ==> m.state.pending <= o.saved.value.state.pending)
  {
    hide Normalize, GoodCommand, Fits, Good, Commands, ResultToJson;
    var o := OnTerminal(m, c, result, ok, now);
    if o.saved.Some? {
      var r := Receipt(c, result);
      assert GoodReceipt(checks, r) by { AttemptOf(checks, c); }
      WithReceiptKeepsGood(checks, m.state, r, times);
      NothingTrimmed(WithReceipt(m.state, r), times + [result.completedAt], now);
    }
  }

  lemma AckGrows(checks: Checks, m: Memory, ack: Ack, ok: bool, now: int, times: seq<int>)
    requires Good(checks, m.state) && Fits(m.state, times)
    requires FreshAfter(times, OnAck(m, ack, ok, now), now)
    ensures var o := OnAck(m, ack, ok, now);
      && Grows(checks, m.state, times, o)
      && (o.saved.Some? ==> o.saved.value.state.pending == WithoutAcked(m.state.pending, ack))
  {
    hide Normalize, GoodCommand, Fits, Good, Commands;
    var o := OnAck(m, ack, ok, now);
    if o.saved.Some? {
      assert times + NewReceipt(o) == times;
      assert |times| <= MAX_RECEIPTS;
      AckKeepsGood(checks, m.state, ack, times);
      NothingTrimmed(ApplyAck(m.state, ack).value, times, now);
      AckKeepsActive(m.state, ack);
    }
  }

  lemma AckKeepsActive(s: State, ack: Ack)
    ensures ApplyAck(s, ack).Some? ==> ApplyAck(s, ack).value.active == s.active
  {
  }

  lemma GoodIsStorable(checks: Checks, s: State)
    requires Good(checks, s)
    ensures StorableState(checks, s)
  {
    hide Storable, Blank, Commands;
  }

  lemma BootGrows(checks: Checks, disk: State, loadedAt: int, now: int, ok: bool, times: seq<int>)
    requires Good(checks, disk) && Fits(disk, times) && Fresh(times, loadedAt)
    requires FreshAfter(times, OnBoot(checks, disk, loadedAt, now, ok), now)
    ensures var o := OnBoot(checks, disk, loadedAt, now, ok);
      Grows(checks, disk, times, o) && (o.saved.Some? ==> RereadAll(disk.pending) <= o.saved.value.state.pending)
  {
    hide Normalize, GoodCommand, GoodReceipt, Good, Commands, StateFromJson, StateToJson, Fits, ClientRestarted,
      WithReceipt, RereadAll;
    var loaded := State(disk.active, RereadAll(disk.pending), RereadAll(disk.completed));
    GoodIsStorable(checks, disk);
    StateReread(checks, disk);
    RereadKeepsGood(checks, disk, times);
    NothingTrimmed(loaded, times, loadedAt);
    assert Load(checks, disk, loadedAt) == loaded;
    if ok {
      if disk.active.None? {
        assert times + [] == times;
        NothingTrimmed(loaded, times, now);
      } else {
        RestartGrows(checks, loaded, now, times);
      }
    }
  }

  lemma RestartGrows(checks: Checks, loaded: State, now: int, times: seq<int>)
    requires Good(checks, loaded) && Fits(loaded, times) && loaded.active.Some? && Fresh(times + [now], now)
    ensures var next := Normalize(Recovered(loaded, now), now);
      && Good(checks, next) && Fits(next, times + [now])
      && Stored(next) == Stored(loaded) && loaded.pending <= next.pending
  {
    hide Normalize, Good, Commands, Fits, RESTART_CODE, RESTART_DETAIL;
    var c := loaded.active.value.command;
    var r := Receipt(c, ClientRestarted(c, now));
    GoodActive(checks, loaded);
    WithReceiptKeepsGood(checks, loaded, r, times);
    assert Recovered(loaded, now) == WithReceipt(loaded, r);
    NothingTrimmed(WithReceipt(loaded, r), times + [now], now);
  }

  lemma GoodActive(checks: Checks, s: State)
    requires Good(checks, s) && s.active.Some?
    ensures GoodCommand(checks, s.active.value.command)
  {
  }

  ghost predicate Known(s: State, c: Command) {
    exists d :: d in Stored(s) && SameExecution(d, c)
  }

  ghost predicate NoJobTwice(starts: seq<Command>) {
    forall i, j :: 0 <= i < j < |starts| && starts[i].jobId.Some? ==> starts[i].jobId != starts[j].jobId
  }

  ghost predicate StartsStored(checks: Checks, starts: seq<Command>, s: State) {
    forall c :: c in starts ==> GoodCommand(checks, c) && (c.jobId.Some? ==> c in Stored(s))
  }

  ghost predicate Sound(checks: Checks, p: Phone) {
    && InStep(p)
    && Good(checks, p.disk) && Fits(p.disk, p.receipts)
    && StartsStored(checks, p.starts, p.disk) && NoJobTwice(p.starts)
    && (forall c :: c in Running(p) ==> c in p.starts)
    && (forall c :: c in p.accepted ==> c.jobId.Some? && Known(p.disk, c))
  }

  /** Neither the load nor the save of this step finds a receipt too old or too many. */
  ghost predicate Retentive(checks: Checks, p: Phone, step: Step) {
    step.Handle? && Enabled(p, step.event) && step.cut != BeforeSave ==>
      && (step.event.Boot? && step.ok ==> Fresh(p.receipts, step.event.loadedAt))
      && FreshAfter(p.receipts, Reaction(checks, p, step.event, step.ok, step.now), step.now)
  }

  ghost predicate RetentiveRun(checks: Checks, steps: seq<Step>) {
    steps == [] ||
    (&& RetentiveRun(checks, steps[..|steps| - 1])
     && Retentive(checks, Run(checks, NEW_PHONE, steps[..|steps| - 1]), steps[|steps| - 1]))
  }

  /** What a reaction may add to the history. */
  ghost predicate Adds(checks: Checks, p: Phone, o: Outcome) {
    && Grows(checks, p.disk, p.receipts, o)
    && (o.start.Some? ==>
          && o.saved.Some? && GoodCommand(checks, o.start.value) && o.start.value in Stored(o.saved.value.state)
          && (o.start.value.jobId.Some? ==> forall d :: d in Stored(p.disk) ==> d.jobId != o.start.value.jobId))
    && (forall c :: c in AcceptedIn(o.sent) ==> c.jobId.Some? && Known(Written(p, o).disk, c))
  }

  lemma SameExecutionOfItself(c: Command)
    ensures SameExecution(c, c)
  {
  }

  lemma CommandAccepts(checks: Checks, m: Memory, payload: Object, ok: bool, now: int, c: Command)
    requires m.lease == ActiveCommand(m.state) && c in AcceptedIn(OnCommand(checks, m, payload, ok, now).sent)
    ensures var o := OnCommand(checks, m, payload, ok, now);
      c.jobId.Some? && Known(if o.saved.Some? then o.saved.value.state else m.state, c)
  {
    hide ParseCommand, Normalize, ResultToJson, SameExecution, FindTerminal, Commands;
    SameExecutionOfItself(c);
    var o := OnCommand(checks, m, payload, ok, now);
    if o.saved.Some? {
      assert c in Stored(o.saved.value.state);
    } else {
      assert m.state.active.value.command in Stored(m.state);
    }
  }

  lemma AdmitsNothing(checks: Checks, p: Phone, o: Outcome)
    requires Grows(checks, p.disk, p.receipts, o) && o.start.None? && AcceptedIn(o.sent) == {}
    ensures Adds(checks, p, o)
  {
  }

  lemma QuietAdds(checks: Checks, p: Phone, m: Memory, sent: seq<Msg>)
    requires forall i :: 0 <= i < |sent| ==> !sent[i].Accepted?
    ensures Adds(checks, p, Quiet(m, sent))
  {
  }

  lemma FreshReacts(checks: Checks, p: Phone, e: Event, ok: bool, now: int)
    requires Enabled(p, e) && !e.Boot? && p.process.value.memory == FRESH
    ensures Adds(checks, p, Reaction(checks, p, e, ok, now))
  {
    hide ParseCommand, ResultToJson, Normalize, SameExecution;
    var o := Reaction(checks, p, e, ok, now);
    assert o.saved.None? && o.start.None?;
    assert forall i :: 0 <= i < |o.sent| ==> !o.sent[i].Accepted?;
  }

  lemma RunningIsCurrent(checks: Checks, p: Phone, c: Command)
    requires Sound(checks, p) && c in Running(p)
    ensures GoodCommand(checks, c)
    ensures p.process.value.memory.ready && p.disk.active.Some? && c.jobId.Some?
            && c.jobId == p.disk.active.value.command.jobId ==>
      c == p.disk.active.value.command
  {
    hide GoodCommand, Good, Fits, Stored, SameExecution;
    assert c in p.starts;
    if p.process.value.memory.ready && p.disk.active.Some? {
      assert p.disk.active.value.command in p.starts;
    }
  }

  lemma ReactionAdds(checks: Checks, p: Phone, e: Event, ok: bool, now: int)
    requires Sound(checks, p) && Enabled(p, e)
    requires e.Boot? && ok ==> Fresh(p.receipts, e.loadedAt)
    requires FreshAfter(p.receipts, Reaction(checks, p, e, ok, now), now)
    ensures Adds(checks, p, Reaction(checks, p, e, ok, now))
  {
    hide ParseCommand, ResultToJson, Normalize, SameExecution, GoodCommand, Good, Fits, Fresh, Stored, FindTerminal,
      Load, Recovered;
    var o := Reaction(checks, p, e, ok, now);
    if e.Boot? {
      if ok {
        BootGrows(checks, p.disk, e.loadedAt, now, ok, p.receipts);
      }
      AdmitsNothing(checks, p, o);
    } else if !p.process.value.memory.ready {
      FreshReacts(checks, p, e, ok, now);
    } else {
      ReadyReactionAdds(checks, p, e, ok, now);
    }
  }

  lemma ReadyReactionAdds(checks: Checks, p: Phone, e: Event, ok: bool, now: int)
    requires Sound(checks, p) && Enabled(p, e) && !e.Boot? && p.process.value.memory.ready
    requires FreshAfter(p.receipts, Reaction(checks, p, e, ok, now), now)
    ensures Adds(checks, p, Reaction(checks, p, e, ok, now))
  {
    hide ParseCommand, ResultToJson, Normalize, SameExecution, GoodCommand, Good, Fits, Fresh, Stored, FindTerminal,
      FRESH, Known, StartsStored, NoJobTwice, Grows;
    var m, o := p.process.value.memory, Reaction(checks, p, e, ok, now);
    match e {
      case Ordered(payload) =>
        CommandGrows(checks, m, payload, ok, now, p.receipts);
        forall c | c in AcceptedIn(o.sent) ensures c.jobId.Some? && Known(Written(p, o).disk, c) {
          CommandAccepts(checks, m, payload, ok, now, c);
        }
      case Acknowledged(ack) =>
        AckGrows(checks, m, ack, ok, now, p.receipts);
        AdmitsNothing(checks, p, o);
      case Asked(ids) => QuietAdds(checks, p, m, Answers(m.state, ids));
      case Registered => QuietAdds(checks, p, m, Replayed(m.state.pending));
      case TransferComplete(c, received) =>
        PhaseGrows(checks, m, c, VALIDATING, [Transferred(c, received)], ok, now, p.receipts);
        AdmitsNothing(checks, p, o);
      case ZipValidated(c) => QuietAdds(checks, p, m, o.sent);
      case Applying(c) =>
        PhaseGrows(checks, m, c, APPLYING, IfJobV1(c, ApplyingNow(c)), ok, now, p.receipts);
        AdmitsNothing(checks, p, o);
      case Finished(c, r) =>
        RunningIsCurrent(checks, p, c);
        TerminalGrows(checks, m, c, r, ok, now, p.receipts);
        AdmitsNothing(checks, p, o);
    }
  }

  lemma KnownStays(checks: Checks, p: Phone, o: Outcome, c: Command)
    requires Adds(checks, p, o) && Known(p.disk, c) && c.jobId.Some?
    ensures Known(Written(p, o).disk, c)
  {
    hide GoodCommand, Good, Fits, Stored;
  }

  lemma AddsKeepsSound(checks: Checks, p: Phone, o: Outcome, q: Phone)
    requires Sound(checks, p) && Adds(checks, p, o) && InStep(q)
    requires q.disk == Written(p, o).disk && q.receipts == Written(p, o).receipts
    requires q.accepted <= p.accepted + AcceptedIn(o.sent)
    requires || (q.process.None? && q.starts == p.starts)
             || (q.starts == p.starts + Started(o) && Running(q) == Running(p) + Started(o))
    ensures Sound(checks, q)
  {
    hide GoodCommand, Good, Fits, SameExecution, Stored, Known, InStep;
    forall c | c in p.accepted ensures Known(q.disk, c) {
      KnownStays(checks, p, o, c);
    }
    assert p.receipts + [] == p.receipts;
    if o.start.Some? && q.starts != p.starts {
      var c := o.start.value;
      forall i | 0 <= i < |p.starts| && p.starts[i].jobId.Some? ensures p.starts[i].jobId != c.jobId {
        assert p.starts[i] in p.starts;
      }
    }
  }

  lemma {:induction false} RetentiveRunsAreSound(checks: Checks, steps: seq<Step>)
    requires RetentiveRun(checks, steps)
    ensures Sound(checks, Run(checks, NEW_PHONE, steps))
  {
    hide Reaction, Sound, InStep, Started, Adds, Fresh, AcceptedIn, FreshAfter;
    RunsInStep(checks, steps);
    if steps == [] {
      NewPhoneIsSound(checks);
    } else {
      var p, step := Run(checks, NEW_PHONE, steps[..|steps| - 1]), steps[|steps| - 1];
      RetentiveRunsAreSound(checks, steps[..|steps| - 1]);
      var q := After(checks, p, step);
      if step.Die? || (Enabled(p, step.event) && step.cut.BeforeSave?) {
        StoppedIsSound(checks, p);
      } else if Enabled(p, step.event) {
        var o := Reaction(checks, p, step.event, step.ok, step.now);
        ReactionAdds(checks, p, step.event, step.ok, step.now);
        PrefixAccepts(o.sent);
        AddsKeepsSound(checks, p, o, q);
      }
    }
  }

  lemma NewPhoneIsSound(checks: Checks)
    ensures Sound(checks, NEW_PHONE)
  {
  }

  lemma StoppedIsSound(checks: Checks, p: Phone)
    requires Sound(checks, p)
    ensures Sound(checks, p.(process := None))
  {
    hide Good, Fits, Stored, GoodCommand;
  }

  lemma PrefixAccepts(msgs: seq<Msg>)
    ensures forall n :: 0 <= n <= |msgs| ==> AcceptedIn(msgs[..n]) <= AcceptedIn(msgs)
  {
  }

  // ---- Theorems ----

  /** However messages are lost, repeated or reordered, saves fail and the process dies, a worker
      starts at most once per job and attempt. */
  lemma StartedAtMostOnce(checks: Checks, steps: seq<Step>, i: nat, j: nat)
    requires RetentiveRun(checks, steps)
    requires i < j < |Run(checks, NEW_PHONE, steps).starts|
    ensures var starts := Run(checks, NEW_PHONE, steps).starts; !SameIdentity(starts[i], starts[j])
  {
    hide Run, InStep, Good, Fits, StartsStored;
    RetentiveRunsAreSound(checks, steps);
  }

  /** Once accepted, a command stays on the disk as the active one or as a receipt. */
  lemma AcceptedIsRemembered(checks: Checks, steps: seq<Step>, c: Command)
    requires RetentiveRun(checks, steps) && c in Run(checks, NEW_PHONE, steps).accepted
    ensures var disk := Run(checks, NEW_PHONE, steps).disk;
      || (disk.active.Some? && SameExecution(disk.active.value.command, c))
      || (exists r :: r in disk.pending && SameExecution(r.command, c))
      || (exists r :: r in disk.completed && SameExecution(r.command, c))
  {
    hide Run, InStep, Good, Fits, StartsStored, SameExecution;
    RetentiveRunsAreSound(checks, steps);
  }

  lemma {:induction false} FindReconciledFinds(rs: seq<Receipt>, id: Identity)
    ensures FindReconciled(rs, id).None? <==> forall r :: r in rs ==> !Matches(id, r.command)
  {
    if rs != [] {
      FindReconciledFinds(rs[1..], id);
      assert forall r :: r in rs <==> r == rs[0] || r in rs[1..];
    }
  }

  /** An accepted command is answered "absent" exactly as long as the startup save of the running
      process has not succeeded. */
  lemma AbsentExactlyBeforeStartup(checks: Checks, steps: seq<Step>, c: Command, id: Identity)
    requires RetentiveRun(checks, steps) && c in Run(checks, NEW_PHONE, steps).accepted && Matches(id, c)
    requires Run(checks, NEW_PHONE, steps).process.Some?
    ensures var m := Run(checks, NEW_PHONE, steps).process.value.memory;
      Answer(m.state, id) == ReportAbsent(id) <==> !m.ready
  {
    hide Run, Good, Fits, StartsStored, ResultToJson;
    var p := Run(checks, NEW_PHONE, steps);
    RetentiveRunsAreSound(checks, steps);
    AcceptedIsRemembered(checks, steps, c);
    FindReconciledFinds(p.disk.pending, id);
    FindReconciledFinds(p.disk.completed, id);
  }

  ghost predicate InOutbox(s: State, c: Command, wire: Object) {
    exists r :: r in s.pending && r.command == c && ResultToJson(r.result) == wire
  }

  predicate Concludes(step: Step, c: Command) {
    && step.Handle? && step.event.Acknowledged? && (step.event.ack.accepted || !step.event.ack.retryable)
    && c.jobId == Some(step.event.ack.jobId)
  }

  lemma RereadStaysInOutbox(checks: Checks, s: State, t: State, c: Command, wire: Object)
    requires AllGood(checks, s.pending) && InOutbox(s, c, wire) && RereadAll(s.pending) <= t.pending
    ensures InOutbox(t, c, wire)
  {
    hide GoodCommand, ResultToJson, ResultToStateJson, ResultFromJson, Reread;
    var i :| 0 <= i < |s.pending| && s.pending[i].command == c && ResultToJson(s.pending[i].result) == wire;
    var r := s.pending[i];
    assert GoodReceipt(checks, r);
    assert r.result.jobId.Some? ==> !Blank(r.result.jobId.value) by { GoodText(checks, r.command); }
    ResultReread(r.result);
    ResultResentIsSame(r.result);
    assert t.pending[i] == Receipt(c, Reread(r.result));
  }

  lemma GoodText(checks: Checks, c: Command)
    requires GoodCommand(checks, c)
    ensures c.jobId.Some? ==> !Blank(c.jobId.value)
  {
  }

  lemma UnackedStays(checks: Checks, s: State, t: State, ack: Ack, c: Command, wire: Object)
    requires AllGood(checks, s.pending) && InOutbox(s, c, wire) && c.jobId != Some(ack.jobId)
    requires t.pending == WithoutAcked(s.pending, ack)
    ensures InOutbox(t, c, wire)
  {
    hide GoodCommand, ResultToJson;
    AckedParts(s.pending, ack);
  }

  lemma ReactionKeepsOutbox(checks: Checks, p: Phone, step: Step, c: Command, wire: Object)
    requires Sound(checks, p) && step.Handle? && Enabled(p, step.event)
    requires step.cut != BeforeSave && Retentive(checks, p, step)
    requires InOutbox(p.disk, c, wire) && !Concludes(step, c)
    ensures InOutbox(Written(p, Reaction(checks, p, step.event, step.ok, step.now)).disk, c, wire)
  {
    hide ParseCommand, ResultToJson, Normalize, SameExecution, GoodCommand, Fits, Fresh, Stored, FindTerminal, Known,
      StartsStored, NoJobTwice, Grows, WithoutAcked, Commands, OneCommandPerJob, GoodReceipt, Load, Recovered, Answers,
      Replayed;
    var e, ok, now := step.event, step.ok, step.now;
    var o := Reaction(checks, p, e, ok, now);
    if o.saved.Some? {
      var t := o.saved.value.state;
      match e {
        case Boot(loadedAt) =>
          BootGrows(checks, p.disk, loadedAt, now, ok, p.receipts);
          RereadStaysInOutbox(checks, p.disk, t, c, wire);
        case Ordered(payload) => CommandGrows(checks, p.process.value.memory, payload, ok, now, p.receipts);
        case Acknowledged(ack) =>
          AckGrows(checks, p.process.value.memory, ack, ok, now, p.receipts);
          UnackedStays(checks, p.disk, t, ack, c, wire);
        case TransferComplete(d, received) =>
          PhaseGrows(checks, p.process.value.memory, d, VALIDATING, [Transferred(d, received)], ok, now, p.receipts);
        case Applying(d) =>
          PhaseGrows(checks, p.process.value.memory, d, APPLYING, IfJobV1(d, ApplyingNow(d)), ok, now, p.receipts);
        case Finished(d, r) =>
          RunningIsCurrent(checks, p, d);
          TerminalGrows(checks, p.process.value.memory, d, r, ok, now, p.receipts);
        case _ =>
      }
    }
  }

  /** A saved result stays in the outbox with the same wire message, through every crash, until
      the server's conclusive acknowledgement; every registration meanwhile sends it again. */
  lemma {:induction false} ResultStaysInOutbox(checks: Checks, steps: seq<Step>, from: nat, c: Command, wire: Object)
    requires RetentiveRun(checks, steps) && from <= |steps|
    requires InOutbox(Run(checks, NEW_PHONE, steps[..from]).disk, c, wire)
    requires forall k :: from <= k < |steps| ==> !Concludes(steps[k], c)
    ensures var p := Run(checks, NEW_PHONE, steps);
      && InOutbox(p.disk, c, wire)
      && (p.process.Some? && p.process.value.memory.ready ==>
                Terminal(wire) in OnRegistered(p.process.value.memory).sent)
  {
    hide Reaction, Good, Fits, Stored, Retentive, StartsStored, ResultToJson, Concludes, FRESH;
    var p := Run(checks, NEW_PHONE, steps);
    if from == |steps| {
      assert steps[..from] == steps;
    } else {
      var front, step := steps[..|steps| - 1], steps[|steps| - 1];
      assert front[..from] == steps[..from];
      ResultStaysInOutbox(checks, front, from, c, wire);
      RetentiveRunsAreSound(checks, front);
      var q := Run(checks, NEW_PHONE, front);
      if step.Handle? && Enabled(q, step.event) && step.cut != BeforeSave {
        ReactionKeepsOutbox(checks, q, step, c, wire);
      }
    }
    RunsInStep(checks, steps);
  }

  /** Accepted, finished at time 1 and acknowledged at once, then a restart at `late` and the same
      order again. */
  function AgedRun(payload: Object, c: Command, late: int): seq<Step>
    requires c.jobId.Some?
  {
    [Handle(Boot(0), true, 0, Whole), Handle(Ordered(payload), true, 0, Whole),
     Handle(Finished(c, DoneAtOne(c)), true, 1, Whole),
     Handle(Acknowledged(Ack(c.jobId.value, 1, true, false)), true, 1, Whole),
     Die, Handle(Boot(late), true, late, Whole), Handle(Ordered(payload), true, late, Whole)]
  }

  function DoneAtOne(c: Command): Result {
    Result(c.jobId, c.attempt, true, c.destPath, 0, 0, 0, None, None, 1)
  }

  lemma {:induction false} RunStep(checks: Checks, steps: seq<Step>, n: nat)
    requires n < |steps|
    ensures Run(checks, NEW_PHONE, steps[..n + 1]) == After(checks, Run(checks, NEW_PHONE, steps[..n]), steps[n])
  {
    assert steps[..n + 1][..n] == steps[..n];
  }

  lemma FirstBoot(checks: Checks, at: int, p: Phone)
    requires p.disk == EMPTY && p.process.None?
    ensures After(checks, p, Handle(Boot(at), true, at, Whole))
      == p.(process := Some(Process(Memory(EMPTY, None, true, true), [])))
  {
    hide StateFromJson, StateToJson;
    StateReread(checks, EMPTY);
    assert RereadAll([]) == [];
    NothingAged([], at - RETENTION_MS);
    assert Load(checks, EMPTY, at) == EMPTY;
    assert Normalize(EMPTY, at) == EMPTY;
    var o := Reaction(checks, p, Boot(at), true, at);
    assert o.saved == Some(Saved(EMPTY, None)) && o.sent == [] && o.start == None;
    assert Running(p) + Started(o) == [];
    assert p.receipts + [] == p.receipts && p.starts + [] == p.starts;
    assert p.accepted + AcceptedIn([]) == p.accepted;
  }

  lemma FirstOrder(checks: Checks, payload: Object, c: Command, at: int, p: Phone)
    requires ParseCommand(checks, payload) == Some(c) && c.jobId.Some?
    requires p.disk == EMPTY && p.process == Some(Process(Memory(EMPTY, None, true, true), []))
    ensures After(checks, p, Handle(Ordered(payload), true, at, Whole))
      == Phone(State(Some(Active(c, DOWNLOADING)), [], []),
               Some(Process(Memory(State(Some(Active(c, DOWNLOADING)), [], []), Some(c), true, true), [c])),
               p.starts + [c], p.accepted + {c}, p.receipts)
  {
    hide ParseCommand;
    NothingAged([], at - RETENTION_MS);
    assert p.receipts + [] == p.receipts && [] + [c] == [c];
    assert AcceptedIn([Accepted(c, DOWNLOADING)]) == {c};
  }

  lemma FinishAndAck(checks: Checks, c: Command, p: Phone)
    requires c.jobId.Some? && c.attempt == 1 && p.disk == State(Some(Active(c, DOWNLOADING)), [], [])
    requires p.process == Some(Process(Memory(p.disk, Some(c), true, true), [c])) && p.accepted == {c}
    ensures var q := After(checks, p, Handle(Finished(c, DoneAtOne(c)), true, 1, Whole));
      var r := Receipt(c, DoneAtOne(c));
      && q == Phone(State(None, [r], [r]), Some(Process(Memory(State(None, [r], [r]), None, true, true), [c])),
                    p.starts, {c}, p.receipts + [1])
      && After(checks, q, Handle(Acknowledged(Ack(c.jobId.value, 1, true, false)), true, 1, Whole))
         == Phone(State(None, [], [r]), Some(Process(Memory(State(None, [], [r]), None, true, true), [c])), p.starts,
                  {c}, p.receipts + [1])
  {
    hide ResultToJson;
    var r := Receipt(c, DoneAtOne(c));
    NothingAged([r], 1 - RETENTION_MS);
    assert AcceptedIn([Terminal(ResultToJson(r.result))]) == {};
    assert p.starts + [] == p.starts && AcceptedIn([]) == {} && [c] + [] == [c] && {c} + {} == {c};
    var ack := Ack(c.jobId.value, 1, true, false);
    assert WithoutAcked([r], ack) == [] && LastAcked([r], ack) == Some(r);
    assert p.receipts + [1] + [] == p.receipts + [1];
    assert [] + [r] == [r];
  }

  lemma LateBoot(checks: Checks, c: Command, late: int, p: Phone)
    requires GoodCommand(checks, c) && late > 1 + RETENTION_MS
    requires p.process.None? && p.disk == State(None, [], [Receipt(c, DoneAtOne(c))])
    ensures After(checks, p, Handle(Boot(late), true, late, Whole))
      == p.(disk := EMPTY, process := Some(Process(Memory(EMPTY, None, true, true), [])))
  {
    hide ParseCommand, CommandToJson, ResultToStateJson, ResultToJson, StateFromJson, StateToJson;
    StateReread(checks, p.disk);
    var r := Receipt(c, Reread(DoneAtOne(c)));
    assert RereadAll(p.disk.completed) == [r] && RereadAll(p.disk.pending) == [];
    assert RetainedReceipts([r], late - RETENTION_MS) == RetainedReceipts([r][..0], late - RETENTION_MS) == [];
    assert RetainedReceipts([], late - RETENTION_MS) == [];
    assert p.receipts + [] == p.receipts && p.starts + [] == p.starts && p.accepted + AcceptedIn([]) == p.accepted;
  }

  /** Beyond retention the promise fails, for every job: ordered again after its receipt has aged
      out, a job is started a second time. */
  lemma StartedTwiceWhenAged(checks: Checks, payload: Object, c: Command, late: int)
    requires ParseCommand(checks, payload) == Some(c) && c.jobId.Some? && late > 1 + RETENTION_MS
    ensures Run(checks, NEW_PHONE, AgedRun(payload, c, late)).starts == [c, c]
  {
    hide ParseCommand, Run, After, GoodCommand;
    ParsedIsGood(checks, payload, c);
    AttemptOf(checks, c);
    var steps := AgedRun(payload, c, late);
    RunOfNone(checks, steps);
    RunStep(checks, steps, 0);
    FirstBoot(checks, 0, NEW_PHONE);
    RunStep(checks, steps, 1);
    FirstOrder(checks, payload, c, 0, Run(checks, NEW_PHONE, steps[..1]));
    RunStep(checks, steps, 2);
    RunStep(checks, steps, 3);
    FinishAndAck(checks, c, Run(checks, NEW_PHONE, steps[..2]));
    RunStep(checks, steps, 4);
    DiesIn(checks, Run(checks, NEW_PHONE, steps[..4]));
    RunStep(checks, steps, 5);
    LateBoot(checks, c, late, Run(checks, NEW_PHONE, steps[..5]));
    RunStep(checks, steps, 6);
    FirstOrder(checks, payload, c, late, Run(checks, NEW_PHONE, steps[..6]));
    assert steps[..7] == steps;
  }

  lemma RunOfNone(checks: Checks, steps: seq<Step>)
    ensures Run(checks, NEW_PHONE, steps[..0]) == NEW_PHONE
  {
  }

  lemma DiesIn(checks: Checks, p: Phone)
    ensures After(checks, p, Die) == p.(process := None)
  {
  }
}
