/** The client's Push/Sync coordinator (mdm-client/.../PushJobCoordinator.kt, PushExecutionGate.kt,
    PushJobStore.kt). A handler saves the durable state, then publishes it in memory, then sends
    its messages, then starts a worker. `Outcome` is what one handler does, in that order; the
    class performs it step by step. Whether a save succeeds and the clock are parameters. */
module Coordinator {
  import opened PushJobs
  import opened PushProtocol

  const MAX_RECEIPTS: nat := 256
  const RETENTION_MS := 7 * 24 * 60 * 60 * 1000

  datatype Identity = Identity(jobId: string, attempt: int, artifactId: Option<string>)

  datatype Ack = Ack(jobId: string, attempt: int, accepted: bool, retryable: bool)

  datatype Msg =
    | Accepted(command: Command, phase: string)
    | Busy(command: Command, holder: Command)
    | IdentityMismatch(command: Command)
    | PersistenceUnavailable(command: Command)
    | Malformed(payload: Object)
    | Terminal(result: Object)
    | Transferred(command: Command, received: int)
    | Validated(command: Command)
    | ApplyingNow(command: Command)
    | ReportActive(identity: Identity, phase: string)
    | ReportAbsent(identity: Identity)

  /** What the process keeps; `ready` once the save of the startup has succeeded. */
  datatype Memory = Memory(state: State, lease: Option<Command>, durable: bool, ready: bool)

  /** A durable save, with the completion time of the receipt it adds, if any. */
  datatype Saved = Saved(state: State, receiptTime: Option<int>)

  datatype Outcome = Outcome(saved: Option<Saved>, sent: seq<Msg>, start: Option<Command>, memory: Memory)

  /** What a handler does to the world outside, one at a time. */
  datatype Deed = Saves(saved: Saved) | Sends(msg: Msg) | Starts(command: Command)

  function Sending(msgs: seq<Msg>): (deeds: seq<Deed>)
    ensures |deeds| == |msgs| && forall i :: 0 <= i < |msgs| ==> deeds[i] == Sends(msgs[i])
  {
    if msgs == [] then [] else Sending(msgs[..|msgs| - 1]) + [Sends(msgs[|msgs| - 1])]
  }

  /** The deeds of an outcome in their order: the save, the messages, the worker. */
  function Deeds(o: Outcome): seq<Deed> {
    (if o.saved.Some? then [Saves(o.saved.value)] else []) + Sending(o.sent)
    + (if o.start.Some? then [Starts(o.start.value)] else [])
  }

  // ---- Normalisation ----

  function TakeLast<T>(s: seq<T>, n: nat): seq<T> {
    if |s| <= n then s else s[|s| - n..]
  }

  predicate Retained(time: int, cutoff: int) {
    time <= 0 || time >= cutoff
  }

  function RetainedReceipts(rs: seq<Receipt>, cutoff: int): seq<Receipt> {
    if rs == [] then []
    else RetainedReceipts(rs[..|rs| - 1], cutoff)
         + (if Retained(rs[|rs| - 1].result.completedAt, cutoff) then [rs[|rs| - 1]] else [])
  }

  /** `normalizePushState` under the store's clock. */
  function Normalize(s: State, now: int): (r: State)
    ensures r.active == s.active
  {
    s.(pending := TakeLast(s.pending, MAX_RECEIPTS),
       completed := TakeLast(RetainedReceipts(s.completed, now - RETENTION_MS), MAX_RECEIPTS))
  }

  /** `load`: read back what was saved. */
  function Load(checks: Checks, disk: State, now: int): State {
    Normalize(StateFromJson(checks, StateToJson(disk)), now)
  }

  // ---- Receipts ----

  function FindReceipt(rs: seq<Receipt>, c: Command): Option<Receipt> {
    if rs == [] then None
    else if SameIdentity(rs[0].command, c) then Some(rs[0])
    else FindReceipt(rs[1..], c)
  }

  function FindTerminal(s: State, c: Command): Option<Receipt> {
    var pending := FindReceipt(s.pending, c);
    if pending.Some? then pending else FindReceipt(s.completed, c)
  }

  predicate Matches(id: Identity, c: Command) {
    c.jobId == Some(id.jobId) && c.attempt == id.attempt && (id.artifactId.None? || c.artifactId == id.artifactId)
  }

  function FindReconciled(rs: seq<Receipt>, id: Identity): Option<Receipt> {
    if rs == [] then None else if Matches(id, rs[0].command) then Some(rs[0]) else FindReconciled(rs[1..], id)
  }

  /** The answer to one entry of a reconcile request. */
  function Answer(s: State, id: Identity): Msg {
    if s.active.Some? && Matches(id, s.active.value.command) then ReportActive(id, s.active.value.phase)
    else
      var pending := FindReconciled(s.pending, id);
      var settled := if pending.Some? then pending else FindReconciled(s.completed, id);
      if settled.Some? then Terminal(ResultToJson(settled.value.result)) else ReportAbsent(id)
  }

  predicate Acked(ack: Ack, r: Receipt) {
    r.result.jobId == Some(ack.jobId) && r.result.attempt == ack.attempt
  }

  function WithoutAcked(rs: seq<Receipt>, ack: Ack): seq<Receipt> {
    if rs == [] then []
    else WithoutAcked(rs[..|rs| - 1], ack) + (if Acked(ack, rs[|rs| - 1]) then [] else [rs[|rs| - 1]])
  }

  function LastAcked(rs: seq<Receipt>, ack: Ack): Option<Receipt> {
    if rs == [] then None
    else if Acked(ack, rs[|rs| - 1]) then Some(rs[|rs| - 1])
    else LastAcked(rs[..|rs| - 1], ack)
  }

  /** `applyPushResultAckToState`; None when the state stays the same object. */
  function ApplyAck(s: State, ack: Ack): Option<State> {
    if !ack.accepted && ack.retryable then None
    else
      var settled := LastAcked(s.pending, ack);
      if settled.None? then None
      else Some(s.(pending := WithoutAcked(s.pending, ack),
                   completed := TakeLast(WithoutAcked(s.completed, ack) + [settled.value], MAX_RECEIPTS)))
  }

  // ---- Lease ----

  predicate SameLease(a: Command, b: Command) {
    a.jobId == b.jobId && (a.jobId.Some? ==> a.attempt == b.attempt)
  }

  datatype Decision = Granted | Duplicate | HeldBy(holder: Command) | Clash

  function Decide(lease: Option<Command>, c: Command): Decision {
    if lease.None? then Granted
    else if lease.value.jobId.None? || c.jobId.None? then HeldBy(lease.value)
    else if lease.value.jobId == c.jobId && lease.value.attempt == c.attempt then
      if SameExecution(lease.value, c) then Duplicate else Clash
    else HeldBy(lease.value)
  }

  function Released(lease: Option<Command>, c: Command): Option<Command> {
    if lease.Some? && SameLease(lease.value, c) then None else lease
  }

  // ---- What each handler does ----

  function Quiet(m: Memory, sent: seq<Msg>): Outcome {
    Outcome(None, sent, None, m)
  }

  function IfJobV1(c: Command, msg: Msg): seq<Msg> {
    if c.jobId.Some? then [msg] else []
  }

  /** `persist` failed: nothing changes but `durabilityAvailable`. */
  function Unsaved(m: Memory, sent: seq<Msg>): Outcome {
    Quiet(m.(durable := false), sent)
  }

  function Persisted(m: Memory, next: State, receiptTime: Option<int>, now: int, lease: Option<Command>,
                     sent: seq<Msg>, start: Option<Command>): Outcome {
    Outcome(Some(Saved(Normalize(next, now), receiptTime)), sent, start,
            m.(state := Normalize(next, now), durable := true, lease := lease))
  }

  function OnCommand(checks: Checks, m: Memory, payload: Object, ok: bool, now: int): Outcome {
    var parsed := ParseCommand(checks, payload);
    if parsed.None? then Quiet(m, [Malformed(payload)])
    else
      var c := parsed.value;
      var terminal := FindTerminal(m.state, c);
      if terminal.Some? then
        Quiet(m, [if SameExecution(terminal.value.command, c) then Terminal(ResultToJson(terminal.value.result))
                  else IdentityMismatch(c)])
      else if !m.durable then Quiet(m, [PersistenceUnavailable(c)])
      else
        match Decide(m.lease, c)
        case Granted =>
          if ok then Persisted(m, m.state.(active := Some(Active(c, DOWNLOADING))), None, now, Some(c),
                               IfJobV1(c, Accepted(c, DOWNLOADING)), Some(c))
          else Unsaved(m, [PersistenceUnavailable(c)])
        case Duplicate =>
          Quiet(m, if m.state.active.Some? && SameLease(m.state.active.value.command, c)
                   then IfJobV1(c, Accepted(c, m.state.active.value.phase)) else [])
        case HeldBy(holder) => Quiet(m, [Busy(c, holder)])
        case Clash => Quiet(m, IfJobV1(c, IdentityMismatch(c)))
  }

  predicate IsCurrent(s: State, c: Command) {
    s.active.Some? && SameLease(s.active.value.command, c)
  }

  function OnPhase(m: Memory, c: Command, phase: string, sent: seq<Msg>, ok: bool, now: int): Outcome {
    if !IsCurrent(m.state, c) then Quiet(m, [])
    else if ok then Persisted(m, m.state.(active := Some(m.state.active.value.(phase := phase))), None, now, m.lease,
                              sent, None)
    else Unsaved(m, [])
  }

  function OnTransferComplete(m: Memory, c: Command, received: int, ok: bool, now: int): Outcome {
    OnPhase(m, c, VALIDATING, [Transferred(c, received)], ok, now)
  }

  function OnApplying(m: Memory, c: Command, ok: bool, now: int): Outcome {
    OnPhase(m, c, APPLYING, IfJobV1(c, ApplyingNow(c)), ok, now)
  }

  function OnValidated(m: Memory, c: Command): Outcome {
    Quiet(m, if IsCurrent(m.state, c) && m.state.active.value.phase == VALIDATING then IfJobV1(c, Validated(c)) else [])
  }

  /** The state that records a terminal result of `c`. */
  function WithReceipt(s: State, r: Receipt): State {
    State(None, if r.command.jobId.Some? then s.pending + [r] else s.pending, TakeLast(s.completed + [r], MAX_RECEIPTS))
  }

  function OnTerminal(m: Memory, c: Command, result: Result, ok: bool, now: int): Outcome {
    if !IsCurrent(m.state, c) then Quiet(m, [])
    else if ok then
      Persisted(m, WithReceipt(m.state, Receipt(c, result)), Some(result.completedAt), now, Released(m.lease, c),
                [Terminal(ResultToJson(result))], None)
    else Unsaved(m, [])
  }

  function OnAck(m: Memory, ack: Ack, ok: bool, now: int): Outcome {
    var next := ApplyAck(m.state, ack);
    if next.None? then Quiet(m, [])
    else if ok then Persisted(m, next.value, None, now, m.lease, [], None)
    else Unsaved(m, [])
  }

  function Answers(s: State, ids: seq<Identity>): (msgs: seq<Msg>)
    ensures |msgs| == |ids| && forall i :: 0 <= i < |ids| ==> msgs[i] == Answer(s, ids[i])
  {
    if ids == [] then [] else Answers(s, ids[..|ids| - 1]) + [Answer(s, ids[|ids| - 1])]
  }

  /** Malformed entries of the request are skipped; `ids` are the others. */
  function OnReconcile(m: Memory, ids: seq<Identity>): Outcome {
    Quiet(m, Answers(m.state, ids))
  }

  function Replayed(rs: seq<Receipt>): (msgs: seq<Msg>)
    ensures |msgs| == |rs| && forall i :: 0 <= i < |rs| ==> msgs[i] == Terminal(ResultToJson(rs[i].result))
  {
    if rs == [] then [] else Replayed(rs[..|rs| - 1]) + [Terminal(ResultToJson(rs[|rs| - 1].result))]
  }

  /** The outbox is sent again after every registration. */
  function OnRegistered(m: Memory): Outcome {
    Quiet(m, Replayed(m.state.pending))
  }

  function ClientRestarted(c: Command, completedAt: int): Result {
    Result(c.jobId, c.attempt, false, c.destPath, 0, 0, 0, Some(RESTART_CODE), Some(RESTART_DETAIL), completedAt)
  }

  const RESTART_CODE := "client_restarted"
  const RESTART_DETAIL :=
    "client process restarted; the previous worker did not survive and the destination may be partially applied"

  const FRESH := Memory(EMPTY, None, false, false)

  /** `recover`. */
  function Recovered(loaded: State, completedAt: int): (r: State)
    ensures r.active == None
  {
    if loaded.active.None? then loaded
    else
      var c := loaded.active.value.command;
      WithReceipt(loaded, Receipt(c, ClientRestarted(c, completedAt)))
  }

  function ActiveCommand(s: State): Option<Command> {
    if s.active.Some? then Some(s.active.value.command) else None
  }

  /** The first task of a new process. */
  function OnBoot(checks: Checks, disk: State, loadedAt: int, now: int, ok: bool): Outcome {
    var loaded := Load(checks, disk, loadedAt);
    if !ok then Unsaved(FRESH, [])
    else
      var next := Normalize(Recovered(loaded, now), now);
      Outcome(Some(Saved(next, if loaded.active.Some? then Some(now) else None)), [], None,
              Memory(next, ActiveCommand(next), true, true))
  }

  // ---- The objects ----

  class PushExecutionGate {
    var active: Option<Command>

    constructor ()
      ensures active == None
    {
      active := None;
    }

    method Restore(command: Option<Command>)
      modifies this
      ensures active == command
    {
      active := command;
    }

    /** One execution at a time: granted exactly when the lease was free. */
    method Offer(command: Command) returns (decision: Decision)
      modifies this
      ensures decision == Decide(old(active), command)
      ensures active == if decision.Granted? then Some(command) else old(active)
    {
      if active.None? {
        active := Some(command);
        return Granted;
      }
      var current := active.value;
      if current.jobId.None? || command.jobId.None? {
        return HeldBy(current);
      }
      if current.jobId == command.jobId && current.attempt == command.attempt {
        return if SameExecution(current, command) then Duplicate else Clash;
      }
      return HeldBy(current);
    }

    method Release(command: Command) returns (released: bool)
      modifies this
      ensures active == Released(old(active), command)
      ensures released <==> old(active).Some? && SameLease(old(active).value, command)
    {
      if active.None? || !SameLease(active.value, command) {
        return false;
      }
      active := None;
      return true;
    }
  }

  class PushJobCoordinator {
    const gate: PushExecutionGate
    var disk: State
    var state: State
    var visibleState: State
    var durabilityAvailable: bool
    var ready: bool
    ghost var trace: seq<Deed>

    function InMemory(): Memory
      reads this, gate
    {
      Memory(state, gate.active, durabilityAvailable, ready)
    }

    ghost predicate Valid()
      reads this
    {
      visibleState == state
    }

    /** This call of a handler did exactly what `o` says: on the disk, in memory, and outside in
        the order of the deeds. */
    twostate predicate Did(o: Outcome)
      reads this, gate
    {
      && Valid() && InMemory() == o.memory
      && disk == (if o.saved.Some? then o.saved.value.state else old(disk))
      && trace == old(trace) + Deeds(o)
    }

    constructor (file: State)
      ensures fresh(gate) && Valid() && InMemory() == FRESH && disk == file && trace == []
    {
      gate := new PushExecutionGate();
      disk, state, visibleState := file, EMPTY, EMPTY;
      durabilityAvailable, ready := false, false;
      trace := [];
    }

    /** The actor's first task. */
    method Boot(checks: Checks, loadedAt: int, now: int, ok: bool)
      requires Valid() && InMemory() == FRESH
      modifies this, gate
      ensures Did(OnBoot(checks, old(disk), loadedAt, now, ok))
    {
      hide Load, Recovered, Normalize;
      var loaded := Load(checks, disk, loadedAt);
      var saved := Persist(Recovered(loaded, now), if loaded.active.Some? then Some(now) else None, ok, now);
      if saved {
        gate.Restore(ActiveCommand(state));
        ready := true;
      }
    }

    /** Durable first, then visible. */
    method Persist(next: State, receiptTime: Option<int>, ok: bool, now: int) returns (saved: bool)
      modifies this`disk, this`state, this`visibleState, this`durabilityAvailable, this`trace
      ensures saved == ok && durabilityAvailable == ok
      ensures ok ==> disk == Normalize(next, now) && state == disk && visibleState == disk
      ensures ok ==> trace == old(trace) + [Saves(Saved(disk, receiptTime))]
      ensures !ok ==>
        disk == old(disk) && state == old(state) && visibleState == old(visibleState) && trace == old(trace)
    {
      if ok {
        disk := Normalize(next, now);
        trace := trace + [Saves(Saved(disk, receiptTime))];
        state := disk;
        visibleState := disk;
      }
      durabilityAvailable := ok;
      saved := ok;
    }

    method Send(msg: Msg)
      modifies this`trace
      ensures trace == old(trace) + [Sends(msg)]
    {
      trace := trace + [Sends(msg)];
    }

    /** Hand the command to the worker's executor. */
    method Start(command: Command)
      modifies this`trace
      ensures trace == old(trace) + [Starts(command)]
    {
      trace := trace + [Starts(command)];
    }

    method HandleCommand(checks: Checks, payload: Object, ok: bool, now: int)
      requires Valid()
      modifies this, gate
      ensures Did(OnCommand(checks, old(InMemory()), payload, ok, now))
    {
      hide ParseCommand, Normalize, ResultToJson, FindTerminal, FindReceipt, SameExecution;
      var parsed := ParseCommand(checks, payload);
      if parsed.None? {
        Send(Malformed(payload));
        return;
      }
      var command := parsed.value;
      var terminal := FindTerminal(state, command);
      if terminal.Some? {
        if SameExecution(terminal.value.command, command) {
          Send(Terminal(ResultToJson(terminal.value.result)));
        } else {
          Send(IdentityMismatch(command));
        }
        return;
      }
      if !durabilityAvailable {
        Send(PersistenceUnavailable(command));
        return;
      }
      var decision := gate.Offer(command);
      match decision {
        case Granted => Accept(command, ok, now);
        case Duplicate =>
          if state.active.Some? && SameLease(state.active.value.command, command) && command.jobId.Some? {
            Send(Accepted(command, state.active.value.phase));
          }
        case HeldBy(holder) => Send(Busy(command, holder));
        case Clash =>
          if command.jobId.Some? {
            Send(IdentityMismatch(command));
          }
      }
    }

    /** Durability before acceptance, and both before the worker starts. */
    method Accept(command: Command, ok: bool, now: int)
      requires Valid() && gate.active == Some(command)
      modifies this, gate
      ensures ok ==> Did(Persisted(old(InMemory()), old(state).(active := Some(Active(command, DOWNLOADING))), None,
                                   now, Some(command),
                                   IfJobV1(command, Accepted(command, DOWNLOADING)), Some(command)))
      ensures !ok ==> Did(Unsaved(old(InMemory()).(lease := None), [PersistenceUnavailable(command)]))
    {
      var saved := Persist(state.(active := Some(Active(command, DOWNLOADING))), None, ok, now);
      if !saved {
        var _ := gate.Release(command);
        Send(PersistenceUnavailable(command));
        return;
      }
      if command.jobId.Some? {
        Send(Accepted(command, DOWNLOADING));
      }
      Start(command);
    }

    method SetPhase(command: Command, phase: string, ok: bool, now: int) returns (done: bool)
      requires Valid()
      modifies this
      ensures done == (IsCurrent(old(state), command) && ok)
      ensures Did(OnPhase(old(InMemory()), command, phase, [], ok, now))
    {
      hide Normalize;
      if state.active.None? || !SameLease(state.active.value.command, command) {
        return false;
      }
      done := Persist(state.(active := Some(state.active.value.(phase := phase))), None, ok, now);
    }

    method HandleTransferComplete(command: Command, received: int, ok: bool, now: int)
      requires Valid()
      modifies this
      ensures Did(OnTransferComplete(old(InMemory()), command, received, ok, now))
    {
      hide Normalize;
      var done := SetPhase(command, VALIDATING, ok, now);
      if done {
        Send(Transferred(command, received));
      }
    }

    method HandleValidated(command: Command)
      requires Valid()
      modifies this
      ensures Did(OnValidated(old(InMemory()), command))
    {
      if state.active.None? || !SameLease(state.active.value.command, command)
         || state.active.value.phase != VALIDATING || command.jobId.None? {
        return;
      }
      Send(Validated(command));
    }

    method HandleApplying(command: Command, ok: bool, now: int)
      requires Valid()
      modifies this
      ensures Did(OnApplying(old(InMemory()), command, ok, now))
    {
      hide Normalize;
      var done := SetPhase(command, APPLYING, ok, now);
      if done && command.jobId.Some? {
        Send(ApplyingNow(command));
      }
    }

    method HandleTerminal(command: Command, result: Result, ok: bool, now: int)
      requires Valid()
      modifies this, gate
      ensures Did(OnTerminal(old(InMemory()), command, result, ok, now))
    {
      hide Normalize, ResultToJson;
      if !IsCurrent(state, command) {
        return;
      }
      var receipt := Receipt(command, result);
      var pending := if command.jobId.Some? then state.pending + [receipt] else state.pending;
      var completed := TakeLast(state.completed + [receipt], MAX_RECEIPTS);
      var saved := Persist(State(None, pending, completed), Some(result.completedAt), ok, now);
      if !saved {
        return;
      }
      var _ := gate.Release(command);
      Send(Terminal(ResultToJson(result)));
    }

    method HandleAck(ack: Ack, ok: bool, now: int)
      requires Valid()
      modifies this
      ensures Did(OnAck(old(InMemory()), ack, ok, now))
    {
      hide Normalize;
      var next := ApplyAck(state, ack);
      if next.None? {
        return;
      }
      var _ := Persist(next.value, None, ok, now);
    }

    method HandleReconcileRequest(ids: seq<Identity>)
      requires Valid()
      modifies this`trace
      ensures Did(OnReconcile(old(InMemory()), ids))
    {
      hide Answer, Sending, Answers;
      ghost var m := state;
      for i := 0 to |ids|
        invariant Valid() && InMemory() == old(InMemory()) && disk == old(disk)
        invariant trace == old(trace) + Sending(Answers(m, ids[..i]))
      {
        assert ids[..i + 1][..i] == ids[..i];
        Answering(m, ids[..i], ids[i]);
        assert ids[..i + 1] == ids[..i] + [ids[i]];
        Send(Answer(state, ids[i]));
      }
      assert ids[..|ids|] == ids;
    }

    method ReplayPendingResults()
      requires Valid()
      modifies this`trace
      ensures Did(OnRegistered(old(InMemory())))
    {
      hide ResultToJson;
      ghost var rs := state.pending;
      hide Sending, Replayed;
      for i := 0 to |state.pending|
        invariant Valid() && InMemory() == old(InMemory()) && disk == old(disk)
        invariant trace == old(trace) + Sending(Replayed(rs[..i]))
      {
        Replaying(rs[..i], rs[i]);
        assert rs[..i + 1] == rs[..i] + [rs[i]];
        Send(Terminal(ResultToJson(state.pending[i].result)));
      }
      assert rs[..|rs|] == rs;
    }
  }

  lemma Answering(s: State, ids: seq<Identity>, id: Identity)
    ensures Sending(Answers(s, ids + [id])) == Sending(Answers(s, ids)) + [Sends(Answer(s, id))]
    ensures Sending(Answers(s, [])) == []
  {
  }

  lemma Replaying(rs: seq<Receipt>, r: Receipt)
    ensures Sending(Replayed(rs + [r])) == Sending(Replayed(rs)) + [Sends(Terminal(ResultToJson(r.result)))]
    ensures Sending(Replayed([])) == []
  {
    hide ResultToJson;
  }
}
