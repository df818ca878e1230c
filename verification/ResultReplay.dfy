/** What the server does with a client's terminal result (mdm-server/styly_mdm/push_runtime.py),
    and what becomes of the copies the client sends again. */
module ResultReplay {
  import opened PushJobs
  import PushProtocol
  import CoordinatorRuns
  import Coordinator
  import opened JobTables
  import opened JobRuns
  import opened JobTheorems
  import opened JobOutcomes
  import CoordinatorOutcomes
  import Blanks

  const CODE_LIMIT := 128
  const APPLY_FAILED := "apply_failed"

  /** The tables each of the handler's store calls finds; other transactions may run between. */
  datatype Found = Found(clearing: Db, reading: Db, settling: Db, late: Db)

  /** `txs` are the handler's transactions in order, the rest is its acknowledgement. */
  datatype Handling = Ignored | Raised(txs: seq<Tx>) | Answered(txs: seq<Tx>, accepted: bool, reason: Option<Refusal>)

  function Value(o: PushProtocol.Object, f: PushProtocol.Field): PushProtocol.Json {
    if f in o then o[f] else PushProtocol.JNull
  }

  predicate Count(v: PushProtocol.Json) {
    v.JInt? && v.n >= 0
  }

  function CountOf(v: PushProtocol.Json): int {
    if Count(v) then v.n else 0
  }

  /** Python's True equals 1. */
  predicate IsOne(v: PushProtocol.Json) {
    v == PushProtocol.JInt(1) || v == PushProtocol.JBool(true)
  }

  predicate WellFormed(o: PushProtocol.Object) {
    var status := Value(o, PushProtocol.StatusKey);
    || status == PushProtocol.JStr(PushProtocol.FAIL)
    || (status == PushProtocol.JStr(PushProtocol.SUCCESS) && Count(Value(o, PushProtocol.AddedKey))
        && Count(Value(o, PushProtocol.UpdatedKey)) && Count(Value(o, PushProtocol.DeletedKey)))
  }

  /** The verdict the handler passes on. */
  function ReadVerdict(o: PushProtocol.Object): Verdict {
    var success := Value(o, PushProtocol.StatusKey) == PushProtocol.JStr(PushProtocol.SUCCESS);
    var code := Value(o, PushProtocol.FailureCodeKey);
    var detail, error := Value(o, PushProtocol.DetailKey), Value(o, PushProtocol.ErrorKey);
    Verdict(success,
            Counts(CountOf(Value(o, PushProtocol.AddedKey)), CountOf(Value(o, PushProtocol.UpdatedKey)),
                   CountOf(Value(o, PushProtocol.DeletedKey))),
            if code.JStr? && code.s != [] then Some(Clip(code.s, CODE_LIMIT))
            else if success then None else Some(APPLY_FAILED),
            Clip(if detail.JStr? then detail.s else if error.JStr? then error.s else [], DETAIL_LIMIT))
  }

  /** `_handle_result`. */
  function HandleResult(found: Found, d: DeviceId, o: PushProtocol.Object, now: int): Handling {
    var id := Value(o, PushProtocol.JobIdKey);
    if !id.JStr? then Ignored
    else if !IsOne(Value(o, PushProtocol.AttemptKey)) then Answered([], false, Some(StaleResult))
    else if !WellFormed(o) then Answered([], false, Some(MalformedResult))
    else
      var k := Key(id.s, d);
      var cleared := ClearMatchingOpaque(found.clearing, k, now);
      if cleared.reply == Changed then Answered([cleared], true, None)
      else if k !in found.reading.rows then Answered([cleared], false, Some(UnknownJob))
      else if found.reading.rows[k].state == Unconfirmed then
        var late := SettleLate(found.late, k, 1, now);
        Answered([cleared, late], !late.reply.Refused?, if late.reply.Refused? then Some(StaleResult) else None)
      else
        var settled := SettleResult(found.settling, k, 1, ReadVerdict(o), now);
        match settled.reply
        case Refused(why) =>
          if k in settled.db.rows && settled.db.rows[k].state == Unconfirmed then
            var late := SettleLate(found.late, k, 1, now);
            Answered([cleared, settled, late], !late.reply.Refused?, if late.reply.Refused? then Some(why) else None)
          else Answered([cleared, settled], false, Some(why))
        case NotFound => Raised([cleared, settled])
        case _ => Answered([cleared, settled], true, None)
  }

  ghost predicate ChangesNothing(h: Handling, found: Found) {
    && h.Answered?
    && (forall tx :: tx in h.txs ==> tx.db == found.clearing || tx.db == found.settling || tx.db == found.late)
    && (|h.txs| > 0 ==> h.txs[0].db == found.clearing) && (|h.txs| > 1 ==> h.txs[1].db == found.settling)
    && |h.txs| <= 2
  }

  /** Once a result has settled the row, every later copy of it is accepted and every different
      result refused, and neither changes anything, wherever other transactions run in between:
      unless the device carries an opaque fence that names the job. */
  lemma SettledOnceForAll(ws: seq<World>, steps: seq<Step>, i: nat, a: nat, b: nat, c: nat, e: nat,
                          o: PushProtocol.Object, now: int)
    requires Run(ws, steps) && i < a <= b <= c <= e < |ws|
    requires steps[i].Settle? && Effect(ws[i], steps[i]).reply == Changed
    requires Value(o, PushProtocol.JobIdKey) == PushProtocol.JStr(steps[i].key.job)
    requires IsOne(Value(o, PushProtocol.AttemptKey)) && WellFormed(o)
    requires !OpaqueMatches(ws[a].db, steps[i].key)
    ensures var found := Found(ws[a].db, ws[b].db, ws[c].db, ws[e].db);
      var h := HandleResult(found, steps[i].key.device, o, now);
      && ChangesNothing(h, found)
      && (h.accepted <==> ReadVerdict(o) == steps[i].verdict)
      && (!h.accepted ==> h.reason == Some(ConflictingTerminalResult))
  {
    hide Run, Effect, ReadVerdict, WellFormed, SettleLate;
    RunLength(ws, steps);
    var k, v := steps[i].key, steps[i].verdict;
    SettledOnce(ws, steps, i, c, v, ReadVerdict(o), now);
    SettledRowStays(ws, steps, i, b);
    SettledRowStays(ws, steps, i, c);
  }

  lemma SettledRowStays(ws: seq<World>, steps: seq<Step>, i: nat, b: nat)
    requires Run(ws, steps) && i < b < |ws| && steps[i].Settle? && Effect(ws[i], steps[i]).reply == Changed
    ensures steps[i].key in ws[b].db.rows
    ensures ws[b].db.rows[steps[i].key].state == if steps[i].verdict.success then Succeeded else Failed
  {
    var key := steps[i].key;
    assert ws[i + 1].db.rows[key] == Settled(ws[i].db.rows[key], steps[i].verdict, steps[i].now) by {
      hide Rederived, States;
    }
    hide Run, Effect;
    TerminalRowsAreFrozen(ws, steps, i + 1, b, key);
  }

  /** What the server makes of a client's own result. */
  lemma ClientResultIsWellFormed(r: PushProtocol.Result)
    requires r.jobId.Some? && r.attempt == 1
    requires r.success ==> r.added >= 0 && r.updated >= 0 && r.deleted >= 0
    ensures var o := PushProtocol.ResultToJson(r);
      && Value(o, PushProtocol.JobIdKey) == PushProtocol.JStr(r.jobId.value)
      && IsOne(Value(o, PushProtocol.AttemptKey)) && WellFormed(o)
  {
    hide PushProtocol.NonBlank;
  }

  /** End to end: the client keeps a result `r` in its outbox from step `from` on, the server has
      settled the row by it at step `i`. Whatever crashes the client goes through, as long as no
      acknowledgement reached it, each registration sends the very same message, and the server
      accepts that copy without changing a table. */
  lemma ReplayIsIdempotent(
      checks: PushProtocol.Checks, client: seq<CoordinatorRuns.Step>, from: nat, command: PushProtocol.Command,
      r: PushProtocol.Result,
      ws: seq<World>, steps: seq<Step>, i: nat, a: nat, b: nat, c: nat, e: nat, now: int)
    requires CoordinatorRuns.RetentiveRun(checks, client) && from <= |client|
    requires CoordinatorRuns.InOutbox(CoordinatorRuns.Run(checks, CoordinatorRuns.NEW_PHONE, client[..from]).disk,
                                      command, PushProtocol.ResultToJson(r))
    requires forall n :: from <= n < |client| ==> !CoordinatorRuns.Concludes(client[n], command)
    requires r.attempt == 1 && (r.success ==> r.added >= 0 && r.updated >= 0 && r.deleted >= 0)
    requires Run(ws, steps) && i < a <= b <= c <= e < |ws|
    requires steps[i].Settle? && Effect(ws[i], steps[i]).reply == Changed && r.jobId == Some(steps[i].key.job)
    requires steps[i].verdict == ReadVerdict(PushProtocol.ResultToJson(r)) && !OpaqueMatches(ws[a].db, steps[i].key)
    ensures var phone := CoordinatorRuns.Run(checks, CoordinatorRuns.NEW_PHONE, client);
      phone.process.Some? && phone.process.value.memory.ready ==>
        Coordinator.Terminal(PushProtocol.ResultToJson(r)) in Coordinator.OnRegistered(phone.process.value.memory).sent
    ensures var found := Found(ws[a].db, ws[b].db, ws[c].db, ws[e].db);
      var h := HandleResult(found, steps[i].key.device, PushProtocol.ResultToJson(r), now);
      ChangesNothing(h, found) && h.accepted
  {
    hide Run, Effect, ReadVerdict, WellFormed, HandleResult, CoordinatorRuns.Run, CoordinatorRuns.RetentiveRun,
      PushProtocol.ResultToJson;
    CoordinatorRuns.ResultStaysInOutbox(checks, client, from, command, PushProtocol.ResultToJson(r));
    ClientResultIsWellFormed(r);
    SettledOnceForAll(ws, steps, i, a, b, c, e, PushProtocol.ResultToJson(r), now);
  }

  /** What the server reads from a client's own result: its outcome, its counts, its reason or the
      default one, clipped. */
  lemma VerdictOfClient(r: PushProtocol.Result)
    requires r.jobId.Some?
    ensures var v := ReadVerdict(PushProtocol.ResultToJson(r));
      && v.success == r.success
      && (r.success ==> v.counts == Counts(Positive(r.added), Positive(r.updated), Positive(r.deleted)))
      && (!r.success ==> v.counts == Counts(0, 0, 0))
      && v.failureCode == (if r.success then None else if PushProtocol.NonBlank(r.failureCode).Some?
                           then Some(Clip(r.failureCode.value, 128)) else Some("apply_failed"))
      && v.failureDetail == (if !r.success && PushProtocol.NonBlank(r.detail).Some? then Clip(r.detail.value, 2000)
                             else [])
  {
    hide Clip;
    PushProtocol.StatusesDiffer();
    ShortStays([], DETAIL_LIMIT);
    if r.failureCode.Some? && r.failureCode.value == [] {
      PushProtocol.BlankIsEmpty(r.failureCode.value);
    }
    hide Blanks.Blank;
  }

  function Positive(n: int): int {
    if n >= 0 then n else 0
  }

  /** A crash never reads as a success. */
  lemma InterruptionIsNoSuccess(wire: PushProtocol.Object, c: PushProtocol.Command)
    requires CoordinatorOutcomes.TellsInterruption(wire, c)
    ensures WellFormed(wire) && !ReadVerdict(wire).success && ReadVerdict(wire).failureCode == Some("client_restarted")
  {
    hide Clip;
    PushProtocol.StatusesDiffer();
    assert |"client_restarted"| == 16;
    ShortStays("client_restarted", CODE_LIMIT);
  }

  lemma ShortStays(s: string, limit: nat)
    requires |s| <= limit
    ensures Clip(s, limit) == s
  {
  }

  /** Every message about a job in every situation: a malformed one is refused and touches nothing; a
      matching opaque fence is cleared and that is the answer; an unknown job is refused; a result of
      an unconfirmed row is accepted unless the device is fenced for other work; and otherwise the
      row decides, with one more look at the fence if it has become unconfirmed meanwhile. */
  lemma MessageIsHandled(found: Found, d: DeviceId, o: PushProtocol.Object, now: int, j: JobId)
    requires Value(o, PushProtocol.JobIdKey) == PushProtocol.JStr(j)
    requires Key(j, d) in found.reading.rows ==> Key(j, d) in found.settling.rows && Key(j, d) in found.late.rows
    ensures var h, k := HandleResult(found, d, o, now), Key(j, d);
      var fence := if d in found.clearing.fences then Some(found.clearing.fences[d]) else None;
      var matching := fence.Some? && fence.value.OpaqueFence? && fence.value.protocol == JobV1
                    && fence.value.identity.KnownActive? && fence.value.identity.job == j;
      && h.Answered?
      && (!IsOne(Value(o, PushProtocol.AttemptKey)) ==> h == Answered([], false, Some(StaleResult)))
      && (IsOne(Value(o, PushProtocol.AttemptKey)) && !WellFormed(o) ==>
                h == Answered([], false, Some(MalformedResult)))
      && (IsOne(Value(o, PushProtocol.AttemptKey)) && WellFormed(o) ==>
            && (matching ==>
                  && h.accepted && |h.txs| == 1 && d !in h.txs[0].db.fences
                  && h.txs[0].db.rows == found.clearing.rows)
            && (!matching ==> |h.txs| >= 1 && h.txs[0].db == found.clearing)
            && (!matching && k !in found.reading.rows ==> !h.accepted && h.reason == Some(UnknownJob) && |h.txs| == 1)
            && (!matching && k in found.reading.rows && found.reading.rows[k].state == Unconfirmed ==>
                  && |h.txs| == 2 && h.txs[1] == SettleLate(found.late, k, 1, now)
                  && (h.accepted <==> !h.txs[1].reply.Refused?))
            && (!matching && k in found.reading.rows && found.reading.rows[k].state != Unconfirmed ==>
                  && |h.txs| >= 2 && h.txs[1] == SettleResult(found.settling, k, 1, ReadVerdict(o), now)
                  && (|h.txs| == 3 <==> h.txs[1].reply.Refused? && found.settling.rows[k].state == Unconfirmed)
                  && (|h.txs| == 3 ==> h.txs[2] == SettleLate(found.late, k, 1, now))
                  && (h.accepted <==> !h.txs[|h.txs| - 1].reply.Refused?)))
  {
    hide ReadVerdict, WellFormed, IsOne, SettleLate, OnlyRow, ShownTo, DropFence, SettleResult, Value;
    var k := Key(j, d);
    DroppedFence(found.clearing, d, None, true, now);
    if k in found.settling.rows {
      ResultSettlesExactly(found.settling, k, ReadVerdict(o), now);
    }
  }
}
