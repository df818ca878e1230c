/** The single database thread and its queue (mdm-server/styly_mdm/push_job_store.py, `_DbWorker`)
    as a machine of the steps that callers, cancelling callers and the thread may interleave.
    Futures are named by numbers; `settled` lists every completion of one, in order. */
module DbWorker {
  import opened PushJobs

  datatype How = Returned | Raised | Stopped | Cancelled

  datatype Future = Waiting | Running | Done(how: How)

  datatype Item = Call(id: nat) | Sentinel

  /** Where the thread is. `Ending` is the `finally` block, `Failing` the last loop of `_fail`. */
  datatype Place =
    | Idle | Took(id: nat) | Busy(id: nat) | Finished(id: nat)
    | Ending(failed: bool, active: Option<nat>) | Failing(left: seq<nat>) | Ended

  datatype Worker = Worker(queue: seq<Item>, futures: map<nat, Future>, fatal: bool, closed: bool, at: Place,
                           settled: seq<nat>)

  datatype Step =
    | Submit(id: nat) | Cancel(id: nat) | Close
    | Take | Begin | Finish(how: How) | Forget | Breaks | CloseConnection(raises: bool) | FailLocked | FailOne

  const FRESH := Worker([], map[], false, false, Idle, [])

  predicate IsDone(w: Worker, id: nat) {
    id in w.futures && w.futures[id].Done?
  }

  /** `set_result` or `set_exception`; on a finished future it raises and is ignored. */
  function Settle(w: Worker, id: nat, how: How): Worker {
    if id !in w.futures || w.futures[id].Done? then w
    else w.(futures := w.futures[id := Done(how)], settled := w.settled + [id])
  }

  function Submitted(w: Worker, id: nat): Worker {
    var w := w.(futures := w.futures[id := Waiting]);
    if w.fatal || w.closed then Settle(w, id, Stopped) else w.(queue := w.queue + [Call(id)])
  }

  function Closed(w: Worker): Worker {
    if w.closed then w
    else w.(closed := true, queue := if w.fatal then w.queue else w.queue + [Sentinel])
  }

  /** The queued futures that are not done, in order. */
  function Undone(queue: seq<Item>, futures: map<nat, Future>): seq<nat> {
    if queue == [] then []
    else
      var rest, last := Undone(queue[..|queue| - 1], futures), queue[|queue| - 1];
      if last.Call? && last.id in futures && !futures[last.id].Done? then rest + [last.id] else rest
  }

  function ActiveUndone(w: Worker, active: Option<nat>): seq<nat> {
    if active.Some? && active.value in w.futures && !IsDone(w, active.value) then [active.value] else []
  }

  predicate Allowed(w: Worker, step: Step) {
    match step
    case Submit(id) => id !in w.futures
    case Cancel(id) => id in w.futures && w.futures[id] == Waiting
    case Close => true
    case Take => w.at == Idle && w.queue != []
    case Begin => w.at.Took?
    case Finish(how) => w.at.Busy? && (how == Returned || how == Raised)
    case Forget => w.at.Finished?
    case Breaks => w.at.Idle? || w.at.Took? || w.at.Busy? || w.at.Finished?
    case CloseConnection(_) => w.at.Ending? && !w.at.failed
    case FailLocked => w.at.Ending? && w.at.failed
    case FailOne => w.at.Failing?
  }

  function Held(at: Place): Option<nat> {
    if at.Took? || at.Busy? || at.Finished? then Some(at.id) else if at.Ending? then at.active else None
  }

  /** After a failure, how closing the connection goes makes no difference: `FailLocked` follows. */
  function Next(w: Worker, step: Step): Worker
    requires Allowed(w, step)
  {
    match step
    case Submit(id) => Submitted(w, id)
    case Cancel(id) => Settle(w, id, Cancelled)
    case Close => Closed(w)
    case Take =>
      w.(queue := w.queue[1..], at := if w.queue[0].Sentinel? then Ending(false, None) else Took(w.queue[0].id))
    case Begin =>
      if IsDone(w, w.at.id) || w.at.id !in w.futures then w.(at := Idle)
      else w.(at := Busy(w.at.id), futures := w.futures[w.at.id := Future.Running])
    case Finish(how) => Settle(w, w.at.id, how).(at := Finished(w.at.id))
    case Forget => w.(at := Idle)
    case Breaks => w.(at := Ending(true, Held(w.at)))
    case CloseConnection(raises) =>
      w.(at := if raises then w.at.(failed := true) else Ended)
    case FailLocked =>
      w.(fatal := true, queue := [], at := Failing(ActiveUndone(w, w.at.active) + Undone(w.queue, w.futures)))
    case FailOne =>
      if w.at.left == [] then w.(at := Ended) else Settle(w, w.at.left[0], Stopped).(at := Failing(w.at.left[1..]))
  }

  ghost predicate Run(ws: seq<Worker>, steps: seq<Step>) {
    && |ws| == |steps| + 1 && ws[0] == FRESH
    && forall i :: 0 <= i < |steps| ==> Allowed(ws[i], steps[i]) && ws[i + 1] == Next(ws[i], steps[i])
  }

  // ---- Invariant ----

  ghost predicate SettledOnce(w: Worker) {
    && (forall i, j :: 0 <= i < j < |w.settled| ==> w.settled[i] != w.settled[j])
    && (forall id :: id in w.settled <==> IsDone(w, id))
  }

  /** Somebody will still complete this future. */
  predicate Owed(w: Worker, id: nat) {
    Call(id) in w.queue || Held(w.at) == Some(id) || (w.at.Failing? && id in w.at.left)
  }

  ghost predicate NothingLost(w: Worker) {
    forall id :: id in w.futures && !w.futures[id].Done? ==> Owed(w, id)
  }

  /** The sentinel comes last, and only once. */
  ghost predicate SentinelLast(w: Worker) {
    && (forall i :: 0 <= i < |w.queue| && w.queue[i].Sentinel? ==> i == |w.queue| - 1 && w.closed)
    && (w.closed && (w.at.Idle? || w.at.Took? || w.at.Busy? || w.at.Finished?) ==>
              w.queue != [] && w.queue[|w.queue| - 1].Sentinel?)
  }

  ghost predicate Shutting(w: Worker) {
    && (w.fatal ==> w.at.Failing? || w.at.Ended?)
    && (w.at.Failing? ==> w.fatal && w.queue == [])
    && (w.at.Ended? ==> (w.fatal || w.closed) && w.queue == [])
    && (w.at.Ending? && !w.at.failed ==> w.closed && w.queue == [] && w.at.active.None?)
    && (forall id :: Call(id) in w.queue ==> id in w.futures)
    && (Held(w.at).Some? ==> Held(w.at).value in w.futures)
    && (w.at.Finished? ==> IsDone(w, w.at.id))
    && (w.at.Busy? ==> w.futures[w.at.id] == Future.Running)
  }

  ghost predicate Inv(w: Worker) {
    SettledOnce(w) && NothingLost(w) && SentinelLast(w) && Shutting(w)
  }

  lemma SettleKeepsSettledOnce(w: Worker, id: nat, how: How)
    requires SettledOnce(w)
    ensures SettledOnce(Settle(w, id, how))
  {
    if id in w.futures && !w.futures[id].Done? {
      assert id !in w.settled;
      forall i, j | 0 <= i < j < |w.settled| + 1 ensures (w.settled + [id])[i] != (w.settled + [id])[j] {
        assert w.settled[i] in w.settled;
      }
    }
  }

  lemma {:induction false} UndoneHasAll(queue: seq<Item>, futures: map<nat, Future>)
    ensures forall id :: id in Undone(queue, futures) <==> Call(id) in queue && id in futures && !futures[id].Done?
  {
    if queue != [] {
      UndoneHasAll(queue[..|queue| - 1], futures);
      assert queue == queue[..|queue| - 1] + [queue[|queue| - 1]];
    }
  }

  lemma NextKeepsSettledOnce(w: Worker, step: Step)
    requires Allowed(w, step) && SettledOnce(w) && Shutting(w)
    ensures SettledOnce(Next(w, step))
  {
    match step {
      case Submit(id) => SettleKeepsSettledOnce(w.(futures := w.futures[id := Waiting]), id, Stopped);
      case Cancel(id) => SettleKeepsSettledOnce(w, id, Cancelled);
      case Finish(how) => SettleKeepsSettledOnce(w, w.at.id, how);
      case FailOne =>
        if w.at.left != [] {
          SettleKeepsSettledOnce(w, w.at.left[0], Stopped);
        }
      case _ =>
    }
  }

  lemma NextKeepsNothingLost(w: Worker, step: Step)
    requires Allowed(w, step) && NothingLost(w) && Shutting(w)
    ensures NothingLost(Next(w, step))
  {
    var v := Next(w, step);
    if step.FailLocked? {
      UndoneHasAll(w.queue, w.futures);
    }
    forall id | id in v.futures && !v.futures[id].Done? ensures Owed(v, id) {
      if id in w.futures {
        assert Owed(w, id);
      }
      if step.Take? {
        assert w.queue == [w.queue[0]] + v.queue;
      } else if step.FailOne? && w.at.left != [] {
        assert w.at.left == [w.at.left[0]] + w.at.left[1..];
      }
    }
  }

  lemma NextKeepsSentinelLast(w: Worker, step: Step)
    requires Allowed(w, step) && SentinelLast(w) && Shutting(w)
    ensures SentinelLast(Next(w, step))
  {
    hide Undone, Settle;
    if step.Take? {
      assert w.queue == [w.queue[0]] + w.queue[1..];
    }
    SettleKeepsPlace(w, step);
  }

  /** Completing a future touches neither the queue nor the flags. */
  lemma SettleKeepsPlace(w: Worker, step: Step)
    requires Allowed(w, step)
    ensures Next(w, step).closed == (w.closed || step.Close?) && Next(w, step).fatal == (w.fatal || step.FailLocked?)
    ensures step.Submit? || step.Cancel? || step.Close? ==> Next(w, step).at == w.at
    ensures step.Submit? ==> Next(w, step).queue == if w.fatal || w.closed then w.queue else w.queue + [Call(step.id)]
    ensures step.Cancel? || step.Begin? || step.Finish? || step.Forget? ==> Next(w, step).queue == w.queue
    ensures step.Breaks? || step.CloseConnection? || step.FailOne? ==> Next(w, step).queue == w.queue
  {
    hide Undone;
  }

  lemma FuturesStay(w: Worker, step: Step)
    requires Allowed(w, step)
    ensures w.futures.Keys <= Next(w, step).futures.Keys
    ensures step.Submit? ==> step.id in Next(w, step).futures
    ensures forall id :: IsDone(w, id) ==> IsDone(Next(w, step), id)
  {
    hide Undone;
  }

  lemma NextKeepsShutting(w: Worker, step: Step)
    requires Allowed(w, step) && SentinelLast(w) && Shutting(w)
    ensures Shutting(Next(w, step))
  {
    SettleKeepsPlace(w, step);
    FuturesStay(w, step);
    if step.Finish? {
      assert IsDone(Next(w, step), w.at.id);
    } else {
      hide Undone, Settle, IsDone;
      if step.Take? {
        assert w.queue == [w.queue[0]] + w.queue[1..];
      }
    }
  }

  lemma {:induction false} RunsKeepInv(ws: seq<Worker>, steps: seq<Step>, i: nat)
    requires Run(ws, steps) && i < |ws|
    ensures Inv(ws[i])
  {
    hide SettledOnce, NothingLost, SentinelLast, Shutting, Next, Allowed;
    if i == 0 {
      FreshIsGood();
    } else {
      RunsKeepInv(ws, steps, i - 1);
      NextKeepsSettledOnce(ws[i - 1], steps[i - 1]);
      NextKeepsNothingLost(ws[i - 1], steps[i - 1]);
      NextKeepsSentinelLast(ws[i - 1], steps[i - 1]);
      NextKeepsShutting(ws[i - 1], steps[i - 1]);
    }
  }

  lemma FreshIsGood()
    ensures Inv(FRESH)
  {
  }

  // ---- Theorems ----

  /** For every interleaving: a completed future is completed exactly once; an uncompleted one is
      in the queue, with the thread, or on the list the failing thread is working off; and once
      the thread has ended nothing is queued and every future is done. */
  lemma NoLostCall(ws: seq<Worker>, steps: seq<Step>, i: nat, id: nat)
    requires Run(ws, steps) && i < |ws| && id in ws[i].futures
    ensures ws[i].futures[id].Done? <==> multiset(ws[i].settled)[id] == 1
    ensures !ws[i].futures[id].Done? <==> multiset(ws[i].settled)[id] == 0
    ensures ws[i].futures[id].Done? || Owed(ws[i], id)
    ensures ws[i].at.Ended? ==> ws[i].queue == [] && ws[i].futures[id].Done?
  {
    RunsKeepInv(ws, steps, i);
    CountOnce(ws[i].settled, id);
  }

  lemma {:induction false} CountOnce(log: seq<nat>, id: nat)
    requires forall i, j :: 0 <= i < j < |log| ==> log[i] != log[j]
    ensures multiset(log)[id] == if id in log then 1 else 0
  {
    if log != [] {
      var front, last := log[..|log| - 1], log[|log| - 1];
      CountOnce(front, id);
      assert log == front + [last];
    }
  }

  /** A completed future keeps its outcome. */
  lemma {:induction false} OutcomesStay(ws: seq<Worker>, steps: seq<Step>, i: nat, k: nat, id: nat)
    requires Run(ws, steps) && i <= k < |ws| && IsDone(ws[i], id)
    ensures IsDone(ws[k], id) && ws[k].futures[id] == ws[i].futures[id]
    decreases k
  {
    if i < k {
      OutcomesStay(ws, steps, i, k - 1, id);
    }
  }

  /** Who completes a future, and how: the call itself by returning or raising, its caller by
      cancelling it in time, or the worker by stopping. */
  lemma CompletedOnlyBy(w: Worker, step: Step, id: nat)
    requires Allowed(w, step) && !IsDone(w, id) && IsDone(Next(w, step), id)
    ensures match Next(w, step).futures[id].how
      case Cancelled => step == Cancel(id)
      case Stopped =>
        || (step == Submit(id) && (w.fatal || w.closed))
        || (step == FailOne && w.at.left != [] && w.at.left[0] == id)
      case Returned => step == Finish(Returned) && w.at == Busy(id)
      case Raised => step == Finish(Raised) && w.at == Busy(id)
  {
    hide Undone;
  }

  /** A call that ends is completed with how it ended. */
  lemma FinishedAsItEnded(ws: seq<Worker>, steps: seq<Step>, i: nat, how: How)
    requires Run(ws, steps) && i < |steps| && steps[i] == Finish(how)
    ensures ws[i].at.Busy? && ws[i].at.id in ws[i + 1].futures && ws[i + 1].futures[ws[i].at.id] == Done(how)
  {
    hide SettledOnce, NothingLost, SentinelLast;
    RunsKeepInv(ws, steps, i);
  }

  ghost predicate Ahead(queue: seq<Item>, x: nat, y: nat) {
    forall p, q :: 0 <= p < |queue| && 0 <= q < |queue| && queue[p] == Call(x) && queue[q] == Call(y) ==> p < q
  }

  lemma NextKeepsAhead(w: Worker, step: Step, x: nat, y: nat)
    requires Allowed(w, step) && x in w.futures && y in w.futures && x != y && Ahead(w.queue, x, y)
    ensures Ahead(Next(w, step).queue, x, y) && x in Next(w, step).futures && y in Next(w, step).futures
  {
    hide Undone, Settle;
    SettleKeepsPlace(w, step);
    FuturesStay(w, step);
  }

  lemma {:induction false} StaysAhead(ws: seq<Worker>, steps: seq<Step>, i: nat, k: nat, x: nat, y: nat)
    requires Run(ws, steps) && i <= k < |ws| && x in ws[i].futures
    requires y in ws[i].futures && x != y && Ahead(ws[i].queue, x, y)
    ensures Ahead(ws[k].queue, x, y) && x in ws[k].futures && y in ws[k].futures
    decreases k
  {
    hide Next, Allowed, Ahead;
    if i < k {
      StaysAhead(ws, steps, i, k - 1, x, y);
      NextKeepsAhead(ws[k - 1], steps[k - 1], x, y);
    }
  }

  /** Calls are taken in the order of their submission: none before one that was already waiting. */
  lemma TakenInOrder(ws: seq<Worker>, steps: seq<Step>, i: nat, k: nat, x: nat, y: nat)
    requires Run(ws, steps) && i < k < |steps| && steps[i] == Submit(y) && Call(x) in ws[i].queue
    requires steps[k] == Take && ws[k + 1].at == Took(y)
    ensures Call(x) !in ws[k].queue
  {
    hide SettledOnce, NothingLost, SentinelLast, Undone;
    RunsKeepInv(ws, steps, i);
    assert x in ws[i].futures && x != y;
    assert forall p :: 0 <= p < |ws[i].queue| && ws[i].queue[p].Call? ==> ws[i].queue[p].id != y;
    assert Ahead(ws[i + 1].queue, x, y);
    StaysAhead(ws, steps, i + 1, k, x, y);
    assert ws[k].queue[0] == Call(y);
  }

  predicate ThreadStep(step: Step) {
    !step.Submit? && !step.Cancel? && !step.Close?
  }

  function Rank(w: Worker): nat {
    6 * |w.queue| +
    match w.at
    case Idle => 5
    case Took(_) => 9
    case Busy(_) => 8
    case Finished(_) => 7
    case Ending(failed, _) => if failed then 3 else 4
    case Failing(left) => |left| + 1
    case Ended => 0
  }

  lemma {:induction false} UndoneIsShort(queue: seq<Item>, futures: map<nat, Future>)
    ensures |Undone(queue, futures)| <= |queue|
  {
    if queue != [] {
      UndoneIsShort(queue[..|queue| - 1], futures);
    }
  }

  /** Once closed or failed, the thread always has a step to take until it has ended, each brings
      it closer, and no caller can push the end away: closing completes. */
  lemma ClosingCompletes(ws: seq<Worker>, steps: seq<Step>, i: nat, step: Step)
    requires Run(ws, steps) && i < |ws| && (ws[i].closed || ws[i].fatal) && Allowed(ws[i], step)
    ensures ws[i].at.Ended? || exists s :: Allowed(ws[i], s) && ThreadStep(s)
    ensures Rank(Next(ws[i], step)) <= Rank(ws[i])
    ensures ThreadStep(step) ==> Rank(Next(ws[i], step)) < Rank(ws[i])
  {
    hide SettledOnce, NothingLost;
    RunsKeepInv(ws, steps, i);
    var w := ws[i];
    UndoneIsShort(w.queue, w.futures);
    if !w.at.Ended? {
      var s := match w.at
        case Idle => Take
        case Took(_) => Begin
        case Busy(_) => Finish(Returned)
        case Finished(_) => Forget
        case Ending(failed, _) => if failed then FailLocked else CloseConnection(false)
        case Failing(_) => FailOne
        case Ended => Close;
      assert Allowed(w, s) && ThreadStep(s);
    }
  }

  /** The worker's own fields, and the parts of it that run under its lock or alone. */
  class Thread {
    var queue: seq<Item>
    var futures: map<nat, Future>
    var fatalError: bool
    var closed: bool
    var at: Place
    var settled: seq<nat>

    function Contents(): Worker
      reads this
    {
      Worker(queue, futures, fatalError, closed, at, settled)
    }

    constructor ()
      ensures Contents() == FRESH
    {
      queue, futures, fatalError, closed, at, settled := [], map[], false, false, Idle, [];
    }

    method Complete(id: nat, how: How)
      modifies this`futures, this`settled
      ensures Contents() == Settle(old(Contents()), id, how)
    {
      if id in futures && !futures[id].Done? {
        futures := futures[id := Done(how)];
        settled := settled + [id];
      }
    }

    method Submit(id: nat)
      requires id !in futures
      modifies this
      ensures Contents() == Submitted(old(Contents()), id)
    {
      futures := futures[id := Waiting];
      if fatalError || closed {
        Complete(id, Stopped);
      } else {
        queue := queue + [Call(id)];
      }
    }

    method Close()
      modifies this
      ensures Contents() == Closed(old(Contents()))
    {
      if closed {
        return;
      }
      closed := true;
      if !fatalError {
        queue := queue + [Sentinel];
      }
    }

    /** The locked half of `_fail`: it empties the queue. */
    method FailLocked(active: Option<nat>)
      requires at == Ending(true, active)
      modifies this
      ensures Contents() == Next(old(Contents()), Step.FailLocked)
    {
      fatalError := true;
      ghost var all := queue;
      var pending: seq<nat> := [];
      if active.Some? && active.value in futures && !futures[active.value].Done? {
        pending := [active.value];
      }
      ghost var first := pending;
      ghost var n := 0;
      while queue != []
        invariant n <= |all| && queue == all[n..]
        invariant futures == old(futures) && pending == first + Undone(all[..n], futures)
        invariant fatalError && closed == old(closed) && at == old(at) && settled == old(settled)
        decreases |queue|
      {
        var item := queue[0];
        queue := queue[1..];
        assert all[..n + 1][..n] == all[..n] && all[n] == item;
        if item.Call? && item.id in futures && !futures[item.id].Done? {
          pending := pending + [item.id];
        }
        n := n + 1;
      }
      assert all[..n] == all;
      at := Failing(pending);
    }

    method CancelAll(ids: seq<nat>)
      modifies this`futures, this`settled
      ensures Progresses(old(Contents()), Contents())
    {
      for i := 0 to |ids|
        invariant Progresses(old(Contents()), Contents())
      {
        if ids[i] in futures && futures[ids[i]] == Waiting {
          ProgressOne(old(Contents()), Contents(), ids[i], Cancelled);
          Complete(ids[i], Cancelled);
        }
      }
    }

    /** The other half. Before it comes to the n-th future on its list, callers may have cancelled
        those in `cancels[n]`. In the end every future on the list is done, none twice, and none
        that was done before has changed. */
    method FailRest(cancels: seq<seq<nat>>)
      requires at.Failing? && forall id :: id in at.left ==> id in futures
      modifies this
      ensures at == Ended && forall id :: id in old(at.left) ==> IsDone(Contents(), id)
      ensures Progresses(old(Contents()).(at := Ended), Contents())
    {
      hide Progresses;
      var pending := at.left;
      ProgressNone(Contents());
      for i := 0 to |pending|
        invariant at == old(at) && Progresses(old(Contents()), Contents())
        invariant forall k :: 0 <= k < i ==> IsDone(Contents(), pending[k])
      {
        if i < |cancels| {
          ghost var before := Contents();
          CancelAll(cancels[i]);
          ProgressKeepsDone(before, Contents());
          ProgressOn(old(Contents()), before, Contents());
        }
        ghost var before := Contents();
        ProgressOne(old(Contents()), before, pending[i], Stopped);
        ProgressHas(old(Contents()), before, pending[i]);
        Complete(pending[i], Stopped);
      }
      ghost var last := Contents();
      at := Ended;
      ProgressMoves(old(Contents()), last, Ended);
    }
  }

  /** Futures of `w` are only completed, each once, on the way to `v`. */
  ghost predicate Progresses(w: Worker, v: Worker) {
    && v == w.(futures := v.futures, settled := v.settled) && v.futures.Keys == w.futures.Keys
    && (forall id :: IsDone(w, id) ==> v.futures[id] == w.futures[id])
    && (SettledOnce(w) ==> SettledOnce(v))
  }

  lemma ProgressNone(w: Worker)
    ensures Progresses(w, w)
  {
  }

  lemma ProgressOne(w: Worker, v: Worker, id: nat, how: How)
    requires Progresses(w, v)
    ensures Progresses(w, Settle(v, id, how)) && forall o :: IsDone(v, o) ==> IsDone(Settle(v, id, how), o)
  {
    hide SettledOnce;
    if SettledOnce(v) {
      SettleKeepsSettledOnce(v, id, how);
    }
  }

  lemma ProgressOn(w: Worker, v: Worker, u: Worker)
    requires Progresses(w, v) && Progresses(v, u)
    ensures Progresses(w, u)
  {
    hide SettledOnce;
  }

  lemma ProgressKeepsDone(w: Worker, v: Worker)
    requires Progresses(w, v)
    ensures v.at == w.at && forall id :: IsDone(w, id) ==> IsDone(v, id)
  {
    hide SettledOnce;
  }

  lemma ProgressHas(w: Worker, v: Worker, id: nat)
    requires Progresses(w, v) && id in w.futures
    ensures id in v.futures
  {
  }

  lemma ProgressMoves(w: Worker, v: Worker, at: Place)
    requires Progresses(w, v)
    ensures Progresses(w.(at := at), v.(at := at))
  {
  }
}
