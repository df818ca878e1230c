/** When the client may generate network traffic (mdm-client/.../ConnectionScheduler.kt), together
    with the looper that carries its actions out (WebSocketManager.kt, `dispatch`). Messages of
    cancelled sockets are dropped there, so each attempt has at most one outcome here. */
module ConnectionWindow {

  datatype Phase = Idle | WindowOpen | Connected | Silent

  datatype Config = Config(window: nat, retry: nat)

  datatype Action =
    | WindowOpened | StartAttempt | ScheduleRetry(delay: nat) | ScheduleWindowExpiry(delay: nat)
    | CancelTimers | CancelAttempt | EnterSilence

  datatype Scheduler = Scheduler(phase: Phase, deadline: int, retry: nat)

  datatype Decision = Decision(scheduler: Scheduler, actions: seq<Action>)

  // ---- The scheduler ----

  function OpenWindow(now: int, config: Config, cancel: bool): Decision {
    Decision(Scheduler(WindowOpen, now + config.window, config.retry),
             [CancelTimers] + (if cancel then [CancelAttempt] else [])
             + [ScheduleWindowExpiry(config.window), WindowOpened, StartAttempt])
  }

  function GoSilent(s: Scheduler): Decision {
    Decision(s.(phase := Silent), [CancelTimers, CancelAttempt, EnterSilence])
  }

  function OnNetworkAvailable(s: Scheduler, now: int, config: Config): Decision {
    match s.phase
    case WindowOpen => OpenWindow(now, config, true)
    case Connected => Decision(s, [])
    case _ => OpenWindow(now, config, false)
  }

  function OnNetworkLost(s: Scheduler): Decision {
    if s.phase == Idle then Decision(s, []) else Decision(s.(phase := Idle), [CancelTimers, CancelAttempt])
  }

  function OnConnected(s: Scheduler): Decision {
    Decision(s.(phase := Connected), [CancelTimers])
  }

  function OnSocketDisconnected(s: Scheduler, now: int, config: Config): Decision {
    match s.phase
    case Connected => OpenWindow(now, config, false)
    case WindowOpen => if now >= s.deadline then GoSilent(s) else Decision(s, [ScheduleRetry(s.retry)])
    case _ => Decision(s, [])
  }

  function OnRetryElapsed(s: Scheduler): Decision {
    Decision(s, if s.phase == WindowOpen then [StartAttempt] else [])
  }

  function OnWindowExpired(s: Scheduler): Decision {
    if s.phase == WindowOpen then GoSilent(s) else Decision(s, [])
  }

  class ConnectionScheduler {
    var state: Phase
    var windowDeadline: int
    var retryIntervalMs: nat

    function Contents(): Scheduler
      reads this
    {
      Scheduler(state, windowDeadline, retryIntervalMs)
    }

    constructor (defaultRetry: nat)
      ensures Contents() == Scheduler(Idle, 0, defaultRetry)
    {
      state, windowDeadline, retryIntervalMs := Idle, 0, defaultRetry;
    }

    method Open(now: int, config: Config, cancel: bool) returns (actions: seq<Action>)
      modifies this
      ensures Decision(Contents(), actions) == OpenWindow(now, config, cancel)
    {
      state := WindowOpen;
      windowDeadline := now + config.window;
      retryIntervalMs := config.retry;
      actions := [CancelTimers];
      if cancel {
        actions := actions + [CancelAttempt];
      }
      actions := actions + [ScheduleWindowExpiry(config.window)] + [WindowOpened] + [StartAttempt];
    }

    method Quieten() returns (actions: seq<Action>)
      modifies this
      ensures Decision(Contents(), actions) == GoSilent(old(Contents()))
    {
      state := Silent;
      actions := [CancelTimers, CancelAttempt, EnterSilence];
    }

    method NetworkAvailable(now: int, config: Config) returns (actions: seq<Action>)
      modifies this
      ensures Decision(Contents(), actions) == OnNetworkAvailable(old(Contents()), now, config)
    {
      if state == Connected {
        return [];
      }
      actions := Open(now, config, state == WindowOpen);
    }

    method NetworkLost() returns (actions: seq<Action>)
      modifies this
      ensures Decision(Contents(), actions) == OnNetworkLost(old(Contents()))
    {
      if state == Idle {
        return [];
      }
      state := Idle;
      actions := [CancelTimers, CancelAttempt];
    }

    method SocketOpened() returns (actions: seq<Action>)
      modifies this
      ensures Decision(Contents(), actions) == OnConnected(old(Contents()))
    {
      state := Connected;
      actions := [CancelTimers];
    }

    method SocketDisconnected(now: int, config: Config) returns (actions: seq<Action>)
      modifies this
      ensures Decision(Contents(), actions) == OnSocketDisconnected(old(Contents()), now, config)
    {
      match state {
        case Connected => actions := Open(now, config, false);
        case WindowOpen =>
          if now >= windowDeadline {
            actions := Quieten();
          } else {
            actions := [ScheduleRetry(retryIntervalMs)];
          }
        case _ => actions := [];
      }
    }

    method RetryElapsed() returns (actions: seq<Action>)
      ensures Decision(Contents(), actions) == OnRetryElapsed(Contents())
    {
      actions := if state == WindowOpen then [StartAttempt] else [];
    }

    method WindowExpired() returns (actions: seq<Action>)
      modifies this
      ensures Decision(Contents(), actions) == OnWindowExpired(old(Contents()))
    {
      if state == WindowOpen {
        actions := Quieten();
      } else {
        actions := [];
      }
    }
  }

  // ---- The looper ----

  datatype Kind = Retry | Expiry

  datatype Timer = Timer(due: int, kind: Kind)

  datatype Socket = NoSocket | Trying | Up

  /** A window that was opened and the times its attempts were due. */
  datatype Window = Window(start: int, config: Config, attempts: seq<int>)

  /** Timers are in the order they were posted. `windows` is the history. */
  datatype Device = Device(scheduler: Scheduler, timers: seq<Timer>, socket: Socket, clock: int, windows: seq<Window>)

  datatype Event =
    | Available(config: Config) | Lost | Opened | Gone(config: Config)
    | Fire(index: nat)

  datatype Step = Step(event: Event, now: int)

  /** The message that caused a dispatch: when it was due, and the configuration it read. */
  datatype Cause = Cause(due: int, now: int, config: Config)

  function Begun(windows: seq<Window>, due: int): seq<Window> {
    if windows == [] then [] else
      var last := windows[|windows| - 1];
      windows[..|windows| - 1] + [last.(attempts := last.attempts + [due])]
  }

  function Act(d: Device, action: Action, cause: Cause): Device {
    match action
    case WindowOpened => d.(windows := d.windows + [Window(cause.now, cause.config, [])])
    case StartAttempt => d.(socket := Trying, windows := Begun(d.windows, cause.due))
    case ScheduleRetry(delay) => d.(timers := d.timers + [Timer(cause.now + delay, Retry)])
    case ScheduleWindowExpiry(delay) => d.(timers := d.timers + [Timer(cause.now + delay, Expiry)])
    case CancelTimers => d.(timers := [])
    case CancelAttempt => d.(socket := NoSocket)
    case EnterSilence => d
  }

  function Dispatch(d: Device, actions: seq<Action>, cause: Cause): Device
    decreases |actions|
  {
    if actions == [] then d else Dispatch(Act(d, actions[0], cause), actions[1..], cause)
  }

  /** The looper takes the message that is due first, and of several the one posted first. */
  predicate FirstDue(timers: seq<Timer>, i: nat) {
    && i < |timers|
    && (forall j :: 0 <= j < |timers| ==> timers[i].due <= timers[j].due)
    && (forall j :: 0 <= j < i ==> timers[i].due < timers[j].due)
  }

  predicate Allowed(d: Device, step: Step) {
    && d.clock <= step.now
    && match step.event
       case Opened => d.socket == Trying
       case Gone(_) => d.socket != NoSocket
       case Fire(i) => FirstDue(d.timers, i) && d.timers[i].due <= step.now
       case _ => true
  }

  function Without(timers: seq<Timer>, i: nat): seq<Timer>
    requires i < |timers|
  {
    timers[..i] + timers[i + 1..]
  }

  const ANY := Config(0, 0)

  function Next(d: Device, step: Step): Device
    requires Allowed(d, step)
  {
    var d := d.(clock := step.now);
    match step.event
    case Available(config) => Done(d, OnNetworkAvailable(d.scheduler, step.now, config),
                                   Cause(step.now, step.now, config))
    case Lost => Done(d, OnNetworkLost(d.scheduler), Cause(step.now, step.now, ANY))
    case Opened => Done(d.(socket := Up), OnConnected(d.scheduler), Cause(step.now, step.now, ANY))
    case Gone(config) =>
      Done(d.(socket := NoSocket), OnSocketDisconnected(d.scheduler, step.now, config),
           Cause(step.now, step.now, config))
    case Fire(i) =>
      var timer := d.timers[i];
      var e := d.(timers := Without(d.timers, i));
      Done(e, if timer.kind == Retry then OnRetryElapsed(d.scheduler) else OnWindowExpired(d.scheduler),
           Cause(timer.due, step.now, ANY))
  }

  function Done(d: Device, decision: Decision, cause: Cause): Device {
    Dispatch(d.(scheduler := decision.scheduler), decision.actions, cause)
  }

  function Started(retry: nat): Device {
    Device(Scheduler(Idle, 0, retry), [], NoSocket, 0, [])
  }

  ghost predicate Run(ds: seq<Device>, steps: seq<Step>) {
    && |ds| == |steps| + 1 && ds[0] == Started(ds[0].scheduler.retry)
    && forall i :: 0 <= i < |steps| ==> Allowed(ds[i], steps[i]) && ds[i + 1] == Next(ds[i], steps[i])
  }

  // ---- Invariant ----

  /** The attempts of a window start with it, are a retry interval apart, and all but the first
      are due before its deadline. */
  ghost predicate Spaced(w: Window) {
    && w.attempts != [] && w.attempts[0] == w.start
    && (forall k :: 0 <= k < |w.attempts| - 1 ==> w.attempts[k] + w.config.retry <= w.attempts[k + 1])
    && (forall k :: 0 < k < |w.attempts| ==> w.attempts[k] < w.start + w.config.window)
  }

  /** The open window is the last one; an attempt is under way, or its retry is due later. */
  ghost predicate Open(d: Device) {
    && d.windows != []
    && var w := d.windows[|d.windows| - 1];
    && w.attempts != [] && d.scheduler.deadline == w.start + w.config.window && d.scheduler.retry == w.config.retry
    && w.attempts[|w.attempts| - 1] <= d.clock
    && (|| (d.socket == Trying && d.timers == [Timer(d.scheduler.deadline, Expiry)])
        || (d.socket == NoSocket && |d.timers| == 2
            && d.timers[0] == Timer(d.scheduler.deadline, Expiry) && d.timers[1].kind == Retry
            && w.attempts[|w.attempts| - 1] + w.config.retry <= d.timers[1].due))
  }

  ghost predicate AllSpaced(windows: seq<Window>) {
    forall k :: 0 <= k < |windows| ==> Spaced(windows[k])
  }

  ghost predicate Inv(d: Device) {
    && AllSpaced(d.windows)
    && match d.scheduler.phase
       case WindowOpen => Open(d)
       case Connected => d.timers == [] && d.socket == Up
       case _ => d.timers == [] && d.socket == NoSocket
  }

  lemma OpeningDispatches(d: Device, cancel: bool, cause: Cause)
    requires cause.due == cause.now
    ensures Done(d, OpenWindow(cause.now, cause.config, cancel), cause)
      == d.(scheduler := Scheduler(WindowOpen, cause.now + cause.config.window, cause.config.retry),
            timers := [Timer(cause.now + cause.config.window, Expiry)], socket := Trying,
            windows := d.windows + [Window(cause.now, cause.config, [cause.now])])
  {
    hide Dispatch;
    var o := OpenWindow(cause.now, cause.config, cancel);
    var e := d.(scheduler := o.scheduler);
    var tail := [ScheduleWindowExpiry(cause.config.window), WindowOpened, StartAttempt];
    var middle := (if cancel then [CancelAttempt] else []) + tail;
    assert o.actions == [CancelTimers] + middle;
    DispatchOne(e, CancelTimers, middle, cause);
    e := Act(e, CancelTimers, cause);
    if cancel {
      DispatchOne(e, CancelAttempt, tail, cause);
      e := Act(e, CancelAttempt, cause);
    } else {
      assert middle == tail;
    }
    assert tail == [ScheduleWindowExpiry(cause.config.window)] + [WindowOpened, StartAttempt];
    DispatchOne(e, ScheduleWindowExpiry(cause.config.window), [WindowOpened, StartAttempt], cause);
    e := Act(e, ScheduleWindowExpiry(cause.config.window), cause);
    assert [WindowOpened, StartAttempt] == [WindowOpened] + [StartAttempt];
    DispatchOne(e, WindowOpened, [StartAttempt], cause);
    e := Act(e, WindowOpened, cause);
    OneActionDispatches(e, StartAttempt, cause);
    assert e.windows[..|e.windows| - 1] == d.windows;
    var last := e.windows[|e.windows| - 1];
    assert last.attempts + [cause.due] == [cause.now];
    assert Begun(e.windows, cause.due) == d.windows + [Window(cause.now, cause.config, [cause.now])];
    assert e.timers == [Timer(cause.now + cause.config.window, Expiry)];
  }

  lemma DispatchOne(d: Device, action: Action, rest: seq<Action>, cause: Cause)
    ensures Dispatch(d, [action] + rest, cause) == Dispatch(Act(d, action, cause), rest, cause)
  {
    assert ([action] + rest)[1..] == rest;
  }

  lemma OpeningKeepsInv(d: Device, cancel: bool, cause: Cause)
    requires AllSpaced(d.windows) && cause.due == cause.now == d.clock
    ensures Inv(Done(d, OpenWindow(cause.now, cause.config, cancel), cause))
  {
    hide Dispatch;
    OpeningDispatches(d, cancel, cause);
  }

  lemma SilenceDispatches(d: Device, cause: Cause)
    ensures Done(d, GoSilent(d.scheduler), cause)
      == d.(scheduler := d.scheduler.(phase := Silent), timers := [], socket := NoSocket)
  {
    var actions := GoSilent(d.scheduler).actions;
    assert actions[1..] == [CancelAttempt, EnterSilence];
    assert actions[1..][1..] == [EnterSilence] && actions[1..][1..][1..] == [];
  }

  lemma OneActionDispatches(d: Device, action: Action, cause: Cause)
    ensures Dispatch(d, [action], cause) == Act(d, action, cause)
  {
    assert [action][1..] == [];
  }

  lemma LostKeepsInv(d: Device, step: Step)
    requires Inv(d) && Allowed(d, step) && step.event == Lost
    ensures Inv(Next(d, step))
  {
    if d.scheduler.phase != Idle {
      var actions := [CancelTimers, CancelAttempt];
      assert actions[1..] == [CancelAttempt] && actions[1..][1..] == [];
    }
  }

  lemma OpenedKeepsInv(d: Device, step: Step)
    requires Inv(d) && Allowed(d, step) && step.event == Opened
    ensures Inv(Next(d, step))
  {
    OneActionDispatches(d.(clock := step.now, socket := Up, scheduler := OnConnected(d.scheduler).scheduler),
                        CancelTimers,
                        Cause(step.now, step.now, ANY));
  }

  lemma GoneKeepsInv(d: Device, step: Step)
    requires Inv(d) && Allowed(d, step) && step.event.Gone?
    ensures Inv(Next(d, step))
  {
    hide Dispatch, Spaced;
    var e := d.(clock := step.now, socket := NoSocket);
    var cause := Cause(step.now, step.now, step.event.config);
    if d.scheduler.phase == Connected {
      OpeningKeepsInv(e, false, cause);
    } else if step.now >= d.scheduler.deadline {
      SilenceDispatches(e, cause);
    } else {
      OneActionDispatches(e, ScheduleRetry(d.scheduler.retry), cause);
    }
  }

  /** The retry fires only while the deadline, posted earlier, is due later. */
  lemma FireKeepsInv(d: Device, step: Step)
    requires Inv(d) && Allowed(d, step) && step.event.Fire?
    ensures Inv(Next(d, step))
  {
    hide Dispatch;
    var i := step.event.index;
    var timer := d.timers[i];
    var e := d.(clock := step.now, timers := Without(d.timers, i));
    var cause := Cause(timer.due, step.now, ANY);
    assert Open(d);
    if timer.kind == Expiry {
      SilenceDispatches(e, cause);
    } else {
      assert i == 1 && timer.due < d.scheduler.deadline;
      OneActionDispatches(e, StartAttempt, cause);
      assert e.timers == [d.timers[0]];
      var w := d.windows[|d.windows| - 1];
      RetrySpaced(w, timer.due);
    }
  }

  lemma RetrySpaced(w: Window, due: int)
    requires Spaced(w) && w.attempts[|w.attempts| - 1] + w.config.retry <= due < w.start + w.config.window
    ensures Spaced(w.(attempts := w.attempts + [due]))
  {
  }

  lemma NextKeepsInv(d: Device, step: Step)
    requires Inv(d) && Allowed(d, step)
    ensures Inv(Next(d, step))
  {
    hide Dispatch, Spaced, Open;
    match step.event {
      case Available(config) =>
        if d.scheduler.phase != Connected {
          OpeningKeepsInv(d.(clock := step.now), d.scheduler.phase == WindowOpen, Cause(step.now, step.now, config));
        } else {
          NoActionDispatches(d.(clock := step.now), Cause(step.now, step.now, config));
        }
      case Lost => LostKeepsInv(d, step);
      case Opened => OpenedKeepsInv(d, step);
      case Gone(_) => GoneKeepsInv(d, step);
      case Fire(_) => FireKeepsInv(d, step);
    }
  }

  lemma NoActionDispatches(d: Device, cause: Cause)
    ensures Dispatch(d, [], cause) == d
  {
  }

  lemma {:induction false} RunsKeepInv(ds: seq<Device>, steps: seq<Step>, i: nat)
    requires Run(ds, steps) && i < |ds|
    ensures Inv(ds[i])
  {
    hide Next, Allowed;
    if i > 0 {
      RunsKeepInv(ds, steps, i - 1);
      NextKeepsInv(ds[i - 1], steps[i - 1]);
    }
  }

  // ---- Theorems ----

  lemma {:induction false} SpacedGrows(w: Window, k: nat)
    requires Spaced(w) && k < |w.attempts|
    ensures w.start + k * w.config.retry <= w.attempts[k]
  {
    if k > 0 {
      SpacedGrows(w, k - 1);
      assert k * w.config.retry == (k - 1) * w.config.retry + w.config.retry;
    }
  }

  lemma AtMost(k: nat, window: nat, retry: nat)
    requires retry >= 1 && k * retry < window
    ensures k <= (window - 1) / retry
  {
    var q := (window - 1) / retry;
    assert k <= q || k * retry >= (q + 1) * retry;
  }

  /** However late the looper runs, whatever the network does and whatever the other windows were
      configured to: a window with a retry interval makes at most 1 + (window - 1) / retry
      attempts, one without any length makes one, and each after the first is due before its
      deadline. Only a window of some length with no retry interval is left without a bound. */
  lemma TrafficIsBounded(ds: seq<Device>, steps: seq<Step>, i: nat, w: Window)
    requires Run(ds, steps) && i < |ds| && w in ds[i].windows
    ensures w.config.retry >= 1 ==>
      |w.attempts| <= 1 + if w.config.window == 0 then 0 else (w.config.window - 1) / w.config.retry
    ensures w.config.window == 0 ==> |w.attempts| == 1
    ensures w.attempts != [] && w.attempts[0] == w.start
    ensures forall k :: 0 < k < |w.attempts| ==> w.start <= w.attempts[k] < w.start + w.config.window
  {
    RunsKeepInv(ds, steps, i);
    var n := |w.attempts| - 1;
    SpacedGrows(w, n);
    if w.config.retry >= 1 && w.config.window >= 1 && n > 0 {
      AtMost(n, w.config.window, w.config.retry);
    }
    forall k | 0 <= k < |w.attempts| ensures w.start <= w.attempts[k] {
      SpacedGrows(w, k);
    }
  }

  /** What each event does, at every moment of every run. A window opens exactly when the network
      comes and there is no connection, or a connection is lost; a failed attempt is repeated after
      the retry interval exactly before the deadline and silences the client from then on; and a
      healthy connection is left alone. */
  lemma EventsDecide(ds: seq<Device>, steps: seq<Step>, i: nat)
    requires Run(ds, steps) && i < |steps|
    ensures var d, e, phase := ds[i], ds[i + 1], ds[i].scheduler.phase;
      match steps[i].event
      case Available(c) => if phase == Connected then e == d.(clock := steps[i].now) else Fresh(d, e, c, steps[i].now)
      case Lost => e.scheduler.phase == Idle && e.timers == [] && e.socket == NoSocket && e.windows == d.windows
      case Opened => e.scheduler.phase == Connected && e.timers == [] && e.socket == Up && e.windows == d.windows
      case Gone(c) =>
        if phase == Connected then Fresh(d, e, c, steps[i].now)
        else if steps[i].now < d.scheduler.deadline then
          && e.scheduler == d.scheduler && e.socket == NoSocket && e.windows == d.windows
          && e.timers == d.timers + [Timer(steps[i].now + d.scheduler.retry, Retry)]
        else Quiet(d, e)
      case Fire(n) =>
        if d.timers[n].kind == Expiry then Quiet(d, e)
        else
          && e.scheduler == d.scheduler && e.socket == Trying && |e.windows| == |d.windows| && d.windows != []
          && e.windows[|d.windows| - 1].attempts == d.windows[|d.windows| - 1].attempts + [d.timers[n].due]
  {
    RunsKeepInv(ds, steps, i);
    hide AllSpaced, Dispatch;
    EventDecides(ds[i], steps[i]);
  }

  /** A new window, opened now with this configuration, its expiry armed and its first attempt made. */
  ghost predicate Fresh(d: Device, e: Device, c: Config, now: int) {
    && e.windows == d.windows + [Window(now, c, [now])] && e.socket == Trying
    && e.scheduler == Scheduler(WindowOpen, now + c.window, c.retry) && e.timers == [Timer(now + c.window, Expiry)]
  }

  ghost predicate Quiet(d: Device, e: Device) {
    e.scheduler.phase == Silent && e.timers == [] && e.socket == NoSocket && e.windows == d.windows
  }

  lemma EventDecides(d: Device, step: Step)
    requires Inv(d) && Allowed(d, step)
    ensures var e, phase := Next(d, step), d.scheduler.phase;
      match step.event
      case Available(c) => if phase == Connected then e == d.(clock := step.now) else Fresh(d, e, c, step.now)
      case Lost => e.scheduler.phase == Idle && e.timers == [] && e.socket == NoSocket && e.windows == d.windows
      case Opened => e.scheduler.phase == Connected && e.timers == [] && e.socket == Up && e.windows == d.windows
      case Gone(c) =>
        if phase == Connected then Fresh(d, e, c, step.now)
        else if step.now < d.scheduler.deadline then
          && e.scheduler == d.scheduler && e.socket == NoSocket && e.windows == d.windows
          && e.timers == d.timers + [Timer(step.now + d.scheduler.retry, Retry)]
        else Quiet(d, e)
      case Fire(n) =>
        if d.timers[n].kind == Expiry then Quiet(d, e)
        else
          && e.scheduler == d.scheduler && e.socket == Trying && |e.windows| == |d.windows| && d.windows != []
          && e.windows[|d.windows| - 1].attempts == d.windows[|d.windows| - 1].attempts + [d.timers[n].due]
  {
    hide Dispatch, AllSpaced;
    var c := d.(clock := step.now);
    match step.event {
      case Available(config) =>
        NoActionDispatches(c, Cause(step.now, step.now, config));
        OpeningDispatches(c, d.scheduler.phase == WindowOpen, Cause(step.now, step.now, config));
      case Lost =>
        NoActionDispatches(c, Cause(step.now, step.now, ANY));
        if d.scheduler.phase != Idle {
          LosingDispatches(c, Cause(step.now, step.now, ANY));
        }
      case Opened =>
        OneActionDispatches(c.(socket := Up, scheduler := OnConnected(d.scheduler).scheduler), CancelTimers,
                            Cause(step.now, step.now, ANY));
      case Gone(config) =>
        var e, cause := c.(socket := NoSocket), Cause(step.now, step.now, config);
        OpeningDispatches(e, false, cause);
        SilenceDispatches(e, cause);
        OneActionDispatches(e, ScheduleRetry(d.scheduler.retry), cause);
      case Fire(n) =>
        var e, cause := c.(timers := Without(d.timers, n)), Cause(d.timers[n].due, step.now, ANY);
        SilenceDispatches(e, cause);
        OneActionDispatches(e, StartAttempt, cause);
    }
  }

  lemma LosingDispatches(d: Device, cause: Cause)
    requires d.scheduler.phase != Idle
    ensures Done(d, OnNetworkLost(d.scheduler), cause)
      == d.(scheduler := d.scheduler.(phase := Idle), timers := [], socket := NoSocket)
  {
    var actions := [CancelTimers, CancelAttempt];
    assert actions[1..] == [CancelAttempt] && actions[1..][1..] == [];
  }

  /** At every moment the device does what the scheduler's state says: an attempt or a timer only
      in an open window, a connection exactly when connected. */
  lemma TrafficMatchesPhase(ds: seq<Device>, steps: seq<Step>, i: nat)
    requires Run(ds, steps) && i < |ds|
    ensures ds[i].socket == Trying || ds[i].timers != [] ==> ds[i].scheduler.phase == WindowOpen
    ensures ds[i].socket == Up <==> ds[i].scheduler.phase == Connected
  {
    RunsKeepInv(ds, steps, i);
  }

  /** An open window always has its expiry pending, and when that fires the client is silent. */
  lemma WindowsExpire(ds: seq<Device>, steps: seq<Step>, i: nat, now: int)
    requires Run(ds, steps) && i < |ds|
    requires ds[i].scheduler.phase == WindowOpen
    requires Allowed(ds[i], Step(Fire(0), now))
    ensures ds[i].timers[0] == Timer(ds[i].scheduler.deadline, Expiry)
    ensures var d := Next(ds[i], Step(Fire(0), now));
      d.scheduler.phase == Silent && d.timers == [] && d.socket == NoSocket
  {
    hide Dispatch;
    RunsKeepInv(ds, steps, i);
    SilenceDispatches(ds[i].(clock := now, timers := Without(ds[i].timers, 0)), Cause(ds[i].timers[0].due, now, ANY));
  }

  /** Silence lasts: until the network becomes available again no attempt starts, no timer is
      pending and no socket is open. */
  lemma {:induction false} SilenceLasts(ds: seq<Device>, steps: seq<Step>, i: nat, k: nat)
    requires Run(ds, steps) && i <= k < |ds|
    requires ds[i].scheduler.phase == Silent || ds[i].scheduler.phase == Idle
    requires forall n :: i <= n < k ==> !steps[n].event.Available?
    ensures ds[k].scheduler.phase == Silent || ds[k].scheduler.phase == Idle
    ensures ds[k].timers == [] && ds[k].socket == NoSocket && ds[k].windows == ds[i].windows
    decreases k
  {
    RunsKeepInv(ds, steps, k);
    if i < k {
      SilenceLasts(ds, steps, i, k - 1);
      assert steps[k - 1].event == Lost;
      var actions := [CancelTimers, CancelAttempt];
      assert actions[1..] == [CancelAttempt] && actions[1..][1..] == [];
    }
  }

  // ---- Without a retry interval ----

  function Hammering(config: Config, n: nat): Device {
    Device(Scheduler(WindowOpen, config.window, 0), [Timer(config.window, Expiry)], Trying, 0,
           [Window(0, config, seq(n, _ => 0))])
  }

  lemma HammerFirst(config: Config)
    requires config.window >= 1 && config.retry == 0
    ensures var d, step := Started(0), Step(Available(config), 0);
      Allowed(d, step) && Next(d, step) == Hammering(config, 1)
  {
    hide Dispatch;
    OpeningDispatches(Started(0), false, Cause(0, 0, config));
    assert seq(1, _ => 0) == [0];
  }

  lemma HammerOnce(config: Config, n: nat)
    requires config.window >= 1 && config.retry == 0 && n >= 1
    ensures var d, gone, fire := Hammering(config, n), Step(Gone(config), 0), Step(Fire(1), 0);
      && Allowed(d, gone) && Allowed(Next(d, gone), fire) && Next(Next(d, gone), fire) == Hammering(config, n + 1)
  {
    var d := Hammering(config, n);
    var cause := Cause(0, 0, config);
    OneActionDispatches(d.(socket := NoSocket), ScheduleRetry(0), cause);
    var e := d.(socket := NoSocket, timers := d.timers + [Timer(0, Retry)]);
    assert Next(d, Step(Gone(config), 0)) == e;
    assert FirstDue(e.timers, 1);
    assert Without(e.timers, 1) == d.timers;
    OneActionDispatches(e.(timers := d.timers), StartAttempt, Cause(0, 0, ANY));
    assert seq(n, _ => 0) + [0] == seq(n + 1, _ => 0);
    assert d.windows[..0] == [];
  }

  /** A configured interval under one millisecond reads as zero, and then the bound is lost: a
      window of any length makes as many attempts as you like before its deadline. */
  lemma {:induction false} ZeroRetryIsUnbounded(config: Config, n: nat) returns (ds: seq<Device>, steps: seq<Step>)
    requires config.window >= 1 && config.retry == 0 && n >= 1
    ensures Run(ds, steps) && ds[|ds| - 1] == Hammering(config, n)
    ensures forall k :: 0 <= k < |steps| ==> steps[k].now == 0
    decreases n
  {
    hide Next, Allowed, Hammering;
    if n == 1 {
      HammerFirst(config);
      ds, steps := [Started(0), Hammering(config, 1)], [Step(Available(config), 0)];
    } else {
      ds, steps := ZeroRetryIsUnbounded(config, n - 1);
      HammerOnce(config, n - 1);
      var d, gone, fire := Hammering(config, n - 1), Step(Gone(config), 0), Step(Fire(1), 0);
      ds, steps := ds + [Next(d, gone), Hammering(config, n)], steps + [gone, fire];
    }
  }
}
