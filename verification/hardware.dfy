/** The Idle / Running / Waiting sprinkler controller.

    Each trigger (a `start` or `stop` call, the run timer firing, an edge on
    the float-switch pin) is one `Event` delivered at an integer clock value
    `now`. A transition returns the next machine and the hardware effects it
    performed, in order. The devices themselves (pump relay, warn light, the
    GPIO edge watch and the pending run timer) are never written directly by a
    transition: they are obtained by applying the effects to the devices as
    they were, so every contract about the devices is a statement about what
    the emitted effects do. The `water.py` pump is modelled the same way, with
    its own fold over its own effects. */
module Hardware {
  import opened Options
  import opened Sensor

  /** The controller state. `Running` remembers the duration it was entered
      with and the clock value at entry; `Waiting` remembers the run time still
      owed, which may be zero or negative. */
  datatype State =
    | Idle
    | Running(seconds: int, startTime: int)
    | Waiting(remaining: int)

  /** One hardware call made by a transition. `PumpOn`/`PumpOff` switch the
      relay together with the power light. */
  datatype Effect =
    | PumpOn
    | PumpOff
    | WarnOn
    | WarnOff
    | ArmTimer(deadline: int)
    | CancelTimer
    | TimerFired        // the pending run timer's callback starts; the timer is used up
    | AddWatch(edge: Edge)
    | RemoveWatch

  /** The devices the controller drives. */
  datatype Devices = Devices(pump: bool, warn: bool, watch: Option<Edge>, timer: Option<int>)

  /** The whole controller: its state, the raw float-switch pin, the devices. */
  datatype Machine = Machine(state: State, pin: bool, dev: Devices)

  datatype Event =
    | Start(seconds: int)
    | Stop
    | Expire          // the run timer's callback
    | Pin(level: bool) // the raw float-switch pin now reads `level`

  datatype Outcome = Outcome(next: Machine, effects: seq<Effect>)

  // ---------------------------------------------------------------------
  // Devices as a fold over effects
  // ---------------------------------------------------------------------

  function ApplyOne(d: Devices, e: Effect): Devices
  {
    match e
    case PumpOn => d.(pump := true)
    case PumpOff => d.(pump := false)
    case WarnOn => d.(warn := true)
    case WarnOff => d.(warn := false)
    case ArmTimer(t) => d.(timer := Some(t))
    case CancelTimer => d.(timer := None)
    case TimerFired => d.(timer := None)
    case AddWatch(edge) => d.(watch := Some(edge))
    case RemoveWatch => d.(watch := None)
  }

  function Apply(d: Devices, es: seq<Effect>): Devices
    decreases |es|
  {
    if |es| == 0 then d else Apply(ApplyOne(d, es[0]), es[1..])
  }

  /** Effect `e` does not arm a timer while one is pending, nor add an edge
      watch while one is armed (GPIO refuses a second detection on a pin),
      and only a pending timer fires. */
  predicate Fits(d: Devices, e: Effect)
  {
    && (e.ArmTimer? ==> d.timer.None?)
    && (e.AddWatch? ==> d.watch.None?)
    && (e.TimerFired? ==> d.timer.Some?)
  }

  /** Every effect of `es` fits the devices as the effects before it left them. */
  predicate NoOverlap(d: Devices, es: seq<Effect>)
    decreases |es|
  {
    |es| == 0 || (Fits(d, es[0]) && NoOverlap(ApplyOne(d, es[0]), es[1..]))
  }

  lemma Unroll(d: Devices, es: seq<Effect>)
    requires |es| > 0
    ensures Apply(d, es) == Apply(ApplyOne(d, es[0]), es[1..])
    ensures NoOverlap(d, es) <==> Fits(d, es[0]) && NoOverlap(ApplyOne(d, es[0]), es[1..])
  {
  }

  /** Replaying two, three or five effects one by one. */
  lemma Unroll2(d: Devices, es: seq<Effect>)
    requires |es| == 2
    ensures var d1 := ApplyOne(d, es[0]); var d2 := ApplyOne(d1, es[1]);
      && Apply(d, es) == d2
      && (NoOverlap(d, es) <==> Fits(d, es[0]) && Fits(d1, es[1]))
  {
    Unroll(d, es);
    Unroll(ApplyOne(d, es[0]), es[1..]);
  }

  lemma Unroll3(d: Devices, es: seq<Effect>)
    requires |es| == 3
    ensures var d1 := ApplyOne(d, es[0]); var d2 := ApplyOne(d1, es[1]); var d3 := ApplyOne(d2, es[2]);
      && Apply(d, es) == d3
      && (NoOverlap(d, es) <==> Fits(d, es[0]) && Fits(d1, es[1]) && Fits(d2, es[2]))
  {
    Unroll(d, es);
    Unroll2(ApplyOne(d, es[0]), es[1..]);
  }

  lemma Unroll5(d: Devices, es: seq<Effect>)
    requires |es| == 5
    ensures var d1 := ApplyOne(d, es[0]); var d2 := ApplyOne(d1, es[1]);
      var d3 := ApplyOne(d2, es[2]); var d4 := ApplyOne(d3, es[3]); var d5 := ApplyOne(d4, es[4]);
      && Apply(d, es) == d5
      && (NoOverlap(d, es) <==>
          Fits(d, es[0]) && Fits(d1, es[1]) && Fits(d2, es[2]) && Fits(d3, es[3]) && Fits(d4, es[4]))
  {
    Unroll(d, es);
    Unroll(ApplyOne(d, es[0]), es[1..]);
    Unroll3(ApplyOne(ApplyOne(d, es[0]), es[1]), es[2..]);
  }

  /** The outcome of switching to `s` while performing `es`. */
  function Emit(m: Machine, s: State, es: seq<Effect>): Outcome
  {
    Outcome(Machine(s, m.pin, Apply(m.dev, es)), es)
  }

  /** The inherited no-op of the `State` base class. */
  function Unchanged(m: Machine): (r: Outcome)
    ensures r.next == m && r.effects == []
  {
    Emit(m, m.state, [])
  }

  // ---------------------------------------------------------------------
  // The invariant linking the state to the devices
  // ---------------------------------------------------------------------

  /** The edge watch each state keeps armed. */
  function WatchFor(s: State): Option<Edge>
  {
    match s
    case Idle => None
    case Running(_, _) => Some(Rising)
    case Waiting(_) => Some(Falling)
  }

  ghost predicate Inv(m: Machine)
  {
    && (m.dev.pump <==> m.state.Running?)
    && (m.dev.warn <==> m.state.Waiting?)
    && m.dev.watch == WatchFor(m.state)
    && (m.dev.timer.Some? <==> m.state.Running?)
    && (m.state.Running? ==> m.dev.timer == Some(m.state.startTime + m.state.seconds))
    && (m.state.Running? ==> IsHigh(m.pin))
    && (m.state.Waiting? ==> IsLow(m.pin))
  }

  /** The controller as `Context.__init__` creates it: Idle, with every device
      off and the pin reading whatever the switch reads. */
  function Init(pin: bool): (m: Machine)
    ensures m.state.Idle? && m.pin == pin
    ensures Inv(m)
  {
    Machine(Idle, pin, Devices(false, false, None, None))
  }

  // ---------------------------------------------------------------------
  // Transitions, one per handler of the source
  // ---------------------------------------------------------------------

  /** `RunningState.__init__`: switch the pump on, arm the run timer for
      `seconds` from now and watch for the tank running dry. */
  function EnterRunning(m: Machine, seconds: int, now: int): (r: Outcome)
    ensures r.next.state == Running(seconds, now) && r.next.pin == m.pin
    ensures r.next.dev.pump && r.next.dev.timer == Some(now + seconds)
    ensures r.next.dev.watch == Some(Rising) && r.next.dev.warn == m.dev.warn
    ensures |r.effects| == 3 && r.effects[0] == PumpOn
    ensures NoOverlap(m.dev, r.effects) <==> m.dev.timer.None? && m.dev.watch.None?
  {
    var es := [PumpOn, ArmTimer(now + seconds), AddWatch(Rising)];
    Unroll3(m.dev, es);
    Emit(m, Running(seconds, now), es)
  }

  /** `IdleState.start`: run only if the tank has water; otherwise nothing
      happens at all. */
  function IdleStart(m: Machine, seconds: int, now: int): (r: Outcome)
    requires m.state.Idle?
    ensures IsLow(m.pin) ==> r.next == m && r.effects == []
    ensures IsHigh(m.pin) ==>
      && r.next.state == Running(seconds, now)
      && r.next.dev.pump
      && r.next.dev.timer == Some(now + seconds)
      && r.next.dev.watch == Some(Rising)
  {
    if IsHigh(m.pin) then EnterRunning(m, seconds, now) else Unchanged(m)
  }

  /** `RunningState._normal_stop`, reached when the run timer fires: the
      pump is switched off and the watch removed (`_pump_off`). */
  function RunningNormalStop(m: Machine): (r: Outcome)
    requires m.state.Running?
    ensures r.next.state.Idle? && r.next.pin == m.pin
    ensures !r.next.dev.pump && r.next.dev.watch.None?
    ensures r.next.dev.timer == m.dev.timer && r.next.dev.warn == m.dev.warn
    ensures PumpOff in r.effects && PumpOn !in r.effects && NoOverlap(m.dev, r.effects)
  {
    var es := [PumpOff, RemoveWatch];
    Unroll2(m.dev, es);
    Emit(m, Idle, es)
  }

  /** `RunningState.stop`: cancel the run timer, then the normal stop. */
  function RunningStop(m: Machine): (r: Outcome)
    requires m.state.Running?
    ensures r.next.state.Idle? && r.next.pin == m.pin
    ensures !r.next.dev.pump && r.next.dev.watch.None? && r.next.dev.timer.None?
    ensures r.next.dev.warn == m.dev.warn
    ensures |r.effects| == 3 && r.effects[0] == CancelTimer
    ensures PumpOff in r.effects && PumpOn !in r.effects
    ensures NoOverlap(m.dev, r.effects)
  {
    var es := [CancelTimer, PumpOff, RemoveWatch];
    Unroll3(m.dev, es);
    Emit(m, Idle, es)
  }

  /** `RunningState._empty`: the tank ran dry while running. The run timer is
      cancelled, the pump switched off and the watch removed, the warn light
      switched on, and the run time not yet spent is carried into `Waiting`,
      without clamping; `WaitingState.__init__` then watches for the refill. */
  function RunningEmpty(m: Machine, now: int): (r: Outcome)
    requires m.state.Running?
    ensures r.next.state == Waiting(m.state.seconds - (now - m.state.startTime))
    ensures r.next.pin == m.pin
    ensures !r.next.dev.pump && r.next.dev.warn && r.next.dev.timer.None?
    ensures r.next.dev.watch == Some(Falling)
    ensures |r.effects| == 5
    ensures r.effects[0] == CancelTimer && r.effects[1] == PumpOff && r.effects[3] == WarnOn
    ensures PumpOn !in r.effects && NoOverlap(m.dev, r.effects)
  {
    var elapsed := now - m.state.startTime;
    var es := [CancelTimer, PumpOff, RemoveWatch, WarnOn, AddWatch(Falling)];
    Unroll5(m.dev, es);
    Emit(m, Waiting(m.state.seconds - elapsed), es)
  }

  /** `WaitingState._refilled`: the tank has water again. The watch is
      removed, the warn light switched off, and Running is re-entered for
      exactly the remaining time, counted from now. */
  function WaitingRefilled(m: Machine, now: int): (r: Outcome)
    requires m.state.Waiting?
    ensures r.next.state == Running(m.state.remaining, now) && r.next.pin == m.pin
    ensures r.next.dev.pump && !r.next.dev.warn
    ensures r.next.dev.timer == Some(now + m.state.remaining)
    ensures r.next.dev.watch == Some(Rising)
    ensures |r.effects| == 5 && r.effects[0] == RemoveWatch && r.effects[1] == WarnOff
    ensures PumpOn in r.effects && PumpOff !in r.effects
    ensures NoOverlap(m.dev, r.effects) <==> m.dev.timer.None?
  {
    var resumed := EnterRunning(m, m.state.remaining, now);
    var es := [RemoveWatch, WarnOff] + resumed.effects;
    Unroll5(m.dev, es);
    Emit(m, resumed.next.state, es)
  }

  /** `WaitingState.stop`: give up waiting, without ever switching the pump on. */
  function WaitingStop(m: Machine): (r: Outcome)
    requires m.state.Waiting?
    ensures r.next.state.Idle? && r.next.pin == m.pin
    ensures r.next.dev.watch.None? && !r.next.dev.warn
    ensures r.next.dev.pump == m.dev.pump && r.next.dev.timer == m.dev.timer
    ensures PumpOn !in r.effects && NoOverlap(m.dev, r.effects)
  {
    var es := [RemoveWatch, WarnOff];
    Unroll2(m.dev, es);
    Emit(m, Idle, es)
  }

  /** The float-switch pin changes to `level`. GPIO reports an edge only if
      the level actually changed, and the edge reaches a handler only if a
      watch for that direction is armed by the state that owns the handler. */
  function PinChange(m: Machine, level: bool, now: int): (r: Outcome)
    ensures r.next.pin == level
    ensures EdgeOf(m.pin, level).None? ==> r == Outcome(m.(pin := level), [])
    ensures r.effects != [] ==> EdgeOf(m.pin, level).Some? && m.dev.watch == EdgeOf(m.pin, level)
    ensures m.state.Running? && m.dev.watch == Some(Rising) && EdgeOf(m.pin, level) == Some(Rising) ==>
      r.next.state.Waiting?
    ensures m.state.Waiting? && m.dev.watch == Some(Falling) && EdgeOf(m.pin, level) == Some(Falling) ==>
      r.next.state.Running?
  {
    var m1 := m.(pin := level);
    match EdgeOf(m.pin, level)
    case None => Unchanged(m1)
    case Some(edge) =>
      if m.state.Running? && edge == Rising && m.dev.watch == Some(Rising) then
        RunningEmpty(m1, now)
      else if m.state.Waiting? && edge == Falling && m.dev.watch == Some(Falling) then
        WaitingRefilled(m1, now)
      else
        Unchanged(m1)
  }

  /** The run timer's callback. A cancelled timer is `None` and never fires;
      a pending one fires once its deadline has been reached, which uses it
      up (`TimerFired`), and then runs `_normal_stop`. */
  function TimerExpire(m: Machine, now: int): (r: Outcome)
    ensures !(m.state.Running? && m.dev.timer.Some? && m.dev.timer.value <= now) ==> r == Outcome(m, [])
    ensures m.state.Running? && m.dev.timer.Some? && m.dev.timer.value <= now ==>
      && r.next == Machine(Idle, m.pin, m.dev.(pump := false, watch := None, timer := None))
      && |r.effects| == 3 && r.effects[0] == TimerFired
      && PumpOff in r.effects && PumpOn !in r.effects
      && NoOverlap(m.dev, r.effects)
  {
    if m.state.Running? && m.dev.timer.Some? && m.dev.timer.value <= now then
      var es := [TimerFired] + RunningNormalStop(m).effects;
      Unroll3(m.dev, es);
      Emit(m, Idle, es)
    else
      Unchanged(m)
  }

  /** `Sprinkler.start` / `Sprinkler.stop` dispatch to the current state, and
      the timer and float-switch callbacks to the state that armed them. The
      `State` base class makes `start` and `stop` no-ops unless overridden:
      `start` in Running and `stop` in Idle inherit that; `start` in Waiting
      only logs. */
  function Step(m: Machine, ev: Event, now: int): (r: Outcome)
    ensures r.next.pin == (if ev.Pin? then ev.level else m.pin)
    ensures ev.Stop? ==> r.next.state.Idle?
    ensures ev.Start? && !m.state.Idle? ==> r == Outcome(m, [])
    ensures PumpOn in r.effects ==> (ev.Start? && m.state.Idle?) || (ev.Pin? && m.state.Waiting?)
    ensures TimerFired in r.effects ==> ev.Expire?
  {
    match ev
    case Start(seconds) =>
      if m.state.Idle? then IdleStart(m, seconds, now) else Unchanged(m)
    case Stop =>
      (match m.state
       case Idle => Unchanged(m)
       case Running(_, _) => RunningStop(m)
       case Waiting(_) => WaitingStop(m))
    case Expire => TimerExpire(m, now)
    case Pin(level) => PinChange(m, level, now)
  }

  // ---------------------------------------------------------------------
  // Properties of one step
  // ---------------------------------------------------------------------

  /** Every transition keeps the state and the devices in step: the pump is
      on exactly while Running, the warn light exactly while Waiting, the
      RISING watch is armed exactly while Running and the FALLING watch
      exactly while Waiting, a timer is pending exactly while Running (due at
      the end of the run), Running only while the tank has water and Waiting
      only while it is empty. No timer or watch is ever armed on top of a
      pending one. */
  lemma StepPreservesInv(m: Machine, ev: Event, now: int)
    requires Inv(m)
    ensures Inv(Step(m, ev, now).next)
    ensures NoOverlap(m.dev, Step(m, ev, now).effects)
  {
  }

  /** The pump is only ever switched on while the tank has water. */
  lemma PumpOnlyOnWithWater(m: Machine, ev: Event, now: int)
    requires Inv(m)
    ensures PumpOn in Step(m, ev, now).effects ==> IsHigh(Step(m, ev, now).next.pin)
    ensures Step(m, ev, now).next.dev.pump ==> IsHigh(Step(m, ev, now).next.pin)
  {
    StepPreservesInv(m, ev, now);
  }

  /** `start` while the tank is empty leaves the controller Idle and never
      switches the pump on. */
  lemma StartWhenEmpty(m: Machine, seconds: int, now: int)
    requires m.state.Idle? && IsLow(m.pin)
    ensures Step(m, Start(seconds), now).next == m
    ensures Step(m, Start(seconds), now).effects == []
  {
  }

  /** `start(s)` in Idle at time t while the tank has water: the pump is on,
      the state is Running(s) started at t, exactly one timer is pending, due
      at t + s, and the RISING watch is armed. */
  lemma StartWithWater(m: Machine, seconds: int, now: int)
    requires Inv(m) && m.state.Idle? && IsHigh(m.pin)
    ensures var r := Step(m, Start(seconds), now);
      && r.next.state == Running(seconds, now)
      && r.next.dev == Devices(true, false, Some(Rising), Some(now + seconds))
      && r.effects == [PumpOn, ArmTimer(now + seconds), AddWatch(Rising)]
  {
  }

  /** An explicit `stop` and the timer firing in Running both end with no
      timer pending, the pump off, no watch and the state Idle. */
  lemma StopAndExpiryConverge(m: Machine, now: int)
    requires Inv(m) && m.state.Running?
    requires m.state.startTime + m.state.seconds <= now
    ensures Step(m, Stop, now).next == Step(m, Expire, now).next
    ensures Step(m, Stop, now).next == Machine(Idle, m.pin, Devices(false, false, None, None))
  {
  }

  /** The tank running dry at time t in Running(s) started at t0: the timer is
      cancelled, then the pump switched off, then the warn light switched on,
      and the state becomes Waiting(s - (t - t0)), not clamped at zero. */
  lemma EmptyWhileRunning(m: Machine, now: int)
    requires Inv(m) && m.state.Running?
    ensures var r := Step(m, Pin(true), now);
      && r.next.state == Waiting(m.state.seconds - (now - m.state.startTime))
      && r.next.dev == Devices(false, true, Some(Falling), None)
      && r.effects == [CancelTimer, PumpOff, RemoveWatch, WarnOn, AddWatch(Falling)]
  {
  }

  /** The tank refilled at time t in Waiting(r): the watch is removed, the
      warn light switched off, and Running(r) is entered at t with its timer
      due at t + r. */
  lemma RefillWhileWaiting(m: Machine, now: int)
    requires Inv(m) && m.state.Waiting?
    ensures var r := Step(m, Pin(false), now);
      && r.next.state == Running(m.state.remaining, now)
      && r.next.dev == Devices(true, false, Some(Rising), Some(now + m.state.remaining))
      && r.effects[..2] == [RemoveWatch, WarnOff]
  {
  }

  /** `stop` in Waiting removes the watch, switches the warn light off and
      returns to Idle, never switching the pump on. */
  lemma StopWhileWaiting(m: Machine, now: int)
    requires Inv(m) && m.state.Waiting?
    ensures var r := Step(m, Stop, now);
      && r.next == Machine(Idle, m.pin, Devices(false, false, None, None))
      && PumpOn !in r.effects
  {
  }

  /** `start` in Running or Waiting, and `stop` in Idle, change nothing. */
  lemma NoOpTransitions(m: Machine, seconds: int, now: int)
    ensures !m.state.Idle? ==> Step(m, Start(seconds), now) == Outcome(m, [])
    ensures m.state.Idle? ==> Step(m, Stop, now) == Outcome(m, [])
  {
  }

  /** In Running, a change of the float-switch pin suspends the run exactly
      when the tank goes from having water to being empty: the physical
      RISING watch detects emptying because the switch is active-low. */
  lemma RunningSuspendsExactlyOnEmptying(m: Machine, level: bool, now: int)
    requires Inv(m) && m.state.Running?
    ensures Step(m, Pin(level), now).next.state.Waiting? <==> IsHigh(m.pin) && IsLow(level)
  {
  }

  /** In Waiting, a change of the pin resumes the run exactly when the tank
      goes from empty to having water. */
  lemma WaitingResumesExactlyOnRefill(m: Machine, level: bool, now: int)
    requires Inv(m) && m.state.Waiting?
    ensures Step(m, Pin(level), now).next.state.Running? <==> IsLow(m.pin) && IsHigh(level)
  {
  }

  /** In this model, where an edge is handled when it is delivered, the timer
      firing and the tank running dry never both take effect: after either
      one, the other does nothing. */
  lemma ExpiryAndEmptyExclusive(m: Machine, t1: int, t2: int)
    requires Inv(m) && m.state.Running?
    requires m.state.startTime + m.state.seconds <= t1
    ensures var a := Step(m, Expire, t1).next;
      a.state.Idle? && Step(a, Pin(true), t2) == Outcome(a.(pin := true), [])
    ensures var b := Step(m, Pin(true), t1).next;
      b.state.Waiting? && Step(b, Expire, t2) == Outcome(b, [])
  {
  }
}
