/** The Stopped / Started / StartedTimer pump.

    `start` takes an optional duration: without one the pump runs until
    stopped, with one a one-shot timer stops it. Starting a timed pump again
    replaces its timer. `activate` and `deactivate` are the context's hardware
    calls; the timer is an optional deadline, and a cancelled timer is `None`
    and can never fire. As for the sprinkler controller, the devices (whether
    the pump is active, which timer is pending) are the effects of every
    transition applied in order. The fold, the no-op outcome and the run
    trace have the same shape as the sprinkler controller's but are defined
    over this machine's own effects and devices. */
module Water {
  import opened Options

  datatype PumpState = Stopped | Started | StartedTimer

  datatype Effect =
    | Activate
    | Deactivate
    | ArmTimer(deadline: int)
    | CancelTimer
    | TimerFired   // a pending timer's task wakes up; the timer is used up

  datatype Devices = Devices(active: bool, timer: Option<int>)

  datatype Pump = Pump(state: PumpState, dev: Devices)

  datatype Event = Start(seconds: Option<int>) | Stop | Expire

  datatype Outcome = Outcome(next: Pump, effects: seq<Effect>)

  // ---------------------------------------------------------------------
  // Devices as a fold over effects
  // ---------------------------------------------------------------------

  function ApplyOne(d: Devices, e: Effect): Devices
  {
    match e
    case Activate => d.(active := true)
    case Deactivate => d.(active := false)
    case ArmTimer(t) => d.(timer := Some(t))
    case CancelTimer => d.(timer := None)
    case TimerFired => d.(timer := None)
  }

  function Apply(d: Devices, es: seq<Effect>): Devices
    decreases |es|
  {
    if |es| == 0 then d else Apply(ApplyOne(d, es[0]), es[1..])
  }

  /** Whether the pump is active after effect `e`. */
  function Toggle(active: bool, e: Effect): bool
  {
    match e
    case Activate => true
    case Deactivate => false
    case _ => active
  }

  /** `activate` is only called on an inactive pump and `deactivate` only on
      an active one. */
  predicate Fits(active: bool, e: Effect)
  {
    match e
    case Activate => !active
    case Deactivate => active
    case _ => true
  }

  /** No timer of `es` is armed while another one is pending, starting from
      the devices `d`. */
  predicate NoTimerOverlap(d: Devices, es: seq<Effect>)
    decreases |es|
  {
    |es| == 0 || ((es[0].ArmTimer? ==> d.timer.None?) && NoTimerOverlap(ApplyOne(d, es[0]), es[1..]))
  }

  /** Activations and deactivations of `es` strictly alternate, starting from
      `active`. */
  predicate Alternates(active: bool, es: seq<Effect>)
    decreases |es|
  {
    |es| == 0 || (Fits(active, es[0]) && Alternates(Toggle(active, es[0]), es[1..]))
  }

  /** Whether the pump is active after the effects `es`. */
  function ActiveAfter(active: bool, es: seq<Effect>): bool
    decreases |es|
  {
    if |es| == 0 then active else ActiveAfter(Toggle(active, es[0]), es[1..])
  }

  /** Checking alternation in two pieces is checking it in one. */
  lemma {:induction false} AlternatesAppend(active: bool, a: seq<Effect>, b: seq<Effect>)
    ensures ActiveAfter(active, a + b) == ActiveAfter(ActiveAfter(active, a), b)
    ensures Alternates(active, a + b) <==>
            Alternates(active, a) && Alternates(ActiveAfter(active, a), b)
    decreases |a|
  {
    if |a| == 0 {
      assert a + b == b;
    } else {
      assert (a + b)[0] == a[0];
      assert (a + b)[1..] == a[1..] + b;
      AlternatesAppend(Toggle(active, a[0]), a[1..], b);
    }
  }

  /** The number of times `e` occurs in `es`. */
  function Count(es: seq<Effect>, e: Effect): nat
    decreases |es|
  {
    if |es| == 0 then 0 else (if es[0] == e then 1 else 0) + Count(es[1..], e)
  }

  lemma {:induction false} CountAppend(a: seq<Effect>, b: seq<Effect>, e: Effect)
    ensures Count(a + b, e) == Count(a, e) + Count(b, e)
    decreases |a|
  {
    if |a| == 0 {
      assert a + b == b;
    } else {
      assert (a + b)[1..] == a[1..] + b;
      CountAppend(a[1..], b, e);
    }
  }

  /** What one or two effects do, one by one. */
  lemma Small(d: Devices, es: seq<Effect>)
    requires 1 <= |es| <= 2
    ensures var d1 := ApplyOne(d, es[0]);
      && Apply(d, es) == (if |es| == 1 then d1 else ApplyOne(d1, es[1]))
      && Apply(d, es).active == ActiveAfter(d.active, es)
      && (Alternates(d.active, es) <==>
          Fits(d.active, es[0]) && (|es| == 2 ==> Fits(d1.active, es[1])))
      && (NoTimerOverlap(d, es) <==>
          (es[0].ArmTimer? ==> d.timer.None?) && (|es| == 2 && es[1].ArmTimer? ==> d1.timer.None?))
    ensures forall e {:trigger Count(es, e)} ::
      Count(es, e) == (if es[0] == e then 1 else 0) + (if |es| == 2 && es[1] == e then 1 else 0)
  {
    var d1 := ApplyOne(d, es[0]);
    var a1 := Toggle(d.active, es[0]);
    var rest := es[1..];
    assert Apply(d, es) == Apply(d1, rest);
    assert ActiveAfter(d.active, es) == ActiveAfter(a1, rest);
    assert Alternates(d.active, es) <==> Fits(d.active, es[0]) && Alternates(a1, rest);
    assert NoTimerOverlap(d, es) <==>
      (es[0].ArmTimer? ==> d.timer.None?) && NoTimerOverlap(d1, rest);
    if |es| == 2 {
      assert rest[1..] == [];
      assert Apply(d1, rest) == ApplyOne(d1, rest[0]);
      assert ActiveAfter(a1, rest) == Toggle(a1, rest[0]);
      assert Alternates(a1, rest) <==> Fits(a1, rest[0]);
      assert NoTimerOverlap(d1, rest) <==> (rest[0].ArmTimer? ==> d1.timer.None?);
    } else {
      assert rest == [];
    }
    forall e
      ensures Count(es, e) ==
        (if es[0] == e then 1 else 0) + (if |es| == 2 && es[1] == e then 1 else 0)
    {
      assert Count(es, e) == (if es[0] == e then 1 else 0) + Count(rest, e);
      if |es| == 2 {
        assert Count(rest, e) == (if rest[0] == e then 1 else 0) + Count(rest[1..], e);
      }
    }
  }

  function Emit(p: Pump, s: PumpState, es: seq<Effect>): Outcome
  {
    Outcome(Pump(s, Apply(p.dev, es)), es)
  }

  /** The inherited no-op of `PumpState`. */
  function Unchanged(p: Pump): (r: Outcome)
    ensures r.next == p && r.effects == []
  {
    Emit(p, p.state, [])
  }

  // ---------------------------------------------------------------------
  // State and invariant
  // ---------------------------------------------------------------------

  /** `AbstractPumpContext.__init__`: the pump starts Stopped, inactive, with
      no timer. */
  function Init(): (p: Pump)
    ensures !IsRunning(p) && p.dev.timer.None?
    ensures Inv(p)
  {
    Pump(Stopped, Devices(false, None))
  }

  /** `Pump.is_running`: the state is anything but Stopped. */
  predicate IsRunning(p: Pump)
  {
    !p.state.Stopped?
  }

  /** The pump is active exactly while running, and only a timed pump has a
      pending timer. */
  ghost predicate Inv(p: Pump)
  {
    && (p.dev.active <==> IsRunning(p))
    && (p.dev.timer.Some? ==> p.state.StartedTimer?)
  }

  // ---------------------------------------------------------------------
  // Transitions, one per handler of the source
  // ---------------------------------------------------------------------

  /** `PumpStartedTimer._create_timer`: an `AsyncTimer` sleeping `seconds`.
      Given no duration, `asyncio.sleep(None)` raises before sleeping, so the
      timer's task ends without ever calling back: no timer is pending. */
  function CreateTimer(seconds: Option<int>, now: int): (es: seq<Effect>)
    ensures forall d: Devices {:trigger Apply(d, es)} ::
      Apply(d, es) == d.(timer := if seconds.Some? then Some(now + seconds.value) else d.timer)
    ensures forall e {:trigger Count(es, e)} :: Count(es, e) == (if seconds.Some? && e == ArmTimer(now + seconds.value) then 1 else 0)
  {
    match seconds
    case None => []
    case Some(s) => [ArmTimer(now + s)]
  }

  /** `PumpStopped.start` then `_change_state`: activate, then become
      `PumpStarted` without a duration or `PumpStartedTimer` with one. */
  function StoppedStart(p: Pump, seconds: Option<int>, now: int): (r: Outcome)
    requires p.state.Stopped?
    ensures |r.effects| >= 1 && r.effects[0] == Activate && Count(r.effects, Activate) == 1
    ensures Count(r.effects, Deactivate) == 0 && r.next.dev.active
    ensures seconds.None? ==> r.next.state == Started && r.next.dev.timer == p.dev.timer
    ensures seconds.Some? ==>
      && r.next.state == StartedTimer
      && r.next.dev.timer == Some(now + seconds.value)
    ensures Alternates(p.dev.active, r.effects) <==> !p.dev.active
    ensures ActiveAfter(p.dev.active, r.effects) == r.next.dev.active
    ensures NoTimerOverlap(p.dev, r.effects) <==> seconds.None? || p.dev.timer.None?
  {
    var es := [Activate] + CreateTimer(seconds, now);
    Small(p.dev, es);
    Emit(p, if seconds.None? then Started else StartedTimer, es)
  }

  /** `PumpStartedTimer.start`: cancel the pending timer and create a new one
      for the new duration; the pump is neither activated nor deactivated. */
  function TimerRestart(p: Pump, seconds: Option<int>, now: int): (r: Outcome)
    requires p.state.StartedTimer?
    ensures r.next.state == StartedTimer && r.next.dev.active == p.dev.active
    ensures |r.effects| >= 1 && r.effects[0] == CancelTimer
    ensures Count(r.effects, Activate) == 0 && Count(r.effects, Deactivate) == 0
    ensures seconds.Some? ==> r.next.dev.timer == Some(now + seconds.value)
    ensures seconds.None? ==> r.next.dev.timer.None?
    ensures Alternates(p.dev.active, r.effects)
    ensures ActiveAfter(p.dev.active, r.effects) == r.next.dev.active
    ensures NoTimerOverlap(p.dev, r.effects)
  {
    var es := [CancelTimer] + CreateTimer(seconds, now);
    Small(p.dev, es);
    Emit(p, StartedTimer, es)
  }

  /** `PumpStarted._kill`: deactivate and become Stopped. */
  function Kill(p: Pump): (r: Outcome)
    ensures r.next.state == Stopped && !r.next.dev.active && r.next.dev.timer == p.dev.timer
    ensures Count(r.effects, Deactivate) == 1 && Count(r.effects, Activate) == 0
    ensures Alternates(p.dev.active, r.effects) <==> p.dev.active
    ensures ActiveAfter(p.dev.active, r.effects) == r.next.dev.active
    ensures NoTimerOverlap(p.dev, r.effects)
  {
    Small(p.dev, [Deactivate]);
    Emit(p, Stopped, [Deactivate])
  }

  /** `PumpStartedTimer.stop`: cancel the timer, then `PumpStarted.stop`. */
  function TimerStop(p: Pump): (r: Outcome)
    requires p.state.StartedTimer?
    ensures r.next.state == Stopped && !r.next.dev.active && r.next.dev.timer.None?
    ensures |r.effects| == 2 && r.effects[0] == CancelTimer
    ensures Count(r.effects, Deactivate) == 1 && Count(r.effects, Activate) == 0
    ensures Alternates(p.dev.active, r.effects) <==> p.dev.active
    ensures ActiveAfter(p.dev.active, r.effects) == r.next.dev.active
    ensures NoTimerOverlap(p.dev, r.effects)
  {
    var es := [CancelTimer, Deactivate];
    Small(p.dev, es);
    Emit(p, Stopped, es)
  }

  /** `AsyncTimer._run`: the timer's task reaching the end of its sleep uses
      the timer up (`TimerFired`) and runs `_kill` of the timed state that
      created it; a cancelled timer is `None` and never fires. */
  function TimerExpire(p: Pump, now: int): (r: Outcome)
    ensures !(p.state.StartedTimer? && p.dev.timer.Some? && p.dev.timer.value <= now) ==> r == Outcome(p, [])
    ensures p.state.StartedTimer? && p.dev.timer.Some? && p.dev.timer.value <= now ==>
      && r.next == Pump(Stopped, Devices(false, None))
      && |r.effects| == 2 && r.effects[0] == TimerFired
      && Count(r.effects, Deactivate) == 1 && Count(r.effects, Activate) == 0
      && (Alternates(p.dev.active, r.effects) <==> p.dev.active)
      && ActiveAfter(p.dev.active, r.effects) == r.next.dev.active
      && NoTimerOverlap(p.dev, r.effects)
  {
    if p.state.StartedTimer? && p.dev.timer.Some? && p.dev.timer.value <= now then
      var es := [TimerFired] + Kill(p).effects;
      Small(p.dev, es);
      Emit(p, Stopped, es)
    else
      Unchanged(p)
  }

  /** `Pump.start` / `Pump.stop` await the current state's handler. */
  function Step(p: Pump, ev: Event, now: int): (r: Outcome)
    ensures Count(r.effects, Activate) == (if ev.Start? && p.state.Stopped? then 1 else 0)
    ensures Count(r.effects, Deactivate) <= 1
    ensures Count(r.effects, Deactivate) == 1 ==> !ev.Start? && !r.next.dev.active
    ensures ev.Stop? ==> r.next.state.Stopped?
    ensures ev.Start? && p.state.Started? ==> r == Outcome(p, [])
  {
    match ev
    case Start(seconds) =>
      (match p.state
       case Stopped => StoppedStart(p, seconds, now)
       case Started => Unchanged(p)
       case StartedTimer => TimerRestart(p, seconds, now))
    case Stop =>
      (match p.state
       case Stopped => Unchanged(p)
       case Started => Kill(p)
       case StartedTimer => TimerStop(p))
    case Expire => TimerExpire(p, now)
  }

  // ---------------------------------------------------------------------
  // Properties of one step
  // ---------------------------------------------------------------------

  /** The pump is running exactly while it is active, after every event; and
      no event activates an active pump, deactivates an inactive one, or arms
      a timer while one is pending. */
  lemma StepPreservesInv(p: Pump, ev: Event, now: int)
    requires Inv(p)
    ensures Inv(Step(p, ev, now).next)
    ensures Alternates(p.dev.active, Step(p, ev, now).effects)
    ensures ActiveAfter(p.dev.active, Step(p, ev, now).effects) == Step(p, ev, now).next.dev.active
    ensures NoTimerOverlap(p.dev, Step(p, ev, now).effects)
  {
  }

  /** `start()` without a duration on a stopped pump activates it once and
      leaves it Started with no timer. */
  lemma StartUntimed(p: Pump, now: int)
    requires Inv(p) && p.state.Stopped?
    ensures var r := Step(p, Start(None), now);
      r.effects == [Activate] && r.next == Pump(Started, Devices(true, None))
  {
  }

  /** `start(s)` on a stopped pump activates it once and leaves it StartedTimer
      with exactly one timer pending, due s from now. */
  lemma StartTimed(p: Pump, seconds: int, now: int)
    requires Inv(p) && p.state.Stopped?
    ensures var r := Step(p, Start(Some(seconds)), now);
      && Count(r.effects, Activate) == 1
      && r.next == Pump(StartedTimer, Devices(true, Some(now + seconds)))
  {
  }

  /** `start` on an untimed running pump does nothing. */
  lemma StartWhileStartedIsNoOp(p: Pump, seconds: Option<int>, now: int)
    requires p.state.Started?
    ensures Step(p, Start(seconds), now) == Outcome(p, [])
  {
  }

  /** `start(s2)` on a timed pump cancels the old timer and arms one for s2,
      with no activate or deactivate, and stays StartedTimer. */
  lemma RestartReplacesTimer(p: Pump, seconds: int, now: int)
    requires Inv(p) && p.state.StartedTimer?
    ensures var r := Step(p, Start(Some(seconds)), now);
      && r.effects == [CancelTimer, ArmTimer(now + seconds)]
      && r.next == Pump(StartedTimer, Devices(true, Some(now + seconds)))
  {
  }

  /** `stop` on a running pump cancels any timer, deactivates once, and
      stops; `stop` on a stopped pump does nothing. */
  lemma StopStops(p: Pump, now: int)
    requires Inv(p)
    ensures var r := Step(p, Stop, now);
      && r.next == Pump(Stopped, Devices(false, None))
      && Count(r.effects, Deactivate) == (if IsRunning(p) then 1 else 0)
      && Count(r.effects, Activate) == 0
  {
  }

  /** The timer firing on a timed pump deactivates once and stops it. */
  lemma ExpiryStops(p: Pump, now: int)
    requires Inv(p) && p.state.StartedTimer? && p.dev.timer.Some? && p.dev.timer.value <= now
    ensures var r := Step(p, Expire, now);
      && r.next == Pump(Stopped, Devices(false, None))
      && r.effects == [TimerFired, Deactivate]
  {
  }

  /** A timer that has not reached its deadline, or that was cancelled, does
      nothing. */
  lemma NoEarlyOrCancelledExpiry(p: Pump, now: int)
    requires Inv(p)
    requires p.dev.timer.None? || now < p.dev.timer.value
    ensures Step(p, Expire, now) == Outcome(p, [])
  {
  }

  // ---------------------------------------------------------------------
  // Runs
  // ---------------------------------------------------------------------

  datatype Timed = Timed(event: Event, at: int)

  /** Unlike the sprinkler controller's stamped log, a run of the pump keeps
      the plain list of effects: no property here depends on when they were
      made. */
  datatype Trace = Trace(final: Pump, effects: seq<Effect>)

  function Run(p: Pump, evs: seq<Timed>): Trace
    decreases |evs|
  {
    if |evs| == 0 then Trace(p, [])
    else
      var o := Step(p, evs[0].event, evs[0].at);
      var rest := Run(o.next, evs[1..]);
      Trace(rest.final, o.effects + rest.effects)
  }

  /** Over any run, the invariant holds at the end, whether the pump is
      active is what the logged effects make of it, and activations and
      deactivations strictly alternate: the pump is never activated twice or deactivated twice in a
      row. */
  lemma {:induction false} RunAlternates(p: Pump, evs: seq<Timed>)
    requires Inv(p)
    ensures var tr := Run(p, evs);
      && Inv(tr.final)
      && Alternates(p.dev.active, tr.effects)
      && ActiveAfter(p.dev.active, tr.effects) == tr.final.dev.active
    decreases |evs|
  {
    if |evs| > 0 {
      var o := Step(p, evs[0].event, evs[0].at);
      StepPreservesInv(p, evs[0].event, evs[0].at);
      RunAlternates(o.next, evs[1..]);
      AlternatesAppend(p.dev.active, o.effects, Run(o.next, evs[1..]).effects);
    }
  }

  /** Over any run, the number of activations minus the number of
      deactivations is the change in whether the pump runs. */
  lemma {:induction false} ActivationBalance(p: Pump, evs: seq<Timed>)
    requires Inv(p)
    ensures var tr := Run(p, evs);
      Count(tr.effects, Activate) - Count(tr.effects, Deactivate) ==
        (if IsRunning(tr.final) then 1 else 0) - (if IsRunning(p) then 1 else 0)
    decreases |evs|
  {
    if |evs| > 0 {
      var o := Step(p, evs[0].event, evs[0].at);
      StepPreservesInv(p, evs[0].event, evs[0].at);
      ActivationBalance(o.next, evs[1..]);
      var rest := Run(o.next, evs[1..]).effects;
      CountAppend(o.effects, rest, Activate);
      CountAppend(o.effects, rest, Deactivate);
      match evs[0].event
      case Start(s) =>
        if p.state.Stopped? && s.Some? {
          assert o.effects == [Activate, ArmTimer(evs[0].at + s.value)];
        }
      case Stop =>
        if p.state.StartedTimer? {
          assert o.effects == [CancelTimer, Deactivate];
        }
      case Expire =>
    }
  }

  /** Calling `stop` twice deactivates the pump exactly once, if it was
      running, and never otherwise. */
  lemma {:induction false} StopTwice(p: Pump, t1: int, t2: int)
    requires Inv(p)
    ensures var tr := Run(p, [Timed(Stop, t1), Timed(Stop, t2)]);
      && Count(tr.effects, Deactivate) == (if IsRunning(p) then 1 else 0)
      && tr.final.state.Stopped?
  {
    var evs := [Timed(Stop, t1), Timed(Stop, t2)];
    assert evs[1..] == [Timed(Stop, t2)];
    assert evs[1..][1..] == [];
    var o1 := Step(p, Stop, t1);
    var o2 := Step(o1.next, Stop, t2);
    StopStops(p, t1);
    StopStops(o1.next, t2);
    assert Run(o2.next, []) == Trace(o2.next, []);
    assert Run(o1.next, evs[1..]) == Trace(o2.next, o2.effects + []);
    assert Run(p, evs) == Trace(o2.next, o1.effects + (o2.effects + []));
    assert o2.effects + [] == o2.effects == [];
    CountAppend(o1.effects, o2.effects, Deactivate);
  }

  /** `start(s1)` at t1 on a stopped pump, `start(s2)` at t2, then the timer
      callback delivered at t: the pump stops exactly when t has reached
      t2 + s2, whatever s1 was, and then with exactly one deactivation. */
  lemma {:induction false} RestartMovesExpiry(s1: int, t1: int, s2: int, t2: int, t: int)
    ensures var tr := Run(Init(), [Timed(Start(Some(s1)), t1), Timed(Start(Some(s2)), t2), Timed(Expire, t)]);
      && (tr.final.state.Stopped? <==> t2 + s2 <= t)
      && Count(tr.effects, Deactivate) == (if t2 + s2 <= t then 1 else 0)
      && Count(tr.effects, Activate) == 1
  {
    var evs := [Timed(Start(Some(s1)), t1), Timed(Start(Some(s2)), t2), Timed(Expire, t)];
    assert evs[1..] == [Timed(Start(Some(s2)), t2), Timed(Expire, t)];
    assert evs[1..][1..] == [Timed(Expire, t)];
    assert evs[1..][1..][1..] == [];
    var o1 := Step(Init(), Start(Some(s1)), t1);
    var o2 := Step(o1.next, Start(Some(s2)), t2);
    var o3 := Step(o2.next, Expire, t);
    assert o2.next == Pump(StartedTimer, Devices(true, Some(t2 + s2)));
    assert Run(o3.next, []) == Trace(o3.next, []);
    assert Run(o2.next, evs[1..][1..]) == Trace(o3.next, o3.effects + []);
    assert Run(o1.next, evs[1..]) == Trace(o3.next, o2.effects + (o3.effects + []));
    var tr := Run(Init(), evs);
    assert tr == Trace(o3.next, o1.effects + (o2.effects + (o3.effects + [])));
    CountAppend(o2.effects, o3.effects + [], Deactivate);
    CountAppend(o2.effects, o3.effects + [], Activate);
    CountAppend(o1.effects, o2.effects + (o3.effects + []), Deactivate);
    CountAppend(o1.effects, o2.effects + (o3.effects + []), Activate);
    assert o3.effects + [] == o3.effects;
  }
}
