# pumpd controllers in Dafny

A model of the two pump state machines of pumpd, a Raspberry Pi controller for
a garden water pump fed from a tank with a float switch.

- **`hardware.py`** drives the pump through an Automation HAT. Its `Sprinkler`
  has three states: **Idle**, **Running(seconds)** and **Waiting(remaining)**.
  `start(seconds)` runs the pump only if the float switch reports water. A run
  ends when its timer fires or on `stop()`. If the tank runs dry while
  Running, the pump is switched off and the warn light on, and the controller
  Waits. When the tank refills, it resumes for exactly the run time still owed.
- **`water.py`** has a smaller pump with three states: **Stopped**, **Started**
  and **StartedTimer**. `start` takes an optional duration. Calling `start`
  again on a timed pump replaces its timer. `stop` deactivates the pump.

Both machines are modelled as pure transition functions. A transition takes
the machine, one event and the integer clock value `now`. It returns the next
machine and the list of hardware effects it performed, in order.

The devices are not set by the transitions directly:

- for `hardware.py`: the pump relay, the warn light, the GPIO edge watch and
  the pending run timer;
- for `water.py`: whether the pump is active, and the pending timer.

Each transition emits effect tokens, and the devices are those effects
applied, in order, to the devices as they were. The device contracts are
therefore statements about what the emitted calls do.

Timers are modelled as an optional deadline. A cancelled timer is `None`, so
it cannot fire. An `Expire` event fires a pending timer once its deadline has
been reached. Firing is an effect of its own, `TimerFired`, which uses the
timer up before the callback's own effects. The float switch is the raw GPIO pin level. A `Pin(level)` event
changes that level, and the GPIO edge it produces reaches a handler only if a
watch for that edge direction is armed.

Files:
- `options.dfy`: `Option`.
- `sensor.dfy`: float-switch polarity and edge meaning.
- `hardware.dfy`: the Idle/Running/Waiting controller, its invariant and
  single-step properties.
- `hardware_run.dfy`: event sequences, the time-stamped effect log, pump-on
  time, and the suspend/resume time accounting.
- `water.dfy`: the Stopped/Started/StartedTimer pump, its runs and counts of
  activations and deactivations.

### Behaviour of the code worth knowing

- `start` while Running is the inherited no-op of `State`
  (hardware.py:78-79). It does not cancel and re-arm the timer.
- The time left when the tank runs dry is `seconds - elapsed`, and it is not
  clamped at zero (hardware.py:138-139). Resuming with zero or negative time
  owed arms a timer whose deadline has already passed, so the next `Expire`
  event stops the run.
- Running watches the RISING edge and Waiting watches the FALLING edge
  (hardware.py:122-124, 154-156). The switch is active-low
  (hardware.py:45-46), so a rising raw pin means the tank emptied.
- `start` in hardware.py always takes a duration: there is no indefinite run.

## Model

| member | source | states |
|---|---|---|
| Sensor.EdgeMeaning | hardware.py:27-56 | a RISING edge on the raw pin is exactly the tank going from water to empty, and a FALLING edge exactly the reverse |
| Hardware.Init | hardware.py:62-67 | the controller starts Idle with the devices off, and the state–device invariant holds |
| Hardware.EnterRunning | hardware.py:115-124 | entering Running(s) at t switches the pump on, arms the run timer for t+s and arms the RISING watch; the warn light is untouched; arming fits only if no timer and no watch were pending |
| Hardware.IdleStart | hardware.py:94-100 | with the tank empty, `start` changes nothing and emits nothing; with water, it enters Running(s) at t with the pump on, the timer at t+s and the RISING watch |
| Hardware.RunningNormalStop | hardware.py:130-132 | the timer callback switches the pump off, removes the watch and goes Idle, without switching the pump on |
| Hardware.RunningStop | hardware.py:126-128 | explicit stop cancels the timer first, then switches the pump off, removes the watch and goes Idle |
| Hardware.RunningEmpty | hardware.py:134-143 | the tank running dry cancels the timer, then switches the pump off, then switches the warn light on; it arms the FALLING watch and goes to Waiting(s − (t − start)), unclamped |
| Hardware.WaitingRefilled | hardware.py:158-161 | the refill removes the watch, switches the warn light off and re-enters Running with the remaining time from now: pump on, timer at now+remaining, RISING watch |
| Hardware.WaitingStop | hardware.py:163-166 | stop while Waiting removes the watch, switches the warn light off and goes Idle without switching the pump on |
| Hardware.PinChange | hardware.py:51-56 | the pin takes the new level. With no change there is no edge, and the machine is otherwise unchanged with no effects. A handler runs only when an edge matches the armed watch. A RISING edge under the RISING watch in Running suspends, and a FALLING edge under the FALLING watch in Waiting resumes |
| Hardware.TimerExpire | hardware.py:121-132 | outside Running, or with the timer cancelled or not yet due, the callback does nothing. A due one is used up first, then the pump is switched off and the watch removed, giving Idle with every device off except the warn light, which is untouched. Nothing is armed over a pending timer or watch |
| Hardware.Step | hardware.py:182-186 | only a `Pin` event changes the pin. `stop` always ends Idle. `start` outside Idle changes nothing. The pump is switched on only by `start` in Idle or a refill in Waiting. A timer fires only on `Expire` |
| Hardware.StepPreservesInv | hardware.py:114-169 | every transition keeps: pump on ⇔ Running, warn ⇔ Waiting, RISING watch ⇔ Running, FALLING watch ⇔ Waiting, no watch ⇔ Idle, timer pending ⇔ Running (due at start+seconds), Running ⇒ water, Waiting ⇒ empty. No timer or watch is armed over a pending one |
| Hardware.PumpOnlyOnWithWater | hardware.py:94-98 | in the model, where an edge is handled when it occurs: the pump is switched on, and stays on, only while the float switch reports water |
| Hardware.StartWhenEmpty | hardware.py:94-100 | `start` in Idle with an empty tank leaves the machine identical and emits nothing |
| Hardware.StartWithWater | hardware.py:94-124 | `start(s)` in Idle at t with water gives Running(s, t), the pump on, one timer due at t+s, the RISING watch, the warn light off |
| Hardware.StopAndExpiryConverge | hardware.py:126-143 | `stop` in Running and the timer firing reach the same machine: Idle, pump off, no watch, no timer |
| Hardware.EmptyWhileRunning | hardware.py:134-143 | the tank running dry in Running emits, in order: cancel timer, pump off, remove watch, warn on, FALLING watch. The state becomes Waiting(s − (t − start)) |
| Hardware.RefillWhileWaiting | hardware.py:158-161 | a refill in Waiting(r) at t first removes the watch and switches the warn light off, then gives Running(r, t) with the timer at t+r |
| Hardware.StopWhileWaiting | hardware.py:163-166 | `stop` in Waiting gives Idle with every device off and never switches the pump on |
| Hardware.NoOpTransitions | hardware.py:78-82 | `start` in Running (the inherited default) or in Waiting (which only logs, hardware.py:168-169), and `stop` in Idle, leave the machine unchanged and emit nothing |
| Hardware.RunningSuspendsExactlyOnEmptying | hardware.py:122-124 | in Running, a pin change suspends the run if and only if the tank goes from water to empty |
| Hardware.WaitingResumesExactlyOnRefill | hardware.py:154-156 | in Waiting, a pin change resumes the run if and only if the tank goes from empty to water |
| Hardware.ExpiryAndEmptyExclusive | hardware.py:126-143 | in the model, where an edge is handled at the moment it is delivered: after the timer fires, a dry-tank edge does nothing; after a dry-tank edge, the cancelled timer does nothing. Never both |
| HardwareRun.RunPreservesInv | hardware.py:182-186 | in the model, where an edge is handled when it occurs: any sequence of `start`/`stop`/timer/pin events keeps the invariant and never leaves the pump on without water |
| HardwareRun.SuspendResumeLedger | hardware.py:134-161 | over any number of suspensions and resumptions, the pump-on time spent plus the time still owed equals the time owed at the start |
| HardwareRun.ExpiryLedger | hardware.py:130-132 | the timer firing in Running(s, t0) at t ≥ t0+s closes an on-interval of s plus the lateness |
| HardwareRun.TotalRunTime | hardware.py:115-161 | `start(S)` with water, then any float-switch changes, then the timer firing: the pump is on for exactly S in total, plus the timer's lateness |
| HardwareRun.Scenario | hardware.py:115-161 | start(10) at 0, dry at 4, refill at 9, timer at 15: Waiting(6), then Running(6, 9) with the timer at 15, then Idle, with the pump on for 10 in total |
| Water.Init | water.py:22-24 | the pump starts Stopped, not running, with no timer; the invariant holds |
| Water.CreateTimer | water.py:86-87 | with a duration, the only device change is a timer pending at now+s, and exactly one `ArmTimer` is emitted. With no duration, nothing changes and nothing is emitted |
| Water.TimerExpire | water.py:94-98 | unless the pump is timed and its timer is pending and due, nothing happens. A due one is used up first, then deactivates exactly once and never activates, giving Stopped, inactive, with no timer |
| Water.Step | water.py:39-43 | only `start` on a stopped pump activates, and then exactly once. No event deactivates more than once, and a deactivation leaves the pump inactive and is never caused by `start`. `stop` always ends Stopped. `start` on an untimed running pump changes nothing |
| Water.StoppedStart | water.py:104-116 | `start` on a stopped pump activates once, and never deactivates. With no duration it becomes Started with no new timer. With duration s it becomes StartedTimer with the timer due at now+s |
| Water.TimerRestart | water.py:78-80 | `start` on a timed pump first cancels the old timer and then arms the new one. It does not activate or deactivate, and the pump stays StartedTimer. With no duration, no timer is left pending |
| Water.Kill | water.py:65-67 | `_kill` deactivates exactly once and stops the pump |
| Water.TimerStop | water.py:82-84 | `stop` on a timed pump first cancels the timer, then deactivates exactly once; it ends Stopped with no timer |
| Water.StepPreservesInv | water.py:50-116 | every event keeps active ⇔ running, and a timer only on a timed pump. No event activates an active pump, deactivates an inactive one, or arms a timer while one is pending |
| Water.StartUntimed | water.py:108-116 | `start(None)` on a stopped pump emits exactly one `activate` and gives Started, active, with no timer |
| Water.StartTimed | water.py:104-116 | `start(s)` on a stopped pump emits one `activate` and gives StartedTimer, active, with exactly one timer due at now+s |
| Water.StartWhileStartedIsNoOp | water.py:54-55 | `start` on an untimed running pump changes nothing |
| Water.RestartReplacesTimer | water.py:78-80 | `start(s2)` on a timed pump emits exactly cancel then arm(now+s2). The pump stays StartedTimer and active |
| Water.StopStops | water.py:57-70 | `stop` always ends Stopped with no timer. It deactivates exactly once if the pump was running and not at all otherwise, and never activates |
| Water.ExpiryStops | water.py:86-101 | a due timer is used up, then deactivates the pump exactly once and stops it |
| Water.NoEarlyOrCancelledExpiry | water.py:96-101 | a timer that is not yet due, or was cancelled, does nothing |
| Water.RunAlternates | water.py:39-43 | over any run, activations and deactivations strictly alternate, and the final active flag is what they leave |
| Water.ActivationBalance | water.py:39-47 | over any run, activations minus deactivations is the change in `is_running` |
| Water.StopTwice | water.py:57-70 | two `stop` calls deactivate exactly once if the pump was running, and never otherwise |
| Water.RestartMovesExpiry | water.py:73-101 | after start(s1) at t1 and start(s2) at t2, the timer stops the pump at t if and only if t ≥ t2+s2, whatever s1 was. It then deactivates exactly once, and the pump was activated exactly once |

## Left out

- GPIO and Automation HAT calls (`GPIO.setup/input/add_event_detect/remove_event_detect`, relay and light writes, the `is_automation_hat` check) are foreign hardware calls. They appear only as effect tokens. The model assumes that the relay and the warn light start off, because the code never initialises them.
- The 500 ms `bouncetime` debounce is enforced by the GPIO library, not by this code. Every pin change is delivered.
- asyncio mechanics (`call_later`, `call_soon_threadsafe`, `ensure_future`, `await`) are modelled as one sequential event sequence. The event loop serialises the callbacks.
- Concurrency races are left out for the same reason:
  - a float-switch callback already queued by `call_soon_threadsafe` still runs against the state object that armed it, even after that state has been left;
  - `PumpStopped.start` awaits `activate` before it changes state.
- Hardware.ExpiryAndEmptyExclusive: "never both" holds only because the model handles an edge at the moment it is delivered. In hardware.py the GPIO callback only queues `_empty` of the Running state that armed the watch (hardware.py:124). If the timer's `_normal_stop` runs first (hardware.py:130-132), the queued `_empty` still runs: it switches the pump off, removes the watch, switches the warn light on and moves Idle to Waiting (hardware.py:134-139). In the same way, a queued `_refilled` (hardware.py:156, 158-161) can run after `stop` in Waiting and switch the pump on after the user stopped it. Neither sequence is modelled.
- Hardware.PumpOnlyOnWithWater: "only with water" holds only because the model handles an edge at the moment it occurs. In hardware.py the FALLING callback only queues `_refilled` (hardware.py:156), and `_refilled` does not read the switch again. Suppose the tank empties again before the queued `_refilled` runs. `RunningState.__init__` then switches the pump on (hardware.py:118) and arms the RISING watch (hardware.py:122-124) on an empty tank. The rising edge came while only the FALLING watch was armed, so no `_empty` follows, and the pump runs dry until the timer fires. The same gap applies to HardwareRun.RunPreservesInv's "never leaves the pump on without water". This sequence is not modelled.
- The Idle blink cycle (hardware.py:92, 96-97, 102-108) is presentation only. This includes switching the power light off when leaving Idle.
- `loop.time()` returns a float. The model uses an integer clock.
- Hardware.IdleStart: `start(None)` is not modelled. In hardware.py, `call_later(None, …)` raises after the pump has already been switched on, which leaves the controller undefined.
- Water.TimerRestart: `start(None)` on a timed pump is modelled as cancelling the timer and arming none. `asyncio.sleep(None)` raises inside the new timer task, so that task never calls back.
- `FloatSwitch` in water.py:6-19 has the same polarity as `Sensor`, and only app.py uses it.
- app.py (socket.io and aiohttp plumbing, which calls `Pump` with arguments that `water.Pump` does not accept), log_utils.py (logging) and test/test_hardware.py (a manual run script) are not part of this model.
- Logging and `__str__` have no effect on behaviour.
