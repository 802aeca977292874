/** Sequences of events delivered to the sprinkler controller, the time-stamped
    log of the hardware effects they cause, and how long the pump runs.

    The event loop serialises every callback, so a run of the controller is a
    sequence of events, each at its own clock value, applied one after the
    other. The trace here keeps a time-stamped log, because the pump-on time
    is measured from it; the `water.py` pump's trace keeps plain effects. */
module HardwareRun {
  import opened Options
  import opened Sensor
  import opened Hardware

  datatype Timed = Timed(event: Event, at: int)

  datatype Stamped = Stamped(effect: Effect, at: int)

  datatype Trace = Trace(final: Machine, log: seq<Stamped>)

  /** The effects of one transition, all made at clock value `t`. */
  function Stamp(es: seq<Effect>, t: int): (r: seq<Stamped>)
    ensures |r| == |es|
    decreases |es|
  {
    if |es| == 0 then [] else [Stamped(es[0], t)] + Stamp(es[1..], t)
  }

  /** Deliver `evs` in order, starting from `m`. */
  function Run(m: Machine, evs: seq<Timed>): Trace
    decreases |evs|
  {
    if |evs| == 0 then Trace(m, [])
    else
      var o := Step(m, evs[0].event, evs[0].at);
      var rest := Run(o.next, evs[1..]);
      Trace(rest.final, Stamp(o.effects, evs[0].at) + rest.log)
  }

  /** Every run from a consistent controller ends consistent, and the pump
      is then only on while the tank has water. */
  lemma {:induction false} RunPreservesInv(m: Machine, evs: seq<Timed>)
    requires Inv(m)
    ensures Inv(Run(m, evs).final)
    ensures Run(m, evs).final.dev.pump ==> IsHigh(Run(m, evs).final.pin)
    decreases |evs|
  {
    if |evs| > 0 {
      StepPreservesInv(m, evs[0].event, evs[0].at);
      RunPreservesInv(Step(m, evs[0].event, evs[0].at).next, evs[1..]);
    }
  }

  // ---------------------------------------------------------------------
  // Pump-on time
  // ---------------------------------------------------------------------

  /** Accumulated pump-on time of the closed on-intervals of a log, and the
      clock value since which the pump is on, if it still is. */
  datatype Meter = Meter(total: int, since: Option<int>)

  /** Read one log entry: `PumpOn` opens an interval unless one is open,
      `PumpOff` closes the open interval, if any, and adds its length. */
  function Tick(s: Stamped, since: Option<int>): Meter
  {
    match s.effect
    case PumpOn => Meter(0, if since.None? then Some(s.at) else since)
    case PumpOff => Meter(if since.Some? then s.at - since.value else 0, None)
    case _ => Meter(0, since)
  }

  function Measure(log: seq<Stamped>, since: Option<int>): Meter
    decreases |log|
  {
    if |log| == 0 then Meter(0, since)
    else
      var first := Tick(log[0], since);
      var rest := Measure(log[1..], first.since);
      Meter(first.total + rest.total, rest.since)
  }

  /** Measuring a log in two pieces gives the same result as measuring it in
      one. */
  lemma {:induction false} MeasureAppend(a: seq<Stamped>, b: seq<Stamped>, since: Option<int>)
    ensures Measure(a + b, since).total ==
            Measure(a, since).total + Measure(b, Measure(a, since).since).total
    ensures Measure(a + b, since).since == Measure(b, Measure(a, since).since).since
    decreases |a|
  {
    if |a| > 0 {
      assert (a + b)[0] == a[0];
      assert (a + b)[1..] == a[1..] + b;
      MeasureAppend(a[1..], b, Tick(a[0], since).since);
    } else {
      assert a + b == b;
    }
  }

  /** Effects made at one instant: an open interval is closed at that instant
      if the pump is switched off, and an interval is opened at that instant
      if the pump is switched on while off. */
  lemma {:induction false} MeasureInstant(es: seq<Effect>, t: int, since: Option<int>)
    ensures Measure(Stamp(es, t), since).total ==
            (if since.Some? && PumpOff in es then t - since.value else 0)
    ensures PumpOn !in es ==>
            Measure(Stamp(es, t), since).since == (if PumpOff in es then None else since)
    ensures PumpOff !in es ==>
            Measure(Stamp(es, t), since).since == (if PumpOn in es && since.None? then Some(t) else since)
    decreases |es|
  {
    if |es| > 0 {
      var log := Stamp(es, t);
      assert log[0] == Stamped(es[0], t);
      assert log[1..] == Stamp(es[1..], t);
      assert es == [es[0]] + es[1..];
      MeasureInstant(es[1..], t, Tick(log[0], since).since);
    }
  }

  /** The run time a state still owes: the full duration of the current
      Running interval, or the remaining time carried by Waiting. */
  function Owed(s: State): int
  {
    match s
    case Idle => 0
    case Running(seconds, _) => seconds
    case Waiting(remaining) => remaining
  }

  /** The clock value since which the pump has been on. */
  function OnSince(m: Machine): Option<int>
  {
    if m.state.Running? then Some(m.state.startTime) else None
  }

  /** One float-switch change in Running or Waiting: the pump-on time it
      closes plus what the next state owes equals what the previous state
      owed. */
  lemma PinStepLedger(m: Machine, level: bool, t: int)
    requires Inv(m) && !m.state.Idle?
    ensures var o := Step(m, Pin(level), t);
      var meter := Measure(Stamp(o.effects, t), OnSince(m));
      && !o.next.state.Idle?
      && meter.total + Owed(o.next.state) == Owed(m.state)
      && meter.since == OnSince(o.next)
  {
    var o := Step(m, Pin(level), t);
    MeasureInstant(o.effects, t, OnSince(m));
  }

  /** Any number of suspensions and resumptions, in any order and at any
      times, preserve the run time owed: the pump-on time spent so far plus
      what the current state owes is what the starting state owed. */
  lemma {:induction false} SuspendResumeLedger(m: Machine, evs: seq<Timed>)
    requires Inv(m) && !m.state.Idle?
    requires forall i :: 0 <= i < |evs| ==> evs[i].event.Pin?
    ensures var tr := Run(m, evs);
      var meter := Measure(tr.log, OnSince(m));
      && Inv(tr.final) && !tr.final.state.Idle?
      && meter.total + Owed(tr.final.state) == Owed(m.state)
      && meter.since == OnSince(tr.final)
    decreases |evs|
  {
    if |evs| > 0 {
      var ev := evs[0];
      var o := Step(m, ev.event, ev.at);
      PinStepLedger(m, ev.event.level, ev.at);
      StepPreservesInv(m, ev.event, ev.at);
      SuspendResumeLedger(o.next, evs[1..]);
      MeasureAppend(Stamp(o.effects, ev.at), Run(o.next, evs[1..]).log, OnSince(m));
    }
  }

  /** The run timer firing at clock value `t` closes the last on-interval. */
  lemma ExpiryLedger(m: Machine, t: int)
    requires Inv(m) && m.state.Running?
    requires m.state.startTime + m.state.seconds <= t
    ensures var o := Step(m, Expire, t);
      var meter := Measure(Stamp(o.effects, t), OnSince(m));
      && o.next.state.Idle?
      && meter.total == m.state.seconds + (t - (m.state.startTime + m.state.seconds))
      && meter.since.None?
  {
    var o := Step(m, Expire, t);
    MeasureInstant(o.effects, t, OnSince(m));
  }

  /** `start(S)` with water, then any float-switch changes, then the run
      timer firing at clock value `tEnd`: the pump has been on for exactly S
      in total, plus however late the timer fired after its deadline. A run
      is never extended by its interruptions. */
  lemma {:induction false} TotalRunTime(pin: bool, seconds: int, t0: int, pins: seq<Timed>, tEnd: int)
    requires IsHigh(pin)
    requires forall i :: 0 <= i < |pins| ==> pins[i].event.Pin?
    requires var a := Run(Init(pin), [Timed(Start(seconds), t0)] + pins);
      a.final.state.Running? && a.final.state.startTime + a.final.state.seconds <= tEnd
    ensures var a := Run(Init(pin), [Timed(Start(seconds), t0)] + pins);
      var b := Run(a.final, [Timed(Expire, tEnd)]);
      var deadline := a.final.state.startTime + a.final.state.seconds;
      && b.final.state.Idle?
      && Measure(a.log + b.log, None).total == seconds + (tEnd - deadline)
      && Measure(a.log + b.log, None).since.None?
  {
    var m0 := Init(pin);
    var evs := [Timed(Start(seconds), t0)] + pins;
    assert evs[1..] == pins;
    var o := Step(m0, Start(seconds), t0);
    assert o.next.state == Running(seconds, t0);
    StepPreservesInv(m0, Start(seconds), t0);
    var a := Run(m0, evs);
    assert a.log == Stamp(o.effects, t0) + Run(o.next, pins).log;
    MeasureInstant(o.effects, t0, None);
    SuspendResumeLedger(o.next, pins);
    MeasureAppend(Stamp(o.effects, t0), Run(o.next, pins).log, None);
    var e := Step(a.final, Expire, tEnd);
    ExpiryLedger(a.final, tEnd);
    var last := [Timed(Expire, tEnd)];
    assert last[1..] == [];
    var b := Run(a.final, last);
    assert Run(e.next, last[1..]) == Trace(e.next, []);
    assert b.log == Stamp(e.effects, tEnd) + [];
    assert b.log == Stamp(e.effects, tEnd);
    MeasureAppend(a.log, b.log, None);
  }

  /** The worked scenario: start(10) at 0 with water, the tank runs dry at 4,
      is refilled at 9, and the run timer fires at 15. The pump is on from 0
      to 4 and from 9 to 15, 10 seconds in all. */
  lemma {:induction false} Scenario()
    ensures var evs := [Timed(Start(10), 0), Timed(Pin(true), 4), Timed(Pin(false), 9)];
      var a := Run(Init(false), evs);
      var b := Run(a.final, [Timed(Expire, 15)]);
      && Run(Init(false), evs[..2]).final.state == Waiting(6)
      && a.final.state == Running(6, 9)
      && a.final.dev.timer == Some(15)
      && b.final.state.Idle?
      && Measure(a.log + b.log, None).total == 10
  {
    var evs := [Timed(Start(10), 0), Timed(Pin(true), 4), Timed(Pin(false), 9)];
    var pins := evs[1..];
    assert [Timed(Start(10), 0)] + pins == evs;
    var m1 := Step(Init(false), Start(10), 0).next;
    var m2 := Step(m1, Pin(true), 4).next;
    assert m2.state == Waiting(6);
    var first2 := evs[..2];
    assert first2[1..] == [evs[1]];
    assert [evs[1]][1..] == [];
    assert Run(m1, first2[1..]).final == m2;
    assert Run(Init(false), first2).final == m2;
    var m3 := Step(m2, Pin(false), 9).next;
    assert m3.state == Running(6, 9);
    assert evs[1..][1..] == [evs[2]];
    assert Run(Init(false), evs).final == m3;
    TotalRunTime(false, 10, 0, pins, 15);
  }
}
