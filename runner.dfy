/**
 * The loop of `runRunner` (data_handler.go:560-595) as a step function over
 * abstract events: a property tick, an event tick, or a value received from
 * the device's control mailbox. Real tickers and goroutines are replaced by
 * the sequence of events the `select` picks, and `IsConnected()` by a
 * boolean that comes with each event.
 */
module Runner {
  import opened JsonValue
  import opened Telemetry

  /** How `runRunner` starts (data_handler.go:561-562): `time.NewTicker` panics unless the period is positive. */
  datatype RunnerStart = StartPanics | Started(period: Int32)

  /** `currentInterval := d.Interval` followed by the property ticker's creation. */
  function StartRunner(s: DeviceState): (r: RunnerStart)
    ensures r.Started? <==> s.interval > 0
    ensures r.Started? ==> r.period == s.interval
  {
    if s.interval > 0 then Started(s.interval) else StartPanics
  }

  /** A fresh device starts its runner with the 10-second period. */
  lemma FreshDeviceStarts()
    ensures StartRunner(InitialState) == Started(10)
  {
  }

  /** A property set of a non-positive interval that lands before the runner reads `d.Interval` makes the start panic. */
  lemma SetBeforeStartPanics(s: DeviceState, v: int)
    requires -0x8000_0000 <= v <= 0
    ensures StartRunner(ApplySet(s, map["interval" := JNum(v)])) == StartPanics
  {
    ApplySetFields(s, map["interval" := JNum(v)]);
  }

  datatype Event = PropertyTick | EventTick | Control(v: Int32)

  /** What a step asks the device to publish. */
  datatype Action =
    | Idle
    | ReportProperties   // `d.postDeviceProperty(false)`
    | ReportEvent        // `d.postDeviceEvent("alarm")`

  /** The property period after receiving `v` (data_handler.go:586-592). */
  function NextPeriod(current: Int32, v: Int32): (p: Int32)
    ensures p != current <==> v > 0 && v != current
    ensures p == current || p == v
  {
    if v > 0 && v != current then v else current
  }

  /** What a tick publishes: nothing while disconnected; the tick is dropped, not queued. */
  function TickAction(connected: bool, e: Event): (a: Action)
    ensures a == ReportProperties <==> connected && e == PropertyTick
    ensures a == ReportEvent <==> connected && e == EventTick
    ensures a == Idle <==> !connected || e.Control?
  {
    if !connected then Idle
    else match e
      case PropertyTick => ReportProperties
      case EventTick => ReportEvent
      case Control(_) => Idle
  }

  /** One step of the loop: the period after it, and what it publishes. */
  function StepPeriod(period: Int32, e: Event): Int32 {
    if e.Control? then NextPeriod(period, e.v) else period
  }

  /** The period after a whole trace of events. */
  function FinalPeriod(period: Int32, trace: seq<(bool, Event)>): Int32
    decreases |trace|
  {
    if trace == [] then period else FinalPeriod(StepPeriod(period, trace[0].1), trace[1..])
  }

  /** The actions of a whole trace, one per event. */
  function Actions(trace: seq<(bool, Event)>): (actions: seq<Action>)
    ensures |actions| == |trace|
    ensures forall i :: 0 <= i < |trace| ==> actions[i] == TickAction(trace[i].0, trace[i].1)
  {
    if trace == [] then [] else [TickAction(trace[0].0, trace[0].1)] + Actions(trace[1..])
  }

  /** A positive period stays positive: `time.NewTicker` is never given a non-positive duration. */
  lemma {:induction false} PeriodStaysPositive(period: Int32, trace: seq<(bool, Event)>)
    requires period > 0
    ensures FinalPeriod(period, trace) > 0
    decreases |trace|
  {
    if trace != [] {
      PeriodStaysPositive(StepPeriod(period, trace[0].1), trace[1..]);
    }
  }

  /** The period after a trace is the starting one or one of the control values received. */
  lemma {:induction false} PeriodFromControls(period: Int32, trace: seq<(bool, Event)>)
    ensures var p := FinalPeriod(period, trace);
      p == period || exists i :: 0 <= i < |trace| && trace[i].1 == Control(p)
    decreases |trace|
  {
    if trace != [] {
      var next := StepPeriod(period, trace[0].1);
      PeriodFromControls(next, trace[1..]);
      var p := FinalPeriod(period, trace);
      if p != next {
        var i :| 0 <= i < |trace[1..]| && trace[1..][i].1 == Control(p);
        assert trace[i + 1].1 == Control(p);
      }
    }
  }

  /** Ticks never change the period, connected or not. */
  lemma {:induction false} TicksKeepPeriod(period: Int32, trace: seq<(bool, Event)>)
    requires forall i :: 0 <= i < |trace| ==> !trace[i].1.Control?
    ensures FinalPeriod(period, trace) == period
    decreases |trace|
  {
    if trace != [] {
      TicksKeepPeriod(period, trace[1..]);
    }
  }

  /** The runner's own state: `currentInterval`, the period of the property ticker. */
  class PeriodicRunner {
    var period: Int32

    /** The runner after a start that did not panic: `initial` is `StartRunner(...).period`. */
    constructor(initial: Int32)
      requires initial > 0
      ensures period == initial
    {
      period := initial;
    }

    /** One pass of the `for { select { ... } }` loop. */
    method Step(connected: bool, e: Event) returns (a: Action)
      modifies this
      ensures a == TickAction(connected, e)
      ensures period == StepPeriod(old(period), e)
    {
      a := Idle;
      match e {
        case PropertyTick =>
          if connected {
            a := ReportProperties;
          }
        case EventTick =>
          if connected {
            a := ReportEvent;
          }
        case Control(v) =>
          if v > 0 && v != period {
            period := v;
          }
      }
    }

    /** The loop run over a finite trace of selected events. */
    method Run(trace: seq<(bool, Event)>) returns (actions: seq<Action>)
      modifies this
      ensures actions == Actions(trace)
      ensures period == FinalPeriod(old(period), trace)
    {
      actions := [];
      var i := 0;
      while i < |trace|
        invariant 0 <= i <= |trace|
        invariant actions == Actions(trace[..i])
        invariant FinalPeriod(old(period), trace) == FinalPeriod(period, trace[i..])
      {
        var a := Step(trace[i].0, trace[i].1);
        assert trace[..i + 1] == trace[..i] + [trace[i]];
        ActionsAppend(trace[..i], trace[i]);
        actions := actions + [a];
        i := i + 1;
      }
    }
  }

  lemma ActionsAppend(trace: seq<(bool, Event)>, x: (bool, Event))
    ensures Actions(trace + [x]) == Actions(trace) + [TickAction(x.0, x.1)]
  {
  }
}
