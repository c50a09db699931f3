/** The dashboard's synchronisation state and its event handlers
    (src/components/Dashboard.jsx: the `useState` hooks, `onConnect`,
    `onDisconnect`, `onTelemetry` and `loadCharts`). `Step` and `Run` give the
    state after one event and after a sequence of events; the `Dashboard`
    class keeps that state in fields that its handlers update, proved against
    `Step`. */
module Synchronizer {
  import opened Wrappers
  import opened Telemetry
  import opened Charts

  /** The component's state hooks. */
  datatype View = View(
    connected: bool,
    telemetry: Snapshot,
    miniHistory: seq<int>,
    charts24h: seq<ChartRecord>,
    loadingCharts: bool)

  /** The state of a freshly mounted dashboard. */
  const InitialView: View := View(
    connected := false,
    telemetry := InitialSnapshot,
    miniHistory := [],
    charts24h := [],
    loadingCharts := true)

  /** What can happen to the dashboard. `TelemetryReceived` stands for both
      `telemetry:init` and `telemetry:update`, which share one handler; `now`
      is the value of `Date.now()` at receipt. `ChartsSettled` is the end of
      `loadCharts`, with `toTime` standing for `new Date(...).getTime()`. */
  datatype Event =
    | Connected
    | Disconnected
    | TelemetryReceived(payload: Snapshot, now: int)
    | ChartsSettled(outcome: FetchOutcome, toTime: Option<Field> -> Field)

  /** The state after one event. Connection events touch only `connected`,
      telemetry only the snapshot and buffer, a chart load only the series
      and the loading flag; the buffer stays within its capacity. */
  function Step(v: View, e: Event): (r: View)
    ensures r.connected == if e.Connected? then true else if e.Disconnected? then false else v.connected
    ensures !e.TelemetryReceived? ==> r.telemetry == v.telemetry && r.miniHistory == v.miniHistory
    ensures e.TelemetryReceived? ==> r.telemetry.ts == Some(e.now)
    ensures !e.ChartsSettled? ==> r.charts24h == v.charts24h && r.loadingCharts == v.loadingCharts
    ensures e.ChartsSettled? ==> !r.loadingCharts
    ensures e.ChartsSettled? && e.outcome.FetchFailed? ==> r.charts24h == v.charts24h
    ensures |v.miniHistory| <= HistoryCapacity ==> |r.miniHistory| <= HistoryCapacity
  {
    match e
    case Connected => v.(connected := true)
    case Disconnected => v.(connected := false)
    case TelemetryReceived(payload, now) =>
      v.(telemetry := Stamp(payload, now),
         miniHistory := AppendCapped(v.miniHistory, HistoryValue(payload)))
    case ChartsSettled(outcome, toTime) =>
      v.(charts24h := if outcome.Fetched? then StampAll(outcome.data, toTime) else v.charts24h,
         loadingCharts := false)
  }

  /** The state after the events, handled in arrival order. The buffer
      never outgrows its capacity and the loading flag, once cleared, stays
      cleared. */
  function Run(v: View, events: seq<Event>): (r: View)
    ensures |v.miniHistory| <= HistoryCapacity ==> |r.miniHistory| <= HistoryCapacity
    ensures !v.loadingCharts ==> !r.loadingCharts
    decreases |events|
  {
    if events == [] then v else Step(Run(v, events[..|events| - 1]), events[|events| - 1])
  }

  /** The number of telemetry messages among the events. */
  function MessageCount(events: seq<Event>): nat
    decreases |events|
  {
    if events == [] then 0
    else MessageCount(events[..|events| - 1]) + (if events[|events| - 1].TelemetryReceived? then 1 else 0)
  }

  /** The soil samples the messages carry, oldest first. */
  function SoilSamples(events: seq<Event>): seq<int>
    decreases |events|
  {
    if events == [] then []
    else
      var last := events[|events| - 1];
      SoilSamples(events[..|events| - 1]) + (if last.TelemetryReceived? then [HistoryValue(last.payload)] else [])
  }

  /** The connection flag the last connection event set, if there was one. */
  function LastConnection(events: seq<Event>): Option<bool>
    decreases |events|
  {
    if events == [] then None
    else
      var last := events[|events| - 1];
      if last.Connected? then Some(true)
      else if last.Disconnected? then Some(false)
      else LastConnection(events[..|events| - 1])
  }

  /** The last message received, stamped with its receipt time, if there was one. */
  function LastSnapshot(events: seq<Event>): Option<Snapshot>
    decreases |events|
  {
    if events == [] then None
    else
      var last := events[|events| - 1];
      if last.TelemetryReceived? then Some(Stamp(last.payload, last.now))
      else LastSnapshot(events[..|events| - 1])
  }

  /** The series of the last successful chart load, if there was one. */
  function LastSeries(events: seq<Event>): Option<seq<ChartRecord>>
    decreases |events|
  {
    if events == [] then None
    else
      var last := events[|events| - 1];
      if last.ChartsSettled? && last.outcome.Fetched? then Some(StampAll(last.outcome.data, last.toTime))
      else LastSeries(events[..|events| - 1])
  }

  /** Some chart load settled, successfully or not. */
  predicate AnySettled(events: seq<Event>)
  {
    exists i :: 0 <= i < |events| && events[i].ChartsSettled?
  }

  lemma {:induction false} SoilSamplesCount(events: seq<Event>)
    ensures |SoilSamples(events)| == MessageCount(events)
  {
    if events != [] {
      SoilSamplesCount(events[..|events| - 1]);
    }
  }

  /** The buffer holds the last 24 samples of everything it held and received:
      oldest first, newest last, nothing older kept. */
  lemma {:induction false} RunHistory(v: View, events: seq<Event>)
    requires |v.miniHistory| <= HistoryCapacity
    ensures Run(v, events).miniHistory == LastN(v.miniHistory + SoilSamples(events), HistoryCapacity)
  {
    if events == [] {
      assert v.miniHistory + [] == v.miniHistory;
    } else {
      var init, last := events[..|events| - 1], events[|events| - 1];
      var before := Run(v, init);
      assert Run(v, events) == Step(before, last);
      RunHistory(v, init);
      if last.TelemetryReceived? {
        var x := HistoryValue(last.payload);
        assert Run(v, events).miniHistory == AppendCapped(before.miniHistory, x);
        AppendCappedIsLastN(before.miniHistory, x);
        LastNAppend(v.miniHistory + SoilSamples(init), x, HistoryCapacity);
        assert SoilSamples(events) == SoilSamples(init) + [x];
        assert v.miniHistory + SoilSamples(events) == v.miniHistory + SoilSamples(init) + [x];
      } else {
        assert Run(v, events).miniHistory == before.miniHistory;
        assert SoilSamples(events) == SoilSamples(init);
        assert SoilSamples(events) == SoilSamples(init) + [];
      }
    }
  }

  /** From a fresh mount, the buffer length is min(24, messages received) and
      its last entry is the sample of the newest message. */
  lemma HistoryFromMount(events: seq<Event>)
    ensures var h := Run(InitialView, events).miniHistory;
      && h == LastN(SoilSamples(events), HistoryCapacity)
      && |h| == (if MessageCount(events) < HistoryCapacity then MessageCount(events) else HistoryCapacity)
      && (SoilSamples(events) != [] ==> h[|h| - 1] == SoilSamples(events)[|SoilSamples(events)| - 1])
  {
    RunHistory(InitialView, events);
    assert [] + SoilSamples(events) == SoilSamples(events);
    SoilSamplesCount(events);
  }

  /** `connected` is what the last connection event set, whatever telemetry
      or chart events came in between. */
  lemma {:induction false} RunConnected(v: View, events: seq<Event>)
    ensures Run(v, events).connected == LastConnection(events).GetOr(v.connected)
  {
    if events != [] {
      RunConnected(v, events[..|events| - 1]);
    }
  }

  /** The snapshot is the last message, stamped, and nothing of what was shown
      before it; connection and chart events leave it alone. */
  lemma {:induction false} RunSnapshot(v: View, events: seq<Event>)
    ensures Run(v, events).telemetry == LastSnapshot(events).GetOr(v.telemetry)
  {
    if events != [] {
      RunSnapshot(v, events[..|events| - 1]);
    }
  }

  /** The series is that of the last successful load (a failed load leaves it
      as it was), and the loading flag is cleared once any load has settled. */
  lemma {:induction false} RunCharts(v: View, events: seq<Event>)
    ensures Run(v, events).charts24h == LastSeries(events).GetOr(v.charts24h)
    ensures Run(v, events).loadingCharts == (v.loadingCharts && !AnySettled(events))
  {
    if events != [] {
      var init := events[..|events| - 1];
      RunCharts(v, init);
      assert AnySettled(events) <==> AnySettled(init) || events[|events| - 1].ChartsSettled? by {
        if AnySettled(init) {
          var i :| 0 <= i < |init| && init[i].ChartsSettled?;
          assert events[i] == init[i];
        }
        if AnySettled(events) && !events[|events| - 1].ChartsSettled? {
          var i :| 0 <= i < |events| && events[i].ChartsSettled?;
          assert init[i] == events[i];
        }
      }
    }
  }

  /** The state after one telemetry message, spelled out. */
  lemma StepTelemetry(v: View, payload: Snapshot, now: int)
    ensures Step(v, TelemetryReceived(payload, now))
      == v.(telemetry := Stamp(payload, now),
            miniHistory := AppendCapped(v.miniHistory, HistoryValue(payload)))
  {
  }

  /** The mounted dashboard. Its fields are the state hooks; `soilLog` (ghost)
      records every sample appended since mount. */
  class Dashboard {
    var connected: bool
    var telemetry: Snapshot
    var miniHistory: seq<int>
    var charts24h: seq<ChartRecord>
    var loadingCharts: bool
    ghost var soilLog: seq<int>

    /** The buffer is the last 24 samples of everything received. */
    ghost predicate Valid()
      reads this
    {
      miniHistory == LastN(soilLog, HistoryCapacity)
    }

    function Current(): View
      reads this
    {
      View(connected, telemetry, miniHistory, charts24h, loadingCharts)
    }

    /** The `useState` initial values. */
    constructor ()
      ensures Valid() && soilLog == []
      ensures Current() == InitialView
      ensures !connected && telemetry.ts.None? && miniHistory == [] && charts24h == [] && loadingCharts
    {
      connected := false;
      telemetry := InitialSnapshot;
      miniHistory := [];
      charts24h := [];
      loadingCharts := true;
      soilLog := [];
    }

    /** `onConnect`: set the flag, nothing else. */
    method OnConnect()
      requires Valid()
      modifies this
      ensures Valid() && soilLog == old(soilLog)
      ensures Current() == old(Current()).(connected := true)
      ensures Current() == Step(old(Current()), Connected)
    {
      connected := true;
    }

    /** `onDisconnect`: clear the flag, nothing else. */
    method OnDisconnect()
      requires Valid()
      modifies this
      ensures Valid() && soilLog == old(soilLog)
      ensures Current() == old(Current()).(connected := false)
      ensures Current() == Step(old(Current()), Disconnected)
    {
      connected := false;
    }

    /** `onTelemetry`: replace the snapshot by the stamped payload and append
        its soil sample to the capped buffer. */
    method OnTelemetry(payload: Snapshot, now: int)
      requires Valid()
      modifies this
      ensures Valid() && soilLog == old(soilLog) + [HistoryValue(payload)]
      ensures telemetry == Stamp(payload, now)
      ensures miniHistory == AppendCapped(old(miniHistory), HistoryValue(payload))
      ensures connected == old(connected) && charts24h == old(charts24h) && loadingCharts == old(loadingCharts)
      ensures Current() == Step(old(Current()), TelemetryReceived(payload, now))
    {
      ghost var before := Current();
      telemetry := Stamp(payload, now);
      var sample := HistoryValue(payload);
      AppendCappedIsLastN(miniHistory, sample);
      miniHistory := AppendCapped(miniHistory, sample);
      LastNAppend(soilLog, sample, HistoryCapacity);
      soilLog := soilLog + [sample];
      StepTelemetry(before, payload, now);
    }

    /** `loadCharts` once its fetch has settled: on success replace the series
        by the stamped records, on failure keep it; either way (`finally`)
        clear the loading flag. */
    method LoadCharts(outcome: FetchOutcome, toTime: Option<Field> -> Field)
      requires Valid()
      modifies this
      ensures Valid() && soilLog == old(soilLog)
      ensures !loadingCharts
      ensures outcome.Fetched? ==> charts24h == StampAll(outcome.data, toTime)
      ensures outcome.FetchFailed? ==> charts24h == old(charts24h)
      ensures connected == old(connected) && telemetry == old(telemetry) && miniHistory == old(miniHistory)
      ensures Current() == Step(old(Current()), ChartsSettled(outcome, toTime))
    {
      match outcome {
        case Fetched(data) =>
          charts24h := StampAll(data, toTime);
        case FetchFailed =>
      }
      loadingCharts := false;
    }
  }
}
