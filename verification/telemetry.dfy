/** The telemetry snapshot and the rolling buffer of soil-moisture samples
    (src/components/Dashboard.jsx, the `telemetry` and `miniHistory` state and
    the `onTelemetry` handler). */
module Telemetry {
  import opened Wrappers

  /** Number of soil-moisture samples kept for the sparkline (`.slice(-24)`). */
  const HistoryCapacity: nat := 24

  /** One telemetry record, as broadcast by the node and as held by the
      dashboard. Every field may be missing from a payload; `ts` is the local
      receipt time in milliseconds once the dashboard has stamped it.
      Temperatures and humidity are floats in the source and `real` here; the
      soil readings and the pump runtime are integers. */
  datatype Snapshot = Snapshot(
    soilRaw: Option<int>,
    soilPct: Option<int>,
    soilTemp: Option<real>,
    airTemp: Option<real>,
    humidity: Option<real>,
    pumpOn: Option<bool>,
    manual: Option<bool>,
    pumpLife: Option<int>,
    ts: Option<int>)

  /** The state the component starts with, before any message has arrived. */
  const InitialSnapshot: Snapshot := Snapshot(
    soilRaw := Some(0),
    soilPct := Some(0),
    soilTemp := None,
    airTemp := None,
    humidity := None,
    pumpOn := Some(false),
    manual := Some(false),
    pumpLife := Some(0),
    ts := None)

  /** `{ ...payload, ts: now }`: the new snapshot is the payload with its `ts`
      replaced by the receipt time. Nothing of the previous snapshot enters. */
  function Stamp(payload: Snapshot, now: int): (r: Snapshot)
    ensures r.ts == Some(now)
    ensures r.(ts := payload.ts) == payload
  {
    payload.(ts := Some(now))
  }

  /** The sample appended to the sparkline buffer: `payload.soil_pct ?? 0`. */
  function HistoryValue(payload: Snapshot): int
  {
    payload.soilPct.GetOr(0)
  }

  /** A present reading, 0 included, is appended as it is; 0 stands in only for
      a missing one, so the sample is 0 exactly when the reading is 0 or absent. */
  lemma HistoryValueIsReading(payload: Snapshot)
    ensures payload.soilPct.Some? ==> HistoryValue(payload) == payload.soilPct.value
    ensures HistoryValue(payload) == 0 <==> payload.soilPct in {None, Some(0)}
  {
  }

  /** `Array.prototype.slice(start)` with one argument: a negative start
      counts from the end and is clamped at 0, a start past the end gives []. */
  function SliceFrom<T>(s: seq<T>, start: int): (r: seq<T>)
    ensures |r| == if start < 0 then (if -start < |s| then -start else |s|)
                   else (if start < |s| then |s| - start else 0)
    ensures r == s[|s| - |r|..]
  {
    var k := if start < 0 then (if |s| + start < 0 then 0 else |s| + start)
             else (if start < |s| then start else |s|);
    s[k..]
  }

  /** The last `n` elements of `s` (all of `s` when it is shorter), oldest first. */
  function LastN<T>(s: seq<T>, n: nat): seq<T>
  {
    if |s| <= n then s else s[|s| - n..]
  }

  /** `[...prev, v].slice(-24)`: the buffer update on each telemetry message. */
  function AppendCapped(prev: seq<int>, v: int): (r: seq<int>)
    ensures |r| == if |prev| < HistoryCapacity then |prev| + 1 else HistoryCapacity
    ensures r[|r| - 1] == v
    ensures r == (prev + [v])[|prev| + 1 - |r|..]
  {
    SliceFrom(prev + [v], -(HistoryCapacity as int))
  }

  /** The capped append keeps the last 24 of everything appended so far: if the
      buffer held the last `n` samples of `log`, it then holds the last `n` of
      `log + [v]`. */
  lemma LastNAppend<T>(log: seq<T>, v: T, n: nat)
    ensures LastN(LastN(log, n) + [v], n) == LastN(log + [v], n)
  {
  }

  lemma AppendCappedIsLastN(prev: seq<int>, v: int)
    ensures AppendCapped(prev, v) == LastN(prev + [v], HistoryCapacity)
  {
  }
}
