/** The 24-hour chart series (src/components/Dashboard.jsx, `loadCharts`): the
    records fetched from `/api/charts/24h`, each given a `ts` parsed from its `timestamp`. */
module Charts {
  import opened Wrappers

  /** A JSON value inside a fetched record, nested arrays and objects included. */
  datatype Field =
    | Null
    | Bool(b: bool)
    | Number(n: real)
    | Text(s: string)
    | Array(items: seq<Field>)
    | Object(members: map<string, Field>)

  /** A fetched record: an object with arbitrary keys (`timestamp`,
      `soil_pct`, `soil_temp`, `humidity`, ...). */
  type ChartRecord = map<string, Field>

  /** How a fetch of the series ended: the parsed JSON array, or any failure
      of `fetch`, `res.json()` or the mapping (the `catch` branch). */
  datatype FetchOutcome = Fetched(data: seq<ChartRecord>) | FetchFailed

  /** `d.timestamp`, `None` when the record has no such key (`undefined`). */
  function Timestamp(d: ChartRecord): Option<Field>
  {
    if "timestamp" in d then Some(d["timestamp"]) else None
  }

  /** `{ ...d, ts: new Date(d.timestamp).getTime() }`; `toTime` stands for the
      date parsing, which is not modelled. Every key of the record survives
      with its value, and `ts` is added or overwritten. */
  function WithTs(d: ChartRecord, toTime: Option<Field> -> Field): (r: ChartRecord)
    ensures r.Keys == d.Keys + {"ts"}
    ensures forall k :: k in d && k != "ts" ==> r[k] == d[k]
    ensures r["ts"] == toTime(Timestamp(d))
  {
    d["ts" := toTime(Timestamp(d))]
  }

  /** `data.map(WithTs)`: same length, same order, each record stamped. */
  function StampAll(data: seq<ChartRecord>, toTime: Option<Field> -> Field): (r: seq<ChartRecord>)
    ensures |r| == |data|
    ensures forall i :: 0 <= i < |data| ==> r[i] == WithTs(data[i], toTime)
  {
    if data == [] then [] else [WithTs(data[0], toTime)] + StampAll(data[1..], toTime)
  }
}
