# Dashboard telemetry synchronisation, modelled in Dafny

This project models the client-side synchronisation layer of the AgriSmart farm dashboard
(`src/components/Dashboard.jsx`). A browser dashboard for one sensor node (soil moisture,
temperatures, humidity, irrigation pump relay):

- keeps one shared socket.io connection, created lazily by `getSocket`;
- on mount registers handlers for `connect`, `disconnect`, `telemetry:init` and
  `telemetry:update`, and removes exactly those on cleanup;
- on every telemetry message replaces its snapshot wholesale with the payload stamped with the
  local receipt time, and appends `soil_pct ?? 0` to a sparkline buffer capped at 24 samples;
- loads a 24-hour chart series once, giving every record a `ts` parsed from its `timestamp`, and clears its
  loading flag whether the load succeeds or fails;
- derives the pump badge (`ON` / `FORCED OFF` / `OFF` and its style), the `--` and `--:--`
  placeholders for unknown values, and the sparkline bar heights.

Files and modules:

- `wrappers.dfy` (`Wrappers`): `Option`, standing for a snapshot field that may be
  `null` or `undefined`, and `??` as `GetOr`.
- `telemetry.dfy` (`Telemetry`): the snapshot record, its initial value, the stamping of a
  payload, the buffer sample, `slice(-24)` and the capped append.
- `charts.dfy` (`Charts`): chart records as JSON objects, the `ts` stamping and its `map`.
- `display.dfy` (`Display`): the pump label and style, the mode label, the reading and clock
  fallbacks, and the bar heights.
- `sockets.dfy` (`Sockets`):
  - the socket handle as a class holding a multiset of (topic, handler) registrations;
  - the lazy singleton `getSocket` as a registry class that counts the sockets it creates;
  - the mount and cleanup effect.
- `synchronizer.dfy` (`Synchronizer`):
  - `Step` and `Run` give the dashboard's state after one event and after a sequence of events;
  - lemmas about `Run` state the buffer, connection, snapshot and chart properties;
  - the `Dashboard` class holds the state hooks as fields, and its handler methods are proved
    against `Step`.

Facts about the code that shape the model:

- The connection state is the boolean `connected`; the code has no connecting state.
- A failed chart load has no error state. It only logs, keeps the old series and clears
  `loadingCharts`.
- Payloads are not validated or normalised. The snapshot is the payload spread as it is, so a
  field missing from a message stays missing rather than keeping its previous value.

## Model

| member | source | states |
|---|---|---|
| `Wrappers.Option.GetOr` | src/components/Dashboard.jsx:80 | `x ?? fallback` is the value when present and the fallback only when it is missing |
| `Telemetry.Stamp` | src/components/Dashboard.jsx:75-78 | the new snapshot carries the receipt time as `ts` and is otherwise exactly the payload; any `ts` of the payload is overwritten and nothing of the old snapshot enters |
| `Telemetry.HistoryValueIsReading` | src/components/Dashboard.jsx:80 | the buffered sample is the payload's `soil_pct` when present; it is 0 exactly when the reading is 0 or missing |
| `Telemetry.SliceFrom` | src/components/Dashboard.jsx:80 | `slice(start)` is a suffix of the array: of length min(-start, len) for a negative start, and of length len - start (0 if start is past the end) otherwise |
| `Telemetry.AppendCapped` | src/components/Dashboard.jsx:80 | `[...prev, v].slice(-24)` has length min(len+1, 24), ends with `v`, and is a suffix of `prev + [v]` |
| `Telemetry.AppendCappedIsLastN` | src/components/Dashboard.jsx:80 | the capped append equals the last 24 of `prev + [v]` |
| `Telemetry.LastNAppend` | src/components/Dashboard.jsx:80 | appending to the last n of a log and keeping the last n equals keeping the last n of the extended log |
| `Charts.WithTs` | src/components/Dashboard.jsx:104-107 | a chart record keeps every key and value, and `ts` is set to the parsed `timestamp` |
| `Charts.StampAll` | src/components/Dashboard.jsx:103-108 | the stamped series has the response's length and order, record by record |
| `Display.PumpLabel` | src/components/Dashboard.jsx:120-124 | "ON" iff the relay is on; "FORCED OFF" iff the relay is off and manual is set; "OFF" iff neither |
| `Display.PumpStyle` | src/components/Dashboard.jsx:126-132 | the emerald style iff "ON", the rose style iff "FORCED OFF", the slate style for any other label |
| `Display.PumpStyleMatchesLabel` | src/components/Dashboard.jsx:120-132 | two snapshots share a badge style exactly when they share a label |
| `Display.ModeLabel` | src/components/Dashboard.jsx:204 | "Manual" iff the manual flag is truthy, otherwise "Auto" |
| `Display.ShowReading` | src/components/Dashboard.jsx:190-196 | a missing reading shows "--" and the unit; a present one shows its number and the unit |
| `Display.MissingReadingIsDistinct` | src/components/Dashboard.jsx:190-196 | a missing reading is never displayed like any present reading, 0 included |
| `Display.ShowClock` | src/components/Dashboard.jsx:162-164 | a missing (or zero, hence falsy) `ts` shows "--:--"; otherwise it shows the formatted time |
| `Display.BarHeight` | src/components/Dashboard.jsx:379 | the bar height is `max(v, 6)`: at least 6, at least `v`, and one of the two |
| `Display.BarHeights` | src/components/Dashboard.jsx:375-381 | one bar per buffered sample, in order, each of height `BarHeight` |
| `Sockets.MountSubscriptions` | src/components/Dashboard.jsx:83-86 | one mount makes four distinct registrations of its three handlers: `connect` with the connect handler, `disconnect` with the disconnect handler, and the one telemetry handler on both telemetry topics |
| `Sockets.RemountDeliversOnce` | src/components/Dashboard.jsx:83-93 | mount, cleanup and remount leave exactly the new mount's handlers, each once, and none of the old mount's |
| `Sockets.Socket.constructor` | src/components/Dashboard.jsx:34-40 | a new socket has no handlers registered |
| `Sockets.Socket.On` | src/components/Dashboard.jsx:83-86 | `on` adds one registration |
| `Sockets.Socket.Off` | src/components/Dashboard.jsx:89-92 | `off` removes one registration of that handler |
| `Sockets.SocketRegistry.constructor` | src/components/Dashboard.jsx:31 | at load no socket exists and none was created |
| `Sockets.SocketRegistry.GetSocket` | src/components/Dashboard.jsx:31-43 | the first call creates a fresh socket; later calls return the same socket and create none; at most one is ever created |
| `Sockets.Mount` | src/components/Dashboard.jsx:66-86 | the shared socket gains exactly this mount's four registrations |
| `Sockets.Unmount` | src/components/Dashboard.jsx:88-93 | the socket loses exactly this mount's four registrations |
| `Synchronizer.Step` | src/components/Dashboard.jsx:69-117 | connection events change only `connected`; telemetry changes only the snapshot (stamped with the receipt time) and the buffer, a chart load changes only the series, which a failure keeps, and clears the loading flag; the buffer stays within 24 |
| `Synchronizer.Run` | src/components/Dashboard.jsx:72-117 | over any event sequence the buffer stays within 24 and a cleared loading flag stays cleared |
| `Synchronizer.SoilSamplesCount` | src/components/Dashboard.jsx:80 | the sample log has one entry per telemetry message |
| `Synchronizer.RunHistory` | src/components/Dashboard.jsx:72-81 | after any events the buffer is the last 24 of its old contents followed by the new samples, oldest first |
| `Synchronizer.HistoryFromMount` | src/components/Dashboard.jsx:60-81 | from mount, the buffer length is min(24, messages received) and its last entry is the newest message's sample |
| `Synchronizer.RunConnected` | src/components/Dashboard.jsx:69-70 | `connected` is what the last connection event set, or its old value if there was none |
| `Synchronizer.RunSnapshot` | src/components/Dashboard.jsx:72-78 | the snapshot is the last message stamped with its receipt time, or unchanged if no message came |
| `Synchronizer.RunCharts` | src/components/Dashboard.jsx:97-117 | the series is the last successful load's, or unchanged; `loadingCharts` is false once any load settled |
| `Synchronizer.Dashboard.constructor` | src/components/Dashboard.jsx:47-62 | disconnected, the default snapshot, empty buffer and series, loading |
| `Synchronizer.Dashboard.OnConnect` | src/components/Dashboard.jsx:69 | sets `connected` and changes nothing else |
| `Synchronizer.Dashboard.OnDisconnect` | src/components/Dashboard.jsx:70 | clears `connected` and changes nothing else, also before any telemetry |
| `Synchronizer.Dashboard.OnTelemetry` | src/components/Dashboard.jsx:72-81 | replaces the snapshot by the stamped payload and appends the sample to the capped buffer; the buffer stays the last 24 samples received |
| `Synchronizer.Dashboard.LoadCharts` | src/components/Dashboard.jsx:98-114 | clears `loadingCharts`; replaces the series on success, keeps it on failure; touches no telemetry state |

## Left out

- Synchronizer.Step: a `telemetry:init` or `telemetry:update` message whose payload is `null` or missing is not modelled; every payload is an object. In the code the handler returns normally, but the buffer updater reads `payload.soil_pct` while React renders, throws a TypeError there, and with no error boundary the dashboard is torn down.
- Synchronizer.Dashboard.OnTelemetry: same gap; the handler takes an object payload only, because a nullish one ends in the render crash described above, not in a new dashboard state.

- Socket transport options, reconnection and backoff (src/components/Dashboard.jsx:34-40): this is library behaviour, and the socket is an opaque handle. `on`/`off` are modelled only as a registry of registrations.
- `fetch` and `res.json()` (src/components/Dashboard.jsx:100-101): network and JSON parsing. A load is given as its outcome, the records or a failure.
- `Date.now()`, `new Date(...).getTime()` and `toLocaleTimeString`: clock, date parsing and locale formatting. They are parameters: the receipt time `now`, and the functions `toTime` and `showTime`.
- Number-to-text conversion in the reading display: a parameter `show`.
- Temperatures and humidity are floats in the source and `real` here; the soil readings and the pump runtime are integers. NaN and infinities are not modelled, including a NaN `ts`, which is falsy.
- In snapshot fields, `null` and `undefined` are one `None`, because `??`, truthiness, spreading and React rendering treat them alike there. Chart records keep them apart (`Null` against a missing key), since date parsing does not. Boolean fields are `Option<bool>`, so truthy non-boolean values such as `1` are not modelled.
- Payload keys other than the nine snapshot fields: the spread copies them, but nothing in the core reads them.
- React scheduling and batching of state setters: each handler's updates take effect together when it runs, and events are handled in arrival order.
- The asynchronous interleaving of `loadCharts` with socket events: a load is one event at the moment it settles. Its start is the initial `loadingCharts = true`.
- `useMemo`, the JSX layout, `Card`/`Stat`, Recharts, Tailwind classes, icons, the `Live`/`Offline` header text, and the unformatted soil and raw values: presentation.
- `console.log` and `console.error`: logging.
- test/test-socket.js: a standalone smoke script that only logs events.
