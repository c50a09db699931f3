/** Values the dashboard derives from its state for display
    (src/components/Dashboard.jsx: the pump label and style, the `??` and
    truthiness fallbacks for unknown values, and the sparkline bar height). */
module Display {
  import opened Wrappers
  import opened Telemetry

  const LabelOn := "ON"
  const LabelForcedOff := "FORCED OFF"
  const LabelOff := "OFF"

  const StyleOn := "bg-emerald-50 text-emerald-700 border-emerald-200"
  const StyleForcedOff := "bg-rose-50 text-rose-700 border-rose-200"
  const StyleIdle := "bg-slate-100 text-slate-600 border-slate-200"

  /** JavaScript truthiness of a boolean field that may be missing. */
  predicate Truthy(b: Option<bool>)
  {
    b == Some(true)
  }

  /** The relay state wins over the manual flag; manual without the relay
      reads as forced off; otherwise the pump is simply off. */
  function PumpLabel(t: Snapshot): (name: string)
    ensures name == LabelOn <==> Truthy(t.pumpOn)
    ensures name == LabelForcedOff <==> !Truthy(t.pumpOn) && Truthy(t.manual)
    ensures name == LabelOff <==> !Truthy(t.pumpOn) && !Truthy(t.manual)
  {
    if Truthy(t.pumpOn) then LabelOn
    else if Truthy(t.manual) then LabelForcedOff
    else LabelOff
  }

  /** The badge classes, chosen by comparing the label text. */
  function PumpStyle(pump: string): (style: string)
    ensures style == StyleOn <==> pump == LabelOn
    ensures style == StyleForcedOff <==> pump == LabelForcedOff
    ensures style == StyleIdle <==> pump != LabelOn && pump != LabelForcedOff
  {
    if pump == LabelOn then StyleOn
    else if pump == LabelForcedOff then StyleForcedOff
    else StyleIdle
  }

  /** Two snapshots get the same badge style exactly when they get the same
      label: each of the three labels has a style of its own. */
  lemma PumpStyleMatchesLabel(t1: Snapshot, t2: Snapshot)
    ensures PumpStyle(PumpLabel(t1)) == PumpStyle(PumpLabel(t2)) <==> PumpLabel(t1) == PumpLabel(t2)
  {
  }

  /** `Mode: {telemetry.manual ? "Manual" : "Auto"}`. */
  function ModeLabel(manual: Option<bool>): (mode: string)
    ensures mode == "Manual" <==> Truthy(manual)
    ensures mode == "Auto" <==> !Truthy(manual)
  {
    if Truthy(manual) then "Manual" else "Auto"
  }

  /** `${reading ?? "--"}` followed by the unit; `show` stands for JavaScript's
      number-to-string conversion. */
  function ShowReading(reading: Option<real>, show: real -> string, unit: string): (text: string)
    ensures reading.None? ==> text == "--" + unit
    ensures reading.Some? ==> text == show(reading.value) + unit
  {
    (if reading.Some? then show(reading.value) else "--") + unit
  }

  /** A missing reading is never displayed like a present one, 0 included,
      as long as no number prints as "--" (none does in JavaScript). */
  lemma {:induction false} MissingReadingIsDistinct(show: real -> string, unit: string, x: real)
    requires forall y :: show(y) != "--"
    ensures ShowReading(None, show, unit) != ShowReading(Some(x), show, unit)
  {
    if ShowReading(None, show, unit) == ShowReading(Some(x), show, unit) {
      SameSuffixSamePrefix("--", show(x), unit);
    }
  }

  /** Two texts that end in the same unit are equal only if what precedes it is. */
  lemma SameSuffixSamePrefix(a: string, b: string, unit: string)
    requires a + unit == b + unit
    ensures a == b
  {
    assert |a| == |b|;
    assert a == (a + unit)[..|a|];
    assert b == (b + unit)[..|b|];
  }

  /** `telemetry.ts ? new Date(telemetry.ts).toLocaleTimeString() : "--:--"`;
      `showTime` stands for the locale formatting. A missing or zero time
      (both falsy) shows the placeholder. */
  function ShowClock(ts: Option<int>, showTime: int -> string): (text: string)
    ensures ts.None? || ts == Some(0) ==> text == "--:--"
    ensures ts.Some? && ts.value != 0 ==> text == showTime(ts.value)
  {
    if ts.Some? && ts.value != 0 then showTime(ts.value) else "--:--"
  }

  /** `Math.max(v, 6)`: a bar is at least 6% tall and otherwise as tall as its sample. */
  function BarHeight(v: int): (h: int)
    ensures h >= 6 && h >= v
    ensures h == v || h == 6
  {
    if v > 6 then v else 6
  }

  /** The heights of the sparkline bars, one per buffered sample, in order. */
  function BarHeights(values: seq<int>): (hs: seq<int>)
    ensures |hs| == |values|
    ensures forall i :: 0 <= i < |values| ==> hs[i] == BarHeight(values[i])
  {
    if values == [] then [] else [BarHeight(values[0])] + BarHeights(values[1..])
  }
}
