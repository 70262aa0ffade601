/** The UV chart's data preparation: choosing the rows to plot (embedded sample or
    the fetched `GraphData` list) and turning them into three aligned series clipped
    to the 05:30-19:30 window of the requested day. */
module Chart {
  import opened Wrappers

  /** A naive local timestamp, as seconds since an arbitrary epoch; the order of
      Python's naive datetimes is the integer order. */
  type Stamp = int

  /** Offsets of the plotting window from midnight: 05:30 and 19:30. */
  const WindowOpen: int := 5 * 3600 + 30 * 60
  const WindowClose: int := 19 * 3600 + 30 * 60

  /** One `GraphData` row: its `Date` text and its optional readings. A missing key
      and a JSON null are both `None`. */
  datatype Row = Row(date: Option<string>, measured: Option<real>, forecast: Option<real>)

  /** The three `strptime` formats, as partial parses: `day` reads "%Y-%m-%d" and
      yields that day's midnight; `minutes` reads "%Y-%m-%d %H:%M"; `seconds` reads
      "%Y-%m-%d %H:%M:%S". `None` stands for the `ValueError` strptime raises. */
  datatype Formats = Formats(
    day: string -> Option<Stamp>,
    minutes: string -> Option<Stamp>,
    seconds: string -> Option<Stamp>)

  /** A closed interval of timestamps. */
  datatype Window = Window(start: Stamp, end: Stamp) {
    predicate Contains(t: Stamp) {
      start <= t <= end
    }
  }

  /** Plotted points: times with the measured and forecast value at each time. */
  datatype Series = Series(times: seq<Stamp>, measured: seq<Option<real>>, forecast: seq<Option<real>>) {
    predicate Aligned() {
      |times| == |measured| == |forecast|
    }
  }

  /** The window 05:30-19:30 of the day starting at `midnight`, both ends included. */
  function WindowOf(midnight: Stamp): (w: Window)
    ensures w.start == midnight + 5 * 3600 + 30 * 60
    ensures w.end == midnight + 19 * 3600 + 30 * 60
    ensures w.Contains(w.start) && w.Contains(w.end) && w.end - w.start == 14 * 3600
  {
    Window(midnight + WindowOpen, midnight + WindowClose)
  }

  /** The timestamp of a row: `None` when `Date` is missing or empty, otherwise the
      minutes format if it parses, else the seconds format. */
  function StampOf(row: Row, f: Formats): (t: Option<Stamp>)
    ensures row.date.None? || row.date.value == "" ==> t.None?
    ensures row.date.Some? && row.date.value != "" && f.minutes(row.date.value).Some? ==>
              t == f.minutes(row.date.value)
    ensures row.date.Some? && row.date.value != "" && f.minutes(row.date.value).None? ==>
              t == f.seconds(row.date.value)
  {
    match row.date
    case None => None
    case Some(text) =>
      if text == "" then None
      else
        match f.minutes(text)
        case Some(t) => Some(t)
        case None => f.seconds(text)
  }

  /** A row is plotted when its timestamp parses and lies inside the window. */
  predicate Survives(row: Row, f: Formats, w: Window) {
    StampOf(row, f).Some? && w.Contains(StampOf(row, f).value)
  }

  /** The series of surviving rows, in input order. */
  function Collect(rows: seq<Row>, f: Formats, w: Window): (s: Series)
    ensures s.Aligned()
    ensures |s.times| <= |rows|
    ensures forall k :: 0 <= k < |s.times| ==> w.Contains(s.times[k])
  {
    if |rows| == 0 then Series([], [], [])
    else
      var rest := Collect(rows[1..], f, w);
      if Survives(rows[0], f, w) then
        Series([StampOf(rows[0], f).value] + rest.times,
               [rows[0].measured] + rest.measured,
               [rows[0].forecast] + rest.forecast)
      else rest
  }

  /** Positions of the surviving rows, computed independently of `Collect`, from the
      end of the input backwards. */
  function Survivors(rows: seq<Row>, f: Formats, w: Window): (idx: seq<nat>)
    ensures forall k :: 0 <= k < |idx| ==> idx[k] < |rows| && Survives(rows[idx[k]], f, w)
    ensures forall k, l :: 0 <= k < l < |idx| ==> idx[k] < idx[l]
    ensures forall j :: 0 <= j < |rows| && Survives(rows[j], f, w) ==> j in idx
  {
    if |rows| == 0 then []
    else
      var init := Survivors(rows[..|rows| - 1], f, w);
      if Survives(rows[|rows| - 1], f, w) then init + [|rows| - 1] else init
  }

  /** Concatenation of two series, pointwise on the three lists. */
  function Join(a: Series, b: Series): Series {
    Series(a.times + b.times, a.measured + b.measured, a.forecast + b.forecast)
  }

  /** Collecting a concatenation collects each part and joins the results. */
  lemma {:induction false} CollectOfConcat(a: seq<Row>, b: seq<Row>, f: Formats, w: Window)
    ensures Collect(a + b, f, w) == Join(Collect(a, f, w), Collect(b, f, w))
  {
    if |a| == 0 {
      assert a + b == b;
      var c := Collect(b, f, w);
      assert Join(Series([], [], []), c) == c;
    } else {
      assert (a + b)[1..] == a[1..] + b;
      CollectOfConcat(a[1..], b, f, w);
      var rest := Collect(a[1..], f, w);
      var tail := Collect(b, f, w);
      if Survives(a[0], f, w) {
        assert [StampOf(a[0], f).value] + (rest.times + tail.times)
            == ([StampOf(a[0], f).value] + rest.times) + tail.times;
        assert [a[0].measured] + (rest.measured + tail.measured)
            == ([a[0].measured] + rest.measured) + tail.measured;
        assert [a[0].forecast] + (rest.forecast + tail.forecast)
            == ([a[0].forecast] + rest.forecast) + tail.forecast;
      }
    }
  }

  /** A row that does not survive (no `Date`, an unparsable `Date`, or a time outside
      the window) contributes nothing wherever it stands. */
  lemma SkippedRowContributesNothing(before: seq<Row>, row: Row, after: seq<Row>, f: Formats, w: Window)
    requires !Survives(row, f, w)
    ensures Collect(before + [row] + after, f, w) == Collect(before + after, f, w)
  {
    CollectOfConcat(before + [row], after, f, w);
    CollectOfConcat(before, [row], f, w);
    CollectOfConcat(before, after, f, w);
    var c := Collect(before, f, w);
    assert Join(c, Series([], [], [])) == c;
  }

  /** The series holds exactly the surviving rows, in input order: point `k` is the
      parsed time and the untouched readings of row `Survivors(...)[k]`. A reading
      that is `None` stays `None` at its position. */
  lemma {:induction false} CollectIsSurvivors(rows: seq<Row>, f: Formats, w: Window)
    ensures var s, idx := Collect(rows, f, w), Survivors(rows, f, w);
      && |s.times| == |idx|
      && forall k :: 0 <= k < |idx| ==>
           && s.times[k] == StampOf(rows[idx[k]], f).value
           && s.measured[k] == rows[idx[k]].measured
           && s.forecast[k] == rows[idx[k]].forecast
  {
    if |rows| > 0 {
      var n := |rows| - 1;
      var init := rows[..n];
      assert rows == init + [rows[n]];
      CollectIsSurvivors(init, f, w);
      CollectOfConcat(init, [rows[n]], f, w);
    }
  }

  /** `parse_series`: `None` when the requested date does not parse (strptime raises);
      otherwise the surviving rows, or the two window ends without readings when no
      row survives. */
  function ParseSeries(rows: seq<Row>, dateText: string, f: Formats): (r: Option<Series>)
    ensures r.None? <==> f.day(dateText).None?
    ensures r.Some? ==> r.value.Aligned() && |r.value.times| >= 1
    ensures r.Some? ==>
      var w := WindowOf(f.day(dateText).value);
      forall k :: 0 <= k < |r.value.times| ==> w.Contains(r.value.times[k])
    ensures r.Some? ==>
      var w := WindowOf(f.day(dateText).value);
      var idx := Survivors(rows, f, w);
      && (|idx| == 0 ==> r.value == Series([w.start, w.end], [None, None], [None, None]))
      && (|idx| > 0 ==>
            && |r.value.times| == |idx|
            && forall k :: 0 <= k < |idx| ==>
                 && r.value.times[k] == StampOf(rows[idx[k]], f).value
                 && r.value.measured[k] == rows[idx[k]].measured
                 && r.value.forecast[k] == rows[idx[k]].forecast)
  {
    match f.day(dateText)
    case None => None
    case Some(midnight) =>
      var w := WindowOf(midnight);
      var s := Collect(rows, f, w);
      CollectIsSurvivors(rows, f, w);
      if |s.times| == 0 then Some(Series([w.start, w.end], [None, None], [None, None]))
      else Some(s)
  }

  /** The decoded body of the UV API response, as far as the chart looks at it. */
  datatype Payload = NotAnObject | Object(graphData: Option<seq<Row>>)

  /** Outcome of the HTTP request: any request, status or JSON decoding error is
      `Failed`. */
  datatype Fetch = Failed | Received(payload: Payload)

  /** The payload carries a `GraphData` entry the chart can use. */
  predicate Usable(fetch: Fetch) {
    fetch.Received? && fetch.payload.Object? && fetch.payload.graphData.Some?
  }

  /** `fetch_graph_data`: the embedded sample when asked for it or when the fetch or
      its structure fails; the fetched rows otherwise. It never fails. */
  function FetchGraphData(useSample: bool, fetch: Fetch): (rows: seq<Row>)
    ensures useSample ==> rows == SampleRows
    ensures !useSample && Usable(fetch) ==> rows == fetch.payload.graphData.value
    ensures !Usable(fetch) ==> rows == SampleRows
  {
    if useSample then SampleRows
    else
      match fetch
      case Failed => SampleRows
      case Received(NotAnObject) => SampleRows
      case Received(Object(None)) => SampleRows
      case Received(Object(Some(data))) => data
  }

  /** The embedded sample: 2025-10-20 from 05:25 to 19:35, measured and forecast. */
  const SampleRows: seq<Row> := [
    Row(Some("2025-10-20 05:25"), Some(0.0), Some(0.0)),
    Row(Some("2025-10-20 05:30"), Some(0.0), Some(0.0)),
    Row(Some("2025-10-20 06:00"), Some(0.00832), Some(0.0)),
    Row(Some("2025-10-20 06:30"), Some(0.02964), Some(0.0886)),
    Row(Some("2025-10-20 07:00"), Some(0.06), Some(0.20)),
    Row(Some("2025-10-20 08:00"), Some(0.70), Some(0.80)),
    Row(Some("2025-10-20 09:00"), Some(1.8), Some(2.0)),
    Row(Some("2025-10-20 10:00"), Some(3.9), Some(4.0)),
    Row(Some("2025-10-20 11:00"), Some(6.2), Some(6.5)),
    Row(Some("2025-10-20 12:00"), Some(8.0), Some(8.5)),
    Row(Some("2025-10-20 13:00"), Some(9.0), Some(9.5)),
    Row(Some("2025-10-20 14:00"), Some(8.4), Some(8.7)),
    Row(Some("2025-10-20 15:00"), Some(5.7), Some(6.0)),
    Row(Some("2025-10-20 16:00"), Some(3.0), Some(3.2)),
    Row(Some("2025-10-20 17:00"), Some(1.1), Some(1.2)),
    Row(Some("2025-10-20 18:00"), Some(0.2), Some(0.3)),
    Row(Some("2025-10-20 19:00"), Some(0.0), Some(0.0)),
    Row(Some("2025-10-20 19:30"), Some(0.0), Some(0.0)),
    Row(Some("2025-10-20 19:35"), Some(0.0), Some(0.0))
  ]

  /** Clock time, in seconds after midnight, of each sample row's `Date`. */
  const SampleClock: seq<int> := [
    19500, 19800, 21600, 23400, 25200, 28800, 32400, 36000, 39600, 43200,
    46800, 50400, 54000, 57600, 61200, 64800, 68400, 70200, 70500]

  /** Charting the sample for its own day keeps every row but the first (05:25) and
      the last (19:35): both window ends are inside, the minutes just beyond are not. */
  lemma SampleKeepsWindowEnds(f: Formats, midnight: Stamp)
    requires f.day("2025-10-20") == Some(midnight)
    requires forall k :: 0 <= k < |SampleRows| ==>
               f.minutes(SampleRows[k].date.value) == Some(midnight + SampleClock[k])
    ensures Survivors(SampleRows, f, WindowOf(midnight)) == seq(17, k => k + 1)
    ensures var r := ParseSeries(SampleRows, "2025-10-20", f);
      r.Some? && r.value.times[0] == midnight + WindowOpen
      && r.value.times[16] == midnight + WindowClose
  {
    var w := WindowOf(midnight);
    var kept: seq<nat> := seq(17, k => k + 1);
    forall j | 0 <= j < |SampleRows|
      ensures Survives(SampleRows[j], f, w) <==> 1 <= j <= 17
    {
      assert SampleRows[j].date.value != "";
    }
    forall j | 0 <= j < |SampleRows| && Survives(SampleRows[j], f, w)
      ensures j in kept
    {
      assert kept[j - 1] == j;
    }
    SurvivorsUnique(SampleRows, f, w, kept);
  }

  /** `Survivors` is the only increasing list of exactly the surviving positions. */
  lemma SurvivorsUnique(rows: seq<Row>, f: Formats, w: Window, idx: seq<nat>)
    requires forall k :: 0 <= k < |idx| ==> idx[k] < |rows| && Survives(rows[idx[k]], f, w)
    requires forall k, l :: 0 <= k < l < |idx| ==> idx[k] < idx[l]
    requires forall j :: 0 <= j < |rows| && Survives(rows[j], f, w) ==> j in idx
    ensures idx == Survivors(rows, f, w)
  {
    IncreasingWithSameElements(idx, Survivors(rows, f, w));
  }

  /** Two strictly increasing lists with the same elements are equal. */
  lemma {:induction false} IncreasingWithSameElements(a: seq<nat>, b: seq<nat>)
    requires forall k, l :: 0 <= k < l < |a| ==> a[k] < a[l]
    requires forall k, l :: 0 <= k < l < |b| ==> b[k] < b[l]
    requires forall x :: x in a <==> x in b
    ensures a == b
  {
    if |a| > 0 && |b| > 0 {
      assert a[0] == b[0] by {
        assert a[0] in b && b[0] in a;
      }
      forall x
        ensures x in a[1..] <==> x in b[1..]
      {
        if x in a[1..] {
          assert x in b && x != b[0];
        }
        if x in b[1..] {
          assert x in a && x != a[0];
        }
      }
      IncreasingWithSameElements(a[1..], b[1..]);
      assert a == [a[0]] + a[1..] && b == [b[0]] + b[1..];
    } else {
      EmptyIffNoElements(a);
      EmptyIffNoElements(b);
    }
  }

  lemma EmptyIffNoElements(s: seq<nat>)
    ensures |s| == 0 <==> forall x :: x !in s
  {
    if |s| > 0 {
      assert s[0] in s;
    }
  }
}
