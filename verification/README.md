# Kindle UV dashboard: decision logic

A Dafny model of the pure decision logic inside the Kindle UV dashboard. The server
shows Canberra's current UV index and the latest Bureau of Meteorology observation
on an e-reader page, and draws a daily UV chart. The model covers three pieces:

- **Chart series extraction** (`chart.py`, module `Chart`). `parse_series` keeps the
  `GraphData` rows whose `Date` parses and lies in the closed window 05:30-19:30 of
  the requested day. It returns aligned time, measured and forecast lists, and the
  two window ends without readings when nothing survives. `fetch_graph_data` falls
  back to the embedded sample. Timestamps are integers (seconds since an arbitrary
  epoch). The three `strptime` formats are abstract partial parses (`Chart.Formats`).
- **Feed-record selection** (`weather_server.py`, module `Feeds`). `get_uv_data`
  picks the first `location` with id `Canberra` that has an `index` child, over a
  decoded XML element tree. `get_weather_data` checks for `observations.data` and
  picks the first observation whose `sort_order` equals zero, over a decoded JSON
  value. Both are built on a generic first-match search (module `Search`).
- **Display classification** (`weather_server.py`, module `Display`). This covers
  the UV advice bands, the `UV --` placeholder, the four-way wind-line choice and
  the defaults used when there is no weather record. Each page line is modelled as
  the template it uses, carrying the raw feed values it would print.

Python behaviour that the model reproduces on purpose:

- `sort_order == 0` also holds for JSON `false` and `0.0`.
- `.get` gives `None` both for a missing key and for a JSON null.
- A non-object entry before the latest observation makes `.get` raise. The handler
  catches it, so the lookup returns `None`.
- An unparsable reading in the first qualifying Canberra location also ends in
  `None`. Later locations are not consulted.

## Model

| member | source | states |
|---|---|---|
| Chart.WindowOf | chart.py:82-84 | the window runs from 05:30 to 19:30 of the requested day, fourteen hours, with both ends inside it |
| Chart.StampOf | chart.py:91-101 | a missing or empty `Date` gives no time; otherwise the minutes format is used when it parses, and the seconds format when it does not |
| Chart.Collect | chart.py:90-109 | the three lists stay the same length, every time lies in the closed window, and there is at most one point per input row |
| Chart.Survivors | chart.py:90-104 | the surviving row positions are strictly increasing (input order), each one survives, and every surviving row is listed |
| Chart.CollectIsSurvivors | chart.py:102-109 | point k holds the parsed time and the untouched readings of the k-th surviving row, so a `None` reading stays `None` at its index and a present reading is kept |
| Chart.CollectOfConcat | chart.py:90-109 | extracting from a concatenation of rows joins the two extractions |
| Chart.SkippedRowContributesNothing | chart.py:91-103 | a row with no `Date`, an unparsable `Date` or a time outside the window leaves the result unchanged wherever it stands |
| Chart.SurvivorsUnique | chart.py:90-104 | any increasing list of exactly the surviving positions is `Survivors` |
| Chart.ParseSeries | chart.py:79-117 | no result when the requested date does not parse; otherwise the lists are aligned, non-empty and inside the window, and they hold exactly the surviving rows, or `[start, end]` with `None` readings when no row survives |
| Chart.FetchGraphData | chart.py:60-76 | the sample rows when `use_sample` is set or the fetch, the payload type or the `GraphData` key fails; the fetched rows otherwise |
| Chart.SampleKeepsWindowEnds | chart.py:35-57 | under a clock-faithful parse, the sample keeps rows 05:30 through 19:30 and drops 05:25 and 19:35 |
| Feeds.Preorder | weather_server.py:25 | every given element is in the traversal, and the traversal starts with the first given element |
| Feeds.PreorderIsSubtrees | weather_server.py:25 | the traversal holds exactly the given elements and the elements strictly below them |
| Feeds.PreorderOfConcat | weather_server.py:25 | traversing a run of siblings visits each sibling's subtree in turn, in document order |
| Feeds.Locations | weather_server.py:25 | the result holds exactly the `location` elements strictly below the root (the search starts at the root's children) |
| Feeds.LocationsInDocumentOrder | weather_server.py:25-29 | locations under earlier children of the root come before those under later children, so the first-match search scans in document order |
| Feeds.IndexChild | weather_server.py:27-28 | the result is the first child tagged `index`; there is none exactly when no child is tagged `index` |
| Feeds.Reading | weather_server.py:29-34 | an `index` element without text gives `None`; otherwise the result is the float conversion of its text |
| Feeds.CanberraUv | weather_server.py:25-31 | the first Canberra location with an `index` child decides the result; `None` when there is no such location |
| Feeds.PassesOverOtherLocations | weather_server.py:25-28 | a location that is not Canberra, or is Canberra without an `index` child, is skipped |
| Feeds.FirstCanberraDecides | weather_server.py:25-29 | once a qualifying location is reached, later locations do not affect the result |
| Feeds.UvIndex | weather_server.py:15-34 | `None` when the document is unavailable; otherwise the Canberra search over all `location` elements |
| Feeds.Get | weather_server.py:57-65 | `None` exactly for a missing key or a JSON null; otherwise the stored value |
| Feeds.Project | weather_server.py:58-66 | the record holds the seven named fields of the observation |
| Feeds.EqualsZero | weather_server.py:57 | Python's `sort_order == 0` holds for the number zero and for `false` (since `False == 0`), and for no null, string, array or object |
| Feeds.ObservationList | weather_server.py:48-55 | a list exists exactly when `observations` is an object whose `data` entry is an array |
| Feeds.LatestIn | weather_server.py:55-70 | a result exists exactly when an observation with `sort_order` zero comes before any non-object entry; the result is the projection of the first such observation |
| Feeds.PassesOverOlderObservation | weather_server.py:55-57 | an object whose `sort_order` is not zero is skipped |
| Feeds.NonObjectEndsLookup | weather_server.py:55-57 | a non-object entry ends the lookup with `None`, whatever follows it |
| Feeds.LatestObservation | weather_server.py:36-79 | `None` for a missing document or a missing `observations.data`; otherwise the latest-observation search over that list |
| Display.UvMessage | weather_server.py:92-101 | the message is empty exactly for no reading or exactly 0; "Play outside kids!" exactly below 2 (negatives included); "Cover up kids!" exactly on [2, 7); "Stay inside kids!" exactly from 7 |
| Display.MessageFollowsBand | weather_server.py:96-101 | every non-zero reading gets the advice of its band |
| Display.AdviceNeverSoftens | weather_server.py:96-101 | away from zero, a higher reading never gets milder advice |
| Display.UvLine | weather_server.py:104 | the placeholder `UV --` is shown exactly when there is no reading; otherwise the reading itself |
| Display.FeelsLine | weather_server.py:112-118 | the feels-like line is shown exactly when there is an apparent temperature, and it shows that value |
| Display.WindLine | weather_server.py:120-132 | speed and gust give a range, speed alone a steady line, gust alone an "up to" line, and neither a blank line; the line shows exactly the values given |
| Display.WindLineFromShown | weather_server.py:120-132 | every wind template is chosen exactly for the values it shows |
| Display.Compose | weather_server.py:92-136 | with no weather record the lines are "--", blank and blank; otherwise temperature, feels and wind show the observation's fields, and the UV line and message depend on the reading alone |

## Left out

- HTTP requests, timeouts, status checks and logging. A failed request arrives as `Failed` (chart) or `None` (feeds).
- XML and JSON decoding. The model starts from the decoded tree or value.
- Flask setup, CORS, the `/weather`, `/uv` and `/health` routes, and the HTML/CSS template.
- `plot_bw_chart`, `generate_chart_bytes` and `main`. These cover matplotlib/PIL drawing, JPEG encoding and argument parsing.
- The internals of `strptime` and `float`. They are parameters of the model (`Chart.Formats`, and `number` in `Feeds`).
- The digits of every display line. This covers f-string rendering of floats and `int()` truncation. The templates carry the raw values.
- Display.Compose: does not model that `int()` raises outside any handler and fails the page on a non-numeric or NaN relative humidity, on a NaN wind speed without a gust, on a NaN gust without a speed, or on an infinite apparent temperature or wind value.
- JSON numbers are real numbers, so the `NaN`, `Infinity` and `-Infinity` values that Python's JSON decoder accepts are not represented anywhere in the model.
- Display.UvMessage: readings are real numbers, so a NaN reading is not modelled (in Python every comparison on NaN is false, which gives "Stay inside kids!").
- Chart.ParseSeries: `Measured` and `Forecast` are taken as already-numeric readings. A non-numeric value, which makes `float()` raise, is not modelled, and neither is a row that is not an object.
- Chart.FetchGraphData: a `GraphData` entry that is null or not a list is not modelled. The fetch outcome is a parameter even when `use_sample` is set, so the fact that no request is made then is not expressed.
