/** The display decisions of the dashboard page: the UV advice message, and which
    template each line of the page uses. The digits inside a template (Python's
    f-strings and `int()` conversions) are not modelled; a template carries the raw
    feed values it would print. */
module Display {
  import opened Wrappers
  import opened Feeds

  const PlayOutside: string := "Play outside kids!"
  const CoverUp: string := "Cover up kids!"
  const StayInside: string := "Stay inside kids!"

  /** The lower bounds of the "cover up" and "stay inside" bands. */
  const CoverUpFrom: real := 2.0
  const StayInsideFrom: real := 7.0

  /** The advice shown under the UV reading: none without a reading or for a
      reading of exactly zero; otherwise by band, below 2 (negative readings
      included), from 2 up to 7, and from 7. */
  function UvMessage(uv: Option<real>): (m: string)
    ensures m == "" <==> uv.None? || uv.value == 0.0
    ensures m == PlayOutside <==> uv.Some? && uv.value != 0.0 && uv.value < CoverUpFrom
    ensures m == CoverUp <==> uv.Some? && CoverUpFrom <= uv.value < StayInsideFrom
    ensures m == StayInside <==> uv.Some? && StayInsideFrom <= uv.value
  {
    if uv.None? then ""
    else if uv.value == 0.0 then ""
    else if uv.value < CoverUpFrom then PlayOutside
    else if uv.value < StayInsideFrom then CoverUp
    else StayInside
  }

  /** The advice texts from mildest to strictest. */
  const Advice: seq<string> := [PlayOutside, CoverUp, StayInside]

  /** Reference banding: the number of band thresholds a reading has reached. */
  function Band(uv: real): (b: nat)
    ensures b < |Advice|
  {
    (if uv >= CoverUpFrom then 1 else 0) + (if uv >= StayInsideFrom then 1 else 0)
  }

  /** For every non-zero reading the message is the advice of its band. */
  lemma MessageFollowsBand(uv: real)
    requires uv != 0.0
    ensures UvMessage(Some(uv)) == Advice[Band(uv)]
  {
  }

  /** Away from zero, a higher reading never gets milder advice. */
  lemma AdviceNeverSoftens(a: real, b: real)
    requires a != 0.0 && b != 0.0 && a <= b
    ensures Band(a) <= Band(b)
    ensures UvMessage(Some(a)) == Advice[Band(a)] && UvMessage(Some(b)) == Advice[Band(b)]
  {
    MessageFollowsBand(a);
    MessageFollowsBand(b);
  }

  /** The UV line: "UV <reading>", or the placeholder "UV --" without a reading. */
  datatype UvText = UvReading(index: real) | UvPlaceholder

  function UvLine(uv: Option<real>): (t: UvText)
    ensures t.UvPlaceholder? <==> uv.None?
    ensures t.UvReading? ==> t.index == uv.value
  {
    match uv
    case None => UvPlaceholder
    case Some(v) => UvReading(v)
  }

  /** The temperature line: "<air>°C" or "--" when there is no air temperature,
      followed by " RH <humidity>%" or nothing when there is no humidity. With no
      weather record at all the line is "--", which is the text of
      `TempText(None, None)`. */
  datatype TempText = TempText(air: Option<Json>, humidity: Option<Json>)

  /** The apparent-temperature line: "Feels like <t>°C", or blank. */
  datatype FeelsText = FeelsLike(apparent: Json) | FeelsBlank

  /** The apparent-temperature template: shown exactly when there is a value. */
  function FeelsLine(apparent: Option<Json>): (t: FeelsText)
    ensures t.FeelsLike? <==> apparent.Some?
    ensures t.FeelsLike? ==> t.apparent == apparent.value
  {
    match apparent
    case Some(v) => FeelsLike(v)
    case None => FeelsBlank
  }

  /** The wind line: "Wind <speed> to <gust> km/h", "Wind <speed> km/h",
      "Wind up to <gust> km/h", or blank. */
  datatype WindText =
    | WindRange(speed: Json, gust: Json)
    | WindSteady(speed: Json)
    | WindUpTo(gust: Json)
    | WindBlank
  {
    /** The wind speed a template shows, if any. */
    function ShownSpeed(): Option<Json> {
      match this
      case WindRange(s, _) => Some(s)
      case WindSteady(s) => Some(s)
      case _ => None
    }

    /** The gust a template shows, if any. */
    function ShownGust(): Option<Json> {
      match this
      case WindRange(_, g) => Some(g)
      case WindUpTo(g) => Some(g)
      case _ => None
    }
  }

  /** The wind template, chosen by which of speed and gust are present. */
  function WindLine(speed: Option<Json>, gust: Option<Json>): (w: WindText)
    ensures w.WindRange? <==> speed.Some? && gust.Some?
    ensures w.WindSteady? <==> speed.Some? && gust.None?
    ensures w.WindUpTo? <==> speed.None? && gust.Some?
    ensures w.WindBlank? <==> speed.None? && gust.None?
    ensures w.ShownSpeed() == speed && w.ShownGust() == gust
  {
    if speed.Some? && gust.Some? then WindRange(speed.value, gust.value)
    else if speed.Some? then WindSteady(speed.value)
    else if gust.Some? then WindUpTo(gust.value)
    else WindBlank
  }

  /** Every wind template is the choice for exactly the values it shows. */
  lemma WindLineFromShown(w: WindText)
    ensures WindLine(w.ShownSpeed(), w.ShownGust()) == w
  {
  }

  /** The page's five lines. */
  datatype Page = Page(uv: UvText, message: string, temperature: TempText, feels: FeelsText, wind: WindText)

  /** The branching in `index()`: the UV line and message come from the reading
      alone; the three weather lines from the latest observation, with the
      defaults "--", blank and blank when there is none. */
  function Compose(uv: Option<real>, weather: Option<Observation>): (p: Page)
    ensures p.uv == UvLine(uv) && p.message == UvMessage(uv)
    ensures weather.None? ==>
      p.temperature == TempText(None, None) && p.feels == FeelsBlank && p.wind == WindBlank
    ensures weather.Some? ==>
      && p.temperature == TempText(weather.value.airTemp, weather.value.relHumidity)
      && (p.feels.FeelsLike? <==> weather.value.apparentTemp.Some?)
      && (p.feels.FeelsLike? ==> p.feels.apparent == weather.value.apparentTemp.value)
      && p.wind.ShownSpeed() == weather.value.windSpeedKmh
      && p.wind.ShownGust() == weather.value.gustKmh
  {
    match weather
    case None => Page(UvLine(uv), UvMessage(uv), TempText(None, None), FeelsBlank, WindBlank)
    case Some(o) =>
      Page(UvLine(uv), UvMessage(uv), TempText(o.airTemp, o.relHumidity),
           FeelsLine(o.apparentTemp), WindLine(o.windSpeedKmh, o.gustKmh))
  }
}
