/** Record selection in the two upstream feeds, over their decoded form: the UV index
    of Canberra from the ARPANSA XML document, and the latest observation from the
    BOM JSON document. Fetching and decoding are outside the model; a failed request,
    a bad status or a document that does not decode arrives as `None`. */
module Feeds {
  import opened Wrappers
  import opened Search

  // ---------------------------------------------------------------- UV (XML)

  /** A decoded XML element: tag, attributes, text and child elements in document
      order. */
  datatype Element = Element(tag: string, attrs: map<string, string>, text: Option<string>, children: seq<Element>)

  /** `e` lies strictly below `c`: it is a child of `c` or below one. */
  ghost predicate Below(e: Element, c: Element)
    decreases c
  {
    exists d :: d in c.children && (e == d || Below(e, d))
  }

  /** The elements of `cs` and all their descendants, in document order: each
      element comes first, just before its own descendants, and earlier siblings'
      subtrees come before later ones (`PreorderOfConcat`). `PreorderIsSubtrees`
      states which elements it holds. */
  function Preorder(cs: seq<Element>): (r: seq<Element>)
    ensures forall c :: c in cs ==> c in r
    ensures |r| >= |cs| && (|cs| > 0 ==> r[0] == cs[0])
  {
    if |cs| == 0 then []
    else [cs[0]] + Preorder(cs[0].children) + Preorder(cs[1..])
  }

  /** The traversal holds exactly the given elements and everything below them. */
  lemma {:induction false} PreorderIsSubtrees(cs: seq<Element>)
    ensures forall c, e :: c in cs && Below(e, c) ==> e in Preorder(cs)
    ensures forall e :: e in Preorder(cs) ==> e in cs || exists c :: c in cs && Below(e, c)
  {
    if |cs| > 0 {
      var head, rest := cs[0], cs[1..];
      PreorderIsSubtrees(head.children);
      PreorderIsSubtrees(rest);
      assert Preorder(cs) == [head] + Preorder(head.children) + Preorder(rest);
      forall c, e | c in cs && Below(e, c)
        ensures e in Preorder(cs)
      {
        if c == head {
          var d :| d in head.children && (e == d || Below(e, d));
        } else {
          assert c in rest;
        }
      }
      forall e | e in Preorder(cs)
        ensures e in cs || exists c :: c in cs && Below(e, c)
      {
        if e in Preorder(head.children) {
          if e !in head.children {
            var d :| d in head.children && Below(e, d);
          }
          assert Below(e, head);
        } else if e in Preorder(rest) {
          if e !in rest {
            var c :| c in rest && Below(e, c);
            assert c in cs;
          }
        }
      }
    }
  }

  /** The traversal of a run of siblings is the traversal of each part in turn. */
  lemma {:induction false} PreorderOfConcat(a: seq<Element>, b: seq<Element>)
    ensures Preorder(a + b) == Preorder(a) + Preorder(b)
  {
    if |a| == 0 {
      assert a + b == b;
    } else {
      assert (a + b)[0] == a[0];
      assert (a + b)[1..] == a[1..] + b;
      PreorderOfConcat(a[1..], b);
    }
  }

  predicate IsLocation(e: Element) {
    e.tag == "location"
  }

  /** `root.findall('.//location')`: exactly the `location` elements strictly below
      the root (the root itself is not searched), in document order. */
  function Locations(root: Element): (r: seq<Element>)
    ensures forall k :: 0 <= k < |r| ==> r[k].tag == "location" && Below(r[k], root)
    ensures forall e :: Below(e, root) && e.tag == "location" ==> e in r
  {
    var all := Preorder(root.children);
    PreorderIsSubtrees(root.children);
    assert forall e :: e in all ==> Below(e, root);
    Filter(all, IsLocation)
  }

  /** Document order of the search: the locations under earlier children of the root
      all come before the locations under later ones. */
  lemma LocationsInDocumentOrder(root: Element, a: seq<Element>, b: seq<Element>)
    requires root.children == a + b
    ensures Locations(root) == Filter(Preorder(a), IsLocation) + Filter(Preorder(b), IsLocation)
  {
    PreorderOfConcat(a, b);
    FilterOfConcat(Preorder(a), Preorder(b), IsLocation);
  }

  predicate IsIndex(e: Element) {
    e.tag == "index"
  }

  /** `location.find('index')`: the first child tagged `index`. */
  function IndexChild(location: Element): (r: Option<Element>)
    ensures r.Some? ==> exists i :: 0 <= i < |location.children|
                          && r.value == location.children[i] && r.value.tag == "index"
                          && forall j :: 0 <= j < i ==> location.children[j].tag != "index"
    ensures r.None? <==> forall c :: c in location.children ==> c.tag != "index"
  {
    match First(location.children, IsIndex)
    case None => None
    case Some(i) => Some(location.children[i])
  }

  /** A location the search accepts: its `id` attribute is `Canberra` and it has an
      `index` child. */
  predicate IsCanberraWithIndex(location: Element) {
    && "id" in location.attrs
    && location.attrs["id"] == "Canberra"
    && IndexChild(location).Some?
  }

  /** The value of a location's `index` child: its text converted by `number`
      (Python's `float`); `None` when the element has no text or the conversion
      raises. */
  function Reading(location: Element, number: string -> Option<real>): (r: Option<real>)
    requires IndexChild(location).Some?
    ensures IndexChild(location).value.text.None? ==> r.None?
    ensures IndexChild(location).value.text.Some? ==> r == number(IndexChild(location).value.text.value)
  {
    match IndexChild(location).value.text
    case None => None
    case Some(t) => number(t)
  }

  /** The search loop of `get_uv_data` over the locations in document order: the
      first Canberra location with an `index` child decides the result; there is no
      result when none exists. */
  function CanberraUv(locs: seq<Element>, number: string -> Option<real>): (r: Option<real>)
    ensures (forall i :: 0 <= i < |locs| ==> !IsCanberraWithIndex(locs[i])) ==> r.None?
    ensures forall i :: 0 <= i < |locs| && IsCanberraWithIndex(locs[i])
                        && (forall j :: 0 <= j < i ==> !IsCanberraWithIndex(locs[j]))
                      ==> r == Reading(locs[i], number)
  {
    match First(locs, IsCanberraWithIndex)
    case None => None
    case Some(i) =>
      assert forall k :: 0 <= k < |locs| && IsCanberraWithIndex(locs[k])
                         && (forall j :: 0 <= j < k ==> !IsCanberraWithIndex(locs[j]))
                       ==> k == i;
      Reading(locs[i], number)
  }

  /** A location that is not Canberra, or is Canberra without an `index` child, is
      passed over. */
  lemma PassesOverOtherLocations(location: Element, rest: seq<Element>, number: string -> Option<real>)
    requires !IsCanberraWithIndex(location)
    ensures CanberraUv([location] + rest, number) == CanberraUv(rest, number)
  {
    FirstOfConcat([location], rest, IsCanberraWithIndex);
  }

  /** Once a Canberra location with an `index` child is reached, later locations play
      no part, even when its reading does not convert. */
  lemma FirstCanberraDecides(before: seq<Element>, location: Element, after: seq<Element>,
                             number: string -> Option<real>)
    requires forall j :: 0 <= j < |before| ==> !IsCanberraWithIndex(before[j])
    requires IsCanberraWithIndex(location)
    ensures CanberraUv(before + [location] + after, number) == Reading(location, number)
  {
    var locs := before + [location] + after;
    assert locs[|before|] == location;
    assert forall j :: 0 <= j < |before| ==> locs[j] == before[j];
  }

  /** `get_uv_data`: `None` when the document could not be fetched or parsed;
      otherwise the Canberra search over `root.findall('.//location')`. */
  function UvIndex(root: Option<Element>, number: string -> Option<real>): (r: Option<real>)
    ensures root.None? ==> r.None?
    ensures root.Some? ==> r == CanberraUv(Locations(root.value), number)
  {
    match root
    case None => None
    case Some(doc) => CanberraUv(Locations(doc), number)
  }

  // ---------------------------------------------------------- weather (JSON)

  /** A decoded JSON value. Numbers are reals (Python's int and float alike); the
      non-finite numbers `NaN`, `Infinity` and `-Infinity`, which Python's decoder
      accepts, are not represented. */
  datatype Json =
    | JNull
    | JBool(b: bool)
    | JNum(n: real)
    | JStr(s: string)
    | JArr(items: seq<Json>)
    | JObj(fields: map<string, Json>)

  /** `obj.get(key)`: `None` for a missing key and for a JSON null alike. */
  function Get(fields: map<string, Json>, key: string): (r: Option<Json>)
    ensures r.None? <==> key !in fields || fields[key] == JNull
    ensures r.Some? ==> r.value == fields[key]
  {
    if key in fields && !fields[key].JNull? then Some(fields[key]) else None
  }

  /** Python's `value == 0` for a decoded JSON value: true for the number zero and,
      since `False == 0`, for `false`; false for null, strings, arrays and objects. */
  predicate EqualsZero(v: Json): (z: bool)
    ensures v.JNum? ==> (z <==> v.n == 0.0)
    ensures v.JBool? ==> (z <==> !v.b)
    ensures z ==> v.JNum? || v.JBool?
  {
    match v
    case JNum(n) => n == 0.0
    case JBool(b) => !b
    case _ => false
  }

  /** The seven fields `get_weather_data` keeps from an observation. */
  datatype Observation = Observation(
    airTemp: Option<Json>,
    apparentTemp: Option<Json>,
    cloud: Option<Json>,
    cloudType: Option<Json>,
    relHumidity: Option<Json>,
    gustKmh: Option<Json>,
    windSpeedKmh: Option<Json>)

  /** The seven-field record of one observation object. */
  function Project(fields: map<string, Json>): (o: Observation)
    ensures o.airTemp == Get(fields, "air_temp")
    ensures o.apparentTemp == Get(fields, "apparent_t")
    ensures o.cloud == Get(fields, "cloud")
    ensures o.cloudType == Get(fields, "cloud_type")
    ensures o.relHumidity == Get(fields, "rel_hum")
    ensures o.gustKmh == Get(fields, "gust_kmh")
    ensures o.windSpeedKmh == Get(fields, "wind_spd_kmh")
  {
    Observation(
      Get(fields, "air_temp"),
      Get(fields, "apparent_t"),
      Get(fields, "cloud"),
      Get(fields, "cloud_type"),
      Get(fields, "rel_hum"),
      Get(fields, "gust_kmh"),
      Get(fields, "wind_spd_kmh"))
  }

  /** The observation list `data['observations']['data']`, when the document has
      that shape. Every other shape ends the lookup with `None`, by the explicit
      membership check (which is a substring or element test on a top-level string
      or array), by a raise that is caught (indexing a non-object, iterating a
      number, or `.get` on the keys or characters of an object or string `data`),
      or by an empty loop (an empty object or string `data`). */
  function ObservationList(data: Json): (r: Option<seq<Json>>)
    ensures r.Some? <==>
      && data.JObj? && "observations" in data.fields
      && data.fields["observations"].JObj? && "data" in data.fields["observations"].fields
      && data.fields["observations"].fields["data"].JArr?
    ensures r.Some? ==> r.value == data.fields["observations"].fields["data"].items
  {
    if !data.JObj? || "observations" !in data.fields then None
    else
      var observations := data.fields["observations"];
      if !observations.JObj? || "data" !in observations.fields then None
      else
        match observations.fields["data"]
        case JArr(items) => Some(items)
        case _ => None
  }

  /** The latest observation: an object whose `sort_order` equals zero. */
  predicate IsLatest(item: Json) {
    item.JObj? && Get(item.fields, "sort_order").Some? && EqualsZero(item.fields["sort_order"])
  }

  /** An item that ends the scan: the latest observation, or an item that is not an
      object, on which `.get` raises. */
  predicate EndsScan(item: Json) {
    !item.JObj? || IsLatest(item)
  }

  /** The search loop of `get_weather_data`: the seven fields of the first
      observation whose `sort_order` equals zero. A non-object entry met before it
      makes `.get` raise, which ends the lookup with `None`. */
  function LatestIn(items: seq<Json>): (r: Option<Observation>)
    ensures r.Some? <==> exists i :: 0 <= i < |items| && IsLatest(items[i])
                           && forall j :: 0 <= j < i ==> items[j].JObj? && !IsLatest(items[j])
    ensures forall i :: 0 <= i < |items| && IsLatest(items[i])
                        && (forall j :: 0 <= j < i ==> items[j].JObj? && !IsLatest(items[j]))
                      ==> r == Some(Project(items[i].fields))
  {
    match First(items, EndsScan)
    case None => None
    case Some(i) =>
      if items[i].JObj? then Some(Project(items[i].fields)) else None
  }

  /** An older observation (an object whose `sort_order` is not zero) is passed over. */
  lemma PassesOverOlderObservation(item: Json, rest: seq<Json>)
    requires item.JObj? && !IsLatest(item)
    ensures LatestIn([item] + rest) == LatestIn(rest)
  {
    FirstOfConcat([item], rest, EndsScan);
  }

  /** An entry that is not an object ends the lookup without a result, whatever
      follows it. */
  lemma NonObjectEndsLookup(item: Json, rest: seq<Json>)
    requires !item.JObj?
    ensures LatestIn([item] + rest).None?
  {
    assert ([item] + rest)[0] == item;
  }

  /** `get_weather_data`: `None` when the document could not be fetched or decoded
      or lacks `observations.data`; otherwise the latest observation in that list. */
  function LatestObservation(payload: Option<Json>): (r: Option<Observation>)
    ensures payload.None? ==> r.None?
    ensures payload.Some? && ObservationList(payload.value).None? ==> r.None?
    ensures payload.Some? && ObservationList(payload.value).Some? ==>
              r == LatestIn(ObservationList(payload.value).value)
  {
    match payload
    case None => None
    case Some(data) =>
      match ObservationList(data)
      case None => None
      case Some(items) => LatestIn(items)
  }
}
