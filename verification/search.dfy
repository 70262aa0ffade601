/** First-match search and order-preserving filtering over sequences: the two
    scanning patterns the feed-record selection is built from. */
module Search {
  import opened Wrappers

  /** Index of the first element satisfying `p`, scanning in order. */
  function First<T>(s: seq<T>, p: T -> bool): (r: Option<nat>)
    ensures r.Some? ==> r.value < |s| && p(s[r.value])
    ensures r.Some? ==> forall j :: 0 <= j < r.value ==> !p(s[j])
    ensures r.None? <==> forall j :: 0 <= j < |s| ==> !p(s[j])
  {
    if |s| == 0 then None
    else if p(s[0]) then Some(0)
    else
      match First(s[1..], p)
      case None => None
      case Some(i) => Some(i + 1)
  }

  /** Elements after a match never influence a first-match search; without a
      match in `a`, the search continues in `b`, offset by `|a|`. */
  lemma {:induction false} FirstOfConcat<T>(a: seq<T>, b: seq<T>, p: T -> bool)
    ensures First(a, p).Some? ==> First(a + b, p) == First(a, p)
    ensures First(a, p).None? && First(b, p).None? ==> First(a + b, p).None?
    ensures First(a, p).None? && First(b, p).Some? ==>
              First(a + b, p) == Some(|a| + First(b, p).value)
  {
    if |a| > 0 {
      assert (a + b)[1..] == a[1..] + b;
      FirstOfConcat(a[1..], b, p);
    } else {
      assert a + b == b;
    }
  }

  /** The elements of `s` satisfying `p`, in their original order. */
  function Filter<T>(s: seq<T>, p: T -> bool): (r: seq<T>)
    ensures |r| <= |s|
    ensures forall k :: 0 <= k < |r| ==> p(r[k]) && r[k] in s
    ensures forall j :: 0 <= j < |s| && p(s[j]) ==> s[j] in r
  {
    if |s| == 0 then []
    else if p(s[0]) then [s[0]] + Filter(s[1..], p)
    else Filter(s[1..], p)
  }

  /** Filtering distributes over concatenation, so relative order is kept. */
  lemma {:induction false} FilterOfConcat<T>(a: seq<T>, b: seq<T>, p: T -> bool)
    ensures Filter(a + b, p) == Filter(a, p) + Filter(b, p)
  {
    if |a| > 0 {
      assert (a + b)[1..] == a[1..] + b;
      FilterOfConcat(a[1..], b, p);
    } else {
      assert a + b == b;
    }
  }
}
