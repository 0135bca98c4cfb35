/** The handwritten-digit analyses page: the search over ids, notes and digit values, the row
    of recent digits, and the number of distinct devices. */
module MnistPage {
  import opened JsText
  import opened JsArray
  import opened Analyses

  const RecentLimit := 10

  /** The page's records carry a numeric `value` in every result and in the dominant result. */
  predicate DigitValued(a: Analysis) {
    (a.results.Some? ==> forall i :: 0 <= i < |a.results.value| ==> a.results.value[i].value.Some?)
    && (a.dominantResult.Some? ==> a.dominantResult.value.value.Some?)
  }

  predicate AllDigitValued(s: seq<Analysis>) {
    forall i :: 0 <= i < |s| ==> DigitValued(s[i])
  }

  // ---------------------------------------------------------------------------
  // search

  /** `result.value.toString().includes(search)`, case-sensitive. */
  predicate DigitTextContains(r: ResultItem, search: string) {
    r.value.Some? && Contains(IntToString(r.value.value), search)
  }

  /** Some result of the row has a digit whose decimal text contains the search. */
  predicate AnyDigitContains(a: Analysis, search: string) {
    a.results.Some? && exists i | 0 <= i < |a.results.value| :: DigitTextContains(a.results.value[i], search)
  }

  /** A row matches an empty search; otherwise its resolved id or its notes must contain the
      search ignoring case, or the decimal text of one of its digits must contain it, the
      results first and then the dominant result. */
  predicate MnistMatches(a: Analysis, search: string) {
    search == ""
    || ContainsIgnoreCase(ResolvedId(a), search) || ContainsIgnoreCase(OrDefault(a.notes, ""), search)
    || AnyDigitContains(a, search)
    || (a.dominantResult.Some? && DigitTextContains(a.dominantResult.value, search))
  }

  /** `filteredAnalyses` of the digit page: the matching rows, in their order. */
  function FilteredAnalyses(analyses: seq<Analysis>, search: string): (r: seq<Analysis>)
    ensures IsSubsequence(r, analyses)
    ensures forall a :: a in r <==> a in analyses && MnistMatches(a, search)
    ensures forall a :: multiset(r)[a] == if MnistMatches(a, search) then multiset(analyses)[a] else 0
  {
    FilterSpec(analyses, a => MnistMatches(a, search));
    FilterCounts(analyses, a => MnistMatches(a, search));
    Filter(analyses, a => MnistMatches(a, search))
  }

  /** An empty search keeps every row. */
  lemma EmptySearchKeepsAll(analyses: seq<Analysis>)
    ensures FilteredAnalyses(analyses, "") == analyses
  {
    FilterKeepsAll(analyses, a => MnistMatches(a, ""));
  }

  /** A digit found in a result is found by the search for its decimal text. */
  lemma DigitSearchFindsValue(a: Analysis, k: nat)
    requires a.results.Some? && k < |a.results.value| && a.results.value[k].value.Some?
    ensures MnistMatches(a, IntToString(a.results.value[k].value.value))
  {
    ContainsSelf(IntToString(a.results.value[k].value.value));
    assert DigitTextContains(a.results.value[k], IntToString(a.results.value[k].value.value));
  }

  // ---------------------------------------------------------------------------
  // recent digits

  /** Whether the row has a first result. */
  predicate HasFirstResult(a: Analysis) {
    a.results.Some? && |a.results.value| > 0
  }

  /** `analysis.results?.[0]?.value`: the digit of the row's first result; the dominant result
      is not consulted. */
  function FirstDigit(a: Analysis): (r: Option<int>)
    requires DigitValued(a)
    ensures r.Some? <==> HasFirstResult(a)
    ensures r.Some? ==> Some(r.value) == a.results.value[0].value
  {
    if HasFirstResult(a) then a.results.value[0].value else None
  }

  /** The digits of the rows that have a first result, in row order: the i-th digit is the
      first result of the i-th such row. */
  function Digits(s: seq<Analysis>): (r: seq<int>)
    requires AllDigitValued(s)
    ensures |r| == |Filter(s, HasFirstResult)|
    ensures forall i :: 0 <= i < |r| ==>
              HasFirstResult(Filter(s, HasFirstResult)[i])
              && Some(r[i]) == Filter(s, HasFirstResult)[i].results.value[0].value
    ensures forall x :: x in r <==> exists i | 0 <= i < |s| :: FirstDigit(s[i]) == Some(x)
    decreases |s|
  {
    if |s| == 0 then []
    else
      var rest := Digits(s[1..]);
      assert forall i :: 1 <= i < |s| ==> s[i] == s[1..][i - 1];
      match FirstDigit(s[0])
      case Some(d) => [d] + rest
      case None => rest
  }

  /** `recentDigits`: the first-result digits among the first ten rows, in row order. */
  function RecentDigits(s: seq<Analysis>): (r: seq<int>)
    requires AllDigitValued(s)
    ensures AllDigitValued(Slice(s, 0, RecentLimit)) && r == Digits(Slice(s, 0, RecentLimit))
    ensures |r| <= RecentLimit
    ensures forall x :: x in r <==>
              exists i | 0 <= i < |s| && i < RecentLimit :: FirstDigit(s[i]) == Some(x)
  {
    SliceFront(s, RecentLimit);
    var head := Slice(s, 0, RecentLimit);
    assert forall i :: 0 <= i < |head| ==> head[i] == s[i];
    Digits(head)
  }

  /** When each row has a first result, the digits are exactly those results' digits, row by
      row. */
  lemma DigitsOfFullRows(s: seq<Analysis>)
    requires AllDigitValued(s)
    requires forall i :: 0 <= i < |s| ==> HasFirstResult(s[i])
    ensures |Digits(s)| == |s|
    ensures forall i :: 0 <= i < |s| ==> Some(Digits(s)[i]) == s[i].results.value[0].value
  {
    FilterKeepsAll(s, HasFirstResult);
  }

  /** Two lists whose rows agree on their results give the same digits, whatever their
      dominant results. */
  lemma {:induction false} DigitsIgnoreDominant(s: seq<Analysis>, t: seq<Analysis>)
    requires AllDigitValued(s) && AllDigitValued(t) && |s| == |t|
    requires forall i :: 0 <= i < |s| ==> s[i].results == t[i].results
    ensures Digits(s) == Digits(t)
    decreases |s|
  {
    if |s| > 0 {
      DigitsIgnoreDominant(s[1..], t[1..]);
    }
  }

  // ---------------------------------------------------------------------------
  // devices

  predicate HasDevice(a: Analysis) {
    Truthy(a.deviceInfo)
  }

  /** `new Set(analyses.map(a => a.deviceInfo).filter(Boolean))`: the non-empty device names. */
  function Devices(s: seq<Analysis>): (r: set<string>)
    ensures forall d :: d in r <==> exists i | 0 <= i < |s| :: HasDevice(s[i]) && s[i].deviceInfo.value == d
    ensures |r| <= Count(s, HasDevice)
    decreases |s|
  {
    if |s| == 0 then {}
    else
      var rest := Devices(s[1..]);
      assert forall i :: 1 <= i < |s| ==> s[i] == s[1..][i - 1];
      if HasDevice(s[0]) then
        assert |rest + {s[0].deviceInfo.value}| <= |rest| + 1;
        rest + {s[0].deviceInfo.value}
      else rest
  }

  /** The number the page shows as distinct devices. */
  function DistinctDevices(s: seq<Analysis>): (r: nat)
    ensures r <= Count(s, HasDevice) <= |s|
  {
    |Devices(s)|
  }

  /** Rows that all name the same device count as one device. */
  lemma OneDevice(s: seq<Analysis>, d: string)
    requires |s| > 0 && d != ""
    requires forall i :: 0 <= i < |s| ==> s[i].deviceInfo == Some(d)
    ensures DistinctDevices(s) == 1
  {
    assert Devices(s) == {d};
  }
}
