/** The dashboard: one fetch of every analysis, from the admin endpoint or, when that throws,
    from the user's own list, and the figures derived from it: counts by type, today's count,
    the average confidence, the parasite and digit histograms with their top five, and the
    last seven days by type. */
module Dashboard {
  import opened JsText
  import opened JsArray
  import opened ApiClient
  import opened Analyses

  const ParasiteType := "Parasite"
  const MnistType := "MNIST"
  const TopLimit := 5
  const WeekLength := 7

  /** The part of a list response the dashboard reads. */
  datatype ResponseBody = ResponseBody(success: bool, analyses: Option<seq<Analysis>>)

  /** One histogram entry: a key and the number of rows that carry it. */
  datatype Entry<K> = Entry(key: K, count: nat)

  /** One bar of the weekly chart: a UTC day number and the analyses of each type on it. */
  datatype WeekDay = WeekDay(day: int, parasite: nat, mnist: nat)

  /** The figures the dashboard shows; percentages and the device split are left out. */
  datatype Stats = Stats(totalAnalyses: nat, parasiteAnalyses: nat, mnistAnalyses: nat, todayAnalyses: nat,
                         avgConfidence: real, topParasites: seq<Entry<string>>, topDigits: seq<Entry<int>>,
                         weeklyData: seq<WeekDay>)

  const InitialStats := Stats(0, 0, 0, 0, 0.0, [], [], [])

  // ---------------------------------------------------------------------------
  // rows

  predicate IsParasite(a: Analysis) {
    a.analysisType == Some(ParasiteType)
  }

  predicate IsMnist(a: Analysis) {
    a.analysisType == Some(MnistType)
  }

  /** The two type counts never exceed the number of analyses together. */
  lemma TypeCountsWithinTotal(analyses: seq<Analysis>)
    ensures Count(analyses, IsParasite) + Count(analyses, IsMnist) <= |analyses|
  {
    CountDisjoint(analyses, IsParasite, IsMnist);
  }

  /** `new Date(a.timestamp || a.createdAt)` as a UTC day number: `dateOf` reads a timestamp
      text, and gives `None` for one that is not a date; a row with neither field has none. */
  function DayOf(a: Analysis, dateOf: string -> Option<int>): (r: Option<int>)
    ensures Truthy(a.timestamp) ==> r == dateOf(a.timestamp.value)
    ensures !Truthy(a.timestamp) && a.createdAt.Some? ==> r == dateOf(a.createdAt.value)
    ensures !Truthy(a.timestamp) && a.createdAt.None? ==> r == None
  {
    match OrElse(a.timestamp, a.createdAt)
    case Some(s) => dateOf(s)
    case None => None
  }

  /** Every row has a date; otherwise `toISOString` throws on the first row without one. */
  predicate AllDated(analyses: seq<Analysis>, dateOf: string -> Option<int>) {
    forall i :: 0 <= i < |analyses| ==> DayOf(analyses[i], dateOf).Some?
  }

  function OnDay(dateOf: string -> Option<int>, day: int): Analysis -> bool {
    a => DayOf(a, dateOf) == Some(day)
  }

  function OnDayOfType(dateOf: string -> Option<int>, day: int, t: string): Analysis -> bool {
    a => DayOf(a, dateOf) == Some(day) && a.analysisType == Some(t)
  }

  // ---------------------------------------------------------------------------
  // average confidence

  /** `a.dominantResult && a.dominantResult.confidence`: a dominant result with a non-zero
      confidence. */
  predicate HasConfidence(a: Analysis) {
    a.dominantResult.Some? && a.dominantResult.value.confidence != 0.0
  }

  function ConfidenceOf(a: Analysis): real {
    if HasConfidence(a) then a.dominantResult.value.confidence else 0.0
  }

  /** The confidences the loop adds up, row by row. */
  function ConfidenceSum(s: seq<Analysis>): real
    decreases |s|
  {
    if |s| == 0 then 0.0 else ConfidenceSum(s[..|s| - 1]) + ConfidenceOf(s[|s| - 1])
  }

  /** `count > 0 ? (total / count) * 100 : 0`, in exact arithmetic. */
  function Average(total: real, count: nat): (r: real)
    ensures count == 0 ==> r == 0.0
    ensures count > 0 ==> r * (count as real) == total * 100.0
  {
    if count > 0 then (total / count as real) * 100.0 else 0.0
  }

  /** The two counters of the confidence loop over a list. */
  method SumConfidence(analyses: seq<Analysis>) returns (total: real, count: nat)
    ensures total == ConfidenceSum(analyses) && count == Count(analyses, HasConfidence)
  {
    total, count := 0.0, 0;
    for i := 0 to |analyses|
      invariant total == ConfidenceSum(analyses[..i])
      invariant count == Count(analyses[..i], HasConfidence)
    {
      var a := analyses[i];
      assert analyses[..i + 1] == analyses[..i] + [a];
      CountSnoc(analyses[..i], a, HasConfidence);
      if a.dominantResult.Some? && a.dominantResult.value.confidence != 0.0 {
        total := total + a.dominantResult.value.confidence;
        count := count + 1;
      }
    }
    assert analyses[..|analyses|] == analyses;
  }

  /** The confidences a model reports lie in [0, 1]. */
  predicate ConfidencesInRange(s: seq<Analysis>) {
    forall i :: 0 <= i < |s| ==> !HasConfidence(s[i]) || 0.0 <= s[i].dominantResult.value.confidence <= 1.0
  }

  /** With confidences in [0, 1], the sum lies between 0 and the number of rows counted. */
  lemma {:induction false} ConfidenceSumBounds(s: seq<Analysis>)
    requires ConfidencesInRange(s)
    ensures 0.0 <= ConfidenceSum(s) <= Count(s, HasConfidence) as real
    decreases |s|
  {
    if |s| > 0 {
      var init, last := s[..|s| - 1], s[|s| - 1];
      assert ConfidencesInRange(init) by {
        assert forall i :: 0 <= i < |init| ==> init[i] == s[i];
      }
      ConfidenceSumBounds(init);
      assert s == init + [last];
      CountSnoc(init, last, HasConfidence);
    }
  }

  /** With confidences in [0, 1], the average is a percentage. */
  lemma AverageIsPercentage(s: seq<Analysis>)
    requires ConfidencesInRange(s)
    ensures 0.0 <= Average(ConfidenceSum(s), Count(s, HasConfidence)) <= 100.0
  {
    ConfidenceSumBounds(s);
    var n := Count(s, HasConfidence);
    if n > 0 {
      RatioWithinOne(ConfidenceSum(s), n as real);
    }
  }

  lemma RatioWithinOne(part: real, whole: real)
    requires 0.0 <= part <= whole && whole > 0.0
    ensures 0.0 <= part / whole <= 1.0
  {
    assert part / whole * whole == part;
  }

  // ---------------------------------------------------------------------------
  // histograms

  /** The position of key `k` among the entries, or their number when it is absent. */
  function IndexOfKey<K(==)>(hist: seq<Entry<K>>, k: K): (j: nat)
    ensures j <= |hist|
    ensures j < |hist| ==> hist[j].key == k
    ensures forall m :: 0 <= m < j ==> hist[m].key != k
    decreases |hist|
  {
    if |hist| == 0 then 0 else if hist[0].key == k then 0 else 1 + IndexOfKey(hist[1..], k)
  }

  predicate KeyIn<K(==)>(hist: seq<Entry<K>>, k: K) {
    exists j | 0 <= j < |hist| :: hist[j].key == k
  }

  /** `dict[k] = (dict[k] || 0) + 1` on an object whose keys keep insertion order. */
  function Bump<K(==)>(hist: seq<Entry<K>>, k: K): seq<Entry<K>> {
    var j := IndexOfKey(hist, k);
    if j < |hist| then hist[j := Entry(k, hist[j].count + 1)] else hist + [Entry(k, 1)]
  }

  /** One step of the `forEach`: a row without a key leaves the dictionary alone. */
  function Add<K(==)>(hist: seq<Entry<K>>, key: Option<K>): seq<Entry<K>> {
    match key
    case None => hist
    case Some(k) => Bump(hist, k)
  }

  /** The dictionary after the `forEach` over `rows`, as `Object.entries` lists it. */
  function Histogram<T, K(==)>(rows: seq<T>, keyOf: T -> Option<K>): seq<Entry<K>>
    decreases |rows|
  {
    if |rows| == 0 then [] else Add(Histogram(rows[..|rows| - 1], keyOf), keyOf(rows[|rows| - 1]))
  }

  /** The histogram loop over a list. */
  method Tally<T, K(==)>(rows: seq<T>, keyOf: T -> Option<K>) returns (hist: seq<Entry<K>>)
    ensures hist == Histogram(rows, keyOf)
  {
    hist := [];
    for i := 0 to |rows|
      invariant hist == Histogram(rows[..i], keyOf)
    {
      assert rows[..i + 1][..i] == rows[..i];
      var key := keyOf(rows[i]);
      if key.Some? {
        var j := IndexOfKey(hist, key.value);
        if j < |hist| {
          hist := hist[j := Entry(key.value, hist[j].count + 1)];
        } else {
          hist := hist + [Entry(key.value, 1)];
        }
      }
    }
    assert rows[..|rows|] == rows;
  }

  ghost function HasKey<T, K>(keyOf: T -> Option<K>, k: K): T -> bool {
    x => keyOf(x) == Some(k)
  }

  function Keyed<T, K>(keyOf: T -> Option<K>): T -> bool {
    x => keyOf(x).Some?
  }

  /** The number of rows that carry key `k`. */
  ghost function Occurrences<T, K>(rows: seq<T>, keyOf: T -> Option<K>, k: K): nat {
    Count(rows, HasKey(keyOf, k))
  }

  /** The position of the first row that carries key `k`. */
  ghost function FirstSeen<T, K>(rows: seq<T>, keyOf: T -> Option<K>, k: K): nat {
    FirstIndex(rows, HasKey(keyOf, k))
  }

  function SumCounts<K>(hist: seq<Entry<K>>): nat
    decreases |hist|
  {
    if |hist| == 0 then 0 else SumCounts(hist[..|hist| - 1]) + hist[|hist| - 1].count
  }

  ghost predicate DistinctKeys<K>(hist: seq<Entry<K>>) {
    forall i, j :: 0 <= i < j < |hist| ==> hist[i].key != hist[j].key
  }

  /** Each entry holds the number of rows that carry its key. */
  ghost predicate CountsMatch<T, K>(hist: seq<Entry<K>>, rows: seq<T>, keyOf: T -> Option<K>) {
    forall j :: 0 <= j < |hist| ==> hist[j].count == Occurrences(rows, keyOf, hist[j].key)
  }

  /** A key has an entry exactly when some row carries it. */
  ghost predicate KeysCovered<T, K(!new)>(hist: seq<Entry<K>>, rows: seq<T>, keyOf: T -> Option<K>) {
    forall k :: KeyIn(hist, k) <==> Occurrences(rows, keyOf, k) > 0
  }

  /** The entries come in the order their keys first occur among the rows. */
  ghost predicate FirstSeenOrder<T, K>(hist: seq<Entry<K>>, rows: seq<T>, keyOf: T -> Option<K>) {
    forall i, j :: 0 <= i < j < |hist| ==> FirstSeen(rows, keyOf, hist[i].key) < FirstSeen(rows, keyOf, hist[j].key)
  }

  /** What a histogram of `rows` promises: one entry per key that occurs, holding the number
      of rows with that key, the entries in the order their keys first occur, and as many
      counted rows in all as rows with a key. */
  ghost predicate Tallies<T, K(!new)>(hist: seq<Entry<K>>, rows: seq<T>, keyOf: T -> Option<K>) {
    DistinctKeys(hist) && CountsMatch(hist, rows, keyOf) && KeysCovered(hist, rows, keyOf)
    && FirstSeenOrder(hist, rows, keyOf) && SumCounts(hist) == Count(rows, Keyed(keyOf))
  }

  /** The histogram of a list keeps every promise of `Tallies`. */
  lemma {:induction false} HistogramTallies<T, K(!new)>(rows: seq<T>, keyOf: T -> Option<K>)
    ensures Tallies(Histogram(rows, keyOf), rows, keyOf)
    decreases |rows|
  {
    if |rows| > 0 {
      var init, last := rows[..|rows| - 1], rows[|rows| - 1];
      HistogramTallies(init, keyOf);
      assert rows == init + [last];
      AddTallies(Histogram(init, keyOf), init, keyOf, last);
    }
  }

  /** Keys already counted keep their first position when one more row is counted. */
  lemma FirstSeenSnoc<T, K>(rows: seq<T>, keyOf: T -> Option<K>, x: T, k: K)
    requires Occurrences(rows, keyOf, k) > 0
    ensures FirstSeen(rows + [x], keyOf, k) == FirstSeen(rows, keyOf, k) < |rows|
  {
    CountPositive(rows, HasKey(keyOf, k));
    FirstIndexSnoc(rows, x, HasKey(keyOf, k));
  }

  /** Raising one count raises the sum by one. */
  lemma {:induction false} SumCountsBump<K>(hist: seq<Entry<K>>, j: nat, e: Entry<K>)
    requires j < |hist| && e.count == hist[j].count + 1
    ensures SumCounts(hist[j := e]) == SumCounts(hist) + 1
    decreases |hist|
  {
    var n := |hist|;
    if j < n - 1 {
      assert hist[j := e][..n - 1] == hist[..n - 1][j := e];
      SumCountsBump(hist[..n - 1], j, e);
    } else {
      assert hist[j := e][..n - 1] == hist[..n - 1];
    }
  }

  /** One step of the loop keeps every promise of `Tallies`. */
  lemma AddTallies<T, K(!new)>(hist: seq<Entry<K>>, rows: seq<T>, keyOf: T -> Option<K>, x: T)
    requires Tallies(hist, rows, keyOf)
    ensures Tallies(Add(hist, keyOf(x)), rows + [x], keyOf)
  {
    CountSnoc(rows, x, Keyed(keyOf));
    match keyOf(x)
    case None =>
      SkipCounts(hist, rows, keyOf, x);
      SkipCovered(hist, rows, keyOf, x);
      KeepOrder(hist, rows, keyOf, x);
    case Some(k) =>
      if IndexOfKey(hist, k) < |hist| {
        BumpTallies(hist, rows, keyOf, x, k);
      } else {
        AppendTallies(hist, rows, keyOf, x, k);
      }
  }

  lemma BumpTallies<T, K(!new)>(hist: seq<Entry<K>>, rows: seq<T>, keyOf: T -> Option<K>, x: T, k: K)
    requires Tallies(hist, rows, keyOf)
    requires keyOf(x) == Some(k) && IndexOfKey(hist, k) < |hist|
    requires Count(rows + [x], Keyed(keyOf)) == Count(rows, Keyed(keyOf)) + 1
    ensures Tallies(Bump(hist, k), rows + [x], keyOf)
  {
    var j := IndexOfKey(hist, k);
    var r := hist[j := Entry(k, hist[j].count + 1)];
    assert Bump(hist, k) == r;
    SameKeys(hist, r);
    BumpCounts(hist, rows, keyOf, x, k);
    BumpCovered(hist, rows, keyOf, x, k);
    KeepOrder(hist, rows, keyOf, x);
    SameKeysOrder(hist, r, rows + [x], keyOf);
    SumCountsBump(hist, j, Entry(k, hist[j].count + 1));
  }

  lemma AppendTallies<T, K(!new)>(hist: seq<Entry<K>>, rows: seq<T>, keyOf: T -> Option<K>, x: T, k: K)
    requires Tallies(hist, rows, keyOf)
    requires keyOf(x) == Some(k) && IndexOfKey(hist, k) == |hist|
    requires Count(rows + [x], Keyed(keyOf)) == Count(rows, Keyed(keyOf)) + 1
    ensures Tallies(Bump(hist, k), rows + [x], keyOf)
  {
    AppendCounts(hist, rows, keyOf, x, k);
    AppendCovered(hist, rows, keyOf, x, k);
    AppendOrder(hist, rows, keyOf, x, k);
    assert (hist + [Entry(k, 1)])[..|hist|] == hist;
  }

  lemma SameKeysOrder<T, K>(a: seq<Entry<K>>, b: seq<Entry<K>>, rows: seq<T>, keyOf: T -> Option<K>)
    requires |a| == |b| && forall m :: 0 <= m < |a| ==> a[m].key == b[m].key
    requires FirstSeenOrder(a, rows, keyOf)
    ensures FirstSeenOrder(b, rows, keyOf)
  {
  }

  /** Two lists of entries with the same keys, position by position. */
  lemma SameKeys<K>(a: seq<Entry<K>>, b: seq<Entry<K>>)
    requires |a| == |b| && forall m :: 0 <= m < |a| ==> a[m].key == b[m].key
    ensures DistinctKeys(a) ==> DistinctKeys(b)
    ensures forall k :: KeyIn(a, k) <==> KeyIn(b, k)
  {
  }

  /** A row without a key changes no count. */
  lemma SkipCounts<T, K>(hist: seq<Entry<K>>, rows: seq<T>, keyOf: T -> Option<K>, x: T)
    requires CountsMatch(hist, rows, keyOf) && keyOf(x).None?
    ensures CountsMatch(hist, rows + [x], keyOf)
  {
    forall j | 0 <= j < |hist| ensures hist[j].count == Occurrences(rows + [x], keyOf, hist[j].key) {
      CountSnoc(rows, x, HasKey(keyOf, hist[j].key));
    }
  }

  lemma SkipCovered<T, K(!new)>(hist: seq<Entry<K>>, rows: seq<T>, keyOf: T -> Option<K>, x: T)
    requires KeysCovered(hist, rows, keyOf) && keyOf(x).None?
    ensures KeysCovered(hist, rows + [x], keyOf)
  {
    forall k ensures KeyIn(hist, k) <==> Occurrences(rows + [x], keyOf, k) > 0 {
      CountSnoc(rows, x, HasKey(keyOf, k));
    }
  }

  /** Keys that have entries keep their first position, so their order stays. */
  lemma KeepOrder<T, K(!new)>(hist: seq<Entry<K>>, rows: seq<T>, keyOf: T -> Option<K>, x: T)
    requires KeysCovered(hist, rows, keyOf) && FirstSeenOrder(hist, rows, keyOf)
    ensures FirstSeenOrder(hist, rows + [x], keyOf)
    ensures forall j :: 0 <= j < |hist| ==> FirstSeen(rows + [x], keyOf, hist[j].key) < |rows|
  {
    forall j | 0 <= j < |hist|
      ensures FirstSeen(rows + [x], keyOf, hist[j].key) == FirstSeen(rows, keyOf, hist[j].key) < |rows|
    {
      assert KeyIn(hist, hist[j].key);
      FirstSeenSnoc(rows, keyOf, x, hist[j].key);
    }
  }

  /** A row with a key that has an entry raises that entry's count by one. */
  lemma BumpCounts<T, K>(hist: seq<Entry<K>>, rows: seq<T>, keyOf: T -> Option<K>, x: T, k: K)
    requires DistinctKeys(hist) && CountsMatch(hist, rows, keyOf)
    requires keyOf(x) == Some(k) && IndexOfKey(hist, k) < |hist|
    ensures CountsMatch(Bump(hist, k), rows + [x], keyOf)
  {
    var r := Bump(hist, k);
    forall m | 0 <= m < |r| ensures r[m].count == Occurrences(rows + [x], keyOf, r[m].key) {
      CountSnoc(rows, x, HasKey(keyOf, r[m].key));
    }
  }

  lemma BumpCovered<T, K(!new)>(hist: seq<Entry<K>>, rows: seq<T>, keyOf: T -> Option<K>, x: T, k: K)
    requires KeysCovered(hist, rows, keyOf)
    requires keyOf(x) == Some(k) && IndexOfKey(hist, k) < |hist|
    ensures KeysCovered(Bump(hist, k), rows + [x], keyOf)
  {
    var j := IndexOfKey(hist, k);
    var r := Bump(hist, k);
    assert KeyIn(hist, k);
    SameKeys(hist, r);
    forall k' ensures KeyIn(r, k') <==> Occurrences(rows + [x], keyOf, k') > 0 {
      CountSnoc(rows, x, HasKey(keyOf, k'));
    }
  }

  /** A row with a key that has no entry yet adds one, counting one. */
  lemma AppendCounts<T, K(!new)>(hist: seq<Entry<K>>, rows: seq<T>, keyOf: T -> Option<K>, x: T, k: K)
    requires KeysCovered(hist, rows, keyOf) && CountsMatch(hist, rows, keyOf)
    requires keyOf(x) == Some(k) && IndexOfKey(hist, k) == |hist|
    ensures DistinctKeys(hist) ==> DistinctKeys(Bump(hist, k))
    ensures CountsMatch(Bump(hist, k), rows + [x], keyOf)
  {
    AppendDistinct(hist, k);
    var r := Bump(hist, k);
    assert r == hist + [Entry(k, 1)];
    assert Occurrences(rows, keyOf, k) == 0 by {
      assert !KeyIn(hist, k);
    }
    forall m | 0 <= m < |r| ensures r[m].count == Occurrences(rows + [x], keyOf, r[m].key) {
      OccurrencesSnoc(rows, keyOf, x, r[m].key);
      if m < |hist| {
        assert r[m] == hist[m] && hist[m].key != k;
      }
    }
  }

  lemma AppendDistinct<K>(hist: seq<Entry<K>>, k: K)
    requires IndexOfKey(hist, k) == |hist|
    ensures DistinctKeys(hist) ==> DistinctKeys(Bump(hist, k))
  {
    var r := Bump(hist, k);
    assert r == hist + [Entry(k, 1)];
    assert forall m :: 0 <= m < |hist| ==> r[m] == hist[m] && hist[m].key != k;
  }

  /** One more row adds one to the count of its own key and to no other. */
  lemma OccurrencesSnoc<T, K>(rows: seq<T>, keyOf: T -> Option<K>, x: T, key: K)
    ensures Occurrences(rows + [x], keyOf, key) == Occurrences(rows, keyOf, key) + (if keyOf(x) == Some(key) then 1 else 0)
  {
    CountSnoc(rows, x, HasKey(keyOf, key));
  }

  lemma AppendCovered<T, K(!new)>(hist: seq<Entry<K>>, rows: seq<T>, keyOf: T -> Option<K>, x: T, k: K)
    requires KeysCovered(hist, rows, keyOf)
    requires keyOf(x) == Some(k) && IndexOfKey(hist, k) == |hist|
    ensures KeysCovered(Bump(hist, k), rows + [x], keyOf)
  {
    var r := Bump(hist, k);
    forall k' ensures KeyIn(r, k') <==> Occurrences(rows + [x], keyOf, k') > 0 {
      CountSnoc(rows, x, HasKey(keyOf, k'));
      if KeyIn(hist, k') {
        var m :| 0 <= m < |hist| && hist[m].key == k';
        assert r[m].key == k';
      }
      if KeyIn(r, k') && k' != k {
        var m :| 0 <= m < |r| && r[m].key == k';
        assert hist[m].key == k';
      }
      if k' == k {
        assert r[|hist|].key == k';
      }
    }
  }

  /** A new key occurs first at the new row, after every key that has an entry. */
  lemma AppendOrder<T, K(!new)>(hist: seq<Entry<K>>, rows: seq<T>, keyOf: T -> Option<K>, x: T, k: K)
    requires KeysCovered(hist, rows, keyOf) && FirstSeenOrder(hist, rows, keyOf)
    requires keyOf(x) == Some(k) && IndexOfKey(hist, k) == |hist|
    ensures FirstSeenOrder(Bump(hist, k), rows + [x], keyOf)
  {
    var r := Bump(hist, k);
    assert !KeyIn(hist, k);
    CountPositive(rows, HasKey(keyOf, k));
    FirstIndexSnoc(rows, x, HasKey(keyOf, k));
    assert FirstSeen(rows + [x], keyOf, k) == |rows|;
    KeepOrder(hist, rows, keyOf, x);
    forall i, j | 0 <= i < j < |r|
      ensures FirstSeen(rows + [x], keyOf, r[i].key) < FirstSeen(rows + [x], keyOf, r[j].key)
    {
      assert r[i] == hist[i];
      if j < |hist| {
        assert r[j] == hist[j];
      } else {
        assert r[j].key == k;
      }
    }
  }

  // ---------------------------------------------------------------------------
  // the keys of the two histograms

  /** `a.dominantResult && a.dominantResult.type`: the parasite type a row adds to. */
  function DominantType(a: Analysis): (r: Option<string>)
    ensures r.Some? <==> a.dominantResult.Some? && Truthy(a.dominantResult.value.kind)
    ensures r.Some? ==> Some(r.value) == a.dominantResult.value.kind
  {
    if a.dominantResult.Some? && Truthy(a.dominantResult.value.kind) then a.dominantResult.value.kind else None
  }

  /** `typeof a.dominantResult.value === 'number'`: the digit a row adds to. */
  function DominantDigit(a: Analysis): (r: Option<int>)
    ensures r.Some? <==> a.dominantResult.Some? && a.dominantResult.value.value.Some?
    ensures r.Some? ==> Some(r.value) == a.dominantResult.value.value
  {
    if a.dominantResult.Some? then a.dominantResult.value.value else None
  }

  /** The parasite histogram: each entry counts the parasite analyses whose dominant result
      has that type, and all entries together count no more than the parasite analyses. */
  lemma ParasiteHistogram(analyses: seq<Analysis>)
    ensures Tallies(Histogram(Filter(analyses, IsParasite), DominantType), Filter(analyses, IsParasite), DominantType)
    ensures SumCounts(Histogram(Filter(analyses, IsParasite), DominantType)) <= Count(analyses, IsParasite)
  {
    HistogramTallies(Filter(analyses, IsParasite), DominantType);
  }

  /** The digit histogram, the same over the digit analyses and their numeric values. */
  lemma DigitHistogram(analyses: seq<Analysis>)
    ensures Tallies(Histogram(Filter(analyses, IsMnist), DominantDigit), Filter(analyses, IsMnist), DominantDigit)
    ensures SumCounts(Histogram(Filter(analyses, IsMnist), DominantDigit)) <= Count(analyses, IsMnist)
  {
    HistogramTallies(Filter(analyses, IsMnist), DominantDigit);
  }

  // ---------------------------------------------------------------------------
  // ranking

  function CountOf<K>(e: Entry<K>): int {
    e.count
  }

  /** `entries.sort((a, b) => b.count - a.count).slice(0, 5)`. */
  function TopEntries<K>(entries: seq<Entry<K>>): (r: seq<Entry<K>>)
    ensures |r| == if |entries| < TopLimit then |entries| else TopLimit
  {
    SliceFront(SortDesc(entries, CountOf), TopLimit);
    Slice(SortDesc(entries, CountOf), 0, TopLimit)
  }

  /** The top entries come from the entries, in non-increasing count order, and no entry left
      out has a larger count than one taken. */
  lemma TopEntriesRank<K>(entries: seq<Entry<K>>)
    ensures SortedDesc(TopEntries(entries), CountOf)
    ensures forall e :: e in TopEntries(entries) ==> e in entries
    ensures forall e, t :: e in entries && e !in TopEntries(entries) && t in TopEntries(entries) ==> e.count <= t.count
  {
    var sorted := SortDesc(entries, CountOf);
    SortDescSpec(entries, CountOf);
    SliceFront(sorted, TopLimit);
    var top := TopEntries(entries);
    PrefixRank(sorted, |top|, CountOf);
    forall e | e in entries ensures e in sorted {
      assert e in multiset(sorted);
    }
    forall e | e in top ensures e in entries {
      assert e in multiset(sorted);
    }
  }

  /** A prefix of a list in non-increasing key order is in that order too, and holds the
      largest keys. */
  lemma PrefixRank<T>(s: seq<T>, n: nat, key: T -> int)
    requires SortedDesc(s, key) && n <= |s|
    ensures SortedDesc(s[..n], key)
    ensures forall e, t :: e in s && e !in s[..n] && t in s[..n] ==> key(e) <= key(t)
  {
    assert forall m :: 0 <= m < n ==> s[m] in s[..n] by {
      forall m | 0 <= m < n ensures s[m] in s[..n] {
        assert s[..n][m] == s[m];
      }
    }
    forall e, t | e in s && e !in s[..n] && t in s[..n] ensures key(e) <= key(t) {
      var i :| 0 <= i < |s| && s[i] == e;
      var j :| 0 <= j < n && s[..n][j] == t;
      assert s[j] == t;
    }
  }

  /** Entries with equal counts keep their order: those of any one count in the top five are
      the first of those in the list. */
  lemma TopEntriesTies<K>(entries: seq<Entry<K>>, c: int)
    ensures var tied := Filter(entries, KeyEquals(CountOf, c));
            var top := Filter(TopEntries(entries), KeyEquals(CountOf, c));
            |top| <= |tied| && top == tied[..|top|]
  {
    var sorted := SortDesc(entries, CountOf);
    var p := KeyEquals(CountOf, c);
    SortDescStable(entries, CountOf, c);
    SliceFront(sorted, TopLimit);
    var top := TopEntries(entries);
    assert sorted == top + sorted[|top|..];
    FilterAppend(top, sorted[|top|..], p);
  }

  /** A key of a numeric dictionary that is an array index. */
  predicate IsIndexKey(e: Entry<int>) {
    e.key >= 0
  }

  predicate NotIndexKey(e: Entry<int>) {
    e.key < 0
  }

  function NegatedKey(e: Entry<int>): int {
    -e.key
  }

  /** `Object.entries` of a dictionary with numeric keys: the keys that are array indices
      first, in increasing order, then the negative ones in the order they were added. */
  function EntriesOrder(hist: seq<Entry<int>>): seq<Entry<int>> {
    SortDesc(Filter(hist, IsIndexKey), NegatedKey) + Filter(hist, NotIndexKey)
  }

  /** The listing holds the same entries, the index keys in increasing order ahead of the
      negative ones. */
  lemma EntriesOrderSpec(hist: seq<Entry<int>>)
    ensures forall e :: e in EntriesOrder(hist) <==> e in hist
    ensures var r, n := EntriesOrder(hist), Count(hist, IsIndexKey);
            n <= |r|
            && (forall i, j :: 0 <= i < j < n ==> r[i].key <= r[j].key)
            && (forall i :: 0 <= i < n ==> r[i].key >= 0)
            && (forall i :: n <= i < |r| ==> r[i].key < 0)
  {
    EntriesMembers(hist);
    SortedIndexPart(hist);
    NegativePart(hist);
    IndexKeysFirst(SortDesc(Filter(hist, IsIndexKey), NegatedKey), Filter(hist, NotIndexKey));
  }

  lemma EntriesMembers(hist: seq<Entry<int>>)
    ensures forall e :: e in EntriesOrder(hist) <==> e in hist
  {
    var idx := Filter(hist, IsIndexKey);
    var rest := Filter(hist, NotIndexKey);
    var sorted := SortDesc(idx, NegatedKey);
    FilterSpec(hist, IsIndexKey);
    FilterSpec(hist, NotIndexKey);
    SortDescSpec(idx, NegatedKey);
    SameMembers(sorted, idx);
    assert EntriesOrder(hist) == sorted + rest;
  }

  /** The index keys, sorted: in order, and none negative. */
  lemma SortedIndexPart(hist: seq<Entry<int>>)
    ensures var sorted := SortDesc(Filter(hist, IsIndexKey), NegatedKey);
            SortedDesc(sorted, NegatedKey) && (forall e :: e in sorted ==> e.key >= 0)
  {
    var idx := Filter(hist, IsIndexKey);
    FilterSpec(hist, IsIndexKey);
    SortDescSpec(idx, NegatedKey);
    SameMembers(SortDesc(idx, NegatedKey), idx);
  }

  lemma NegativePart(hist: seq<Entry<int>>)
    ensures forall e :: e in Filter(hist, NotIndexKey) ==> e.key < 0
  {
    FilterSpec(hist, NotIndexKey);
  }

  /** Index keys in decreasing negation, then negative keys: the layout of the listing. */
  lemma IndexKeysFirst(sorted: seq<Entry<int>>, rest: seq<Entry<int>>)
    requires SortedDesc(sorted, NegatedKey)
    requires forall e :: e in sorted ==> e.key >= 0
    requires forall e :: e in rest ==> e.key < 0
    ensures var r := sorted + rest;
            (forall i, j :: 0 <= i < j < |sorted| ==> r[i].key <= r[j].key)
            && (forall i :: 0 <= i < |sorted| ==> r[i].key >= 0)
            && (forall i :: |sorted| <= i < |r| ==> r[i].key < 0)
  {
    var r := sorted + rest;
    forall i | 0 <= i < |sorted| ensures r[i].key >= 0 {
      assert r[i] == sorted[i];
      assert sorted[i] in sorted;
    }
    forall i | |sorted| <= i < |r| ensures r[i].key < 0 {
      assert r[i] == rest[i - |sorted|];
      assert r[i] in rest;
    }
    forall i, j | 0 <= i < j < |sorted| ensures r[i].key <= r[j].key {
      assert r[i] == sorted[i] && r[j] == sorted[j];
      assert NegatedKey(sorted[i]) >= NegatedKey(sorted[j]);
    }
  }

  lemma SameMembers<T>(a: seq<T>, b: seq<T>)
    requires multiset(a) == multiset(b)
    ensures forall e :: e in a <==> e in b
  {
    forall e ensures e in a <==> e in b {
      assert e in a <==> e in multiset(a);
    }
  }

  // ---------------------------------------------------------------------------
  // the last seven days

  /** The bar of one day: the analyses of each type dated that day. */
  function DayBucket(analyses: seq<Analysis>, dateOf: string -> Option<int>, day: int): WeekDay {
    WeekDay(day, Count(analyses, OnDayOfType(dateOf, day, ParasiteType)),
            Count(analyses, OnDayOfType(dateOf, day, MnistType)))
  }

  /** The seven bars, six days ago first and today last. */
  function Week(analyses: seq<Analysis>, dateOf: string -> Option<int>, today: int): (r: seq<WeekDay>)
    ensures |r| == WeekLength
  {
    seq(WeekLength, j => DayBucket(analyses, dateOf, today - (WeekLength - 1) + j))
  }

  /** Each bar covers its own day in order, counts no more than its type overall, and
      today's bar no more than today's count. */
  lemma WeekBounds(analyses: seq<Analysis>, dateOf: string -> Option<int>, today: int)
    ensures var w := Week(analyses, dateOf, today);
            (forall j :: 0 <= j < WeekLength ==>
               w[j].day == today - (WeekLength - 1) + j
               && w[j].parasite <= Count(analyses, IsParasite)
               && w[j].mnist <= Count(analyses, IsMnist))
            && w[WeekLength - 1].parasite + w[WeekLength - 1].mnist <= Count(analyses, OnDay(dateOf, today))
  {
    var w := Week(analyses, dateOf, today);
    forall j | 0 <= j < WeekLength
      ensures w[j].day == today - (WeekLength - 1) + j
      ensures w[j].parasite <= Count(analyses, IsParasite) && w[j].mnist <= Count(analyses, IsMnist)
    {
      var day := today - (WeekLength - 1) + j;
      assert w[j] == DayBucket(analyses, dateOf, day);
      assert forall i :: 0 <= i < |analyses| ==>
        OnDayOfType(dateOf, day, ParasiteType)(analyses[i]) ==> IsParasite(analyses[i]);
      assert forall i :: 0 <= i < |analyses| ==>
        OnDayOfType(dateOf, day, MnistType)(analyses[i]) ==> IsMnist(analyses[i]);
      CountMonotone(analyses, OnDayOfType(dateOf, day, ParasiteType), IsParasite);
      CountMonotone(analyses, OnDayOfType(dateOf, day, MnistType), IsMnist);
    }
    assert w[WeekLength - 1] == DayBucket(analyses, dateOf, today);
    assert forall i :: 0 <= i < |analyses| ==>
      !(OnDayOfType(dateOf, today, ParasiteType)(analyses[i]) && OnDayOfType(dateOf, today, MnistType)(analyses[i]));
    CountDisjointWithin(analyses, OnDayOfType(dateOf, today, ParasiteType),
                        OnDayOfType(dateOf, today, MnistType), OnDay(dateOf, today));
  }

  /** The loop that builds the weekly bars, `i` running from 6 down to 0. */
  method WeeklyData(analyses: seq<Analysis>, dateOf: string -> Option<int>, today: int)
    returns (weekly: seq<WeekDay>)
    ensures weekly == Week(analyses, dateOf, today)
  {
    weekly := [];
    var i := WeekLength - 1;
    while i >= 0
      invariant -1 <= i <= WeekLength - 1
      invariant |weekly| == WeekLength - 1 - i
      invariant forall j :: 0 <= j < |weekly| ==>
                  weekly[j] == DayBucket(analyses, dateOf, today - (WeekLength - 1) + j)
      decreases i
    {
      var day := today - i;
      var dayParasite := Count(analyses, OnDayOfType(dateOf, day, ParasiteType));
      var dayMnist := Count(analyses, OnDayOfType(dateOf, day, MnistType));
      weekly := weekly + [WeekDay(day, dayParasite, dayMnist)];
      i := i - 1;
    }
  }

  // ---------------------------------------------------------------------------
  // the fetch

  /** The figures computed from a list of analyses. */
  function StatsOf(analyses: seq<Analysis>, dateOf: string -> Option<int>, today: int): Stats {
    Stats(|analyses|, Count(analyses, IsParasite), Count(analyses, IsMnist),
          Count(analyses, OnDay(dateOf, today)),
          Average(ConfidenceSum(analyses), Count(analyses, HasConfidence)),
          TopEntries(Histogram(Filter(analyses, IsParasite), DominantType)),
          TopEntries(EntriesOrder(Histogram(Filter(analyses, IsMnist), DominantDigit))),
          Week(analyses, dateOf, today))
  }

  /** A response the figures are computed from: it arrived, says `success`, carries a list,
      and every row of the list has a date. */
  predicate Usable(response: Outcome<ResponseBody>, dateOf: string -> Option<int>) {
    response.Ok? && response.data.success && response.data.analyses.Some?
    && AllDated(response.data.analyses.value, dateOf)
  }

  /** The dashboard's state. */
  class DashboardPage {
    var stats: Stats
    var loading: bool

    constructor ()
      ensures stats == InitialStats && loading
    {
      stats := InitialStats;
      loading := true;
    }

    /** `fetchDashboardData`: the admin request settles as `admin`; only when it failed is the
        user's list requested, settling as `fallback`. A usable response replaces the
        figures; anything else, a failed request included, leaves them as they were.
        Loading ends false either way. */
    method FetchDashboardData(admin: Outcome<ResponseBody>, fallback: Outcome<ResponseBody>,
                              dateOf: string -> Option<int>, today: int)
      returns (usedFallback: bool)
      modifies this
      ensures usedFallback <==> admin.Err?
      ensures var response := if admin.Ok? then admin else fallback;
              stats == if Usable(response, dateOf) then StatsOf(response.data.analyses.value, dateOf, today)
                       else old(stats)
      ensures !loading
    {
      loading := true;
      var response := admin;
      usedFallback := false;
      if admin.Err? {
        usedFallback := true;
        response := fallback;
      }
      if response.Ok? && response.data.success && response.data.analyses.Some? {
        var analyses := response.data.analyses.value;
        var totalAnalyses := |analyses|;
        var parasiteAnalyses := Count(analyses, IsParasite);
        var mnistAnalyses := Count(analyses, IsMnist);
        if AllDated(analyses, dateOf) {
          var todayAnalyses := Count(analyses, OnDay(dateOf, today));
          var totalConfidence, confidenceCount := SumConfidence(analyses);
          var avgConfidence := Average(totalConfidence, confidenceCount);
          var parasiteTypes := Tally(Filter(analyses, IsParasite), DominantType);
          var topParasites := TopEntries(parasiteTypes);
          var digitValues := Tally(Filter(analyses, IsMnist), DominantDigit);
          var topDigits := TopEntries(EntriesOrder(digitValues));
          var weeklyData := WeeklyData(analyses, dateOf, today);
          stats := Stats(totalAnalyses, parasiteAnalyses, mnistAnalyses, todayAnalyses, avgConfidence,
                         topParasites, topDigits, weeklyData);
        }
      }
      loading := false;
    }
  }
}
