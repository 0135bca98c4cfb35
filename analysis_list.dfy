/** The page that lists every analysis: the tab that picks the type parameter of the request,
    the search over id, type and notes, and the link to an analysis' detail page. */
module AnalysisList {
  import opened JsText
  import opened JsArray
  import opened Analyses

  const AllTab := "all"
  const DetailPrefix := "/" + "opca" + "/" + "analysis" + "/"
  const UnknownType := "unknown"

  /** The type parameter of the list request: none for the 'all' tab, the tab value otherwise. */
  function TypeParam(tab: string): (r: Option<string>)
    ensures r.None? <==> tab == AllTab
    ensures r.Some? ==> r.value == tab
  {
    if tab != AllTab then Some(tab) else None
  }

  /** A row matches when its resolved id, resolved type or notes contains the search text,
      both sides lowercased. */
  predicate ListMatches(a: Analysis, search: string) {
    ContainsIgnoreCase(ResolvedId(a), search) || ContainsIgnoreCase(ResolvedType(a), search)
    || ContainsIgnoreCase(OrDefault(a.notes, ""), search)
  }

  /** Every string contains the lowercased empty search. */
  lemma MatchesEmptySearch(s: string)
    ensures ContainsIgnoreCase(s, "")
  {
    assert ToLower("") == "";
    ContainsEmpty(ToLower(s));
  }

  /** `filteredAnalyses`: the matching rows, in their order. */
  function FilteredAnalyses(analyses: seq<Analysis>, search: string): (r: seq<Analysis>)
    ensures IsSubsequence(r, analyses)
    ensures forall a :: a in r <==> a in analyses && ListMatches(a, search)
    ensures forall a :: multiset(r)[a] == if ListMatches(a, search) then multiset(analyses)[a] else 0
  {
    FilterSpec(analyses, a => ListMatches(a, search));
    FilterCounts(analyses, a => ListMatches(a, search));
    Filter(analyses, a => ListMatches(a, search))
  }

  /** An empty search keeps every row, because the empty string is contained in every id. */
  lemma EmptySearchKeepsAll(analyses: seq<Analysis>)
    ensures FilteredAnalyses(analyses, "") == analyses
  {
    var p := a => ListMatches(a, "");
    forall i | 0 <= i < |analyses| ensures p(analyses[i]) {
      MatchesEmptySearch(ResolvedId(analyses[i]));
    }
    FilterKeepsAll(analyses, p);
  }

  /** The id in the detail link: `id || analysisId || _id` with no fallback of its own, so a
      row without any id links to "undefined" and one whose `_id` is empty to "". */
  function LinkId(a: Analysis): (r: string)
    ensures ResolvedId(a) != "" ==> r == ResolvedId(a)
    ensures ResolvedId(a) == "" && a.dbId.None? ==> r == "undefined"
    ensures ResolvedId(a) == "" && a.dbId.Some? ==> r == ""
  {
    match OrElse(OrElse(a.id, a.analysisId), a.dbId)
    case Some(s) => s
    case None => "undefined"
  }

  /** The type in the detail link: the resolved type, 'unknown' when there is none, lowercased. */
  function LinkType(a: Analysis): (r: string)
    ensures ResolvedType(a) != "" ==> r == ToLower(ResolvedType(a))
    ensures ResolvedType(a) == "" ==> r == UnknownType
  {
    ToLower(OrDefault(OrElse(a.kind, a.analysisType), UnknownType))
  }

  /** `/opca/analysis/<type>/<id>` for the eye button of a row. */
  function DetailPath(a: Analysis): (r: string)
    ensures StartsWith(r, DetailPrefix)
  {
    var r := DetailPrefix + LinkType(a) + "/" + LinkId(a);
    assert r[..|DetailPrefix|] == DetailPrefix;
    r
  }

  /** When neither the type nor the id holds a '/', the link splits back into its type and
      its id, in their places. */
  lemma DetailPathFields(a: Analysis)
    requires '/' !in LinkType(a) && '/' !in LinkId(a)
    ensures Split(DetailPath(a), '/') == ["", "opca", "analysis", LinkType(a), LinkId(a)]
  {
    DetailFieldsSplit(LinkType(a), LinkId(a));
  }

  lemma DetailFieldsSplit(t: string, d: string)
    requires '/' !in t && '/' !in d
    ensures Split(DetailPrefix + t + "/" + d, '/') == ["", "opca", "analysis", t, d]
  {
    var opca := "" + "/" + "opca";
    var analysis := opca + "/" + "analysis";
    assert DetailPrefix == analysis + "/";
    SplitSnoc("", '/', "opca");
    SplitSnoc(opca, '/', "analysis");
    SplitSnoc(analysis, '/', t);
    SplitSnoc(analysis + "/" + t, '/', d);
  }

}
