/** The parasite analyses page: the search over ids, notes and parasite types, and the two
    loads, analyses first and the parasite catalogue after them. */
module ParasitePage {
  import opened JsText
  import opened JsArray
  import opened ApiClient
  import opened Analyses
  import opened ParasitesPage

  const ParasiteType := "Parasite"
  /** How many analyses the page asks for. */
  const FetchLimit := 100

  /** `result.type.toLowerCase().includes(search.toLowerCase())`. */
  predicate TypeTextContains(r: ResultItem, search: string) {
    r.kind.Some? && ContainsIgnoreCase(r.kind.value, search)
  }

  /** Some result of the row has a parasite type that contains the search, ignoring case. */
  predicate AnyTypeContains(a: Analysis, search: string) {
    a.results.Some? && exists i | 0 <= i < |a.results.value| :: TypeTextContains(a.results.value[i], search)
  }

  /** A row matches an empty search; otherwise its resolved id, its notes, one of its result
      types or its dominant type must contain the search, ignoring case. */
  predicate ParasiteMatches(a: Analysis, search: string) {
    search == ""
    || ContainsIgnoreCase(ResolvedId(a), search) || ContainsIgnoreCase(OrDefault(a.notes, ""), search)
    || AnyTypeContains(a, search)
    || (a.dominantResult.Some? && TypeTextContains(a.dominantResult.value, search))
  }

  /** `filteredAnalyses` of the parasite page: the matching rows, in their order. */
  function FilteredAnalyses(analyses: seq<Analysis>, search: string): (r: seq<Analysis>)
    ensures IsSubsequence(r, analyses)
    ensures forall a :: a in r <==> a in analyses && ParasiteMatches(a, search)
    ensures forall a :: multiset(r)[a] == if ParasiteMatches(a, search) then multiset(analyses)[a] else 0
  {
    FilterSpec(analyses, a => ParasiteMatches(a, search));
    FilterCounts(analyses, a => ParasiteMatches(a, search));
    Filter(analyses, a => ParasiteMatches(a, search))
  }

  /** An empty search keeps every row. */
  lemma EmptySearchKeepsAll(analyses: seq<Analysis>)
    ensures FilteredAnalyses(analyses, "") == analyses
  {
    FilterKeepsAll(analyses, a => ParasiteMatches(a, ""));
  }

  /** A row is found by the search for the type of its top result, in any case. */
  lemma SearchFindsTopType(a: Analysis)
    requires TopResult(a).Some? && TopResult(a).value.kind.Some?
    ensures ParasiteMatches(a, TopResult(a).value.kind.value)
  {
    var t := TopResult(a).value.kind.value;
    ContainsSelf(ToLower(t));
    if a.results.Some? && |a.results.value| > 0 {
      assert TypeTextContains(a.results.value[0], t);
    }
  }

  /** The parasite analyses page's state. */
  class AnalysesPage {
    var analyses: seq<Analysis>
    var parasites: seq<ParasiteInfo>
    var loading: bool

    constructor ()
      ensures analyses == [] && parasites == [] && loading
    {
      analyses := [];
      parasites := [];
      loading := true;
    }

    /** `fetchData`: the first page of up to 100 parasite analyses is requested and settles
        as `first`; only when it succeeded are the analyses stored and the catalogue
        requested, settling as `second`. A missing list gives the empty one; loading ends
        whatever happened. */
    method FetchData(first: Outcome<Option<seq<Analysis>>>, second: Outcome<Option<seq<ParasiteInfo>>>)
      returns (request: AnalysesRequest, secondRequested: bool)
      modifies this
      ensures request == AnalysesRequest(1, FetchLimit, Some(ParasiteType))
      ensures secondRequested <==> first.Ok?
      ensures analyses == if first.Ok? then OrEmpty(first.data) else old(analyses)
      ensures parasites == if first.Ok? && second.Ok? then OrEmpty(second.data) else old(parasites)
      ensures !loading
    {
      loading := true;
      request := AnalysesRequest(1, FetchLimit, Some(ParasiteType));
      secondRequested := false;
      if first.Ok? {
        analyses := OrEmpty(first.data);
        secondRequested := true;
        if second.Ok? {
          parasites := OrEmpty(second.data);
        }
      }
      loading := false;
    }
  }
}
