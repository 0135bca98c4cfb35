/** The administrator's analysis list: its filters and the query they turn into, the sort
    selector, and the dominant-result column. */
module AdminAnalysis {
  import opened JsText

  const ParasiteType := "Parasite"
  const MnistType := "MNIST"
  const NoResultText := "Sonuç yok"
  const CreatedAtField := "createdAt"
  const ProcessingTimeField := "processingTimeMs"
  const Ascending := "asc"
  const Descending := "desc"

  datatype ParasiteResult = ParasiteResult(kind: string, confidence: real)
  datatype DigitResult = DigitResult(value: int, confidence: real)

  /** A row of the list; image, location, model, device, user and timestamps are left out. */
  datatype AdminAnalysis = AdminAnalysis(id: string, analysisType: string, parasiteResults: seq<ParasiteResult>,
                                         digitResults: seq<DigitResult>, processingTimeMs: int,
                                         processedOnMobile: bool)

  /** Which result the dominant-result column shows. */
  datatype Dominant = ParasiteDominant(parasite: ParasiteResult) | DigitDominant(digit: DigitResult) | NoDominant

  /** The list's query parameters; a missing one is left out of the request. */
  datatype AdminQuery = AdminQuery(kind: Option<string>, userId: Option<string>, processedOnMobile: Option<bool>,
                                   sortBy: string, sortOrder: string, page: int)

  // ---------------------------------------------------------------------------
  // dominant result

  /** The first result of the list that matches the row's type, or none: a parasite row with
      only digit results, or a digit row with only parasite results, shows no result. */
  function DominantOf(a: AdminAnalysis): (r: Dominant)
    ensures r.ParasiteDominant? <==> a.analysisType == ParasiteType && |a.parasiteResults| > 0
    ensures r.ParasiteDominant? ==> r.parasite == a.parasiteResults[0]
    ensures r.DigitDominant? <==> a.analysisType == MnistType && |a.digitResults| > 0
    ensures r.DigitDominant? ==> r.digit == a.digitResults[0]
  {
    if a.analysisType == ParasiteType && |a.parasiteResults| > 0 then ParasiteDominant(a.parasiteResults[0])
    else if a.analysisType == MnistType && |a.digitResults| > 0 then DigitDominant(a.digitResults[0])
    else NoDominant
  }

  /** `getDominantResult`, with `fixed1` standing for `toFixed(1)` of a percentage. */
  function DominantText(a: AdminAnalysis, fixed1: real -> string): (r: string)
    ensures DominantOf(a).NoDominant? ==> r == NoResultText
    ensures DominantOf(a).ParasiteDominant? ==>
              r == DominantOf(a).parasite.kind + " (" + fixed1(DominantOf(a).parasite.confidence * 100.0) + "%)"
    ensures DominantOf(a).DigitDominant? ==>
              r == "Rakam " + IntToString(DominantOf(a).digit.value) + " (" + fixed1(DominantOf(a).digit.confidence * 100.0) + "%)"
  {
    match DominantOf(a)
    case ParasiteDominant(p) => p.kind + " (" + fixed1(p.confidence * 100.0) + "%)"
    case DigitDominant(d) => "Rakam " + IntToString(d.value) + " (" + fixed1(d.confidence * 100.0) + "%)"
    case NoDominant => NoResultText
  }

  /** The column reads "no result" exactly when the row has no result of its own type: every
      shown result ends in a closing parenthesis, the "no result" text does not. */
  lemma NoResultTextExactly(a: AdminAnalysis, fixed1: real -> string)
    ensures DominantText(a, fixed1) == NoResultText <==> DominantOf(a).NoDominant?
  {
    var r := DominantText(a, fixed1);
    if !DominantOf(a).NoDominant? {
      assert r[|r| - 1] == ')';
      assert NoResultText[|NoResultText| - 1] == 'k';
    }
  }

  /** A digit row whose digit list is empty shows no result even with parasite results. */
  lemma OtherListIgnored(a: AdminAnalysis, fixed1: real -> string)
    requires a.analysisType == MnistType && |a.digitResults| == 0 && |a.parasiteResults| > 0
    ensures DominantText(a, fixed1) == NoResultText
  {
  }

  /** `getTypeColor`. */
  function TypeColor(kind: string): (r: string)
    ensures r == "success" <==> kind == ParasiteType
    ensures r == "info" <==> kind != ParasiteType
  {
    if kind == ParasiteType then "success" else "info"
  }

  // ---------------------------------------------------------------------------
  // sorting

  /** The selector's value for a sort field and order: `${sortBy}-${sortOrder}`. */
  function SortValue(sortBy: string, sortOrder: string): (r: string)
    ensures r == Join([sortBy, sortOrder], '-')
  {
    sortBy + "-" + sortOrder
  }

  /** The four options the selector offers. */
  const SortOptions := [SortValue(CreatedAtField, Descending), SortValue(CreatedAtField, Ascending),
                        SortValue(ProcessingTimeField, Descending), SortValue(ProcessingTimeField, Ascending)]

  /** Splitting a selector value on '-' gives back its field and its order, whenever neither
      holds a dash. */
  lemma SortValueRoundTrip(sortBy: string, sortOrder: string)
    requires '-' !in sortBy && '-' !in sortOrder
    ensures Split(SortValue(sortBy, sortOrder), '-') == [sortBy, sortOrder]
  {
    SplitJoin([sortBy, sortOrder], '-');
  }

  /** So it does for every offered option. */
  lemma SortOptionsRoundTrip()
    ensures forall i :: 0 <= i < |SortOptions| ==>
              |Split(SortOptions[i], '-')| == 2 && SortValue(Split(SortOptions[i], '-')[0], Split(SortOptions[i], '-')[1]) == SortOptions[i]
  {
    SortValueRoundTrip(CreatedAtField, Descending);
    SortValueRoundTrip(CreatedAtField, Ascending);
    SortValueRoundTrip(ProcessingTimeField, Descending);
    SortValueRoundTrip(ProcessingTimeField, Ascending);
  }

  // ---------------------------------------------------------------------------
  // the query

  /** The request's parameters for the current filters: an empty type, a blank user id and
      an unticked mobile box are left out; the user id is trimmed. */
  function QueryOf(typeFilter: string, userIdFilter: string, processedOnMobile: Option<bool>,
                   sortBy: string, sortOrder: string, page: int): (r: AdminQuery)
    ensures r.kind.None? <==> typeFilter == ""
    ensures r.kind.Some? ==> r.kind.value == typeFilter
    ensures r.userId.None? <==> Blank(userIdFilter)
    ensures r.userId.Some? ==> r.userId.value == Trim(userIdFilter)
    ensures r.processedOnMobile.Some? <==> processedOnMobile == Some(true)
    ensures r.processedOnMobile != Some(false)
    ensures r.sortBy == sortBy && r.sortOrder == sortOrder && r.page == page
  {
    var userId := Trim(userIdFilter);
    AdminQuery(if typeFilter == "" then None else Some(typeFilter),
               if userId == "" then None else Some(userId),
               if processedOnMobile == Some(true) then Some(true) else None,
               sortBy, sortOrder, page)
  }

  /** The filters of the administrator's list. */
  class Filters {
    var typeFilter: string
    var userIdFilter: string
    var processedOnMobile: Option<bool>
    var sortBy: string
    var sortOrder: string
    var page: int

    /** The mobile filter is ticked or absent, never "not on mobile". */
    predicate Valid()
      reads this
    {
      processedOnMobile != Some(false)
    }

    constructor ()
      ensures Valid()
      ensures typeFilter == "" && userIdFilter == "" && processedOnMobile.None?
      ensures sortBy == CreatedAtField && sortOrder == Descending && page == 1
    {
      typeFilter := "";
      userIdFilter := "";
      processedOnMobile := None;
      sortBy := CreatedAtField;
      sortOrder := Descending;
      page := 1;
    }

    /** `clearFilters`: every filter back to its initial value. */
    method ClearFilters()
      modifies this
      ensures Valid()
      ensures typeFilter == "" && userIdFilter == "" && processedOnMobile.None?
      ensures sortBy == CreatedAtField && sortOrder == Descending && page == 1
    {
      typeFilter := "";
      userIdFilter := "";
      processedOnMobile := None;
      sortBy := CreatedAtField;
      sortOrder := Descending;
      page := 1;
    }

    /** The mobile checkbox: ticking it asks for mobile analyses only, unticking it drops
        the filter. */
    method SetMobileChecked(checked: bool)
      modifies this
      requires Valid()
      ensures Valid()
      ensures processedOnMobile == if checked then Some(true) else None
      ensures typeFilter == old(typeFilter) && userIdFilter == old(userIdFilter)
      ensures sortBy == old(sortBy) && sortOrder == old(sortOrder) && page == old(page)
    {
      processedOnMobile := if checked then Some(true) else None;
    }

    /** The sort selector, given one of its offered options: the option's two halves become
        the sort field and order, so the selector shows the chosen option again. */
    method SelectSort(value: string)
      modifies this
      requires value in SortOptions
      ensures SortValue(sortBy, sortOrder) == value
      ensures [sortBy, sortOrder] == Split(value, '-')
      ensures typeFilter == old(typeFilter) && userIdFilter == old(userIdFilter)
      ensures processedOnMobile == old(processedOnMobile) && page == old(page)
    {
      SortOptionsRoundTrip();
      var parts := Split(value, '-');
      sortBy := parts[0];
      sortOrder := parts[1];
    }
  }

  /** After clearing, the list asks for every analysis, newest first, from the first page. */
  lemma ClearedQuery()
    ensures QueryOf("", "", None, CreatedAtField, Descending, 1)
            == AdminQuery(None, None, None, CreatedAtField, Descending, 1)
  {
  }
}
