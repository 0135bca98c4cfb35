/** The analysis record that the dashboard and the three analysis pages read, with the field
    fallbacks, the top-result choice and the confidence colour those pages share. */
module Analyses {
  import opened JsText

  /** One classifier output: a parasite `type` or a digit `value`, and its confidence. */
  datatype ResultItem = ResultItem(kind: Option<string>, value: Option<int>, confidence: real)

  /** An analysis as the pages receive it. Every field the pages read may be missing;
      `kind` is the `type` field and `dbId` the database `_id`. */
  datatype Analysis = Analysis(
    id: Option<string>, analysisId: Option<string>, dbId: Option<string>,
    kind: Option<string>, analysisType: Option<string>,
    results: Option<seq<ResultItem>>, dominantResult: Option<ResultItem>,
    notes: Option<string>, deviceInfo: Option<string>,
    timestamp: Option<string>, createdAt: Option<string>)

  /** The arguments of `analysisService.getAnalyses(page, limit, type)`. */
  datatype AnalysesRequest = AnalysesRequest(page: int, limit: int, kind: Option<string>)

  /** `list || []` on a list field of a response: an array is always truthy, so only a
      missing list is replaced by the empty one. */
  function OrEmpty<T>(list: Option<seq<T>>): (r: seq<T>)
    ensures list.Some? ==> r == list.value
    ensures list.None? ==> r == []
  {
    match list
    case Some(l) => l
    case None => []
  }

  /** `id || analysisId || _id || ''`: the first of the three ids that is present and
      non-empty, or the empty string. */
  function ResolvedId(a: Analysis): (r: string)
    ensures Truthy(a.id) ==> r == a.id.value
    ensures !Truthy(a.id) && Truthy(a.analysisId) ==> r == a.analysisId.value
    ensures !Truthy(a.id) && !Truthy(a.analysisId) ==> r == OrDefault(a.dbId, "")
    ensures r == "" <==> !Truthy(a.id) && !Truthy(a.analysisId) && !Truthy(a.dbId)
  {
    OrDefault(OrElse(OrElse(a.id, a.analysisId), a.dbId), "")
  }

  /** `type || analysisType || ''`. */
  function ResolvedType(a: Analysis): (r: string)
    ensures Truthy(a.kind) ==> r == a.kind.value
    ensures !Truthy(a.kind) ==> r == OrDefault(a.analysisType, "")
    ensures r == "" <==> !Truthy(a.kind) && !Truthy(a.analysisType)
  {
    OrDefault(OrElse(a.kind, a.analysisType), "")
  }

  /** The result a row shows: the first of `results` when there is one, else the dominant
      result; `None` is the "Sonuç Yok" cell. */
  function TopResult(a: Analysis): (r: Option<ResultItem>)
    ensures a.results.Some? && |a.results.value| > 0 ==> r == Some(a.results.value[0])
    ensures a.results.None? || a.results.value == [] ==> r == a.dominantResult
    ensures r.None? <==> (a.results.None? || a.results.value == []) && a.dominantResult.None?
  {
    if a.results.Some? && |a.results.value| > 0 then Some(a.results.value[0]) else a.dominantResult
  }

  const SuccessColor := "success"
  const WarningColor := "warning"
  const ErrorColor := "error"

  /** `getConfidenceColor`, the same on the list, digit and parasite pages. The thresholds
      0.75 and 0.5 are exact binary fractions, so the comparison of a double with them is
      the comparison of the number it denotes. */
  function ConfidenceColor(confidence: real): (r: string)
    ensures r == SuccessColor <==> confidence >= 0.75
    ensures r == WarningColor <==> 0.5 <= confidence < 0.75
    ensures r == ErrorColor <==> confidence < 0.5
  {
    if confidence >= 0.75 then SuccessColor
    else if confidence >= 0.5 then WarningColor
    else ErrorColor
  }

  /** The colours in increasing order of confidence. */
  function ColorRank(color: string): nat {
    if color == SuccessColor then 2 else if color == WarningColor then 1 else 0
  }

  /** A higher confidence never gets a worse colour. */
  lemma ConfidenceColorMonotone(c: real, d: real)
    requires c <= d
    ensures ColorRank(ConfidenceColor(c)) <= ColorRank(ConfidenceColor(d))
  {
  }
}
