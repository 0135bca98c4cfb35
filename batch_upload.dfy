/** The batch upload history page: the statistics derived from the result list, the
    simulated batch that is put in front of the list, the count input, the success rating
    and the status label and colour. Random draws and the clock are inputs. */
module BatchUpload {
  import opened JsText
  import opened JsArray

  const StatusSuccess := "success"
  const StatusError := "error"
  const StatusPending := "pending"
  const DefaultSimulateCount := 5

  /** One row of the history; confidences are left out. */
  datatype BatchResult = BatchResult(localId: string, serverId: Option<string>, status: string,
                                     message: Option<string>, analysisType: string, timestamp: string,
                                     deviceInfo: string)

  datatype BatchStats = BatchStats(totalUploads: int, successCount: int, errorCount: int, pendingCount: int,
                                   lastUpload: Option<string>)

  predicate HasStatus(r: BatchResult, status: string) {
    r.status == status
  }

  function CountStatus(results: seq<BatchResult>, status: string): nat {
    Count(results, (r: BatchResult) => HasStatus(r, status))
  }

  /** The statistics computed from a list: its length, the count of each status and the
      first row's timestamp. */
  function StatsOf(results: seq<BatchResult>): (s: BatchStats)
    ensures s.totalUploads == |results|
    ensures s.lastUpload.Some? <==> |results| > 0
    ensures |results| > 0 ==> s.lastUpload == Some(results[0].timestamp)
  {
    BatchStats(|results|, CountStatus(results, StatusSuccess), CountStatus(results, StatusError),
               CountStatus(results, StatusPending), if |results| > 0 then Some(results[0].timestamp) else None)
  }

  predicate KnownStatus(r: BatchResult) {
    r.status == StatusSuccess || r.status == StatusError || r.status == StatusPending
  }

  /** When every row has one of the three statuses, the three counts add up to the total. */
  lemma {:induction false} StatusCountsPartition(results: seq<BatchResult>)
    requires forall i :: 0 <= i < |results| ==> KnownStatus(results[i])
    ensures var s := StatsOf(results);
            s.successCount + s.errorCount + s.pendingCount == s.totalUploads
    decreases |results|
  {
    if |results| > 0 {
      StatusCountsPartition(results[1..]);
    }
  }

  /** The history the page shows: three successes, one error, one pending. */
  const MockHistory: seq<BatchResult> := [
    BatchResult("local-uuid-001", Some("64f8a1b2c3d4e5f6a7b8c9f1"), StatusSuccess, None, "Parasite",
                "2023-09-07T14:30:00Z", "Android 13 / Samsung Galaxy S22"),
    BatchResult("local-uuid-002", Some("64f8a1b2c3d4e5f6a7b8c9f2"), StatusSuccess, None, "MNIST",
                "2023-09-07T14:25:00Z", "iOS 16.5 / iPhone 14 Pro"),
    BatchResult("local-uuid-003", None, StatusError, Some("Görüntü formatı desteklenmiyor"), "Parasite",
                "2023-09-07T14:20:00Z", "Android 12 / Xiaomi Mi 11"),
    BatchResult("local-uuid-004", None, StatusPending, None, "MNIST",
                "2023-09-07T14:15:00Z", "iOS 15.7 / iPhone 12"),
    BatchResult("local-uuid-005", Some("64f8a1b2c3d4e5f6a7b8c9f3"), StatusSuccess, None, "Parasite",
                "2023-09-07T14:10:00Z", "Android 13 / Google Pixel 7")
  ]

  // ---------------------------------------------------------------------------
  // simulation

  /** `Math.floor(n * 0.9)`, the successes the mock response reports. */
  function SimulatedSuccesses(n: int): int {
    (9 * n) / 10
  }

  /** `Math.ceil(n * 0.1)`, the errors the mock response reports. */
  function SimulatedErrors(n: int): int {
    -((-n) / 10)
  }

  /** The reported successes and errors always add up to the requested count, and neither
      is negative for a non-negative count. */
  lemma SimulatedCountsSum(n: int)
    ensures SimulatedSuccesses(n) + SimulatedErrors(n) == n
    ensures n >= 0 ==> 0 <= SimulatedErrors(n) <= SimulatedSuccesses(n) + 1 && SimulatedSuccesses(n) <= n
  {
    var q, r := n / 10, n % 10;
    assert n == 10 * q + r && 0 <= r < 10;
    assert (9 * n) / 10 == 9 * q + (9 * r) / 10 by {
      assert 9 * n == 10 * (9 * q) + 9 * r;
    }
    if r == 0 {
      assert -n == 10 * (-q);
      assert (-n) / 10 == -q;
    } else {
      assert -n == 10 * (-q - 1) + (10 - r);
      assert (-n) / 10 == -q - 1;
    }
  }

  /** `parseInt(input) || 5`: `NaN` and 0 fall back to 5, any other number is taken as is. */
  function SimulateCountInput(input: string): (r: int)
    ensures r != 0
    ensures ParseInt(input).None? || ParseInt(input) == Some(0) ==> r == DefaultSimulateCount
    ensures ParseInt(input).Some? && ParseInt(input) != Some(0) ==> r == ParseInt(input).value
  {
    match ParseInt(input)
    case Some(v) => if v != 0 then v else DefaultSimulateCount
    case None => DefaultSimulateCount
  }

  /** A typed count reads back as itself; the count field never ends up 0. */
  lemma SimulateCountInputRoundTrip(n: nat)
    requires n > 0
    ensures SimulateCountInput(NatToString(n)) == n
  {
    ParseIntOfNatToString(n);
  }

  /** `Array.from({ length: n })` makes no rows for a negative `n`. */
  function RowCount(n: int): nat {
    if n < 0 then 0 else n
  }

  /** The page state. */
  class BatchPage {
    var results: seq<BatchResult>
    var stats: BatchStats
    var simulateCount: int
    var dialogOpen: bool
    var loading: bool
    var simulateLoading: bool
    var error: Option<string>

    constructor ()
      ensures results == [] && stats == BatchStats(0, 0, 0, 0, None) && simulateCount == DefaultSimulateCount
      ensures !dialogOpen && loading && !simulateLoading && error == None
    {
      results := [];
      stats := BatchStats(0, 0, 0, 0, None);
      simulateCount := DefaultSimulateCount;
      dialogOpen := false;
      loading := true;
      simulateLoading := false;
      error := None;
    }

    /** `fetchBatchUploadResults`: the fixed history and the statistics derived from it. */
    method FetchHistory()
      modifies this
      ensures results == MockHistory && stats == StatsOf(MockHistory)
      ensures !loading && error == None
      ensures simulateCount == old(simulateCount) && dialogOpen == old(dialogOpen)
      ensures simulateLoading == old(simulateLoading)
    {
      loading := true;
      error := None;
      results := MockHistory;
      stats := StatsOf(MockHistory);
      loading := false;
    }

    /** The count field's change handler. */
    method SetCountInput(input: string)
      modifies this
      ensures simulateCount == SimulateCountInput(input)
      ensures results == old(results) && stats == old(stats) && dialogOpen == old(dialogOpen)
      ensures loading == old(loading) && simulateLoading == old(simulateLoading) && error == old(error)
    {
      simulateCount := SimulateCountInput(input);
    }

    /** `simulateBatchUpload`: `draw(i)` is the row made for the `i`-th simulated analysis.
        The rows go in front of the list; the statistics grow by the reported counts, not
        by the rows' own statuses. */
    method Simulate(draw: nat -> BatchResult, nowIso: string)
      modifies this
      ensures results == seq(RowCount(old(simulateCount)), i requires 0 <= i => draw(i)) + old(results)
      ensures stats == BatchStats(old(stats.totalUploads) + old(simulateCount),
                                  old(stats.successCount) + SimulatedSuccesses(old(simulateCount)),
                                  old(stats.errorCount) + SimulatedErrors(old(simulateCount)),
                                  old(stats.pendingCount), Some(nowIso))
      ensures !dialogOpen && simulateCount == DefaultSimulateCount && !simulateLoading
      ensures loading == old(loading) && error == old(error)
    {
      simulateLoading := true;
      var n := simulateCount;
      var newResults := seq(RowCount(n), i requires 0 <= i => draw(i));
      results := newResults + results;
      stats := BatchStats(stats.totalUploads + n, stats.successCount + SimulatedSuccesses(n),
                          stats.errorCount + SimulatedErrors(n), stats.pendingCount, Some(nowIso));
      dialogOpen := false;
      simulateCount := DefaultSimulateCount;
      simulateLoading := false;
    }
  }

  /** The counters can drift from the list: ten simulated rows that all failed still add
      nine successes. */
  lemma SimulatedStatsIgnoreRows(prev: BatchStats, rows: seq<BatchResult>)
    requires |rows| == 10 && forall i :: 0 <= i < 10 ==> rows[i].status == StatusError
    ensures CountStatus(rows, StatusSuccess) == 0
    ensures prev.successCount + SimulatedSuccesses(|rows|) == prev.successCount + 9
  {
    NoneMatch(rows, (r: BatchResult) => HasStatus(r, StatusSuccess));
  }

  // ---------------------------------------------------------------------------
  // rating and status display

  datatype Rating = Excellent | Good | NeedsWork

  /** The chip above the success bar: `success / total` against 0.9 and 0.7, written in
      integers; an empty history needs work. */
  function RatingOf(s: BatchStats): (r: Rating)
    ensures r == Excellent <==> s.totalUploads > 0 && 10 * s.successCount >= 9 * s.totalUploads
    ensures r == Good <==> s.totalUploads > 0 && 7 * s.totalUploads <= 10 * s.successCount < 9 * s.totalUploads
    ensures s.totalUploads <= 0 ==> r == NeedsWork
  {
    if s.totalUploads > 0 && 10 * s.successCount >= 9 * s.totalUploads then Excellent
    else if s.totalUploads > 0 && 10 * s.successCount >= 7 * s.totalUploads then Good
    else NeedsWork
  }

  function RatingLabel(r: Rating): string {
    match r
    case Excellent => "Mükemmel"
    case Good => "İyi"
    case NeedsWork => "Geliştirilmeli"
  }

  function RatingColor(r: Rating): string {
    match r
    case Excellent => "success"
    case Good => "warning"
    case NeedsWork => "error"
  }

  /** Each rating has its own label and colour on the chip. */
  lemma RatingDisplayDistinct(a: Rating, b: Rating)
    requires a != b
    ensures RatingLabel(a) != RatingLabel(b) && RatingColor(a) != RatingColor(b)
  {
  }

  /** More successes out of the same total never lower the rating. */
  lemma RatingMonotone(s: BatchStats, extra: nat)
    ensures RatingOf(s) == Excellent ==> RatingOf(s.(successCount := s.successCount + extra)) == Excellent
    ensures RatingOf(s) == Good ==> RatingOf(s.(successCount := s.successCount + extra)) != NeedsWork
  {
  }

  function StatusColor(status: string): (r: string)
    ensures status !in {StatusSuccess, StatusError, StatusPending} <==> r == "default"
  {
    if status == StatusSuccess then "success"
    else if status == StatusError then "error"
    else if status == StatusPending then "warning"
    else "default"
  }

  function StatusLabel(status: string): (r: string)
    ensures status !in {StatusSuccess, StatusError, StatusPending} <==> r == "Bilinmiyor"
  {
    if status == StatusSuccess then "Başarılı"
    else if status == StatusError then "Hatalı"
    else if status == StatusPending then "Beklemede"
    else "Bilinmiyor"
  }

  /** Each known status has its own label and colour. */
  lemma StatusDisplayDistinct(a: string, b: string)
    requires a in {StatusSuccess, StatusError, StatusPending} && b in {StatusSuccess, StatusError, StatusPending}
    requires a != b
    ensures StatusLabel(a) != StatusLabel(b) && StatusColor(a) != StatusColor(b)
  {
  }
}
