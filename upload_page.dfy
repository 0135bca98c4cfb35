/** The image upload page: the queue of files with their status and progress, the sequential
    upload of a selection, the progress ticks, status updates, removal, clearing and the
    statistics shown above the list. Ids, clock strings, tick counts and the server's answers
    are inputs. */
module UploadPage {
  import opened JsText
  import opened JsArray

  datatype FileStatus = Uploading | Success | Error

  /** A file as the user selected it. */
  datatype SelectedFile = SelectedFile(name: string, size: nat, mimeType: string)

  /** An entry of the queue. */
  datatype UploadedFile = UploadedFile(id: string, name: string, size: nat, mimeType: string,
                                       url: Option<string>, thumbnailUrl: Option<string>,
                                       progress: int, status: FileStatus, error: Option<string>,
                                       uploadedAt: Option<string>)

  /** The extra fields a status update lays over the entry. */
  datatype Extra = Extra(url: Option<string>, thumbnailUrl: Option<string>, uploadedAt: Option<string>)

  datatype UploadStats = UploadStats(totalFiles: nat, successCount: nat, errorCount: nat, totalSize: nat)

  /** The settled upload request: a response body, or a rejection. */
  datatype UploadResponse = Responded(success: bool, url: Option<string>, thumbnailUrl: Option<string>, message: Option<string>)
                          | RequestFailed

  /** What happens to one file: `ticks` progress ticks before the request settles, the answer,
      the ISO time of the update, and the ticks the never-cleared timer still fires afterwards
      when the request failed. */
  datatype UploadStep = UploadStep(ticks: nat, response: UploadResponse, uploadedAt: string, lateTicks: nat)

  const UploadFailedMessage := "Yükleme başarısız"
  const MockBucketPrefix := "https://opca-bucket.s3.amazonaws.com/uploads/"
  const ImagePrefix := "image/"
  const TickStep := 10
  const TickCap := 90

  predicate IsImage(f: SelectedFile) {
    StartsWith(f.mimeType, ImagePrefix)
  }

  function Images(selection: seq<SelectedFile>): (r: seq<SelectedFile>)
    ensures IsSubsequence(r, selection)
    ensures forall f :: f in r <==> f in selection && IsImage(f)
    ensures forall f :: multiset(r)[f] == if IsImage(f) then multiset(selection)[f] else 0
  {
    FilterSpec(selection, IsImage);
    FilterCounts(selection, IsImage);
    Filter(selection, IsImage)
  }

  /** A new entry: uploading, at progress 0. */
  function NewEntry(f: SelectedFile, id: string): (e: UploadedFile)
    ensures e.id == id && e.status == Uploading && e.progress == 0
    ensures e.name == f.name && e.size == f.size && e.mimeType == f.mimeType
  {
    UploadedFile(id, f.name, f.size, f.mimeType, None, None, 0, Uploading, None, None)
  }

  function NewEntries(images: seq<SelectedFile>, ids: nat -> string): seq<UploadedFile> {
    seq(|images|, i requires 0 <= i < |images| => NewEntry(images[i], ids(i)))
  }

  // ---------------------------------------------------------------------------
  // one entry

  function Min(a: int, b: int): int {
    if a <= b then a else b
  }

  /** One tick of the progress timer: ten more, but not past 90. */
  function Bump(e: UploadedFile): UploadedFile {
    e.(progress := Min(e.progress + TickStep, TickCap))
  }

  function BumpN(e: UploadedFile, n: nat): UploadedFile
    decreases n
  {
    if n == 0 then e else Bump(BumpN(e, n - 1))
  }

  /** From a progress between 0 and 90, `n` ticks give `min(p + 10n, 90)` and touch nothing else. */
  lemma {:induction false} BumpNSpec(e: UploadedFile, n: nat)
    requires 0 <= e.progress <= TickCap
    ensures BumpN(e, n) == e.(progress := Min(e.progress + TickStep * n, TickCap))
    decreases n
  {
    if n > 0 {
      BumpNSpec(e, n - 1);
    }
  }

  /** The status update of one entry: the new status and error, progress 100 on success and
      otherwise as it was, then the extra fields on top. */
  function Updated(e: UploadedFile, status: FileStatus, error: Option<string>, extra: Option<Extra>): UploadedFile {
    var base := e.(status := status, error := error, progress := if status == Success then 100 else e.progress);
    if extra.Some? then base.(url := extra.value.url, thumbnailUrl := extra.value.thumbnailUrl, uploadedAt := extra.value.uploadedAt)
    else base
  }

  function MockUrl(id: string): string {
    MockBucketPrefix + id + ".jpg"
  }

  /** The update `uploadFile` makes once its request has settled. */
  function Finish(e: UploadedFile, step: UploadStep): UploadedFile {
    match step.response
    case Responded(success, url, thumbnailUrl, message) =>
      if success then Updated(e, Success, None, Some(Extra(url, thumbnailUrl, Some(step.uploadedAt))))
      else Updated(e, Error, Some(OrDefault(message, UploadFailedMessage)), None)
    case RequestFailed =>
      Updated(e, Success, None, Some(Extra(Some(MockUrl(e.id)), Some(MockUrl(e.id)), Some(step.uploadedAt))))
  }

  /** A file's whole upload, with the progress timer stopped once the request has settled. */
  function Settle(e: UploadedFile, step: UploadStep): UploadedFile {
    Finish(BumpN(e, step.ticks), step)
  }

  /** The upload as written: a failed request leaves its timer running, and every later tick
      lowers the finished file's progress from 100 to 90. */
  function SettleAsWritten(e: UploadedFile, step: UploadStep): UploadedFile {
    if step.response.RequestFailed? then BumpN(Settle(e, step), step.lateTicks) else Settle(e, step)
  }

  /** A new entry ends as the server answered: success with progress 100 and the returned
      links, error with the server's message (or the default) at the progress the ticks
      reached, or, when the request failed, success with the mock bucket link. Its id, name,
      size and type never change. */
  lemma SettleSpec(e: UploadedFile, step: UploadStep)
    requires 0 <= e.progress <= TickCap
    ensures var r := Settle(e, step);
      r.id == e.id && r.name == e.name && r.size == e.size && r.mimeType == e.mimeType
      && (r.status == Success <==> !step.response.Responded? || step.response.success)
      && (r.status == Success ==> r.progress == 100 && r.error == None && r.uploadedAt == Some(step.uploadedAt))
      && (step.response.Responded? && step.response.success ==>
            r.url == step.response.url && r.thumbnailUrl == step.response.thumbnailUrl)
      && (step.response.RequestFailed? ==> r.url == Some(MockUrl(e.id)) && r.thumbnailUrl == r.url)
      && (r.status == Error ==>
            r.error == Some(OrDefault(step.response.message, UploadFailedMessage))
            && r.progress == Min(e.progress + TickStep * step.ticks, TickCap)
            && r.url == e.url && r.uploadedAt == e.uploadedAt)
  {
    BumpNSpec(e, step.ticks);
  }

  /** As written, a file whose request failed shows success at 90 percent as soon as one
      more tick fires after the mock success. */
  lemma LateTickLowersProgress(e: UploadedFile, step: UploadStep)
    requires 0 <= e.progress <= TickCap
    requires step.response.RequestFailed? && step.lateTicks > 0
    ensures SettleAsWritten(e, step).status == Success
    ensures SettleAsWritten(e, step).progress == TickCap
    ensures Settle(e, step).progress == 100
  {
    var done := Settle(e, step);
    SettleSpec(e, step);
    assert BumpN(done, 1) == Bump(done);
    LateTicksStayAtCap(Bump(done), step.lateTicks - 1);
    assert BumpN(done, step.lateTicks) == BumpN(Bump(done), step.lateTicks - 1) by {
      BumpNShift(done, step.lateTicks - 1);
    }
  }

  /** Ticks change nothing but the progress. */
  lemma {:induction false} BumpNKeeps(e: UploadedFile, n: nat)
    ensures BumpN(e, n) == e.(progress := BumpN(e, n).progress)
    decreases n
  {
    if n > 0 {
      BumpNKeeps(e, n - 1);
    }
  }

  lemma SettleKeepsId(e: UploadedFile, step: UploadStep)
    ensures Settle(e, step).id == e.id
  {
    BumpNKeeps(e, step.ticks);
  }

  lemma {:induction false} BumpNShift(e: UploadedFile, n: nat)
    ensures BumpN(e, n + 1) == BumpN(Bump(e), n)
    decreases n
  {
    if n > 0 {
      BumpNShift(e, n - 1);
    }
  }

  lemma {:induction false} LateTicksStayAtCap(e: UploadedFile, n: nat)
    requires e.progress == TickCap
    ensures BumpN(e, n) == e
    decreases n
  {
    if n > 0 {
      LateTicksStayAtCap(e, n - 1);
    }
  }

  // ---------------------------------------------------------------------------
  // the list

  /** One tick for the file `id`: every entry with that id is bumped. */
  function TickAll(files: seq<UploadedFile>, id: string): seq<UploadedFile> {
    seq(|files|, i requires 0 <= i < |files| => if files[i].id == id then Bump(files[i]) else files[i])
  }

  function WithStatus(files: seq<UploadedFile>, id: string, status: FileStatus, error: Option<string>,
                      extra: Option<Extra>): seq<UploadedFile> {
    seq(|files|, i requires 0 <= i < |files| => if files[i].id == id then Updated(files[i], status, error, extra) else files[i])
  }

  /** The list after the upload of the file `id`. */
  function FileStep(files: seq<UploadedFile>, id: string, step: UploadStep): seq<UploadedFile> {
    seq(|files|, i requires 0 <= i < |files| => if files[i].id == id then Settle(files[i], step) else files[i])
  }

  /** The list after the first `k` uploads of a selection. */
  function RunUploads(files: seq<UploadedFile>, ids: nat -> string, steps: nat -> UploadStep, k: nat): seq<UploadedFile>
    decreases k
  {
    if k == 0 then files else FileStep(RunUploads(files, ids, steps, k - 1), ids(k - 1), steps(k - 1))
  }

  /** The list before the uploads holds the new entries first, entry `i` under the `i`-th
      id, and the ids after them are all different from the new ones. */
  predicate IdsInPlace(fs: seq<UploadedFile>, ids: nat -> string, n: nat) {
    n <= |fs|
    && (forall i, j :: 0 <= i < j < n ==> ids(i) != ids(j))
    && (forall i :: 0 <= i < n ==> fs[i].id == ids(i))
    && (forall i, k :: 0 <= i < n && n <= k < |fs| ==> fs[k].id != ids(i))
  }

  /** Entry `i` once the first `k` uploads are done. */
  function AfterUploads(fs: seq<UploadedFile>, steps: nat -> UploadStep, k: nat, i: nat): UploadedFile
    requires i < |fs|
  {
    if i < k then Settle(fs[i], steps(i)) else fs[i]
  }

  /** After the first `k` uploads, the first `k` entries are settled by their own step and
      every other entry is as it was. */
  lemma {:induction false} RunUploadsPrefix(fs: seq<UploadedFile>, ids: nat -> string, steps: nat -> UploadStep,
                                            n: nat, k: nat)
    requires IdsInPlace(fs, ids, n) && k <= n
    ensures var r := RunUploads(fs, ids, steps, k);
            |r| == |fs| && forall i :: 0 <= i < |fs| ==> r[i] == AfterUploads(fs, steps, k, i)
    decreases k
  {
    if k > 0 {
      RunUploadsPrefix(fs, ids, steps, n, k - 1);
      var prev := RunUploads(fs, ids, steps, k - 1);
      forall i | 0 <= i < |fs|
        ensures FileStep(prev, ids(k - 1), steps(k - 1))[i] == AfterUploads(fs, steps, k, i)
      {
        UploadStepAt(fs, prev, ids, steps, n, k, i);
      }
    }
  }

  lemma UploadStepAt(fs: seq<UploadedFile>, prev: seq<UploadedFile>, ids: nat -> string, steps: nat -> UploadStep,
                     n: nat, k: nat, i: nat)
    requires IdsInPlace(fs, ids, n) && 0 < k <= n && i < |fs|
    requires |prev| == |fs| && prev[i] == AfterUploads(fs, steps, k - 1, i)
    ensures FileStep(prev, ids(k - 1), steps(k - 1))[i] == AfterUploads(fs, steps, k, i)
  {
    var id := ids(k - 1);
    if i < k - 1 {
      SettleKeepsId(fs[i], steps(i));
      assert prev[i].id == ids(i) != id;
    } else if i == k - 1 {
      assert prev[i] == fs[i] && fs[i].id == id;
    } else if i < n {
      assert prev[i] == fs[i] && fs[i].id == ids(i) != id;
    } else {
      assert prev[i] == fs[i] && fs[i].id != id;
    }
  }

  /** The totals `updateStats` computes from a list. */
  function StatsOf(files: seq<UploadedFile>): UploadStats {
    UploadStats(|files|, Count(files, (f: UploadedFile) => f.status == Success),
                Count(files, (f: UploadedFile) => f.status == Error), TotalSize(files))
  }

  function TotalSize(files: seq<UploadedFile>): nat
    decreases |files|
  {
    if |files| == 0 then 0 else files[0].size + TotalSize(files[1..])
  }

  /** Successes and errors never add up to more than the files listed, and the size total
      covers each file's size. */
  lemma StatsBounds(files: seq<UploadedFile>)
    ensures StatsOf(files).successCount + StatsOf(files).errorCount <= StatsOf(files).totalFiles
    ensures forall i :: 0 <= i < |files| ==> files[i].size <= StatsOf(files).totalSize
  {
    CountDisjoint(files, (f: UploadedFile) => f.status == Success, (f: UploadedFile) => f.status == Error);
    SizeBound(files);
  }

  lemma {:induction false} SizeBound(files: seq<UploadedFile>)
    ensures forall i :: 0 <= i < |files| ==> files[i].size <= TotalSize(files)
    decreases |files|
  {
    if |files| > 0 {
      SizeBound(files[1..]);
      forall i | 1 <= i < |files|
        ensures files[i].size <= TotalSize(files)
      {
        assert files[i] == files[1..][i - 1];
      }
    }
  }

  const EmptyStats := UploadStats(0, 0, 0, 0)

  /** The page state. */
  class UploadQueue {
    var files: seq<UploadedFile>
    var stats: UploadStats
    var uploading: bool

    constructor ()
      ensures files == [] && stats == EmptyStats && !uploading
    {
      files := [];
      stats := EmptyStats;
      uploading := false;
    }

    /** One tick of the progress timer of file `id`. */
    method Tick(id: string)
      modifies this
      ensures files == TickAll(old(files), id)
      ensures stats == old(stats) && uploading == old(uploading)
    {
      files := TickAll(files, id);
    }

    /** `updateFileStatus`: only entries with that id change. */
    method UpdateFileStatus(id: string, status: FileStatus, error: Option<string>, extra: Option<Extra>)
      modifies this
      ensures files == WithStatus(old(files), id, status, error, extra)
      ensures |files| == |old(files)|
      ensures forall i :: 0 <= i < |files| && old(files)[i].id != id ==> files[i] == old(files)[i]
      ensures forall i :: 0 <= i < |files| && old(files)[i].id == id ==>
                files[i].status == status && files[i].error == error
                && files[i].progress == (if status == Success then 100 else old(files)[i].progress)
      ensures stats == old(stats) && uploading == old(uploading)
    {
      files := WithStatus(files, id, status, error, extra);
    }

    /** `uploadFile` for the file `id`: the timer ticks while the request runs, then the
        answer sets the status. */
    method UploadFile(id: string, step: UploadStep)
      modifies this
      ensures files == FileStep(old(files), id, step)
      ensures stats == old(stats) && uploading == old(uploading)
    {
      ghost var start := files;
      for t := 0 to step.ticks
        invariant |files| == |start| && stats == old(stats) && uploading == old(uploading)
        invariant forall i :: 0 <= i < |files| ==>
                    files[i] == if start[i].id == id then BumpN(start[i], t) else start[i]
      {
        Tick(id);
        forall i | 0 <= i < |files|
          ensures files[i] == if start[i].id == id then BumpN(start[i], t + 1) else start[i]
        {
          BumpNKeeps(start[i], t);
        }
      }
      ghost var ticked := files;
      match step.response {
        case Responded(success, url, thumbnailUrl, message) =>
          if success {
            UpdateFileStatus(id, Success, None, Some(Extra(url, thumbnailUrl, Some(step.uploadedAt))));
          } else {
            UpdateFileStatus(id, Error, Some(OrDefault(message, UploadFailedMessage)), None);
          }
        case RequestFailed =>
          var mockUrl := MockUrl(id);
          UpdateFileStatus(id, Success, None, Some(Extra(Some(mockUrl), Some(mockUrl), Some(step.uploadedAt))));
      }
      forall i | 0 <= i < |files|
        ensures files[i] == FileStep(start, id, step)[i]
      {
        BumpNKeeps(start[i], step.ticks);
        if start[i].id == id {
          assert ticked[i].id == id;
        }
      }
    }

    /** `updateStats`, over the list it captured. */
    method UpdateStats(snapshot: seq<UploadedFile>)
      modifies this
      ensures stats == StatsOf(snapshot)
      ensures files == old(files) && uploading == old(uploading)
    {
      stats := StatsOf(snapshot);
    }

    /** `handleFiles`: only images are queued, in front of the list and in selection order,
        then uploaded one at a time. Every list update is functional, but `updateStats` reads
        the list of the render that created the handler, passed as `snapshot`. Returns whether
        the "images only" alert was shown. */
    method HandleFiles(selection: seq<SelectedFile>, ids: nat -> string, steps: nat -> UploadStep,
                       snapshot: seq<UploadedFile>)
      returns (alerted: bool)
      modifies this
      ensures alerted <==> |Images(selection)| == 0
      ensures alerted ==> files == old(files) && stats == old(stats) && uploading == old(uploading)
      ensures !alerted ==>
        files == RunUploads(NewEntries(Images(selection), ids) + old(files), ids, steps, |Images(selection)|)
        && stats == StatsOf(snapshot) && !uploading
    {
      var imageFiles := Images(selection);
      if |imageFiles| == 0 {
        return true;
      }
      alerted := false;
      uploading := true;
      ghost var before := files;
      var newFiles := NewEntries(imageFiles, ids);
      files := newFiles + files;
      for index := 0 to |imageFiles|
        invariant files == RunUploads(newFiles + before, ids, steps, index)
      {
        UploadFile(ids(index), steps(index));
      }
      uploading := false;
      UpdateStats(snapshot);
    }

    /** `handleFileInput`: re-created on every render, so its `handleFiles` sees the current
        list, and the statistics are those of the list before the new entries. */
    method HandleFileInput(selection: seq<SelectedFile>, ids: nat -> string, steps: nat -> UploadStep)
      returns (alerted: bool)
      modifies this
      ensures alerted <==> |Images(selection)| == 0
      ensures alerted ==> files == old(files) && stats == old(stats) && uploading == old(uploading)
      ensures !alerted ==>
        files == RunUploads(NewEntries(Images(selection), ids) + old(files), ids, steps, |Images(selection)|)
        && stats == StatsOf(old(files)) && !uploading
    {
      alerted := HandleFiles(selection, ids, steps, files);
    }

    /** `handleDrop`: an empty drop does nothing. The callback is memoised with no
        dependencies, so it keeps the first render's `handleFiles`, whose `updateStats` reads
        the initial empty list: after a drop the statistics are all zero, whatever the list
        holds. */
    method HandleDrop(selection: seq<SelectedFile>, ids: nat -> string, steps: nat -> UploadStep)
      returns (alerted: bool)
      modifies this
      ensures alerted <==> |selection| > 0 && |Images(selection)| == 0
      ensures |selection| == 0 || alerted ==> files == old(files) && stats == old(stats) && uploading == old(uploading)
      ensures |selection| > 0 && !alerted ==>
        files == RunUploads(NewEntries(Images(selection), ids) + old(files), ids, steps, |Images(selection)|)
        && stats == EmptyStats && !uploading
    {
      if |selection| == 0 {
        return false;
      }
      alerted := HandleFiles(selection, ids, steps, []);
      assert StatsOf([]) == EmptyStats;
    }

    /** `removeFile`: drops every entry with that id, keeps the others in order, and takes the
        statistics from the list it captured. */
    method RemoveFile(id: string, snapshot: seq<UploadedFile>)
      modifies this
      ensures files == Filter(old(files), (f: UploadedFile) => f.id != id)
      ensures forall f :: f in files <==> f in old(files) && f.id != id
      ensures stats == StatsOf(snapshot) && uploading == old(uploading)
    {
      FilterSpec(files, (f: UploadedFile) => f.id != id);
      files := Filter(files, (f: UploadedFile) => f.id != id);
      UpdateStats(snapshot);
    }

    /** `clearAllFiles`. */
    method ClearAllFiles()
      modifies this
      ensures files == [] && stats == EmptyStats && uploading == old(uploading)
    {
      files := [];
      stats := EmptyStats;
    }
  }

  /** The ids drawn for the new entries differ from each other and from the ids in the list. */
  predicate FreshIds(ids: nat -> string, n: nat, existing: seq<UploadedFile>) {
    (forall i, j :: 0 <= i < j < n ==> ids(i) != ids(j))
    && (forall i, k :: 0 <= i < n && 0 <= k < |existing| ==> existing[k].id != ids(i))
  }

  lemma NewEntriesInPlace(images: seq<SelectedFile>, ids: nat -> string, existing: seq<UploadedFile>)
    requires FreshIds(ids, |images|, existing)
    ensures IdsInPlace(NewEntries(images, ids) + existing, ids, |images|)
  {
    var n := |images|;
    var fs := NewEntries(images, ids) + existing;
    assert forall i :: 0 <= i < n ==> fs[i] == NewEntry(images[i], ids(i));
    assert forall k :: n <= k < |fs| ==> fs[k] == existing[k - n];
  }

  /** The list a selection produces: entry `i` is the `i`-th new entry, then the old list. */
  lemma SelectionAt(images: seq<SelectedFile>, ids: nat -> string, existing: seq<UploadedFile>)
    ensures var fs := NewEntries(images, ids) + existing;
            |fs| == |images| + |existing| && fs[|images|..] == existing
            && forall i :: 0 <= i < |images| ==> fs[i] == NewEntry(images[i], ids(i))
  {
  }

  /** After a selection with fresh ids has been handled, the new entries sit in front in
      selection order, each settled by its own step, and the old entries follow unchanged. */
  lemma HandledSelection(images: seq<SelectedFile>, ids: nat -> string, steps: nat -> UploadStep,
                         existing: seq<UploadedFile>)
    requires FreshIds(ids, |images|, existing)
    ensures var r := RunUploads(NewEntries(images, ids) + existing, ids, steps, |images|);
            |r| == |images| + |existing| && r[|images|..] == existing
            && forall i :: 0 <= i < |images| ==> r[i] == Settle(NewEntry(images[i], ids(i)), steps(i))
  {
    var n := |images|;
    var fs := NewEntries(images, ids) + existing;
    SelectionAt(images, ids, existing);
    NewEntriesInPlace(images, ids, existing);
    RunUploadsPrefix(fs, ids, steps, n, n);
    var r := RunUploads(fs, ids, steps, n);
    SettledInFront(fs, r, steps, n);
  }

  /** Read entry by entry: the first `n` settled, the rest as they were. */
  lemma SettledInFront(fs: seq<UploadedFile>, r: seq<UploadedFile>, steps: nat -> UploadStep, n: nat)
    requires n <= |fs| && |r| == |fs|
    requires forall i :: 0 <= i < |fs| ==> r[i] == AfterUploads(fs, steps, n, i)
    ensures r[n..] == fs[n..]
    ensures forall i :: 0 <= i < n ==> r[i] == Settle(fs[i], steps(i))
  {
    assert forall k :: n <= k < |fs| ==> r[k] == fs[k];
  }
}
