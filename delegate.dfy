/** FileDownloaderDelegate: receives the download engine's events for one
    record at a time, changes the record's status and error in place,
    persists or removes it according to the cleanup policy, and posts the
    matching listener callback to the UI handler. A failing store call ends
    the handler early and normally: nothing is posted for that event, and a
    status or error already written to the record stays written. */
module Delegate {
  import opened Fetch
  import opened Ports
  import opened CleanupPolicy
  import opened ProgressSlot

  /** Everything outside the record that a handler can change: the store's
      rows and the calls made on it, the files, and the UI queue. */
  datatype World = World(rows: map<int, Row>, calls: seq<StoreCall>, files: set<string>,
                         tempFiles: set<TempFile>, queue: seq<Task>)

  /** The requeue edge of onError: taken only when retrying on network gain
      is enabled and the download failed for lack of a network. */
  predicate Requeues(retryOnNetworkGain: bool, error: Error)
  {
    retryOnNetworkGain && error == NoNetworkConnection
  }

  /** A full-record write of `row`. */
  function Persisted(w: World, row: Row): (r: World)
    ensures r.rows.Keys == w.rows.Keys + {row.id} && r.rows[row.id] == row
    ensures forall id :: id in w.rows && id != row.id ==> r.rows[id] == w.rows[id]
    ensures r.calls == w.calls + [FullUpdate(row.id)]
    ensures r.files == w.files && r.tempFiles == w.tempFiles && r.queue == w.queue
  {
    w.(rows := Upserted(w.rows, row), calls := w.calls + [FullUpdate(row.id)])
  }

  /** The narrow checkpoint write: an existing row takes the status and byte
      counts of `row` and keeps everything else; a missing row stays missing. */
  function Checkpointed(w: World, row: Row): (r: World)
    ensures r.rows.Keys == w.rows.Keys
    ensures forall id :: id in w.rows && id != row.id ==> r.rows[id] == w.rows[id]
    ensures row.id in w.rows ==>
      var before, after := w.rows[row.id], r.rows[row.id];
      after.status == row.status && after.downloaded == row.downloaded && after.total == row.total
      && after.id == before.id && after.error == before.error && after.file == before.file
    ensures r.calls == w.calls + [FileBytesInfoAndStatus(row.id)]
    ensures r.files == w.files && r.tempFiles == w.tempFiles && r.queue == w.queue
  {
    w.(rows := Checkpoint(w.rows, row), calls := w.calls + [FileBytesInfoAndStatus(row.id)])
  }

  /** deleteDownloadInfo after its store call succeeded: the row is gone;
      the file and the download's temp files under `tempDir` go too exactly
      when the file was to be deleted and existed; no other file changes. */
  function RecordRemoved(w: World, row: Row, deleteFile: bool, tempDir: string): (r: World)
    ensures r.rows.Keys == w.rows.Keys - {row.id}
    ensures forall id :: id in r.rows ==> r.rows[id] == w.rows[id]
    ensures r.calls == w.calls + [DeleteRow(row.id)]
    ensures r.files <= w.files && w.files - r.files <= {row.file}
    ensures row.file !in r.files <==> row.file !in w.files || deleteFile
    ensures r.tempFiles <= w.tempFiles
    ensures forall t :: t in w.tempFiles - r.tempFiles ==> t.dir == tempDir && t.downloadId == row.id
    ensures deleteFile && row.file in w.files ==>
      r.tempFiles == WithoutRequestTempFiles(w.tempFiles, tempDir, row.id)
    ensures !(deleteFile && row.file in w.files) ==> r.tempFiles == w.tempFiles
    ensures r.queue == w.queue
  {
    var removesFile := deleteFile && row.file in w.files;
    w.(rows := w.rows - {row.id},
       calls := w.calls + [DeleteRow(row.id)],
       files := if removesFile then w.files - {row.file} else w.files,
       tempFiles := if removesFile then WithoutRequestTempFiles(w.tempFiles, tempDir, row.id) else w.tempFiles)
  }

  /** The `when` that ends a download with outcome k: exactly one store
      call, a full update when no flag of k is set and a removal otherwise.
      The record is kept exactly when no flag of k is set, and the file can
      go only when the delete-file flag is the one that applies. */
  function CleanedUp(w: World, k: Outcome, options: set<RequestOption>, row: Row, tempDir: string): (r: World)
    ensures row.id in r.rows <==> RemoveFlag(k) !in options && RemoveDeleteFileFlag(k) !in options
    ensures row.id in r.rows ==> r.rows[row.id] == row
    ensures forall id :: id != row.id ==> (id in r.rows <==> id in w.rows)
    ensures forall id :: id != row.id && id in r.rows ==> r.rows[id] == w.rows[id]
    ensures r.calls == w.calls + [if CleanupFor(k, options) == Persist then FullUpdate(row.id) else DeleteRow(row.id)]
    ensures r.files <= w.files && w.files - r.files <= {row.file}
    ensures r.tempFiles <= w.tempFiles
    ensures !(CleanupFor(k, options) == RemoveRecordAndFile && row.file in w.files) ==>
      r.files == w.files && r.tempFiles == w.tempFiles
    ensures CleanupFor(k, options) == RemoveRecordAndFile && row.file in w.files ==>
      row.file !in r.files && r.tempFiles == WithoutRequestTempFiles(w.tempFiles, tempDir, row.id)
    ensures r.queue == w.queue
  {
    match CleanupFor(k, options)
    case Persist => Persisted(w, row)
    case RemoveRecord => RecordRemoved(w, row, false, tempDir)
    case RemoveRecordAndFile => RecordRemoved(w, row, true, tempDir)
  }

  /** Ending an already-removed download again changes no row and no file:
      the second removal is a no-op apart from the store call it logs. */
  lemma RemovalIsIdempotent(w: World, k: Outcome, options: set<RequestOption>, row: Row, tempDir: string)
    requires CleanupFor(k, options) != Persist
    ensures var once := CleanedUp(w, k, options, row, tempDir);
            var twice := CleanedUp(once, k, options, row, tempDir);
            twice.rows == once.rows && twice.files == once.files && twice.tempFiles == once.tempFiles
            && twice.calls == once.calls + [DeleteRow(row.id)]
  {
  }

  /** A callback posted to the UI queue. */
  function Posted(w: World, cb: Callback): World
  {
    w.(queue := w.queue + [Call(cb)])
  }

  /** The delegate's single progress runnable: onProgress overwrites its
      fields, and running it reports whatever they hold at that moment. */
  class ProgressRunnable {
    var download: DownloadInfo?
    var etaInMilliSeconds: int
    var downloadedBytesPerSecond: int

    constructor ()
      ensures download == null
    {
      download := null;
      etaInMilliSeconds := 0;
      downloadedBytesPerSecond := 0;
    }

    /** The callback the runnable makes when the UI thread runs it. */
    method Run() returns (cb: Callback)
      requires download != null
      ensures cb.OnProgress? && cb.download == download
      ensures cb.etaInMilliseconds == etaInMilliSeconds && cb.downloadedBytesPerSecond == downloadedBytesPerSecond
    {
      cb := OnProgress(download, etaInMilliSeconds, downloadedBytesPerSecond);
    }
  }

  class FileDownloaderDelegate {
    const downloadInfoUpdater: DownloadInfoUpdater
    const uiHandler: UiHandler
    const retryOnNetworkGain: bool
    const requestOptions: set<RequestOption>
    const fileSystem: FileSystem
    const fileTempDir: string
    const progressRunnable: ProgressRunnable

    /** Every write to the progress runnable and every run of it so far. */
    ghost var progressOps: seq<SlotOp<Callback>>

    /** The runnable holds the latest progress written, and the UI queue
        holds one copy of it for every write not yet run. */
    ghost predicate Valid()
      reads this, uiHandler, progressRunnable
    {
      WellFormed(progressOps)
      && multiset(uiHandler.queue)[RunProgress] == Pending(progressOps)
      && (Writes(progressOps) != [] ==>
            progressRunnable.download != null
            && Writes(progressOps)[|Writes(progressOps)| - 1]
               == Ports.OnProgress(progressRunnable.download, progressRunnable.etaInMilliSeconds,
                             progressRunnable.downloadedBytesPerSecond))
    }

    /** The UI handler starts with no copy of this delegate's (new) runnable. */
    constructor (downloadInfoUpdater: DownloadInfoUpdater, uiHandler: UiHandler, retryOnNetworkGain: bool,
                 requestOptions: set<RequestOption>, fileSystem: FileSystem, fileTempDir: string)
      requires RunProgress !in uiHandler.queue
      ensures Valid() && progressOps == [] && fresh(progressRunnable)
      ensures this.downloadInfoUpdater == downloadInfoUpdater && this.uiHandler == uiHandler
      ensures this.retryOnNetworkGain == retryOnNetworkGain && this.requestOptions == requestOptions
      ensures this.fileSystem == fileSystem && this.fileTempDir == fileTempDir
    {
      this.downloadInfoUpdater := downloadInfoUpdater;
      this.uiHandler := uiHandler;
      this.retryOnNetworkGain := retryOnNetworkGain;
      this.requestOptions := requestOptions;
      this.fileSystem := fileSystem;
      this.fileTempDir := fileTempDir;
      progressRunnable := new ProgressRunnable();
      progressOps := [];
    }

    /** The store, the files and the UI queue as one value. */
    function State(): World
      reads this, downloadInfoUpdater, fileSystem, uiHandler
    {
      World(downloadInfoUpdater.rows, downloadInfoUpdater.calls, fileSystem.files, fileSystem.tempFiles,
            uiHandler.queue)
    }

    /** onStarted: DOWNLOADING, a full update, then one onProgress callback
        carrying the given eta and rate. */
    method OnStarted(info: DownloadInfo, etaInMilliseconds: int, downloadedBytesPerSecond: int)
      requires Valid()
      modifies info`status, downloadInfoUpdater, uiHandler
      ensures Valid() && progressOps == old(progressOps)
      ensures downloadInfoUpdater.faulty == old(downloadInfoUpdater.faulty)
      ensures info.status == Downloading
      ensures State() == if old(downloadInfoUpdater.faulty) then old(State())
                         else Posted(Persisted(old(State()), info.ToRow()),
                                     Ports.OnProgress(info, etaInMilliseconds, downloadedBytesPerSecond))
    {
      info.status := Downloading;
      var ok := downloadInfoUpdater.Update(info);
      if !ok {
        return;
      }
      Notify(Ports.OnProgress(info, etaInMilliseconds, downloadedBytesPerSecond));
    }

    /** onProgress: the record and the store stay as they are; the shared
        runnable takes the new values and is posted once more. */
    method OnProgress(download: DownloadInfo, etaInMilliSeconds: int, downloadedBytesPerSecond: int)
      requires Valid()
      modifies progressRunnable, uiHandler, this`progressOps
      ensures Valid()
      ensures progressRunnable.download == download
      ensures progressRunnable.etaInMilliSeconds == etaInMilliSeconds
      ensures progressRunnable.downloadedBytesPerSecond == downloadedBytesPerSecond
      ensures uiHandler.queue == old(uiHandler.queue) + [RunProgress]
      ensures progressOps == old(progressOps) + [Write(Ports.OnProgress(download, etaInMilliSeconds, downloadedBytesPerSecond))]
    {
      progressRunnable.download := download;
      progressRunnable.etaInMilliSeconds := etaInMilliSeconds;
      progressRunnable.downloadedBytesPerSecond := downloadedBytesPerSecond;
      uiHandler.Post(RunProgress);
      progressOps := progressOps + [Write(Ports.OnProgress(download, etaInMilliSeconds, downloadedBytesPerSecond))];
    }

    /** onError: with retryOnNetworkGain and a no-network error the download
        is requeued (QUEUED, error cleared, full update, onQueued posted);
        otherwise it fails (FAILED, error kept, cleanup by the on-failed
        flags, onError posted). */
    method OnError(info: DownloadInfo)
      requires Valid()
      modifies info`status, info`error, downloadInfoUpdater, fileSystem, uiHandler
      ensures Valid() && progressOps == old(progressOps)
      ensures downloadInfoUpdater.faulty == old(downloadInfoUpdater.faulty)
      ensures Requeues(retryOnNetworkGain, old(info.error)) ==>
        info.status == Queued && info.error == NoError
        && State() == if old(downloadInfoUpdater.faulty) then old(State())
                      else Posted(Persisted(old(State()), info.ToRow()), Ports.OnQueued(info))
      ensures !Requeues(retryOnNetworkGain, old(info.error)) ==>
        info.status == Failed && info.error == old(info.error)
        && State() == if old(downloadInfoUpdater.faulty) then old(State())
                      else Posted(CleanedUp(old(State()), Failure, requestOptions, info.ToRow(), fileTempDir), Ports.OnError(info))
    {
      if retryOnNetworkGain && info.error == NoNetworkConnection {
        info.status := Queued;
        info.error := NoError;
        var ok := downloadInfoUpdater.Update(info);
        if !ok {
          return;
        }
        Notify(Ports.OnQueued(info));
      } else {
        info.status := Failed;
        var ok := CleanUp(info, Failure);
        if !ok {
          return;
        }
        Notify(Ports.OnError(info));
      }
    }

    /** onComplete: COMPLETED (error untouched), cleanup by the on-completed
        flags, onCompleted posted. */
    method OnComplete(info: DownloadInfo)
      requires Valid()
      modifies info`status, downloadInfoUpdater, fileSystem, uiHandler
      ensures Valid() && progressOps == old(progressOps)
      ensures downloadInfoUpdater.faulty == old(downloadInfoUpdater.faulty)
      ensures info.status == Completed
      ensures State() == if old(downloadInfoUpdater.faulty) then old(State())
                         else Posted(CleanedUp(old(State()), Completion, requestOptions, info.ToRow(), fileTempDir),
                                     Ports.OnCompleted(info))
    {
      info.status := Completed;
      var ok := CleanUp(info, Completion);
      if !ok {
        return;
      }
      Notify(Ports.OnCompleted(info));
    }

    /** The `when` of onError's failure branch and of onComplete: the one
        store call the cleanup policy chooses for outcome k. */
    method CleanUp(info: DownloadInfo, k: Outcome) returns (ok: bool)
      modifies downloadInfoUpdater, fileSystem
      ensures ok == !old(downloadInfoUpdater.faulty) && downloadInfoUpdater.faulty == old(downloadInfoUpdater.faulty)
      ensures State() == if ok then CleanedUp(old(State()), k, requestOptions, info.ToRow(), fileTempDir) else old(State())
    {
      match CleanupFor(k, requestOptions) {
        case RemoveRecord =>
          ok := DeleteDownloadInfo(info, false);
        case RemoveRecordAndFile =>
          ok := DeleteDownloadInfo(info, true);
        case Persist =>
          ok := downloadInfoUpdater.Update(info);
      }
    }

    /** saveDownloadProgress: DOWNLOADING and the narrow write of status and
        byte counts; no callback is posted. */
    method SaveDownloadProgress(info: DownloadInfo)
      requires Valid()
      modifies info`status, downloadInfoUpdater
      ensures Valid()
      ensures downloadInfoUpdater.faulty == old(downloadInfoUpdater.faulty)
      ensures info.status == Downloading
      ensures State() == if old(downloadInfoUpdater.faulty) then old(State())
                         else Checkpointed(old(State()), info.ToRow())
    {
      info.status := Downloading;
      var _ := downloadInfoUpdater.UpdateFileBytesInfoAndStatusOnly(info);
    }

    /** deleteDownloadInfo: remove the row; then, if asked and the file
        exists, delete the file and the download's temp files. A failing
        removal stops before any file is touched. */
    method DeleteDownloadInfo(info: DownloadInfo, deleteFile: bool) returns (ok: bool)
      modifies downloadInfoUpdater, fileSystem
      ensures ok == !old(downloadInfoUpdater.faulty) && downloadInfoUpdater.faulty == old(downloadInfoUpdater.faulty)
      ensures State() == if ok then RecordRemoved(old(State()), info.ToRow(), deleteFile, fileTempDir) else old(State())
    {
      ok := downloadInfoUpdater.DeleteDownload(info);
      if !ok {
        return;
      }
      if deleteFile && fileSystem.Exists(info.file) {
        fileSystem.Delete(info.file);
        fileSystem.DeleteRequestTempFiles(fileTempDir, info.id);
      }
    }

    /** `uiHandler.post { ... }`: a closure that makes callback cb is queued. */
    method Notify(cb: Callback)
      requires Valid()
      modifies uiHandler
      ensures Valid()
      ensures uiHandler.queue == old(uiHandler.queue) + [Call(cb)]
    {
      uiHandler.Post(Call(cb));
      assert multiset(uiHandler.queue)[RunProgress] == multiset(old(uiHandler.queue))[RunProgress];
    }

    /** One turn of the UI thread: the oldest task runs. A closure delivers
        the callback it captured; the shared runnable delivers the latest
        progress written, which is the last value of Delivered. */
    method DeliverNext() returns (cb: Callback)
      requires Valid() && uiHandler.queue != []
      modifies uiHandler, this`progressOps
      ensures Valid()
      ensures uiHandler.queue == old(uiHandler.queue[1..])
      ensures old(uiHandler.queue[0]).Call? ==>
        cb == old(uiHandler.queue[0]).callback && progressOps == old(progressOps)
      ensures old(uiHandler.queue[0]) == RunProgress ==>
        progressOps == old(progressOps) + [Fire]
        && Delivered(progressOps) == old(Delivered(progressOps)) + [cb]
        && cb == Writes(progressOps)[|Writes(progressOps)| - 1]
    {
      ghost var q := uiHandler.queue;
      assert q == [q[0]] + q[1..];
      var t := uiHandler.Take();
      match t
      case Call(c) =>
        cb := c;
      case RunProgress =>
        cb := progressRunnable.Run();
        progressOps := progressOps + [Fire];
        assert progressOps[..|progressOps| - 1] == old(progressOps);
    }
  }
}
