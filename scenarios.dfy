/** Clients of the delegate that run event sequences against its
    contracts: the retry-on-network-gain lifecycle in two halves, progress
    coalescing, repeated completion of a removed download, and a failing
    store. */
module Scenarios {
  import opened Fetch
  import opened Ports
  import opened CleanupPolicy
  import opened Delegate

  /** The first half of the retry lifecycle, with retryOnNetworkGain and no
      cleanup flag: a download starts, then loses the network, and is
      requeued with its error cleared. */
  method StartThenLoseNetwork() returns (statuses: seq<Status>, stored: Row, posted: seq<Task>)
    ensures statuses == [Downloading, Queued]
    ensures stored.status == Queued && stored.error == NoError
    ensures |posted| == 2 && posted[0].Call? && posted[1].Call?
    ensures posted[0].callback.OnProgress? && posted[1].callback.OnQueued?
    ensures posted[0].callback.etaInMilliseconds == 1000 && posted[0].callback.downloadedBytesPerSecond == 50
  {
    var info := new DownloadInfo(7, Queued, NoError, "/downloads/a.bin", 0, 100);
    var store := new DownloadInfoUpdater(map[], false);
    var ui := new UiHandler();
    var fs := new FileSystem({"/downloads/a.bin"}, {});
    var delegate := new FileDownloaderDelegate(store, ui, true, {}, fs, "/cache/fetch");
    delegate.OnStarted(info, 1000, 50);
    var started := info.status;
    info.error := NoNetworkConnection;
    delegate.OnError(info);
    statuses := [started, info.status];
    stored := store.rows[7];
    posted := ui.queue;
  }

  /** The second half: the requeued download later completes; with no
      cleanup flag its row is kept and updated. */
  method RequeuedThenComplete() returns (status: Status, stored: Row, posted: seq<Task>)
    ensures status == Completed
    ensures stored.status == Completed && stored.error == NoError
    ensures |posted| == 1 && posted[0].Call? && posted[0].callback.OnCompleted?
  {
    var info := new DownloadInfo(7, Queued, NoError, "/downloads/a.bin", 100, 100);
    var store := new DownloadInfoUpdater(map[7 := info.ToRow()], false);
    var ui := new UiHandler();
    var fs := new FileSystem({"/downloads/a.bin"}, {});
    var delegate := new FileDownloaderDelegate(store, ui, true, {}, fs, "/cache/fetch");
    delegate.OnComplete(info);
    status := info.status;
    stored := store.rows[7];
    posted := ui.queue;
  }

  /** The whole retry lifecycle on the store, the files and the UI queue,
      chained through the handlers' effects: onStarted, a no-network onError
      with retry enabled, then onComplete with no cleanup flag. The record
      ends stored as COMPLETED with no error after three full updates, no
      file changes, and onProgress, onQueued, onCompleted are posted in
      that order. */
  lemma RetryLifecycle(w: World, d: DownloadInfo, row: Row, eta: int, rate: int, tempDir: string)
    ensures var started := row.(status := Downloading);
            var requeued := started.(status := Queued, error := NoError);
            var completed := requeued.(status := Completed);
            var w1 := Posted(Persisted(w, started), OnProgress(d, eta, rate));
            var w2 := Posted(Persisted(w1, requeued), OnQueued(d));
            var w3 := Posted(CleanedUp(w2, Completion, {}, completed, tempDir), OnCompleted(d));
            w3.rows == w.rows[row.id := completed]
            && w3.calls == w.calls + [FullUpdate(row.id), FullUpdate(row.id), FullUpdate(row.id)]
            && w3.files == w.files && w3.tempFiles == w.tempFiles
            && w3.queue == w.queue + [Call(OnProgress(d, eta, rate)), Call(OnQueued(d)), Call(OnCompleted(d))]
  {
  }

  /** Three progress events, with one UI turn after the first and two after
      the last: the middle value is skipped, the last is seen twice. */
  method CoalescedProgress() returns (etas: seq<int>)
    ensures etas == [30, 10, 10]
  {
    var info := new DownloadInfo(1, Downloading, NoError, "/downloads/b.bin", 0, 100);
    var store := new DownloadInfoUpdater(map[], false);
    var ui := new UiHandler();
    var fs := new FileSystem({}, {});
    var delegate := new FileDownloaderDelegate(store, ui, false, {}, fs, "/cache/fetch");
    delegate.OnProgress(info, 30, 5);
    var a := delegate.DeliverNext();
    delegate.OnProgress(info, 20, 5);
    delegate.OnProgress(info, 10, 5);
    var b := delegate.DeliverNext();
    var c := delegate.DeliverNext();
    etas := [a.etaInMilliseconds, b.etaInMilliseconds, c.etaInMilliseconds];
  }

  /** onComplete twice with AUTO_REMOVE_ON_COMPLETED_DELETE_FILE: the second
      call returns normally, removes nothing more and still posts its
      callback. */
  method CompleteTwice() returns (keptRow: bool, fileLeft: bool, tempLeft: bool, callbacks: nat)
    ensures !keptRow && !fileLeft && !tempLeft && callbacks == 2
  {
    var info := new DownloadInfo(3, Downloading, NoError, "/downloads/c.bin", 100, 100);
    var store := new DownloadInfoUpdater(map[3 := info.ToRow()], false);
    var ui := new UiHandler();
    var fs := new FileSystem({"/downloads/c.bin"}, {TempFile("/cache/fetch", 3, "/cache/fetch/3.tmp")});
    var delegate := new FileDownloaderDelegate(store, ui, false, {AutoRemoveOnCompletedDeleteFile}, fs, "/cache/fetch");
    delegate.OnComplete(info);
    delegate.OnComplete(info);
    keptRow := 3 in store.rows;
    fileLeft := "/downloads/c.bin" in fs.files;
    tempLeft := TempFile("/cache/fetch", 3, "/cache/fetch/3.tmp") in fs.tempFiles;
    callbacks := |ui.queue|;
  }

  /** A failing store: the status change sticks on the record, but the
      stored row is the old one and no callback is posted. */
  method StoreFails() returns (status: Status, storedStatus: Status, callbacks: nat)
    ensures status == Failed && storedStatus == Downloading && callbacks == 0
  {
    var info := new DownloadInfo(4, Downloading, OtherError(404), "/downloads/d.bin", 10, 100);
    var store := new DownloadInfoUpdater(map[4 := info.ToRow()], true);
    var ui := new UiHandler();
    var fs := new FileSystem({"/downloads/d.bin"}, {});
    var delegate := new FileDownloaderDelegate(store, ui, true, {AutoRemoveOnFailed}, fs, "/cache/fetch");
    delegate.OnError(info);
    status := info.status;
    storedStatus := store.rows[4].status;
    callbacks := |ui.queue|;
  }
}
