/** The collaborators the delegate calls: the persistence port
    (DownloadInfoUpdater), the file system it cleans up, and the UI handler
    it posts listener callbacks to. Each is a small stateful object. */
module Ports {
  import opened Fetch

  /** One successful call on the persistence port, in the order made. */
  datatype StoreCall = FullUpdate(id: int) | FileBytesInfoAndStatus(id: int) | DeleteRow(id: int)

  /** A full-record write: the row is stored under its id, inserted if it
      was missing; every other row stays as it was. */
  function Upserted(rows: map<int, Row>, row: Row): (r: map<int, Row>)
    ensures r.Keys == rows.Keys + {row.id} && r[row.id] == row
    ensures forall id :: id in rows && id != row.id ==> r[id] == rows[id]
  {
    rows[row.id := row]
  }

  /** The narrow checkpoint write: an existing row takes the status and byte
      counts of `row` and keeps its id, error and file; a missing row stays
      missing; every other row stays as it was. */
  function Checkpoint(rows: map<int, Row>, row: Row): (r: map<int, Row>)
    ensures r.Keys == rows.Keys
    ensures forall id :: id in rows && id != row.id ==> r[id] == rows[id]
    ensures row.id in rows ==>
      var before, after := rows[row.id], r[row.id];
      after.status == row.status && after.downloaded == row.downloaded && after.total == row.total
      && after.id == before.id && after.error == before.error && after.file == before.file
  {
    if row.id in rows
    then rows[row.id := rows[row.id].(status := row.status, downloaded := row.downloaded, total := row.total)]
    else rows
  }

  /** The persistence port over a table of rows keyed by download id.
      `faulty` is the fault oracle: while it holds, every call throws, which
      the model writes as returning false and changing nothing. */
  class DownloadInfoUpdater {
    var rows: map<int, Row>
    var calls: seq<StoreCall>
    var faulty: bool

    constructor (rows: map<int, Row>, faulty: bool)
      ensures this.rows == rows && this.faulty == faulty && calls == []
    {
      this.rows := rows;
      this.faulty := faulty;
      calls := [];
    }

    /** Full-record write: the row for the record becomes its snapshot
        (inserted if it was missing). */
    method Update(info: DownloadInfo) returns (ok: bool)
      modifies this
      ensures ok == !faulty && faulty == old(faulty)
      ensures rows == if ok then Upserted(old(rows), info.ToRow()) else old(rows)
      ensures calls == if ok then old(calls) + [FullUpdate(info.id)] else old(calls)
    {
      ok := !faulty;
      if ok {
        rows := Upserted(rows, info.ToRow());
        calls := calls + [FullUpdate(info.id)];
      }
    }

    /** Narrow checkpoint write: only the status and the byte counts of an
        existing row change; a missing row stays missing. */
    method UpdateFileBytesInfoAndStatusOnly(info: DownloadInfo) returns (ok: bool)
      modifies this
      ensures ok == !faulty && faulty == old(faulty)
      ensures rows == if ok then Checkpoint(old(rows), info.ToRow()) else old(rows)
      ensures calls == if ok then old(calls) + [FileBytesInfoAndStatus(info.id)] else old(calls)
    {
      ok := !faulty;
      if ok {
        rows := Checkpoint(rows, info.ToRow());
        calls := calls + [FileBytesInfoAndStatus(info.id)];
      }
    }

    /** Removes the record's row; removing a missing row is a no-op. */
    method DeleteDownload(info: DownloadInfo) returns (ok: bool)
      modifies this
      ensures ok == !faulty && faulty == old(faulty)
      ensures rows == if ok then old(rows) - {info.id} else old(rows)
      ensures calls == if ok then old(calls) + [DeleteRow(info.id)] else old(calls)
    {
      ok := !faulty;
      if ok {
        rows := rows - {info.id};
        calls := calls + [DeleteRow(info.id)];
      }
    }
  }

  /** A temporary file that a download keeps under a temp directory. */
  datatype TempFile = TempFile(dir: string, downloadId: int, path: string)

  /** The temp files left after removing those of download `id` under `dir`. */
  function WithoutRequestTempFiles(temps: set<TempFile>, dir: string, id: int): (r: set<TempFile>)
    ensures r <= temps
    ensures forall t :: t in temps - r ==> t.dir == dir && t.downloadId == id
    ensures forall t :: t in r ==> t.dir != dir || t.downloadId != id
  {
    set t | t in temps && (t.dir != dir || t.downloadId != id)
  }

  /** The files the delegate may delete: downloaded files by path, and the
      temp files each download keeps. */
  class FileSystem {
    var files: set<string>
    var tempFiles: set<TempFile>

    constructor (files: set<string>, tempFiles: set<TempFile>)
      ensures this.files == files && this.tempFiles == tempFiles
    {
      this.files := files;
      this.tempFiles := tempFiles;
    }

    predicate Exists(path: string)
      reads this
    {
      path in files
    }

    method Delete(path: string)
      modifies this
      ensures files == old(files) - {path} && tempFiles == old(tempFiles)
    {
      files := files - {path};
    }

    /** Removes every temp file of download `id` under `dir`. */
    method DeleteRequestTempFiles(dir: string, id: int)
      modifies this
      ensures files == old(files)
      ensures tempFiles == WithoutRequestTempFiles(old(tempFiles), dir, id)
    {
      tempFiles := WithoutRequestTempFiles(tempFiles, dir, id);
    }
  }

  /** A listener callback, as the UI thread delivers it. The download is the
      record itself (a reference): the listener reads its fields when the
      callback runs. */
  datatype Callback =
    | OnQueued(download: DownloadInfo)
    | OnProgress(download: DownloadInfo, etaInMilliseconds: int, downloadedBytesPerSecond: int)
    | OnError(download: DownloadInfo)
    | OnCompleted(download: DownloadInfo)

  /** What sits in the UI queue: a closure that makes one callback with the
      values it captured, or the delegate's shared progress runnable, which
      reads its fields only when it runs. */
  datatype Task = Call(callback: Callback) | RunProgress

  /** The UI handler: a FIFO queue of posted tasks, taken one at a time by
      the UI thread. */
  class UiHandler {
    var queue: seq<Task>

    constructor ()
      ensures queue == []
    {
      queue := [];
    }

    method Post(t: Task)
      modifies this
      ensures queue == old(queue) + [t]
    {
      queue := queue + [t];
    }

    /** The UI thread takes the oldest task. */
    method Take() returns (t: Task)
      requires queue != []
      modifies this
      ensures t == old(queue[0]) && queue == old(queue[1..])
    {
      t := queue[0];
      queue := queue[1..];
    }
  }
}
