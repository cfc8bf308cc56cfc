# FileDownloaderDelegate, modelled in Dafny

Fetch is an Android download manager. While a file downloads, the download
engine reports events to its delegate, `FileDownloaderDelegate`. The delegate
handles five events:

- `onStarted`, `onError` and `onComplete` each set the record's status
  (and, on a requeue, its error) in place.
- Each of those three persists or removes the record through the
  `DownloadInfoUpdater` port.
- Each of those three posts the matching listener callback to the UI
  thread's handler.
- `onProgress` leaves the record and the store alone. It only writes the
  shared progress runnable's fields and posts the runnable.
- `saveDownloadProgress` checkpoints the status and byte counts without
  posting anything.

Progress is reported through ONE shared runnable. Every progress event
overwrites the runnable's fields and posts it again. The UI thread sees the
fields as they are when the runnable finally runs. Any exception from the
store is caught and logged: the handler stops there, but the status it has
already written stays on the record.

The project has six modules:

- `Fetch` (fetch.dfy): the status and error enumerations, the request
  options, and the mutable `DownloadInfo` record with its `Row` snapshot.
- `CleanupPolicy` (cleanup_policy.dfy): the `when` that decides, from the
  request options, what happens when a download fails or completes. The
  record is either updated, removed, or removed together with its file.
- `ProgressSlot` (progress_slot.dfy): the shared progress runnable, written
  as traces of writes and runs. It proves what a listener can rely on:
  - every delivery is some earlier write;
  - deliveries keep write order;
  - a write overwritten before the next run is skipped by that run;
  - once the queue is drained, the last write has been delivered.
- `Ports` (ports.dfy): the collaborators as small stateful classes. These are
  the store (with a fault oracle `faulty` that stands for "every call
  throws"), the file system, and the UI handler's FIFO queue.
- `Delegate` (delegate.dfy): the delegate itself, a class whose handlers
  change the record, the store, the files and the UI queue in place. Each
  handler's new state is tied to a pure function of the old state
  (`Persisted`, `Checkpointed`, `RecordRemoved`, `CleanedUp`). Each handler
  keeps the invariant `Valid()`, which says:
  - the runnable holds the latest progress written;
  - the queue holds one copy of the runnable for every write not yet run.
- `Scenarios` (scenarios.dfy): clients that drive event sequences through
  the handlers' contracts. They cover:
  - the retry-on-network-gain lifecycle;
  - coalesced progress;
  - completing a removed download twice;
  - a failing store.

## Model

| member | source | states |
|---|---|---|
| `CleanupPolicy.CleanupFor` | fetch2/src/main/java/com/tonyodev/fetch2/helper/FileDownloaderDelegate.kt:63-73 | the record-only flag wins over the delete-file flag; with neither flag the record is persisted. Each outcome is an if-and-only-if on the options. |
| `CleanupPolicy.CleanupSeesOnlyItsOutcome` | fetch2/src/main/java/com/tonyodev/fetch2/helper/FileDownloaderDelegate.kt:87-97 | only the flags of the outcome at hand matter: the on-failed flags never affect completion, and the reverse holds too |
| `CleanupPolicy.RecordOnlyRemovalWins` | fetch2/src/main/java/com/tonyodev/fetch2/helper/FileDownloaderDelegate.kt:64-68 | with both flags of an outcome set, only the record is removed and the file is kept |
| `Ports.Upserted` | fetch2/src/main/java/com/tonyodev/fetch2/helper/FileDownloaderDelegate.kt:25 | the full update stores the snapshot under its id, inserting it if missing, and keeps every other row |
| `Ports.Checkpoint` | fetch2/src/main/java/com/tonyodev/fetch2/helper/FileDownloaderDelegate.kt:110 | the narrow write changes only the status and byte counts of an existing row, keeps its id, error and file, never adds a row, and keeps every other row |
| `Delegate.Persisted` | fetch2/src/main/java/com/tonyodev/fetch2/helper/FileDownloaderDelegate.kt:25 | on the whole world, a full update puts the snapshot under its id and keeps every other row. It logs one full-update call and changes no file, temp file or queued task. |
| `Delegate.Checkpointed` | fetch2/src/main/java/com/tonyodev/fetch2/helper/FileDownloaderDelegate.kt:110 | on the whole world, the narrow write changes only the status and byte counts of an existing row and adds no row. It logs one narrow-write call and changes no file, temp file or queued task. |
| `Delegate.RecordRemoved` | fetch2/src/main/java/com/tonyodev/fetch2/helper/FileDownloaderDelegate.kt:116-123 | the row is gone and no other row changes. The file is gone exactly when it was to be deleted or was already missing. When the file was to be deleted and existed, exactly the download's own temp files under the temp dir go. Otherwise no file and no temp file changes. |
| `Delegate.CleanedUp` | fetch2/src/main/java/com/tonyodev/fetch2/helper/FileDownloaderDelegate.kt:63-73 | exactly one store call is made. The record is kept (as its snapshot) exactly when no flag of the outcome is set, and every other row keeps its presence and its value. When the delete-file flag applies and the file exists, the file and exactly the download's temp files are deleted; in every other case (including that flag with the file missing) no file and no temp file changes. |
| `Delegate.RemovalIsIdempotent` | fetch2/src/main/java/com/tonyodev/fetch2/helper/FileDownloaderDelegate.kt:116-123 | ending an already-removed download again changes no row and no file; only the logged removal call is added |
| `Delegate.FileDownloaderDelegate.constructor` | fetch2/src/main/java/com/tonyodev/fetch2/helper/FileDownloaderDelegate.kt:12-19 | the delegate starts with no progress written and the invariant established |
| `Delegate.FileDownloaderDelegate.OnStarted` | fetch2/src/main/java/com/tonyodev/fetch2/helper/FileDownloaderDelegate.kt:21-32 | the status becomes DOWNLOADING even when the store fails. On success the record is persisted and one onProgress with the given eta and rate is posted; on failure nothing else changes. |
| `Delegate.FileDownloaderDelegate.OnProgress` | fetch2/src/main/java/com/tonyodev/fetch2/helper/FileDownloaderDelegate.kt:40-49 | the runnable's fields are overwritten, one more copy of it is queued, and the progress trace gains this write. The invariant is kept. |
| `Delegate.FileDownloaderDelegate.OnError` | fetch2/src/main/java/com/tonyodev/fetch2/helper/FileDownloaderDelegate.kt:51-81 | with retryOnNetworkGain and a no-network error, the download goes to QUEUED with its error cleared, is persisted, and onQueued is posted. Otherwise it goes to FAILED with its error kept, is cleaned up by the on-failed flags, and onError is posted. A failing store stops before the post. |
| `Delegate.FileDownloaderDelegate.OnComplete` | fetch2/src/main/java/com/tonyodev/fetch2/helper/FileDownloaderDelegate.kt:83-104 | the status becomes COMPLETED and the error is left as it was. The record is cleaned up by the on-completed flags and onCompleted is posted; a failing store stops before the post. |
| `Delegate.FileDownloaderDelegate.CleanUp` | fetch2/src/main/java/com/tonyodev/fetch2/helper/FileDownloaderDelegate.kt:87-97 | the `when` makes the single store call that `CleanupFor` chooses, with the effect `CleanedUp` describes, or no change when the store fails |
| `Delegate.FileDownloaderDelegate.SaveDownloadProgress` | fetch2/src/main/java/com/tonyodev/fetch2/helper/FileDownloaderDelegate.kt:106-114 | the status becomes DOWNLOADING and the narrow write is applied; nothing is posted |
| `Delegate.FileDownloaderDelegate.DeleteDownloadInfo` | fetch2/src/main/java/com/tonyodev/fetch2/helper/FileDownloaderDelegate.kt:116-123 | the row is removed first. The file and its temp files are deleted only if asked and the file exists. A failing removal touches no file. |
| `Delegate.FileDownloaderDelegate.Notify` | fetch2/src/main/java/com/tonyodev/fetch2/helper/FileDownloaderDelegate.kt:74-76 | posting a closure appends exactly that callback to the UI queue and keeps the progress invariant |
| `Delegate.FileDownloaderDelegate.DeliverNext` | fetch2/src/main/java/com/tonyodev/fetch2/helper/FileDownloaderDelegate.kt:34-45 | the UI thread runs the oldest task. A closure delivers the callback it captured. The shared runnable delivers the latest progress written, which extends the Delivered trace. |
| `ProgressSlot.Delivered` | fetch2/src/main/java/com/tonyodev/fetch2/helper/FileDownloaderDelegate.kt:34-45 | each run of the runnable reports the latest write; there are never more deliveries than writes |
| `ProgressSlot.FiredAt` | fetch2/src/main/java/com/tonyodev/fetch2/helper/FileDownloaderDelegate.kt:34-45 | each run names the write it reports. That write has already happened, and the positions never decrease. |
| `ProgressSlot.WritesOfPrefix` | fetch2/src/main/java/com/tonyodev/fetch2/helper/FileDownloaderDelegate.kt:42-45 | the writes made up to any point are a prefix of all writes |
| `ProgressSlot.DeliveredInWriteOrder` | fetch2/src/main/java/com/tonyodev/fetch2/helper/FileDownloaderDelegate.kt:34-45 | the listener sees a sub-sequence of the writes, in write order, possibly with repeats |
| `ProgressSlot.OverwrittenWriteSkipped` | fetch2/src/main/java/com/tonyodev/fetch2/helper/FileDownloaderDelegate.kt:40-45 | after two writes and one run, the run delivers the second write only: the first value is skipped |
| `ProgressSlot.DeliveredNeverGoesBack` | fetch2/src/main/java/com/tonyodev/fetch2/helper/FileDownloaderDelegate.kt:34-45 | if the writes increase in some key, the deliveries never decrease in it |
| `ProgressSlot.LastWriteDelivered` | fetch2/src/main/java/com/tonyodev/fetch2/helper/FileDownloaderDelegate.kt:34-45 | once every posted run has executed, the last write has been delivered |
| `Ports.WithoutRequestTempFiles` | fetch2/src/main/java/com/tonyodev/fetch2/helper/FileDownloaderDelegate.kt:121 | exactly the temp files of that download under that directory are removed |
| `Scenarios.StartThenLoseNetwork` | fetch2/src/main/java/com/tonyodev/fetch2/helper/FileDownloaderDelegate.kt:21-60 | started, then a no-network error with retry on: the statuses go DOWNLOADING then QUEUED, the stored row is QUEUED with no error, and onProgress then onQueued are posted |
| `Scenarios.RetryLifecycle` | fetch2/src/main/java/com/tonyodev/fetch2/helper/FileDownloaderDelegate.kt:21-104 | chaining the effects of onStarted, a requeueing onError and a flag-free onComplete: the row ends COMPLETED with no error after three full updates, no file changes, and onProgress, onQueued, onCompleted are posted in that order |
| `Scenarios.RequeuedThenComplete` | fetch2/src/main/java/com/tonyodev/fetch2/helper/FileDownloaderDelegate.kt:83-104 | a requeued download that completes without cleanup flags is stored as COMPLETED and gets one onCompleted |
| `Scenarios.CoalescedProgress` | fetch2/src/main/java/com/tonyodev/fetch2/helper/FileDownloaderDelegate.kt:40-49 | two writes before a UI turn are reported as the later one twice; the earlier value is skipped |
| `Scenarios.CompleteTwice` | fetch2/src/main/java/com/tonyodev/fetch2/helper/FileDownloaderDelegate.kt:83-104 | completing twice with remove-and-delete-file leaves no row, no file and no temp file, and posts two callbacks |
| `Scenarios.StoreFails` | fetch2/src/main/java/com/tonyodev/fetch2/helper/FileDownloaderDelegate.kt:51-81 | with a throwing store, the record's status is FAILED but the stored row is unchanged and no callback is posted |

## Left out

- Threads: the engine's callbacks and the UI thread are interleaved by
  explicit `DeliverNext` calls, one UI turn at a time. Real concurrency, and
  the unsynchronised reads and writes of the shared runnable's fields, are
  not modelled.
- The Logger: a caught exception is only logged, so the model writes it as
  the handler returning early. Logging itself is omitted.
- `fetchListener`: listener calls are modelled as `Callback` values delivered
  by the UI queue. The listener's own code is not part of this model.
- `downloader`: the downloader parameter only feeds
  `deleteRequestTempFiles`.
  - `deleteRequestTempFiles` is not part of this model.
  - Its effect is abstracted as removing the temp files tagged with the
    temp dir and the download id (`Ports.WithoutRequestTempFiles`).
- The database behind `DownloadInfoUpdater` is not part of this model. The
  following are modelling choices:
  - `update` is an insert-or-replace of the record's snapshot;
  - `updateFileBytesInfoAndStatusOnly` on a missing row changes nothing;
  - `deleteDownload` of a missing row is a no-op.
  - The fault oracle is all-or-nothing per store object, so a store that
    fails on one call and succeeds on the next is not modelled.
- `java.io.File`: files are a set of paths. `exists` is membership and
  `delete` is removal. A failing `file.delete()` is not modelled.
- The cast `download as DownloadInfo`: the handlers take a `DownloadInfo`
  directly, so a failing cast is not modelled.
- Exceptions from `uiHandler.post` and from the progress-field writes in
  `onProgress` are not modelled; posting always succeeds.
- `Long` widths of eta and rate: they are unbounded integers and are only
  carried, never computed on.
- Delegate.FileDownloaderDelegate.constructor: requires that the UI queue
  holds no `RunProgress`. Each delegate's runnable is its own object; the
  model's single `RunProgress` token stands for this delegate's runnable, so
  a UI handler shared by several delegates is not modelled.
- Two facts about the code that the model keeps, though a reader might
  expect otherwise:
  - `onComplete` leaves the error unchanged (FileDownloaderDelegate.kt:85
    sets only the status); it does not reset it to "none".
  - On a no-network error with retry enabled, the status goes from
    DOWNLOADING straight to QUEUED (FileDownloaderDelegate.kt:55), never
    through FAILED.
  - Only `onStarted` and `onComplete` set the status before the `try`.
    `onError` and `saveDownloadProgress` set it inside the `try`. Because
    the status write itself cannot fail, the model behaves the same in both
    cases.
