/** The Fetch library's own types that the download delegate reads and writes:
    the status and error enumerations, the request options, the download record
    (DownloadInfo, updated in place) and the row the store keeps of it. */
module Fetch {

  /** Lifecycle stage of a download (the library's Status enumeration). */
  datatype Status = None | Queued | Downloading | Paused | Completed | Cancelled | Failed | Removed | Deleted | Added

  /** Failure classification of a download. NoError is the library's
      "no error" value (what defaultNoError holds); every error code the
      delegate does not test for is one OtherError. */
  datatype Error = NoError | NoNetworkConnection | OtherError(code: int)

  /** Per-delegate cleanup flags for downloads that end. */
  datatype RequestOption =
    | AutoRemoveOnFailed
    | AutoRemoveOnFailedDeleteFile
    | AutoRemoveOnCompleted
    | AutoRemoveOnCompletedDeleteFile

  /** What the store keeps of one download: a snapshot of the record's fields. */
  datatype Row = Row(id: int, status: Status, error: Error, file: string, downloaded: int, total: int)

  /** The download record the engine hands to the delegate by reference.
      The delegate changes `status` and `error` in place; byte counts are only
      carried through. */
  class DownloadInfo {
    const id: int
    var status: Status
    var error: Error
    var file: string
    var downloaded: int
    var total: int

    constructor (id: int, status: Status, error: Error, file: string, downloaded: int, total: int)
      ensures this.id == id && this.status == status && this.error == error
      ensures this.file == file && this.downloaded == downloaded && this.total == total
    {
      this.id := id;
      this.status := status;
      this.error := error;
      this.file := file;
      this.downloaded := downloaded;
      this.total := total;
    }

    /** The row a full-record write stores. */
    function ToRow(): Row
      reads this
    {
      Row(id, status, error, file, downloaded, total)
    }
  }
}
