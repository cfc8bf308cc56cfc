/** The cleanup policy applied when a download ends: from the delegate's
    request options it decides whether the stored record is kept (and
    updated), removed, or removed together with the downloaded file. */
module CleanupPolicy {
  import opened Fetch

  /** The two ways a download ends. */
  datatype Outcome = Failure | Completion

  /** What happens to the record of a download that ended. */
  datatype Cleanup = Persist | RemoveRecord | RemoveRecordAndFile

  /** The flag that removes only the record, for the given outcome. */
  function RemoveFlag(k: Outcome): RequestOption
  {
    match k
    case Failure => AutoRemoveOnFailed
    case Completion => AutoRemoveOnCompleted
  }

  /** The flag that removes the record and deletes the file, for the given outcome. */
  function RemoveDeleteFileFlag(k: Outcome): RequestOption
  {
    match k
    case Failure => AutoRemoveOnFailedDeleteFile
    case Completion => AutoRemoveOnCompletedDeleteFile
  }

  /** The flags that concern outcome k. */
  function FlagsOf(k: Outcome): set<RequestOption>
  {
    {RemoveFlag(k), RemoveDeleteFileFlag(k)}
  }

  /** The `when` of onError and onComplete: the record-only flag is tested
      first, the delete-file flag second, and with neither the record is
      persisted. Flags that belong to the other outcome play no part. */
  function CleanupFor(k: Outcome, options: set<RequestOption>): (c: Cleanup)
    ensures c == RemoveRecord <==> RemoveFlag(k) in options
    ensures c == RemoveRecordAndFile <==> RemoveFlag(k) !in options && RemoveDeleteFileFlag(k) in options
    ensures c == Persist <==> RemoveFlag(k) !in options && RemoveDeleteFileFlag(k) !in options
  {
    if RemoveFlag(k) in options then RemoveRecord
    else if RemoveDeleteFileFlag(k) in options then RemoveRecordAndFile
    else Persist
  }

  /** Only the options of the outcome at hand matter: the cleanup chosen
      from the whole set is the one chosen from its share of that outcome's
      flags. */
  lemma CleanupSeesOnlyItsOutcome(k: Outcome, options: set<RequestOption>)
    ensures CleanupFor(k, options) == CleanupFor(k, options * FlagsOf(k))
  {
  }

  /** When both flags of an outcome are set, the record-only removal wins and
      the file is kept. */
  lemma RecordOnlyRemovalWins(k: Outcome, options: set<RequestOption>)
    requires FlagsOf(k) <= options
    ensures CleanupFor(k, options) == RemoveRecord
  {
  }
}
