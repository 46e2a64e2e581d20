/** The job record as Redis keeps it: a hash whose fields are written by separate HSETs, so any
    of them may be missing. */
module Jobs {
  import opened Wrappers

  // Identifiers come from a generator that never repeats; only their identity matters.
  type JobId = nat

  // Nanoseconds on the one clock shared by the process and Redis.
  type Time = int

  datatype Status = Queued | Processing | Completed | Failed

  predicate Terminal(status: Status) {
    status.Completed? || status.Failed?
  }

  datatype Source = Upload | Url

  // Why a job ended as failed; the text of the message is not modelled.
  datatype Cause = AudioGone | UnknownSource | DownloadFailed | Rejected | Exhausted | Cancelled

  datatype Record = Record(
    status: Option<Status>,
    source: Option<Source>,
    url: Option<string>,
    language: Option<string>,
    result: Option<string>,
    error: Option<Cause>,
    createdAt: Option<Time>,
    completedAt: Option<Time>)

  const BLANK := Record(None, None, None, None, None, None, None, None)

  function Newest<T>(was: Option<T>, written: Option<T>): Option<T> {
    if written.Some? then written else was
  }

  // HSET: the fields of `patch` that are present replace those of `was`, the others stay.
  function Over(was: Record, patch: Record): Record {
    Record(
      Newest(was.status, patch.status),
      Newest(was.source, patch.source),
      Newest(was.url, patch.url),
      Newest(was.language, patch.language),
      Newest(was.result, patch.result),
      Newest(was.error, patch.error),
      Newest(was.createdAt, patch.createdAt),
      Newest(was.completedAt, patch.completedAt))
  }

  predicate Ended(rec: Record) {
    rec.status.Some? && Terminal(rec.status.value)
  }

  function QueuedRecord(source: Source, url: string, language: string, createdAt: Time): Record {
    BLANK.(status := Some(Queued), source := Some(source), url := Some(url),
           language := Some(language), createdAt := Some(createdAt))
  }

  const PROCESSING_PATCH := BLANK.(status := Some(Processing))

  function CompletedPatch(body: string, at: Time): Record {
    BLANK.(status := Some(Completed), result := Some(body), completedAt := Some(at))
  }

  function FailedPatch(cause: Cause, at: Time): Record {
    BLANK.(status := Some(Failed), error := Some(cause), completedAt := Some(at))
  }

  /** What each write leaves in the hash, field by field: the fields it is for, and the rest as it was. */
  lemma WrittenFields(was: Record, body: string, cause: Cause, at: Time)
    ensures Over(was, PROCESSING_PATCH) == was.(status := Some(Processing))
    ensures Over(was, CompletedPatch(body, at)) ==
      was.(status := Some(Completed), result := Some(body), completedAt := Some(at))
    ensures Over(was, FailedPatch(cause, at)) == was.(status := Some(Failed), error := Some(cause), completedAt := Some(at))
  {
  }

  lemma QueuedFields(was: Record, source: Source, url: string, language: string, createdAt: Time)
    ensures Over(was, QueuedRecord(source, url, language, createdAt)) ==
      was.(status := Some(Queued), source := Some(source), url := Some(url), language := Some(language), createdAt := Some(createdAt))
  {
  }
}
