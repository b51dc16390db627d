/** What the bot receives from its media-extraction backend (yt-dlp), taken
    as given: the backend itself is not part of this model. */
module Backend {
  import opened Wrappers

  /** One key of a format record: absent, or present with a value that is
      either Python's None or a str. */
  datatype Field = Absent | Present(value: Option<string>)

  /** An f-string's rendering of a None-or-str value: None prints "None". */
  function Render(v: Option<string>): string {
    if v.Some? then v.value else "None"
  }

  /** One entry of `info["formats"]`. */
  datatype FormatRecord = FormatRecord(
    formatId: Field,
    resolution: Field,
    ext: Field)

  /** The keys of the backend's `info` dictionary that the bot reads. */
  datatype Info = Info(
    formats: Option<seq<FormatRecord>>,
    title: Option<string>,
    description: Option<string>,
    thumbnail: Option<string>)

  /** The exceptions the handlers can meet while shaping a request. */
  datatype Failure =
    | ExtractionFailed(message: string)   // raised inside the backend call
    | KeyMissing(key: string)             // Python KeyError on a format record
}
