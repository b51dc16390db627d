/** `upload_video`: the caption sent with the video, and the cleanup of the
    download directory, which happens only once the video has been sent. The
    transfer itself belongs to the chat client and is an input. */
module Upload {
  import opened Wrappers
  import opened PyText
  import opened Download

  const CAPTION_LIMIT: nat := 1024

  /** The bold title line that opens every caption. */
  function Header(title: string): string {
    "\U{1F3A5} **" + title + "**\n\n"
  }

  /** Line 98: the header followed by `caption[:1024]`. */
  function Caption(title: string, description: string): string {
    Header(title) + Prefix(description, CAPTION_LIMIT)
  }

  /** The caption is the header followed by the first min(1024, n) characters
      of the description: a short description is kept whole, a long one is
      cut to exactly 1024 characters. */
  lemma CaptionShape(title: string, description: string)
    ensures var c := Caption(title, description);
      && StartsWith(c, Header(title))
      && |c| == |Header(title)| + (if |description| < CAPTION_LIMIT then |description| else CAPTION_LIMIT)
      && StartsWith(description, c[|Header(title)|..])
      && (|description| <= CAPTION_LIMIT ==> c == Header(title) + description)
      && (|description| > CAPTION_LIMIT ==> c[|Header(title)|..] == description[..CAPTION_LIMIT])
  {
  }

  /** `DocumentAttributeVideo(duration=0, w=1920, h=1080)`. */
  datatype VideoAttributes = VideoAttributes(duration: nat, w: nat, h: nat)

  const NOMINAL_ATTRIBUTES: VideoAttributes := VideoAttributes(0, 1920, 1080)

  /** What `send_file` is given besides the bytes. */
  datatype Sent = Sent(caption: string, thumb: Option<string>, attributes: VideoAttributes)

  datatype UploadError =
    | FileMissing(path: string)    // reading the video, or `os.remove`, found no file
    | SendFailed(message: string)  // `send_file` raised

  /** The status message text, what was sent, and the error the status
      message was edited to show before it was deleted. */
  datatype UploadReport = UploadReport(status: string, sent: Option<Sent>, error: Option<UploadError>)

  function StatusText(title: string): string {
    "\U{1F4E4} **Uploading " + title + "...**"
  }

  /** The files in the download directory. */
  class Scratch {
    var files: set<string>

    constructor (initial: set<string>)
      ensures files == initial
    {
      files := initial;
    }

    /** `os.remove(path)`: fails when there is no such file. */
    method Remove(path: string) returns (removed: bool)
      modifies this
      ensures removed == (path in old(files))
      ensures files == old(files) - {path}
    {
      removed := path in files;
      files := files - {path};
    }
  }

  function PathSet(p: Option<string>): set<string> {
    if p.Some? then {p.value} else {}
  }

  /** Lines 87-110. `sendError` is what `send_file` raised, if anything.
      The video is read, sent, and only then removed with its thumbnail; any
      failure leaves an error on the status message, and a failure before
      the send leaves the download directory as it was. */
  method UploadVideo(scratch: Scratch, d: Downloaded, sendError: Option<string>)
    returns (report: UploadReport)
    modifies scratch
    ensures report.status == StatusText(d.title)
    ensures report.sent.Some? <==> d.filePath in old(scratch.files) && sendError.None?
    ensures report.sent.Some? ==> report.sent.value == Sent(Caption(d.title, d.caption), d.thumbPath, NOMINAL_ATTRIBUTES)
    ensures scratch.files == if report.sent.Some? then old(scratch.files) - {d.filePath} - PathSet(d.thumbPath)
                             else old(scratch.files)
    ensures d.filePath !in old(scratch.files) ==> report.error == Some(FileMissing(d.filePath))
    ensures d.filePath in old(scratch.files) && sendError.Some? ==> report.error == Some(SendFailed(sendError.value))
    ensures report.sent.Some? ==>
      report.error == if d.thumbPath.Some? && d.thumbPath.value !in old(scratch.files) - {d.filePath}
                      then Some(FileMissing(d.thumbPath.value)) else None
  {
    var status := StatusText(d.title);
    if d.filePath !in scratch.files {
      return UploadReport(status, None, Some(FileMissing(d.filePath)));
    }
    if sendError.Some? {
      return UploadReport(status, None, Some(SendFailed(sendError.value)));
    }
    var sent := Sent(Caption(d.title, d.caption), d.thumbPath, NOMINAL_ATTRIBUTES);
    var removed := scratch.Remove(d.filePath);
    var error: Option<UploadError> := None;
    // `if thumb_path:` also skips an empty path; the paths `DownloadVideo`
    // builds are never empty, so testing for presence is the same here.
    if d.thumbPath.Some? {
      removed := scratch.Remove(d.thumbPath.value);
      if !removed {
        error := Some(FileMissing(d.thumbPath.value));
      }
    }
    report := UploadReport(status, Some(sent), error);
  }
}
