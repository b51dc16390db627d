/** `download_video`: the download options, and the title, caption and
    thumbnail path read off the backend's answer. The download itself and
    `prepare_filename` belong to the backend and are taken as parameters. */
module Download {
  import opened Wrappers
  import opened PyText
  import opened Backend
  import opened Options

  const DEFAULT_TITLE: string := "video"
  const THUMB_PREFIX: string := DOWNLOAD_DIR + "/"
  const THUMB_SUFFIX: string := ".jpg"

  /** What the bot asks to download: a url, and a format id or none for the
      backend's default. */
  datatype Request = Request(url: string, formatId: Option<string>)

  /** The tuple `download_video` returns. */
  datatype Downloaded = Downloaded(filePath: string, title: string, caption: string, thumbPath: Option<string>)

  /** `info.get("title", "video")`. */
  function Title(info: Info): string {
    info.title.GetOr(DEFAULT_TITLE)
  }

  /** `info.get("description", "")`. */
  function Description(info: Info): string {
    info.description.GetOr("")
  }

  /** Line 68: `downloads/<title>.jpg` when the thumbnail url is truthy. */
  function ThumbPath(title: string, thumbnailUrl: Option<string>): Option<string> {
    if Truthy(thumbnailUrl) then Some(THUMB_PREFIX + title + THUMB_SUFFIX) else None
  }

  /** A thumbnail path exists exactly when the backend gave a non-empty
      thumbnail url; it lies in the download directory, ends in ".jpg", and
      the title can be read back from it, so two titles never share a path. */
  lemma ThumbPathShape(title: string, thumbnailUrl: Option<string>)
    ensures ThumbPath(title, thumbnailUrl).Some? <==> thumbnailUrl.Some? && thumbnailUrl.value != ""
    ensures ThumbPath(title, thumbnailUrl).Some? ==>
      var p := ThumbPath(title, thumbnailUrl).value;
      && StartsWith(p, THUMB_PREFIX)
      && |p| == |THUMB_PREFIX| + |title| + |THUMB_SUFFIX|
      && p[|p| - |THUMB_SUFFIX|..] == THUMB_SUFFIX
      && p[|THUMB_PREFIX|..|p| - |THUMB_SUFFIX|] == title
  {
  }

  /** Two downloads with the same title and a thumbnail each are given the
      same thumbnail path; different titles never are. */
  lemma ThumbPathCollidesOnTitle(t1: string, u1: Option<string>, t2: string, u2: Option<string>)
    requires Truthy(u1) && Truthy(u2)
    ensures ThumbPath(t1, u1) == ThumbPath(t2, u2) <==> t1 == t2
  {
    ThumbPathShape(t1, u1);
    ThumbPathShape(t2, u2);
  }

  /** Lines 54-73: download with a copy of the defaults carrying the output
      template and, for a truthy format id, that format; a failed download
      propagates; otherwise the file path, the title (default "video"), the
      description (default "") and the thumbnail path are returned. The
      thumbnail post-processing that follows cannot fail the call and does
      not change what is returned. */
  method DownloadVideo(
    ydl: OptionsDict, req: Request,
    extract: (OptionMap, string) -> Result<Info, Failure>,
    prepareFilename: (OptionMap, Info) -> string)
    returns (r: Result<Downloaded, Failure>)
    ensures var opts := DownloadOptions(ydl.entries, req.formatId);
      match extract(opts, req.url)
      case Err(e) => r == Err(e)
      case Ok(info) =>
        && r.Ok?
        && r.value.filePath == prepareFilename(opts, info)
        && r.value.title == (if info.title.Some? then info.title.value else DEFAULT_TITLE)
        && r.value.caption == (if info.description.Some? then info.description.value else "")
        && r.value.thumbPath == ThumbPath(r.value.title, info.thumbnail)
  {
    var opts := AssembleDownloadOptions(ydl, req.formatId);
    var answer := extract(opts.entries, req.url);
    if answer.Err? {
      return Err(answer.error);
    }
    var info := answer.value;
    var title := Title(info);
    var caption := Description(info);
    var filePath := prepareFilename(opts.entries, info);
    var thumbPath := ThumbPath(title, info.thumbnail);
    r := Ok(Downloaded(filePath, title, caption, thumbPath));
  }
}
