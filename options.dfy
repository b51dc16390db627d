/** The backend's option dictionary: the module-level defaults and the two
    copies the bot makes of them, one to probe formats and one to download. */
module Options {
  import opened Wrappers

  datatype OptValue =
    | Flag(b: bool)
    | Number(n: int)
    | Text(s: string)
    | Texts(items: seq<string>)
    | Processors(keys: seq<string>)   // the list of post-processor dicts, by their "key"

  type OptionMap = map<string, OptValue>

  const DOWNLOAD_DIR: string := "downloads"
  const DEFAULT_FORMAT: string := "bv+ba/best"
  const OUTPUT_TEMPLATE: string := DOWNLOAD_DIR + "/%(title)s.%(ext)s"

  /** The module-level `YDL_OPTIONS`. */
  const YDL_OPTIONS: OptionMap := map[
    "quiet" := Flag(true),
    "noprogress" := Flag(true),
    "format" := Text(DEFAULT_FORMAT),
    "merge_output_format" := Text("mp4"),
    "postprocessors" := Processors(["FFmpegVideoConvertor"]),
    "writesubtitles" := Flag(true),
    "subtitleslangs" := Texts(["en", "es", "fr"]),
    "retries" := Number(3),
    "fragment_retries" := Number(5),
    "socket_timeout" := Number(10)
  ]

  /** Python truthiness of an optional string: present and non-empty. */
  predicate Truthy(s: Option<string>) {
    s.Some? && s.value != ""
  }

  /** A mutable Python dict of options. */
  class OptionsDict {
    var entries: OptionMap

    constructor (init: OptionMap)
      ensures entries == init
    {
      entries := init;
    }

    /** `dict.copy()`: a new dictionary with the same entries. */
    method Copy() returns (d: OptionsDict)
      ensures fresh(d) && d.entries == entries
    {
      d := new OptionsDict(entries);
    }

    /** `d[key] = v`. */
    method Set(key: string, v: OptValue)
      modifies this
      ensures entries == old(entries)[key := v]
    {
      entries := entries[key := v];
    }
  }

  /** The options `get_available_qualities` hands to the backend. */
  function ProbeOptions(base: OptionMap): (opts: OptionMap)
    ensures opts.Keys == base.Keys + {"list_formats"}
    ensures opts["list_formats"] == Flag(true)
    ensures forall k :: k in base && k != "list_formats" ==> opts[k] == base[k]
  {
    base["list_formats" := Flag(true)]
  }

  /** The options `download_video` hands to the backend: the output template
      is set, and `format` is replaced only by a truthy format id. */
  function DownloadOptions(base: OptionMap, formatId: Option<string>): (opts: OptionMap)
    ensures opts.Keys == base.Keys + {"outtmpl"} + (if Truthy(formatId) then {"format"} else {})
    ensures opts["outtmpl"] == Text(OUTPUT_TEMPLATE)
    ensures Truthy(formatId) ==> opts["format"] == Text(formatId.value)
    ensures !Truthy(formatId) && "format" in base ==> opts["format"] == base["format"]
    ensures forall k :: k in base && k != "format" && k != "outtmpl" ==> opts[k] == base[k]
  {
    var withTemplate := base["outtmpl" := Text(OUTPUT_TEMPLATE)];
    if Truthy(formatId) then withTemplate["format" := Text(formatId.value)] else withTemplate
  }

  /** Lines 40-41: copy the defaults, then ask for the format list. */
  method AssembleProbeOptions(base: OptionsDict) returns (opts: OptionsDict)
    ensures fresh(opts)
    ensures opts.entries == ProbeOptions(base.entries)
    ensures base.entries == old(base.entries)
  {
    opts := base.Copy();
    opts.Set("list_formats", Flag(true));
  }

  /** Lines 55-58: copy the defaults, set the output template, and override
      the format only when a truthy format id was given. */
  method AssembleDownloadOptions(base: OptionsDict, formatId: Option<string>) returns (opts: OptionsDict)
    ensures fresh(opts)
    ensures opts.entries == DownloadOptions(base.entries, formatId)
    ensures base.entries == old(base.entries)
  {
    opts := base.Copy();
    opts.Set("outtmpl", Text(OUTPUT_TEMPLATE));
    if formatId.Some? && formatId.value != "" {
      opts.Set("format", Text(formatId.value));
    }
  }

  /** Starting from the defaults, the download format is the chosen id when
      it is truthy, and the default "bv+ba/best" otherwise (no id, or ""). */
  lemma DownloadFormat(formatId: Option<string>)
    ensures DownloadOptions(YDL_OPTIONS, formatId)["format"]
         == Text(if Truthy(formatId) then formatId.value else DEFAULT_FORMAT)
  {
  }

  /** The skip button's literal "best" is truthy, so it replaces the default
      "bv+ba/best" instead of keeping it. */
  lemma BestReplacesDefault()
    ensures DownloadOptions(YDL_OPTIONS, Some("best"))["format"] == Text("best")
    ensures DownloadOptions(YDL_OPTIONS, Some("best"))["format"] != DownloadOptions(YDL_OPTIONS, None)["format"]
  {
  }
}
