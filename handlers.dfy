/** The two event handlers: `process_url` for a new message and
    `quality_selected` for a button press, reduced to the decisions they
    take. Replies, edits and the transfers themselves belong to the chat
    client. */
module Handlers {
  import opened Wrappers
  import opened PyText
  import opened Backend
  import opened Options
  import opened Qualities
  import opened Grid
  import Payload
  import opened Download

  /** Lines 115-117: the stripped text must start with one of the schemes. */
  predicate IsUrl(text: string) {
    var url := Strip(text);
    StartsWith(url, "http://") || StartsWith(url, "https://")
  }

  datatype MessageOutcome =
    | Ignored                                              // no reply at all
    | ProbeFailed(error: Failure)                          // status edited to the error
    | DownloadNow(req: Request)                            // lines 124-128
    | ChooseQuality(url: string, keyboard: seq<seq<Button>>) // lines 130-138

  /** Lines 114-141, up to the point where the download starts or the
      keyboard is shown. `extract` stands for the backend's probe. */
  method ProcessUrl(ydl: OptionsDict, text: string, extract: (OptionMap, string) -> Result<Info, Failure>)
    returns (outcome: MessageOutcome)
    ensures outcome.Ignored? <==> !IsUrl(text)
    ensures var probe := extract(ProbeOptions(ydl.entries), Strip(text));
      && (outcome.ProbeFailed? <==> IsUrl(text) && (probe.Err? || CollectFormats(FormatsOf(probe.value)).Err?))
      && (outcome.DownloadNow? <==> IsUrl(text) && probe.Ok? && CollectFormats(FormatsOf(probe.value)).Ok?
                                    && |CollectFormats(FormatsOf(probe.value)).value| <= 1)
      && (outcome.ChooseQuality? <==> IsUrl(text) && probe.Ok? && CollectFormats(FormatsOf(probe.value)).Ok?
                                      && |CollectFormats(FormatsOf(probe.value)).value| >= 2)
      && (outcome.ProbeFailed? ==>
            outcome.error == if probe.Err? then probe.error else CollectFormats(FormatsOf(probe.value)).error)
      && (outcome.DownloadNow? ==> outcome.req == Request(Strip(text), None))
      && (outcome.ChooseQuality? ==>
            outcome.url == Strip(text)
            && outcome.keyboard == Keyboard(Strip(text), CollectFormats(FormatsOf(probe.value)).value))
  {
    var url := Strip(text);
    if !(StartsWith(url, "http://") || StartsWith(url, "https://")) {
      return Ignored;
    }
    var formats := GetAvailableQualities(ydl, url, extract);
    if formats.Err? {
      return ProbeFailed(formats.error);
    }
    if |formats.value| <= 1 {
      return DownloadNow(Request(url, None));
    }
    var keyboard := BuildKeyboard(url, formats.value);
    outcome := ChooseQuality(url, keyboard);
  }

  datatype CallbackOutcome =
    | Crashed(error: Payload.UnpackError)   // the unpacking raises; nothing is sent
    | DownloadChosen(req: Request)

  /** Lines 145-149: the payload is split and unpacked, and the download asks
      for the format id it carried. */
  function QualitySelected(data: string): (r: CallbackOutcome)
    ensures r.DownloadChosen? <==> Count(data, Payload.SEPARATOR) == 1
    ensures r.DownloadChosen? ==>
      r.req.formatId.Some? && Payload.Encode(r.req.url, r.req.formatId.value) == data
      && Payload.SEPARATOR !in r.req.url && Payload.SEPARATOR !in r.req.formatId.value
  {
    match Payload.Decode(data)
    case Err(e) => Crashed(e)
    case Ok(sel) =>
      Payload.EncodeDecode(data);
      DownloadChosen(Request(sel.url, Some(sel.formatId)))
  }

  /** Surrounding whitespace never changes whether a message is handled. */
  lemma GateIgnoresWhitespace(w1: string, text: string, w2: string)
    requires AllSpace(w1) && AllSpace(w2)
    ensures IsUrl(w1 + text + w2) <==> IsUrl(text)
  {
    StripPadded(w1, text, w2);
  }

  /** A text that opens and closes with non-whitespace survives `strip`
      unchanged, whatever whitespace surrounds it. */
  lemma StripAroundText(w1: string, head: string, rest: string, w2: string)
    requires AllSpace(w1) && AllSpace(w2)
    requires |head| > 0 && !IsSpace(head[0]) && !IsSpace(head[|head| - 1])
    requires rest == [] || !IsSpace(rest[|rest| - 1])
    ensures Strip(w1 + head + rest + w2) == head + rest
  {
    var text := head + rest;
    assert w1 + head + rest + w2 == w1 + text + w2;
    StripPadded(w1, text, w2);
    assert text[0] == head[0];
    assert text[|text| - 1] == if rest == [] then head[|head| - 1] else rest[|rest| - 1];
    StripClean(text);
  }

  /** A message made of either scheme and a url, with any whitespace around
      it, is handled, and the url handed on is exactly the scheme and url. */
  lemma GateAcceptsSchemes(w1: string, scheme: string, rest: string, w2: string)
    requires scheme == "http://" || scheme == "https://"
    requires AllSpace(w1) && AllSpace(w2)
    requires rest == [] || !IsSpace(rest[|rest| - 1])
    ensures IsUrl(w1 + scheme + rest + w2)
    ensures Strip(w1 + scheme + rest + w2) == scheme + rest
  {
    assert scheme[0] == 'h' && scheme[|scheme| - 1] == '/';
    StripAroundText(w1, scheme, rest, w2);
    assert (scheme + rest)[..|scheme|] == scheme;
  }

  /** The scheme is matched exactly and with its case: a stripped text that
      does not open with a lower-case 'h' is never handled. */
  lemma GateRejectsOtherOpenings(text: string)
    requires Strip(text) == [] || Strip(text)[0] != 'h'
    ensures !IsUrl(text)
  {
  }

  /** Pressing any button of the keyboard, when neither the url nor any format
      id holds a '|', asks to download that button's format: format row r,
      column c carries format 3r + c, and the last row carries "best". */
  lemma PressedButtonRequestsItsFormat(url: string, formats: seq<Format>, r: nat, c: nat)
    requires Payload.SEPARATOR !in url
    requires forall f :: f in formats ==> Payload.SEPARATOR !in Render(f.id)
    requires r < |Keyboard(url, formats)| && c < |Keyboard(url, formats)[r]|
    ensures r == |Keyboard(url, formats)| - 1 ==>
              QualitySelected(Keyboard(url, formats)[r][c].data) == DownloadChosen(Request(url, Some(Payload.BEST)))
    ensures r < |Keyboard(url, formats)| - 1 ==>
              COLUMNS * r + c < |formats|
              && QualitySelected(Keyboard(url, formats)[r][c].data)
                 == DownloadChosen(Request(url, Some(Render(formats[COLUMNS * r + c].id))))
  {
    var bs := FormatButtons(url, formats);
    var kb := Keyboard(url, formats);
    if r == |kb| - 1 {
      Payload.DecodeEncode(url, Payload.BEST);
    } else {
      assert kb[r] == Rows(bs)[r];
      RowsCell(bs, r, c);
      var f := formats[COLUMNS * r + c];
      assert f in formats;
      Payload.DecodeEncode(url, Render(f.id));
    }
  }

  /** A '|' inside the url breaks every button: each press makes the
      unpacking raise. */
  lemma SeparatorInUrlBreaksEveryButton(url: string, formats: seq<Format>, r: nat, c: nat)
    requires Payload.SEPARATOR in url
    requires r < |Keyboard(url, formats)| && c < |Keyboard(url, formats)[r]|
    ensures QualitySelected(Keyboard(url, formats)[r][c].data).Crashed?
  {
    var bs := FormatButtons(url, formats);
    var kb := Keyboard(url, formats);
    if r == |kb| - 1 {
      Payload.EncodeWithSeparatorFails(url, Payload.BEST);
    } else {
      assert kb[r] == Rows(bs)[r];
      RowsCell(bs, r, c);
      Payload.EncodeWithSeparatorFails(url, Render(formats[COLUMNS * r + c].id));
    }
  }

  /** What the backend is finally asked for, starting from the defaults: the
      download that starts at once (no format id) gets "bv+ba/best"; a press
      on the skip button gets "best", not the default; a press on a format
      button gets that button's id, unless it renders empty. */
  lemma RequestedFormat(url: string, formats: seq<Format>, r: nat, c: nat)
    requires Payload.SEPARATOR !in url
    requires forall f :: f in formats ==> Payload.SEPARATOR !in Render(f.id)
    requires r < |Keyboard(url, formats)| && c < |Keyboard(url, formats)[r]|
    ensures DownloadOptions(YDL_OPTIONS, Request(url, None).formatId)["format"] == Text(DEFAULT_FORMAT)
    ensures r < |Keyboard(url, formats)| - 1 ==> COLUMNS * r + c < |formats|
    ensures var pressed := QualitySelected(Keyboard(url, formats)[r][c].data);
      && pressed.DownloadChosen?
      && DownloadOptions(YDL_OPTIONS, pressed.req.formatId)["format"] ==
           if r == |Keyboard(url, formats)| - 1 then Text(Payload.BEST)
           else if Render(formats[COLUMNS * r + c].id) != "" then Text(Render(formats[COLUMNS * r + c].id))
           else Text(DEFAULT_FORMAT)
  {
    PressedButtonRequestsItsFormat(url, formats, r, c);
    DownloadFormat(None);
    DownloadFormat(QualitySelected(Keyboard(url, formats)[r][c].data).req.formatId);
  }

  /** The three-format example: one full row of three buttons, then the skip
      row. */
  lemma ThreeFormatsExample(url: string)
    ensures var fs := [Format(Some("a"), Some("360p"), Some("mp4")), Format(Some("b"), Some("720p"), Some("mp4")),
              Format(Some("c"), Some("1080p"), Some("mp4"))];
      Keyboard(url, fs) == [[FormatButton(url, fs[0]), FormatButton(url, fs[1]), FormatButton(url, fs[2])],
                            [SkipButton(url)]]
  {
    var fs := [Format(Some("a"), Some("360p"), Some("mp4")), Format(Some("b"), Some("720p"), Some("mp4")),
              Format(Some("c"), Some("1080p"), Some("mp4"))];
    assert FormatButtons(url, fs) == [FormatButton(url, fs[0]), FormatButton(url, fs[1]), FormatButton(url, fs[2])];
  }
}
