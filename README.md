# vid-dl request shaping, modelled in Dafny

`main.py` is a Telegram bot that takes a media URL, lets the user pick a
quality, downloads the media with yt-dlp and uploads it back to the chat.
Almost all of it is calls into yt-dlp, Telethon, PIL and the filesystem.
This project models the deterministic request-shaping logic inside those
handlers, and proves properties about it:

- the URL gate of `process_url`: a message counts only if its stripped text starts with `http://` or `https://`;
- the format filter of `get_available_qualities`: backend format records become `{id, res, ext}`, and records without a `resolution` are dropped;
- the choice between downloading at once (at most one format) and showing the quality keyboard;
- the loop that builds the keyboard: three buttons per row, then a row with only the "Skip (Best Quality)" button;
- the callback payload `url|format_id` and how `quality_selected` takes it apart with `split("|")`;
- the option dictionaries (copies of `YDL_OPTIONS`), the title default, the thumbnail path, the caption, and the cleanup of downloaded files after upload.

Files, one module each:

| file | module | part of `main.py` |
|---|---|---|
| `wrappers.dfy` | `Wrappers` | `Option` (absent key / `None`) and `Result` (a raised exception) |
| `pytext.dfy` | `PyText` | Python `str` operations: `isspace`, `strip`, `startswith`, `s[:n]`, `split`, `join` |
| `backend.dfy` | `Backend` | the shape of yt-dlp's `info` dict and of its format records |
| `options.dfy` | `Options` | `YDL_OPTIONS`, the dict copy, and the probe and download option sets |
| `qualities.dfy` | `Qualities` | `get_available_qualities` |
| `payload.dfy` | `Payload` | the callback payload codec |
| `grid.dfy` | `Grid` | the keyboard-building loop and the skip row |
| `download.dfy` | `Download` | `download_video`: options, title, description, thumbnail path |
| `upload.dfy` | `Upload` | `upload_video`: caption, send outcome, file removal |
| `handlers.dfy` | `Handlers` | `process_url` and `quality_selected` |

Imperative parts are modelled imperatively. The option dict is a class (`Options.OptionsDict`) that is copied and then assigned to. The keyboard is built by a `for` loop that opens a new row at every multiple of three and appends to the last row. The download directory is a class (`Upload.Scratch`) whose files `os.remove` takes away. Each method is proved against a specification function: `DownloadOptions`, `ProbeOptions`, `Keyboard`, `CollectFormats` and `Caption`. The properties are proved about those functions as lemmas.

The backend's answers are inputs. The probe and the download (`extract_info`) and `prepare_filename` are function parameters. What `send_file` raised, if anything, is a parameter of `UploadVideo`.

Notes on what `main.py` does:

- Files are removed only after a successful send, inside the `try`. An upload error leaves them in place. `os.remove` of a missing file raises.
- The keyboard has no limit on the number of buttons.
- Three formats give one full row of three buttons, then a separate skip row.
- A format record is kept when it has a `resolution` key, even if that key holds `None`. Such a value is rendered as `None` in the button text and in the payload.

## Model

In this table SEP stands for the vertical-bar separator of the callback payload.

| member | source | states |
|---|---|---|
| `PyText.StripLeft` | main.py:115 | leading whitespace is removed: the result is a suffix of the input, what was dropped is all whitespace, and the result does not start with whitespace |
| `PyText.StripRight` | main.py:115 | trailing whitespace is removed: the result is a prefix of the input, what was dropped is all whitespace, and the result does not end with whitespace |
| `PyText.Strip` | main.py:115 | the stripped text is a contiguous piece of the input with only whitespace before and after it, and has no whitespace at either end |
| `PyText.StripLeftAllSpace` | main.py:115 | a text made only of whitespace strips to nothing |
| `PyText.StripPadded` | main.py:115 | whitespace added on either side of a text does not change what `strip` returns |
| `PyText.StripClean` | main.py:115 | a text with no whitespace at either end is returned unchanged by `strip` |
| `PyText.StripIdempotent` | main.py:115 | stripping twice is the same as stripping once |
| `PyText.Prefix` | main.py:98 | `s[:n]` is a prefix of `s` of length min(n, len(s)) |
| `PyText.CountAppend` | main.py:146 | separator counts add up over concatenation |
| `PyText.CountZero` | main.py:146 | the count is zero exactly when the character is absent |
| `PyText.Split` | main.py:146 | `split(sep)` returns one more part than there are separators, and no part contains the separator |
| `PyText.JoinSplit` | main.py:146 | joining the parts of a split with the separator gives back the original text |
| `PyText.SplitAfterPlain` | main.py:146 | a leading piece without the separator becomes the start of the first part |
| `PyText.SplitJoin` | main.py:146 | splitting a join of separator-free parts gives back the parts |
| `Options.OptionsDict.Copy` | main.py:40 | `dict.copy()` returns a new dict with the same entries |
| `Options.OptionsDict.Set` | main.py:41 | an assignment changes that one key and nothing else |
| `Options.ProbeOptions` | main.py:40-41 | the probe options are the defaults plus `list_formats = True`; every other key is unchanged |
| `Options.DownloadOptions` | main.py:55-58 | the download options add the output template `downloads/%(title)s.%(ext)s`; `format` becomes the format id when it is truthy and otherwise keeps the base value; every other key is unchanged |
| `Options.AssembleProbeOptions` | main.py:40-41 | the probe options are built on a fresh copy and equal `ProbeOptions`; the shared defaults do not change |
| `Options.AssembleDownloadOptions` | main.py:55-58 | the download options are built on a fresh copy and equal `DownloadOptions`; the shared defaults do not change |
| `Options.DownloadFormat` | main.py:55-58 | starting from `YDL_OPTIONS`, the format is the id when it is non-empty and `bv+ba/best` when there is no id or it is empty |
| `Options.BestReplacesDefault` | main.py:57-58 | the skip button's literal `best` is truthy, so it replaces `bv+ba/best` instead of keeping it |
| `Qualities.Selected` | main.py:45-49 | the reference set of kept records: positions within the input, each holding a record that has a `resolution` key (whatever its value, `None` included) |
| `Qualities.SelectedIsOrderedSubsequence` | main.py:45-49 | the kept positions are strictly increasing and include every record that has a `resolution` key |
| `Qualities.CollectFormatsOk` | main.py:45-49 | the comprehension succeeds exactly when no kept record lacks the `format_id` or `ext` key (a key holding `None` does not raise) |
| `Qualities.CollectFormatsContents` | main.py:45-49 | on success, the result is exactly the records with a `resolution` key, in their original order, each mapped to the values under format_id, resolution and ext |
| `Qualities.CollectFormatsError` | main.py:45-49 | on failure, the KeyError names the missing key (`format_id` first, then `ext`) of the first faulty record |
| `Qualities.CollectedNoLonger` | main.py:45-49 | the filtered list is never longer than the backend's list |
| `Qualities.GetAvailableQualities` | main.py:39-51 | the probe runs with `ProbeOptions`; a probe failure propagates; otherwise the result is the filtered list of `info.get("formats", [])` |
| `Payload.Decode` | main.py:146 | unpacking succeeds exactly when the payload holds one SEP; otherwise the error reports how many parts the split produced |
| `Payload.DecodeEncode` | main.py:134-146 | round trip: if neither the url nor the id contains SEP, decoding `url SEP id` gives back exactly (url, id) |
| `Payload.EncodeWithSeparatorFails` | main.py:134-146 | if the url or the id contains SEP, the split produces more than two parts and unpacking fails |
| `Payload.EncodeDecode` | main.py:146 | a payload that decodes is the encoding of its two halves, and neither half contains SEP |
| `Grid.FormatButtons` | main.py:131-134 | there is one button per format, in the same order, labelled `<res> - <ext>` with payload `url SEP id`, a `None` value rendered as `None` |
| `Grid.RowsShape` | main.py:130-134 | there are ceil(n/3) format rows; each has one to three buttons, all but the last have exactly three, and reading them row by row gives the buttons in order |
| `Grid.RowsPosition` | main.py:131-134 | button i is in row i / 3, column i % 3 |
| `Grid.RowsCell` | main.py:130-134 | the cell at row r, column c holds button 3r + c |
| `Grid.RowsSnoc` | main.py:132-134 | appending a button opens a new row when the count so far is a multiple of three, and otherwise extends the last row |
| `Grid.BuildKeyboard` | main.py:130-136 | the loop builds exactly the reference keyboard: the format rows, then the skip row |
| `Grid.FormatButtonIsNotSkip` | main.py:134-136 | no format button equals the skip button |
| `Grid.KeyboardShape` | main.py:130-136 | the keyboard has ceil(n/3) + 1 rows; the format rows hold the formats in order, three per row except possibly the last; the final row holds only the `url SEP best` skip button and no format button |
| `Download.ThumbPathShape` | main.py:68 | a thumbnail path exists exactly when the thumbnail url is present and non-empty; it is `downloads/<title>.jpg`, and the title can be read back from it |
| `Download.ThumbPathCollidesOnTitle` | main.py:68 | two downloads get the same thumbnail path exactly when their titles are equal |
| `Download.DownloadVideo` | main.py:54-73 | downloads with `DownloadOptions`; a backend failure propagates; otherwise it returns the prepared filename, the title (default `video`), the description (default empty) and the thumbnail path |
| `Upload.CaptionShape` | main.py:98 | the caption is the title header followed by the first min(1024, n) characters of the description: kept whole when short, cut to exactly 1024 characters when long |
| `Upload.Scratch.Remove` | main.py:103-105 | `os.remove` takes the path away and reports whether it was there |
| `Upload.UploadVideo` | main.py:87-110 | the video is sent with the truncated caption, the thumbnail path and nominal attributes (0 s, 1920x1080) only when the file exists and the send succeeds; only then are the file and thumbnail removed; otherwise the directory is unchanged; each failure (missing file, send error, missing thumbnail) is the error shown |
| `Handlers.ProcessUrl` | main.py:114-141 | a message is ignored exactly when its stripped text is not an http(s) URL; a probe or KeyError failure is reported; with at most one format the download starts at once with no format id; with two or more the reference keyboard is shown and no download starts |
| `Handlers.QualitySelected` | main.py:145-149 | a press leads to a download exactly when the payload holds one SEP; the requested (url, id) then re-encode to the payload |
| `Handlers.GateIgnoresWhitespace` | main.py:115-117 | whitespace around a message never changes whether it is handled |
| `Handlers.StripAroundText` | main.py:115 | a text that starts and ends with non-whitespace is what `strip` returns, whatever whitespace surrounds it |
| `Handlers.GateAcceptsSchemes` | main.py:115-117 | any `http://` or `https://` text with whitespace around it is handled, and the URL passed on is the text without the whitespace |
| `Handlers.GateRejectsOtherOpenings` | main.py:116 | a stripped text that does not start with a lower-case `h` is never handled |
| `Handlers.PressedButtonRequestsItsFormat` | main.py:130-149 | when neither the url nor any rendered id contains SEP, pressing row r, column c of a format row requests the rendered id of format 3r + c, and the skip row requests `best` |
| `Handlers.SeparatorInUrlBreaksEveryButton` | main.py:134-146 | a SEP in the url makes every button's payload fail to unpack |
| `Handlers.RequestedFormat` | main.py:124-149 | the immediate download (no format id) gets `bv+ba/best`; a press on the skip button gets `best`; a press on row r, column c gets the id of format 3r + c, or `bv+ba/best` when that id renders empty |
| `Handlers.ThreeFormatsExample` | main.py:130-136 | three formats give one row of three buttons and then the skip row |

## Left out

- Telethon: replies, edits, deletions, `send_file` and the event loop. `send_file`'s outcome is an input of `UploadVideo`. The status texts of `process_url` and `quality_selected` are not modelled; the upload status text is.
- yt-dlp: `extract_info` and `prepare_filename` are function parameters. `asyncio.to_thread` is left out (concurrency plumbing).
- `extract_thumbnail` and the PIL resizing are left out (external image library). Any failure there is swallowed and does not change what `download_video` returns, so `DownloadVideo` returns the thumbnail path either way. Whether the thumbnail file exists shows up only as membership in `Scratch.files`.
- Reading the video bytes with aiofiles is modelled only as "fails when the file is absent".
- `load_dotenv`, the environment variables and `os.makedirs` are left out (configuration and filesystem I/O).
- `Handlers.ProcessUrl` stops where the download starts. The download and upload that follow are modelled separately by `DownloadVideo` and `UploadVideo`. So is the error edit when either raises inside `process_url`'s `try`. In `quality_selected` such an exception is not caught.
- `Handlers.QualitySelected`: `event.data.decode()` (UTF-8 bytes to text) is left out. The payload is taken as text.
- `Handlers.ProcessUrl`, `Grid.BuildKeyboard`: Telegram limits callback data to 64 bytes. `Button.inline` raises ValueError for a longer payload while the keyboard is being built, inside `process_url`'s `try`. So a long URL really ends in the error message, with no keyboard shown. The model does not check the limit: `ChooseQuality` assumes every payload fits.
- `Upload.UploadVideo` treats one upload as atomic. Handlers run concurrently and share the `downloads` directory. Another job can add or remove files between the read of the video and the removals, for example a job with the same title (see `Download.ThumbPathCollidesOnTitle`). That interleaving is not modelled.
- `Backend.FormatRecord`: a value other than a str or `None` under a key (a number, say) is not modelled.
- `Backend.Info`: a key that is present with the value `None` is not told apart from an absent key.
- `PyText.Strip`: Python strings can hold lone surrogates; Dafny `char` values cannot, so such strings are outside the model.
