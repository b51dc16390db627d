/** The callback payload carried by each quality button: `url|format_id`,
    built with an f-string (lines 134 and 136) and taken apart with
    `split("|")` unpacked into two names (line 146). */
module Payload {
  import opened Wrappers
  import opened PyText

  const SEPARATOR: char := '|'

  /** The format id the skip button carries. */
  const BEST: string := "best"

  /** What a well-formed payload unpacks to. */
  datatype Selection = Selection(url: string, formatId: string)

  /** Python's ValueError from `a, b = parts` when `parts` does not have
      exactly two elements; `got` is how many it had. */
  datatype UnpackError = UnpackError(got: nat)

  function Encode(url: string, formatId: string): string {
    url + [SEPARATOR] + formatId
  }

  /** `url, format_id = data.split("|")`: succeeds exactly when the payload
      holds one separator, and otherwise reports how many parts there were. */
  function Decode(data: string): (r: Result<Selection, UnpackError>)
    ensures r.Ok? <==> Count(data, SEPARATOR) == 1
    ensures r.Err? ==> r.error.got == Count(data, SEPARATOR) + 1
  {
    var parts := Split(data, SEPARATOR);
    if |parts| == 2 then Ok(Selection(parts[0], parts[1])) else Err(UnpackError(|parts|))
  }

  /** Round trip: a url and an id free of the separator come back unchanged. */
  lemma DecodeEncode(url: string, formatId: string)
    requires SEPARATOR !in url && SEPARATOR !in formatId
    ensures Decode(Encode(url, formatId)) == Ok(Selection(url, formatId))
  {
    var parts := [url, formatId];
    assert Join(parts, SEPARATOR) == Encode(url, formatId) by {
      assert Join(parts[1..], SEPARATOR) == formatId;
    }
    SplitJoin(parts, SEPARATOR);
  }

  /** A separator inside the url or the id yields more than two parts, so
      unpacking raises. */
  lemma EncodeWithSeparatorFails(url: string, formatId: string)
    requires SEPARATOR in url || SEPARATOR in formatId
    ensures |Split(Encode(url, formatId), SEPARATOR)| > 2
    ensures Decode(Encode(url, formatId)).Err?
  {
    CountAppend(url + [SEPARATOR], formatId, SEPARATOR);
    CountAppend(url, [SEPARATOR], SEPARATOR);
    CountZero(url, SEPARATOR);
    CountZero(formatId, SEPARATOR);
  }

  /** Every payload that decodes is the encoding of what it decodes to, and
      neither half holds the separator. */
  lemma EncodeDecode(data: string)
    requires Decode(data).Ok?
    ensures SEPARATOR !in Decode(data).value.url && SEPARATOR !in Decode(data).value.formatId
    ensures Encode(Decode(data).value.url, Decode(data).value.formatId) == data
  {
    var parts := Split(data, SEPARATOR);
    JoinSplit(data, SEPARATOR);
    assert Join(parts, SEPARATOR) == parts[0] + [SEPARATOR] + Join(parts[1..], SEPARATOR);
  }
}
