/** `get_available_qualities`: the backend's format records, filtered to the
    ones that carry a resolution and reduced to (id, resolution, extension). */
module Qualities {
  import opened Wrappers
  import opened Backend
  import opened Options

  /** The dict `{"id": ..., "res": ..., "ext": ...}`; each value is what the
      record held under its key, None included. */
  datatype Format = Format(id: Option<string>, res: Option<string>, ext: Option<string>)

  /** Records without a "resolution" key are dropped by the comprehension;
      a key holding None is still a key. */
  predicate Selectable(r: FormatRecord) {
    r.resolution.Present?
  }

  /** A kept record on which the comprehension raises KeyError. */
  predicate Faulty(r: FormatRecord) {
    Selectable(r) && (r.formatId.Absent? || r.ext.Absent?)
  }

  /** The key the KeyError names: "format_id" is looked up before "ext". */
  function MissingKey(r: FormatRecord): string {
    if r.formatId.Absent? then "format_id" else "ext"
  }

  function ToFormat(r: FormatRecord): Format
    requires Selectable(r) && !Faulty(r)
  {
    Format(r.formatId.value, r.resolution.value, r.ext.value)
  }

  /** The positions of the records that carry a resolution, in increasing
      order: a reference description of which records the filter keeps. */
  function Selected(records: seq<FormatRecord>): (idx: seq<nat>)
    ensures |idx| <= |records|
    ensures forall k :: 0 <= k < |idx| ==> idx[k] < |records| && Selectable(records[idx[k]])
  {
    if records == [] then []
    else
      var init := Selected(records[..|records| - 1]);
      if Selectable(records[|records| - 1]) then init + [|records| - 1] else init
  }

  /** `Selected` lists every record with a resolution, once, in order. */
  lemma {:induction false} SelectedIsOrderedSubsequence(records: seq<FormatRecord>)
    ensures forall k, l :: 0 <= k < l < |Selected(records)| ==> Selected(records)[k] < Selected(records)[l]
    ensures forall j :: 0 <= j < |records| && Selectable(records[j]) ==> j in Selected(records)
  {
    if records != [] {
      var n := |records|;
      var init := records[..n - 1];
      SelectedIsOrderedSubsequence(init);
      assert forall j :: 0 <= j < n - 1 ==> records[j] == init[j];
    }
  }

  /** No kept record lacks a key the comprehension reads. */
  predicate Sound(records: seq<FormatRecord>) {
    forall j :: 0 <= j < |records| ==> !Faulty(records[j])
  }

  /** The list comprehension of lines 45-49, evaluated record by record; the
      first record that raises decides the KeyError. */
  function CollectFormats(records: seq<FormatRecord>): Result<seq<Format>, Failure> {
    if records == [] then Ok([])
    else
      var last := records[|records| - 1];
      match CollectFormats(records[..|records| - 1])
      case Err(e) => Err(e)
      case Ok(fs) =>
        if !Selectable(last) then Ok(fs)
        else if last.formatId.Absent? then Err(KeyMissing("format_id"))
        else if last.ext.Absent? then Err(KeyMissing("ext"))
        else Ok(fs + [ToFormat(last)])
  }

  /** The comprehension succeeds exactly when no kept record lacks
      "format_id" or "ext". */
  lemma {:induction false} CollectFormatsOk(records: seq<FormatRecord>)
    ensures CollectFormats(records).Ok? <==> Sound(records)
  {
    if records != [] {
      var n := |records|;
      var init := records[..n - 1];
      CollectFormatsOk(init);
      assert forall j :: 0 <= j < n - 1 ==> records[j] == init[j];
      if !Sound(init) {
        var j :| 0 <= j < n - 1 && Faulty(init[j]);
        assert Faulty(records[j]);
      }
    }
  }

  /** On success the result lists the kept records, mapped to (id, res, ext),
      in their original order. */
  lemma {:induction false} CollectFormatsContents(records: seq<FormatRecord>)
    requires Sound(records)
    ensures CollectFormats(records).Ok?
    ensures |CollectFormats(records).value| == |Selected(records)|
    ensures forall k :: 0 <= k < |Selected(records)| ==>
              CollectFormats(records).value[k] == ToFormat(records[Selected(records)[k]])
  {
    CollectFormatsOk(records);
    if records != [] {
      var n := |records|;
      var init, last := records[..n - 1], records[n - 1];
      assert Sound(init) by {
        assert forall j :: 0 <= j < n - 1 ==> records[j] == init[j];
      }
      CollectFormatsContents(init);
      var fs := CollectFormats(init).value;
      var selInit := Selected(init);
      assert forall k :: 0 <= k < |selInit| ==> records[selInit[k]] == init[selInit[k]];
      if Selectable(last) {
        assert CollectFormats(records).value == fs + [ToFormat(last)];
        assert Selected(records) == selInit + [n - 1];
      } else {
        assert CollectFormats(records).value == fs;
        assert Selected(records) == selInit;
      }
    }
  }

  /** On failure the KeyError names the missing key of the first faulty
      record. */
  lemma {:induction false} CollectFormatsError(records: seq<FormatRecord>)
    requires CollectFormats(records).Err?
    ensures exists j :: 0 <= j < |records| && Faulty(records[j])
                        && Sound(records[..j])
                        && CollectFormats(records).error == KeyMissing(MissingKey(records[j]))
  {
    var n := |records|;
    var init, last := records[..n - 1], records[n - 1];
    if CollectFormats(init).Err? {
      CollectFormatsError(init);
      var j :| 0 <= j < |init| && Faulty(init[j]) && Sound(init[..j])
               && CollectFormats(init).error == KeyMissing(MissingKey(init[j]));
      assert records[j] == init[j] && records[..j] == init[..j];
    } else {
      CollectFormatsOk(init);
      assert records[..n - 1] == init;
      assert Faulty(records[n - 1]);
    }
  }

  /** The filtered list is never longer than the backend's list. */
  lemma CollectedNoLonger(records: seq<FormatRecord>)
    requires CollectFormats(records).Ok?
    ensures |CollectFormats(records).value| <= |records|
  {
  }

  /** The formats of an `info`, with `info.get("formats", [])`. */
  function FormatsOf(info: Info): seq<FormatRecord> {
    info.formats.GetOr([])
  }


  /** Lines 39-51: probe with a copy of the defaults that asks for the format
      list; a failed probe propagates, otherwise the records are filtered. */
  method GetAvailableQualities(
    ydl: OptionsDict, url: string, extract: (OptionMap, string) -> Result<Info, Failure>)
    returns (r: Result<seq<Format>, Failure>)
    ensures extract(ProbeOptions(ydl.entries), url).Err? ==> r == Err(extract(ProbeOptions(ydl.entries), url).error)
    ensures extract(ProbeOptions(ydl.entries), url).Ok? ==> r == CollectFormats(FormatsOf(extract(ProbeOptions(ydl.entries), url).value))
  {
    var opts := AssembleProbeOptions(ydl);
    var info := extract(opts.entries, url);
    if info.Err? {
      return Err(info.error);
    }
    r := CollectFormats(FormatsOf(info.value));
  }
}
