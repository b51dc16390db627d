/** The quality-selection keyboard built by `process_url` (lines 130-136):
    format buttons three to a row, then one row holding only the skip
    button. */
module Grid {
  import Payload
  import opened Qualities
  import opened Backend

  datatype Button = Button(text: string, data: string)

  const COLUMNS: nat := 3
  const SKIP_LABEL: string := "\U{23E9} Skip (Best Quality)"

  /** The button for one format: "<res> - <ext>", payload `url|id`, each
      value rendered as an f-string renders it. */
  function FormatButton(url: string, f: Format): Button {
    Button(Render(f.res) + " - " + Render(f.ext), Payload.Encode(url, Render(f.id)))
  }

  /** The skip button: payload `url|best`. */
  function SkipButton(url: string): Button {
    Button(SKIP_LABEL, Payload.Encode(url, Payload.BEST))
  }

  function FormatButtons(url: string, formats: seq<Format>): (bs: seq<Button>)
    ensures |bs| == |formats|
    ensures forall i :: 0 <= i < |formats| ==> bs[i] == FormatButton(url, formats[i])
  {
    seq(|formats|, i requires 0 <= i < |formats| => FormatButton(url, formats[i]))
  }

  /** Reference layout: consecutive chunks of COLUMNS buttons, the last chunk
      possibly shorter. */
  function Rows(bs: seq<Button>): seq<seq<Button>>
    decreases |bs|
  {
    if |bs| == 0 then []
    else if |bs| <= COLUMNS then [bs]
    else [bs[..COLUMNS]] + Rows(bs[COLUMNS..])
  }

  function Flatten(rows: seq<seq<Button>>): seq<Button> {
    if rows == [] then [] else rows[0] + Flatten(rows[1..])
  }

  /** The whole keyboard for a url and its formats. */
  function Keyboard(url: string, formats: seq<Format>): seq<seq<Button>> {
    Rows(FormatButtons(url, formats)) + [[SkipButton(url)]]
  }

  /** ceil(n/3) rows, each holding one to three buttons, all but the last
      exactly three; read row by row they give the buttons in order. */
  lemma {:induction false} RowsShape(bs: seq<Button>)
    ensures |Rows(bs)| == (|bs| + 2) / 3
    ensures forall r :: 0 <= r < |Rows(bs)| ==> 1 <= |Rows(bs)[r]| <= COLUMNS
    ensures forall r :: 0 <= r < |Rows(bs)| - 1 ==> |Rows(bs)[r]| == COLUMNS
    ensures Flatten(Rows(bs)) == bs
    decreases |bs|
  {
    if |bs| == 0 {
    } else if |bs| <= COLUMNS {
      assert Flatten(Rows(bs)) == bs + Flatten([]);
      assert bs + [] == bs;
    } else {
      var tail := Rows(bs[COLUMNS..]);
      RowsShape(bs[COLUMNS..]);
      assert Rows(bs) == [bs[..COLUMNS]] + tail;
      assert forall r :: 1 <= r < |Rows(bs)| ==> Rows(bs)[r] == tail[r - 1];
      assert ([bs[..COLUMNS]] + tail)[1..] == tail;
      assert bs[..COLUMNS] + bs[COLUMNS..] == bs;
    }
  }

  /** Button i sits in row i / 3, column i % 3. */
  lemma {:induction false} RowsPosition(bs: seq<Button>, i: nat)
    requires i < |bs|
    ensures i / COLUMNS < |Rows(bs)| && i % COLUMNS < |Rows(bs)[i / COLUMNS]|
    ensures Rows(bs)[i / COLUMNS][i % COLUMNS] == bs[i]
    decreases |bs|
  {
    if |bs| > COLUMNS && i >= COLUMNS {
      RowsPosition(bs[COLUMNS..], i - COLUMNS);
      assert (i - COLUMNS) / COLUMNS == i / COLUMNS - 1;
      assert (i - COLUMNS) % COLUMNS == i % COLUMNS;
    }
  }

  /** Conversely, every cell (r, c) of the layout holds button 3r + c. */
  lemma {:induction false} RowsCell(bs: seq<Button>, r: nat, c: nat)
    requires r < |Rows(bs)| && c < |Rows(bs)[r]|
    ensures COLUMNS * r + c < |bs| && Rows(bs)[r][c] == bs[COLUMNS * r + c]
    decreases |bs|
  {
    if r > 0 {
      RowsCell(bs[COLUMNS..], r - 1, c);
    }
  }

  /** Appending one button either opens a new row (when the count so far is
      a multiple of three) or extends the last row. */
  lemma {:induction false} RowsSnoc(bs: seq<Button>, b: Button)
    ensures |bs| % COLUMNS != 0 ==> |Rows(bs)| > 0
    ensures Rows(bs + [b]) ==
      if |bs| % COLUMNS == 0 then Rows(bs) + [[b]]
      else Rows(bs)[..|Rows(bs)| - 1] + [Rows(bs)[|Rows(bs)| - 1] + [b]]
    decreases |bs|
  {
    var bsb := bs + [b];
    if |bs| == 0 {
      assert bsb == [b];
    } else if |bs| < COLUMNS {
      assert Rows(bs) == [bs];
    } else if |bs| == COLUMNS {
      assert bsb[..COLUMNS] == bs && bsb[COLUMNS..] == [b];
      assert Rows(bsb) == [bs] + Rows([b]);
    } else {
      assert bsb[..COLUMNS] == bs[..COLUMNS];
      assert bsb[COLUMNS..] == bs[COLUMNS..] + [b];
      RowsSnoc(bs[COLUMNS..], b);
      var tail := Rows(bs[COLUMNS..]);
      assert Rows(bs) == [bs[..COLUMNS]] + tail;
      if |bs| % COLUMNS != 0 {
        assert |bs[COLUMNS..]| % COLUMNS == |bs| % COLUMNS;
        assert Rows(bs)[..|Rows(bs)| - 1] == [bs[..COLUMNS]] + tail[..|tail| - 1];
      }
    }
  }

  /** The loop of lines 130-136: a new row whenever the index is a multiple of
      three, each button appended to the last row, then the skip row. */
  method BuildKeyboard(url: string, formats: seq<Format>) returns (buttons: seq<seq<Button>>)
    ensures buttons == Keyboard(url, formats)
  {
    ghost var bs := FormatButtons(url, formats);
    buttons := [];
    for i := 0 to |formats|
      invariant buttons == Rows(bs[..i])
    {
      RowsSnoc(bs[..i], bs[i]);
      assert bs[..i + 1] == bs[..i] + [bs[i]];
      assert bs[i] == FormatButton(url, formats[i]);
      if i % COLUMNS == 0 {
        buttons := buttons + [[]];
        assert buttons[..|buttons| - 1] == Rows(bs[..i]);
        assert buttons[|buttons| - 1] + [bs[i]] == [bs[i]];
      }
      buttons := buttons[..|buttons| - 1] + [buttons[|buttons| - 1] + [FormatButton(url, formats[i])]];
    }
    assert bs[..|formats|] == bs;
    buttons := buttons + [[SkipButton(url)]];
  }

  /** No format button is the skip button: every format label holds a '-',
      the skip label holds none. */
  lemma FormatButtonIsNotSkip(url: string, f: Format)
    ensures FormatButton(url, f) != SkipButton(url)
  {
    var text := Render(f.res) + " - " + Render(f.ext);
    assert text[|Render(f.res)| + 1] == '-';
    assert '-' !in SKIP_LABEL;
  }

  /** For n formats: ceil(n/3) format rows of one to three buttons (all but the
      last full) that read back the formats in order, then exactly one row
      holding only the skip button, which no format button equals. */
  lemma KeyboardShape(url: string, formats: seq<Format>)
    ensures var kb := Keyboard(url, formats);
      && |kb| == (|formats| + 2) / 3 + 1
      && (forall r :: 0 <= r < |kb| - 1 ==> 1 <= |kb[r]| <= COLUMNS)
      && (forall r :: 0 <= r < |kb| - 2 ==> |kb[r]| == COLUMNS)
      && Flatten(kb[..|kb| - 1]) == FormatButtons(url, formats)
      && kb[|kb| - 1] == [SkipButton(url)]
      && (forall f :: f in formats ==> FormatButton(url, f) !in kb[|kb| - 1])
  {
    var kb := Keyboard(url, formats);
    RowsShape(FormatButtons(url, formats));
    assert kb[..|kb| - 1] == Rows(FormatButtons(url, formats));
    forall f | f in formats
      ensures FormatButton(url, f) !in kb[|kb| - 1]
    {
      FormatButtonIsNotSkip(url, f);
    }
  }
}
