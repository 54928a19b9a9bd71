/** `format_column_value` and the VALUES text built by `dataframe_to_values_string`:
    how a cell, a row and a run of rows are rendered as warehouse SQL. */
module ValueFormat {
  import opened Results
  import opened Text
  import opened Polars

  /** Every single quote doubled (SQL string escaping). */
  function EscapeQuotes(s: string): string {
    if |s| == 0 then "" else (if s[0] == '\'' then "''" else [s[0]]) + EscapeQuotes(s[1..])
  }

  /** The single-quoted SQL string literal for `s`. */
  function Quote(s: string): string {
    "'" + EscapeQuotes(s) + "'"
  }

  /** The literal for one cell, with the source's two branches for text: both
      give the quoted, quote-doubled text. */
  function FormatColumnValue(v: AnyValue): (lit: string)
    ensures v.OtherValue? ==> lit == Quote(v.text)
  {
    match v
    case NullValue => "NULL"
    case BooleanValue(b) => if b then "true" else "false"
    case IntValue(i) => DecimalText(i)
    case FloatValue(t) => t
    case OtherValue(s) =>
      if '"' in s || '\'' in s then "'" + EscapeQuotes(s) + "'"
      else
        EscapeWithoutQuotes(s);
        "'" + s + "'"
  }

  /** `(v1, ..., vk)`: the cells of row `r` in column order. */
  function RowText(df: DataFrame, r: nat): string
    requires r < df.height
  {
    "(" + Join(seq(|df.columns|, c requires 0 <= c < |df.columns| => FormatColumnValue(df.columns[c][r])), ", ") + ")"
  }

  /** The rows of `df`, in order, joined with `, `. */
  function ValuesText(df: DataFrame): string {
    Join(seq(df.height, r requires 0 <= r < df.height => RowText(df, r)), ", ")
  }

  // ------------------------------------------------- reading literals back

  /** Reads the rest of a quoted literal after its opening quote: a doubled
      quote stands for one quote, a single quote must be the last character. */
  function ReadQuotedBody(s: string): Option<string>
    decreases |s|
  {
    if |s| == 0 then None
    else if s[0] == '\'' then
      if |s| == 1 then Some("")
      else if s[1] == '\'' then
        match ReadQuotedBody(s[2..])
        case Some(t) => Some("'" + t)
        case None => None
      else None
    else
      match ReadQuotedBody(s[1..])
      case Some(t) => Some([s[0]] + t)
      case None => None
  }

  /** The text a SQL reader sees in a single-quoted literal, if `lit` is one. */
  function ParseQuoted(lit: string): Option<string> {
    if |lit| > 0 && lit[0] == '\'' then ReadQuotedBody(lit[1..]) else None
  }

  lemma {:induction false} ReadEscaped(s: string)
    ensures ReadQuotedBody(EscapeQuotes(s) + "'") == Some(s)
  {
    if |s| > 0 {
      ReadEscaped(s[1..]);
      var e := EscapeQuotes(s) + "'";
      if s[0] == '\'' {
        assert e == "''" + (EscapeQuotes(s[1..]) + "'");
        assert e[2..] == EscapeQuotes(s[1..]) + "'";
      } else {
        assert e == [s[0]] + (EscapeQuotes(s[1..]) + "'");
        assert e[1..] == EscapeQuotes(s[1..]) + "'";
      }
      assert [s[0]] + s[1..] == s;
    }
  }

  /** Quoting is lossless: a reader of the literal gets `s` back, embedded quotes included. */
  lemma QuoteRoundTrip(s: string)
    ensures ParseQuoted(Quote(s)) == Some(s)
  {
    ReadEscaped(s);
    assert Quote(s)[1..] == EscapeQuotes(s) + "'";
  }

  lemma {:induction false} EscapeWithoutQuotes(s: string)
    requires '\'' !in s
    ensures EscapeQuotes(s) == s
  {
    if |s| > 0 {
      EscapeWithoutQuotes(s[1..]);
      assert [s[0]] + s[1..] == s;
    }
  }

  /** A rendered text cell reads back as the cell's text. */
  lemma TextCellRoundTrip(s: string)
    ensures ParseQuoted(FormatColumnValue(OtherValue(s))) == Some(s)
  {
    QuoteRoundTrip(s);
  }

  /** An integer cell is unquoted decimal text that `int()` reads back as the integer. */
  lemma IntCellRoundTrip(i: int)
    ensures ParseInt(FormatColumnValue(IntValue(i))) == Some(i)
    ensures '\'' !in FormatColumnValue(IntValue(i))
  {
    DecimalTextParses(i);
    var digits := NatText(if i < 0 then -i else i);
    assert '\'' !in digits by {
      forall k | 0 <= k < |digits| ensures digits[k] != '\'' {
        assert IsDigit(digits[k]);
      }
    }
  }

  /** Only text cells are quoted: every other literal starts with something other than a quote. */
  lemma QuotedIffText(v: AnyValue)
    ensures |FormatColumnValue(v)| > 0
    ensures FormatColumnValue(v)[0] == '\'' <==> v.OtherValue?
  {
    match v {
      case IntValue(i) =>
        var digits := NatText(if i < 0 then -i else i);
        assert IsDigit(digits[0]);
      case FloatValue(t) =>
        assert t[0] in "0123456789.-infNa";
      case _ =>
    }
  }

  /** The rows of a slice render exactly as the same rows of the whole table. */
  lemma SliceRowText(df: DataFrame, offset: nat, length: nat, r: nat)
    requires offset + length <= df.height && r < length
    ensures RowText(df.Slice(offset, length), r) == RowText(df, offset + r)
  {
    var part: DataFrame := df.Slice(offset, length);
    var a := seq(|part.columns|, c requires 0 <= c < |part.columns| => FormatColumnValue(part.columns[c][r]));
    var b := seq(|df.columns|, c requires 0 <= c < |df.columns| => FormatColumnValue(df.columns[c][offset + r]));
    assert a == b;
  }

  /** The VALUES text of a slice lists rows `offset .. offset + length` of the table, in order. */
  lemma SliceValuesText(df: DataFrame, offset: nat, length: nat)
    requires offset + length <= df.height
    ensures ValuesText(df.Slice(offset, length)) ==
      Join(seq(length, k requires 0 <= k < length => RowText(df, offset + k)), ", ")
  {
    var part: DataFrame := df.Slice(offset, length);
    var a := seq(part.height, k requires 0 <= k < part.height => RowText(part, k));
    var b := seq(length, k requires 0 <= k < length => RowText(df, offset + k));
    forall k | 0 <= k < length ensures a[k] == b[k] {
      SliceRowText(df, offset, length, k);
    }
    assert a == b;
  }
}
