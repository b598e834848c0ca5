/** The text the template renders, one string per output line, and a reader
    for that text which recovers the delimiter, the headers and the cells. */
module Rows {
  import opened Wrappers
  import opened Quoting

  /** A column mapper (ColumnMapper<TRecord>): the text of one cell of a record. */
  type Mapper<!R> = R -> string

  /** The platform's String.Join: the parts in order, with the separator
      between each two neighbours and nowhere else. */
  function Join(separator: string, parts: seq<string>): string
  {
    if |parts| == 0 then ""
    else if |parts| == 1 then parts[0]
    else parts[0] + separator + Join(separator, parts[1..])
  }

  /** A joined text is as long as its parts together plus one separator
      between each two neighbours. */
  lemma {:induction false} JoinLength(separator: string, parts: seq<string>)
    requires |parts| > 0
    ensures |Join(separator, parts)| == TotalLength(parts) + (|parts| - 1) * |separator|
  {
    if |parts| > 1 {
      JoinLength(separator, parts[1..]);
      assert (|parts| - 1) * |separator| == (|parts| - 2) * |separator| + |separator|;
    }
  }

  /** The number of characters in all the parts together. */
  function TotalLength(parts: seq<string>): nat
  {
    if parts == [] then 0 else |parts[0]| + TotalLength(parts[1..])
  }

  /** `values.Select(GetCellValue)`: each value quoted, in the same order. */
  function QuoteAll(values: seq<string>): (r: seq<string>)
    ensures |r| == |values|
    ensures forall i :: 0 <= i < |values| ==> r[i] == Quote(values[i])
  {
    if values == [] then [] else [Quote(values[0])] + QuoteAll(values[1..])
  }

  /** One rendered line: the values quoted, in order, joined by the separator. */
  function QuotedLine(separator: string, values: seq<string>): string
  {
    Join(separator, QuoteAll(values))
  }

  /** A line of one value is that value quoted; a longer line is its first
      value quoted, the separator, then the line of the remaining values. */
  lemma QuotedLineCons(separator: string, first: string, others: seq<string>)
    ensures QuotedLine(separator, [first]) == Quote(first)
    ensures |others| > 0 ==> QuotedLine(separator, [first] + others) == Quote(first) + separator + QuotedLine(separator, others)
  {
    assert QuoteAll([first]) == [Quote(first)] + QuoteAll([]);
    assert ([first] + others)[1..] == others;
    assert QuoteAll([first] + others) == [Quote(first)] + QuoteAll(others);
  }

  /** The raw cells of one record: each mapper applied to it, in column order. */
  function Cells<R>(mappers: seq<Mapper<R>>, record: R): seq<string>
  {
    seq(|mappers|, j requires 0 <= j < |mappers| => mappers[j](record))
  }

  /** The delimiter hint line for spreadsheet applications. */
  function HintLine(separator: string): string
  {
    "sep=" + separator
  }

  /** Every line the template writes, in order: the hint line, the header
      line, then one line per record. */
  function Lines<R>(separator: string, headers: seq<string>, mappers: seq<Mapper<R>>, records: seq<R>): seq<string>
  {
    [HintLine(separator), QuotedLine(separator, headers)] + RecordLines(separator, mappers, records)
  }

  /** One line per record, in record order. */
  function RecordLines<R>(separator: string, mappers: seq<Mapper<R>>, records: seq<R>): seq<string>
  {
    seq(|records|, k requires 0 <= k < |records| => QuotedLine(separator, Cells(mappers, records[k])))
  }

  /** The cells of each record, in record order. */
  function RecordCells<R>(mappers: seq<Mapper<R>>, records: seq<R>): seq<seq<string>>
  {
    seq(|records|, k requires 0 <= k < |records| => Cells(mappers, records[k]))
  }

  /** A separator the reader below can tell apart from an escaped quote. */
  predicate Unambiguous(separator: string)
  {
    |separator| > 0 && separator[0] != '"'
  }

  /** A line that opens with a quoted field the reader accepts is that
      field, quoted, followed by what comes after it. */
  lemma ScanFirstField(line: string)
    requires line != [] && line[0] == '"' && ScanQuoted(line[1..]).Some?
    ensures line == Quote(ScanQuoted(line[1..]).value.0) + ScanQuoted(line[1..]).value.1
  {
    assert line == [line[0]] + line[1..];
  }

  /** Reads one line as quoted fields separated by `separator`. Whatever it
      reads renders back to the very same line. */
  function ParseFields(separator: string, line: string): (r: Option<seq<string>>)
    ensures r.Some? ==> |r.value| > 0 && QuotedLine(separator, r.value) == line
    decreases |line|
  {
    if line == [] || line[0] != '"' then None
    else
      match ScanQuoted(line[1..])
      case None => None
      case Some((c, rest)) =>
        ScanFirstField(line);
        QuotedLineCons(separator, c, []);
        if rest == [] then Some([c])
        else if separator <= rest then
          match ParseFields(separator, rest[|separator|..])
          case None => None
          case Some(cs) =>
            QuotedLineCons(separator, c, cs);
            assert rest == separator + rest[|separator|..];
            Some([c] + cs)
        else None
  }

  /** A rendered line reads back as the values it was rendered from. */
  lemma {:induction false} ParseQuotedLine(separator: string, values: seq<string>)
    requires Unambiguous(separator) && |values| > 0
    ensures ParseFields(separator, QuotedLine(separator, values)) == Some(values)
  {
    var v := values[0];
    assert [v] + values[1..] == values;
    QuotedLineCons(separator, v, values[1..]);
    if |values| == 1 {
      assert values == [v];
      var line := Quote(v) + [];
      assert line == QuotedLine(separator, values);
      ScanQuotedField(v, []);
      assert ParseFields(separator, line) == Some([v]);
    } else {
      var tail := separator + QuotedLine(separator, values[1..]);
      var line := Quote(v) + tail;
      assert line == QuotedLine(separator, values);
      ScanQuotedField(v, tail);
      assert separator <= tail && tail[|separator|..] == QuotedLine(separator, values[1..]);
      ParseQuotedLine(separator, values[1..]);
      assert ParseFields(separator, line) == Some([v] + values[1..]);
    }
  }

  /** The reader takes a quoted value back off the front of a line. */
  lemma ScanQuotedField(value: string, after: string)
    requires after == [] || after[0] != '"'
    ensures (Quote(value) + after)[0] == '"'
    ensures ScanQuoted((Quote(value) + after)[1..]) == Some((value, after))
  {
    assert (Quote(value) + after)[1..] == Escape(value) + "\"" + after;
    ScanQuotedEscape(value, after);
  }

  /** What a reader recovers from a whole rendered file. */
  datatype Table = Table(separator: string, headers: seq<string>, rows: seq<seq<string>>)

  /** Reads each line as a row of fields; None when any line is malformed. */
  function ParseRows(separator: string, lines: seq<string>): Option<seq<seq<string>>>
  {
    if lines == [] then Some([])
    else
      match (ParseFields(separator, lines[0]), ParseRows(separator, lines[1..]))
      case (Some(row), Some(rows)) => Some([row] + rows)
      case _ => None
  }

  /** Reads a rendered file: the delimiter from the hint line, the headers
      from the next line, and one row from each line after that. */
  function ParseDocument(lines: seq<string>): Option<Table>
  {
    if |lines| < 2 || !("sep=" <= lines[0]) then None
    else
      var separator := lines[0][4..];
      match (ParseFields(separator, lines[1]), ParseRows(separator, lines[2..]))
      case (Some(headers), Some(rows)) => Some(Table(separator, headers, rows))
      case _ => None
  }

  /** The record lines read back as the records' cells, record by record. */
  lemma {:induction false} ParseRecordLines<R>(separator: string, mappers: seq<Mapper<R>>, records: seq<R>)
    requires Unambiguous(separator) && |mappers| > 0
    ensures ParseRows(separator, RecordLines(separator, mappers, records)) == Some(RecordCells(mappers, records))
  {
    var lines := RecordLines(separator, mappers, records);
    var cells := RecordCells(mappers, records);
    if records == [] {
      assert lines == [] && cells == [];
    } else {
      assert lines[0] == QuotedLine(separator, Cells(mappers, records[0]));
      assert lines[1..] == RecordLines(separator, mappers, records[1..]);
      assert cells == [Cells(mappers, records[0])] + RecordCells(mappers, records[1..]);
      ParseQuotedLine(separator, Cells(mappers, records[0]));
      ParseRecordLines(separator, mappers, records[1..]);
      assert ParseRows(separator, lines) == Some([Cells(mappers, records[0])] + RecordCells(mappers, records[1..]));
    }
  }

  /** Reading what the template renders gives back its delimiter, its
      headers, and for each record, in order, the text of each mapper in
      column order, as long as the delimiter cannot be confused with a quote. */
  lemma ParseRendered<R>(separator: string, headers: seq<string>, mappers: seq<Mapper<R>>, records: seq<R>)
    requires Unambiguous(separator) && |headers| > 0 && |mappers| > 0
    ensures ParseDocument(Lines(separator, headers, mappers, records))
         == Some(Table(separator, headers, RecordCells(mappers, records)))
  {
    var lines := Lines(separator, headers, mappers, records);
    assert lines[0][4..] == separator;
    ParseQuotedLine(separator, headers);
    ParseRecordLines(separator, mappers, records);
    assert lines[2..] == RecordLines(separator, mappers, records);
  }
}
