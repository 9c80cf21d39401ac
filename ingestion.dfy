/**
 * The row extraction of `uploadCSVData` in client/src/lib/data-ingestion.ts:
 * the text is split on '\n', the first line is the header, and every later
 * line whose comma-split field count equals the header's becomes one row
 * with a fixed column mapping. There is no quoting, escaping or trimming.
 *
 * `parseInt(_, 10)` and `new Date(_)` are foreign: they are parameters of
 * the model, applied to the raw field or to `None` where the field does
 * not exist (JavaScript's `undefined`).
 */
module Ingestion {
  import opened Wrappers
  import opened Text

  /** The object built for one kept line. `I` is what `parseInt` returns
      (a number or NaN), `D` what `new Date` returns. */
  datatype Row<I, D> = Row(value: I, category: Option<string>, timestamp: D, campaignId: I)

  /** `values[i]`: the field at index `i`, or `undefined` past the end. */
  function Field(fields: seq<string>, i: nat): (f: Option<string>)
    ensures f.Some? <==> i < |fields|
    ensures f.Some? ==> f.value == fields[i]
  {
    if i < |fields| then Some(fields[i]) else None
  }

  /** Column 0 is the value, 1 the category, 2 the timestamp and 3 the
      campaign id; further columns are ignored. */
  function RowOf<I, D>(fields: seq<string>, parseInt: Option<string> -> I, parseDate: Option<string> -> D): Row<I, D> {
    Row(parseInt(Field(fields, 0)), Field(fields, 1), parseDate(Field(fields, 2)), parseInt(Field(fields, 3)))
  }

  /** The rows made from the data lines `lines` when the header has
      `width` fields: lines of another width are dropped. */
  function RowsOf<I, D>(lines: seq<string>, width: nat, parseInt: Option<string> -> I, parseDate: Option<string> -> D): seq<Row<I, D>> {
    if lines == [] then []
    else
      var fields := Split(lines[0], ',');
      (if |fields| == width then [RowOf(fields, parseInt, parseDate)] else [])
        + RowsOf(lines[1..], width, parseInt, parseDate)
  }

  /** The number of fields of the header line. */
  function HeaderWidth(text: string): nat {
    |Split(Split(text, '\n')[0], ',')|
  }

  /** The rows the upload sends, in file order. */
  function ParsedRows<I, D>(text: string, parseInt: Option<string> -> I, parseDate: Option<string> -> D): seq<Row<I, D>> {
    RowsOf(Split(text, '\n')[1..], HeaderWidth(text), parseInt, parseDate)
  }

  /** Rows keep file order: the rows of two stretches of lines are the rows
      of the first followed by the rows of the second. */
  lemma {:induction false} RowsOfConcat<I, D>(a: seq<string>, b: seq<string>, width: nat,
                                             parseInt: Option<string> -> I, parseDate: Option<string> -> D)
    ensures RowsOf(a + b, width, parseInt, parseDate)
         == RowsOf(a, width, parseInt, parseDate) + RowsOf(b, width, parseInt, parseDate)
  {
    if a != [] {
      assert (a + b)[1..] == a[1..] + b;
      RowsOfConcat(a[1..], b, width, parseInt, parseDate);
    } else {
      assert a + b == b;
    }
  }

  /** A line yields a row iff its field count equals the header's; the row
      sits between the rows of the lines before and after it. */
  lemma LineKeptIff<I, D>(before: seq<string>, line: string, after: seq<string>, width: nat,
                          parseInt: Option<string> -> I, parseDate: Option<string> -> D)
    ensures var fields := Split(line, ',');
      RowsOf(before + [line] + after, width, parseInt, parseDate)
        == RowsOf(before, width, parseInt, parseDate)
         + (if |fields| == width then [RowOf(fields, parseInt, parseDate)] else [])
         + RowsOf(after, width, parseInt, parseDate)
  {
    RowsOfConcat(before + [line], after, width, parseInt, parseDate);
    RowsOfConcat(before, [line], width, parseInt, parseDate);
  }

  /** No line yields more than one row. */
  lemma {:induction false} RowsOfBound<I, D>(lines: seq<string>, width: nat,
                                            parseInt: Option<string> -> I, parseDate: Option<string> -> D)
    ensures |RowsOf(lines, width, parseInt, parseDate)| <= |lines|
  {
    if lines != [] {
      RowsOfBound(lines[1..], width, parseInt, parseDate);
    }
  }

  /** At most one row per line after the header. */
  lemma ParsedRowsBound<I, D>(text: string, parseInt: Option<string> -> I, parseDate: Option<string> -> D)
    ensures |ParsedRows(text, parseInt, parseDate)| <= |Split(text, '\n')| - 1
  {
    RowsOfBound(Split(text, '\n')[1..], HeaderWidth(text), parseInt, parseDate);
  }

  /** The header line never becomes a row: of the first line only its field
      count matters, and the rows are those of the lines after it. */
  lemma HeaderOnlyGivesWidth<I, D>(header: string, body: string,
                                   parseInt: Option<string> -> I, parseDate: Option<string> -> D)
    requires '\n' !in header
    ensures ParsedRows(header + "\n" + body, parseInt, parseDate)
         == RowsOf(Split(body, '\n'), |Split(header, ',')|, parseInt, parseDate)
  {
    SplitAround(header, body, '\n');
    SplitNoSeparator(header, '\n');
    assert header + "\n" + body == header + ['\n'] + body;
    var lines := Split(header + "\n" + body, '\n');
    assert lines == [header] + Split(body, '\n');
    assert lines[1..] == Split(body, '\n');
  }

  /** The parsing loop of `uploadCSVData`. */
  method ExtractRows<I, D>(text: string, parseInt: Option<string> -> I, parseDate: Option<string> -> D)
    returns (dataPoints: seq<Row<I, D>>)
    ensures dataPoints == ParsedRows(text, parseInt, parseDate)
  {
    var lines := Split(text, '\n');
    var headers := Split(lines[0], ',');
    dataPoints := [];
    var i := 1;
    while i < |lines|
      invariant 1 <= i <= |lines|
      invariant dataPoints == RowsOf(lines[1..i], |headers|, parseInt, parseDate)
    {
      var values := Split(lines[i], ',');
      if |values| == |headers| {
        var dataPoint := Row(parseInt(Field(values, 0)), Field(values, 1),
                             parseDate(Field(values, 2)), parseInt(Field(values, 3)));
        dataPoints := dataPoints + [dataPoint];
      }
      assert lines[1..i + 1] == lines[1..i] + [lines[i]];
      RowsOfConcat(lines[1..i], [lines[i]], |headers|, parseInt, parseDate);
      i := i + 1;
    }
    assert lines[1..i] == lines[1..];
  }

  /** `uploadCSVData` without the file reading: the parsed rows are sent to
      `ingest` one call per row, and `Promise.all` returns the responses in
      row order. The server stores each POST under a fresh id, so a response
      depends on how many calls came before it as well as on the row: `ingest`
      receives the call's position, and equal rows may get different
      responses. `calls` logs each call as it is made. */
  method UploadCsvData<I, D, R>(text: string, parseInt: Option<string> -> I, parseDate: Option<string> -> D,
                               ingest: (nat, Row<I, D>) -> R)
    returns (sent: seq<Row<I, D>>, calls: seq<(nat, Row<I, D>)>, results: seq<R>)
    ensures sent == ParsedRows(text, parseInt, parseDate)
    ensures |calls| == |sent| && |results| == |sent|
    ensures forall i :: 0 <= i < |sent| ==> calls[i] == (i, sent[i])
    ensures forall i :: 0 <= i < |sent| ==> results[i] == ingest(calls[i].0, calls[i].1)
  {
    sent := ExtractRows(text, parseInt, parseDate);
    calls := [];
    results := [];
    var i := 0;
    while i < |sent|
      invariant 0 <= i <= |sent|
      invariant |calls| == i && |results| == i
      invariant forall j :: 0 <= j < i ==> calls[j] == (j, sent[j])
      invariant forall j :: 0 <= j < i ==> results[j] == ingest(calls[j].0, calls[j].1)
    {
      calls := calls + [(i, sent[i])];
      results := results + [ingest(i, sent[i])];
      i := i + 1;
    }
  }
}
