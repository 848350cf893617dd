/** `formatDataForAI` (utils/aiHelpers.js): renders decoded spreadsheet rows
    as tab-separated text for the summarizer, at most 50 rows, with a note
    saying how many rows were left out. */
module AiHelpers {
  import opened Common
  import opened Models

  /** MAX_ROWS_FOR_AI. */
  const MaxRowsForAI: nat := 50

  const NoData := "No data provided."
  const EmptyOrUnrecognized := "The provided data is empty or has no recognizable format."

  /** `parts.join(sep)`. */
  function Join(parts: seq<string>, sep: string): string
    decreases |parts|
  {
    if |parts| == 0 then ""
    else if |parts| == 1 then parts[0]
    else parts[0] + sep + Join(parts[1..], sep)
  }

  /** `s.split(c)`: the pieces of `s` between occurrences of `c`. */
  function Split(s: string, c: char): (r: seq<string>)
    ensures |r| >= 1
    decreases |s|
  {
    if s == [] then [""]
    else
      var rest := Split(s[1..], c);
      if s[0] == c then [""] + rest else [[s[0]] + rest[0]] + rest[1..]
  }

  lemma {:induction false} SplitPlain(a: string, c: char)
    requires c !in a
    ensures Split(a, c) == [a]
    decreases |a|
  {
    if a != [] {
      SplitPlain(a[1..], c);
      assert [a[0]] + a[1..] == a;
    }
  }

  lemma {:induction false} SplitAtFirst(a: string, c: char, b: string)
    requires c !in a
    ensures Split(a + [c] + b, c) == [a] + Split(b, c)
    decreases |a|
  {
    var s := a + [c] + b;
    if a == [] {
      assert s[0] == c && s[1..] == b;
    } else {
      assert s[0] == a[0] && s[1..] == a[1..] + [c] + b;
      SplitAtFirst(a[1..], c, b);
      assert [a[0]] + a[1..] == a;
    }
  }

  /** Joining pieces that do not contain the separator and splitting the
      result at it gives the pieces back. */
  lemma {:induction false} SplitJoin(parts: seq<string>, c: char)
    requires |parts| >= 1
    requires forall i :: 0 <= i < |parts| ==> c !in parts[i]
    ensures Split(Join(parts, [c]), c) == parts
    decreases |parts|
  {
    if |parts| == 1 {
      SplitPlain(parts[0], c);
    } else {
      SplitJoin(parts[1..], c);
      SplitAtFirst(parts[0], c, Join(parts[1..], [c]));
      assert [parts[0]] + parts[1..] == parts;
    }
  }

  /** The text of a cell: `row[header].toString()`, or "" when the cell is
      null or the row has no such column. */
  function CellText(c: Option<Cell>): (t: string)
    ensures c.None? || c.value.Null? ==> t == ""
    ensures c.Some? && c.value.Text? ==> t == c.value.s
  {
    match c
    case None => ""
    case Some(Null) => ""
    case Some(Text(s)) => s
    case Some(Number(n)) => IntToString(n)
    case Some(Boolean(b)) => if b then "true" else "false"
  }

  /** The cells of `row` in header order. */
  function RowCells(row: Row, headers: seq<string>): (cells: seq<string>)
    ensures |cells| == |headers|
    ensures forall j :: 0 <= j < |headers| ==> cells[j] == CellText(Lookup(row, headers[j]))
  {
    seq(|headers|, j requires 0 <= j < |headers| => CellText(Lookup(row, headers[j])))
  }

  function RowLine(row: Row, headers: seq<string>): string {
    Join(RowCells(row, headers), "\t")
  }

  function HeaderLine(headers: seq<string>): string {
    Join(headers, "\t") + "\n"
  }

  /** One line per row, in order, each ended by a newline. */
  function Lines(rows: seq<Row>, headers: seq<string>): string
    decreases |rows|
  {
    if rows == [] then ""
    else Lines(rows[..|rows| - 1], headers) + RowLine(rows[|rows| - 1], headers) + "\n"
  }

  /** The note appended when `omitted` rows did not fit. */
  function Note(omitted: nat): string {
    "\n... (and " + NatToString(omitted) + " more rows. Only first "
      + NatToString(MaxRowsForAI) + " rows sent for summary)"
  }

  /** The first 50 rows (`jsonData.slice(0, MAX_ROWS_FOR_AI)`). */
  function Sample(rows: seq<Row>): (s: seq<Row>)
    ensures |s| == Min(MaxRowsForAI, |rows|) && s == rows[..|s|]
  {
    rows[..Min(MaxRowsForAI, |rows|)]
  }

  /** What `formatDataForAI(jsonData)` returns; `None` stands for null or
      undefined input. */
  function Formatted(jsonData: Option<seq<Row>>): string {
    if jsonData.None? || |jsonData.value| == 0 then NoData
    else
      var rows := jsonData.value;
      var headers := Keys(rows[0]);
      HeaderLine(headers) + Lines(Sample(rows), headers)
        + (if |rows| > MaxRowsForAI then Note(|rows| - MaxRowsForAI) else "")
  }

  /** `formatDataForAI`: the header line, then the rows of the sample, then
      the omission note. */
  method FormatDataForAI(jsonData: Option<seq<Row>>) returns (formatted: string)
    ensures formatted == Formatted(jsonData)
  {
    if jsonData.None? || |jsonData.value| == 0 {
      return NoData;
    }
    var rows := jsonData.value;
    var dataSample := rows[..Min(MaxRowsForAI, |rows|)];
    formatted := "";
    if |dataSample| > 0 {
      var headers := Keys(dataSample[0]);
      assert dataSample == Sample(rows) && headers == Keys(rows[0]);
      formatted := formatted + Join(headers, "\t") + "\n";
      assert formatted == HeaderLine(headers);
      formatted := AppendRows(formatted, dataSample, headers);
      if |rows| > MaxRowsForAI {
        formatted := formatted + Note(|rows| - MaxRowsForAI);
      }
    } else {
      // A non-empty input always yields a non-empty sample, so the source's
      // "empty or no recognizable format" branch is dead.
      assert false;
      formatted := EmptyOrUnrecognized;
    }
  }

  /** The `forEach` of `formatDataForAI`: one line per row appended to the
      text built so far. */
  method AppendRows(acc: string, rows: seq<Row>, headers: seq<string>) returns (formatted: string)
    ensures formatted == acc + Lines(rows, headers)
  {
    formatted := acc;
    var i := 0;
    while i < |rows|
      invariant 0 <= i <= |rows|
      invariant formatted == acc + Lines(rows[..i], headers)
    {
      var line := RowLine(rows[i], headers) + "\n";
      LinesExtend(acc, formatted, rows, i, headers);
      formatted := formatted + line;
      i := i + 1;
    }
    assert rows[..i] == rows;
  }

  /** Taking one more row adds that row's line at the end. */
  lemma LinesExtend(acc: string, formatted: string, rows: seq<Row>, i: nat, headers: seq<string>)
    requires i < |rows| && formatted == acc + Lines(rows[..i], headers)
    ensures formatted + (RowLine(rows[i], headers) + "\n") == acc + Lines(rows[..i + 1], headers)
  {
    var prev := Lines(rows[..i], headers);
    var line := RowLine(rows[i], headers) + "\n";
    assert Lines(rows[..i + 1], headers) == prev + line by {
      assert rows[..i + 1][..i] == rows[..i];
    }
    AppendAssoc(acc, prev, line);
  }

  /** Exactly the null, undefined and empty inputs produce "No data provided.". */
  lemma FormattedNoDataIff(jsonData: Option<seq<Row>>)
    ensures Formatted(jsonData) == NoData <==> jsonData.None? || |jsonData.value| == 0
  {
    if jsonData.Some? && |jsonData.value| > 0 {
      var rows := jsonData.value;
      var h := HeaderLine(Keys(rows[0]));
      var out := Formatted(jsonData);
      assert out[|h| - 1] == '\n';
      assert '\n' !in NoData;
    }
  }

  /** Output for non-empty input starts with the first row's keys joined by
      tabs and ended by a newline. */
  lemma FormattedStartsWithHeader(rows: seq<Row>)
    requires |rows| > 0
    ensures var h := HeaderLine(Keys(rows[0]));
      |h| <= |Formatted(Some(rows))| && Formatted(Some(rows))[..|h|] == h
  {
  }

  lemma {:induction false} LinesEndWithNewline(rows: seq<Row>, headers: seq<string>)
    requires |rows| > 0
    ensures var l := Lines(rows, headers); |l| > 0 && l[|l| - 1] == '\n'
  {
  }

  /** The omission note is present exactly when there are more than 50 rows:
      a shorter input ends with the last row's newline, a longer one with the
      note counting the rows left out. */
  lemma FormattedNoteIff(rows: seq<Row>)
    requires |rows| > 0
    ensures var out := Formatted(Some(rows));
      && (out[|out| - 1] == '\n' <==> |rows| <= MaxRowsForAI)
      && (|rows| > MaxRowsForAI ==>
            var n := Note(|rows| - MaxRowsForAI);
            |n| <= |out| && out[|out| - |n|..] == n)
  {
    var out := Formatted(Some(rows));
    var headers := Keys(rows[0]);
    LinesEndWithNewline(Sample(rows), headers);
    if |rows| > MaxRowsForAI {
      var n := Note(|rows| - MaxRowsForAI);
      assert out == HeaderLine(headers) + Lines(Sample(rows), headers) + n;
      assert n[|n| - 1] == ')';
      assert out[|out| - 1] == n[|n| - 1];
    }
  }

  /** Rows past the first 50 influence the output only through their number. */
  lemma FormattedIgnoresRowsPastSample(a: seq<Row>, b: seq<Row>)
    requires |a| == |b| && Sample(a) == Sample(b)
    ensures Formatted(Some(a)) == Formatted(Some(b))
  {
    if |a| > 0 {
      assert a[0] == Sample(a)[0];
      assert b[0] == Sample(b)[0];
    }
  }

  lemma {:induction false} LinesAgree(a: seq<Row>, b: seq<Row>, headers: seq<string>)
    requires |a| == |b|
    requires forall i, h :: 0 <= i < |a| && h in headers ==> Lookup(a[i], h) == Lookup(b[i], h)
    ensures Lines(a, headers) == Lines(b, headers)
    decreases |a|
  {
    if a != [] {
      var n := |a| - 1;
      LinesAgree(a[..n], b[..n], headers);
      assert RowCells(a[n], headers) == RowCells(b[n], headers) by {
        forall j | 0 <= j < |headers|
          ensures RowCells(a[n], headers)[j] == RowCells(b[n], headers)[j]
        {
          assert headers[j] in headers;
        }
      }
    }
  }

  /** Only the first row's keys are rendered: two inputs with the same
      first-row keys whose rows agree on those keys format identically,
      whatever other keys their rows carry. */
  lemma FormattedIgnoresUnlistedKeys(a: seq<Row>, b: seq<Row>)
    requires |a| == |b| && |a| > 0 && Keys(a[0]) == Keys(b[0])
    requires forall i, h :: 0 <= i < |a| && h in Keys(a[0]) ==> Lookup(a[i], h) == Lookup(b[i], h)
    ensures Formatted(Some(a)) == Formatted(Some(b))
  {
    LinesAgree(Sample(a), Sample(b), Keys(a[0]));
  }

  /** Each rendered row splits at its tabs into exactly its cells, in header
      order, provided no cell text contains a tab. */
  lemma RowLineFields(row: Row, headers: seq<string>)
    requires |headers| >= 1
    requires forall h :: h in headers ==> '\t' !in CellText(Lookup(row, h))
    ensures Split(RowLine(row, headers), '\t') == RowCells(row, headers)
  {
    var cells := RowCells(row, headers);
    forall j | 0 <= j < |cells| ensures '\t' !in cells[j] {
      assert headers[j] in headers;
    }
    SplitJoin(cells, '\t');
  }
}
