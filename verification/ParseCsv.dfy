/** packages/mobile/src/parse-csv.ts: the CSV parser of the file preview. */
module ParseCsv {

  /** The parser's variables between two iterations of its loop. */
  datatype State = State(rows: seq<seq<string>>, row: seq<string>, field: string, inQuotes: bool)

  const START := State([], [], "", false)

  function EndField(s: State): State {
    State(s.rows, s.row + [s.field], "", s.inQuotes)
  }

  function EndRow(s: State): State {
    State(s.rows + [s.row + [s.field]], [], "", s.inQuotes)
  }

  function Take(s: State, ch: char): State {
    s.(field := s.field + [ch])
  }

  predicate Starts(text: string, ch: char) {
    text != "" && text[0] == ch
  }

  /** The state after the whole of `text` has been read from state `s`. */
  function Read(text: string, delimiter: string, s: State): State {
    if text == "" then s
    else
      var ch, rest := text[0], text[1..];
      if s.inQuotes then
        if ch == '"' && Starts(rest, '"') then Read(rest[1..], delimiter, Take(s, '"'))
        else if ch == '"' then Read(rest, delimiter, s.(inQuotes := false))
        else Read(rest, delimiter, Take(s, ch))
      else if ch == '"' then Read(rest, delimiter, s.(inQuotes := true))
      else if [ch] == delimiter then Read(rest, delimiter, EndField(s))
      else if ch == '\r' then Read(if Starts(rest, '\n') then rest[1..] else rest, delimiter, EndRow(s))
      else if ch == '\n' then Read(rest, delimiter, EndRow(s))
      else Read(rest, delimiter, Take(s, ch))
  }

  predicate EndsWithBreak(text: string) {
    text != "" && (text[|text| - 1] == '\n' || text[|text| - 1] == '\r')
  }

  /** The final flush, and the drop of the row that a trailing break leaves behind. */
  function Finish(s: State, endedWithBreak: bool): seq<seq<string>> {
    var rows := EndRow(s).rows;
    if endedWithBreak && |rows| > 1 && rows[|rows| - 1] == [""] then rows[..|rows| - 1] else rows
  }

  function Parsed(text: string, delimiter: string): seq<seq<string>> {
    Finish(Read(text, delimiter, START), EndsWithBreak(text))
  }

  /** The loop over `text`, proved against the reader above. */
  method ParseCsv(text: string, delimiter: string) returns (rows: seq<seq<string>>)
    ensures rows == Parsed(text, delimiter)
  {
    rows := [];
    var field, row, inQuotes := "", [], false;
    var i := 0;
    var endedWithBreak := |text| > 0 && (text[|text| - 1] == '\n' || text[|text| - 1] == '\r');
    assert text[0..] == text;
    while i < |text|
      invariant 0 <= i <= |text|
      invariant Read(text[i..], delimiter, State(rows, row, field, inQuotes)) == Read(text, delimiter, START)
    {
      var ch := text[i];
      assert text[i..][1..] == text[i + 1..];
      if i + 1 < |text| { assert text[i + 1..][1..] == text[i + 2..]; }
      if inQuotes {
        if ch == '"' {
          if i + 1 < |text| && text[i + 1] == '"' {
            field := field + ['"'];
            i := i + 2;
            continue;
          }
          inQuotes := false;
          i := i + 1;
          continue;
        }
        field := field + [ch];
        i := i + 1;
        continue;
      }
      if ch == '"' {
        inQuotes := true;
        i := i + 1;
        continue;
      }
      if [ch] == delimiter {
        row, field := row + [field], "";
        i := i + 1;
        continue;
      }
      if ch == '\r' {
        rows, row, field := rows + [row + [field]], [], "";
        i := i + if i + 1 < |text| && text[i + 1] == '\n' then 2 else 1;
        continue;
      }
      if ch == '\n' {
        rows, row, field := rows + [row + [field]], [], "";
        i := i + 1;
        continue;
      }
      field := field + [ch];
      i := i + 1;
    }
    rows := rows + [row + [field]];
    var last := rows[|rows| - 1];
    if endedWithBreak && |rows| > 1 && |last| == 1 && last[0] == "" {
      rows := rows[..|rows| - 1];
    }
  }

  // -------------------------------------------------------------- printing

  /** A cell as section 2 of RFC 4180 lets it be written: in quotes, or bare. */
  datatype Cell = Quoted(text: string) | Bare(text: string)

  predicate Special(ch: char, d: char) {
    ch == '"' || ch == '\r' || ch == '\n' || ch == d
  }

  /** Only a text without special characters may be written bare. */
  predicate Writable(c: Cell, d: char) {
    c.Bare? ==> forall k :: 0 <= k < |c.text| ==> !Special(c.text[k], d)
  }

  function Escape(text: string): string {
    if text == "" then ""
    else (if text[0] == '"' then "\"\"" else [text[0]]) + Escape(text[1..])
  }

  function PrintCell(c: Cell): string {
    if c.Quoted? then "\"" + (Escape(c.text) + "\"") else c.text
  }

  function PrintRow(row: seq<Cell>, d: char): string
    requires row != []
  {
    if |row| == 1 then PrintCell(row[0]) else PrintCell(row[0]) + ([d] + PrintRow(row[1..], d))
  }

  /** The breaks the parser knows: LF, CRLF and a bare CR. */
  predicate IsBreak(brk: string) {
    brk == "\n" || brk == "\r\n" || brk == "\r"
  }

  function Print(rows: seq<seq<Cell>>, d: char, brk: string, trailing: bool): string
    requires rows != [] && forall k :: 0 <= k < |rows| ==> rows[k] != []
  {
    if |rows| == 1 then PrintRow(rows[0], d) + (if trailing then brk else "")
    else PrintRow(rows[0], d) + (brk + Print(rows[1..], d, brk, trailing))
  }

  predicate Table(rows: seq<seq<Cell>>, d: char) {
    && rows != []
    && (forall k :: 0 <= k < |rows| ==> WritableRow(rows[k], d))
  }

  predicate WritableRow(row: seq<Cell>, d: char) {
    row != [] && forall k :: 0 <= k < |row| ==> Writable(row[k], d)
  }

  function RowValues(row: seq<Cell>): seq<string> {
    seq(|row|, k requires 0 <= k < |row| => row[k].text)
  }

  function Values(rows: seq<seq<Cell>>): seq<seq<string>> {
    seq(|rows|, k requires 0 <= k < |rows| => RowValues(rows[k]))
  }

  // ----------------------------------------------------------- round trip

  lemma {:induction false} ReadEscaped(text: string, rest: string, d: char, s: State)
    requires s.inQuotes && !Starts(rest, '"')
    ensures Read(Escape(text) + ("\"" + rest), [d], s) == Read(rest, [d], s.(field := s.field + text, inQuotes := false))
  {
    var tail := "\"" + rest;
    if text == "" {
      assert Escape(text) + tail == tail;
      assert tail[1..] == rest;
      assert s.field + text == s.field;
    } else {
      var more := Escape(text[1..]) + tail;
      ReadEscaped(text[1..], rest, d, Take(s, text[0]));
      assert s.field + [text[0]] + text[1..] == s.field + text;
      var all := Escape(text) + tail;
      if text[0] == '"' {
        assert all == "\"\"" + more;
        assert all[1..] == "\"" + more && all[1..][1..] == more;
      } else {
        assert all == [text[0]] + more;
        assert all[1..] == more;
      }
    }
  }

  lemma {:induction false} ReadBare(text: string, rest: string, d: char, s: State)
    requires !s.inQuotes && Writable(Bare(text), d)
    ensures Read(text + rest, [d], s) == Read(rest, [d], s.(field := s.field + text))
  {
    if text == "" {
      assert text + rest == rest && s.field + text == s.field;
    } else {
      assert !Special(text[0], d);
      assert (text + rest)[1..] == text[1..] + rest;
      assert forall k :: 0 <= k < |text| - 1 ==> text[1..][k] == text[k + 1];
      ReadBare(text[1..], rest, d, Take(s, text[0]));
      assert s.field + [text[0]] + text[1..] == s.field + text;
    }
  }

  /** A printed cell fills the empty field with exactly its text. */
  lemma {:induction false} ReadCell(c: Cell, rest: string, d: char, s: State)
    requires !s.inQuotes && s.field == "" && Writable(c, d) && !Starts(rest, '"') && d != '"'
    ensures Read(PrintCell(c) + rest, [d], s) == Read(rest, [d], s.(field := c.text))
  {
    assert s.field + c.text == c.text;
    if c.Quoted? {
      var body := Escape(c.text) + ("\"" + rest);
      assert PrintCell(c) + rest == "\"" + body;
      assert ("\"" + body)[1..] == body;
      ReadEscaped(c.text, rest, d, s.(inQuotes := true));
    } else {
      ReadBare(c.text, rest, d, s);
    }
  }

  /** The state after a printed row, before its break. */
  function AfterRow(s: State, row: seq<Cell>): State
    requires row != []
  {
    State(s.rows, s.row + RowValues(row[..|row| - 1]), row[|row| - 1].text, false)
  }

  lemma {:induction false} ReadRow(row: seq<Cell>, rest: string, d: char, s: State)
    requires WritableRow(row, d) && !s.inQuotes && s.field == "" && !Starts(rest, '"')
    requires d != '"' && d != '\r' && d != '\n'
    ensures Read(PrintRow(row, d) + rest, [d], s) == Read(rest, [d], AfterRow(s, row))
  {
    if |row| == 1 {
      assert s.row + RowValues(row[..0]) == s.row;
      ReadCell(row[0], rest, d, s);
    } else {
      var more := PrintRow(row[1..], d) + rest;
      assert PrintRow(row, d) + rest == PrintCell(row[0]) + ([d] + more);
      ReadCell(row[0], [d] + more, d, s);
      assert ([d] + more)[1..] == more;
      var s' := EndField(s.(field := row[0].text));
      assert forall k :: 0 <= k < |row| - 1 ==> row[1..][k] == row[k + 1];
      ReadRow(row[1..], rest, d, s');
      assert s'.row + RowValues(row[1..][..|row| - 2]) == s.row + RowValues(row[..|row| - 1]);
    }
  }

  lemma {:induction false} ReadBreak(brk: string, rest: string, d: char, s: State)
    requires IsBreak(brk) && !s.inQuotes && d != '\r' && d != '\n'
    requires brk == "\r" ==> !Starts(rest, '\n')
    ensures Read(brk + rest, [d], s) == Read(rest, [d], EndRow(s))
  {
    assert (brk + rest)[1..] == brk[1..] + rest;
    if brk == "\r\n" {
      assert (brk[1..] + rest)[1..] == rest;
    } else {
      assert brk[1..] + rest == rest;
    }
  }

  lemma EndAfterRow(s: State, row: seq<Cell>)
    requires row != [] && s.row == []
    ensures EndRow(AfterRow(s, row)) == State(s.rows + [RowValues(row)], [], "", false)
  {
    assert s.row + RowValues(row[..|row| - 1]) + [row[|row| - 1].text] == RowValues(row);
  }

  /** Printed rows never start with a line feed, so a bare CR is never read as CRLF. */
  lemma RowStart(row: seq<Cell>, d: char)
    requires WritableRow(row, d) && d != '\n'
    ensures !Starts(PrintRow(row, d), '\n')
  {
    var c := row[0];
    assert Writable(c, d);
    if c.Bare? && c.text != "" { assert !Special(c.text[0], d); }
  }

  lemma PrintStart(rows: seq<seq<Cell>>, d: char, brk: string, trailing: bool)
    requires Table(rows, d) && IsBreak(brk) && brk[0] != '\n' && d != '\n'
    ensures !Starts(Print(rows, d, brk, trailing), '\n')
  {
    RowStart(rows[0], d);
    var first := PrintRow(rows[0], d);
    var rest := if |rows| > 1 then brk + Print(rows[1..], d, brk, trailing) else if trailing then brk else "";
    assert Print(rows, d, brk, trailing) == first + rest;
    assert !Starts(rest, '\n');
    if first == "" {
      assert first + rest == rest;
    } else {
      assert (first + rest)[0] == first[0];
    }
  }

  predicate Clean(s: State) {
    s.row == [] && s.field == "" && !s.inQuotes
  }

  /** Reading a printed table and flushing gives its rows, plus one artificial row when a
      break was printed at the end. */
  lemma {:induction false} ReadTable(rows: seq<seq<Cell>>, d: char, brk: string, trailing: bool, s: State)
    requires Table(rows, d) && IsBreak(brk) && d != '"' && d != '\r' && d != '\n' && Clean(s)
    ensures EndRow(Read(Print(rows, d, brk, trailing), [d], s)).rows == (
      s.rows + Values(rows) + if trailing then [[""]] else [])
  {
    if |rows| == 1 {
      assert Values(rows) == [RowValues(rows[0])];
      ReadLastRow(rows[0], d, brk, trailing, s);
    } else {
      TableTail(rows, d);
      ReadFirstRow(rows, d, brk, trailing, s);
      ReadTable(rows[1..], d, brk, trailing, State(s.rows + [RowValues(rows[0])], [], "", false));
      assert s.rows + [RowValues(rows[0])] + Values(rows[1..]) == s.rows + Values(rows);
    }
  }

  lemma {:induction false} ReadLastRow(row: seq<Cell>, d: char, brk: string, trailing: bool, s: State)
    requires WritableRow(row, d) && IsBreak(brk) && d != '"' && d != '\r' && d != '\n' && Clean(s)
    ensures EndRow(Read(PrintRow(row, d) + (if trailing then brk else ""), [d], s)).rows == (
      s.rows + [RowValues(row)] + if trailing then [[""]] else [])
  {
    EndAfterRow(s, row);
    ReadRow(row, if trailing then brk else "", d, s);
    if trailing {
      assert brk + "" == brk;
      ReadBreak(brk, "", d, AfterRow(s, row));
      var blank: seq<string> := [];
      assert blank + [""] == [""];
      assert Read(PrintRow(row, d) + brk, [d], s) == State(s.rows + [RowValues(row)], [], "", false);
    } else {
      assert s.rows + [RowValues(row)] + [] == s.rows + [RowValues(row)];
    }
  }

  lemma {:induction false} ReadFirstRow(rows: seq<seq<Cell>>, d: char, brk: string, trailing: bool, s: State)
    requires Table(rows, d) && |rows| > 1 && Table(rows[1..], d)
    requires IsBreak(brk) && d != '"' && d != '\r' && d != '\n' && Clean(s)
    ensures Read(Print(rows, d, brk, trailing), [d], s)
         == Read(Print(rows[1..], d, brk, trailing), [d], State(s.rows + [RowValues(rows[0])], [], "", false))
  {
    var more := Print(rows[1..], d, brk, trailing);
    EndAfterRow(s, rows[0]);
    ReadRow(rows[0], brk + more, d, s);
    if brk == "\r" { PrintStart(rows[1..], d, brk, trailing); }
    ReadBreak(brk, more, d, AfterRow(s, rows[0]));
  }

  lemma TableTail(rows: seq<seq<Cell>>, d: char)
    requires Table(rows, d) && |rows| > 1
    ensures Table(rows[1..], d)
  {
    assert forall k :: 0 <= k < |rows| - 1 ==> rows[1..][k] == rows[k + 1];
  }

  /** A table whose last row is one bare empty cell ends its text with the break before it. */
  predicate BlankEnd(rows: seq<seq<Cell>>) {
    |rows| > 1 && rows[|rows| - 1] == [Bare("")]
  }

  lemma {:induction false} RowEnd(row: seq<Cell>, d: char)
    requires WritableRow(row, d) && d != '\r' && d != '\n'
    ensures !EndsWithBreak(PrintRow(row, d))
    ensures PrintRow(row, d) == "" <==> row == [Bare("")]
  {
    assert Writable(row[0], d);
    if |row| > 1 {
      assert forall k :: 0 <= k < |row| - 1 ==> row[1..][k] == row[k + 1];
      RowEnd(row[1..], d);
    } else if row[0].Bare? && row[0].text != "" {
      assert !Special(row[0].text[|row[0].text| - 1], d);
    }
  }

  lemma EndOfAppend(a: string, b: string)
    ensures EndsWithBreak(a + b) <==> if b == "" then EndsWithBreak(a) else EndsWithBreak(b)
  {
    if b == "" { assert a + b == a; }
  }

  lemma {:induction false} PrintEnd(rows: seq<seq<Cell>>, d: char, brk: string, trailing: bool)
    requires Table(rows, d) && IsBreak(brk) && d != '\r' && d != '\n'
    ensures EndsWithBreak(Print(rows, d, brk, trailing)) <==> trailing || BlankEnd(rows)
    ensures Print(rows, d, brk, trailing) == "" <==> !trailing && rows == [[Bare("")]]
  {
    RowEnd(rows[0], d);
    if |rows| == 1 {
      EndOfAppend(PrintRow(rows[0], d), if trailing then brk else "");
      assert rows == [rows[0]];
    } else {
      TableTail(rows, d);
      PrintEnd(rows[1..], d, brk, trailing);
      var more := Print(rows[1..], d, brk, trailing);
      EndOfAppend(brk, more);
      EndOfAppend(PrintRow(rows[0], d), brk + more);
      BlankEndTail(rows);
    }
  }

  lemma BlankEndTail(rows: seq<seq<Cell>>)
    requires |rows| > 1
    ensures BlankEnd(rows) <==> BlankEnd(rows[1..]) || rows[1..] == [[Bare("")]]
  {
    assert rows[1..][|rows| - 2] == rows[|rows| - 1];
    if |rows| == 2 { assert rows[1..] == [rows[1]]; }
  }

  /** Parsing undoes printing, for every table, every mix of quoted and bare cells, every
      break and every delimiter that is not itself a quote or a break character. The one
      exception: without a trailing break, a last row that is a single bare empty cell is
      taken for the artificial row and dropped. */
  lemma RoundTrip(rows: seq<seq<Cell>>, d: char, brk: string, trailing: bool)
    requires Table(rows, d) && IsBreak(brk) && d != '"' && d != '\r' && d != '\n'
    ensures Parsed(Print(rows, d, brk, trailing), [d]) == Values(rows) <==> trailing || !BlankEnd(rows)
    ensures !trailing && BlankEnd(rows) ==> Parsed(Print(rows, d, brk, trailing), [d]) == Values(rows)[..|rows| - 1]
  {
    ReadTable(rows, d, brk, trailing, START);
    PrintEnd(rows, d, brk, trailing);
    FinishFlush(Read(Print(rows, d, brk, trailing), [d], START), Values(rows), trailing, BlankEnd(rows));
  }

  lemma FinishFlush(s: State, values: seq<seq<string>>, trailing: bool, blank: bool)
    requires EndRow(s).rows == [] + values + (if trailing then [[""]] else []) && values != []
    requires blank ==> |values| > 1 && values[|values| - 1] == [""]
    ensures trailing || !blank ==> Finish(s, trailing || blank) == values
    ensures !trailing && blank ==> Finish(s, trailing || blank) == values[..|values| - 1]
  {
    if trailing {
      assert EndRow(s).rows[..|values|] == values;
    } else {
      assert EndRow(s).rows == values;
    }
  }

  /** The printer that quotes every cell. */
  function QuoteAll(values: seq<seq<string>>): seq<seq<Cell>> {
    seq(|values|, k requires 0 <= k < |values| =>
      seq(|values[k]|, j requires 0 <= j < |values[k]| => Quoted(values[k][j])))
  }

  predicate Grid(values: seq<seq<string>>) {
    values != [] && forall k :: 0 <= k < |values| ==> values[k] != []
  }

  /** Quoting everything loses nothing, with or without a trailing break. */
  lemma QuotedRoundTrip(values: seq<seq<string>>, d: char, brk: string, trailing: bool)
    requires Grid(values) && IsBreak(brk) && d != '"' && d != '\r' && d != '\n'
    ensures Table(QuoteAll(values), d)
    ensures Parsed(Print(QuoteAll(values), d, brk, trailing), [d]) == values
  {
    var rows := QuoteAll(values);
    forall k | 0 <= k < |rows| ensures WritableRow(rows[k], d) && RowValues(rows[k]) == values[k] {
      assert |rows[k]| == |values[k]|;
    }
    assert Values(rows) == values;
    assert !BlankEnd(rows) by {
      assert rows[|rows| - 1][0].Quoted?;
    }
    RoundTrip(rows, d, brk, trailing);
  }

  lemma {:induction false} ReadKeepsRows(text: string, delimiter: string, s: State)
    requires forall k :: 0 <= k < |s.rows| ==> s.rows[k] != []
    ensures forall k :: 0 <= k < |Read(text, delimiter, s).rows| ==> Read(text, delimiter, s).rows[k] != []
    decreases |text|
  {
    if text != "" {
      var ch, rest := text[0], text[1..];
      if s.inQuotes {
        if ch == '"' && Starts(rest, '"') { ReadKeepsRows(rest[1..], delimiter, Take(s, '"')); }
        else if ch == '"' { ReadKeepsRows(rest, delimiter, s.(inQuotes := false)); }
        else { ReadKeepsRows(rest, delimiter, Take(s, ch)); }
      } else if ch == '"' { ReadKeepsRows(rest, delimiter, s.(inQuotes := true)); }
      else if [ch] == delimiter { ReadKeepsRows(rest, delimiter, EndField(s)); }
      else if ch == '\r' { ReadKeepsRows(if Starts(rest, '\n') then rest[1..] else rest, delimiter, EndRow(s)); }
      else if ch == '\n' { ReadKeepsRows(rest, delimiter, EndRow(s)); }
      else { ReadKeepsRows(rest, delimiter, Take(s, ch)); }
    }
  }

  /** Whatever the text and the delimiter, the result is a non-empty grid of non-empty rows. */
  lemma ParsedIsGrid(text: string, delimiter: string)
    ensures Grid(Parsed(text, delimiter))
  {
    ReadKeepsRows(text, delimiter, START);
  }

  /** Parsing, printing with quotes and parsing again changes nothing, for any text. */
  lemma ReprintIsStable(text: string, d: char, brk: string, trailing: bool)
    requires IsBreak(brk) && d != '"' && d != '\r' && d != '\n'
    ensures Grid(Parsed(text, [d])) && Table(QuoteAll(Parsed(text, [d])), d)
    ensures Parsed(Print(QuoteAll(Parsed(text, [d])), d, brk, trailing), [d]) == Parsed(text, [d])
  {
    ParsedIsGrid(text, [d]);
    QuotedRoundTrip(Parsed(text, [d]), d, brk, trailing);
  }
}
