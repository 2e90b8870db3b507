/** The CSV export (script.js `toCSV`): every cell is quoted with inner quotes
    doubled, as in rules 5 to 7 of section 2 of RFC 4180, cells are separated
    by commas and rows by a line feed (not the RFC's CR LF). A reader for that
    format is defined beside it, and the round trip is proved. */
module Csv {
  import opened Options

  /** One cell of an exported row: absent (null or undefined in the source) or its text. */
  type Cell = Option<string>

  /** The text written for a cell: an absent cell is written as the empty text. */
  function CellText(c: Cell): string
  {
    c.GetOr("")
  }

  /** The texts of a row's cells. */
  function Texts(row: seq<Cell>): (r: seq<string>)
    ensures |r| == |row|
  {
    seq(|row|, i requires 0 <= i < |row| => CellText(row[i]))
  }

  /** The texts of every row. */
  function TextRows(rows: seq<seq<Cell>>): (r: seq<seq<string>>)
    ensures |r| == |rows|
  {
    seq(|rows|, i requires 0 <= i < |rows| => Texts(rows[i]))
  }

  /** Every quote character doubled, every other character kept. */
  function EscapeQuotes(t: string): (r: string)
    ensures |r| >= |t|
    ensures '"' !in t ==> r == t
  {
    if t == [] then []
    else (if t[0] == '"' then "\"\"" else [t[0]]) + EscapeQuotes(t[1..])
  }

  /** A cell as written: its escaped text between two quotes. */
  function Quote(c: Cell): (r: string)
    ensures |r| >= 2 && r[0] == '"' && r[|r| - 1] == '"'
  {
    "\"" + EscapeQuotes(CellText(c)) + "\""
  }

  /** The parts with `sep` between consecutive ones (JavaScript `Array.prototype.join`). */
  function Join(sep: string, parts: seq<string>): string
  {
    if parts == [] then []
    else if |parts| == 1 then parts[0]
    else parts[0] + sep + Join(sep, parts[1..])
  }

  /** A join starts with the first part and ends with the last one, and joining
      nothing gives the empty text. */
  lemma {:induction false} JoinEnds(sep: string, parts: seq<string>)
    ensures parts == [] ==> Join(sep, parts) == []
    ensures parts != [] ==> |parts[0]| <= |Join(sep, parts)| && Join(sep, parts)[..|parts[0]|] == parts[0]
    ensures parts != [] ==> var r, last := Join(sep, parts), parts[|parts| - 1];
      |last| <= |r| && r[|r| - |last|..] == last
  {
    if |parts| >= 2 {
      JoinEnds(sep, parts[1..]);
      assert parts[1..][|parts| - 2] == parts[|parts| - 1];
    }
  }

  /** Each cell of a row quoted. */
  function QuotedCells(row: seq<Cell>): (r: seq<string>)
    ensures |r| == |row|
  {
    seq(|row|, i requires 0 <= i < |row| => Quote(row[i]))
  }

  /** One line of the export: the quoted cells joined by commas. */
  function RowLine(row: seq<Cell>): (r: string)
    ensures row == [] ==> r == []
    ensures row != [] ==> |r| >= 2 && r[0] == '"' && r[|r| - 1] == '"'
  {
    JoinEnds(",", QuotedCells(row));
    Join(",", QuotedCells(row))
  }

  /** Each row written as a line. */
  function Lines(rows: seq<seq<Cell>>): (r: seq<string>)
    ensures |r| == |rows|
  {
    seq(|rows|, i requires 0 <= i < |rows| => RowLine(rows[i]))
  }

  /** `toCSV`: the lines joined by line feeds. */
  function ToCsv(rows: seq<seq<Cell>>): (r: string)
    ensures rows == [] ==> r == []
    ensures rows != [] && rows[0] != [] ==> r != [] && r[0] == '"'
    ensures rows != [] && rows[|rows| - 1] != [] ==> r != [] && r[|r| - 1] == '"'
  {
    JoinEnds("\n", Lines(rows));
    Join("\n", Lines(rows))
  }

  // Reading the format back.

  /** Reads a quoted field whose opening quote has been consumed: a doubled quote
      stands for one quote and a single quote closes the field. Yields the text
      and what follows the closing quote; no closing quote is an error. */
  function ReadQuoted(s: string): (r: Option<(string, string)>)
    ensures r.Some? ==> |r.value.1| < |s|
  {
    if s == [] then None
    else if s[0] == '"' then
      if |s| >= 2 && s[1] == '"' then
        match ReadQuoted(s[2..])
        case None => None
        case Some((text, rest)) => Some(("\"" + text, rest))
      else Some(([], s[1..]))
    else
      match ReadQuoted(s[1..])
      case None => None
      case Some((text, rest)) => Some(([s[0]] + text, rest))
  }

  /** Reads one quoted field at the start of `s`. */
  function ReadField(s: string): (r: Option<(string, string)>)
    ensures r.Some? ==> |r.value.1| + 1 < |s|
  {
    if s != [] && s[0] == '"' then ReadQuoted(s[1..]) else None
  }

  /** Reads the comma-separated fields of one line, up to the end of the text or
      the next line feed (left in what remains). */
  function ReadRow(s: string): (r: Option<(seq<string>, string)>)
    ensures r.Some? ==> r.value.0 != [] && |r.value.1| < |s|
    decreases |s|
  {
    match ReadField(s)
    case None => None
    case Some((text, rest)) =>
      if rest != [] && rest[0] == ',' then
        match ReadRow(rest[1..])
        case None => None
        case Some((texts, rest')) => Some(([text] + texts, rest'))
      else Some(([text], rest))
  }

  /** Reads lines separated by line feeds until the text ends; anything else
      after a line is an error. */
  function ReadLines(s: string): (r: Option<seq<seq<string>>>)
    ensures r.Some? ==> r.value != []
    decreases |s|
  {
    match ReadRow(s)
    case None => None
    case Some((texts, rest)) =>
      if rest == [] then Some([texts])
      else if rest[0] == '\n' then
        match ReadLines(rest[1..])
        case None => None
        case Some(rows) => Some([texts] + rows)
      else None
  }

  /** Reads a whole export; the empty text has no rows. */
  function ParseCsv(s: string): (r: Option<seq<seq<string>>>)
    ensures r.Some? && s != [] ==> r.value != []
  {
    if s == [] then Some([]) else ReadLines(s)
  }

  // The round trip.

  /** An escaped text followed by a closing quote reads back as the text, provided
      the character after the closing quote (if any) is not itself a quote. */
  lemma {:induction false} ReadQuotedEscaped(t: string, rest: string)
    requires rest == [] || rest[0] != '"'
    ensures ReadQuoted(EscapeQuotes(t) + "\"" + rest) == Some((t, rest))
  {
    var s := EscapeQuotes(t) + "\"" + rest;
    if t == [] {
      assert s == "\"" + rest;
    } else {
      ReadQuotedEscaped(t[1..], rest);
      var tail := EscapeQuotes(t[1..]) + "\"" + rest;
      if t[0] == '"' {
        assert s == "\"\"" + tail;
        assert s[2..] == tail;
        assert "\"" + t[1..] == t;
      } else {
        assert s == [t[0]] + tail;
        assert s[1..] == tail;
        assert [t[0]] + t[1..] == t;
      }
    }
  }

  /** A written cell reads back as its text, followed by whatever came after it,
      provided that does not start with a quote. */
  lemma ReadFieldQuote(c: Cell, rest: string)
    requires rest == [] || rest[0] != '"'
    ensures ReadField(Quote(c) + rest) == Some((CellText(c), rest))
  {
    var text := CellText(c);
    ReadQuotedEscaped(text, rest);
    assert (Quote(c) + rest)[1..] == EscapeQuotes(text) + "\"" + rest;
  }

  /** A written line reads back as its cells' texts, up to a line feed or the end. */
  lemma {:induction false} ReadRowLine(row: seq<Cell>, rest: string)
    requires row != []
    requires rest == [] || rest[0] == '\n'
    ensures ReadRow(RowLine(row) + rest) == Some((Texts(row), rest))
  {
    var q := QuotedCells(row);
    if |row| == 1 {
      ReadFieldQuote(row[0], rest);
      assert RowLine(row) == Quote(row[0]);
      assert Texts(row) == [CellText(row[0])];
    } else {
      ReadRowLine(row[1..], rest);
      assert q[1..] == QuotedCells(row[1..]);
      var more := RowLine(row[1..]) + rest;
      assert RowLine(row) + rest == Quote(row[0]) + ("," + more);
      ReadFieldQuote(row[0], "," + more);
      assert ("," + more)[1..] == more;
      assert Texts(row) == [CellText(row[0])] + Texts(row[1..]);
    }
  }

  /** Written lines read back as the rows' texts. */
  lemma {:induction false} ReadLinesRows(rows: seq<seq<Cell>>)
    requires rows != [] && forall i :: 0 <= i < |rows| ==> rows[i] != []
    ensures ReadLines(ToCsv(rows)) == Some(TextRows(rows))
  {
    if |rows| == 1 {
      ReadRowLine(rows[0], []);
      assert ToCsv(rows) == RowLine(rows[0]) + [];
      assert TextRows(rows) == [Texts(rows[0])];
    } else {
      ReadLinesRows(rows[1..]);
      var more := ToCsv(rows[1..]);
      ToCsvCons(rows);
      ReadRowLine(rows[0], "\n" + more);
      assert ("\n" + more)[1..] == more;
      assert TextRows(rows) == [Texts(rows[0])] + TextRows(rows[1..]);
    }
  }

  /** An export of two rows or more is its first line, a line feed, and the export
      of the remaining rows. */
  lemma ToCsvCons(rows: seq<seq<Cell>>)
    requires |rows| >= 2
    ensures ToCsv(rows) == RowLine(rows[0]) + ("\n" + ToCsv(rows[1..]))
  {
    assert Lines(rows)[1..] == Lines(rows[1..]);
  }

  /** Reading an export gives back every cell's text, row by row, when no row
      is empty (an empty row writes an empty line, which is not a field). */
  lemma CsvRoundTrip(rows: seq<seq<Cell>>)
    requires forall i :: 0 <= i < |rows| ==> rows[i] != []
    ensures ParseCsv(ToCsv(rows)) == Some(TextRows(rows))
  {
    if rows != [] {
      ReadLinesRows(rows);
    }
  }
}
