/** The CSV export of the dashboard's movement history (toCSV in
    dashboard.js). The serialiser is a loop that pushes one line per
    movement; its output is specified by CsvText, and CsvText is tied to an
    independent CSV reader (Decode) by a round-trip lemma: reading the export
    back gives the header, then one row per movement in input order, each
    field holding exactly the text that was quoted. */
module Csv {
  import opened Builtins
  import opened Ledger

  /** The column keys, in the order toCSV writes them. */
  const Header: string := "fecha,tipo,monto,categoria,nota"

  /** `(a[k] || '').toString()` for each key. Empty strings and a zero amount
      are falsy and print as the empty string; `show` stands for the
      engine's number-to-text conversion, which is not modelled. */
  function Cells(m: Movement, show: real -> string): (r: seq<string>)
    ensures |r| == 5
  {
    [m.fecha, m.tipo, if m.monto == 0.0 then "" else show(m.monto), m.categoria, m.nota]
  }

  /** `.replace(/"/g, '""')`: every double quote doubled. */
  function Escape(s: string): (r: string)
    ensures |r| >= |s|
  {
    if s == [] then []
    else (if s[0] == '"' then "\"\"" else [s[0]]) + Escape(s[1..])
  }

  function Quote(s: string): string
  {
    "\"" + Escape(s) + "\""
  }

  function QuoteAll(cells: seq<string>): (r: seq<string>)
    ensures |r| == |cells|
  {
    if cells == [] then [] else [Quote(cells[0])] + QuoteAll(cells[1..])
  }

  /** Array.prototype.join. */
  function Join(parts: seq<string>, sep: string): string
  {
    if |parts| == 0 then ""
    else if |parts| == 1 then parts[0]
    else parts[0] + sep + Join(parts[1..], sep)
  }

  function RowLine(m: Movement, show: real -> string): string
  {
    Join(QuoteAll(Cells(m, show)), ",")
  }

  function RowLines(arr: seq<Movement>, show: real -> string): (r: seq<string>)
    ensures |r| == |arr|
  {
    seq(|arr|, i requires 0 <= i < |arr| => RowLine(arr[i], show))
  }

  /** What toCSV returns: nothing for an empty list, otherwise the header
      line and the row lines joined by newlines. */
  function CsvText(arr: seq<Movement>, show: real -> string): string
  {
    if arr == [] then "" else Join([Header] + RowLines(arr, show), "\n")
  }

  /** The cell texts of every movement, in order: what a reader of the
      export should recover. */
  function Table(arr: seq<Movement>, show: real -> string): (r: seq<seq<string>>)
    ensures |r| == |arr|
  {
    seq(|arr|, i requires 0 <= i < |arr| => Cells(arr[i], show))
  }

  /** toCSV: the loop that pushes the header and one line per movement. */
  method ToCSV(arr: seq<Movement>, show: real -> string) returns (csv: string)
    ensures csv == CsvText(arr, show)
    ensures csv == "" <==> arr == []
  {
    if |arr| == 0 {
      return "";
    }
    var rows := [Header];
    for i := 0 to |arr|
      invariant rows == [Header] + RowLines(arr[..i], show)
    {
      assert RowLines(arr[..i + 1], show) == RowLines(arr[..i], show) + [RowLine(arr[i], show)];
      rows := rows + [RowLine(arr[i], show)];
    }
    assert arr[..|arr|] == arr;
    csv := Join(rows, "\n");
    assert csv[..|Header|] == Header by { JoinStartsWithFirst(rows, "\n"); }
  }

  lemma {:induction false} JoinStartsWithFirst(parts: seq<string>, sep: string)
    requires |parts| > 0
    ensures |Join(parts, sep)| >= |parts[0]| && Join(parts, sep)[..|parts[0]|] == parts[0]
  {
  }

  // ---------------------------------------------------------------------
  // An independent reader for the export.

  /** Reads the body of a quoted field whose opening quote has been
      consumed: a doubled quote stands for one quote and a lone quote closes
      the field. Gives the field text and what follows the closing quote. */
  function ReadQuoted(t: string): (r: Option<(string, string)>)
    ensures r.Some? ==> |r.value.1| < |t|
    decreases |t|
  {
    if |t| == 0 then None
    else if t[0] == '"' then
      if |t| >= 2 && t[1] == '"' then
        match ReadQuoted(t[2..])
        case None => None
        case Some((s, rest)) => Some(("\"" + s, rest))
      else Some(("", t[1..]))
    else
      match ReadQuoted(t[1..])
      case None => None
      case Some((s, rest)) => Some(([t[0]] + s, rest))
  }

  function ReadField(t: string): (r: Option<(string, string)>)
    ensures r.Some? ==> |r.value.1| < |t|
  {
    if |t| > 0 && t[0] == '"' then ReadQuoted(t[1..]) else None
  }

  /** Reads comma-separated quoted fields up to the end of a line. */
  function ReadRecord(t: string): (r: Option<(seq<string>, string)>)
    ensures r.Some? ==> |r.value.1| < |t|
    decreases |t|
  {
    match ReadField(t)
    case None => None
    case Some((f, rest)) =>
      if |rest| > 0 && rest[0] == ',' then
        match ReadRecord(rest[1..])
        case None => None
        case Some((fs, rest2)) => Some(([f] + fs, rest2))
      else Some(([f], rest))
  }

  /** Reads newline-separated records up to the end of the text. */
  function ReadRecords(t: string): Option<seq<seq<string>>>
    decreases |t|
  {
    match ReadRecord(t)
    case None => None
    case Some((fs, rest)) =>
      if rest == [] then Some([fs])
      else if rest[0] == '\n' then
        match ReadRecords(rest[1..])
        case None => None
        case Some(rs) => Some([fs] + rs)
      else None
  }

  /** Reads an export: the empty text is the empty list; anything else must
      start with the header line. */
  function Decode(t: string): Option<seq<seq<string>>>
  {
    if t == [] then Some([])
    else if |t| > |Header| && t[..|Header| + 1] == Header + "\n" then ReadRecords(t[|Header| + 1..])
    else None
  }

  // ---------------------------------------------------------------------
  // The round trip.

  /** Un-escaping a quoted field gives back its text, whatever follows the
      closing quote as long as it is not another quote. */
  lemma {:induction false} ReadQuotedEscape(s: string, rest: string)
    requires rest == [] || rest[0] != '"'
    ensures ReadQuoted(Escape(s) + "\"" + rest) == Some((s, rest))
  {
    var t := Escape(s) + "\"" + rest;
    if s == [] {
      assert t == "\"" + rest;
      assert t[1..] == rest;
    } else {
      ReadQuotedEscape(s[1..], rest);
      if s[0] == '"' {
        assert t == "\"\"" + (Escape(s[1..]) + "\"" + rest);
        assert t[2..] == Escape(s[1..]) + "\"" + rest;
        assert "\"" + s[1..] == s;
      } else {
        assert t == [s[0]] + (Escape(s[1..]) + "\"" + rest);
        assert t[1..] == Escape(s[1..]) + "\"" + rest;
        assert [s[0]] + s[1..] == s;
      }
    }
  }

  /** A quoted cell followed by something other than a quote reads back as
      the cell. */
  lemma ReadFieldQuote(c: string, rest: string)
    requires rest == [] || rest[0] != '"'
    ensures ReadField(Quote(c) + rest) == Some((c, rest))
  {
    var t := Quote(c) + rest;
    assert t[0] == '"';
    assert t[1..] == Escape(c) + "\"" + rest;
    ReadQuotedEscape(c, rest);
  }

  /** A line of quoted cells reads back as those cells. */
  lemma {:induction false} ReadRecordLine(cells: seq<string>, rest: string)
    requires |cells| > 0
    requires rest == [] || (rest[0] != ',' && rest[0] != '"')
    ensures ReadRecord(Join(QuoteAll(cells), ",") + rest) == Some((cells, rest))
  {
    var q := QuoteAll(cells);
    var t := Join(q, ",") + rest;
    assert q[0] == Quote(cells[0]);
    if |cells| == 1 {
      assert t == Quote(cells[0]) + rest;
      ReadFieldQuote(cells[0], rest);
      assert ReadRecord(t) == Some(([cells[0]], rest));
      assert [cells[0]] == cells;
    } else {
      assert q[1..] == QuoteAll(cells[1..]);
      var tail := Join(QuoteAll(cells[1..]), ",") + rest;
      assert t == Quote(cells[0]) + ("," + tail);
      ReadFieldQuote(cells[0], "," + tail);
      ReadRecordLine(cells[1..], rest);
      assert ("," + tail)[1..] == tail;
      assert ReadRecord(t) == Some(([cells[0]] + cells[1..], rest));
      assert [cells[0]] + cells[1..] == cells;
    }
  }

  /** The row lines of a non-empty list, joined by newlines, read back as
      the list's cell table. */
  lemma ReadRecordsLines(arr: seq<Movement>, show: real -> string)
    requires |arr| > 0
    ensures ReadRecords(Join(RowLines(arr, show), "\n")) == Some(Table(arr, show))
  {
    var rows := Table(arr, show);
    assert RowLines(arr, show) == QuotedLines(rows);
    ReadRecordsQuoted(rows);
  }

  /** One line of quoted, comma-joined cells per row. */
  function QuotedLines(rows: seq<seq<string>>): (r: seq<string>)
    ensures |r| == |rows|
  {
    seq(|rows|, i requires 0 <= i < |rows| => Join(QuoteAll(rows[i]), ","))
  }

  /** Rows of quoted cells, one per line, read back as the rows. */
  lemma {:induction false} ReadRecordsQuoted(rows: seq<seq<string>>)
    requires |rows| > 0 && forall i :: 0 <= i < |rows| ==> |rows[i]| > 0
    ensures ReadRecords(Join(QuotedLines(rows), "\n")) == Some(rows)
  {
    var lines := QuotedLines(rows);
    var t := Join(lines, "\n");
    if |rows| == 1 {
      assert t == lines[0] + "";
      ReadRecordLine(rows[0], "");
      assert ReadRecord(t) == Some((rows[0], ""));
      assert [rows[0]] == rows;
    } else {
      assert lines[1..] == QuotedLines(rows[1..]);
      var tail := Join(QuotedLines(rows[1..]), "\n");
      assert t == lines[0] + ("\n" + tail);
      ReadRecordLine(rows[0], "\n" + tail);
      assert ReadRecord(t) == Some((rows[0], "\n" + tail));
      ReadRecordsQuoted(rows[1..]);
      assert ("\n" + tail)[1..] == tail;
      assert ReadRecords(t) == Some([rows[0]] + rows[1..]);
      assert [rows[0]] + rows[1..] == rows;
    }
  }

  /** Reading the export back recovers, in input order, one row per
      movement holding the text of each of its five fields; an empty list
      exports as the empty text. */
  lemma {:induction false} DecodeCsvText(arr: seq<Movement>, show: real -> string)
    ensures Decode(CsvText(arr, show)) == Some(Table(arr, show))
  {
    if arr != [] {
      var lines := RowLines(arr, show);
      var body := Join(lines, "\n");
      assert ([Header] + lines)[1..] == lines;
      assert CsvText(arr, show) == Header + "\n" + body;
      assert (Header + "\n" + body)[..|Header| + 1] == Header + "\n";
      assert (Header + "\n" + body)[|Header| + 1..] == body;
      ReadRecordsLines(arr, show);
    }
  }

  /** Falsy values print as an empty quoted field: an empty string, and an
      amount of zero. */
  lemma FalsyCellsEmpty(m: Movement, show: real -> string)
    ensures m.monto == 0.0 ==> Cells(m, show)[2] == ""
    ensures m.categoria == "" ==> Quote(Cells(m, show)[3]) == "\"\""
    ensures m.nota == "" ==> Quote(Cells(m, show)[4]) == "\"\""
  {
  }
}
