/**
 CSV output of the run history (internal/cmd/history.go), and a reader of CSV text after
 section 2 of RFC 4180 that also accepts a bare line feed as line end.
 */
module HistoryCsv {
  import opened Text

  // ----- writing

  predicate NeedsQuoting(s: string) {
    exists i :: 0 <= i < |s| && (s[i] == ',' || s[i] == '"' || s[i] == '\n' || s[i] == '\r')
  }

  function Doubled(s: string): string {
    if s == [] then [] else (if s[0] == '"' then ['"', '"'] else [s[0]]) + Doubled(s[1..])
  }

  function EscapeCsv(s: string): string {
    if NeedsQuoting(s) then ['"'] + (Doubled(s) + ['"']) else s
  }

  function Escaped(fields: seq<string>): seq<string> { seq(|fields|, i requires 0 <= i < |fields| => EscapeCsv(fields[i])) }

  function FormatRow(fields: seq<string>): string { Join(Escaped(fields), ",") }

  /** The six texts shown for a run. */
  datatype RunStatus = RunStatus(name: string, runId: string, status: string, started: string, duration: string, params: string)

  function Fields(r: RunStatus): seq<string> { [r.name, r.runId, r.status, r.started, r.duration, r.params] }

  const HEADER: seq<string> := ["DAG NAME", "RUN ID", "STATUS", "STARTED (UTC)", "DURATION", "PARAMS"]

  /** Rows with a line feed behind each. */
  function Lines(rows: seq<seq<string>>): string {
    if rows == [] then [] else FormatRow(rows[0]) + (['\n'] + Lines(rows[1..]))
  }

  function Table(header: seq<string>, runs: seq<RunStatus>): seq<seq<string>> {
    [header] + seq(|runs|, i requires 0 <= i < |runs| => Fields(runs[i]))
  }

  /** Writes the header as it is, then a line for every run. */
  method RenderRows(header: seq<string>, runs: seq<RunStatus>) returns (out: string)
    requires forall i :: 0 <= i < |header| ==> !NeedsQuoting(header[i])
    ensures out == Lines(Table(header, runs))
  {
    ghost var table := Table(header, runs);
    assert table[..1] == [header] && Escaped(header) == header;
    assert [header][1..] == [] && Lines([]) == [];
    out := Join(header, ",") + ['\n'];
    for i := 0 to |runs|
      invariant out == Lines(table[..i + 1])
    {
      LinesSnoc(table[..i + 1], Fields(runs[i]));
      assert table[..i + 2] == table[..i + 1] + [Fields(runs[i])];
      out := out + FormatRow(Fields(runs[i])) + ['\n'];
    }
    assert table[..|runs| + 1] == table;
  }

  method RenderHistoryCsv(runs: seq<RunStatus>) returns (out: string)
    ensures out == Lines(Table(HEADER, runs))
  {
    out := RenderRows(HEADER, runs);
  }

  lemma {:induction false} LinesSnoc(rows: seq<seq<string>>, row: seq<string>)
    ensures Lines(rows + [row]) == Lines(rows) + FormatRow(row) + ['\n']
  {
    if rows == [] {
      assert [] + [row] == [row] && [row][1..] == [] && Lines([]) == [];
    } else {
      assert (rows + [row])[1..] == rows[1..] + [row];
      LinesSnoc(rows[1..], row);
    }
  }

  // ----- reading

  /** At the start of a field, in a plain one, inside quotes, or behind a closing quote. */
  datatype Mode = Start | Plain | Quoted | Closed

  datatype Reader = Reader(mode: Mode, field: string, row: seq<string>, rows: seq<seq<string>>)

  function EndField(r: Reader): Reader { Reader(Start, [], r.row + [r.field], r.rows) }

  function EndRow(r: Reader): Reader { Reader(Start, [], [], r.rows + [r.row + [r.field]]) }

  function Put(r: Reader, mode: Mode, c: char): Reader { r.(mode := mode, field := r.field + [c]) }

  /** The reader after one character; none if the text is not CSV. */
  function Feed(r: Reader, c: char): Option<Reader> {
    if r.mode == Quoted then Some(if c == '"' then r.(mode := Closed) else Put(r, Quoted, c))
    else if c == ',' then Some(EndField(r))
    else if c == '\n' then Some(EndRow(r))
    else if r.mode == Start then
      if c == '"' then Some(r.(mode := Quoted)) else if c == '\r' then None else Some(Put(r, Plain, c))
    else if r.mode == Plain then
      if c == '"' || c == '\r' then None else Some(Put(r, Plain, c))
    else
      if c == '"' then Some(Put(r, Quoted, c)) else None
  }

  predicate LineEnd(s: string) { |s| > 1 && s[0] == '\r' && s[1] == '\n' }

  function Read(r: Reader, s: string): Option<seq<seq<string>>>
    decreases |s|
  {
    if s == [] then
      if r.mode == Quoted then None
      else if r.mode == Start && r.row == [] then Some(r.rows)
      else Some(EndRow(r).rows)
    else if r.mode != Quoted && LineEnd(s) then Read(EndRow(r), s[2..])
    else
      var n := Feed(r, s[0]);
      if n.None? then None else Read(n.value, s[1..])
  }

  function ParseCsv(s: string): Option<seq<seq<string>>> { Read(Reader(Start, [], [], []), s) }

  // ----- round trip

  predicate Ends(c: char) { c == ',' || c == '\n' }

  function Ended(r: Reader, field: string, c: char): Reader
    requires Ends(c)
  {
    var f := r.(field := field);
    if c == ',' then EndField(f) else EndRow(f)
  }

  /** A field without special characters, up to the separator behind it. */
  lemma {:induction false} ReadPlain(r: Reader, s: string, c: char, rest: string)
    requires (r.mode == Start || r.mode == Plain) && !NeedsQuoting(s) && Ends(c)
    ensures Read(r, s + ([c] + rest)) == Read(Ended(r, r.field + s, c), rest)
    decreases |s|
  {
    var t := s + ([c] + rest);
    if s == [] {
      assert t == [c] + rest && t[1..] == rest && r.field + s == r.field;
    } else {
      assert t[0] == s[0] && t[1..] == s[1..] + ([c] + rest);
      assert !NeedsQuoting(s[1..]) by { assert forall i :: 0 <= i < |s| - 1 ==> s[1..][i] == s[i + 1]; }
      assert s[0] != ',' && s[0] != '"' && s[0] != '\n' && s[0] != '\r';
      ReadPlain(Put(r, Plain, s[0]), s[1..], c, rest);
      assert r.field + [s[0]] + s[1..] == r.field + s;
    }
  }

  /** The inside of a quoted field, its closing quote and the separator behind it. */
  lemma {:induction false} ReadQuoted(r: Reader, s: string, c: char, rest: string)
    requires r.mode == Quoted && Ends(c)
    ensures Read(r, Doubled(s) + (['"'] + ([c] + rest))) == Read(Ended(r, r.field + s, c), rest)
    decreases |s|
  {
    var tail := ['"'] + ([c] + rest);
    var t := Doubled(s) + tail;
    if s == [] {
      assert t == tail && tail[1..] == [c] + rest && ([c] + rest)[1..] == rest && r.field + s == r.field;
    } else if s[0] == '"' {
      assert t[0] == '"' && t[1] == '"' && t[1..][0] == '"' && t[1..][1..] == Doubled(s[1..]) + tail;
      ReadQuoted(Put(r, Quoted, '"'), s[1..], c, rest);
      assert r.field + ['"'] + s[1..] == r.field + s;
    } else {
      assert t[0] == s[0] && t[1..] == Doubled(s[1..]) + tail;
      ReadQuoted(Put(r, Quoted, s[0]), s[1..], c, rest);
      assert r.field + [s[0]] + s[1..] == r.field + s;
    }
  }

  lemma ReadField(r: Reader, s: string, c: char, rest: string)
    requires r.mode == Start && r.field == [] && Ends(c)
    ensures Read(r, EscapeCsv(s) + ([c] + rest)) == Read(Ended(r, s, c), rest)
  {
    assert [] + s == s;
    if NeedsQuoting(s) {
      var t := EscapeCsv(s) + ([c] + rest);
      assert t[0] == '"' && t[1..] == Doubled(s) + (['"'] + ([c] + rest));
      ReadQuoted(r.(mode := Quoted), s, c, rest);
    } else {
      ReadPlain(r, s, c, rest);
    }
  }

  lemma {:induction false} ReadRow(r: Reader, fields: seq<string>, rest: string)
    requires r.mode == Start && r.field == [] && fields != []
    ensures Read(r, FormatRow(fields) + (['\n'] + rest)) == Read(Reader(Start, [], [], r.rows + [r.row + fields]), rest)
    decreases |fields|
  {
    var more := Escaped(fields)[1..];
    assert more == Escaped(fields[1..]);
    if |fields| == 1 {
      ReadField(r, fields[0], '\n', rest);
      assert r.row + [fields[0]] == r.row + fields;
    } else {
      var tail := FormatRow(fields[1..]) + (['\n'] + rest);
      assert FormatRow(fields) + (['\n'] + rest) == EscapeCsv(fields[0]) + ([','] + tail);
      ReadField(r, fields[0], ',', tail);
      ReadRow(Reader(Start, [], r.row + [fields[0]], r.rows), fields[1..], rest);
      assert r.row + [fields[0]] + fields[1..] == r.row + fields;
    }
  }

  lemma {:induction false} ReadLines(rows: seq<seq<string>>, done: seq<seq<string>>)
    requires forall i :: 0 <= i < |rows| ==> rows[i] != []
    ensures Read(Reader(Start, [], [], done), Lines(rows)) == Some(done + rows)
    decreases |rows|
  {
    if rows == [] {
      assert done + rows == done;
    } else {
      ReadRow(Reader(Start, [], [], done), rows[0], Lines(rows[1..]));
      assert [] + rows[0] == rows[0];
      ReadLines(rows[1..], done + [rows[0]]);
      assert done + [rows[0]] + rows[1..] == done + rows;
    }
  }

  /** Reading what was written gives back every row and every field, whatever they contain. */
  lemma CsvRoundTrip(header: seq<string>, runs: seq<RunStatus>)
    requires header != []
    ensures ParseCsv(Lines(Table(header, runs))) == Some(Table(header, runs))
  {
    ReadLines(Table(header, runs), []);
    assert [] + Table(header, runs) == Table(header, runs);
  }
}
