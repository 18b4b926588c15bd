/**
  The CSV import of the case routes: a hand-written splitter for one line
  with double-quoted fields (a doubled quote inside a quoted field is a
  literal quote, as in rule 7 of RFC 4180 section 2; quoted line breaks are
  not supported), the reader that turns a text into one record per data
  line keyed by the header, and the import loop that counts created,
  updated and skipped rows against a table of cases keyed by case number.
 */
module ProcessRoutes {
  import opened Js

  // ---------------------------------------------------------------------
  // splitCsvLine

  /** The cells of the rest of a line, read from the state `inQuotes` with
      `current` holding the cell read so far. */
  function Cells(line: string, d: char, inQuotes: bool, current: string): (r: seq<string>)
    ensures |r| >= 1
    decreases |line|
  {
    if line == [] then [current]
    else if line[0] == '"' then
      if inQuotes && |line| >= 2 && line[1] == '"' then Cells(line[2..], d, inQuotes, current + "\"")
      else Cells(line[1..], d, !inQuotes, current)
    else if line[0] == d && !inQuotes then [current] + Cells(line[1..], d, false, "")
    else Cells(line[1..], d, inQuotes, current + [line[0]])
  }

  /** `splitCsvLine(line, delimiter)` */
  method SplitCsvLine(line: string, d: char) returns (cells: seq<string>)
    ensures cells == Cells(line, d, false, "")
  {
    ghost var all := Cells(line, d, false, "");
    cells := [];
    var current := "";
    var inQuotes := false;
    var i := 0;
    while i < |line|
      invariant 0 <= i <= |line|
      invariant cells + Cells(line[i..], d, inQuotes, current) == all
      decreases |line| - i
    {
      var c := line[i];
      assert line[i..][1..] == line[i + 1..];
      if c == '"' {
        if inQuotes && i + 1 < |line| && line[i + 1] == '"' {
          assert line[i..][2..] == line[i + 2..];
          current := current + "\"";
          i := i + 1;
        } else {
          inQuotes := !inQuotes;
        }
      } else if c == d && !inQuotes {
        AppendAssoc(cells, [current], Cells(line[i + 1..], d, false, ""));
        cells := cells + [current];
        current := "";
      } else {
        current := current + [c];
      }
      i := i + 1;
    }
    assert line[i..] == [];
    cells := cells + [current];
  }

  lemma AppendAssoc<T>(a: seq<T>, b: seq<T>, c: seq<T>)
    ensures a + (b + c) == (a + b) + c
  {
  }

  /** The delimiters of a line that lie outside quotes, a doubled quote
      inside quotes standing for a literal quote. */
  function DelimitersOutsideQuotes(line: string, d: char, inQuotes: bool): nat
    decreases |line|
  {
    if line == [] then 0
    else if line[0] == '"' then
      if inQuotes && |line| >= 2 && line[1] == '"' then DelimitersOutsideQuotes(line[2..], d, inQuotes)
      else DelimitersOutsideQuotes(line[1..], d, !inQuotes)
    else if line[0] == d && !inQuotes then 1 + DelimitersOutsideQuotes(line[1..], d, false)
    else DelimitersOutsideQuotes(line[1..], d, inQuotes)
  }

  /** A line has one more cell than delimiters outside quotes. */
  lemma {:induction false} CellCount(line: string, d: char, inQuotes: bool, current: string)
    ensures |Cells(line, d, inQuotes, current)| == 1 + DelimitersOutsideQuotes(line, d, inQuotes)
    decreases |line|
  {
    if line != [] {
      if line[0] == '"' {
        if inQuotes && |line| >= 2 && line[1] == '"' {
          CellCount(line[2..], d, inQuotes, current + "\"");
        } else {
          CellCount(line[1..], d, !inQuotes, current);
        }
      } else if line[0] == d && !inQuotes {
        CellCount(line[1..], d, false, "");
      } else {
        CellCount(line[1..], d, inQuotes, current + [line[0]]);
      }
    }
  }

  /** Without quotes a line is split at every delimiter. */
  lemma {:induction false} QuoteFreeCells(line: string, d: char, current: string)
    requires '"' !in line
    ensures Cells(line, d, false, current) == SplitOnFrom(line, d, current)
    decreases |line|
  {
    if line != [] {
      assert forall x :: x in line[1..] ==> x in line;
      if line[0] == d {
        QuoteFreeCells(line[1..], d, "");
      } else {
        QuoteFreeCells(line[1..], d, current + [line[0]]);
      }
    }
  }

  /** Joining the cells of a line without quotes with the delimiter gives
      the line back, and such a line has one cell more than delimiters. */
  lemma QuoteFreeRoundTrip(line: string, d: char)
    requires '"' !in line
    ensures Join(Cells(line, d, false, ""), [d]) == line
  {
    QuoteFreeCells(line, d, "");
    JoinSplitOn(line, d);
  }

  /** A field written for a quoted cell: every quote doubled. */
  function Escape(f: string): (r: string)
    ensures |r| >= |f|
  {
    if f == [] then [] else (if f[0] == '"' then "\"\"" else [f[0]]) + Escape(f[1..])
  }

  /** A field written as a quoted cell. */
  function Quote(f: string): string {
    "\"" + Escape(f) + "\""
  }

  /** Inside quotes, an escaped field and its closing quote read back as
      the field. */
  lemma {:induction false} EscapedField(f: string, rest: string, d: char, current: string)
    requires rest == [] || rest[0] != '"'
    ensures Cells(Escape(f) + ("\"" + rest), d, true, current) == Cells(rest, d, false, current + f)
    decreases |f|
  {
    var line := Escape(f) + ("\"" + rest);
    if f == [] {
      assert line == "\"" + rest;
      assert line[1..] == rest;
      assert current + f == current;
    } else if f[0] == '"' {
      assert line == "\"\"" + (Escape(f[1..]) + ("\"" + rest));
      assert line[2..] == Escape(f[1..]) + ("\"" + rest);
      EscapedField(f[1..], rest, d, current + "\"");
      assert current + "\"" + f[1..] == current + f;
    } else {
      assert line == [f[0]] + (Escape(f[1..]) + ("\"" + rest));
      assert line[1..] == Escape(f[1..]) + ("\"" + rest);
      EscapedField(f[1..], rest, d, current + [f[0]]);
      assert current + [f[0]] + f[1..] == current + f;
    }
  }

  function QuoteAll(fields: seq<string>): (r: seq<string>)
    ensures |r| == |fields|
  {
    if fields == [] then [] else [Quote(fields[0])] + QuoteAll(fields[1..])
  }

  /** A line of quoted fields reads back as the fields, whatever quotes and
      delimiters they hold. */
  lemma {:induction false} QuotedLineRoundTrip(fields: seq<string>, d: char)
    requires |fields| >= 1 && d != '"'
    ensures Cells(Join(QuoteAll(fields), [d]), d, false, "") == fields
  {
    var f := fields[0];
    var quoted := QuoteAll(fields);
    if |fields| == 1 {
      assert Join(quoted, [d]) == "\"" + (Escape(f) + ("\"" + []));
      EscapedField(f, [], d, "");
      assert "" + f == f;
    } else {
      var rest := Join(QuoteAll(fields[1..]), [d]);
      assert quoted[1..] == QuoteAll(fields[1..]);
      assert Join(quoted, [d]) == "\"" + (Escape(f) + ("\"" + ([d] + rest)));
      EscapedField(f, [d] + rest, d, "");
      assert ([d] + rest)[1..] == rest;
      QuotedLineRoundTrip(fields[1..], d);
      assert "" + f == f;
      assert [f] + fields[1..] == fields;
    }
  }

  // ---------------------------------------------------------------------
  // parseCsv

  /** The head-matcher of `/\r?\n/`. */
  function LineBreak(t: string): nat {
    if |t| >= 2 && t[0] == '\r' && t[1] == '\n' then 2
    else if t != [] && t[0] == '\n' then 1
    else 0
  }

  /** `filter((line) => line.trim().length > 0)` on one line. */
  function NonBlankLine(line: string): Option<string> {
    if IsBlank(line) then None else Some(line)
  }

  /** The non-blank lines of the trimmed text. */
  function CsvLines(text: string): seq<string> {
    FilterMap(NonBlankLine, Split(Trim(text), LineBreak))
  }

  /** No line kept is blank. */
  lemma CsvLinesNonBlank(text: string)
    ensures forall l :: l in CsvLines(text) ==> !IsBlank(l)
  {
    var pieces := Split(Trim(text), LineBreak);
    FilterMapMembers(NonBlankLine, pieces);
    forall l | l in CsvLines(text) ensures !IsBlank(l) {
      var x :| x in pieces && NonBlankLine(x) == Some(l);
    }
  }

  /** How many times `c` occurs in `s`. */
  function Occurrences(s: string, c: char): nat {
    if s == [] then 0 else (if s[0] == c then 1 else 0) + Occurrences(s[1..], c)
  }

  /** The delimiter a header line chooses: `;` when it has strictly more
      semicolons than commas, `,` otherwise. */
  function Delimiter(header: string): (d: char)
    ensures d == ';' <==> Occurrences(header, ';') > Occurrences(header, ',')
    ensures d == ';' || d == ','
  {
    if Occurrences(header, ';') > Occurrences(header, ',') then ';' else ','
  }

  lemma {:induction false} OccurrencesAppend(a: string, b: string, c: char)
    ensures Occurrences(a + b, c) == Occurrences(a, c) + Occurrences(b, c)
    decreases |a|
  {
    if a == [] {
      assert a + b == b;
    } else {
      assert (a + b)[1..] == a[1..] + b;
      OccurrencesAppend(a[1..], b, c);
    }
  }

  lemma {:induction false} OccurrencesAbsent(s: string, c: char)
    requires c !in s
    ensures Occurrences(s, c) == 0
    decreases |s|
  {
    if s != [] {
      assert forall x :: x in s[1..] ==> x in s;
      OccurrencesAbsent(s[1..], c);
    }
  }

  /** Names joined by `d` hold `d` once between every two names and no
      other character the names avoid. */
  lemma {:induction false} OccurrencesOfJoin(names: seq<string>, d: char, c: char)
    requires |names| >= 1
    requires forall n :: n in names ==> c !in n
    ensures Occurrences(Join(names, [d]), c) == if c == d then |names| - 1 else 0
    decreases |names|
  {
    if |names| == 1 {
      OccurrencesAbsent(names[0], c);
    } else {
      assert names[0] in names;
      assert forall n :: n in names[1..] ==> n in names;
      OccurrencesOfJoin(names[1..], d, c);
      OccurrencesAbsent(names[0], c);
      OccurrencesAppend(names[0], [d], c);
      OccurrencesAppend(names[0] + [d], Join(names[1..], [d]), c);
      assert Occurrences([d], c) == if c == d then 1 else 0 by {
        assert [d][1..] == [];
      }
    }
  }

  /** A header of two or more column names written with either delimiter,
      no name holding a comma or a semicolon, is read with that delimiter. */
  lemma DelimiterOfHeader(names: seq<string>, d: char)
    requires |names| >= 2 && (d == ';' || d == ',')
    requires forall n :: n in names ==> ';' !in n && ',' !in n
    ensures Delimiter(Join(names, [d])) == d
  {
    OccurrencesOfJoin(names, d, ';');
    OccurrencesOfJoin(names, d, ',');
  }

  /** `cells[index] ?? ""` */
  function CellAt(cells: seq<string>, index: nat): string {
    if index < |cells| then cells[index] else ""
  }

  /** `(cells[index] ?? "").trim()` for the first `n` columns. */
  function Values(cells: seq<string>, n: nat): (r: seq<string>)
    ensures |r| == n
  {
    if n == 0 then [] else Values(cells, n - 1) + [Trim(CellAt(cells, n - 1))]
  }

  lemma {:induction false} ValueAt(cells: seq<string>, n: nat, i: nat)
    requires i < n
    ensures Values(cells, n)[i] == Trim(CellAt(cells, i))
  {
    var prev := Values(cells, n - 1);
    var last := Trim(CellAt(cells, n - 1));
    assert Values(cells, n) == prev + [last];
    if i < n - 1 {
      ValueAt(cells, n - 1, i);
      assert (prev + [last])[i] == prev[i];
    } else {
      assert i == n - 1;
      assert (prev + [last])[i] == last;
    }
  }

  lemma {:induction false} ValuesTrimmed(cells: seq<string>, n: nat)
    ensures forall v :: v in Values(cells, n) ==> IsTrimmed(v)
  {
    if n > 0 {
      ValuesTrimmed(cells, n - 1);
      TrimSpec(CellAt(cells, n - 1));
    }
  }

  /** The record `headers.forEach((h, i) => record[h] = values[i])`: a
      header repeated later overrides the earlier column. */
  function RecordOf(headers: seq<string>, values: seq<string>): map<string, string>
    requires |headers| <= |values|
  {
    if headers == [] then map[]
    else RecordOf(headers[..|headers| - 1], values)[headers[|headers| - 1] := values[|headers| - 1]]
  }

  lemma Snoc<T>(s: seq<T>)
    requires s != []
    ensures s == s[..|s| - 1] + [s[|s| - 1]]
  {
  }

  /** The `forEach` that fills the record of one line. */
  method BuildRecord(headers: seq<string>, cells: seq<string>) returns (record: map<string, string>)
    ensures record == RecordOf(headers, Values(cells, |headers|))
  {
    ghost var values := Values(cells, |headers|);
    record := map[];
    for index := 0 to |headers|
      invariant record == RecordOf(headers[..index], values)
    {
      var value := Trim(CellAt(cells, index));
      ValueAt(cells, |headers|, index);
      assert value == values[index];
      RecordSnoc(headers, values, index);
      record := record[headers[index] := value];
    }
    assert headers[..|headers|] == headers;
  }

  lemma RecordSnoc(headers: seq<string>, values: seq<string>, index: int)
    requires |headers| <= |values| && 0 <= index < |headers|
    ensures RecordOf(headers[..index + 1], values) == RecordOf(headers[..index], values)[headers[index] := values[index]]
  {
    assert headers[..index + 1][..index] == headers[..index];
  }

  /** A record has exactly the header's keys. */
  lemma {:induction false} RecordKeys(headers: seq<string>, values: seq<string>)
    requires |headers| <= |values|
    ensures forall h :: h in RecordOf(headers, values) <==> h in headers
  {
    if headers != [] {
      RecordKeys(headers[..|headers| - 1], values);
      Snoc(headers);
    }
  }

  /** Every value of a record is one of the column values. */
  lemma {:induction false} RecordValues(headers: seq<string>, values: seq<string>)
    requires |headers| <= |values|
    ensures forall k :: k in RecordOf(headers, values) ==> RecordOf(headers, values)[k] in values
  {
    if headers != [] {
      RecordValues(headers[..|headers| - 1], values);
    }
  }

  /** With distinct headers, each header holds the value of its own column. */
  lemma {:induction false} RecordColumns(headers: seq<string>, values: seq<string>, i: int)
    requires |headers| <= |values| && 0 <= i < |headers|
    requires forall a, b :: 0 <= a < b < |headers| ==> headers[a] != headers[b]
    ensures headers[i] in RecordOf(headers, values)
    ensures RecordOf(headers, values)[headers[i]] == values[i]
  {
    var n := |headers| - 1;
    var init := headers[..n];
    var m := RecordOf(init, values);
    assert RecordOf(headers, values) == m[headers[n] := values[n]];
    if i < n {
      RecordColumns(init, values, i);
      assert init[i] == headers[i];
      assert headers[i] != headers[n];
    }
  }

  /** The trimmed cells of the header line. */
  function CsvHeaders(text: string): seq<string>
    requires CsvLines(text) != []
  {
    var header := CsvLines(text)[0];
    TrimAll(Cells(header, Delimiter(header), false, ""))
  }

  /** The record of one data line. */
  function RowOf(headers: seq<string>, d: char, line: string): map<string, string> {
    RecordOf(headers, Values(Cells(line, d, false, ""), |headers|))
  }

  /** The records of the data lines, in order. */
  function DataRows(headers: seq<string>, d: char, data: seq<string>): (rows: seq<map<string, string>>)
    ensures |rows| == |data|
  {
    if data == [] then [] else DataRows(headers, d, data[..|data| - 1]) + [RowOf(headers, d, data[|data| - 1])]
  }

  lemma {:induction false} DataRowAt(headers: seq<string>, d: char, data: seq<string>, i: int)
    requires 0 <= i < |data|
    ensures DataRows(headers, d, data)[i] == RowOf(headers, d, data[i])
  {
    if i < |data| - 1 {
      DataRowAt(headers, d, data[..|data| - 1], i);
    }
  }

  /** `parseCsv(text)` as a value: one record per non-blank line after the
      header; nothing for a blank text. */
  function CsvRows(text: string): (rows: seq<map<string, string>>)
    ensures IsBlank(text) ==> rows == []
    ensures CsvLines(text) != [] ==> |rows| == |CsvLines(text)| - 1
  {
    var lines := CsvLines(text);
    if Trim(text) == [] || lines == [] then []
    else DataRows(CsvHeaders(text), Delimiter(lines[0]), lines[1..])
  }

  /** A blank text has no lines at all. */
  lemma BlankCsvHasNoLines(text: string)
    requires IsBlank(text)
    ensures CsvLines(text) == []
  {
    assert Split([], LineBreak) == [[]];
    assert IsBlank([]);
    assert FilterMap(NonBlankLine, [[]]) == [];
  }

  /** The record of data line `i` (line `i + 1` of the text). */
  lemma CsvRowAt(text: string, i: int)
    requires CsvLines(text) != [] && 0 <= i < |CsvRows(text)|
    ensures CsvRows(text)[i] == RowOf(CsvHeaders(text), Delimiter(CsvLines(text)[0]), CsvLines(text)[i + 1])
  {
    var lines := CsvLines(text);
    if Trim(text) == [] {
      BlankCsvHasNoLines(text);
    }
    DataRowAt(CsvHeaders(text), Delimiter(lines[0]), lines[1..], i);
    assert lines[1..][i] == lines[i + 1];
  }

  /** Every record of a CSV text has exactly the header's keys, and every
      value in it is trimmed. */
  lemma CsvRowShape(text: string, i: int)
    requires CsvLines(text) != [] && 0 <= i < |CsvRows(text)|
    ensures forall h :: h in CsvRows(text)[i] <==> h in CsvHeaders(text)
    ensures forall k :: k in CsvRows(text)[i] ==> IsTrimmed(CsvRows(text)[i][k])
  {
    var lines := CsvLines(text);
    var headers := CsvHeaders(text);
    var cells := Cells(lines[i + 1], Delimiter(lines[0]), false, "");
    CsvRowAt(text, i);
    RecordKeys(headers, Values(cells, |headers|));
    RecordValues(headers, Values(cells, |headers|));
    ValuesTrimmed(cells, |headers|);
  }

  /** With distinct headers, column `j` of a record holds the trimmed cell
      `j` of its line, or "" when the line has fewer cells. */
  lemma CsvColumn(text: string, i: int, j: int)
    requires CsvLines(text) != [] && 0 <= i < |CsvRows(text)|
    requires 0 <= j < |CsvHeaders(text)|
    requires forall a, b :: 0 <= a < b < |CsvHeaders(text)| ==> CsvHeaders(text)[a] != CsvHeaders(text)[b]
    ensures CsvHeaders(text)[j] in CsvRows(text)[i]
    ensures CsvRows(text)[i][CsvHeaders(text)[j]] == Trim(CellAt(Cells(CsvLines(text)[i + 1], Delimiter(CsvLines(text)[0]), false, ""), j))
  {
    var lines := CsvLines(text);
    var headers := CsvHeaders(text);
    var cells := Cells(lines[i + 1], Delimiter(lines[0]), false, "");
    CsvRowAt(text, i);
    RecordColumns(headers, Values(cells, |headers|), j);
    ValueAt(cells, |headers|, j);
  }

  /** `parseCsv(text)` */
  method ParseCsv(text: string) returns (rows: seq<map<string, string>>)
    ensures rows == CsvRows(text)
  {
    var trimmed := Trim(text);
    if trimmed == [] {
      return [];
    }
    var lines := CsvLines(text);
    if |lines| == 0 {
      return [];
    }
    var headerLine := lines[0];
    var d := Delimiter(headerLine);
    var headerCells := SplitCsvLine(headerLine, d);
    var headers := TrimAll(headerCells);
    assert headers == CsvHeaders(text);
    var data := lines[1..];
    rows := [];
    for l := 0 to |data|
      invariant rows == DataRows(headers, d, data[..l])
    {
      DataRowsSnoc(headers, d, data, l);
      var cells := SplitCsvLine(data[l], d);
      var record := BuildRecord(headers, cells);
      assert record == RowOf(headers, d, data[l]);
      rows := rows + [record];
    }
    assert data[..|data|] == data;
    assert CsvRows(text) == DataRows(headers, d, data);
  }

  lemma DataRowsSnoc(headers: seq<string>, d: char, data: seq<string>, l: int)
    requires 0 <= l < |data|
    ensures DataRows(headers, d, data[..l + 1]) == DataRows(headers, d, data[..l]) + [RowOf(headers, d, data[l])]
  {
    assert data[..l + 1][..l] == data[..l];
  }

  // ---------------------------------------------------------------------
  // The CSV import

  /** The columns a row writes to the table. */
  datatype ImportedProcess = ImportedProcess(
    titulo: Option<string>,
    classe: Option<string>,
    assunto: Option<string>,
    comarca: Option<string>,
    uf: Option<string>,
    polo: Option<string>,
    cliente: Option<string>,
    oab: Option<string>,
    situacao: Option<string>,
    dataDistribuicao: Option<string>)

  /** `raw.key ? String(raw.key).trim() : null` */
  function Column(row: map<string, string>, key: string): Option<string> {
    if key in row && row[key] != "" then Some(Trim(row[key])) else None
  }

  /** `raw.key ? String(raw.key).trim().toUpperCase() : null` */
  function UpperColumn(row: map<string, string>, key: string): (r: Option<string>)
    ensures r.Some? <==> Column(row, key).Some?
    ensures r.Some? ==> r.value == ToUpper(Column(row, key).value)
    ensures r.Some? ==> IsTrimmed(r.value) && ToUpper(r.value) == r.value
  {
    match Column(row, key)
    case None => None
    case Some(v) =>
      TrimSpec(row[key]);
      UpperKeepsTrimmed(v);
      UpperIdempotent(v);
      Some(ToUpper(v))
  }

  /** `(raw?.cnj || "").trim()` */
  function CnjOf(row: map<string, string>): string {
    if "cnj" in row then Trim(row["cnj"]) else ""
  }

  function ProcessOf(row: map<string, string>): ImportedProcess {
    ImportedProcess(
      Column(row, "titulo"), Column(row, "classe"), Column(row, "assunto"), Column(row, "comarca"),
      UpperColumn(row, "uf"), Column(row, "polo"), Column(row, "cliente"), UpperColumn(row, "oab"),
      Column(row, "situacao"), Column(row, "data_distribuicao"))
  }

  /** The table after importing the rows in order: a row with a case number
      inserts or overwrites that case; a row without one changes nothing. */
  function Imported(table: map<string, ImportedProcess>, rows: seq<map<string, string>>): map<string, ImportedProcess> {
    if rows == [] then table
    else
      var before := Imported(table, rows[..|rows| - 1]);
      var row := rows[|rows| - 1];
      if CnjOf(row) == "" then before else before[CnjOf(row) := ProcessOf(row)]
  }

  /** The rows without a case number. */
  function BlankCnjRows(rows: seq<map<string, string>>): nat {
    if rows == [] then 0
    else BlankCnjRows(rows[..|rows| - 1]) + (if CnjOf(rows[|rows| - 1]) == "" then 1 else 0)
  }

  /** The case numbers of the rows. */
  function RowCnjs(rows: seq<map<string, string>>): set<string> {
    set r | r in rows && CnjOf(r) != "" :: CnjOf(r)
  }

  lemma RowCnjsSnoc(init: seq<map<string, string>>, last: map<string, string>)
    ensures RowCnjs(init + [last]) == RowCnjs(init) + (if CnjOf(last) != "" then {CnjOf(last)} else {})
  {
    var rows := init + [last];
    forall x ensures x in RowCnjs(rows) <==> x in RowCnjs(init) || (CnjOf(last) != "" && x == CnjOf(last)) {
      if x in RowCnjs(rows) {
        var r :| r in rows && CnjOf(r) != "" && CnjOf(r) == x;
        assert r in init || r == last;
      }
      if x in RowCnjs(init) {
        var r :| r in init && CnjOf(r) != "" && CnjOf(r) == x;
        assert r in rows;
      }
      if CnjOf(last) != "" && x == CnjOf(last) {
        assert last in rows;
      }
    }
  }

  /** The import only adds cases: the table keeps every case it had and
      gains exactly the case numbers of the rows. */
  lemma {:induction false} ImportedKeys(table: map<string, ImportedProcess>, rows: seq<map<string, string>>)
    ensures Imported(table, rows).Keys == table.Keys + RowCnjs(rows)
  {
    if rows != [] {
      var init := rows[..|rows| - 1];
      var last := rows[|rows| - 1];
      ImportedKeys(table, init);
      assert rows == init + [last];
      RowCnjsSnoc(init, last);
    }
  }

  /** The import loop of POST `/processes/import-csv` over a table of cases
      keyed by case number. Every row is counted once: skipped without a
      case number, created when its case was not in the table, updated
      otherwise. */
  method ImportRows(rows: seq<map<string, string>>, table: map<string, ImportedProcess>)
    returns (created: nat, updated: nat, skipped: nat, result: map<string, ImportedProcess>)
    ensures created + updated + skipped == |rows|
    ensures result == Imported(table, rows)
    ensures skipped == BlankCnjRows(rows)
    ensures |result| == |table| + created
  {
    created, updated, skipped := 0, 0, 0;
    result := table;
    for i := 0 to |rows|
      invariant created + updated + skipped == i
      invariant result == Imported(table, rows[..i])
      invariant skipped == BlankCnjRows(rows[..i])
      invariant |result| == |table| + created
    {
      var raw := rows[i];
      assert rows[..i + 1][..i] == rows[..i];
      var cnj := CnjOf(raw);
      if cnj == "" {
        skipped := skipped + 1;
        continue;
      }
      var existed := cnj in result;
      result := result[cnj := ProcessOf(raw)];
      if existed {
        updated := updated + 1;
      } else {
        created := created + 1;
      }
    }
    assert rows[..|rows|] == rows;
  }

  /** The answer of the import route. */
  datatype ImportOutcome =
    | ImportRefused(status: int, error: string)
    | ImportDone(rowCount: nat, created: nat, updated: nat, skipped: nat)

  /** POST `/processes/import-csv`: administrators only, a non-blank text,
      then the import. */
  method ImportCsv(role: Option<string>, csvText: string, table: map<string, ImportedProcess>)
    returns (outcome: ImportOutcome, result: map<string, ImportedProcess>)
    ensures role != Some("admin") ==> outcome == ImportRefused(403, "Somente administradores podem importar CSV") && result == table
    ensures role == Some("admin") && IsBlank(csvText) ==> outcome == ImportRefused(400, "CSV vazio") && result == table
    ensures outcome.ImportDone? <==> role == Some("admin") && !IsBlank(csvText)
    ensures outcome.ImportDone? ==>
      && outcome.rowCount == |CsvRows(csvText)|
      && outcome.created + outcome.updated + outcome.skipped == outcome.rowCount
      && result == Imported(table, CsvRows(csvText))
  {
    result := table;
    if role != Some("admin") {
      return ImportRefused(403, "Somente administradores podem importar CSV"), result;
    }
    if Trim(csvText) == [] {
      return ImportRefused(400, "CSV vazio"), result;
    }
    var rows := ParseCsv(csvText);
    if |rows| == 0 {
      return ImportDone(0, 0, 0, 0), result;
    }
    var created, updated, skipped;
    created, updated, skipped, result := ImportRows(rows, table);
    outcome := ImportDone(|rows|, created, updated, skipped);
  }
}
