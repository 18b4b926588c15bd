/**
  The case-tracking routes of the JavaScript API: `parseParties`, the
  required-number check of POST `/processes`, and the CSV import of POST
  `/processes/import`, which turns each data line into a DTO, upserts it
  and counts insertions, updates and errors.
 */
module CasesRoutes {
  import opened Js
  import opened ProcessoDto

  // ---------------------------------------------------------------------
  // parseParties

  /** `;`, `,` or a newline. */
  predicate IsPartySeparator(c: char) {
    c == ';' || c == ',' || c == '\n'
  }

  /** The head-matcher of `/;|,|\n/`. */
  function PartySeparator(t: string): nat {
    if |t| > 0 && IsPartySeparator(t[0]) then 1 else 0
  }

  function Strs(xs: seq<string>): (r: seq<Json>)
    ensures |r| == |xs|
    ensures forall i :: 0 <= i < |xs| ==> r[i] == Str(xs[i])
  {
    seq(|xs|, i requires 0 <= i < |xs| => Str(xs[i]))
  }

  /** `parseParties(text)` */
  function ParseParties(text: Json): (r: seq<Json>)
    ensures !Truthy(text) ==> r == []
    ensures text.Arr? ==> r == text.items
    ensures !text.Arr? && !text.Str? ==> r == []
    ensures text.Str? ==> r == Strs(SplitTrimmed(text.s, PartySeparator))
  {
    if !Truthy(text) then []
    else if text.Arr? then text.items
    else if !text.Str? then []
    else Strs(SplitTrimmed(text.s, PartySeparator))
  }

  /** Names joined with `;` read back as the same names, when each is a
      non-blank trimmed name holding no separator. */
  lemma ParsePartiesJoin(names: seq<string>)
    requires forall p :: p in names ==> p != "" && IsTrimmed(p) && forall c :: c in p ==> !IsPartySeparator(c)
    ensures ParseParties(Str(Join(names, ";"))) == Strs(names)
  {
    if names != [] {
      var s := Join(names, ";");
      assert names[0] in names;
      assert |s| >= |names[0]| > 0;
      JoinChars(names, ";");
      forall i | 0 <= i < |s| ensures PartySeparator(s[i..]) == (if s[i] == ';' then 1 else 0) {
        assert s[i] in s;
      }
      SplitAsSplitOn(s, PartySeparator, ';', "");
      SplitOnJoin(names, ';');
      forall i | 0 <= i < |names| ensures TrimAll(names)[i] == names[i] {
        assert names[i] in names;
        TrimOfTrimmed(names[i]);
      }
      assert TrimAll(names) == names;
      NonEmptyAll(names);
    }
  }

  /** Every party read from a text is a non-blank trimmed name holding no
      separator; an array is passed through unchanged. */
  lemma ParsePartiesOfText(s: string)
    ensures forall p :: p in ParseParties(Str(s)) ==>
      p.Str? && p.s != "" && IsTrimmed(p.s) && forall c :: c in p.s ==> !IsPartySeparator(c)
  {
    assert MatchesClassChar(PartySeparator, IsPartySeparator) by {
      forall t: string | |t| > 0 && IsPartySeparator(t[0]) ensures 0 < PartySeparator(t) <= |t| {
      }
    }
    SplitTrimmedAvoidsClass(s, PartySeparator, IsPartySeparator);
    if s != "" {
      var parts := SplitTrimmed(s, PartySeparator);
      forall p | p in ParseParties(Str(s))
        ensures p.Str? && p.s != "" && IsTrimmed(p.s) && forall c :: c in p.s ==> !IsPartySeparator(c)
      {
        var i :| 0 <= i < |parts| && ParseParties(Str(s))[i] == p;
        assert parts[i] in parts;
      }
    }
  }

  // ---------------------------------------------------------------------
  // POST /processes

  /** `req.body || {}` */
  function Payload(body: Json): Json {
    Or(body, Obj(map[]))
  }

  /** `payload.numero || ""`, the value `.trim()` is called on. */
  function NumeroField(payload: Json): Json {
    Or(Get(payload, "numero"), Str(""))
  }

  /** The DTO of a manual registration. */
  function ManualDto(payload: Json, numero: string): (d: Dto)
    ensures Truthy(d.origem)
    ensures !Truthy(Get(payload, "origem")) ==> d.origem == Str("manual")
    ensures d.numero == Str(numero)
  {
    Dto(Str(numero), Get(payload, "classe"), Get(payload, "assunto"), Get(payload, "foro"),
        Get(payload, "vara"), Get(payload, "instancia"), Get(payload, "situacao"),
        ParseParties(Get(payload, "polo_ativo")), ParseParties(Get(payload, "polo_passivo")),
        Or(Get(payload, "origem"), Str("manual")))
  }

  /** The answers of POST `/processes`; `Thrown` is an exception left to
      the framework's error handler. */
  datatype PostResponse = Rejected(status: nat, error: string) | Saved(status: nat, id: nat) | Thrown

  /** POST `/processes`: the response and the numbers with a row afterwards. */
  function PostProcess(body: Json, upsert: (Dto, set<Json>) -> UpsertAnswer, known: set<Json>): (r: (PostResponse, set<Json>))
    ensures NumeroField(Payload(body)).Str? && IsBlank(NumeroField(Payload(body)).s) <==>
      r.0 == Rejected(400, "NUMERO_REQUIRED")
    ensures r.0.Rejected? ==> r.0.status in {400, 500} && r.1 == known
    ensures r.0.Saved? ==> NumeroField(Payload(body)).Str?
    ensures r.0.Saved? ==>
      var numero := Trim(NumeroField(Payload(body)).s);
      && numero != "" && IsTrimmed(numero)
      && Str(numero) in r.1 && known <= r.1
      && (r.0.status == 200 <==> Str(numero) in known)
      && (r.0.status == 201 <==> Str(numero) !in known)
      && r.0.id != 0
    ensures !NumeroField(Payload(body)).Str? ==> r == (Thrown, known)
    ensures NumeroField(Payload(body)).Str? && !IsBlank(NumeroField(Payload(body)).s) ==>
      var numero := Trim(NumeroField(Payload(body)).s);
      var dto := ManualDto(Payload(body), numero);
      var answer := upsert(dto, known);
      && (answer.Threw? ==> r == (Thrown, known))
      && (answer.Id? && answer.n == 0 ==> r == (Rejected(500, "UPSERT_FAILED"), known))
      && (!Failed(answer) ==> r.0.Saved? && r.0.id == answer.n && r.1 == known + {Str(numero)})
  {
    var payload := Payload(body);
    var field := NumeroField(payload);
    if !field.Str? then (Thrown, known)
    else
      var numero := Trim(field.s);
      TrimSpec(field.s);
      if numero == "" then (Rejected(400, "NUMERO_REQUIRED"), known)
      else
        var dto := ManualDto(payload, numero);
        var answer := upsert(dto, known);
        if answer.Threw? then (Thrown, known)
        else if answer.n == 0 then (Rejected(500, "UPSERT_FAILED"), known)
        else (Saved(if Str(numero) in known then 200 else 201, answer.n), Apply(known, dto, answer))
  }

  // ---------------------------------------------------------------------
  // POST /processes/import

  /** The head-matcher of `/\r?\n/`. */
  function LineBreak(t: string): nat {
    if |t| >= 2 && t[0] == '\r' && t[1] == '\n' then 2
    else if |t| >= 1 && t[0] == '\n' then 1
    else 0
  }

  /** `csv.includes(";") ? ";" : ","` */
  function Separator(csv: string): (sep: char)
    ensures sep == ';' <==> Contains(csv, ";")
    ensures sep == ',' <==> !Contains(csv, ";")
  {
    if Contains(csv, ";") then ';' else ','
  }

  /** The non-blank trimmed lines of the upload. */
  function Lines(csv: string): (r: seq<string>)
    ensures forall l :: l in r ==> l != "" && IsTrimmed(l)
  {
    SplitTrimmed(csv, LineBreak)
  }

  /** `headerLine.split(sep).map((h) => h.trim().toLowerCase())` */
  function Headers(line: string, sep: char): (r: seq<string>)
    ensures |r| == |SplitOn(line, sep)|
    ensures forall i :: 0 <= i < |r| ==> r[i] == ToLower(Trim(SplitOn(line, sep)[i]))
  {
    var parts := SplitOn(line, sep);
    seq(|parts|, i requires 0 <= i < |parts| => ToLower(Trim(parts[i])))
  }

  /** `headers.indexOf(key)`: the first position, -1 when absent. */
  function IndexOf(xs: seq<string>, key: string): (r: int)
    ensures -1 <= r < |xs|
    ensures r == -1 <==> key !in xs
    ensures r >= 0 ==> xs[r] == key && forall k :: 0 <= k < r ==> xs[k] != key
  {
    if xs == [] then -1
    else if xs[0] == key then 0
    else
      var rest := IndexOf(xs[1..], key);
      if rest == -1 then -1 else rest + 1
  }

  /** `take(cols, key)`: the cell under the header `key`, "" when there is
      no such header or the line is too short. */
  function Take(headers: seq<string>, cols: seq<string>, key: string): (r: string)
    ensures key !in headers ==> r == ""
    ensures key in headers && IndexOf(headers, key) >= |cols| ==> r == ""
    ensures key in headers && IndexOf(headers, key) < |cols| ==> r == cols[IndexOf(headers, key)]
  {
    var idx := IndexOf(headers, key);
    if idx == -1 || idx >= |cols| then "" else cols[idx]
  }

  /** A header line and a data line written with the separator read back:
      the cell `take` finds under a header is the one written in that
      header's first column. */
  lemma TakeRoundTrip(hs: seq<string>, cs: seq<string>, sep: char, key: string)
    requires |hs| == |cs| >= 1
    requires forall h :: h in hs ==> sep !in h && IsTrimmed(h) && ToLower(h) == h
    requires forall c :: c in cs ==> sep !in c && IsTrimmed(c)
    requires key in hs
    ensures Headers(Join(hs, [sep]), sep) == hs
    ensures TrimAll(SplitOn(Join(cs, [sep]), sep)) == cs
    ensures Take(Headers(Join(hs, [sep]), sep), TrimAll(SplitOn(Join(cs, [sep]), sep)), key) == cs[IndexOf(hs, key)]
  {
    SplitOnJoin(hs, sep);
    SplitOnJoin(cs, sep);
    forall i | 0 <= i < |hs| ensures ToLower(Trim(hs[i])) == hs[i] {
      assert hs[i] in hs;
      TrimOfTrimmed(hs[i]);
    }
    forall i | 0 <= i < |cs| ensures Trim(cs[i]) == cs[i] {
      assert cs[i] in cs;
      TrimOfTrimmed(cs[i]);
    }
  }

  /** An upload written with `;` is read with `;`, and one written with
      `,` and holding no `;` is read with `,`. */
  lemma SeparatorOfTable(hs: seq<string>, cs: seq<string>, sep: char)
    requires |hs| >= 2
    requires sep == ';' || sep == ','
    requires forall h :: h in hs ==> ';' !in h
    requires forall c :: c in cs ==> ';' !in c
    ensures Separator(Join(hs, [sep]) + "\n" + Join(cs, [sep])) == sep
  {
    var csv := Join(hs, [sep]) + "\n" + Join(cs, [sep]);
    ContainsChar(csv, ';');
    if sep == ';' {
      assert Join(hs, [sep]) == hs[0] + [';'] + Join(hs[1..], [sep]);
      assert Join(hs, [sep])[|hs[0]|] == ';';
      assert csv[|hs[0]|] == ';';
    } else {
      JoinChars(hs, [sep]);
      JoinChars(cs, [sep]);
      assert ';' !in Join(hs, [sep]);
      assert ';' !in Join(cs, [sep]);
    }
  }

  /** The DTO a data line produces, `None` when its number cell is empty. */
  function CsvDto(headers: seq<string>, sep: char, line: string): (r: Option<Dto>)
  {
    var cols := TrimAll(SplitOn(line, sep));
    var numero := Take(headers, cols, "numero");
    if numero == "" then None
    else
      var situacao := Take(headers, cols, "situacao");
      Some(Dto(
        Str(numero),
        Str(Take(headers, cols, "classe")),
        Str(Take(headers, cols, "assunto")),
        Str(Take(headers, cols, "foro")),
        Str(Take(headers, cols, "vara")),
        Str(Take(headers, cols, "instancia")),
        Str(if situacao == "" then "em andamento" else situacao),
        ParseParties(Str(Take(headers, cols, "polo_ativo"))),
        ParseParties(Str(Take(headers, cols, "polo_passivo"))),
        Str("csv")))
  }

  /** A line without a number yields no DTO; any other DTO carries its
      trimmed number, a non-empty situation and the origin "csv". */
  lemma CsvDtoSpec(headers: seq<string>, sep: char, line: string)
    ensures var cols := TrimAll(SplitOn(line, sep));
      CsvDto(headers, sep, line).None? <==> Take(headers, cols, "numero") == ""
    ensures CsvDto(headers, sep, line).Some? ==>
      var d := CsvDto(headers, sep, line).value;
      && d.numero.Str? && d.numero.s != "" && IsTrimmed(d.numero.s)
      && Truthy(d.situacao)
      && d.origem == Str("csv")
  {
    var cols := TrimAll(SplitOn(line, sep));
    var numero := Take(headers, cols, "numero");
    if numero != "" {
      var idx := IndexOf(headers, "numero");
      TrimSpec(SplitOn(line, sep)[idx]);
    }
  }

  /** The number of data lines without a number. */
  function MissingNumbers(headers: seq<string>, sep: char, rows: seq<string>): (n: nat)
    ensures n <= |rows|
  {
    if rows == [] then 0
    else
      var last := if CsvDto(headers, sep, rows[|rows| - 1]).None? then 1 else 0;
      MissingNumbers(headers, sep, rows[..|rows| - 1]) + last
  }

  datatype ImportResponse =
    | ImportRejected(error: string)
    | Imported(inseridos: nat, atualizados: nat, erros: nat, total: nat)

  /** `const { csv } = req.body || {}` */
  function CsvField(body: Json): Json {
    Get(Or(body, Obj(map[])), "csv")
  }

  /** The counters of the import loop and the numbers with a row. */
  datatype Tally = Tally(inseridos: nat, atualizados: nat, erros: nat, known: set<Json>)

  /** One data line: an error without a number or when the upsert fails
      (a falsy id or a thrown error), otherwise an update when its number
      already had a row and an insertion when it had none. */
  function ImportLine(t: Tally, headers: seq<string>, sep: char, line: string,
                      upsert: (Dto, set<Json>) -> UpsertAnswer): Tally
  {
    match CsvDto(headers, sep, line)
    case None => t.(erros := t.erros + 1)
    case Some(dto) =>
      var answer := upsert(dto, t.known);
      if Failed(answer) then t.(erros := t.erros + 1)
      else if dto.numero in t.known then t.(atualizados := t.atualizados + 1, known := Apply(t.known, dto, answer))
      else t.(inseridos := t.inseridos + 1, known := Apply(t.known, dto, answer))
  }

  /** The loop over `rows`, from no counts and the table `known`. */
  function ImportAll(headers: seq<string>, sep: char, rows: seq<string>,
                     upsert: (Dto, set<Json>) -> UpsertAnswer, known: set<Json>): Tally
  {
    if rows == [] then Tally(0, 0, 0, known)
    else ImportLine(ImportAll(headers, sep, rows[..|rows| - 1], upsert, known), headers, sep, rows[|rows| - 1], upsert)
  }

  /** Data line `i` reached a successful upsert. */
  predicate LineUpserted(headers: seq<string>, sep: char, rows: seq<string>,
                         upsert: (Dto, set<Json>) -> UpsertAnswer, known: set<Json>, i: int)
    requires 0 <= i < |rows|
  {
    var before := ImportAll(headers, sep, rows[..i], upsert, known);
    var dto := CsvDto(headers, sep, rows[i]);
    dto.Some? && !Failed(upsert(dto.value, before.known))
  }

  /** Every line counts once, as an insertion, an update or an error; a
      line without a number is an error; and the table grows by exactly
      the insertions. */
  lemma {:induction false} ImportAllCounts(headers: seq<string>, sep: char, rows: seq<string>,
                                           upsert: (Dto, set<Json>) -> UpsertAnswer, known: set<Json>)
    ensures var t := ImportAll(headers, sep, rows, upsert, known);
      && t.inseridos + t.atualizados + t.erros == |rows|
      && t.erros >= MissingNumbers(headers, sep, rows)
      && known <= t.known
      && |t.known| == |known| + t.inseridos
  {
    if rows != [] {
      var prev := ImportAll(headers, sep, rows[..|rows| - 1], upsert, known);
      ImportAllCounts(headers, sep, rows[..|rows| - 1], upsert, known);
      var dto := CsvDto(headers, sep, rows[|rows| - 1]);
      if dto.Some? {
        ApplyCount(prev.known, dto.value, upsert(dto.value, prev.known));
      }
    }
  }

  lemma LineUpsertedPrefix(headers: seq<string>, sep: char, rows: seq<string>,
                           upsert: (Dto, set<Json>) -> UpsertAnswer, known: set<Json>, i: int)
    requires 0 <= i < |rows| - 1
    ensures LineUpserted(headers, sep, rows, upsert, known, i) == LineUpserted(headers, sep, rows[..|rows| - 1], upsert, known, i)
  {
    assert rows[..i] == rows[..|rows| - 1][..i];
  }

  /** Once a line's upsert succeeded its number keeps its row. */
  lemma {:induction false} ImportKeepsUpserted(headers: seq<string>, sep: char, rows: seq<string>,
                                               upsert: (Dto, set<Json>) -> UpsertAnswer, known: set<Json>)
    ensures forall i :: 0 <= i < |rows| && LineUpserted(headers, sep, rows, upsert, known, i) ==>
      CsvDto(headers, sep, rows[i]).value.numero in ImportAll(headers, sep, rows, upsert, known).known
  {
    if rows != [] {
      var n := |rows| - 1;
      ImportKeepsUpserted(headers, sep, rows[..n], upsert, known);
      var prev := ImportAll(headers, sep, rows[..n], upsert, known);
      var t := ImportAll(headers, sep, rows, upsert, known);
      assert prev.known <= t.known;
      forall i | 0 <= i < |rows| && LineUpserted(headers, sep, rows, upsert, known, i)
        ensures CsvDto(headers, sep, rows[i]).value.numero in t.known
      {
        if i < n {
          LineUpsertedPrefix(headers, sep, rows, upsert, known, i);
          assert rows[..n][i] == rows[i];
        } else {
          assert rows[..i] == rows[..n];
        }
      }
    }
  }

  /** Every number that gained a row came from a line whose upsert succeeded. */
  lemma {:induction false} ImportOnlyUpserted(headers: seq<string>, sep: char, rows: seq<string>,
                                              upsert: (Dto, set<Json>) -> UpsertAnswer, known: set<Json>)
    ensures forall x :: x in ImportAll(headers, sep, rows, upsert, known).known && x !in known ==>
      exists i :: (0 <= i < |rows| && LineUpserted(headers, sep, rows, upsert, known, i)
        && CsvDto(headers, sep, rows[i]).value.numero == x)
  {
    if rows != [] {
      var n := |rows| - 1;
      var init := rows[..n];
      ImportOnlyUpserted(headers, sep, init, upsert, known);
      var prev := ImportAll(headers, sep, init, upsert, known);
      var t := ImportAll(headers, sep, rows, upsert, known);
      forall x | x in t.known && x !in known
        ensures exists i :: (0 <= i < |rows| && LineUpserted(headers, sep, rows, upsert, known, i)
          && CsvDto(headers, sep, rows[i]).value.numero == x)
      {
        if x in prev.known {
          var i :| 0 <= i < |init| && LineUpserted(headers, sep, init, upsert, known, i)
            && CsvDto(headers, sep, init[i]).value.numero == x;
          LineUpsertedPrefix(headers, sep, rows, upsert, known, i);
          assert init[i] == rows[i];
        } else {
          assert rows[..n] == init;
          assert LineUpserted(headers, sep, rows, upsert, known, n);
        }
      }
    }
  }

  /** The numbers with a row afterwards are the ones there before plus
      exactly the numbers of the lines whose upsert succeeded. */
  lemma ImportAllKnown(headers: seq<string>, sep: char, rows: seq<string>,
                       upsert: (Dto, set<Json>) -> UpsertAnswer, known: set<Json>, x: Json)
    ensures x in ImportAll(headers, sep, rows, upsert, known).known <==>
      x in known || exists i :: (0 <= i < |rows| && LineUpserted(headers, sep, rows, upsert, known, i)
        && CsvDto(headers, sep, rows[i]).value.numero == x)
  {
    ImportKeepsUpserted(headers, sep, rows, upsert, known);
    ImportOnlyUpserted(headers, sep, rows, upsert, known);
    ImportAllCounts(headers, sep, rows, upsert, known);
  }

  lemma ImportAllSnoc(headers: seq<string>, sep: char, rows: seq<string>,
                      upsert: (Dto, set<Json>) -> UpsertAnswer, known: set<Json>, i: int)
    requires 0 <= i < |rows|
    ensures ImportAll(headers, sep, rows[..i + 1], upsert, known)
      == ImportLine(ImportAll(headers, sep, rows[..i], upsert, known), headers, sep, rows[i], upsert)
  {
    assert rows[..i + 1][..i] == rows[..i];
  }

  /** The loop over the data lines: its counters and table are the ones
      `ImportAll` describes, so `ImportAllCounts` and `ImportAllKnown`
      hold of them. */
  method ImportRows(headers: seq<string>, sep: char, rows: seq<string>,
                    upsert: (Dto, set<Json>) -> UpsertAnswer, known: set<Json>)
    returns (inseridos: nat, atualizados: nat, erros: nat, after: set<Json>)
    ensures Tally(inseridos, atualizados, erros, after) == ImportAll(headers, sep, rows, upsert, known)
  {
    inseridos, atualizados, erros := 0, 0, 0;
    after := known;
    for i := 0 to |rows|
      invariant Tally(inseridos, atualizados, erros, after) == ImportAll(headers, sep, rows[..i], upsert, known)
    {
      ImportAllSnoc(headers, sep, rows, upsert, known, i);
      var dto := CsvDto(headers, sep, rows[i]);
      if dto.None? {
        erros := erros + 1;
      } else {
        var before := dto.value.numero in after;
        var answer := upsert(dto.value, after);
        if Failed(answer) {
          erros := erros + 1;
        } else {
          after := Apply(after, dto.value, answer);
          if before {
            atualizados := atualizados + 1;
          } else {
            inseridos := inseridos + 1;
          }
        }
      }
    }
    assert rows[..|rows|] == rows;
  }

  /** POST `/processes/import`. */
  method ImportCsv(body: Json, upsert: (Dto, set<Json>) -> UpsertAnswer, known: set<Json>)
    returns (resp: ImportResponse, after: set<Json>)
    ensures resp.ImportRejected? <==> !(Truthy(CsvField(body)) && CsvField(body).Str?)
    ensures resp.ImportRejected? ==> resp.error == "Envie 'csv' (texto) no body." && after == known
    ensures resp.Imported? ==> CsvField(body).Str?
    ensures resp.Imported? ==>
      var csv := CsvField(body).s;
      var lines := Lines(csv);
      && resp.total == (if lines == [] then 0 else |lines| - 1)
      && resp.inseridos + resp.atualizados + resp.erros == resp.total
      && (lines == [] ==> after == known)
      && (lines != [] ==> resp.erros >= MissingNumbers(Headers(lines[0], Separator(csv)), Separator(csv), lines[1..]))
      && known <= after
      && |after| == |known| + resp.inseridos
      && (lines != [] ==>
            var headers := Headers(lines[0], Separator(csv));
            Tally(resp.inseridos, resp.atualizados, resp.erros, after)
              == ImportAll(headers, Separator(csv), lines[1..], upsert, known))
  {
    var csv := CsvField(body);
    if !(Truthy(csv) && csv.Str?) {
      return ImportRejected("Envie 'csv' (texto) no body."), known;
    }
    var sep := Separator(csv.s);
    var lines := Lines(csv.s);
    if lines == [] {
      return Imported(0, 0, 0, 0), known;
    }
    var inseridos, atualizados, erros;
    inseridos, atualizados, erros, after := ImportRows(Headers(lines[0], sep), sep, lines[1..], upsert, known);
    ImportAllCounts(Headers(lines[0], sep), sep, lines[1..], upsert, known);
    resp := Imported(inseridos, atualizados, erros, |lines| - 1);
  }
}
