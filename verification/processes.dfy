/**
  The Datajud ingestion service: `mapDatajudSource` turns one `_source`
  document of the Datajud public API into the service's own record, and
  `upsertProcessFromDatajud` writes that record into the `processes` table,
  inserting a row for a new number and merging column by column (SQL
  `COALESCE`) into the row that already has it.
 */
module Processes {
  import opened Js
  import opened CnjNumber
  import CnjFormatters

  // ---------------------------------------------------------------------
  // mapDatajudSource

  /** The record `mapDatajudSource` returns. Every optional field is either
      `null` or a truthy value (the `x || y || null` chains). */
  datatype Mapped = Mapped(
    numero: string,
    tribunal: Json,
    grau: Json,
    classeCodigo: Json,
    classeNome: Json,
    orgaoCodigo: Json,
    orgaoNome: Json,
    dataAjuizamento: Json,
    nivelSigilo: Json,
    assunto: Json,
    eventos: seq<Json>)

  /** `a || b || null` */
  function OrNull(a: Json, b: Json): (r: Json)
    ensures r.Null? || Truthy(r)
    ensures Truthy(a) ==> r == a
    ensures !Truthy(a) && Truthy(b) ==> r == b
  {
    Or(Or(a, b), Null)
  }

  /** The value handed to `normalizeCNJ`: `src.numeroProcesso || src.numero`. */
  function NumeroSource(src: Json): Json {
    Or(Get(src, "numeroProcesso"), Get(src, "numero"))
  }

  /** `normalizeCNJ` calls `s.replace`, which only a string has: a truthy
      value of any other type throws. */
  predicate NumeroThrows(src: Json) {
    Truthy(NumeroSource(src)) && !NumeroSource(src).Str?
  }

  /** `src.assuntos.map((a) => a.nome)` throws on a `null`/`undefined` item. */
  predicate AssuntosThrow(src: Json) {
    var a := Get(src, "assuntos");
    a.Arr? && exists i :: 0 <= i < |a.items| && (a.items[i].Undefined? || a.items[i].Null?)
  }

  /** `a.nome` of each subject, as `map` collects them. */
  function SubjectNames(items: seq<Json>): (r: seq<Json>)
    ensures |r| == |items|
    ensures forall i :: 0 <= i < |items| ==> r[i] == Get(items[i], "nome")
  {
    seq(|items|, i requires 0 <= i < |items| => Get(items[i], "nome"))
  }

  /** The `assunto` field: the subject names joined by " | " when
      `assuntos` is an array, else `src.assunto || null`. */
  function AssuntoOf(src: Json): Json {
    var a := Get(src, "assuntos");
    if a.Arr? then
      var names := SubjectNames(a.items);
      Str(JoinJson(names, " | ", Arr(names)))
    else OrNull(Get(src, "assunto"), Null)
  }

  /** `mapDatajudSource(src)`; `Err` where the JavaScript throws a `TypeError`. */
  function MapDatajudSource(src: Json): (r: Result<Mapped>)
    ensures r.Err? <==> src.Undefined? || src.Null? || NumeroThrows(src) || AssuntosThrow(src)
    ensures r.Ok? ==> r.value.eventos == (if Get(src, "movimentos").Arr? then Get(src, "movimentos").items else [])
  {
    if src.Undefined? || src.Null? || NumeroThrows(src) || AssuntosThrow(src) then Err("TypeError")
    else
      var numero := NumeroSource(src);
      var tribunal := Get(src, "tribunal");
      var classe := Get(src, "classe");
      var orgao := Get(src, "orgaoJulgador");
      var movimentos := Get(src, "movimentos");
      Ok(Mapped(
        numero := if Truthy(numero) then CnjFormatters.NormalizeCnjDatajud(numero.s) else "",
        tribunal := OrNull(Get(tribunal, "sigla"), tribunal),
        grau := OrNull(Get(src, "grau"), Get(src, "instancia")),
        classeCodigo := OrNull(Get(classe, "codigo"), Get(src, "codigoClasse")),
        classeNome := OrNull(Get(classe, "nome"), Get(src, "classeProcessual")),
        orgaoCodigo := OrNull(Get(orgao, "codigo"), Null),
        orgaoNome := OrNull(Get(orgao, "nome"), Null),
        dataAjuizamento := OrNull(Get(src, "dataAjuizamento"), Get(src, "dataDistribuicao")),
        nivelSigilo := OrNull(Get(src, "nivelSigilo"), Null),
        assunto := AssuntoOf(src),
        eventos := if movimentos.Arr? then movimentos.items else []))
  }

  /** The number is laid out per Art. 1 of CNJ Resolution 65/2008 exactly
      when the document carries 20 digits, keeps those digits either way,
      and is empty only when the document has no usable number. */
  lemma MappedNumero(src: Json)
    requires MapDatajudSource(src).Ok?
    ensures var m := MapDatajudSource(src).value;
      var n := NumeroSource(src);
      && (m.numero == "" <==> !Truthy(n) || Digits(n.s) == "")
      && (Truthy(n) ==> Digits(m.numero) == Digits(n.s))
      && (Truthy(n) && |Digits(n.s)| == 20 ==> IsFormatted(m.numero))
  {
    var n := NumeroSource(src);
    if Truthy(n) {
      CnjFormatters.NormalizeCnjDatajudKeepsDigits(n.s);
      var m := MapDatajudSource(src).value;
      if |Digits(n.s)| == 20 {
        assert |m.numero| == 25;
      }
    }
  }

  /** No optional field of the record is a falsy value other than `null`,
      and the number falls back from `numeroProcesso` to `numero`. */
  lemma MappedFieldsNullOrTruthy(src: Json)
    requires MapDatajudSource(src).Ok?
    ensures var m := MapDatajudSource(src).value;
      && (m.tribunal.Null? || Truthy(m.tribunal))
      && (m.grau.Null? || Truthy(m.grau))
      && (m.classeCodigo.Null? || Truthy(m.classeCodigo))
      && (m.classeNome.Null? || Truthy(m.classeNome))
      && (m.orgaoCodigo.Null? || Truthy(m.orgaoCodigo))
      && (m.orgaoNome.Null? || Truthy(m.orgaoNome))
      && (m.dataAjuizamento.Null? || Truthy(m.dataAjuizamento))
      && (m.nivelSigilo.Null? || Truthy(m.nivelSigilo))
      && (!Get(src, "assuntos").Arr? ==> m.assunto.Null? || Truthy(m.assunto))
      && (Truthy(Get(src, "numeroProcesso")) ==> NumeroSource(src) == Get(src, "numeroProcesso"))
  {
  }

  // ---------------------------------------------------------------------
  // normalizeText

  /** `normalizeText(value)`: `String(value).trim()`, with `null` for
      `null`, `undefined` and blank text. */
  function NormalizeText(value: Json): (r: Option<string>)
    ensures value.Undefined? || value.Null? ==> r.None?
    ensures r.Some? ==> r.value != "" && IsTrimmed(r.value)
  {
    if value.Undefined? || value.Null? then None
    else
      var text := Trim(JsString(value));
      TrimSpec(JsString(value));
      if text == "" then None else Some(text)
  }

  /** A normalised text is its own normalisation, and a value is dropped
      exactly when it is absent or blank. */
  lemma NormalizeTextSpec(value: Json)
    ensures NormalizeText(value).None? <==> value.Undefined? || value.Null? || IsBlank(JsString(value))
    ensures NormalizeText(value).Some? ==> NormalizeText(Str(NormalizeText(value).value)) == NormalizeText(value)
  {
    if NormalizeText(value).Some? {
      var t := Trim(JsString(value));
      assert NormalizeText(value).value == t;
      assert JsString(Str(t)) == t;
      TrimIdempotent(JsString(value));
    }
  }

  // ---------------------------------------------------------------------
  // upsertProcessFromDatajud

  /** The text columns the upsert writes and merges with `COALESCE`. */
  const Columns: seq<string> := [
    "titulo", "classe", "classeCodigo", "classeNome", "assunto", "subject",
    "situacao", "situation", "status", "tribunal", "grau", "orgaoCodigo",
    "orgaoNome", "court", "jurisdiction", "area", "data_distribuicao",
    "dataAjuizamento", "nivelSigilo"]

  /** A row of `processes`, restricted to the columns the upsert touches. */
  datatype ProcessRow = ProcessRow(
    id: nat,
    cnj: Option<string>,
    cnjNumber: Option<string>,
    cols: map<string, Option<string>>,
    fonte: Option<string>,
    origin: Option<string>,
    createdAt: Option<string>,
    updatedAt: Option<string>,
    lastSeenAt: Option<int>)

  /** `x || y` on two normalised texts. */
  function OrElse(a: Option<string>, b: Option<string>): Option<string> {
    if a.Some? then a else b
  }

  /** The statement parameter for column `c`. */
  function Param(m: Mapped, c: string): (r: Option<string>)
    ensures r.None? || (r.value != "" && IsTrimmed(r.value))
  {
    if c == "titulo" then OrElse(NormalizeText(m.assunto), NormalizeText(m.classeNome))
    else if c == "classe" || c == "classeNome" || c == "area" then NormalizeText(m.classeNome)
    else if c == "classeCodigo" then NormalizeText(m.classeCodigo)
    else if c == "assunto" || c == "subject" then NormalizeText(m.assunto)
    else if c == "situacao" || c == "situation" then Some("Em andamento")
    else if c == "status" then Some("ativo")
    else if c == "tribunal" || c == "jurisdiction" then NormalizeText(m.tribunal)
    else if c == "grau" then NormalizeText(m.grau)
    else if c == "orgaoCodigo" then NormalizeText(m.orgaoCodigo)
    else if c == "orgaoNome" || c == "court" then NormalizeText(m.orgaoNome)
    else if c == "data_distribuicao" || c == "dataAjuizamento" then NormalizeText(m.dataAjuizamento)
    else if c == "nivelSigilo" then NormalizeText(m.nivelSigilo)
    else None
  }

  /** The statement parameters, column by column. */
  function Params(m: Mapped): (p: map<string, Option<string>>)
    ensures forall c :: c in p <==> c in Columns
    ensures forall c :: c in p ==> p[c] == Param(m, c)
  {
    map c | c in Columns :: Param(m, c)
  }

  /** `WHERE cnj = ? OR cnj_number = ?` */
  predicate HasNumero(row: ProcessRow, numero: string) {
    row.cnj == Some(numero) || row.cnjNumber == Some(numero)
  }

  /** `SELECT id ... LIMIT 1`: the first row carrying the number. */
  function FindExisting(table: seq<ProcessRow>, numero: string): (r: Option<nat>)
    ensures r.Some? ==> r.value < |table| && HasNumero(table[r.value], numero)
    ensures r.Some? ==> forall k :: 0 <= k < r.value ==> !HasNumero(table[k], numero)
    ensures r.None? <==> forall k :: 0 <= k < |table| ==> !HasNumero(table[k], numero)
  {
    if table == [] then None
    else if HasNumero(table[0], numero) then Some(0)
    else
      var rest := FindExisting(table[1..], numero);
      if rest.Some? then Some(rest.value + 1) else None
  }

  /** `COALESCE(@c, c)` for every column. */
  function Merge(prior: map<string, Option<string>>, params: map<string, Option<string>>): (r: map<string, Option<string>>)
  {
    map c | c in params :: if params[c].Some? || c !in prior then params[c] else prior[c]
  }

  /** The merge never forgets a value the row had, and takes every value
      the document provides. */
  lemma MergeSpec(prior: map<string, Option<string>>, params: map<string, Option<string>>, c: string)
    requires c in params
    ensures c in Merge(prior, params)
    ensures params[c].Some? ==> Merge(prior, params)[c] == params[c]
    ensures params[c].None? && c in prior ==> Merge(prior, params)[c] == prior[c]
    ensures c in prior && prior[c].Some? ==> Merge(prior, params)[c].Some?
  {
  }

  /** The row the `INSERT` creates. */
  function Inserted(id: nat, m: Mapped, nowIso: string, nowMs: int): ProcessRow {
    ProcessRow(id, Some(m.numero), Some(m.numero), Params(m), Some("datajud"), Some("datajud"),
               Some(nowIso), Some(nowIso), Some(nowMs))
  }

  /** The row the `UPDATE` leaves: `fonte` is overwritten, `origin` only
      filled in when it was `null`, `created_at` kept. */
  function Updated(row: ProcessRow, m: Mapped, nowIso: string, nowMs: int): ProcessRow {
    row.(cnj := Some(m.numero), cnjNumber := Some(m.numero),
         cols := Merge(row.cols, Params(m)), fonte := Some("datajud"),
         origin := if row.origin.Some? then row.origin else Some("datajud"),
         updatedAt := Some(nowIso), lastSeenAt := Some(nowMs))
  }

  /** `upsertProcessFromDatajud(mapped)`. `mapped` is `None` for a missing
      record; the clock readings and the next row id are parameters. */
  method UpsertProcessFromDatajud(table: seq<ProcessRow>, mapped: Option<Mapped>, nowIso: string, nowMs: int, nextId: nat)
    returns (id: Option<nat>, result: seq<ProcessRow>)
    ensures mapped.None? || mapped.value.numero == "" ==> id.None? && result == table
    ensures mapped.Some? && mapped.value.numero != "" && FindExisting(table, mapped.value.numero).None? ==>
      id == Some(nextId) && result == table + [Inserted(nextId, mapped.value, nowIso, nowMs)]
    ensures mapped.Some? && mapped.value.numero != "" && FindExisting(table, mapped.value.numero).Some? ==>
      var e := FindExisting(table, mapped.value.numero).value;
      && id == Some(table[e].id)
      && |result| == |table|
      && result[e] == Updated(table[e], mapped.value, nowIso, nowMs)
      && (forall k :: 0 <= k < |table| && k != e ==> result[k] == table[k])
    ensures id.Some? ==> FindExisting(result, mapped.value.numero).Some?
  {
    if mapped.None? || mapped.value.numero == "" {
      return None, table;
    }
    var m := mapped.value;
    var existing := FindExisting(table, m.numero);
    if existing.None? {
      result := table + [Inserted(nextId, m, nowIso, nowMs)];
      id := Some(nextId);
      assert HasNumero(result[|table|], m.numero);
    } else {
      var e := existing.value;
      result := table[e := Updated(table[e], m, nowIso, nowMs)];
      id := Some(table[e].id);
      assert HasNumero(result[e], m.numero);
    }
  }

  /** After an upsert the row the number now resolves to carries every
      value the document supplied, still has every value it had before,
      and keeps an `origin` that was already set. */
  lemma UpsertKeepsAndTakes(table: seq<ProcessRow>, m: Mapped, nowIso: string, nowMs: int, c: string)
    requires m.numero != ""
    requires FindExisting(table, m.numero).Some?
    requires c in Columns
    ensures var e := FindExisting(table, m.numero).value;
      var row := Updated(table[e], m, nowIso, nowMs);
      && HasNumero(row, m.numero)
      && c in row.cols
      && (Params(m)[c].Some? ==> row.cols[c] == Params(m)[c])
      && (c in table[e].cols && table[e].cols[c].Some? ==> row.cols[c].Some?)
      && (table[e].origin.Some? ==> row.origin == table[e].origin)
      && row.fonte == Some("datajud")
  {
    var e := FindExisting(table, m.numero).value;
    MergeSpec(table[e].cols, Params(m), c);
  }
}
