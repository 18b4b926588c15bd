/**
  The automatic case discovery: the first case number a search result
  mentions, the court, class and subject guessed from its text, one entry
  per number, and the upsert into the case table, which is kept in row
  order so that "the first row with this number" means what the database
  returns first.
 */
module CasesSync {
  import opened Js
  import opened CnjNumber
  import TavilyClient
  import ProcessSync

  /** `SEARCH_QUERIES` */
  const SearchQueries: seq<string> := [
    "\"Guilherme Martins Lopes\" OABGO 76350",
    "\"Larissa Moura Dos Santos\" OABGO 74180",
    "\"Moura Martins Advogados\" OABGO 8344"]

  // ---------------------------------------------------------------------
  // extractCnj

  /** A text `CNJ_REGEX` matches as a whole: the unified layout, whose first
      group may also have only six digits. */
  predicate IsCnjText(w: string) {
    IsFormatted(w) || (|w| == 24 && IsFormatted("0" + w))
  }

  /** The length of the match of `CNJ_REGEX` at `j`: `\d{6,7}` is greedy, so
      seven digits are tried before six. */
  function PatternAt(s: string, j: nat): (k: nat)
    ensures k == 0 || k == 24 || k == 25
    ensures k > 0 ==> j + k <= |s| && IsCnjText(s[j..j + k])
  {
    if j + 25 <= |s| && IsFormatted(s[j..j + 25]) then 25
    else if j + 24 <= |s| && IsCnjText(s[j..j + 24]) then 24
    else 0
  }

  /** The leftmost match from `i` on. */
  function FirstPatternFrom(s: string, i: nat): (r: Option<nat>)
    ensures r.Some? ==> i <= r.value && PatternAt(s, r.value) > 0
    ensures forall j: nat :: i <= j && (r.None? || j < r.value) ==> PatternAt(s, j) == 0
    decreases |s| - i
  {
    if i + 24 > |s| then None
    else if PatternAt(s, i) > 0 then Some(i)
    else FirstPatternFrom(s, i + 1)
  }

  predicate MatchAt(s: string, j: nat, w: string) {
    j + |w| <= |s| && s[j..j + |w|] == w && PatternAt(s, j) == |w|
  }

  predicate NoMatchBefore(s: string, j: nat) {
    forall i: nat :: i < j ==> PatternAt(s, i) == 0
  }

  /** `extractCnj(text)`: the leftmost match, nothing for an empty text. */
  function ExtractCnj(text: Option<string>): (r: Option<string>)
    ensures r.Some? ==> IsCnjText(r.value) && TavilyClient.Given(text)
    ensures r.Some? ==> exists j: nat :: MatchAt(text.value, j, r.value) && NoMatchBefore(text.value, j)
    ensures TavilyClient.Given(text) && r.None? ==> forall j: nat :: PatternAt(text.value, j) == 0
  {
    if !TavilyClient.Given(text) then None
    else
      match FirstPatternFrom(text.value, 0)
      case None => None
      case Some(j) =>
        var w := text.value[j..j + PatternAt(text.value, j)];
        assert MatchAt(text.value, j, w);
        Some(w)
  }

  /** A match has 20 digits exactly when its first group has seven. */
  lemma MatchDigits(w: string)
    requires IsCnjText(w)
    ensures |Digits(w)| == 20 <==> |w| == 25
  {
    var zeros := "00000000000000000000";
    assert AllDigits(zeros);
    if |w| == 25 {
      FormatRoundTrip(zeros, w);
    } else {
      FormatRoundTrip(zeros, "0" + w);
      assert ("0" + w)[1..] == w;
      assert Digits("0" + w) == "0" + Digits(w);
      assert |Digits(w)| == 19;
    }
  }

  // ---------------------------------------------------------------------
  // inferMetaFromResult

  datatype CaseMeta = CaseMeta(tribunal: Option<string>, classe: Option<string>, assunto: Option<string>, url: Option<string>)

  function TextOf(s: Option<string>): string {
    if s.Some? then s.value else ""
  }

  function NullIfEmpty(s: string): Option<string> {
    if s == "" then None else Some(s)
  }

  predicate TjgoHint(item: TavilyClient.ResultItem) {
    Contains(TextOf(item.url), "tjgo.jus.br") || Contains(TextOf(item.title), "TJGO")
  }

  predicate StjHint(item: TavilyClient.ResultItem) {
    Contains(TextOf(item.url), "stj.jus.br") || Contains(TextOf(item.title), "STJ")
  }

  predicate TstHint(item: TavilyClient.ResultItem) {
    Contains(TextOf(item.url), "tst.jus.br") || Contains(TextOf(item.title), "TST")
  }

  predicate TrfHint(item: TavilyClient.ResultItem) {
    Contains(TextOf(item.url), "trf") || Contains(TextOf(item.title), "TRF")
  }

  /** `${title} ${content}`, upper-cased. */
  function TextoBase(item: TavilyClient.ResultItem): string {
    ToUpper(TextOf(item.title) + " " + TextOf(item.content))
  }

  /** The guess of `inferMetaFromResult`, read as priorities: TRF over TST
      over STJ over TJGO for the court, and the first class in the list. */
  function MetaOf(item: TavilyClient.ResultItem): CaseMeta {
    var tribunal :=
      if TrfHint(item) then Some("TRF")
      else if TstHint(item) then Some("TST")
      else if StjHint(item) then Some("STJ")
      else if TjgoHint(item) then Some("TJGO")
      else None;
    var texto := TextoBase(item);
    var classe :=
      if Contains(texto, "MANDADO DE SEGURANÇA") then Some("Mandado de Segurança")
      else if Contains(texto, "APELAÇÃO") then Some("Apelação")
      else if Contains(texto, "AGRAVO") then Some("Agravo")
      else None;
    CaseMeta(tribunal, classe, NullIfEmpty(TextOf(item.title)), NullIfEmpty(TextOf(item.url)))
  }

  /** The guess read as priorities: later court tests override earlier
      ones, the class follows the order of its tests, and `assunto` and
      `url` are the title and the URL, or null when empty. */
  lemma MetaOfPriorities(item: TavilyClient.ResultItem)
    ensures TrfHint(item) ==> MetaOf(item).tribunal == Some("TRF")
    ensures !TrfHint(item) && TstHint(item) ==> MetaOf(item).tribunal == Some("TST")
    ensures !TrfHint(item) && !TstHint(item) && StjHint(item) ==> MetaOf(item).tribunal == Some("STJ")
    ensures !TrfHint(item) && !TstHint(item) && !StjHint(item) ==> MetaOf(item).tribunal == (if TjgoHint(item) then Some("TJGO") else None)
    ensures Contains(TextoBase(item), "MANDADO DE SEGURANÇA") ==> MetaOf(item).classe == Some("Mandado de Segurança")
    ensures !Contains(TextoBase(item), "MANDADO DE SEGURANÇA") && Contains(TextoBase(item), "APELAÇÃO") ==> MetaOf(item).classe == Some("Apelação")
    ensures !Contains(TextoBase(item), "MANDADO DE SEGURANÇA") && !Contains(TextoBase(item), "APELAÇÃO") ==>
      MetaOf(item).classe == (if Contains(TextoBase(item), "AGRAVO") then Some("Agravo") else None)
    ensures MetaOf(item).assunto == NullIfEmpty(TextOf(item.title))
    ensures MetaOf(item).url == NullIfEmpty(TextOf(item.url))
  {
  }

  /** `inferMetaFromResult(result)`: every court test runs, the last that
      holds wins; the first class that appears wins. */
  method InferMetaFromResult(item: TavilyClient.ResultItem) returns (meta: CaseMeta)
    ensures meta == MetaOf(item)
  {
    var url := TextOf(item.url);
    var title := TextOf(item.title);
    var content := TextOf(item.content);
    var tribunal := "";
    if Contains(url, "tjgo.jus.br") || Contains(title, "TJGO") {
      tribunal := "TJGO";
    }
    if Contains(url, "stj.jus.br") || Contains(title, "STJ") {
      tribunal := "STJ";
    }
    if Contains(url, "tst.jus.br") || Contains(title, "TST") {
      tribunal := "TST";
    }
    if Contains(url, "trf") || Contains(title, "TRF") {
      tribunal := "TRF";
    }
    var textoBase := ToUpper(title + " " + content);
    var classe := "";
    if Contains(textoBase, "MANDADO DE SEGURANÇA") {
      classe := "Mandado de Segurança";
    } else if Contains(textoBase, "APELAÇÃO") {
      classe := "Apelação";
    } else if Contains(textoBase, "AGRAVO") {
      classe := "Agravo";
    }
    meta := CaseMeta(NullIfEmpty(tribunal), NullIfEmpty(classe), NullIfEmpty(title), NullIfEmpty(url));
  }

  // ---------------------------------------------------------------------
  // The byCnj map

  /** `[title, content, url].filter(Boolean).join(" ")` */
  function SearchText(item: TavilyClient.ResultItem): string {
    Join(FilterMap(TavilyClient.GivenText, [item.title, item.content, item.url]), " ")
  }

  /** The entry a result contributes: its first match, normalised, when that
      has 20 digits. */
  function CandidateOf(item: TavilyClient.ResultItem): Option<(string, TavilyClient.ResultItem)> {
    match ExtractCnj(if SearchText(item) == "" then None else Some(SearchText(item)))
    case None => None
    case Some(raw) =>
      var normalized := ProcessSync.NormalizarCnj(raw);
      if normalized == "" || |normalized| != 20 then None else Some((normalized, item))
  }

  function CnjKey(entry: (string, TavilyClient.ResultItem)): string {
    entry.0
  }

  /** The entries of `byCnj`, in insertion order. */
  function ByCnj(results: seq<TavilyClient.ResultItem>): seq<(string, TavilyClient.ResultItem)> {
    TavilyClient.KeepFirst(FilterMap(CandidateOf, results), CnjKey)
  }

  /** One entry per number, each number of 20 digits, each with the first
      result that yields it, and no yielded number missing. */
  lemma ByCnjSpec(results: seq<TavilyClient.ResultItem>)
    ensures var m := ByCnj(results);
      && Distinct(TavilyClient.KeysOf(m, CnjKey))
      && (forall e :: e in m ==> |e.0| == 20 && AllDigits(e.0) && CandidateOf(e.1) == Some(e))
      && (forall r :: r in results && CandidateOf(r).Some? ==> CandidateOf(r).value.0 in TavilyClient.KeysOf(m, CnjKey))
  {
    var candidates := FilterMap(CandidateOf, results);
    TavilyClient.KeepFirstSpec(candidates, CnjKey);
    FilterMapMembers(CandidateOf, results);
    forall e | e in ByCnj(results) ensures |e.0| == 20 && AllDigits(e.0) && CandidateOf(e.1) == Some(e) {
      var i :| TavilyClient.FirstOfKey(candidates, CnjKey, i) && candidates[i] == e;
      assert e in candidates;
      var r :| r in results && CandidateOf(r) == Some(e);
    }
    forall r | r in results && CandidateOf(r).Some? ensures CandidateOf(r).value.0 in TavilyClient.KeysOf(ByCnj(results), CnjKey) {
      assert CandidateOf(r).value in candidates;
    }
  }

  lemma ByCnjSnoc(results: seq<TavilyClient.ResultItem>, i: nat)
    requires i < |results|
    ensures var prev := ByCnj(results[..i]);
      ByCnj(results[..i + 1]) ==
        match CandidateOf(results[i])
        case None => prev
        case Some(c) => if c.0 in TavilyClient.KeysOf(prev, CnjKey) then prev else prev + [c]
  {
    var before := FilterMap(CandidateOf, results[..i]);
    FilterMapSnoc(CandidateOf, results, i);
    match CandidateOf(results[i])
    case None =>
      assert FilterMap(CandidateOf, results[..i + 1]) == before;
    case Some(c) =>
      assert FilterMap(CandidateOf, results[..i + 1]) == before + [c];
      TavilyClient.KeepFirstSnoc(before, c, CnjKey);
  }

  /** The loop that fills `byCnj`. */
  method BuildByCnj(results: seq<TavilyClient.ResultItem>) returns (byCnj: seq<(string, TavilyClient.ResultItem)>)
    ensures byCnj == ByCnj(results)
  {
    byCnj := [];
    for i := 0 to |results|
      invariant byCnj == ByCnj(results[..i])
    {
      ByCnjSnoc(results, i);
      var candidate := CandidateOf(results[i]);
      if candidate.None? {
        continue;
      }
      if candidate.value.0 !in TavilyClient.KeysOf(byCnj, CnjKey) {
        byCnj := byCnj + [candidate.value];
      }
    }
    assert results[..|results|] == results;
  }

  // ---------------------------------------------------------------------
  // upsertCase

  /** A row of `cases` as this service sees it. */
  datatype CaseEntry = CaseEntry(
    id: int,
    numero: string,
    tribunal: string,
    orgao: Option<string>,
    classe: Option<string>,
    assunto: Option<string>,
    origem: string,
    url: Option<string>,
    lastSyncAt: Option<string>,
    atualizadoEm: string)

  datatype UpsertRecord = UpsertRecord(
    cnj: string,
    tribunal: Option<string>,
    orgao: Option<string>,
    classe: Option<string>,
    assunto: Option<string>,
    url: Option<string>)

  /** `SELECT ... WHERE numero_cnj = ? LIMIT 1`: the first row with the number. */
  function FirstWithNumero(table: seq<CaseEntry>, numero: string): (r: Option<nat>)
    ensures r.Some? ==> r.value < |table| && table[r.value].numero == numero
  {
    if table == [] then None
    else
      match FirstWithNumero(table[..|table| - 1], numero)
      case Some(k) => Some(k)
      case None => if table[|table| - 1].numero == numero then Some(|table| - 1) else None
  }

  /** The row an `ON CONFLICT(numero_cnj, tribunal)` clause hits. */
  function RowOf(table: seq<CaseEntry>, numero: string, tribunal: string): (r: Option<nat>)
    ensures r.Some? ==> r.value < |table| && table[r.value].numero == numero && table[r.value].tribunal == tribunal
  {
    if table == [] then None
    else
      match RowOf(table[..|table| - 1], numero, tribunal)
      case Some(k) => Some(k)
      case None =>
        var last := table[|table| - 1];
        if last.numero == numero && last.tribunal == tribunal then Some(|table| - 1) else None
  }

  /** No row before the one found has the number. */
  lemma {:induction false} FirstWithNumeroFirst(table: seq<CaseEntry>, numero: string)
    ensures var r := FirstWithNumero(table, numero);
      forall k :: 0 <= k < |table| && (r.None? || k < r.value) ==> table[k].numero != numero
  {
    if table != [] {
      FirstWithNumeroFirst(table[..|table| - 1], numero);
    }
  }

  /** No row before the one hit has the number and court. */
  lemma {:induction false} RowOfFirst(table: seq<CaseEntry>, numero: string, tribunal: string)
    ensures var r := RowOf(table, numero, tribunal);
      forall k :: 0 <= k < |table| && (r.None? || k < r.value) ==> !(table[k].numero == numero && table[k].tribunal == tribunal)
  {
    if table != [] {
      RowOfFirst(table[..|table| - 1], numero, tribunal);
    }
  }

  /** `UNIQUE(numero_cnj, tribunal)` */
  predicate UniqueKeys(table: seq<CaseEntry>) {
    forall i, j :: 0 <= i < j < |table| ==> !(table[i].numero == table[j].numero && table[i].tribunal == table[j].tribunal)
  }

  /** Some row has the number. */
  predicate HasRow(table: seq<CaseEntry>, numero: string) {
    exists k :: 0 <= k < |table| && table[k].numero == numero
  }

  lemma FirstWithNumeroFinds(table: seq<CaseEntry>, numero: string)
    ensures FirstWithNumero(table, numero).Some? <==> HasRow(table, numero)
  {
    FirstWithNumeroFirst(table, numero);
  }

  /** A number `upsertCase` accepts: 20 digits once normalised. */
  predicate ValidNum(n: string) {
    n != "" && |n| == 20
  }

  /** What one upsert of number `n` may do to the table: rows keep their
      numbers, rows of other numbers are untouched, at most one row is
      appended and it has number `n`, and a valid `n` ends up with a row. */
  predicate UpsertEffect(before: seq<CaseEntry>, after: seq<CaseEntry>, n: string) {
    && |before| <= |after| <= |before| + 1
    && (forall k :: 0 <= k < |before| ==> after[k].numero == before[k].numero)
    && (forall k :: 0 <= k < |before| && before[k].numero != n ==> after[k] == before[k])
    && (forall k :: |before| <= k < |after| ==> after[k].numero == n)
    && (ValidNum(n) ==> HasRow(after, n))
  }

  function Coalesce(value: Option<string>, stored: Option<string>): Option<string> {
    if value.Some? then value else stored
  }

  /** What `upsertCase` answers: whether it inserted, or the constraint
      error the court update raises. */
  datatype Upsert = Upsert(created: bool) | UniqueViolation

  predicate ValidNumber(record: UpsertRecord) {
    ValidNum(ProcessSync.NormalizarCnj(record.cnj))
  }

  /** The record asks to move the stored row to another court. */
  predicate CourtChanges(row: CaseEntry, record: UpsertRecord) {
    TavilyClient.Given(record.tribunal) && record.tribunal.value != row.tribunal
  }

  /** The stored row after the court update and the `DO UPDATE` of the
      insert: the given court, the given metadata over the stored one, and
      both instants set to `now`. */
  function Merged(row: CaseEntry, record: UpsertRecord, now: string): CaseEntry {
    row.(
      tribunal := if TavilyClient.Given(record.tribunal) then record.tribunal.value else row.tribunal,
      orgao := Coalesce(record.orgao, row.orgao),
      classe := Coalesce(record.classe, row.classe),
      assunto := Coalesce(record.assunto, row.assunto),
      url := Coalesce(record.url, row.url),
      lastSyncAt := Some(now),
      atualizadoEm := now)
  }

  /** What one `upsertCase` does, row by row: an invalid number changes
      nothing; a new number gets a row of its own; a known number's first
      row takes the record, unless moving it to the record's court would
      clash with another row of that number and court. */
  function UpsertStep(table: seq<CaseEntry>, record: UpsertRecord, now: string, nextId: int): (Upsert, seq<CaseEntry>) {
    var n := ProcessSync.NormalizarCnj(record.cnj);
    if !ValidNum(n) then (Upsert(false), table)
    else
      match FirstWithNumero(table, n)
      case None =>
        (Upsert(true), table + [CaseEntry(nextId, n, if record.tribunal.Some? then record.tribunal.value else "DESCONHECIDO",
          record.orgao, record.classe, record.assunto, "automatico", record.url, Some(now), now)])
      case Some(e) =>
        if CourtChanges(table[e], record) && RowOf(table, n, record.tribunal.value).Some? then (UniqueViolation, table)
        else (Upsert(false), table[e := Merged(table[e], record, now)])
  }

  /** A step that does not clash keeps `UNIQUE(numero_cnj, tribunal)`, and
      touches only rows of the record's number. */
  lemma UpsertStepKeeps(table: seq<CaseEntry>, record: UpsertRecord, now: string, nextId: int)
    ensures var (outcome, result) := UpsertStep(table, record, now, nextId);
      && (outcome.Upsert? && UniqueKeys(table) ==> UniqueKeys(result))
      && (outcome.Upsert? ==> UpsertEffect(table, result, ProcessSync.NormalizarCnj(record.cnj)))
  {
    var n := ProcessSync.NormalizarCnj(record.cnj);
    var (outcome, result) := UpsertStep(table, record, now, nextId);
    FirstWithNumeroFirst(table, n);
    if record.tribunal.Some? {
      RowOfFirst(table, n, record.tribunal.value);
    }
    if ValidNum(n) && outcome.Upsert? {
      match FirstWithNumero(table, n)
      case None =>
        assert result[|table|].numero == n;
      case Some(e) =>
        assert result[e].numero == n;
        if UniqueKeys(table) {
          forall i, j | 0 <= i < j < |result|
            ensures !(result[i].numero == result[j].numero && result[i].tribunal == result[j].tribunal)
          {
            if i != e && j != e {
              assert result[i] == table[i] && result[j] == table[j];
            }
          }
        }
    }
  }

  /** The three outcomes of a step: nothing for an invalid number, a new
      row for a new number, and otherwise either the merged first row or,
      exactly when the court move clashes, the unchanged table. */
  lemma UpsertStepShape(table: seq<CaseEntry>, record: UpsertRecord, now: string, nextId: int)
    ensures var (outcome, result) := UpsertStep(table, record, now, nextId);
      var n := ProcessSync.NormalizarCnj(record.cnj);
      && (!ValidNumber(record) ==> outcome == Upsert(false) && result == table)
      && (outcome.UniqueViolation? ==> result == table)
      && (ValidNumber(record) && FirstWithNumero(table, n).None? ==>
            && outcome == Upsert(true)
            && result == table + [CaseEntry(nextId, n, if record.tribunal.Some? then record.tribunal.value else "DESCONHECIDO",
                 record.orgao, record.classe, record.assunto, "automatico", record.url, Some(now), now)])
      && (ValidNumber(record) && FirstWithNumero(table, n).Some? && outcome.Upsert? ==>
            var e := FirstWithNumero(table, n).value;
            && outcome == Upsert(false)
            && |result| == |table|
            && (forall k :: 0 <= k < |table| && k != e ==> result[k] == table[k])
            && result[e] == Merged(table[e], record, now))
      && (outcome.UniqueViolation? <==>
            && ValidNumber(record) && FirstWithNumero(table, n).Some?
            && CourtChanges(table[FirstWithNumero(table, n).value], record)
            && RowOf(table, n, record.tribunal.value).Some?)
  {
  }

  /** `upsertCase(record)`; `now` is the current instant and `nextId` the id
      an insertion receives. */
  method UpsertCase(table: seq<CaseEntry>, record: UpsertRecord, now: string, nextId: int)
    returns (outcome: Upsert, result: seq<CaseEntry>)
    ensures (outcome, result) == UpsertStep(table, record, now, nextId)
  {
    UpsertStepKeeps(table, record, now, nextId);
    UpsertStepShape(table, record, now, nextId);
    var normalized := ProcessSync.NormalizarCnj(record.cnj);
    if normalized == "" || |normalized| != 20 {
      return Upsert(false), table;
    }
    var existing := FirstWithNumero(table, normalized);
    var tribunal := if existing.Some? then table[existing.value].tribunal
      else if record.tribunal.Some? then record.tribunal.value else "DESCONHECIDO";
    result := table;
    if existing.Some? && TavilyClient.Given(record.tribunal) && record.tribunal.value != table[existing.value].tribunal {
      if RowOf(table, normalized, record.tribunal.value).Some? {
        return UniqueViolation, table;
      }
      result := table[existing.value := table[existing.value].(tribunal := record.tribunal.value, atualizadoEm := now)];
      tribunal := record.tribunal.value;
    }
    var origem := if existing.Some? then table[existing.value].origem else "automatico";
    var conflict := RowOf(result, normalized, tribunal);
    FirstWithNumeroFirst(table, normalized);
    RowOfFirst(result, normalized, tribunal);
    if existing.Some? {
      var e := existing.value;
      assert result[e].numero == normalized && result[e].tribunal == tribunal;
      assert forall k :: 0 <= k < e ==> result[k] == table[k];
      assert conflict == Some(e);
    }
    if conflict.None? {
      result := result + [CaseEntry(nextId, normalized, tribunal, record.orgao, record.classe, record.assunto, origem, record.url, Some(now), now)];
      assert result[|result| - 1].numero == normalized;
    } else {
      var k := conflict.value;
      result := result[k := result[k].(
        orgao := Coalesce(record.orgao, result[k].orgao),
        classe := Coalesce(record.classe, result[k].classe),
        assunto := Coalesce(record.assunto, result[k].assunto),
        url := Coalesce(record.url, result[k].url),
        lastSyncAt := Some(now),
        atualizadoEm := now)];
      assert result[k].numero == normalized;
      assert result[k] == Merged(table[k], record, now);
    }
    outcome := Upsert(existing.None?);
    if existing.None? {
      assert (outcome, result) == UpsertStep(table, record, now, nextId);
    } else {
      var e := existing.value;
      assert !(CourtChanges(table[e], record) && RowOf(table, normalized, record.tribunal.value).Some?);
      assert result == table[e := Merged(table[e], record, now)];
      assert (outcome, result) == UpsertStep(table, record, now, nextId);
    }
  }

  // ---------------------------------------------------------------------
  // syncCasesFromTavily

  datatype SyncOutcome = SyncFailed(error: string) | SyncDone(found: nat, inserted: nat)

  /** The results of every configured query, in order, or the error of
      the first request that rejected; `search(q)` answers the request for
      `q`, `data.results` when it is an array and `[]` otherwise. */
  function Searched(search: string -> Result<seq<TavilyClient.ResultItem>>, queries: seq<string>): Result<seq<TavilyClient.ResultItem>>
    decreases |queries|
  {
    if queries == [] then Ok([])
    else
      match Searched(search, queries[..|queries| - 1])
      case Err(e) => Err(e)
      case Ok(prev) =>
        match search(queries[|queries| - 1])
        case Err(e) => Err(e)
        case Ok(rs) => Ok(prev + rs)
  }

  /** The normalised numbers of the `byCnj` entries, in order. */
  function Numbers(byCnj: seq<(string, TavilyClient.ResultItem)>): (r: seq<string>)
    ensures |r| == |byCnj|
    ensures forall i :: 0 <= i < |byCnj| ==> r[i] == ProcessSync.NormalizarCnj(byCnj[i].0)
  {
    seq(|byCnj|, i requires 0 <= i < |byCnj| => ProcessSync.NormalizarCnj(byCnj[i].0))
  }

  /** After upserting the numbers `nums` into `table`: every row keeps its
      number, rows of numbers not upserted are untouched, appended rows
      carry upserted numbers, and every valid upserted number has a row. */
  predicate Tracks(table: seq<CaseEntry>, result: seq<CaseEntry>, nums: seq<string>) {
    && |table| <= |result|
    && (forall k :: 0 <= k < |table| ==> result[k].numero == table[k].numero)
    && (forall k :: 0 <= k < |table| && table[k].numero !in nums ==> result[k] == table[k])
    && (forall k :: |table| <= k < |result| ==> result[k].numero in nums)
    && (forall n :: n in nums && ValidNum(n) ==> HasRow(result, n))
  }

  /** The valid numbers of `nums` that `table` has no row for. */
  function NewCount(table: seq<CaseEntry>, nums: seq<string>): nat {
    if nums == [] then 0
    else
      var n := nums[|nums| - 1];
      NewCount(table, nums[..|nums| - 1]) + (if ValidNum(n) && !HasRow(table, n) then 1 else 0)
  }

  lemma TracksStart(table: seq<CaseEntry>)
    ensures Tracks(table, table, [])
  {
  }

  lemma TracksStep(table: seq<CaseEntry>, before: seq<CaseEntry>, after: seq<CaseEntry>, nums: seq<string>, n: string)
    requires Tracks(table, before, nums)
    requires UpsertEffect(before, after, n)
    ensures Tracks(table, after, nums + [n])
  {
    forall m | m in nums + [n] && ValidNum(m) ensures HasRow(after, m) {
      if m != n {
        var k :| 0 <= k < |before| && before[k].numero == m;
        assert after[k].numero == m;
      }
    }
    forall k | |table| <= k < |after| ensures after[k].numero in nums + [n] {
      if k < |before| {
        assert before[k].numero in nums;
      }
    }
  }

  /** A number not upserted yet has a row exactly when the table had one. */
  lemma TracksNewNumber(table: seq<CaseEntry>, result: seq<CaseEntry>, nums: seq<string>, n: string)
    requires Tracks(table, result, nums)
    requires n !in nums
    ensures HasRow(result, n) <==> HasRow(table, n)
  {
    if HasRow(result, n) {
      var k :| 0 <= k < |result| && result[k].numero == n;
      assert k < |table|;
      assert table[k].numero == n;
    }
    if HasRow(table, n) {
      var k :| 0 <= k < |table| && table[k].numero == n;
      assert result[k].numero == n;
    }
  }

  lemma NumbersPrefix(byCnj: seq<(string, TavilyClient.ResultItem)>, i: nat)
    requires i < |byCnj|
    ensures Numbers(byCnj)[..i + 1] == Numbers(byCnj)[..i] + [ProcessSync.NormalizarCnj(byCnj[i].0)]
    ensures Distinct(Numbers(byCnj)) ==> ProcessSync.NormalizarCnj(byCnj[i].0) !in Numbers(byCnj)[..i]
  {
  }

  /** The record `syncCasesFromTavily` upserts for a number and the meta
      guessed from its result. */
  function RecordFrom(cnj: string, meta: CaseMeta): UpsertRecord {
    UpsertRecord(cnj, meta.tribunal, None, meta.classe, meta.assunto, meta.url)
  }

  /** The records of the `byCnj` entries, in order. */
  function Records(byCnj: seq<(string, TavilyClient.ResultItem)>): (r: seq<UpsertRecord>)
    ensures |r| == |byCnj|
  {
    if byCnj == [] then []
    else
      var last := byCnj[|byCnj| - 1];
      Records(byCnj[..|byCnj| - 1]) + [RecordFrom(last.0, MetaOf(last.1))]
  }

  /** Each record is built from its own entry. */
  lemma {:induction false} RecordsAt(byCnj: seq<(string, TavilyClient.ResultItem)>, i: nat)
    requires i < |byCnj|
    ensures Records(byCnj)[i] == RecordFrom(byCnj[i].0, MetaOf(byCnj[i].1))
  {
    if i < |byCnj| - 1 {
      RecordsAt(byCnj[..|byCnj| - 1], i);
    }
  }

  /** The normalised numbers of some records, in order. */
  function Cnjs(records: seq<UpsertRecord>): (r: seq<string>)
    ensures |r| == |records|
  {
    seq(|records|, i requires 0 <= i < |records| => ProcessSync.NormalizarCnj(records[i].cnj))
  }

  /** The numbers the records of `byCnj` upsert are the entries' numbers. */
  lemma CnjsOfRecords(byCnj: seq<(string, TavilyClient.ResultItem)>)
    ensures Cnjs(Records(byCnj)) == Numbers(byCnj)
  {
    forall i | 0 <= i < |byCnj| ensures Cnjs(Records(byCnj))[i] == Numbers(byCnj)[i] {
      RecordsAt(byCnj, i);
    }
  }

  /** The numbers of all records but the last, and the last one. */
  lemma CnjsInit(records: seq<UpsertRecord>)
    requires records != []
    ensures Cnjs(records[..|records| - 1]) == Cnjs(records)[..|records| - 1]
    ensures Cnjs(records) == Cnjs(records[..|records| - 1]) + [ProcessSync.NormalizarCnj(records[|records| - 1].cnj)]
  {
  }

  /** The upserts of the records, in order and in one transaction, as
      `(ok, inserted, table)`: a clash rolls back to the table before the
      first upsert; otherwise each insertion takes the next id. */
  function UpsertFold(table: seq<CaseEntry>, records: seq<UpsertRecord>, now: string, nextId: int): (bool, nat, seq<CaseEntry>)
    decreases |records|
  {
    if records == [] then (true, 0, table)
    else
      var prev := UpsertFold(table, records[..|records| - 1], now, nextId);
      if !prev.0 then (false, 0, table)
      else
        var step := UpsertStep(prev.2, records[|records| - 1], now, nextId + prev.1);
        if step.0.UniqueViolation? then (false, 0, table)
        else (true, prev.1 + (if step.0.created then 1 else 0), step.1)
  }

  /** A transaction that goes through went through up to its last record,
      and then took that record's step. */
  lemma UpsertFoldLast(table: seq<CaseEntry>, records: seq<UpsertRecord>, now: string, nextId: int)
    requires records != []
    ensures var prev := UpsertFold(table, records[..|records| - 1], now, nextId);
      var step := UpsertStep(prev.2, records[|records| - 1], now, nextId + prev.1);
      UpsertFold(table, records, now, nextId).0 ==>
        && prev.0 && step.0.Upsert?
        && UpsertFold(table, records, now, nextId) == (true, prev.1 + (if step.0.created then 1 else 0), step.1)
  {
  }

  /** A transaction that fails writes nothing and reports no insertion. */
  lemma UpsertFoldRollback(table: seq<CaseEntry>, records: seq<UpsertRecord>, now: string, nextId: int)
    ensures !UpsertFold(table, records, now, nextId).0 ==> UpsertFold(table, records, now, nextId) == (false, 0, table)
  {
  }

  /** Once an upsert has clashed, the transaction is rolled back whatever
      follows. */
  lemma {:induction false} UpsertFoldStops(table: seq<CaseEntry>, records: seq<UpsertRecord>, now: string, nextId: int, i: nat)
    requires i <= |records|
    requires !UpsertFold(table, records[..i], now, nextId).0
    ensures UpsertFold(table, records, now, nextId) == (false, 0, table)
    decreases |records| - i
  {
    if i < |records| {
      assert records[..i + 1][..i] == records[..i];
      UpsertFoldStops(table, records, now, nextId, i + 1);
    } else {
      assert records[..i] == records;
    }
  }

  /** At most one row per case number. */
  predicate OneRowPerNumber(table: seq<CaseEntry>) {
    forall i, j :: 0 <= i < j < |table| ==> table[i].numero != table[j].numero
  }

  /** With one row per number, the court move cannot clash, and one row
      per number stays. */
  lemma UpsertStepOneRow(table: seq<CaseEntry>, record: UpsertRecord, now: string, nextId: int)
    requires OneRowPerNumber(table)
    ensures UpsertStep(table, record, now, nextId).0.Upsert?
    ensures OneRowPerNumber(UpsertStep(table, record, now, nextId).1)
  {
    var n := ProcessSync.NormalizarCnj(record.cnj);
    var result := UpsertStep(table, record, now, nextId).1;
    FirstWithNumeroFirst(table, n);
    if ValidNum(n) {
      match FirstWithNumero(table, n)
      case None =>
        forall i, j | 0 <= i < j < |result| ensures result[i].numero != result[j].numero {
          if j == |table| {
            assert result[i] == table[i];
          }
        }
      case Some(e) =>
        forall i, j | 0 <= i < j < |result| ensures result[i].numero != result[j].numero {
          assert result[i].numero == table[i].numero && result[j].numero == table[j].numero;
        }
    }
  }

  /** A table with one row per number never makes the transaction fail. */
  lemma {:induction false} UpsertFoldOk(table: seq<CaseEntry>, records: seq<UpsertRecord>, now: string, nextId: int)
    requires OneRowPerNumber(table)
    ensures UpsertFold(table, records, now, nextId).0
    ensures OneRowPerNumber(UpsertFold(table, records, now, nextId).2)
    decreases |records|
  {
    if records != [] {
      UpsertFoldOk(table, records[..|records| - 1], now, nextId);
      var prev := UpsertFold(table, records[..|records| - 1], now, nextId);
      UpsertStepOneRow(prev.2, records[|records| - 1], now, nextId + prev.1);
    }
  }

  /** A step that goes through adds a row exactly for a valid number
      without one. */
  lemma UpsertStepGrowth(table: seq<CaseEntry>, record: UpsertRecord, now: string, nextId: int)
    ensures var r := UpsertStep(table, record, now, nextId);
      var n := ProcessSync.NormalizarCnj(record.cnj);
      r.0.Upsert? ==>
        && |r.1| == |table| + (if r.0.created then 1 else 0)
        && (r.0.created <==> ValidNum(n) && !HasRow(table, n))
  {
    FirstWithNumeroFinds(table, ProcessSync.NormalizarCnj(record.cnj));
  }

  /** A transaction that goes through inserts at most one row per record,
      and keeps `UNIQUE(numero_cnj, tribunal)`. */
  lemma {:induction false} UpsertFoldSize(table: seq<CaseEntry>, records: seq<UpsertRecord>, now: string, nextId: int)
    ensures var r := UpsertFold(table, records, now, nextId);
      r.0 ==>
        && r.1 <= |records| && |r.2| == |table| + r.1
        && (UniqueKeys(table) ==> UniqueKeys(r.2))
    decreases |records|
  {
    if records != [] {
      var m := |records| - 1;
      UpsertFoldSize(table, records[..m], now, nextId);
      var prev := UpsertFold(table, records[..m], now, nextId);
      UpsertFoldLast(table, records, now, nextId);
      SizeFoldStep(table, prev, m, records[m], now, nextId + prev.1, UpsertFold(table, records, now, nextId));
    }
  }

  /** The step case of `UpsertFoldSize`, over the folds' values. */
  lemma SizeFoldStep(table: seq<CaseEntry>, prev: (bool, nat, seq<CaseEntry>), count: nat,
                     record: UpsertRecord, now: string, nextId: int, r: (bool, nat, seq<CaseEntry>))
    requires prev.0 ==> prev.1 <= count && |prev.2| == |table| + prev.1 && (UniqueKeys(table) ==> UniqueKeys(prev.2))
    requires var step := UpsertStep(prev.2, record, now, nextId);
      r.0 ==> prev.0 && step.0.Upsert? && r == (true, prev.1 + (if step.0.created then 1 else 0), step.1)
    ensures r.0 ==> r.1 <= count + 1 && |r.2| == |table| + r.1 && (UniqueKeys(table) ==> UniqueKeys(r.2))
  {
    if r.0 {
      UpsertStepKeeps(prev.2, record, now, nextId);
      UpsertStepGrowth(prev.2, record, now, nextId);
    }
  }

  /** One more step that goes through keeps `Tracks`, now with its number. */
  lemma TracksUpsertStep(table: seq<CaseEntry>, rows: seq<CaseEntry>, nums: seq<string>, record: UpsertRecord, now: string, nextId: int,
                         after: seq<CaseEntry>, nums': seq<string>)
    requires Tracks(table, rows, nums)
    requires UpsertStep(rows, record, now, nextId).0.Upsert? && after == UpsertStep(rows, record, now, nextId).1
    requires nums' == nums + [ProcessSync.NormalizarCnj(record.cnj)]
    ensures Tracks(table, after, nums')
  {
    UpsertStepKeeps(rows, record, now, nextId);
    TracksStep(table, rows, after, nums, ProcessSync.NormalizarCnj(record.cnj));
  }

  /** The step case of `UpsertFoldTracks`, over the folds' values. */
  lemma TracksFoldStep(table: seq<CaseEntry>, prev: (bool, nat, seq<CaseEntry>), nums: seq<string>,
                       record: UpsertRecord, now: string, nextId: int, r: (bool, nat, seq<CaseEntry>), nums': seq<string>)
    requires prev.0 ==> Tracks(table, prev.2, nums)
    requires nums' == nums + [ProcessSync.NormalizarCnj(record.cnj)]
    requires var step := UpsertStep(prev.2, record, now, nextId);
      r.0 ==> prev.0 && step.0.Upsert? && r == (true, r.1, step.1)
    ensures r.0 ==> Tracks(table, r.2, nums')
  {
    if r.0 {
      var step := UpsertStep(prev.2, record, now, nextId);
      TracksUpsertStep(table, prev.2, nums, record, now, nextId, step.1, nums');
    }
  }

  /** A transaction that goes through: every row keeps its number, rows of
      numbers not upserted are untouched, new rows carry upserted numbers,
      and every valid upserted number has a row. */
  lemma {:induction false} UpsertFoldTracks(table: seq<CaseEntry>, records: seq<UpsertRecord>, now: string, nextId: int)
    ensures var r := UpsertFold(table, records, now, nextId);
      r.0 ==> Tracks(table, r.2, Cnjs(records))
    decreases |records|
  {
    if records == [] {
      TracksStart(table);
      assert Cnjs(records) == [];
    } else {
      var m := |records| - 1;
      CnjsInit(records);
      UpsertFoldTracks(table, records[..m], now, nextId);
      var prev := UpsertFold(table, records[..m], now, nextId);
      UpsertFoldLast(table, records, now, nextId);
      TracksFoldStep(table, prev, Cnjs(records[..m]), records[m], now, nextId + prev.1, UpsertFold(table, records, now, nextId), Cnjs(records));
    }
  }

  /** With distinct numbers, a transaction that goes through inserts
      exactly the valid numbers the table had no row for. */
  lemma {:induction false} UpsertFoldCount(table: seq<CaseEntry>, records: seq<UpsertRecord>, now: string, nextId: int)
    requires Distinct(Cnjs(records))
    ensures var r := UpsertFold(table, records, now, nextId);
      r.0 ==> r.1 == NewCount(table, Cnjs(records))
    decreases |records|
  {
    if records != [] {
      var m := |records| - 1;
      var nums := Cnjs(records);
      CnjsInit(records);
      assert Distinct(nums[..m]);
      UpsertFoldCount(table, records[..m], now, nextId);
      UpsertFoldTracks(table, records[..m], now, nextId);
      var prev := UpsertFold(table, records[..m], now, nextId);
      if prev.0 {
        UpsertStepGrowth(prev.2, records[m], now, nextId + prev.1);
        TracksNewNumber(table, prev.2, nums[..m], nums[m]);
        assert nums[..m] == nums[..|nums| - 1];
      }
    }
  }

  /** One more record of the transaction, seen from the loop: the fold of
      the longer prefix takes the step from the fold of the shorter one. */
  lemma UpsertFoldNext(table: seq<CaseEntry>, records: seq<UpsertRecord>, now: string, nextId: int, i: nat,
                       inserted: nat, rows: seq<CaseEntry>, outcome: Upsert, next: seq<CaseEntry>)
    requires i < |records|
    requires UpsertFold(table, records[..i], now, nextId) == (true, inserted, rows)
    requires (outcome, next) == UpsertStep(rows, records[i], now, nextId + inserted)
    ensures outcome.UniqueViolation? ==> UpsertFold(table, records, now, nextId) == (false, 0, table) && !OneRowPerNumber(table)
    ensures outcome.Upsert? ==> UpsertFold(table, records[..i + 1], now, nextId) == (true, inserted + (if outcome.created then 1 else 0), next)
  {
    assert records[..i + 1][..i] == records[..i];
    if outcome.UniqueViolation? {
      UpsertFoldStops(table, records, now, nextId, i + 1);
      if OneRowPerNumber(table) {
        UpsertFoldOk(table, records, now, nextId);
      }
    }
  }

  /** What the transaction's fold promises, for the values `UpsertAll`
      returns. */
  lemma UpsertAllSpec(table: seq<CaseEntry>, byCnj: seq<(string, TavilyClient.ResultItem)>, now: string, nextId: int,
                      ok: bool, inserted: nat, result: seq<CaseEntry>)
    requires (ok, inserted, result) == UpsertFold(table, Records(byCnj), now, nextId)
    ensures OneRowPerNumber(table) ==> ok
    ensures !ok ==> result == table
    ensures ok ==> inserted <= |byCnj| && |result| == |table| + inserted
    ensures ok ==> Tracks(table, result, Numbers(byCnj))
    ensures ok && Distinct(Numbers(byCnj)) ==> inserted == NewCount(table, Numbers(byCnj))
    ensures ok && UniqueKeys(table) ==> UniqueKeys(result)
  {
    var records := Records(byCnj);
    CnjsOfRecords(byCnj);
    UpsertFoldRollback(table, records, now, nextId);
    UpsertFoldSize(table, records, now, nextId);
    UpsertFoldTracks(table, records, now, nextId);
    if Distinct(Numbers(byCnj)) {
      UpsertFoldCount(table, records, now, nextId);
    }
    if OneRowPerNumber(table) {
      UpsertFoldOk(table, records, now, nextId);
    }
  }

  /** The upserts of `syncCasesFromTavily`, in one transaction: a failing
      one rolls every earlier one back. Otherwise every entry's number has
      a row, rows of other numbers are untouched, and `inserted` counts
      the numbers that had no row. */
  method UpsertAll(table: seq<CaseEntry>, byCnj: seq<(string, TavilyClient.ResultItem)>, now: string, nextId: int)
    returns (ok: bool, inserted: nat, result: seq<CaseEntry>)
    ensures (ok, inserted, result) == UpsertFold(table, Records(byCnj), now, nextId)
    ensures OneRowPerNumber(table) ==> ok
    ensures !ok ==> result == table
  {
    ghost var records := Records(byCnj);
    inserted := 0;
    result := table;
    for i := 0 to |byCnj|
      invariant UpsertFold(table, records[..i], now, nextId) == (true, inserted, result)
    {
      var meta := InferMetaFromResult(byCnj[i].1);
      var record := RecordFrom(byCnj[i].0, meta);
      RecordsAt(byCnj, i);
      var outcome, next := UpsertCase(result, record, now, nextId + inserted);
      UpsertFoldNext(table, records, now, nextId, i, inserted, result, outcome, next);
      if outcome.UniqueViolation? {
        return false, 0, table;
      }
      result := next;
      if outcome.created {
        inserted := inserted + 1;
      }
    }
    assert records[..|byCnj|] == records;
    ok := true;
  }

  /** The numbers of `byCnj` are its keys, so they are distinct. */
  lemma NumbersOfByCnj(results: seq<TavilyClient.ResultItem>)
    ensures Numbers(ByCnj(results)) == TavilyClient.KeysOf(ByCnj(results), CnjKey)
    ensures Distinct(Numbers(ByCnj(results)))
  {
    var m := ByCnj(results);
    ByCnjSpec(results);
    forall i | 0 <= i < |m| ensures Numbers(m)[i] == TavilyClient.KeysOf(m, CnjKey)[i] {
      assert m[i] in m;
      DigitsOfAllDigits(m[i].0);
    }
  }

  /** The error the transaction reports when an upsert meets a second row
      of its number. */
  const UniqueFailure := "UNIQUE constraint failed: cases.numero_cnj, cases.tribunal"

  /** The transaction of `syncCasesFromTavily()` over the results `rs` of
      every query: the results grouped by number are upserted one after the
      other, and a unique violation rolls the whole transaction back. */
  function Transaction(table: seq<CaseEntry>, rs: seq<TavilyClient.ResultItem>, now: string, nextId: int): (SyncOutcome, seq<CaseEntry>)
  {
    var byCnj := ByCnj(rs);
    var f := UpsertFold(table, Records(byCnj), now, nextId);
    if f.0 then (SyncDone(|byCnj|, f.1), f.2) else (SyncFailed(UniqueFailure), table)
  }

  /** A failed transaction leaves the table alone, a finished one found one
      record per number and added one row per new number, and a table
      holding at most one row per number never makes it fail. */
  lemma TransactionSpec(table: seq<CaseEntry>, rs: seq<TavilyClient.ResultItem>, now: string, nextId: int,
                        outcome: SyncOutcome, result: seq<CaseEntry>)
    requires (outcome, result) == Transaction(table, rs, now, nextId)
    ensures outcome.SyncFailed? ==> outcome.error == UniqueFailure && result == table
    ensures outcome.SyncDone? ==>
      && outcome.found == |ByCnj(rs)|
      && outcome.inserted <= outcome.found
      && |result| == |table| + outcome.inserted
    ensures OneRowPerNumber(table) ==> outcome.SyncDone?
  {
    var byCnj := ByCnj(rs);
    var f := UpsertFold(table, Records(byCnj), now, nextId);
    UpsertAllSpec(table, byCnj, now, nextId, f.0, f.1, f.2);
  }

  /** A finished transaction upserted every number found, left the rows of
      other numbers alone and counted the numbers that had no row. */
  lemma TransactionTracks(table: seq<CaseEntry>, rs: seq<TavilyClient.ResultItem>, now: string, nextId: int,
                          outcome: SyncOutcome, result: seq<CaseEntry>)
    requires (outcome, result) == Transaction(table, rs, now, nextId)
    ensures outcome.SyncDone? ==>
      && Tracks(table, result, Numbers(ByCnj(rs)))
      && outcome.inserted == NewCount(table, Numbers(ByCnj(rs)))
    ensures outcome.SyncDone? && UniqueKeys(table) ==> UniqueKeys(result)
  {
    var byCnj := ByCnj(rs);
    var f := UpsertFold(table, Records(byCnj), now, nextId);
    NumbersOfByCnj(rs);
    UpsertAllSpec(table, byCnj, now, nextId, f.0, f.1, f.2);
  }

  /** What `syncCasesFromTavily()` answers and leaves in the table: the
      missing key and a rejected request end the call before the
      transaction. */
  function SyncOf(
    apiKey: Option<string>, search: string -> Result<seq<TavilyClient.ResultItem>>,
    table: seq<CaseEntry>, now: string, nextId: int): (SyncOutcome, seq<CaseEntry>)
  {
    if !TavilyClient.Given(apiKey) then (SyncFailed("TAVILY_API_KEY não configurada"), table)
    else
      match Searched(search, SearchQueries)
      case Err(e) => (SyncFailed(e), table)
      case Ok(rs) => Transaction(table, rs, now, nextId)
  }

  /** A failed sync leaves the table alone, and with the key given, every
      request answered and at most one row per number, the sync finishes. */
  lemma SyncOfSpec(
    apiKey: Option<string>, search: string -> Result<seq<TavilyClient.ResultItem>>,
    table: seq<CaseEntry>, now: string, nextId: int, outcome: SyncOutcome, result: seq<CaseEntry>)
    requires (outcome, result) == SyncOf(apiKey, search, table, now, nextId)
    ensures outcome.SyncFailed? ==> result == table
    ensures outcome.SyncDone? ==>
      TavilyClient.Given(apiKey) && Searched(search, SearchQueries).Ok? &&
      (outcome, result) == Transaction(table, Searched(search, SearchQueries).value, now, nextId)
    ensures TavilyClient.Given(apiKey) && Searched(search, SearchQueries).Ok? && OneRowPerNumber(table) ==>
      outcome.SyncDone?
  {
    if TavilyClient.Given(apiKey) && Searched(search, SearchQueries).Ok? {
      TransactionSpec(table, Searched(search, SearchQueries).value, now, nextId, outcome, result);
    }
  }

  /** `syncCasesFromTavily()`; the search and the clock are parameters. A
      rejected request ends the call before the transaction. */
  method SyncCasesFromTavily(
    apiKey: Option<string>, search: string -> Result<seq<TavilyClient.ResultItem>>,
    table: seq<CaseEntry>, now: string, nextId: int)
    returns (outcome: SyncOutcome, result: seq<CaseEntry>)
    ensures (outcome, result) == SyncOf(apiKey, search, table, now, nextId)
    ensures !TavilyClient.Given(apiKey) ==> outcome == SyncFailed("TAVILY_API_KEY não configurada") && result == table
    ensures TavilyClient.Given(apiKey) && Searched(search, SearchQueries).Err? ==>
      outcome == SyncFailed(Searched(search, SearchQueries).message) && result == table
    ensures TavilyClient.Given(apiKey) && Searched(search, SearchQueries).Ok? && OneRowPerNumber(table) ==>
      outcome.SyncDone?
  {
    if !TavilyClient.Given(apiKey) {
      return SyncFailed("TAVILY_API_KEY não configurada"), table;
    }
    var allResults: seq<TavilyClient.ResultItem> := [];
    for q := 0 to |SearchQueries|
      invariant Searched(search, SearchQueries[..q]) == Ok(allResults)
    {
      assert SearchQueries[..q + 1][..q] == SearchQueries[..q];
      var answer := search(SearchQueries[q]);
      if answer.Err? {
        SearchedStops(search, SearchQueries, q + 1);
        return SyncFailed(answer.message), table;
      }
      allResults := allResults + answer.value;
    }
    assert SearchQueries[..|SearchQueries|] == SearchQueries;
    var byCnj := BuildByCnj(allResults);
    var ok, inserted;
    ok, inserted, result := UpsertAll(table, byCnj, now, nextId);
    if !ok {
      outcome, result := SyncFailed(UniqueFailure), table;
    } else {
      outcome := SyncDone(|byCnj|, inserted);
    }
    assert (outcome, result) == Transaction(table, allResults, now, nextId);
    SyncOfSpec(apiKey, search, table, now, nextId, outcome, result);
  }

  /** Once a request has rejected, the later queries do not change the
      error. */
  lemma {:induction false} SearchedStops(search: string -> Result<seq<TavilyClient.ResultItem>>, queries: seq<string>, q: nat)
    requires q <= |queries|
    requires Searched(search, queries[..q]).Err?
    ensures Searched(search, queries) == Searched(search, queries[..q])
    decreases |queries| - q
  {
    if q < |queries| {
      assert queries[..q + 1][..q] == queries[..q];
      SearchedStops(search, queries, q + 1);
    } else {
      assert queries[..q] == queries;
    }
  }
}
