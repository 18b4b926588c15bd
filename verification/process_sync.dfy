/**
  The case-synchronisation service: case numbers reduced to digits, the
  classification of a court movement and the deadline it opens, counted in
  business days, the `nome|oab` form of a watched lawyer, and the two table
  writes (a case found again, a movement seen for the first time). The
  tables are values passed in and handed back.
 */
module ProcessSync {
  import opened Js
  import opened CnjNumber
  import TavilyClient

  // ---------------------------------------------------------------------
  // Case numbers

  /** `normalizarCNJ(num)`: the digits of `num`. */
  function NormalizarCnj(num: string): (r: string)
    ensures AllDigits(r) && |r| <= |num|
  {
    Digits(num)
  }

  /** The digits are kept in order and nothing else is: normalising a
      concatenation concatenates, a digit stays, any other character goes;
      and normalising twice changes nothing. */
  lemma NormalizarCnjSpec(a: string, b: string, c: char)
    ensures NormalizarCnj(a + b) == NormalizarCnj(a) + NormalizarCnj(b)
    ensures NormalizarCnj([c]) == (if IsDigit(c) then [c] else [])
    ensures NormalizarCnj(NormalizarCnj(a)) == NormalizarCnj(a)
  {
    DigitsAppend(a, b);
    DigitsOfDigits(a);
    assert [c][1..] == [];
  }

  // ---------------------------------------------------------------------
  // classifyMovement

  datatype Classification = Classification(tipo: string, exigeAcao: bool, prazoDias: Option<nat>)

  /** `classifyMovement(descricao)`: the rules on the lower-cased text, the
      first that applies wins. */
  function ClassifyMovement(descricao: string): (r: Classification)
    ensures r.exigeAcao <==> r.prazoDias.Some?
    ensures r.prazoDias.Some? ==> r.tipo == "intimacao" && (r.prazoDias.value == 5 || r.prazoDias.value == 15)
    ensures r.tipo in {"intimacao", "sentenca", "outros"}
  {
    var d := ToLower(descricao);
    if Contains(d, "citação") || (Contains(d, "intima") && Contains(d, "contestação")) then
      Classification("intimacao", true, Some(15))
    else if Contains(d, "embargos de declaração") && Contains(d, "prazo") then
      Classification("intimacao", true, Some(5))
    else if Contains(d, "sentença") || Contains(d, "sentenca") then
      Classification("sentenca", false, None)
    else if Contains(d, "prazo") && Contains(d, "apresentar") then
      Classification("intimacao", true, Some(15))
    else
      Classification("outros", false, None)
  }

  /** The classification ignores letter case. */
  lemma ClassifyIgnoresCase(descricao: string)
    ensures ClassifyMovement(ToLower(descricao)) == ClassifyMovement(descricao)
  {
    LowerIdempotent(descricao);
  }

  /** A summons always opens fifteen days, whatever else the text says; a
      sentence without a summons or declaratory appeal needs no action. */
  lemma ClassifyPriority(descricao: string)
    ensures Contains(ToLower(descricao), "citação") ==> ClassifyMovement(descricao) == Classification("intimacao", true, Some(15))
    ensures (&& !Contains(ToLower(descricao), "citação") && !Contains(ToLower(descricao), "intima")
             && !Contains(ToLower(descricao), "embargos de declaração") && Contains(ToLower(descricao), "sentença"))
      ==> ClassifyMovement(descricao) == Classification("sentenca", false, None)
    ensures ClassifyMovement(descricao).tipo == "outros" ==>
      && !Contains(ToLower(descricao), "citação")
      && !Contains(ToLower(descricao), "sentença")
      && !Contains(ToLower(descricao), "sentenca")
  {
  }

  // ---------------------------------------------------------------------
  // addBusinessDays

  /** A day is a whole number of days since 1970-01-01, a Thursday. */
  function Weekday(day: int): (w: int)
    ensures 0 <= w < 7
  {
    (day + 4) % 7
  }

  /** `getDay() === 0 || getDay() === 6` */
  predicate IsWeekend(day: int) {
    Weekday(day) == 0 || Weekday(day) == 6
  }

  /** How many days on from `day` the next weekday is. */
  function StepsToWeekday(day: int): (n: nat)
    ensures 1 <= n <= 3
  {
    if Weekday(day) == 5 then 3 else if Weekday(day) == 6 then 2 else 1
  }

  lemma WeekendStep(day: int)
    requires IsWeekend(day + 1)
    ensures StepsToWeekday(day + 1) < StepsToWeekday(day)
  {
  }

  /** The day `addBusinessDays` stops on. */
  function Deadline(start: int, days: int): int
    decreases days, StepsToWeekday(start)
  {
    if days <= 0 then start
    else if IsWeekend(start + 1) then
      WeekendStep(start);
      Deadline(start + 1, days)
    else Deadline(start + 1, days - 1)
  }

  /** The weekdays in `(lo, hi]`. */
  function BusinessDaysIn(lo: int, hi: int): nat
    decreases hi - lo
  {
    if hi <= lo then 0
    else BusinessDaysIn(lo, hi - 1) + (if IsWeekend(hi) then 0 else 1)
  }

  lemma {:induction false} BusinessDaysFirst(lo: int, hi: int)
    requires lo < hi
    ensures BusinessDaysIn(lo, hi) == (if IsWeekend(lo + 1) then 0 else 1) + BusinessDaysIn(lo + 1, hi)
    decreases hi - lo
  {
    if lo + 1 < hi {
      BusinessDaysFirst(lo, hi - 1);
    }
  }

  /** The deadline falls `days` weekdays after the start and is itself a
      weekday; no earlier day has counted them all; with no days to count
      the start is returned. */
  lemma {:induction false} DeadlineSpec(start: int, days: int)
    ensures days <= 0 ==> Deadline(start, days) == start
    ensures days > 0 ==> Deadline(start, days) > start && !IsWeekend(Deadline(start, days))
    ensures days > 0 ==> BusinessDaysIn(start, Deadline(start, days)) == days
    ensures days > 0 ==> forall d :: start <= d < Deadline(start, days) ==> BusinessDaysIn(start, d) < days
    decreases days, StepsToWeekday(start)
  {
    if days > 0 {
      var next := if IsWeekend(start + 1) then days else days - 1;
      if IsWeekend(start + 1) {
        WeekendStep(start);
      }
      DeadlineSpec(start + 1, next);
      var r := Deadline(start, days);
      assert r == Deadline(start + 1, next);
      if next == 0 {
        assert r == start + 1;
      } else {
        BusinessDaysFirst(start, r);
      }
      forall d | start <= d < r ensures BusinessDaysIn(start, d) < days {
        if d > start {
          BusinessDaysFirst(start, d);
        }
      }
    }
  }

  /** `addBusinessDays(start, days)`: one day at a time, counting weekdays. */
  method AddBusinessDays(start: int, days: int) returns (date: int)
    ensures date == Deadline(start, days)
  {
    date := start;
    var remaining := days;
    while remaining > 0
      invariant Deadline(date, remaining) == Deadline(start, days)
      decreases remaining, StepsToWeekday(date)
    {
      if IsWeekend(date + 1) {
        WeekendStep(date);
      }
      date := date + 1;
      if !IsWeekend(date) {
        remaining := remaining - 1;
      }
    }
  }

  // ---------------------------------------------------------------------
  // parseTargetValue

  /** `parseTargetValue(valor)`: a watched lawyer written `nome|oab`. */
  function ParseTargetValue(valor: string): (r: Option<(string, string)>)
    ensures r.Some? <==> SplitOn(valor, '|')[0] != "" && |SplitOn(valor, '|')| >= 2 && SplitOn(valor, '|')[1] != ""
    ensures r.Some? ==> IsTrimmed(r.value.0) && IsTrimmed(r.value.1)
  {
    var parts := SplitOn(valor, '|');
    if parts[0] == "" || |parts| < 2 || parts[1] == "" then None
    else
      TrimSpec(parts[0]);
      TrimSpec(parts[1]);
      Some((Trim(parts[0]), Trim(parts[1])))
  }

  /** A name and a registration, neither empty nor padded and without `|`,
      written as `nome|oab` read back as themselves. */
  lemma ParseTargetValueRoundTrip(nome: string, oab: string)
    requires nome != "" && oab != "" && IsTrimmed(nome) && IsTrimmed(oab)
    requires '|' !in nome && '|' !in oab
    ensures ParseTargetValue(nome + "|" + oab) == Some((nome, oab))
  {
    assert Join([nome, oab], "|") == nome + "|" + oab;
    SplitOnJoin([nome, oab], '|');
    TrimOfTrimmed(nome);
    TrimOfTrimmed(oab);
  }

  // ---------------------------------------------------------------------
  // upsertCase

  /** A row of `cases`. */
  datatype CaseRow = CaseRow(
    id: int,
    orgao: Option<string>,
    classe: Option<string>,
    assunto: Option<string>,
    origem: string,
    criadoEm: string,
    atualizadoEm: string)

  /** `cases`, looked up by number and court. */
  type CaseTable = map<(string, string), CaseRow>

  datatype Column = Orgao | Classe | Assunto

  /** `found.x && found.x !== existing.x` */
  predicate Changes(value: Option<string>, stored: Option<string>) {
    TavilyClient.Given(value) && value != stored
  }

  /** The column list of the `UPDATE`, built as the source builds it. */
  method SelectUpdates(found: TavilyClient.FoundProcess, existing: CaseRow) returns (fields: seq<Column>)
    ensures Orgao in fields <==> Changes(found.orgao, existing.orgao)
    ensures Classe in fields <==> Changes(found.classe, existing.classe)
    ensures Assunto in fields <==> Changes(found.assunto, existing.assunto)
    ensures forall i, j :: 0 <= i < j < |fields| ==> fields[i] != fields[j]
  {
    fields := [];
    if Changes(found.orgao, existing.orgao) {
      fields := fields + [Orgao];
    }
    if Changes(found.classe, existing.classe) {
      fields := fields + [Classe];
    }
    if Changes(found.assunto, existing.assunto) {
      fields := fields + [Assunto];
    }
  }

  function Pick(value: Option<string>, stored: Option<string>): Option<string> {
    if Changes(value, stored) then value else stored
  }

  /** The row after the `UPDATE`. */
  function Refreshed(existing: CaseRow, found: TavilyClient.FoundProcess, agora: string): CaseRow {
    existing.(
      orgao := Pick(found.orgao, existing.orgao),
      classe := Pick(found.classe, existing.classe),
      assunto := Pick(found.assunto, existing.assunto),
      atualizadoEm := agora)
  }

  /** A stored field takes a new value only when the new value is given and
      differs; the update time is always refreshed; nothing else moves. */
  lemma RefreshedSpec(existing: CaseRow, found: TavilyClient.FoundProcess, agora: string)
    ensures var r := Refreshed(existing, found, agora);
      && (r.orgao != existing.orgao ==> TavilyClient.Given(found.orgao) && r.orgao == found.orgao)
      && (r.classe != existing.classe ==> TavilyClient.Given(found.classe) && r.classe == found.classe)
      && (r.assunto != existing.assunto ==> TavilyClient.Given(found.assunto) && r.assunto == found.assunto)
      && (TavilyClient.Given(found.orgao) ==> r.orgao == found.orgao)
      && (TavilyClient.Given(found.classe) ==> r.classe == found.classe)
      && (TavilyClient.Given(found.assunto) ==> r.assunto == found.assunto)
      && r.atualizadoEm == agora
      && r.id == existing.id && r.origem == existing.origem && r.criadoEm == existing.criadoEm
  {
  }

  /** What `upsertCase` answers: the row id, or the error it throws. */
  datatype Upserted = Upserted(id: int) | InvalidNumber(message: string)

  /** `upsertCase(found, origem)`; `agora` is the current instant and
      `nextId` the row id the database assigns to an insertion. */
  method UpsertCase(table: CaseTable, found: TavilyClient.FoundProcess, origem: string, agora: string, nextId: int)
    returns (outcome: Upserted, result: CaseTable)
    ensures NormalizarCnj(found.numeroCnj) == "" ==>
      outcome == InvalidNumber("Número CNJ inválido: " + found.numeroCnj) && result == table
    ensures var key := (NormalizarCnj(found.numeroCnj), found.tribunal);
      NormalizarCnj(found.numeroCnj) != "" && key !in table ==>
        && outcome == Upserted(nextId)
        && result == table[key := CaseRow(nextId, found.orgao, found.classe, found.assunto, origem, agora, agora)]
    ensures var key := (NormalizarCnj(found.numeroCnj), found.tribunal);
      NormalizarCnj(found.numeroCnj) != "" && key in table ==>
        && outcome == Upserted(table[key].id)
        && result == table[key := Refreshed(table[key], found, agora)]
  {
    var numero := NormalizarCnj(found.numeroCnj);
    if numero == "" {
      return InvalidNumber("Número CNJ inválido: " + found.numeroCnj), table;
    }
    var key := (numero, found.tribunal);
    if key !in table {
      result := table[key := CaseRow(nextId, found.orgao, found.classe, found.assunto, origem, agora, agora)];
      return Upserted(nextId), result;
    }
    var existing := table[key];
    var fields := SelectUpdates(found, existing);
    var row := existing.(atualizadoEm := agora);
    for i := 0 to |fields|
      invariant row.id == existing.id && row.origem == existing.origem && row.criadoEm == existing.criadoEm
      invariant row.atualizadoEm == agora
      invariant row.orgao == (if Orgao in fields[..i] then found.orgao else existing.orgao)
      invariant row.classe == (if Classe in fields[..i] then found.classe else existing.classe)
      invariant row.assunto == (if Assunto in fields[..i] then found.assunto else existing.assunto)
    {
      assert fields[..i + 1] == fields[..i] + [fields[i]];
      match fields[i]
      case Orgao => row := row.(orgao := found.orgao);
      case Classe => row := row.(classe := found.classe);
      case Assunto => row := row.(assunto := found.assunto);
    }
    assert fields[..|fields|] == fields;
    assert row == Refreshed(existing, found, agora);
    return Upserted(existing.id), table[key := row];
  }

  // ---------------------------------------------------------------------
  // syncCaseMovements

  /** A row of `case_movements`. */
  datatype MovementRow = MovementRow(
    caseId: int,
    data: string,
    descricao: string,
    orgao: Option<string>,
    tipo: string,
    exigeAcao: bool,
    prazoDias: Option<nat>,
    prazoFinal: Option<string>,
    status: string,
    hash: string)

  /** What the service takes from outside: the movement hash, `new Date(text)`
      as an ISO instant (`None` when invalid), the current instant, the day
      of an instant, and `toISOString().slice(0, 10)` of a day. */
  datatype Environment = Environment(
    hash: TavilyClient.FoundMovement -> string,
    parse: string -> Option<string>,
    now: string,
    dayOf: string -> int,
    dayText: int -> string)

  predicate Known(rows: seq<MovementRow>, caseId: int, hash: string) {
    exists r :: r in rows && r.caseId == caseId && r.hash == hash
  }

  /** The row a new movement becomes. */
  function MovementRowOf(env: Environment, caseId: int, mov: TavilyClient.FoundMovement): MovementRow {
    var c := ClassifyMovement(mov.descricao);
    var date := OrDefault(env.parse(mov.data), env.now);
    var prazoFinal := if c.exigeAcao && c.prazoDias.Some? && c.prazoDias.value != 0
      then Some(env.dayText(Deadline(env.dayOf(date), c.prazoDias.value))) else None;
    MovementRow(caseId, date, mov.descricao, mov.orgao, c.tipo, c.exigeAcao, c.prazoDias, prazoFinal,
      if c.exigeAcao then "pendente" else "concluido", env.hash(mov))
  }

  function OrDefault(o: Option<string>, d: string): string {
    if o.Some? then o.value else d
  }

  /** The table after the movements, in order, each inserted unless its hash
      is already recorded for the case. */
  function Synced(env: Environment, rows: seq<MovementRow>, caseId: int, movs: seq<TavilyClient.FoundMovement>): seq<MovementRow>
    decreases |movs|
  {
    if movs == [] then rows
    else
      var before := Synced(env, rows, caseId, movs[..|movs| - 1]);
      var mov := movs[|movs| - 1];
      if Known(before, caseId, env.hash(mov)) then before else before + [MovementRowOf(env, caseId, mov)]
  }

  /** The table only grows; each new row belongs to the case, carries a hash
      no earlier row of the case has, is pending exactly when it needs action
      and has a final day exactly when it needs action. */
  lemma {:induction false} SyncedSpec(env: Environment, rows: seq<MovementRow>, caseId: int, movs: seq<TavilyClient.FoundMovement>)
    ensures var r := Synced(env, rows, caseId, movs);
      && |rows| <= |r| <= |rows| + |movs|
      && r[..|rows|] == rows
      && (forall i :: |rows| <= i < |r| ==>
        && r[i].caseId == caseId
        && (forall j :: 0 <= j < i ==> !(r[j].caseId == caseId && r[j].hash == r[i].hash))
        && (r[i].status == "pendente" <==> r[i].exigeAcao)
        && (r[i].prazoFinal.Some? <==> r[i].exigeAcao))
    decreases |movs|
  {
    if movs != [] {
      var init := movs[..|movs| - 1];
      SyncedSpec(env, rows, caseId, init);
      var before := Synced(env, rows, caseId, init);
      var mov := movs[|movs| - 1];
      if !Known(before, caseId, env.hash(mov)) {
        var r := before + [MovementRowOf(env, caseId, mov)];
        assert r[..|rows|] == before[..|rows|];
        var i := |before|;
        forall j | 0 <= j < i ensures !(r[j].caseId == caseId && r[j].hash == r[i].hash) {
          assert r[j] == before[j] && before[j] in before;
        }
      }
    }
  }

  /** Every movement ends up recorded for the case. */
  lemma {:induction false} SyncedRecordsAll(env: Environment, rows: seq<MovementRow>, caseId: int, movs: seq<TavilyClient.FoundMovement>)
    ensures forall k :: 0 <= k < |movs| ==> Known(Synced(env, rows, caseId, movs), caseId, env.hash(movs[k]))
    decreases |movs|
  {
    if movs != [] {
      var init := movs[..|movs| - 1];
      SyncedRecordsAll(env, rows, caseId, init);
      var before := Synced(env, rows, caseId, init);
      var mov := movs[|movs| - 1];
      var r := Synced(env, rows, caseId, movs);
      assert r == before || r == before + [MovementRowOf(env, caseId, mov)];
      forall k | 0 <= k < |movs| ensures Known(r, caseId, env.hash(movs[k])) {
        if k < |init| {
          assert init[k] == movs[k];
          var w :| w in before && w.caseId == caseId && w.hash == env.hash(init[k]);
          assert w in r;
        } else if !Known(before, caseId, env.hash(mov)) {
          assert r[|before|] in r;
        }
      }
    }
  }

  /** Every new row is the row of one of the movements, with its
      classification and deadline. */
  lemma {:induction false} SyncedRowsOfMovements(env: Environment, rows: seq<MovementRow>, caseId: int, movs: seq<TavilyClient.FoundMovement>)
    ensures var r := Synced(env, rows, caseId, movs);
      && |rows| <= |r|
      && forall i :: |rows| <= i < |r| ==> exists k :: 0 <= k < |movs| && r[i] == MovementRowOf(env, caseId, movs[k])
    decreases |movs|
  {
    if movs != [] {
      var init := movs[..|movs| - 1];
      SyncedRowsOfMovements(env, rows, caseId, init);
      var before := Synced(env, rows, caseId, init);
      var r := Synced(env, rows, caseId, movs);
      forall i | |rows| <= i < |r| ensures exists k :: 0 <= k < |movs| && r[i] == MovementRowOf(env, caseId, movs[k]) {
        if i < |before| {
          var k :| 0 <= k < |init| && before[i] == MovementRowOf(env, caseId, init[k]);
          assert init[k] == movs[k];
        } else {
          assert r[i] == MovementRowOf(env, caseId, movs[|movs| - 1]);
        }
      }
    }
  }

  /** `UPDATE cases SET atualizado_em=? WHERE id=?` */
  function Touched(cases: CaseTable, caseId: int, agora: string): (r: CaseTable)
    ensures r.Keys == cases.Keys
    ensures forall k :: k in cases && cases[k].id == caseId ==> r[k] == cases[k].(atualizadoEm := agora)
    ensures forall k :: k in cases && cases[k].id != caseId ==> r[k] == cases[k]
  {
    map k | k in cases :: if cases[k].id == caseId then cases[k].(atualizadoEm := agora) else cases[k]
  }

  /** `syncCaseMovements(caseId, ...)` over the movements the search found;
      afterwards the case's update time is the instant the sync started. */
  method SyncCaseMovements(env: Environment, rows: seq<MovementRow>, cases: CaseTable, caseId: int,
                           movimentos: seq<TavilyClient.FoundMovement>)
    returns (result: seq<MovementRow>, casesAfter: CaseTable)
    ensures result == Synced(env, rows, caseId, movimentos)
    ensures casesAfter == Touched(cases, caseId, env.now)
  {
    var agora := env.now;
    result := rows;
    for k := 0 to |movimentos|
      invariant result == Synced(env, rows, caseId, movimentos[..k])
    {
      var mov := movimentos[k];
      assert movimentos[..k + 1][..k] == movimentos[..k];
      var hash := env.hash(mov);
      if Known(result, caseId, hash) {
        continue;
      }
      var c := ClassifyMovement(mov.descricao);
      var normalizedDate := OrDefault(env.parse(mov.data), env.now);
      var prazoFinal: Option<int> := None;
      if c.exigeAcao && c.prazoDias.Some? && c.prazoDias.value != 0 {
        var day := AddBusinessDays(env.dayOf(normalizedDate), c.prazoDias.value);
        prazoFinal := Some(day);
      }
      result := result + [MovementRow(
        caseId, normalizedDate, mov.descricao, mov.orgao, c.tipo, c.exigeAcao, c.prazoDias,
        if prazoFinal.Some? then Some(env.dayText(prazoFinal.value)) else None,
        if c.exigeAcao then "pendente" else "concluido",
        hash)];
    }
    assert movimentos[..|movimentos|] == movimentos;
    casesAfter := Touched(cases, caseId, agora);
  }
}
