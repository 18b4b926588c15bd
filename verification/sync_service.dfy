/**
  The PDPJ synchronisation service: reading the gateway's process list,
  turning each item into a DTO, ingesting the items of one OAB
  registration, and running that for every tracked registration. The
  gateway call and the database upsert are parameters; the table is seen
  through the set of numbers that have a row.
 */
module SyncService {
  import opened Js
  import opened ProcessoDto

  // ---------------------------------------------------------------------
  // normalizeResp and dtoFromGateway

  /** `normalizeResp(resp)`: the list of items in a gateway answer. */
  function NormalizeResp(resp: Json): (r: seq<Json>)
    ensures !Truthy(resp) ==> r == []
    ensures resp.Arr? ==> r == resp.items
    ensures !resp.Arr? && Get(resp, "data").Arr? ==> r == Get(resp, "data").items
    ensures !resp.Arr? && !Get(resp, "data").Arr? && Get(resp, "items").Arr? ==> r == Get(resp, "items").items
    ensures !resp.Arr? && !Get(resp, "data").Arr? && !Get(resp, "items").Arr? ==> r == []
  {
    if !Truthy(resp) then []
    else if resp.Arr? then resp.items
    else if Get(resp, "data").Arr? then Get(resp, "data").items
    else if Get(resp, "items").Arr? then Get(resp, "items").items
    else []
  }

  /** Every answer shape the gateway uses gives back the list it wraps, a
      `data` list wins over an `items` list, and a normalised list is a
      fixed point. */
  lemma NormalizeRespRoundTrip(xs: seq<Json>, ys: seq<Json>, resp: Json)
    ensures NormalizeResp(Arr(xs)) == xs
    ensures NormalizeResp(Obj(map["data" := Arr(xs)])) == xs
    ensures NormalizeResp(Obj(map["items" := Arr(xs)])) == xs
    ensures NormalizeResp(Obj(map["data" := Arr(xs), "items" := Arr(ys)])) == xs
    ensures NormalizeResp(Arr(NormalizeResp(resp))) == NormalizeResp(resp)
  {
    assert "items" != "data";
  }

  /** `list?.map?.((x) => x.nome) || []`: only an array has `map`, and
      reading `nome` of a `null`/`undefined` item throws. */
  function PartyNames(list: Json): (r: Result<seq<Json>>)
    ensures r.Ok? && list.Arr? ==> |r.value| == |list.items|
    ensures r.Ok? && list.Arr? ==> forall i :: 0 <= i < |list.items| ==> r.value[i] == Get(list.items[i], "nome")
    ensures list.Arr? ==> (r.Err? <==> exists x :: x in list.items && (x.Undefined? || x.Null?))
    ensures !list.Arr? ==> r == Ok([])
  {
    if !list.Arr? then Ok([])
    else if exists i :: 0 <= i < |list.items| && (list.items[i].Undefined? || list.items[i].Null?) then Err("TypeError")
    else Ok(seq(|list.items|, i requires 0 <= i < |list.items| => Get(list.items[i], "nome")))
  }

  /** `dtoFromGateway(p)` */
  function DtoFromGateway(p: Json): (r: Result<Dto>)
    ensures r.Ok? ==> r.value.origem == Str("pdpj")
    ensures r.Ok? ==> Truthy(r.value.situacao)
    ensures r.Ok? && Truthy(Get(p, "numero_cnj")) ==> r.value.numero == Get(p, "numero_cnj")
    ensures r.Ok? && !Truthy(Get(p, "numero_cnj")) && Truthy(Get(p, "numero")) ==> r.value.numero == Get(p, "numero")
    ensures r.Ok? && !Truthy(Get(p, "numero_cnj")) && !Truthy(Get(p, "numero")) ==> r.value.numero == Str("")
    ensures r.Err? <==> PartyNames(Get(p, "partes_ativas")).Err? || PartyNames(Get(p, "partes_passivas")).Err?
    ensures r.Ok? ==> r.value.poloAtivo == PartyNames(Get(p, "partes_ativas")).value
    ensures r.Ok? ==> r.value.poloPassivo == PartyNames(Get(p, "partes_passivas")).value
  {
    var ativos := PartyNames(Get(p, "partes_ativas"));
    var passivos := PartyNames(Get(p, "partes_passivas"));
    if ativos.Err? || passivos.Err? then Err("TypeError")
    else
      Ok(Dto(
        Or(Or(Get(p, "numero_cnj"), Get(p, "numero")), Str("")),
        Or(Get(p, "classe"), Str("")),
        Or(Get(p, "assunto"), Str("")),
        Or(Or(Get(p, "orgao"), Get(p, "foro")), Str("")),
        Or(Get(p, "vara"), Str("")),
        Or(Or(Get(p, "instancia"), Get(p, "grau")), Str("")),
        Or(Or(Get(p, "situacao"), Get(p, "situacao_processo")), Str("em andamento")),
        ativos.value,
        passivos.value,
        Str("pdpj")))
  }

  // ---------------------------------------------------------------------
  // syncProcessesByOab

  /** `(uf || "GO").trim().toUpperCase()`; `None` where `trim` is not a
      function (a truthy non-string `uf`). */
  function SafeUf(uf: Json): (r: Option<string>)
    ensures r.Some? <==> !Truthy(uf) || uf.Str?
    ensures uf.Str? && uf.s != "" ==> r == Some(ToUpper(Trim(uf.s)))
  {
    var v := Or(uf, Str("GO"));
    if !v.Str? then None else Some(ToUpper(Trim(v.s)))
  }

  /** A missing state is Goiás. */
  lemma SafeUfDefault(uf: Json)
    requires !Truthy(uf)
    ensures SafeUf(uf) == Some("GO")
  {
    TrimOfTrimmed("GO");
    assert ToUpper("GO") == "GO";
  }

  /** Any state comes out trimmed and in upper case. */
  lemma SafeUfSpec(uf: Json)
    requires SafeUf(uf).Some?
    ensures IsTrimmed(SafeUf(uf).value)
    ensures ToUpper(SafeUf(uf).value) == SafeUf(uf).value
  {
    var t := Trim(Or(uf, Str("GO")).s);
    TrimSpec(Or(uf, Str("GO")).s);
    UpperKeepsTrimmed(t);
    UpperIdempotent(t);
  }

  /** The ingestion state: the ids pushed so far and the numbers with a
      row. `threw` records an exception that ends the call. */
  datatype Ingestion = Ingestion(inserted: seq<nat>, updated: seq<nat>, known: set<Json>, threw: bool)

  /** One turn of the ingestion loop. */
  function IngestItem(st: Ingestion, p: Json, upsert: (Dto, set<Json>) -> UpsertAnswer): Ingestion {
    if st.threw then st
    else match DtoFromGateway(p)
      case Err(_) => st.(threw := true)
      case Ok(dto) =>
        if !Truthy(dto.numero) then st
        else
          var answer := upsert(dto, st.known);
          if answer.Threw? then st.(threw := true)
          else if answer.n == 0 then st
          else if dto.numero in st.known then st.(updated := st.updated + [answer.n], known := Apply(st.known, dto, answer))
          else st.(inserted := st.inserted + [answer.n], known := Apply(st.known, dto, answer))
  }

  /** The ingestion loop over `items`, from state `st`. */
  function Ingest(st: Ingestion, items: seq<Json>, upsert: (Dto, set<Json>) -> UpsertAnswer): Ingestion {
    if items == [] then st
    else IngestItem(Ingest(st, items[..|items| - 1], upsert), items[|items| - 1], upsert)
  }

  /** Item `i` of the loop reached a successful upsert: no earlier item
      threw, its DTO was built with a truthy number and the upsert answered
      a truthy id. */
  predicate UpsertedAt(st: Ingestion, items: seq<Json>, upsert: (Dto, set<Json>) -> UpsertAnswer, i: int)
    requires 0 <= i < |items|
  {
    var before := Ingest(st, items[..i], upsert);
    var dto := DtoFromGateway(items[i]);
    !before.threw && dto.Ok? && Truthy(dto.value.numero) && !Failed(upsert(dto.value, before.known))
  }

  /** One turn: the table only grows, and a number gains a row only from
      this item's successful upsert, which always leaves its row. */
  lemma IngestItemKnown(prev: Ingestion, p: Json, upsert: (Dto, set<Json>) -> UpsertAnswer)
    ensures var r := IngestItem(prev, p, upsert);
      var ok := !prev.threw && DtoFromGateway(p).Ok? && Truthy(DtoFromGateway(p).value.numero)
                && !Failed(upsert(DtoFromGateway(p).value, prev.known));
      && prev.known <= r.known
      && (ok ==> DtoFromGateway(p).value.numero in r.known)
      && (forall x :: x in r.known && x !in prev.known ==> ok && x == DtoFromGateway(p).value.numero)
  {
  }

  /** Whether an earlier item reached a successful upsert does not depend
      on the items after it. */
  lemma UpsertedAtPrefix(st: Ingestion, items: seq<Json>, upsert: (Dto, set<Json>) -> UpsertAnswer, i: int)
    requires 0 <= i < |items| - 1
    ensures UpsertedAt(st, items, upsert, i) == UpsertedAt(st, items[..|items| - 1], upsert, i)
  {
    assert items[..i] == items[..|items| - 1][..i];
  }

  /** Every item whose upsert succeeded leaves its number with a row. */
  lemma {:induction false} IngestKeepsUpserted(st: Ingestion, items: seq<Json>, upsert: (Dto, set<Json>) -> UpsertAnswer)
    ensures forall i :: 0 <= i < |items| && UpsertedAt(st, items, upsert, i) ==>
      DtoFromGateway(items[i]).value.numero in Ingest(st, items, upsert).known
  {
    if items != [] {
      var n := |items| - 1;
      var init := items[..n];
      IngestKeepsUpserted(st, init, upsert);
      var prev := Ingest(st, init, upsert);
      assert Ingest(st, items, upsert) == IngestItem(prev, items[n], upsert);
      IngestItemKnown(prev, items[n], upsert);
      forall i | 0 <= i < |items| && UpsertedAt(st, items, upsert, i)
        ensures DtoFromGateway(items[i]).value.numero in Ingest(st, items, upsert).known
      {
        if i < n {
          UpsertedAtPrefix(st, items, upsert, i);
          assert init[i] == items[i];
        } else {
          assert items[..n] == init;
        }
      }
    }
  }

  /** A number gains a row only from an item whose upsert succeeded. */
  lemma {:induction false} IngestOnlyUpserted(st: Ingestion, items: seq<Json>, upsert: (Dto, set<Json>) -> UpsertAnswer)
    ensures forall x :: x in Ingest(st, items, upsert).known && x !in st.known ==>
      exists i :: 0 <= i < |items| && UpsertedAt(st, items, upsert, i) && DtoFromGateway(items[i]).value.numero == x
  {
    if items != [] {
      var n := |items| - 1;
      var init := items[..n];
      IngestOnlyUpserted(st, init, upsert);
      var prev := Ingest(st, init, upsert);
      var r := Ingest(st, items, upsert);
      assert r == IngestItem(prev, items[n], upsert);
      IngestItemKnown(prev, items[n], upsert);
      forall x | x in r.known && x !in st.known
        ensures exists i :: 0 <= i < |items| && UpsertedAt(st, items, upsert, i) && DtoFromGateway(items[i]).value.numero == x
      {
        if x in prev.known {
          var i :| 0 <= i < |init| && UpsertedAt(st, init, upsert, i) && DtoFromGateway(init[i]).value.numero == x;
          UpsertedAtPrefix(st, items, upsert, i);
          assert init[i] == items[i];
        } else {
          assert items[..n] == init;
          assert UpsertedAt(st, items, upsert, n);
        }
      }
    }
  }

  /** The numbers with a row afterwards are the ones there before plus
      exactly the numbers of the items whose upsert succeeded. */
  lemma IngestKnown(st: Ingestion, items: seq<Json>, upsert: (Dto, set<Json>) -> UpsertAnswer)
    ensures var r := Ingest(st, items, upsert);
      && (forall i :: 0 <= i < |items| && UpsertedAt(st, items, upsert, i) ==>
            DtoFromGateway(items[i]).value.numero in r.known)
      && (forall x :: x in r.known && x !in st.known ==>
            exists i :: 0 <= i < |items| && UpsertedAt(st, items, upsert, i) && DtoFromGateway(items[i]).value.numero == x)
  {
    IngestKeepsUpserted(st, items, upsert);
    IngestOnlyUpserted(st, items, upsert);
  }

  /** `b` is `a` followed by truthy ids. */
  predicate ExtendsWithIds(a: seq<nat>, b: seq<nat>) {
    |a| <= |b| && b[..|a|] == a && forall i :: |a| <= i < |b| ==> b[i] != 0
  }

  lemma ExtendsTransitive(a: seq<nat>, b: seq<nat>, c: seq<nat>)
    requires ExtendsWithIds(a, b) && ExtendsWithIds(b, c)
    ensures ExtendsWithIds(a, c)
  {
    assert c[..|a|] == c[..|b|][..|a|];
    forall i | |a| <= i < |c| ensures c[i] != 0 {
      if i < |b| {
        assert c[i] == c[..|b|][i];
      }
    }
  }

  /** One turn adds at most one id, to one of the lists. */
  lemma IngestItemLists(prev: Ingestion, p: Json, upsert: (Dto, set<Json>) -> UpsertAnswer)
    ensures var r := IngestItem(prev, p, upsert);
      && |r.inserted| + |r.updated| <= |prev.inserted| + |prev.updated| + 1
      && ExtendsWithIds(prev.inserted, r.inserted)
      && ExtendsWithIds(prev.updated, r.updated)
      && (prev.threw ==> r == prev)
  {
    var r := IngestItem(prev, p, upsert);
    assert r.inserted[..|prev.inserted|] == prev.inserted;
    assert r.updated[..|prev.updated|] == prev.updated;
  }

  /** The lists only grow at their ends, by at most one id per item, and
      every id added is truthy. */
  lemma {:induction false} IngestLists(st: Ingestion, items: seq<Json>, upsert: (Dto, set<Json>) -> UpsertAnswer)
    ensures var r := Ingest(st, items, upsert);
      && |r.inserted| + |r.updated| <= |st.inserted| + |st.updated| + |items|
      && ExtendsWithIds(st.inserted, r.inserted)
      && ExtendsWithIds(st.updated, r.updated)
      && (st.threw ==> r == st)
  {
    if items == [] {
      assert st.inserted[..|st.inserted|] == st.inserted;
      assert st.updated[..|st.updated|] == st.updated;
    } else {
      var init := items[..|items| - 1];
      var prev := Ingest(st, init, upsert);
      IngestLists(st, init, upsert);
      IngestItemLists(prev, items[|items| - 1], upsert);
      ExtendsTransitive(st.inserted, prev.inserted, Ingest(st, items, upsert).inserted);
      ExtendsTransitive(st.updated, prev.updated, Ingest(st, items, upsert).updated);
    }
  }

  /** The table only grows, by one number per insertion. */
  lemma {:induction false} IngestCount(st: Ingestion, items: seq<Json>, upsert: (Dto, set<Json>) -> UpsertAnswer)
    ensures var r := Ingest(st, items, upsert);
      && st.known <= r.known
      && |r.known| - |st.known| == |r.inserted| - |st.inserted|
  {
    if items != [] {
      var prev := Ingest(st, items[..|items| - 1], upsert);
      IngestCount(st, items[..|items| - 1], upsert);
      var p := items[|items| - 1];
      if !prev.threw && DtoFromGateway(p).Ok? {
        var dto := DtoFromGateway(p).value;
        ApplyCount(prev.known, dto, upsert(dto, prev.known));
      }
    }
  }

  /** Each item adds at most one id, to exactly one of the two lists;
      every id is truthy; and an id is inserted exactly when its number
      gains a row, so the table grows by the number of insertions. */
  lemma IngestSpec(st: Ingestion, items: seq<Json>, upsert: (Dto, set<Json>) -> UpsertAnswer)
    ensures var r := Ingest(st, items, upsert);
      && |r.inserted| + |r.updated| <= |st.inserted| + |st.updated| + |items|
      && |r.inserted| >= |st.inserted| && r.inserted[..|st.inserted|] == st.inserted
      && |r.updated| >= |st.updated| && r.updated[..|st.updated|] == st.updated
      && (forall i :: |st.inserted| <= i < |r.inserted| ==> r.inserted[i] != 0)
      && (forall i :: |st.updated| <= i < |r.updated| ==> r.updated[i] != 0)
      && st.known <= r.known
      && |r.known| == |st.known| + |r.inserted| - |st.inserted|
      && (st.threw ==> r == st)
  {
    IngestLists(st, items, upsert);
    IngestCount(st, items, upsert);
  }

  /** The outcome of `syncProcessesByOab`. */
  datatype OabSync =
    | OabRequired
    | Rejected
    | Synced(total: nat, inseridos: seq<nat>, atualizados: seq<nat>)

  /** What `syncProcessesByOab` does once the gateway has answered with
      `items`: the outcome and the numbers with a row afterwards. */
  function SyncItems(items: seq<Json>, ingest: bool, upsert: (Dto, set<Json>) -> UpsertAnswer,
                     known: set<Json>): (OabSync, set<Json>)
  {
    if !ingest then (Synced(|items|, [], []), known)
    else
      var st := Ingest(Ingestion([], [], known, false), items, upsert);
      if st.threw then (Rejected, st.known)
      else (Synced(|items|, st.inserted, st.updated), st.known)
  }

  /** `total` counts every item; without ingestion the lists are empty and
      the table untouched; with it, each ingested item lands in at most one
      list, every id is truthy and the insertions are exactly the numbers
      that gained a row. */
  lemma SyncItemsSpec(items: seq<Json>, ingest: bool, upsert: (Dto, set<Json>) -> UpsertAnswer,
                      known: set<Json>)
    ensures var r := SyncItems(items, ingest, upsert, known);
      && !r.0.OabRequired?
      && (r.0.Synced? ==> r.0.total == |items|)
      && (r.0.Synced? ==> |r.0.inseridos| + |r.0.atualizados| <= r.0.total)
      && (r.0.Synced? ==> forall id :: id in r.0.inseridos + r.0.atualizados ==> id != 0)
      && (!ingest ==> r.0 == Synced(|items|, [], []) && r.1 == known)
      && known <= r.1 && |known| <= |r.1|
      && (r.0.Synced? ==> |r.1| == |known| + |r.0.inseridos|)
  {
    if ingest {
      var st := Ingest(Ingestion([], [], known, false), items, upsert);
      IngestSpec(Ingestion([], [], known, false), items, upsert);
      assert st.inserted[..0] == [];
      forall id | id in st.inserted + st.updated ensures id != 0 {
        if id in st.inserted {
          var i :| 0 <= i < |st.inserted| && st.inserted[i] == id;
        } else {
          var i :| 0 <= i < |st.updated| && st.updated[i] == id;
        }
      }
    }
  }

  /** `syncProcessesByOab({ oab, uf, ingest })`: the outcome and the
      numbers with a row afterwards. `gateway` answers `None` when the
      request rejects. */
  function SyncByOab(oab: Json, uf: Json, ingest: bool, gateway: (Json, string) -> Option<Json>,
                     upsert: (Dto, set<Json>) -> UpsertAnswer, known: set<Json>): (OabSync, set<Json>)
  {
    if !Truthy(oab) then (OabRequired, known)
    else
      var safeUf := SafeUf(uf);
      if safeUf.None? then (Rejected, known)
      else
        var response := gateway(oab, safeUf.value);
        if response.None? then (Rejected, known)
        else SyncItems(NormalizeResp(response.value), ingest, upsert, known)
  }

  /** The guard comes before any gateway call; without ingestion the
      lists are empty and the table untouched; with it, `total` counts
      every item, each ingested item lands in one list, and the insertions
      are exactly the numbers that gained a row. */
  lemma SyncByOabSpec(oab: Json, uf: Json, ingest: bool, gateway: (Json, string) -> Option<Json>,
                      upsert: (Dto, set<Json>) -> UpsertAnswer, known: set<Json>)
    ensures var r := SyncByOab(oab, uf, ingest, gateway, upsert, known);
      && (r.0 == OabRequired <==> !Truthy(oab))
      && (r.0 == OabRequired ==> r.1 == known)
      && (r.0.Synced? ==> r.0.total == |NormalizeResp(gateway(oab, SafeUf(uf).value).value)|)
      && (r.0.Synced? ==> |r.0.inseridos| + |r.0.atualizados| <= r.0.total)
      && (r.0.Synced? ==> forall id :: id in r.0.inseridos + r.0.atualizados ==> id != 0)
      && (r.0.Synced? && !ingest ==> r.0.inseridos == [] && r.0.atualizados == [] && r.1 == known)
      && known <= r.1 && |known| <= |r.1|
      && (r.0.Synced? ==> |r.1| == |known| + |r.0.inseridos|)
  {
    if Truthy(oab) && SafeUf(uf).Some? && gateway(oab, SafeUf(uf).value).Some? {
      SyncItemsSpec(NormalizeResp(gateway(oab, SafeUf(uf).value).value), ingest, upsert, known);
    }
  }

  /** The loop of `syncProcessesByOab`, ingesting the items one by one. */
  method IngestItems(items: seq<Json>, upsert: (Dto, set<Json>) -> UpsertAnswer, known: set<Json>)
    returns (st: Ingestion)
    ensures st == Ingest(Ingestion([], [], known, false), items, upsert)
  {
    st := Ingestion([], [], known, false);
    for i := 0 to |items|
      invariant st == Ingest(Ingestion([], [], known, false), items[..i], upsert)
    {
      assert items[..i + 1][..i] == items[..i];
      var dto := DtoFromGateway(items[i]);
      if st.threw {
        continue;
      }
      if dto.Err? {
        st := st.(threw := true);
        continue;
      }
      if !Truthy(dto.value.numero) {
        continue;
      }
      var before := dto.value.numero in st.known;
      var answer := upsert(dto.value, st.known);
      if answer.Threw? {
        st := st.(threw := true);
        continue;
      }
      if answer.n == 0 {
        continue;
      }
      var known' := Apply(st.known, dto.value, answer);
      if before {
        st := st.(updated := st.updated + [answer.n], known := known');
      } else {
        st := st.(inserted := st.inserted + [answer.n], known := known');
      }
    }
    assert items[..|items|] == items;
  }

  /** `syncProcessesByOab` */
  method SyncProcessesByOab(oab: Json, uf: Json, ingest: bool, gateway: (Json, string) -> Option<Json>,
                            upsert: (Dto, set<Json>) -> UpsertAnswer, known: set<Json>)
    returns (out: OabSync, after: set<Json>)
    ensures (out, after) == SyncByOab(oab, uf, ingest, gateway, upsert, known)
  {
    if !Truthy(oab) {
      return OabRequired, known;
    }
    var safeUf := SafeUf(uf);
    if safeUf.None? {
      return Rejected, known;
    }
    var response := gateway(oab, safeUf.value);
    if response.None? {
      return Rejected, known;
    }
    var items := NormalizeResp(response.value);
    if !ingest {
      return Synced(|items|, [], []), known;
    }
    var st := IngestItems(items, upsert, known);
    if st.threw {
      out, after := Rejected, st.known;
    } else {
      out, after := Synced(|items|, st.inserted, st.updated), st.known;
    }
    assert (out, after) == SyncItems(items, ingest, upsert, known);
  }

  // ---------------------------------------------------------------------
  // syncByAllTrackedOABs

  /** The running sums of `syncByAllTrackedOABs` and the table after it. */
  datatype Totals = Totals(total: nat, novos: nat, known: set<Json>)

  /** `resp.total || 0` and `resp.inseridos?.length || 0` added for one
      registration; a rejected call only leaves its database writes. */
  function AddOab(t: Totals, oab: (Json, Json), gateway: (Json, string) -> Option<Json>,
                  upsert: (Dto, set<Json>) -> UpsertAnswer): Totals
  {
    var r := SyncByOab(oab.0, oab.1, true, gateway, upsert, t.known);
    if r.0.Synced? then Totals(t.total + r.0.total, t.novos + |r.0.inseridos|, r.1)
    else t.(known := r.1)
  }

  function SyncAll(t: Totals, oabs: seq<(Json, Json)>, gateway: (Json, string) -> Option<Json>,
                   upsert: (Dto, set<Json>) -> UpsertAnswer): Totals
  {
    if oabs == [] then t
    else AddOab(SyncAll(t, oabs[..|oabs| - 1], gateway, upsert), oabs[|oabs| - 1], gateway, upsert)
  }

  /** One registration: the table only grows, the sums only grow, and
      `novos` grows by at most the numbers that gained a row, exactly by
      them when the call was not rejected. */
  lemma AddOabSpec(t: Totals, oab: (Json, Json), gateway: (Json, string) -> Option<Json>,
                   upsert: (Dto, set<Json>) -> UpsertAnswer)
    ensures var r := AddOab(t, oab, gateway, upsert);
      && t.known <= r.known
      && r.total >= t.total && r.novos >= t.novos
      && r.novos - t.novos <= |r.known| - |t.known|
      && (!SyncByOab(oab.0, oab.1, true, gateway, upsert, t.known).0.Rejected? ==> r.novos - t.novos == |r.known| - |t.known|)
  {
    SyncByOabSpec(oab.0, oab.1, true, gateway, upsert, t.known);
  }

  /** No call of the loop was rejected. */
  predicate NoneRejected(t: Totals, oabs: seq<(Json, Json)>, gateway: (Json, string) -> Option<Json>,
                         upsert: (Dto, set<Json>) -> UpsertAnswer)
  {
    oabs == [] ||
    (var init := oabs[..|oabs| - 1];
     var oab := oabs[|oabs| - 1];
     NoneRejected(t, init, gateway, upsert)
     && !SyncByOab(oab.0, oab.1, true, gateway, upsert, SyncAll(t, init, gateway, upsert).known).0.Rejected?)
  }

  /** No registration stops the loop; `novos` never exceeds the numbers
      that gained a row (a rejected call may have written rows it does
      not report), and equals it when no call is rejected. */
  lemma {:induction false} SyncAllSpec(t: Totals, oabs: seq<(Json, Json)>, gateway: (Json, string) -> Option<Json>,
                                       upsert: (Dto, set<Json>) -> UpsertAnswer)
    ensures var r := SyncAll(t, oabs, gateway, upsert);
      && t.known <= r.known
      && r.total >= t.total && r.novos >= t.novos
      && r.novos - t.novos <= |r.known| - |t.known|
      && (NoneRejected(t, oabs, gateway, upsert) ==> r.novos - t.novos == |r.known| - |t.known|)
  {
    if oabs != [] {
      var init := oabs[..|oabs| - 1];
      SyncAllSpec(t, init, gateway, upsert);
      AddOabSpec(SyncAll(t, init, gateway, upsert), oabs[|oabs| - 1], gateway, upsert);
    }
  }

  lemma SyncAllSnoc(t: Totals, oabs: seq<(Json, Json)>, i: nat, gateway: (Json, string) -> Option<Json>,
                    upsert: (Dto, set<Json>) -> UpsertAnswer)
    requires i < |oabs|
    ensures SyncAll(t, oabs[..i + 1], gateway, upsert) == AddOab(SyncAll(t, oabs[..i], gateway, upsert), oabs[i], gateway, upsert)
  {
    assert oabs[..i + 1][..i] == oabs[..i];
  }

  /** `syncByAllTrackedOABs()` over the active registrations `oabs`. */
  method SyncByAllTrackedOabs(oabs: seq<(Json, Json)>, gateway: (Json, string) -> Option<Json>,
                              upsert: (Dto, set<Json>) -> UpsertAnswer, known: set<Json>)
    returns (total: nat, novos: nat, after: set<Json>)
    ensures Totals(total, novos, after) == SyncAll(Totals(0, 0, known), oabs, gateway, upsert)
  {
    total, novos, after := 0, 0, known;
    for i := 0 to |oabs|
      invariant Totals(total, novos, after) == SyncAll(Totals(0, 0, known), oabs[..i], gateway, upsert)
    {
      SyncAllSnoc(Totals(0, 0, known), oabs, i, gateway, upsert);
      var out, known' := SyncProcessesByOab(oabs[i].0, oabs[i].1, true, gateway, upsert, after);
      after := known';
      if out.Synced? {
        total := total + out.total;
        novos := novos + |out.inseridos|;
      }
    }
    assert oabs[..|oabs|] == oabs;
  }
}
