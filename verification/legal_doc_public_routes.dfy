/**
  The request readers of the public legal-document routes: the kind of
  memory a text is stored as, the free-form metadata of a request and the
  request the topic-refinement route builds before calling the service.
 */
module LegalDocPublicRoutes {
  import opened Js
  import opened LegalDocRequest

  /** `MEMORIA_TIPOS_VALIDOS` */
  const MemoriaTiposValidos: set<string> := {"peça", "topico", "jurisprudencia", "doutrina", "artigo", "tese", "insight"}

  /** `normalizeMemoriaTipo(value)`: the trimmed, lower-cased text when it
      is one of the accepted kinds of memory; `undefined` otherwise. */
  function NormalizeMemoriaTipo(value: Json): (r: Option<string>)
    ensures r.Some? <==> value.Str? && ToLower(Trim(value.s)) in MemoriaTiposValidos
    ensures r.Some? ==> r.value == ToLower(Trim(value.s))
  {
    if !value.Str? then None
    else
      var normalized := ToLower(Trim(value.s));
      if normalized == "" then
        EmptyIsNotMemoriaTipo();
        None
      else if normalized in MemoriaTiposValidos then Some(normalized)
      else None
  }

  lemma EmptyIsNotMemoriaTipo()
    ensures "" !in MemoriaTiposValidos
  {
  }

  /** Lower-casing keeps a trimmed text trimmed. */
  lemma LowerKeepsTrimmed(s: string)
    requires IsTrimmed(s)
    ensures IsTrimmed(ToLower(s))
  {
  }

  /** An accepted kind is accepted again unchanged. */
  lemma NormalizeMemoriaTipoIdempotent(value: Json)
    requires NormalizeMemoriaTipo(value).Some?
    ensures NormalizeMemoriaTipo(Str(NormalizeMemoriaTipo(value).value)) == NormalizeMemoriaTipo(value)
  {
    var t := Trim(value.s);
    TrimSpec(value.s);
    LowerKeepsTrimmed(t);
    TrimOfTrimmed(ToLower(t));
    LowerIdempotent(t);
  }

  /** The values `parseMetadata` keeps: strings, numbers and booleans. */
  predicate IsScalar(v: Json) {
    v.Str? || v.Num? || v.Bool?
  }

  /** `parseMetadata(raw)`: the string, number and boolean entries of a
      plain object; `undefined` for anything else and when no such entry
      remains. */
  function ParseMetadata(raw: Json): (r: Option<map<string, Json>>)
    ensures r.Some? <==> raw.Obj? && exists k :: k in raw.fields && IsScalar(raw.fields[k])
    ensures r.Some? ==> forall k :: k in r.value <==> k in raw.fields && IsScalar(raw.fields[k])
    ensures r.Some? ==> forall k :: k in r.value ==> r.value[k] == raw.fields[k]
  {
    if !Truthy(raw) || !(raw.Obj? || raw.Arr?) || raw.Arr? then None
    else
      var entries := map k | k in raw.fields && IsScalar(raw.fields[k]) :: raw.fields[k];
      assert forall k :: k in raw.fields && IsScalar(raw.fields[k]) ==> k in entries;
      if entries == map[] then
        None
      else
        var k :| k in entries;
        Some(entries)
  }

  /** Reading the metadata already read changes nothing. */
  lemma ParseMetadataIdempotent(raw: Json)
    requires ParseMetadata(raw).Some?
    ensures ParseMetadata(Obj(ParseMetadata(raw).value)) == ParseMetadata(raw)
  {
    var m := ParseMetadata(raw).value;
    var k :| k in raw.fields && IsScalar(raw.fields[k]);
    assert k in m && IsScalar(m[k]);
    assert forall j :: j in m ==> IsScalar(m[j]);
    var again := ParseMetadata(Obj(m));
    assert again.Some?;
    assert again.value.Keys == m.Keys;
    assert forall j :: j in m ==> again.value[j] == m[j];
    assert again.value == m;
  }

  /** `sanitizeText(body.conteudo) || sanitizeText(body.texto) || sanitizeText(body.vetor)` */
  function RefineContent(body: Json): (r: Option<string>)
    ensures r.None? <==>
      && SanitizeText(Get(body, "conteudo")).None?
      && SanitizeText(Get(body, "texto")).None?
      && SanitizeText(Get(body, "vetor")).None?
    ensures r.Some? ==> r.value != [] && IsTrimmed(r.value)
    ensures SanitizeText(Get(body, "conteudo")).Some? ==> r == SanitizeText(Get(body, "conteudo"))
    ensures SanitizeText(Get(body, "conteudo")).None? && SanitizeText(Get(body, "texto")).Some? ==>
      r == SanitizeText(Get(body, "texto"))
  {
    var conteudo := SanitizeText(Get(body, "conteudo"));
    var texto := SanitizeText(Get(body, "texto"));
    var vetor := SanitizeText(Get(body, "vetor"));
    if conteudo.Some? then conteudo else if texto.Some? then texto else vetor
  }

  /** What the refinement route hands to the service. */
  datatype RefineTopicRequest = RefineTopicRequest(
    pieceId: string,
    topicoId: string,
    novoConteudo: string,
    tipoConteudo: Option<string>,
    metadados: Option<map<string, Json>>,
    pesquisaComplementar: Option<string>,
    clienteId: Option<string>,
    partes: seq<Parte>,
    topKMemoria: Option<int>,
    memoriaTipo: Option<string>)

  /** The route's decision: answer at once, or call the service. */
  datatype RefineOutcome =
    | Reject(status: int, error: string)
    | CallService(request: RefineTopicRequest)

  /** `typeof body.top_k === "number" && Number.isFinite(body.top_k) ? body.top_k : undefined` */
  function TopK(v: Json): (r: Option<int>)
    ensures r.Some? <==> v.Num? && v.num.Finite?
  {
    if v.Num? && v.num.Finite? then Some(v.num.n) else None
  }

  /** POST `/pecas/:id/topicos/:topicoId/refinar` up to the service call. */
  function RefineRoute(id: string, topicoId: string, body: Json): (r: RefineOutcome)
    ensures id == "" || topicoId == "" ==> r == Reject(400, "PARAMETROS_INVALIDOS")
    ensures id != "" && topicoId != "" && RefineContent(body).None? ==> r == Reject(400, "CONTEUDO_OBRIGATORIO")
    ensures r.CallService? <==> id != "" && topicoId != "" && RefineContent(body).Some?
    ensures r.CallService? ==>
      && r.request.pieceId == id && r.request.topicoId == topicoId
      && r.request.novoConteudo == RefineContent(body).value
      && r.request.tipoConteudo == NormalizeMemoriaTipo(Or(Or(Get(body, "tipo"), Get(body, "tipo_conteudo")), Get(body, "categoria")))
      && r.request.memoriaTipo == NormalizeMemoriaTipo(Get(body, "memoria_tipo"))
      && r.request.metadados == ParseMetadata(Get(body, "metadados"))
      && r.request.partes == (if Get(body, "partes").Arr? then FilterMap(ParteOf, Get(body, "partes").items) else [])
    ensures r.CallService? ==>
      var pesquisa := Get(body, "pesquisa_complementar");
      var cliente := Get(body, "cliente_id");
      var topK := Get(body, "top_k");
      && (r.request.pesquisaComplementar.Some? <==> pesquisa.Str? && !IsBlank(pesquisa.s))
      && (r.request.pesquisaComplementar.Some? ==> r.request.pesquisaComplementar.value == Trim(pesquisa.s))
      && (r.request.clienteId.Some? <==> cliente.Str? && !IsBlank(cliente.s))
      && (r.request.clienteId.Some? ==> r.request.clienteId.value == Trim(cliente.s))
      && (r.request.topKMemoria.Some? <==> topK.Num? && topK.num.Finite?)
      && (r.request.topKMemoria.Some? ==> r.request.topKMemoria.value == topK.num.n)
  {
    if id == "" || topicoId == "" then Reject(400, "PARAMETROS_INVALIDOS")
    else
      match RefineContent(body)
      case None => Reject(400, "CONTEUDO_OBRIGATORIO")
      case Some(conteudo) =>
        var partes := Get(body, "partes");
        CallService(RefineTopicRequest(
          id,
          topicoId,
          conteudo,
          NormalizeMemoriaTipo(Or(Or(Get(body, "tipo"), Get(body, "tipo_conteudo")), Get(body, "categoria"))),
          ParseMetadata(Get(body, "metadados")),
          SanitizeText(Get(body, "pesquisa_complementar")),
          SanitizeText(Get(body, "cliente_id")),
          if partes.Arr? then FilterMap(ParteOf, partes.items) else [],
          TopK(Get(body, "top_k")),
          NormalizeMemoriaTipo(Get(body, "memoria_tipo"))))
  }
}
