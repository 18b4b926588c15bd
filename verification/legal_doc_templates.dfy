/**
  The registry of legal-document templates: for each of the twelve kinds of
  filing (`TipoPeca`), the ordered blocks (sections) the generated text must
  follow and the request fields that are mandatory for it.
 */
module LegalDocTemplates {
  import opened Js

  datatype TipoPeca =
    | PeticaoInicial
    | Contestacao
    | Replica
    | TutelaUrgencia
    | AgravoInstrumento
    | PedidoSaneamento
    | ProducaoProvas
    | Interlocutoria
    | Manifestacao
    | Quesitos
    | Memoriais
    | Apelacao

  /** The request fields a template can make mandatory. */
  datatype Campo = Partes | ResumoFatico | Pedidos

  datatype Template = Template(blocos: seq<string>, camposObrigatorios: seq<Campo>)

  /** The identifier of each kind, as it is written in requests. */
  function Name(t: TipoPeca): string {
    match t
    case PeticaoInicial => "peticao_inicial"
    case Contestacao => "contestacao"
    case Replica => "replica"
    case TutelaUrgencia => "tutela_urgencia"
    case AgravoInstrumento => "agravo_instrumento"
    case PedidoSaneamento => "pedido_saneamento"
    case ProducaoProvas => "producao_provas"
    case Interlocutoria => "interlocutoria"
    case Manifestacao => "manifestacao"
    case Quesitos => "quesitos"
    case Memoriais => "memoriais"
    case Apelacao => "apelacao"
  }

  /** The kinds in the order the registry declares them. */
  const Kinds: seq<TipoPeca> := [
    PeticaoInicial, Contestacao, Replica, TutelaUrgencia, AgravoInstrumento, PedidoSaneamento,
    ProducaoProvas, Interlocutoria, Manifestacao, Quesitos, Memoriais, Apelacao
  ]

  /** The kinds for which a non-empty party list is mandatory. */
  predicate PartiesMandatory(t: TipoPeca) {
    t in {PeticaoInicial, Contestacao, Replica, TutelaUrgencia, AgravoInstrumento, PedidoSaneamento}
  }

  /** `LEGAL_DOC_TEMPLATES[t]` */
  function TemplateOf(t: TipoPeca): (r: Template)
    ensures |r.blocos| >= 3 && r.blocos[0] == (if t == Quesitos then "introducao" else "preambulo")
    ensures ResumoFatico in r.camposObrigatorios && Pedidos !in r.camposObrigatorios
    ensures Partes in r.camposObrigatorios <==> PartiesMandatory(t)
  {
    var partesEResumo := [Partes, ResumoFatico];
    var soResumo := [ResumoFatico];
    match t
    case PeticaoInicial =>
      Template(["preambulo", "dos_fatos", "fundamentacao_juridica", "jurisprudencia", "dos_pedidos", "valor_da_causa"], partesEResumo)
    case Contestacao =>
      Template(["preambulo", "preliminares", "impugnacao_aos_fatos", "fundamentacao_juridica", "provas", "pedidos_finais"], partesEResumo)
    case Replica =>
      Template(["preambulo", "impugnacao_aos_argumentos", "reforco_das_teses", "jurisprudencia", "pedidos"], partesEResumo)
    case TutelaUrgencia =>
      Template(["preambulo", "fumus_boni_iuris", "periculum_in_mora", "fundamentacao_juridica", "pedidos_antecipatorios"], partesEResumo)
    case AgravoInstrumento =>
      Template(["preambulo", "exposicao_dos_fatos", "fundamentacao_juridica", "requerimentos", "documentos_obrigatorios"], partesEResumo)
    case PedidoSaneamento =>
      Template(["preambulo", "pontos_controvertidos", "medidas_propostas", "fundamentacao", "pedidos"], partesEResumo)
    case ProducaoProvas =>
      Template(["preambulo", "justificativa", "tipos_provas", "fundamentacao", "pedidos"], soResumo)
    case Interlocutoria =>
      Template(["preambulo", "fundamentacao", "pedido"], soResumo)
    case Manifestacao =>
      Template(["preambulo", "resposta_argumentos", "fundamentacao", "conclusao"], soResumo)
    case Quesitos =>
      Template(["introducao", "perguntas", "fundamento_tecnico"], soResumo)
    case Memoriais =>
      Template(["preambulo", "resumo_dos_fatos", "teses_defendidas", "jurisprudencia_aplicavel", "conclusao"], soResumo)
    case Apelacao =>
      Template(["preambulo", "resumo_da_decisao", "fundamentacao", "reforma_pleiteada", "pedidos"], soResumo)
  }

  /** No template lists a block twice. */
  lemma TemplateBlocksDistinct(t: TipoPeca)
    ensures Distinct(TemplateOf(t).blocos)
  {
  }

  /** Reads a kind back from its identifier; `None` for any other string. */
  function ParseName(s: string): (r: Option<TipoPeca>)
    ensures r.Some? ==> Name(r.value) == s
    ensures r.None? ==> forall t :: Name(t) != s
  {
    if s == "peticao_inicial" then Some(PeticaoInicial)
    else if s == "contestacao" then Some(Contestacao)
    else if s == "replica" then Some(Replica)
    else if s == "tutela_urgencia" then Some(TutelaUrgencia)
    else if s == "agravo_instrumento" then Some(AgravoInstrumento)
    else if s == "pedido_saneamento" then Some(PedidoSaneamento)
    else if s == "producao_provas" then Some(ProducaoProvas)
    else if s == "interlocutoria" then Some(Interlocutoria)
    else if s == "manifestacao" then Some(Manifestacao)
    else if s == "quesitos" then Some(Quesitos)
    else if s == "memoriais" then Some(Memoriais)
    else if s == "apelacao" then Some(Apelacao)
    else None
  }

  /** Each identifier names exactly one kind, so reading back an identifier
      gives the kind it was written from. */
  lemma ParseNameOfName(t: TipoPeca)
    ensures ParseName(Name(t)) == Some(t)
  {
    match t
    case PeticaoInicial =>
    case Contestacao =>
    case Replica =>
    case TutelaUrgencia =>
    case AgravoInstrumento =>
    case PedidoSaneamento =>
    case ProducaoProvas =>
    case Interlocutoria =>
    case Manifestacao =>
    case Quesitos =>
    case Memoriais =>
    case Apelacao =>
  }

  lemma NameInjective(t: TipoPeca, u: TipoPeca)
    ensures Name(t) == Name(u) ==> t == u
  {
    ParseNameOfName(t);
    ParseNameOfName(u);
  }

  /** Only `t` is named `Name(t)`. */
  lemma NameNamesOne(t: TipoPeca)
    ensures forall u :: Name(u) == Name(t) ==> u == t
  {
    forall u | Name(u) == Name(t) ensures u == t {
      NameInjective(t, u);
    }
  }

  /** `TIPOS_PECA`: the keys of the registry in declaration order. */
  function TiposPeca(): (r: seq<string>)
    ensures |r| == |Kinds| == 12
    ensures forall i :: 0 <= i < |r| ==> r[i] == Name(Kinds[i])
  {
    seq(|Kinds|, i requires 0 <= i < |Kinds| => Name(Kinds[i]))
  }

  /** Every kind is listed in `TIPOS_PECA`. */
  lemma TiposPecaComplete(t: TipoPeca)
    ensures Name(t) in TiposPeca()
  {
    var i := match t
      case PeticaoInicial => 0 case Contestacao => 1 case Replica => 2 case TutelaUrgencia => 3
      case AgravoInstrumento => 4 case PedidoSaneamento => 5 case ProducaoProvas => 6
      case Interlocutoria => 7 case Manifestacao => 8 case Quesitos => 9 case Memoriais => 10
      case Apelacao => 11;
    assert TiposPeca()[i] == Name(t);
  }

  /** No kind is listed twice, so `TIPOS_PECA` names each template once. */
  lemma TiposPecaDistinct()
    ensures Distinct(TiposPeca())
  {
    forall i, j | 0 <= i < j < 12 ensures TiposPeca()[i] != TiposPeca()[j] {
      NameInjective(Kinds[i], Kinds[j]);
    }
  }

  /** `getTemplate(tipo)`: the registered template, or the thrown error for
      an identifier that is not a key of the registry. */
  function GetTemplate(tipo: string): (r: Result<Template>)
    ensures forall t :: Name(t) == tipo ==> r == Ok(TemplateOf(t))
    ensures (forall t :: Name(t) != tipo) ==> r == Err("Template não encontrado para o tipo de peça: " + tipo)
  {
    match ParseName(tipo)
    case Some(t) => NameNamesOne(t); Ok(TemplateOf(t))
    case None => Err("Template não encontrado para o tipo de peça: " + tipo)
  }
}
