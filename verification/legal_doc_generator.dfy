/**
  `generateLegalDocument`: the text from the generator, then a best-effort
  search for case law whose first three hits go with the text. The
  generator and the search are parameters.
 */
module LegalDocGenerator {
  import opened Js
  import opened LegalDocTemplates
  import opened LegalDocRequest
  import opened OpenAiClient

  const DefaultJurisDomains: seq<string> := ["stj.jus.br", "jusbrasil.com.br", "conjur.com.br"]

  /** How many results the search is asked for. */
  const ResearchLimit: nat := 8

  /** How many results go with the text. */
  const KeptResults: nat := 3

  /** How much of the facts summary goes into the search query. */
  const PreviewLength: nat := 160

  datatype GenerateLegalDocumentInput = GenerateLegalDocumentInput(
    tipoPeca: TipoPeca,
    partes: seq<Parte>,
    resumoFatico: string,
    pedidos: Option<string>,
    documentos: Option<seq<string>>,
    clienteId: Option<string>,
    templateBlocos: Option<seq<string>>)

  datatype LegalDocumentResult<R> = LegalDocumentResult(texto: string, jurisprudencias: seq<R>)

  /** `{ ...input, tipoPeca: input.tipoPeca }`: the input as the generator receives it. */
  function PieceRequest(input: GenerateLegalDocumentInput): GeneratePiecePayload {
    GeneratePiecePayload(Name(input.tipoPeca), input.partes, input.resumoFatico, input.pedidos,
                         input.documentos, input.clienteId, input.templateBlocos)
  }

  /** The search query: the kind of filing and the first 160 characters of the facts. */
  function ResearchQuery(tipo: TipoPeca, resumo: string): (q: string)
    ensures exists k :: 0 <= k <= |resumo| && k <= PreviewLength
                        && (k == |resumo| || k == PreviewLength)
                        && q == "jurisprudência sobre " + Name(tipo) + " relacionada a " + resumo[..k]
  {
    var k := if |resumo| < PreviewLength then |resumo| else PreviewLength;
    "jurisprudência sobre " + Name(tipo) + " relacionada a " + resumo[..k]
  }

  /** `generateLegalDocument(input)`. A generator failure propagates; a
      search failure leaves the text alone with no case law; otherwise the
      first three results of the search go with the text. */
  method GenerateLegalDocument<R>(
    input: GenerateLegalDocumentInput,
    generate: GeneratePiecePayload -> Result<string>,
    research: (string, seq<string>, nat) -> Result<seq<R>>)
    returns (r: Result<LegalDocumentResult<R>>)
    ensures generate(PieceRequest(input)).Err? ==> r == Err(generate(PieceRequest(input)).message)
    ensures generate(PieceRequest(input)).Ok? ==> r.Ok? && r.value.texto == generate(PieceRequest(input)).value
    ensures r.Ok? ==>
      var found := research(ResearchQuery(input.tipoPeca, input.resumoFatico), DefaultJurisDomains, ResearchLimit);
      && |r.value.jurisprudencias| <= KeptResults
      && (found.Err? ==> r.value.jurisprudencias == [])
      && (found.Ok? ==> r.value.jurisprudencias <= found.value
                        && |r.value.jurisprudencias| == (if |found.value| < KeptResults then |found.value| else KeptResults))
  {
    var texto := generate(PieceRequest(input));
    if texto.Err? {
      return Err(texto.message);
    }
    var jurisprudencias: seq<R> := [];
    var query := ResearchQuery(input.tipoPeca, input.resumoFatico);
    var found := research(query, DefaultJurisDomains, ResearchLimit);
    if found.Ok? {
      jurisprudencias := found.value;
    }
    var n := if |jurisprudencias| < KeptResults then |jurisprudencias| else KeptResults;
    return Ok(LegalDocumentResult(texto.value, jurisprudencias[..n]));
  }
}
