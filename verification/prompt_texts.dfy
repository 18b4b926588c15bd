/**
  The fixed sentences of the prompts, with the few facts about their
  characters that the prompt proofs use. The sentences are written as
  concatenations of short pieces so that those facts stay cheap to check.
 */
module PromptTexts {

  const Instruction: string :=
    "(Desenvolva " + "este tópico " + "conforme " + "aplicável " + "ao tipo " + "da peça.)"

  const FundamentacaoPlaceholder: string :=
    "(" + "A fundamentação jurídica ainda não está detalhada. Utilize os fatos para sustentar os pedidos." + ")"

  const DefaultInstrucoes: string :=
    "R" + "eescreva o texto aprimorando clareza, coesão, técnica jurídica e correção gramatical, mantendo o sentido essencial" + "."

  const PieceOpening: string := "Elabore uma peça processual do tipo "

  const PieceStyle: string := ", com linguagem jurídica técnica, clara e objetiva."

  const PieceStructure: string :=
    "Estruture a peça obedecendo aos blocos indicados abaixo, utilizando linguagem precisa e citações legais quando cabíveis:"

  const PieceClosing: string :=
    "Inclua fundamentações jurídicas, artigos de lei e jurisprudências reais sempre que possível.\n"
    + "No bloco destinado aos pedidos, produza requerimentos finais claros, coesos e juridicamente fundamentados, conectando-os aos fatos e à fundamentação desenvolvida.\n"
    + "A resposta deve trazer um texto base estruturado para validação humana."

  const PedidosOpening: string :=
    "Você é um advogado brasileiro elaborando requerimentos finais para uma peça processual do tipo "

  const PedidosClosing: string :=
    " com pedidos finais claros, numerados ou em tópicos, mantendo estilo jurídico técnico, coeso e alinhado aos fundamentos expostos.\n"
    + "Conecte cada pedido aos fatos narrados e à fundamentação apresentada, evitando repetições desnecessárias.\n"
    + "Retorne apenas o conteúdo da seção, sem repetir o título."

  const TopicClosing: string :=
    "Reescreva o tópico de forma técnica, coerente e aprimorada, mantendo alinhamento com o caso narrado. "
    + "Atualize fundamentações e pedidos implícitos conforme as referências apresentadas quando fizer sentido. "
    + "Entregue apenas o texto reescrito do tópico, sem incluir títulos adicionais."

  /** The instruction under each heading is one line and does not start with `#`. */
  lemma InstructionShape()
    ensures |Instruction| > 0 && Instruction[0] == '('
    ensures '\n' !in Instruction
  {
    assert '\n' !in "(Desenvolva ";
    assert '\n' !in "este tópico ";
    assert '\n' !in "conforme ";
    assert '\n' !in "aplicável ";
    assert '\n' !in "ao tipo ";
    assert '\n' !in "da peça.)";
  }

  /** The placeholder starts and ends with a parenthesis. */
  lemma PlaceholderShape()
    ensures |FundamentacaoPlaceholder| > 1
    ensures FundamentacaoPlaceholder[0] == '(' && FundamentacaoPlaceholder[|FundamentacaoPlaceholder| - 1] == ')'
  {
  }

  /** The default instructions start with a letter and end with a full stop. */
  lemma DefaultInstrucoesShape()
    ensures |DefaultInstrucoes| > 1
    ensures DefaultInstrucoes[0] == 'R' && DefaultInstrucoes[|DefaultInstrucoes| - 1] == '.'
  {
  }
}
