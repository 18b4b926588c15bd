/**
  The prompts sent to the chat-completion service and the guard around each
  call. The call itself is a function parameter `llm` from the request to
  the parsed response body, or to the error the HTTP client raised (a
  network failure or a non-2xx status), which the guard passes on.
 */
module OpenAiClient {
  import opened Js
  import opened LegalDocTemplates
  import opened LegalDocRequest
  import opened PromptTexts

  // ---------------------------------------------------------------------
  // Block titles

  /** The characters of `/[_\s]/`. */
  predicate IsBlockSeparatorChar(c: char) {
    c == '_' || IsSpace(c)
  }

  /** The head-matcher of `/[_\s]+/`: the length of the run of separators. */
  function BlockSeparator(t: string): (r: nat)
    ensures r <= |t|
    ensures r > 0 <==> t != [] && IsBlockSeparatorChar(t[0])
    decreases |t|
  {
    if t != [] && IsBlockSeparatorChar(t[0]) then 1 + BlockSeparator(t[1..]) else 0
  }

  /** `part.charAt(0).toUpperCase() + part.slice(1)` */
  function Capitalize(p: string): (r: string)
    ensures |r| == |p|
  {
    if p == [] then [] else [UpperChar(p[0])] + p[1..]
  }

  /** The capitalised words of `formatBlockTitle(block)`: the identifier
      cut at every run of underscores and white space. */
  function TitleWords(b: string): (r: seq<string>)
  {
    var parts := Split(b, BlockSeparator);
    seq(|parts|, i requires 0 <= i < |parts| => Capitalize(parts[i]))
  }

  /** `formatBlockTitle(block)`: the capitalised words joined by single spaces. */
  function FormatBlockTitle(b: string): string {
    Join(TitleWords(b), " ")
  }

  lemma BlockSeparatorMatchesClass()
    ensures MatchesClassChar(BlockSeparator, IsBlockSeparatorChar)
  {
  }

  /** No piece of the split holds a separator character. */
  lemma TitlePartsAvoid(b: string)
    ensures forall p, x :: p in Split(b, BlockSeparator) && x in p ==> !IsBlockSeparatorChar(x)
  {
    BlockSeparatorMatchesClass();
    SplitPiecesAvoidClass(b, BlockSeparator, IsBlockSeparatorChar, "");
  }

  /** Capitalising a word brings in no separator character. */
  lemma CapitalizeAvoids(p: string)
    requires forall x :: x in p ==> !IsBlockSeparatorChar(x)
    ensures forall x :: x in Capitalize(p) ==> !IsBlockSeparatorChar(x)
  {
    if p != [] {
      assert p[0] in p;
      assert Capitalize(p) == [UpperChar(p[0])] + p[1..];
      assert forall x :: x in p[1..] ==> x in p;
    }
  }

  /** No word of a title holds a separator character. */
  lemma TitleWordsAvoid(b: string)
    ensures forall w, x :: w in TitleWords(b) && x in w ==> !IsBlockSeparatorChar(x)
  {
    var parts := Split(b, BlockSeparator);
    var words := TitleWords(b);
    TitlePartsAvoid(b);
    forall w | w in words ensures forall x :: x in w ==> !IsBlockSeparatorChar(x) {
      var i :| 0 <= i < |words| && words[i] == w;
      assert parts[i] in parts;
      CapitalizeAvoids(parts[i]);
    }
  }

  /** A title has no underscore and no white space other than plain spaces. */
  lemma FormatBlockTitleChars(b: string)
    ensures forall x :: x in FormatBlockTitle(b) ==> x != '_' && (IsSpace(x) ==> x == ' ')
  {
    TitleWordsAvoid(b);
    JoinChars(TitleWords(b), " ");
  }

  /** A block identifier of the registry: lower-case letters and digits,
      with single underscores between words. */
  predicate SnakeCase(b: string) {
    && (forall i :: 0 <= i < |b| ==> 'a' <= b[i] <= 'z' || IsDigit(b[i]) || b[i] == '_')
    && (forall i :: 0 <= i < |b| - 1 && b[i] == '_' ==> b[i + 1] != '_')
  }

  /** Title back to identifier: spaces to underscores, letters to lower case. */
  function Snakify(s: string): (r: string)
    ensures |r| == |s|
    ensures forall i :: 0 <= i < |s| ==> r[i] == (if s[i] == ' ' then '_' else LowerChar(s[i]))
  {
    seq(|s|, i requires 0 <= i < |s| => if s[i] == ' ' then '_' else LowerChar(s[i]))
  }

  lemma {:induction false} SnakifyJoin(ws: seq<string>)
    ensures Snakify(Join(ws, " ")) == Join(seq(|ws|, i requires 0 <= i < |ws| => Snakify(ws[i])), "_")
  {
    var sn := seq(|ws|, i requires 0 <= i < |ws| => Snakify(ws[i]));
    if |ws| > 1 {
      SnakifyJoin(ws[1..]);
      var rest := Join(ws[1..], " ");
      assert Snakify(ws[0] + " " + rest) == Snakify(ws[0]) + "_" + Snakify(rest);
      assert seq(|ws[1..]|, i requires 0 <= i < |ws[1..]| => Snakify(ws[1..][i])) == sn[1..];
    }
  }

  /** In an identifier of the registry every separator run is one underscore. */
  lemma SnakeCaseSplit(b: string)
    requires SnakeCase(b)
    ensures Split(b, BlockSeparator) == SplitOn(b, '_')
  {
    forall i | 0 <= i < |b| ensures BlockSeparator(b[i..]) == (if b[i] == '_' then 1 else 0) {
      assert b[i..][0] == b[i];
      if b[i] == '_' {
        assert b[i..][1..] == b[i + 1..];
        if i + 1 < |b| {
          assert b[i + 1..][0] == b[i + 1];
        }
      }
    }
    SplitAsSplitOn(b, BlockSeparator, '_', "");
  }

  predicate LowerWord(p: string) {
    forall x :: x in p ==> 'a' <= x <= 'z' || IsDigit(x)
  }

  /** Lower-casing undoes upper-casing on a lower-case letter or a digit,
      neither of which is a space. */
  lemma LowerOfUpper(c: char)
    requires 'a' <= c <= 'z' || IsDigit(c)
    ensures c != ' ' && UpperChar(c) != ' '
    ensures LowerChar(UpperChar(c)) == c && LowerChar(c) == c
  {
  }

  lemma SnakifyCapitalize(p: string)
    requires LowerWord(p)
    ensures Snakify(Capitalize(p)) == p
  {
    var c := Capitalize(p);
    forall k | 0 <= k < |p| ensures Snakify(c)[k] == p[k] {
      assert p[k] in p;
      LowerOfUpper(p[k]);
      if k > 0 {
        assert c[k] == p[k];
      }
    }
  }

  /** For an identifier of the registry, the title reads back as the
      identifier: `dos_pedidos` becomes `Dos Pedidos` and back. */
  lemma FormatBlockTitleRoundTrip(b: string)
    requires SnakeCase(b)
    ensures Snakify(FormatBlockTitle(b)) == b
  {
    SnakeCaseSplit(b);
    var parts := SplitOn(b, '_');
    SplitOnChars(b, '_', "");
    var words := TitleWords(b);
    assert FormatBlockTitle(b) == Join(words, " ");
    SnakifyJoin(words);
    var back := seq(|words|, i requires 0 <= i < |words| => Snakify(words[i]));
    forall i | 0 <= i < |parts| ensures back[i] == parts[i] {
      assert parts[i] in parts;
      SnakifyCapitalize(parts[i]);
    }
    assert back == parts;
    JoinSplitOn(b, '_');
  }

  // ---------------------------------------------------------------------
  // The `### Title` scaffold

  /** The blocks asked of the model when the template gives none. */
  const DefaultBlocks: seq<string> :=
    ["preambulo", "dos_fatos", "fundamentacao_juridica", "jurisprudencia", "dos_pedidos"]

  /** `payload.templateBlocos?.length ? payload.templateBlocos : [...]` */
  function BlocosUsados(templateBlocos: Option<seq<string>>): (r: seq<string>)
    ensures r != []
    ensures templateBlocos.Some? && templateBlocos.value != [] ==> r == templateBlocos.value
    ensures templateBlocos.None? || templateBlocos.value == [] ==> r == DefaultBlocks
  {
    if templateBlocos.Some? && |templateBlocos.value| > 0 then templateBlocos.value else DefaultBlocks
  }

  /** The default blocks are the first five blocks of the initial petition. */
  lemma DefaultBlocksOfPeticaoInicial()
    ensures DefaultBlocks == TemplateOf(PeticaoInicial).blocos[..5]
  {
  }

  function Heading(b: string): string {
    "### " + FormatBlockTitle(b)
  }

  function Section(b: string): string {
    Heading(b) + "\n" + Instruction
  }

  /** `blocosTexto`: one section per block, separated by a blank line. */
  function BlocosTexto(blocos: seq<string>): string {
    Join(Sections(blocos), "\n\n")
  }

  /** The lines of the sections, a blank line between two sections. */
  function SectionLines(blocos: seq<string>): seq<string>
    decreases |blocos|
  {
    if blocos == [] then []
    else if |blocos| == 1 then [Heading(blocos[0]), Instruction]
    else [Heading(blocos[0]), Instruction, ""] + SectionLines(blocos[1..])
  }

  lemma JoinCons(a: string, ps: seq<string>, sep: string)
    requires ps != []
    ensures Join([a] + ps, sep) == a + sep + Join(ps, sep)
  {
    assert ([a] + ps)[1..] == ps;
  }

  function Sections(blocos: seq<string>): (r: seq<string>)
    ensures |r| == |blocos|
  {
    seq(|blocos|, i requires 0 <= i < |blocos| => Section(blocos[i]))
  }

  lemma SectionsCons(blocos: seq<string>)
    requires |blocos| > 1
    ensures BlocosTexto(blocos) == Section(blocos[0]) + "\n\n" + BlocosTexto(blocos[1..])
  {
    assert Sections(blocos) == [Section(blocos[0])] + Sections(blocos[1..]);
    JoinCons(Section(blocos[0]), Sections(blocos[1..]), "\n\n");
  }

  lemma JoinThreeCons(h: string, i: string, tail: seq<string>)
    requires tail != []
    ensures Join([h, i, ""] + tail, "\n") == h + "\n" + i + "\n" + "" + "\n" + Join(tail, "\n")
  {
    assert [h, i, ""] + tail == [h] + ([i] + ([""] + tail));
    JoinCons("", tail, "\n");
    JoinCons(i, [""] + tail, "\n");
    JoinCons(h, [i] + ([""] + tail), "\n");
  }

  lemma SectionLinesCons(blocos: seq<string>)
    requires |blocos| > 1
    ensures Join(SectionLines(blocos), "\n")
         == Heading(blocos[0]) + "\n" + Instruction + "\n" + "" + "\n" + Join(SectionLines(blocos[1..]), "\n")
  {
    assert SectionLines(blocos[1..]) != [];
    JoinThreeCons(Heading(blocos[0]), Instruction, SectionLines(blocos[1..]));
  }

  lemma {:induction false} BlocosTextoLines(blocos: seq<string>)
    requires blocos != []
    ensures BlocosTexto(blocos) == Join(SectionLines(blocos), "\n")
  {
    if |blocos| == 1 {
      assert Sections(blocos) == [Section(blocos[0])];
      JoinCons(Heading(blocos[0]), [Instruction], "\n");
    } else {
      BlocosTextoLines(blocos[1..]);
      SectionsCons(blocos);
      SectionLinesCons(blocos);
      Regroup(Heading(blocos[0]), Instruction, BlocosTexto(blocos[1..]));
    }
  }

  lemma Regroup(h: string, ins: string, x: string)
    ensures h + "\n" + ins + "\n" + "" + "\n" + x == (h + "\n" + ins) + "\n\n" + x
  {
  }

  lemma {:induction false} SectionLinesNoNewline(blocos: seq<string>)
    ensures forall l :: l in SectionLines(blocos) ==> '\n' !in l
  {
    InstructionShape();
    if blocos != [] {
      var t := FormatBlockTitle(blocos[0]);
      assert '\n' !in t by {
        FormatBlockTitleChars(blocos[0]);
        assert IsSpace('\n');
      }
      assert Heading(blocos[0]) == "### " + t;
      SectionLinesNoNewline(blocos[1..]);
    }
  }

  /** The heading lines of a text, in order. */
  function HeadingLine(l: string): Option<string> {
    if StartsWith(l, "### ") then Some(l) else None
  }

  function HeadingLines(text: string): seq<string> {
    FilterMap(HeadingLine, SplitOn(text, '\n'))
  }

  lemma {:induction false} SectionLinesHeadings(blocos: seq<string>)
    ensures FilterMap(HeadingLine, SectionLines(blocos)) == seq(|blocos|, i requires 0 <= i < |blocos| => Heading(blocos[i]))
  {
    InstructionShape();
    if blocos != [] {
      var h := Heading(blocos[0]);
      assert HeadingLine(h) == Some(h);
      assert HeadingLine(Instruction) == None;
      assert HeadingLine("") == None;
      SectionLinesHeadings(blocos[1..]);
      if |blocos| == 1 {
        FilterMapAppend(HeadingLine, [h], [Instruction]);
      } else {
        var tail := SectionLines(blocos[1..]);
        FilterMapAppend(HeadingLine, [h, Instruction, ""], tail);
        FilterMapAppend(HeadingLine, [h], [Instruction, ""]);
        FilterMapAppend(HeadingLine, [Instruction], [""]);
      }
    }
  }

  /** Every block gives exactly one `### <title>` heading line, in block order. */
  lemma BlocosTextoHeadings(blocos: seq<string>)
    ensures HeadingLines(BlocosTexto(blocos)) == seq(|blocos|, i requires 0 <= i < |blocos| => Heading(blocos[i]))
  {
    if blocos == [] {
      assert SplitOn("", '\n') == [""];
    } else {
      BlocosTextoLines(blocos);
      SectionLinesNoNewline(blocos);
      SplitOnJoin(SectionLines(blocos), '\n');
      SectionLinesHeadings(blocos);
    }
  }

  // ---------------------------------------------------------------------
  // The generation prompt

  /** `payload.qualificacao ? ... : ""` and the other optional texts. */
  predicate Filled(o: Option<string>) {
    o.Some? && o.value != []
  }

  /** `${parte.papel.toUpperCase()}: ${parte.nome}` plus ` (qualificacao)` when given. */
  function PartyLine(p: Parte): (r: string)
    ensures StartsWith(r, ToUpper(PapelName(p.papel)) + ": " + p.nome)
    ensures Filled(p.qualificacao) ==> r == ToUpper(PapelName(p.papel)) + ": " + p.nome + " (" + p.qualificacao.value + ")"
    ensures !Filled(p.qualificacao) ==> r == ToUpper(PapelName(p.papel)) + ": " + p.nome
  {
    var q := if Filled(p.qualificacao) then " (" + p.qualificacao.value + ")" else "";
    ToUpper(PapelName(p.papel)) + ": " + p.nome + q
  }

  /** The role is written in capitals. */
  lemma PapelUpper()
    ensures ToUpper(PapelName(Autor)) == "AUTOR"
    ensures ToUpper(PapelName(Reu)) == "REU"
    ensures ToUpper(PapelName(Terceiro)) == "TERCEIRO"
  {
  }

  function PartiesText(partes: seq<Parte>): string {
    Join(seq(|partes|, i requires 0 <= i < |partes| => PartyLine(partes[i])), "\n")
  }

  /** A party line spans one line when its name and qualification do. */
  lemma PartyLineNoNewline(p: Parte)
    requires '\n' !in p.nome && (p.qualificacao.Some? ==> '\n' !in p.qualificacao.value)
    ensures '\n' !in PartyLine(p)
  {
    var u := ToUpper(PapelName(p.papel));
    assert '\n' !in u by {
      PapelUpper();
      assert u == "AUTOR" || u == "REU" || u == "TERCEIRO";
    }
  }

  /** When no name or qualification spans lines, the party text holds one line per party, in order. */
  lemma PartiesTextLines(partes: seq<Parte>)
    requires partes != []
    requires forall p :: p in partes ==> '\n' !in p.nome && (p.qualificacao.Some? ==> '\n' !in p.qualificacao.value)
    ensures SplitOn(PartiesText(partes), '\n') == seq(|partes|, i requires 0 <= i < |partes| => PartyLine(partes[i]))
  {
    var lines := seq(|partes|, i requires 0 <= i < |partes| => PartyLine(partes[i]));
    forall l | l in lines ensures '\n' !in l {
      var i :| 0 <= i < |lines| && lines[i] == l;
      assert partes[i] in partes;
      PartyLineNoNewline(partes[i]);
    }
    SplitOnJoin(lines, '\n');
  }


  /** `documentosTexto` */
  function DocumentosTexto(documentos: Option<seq<string>>): (r: string)
    ensures documentos.Some? && documentos.value != [] ==>
      r == "Documentos relevantes: " + Join(documentos.value, ", ") + "."
    ensures documentos.None? || documentos.value == [] ==> r == "Sem documentos anexados informados."
  {
    if documentos.Some? && |documentos.value| > 0 then
      "Documentos relevantes: " + Join(documentos.value, ", ") + "."
    else "Sem documentos anexados informados."
  }

  /** Every document name listed appears in the documents sentence. */
  lemma DocumentosTextoNames(documentos: seq<string>)
    ensures forall i :: 0 <= i < |documentos| ==> Contains(DocumentosTexto(Some(documentos)), documentos[i])
  {
    forall i | 0 <= i < |documentos| ensures Contains(DocumentosTexto(Some(documentos)), documentos[i]) {
      ContainsJoinPart(documentos, ", ", i);
      ContainsPrepend("Documentos relevantes: ", Join(documentos, ", "), documentos[i]);
      ContainsAppend("Documentos relevantes: " + Join(documentos, ", "), documentos[i], ".");
    }
  }

  /** `pedidosOrientacoes` */
  function PedidosOrientacoes(pedidos: Option<string>): string {
    if Filled(pedidos) then "Orientações do cliente sobre pedidos: " + pedidos.value + "."
    else "Pedidos específicos não foram informados; gere requerimentos finais coerentes com a narrativa e a fundamentação."
  }

  datatype GeneratePiecePayload = GeneratePiecePayload(
    tipoPeca: string,
    partes: seq<Parte>,
    resumoFatico: string,
    pedidos: Option<string>,
    documentos: Option<seq<string>>,
    clienteId: Option<string>,
    templateBlocos: Option<seq<string>>)

  lemma ContainsMiddle(a: string, x: string, b: string)
    ensures Contains(a + x + b, x)
  {
    assert (a + x + b)[|a|..|a| + |x|] == x;
    ContainsAt(a + x + b, x, |a|);
  }

  /** Where the pieces of a seven-piece text sit in it. */
  lemma SevenPieces(p0: string, p1: string, p2: string, p3: string, p4: string, p5: string, p6: string)
    ensures var r := p0 + p1 + p2 + p3 + p4 + p5 + p6;
      && StartsWith(r, p0) && EndsWith(r, p6)
      && Contains(r, p1) && Contains(r, p3) && Contains(r, p4) && Contains(r, p5)
  {
    var r := p0 + p1 + p2 + p3 + p4 + p5 + p6;
    assert r[..|p0|] == p0;
    assert r[|r| - |p6|..] == p6;
    ContainsSuffix(p0, p1);
    ContainsAppend(p0 + p1, p1, p2);
    ContainsAppend(p0 + p1 + p2, p1, p3);
    ContainsAppend(p0 + p1 + p2 + p3, p1, p4);
    ContainsAppend(p0 + p1 + p2 + p3 + p4, p1, p5);
    ContainsAppend(p0 + p1 + p2 + p3 + p4 + p5, p1, p6);
    ContainsSuffix(p0 + p1 + p2, p3);
    ContainsAppend(p0 + p1 + p2 + p3, p3, p4);
    ContainsAppend(p0 + p1 + p2 + p3 + p4, p3, p5);
    ContainsAppend(p0 + p1 + p2 + p3 + p4 + p5, p3, p6);
    ContainsSuffix(p0 + p1 + p2 + p3, p4);
    ContainsAppend(p0 + p1 + p2 + p3 + p4, p4, p5);
    ContainsAppend(p0 + p1 + p2 + p3 + p4 + p5, p4, p6);
    ContainsSuffix(p0 + p1 + p2 + p3 + p4, p5);
    ContainsAppend(p0 + p1 + p2 + p3 + p4 + p5, p5, p6);
  }

  lemma ConcatAffixes(x: string, y: string)
    ensures StartsWith(x + y, x) && EndsWith(x + y, y)
  {
    assert (x + y)[..|x|] == x;
    assert (x + y)[|x + y| - |y|..] == y;
  }

  /** `buildPrompt(payload)`: the prompt carries the facts, the party lines
      and the section scaffold of the blocks in use. */
  function BuildPrompt(p: GeneratePiecePayload): (r: string)
    ensures StartsWith(r, PieceOpening + p.tipoPeca + PieceStyle)
    ensures Contains(r, p.resumoFatico)
    ensures Contains(r, PartiesText(p.partes))
    ensures Contains(r, DocumentosTexto(p.documentos))
    ensures Contains(r, PedidosOrientacoes(p.pedidos))
    ensures Contains(r, PieceStructure)
    ensures Contains(r, BlocosTexto(BlocosUsados(p.templateBlocos)))
    ensures EndsWith(r, PieceClosing)
  {
    var head := PieceOpening + p.tipoPeca + PieceStyle;
    var a := head + "\n\nConsidere o seguinte caso fático:\n";
    var b := "\n\nPartes envolvidas:\n";
    var docs := DocumentosTexto(p.documentos);
    var pedidos := PedidosOrientacoes(p.pedidos);
    var c := "\n\n" + docs + "\n" + pedidos + "\n\n" + PieceStructure + "\n\n";
    var d := "\n\n" + PieceClosing;
    var partes := PartiesText(p.partes);
    var blocos := BlocosTexto(BlocosUsados(p.templateBlocos));
    var r := a + p.resumoFatico + b + partes + c + blocos + d;
    SevenPieces(a, p.resumoFatico, b, partes, c, blocos, d);
    SevenPieces("\n\n", docs, "\n", pedidos, "\n\n", PieceStructure, "\n\n");
    ContainsTransitive(r, c, docs);
    ContainsTransitive(r, c, pedidos);
    ContainsTransitive(r, c, PieceStructure);
    ConcatAffixes(head, "\n\nConsidere o seguinte caso fático:\n");
    ConcatAffixes("\n\n", PieceClosing);
    AffixTransitive(r, a, head);
    AffixTransitive(r, d, PieceClosing);
    r
  }

  /** The piece prompt names every document the payload lists. */
  lemma BuildPromptNamesDocuments(p: GeneratePiecePayload)
    requires p.documentos.Some?
    ensures forall i :: 0 <= i < |p.documentos.value| ==> Contains(BuildPrompt(p), p.documentos.value[i])
  {
    DocumentosTextoNames(p.documentos.value);
    forall i | 0 <= i < |p.documentos.value| ensures Contains(BuildPrompt(p), p.documentos.value[i]) {
      ContainsTransitive(BuildPrompt(p), DocumentosTexto(p.documentos), p.documentos.value[i]);
    }
  }

  // ---------------------------------------------------------------------
  // The other prompts

  datatype GeneratePedidosPayload = GeneratePedidosPayload(
    tipoPeca: string,
    resumoFatico: string,
    fundamentacao: string,
    blocoTitulo: string,
    orientacoes: Option<string>,
    contextoAtual: Option<string>)

  /** The grounds quoted in the prompt: the trimmed text, or the placeholder
      when it is blank; never empty. */
  function PedidosFundamentacao(f: string): (r: string)
    ensures r != [] && IsTrimmed(r)
    ensures !IsBlank(f) ==> r == Trim(f)
    ensures IsBlank(f) ==> r == FundamentacaoPlaceholder
  {
    TrimSpec(f);
    PlaceholderShape();
    if Trim(f) != [] then Trim(f) else FundamentacaoPlaceholder
  }

  /** An optional text quoted under its heading, trimmed, present only
      when the text is not blank. */
  function QuotedBlock(heading: string, t: Option<string>): (r: string)
    ensures r == [] <==> t.None? || IsBlank(t.value)
    ensures r != [] ==> r == heading + ":\n" + Trim(t.value) + "\n\n"
  {
    if t.Some? && Trim(t.value) != [] then heading + ":\n" + Trim(t.value) + "\n\n" else ""
  }

  /** The previous suggestion for the section, present only when it is not blank. */
  function ContextoAtualTexto(c: Option<string>): (r: string)
    ensures r == [] <==> c.None? || IsBlank(c.value)
    ensures r != [] ==> r == "Conteúdo anteriormente sugerido para a seção:\n" + Trim(c.value) + "\n\n"
  {
    QuotedBlock("Conteúdo anteriormente sugerido para a seção", c)
  }

  function OrientacoesTexto(o: Option<string>): string {
    if Filled(o) then "Orientações adicionais do cliente: " + o.value + "."
    else "Nenhuma orientação adicional específica foi fornecida."
  }

  /** `buildPedidosPrompt(payload)` */
  function BuildPedidosPrompt(p: GeneratePedidosPayload): (r: string)
    ensures Contains(r, PedidosFundamentacao(p.fundamentacao))
    ensures Contains(r, ContextoAtualTexto(p.contextoAtual))
  {
    var a := PedidosOpening + p.tipoPeca + ".\n"
      + "Resumo fático relevante:\n" + p.resumoFatico + "\n\n"
      + "Principais fundamentos jurídicos já redigidos:\n";
    var f := PedidosFundamentacao(p.fundamentacao);
    var b := "\n\n" + OrientacoesTexto(p.orientacoes) + "\n";
    var c := ContextoAtualTexto(p.contextoAtual);
    var d := "Redija a seção \"" + p.blocoTitulo + "\"" + PedidosClosing;
    var r := a + f + b + c + d;
    ContainsMiddle(a + f + b, c, d);
    ContainsSuffix(a, f);
    ContainsAppend(a + f, f, b);
    ContainsAppend(a + f + b, f, c);
    ContainsAppend(a + f + b + c, f, d);
    r
  }

  datatype RewriteTopicPayload = RewriteTopicPayload(
    tipoPeca: string,
    blocoTitulo: string,
    conteudoAtual: string,
    memoriaRelacionada: Option<seq<string>>,
    novasInformacoes: Option<string>,
    referenciasJuridicas: Option<seq<string>>)

  /** An optional list section: `${title}:\n${items.join("\n\n")}\n\n`, or nothing. */
  function ListSection(title: string, items: Option<seq<string>>): (r: string)
    ensures r == [] <==> items.None? || items.value == []
    ensures r != [] ==> Contains(r, Join(items.value, "\n\n"))
  {
    if items.Some? && |items.value| > 0 then
      var r := title + ":\n" + Join(items.value, "\n\n") + "\n\n";
      ContainsMiddle(title + ":\n", Join(items.value, "\n\n"), "\n\n");
      r
    else ""
  }

  /** The new information, trimmed, only when it is not blank. */
  function NovasInformacoesTexto(n: Option<string>): (r: string)
    ensures r == [] <==> n.None? || IsBlank(n.value)
    ensures r != [] ==> r == "Novas informações fornecidas:\n" + Trim(n.value) + "\n\n"
  {
    QuotedBlock("Novas informações fornecidas", n)
  }

  /** `buildTopicRewritePrompt(payload)`: the current text followed by the
      memory, the new information and the references that are present. */
  function BuildTopicRewritePrompt(p: RewriteTopicPayload): (r: string)
    ensures Contains(r, p.conteudoAtual)
    ensures Contains(r, ListSection("Memória jurídica relacionada", p.memoriaRelacionada)
                         + NovasInformacoesTexto(p.novasInformacoes)
                         + ListSection("Jurisprudências e doutrinas relevantes", p.referenciasJuridicas))
    ensures Contains(r, p.conteudoAtual + "\n\n"
                         + (ListSection("Memória jurídica relacionada", p.memoriaRelacionada)
                            + NovasInformacoesTexto(p.novasInformacoes)
                            + ListSection("Jurisprudências e doutrinas relevantes", p.referenciasJuridicas)))
    ensures EndsWith(r, TopicClosing)
  {
    var a := "Você é um advogado brasileiro revisando o tópico \"" + p.blocoTitulo + "\" "
      + "de uma peça processual do tipo " + p.tipoPeca + ".\n\n"
      + "Conteúdo atual do tópico:\n";
    var b := "\n\n";
    var opt := ListSection("Memória jurídica relacionada", p.memoriaRelacionada)
      + NovasInformacoesTexto(p.novasInformacoes)
      + ListSection("Jurisprudências e doutrinas relevantes", p.referenciasJuridicas);
    var c := TopicClosing;
    var mid := p.conteudoAtual + b + opt;
    var r := a + mid + c;
    ContainsMiddle(a, mid, c);
    assert mid[0..|p.conteudoAtual|] == p.conteudoAtual;
    ContainsAt(mid, p.conteudoAtual, 0);
    ContainsTransitive(r, mid, p.conteudoAtual);
    ContainsSuffix(p.conteudoAtual + b, opt);
    ContainsTransitive(r, mid, opt);
    assert r[|r| - |c|..] == c;
    r
  }

  datatype RewriteFreeformPayload = RewriteFreeformPayload(
    texto: string,
    contexto: Option<seq<string>>,
    instrucoes: Option<string>)

  /** The instructions: the trimmed text, or the default when blank or absent; never empty. */
  function Instrucoes(i: Option<string>): (r: string)
    ensures r != [] && IsTrimmed(r)
    ensures i.Some? && !IsBlank(i.value) ==> r == Trim(i.value)
    ensures i.None? || IsBlank(i.value) ==> r == DefaultInstrucoes
  {
    if i.Some? && Trim(i.value) != [] then
      TrimSpec(i.value);
      Trim(i.value)
    else
      DefaultInstrucoesShape();
      DefaultInstrucoes
  }

  /** The context entries joined with a rule line, or the fixed sentence when there are none. */
  function ContextoTexto(c: Option<seq<string>>): (r: string)
    ensures c.Some? && c.value != [] ==> r == "Contexto adicional relevante:\n" + Join(c.value, "\n\n---\n\n") + "\n\n"
    ensures c.None? || c.value == [] ==> r == "Contexto adicional relevante: não há registros disponíveis.\n\n"
  {
    if c.Some? && |c.value| > 0 then "Contexto adicional relevante:\n" + Join(c.value, "\n\n---\n\n") + "\n\n"
    else "Contexto adicional relevante: não há registros disponíveis.\n\n"
  }

  /** Every context entry appears in the context text. */
  lemma ContextoTextoEntries(contexto: seq<string>)
    ensures forall i :: 0 <= i < |contexto| ==> Contains(ContextoTexto(Some(contexto)), contexto[i])
  {
    forall i | 0 <= i < |contexto| ensures Contains(ContextoTexto(Some(contexto)), contexto[i]) {
      ContainsJoinPart(contexto, "\n\n---\n\n", i);
      ContainsPrepend("Contexto adicional relevante:\n", Join(contexto, "\n\n---\n\n"), contexto[i]);
      ContainsAppend("Contexto adicional relevante:\n" + Join(contexto, "\n\n---\n\n"), contexto[i], "\n\n");
    }
  }

  /** The freeform prompt carries every context entry. */
  lemma FreeformPromptHasContext(p: RewriteFreeformPayload)
    requires p.contexto.Some?
    ensures forall i :: 0 <= i < |p.contexto.value| ==> Contains(BuildFreeformRewritePrompt(p), p.contexto.value[i])
  {
    var prompt := BuildFreeformRewritePrompt(p);
    var ctx := ContextoTexto(p.contexto);
    StartsWithContains(prompt, Instrucoes(p.instrucoes) + "\n\n", ctx);
    ContextoTextoEntries(p.contexto.value);
    forall i | 0 <= i < |p.contexto.value| ensures Contains(prompt, p.contexto.value[i]) {
      ContainsTransitive(prompt, ctx, p.contexto.value[i]);
    }
  }

  /** `buildFreeformRewritePrompt(payload)`: instructions first, then the context and the text. */
  function BuildFreeformRewritePrompt(p: RewriteFreeformPayload): (r: string)
    ensures StartsWith(r, Instrucoes(p.instrucoes) + "\n\n" + ContextoTexto(p.contexto))
    ensures Contains(r, p.texto)
  {
    var h := Instrucoes(p.instrucoes) + "\n\n" + ContextoTexto(p.contexto);
    var a := h + "Texto atual:\n";
    var b := "\n\nRetorne somente o texto reescrito, sem comentários adicionais.";
    ContainsMiddle(a, p.texto, b);
    var r := a + p.texto + b;
    assert r[..|h|] == h;
    r
  }

  // ---------------------------------------------------------------------
  // The guarded call

  /** The body posted to the service; the temperature in tenths. */
  datatype ChatRequest = ChatRequest(system: string, user: string, temperatureTenths: nat)

  /** `data?.choices?.[0]?.message?.content` */
  function ResponseContent(data: Json): Json {
    var choices := Get(data, "choices");
    var first := if choices.Arr? && |choices.items| > 0 then choices.items[0] else Undefined;
    Get(Get(first, "message"), "content")
  }

  const MissingKey: string := "OPENAI_API_KEY não configurada"

  /** What every generate function promises: no key, the key error; a
      response without non-empty text content, the function's own error;
      otherwise the content trimmed. */
  predicate GuardContract(apiKey: Option<string>, req: ChatRequest, llm: ChatRequest -> Result<Json>, invalid: string, r: Result<string>) {
    var answer := llm(req);
    && (!Filled(apiKey) ==> r == Err(MissingKey))
    && (Filled(apiKey) && answer.Err? ==> r == Err(answer.message))
    && (Filled(apiKey) && answer.Ok? ==>
          var content := ResponseContent(answer.value);
          && (content.Str? && content.s != [] ==> r == Ok(Trim(content.s)))
          && (!(content.Str? && content.s != []) ==> r == Err(invalid)))
  }

  function Complete(apiKey: Option<string>, req: ChatRequest, llm: ChatRequest -> Result<Json>, invalid: string): (r: Result<string>)
    ensures GuardContract(apiKey, req, llm, invalid, r)
    ensures r.Ok? ==> IsTrimmed(r.value)
  {
    if !Filled(apiKey) then Err(MissingKey)
    else
      var answer := llm(req);
      if answer.Err? then Err(answer.message)
      else
        var content := ResponseContent(answer.value);
        if !Truthy(content) || !content.Str? then Err(invalid)
        else
          TrimSpec(content.s);
          Ok(Trim(content.s))
  }

  /** `generateLegalPiece(payload)` */
  function GenerateLegalPiece(apiKey: Option<string>, p: GeneratePiecePayload, llm: ChatRequest -> Result<Json>): (r: Result<string>)
    ensures GuardContract(apiKey, ChatRequest("Você é um advogado especialista na redação de peças judiciais brasileiras.", BuildPrompt(p), 4),
                          llm, "Resposta inválida da OpenAI", r)
  {
    Complete(apiKey, ChatRequest("Você é um advogado especialista na redação de peças judiciais brasileiras.", BuildPrompt(p), 4),
             llm, "Resposta inválida da OpenAI")
  }

  /** `generateSmartPedidos(payload)` */
  function GenerateSmartPedidos(apiKey: Option<string>, p: GeneratePedidosPayload, llm: ChatRequest -> Result<Json>): (r: Result<string>)
    ensures GuardContract(apiKey, ChatRequest("Você é um advogado especialista na redação de pedidos finais em peças judiciais brasileiras.", BuildPedidosPrompt(p), 2),
                          llm, "Resposta inválida da OpenAI ao gerar pedidos inteligentes", r)
  {
    Complete(apiKey, ChatRequest("Você é um advogado especialista na redação de pedidos finais em peças judiciais brasileiras.", BuildPedidosPrompt(p), 2),
             llm, "Resposta inválida da OpenAI ao gerar pedidos inteligentes")
  }

  /** `rewriteTopicWithContext(payload)` */
  function RewriteTopicWithContext(apiKey: Option<string>, p: RewriteTopicPayload, llm: ChatRequest -> Result<Json>): (r: Result<string>)
    ensures GuardContract(apiKey, ChatRequest("Você é um advogado especialista em revisão de peças judiciais brasileiras.", BuildTopicRewritePrompt(p), 3),
                          llm, "Resposta inválida da OpenAI ao aprimorar tópico", r)
  {
    Complete(apiKey, ChatRequest("Você é um advogado especialista em revisão de peças judiciais brasileiras.", BuildTopicRewritePrompt(p), 3),
             llm, "Resposta inválida da OpenAI ao aprimorar tópico")
  }

  /** `rewriteFreeformText(payload)` */
  function RewriteFreeformText(apiKey: Option<string>, p: RewriteFreeformPayload, llm: ChatRequest -> Result<Json>): (r: Result<string>)
    ensures GuardContract(apiKey, ChatRequest("Você é um advogado brasileiro especializado em revisão e aprimoramento de peças processuais.", BuildFreeformRewritePrompt(p), 3),
                          llm, "Resposta inválida da OpenAI ao refinar texto", r)
  {
    Complete(apiKey, ChatRequest("Você é um advogado brasileiro especializado em revisão e aprimoramento de peças processuais.", BuildFreeformRewritePrompt(p), 3),
             llm, "Resposta inválida da OpenAI ao refinar texto")
  }
}
