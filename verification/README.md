# mma-auth-api core, modelled in Dafny

This project models the logic of two parts of the `mma-auth-api` back end.

**The legal-document front end** turns a request into a prompt for a
chat-completion service and keeps a searchable legal memory:

- the template registry of the twelve kinds of filing;
- the readers of untyped request bodies;
- the prompt builders, and the guard around each generation call;
- the orchestration of `generateLegalDocument`;
- the chunker and record assembly of the vector memory;
- the request readers of the public routes.

**Case tracking** finds, imports and refreshes court cases:

- the unified case number of Art. 1 of CNJ Resolution 65/2008, and its formatters;
- a hand-written CSV splitter and two CSV imports;
- movement classification and business-day deadlines;
- what the services read out of web-search results;
- the automatic case discovery;
- the Datajud mapper and upsert;
- the PDPJ gateway synchronisation;
- the Datajud alias configuration;
- the permission middleware.

Each source file is one module. Two shared modules sit beside them:

- `Js` models the JavaScript values and string built-ins the code relies on (truthiness, `String(v)`, `trim`, case mapping, `includes`, `join`, `split` with a regular expression).
- `CnjNumber` models the `NNNNNNN-DD.AAAA.J.TR.OOOO` layout.

Pure code is written as functions. Loops are written as methods, each proved equal to a specification function.

Outside services are parameters of the operations that call them. These are the HTTP clients, the chat-completion and embedding services, the vector store, the search service, the database upsert, `JSON.parse` and the clock. Database tables are values passed in and handed back. A table is one of three shapes:

- a sequence of rows, where the source reads one row with `LIMIT 1` and no `ORDER BY`; the model takes the first row that matches;
- a map keyed by the conflict key;
- the set of case numbers that have a row, where that is all the code observes.

## Model

| member | source | states |
|---|---|---|
| LegalDocTemplates.TemplateOf | src/lib/legalDocTemplates.ts:22-127 | There are at least three blocks, and the first is `preambulo` (`introducao` for `quesitos`). `resumoFatico` is always mandatory and `pedidos` never is. `partes` is mandatory exactly for the six kinds that list it. |
| LegalDocTemplates.ParseName | src/lib/legalDocTemplates.ts:1-13 | Reading an identifier back gives a kind with that identifier, or nothing when no kind has it. |
| LegalDocTemplates.ParseNameOfName | src/lib/legalDocTemplates.ts:1-13 | Every kind's identifier reads back as that kind: the twelve identifiers are a closed, one-to-one naming. |
| LegalDocTemplates.NameInjective | src/lib/legalDocTemplates.ts:1-13 | Two kinds with the same identifier are the same kind. |
| LegalDocTemplates.TiposPeca | src/lib/legalDocTemplates.ts:129-131 | `TIPOS_PECA` has the twelve identifiers, in the registry's declaration order. |
| LegalDocTemplates.TemplateBlocksDistinct | src/lib/legalDocTemplates.ts:22-127 | Each kind's blocks are pairwise distinct. |
| LegalDocTemplates.TiposPecaComplete | src/lib/legalDocTemplates.ts:129-131 | Every kind is listed. |
| LegalDocTemplates.TiposPecaDistinct | src/lib/legalDocTemplates.ts:129-131 | No identifier is listed twice. |
| LegalDocTemplates.GetTemplate | src/lib/legalDocTemplates.ts:133-139 | A registered identifier gives its template. Any other identifier gives the "Template não encontrado" error with that text. Names inherited from the object prototype, for which the source returns the inherited value, are not modelled. |
| LegalDocRequest.SanitizeText | src/routes/utils/legalDocRequest.ts:5-9 | The result is present exactly for a string that is not all white space. It is then the trimmed string, non-empty and trimmed. |
| LegalDocRequest.SanitizeTextIdempotent | src/routes/utils/legalDocRequest.ts:5-9 | Sanitising a sanitised text gives it back. |
| LegalDocRequest.ParseTipoPeca | src/routes/utils/legalDocRequest.ts:11-18 | A kind is returned exactly when the trimmed string is the identifier of a template, and it is that kind. |
| LegalDocRequest.ParsePapel | src/routes/utils/legalDocRequest.ts:30-34 | A role is accepted exactly when it is `autor`, `reu` or `terceiro`, and it keeps that name. |
| LegalDocRequest.ParteOf | src/routes/utils/legalDocRequest.ts:25-45 | An item is kept exactly when it is a truthy object, has a non-blank `nome` and has an accepted `papel`. The party then has the sanitised name, the role that the sanitised `papel` names, and a `qualificacao` only when a non-blank one was given. |
| LegalDocRequest.PartesSound | src/routes/utils/legalDocRequest.ts:20-49 | The parties returned are exactly the images of the acceptable items. Each has a non-empty trimmed name, and a non-empty trimmed qualification when it has one. |
| LegalDocRequest.ParsePartes | src/routes/utils/legalDocRequest.ts:20-49 | The loop returns the acceptable items in input order (never more than it was given), and nothing for a non-array. |
| LegalDocRequest.DocumentsShape | src/routes/utils/legalDocRequest.ts:51-68 | Every document name is non-empty and trimmed. A name read from a string holds no line feed and no comma. |
| LegalDocRequest.NormalizeDocumentList | src/routes/utils/legalDocRequest.ts:51-69 | The list is `undefined` for a falsy input and whenever no name remains, so it is never empty. Otherwise it holds the sanitised array items, or the trimmed non-blank pieces of a string split on line breaks and commas. |
| Js.FilterMap | src/routes/utils/legalDocRequest.ts:23-46 | The push-if-defined loop keeps input order and never outputs more items than it read. |
| Js.FilterMapMembers | src/routes/utils/legalDocRequest.ts:23-46 | An output item is the image of some input, and every defined image is output. |
| Js.SplitTrimmedAvoidsClass | src/routes/utils/legalDocRequest.ts:60-66 | After a split on a character class, trimming and dropping blanks, no piece holds a character of the class. |
| PromptTexts.InstructionShape | src/integrations/openaiClient.ts:61 | The instruction under each heading is one line that starts with `(`, so it is never taken for a heading. |
| PromptTexts.PlaceholderShape | src/integrations/openaiClient.ts:150 | The grounds placeholder is a parenthesised sentence. |
| PromptTexts.DefaultInstrucoesShape | src/integrations/openaiClient.ts:279 | The default rewrite instructions are a sentence starting with `R` and ending with a full stop. |
| OpenAiClient.BlockSeparator | src/integrations/openaiClient.ts:28 | The matcher of `/[_\s]+/` matches exactly when the text starts with an underscore or white space. |
| OpenAiClient.FormatBlockTitleChars | src/integrations/openaiClient.ts:26-31 | A title holds no underscore, and its only white space is plain spaces. |
| OpenAiClient.SnakeCaseSplit | src/integrations/openaiClient.ts:28 | In a registry identifier every separator run is one underscore, so the split is a split on `_`. |
| OpenAiClient.FormatBlockTitleRoundTrip | src/integrations/openaiClient.ts:26-31 | For a registry identifier, mapping the title's spaces to underscores and lower-casing it gives the identifier back (`dos_pedidos` becomes `Dos Pedidos` and back). |
| OpenAiClient.BlocosUsados | src/integrations/openaiClient.ts:50-58 | The blocks are never empty: the request's blocks when it gives some, the five defaults otherwise. |
| OpenAiClient.DefaultBlocksOfPeticaoInicial | src/integrations/openaiClient.ts:50-58 | The default blocks are the first five blocks of the initial-petition template. |
| OpenAiClient.BlocosTextoLines | src/integrations/openaiClient.ts:60-62 | The scaffold is heading, instruction and blank line for each block, joined line by line. |
| OpenAiClient.SectionLinesNoNewline | src/integrations/openaiClient.ts:60-62 | No line of the scaffold spans two lines. |
| OpenAiClient.BlocosTextoHeadings | src/integrations/openaiClient.ts:60-62 | The `### ` lines of the scaffold are exactly one `### <title>` per block, in block order. |
| OpenAiClient.PartyLine | src/integrations/openaiClient.ts:34-39 | A party line is `PAPEL: nome`, followed by ` (qualificacao)` exactly when a qualification is given. |
| OpenAiClient.PapelUpper | src/integrations/openaiClient.ts:37 | The roles are written `AUTOR`, `REU` and `TERCEIRO`. |
| OpenAiClient.PartiesTextLines | src/integrations/openaiClient.ts:34-39 | When no name or qualification spans lines, the party text has exactly one line per party, in order. |
| OpenAiClient.DocumentosTextoNames | src/integrations/openaiClient.ts:41-43 | Every document name of a given list appears in the documents sentence. |
| OpenAiClient.BuildPrompt | src/integrations/openaiClient.ts:33-73 | The prompt opens with the drafting request naming the kind of filing, and ends with the closing instruction. In between it contains the facts, the party text, the documents sentence, the pedidos guidance, the structure rules and the scaffold of the blocks in use. |
| OpenAiClient.BuildPromptNamesDocuments | src/integrations/openaiClient.ts:33-73 | Every document the request lists is named in the prompt. |
| OpenAiClient.PedidosFundamentacao | src/integrations/openaiClient.ts:148-150 | The grounds are never empty: the trimmed text, or the placeholder when it is blank. |
| OpenAiClient.QuotedBlock | src/integrations/openaiClient.ts:144-146 | An optional text quoted under its heading is present exactly when the text is not blank, and it quotes the text trimmed. |
| OpenAiClient.ContextoAtualTexto | src/integrations/openaiClient.ts:144-146 | The previous-content block is present exactly when that content is not blank, and it quotes it trimmed. |
| OpenAiClient.BuildPedidosPrompt | src/integrations/openaiClient.ts:139-162 | The prompt contains the grounds and the previous-content block. |
| OpenAiClient.ListSection | src/integrations/openaiClient.ts:207-217 | An optional list section is empty exactly when the list is absent or empty. Otherwise it contains the items joined by blank lines. |
| OpenAiClient.NovasInformacoesTexto | src/integrations/openaiClient.ts:211-213 | The new-information block is present exactly when the text is not blank, and it quotes it trimmed. |
| OpenAiClient.BuildTopicRewritePrompt | src/integrations/openaiClient.ts:206-230 | The prompt contains the current text, then a blank line, then the memory, the new information and the references that are present, in that order, and it ends with the closing instructions. |
| OpenAiClient.Instrucoes | src/integrations/openaiClient.ts:277-279 | The instructions are never empty: the trimmed text, or the default when blank or absent. |
| OpenAiClient.ContextoTextoEntries | src/integrations/openaiClient.ts:273-275 | Every context entry appears in the context text. |
| OpenAiClient.BuildFreeformRewritePrompt | src/integrations/openaiClient.ts:272-287 | The prompt starts with the instructions and the context, and contains the text. |
| OpenAiClient.FreeformPromptHasContext | src/integrations/openaiClient.ts:272-287 | Every context entry the request gives appears in the free-form rewrite prompt. |
| OpenAiClient.Complete | src/integrations/openaiClient.ts:75-113 | No key gives the missing-key error before any request. A rejected request gives its own error. A response without non-empty text content gives the caller's error. Otherwise the result is the content, trimmed. |
| OpenAiClient.GenerateLegalPiece | src/integrations/openaiClient.ts:75-113 | The guard contract, for the piece prompt at temperature 0.4 and with its own error message. |
| OpenAiClient.GenerateSmartPedidos | src/integrations/openaiClient.ts:164-204 | The guard contract, for the pedidos prompt, with its own error message. |
| OpenAiClient.RewriteTopicWithContext | src/integrations/openaiClient.ts:232-270 | The guard contract, for the topic-rewrite prompt, with its own error message. |
| OpenAiClient.RewriteFreeformText | src/integrations/openaiClient.ts:289-327 | The guard contract, for the free-form rewrite prompt, with its own error message. |
| LegalDocGenerator.ResearchQuery | src/services/legalDocGenerator.ts:40-41 | The query names the kind of filing and quotes a prefix of the facts, 160 characters long or the whole summary. |
| LegalDocGenerator.GenerateLegalDocument | src/services/legalDocGenerator.ts:31-53 | A generator error propagates. Otherwise the text is the generator's output. A failed search leaves no case law. Otherwise the case law is a prefix of the results, `min(3, n)` long, from a search with the fixed three domains and a limit of 8. |
| MemoriaJuridica.CrlfToLf | src/services/memoriaJuridica.ts:124 | The line-end normalisation never lengthens a text, and leaves a text without CRLF unchanged. |
| MemoriaJuridica.Sanitized | src/services/memoriaJuridica.ts:124 | The text the chunker works on is trimmed. |
| MemoriaJuridica.LastIndexOf | src/services/memoriaJuridica.ts:135-136 | The position found holds the character, and no later position up to `from` does. -1 means there is none. |
| MemoriaJuridica.CutEnd | src/services/memoriaJuridica.ts:133-141 | A window ends after its start, within `chunkSize` characters, and at the text's end when the text fits. An interior end moves back only to the last space or line feed, and only when that lies strictly between `start + overlap` and the window's end. |
| MemoriaJuridica.ChunksStep | src/services/memoriaJuridica.ts:143-155 | One turn of the loop emits the window's chunk and carries on from `max(end - overlap, 0)` unless the text is used up. |
| MemoriaJuridica.NextStartAdvances | src/services/memoriaJuridica.ts:152 | With `0 <= overlap < chunkSize`, each window starts strictly after the previous one, so the loop ends. |
| MemoriaJuridica.SplitTextIntoChunks | src/services/memoriaJuridica.ts:123-159 | The while loop returns exactly the chunks of the sanitised text. |
| MemoriaJuridica.BlankSanitized | src/services/memoriaJuridica.ts:124-127 | The sanitised text is empty exactly when the input is blank. |
| MemoriaJuridica.ChunksShape | src/services/memoriaJuridica.ts:143-146 | Every chunk is non-empty, trimmed and at most `chunkSize` long. |
| MemoriaJuridica.TextChunks | src/services/memoriaJuridica.ts:123-159 | A blank text has no chunks, and any other text has at least one. Every chunk is non-empty, trimmed and at most `chunkSize` long. |
| MemoriaJuridica.OneChunk | src/services/memoriaJuridica.ts:132-149 | A text whose sanitised form fits one window is that one chunk. |
| MemoriaJuridica.ShortTextOneChunk | src/services/memoriaJuridica.ts:132-149 | A trimmed text without CRLF that fits one window is its own only chunk. |
| MemoriaJuridica.ChunksCover | src/services/memoriaJuridica.ts:132-156 | No text is lost: every position holding a character other than white space lies in a window `[a, b)` of at most `chunkSize` characters whose trimmed text is one of the chunks, and that character is in the chunk. |
| MemoriaJuridica.MetadataForSpec | src/services/memoriaJuridica.ts:207-214 | The stored keys are the item's own plus `tipo` and `criadoEm`. The item's values win. `tipo` falls back to the memory kind and `criadoEm` to the current time. |
| MemoriaJuridica.Repeat | src/services/memoriaJuridica.ts:216 | `n` copies of one metadata record. |
| MemoriaJuridica.PartsShape | src/services/memoriaJuridica.ts:195-206 | Every stored part is non-empty and trimmed. |
| MemoriaJuridica.PartsMetasLength | src/services/memoriaJuridica.ts:192-218 | `partes` and `metadados` always have the same length. |
| MemoriaJuridica.Owners | src/services/memoriaJuridica.ts:195-218 | Every part is attributed to a valid item position. |
| MemoriaJuridica.AlignedAt | src/services/memoriaJuridica.ts:195-218 | Part `k` is a chunk of an item with non-blank text, and metadata record `k` is that item's. |
| MemoriaJuridica.PartsAligned | src/services/memoriaJuridica.ts:192-218 | The two lists stay aligned part by part, and items with blank text contribute nothing. |
| MemoriaJuridica.MemorizarConteudos | src/services/memoriaJuridica.ts:187-231 | A failed embedding request fails the call with its error when there are parts. A batch is stored exactly when there are parts and the service returns one embedding per part. The batch holds the parts, their metadata and the embeddings. |
| MemoriaJuridica.AppendChunks | src/services/memoriaJuridica.ts:204-217 | The inner loop appends the chunks, and as many copies of the item's metadata. |
| MemoriaJuridica.PartsSnoc | src/services/memoriaJuridica.ts:195-218 | One more item extends both lists by that item's chunks and metadata. |
| MemoriaJuridica.ItemChunksShape | src/services/memoriaJuridica.ts:196-202 | The chunks of an item are non-empty and trimmed. |
| MemoriaJuridica.Where | src/services/memoriaJuridica.ts:290-299 | A filter key is present exactly when its option is a non-empty text, and it holds that text. |
| MemoriaJuridica.WhereIfAny | src/services/memoriaJuridica.ts:301-303 | The filter is sent exactly when it has a key. |
| MemoriaJuridica.QueryPayloadOf | src/services/memoriaJuridica.ts:285-303 | The query carries the embeddings and `topK`, or 5 when none is given. It carries a filter exactly when some option is a non-empty text. |
| MemoriaJuridica.DocumentsShape | src/services/memoriaJuridica.ts:316-324 | Every text read from an answer is non-empty and trimmed. |
| MemoriaJuridica.CollectDocuments | src/services/memoriaJuridica.ts:310-326 | The nested loop collects, in order, the non-blank trimmed strings of the array batches. A non-array gives nothing. |
| MemoriaJuridica.BuscarConteudoRelacionado | src/services/memoriaJuridica.ts:266-331 | No store gives nothing. A failed embedding request fails the call with its error. No embedding, a failed query or a non-array `documents` each give nothing. Otherwise the result is the collected texts, every one non-empty and trimmed. |
| MemoriaJuridica.FlatAppend | src/services/memoriaJuridica.ts:333-350 | Flattening distributes over concatenation. |
| MemoriaJuridica.FlatOfFlat | src/services/memoriaJuridica.ts:333-350 | A list without inner arrays is left as it is: exactly one level is flattened. |
| MemoriaJuridica.FlatOfNested | src/services/memoriaJuridica.ts:333-350 | Flattening a list of two lists concatenates them. |
| MemoriaJuridica.FlattenResponse | src/services/memoriaJuridica.ts:333-350 | The loop flattens one level of an array and returns nothing for a non-array. |
| MemoriaJuridica.SanitizeMetadata | src/services/memoriaJuridica.ts:352-357 | A copy is returned exactly for a plain object, arrays excluded. |
| MemoriaJuridica.ListPayloadOf | src/services/memoriaJuridica.ts:369-388 | The filter is sent exactly when some option is non-empty. A limit is sent exactly when it is finite and positive. It is then positive, at most 200, and equal to the limit or to 200. |
| MemoriaJuridica.FallbackIdsDistinct | src/services/memoriaJuridica.ts:416 | Two records at different positions whose ids are not texts get different fallback ids. |
| MemoriaJuridica.RecordAt | src/services/memoriaJuridica.ts:403-423 | A record exists exactly for a non-blank document. It has the trimmed text, the sanitised metadata, and the string-typed `tipo`, `clienteId`, `processoId` and `criadoEm` read from that metadata. |
| MemoriaJuridica.Records | src/services/memoriaJuridica.ts:400-424 | There are never more records than documents. |
| MemoriaJuridica.RecordsShape | src/services/memoriaJuridica.ts:403-407 | Every record's text is non-empty and trimmed. |
| MemoriaJuridica.RecordsComplete | src/services/memoriaJuridica.ts:403-424 | Every non-blank document gives its record. |
| MemoriaJuridica.AssembleRecords | src/services/memoriaJuridica.ts:400-426 | The record loop returns the records of all documents, in order. |
| MemoriaJuridica.ListarMemoriasInterno | src/services/memoriaJuridica.ts:359-431 | The listing is the assembled records of the store's answer to the computed request. No store or a failed request gives nothing. |
| MemoriaJuridica.ListarMemoriaPorCliente | src/services/memoriaJuridica.ts:437-445 | A blank id gives nothing. Otherwise the result is the listing for the trimmed id. |
| MemoriaJuridica.ListarMemoriaPorProcesso | src/services/memoriaJuridica.ts:447-455 | A blank id gives nothing. Otherwise the result is the listing for the trimmed id. |
| MemoriaJuridica.ClientListingFilter | src/services/memoriaJuridica.ts:437-445 | The per-client listing filters on the client alone. |
| MemoriaJuridica.ProcessListingFilter | src/services/memoriaJuridica.ts:447-455 | The per-case listing filters on the case alone. |
| LegalDocPublicRoutes.NormalizeMemoriaTipo | src/routes/legalDocPublicRoutes.ts:160-182 | A value is accepted exactly when it is a string whose trimmed, lower-cased form is one of the seven kinds. That form is returned. |
| LegalDocPublicRoutes.EmptyIsNotMemoriaTipo | src/routes/legalDocPublicRoutes.ts:160-177 | The empty text is not an accepted kind, which the early return for it relies on. |
| LegalDocPublicRoutes.LowerKeepsTrimmed | src/routes/legalDocPublicRoutes.ts:174 | Lower-casing keeps a trimmed text trimmed. |
| LegalDocPublicRoutes.NormalizeMemoriaTipoIdempotent | src/routes/legalDocPublicRoutes.ts:170-182 | An accepted kind is accepted again unchanged. |
| LegalDocPublicRoutes.ParseMetadata | src/routes/legalDocPublicRoutes.ts:184-202 | Metadata are returned exactly for a plain object with a string, number or boolean entry. They are exactly those entries, with their values. |
| LegalDocPublicRoutes.ParseMetadataIdempotent | src/routes/legalDocPublicRoutes.ts:184-202 | Reading metadata already read changes nothing. |
| LegalDocPublicRoutes.RefineContent | src/routes/legalDocPublicRoutes.ts:211 | The content is the first non-blank of `conteudo`, `texto` and `vetor`, trimmed. It is absent exactly when all three are blank. |
| LegalDocPublicRoutes.TopK | src/routes/legalDocPublicRoutes.ts:221-222 | `top_k` is passed on exactly when it is a finite number. |
| LegalDocPublicRoutes.RefineRoute | src/routes/legalDocPublicRoutes.ts:204-237 | Missing ids give 400 PARAMETROS_INVALIDOS. Missing content gives 400 CONTEUDO_OBRIGATORIO. Each is returned before any service call. Otherwise the service is asked with the ids, the content, the normalised kinds, the metadata and the parsed parties. The service gets `pesquisaComplementar` and `clienteId` exactly when they are non-blank strings, trimmed, and `topKMemoria` exactly when it is a finite number. |
| ProcessRoutes.Cells | src/routes/processRoutes.js:33-56 | Every line has at least one cell. |
| ProcessRoutes.SplitCsvLine | src/routes/processRoutes.js:33-56 | The index loop, with its quote state and its skip over a doubled quote, returns the cells of the specification. |
| ProcessRoutes.CellCount | src/routes/processRoutes.js:33-56 | A line has one more cell than it has delimiters outside quotes. |
| ProcessRoutes.QuoteFreeCells | src/routes/processRoutes.js:47-52 | A line without quotes is split at every delimiter. |
| ProcessRoutes.QuoteFreeRoundTrip | src/routes/processRoutes.js:33-56 | Joining the cells of a quote-free line with the delimiter gives the line back. |
| ProcessRoutes.EscapedField | src/routes/processRoutes.js:40-46 | Inside quotes, a field with every quote doubled, followed by the closing quote, reads back as the field. |
| ProcessRoutes.QuotedLineRoundTrip | src/routes/processRoutes.js:33-56 | A line of quoted fields reads back as the fields, whatever quotes and delimiters they hold (rule 7 of RFC 4180 section 2). |
| ProcessRoutes.CsvLinesNonBlank | src/routes/processRoutes.js:62 | No kept line is blank. |
| ProcessRoutes.DelimiterOfHeader | src/routes/processRoutes.js:66-68 | A header of two or more names written with `;` or with `,` (names holding neither) is read back with that delimiter. |
| ProcessRoutes.ValueAt | src/routes/processRoutes.js:77 | Column `i` holds cell `i` trimmed, or "" past the end of the line. |
| ProcessRoutes.ValuesTrimmed | src/routes/processRoutes.js:77 | Every value is trimmed. |
| ProcessRoutes.BuildRecord | src/routes/processRoutes.js:75-78 | The `forEach` builds the record of the header over the padded, trimmed cells. |
| ProcessRoutes.RecordKeys | src/routes/processRoutes.js:76-78 | A record has exactly the header's keys. |
| ProcessRoutes.RecordValues | src/routes/processRoutes.js:76-78 | Every value of a record is one of the line's column values. |
| ProcessRoutes.RecordColumns | src/routes/processRoutes.js:76-78 | With distinct headers, each header holds its own column. |
| ProcessRoutes.CsvRows | src/routes/processRoutes.js:58-83 | A blank text gives no records. Otherwise there is one record per non-blank line after the header. |
| ProcessRoutes.BlankCsvHasNoLines | src/routes/processRoutes.js:59-60 | A blank text has no lines at all. |
| ProcessRoutes.CsvRowAt | src/routes/processRoutes.js:70-80 | Record `i` is read from line `i + 1`, with the header's delimiter. |
| ProcessRoutes.CsvRowShape | src/routes/processRoutes.js:70-80 | Every record has exactly the header's keys, and every value is trimmed. |
| ProcessRoutes.CsvColumn | src/routes/processRoutes.js:70-80 | With distinct headers, column `j` holds cell `j` of the line trimmed, or "" when the line is short. |
| ProcessRoutes.ParseCsv | src/routes/processRoutes.js:58-83 | The loop returns the specified records. |
| ProcessRoutes.UpperColumn | src/routes/processRoutes.js:245-246 | `uf` and `oab` are set exactly when given. The value is then the upper-cased column, trimmed and already in upper case. |
| ProcessRoutes.ImportedKeys | src/routes/processRoutes.js:237-286 | The import only adds cases: the table keeps its cases and gains exactly the case numbers of the rows. |
| ProcessRoutes.ImportRows | src/routes/processRoutes.js:233-290 | `created + updated + skipped` is the number of rows. `skipped` counts the rows without a case number. The table grows by `created`. |
| ProcessRoutes.ImportCsv | src/routes/processRoutes.js:185-296 | Non-administrators get 403 and a blank text gets 400, each leaving the table untouched. Otherwise every parsed row is counted once and imported. |
| ProcessSync.NormalizarCnj | src/services/ProcessSyncService.ts:36-38 | The result is all digits and no longer than the input. |
| ProcessSync.NormalizarCnjSpec | src/services/ProcessSyncService.ts:36-38 | Exactly the digits are kept, in order: normalising distributes over concatenation and keeps a character exactly when it is a digit. Normalising twice is normalising once. |
| ProcessSync.ClassifyMovement | src/services/ProcessSyncService.ts:44-64 | An action is required exactly when a deadline is set. A deadline is 5 or 15 days of a summons. The type is one of three. |
| ProcessSync.ClassifyIgnoresCase | src/services/ProcessSyncService.ts:45 | The classification ignores letter case. |
| ProcessSync.ClassifyPriority | src/services/ProcessSyncService.ts:47-63 | The rules apply in order. A citation always gives 15 days. A sentence without an earlier rule needs no action. "outros" means that no citation and no sentence (`sentenca` or `sentença`) was mentioned. |
| ProcessSync.Weekday | src/services/ProcessSyncService.ts:71 | The weekday lies in 0..6. |
| ProcessSync.StepsToWeekday | src/services/ProcessSyncService.ts:69-75 | The next weekday is one to three days on. |
| ProcessSync.DeadlineSpec | src/services/ProcessSyncService.ts:66-77 | With no days the start is returned. Otherwise the deadline is a later weekday. It has exactly `days` weekdays in `(start, deadline]`, and no earlier day has them all. |
| ProcessSync.AddBusinessDays | src/services/ProcessSyncService.ts:66-77 | The loop stops on the deadline. |
| ProcessSync.ParseTargetValue | src/services/ProcessSyncService.ts:189-198 | A pair is returned exactly when the first two `|`-separated parts are non-empty. Both fields are trimmed. |
| ProcessSync.ParseTargetValueRoundTrip | src/services/ProcessSyncService.ts:189-198 | A clean name and registration written as `nome\|oab` read back as themselves. |
| ProcessSync.SelectUpdates | src/services/ProcessSyncService.ts:112-128 | A column is updated exactly when the new value is given and differs from the stored one. No column is listed twice. |
| ProcessSync.RefreshedSpec | src/services/ProcessSyncService.ts:112-137 | A stored field changes only to a given, differing new value. The update time is always refreshed. The id, origin and creation time never move. |
| ProcessSync.UpsertCase | src/services/ProcessSyncService.ts:79-140 | An empty number gives the "Número CNJ inválido" error. A new (number, court) pair inserts a row and returns its id. A known pair is refreshed and returns the existing id. |
| ProcessSync.SyncedSpec | src/services/ProcessSyncService.ts:155-184 | The table only grows, by at most one row per movement. Each new row belongs to the case and carries a hash no earlier row of the case has. It is `pendente`, and has a final day, exactly when it needs action. |
| ProcessSync.SyncedRecordsAll | src/services/ProcessSyncService.ts:155-184 | Afterwards every movement is recorded for the case: its hash is stored, whether it was new or already known. |
| ProcessSync.SyncedRowsOfMovements | src/services/ProcessSyncService.ts:155-184 | The old rows stay in front, and every new row is the row of one of the movements, with its classification and deadline. |
| ProcessSync.Touched | src/services/ProcessSyncService.ts:186 | The case row with the id gets the new update time. Every other row is unchanged, and no row is added or removed. |
| ProcessSync.SyncCaseMovements | src/services/ProcessSyncService.ts:151-187 | The loop over the movements gives the specified movement table, and the case table with the case's update time set to now. |
| TavilyClient.NormalizeCnj | src/integrations/tavilyClient.ts:41-47 | A number is returned exactly when there are 20 digits, and it is those digits. |
| TavilyClient.GetStringField | src/integrations/tavilyClient.ts:49-55 | A value is returned exactly for a non-blank string, and it is trimmed. |
| TavilyClient.ExtractResults | src/integrations/tavilyClient.ts:171-179 | A non-empty `results` comes first, then a non-empty `hits`. Nothing is returned exactly when both are missing or empty. |
| TavilyClient.CnjMatchAt | src/integrations/tavilyClient.ts:74 | A match is a formatted number of 25 characters or 20 bare digits. |
| TavilyClient.MatchesHaveTwentyDigits | src/integrations/tavilyClient.ts:74-82 | Every match normalises to a 20-digit number. |
| TavilyClient.AddAllSpec | src/integrations/tavilyClient.ts:73-82 | The insertion-ordered set holds each value once, exactly the values added, and keeps what it had in front. |
| TavilyClient.TribunalOf | src/integrations/tavilyClient.ts:88-90 | The court is never empty. It comes from the metadata, then the attributes, then the URL, then `DESCONHECIDO`. |
| TavilyClient.ProcessesOfSpec | src/integrations/tavilyClient.ts:71-101 | The processes have distinct 20-digit numbers and the result's court, and are exactly the numbers matched in the result. |
| TavilyClient.CollectNumbers | src/integrations/tavilyClient.ts:71-81 | The `exec` loop adds every normalised match to the set. The set ends up as the distinct numbers, in order of first match. |
| TavilyClient.CollectProcessesFromResult | src/integrations/tavilyClient.ts:71-102 | The `exec` loop gives the specified processes. |
| TavilyClient.MovementLinesShape | src/integrations/tavilyClient.ts:112-115 | Every line is non-empty, trimmed and free of line feeds. |
| TavilyClient.FirstDateFrom | src/integrations/tavilyClient.ts:120 | The leftmost date is found, and there is none before it. |
| TavilyClient.IndexOfFrom | src/integrations/tavilyClient.ts:138 | The first occurrence is found, and there is none before it. |
| TavilyClient.DateTextFirstAtMatch | src/integrations/tavilyClient.ts:120-138 | Removing the date's text removes the match itself, because an earlier copy would have been an earlier match. |
| TavilyClient.MovementOfSpec | src/integrations/tavilyClient.ts:119-145 | A line without a date is dated now and is its own description. A line with a date loses exactly its leftmost date, and is kept exactly when something remains. Descriptions are non-empty. |
| TavilyClient.ParsedMovementsShape | src/integrations/tavilyClient.ts:111-148 | Every movement has a one-line, trimmed, non-empty description. |
| TavilyClient.ParseMovementLines | src/integrations/tavilyClient.ts:111-148 | The loop gives the specified movements. |
| TavilyClient.MovementsOfSpec | src/integrations/tavilyClient.ts:150-169 | A result yields nothing exactly when it has no text field, and every movement is described. |
| TavilyClient.CollectMovementsFromResult | src/integrations/tavilyClient.ts:150-169 | The parsed lines come first. The single fallback movement is used only when no line was parsed. |
| TavilyClient.PerformSearch | src/integrations/tavilyClient.ts:181-203 | Without a key there are no results and no request. A failed request fails the call with its error. Otherwise the results are those extracted from the answer: a non-empty `results` list wins over `hits`, and they are empty exactly when both are missing or empty. |
| TavilyClient.KeepFirstSpec | src/integrations/tavilyClient.ts:208-219 | The kept elements have distinct keys and are exactly the first of each key. Every key survives. |
| TavilyClient.AddProcesses | src/integrations/tavilyClient.ts:211-216 | The inner loop extends the first-wins map by one result's processes. |
| TavilyClient.SearchProcessesByLawyer | src/integrations/tavilyClient.ts:205-220 | A failed search fails the call with its error. Otherwise the answer is the first process of each (number, court) pair over all results. |
| TavilyClient.SearchProcessesSpec | src/integrations/tavilyClient.ts:205-220 | One process per number and court, each found in some result, and no pair is missed. |
| TavilyClient.InsertByTimePerm | src/integrations/tavilyClient.ts:232 | Insertion adds exactly the one movement: the result is a permutation of the list plus it. |
| TavilyClient.InsertByTimeSorted | src/integrations/tavilyClient.ts:232 | Inserting into a list sorted by time keeps it sorted. |
| TavilyClient.InsertByTimeSpec | src/integrations/tavilyClient.ts:232 | Insertion keeps the list sorted and is a permutation step. |
| TavilyClient.SortByTimeSpec | src/integrations/tavilyClient.ts:232 | The sort is sorted by time and is a permutation of its input. |
| TavilyClient.KeepFirstSorted | src/integrations/tavilyClient.ts:233-236 | Deduplication keeps a sorted list sorted. |
| TavilyClient.SearchMovementsByCase | src/integrations/tavilyClient.ts:222-236 | A failed search fails the call with its error. Otherwise the answer is the sorted movements, deduplicated by date and description. |
| TavilyClient.SearchMovementsSpec | src/integrations/tavilyClient.ts:231-236 | The answer is chronological, with one entry per date and description, and misses none found. |
| CasesSync.PatternAt | src/services/casesSync.ts:13 | A match of the pattern is 24 or 25 characters in the unified layout (six- or seven-digit first group). |
| CasesSync.FirstPatternFrom | src/services/casesSync.ts:49 | The leftmost match is found, and there is none before it. |
| CasesSync.ExtractCnj | src/services/casesSync.ts:47-51 | An empty text gives nothing. Otherwise the result is the leftmost match, or nothing when no position matches. |
| CasesSync.MatchDigits | src/services/casesSync.ts:212-216 | A match has 20 digits exactly when its first group has seven, so six-digit matches are dropped. |
| CasesSync.InferMetaFromResult | src/services/casesSync.ts:57-86 | The loop computes the metadata `MetaOf` of the result. |
| CasesSync.MetaOfPriorities | src/services/casesSync.ts:57-86 | Later court tests override earlier ones (TRF over TST over STJ over TJGO), with null when none holds. The class follows the order MANDADO DE SEGURANÇA, APELAÇÃO, AGRAVO. `assunto` and `url` are the title and the URL, or null. |
| CasesSync.ByCnjSpec | src/services/casesSync.ts:208-221 | One entry per number, each of 20 digits and holding the first result that yields it, and no yielded number is missing. |
| CasesSync.ByCnjSnoc | src/services/casesSync.ts:210-220 | One turn of the loop adds a new number's entry and ignores a known one. |
| CasesSync.BuildByCnj | src/services/casesSync.ts:208-221 | The loop builds the specified map. |
| CasesSync.FirstWithNumero | src/services/casesSync.ts:130-132 | The row found has the number. |
| CasesSync.FirstWithNumeroFirst | src/services/casesSync.ts:130-132 | No row before the one found has the number, and none at all when nothing is found. |
| CasesSync.FirstWithNumeroFinds | src/services/casesSync.ts:130-132 | A row is found exactly when some row has the number. |
| CasesSync.RowOf | src/services/casesSync.ts:148 | The row hit by the (number, court) conflict clause has that pair. |
| CasesSync.RowOfFirst | src/services/casesSync.ts:148 | No row before the one hit by the conflict clause has the pair, and none at all when nothing is hit. |
| CasesSync.UpsertCase | src/services/casesSync.ts:123-170 | The upsert answers and writes what the one-record effect `UpsertStep` says. |
| CasesSync.UpsertStepShape | src/services/casesSync.ts:123-170 | A number without 20 digits answers false and writes nothing. A new number inserts with the record's court or `DESCONHECIDO` and answers true. A known number takes a differing court and merges the optional fields with `COALESCE`, answering false. A unique violation happens exactly when the new court already belongs to another row of the number, and then nothing is written. |
| CasesSync.UpsertStepKeeps | src/services/casesSync.ts:123-170 | A successful upsert keeps every row's number, changes only rows of its own number, appends at most one row, of its number, leaves a valid number with a row, and keeps the (number, court) pairs unique. |
| CasesSync.UpsertStepOneRow | src/services/casesSync.ts:123-170 | A table with at most one row per number never gives a unique violation and keeps that property. |
| CasesSync.RecordsAt | src/services/casesSync.ts:227-236 | The record upserted for an entry holds its number and the metadata inferred from its result. |
| CasesSync.CnjsOfRecords | src/services/casesSync.ts:227-236 | The records carry the entries' numbers, in order. |
| CasesSync.UpsertFoldRollback | src/services/casesSync.ts:226-242 | A failed transaction leaves the table as it was and counts nothing. |
| CasesSync.UpsertFoldStops | src/services/casesSync.ts:226-242 | Once an upsert has failed, the whole transaction fails whatever follows. |
| CasesSync.UpsertFoldOk | src/services/casesSync.ts:226-242 | A table with at most one row per number never makes the transaction fail, and it keeps that property. |
| CasesSync.UpsertFoldSize | src/services/casesSync.ts:226-242 | A finished transaction adds exactly `inserted` rows, at most one per record, and keeps the (number, court) pairs unique. |
| CasesSync.UpsertFoldTracks | src/services/casesSync.ts:226-242 | After a finished transaction every valid number has a row, rows of other numbers are untouched and new rows carry upserted numbers. |
| CasesSync.UpsertFoldCount | src/services/casesSync.ts:226-242 | For distinct numbers, `inserted` is the count of valid numbers that had no row. |
| CasesSync.UpsertAllSpec | src/services/casesSync.ts:223-244 | Whatever the transaction answers: a table with one row per number succeeds, a failure writes nothing, and a success tracks the numbers, counts the new ones and keeps the pairs unique. |
| CasesSync.UpsertAll | src/services/casesSync.ts:223-244 | The loop computes the transaction's fold `UpsertFold`, rolling back on the first failing upsert, and it cannot fail on a table with one row per number. |
| CasesSync.TracksNewNumber | src/services/casesSync.ts:223-244 | A number that was not upserted has a row afterwards exactly when it had one before. |
| CasesSync.NumbersOfByCnj | src/services/casesSync.ts:208-221 | The numbers written are the keys of the grouped results, so no number is written twice. |
| CasesSync.TransactionSpec | src/services/casesSync.ts:223-254 | A failed transaction reports the unique violation and writes nothing. A finished one reports the number of distinct numbers found and grows the table by `inserted`. A table with one row per number never fails. |
| CasesSync.TransactionTracks | src/services/casesSync.ts:223-254 | After a finished transaction every valid number found has a row, rows of other numbers are untouched, `inserted` is the count of numbers that had no row, and the pairs stay unique. |
| CasesSync.SyncOfSpec | src/services/casesSync.ts:178-254 | A failed sync writes nothing. A finished one had the key and every search answered, and its result is the transaction over the distinct numbers found. With the key, every search answered and one row per number, the sync finishes. |
| CasesSync.SyncCasesFromTavily | src/services/casesSync.ts:178-254 | The method computes `SyncOf`. Without a key, or when a search request fails, nothing is written and the error is returned. With the key, every search answered and one row per number, it finishes. |
| CasesSync.SearchedStops | src/services/casesSync.ts:192-205 | Once a search request has failed, the later queries do not change the outcome. |
| CnjNumber.Format | src/services/processes.js:7 | The layout has 25 characters and keeps the digits. A 20-digit input gives the unified layout. |
| CnjNumber.FormatRoundTrip | src/services/processes.js:5-7 | Formatting and stripping are inverse: a formatted number's digits are its 20 digits, and a number in the layout is the formatting of its digits. |
| CnjFormatters.OnlyDigits | dist/lib/cnj.js:1-3 | The result is all digits, and "" for a missing argument. |
| CnjFormatters.OnlyDigitsIdempotent | dist/lib/cnj.js:1-3 | Keeping the digits twice is keeping them once. |
| CnjFormatters.ToFormattedCnj | dist/lib/cnj.js:5-10 | A number is returned exactly when 20 digits remain, and it is in the 7-2.4.1.2.4 layout. |
| CnjFormatters.ToFormattedKeepsDigits | dist/lib/cnj.js:5-10 | The digits of the formatted number are the digits of the input. |
| CnjFormatters.NormalizeCnjDatajud | src/services/processes.js:3-8 | "" gives "". 20 digits give the unified layout. Any other count gives the bare digits. |
| CnjFormatters.NormalizeCnjDatajudKeepsDigits | src/services/processes.js:5-7 | Stripping the output gives back the input's digits. |
| CnjFormatters.NormalizeCnjDatajudIdempotent | src/services/processes.js:3-8 | Normalising twice is normalising once. |
| CnjFormatters.NormalizeCnjPdpj | src/services/pdpjClient.ts:1-6 | `null` and `undefined` give nothing. A result exists exactly when there are 20 digits, and it is 25 characters in the unified layout. |
| CnjFormatters.NormalizeCnjPdpjKeepsDigits | src/services/pdpjClient.ts:3-5 | Stripping the result gives back the digits. |
| CnjFormatters.FormattersAgree | src/services/pdpjClient.ts:3-5 | On 20 digits the three formatters write the same text. |
| Processes.OrNull | src/services/processes.js:14-21 | `a \|\| b \|\| null` is `null` or truthy, preferring `a`. |
| Processes.MapDatajudSource | src/services/processes.js:11-25 | Mapping fails exactly where the JavaScript throws: a missing document, a truthy non-string number, or a null subject. `eventos` is `movimentos` when that is an array, and [] otherwise. |
| Processes.MappedNumero | src/services/processes.js:13 | The number is empty only when the document has no digits. It keeps the document's digits, and is in the unified layout when there are 20. |
| Processes.MappedFieldsNullOrTruthy | src/services/processes.js:13-22 | Every optional field is null or truthy, and the number prefers `numeroProcesso`. |
| Processes.NormalizeText | src/services/processes.js:27-31 | Null and undefined give null. A kept text is non-empty and trimmed. |
| Processes.NormalizeTextSpec | src/services/processes.js:27-31 | A value is dropped exactly when it is absent or blank. A normalised text normalises to itself. |
| Processes.Param | src/services/processes.js:44-71 | Every column parameter is null or a non-empty trimmed text. |
| Processes.FindExisting | src/services/processes.js:40-42 | The first row with the number in `cnj` or `cnj_number` is found. Nothing is found exactly when no row has it. |
| Processes.MergeSpec | src/services/processes.js:89-111 | `COALESCE` takes every value the document gives and never forgets a stored value. |
| Processes.UpsertProcessFromDatajud | src/services/processes.js:34-120 | A missing record or number gives null and writes nothing. A new number inserts a row. A known one updates its first row in place and leaves every other row alone. After a write the number resolves. |
| Processes.UpsertKeepsAndTakes | src/services/processes.js:89-117 | The updated row has the number, takes every supplied value, keeps every stored value and a set `origin`, and has `fonte` `datajud`. |
| ProcessoDto.Apply | src/routes/casesRoutes.js:67-71 | A successful upsert leaves a row for the number, and a failed one leaves the table as it was. |
| ProcessoDto.ApplyCount | src/routes/casesRoutes.js:67-71 | Only a successful upsert of a new number adds exactly one number. |
| CasesRoutes.ParseParties | src/routes/casesRoutes.js:10-18 | Falsy and other non-string values give []. An array is returned as is. A string gives its non-blank trimmed pieces between `;`, `,` and newlines, in order. |
| CasesRoutes.ParsePartiesJoin | src/routes/casesRoutes.js:14-17 | Non-blank trimmed names without separators, joined with `;`, read back as the same names. |
| CasesRoutes.ParsePartiesOfText | src/routes/casesRoutes.js:14-17 | Every party read from a text is a non-blank trimmed name without `;`, `,` or a newline. |
| CasesRoutes.ManualDto | src/routes/casesRoutes.js:54-65 | The DTO has the trimmed number and a truthy `origem`, `manual` by default. |
| CasesRoutes.PostProcess | src/routes/casesRoutes.js:49-72 | 400 NUMERO_REQUIRED exactly when the number is blank, and a rejection leaves the table alone. A thrown upsert is an error with the table unchanged, and a zero id is 500 UPSERT_FAILED. Otherwise the DTO is upserted, the answer carries its id, 200 for a known number and 201 for a new one, and the trimmed number joins the table. |
| CasesRoutes.SeparatorOfTable | src/routes/casesRoutes.js:110 | An upload written with `;` is read with `;`, and one written with `,` and holding no `;` is read with `,`. |
| CasesRoutes.Lines | src/routes/casesRoutes.js:111-114 | Every line is non-blank and trimmed. |
| CasesRoutes.IndexOf | src/routes/casesRoutes.js:121 | The first position of the key, and -1 exactly when it is absent. |
| CasesRoutes.TakeRoundTrip | src/routes/casesRoutes.js:118-124 | A header line and a data line joined with the separator read back: the headers are the written ones, and the cell found under a header is the cell written in its column. |
| CasesRoutes.CsvDtoSpec | src/routes/casesRoutes.js:131-148 | A line without a number gives no DTO. A DTO has the trimmed number, a truthy `situacao` and `origem` `csv`. |
| CasesRoutes.MissingNumbers | src/routes/casesRoutes.js:132-136 | At most one error per line. |
| CasesRoutes.ImportRows | src/routes/casesRoutes.js:126-162 | The loop gives the counts and table of the fold over the lines. |
| CasesRoutes.ImportAllCounts | src/routes/casesRoutes.js:126-162 | Every line counts once, as an insertion, an update or an error. Every line without a number is an error. The table only grows, and by exactly `inseridos`. |
| CasesRoutes.ImportAllKnown | src/routes/casesRoutes.js:126-162 | A number is in the table afterwards exactly when it was there before or some line with that number was upserted successfully. |
| CasesRoutes.ImportCsv | src/routes/casesRoutes.js:104-165 | A missing or non-string `csv` gives the 400 message and no write. Otherwise `inseridos + atualizados + erros = total`, the number of data lines, every line without a number is an error, the table grows by exactly `inseridos`, and the result is the fold over the data lines. |
| SyncService.NormalizeRespRoundTrip | src/services/syncService.js:4-10 | A list handed over bare, as `data` or as `items` comes back unchanged, `data` winning over `items`. Normalising a normalised list changes nothing. |
| SyncService.PartyNames | src/services/syncService.js:21-22 | An array gives the `nome` of each party, in order, and fails exactly when it holds a null or undefined item. Anything else gives []. |
| SyncService.DtoFromGateway | src/services/syncService.js:12-25 | `origem` is `pdpj`, `situacao` is truthy, and the number is a truthy `numero_cnj`, then a truthy `numero`, then "". The parties are the names of the two lists. Mapping fails exactly when a party list has a null item. |
| SyncService.SafeUf | src/services/syncService.js:31 | A state is read exactly when it is falsy or a string. A non-empty string reads as itself trimmed and upper-cased. |
| SyncService.SyncItemsSpec | src/services/syncService.js:36-60 | Without ingestion the lists are empty and the table is untouched. With it, `total` counts every item, each id is non-zero, the two lists hold at most `total` ids, and the table only grows. |
| SyncService.SafeUfDefault | src/services/syncService.js:31 | A missing (falsy) state reads as GO. |
| SyncService.SafeUfSpec | src/services/syncService.js:31 | Every state read is trimmed and upper case. |
| SyncService.IngestSpec | src/services/syncService.js:39-53 | Each item adds at most one id, to one list, and the earlier ids stay. Ids are truthy. The table grows by exactly the insertions, and a thrown upsert stops the ingestion. |
| SyncService.IngestKnown | src/services/syncService.js:39-53 | Every number upserted successfully is in the table afterwards, and every number new to the table was upserted successfully by some item. |
| SyncService.SyncByOabSpec | src/services/syncService.js:27-61 | A missing OAB is refused before any gateway call. `total` counts every item. Without ingestion the lists are empty and the table untouched. The table grows by the insertions. |
| SyncService.IngestItems | src/services/syncService.js:39-53 | The loop gives the specified ingestion. |
| SyncService.SyncProcessesByOab | src/services/syncService.js:27-61 | The method gives the specified outcome. |
| SyncService.AddOabSpec | src/services/syncService.js:68-75 | One registration only grows the sums and the table. `novos` grows by at most the new rows, and by exactly them when the call is not rejected. |
| SyncService.SyncAllSpec | src/services/syncService.js:63-79 | No registration stops the loop. `novos` never exceeds the new rows, and equals them when nothing is rejected. |
| SyncService.SyncByAllTrackedOabs | src/services/syncService.js:63-79 | The loop gives the specified totals. |
| DatajudConfig.SeparatorRun | src/config/datajud.js:20 | The run is the leading separator characters, and is empty exactly when the text does not start with one. |
| DatajudConfig.AliasText | src/config/datajud.js:12 | Every alias text is trimmed. |
| DatajudConfig.ParseAliases | src/config/datajud.js:3-23 | Falsy or blank input gives []. Every alias is non-empty and trimmed. |
| DatajudConfig.ParseAliasesSpec | src/config/datajud.js:8-22 | A JSON array gives exactly its non-blank stringified elements. Anything else is split on separator runs, and no alias then holds a separator. |
| RequirePermission.Decide | src/middleware/requirePermission.ts:4-17 | A refusal is 403 "Permissão insuficiente" or 500 "Erro interno". |
| RequirePermission.AdminAllowed | src/middleware/requirePermission.ts:9 | An administrator always passes. |
| RequirePermission.MissingUserDenied | src/middleware/requirePermission.ts:7-12 | A request without a user gets 403. |
| RequirePermission.ListDecision | src/middleware/requirePermission.ts:9-12 | With a permission list the request passes exactly for an admin, `*` or the permission itself, and otherwise gets 403. |
| RequirePermission.FalsyPermissions | src/middleware/requirePermission.ts:8-9 | Falsy permissions read as [], so only an admin passes. |

## Left out

- `hashMovement` (SHA-256) is a parameter of the movement synchronisation. The model assumes only that it is a function of the movement.
- JavaScript dates and time zones are not modelled. A day is an integer counted from 1970-01-01 (a Thursday), and `new Date()`, ISO formatting and date parsing are parameters.
- Network calls are left out: the axios calls to the chat-completion service, the search service, the vector store and the PDPJ gateway. So are the collection bootstrap of the vector memory and `searchLegalInsights`. Each is a function parameter that may answer with an error. Where the source lets a rejected request propagate, the model passes the error on; where the source catches it, the model takes the caught path.
- The SQL engine is left out.
  - Tables are sequences, maps or the set of numbers with a row.
  - `upsertProcessoFromDTO` of the database layer is a parameter, because its code is not part of this model.
  - The statement text, column types and transaction isolation are not modelled.
- `insertEventsFromDatajud`, the event insertion of the CSV import (`evento_descricao`/`evento_data`) and `insertAndamentosDedup` in `syncProcessesByOab` are not modelled. They write only to event tables that nothing modelled reads.
- `JSON.parse` in `parseAliases` is a parameter.
- Regular expressions are replaced by hand-written scanners, one per pattern.
- Numbers are integers: fractions are not represented, so `Math.trunc` is the identity.
- `toUpperCase`/`toLowerCase` map only ASCII and the Latin-1 letters that have a one-letter Latin-1 partner. Other Unicode case mappings are not modelled, among them ß to "SS", ÿ to Ÿ (U+0178) and µ to Μ (U+039C).
- TavilyClient.SearchMovementsByCase: the comparator is a parameter returning an integer. An invalid date (`NaN` from `getTime`) is not modelled.
- `inferTribunalFromUrl` is a parameter of the court lookup, because it depends on the URL parser.
- The lawyer-search key is the pair (number, court) rather than the text `numero|tribunal`. The same holds for the movement signature `data|descricao`. The two agree because the first part, a 20-digit number or an ISO date, cannot hold `|`, so the text splits back at its first `|`. The second part (a court or a movement text) may hold `|`.
- `runDailySync`, `createManualCase`, `attachLawyersToCase` and `ensureWatchLog` are left out. They only sequence the modelled operations with database writes.
- The GET routes of the case routes (SQL only) and the route wrapper around `syncProcessesByOab` are left out.
- SyncService.SyncByAllTrackedOabs: the active registrations are an input list instead of a query on `vinculacoes_oab`.
- Thrown JavaScript errors are modelled as an `Err` value. A `TypeError` keeps no message beyond "TypeError".
- After a call throws, the order of database effects is not modelled beyond "earlier writes stay".
- MemoriaJuridica.SplitTextIntoChunks requires `0 <= overlap < chunkSize`. The source loop can run forever only when `chunkSize <= 0` or `overlap >= chunkSize`. A negative overlap still advances there (`start = Math.max(end - overlap, 0)` jumps past `end` and skips characters); the model leaves that case out by choice, as the callers pass the default values.
- MemoriaJuridica.MemorizarConteudos: the item kinds are not checked against their declared union type. The clock reading for `criadoEm` is one value for the whole batch.
- LegalDocPublicRoutes.RefineRoute models the route only up to the service call. The service that rewrites the stored piece and its 404 errors are not part of this model. Neither are the section parser, citation checker and DOCX export that the routes import.
- OpenAiClient.GenerateLegalPiece and the other three calls model only the request each one sends and the guard on the answer. Model names, timeouts and HTTP headers are left out.
- The case number's DD check digits (the ISO 7064 mod 97-10 annex of CNJ Resolution 65/2008) are never verified, as in the source.
- Strings are sequences of code points, while JavaScript strings are sequences of UTF-16 code units. Characters outside the Basic Multilingual Plane count once here and twice in the source.
- MemoriaJuridica.SplitTextIntoChunks: `chunkSize`, `overlap` and the window ends are counted in code points, not UTF-16 code units, so a text with astral characters can give fewer chunks here than in the source.
- LegalDocGenerator.ResearchQuery: `slice(0, 160)` keeps 160 code points here, where the source keeps 160 UTF-16 code units and may split a surrogate pair.
- CnjFormatters.NormalizeCnjPdpj: numbers are exact integers, while JavaScript numbers are doubles. A number above 2^53 is formatted from its exact digits here, but from its rounded value by `String(n)` in the source.
- LegalDocTemplates.GetTemplate: names inherited from the object prototype (`toString`, `constructor`, `hasOwnProperty`, `valueOf`, `__proto__`) are not modelled. The source finds a truthy value for them and returns it instead of throwing; its TypeScript signature admits only `TipoPeca` identifiers.
- CasesSync.FirstWithNumero: `LIMIT 1` without `ORDER BY` lets the database return any row with the number. The model takes the first one in table order.
- Processes.FindExisting: `LIMIT 1` without `ORDER BY` lets the database return any matching row. The model takes the first one in table order.
- ProcessSync.SyncCaseMovements: the source reads `new Date()` again for each movement it inserts. The model uses the one clock reading `env.now` for those rows and for the case's update time.
- CasesRoutes.ImportRows: the method states only that it computes the fold `ImportAll`. The counts and the table contents are stated about that fold by `ImportAllCounts` and `ImportAllKnown`, and `ImportCsv` states the counts directly.
- CasesSync.UpsertCase: the method states only that it computes the one-record effect `UpsertStep`. What the upsert does is stated about `UpsertStep` by `UpsertStepShape`, `UpsertStepKeeps` and `UpsertStepOneRow`.
- CasesSync.InferMetaFromResult: the method states only that it computes `MetaOf`. The priorities are stated about `MetaOf` by `MetaOfPriorities`.
- CasesSync.UpsertAll: the method states that it computes the fold `UpsertFold` and cannot fail on a table with one row per number. The rows, sizes and counts are stated about that fold by `UpsertAllSpec` and the `UpsertFold*` lemmas.
- CasesSync.SyncCasesFromTavily: the method states that it computes `SyncOf`, with its error cases and when it finishes. What a finished sync wrote is stated by `SyncOfSpec`, `TransactionSpec` and `TransactionTracks`.
- OpenAiClient.BuildPrompt: the contract fixes the opening and the closing of the prompt and that each part is contained in it. It does not state the relative order of the parts in between.
