# Contrato realidad: a verified model of the claim assistant's core

The application helps a Colombian labour lawyer build a *contrato realidad*
claim (a claim that a service contract was, in reality, an employment
contract). A Streamlit wizard leads the lawyer through these phases:

- **phase 0**: choose how the case is loaded, by transcription or by case file;
- **phase 0.5**: load the facts;
- **phase 1**: generate a technical summary of the facts;
- **phase 2**: issue a legal opinion on viability;
- **phase 3**: optionally go to the power-of-attorney module;
- **phase 4**: draft the twelve sections of the claim one at a time, rewrite them with comments and export the claim.

Generation goes through one of three routes:

- a keyword retriever over a small seeded knowledge base ("RAG Básico");
- an embedding retriever over a twelve-document corpus with a per-instance embedding cache ("RAG Vectorial");
- plain prompts ("Sin RAG").

Patterns extracted from a reference claim override all three. Around the wizard sit:

- a knowledge-base manager (a nested dictionary category → type → entries);
- the intake and cleaning of case files (PDF page joining, OCR acceptance thresholds, whitespace normalisation);
- a power-of-attorney template filled from 27 named fields;
- a command-line tool that extracts reference patterns from a document.

The model is split by the program's own files:

| file | models |
|---|---|
| `wizard.dfy` (`Asistente`) | `app.py`: the session as a class whose methods are the buttons |
| `rag.dfy` (`KeywordRag`) | `utils/rag.py` |
| `vector_rag.dfy` (`VectorRag`) | `utils/vector_rag.py`, with the class `VectorLegalRag` and its cache |
| `knowledge_manager.dfy` (`KnowledgeManager`) | `utils/knowledge_manager.py`, with the class `LegalKnowledgeManager` |
| `documento_referencia.dfy` (`Referencia`) | `utils/documento_referencia.py` |
| `expediente.dfy` (`Expediente`) | `utils/expediente.py` |
| `poder.dfy` (`Poder`) | `utils/poder.py` |
| `extraer_patrones.dfy` (`ExtraerPatrones`) | `extraer_patrones.py` |
| `generation.dfy` (`Generation`) | the requests sent to the language model, the information block and the comment block |
| `text.dfy` (`Text`), `ordered_map.dfy` (`OrderedMap`), `semilla.dfy` (`Semilla`), `wrappers.dfy` (`Wrappers`) | Python's `strip`, `split`, `lower`, `in` and `join` on strings; the insertion-ordered `dict`; the seeded knowledge texts; `Option`/`Result` |

The model treats these services as parameters:

- **Language model**: a function `llm` from a request (a `Peticion` value carrying every interpolated argument of the prompt) to `Option<string>`. `None` means the client raised.
- **Embedding service**: a function `embed` from a text to a vector. The empty vector means the call failed, as in the source.
- **Cosine similarity**: a function `cosine` to a real number.
- **Extraction and OCR libraries, file reads and file writes**: the values they produce, passed in as parameters.

The wizard receives its generators as a record of functions, `Generadores`. `Asistente.DeOraculos` builds that record from the three routes above.

## Model

| member | source | states |
|---|---|---|
| Text.Strip | utils/expediente.py:333 | `str.strip()`: the result is no longer than the input, is empty exactly when the input is all whitespace, and otherwise begins and ends with a non-space |
| Text.StripFrame | utils/poder.py:71 | surrounding a text that has no whitespace at its ends with whitespace and stripping gives the text back |
| Text.StripIdempotent | utils/expediente.py:333 | stripping twice is stripping once |
| Text.Words | utils/expediente.py:323 | `str.split()`: every word is non-empty and contains no whitespace |
| Text.WordsAllSpace | utils/expediente.py:323 | `split()` yields no word exactly when the text is all whitespace |
| Text.WordsOfJoin | utils/expediente.py:323 | splitting `' '.join(ws)` of whitespace-free, non-empty words gives back `ws` |
| Text.Contains | utils/knowledge_manager.py:129 | the substring test `n in h` holds exactly when `n` occurs at some position of `h` |
| Text.LowerAppend | utils/rag.py:78 | lower-casing distributes over concatenation |
| Text.Find | utils/poder.py:69 | the first occurrence of the separator, or none at any position |
| Text.SplitOnAbsent | utils/poder.py:69 | `s.split(sep)` of a text without the separator is `[s]` |
| Text.SplitOnFirst | utils/poder.py:69 | `(a + sep + b).split(sep)` is `a` followed by the split of `b` when `a` holds no separator |
| Text.Take | utils/documento_referencia.py:93 | the slice `s[:n]`: `min(len(s), n)` characters, a prefix of `s` |
| Text.SinPrefijoPresente | utils/documento_referencia.py:134 | removing a leading fence that is there leaves exactly the text after it |
| Text.SinPrefijoAusente | utils/documento_referencia.py:134 | a text that differs from the fence at some position is left unchanged |
| Text.SinSufijoPresente | utils/documento_referencia.py:138 | removing a trailing fence that is there leaves exactly the text before it |
| Text.Decimal | utils/rag.py:143 | the number of a line of the information block is a non-empty run of digits |
| Text.JoinSnoc | utils/expediente.py:331 | joining one more line adds the separator and the line at the end |
| Text.StripSufijoEspacios | utils/expediente.py:49 | trailing whitespace added before stripping changes nothing |
| Text.Limpias | utils/expediente.py:326-331 | the kept lines are no more than the input lines and none is empty |
| OrderedMap.Posicion | app.py:629 | the first position holding the key, and none exactly when the key is absent |
| OrderedMap.Obtener | utils/knowledge_manager.py:115 | `d.get(k)`: nothing exactly when the key is absent, otherwise a value stored under it |
| OrderedMap.AsignarEfecto | app.py:672 | `d[k] = v` keeps keys unique, stores `v` under `k`, leaves every other key's value alone and appends `k` only when it was new |
| OrderedMap.ObtenerUnica | utils/knowledge_manager.py:115 | with unique keys, looking up the key at position `i` finds position `i` and its value |
| Generation.RespuestaRagTotal | utils/rag.py:162-176 | a retriever always answers, without surrounding whitespace; the answer is the fixed error text exactly when the client raised or the reply itself strips to that text, and otherwise the stripped reply; a direct generator fails exactly when the client raised and otherwise answers the same stripped reply |
| Generation.ConstruirBloqueInformacion | utils/rag.py:141-145 | the loop that concatenates the numbered citation lines builds the information block |
| Generation.BloqueVacio | utils/rag.py:141-145 | the information block is empty exactly when nothing was retrieved |
| Generation.CitaEnBloque | utils/rag.py:143-145 | the k-th retrieved entry appears in the block as line k+1 with its content and source |
| Generation.LineasPrefijo | utils/rag.py:143-145 | the lines of the first n entries are a prefix of the whole block |
| Generation.BloqueComentario | utils/documento_referencia.py:301 | the comment block is empty exactly when there is no comment, and otherwise opens with the comment heading and ends with the comment |
| KeywordRag.Etiquetar | utils/rag.py:87-95 | each seeded item becomes one entry with the group's type, the group's prefix followed by the item as content, and the group's source, in order |
| KeywordRag.Recuperados | utils/rag.py:133 | at most five entries, a prefix of all the entries the firing groups contribute, and all of them when fewer than five |
| KeywordRag.AgregarEtiquetados | utils/rag.py:91-95 | the append loop adds exactly the tagged items after those already retrieved |
| KeywordRag.AgregarSiActiva | utils/rag.py:98-104 | a group's entries are appended exactly when one of its keywords occurs in the query |
| KeywordRag.RetrieveRelevantInfo | utils/rag.py:75-133 | the imperative retrieval computes `Recuperados(query)`, without reading the context |
| KeywordRag.Citas | utils/rag.py:143-145 | one citation per retrieved entry, in order, with its content and source |
| KeywordRag.GenerateRagResponse | utils/rag.py:135-176 | the answer is either the fixed error text or the stripped reply to the request built from the query, context and comment |
| KeywordRag.GenerarResumenConRag | utils/rag.py:178-184 | the summary wrapper answers the fixed summary query with the facts as context |
| KeywordRag.EvaluarViabilidadConRag | utils/rag.py:186-192 | the viability wrapper answers the fixed viability query with the facts as context |
| KeywordRag.GenerarSeccionConRag | utils/rag.py:194-202 | the section wrapper answers the section's query with the summary and opinion as context and the comment as extra instructions |
| KeywordRag.PrimerGrupo | utils/rag.py:83-95 | a query containing a first-group keyword retrieves exactly the concept and the first four elements |
| KeywordRag.NadaSinPalabras | utils/rag.py:83-133 | nothing is retrieved exactly when none of the sixteen keywords occurs in the lower-cased query |
| KeywordRag.SoloMinusculas | utils/rag.py:78 | two queries with the same lower-case form retrieve the same entries |
| KeywordRag.ConsultasFijas | utils/rag.py:182-199 | the summary, viability and section queries all contain "contrato realidad" and so always retrieve the same five entries |
| VectorRag.CorpusIdsDistintos | utils/vector_rag.py:22-134 | the corpus holds twelve documents with pairwise distinct ids |
| VectorRag.Insertar | utils/vector_rag.py:175 | one insertion step of the sort adds exactly one element and loses none |
| VectorRag.OrdenarDesc | utils/vector_rag.py:175 | sorting keeps the length |
| VectorRag.InsertarOrdenado | utils/vector_rag.py:175 | inserting into a non-increasing list keeps it non-increasing |
| VectorRag.OrdenarDescOrdenado | utils/vector_rag.py:175 | the sorted list is in non-increasing similarity order |
| VectorRag.OrdenarDescPermutacion | utils/vector_rag.py:175 | the sorted list is a permutation of the scored list |
| VectorRag.OrdenarDescEstable | utils/vector_rag.py:175 | the sort is stable: documents of equal similarity keep their corpus order |
| VectorRag.ConSimilitudConcat | utils/vector_rag.py:175 | selecting one similarity level distributes over concatenation |
| VectorRag.Primeros | utils/vector_rag.py:176 | `xs[:k]`: at most k elements, a prefix, and the whole list when it is short |
| VectorRag.Puntuar | utils/vector_rag.py:165-172 | every scored entry is a corpus document whose embedding succeeded, and there are no more entries than documents |
| VectorRag.SobreUmbral | utils/vector_rag.py:186-195 | every kept entry has similarity strictly above 0.3 |
| VectorRag.SobreUmbralPrefijo | utils/vector_rag.py:186-195 | on a ranking, the kept entries are its leading entries and every entry after them is at or below 0.3 |
| VectorRag.BusquedaRanking | utils/vector_rag.py:157-176 | the search is empty when the query embedding fails; it holds at most top_k corpus documents whose embedding succeeded, in non-increasing order, `min(scored, top_k)` of them, and none left out outranks one kept |
| VectorRag.RecuperadosAcotados | utils/vector_rag.py:178-195 | at most five entries, each above 0.3 and each a corpus document, taken from the front of the top-5 search over the stripped `query + " " + context` |
| VectorRag.Citas | utils/vector_rag.py:203-207 | one citation per retrieved entry, with its content and its metadata's source |
| VectorRag.Contenidos | utils/vector_rag.py:165-167 | the texts embedded during a search are the documents' contents in corpus order |
| VectorRag.AnotarTodosCoherente | utils/vector_rag.py:142-151 | after any sequence of lookups every cached vector is the embedding of its text, and no cached text is forgotten |
| VectorRag.CacheSinLlamadas | utils/vector_rag.py:142-143 | looking up texts that are all cached costs no API call and leaves the cache as it was |
| VectorRag.AnotarTodosRecuerda | utils/vector_rag.py:151 | every text whose embedding succeeded is in the cache afterwards |
| VectorRag.VectorLegalRag.constructor | utils/vector_rag.py:17-20 | a new instance holds the twelve-document corpus and an empty cache |
| VectorRag.VectorLegalRag.GetEmbedding | utils/vector_rag.py:136-155 | the answer is the text's embedding; a hit answers from the cache with no call, a miss costs one call and caches only a successful result |
| VectorRag.VectorLegalRag.SemanticSearch | utils/vector_rag.py:157-176 | the answer is the ranked search; the cache gains the query and document texts looked up, and the calls made are the cache misses |
| VectorRag.VectorLegalRag.RetrieveRelevantDocuments | utils/vector_rag.py:178-195 | the answer is the thresholded top-5 of the search over the stripped query and context |
| VectorRag.VectorLegalRag.GenerateRagResponse | utils/vector_rag.py:197-238 | the answer is the fixed error text or the stripped reply to a request built from the retrieved documents |
| VectorRag.GenerarResumenVectorRag | utils/vector_rag.py:240-246 | a fresh instance (empty cache) answers the summary query with the facts as context |
| VectorRag.EvaluarViabilidadVectorRag | utils/vector_rag.py:248-254 | a fresh instance answers the viability query with the facts as context |
| VectorRag.GenerarSeccionVectorRag | utils/vector_rag.py:256-264 | a fresh instance answers the section query with the summary and opinion as context; the facts are not used |
| KnowledgeManager.PorDefectoCategorias | utils/knowledge_manager.py:26-80 | the default base has the categories contrato_realidad, derecho_laboral_colombiano and demanda_laboral, unique keys at both levels, and the first category's four types |
| KnowledgeManager.AgregarEfecto | utils/knowledge_manager.py:92-106 | adding fails only when the type exists and is not a list; otherwise the category and type are created when missing, exactly one entry is appended to that list, and every other category and type is unchanged |
| KnowledgeManager.HallazgosCorrectos | utils/knowledge_manager.py:119-147 | every search result names a category of the base, and its content contains the query, ignoring case |
| KnowledgeManager.HallazgosCompletos | utils/knowledge_manager.py:124-145 | nothing that matches is missed: every dictionary entry of a list whose content contains the query is returned with its source and date ("" when absent), and every string-valued type containing the query is returned with empty source and date |
| KnowledgeManager.HallazgoEnBase | utils/knowledge_manager.py:124-125 | a result found for one type of one category is among the results for the whole base |
| KnowledgeManager.HallazgosSinRegistros | utils/knowledge_manager.py:127-128 | list items that are not dictionaries with a content are never returned |
| KnowledgeManager.HallazgosPorDefecto | utils/knowledge_manager.py:26-80 | on the default base only the concept string can match; the seeded string lists are invisible to search |
| KnowledgeManager.HallazgosConcat | utils/knowledge_manager.py:124 | results follow category order: searching two bases in sequence gives the first base's results, then the second's |
| KnowledgeManager.BuscarCategoria | utils/knowledge_manager.py:125-145 | the nested loop over a category's types computes that category's results in type order |
| KnowledgeManager.BuscarValor | utils/knowledge_manager.py:126-145 | the loop over one type's entries computes that type's results in list order |
| KnowledgeManager.LegalKnowledgeManager.constructor | utils/knowledge_manager.py:10-24 | the base is the loaded one, or the default base when the file is missing or unreadable |
| KnowledgeManager.LegalKnowledgeManager.AddLegalDocument | utils/knowledge_manager.py:92-107 | the base becomes the base with the dated entry appended and the answer is the save outcome; when the type holds a string the call raises and the base is unchanged |
| KnowledgeManager.LegalKnowledgeManager.GetKnowledgeCategories | utils/knowledge_manager.py:109-111 | the category keys in insertion order |
| KnowledgeManager.LegalKnowledgeManager.GetDocumentTypes | utils/knowledge_manager.py:113-117 | the category's type keys in order, and [] for an unknown category |
| KnowledgeManager.LegalKnowledgeManager.SearchKnowledge | utils/knowledge_manager.py:119-147 | the loop computes the results for the lower-cased query in category, type and list order |
| KnowledgeManager.LegalKnowledgeManager.ImportKnowledgeBase | utils/knowledge_manager.py:153-161 | a failed parse answers false and keeps the base; a successful one replaces the whole base and answers the save outcome |
| Referencia.ElegirContexto | utils/documento_referencia.py:266-285 | the section's pattern when the patterns have it; else the standard guide when the title is standard; else no context |
| Referencia.LineasEnContexto | utils/documento_referencia.py:270-279 | each of the pattern's five lines, with 'No especificada', 'No especificado' or 'No disponible' when absent and lists comma-joined, appears in the context |
| Referencia.ContextoVacio | utils/documento_referencia.py:266-285 | the context is empty exactly when the title has neither a pattern nor a standard guide |
| Referencia.GenerarSeccionConReferencia | utils/documento_referencia.py:243-322 | the section fails exactly when the client raised, and otherwise is the stripped reply |
| Referencia.PatronPrevalece | utils/documento_referencia.py:266-301 | with a pattern for the section the context opens with the pattern heading and holds its lines; the comment block is present exactly when a comment was given |
| Referencia.LimpiarFence | utils/documento_referencia.py:133-139 | the step-by-step fence removal computes the `if`/`if` cleaning |
| Referencia.SinFenceIfRecupera | utils/documento_referencia.py:133-139 | a JSON object, bare or wrapped in a "```json" or "```" fence with surrounding whitespace, is recovered exactly |
| Referencia.ExtraerPatronesDocumento | utils/documento_referencia.py:66-146 | the method computes the extracted patterns |
| Referencia.PatronesExtraidosPropiedades | utils/documento_referencia.py:93-146 | only the first 15000 characters matter; a raising client gives no patterns; a fenced JSON reply gives the parse of its object |
| Referencia.CargarPatronesDesdeJson | utils/documento_referencia.py:148-168 | a missing file or invalid JSON gives no patterns, a read file gives its patterns, and any other error propagates |
| Referencia.CargaReferencia | utils/documento_referencia.py:170-241 | the upload succeeds exactly when the stripped text exceeds 100 characters; a PDF below 100 is replaced by OCR only when the button is pressed; a text file is read; any other type gives nothing |
| Referencia.UmbralesReferencia | utils/documento_referencia.py:220-228 | an accepted text never offers OCR, and a text of exactly 100 significant characters is neither accepted nor offered OCR |
| Expediente.ProcesarExpedienteTexto | utils/expediente.py:312-333 | the method computes the words of the text joined by single spaces |
| Expediente.ProcesadoNormalizado | utils/expediente.py:323-333 | the cleaned text has no leading or trailing whitespace, no newline or tab, and no two consecutive spaces |
| Expediente.ProcesadoMismasPalabras | utils/expediente.py:323 | the cleaned text has the same whitespace-separated words, in the same order, as the input |
| Expediente.ProcesadoIdempotente | utils/expediente.py:323-333 | cleaning twice is cleaning once |
| Expediente.ProcesadoVacio | utils/expediente.py:323-333 | the cleaned text is empty exactly when the input is all whitespace |
| Expediente.UnirPaginas | utils/expediente.py:43-49 | the page loop computes every page's text followed by a blank line, stripped |
| Expediente.UnidasJoin | utils/expediente.py:45-47 | the accumulated text is the pages joined by "\n\n" plus a final "\n\n" |
| Expediente.TextoPaginasJoin | utils/expediente.py:43-49 | the returned text is the pages joined by "\n\n", stripped |
| Expediente.ExtraerTextoPdf | utils/expediente.py:12-53 | a reader failure gives None; otherwise the joined, stripped page text |
| Expediente.ExtraerTextoPdfOcrAlternativo | utils/expediente.py:195-310 | a conversion failure or no images gives None; otherwise the local OCR result of the pages |
| Expediente.OcrLocalUmbral | utils/expediente.py:280-287 | local OCR returns text exactly when the stripped joined text of the successful pages exceeds 50 characters |
| Expediente.OcrOmitePagina | utils/expediente.py:269-272 | a page whose OCR failed is skipped and the other pages are still used |
| Expediente.ExtraerTextoPdfOcr | utils/expediente.py:55-193 | without an API key or when the service fails to load, the answer is the local OCR's |
| Expediente.OcrUmbral | utils/expediente.py:149-159 | whichever service produced it, returned OCR text is stripped and has more than 50 characters |
| Expediente.CargaCortaSinProcesar | utils/expediente.py:429-446 | as written, a short PDF extraction without an OCR retry is handed to the wizard raw and unprocessed |
| Expediente.CargaCorregidaProcesada | utils/expediente.py:396-461 | with the short-text branch returning nothing, every text handed over is cleaned, PDF text comes from a readable extraction or OCR, and the result agrees with the code wherever it cleaned the text |
| Poder.ExtraerCamposPoder | utils/poder.py:7-41 | the default field map has exactly 27 distinct keys |
| Poder.ClavesPorDefecto | utils/poder.py:12-40 | the default map's keys are the 27 named fields, in order |
| Poder.ClavesPoderDistintas | utils/poder.py:12-40 | the 27 field names are pairwise distinct |
| Poder.PlantillaUsaCampos | utils/poder.py:48-63 | every placeholder of the template is a key of the default map |
| Poder.RenderParrafo | utils/poder.py:48-63 | a block renders exactly when all its placeholders have values, and a failure names a placeholder that is missing |
| Poder.RenderParrafos | utils/poder.py:48-63 | the template renders exactly when every block is covered, one text per block; a failure names a missing field |
| Poder.Documento.constructor | utils/poder.py:66 | a new document has no paragraphs |
| Poder.Documento.AgregarParrafo | utils/poder.py:72 | adding a paragraph appends it at the end |
| Poder.DocumentoDeTexto | utils/poder.py:69-72 | the loop adds the stripped, non-empty blank-line-separated blocks in order |
| Poder.GenerarDocumentoPoder | utils/poder.py:43-74 | rendering fails exactly when a field is missing, naming it; otherwise a fresh document holds the rendered text's paragraphs |
| Poder.LimpiasSinBlancos | utils/poder.py:69-72 | when no block is blank, the kept paragraphs are the blocks stripped, one for one |
| Poder.SplitJoin | utils/poder.py:69 | splitting blocks joined by "\n\n" gives back the blocks when none holds a blank line |
| Poder.ParrafosDocumento | utils/poder.py:48-74 | for a well-formed template the paragraphs are the rendered blocks, one per block, in template order |
| Poder.PlantillaBienFormada | utils/poder.py:48-63 | the template's seven blocks are well formed: non-empty, trimmed and without blank lines |
| Poder.DocumentoSiete | utils/poder.py:48-72 | any seven-block template with the addressee, closing, signature and acceptance blocks of the power of attorney, rendered with newline-free values, gives seven paragraphs with those four in their places |
| Poder.ParrafoLimpio | utils/poder.py:71-72 | a block that renders to a text with non-space ends is emitted as exactly that paragraph, in its block's place |
| Poder.RenderDestinatario | utils/poder.py:49 | the first block renders as "Señores " followed by the judge's value |
| Poder.RenderFirmaPoderdante | utils/poder.py:57 | the signature block renders as the name, " C.C. ", the id number, " de " and the signing city |
| Poder.RenderFijos | utils/poder.py:55-59 | the closing and acceptance blocks render as "Respetuosamente," and "Acepto," |
| Poder.DocumentoFijos | utils/poder.py:55-59 | with newline-free values the fourth and sixth paragraphs are "Respetuosamente," and "Acepto," |
| Poder.DocumentoPoder | utils/poder.py:43-74 | rendering succeeds when every field is given, and with newline-free values the document has exactly seven paragraphs: the first "Señores " and the judge, the fourth "Respetuosamente,", the fifth the grantor's signature line and the sixth "Acepto," |
| ExtraerPatrones.UltimaPosicion | extraer_patrones.py:35 | the last position of a character, or -1 when absent |
| ExtraerPatrones.Extension | extraer_patrones.py:35 | `os.path.splitext`: the extension is empty or a final "." segment of the path, without "/" or further "." |
| ExtraerPatrones.ExtensionDe | extraer_patrones.py:35 | a file name followed by a dot-led extension gives that extension |
| ExtraerPatrones.NombreOculto | extraer_patrones.py:35 | a name that is only a leading dot has no extension |
| ExtraerPatrones.FormatoDe | extraer_patrones.py:35-60 | the format is PDF or text exactly when the lower-cased extension is ".pdf" or ".txt", otherwise unsupported with that extension |
| ExtraerPatrones.PdfEnMayusculas | extraer_patrones.py:35-37 | ".PDF" is dispatched as a PDF |
| ExtraerPatrones.ExtraerTextoDocumento | extraer_patrones.py:21-60 | the method computes the document text, reassigning it across the OCR fallback |
| ExtraerPatrones.TextoDocumentoCasos | extraer_patrones.py:21-60 | a missing path raises not-found; an unsupported extension raises with it; a text file is read; a PDF gives its text unless OCR was asked for or the text is under 100 significant characters, then the OCR text |
| ExtraerPatrones.PdfInsuficienteEsOcr | extraer_patrones.py:50-53 | a PDF text still under 100 characters is what OCR produced |
| ExtraerPatrones.TextoLimite | extraer_patrones.py:75 | at most 20000 characters, a prefix, and the whole text exactly when it is not longer |
| ExtraerPatrones.LimpiarFenceElif | extraer_patrones.py:142-149 | the step-by-step fence removal computes the `elif` cleaning |
| ExtraerPatrones.FenceCoinciden | extraer_patrones.py:142-149 | the `elif` and `if` cleanings agree unless the reply starts with "```json```" |
| ExtraerPatrones.FenceDifieren | extraer_patrones.py:142-149 | on "```json```" + t the `elif` cleaning keeps the second fence while the `if` cleaning removes it |
| ExtraerPatrones.SinFenceElifRecupera | extraer_patrones.py:142-149 | a JSON object, bare or fenced with surrounding whitespace, is recovered exactly |
| ExtraerPatrones.ExtraerPatronesDocumento | extraer_patrones.py:62-164 | the method computes the extracted patterns |
| ExtraerPatrones.PatronesDocumentoPropiedades | extraer_patrones.py:75-164 | only the first 20000 characters matter; a raising client gives no patterns; a fenced JSON reply gives the parse of its object |
| ExtraerPatrones.Ejecutar | extraer_patrones.py:166-223 | the body of `main` yields the exit status and the patterns written |
| ExtraerPatrones.ResultadoCliExito | extraer_patrones.py:166-223 | the status is 0 or 1; it is 0 exactly when the file exists in a supported format, has at least 100 significant characters, patterns came back and the output was written, and then the written patterns are the text's |
| Asistente.SinRedactar | app.py:271-285 | the initial sections are the given titles in order, all with empty text |
| Asistente.RecortadoStrip | app.py:625 | the stored lawyer name has no surrounding whitespace, and a trimmed name strips to itself |
| Asistente.TitulosDistintos | app.py:272-285 | the twelve section titles are pairwise distinct |
| Asistente.TitulosEstandar | utils/documento_referencia.py:15-64 | the standard guides' titles are exactly the wizard's twelve section titles, in order |
| Asistente.AsignarEnPosicion | app.py:672 | storing a section's text under its title changes that position's text and nothing else |
| Asistente.EstrategiaSeccion | app.py:641-670 | reference patterns take precedence; without them RAG Básico, RAG Vectorial or direct drafting follows the mode |
| Asistente.Resumen | app.py:453-458 | the summary fails only in the direct mode, since the retrievers answer the error text instead |
| Asistente.Viabilidad | app.py:494-499 | the opinion fails only in the direct mode |
| Asistente.Seccion | app.py:641-670 | a section fails only with reference patterns or in the direct mode |
| Asistente.CuerpoForma | app.py:711-714 | section i becomes a level-2 heading, its text and an empty paragraph, in dictionary order |
| Asistente.DocumentoDemandaForma | app.py:706-714 | the export is the title, the lawyer line, then every section's heading and text in the fixed order |
| Asistente.Sesion.constructor | app.py:250-300 | a fresh session is at phase 0 with empty facts, summary, opinion and name, index 0, the twelve titles I–XII with empty text, and the saved patterns or none |
| Asistente.Sesion.Reiniciar | app.py:230-237 | "Reiniciar Caso", shown only once there are facts, returns the session to its initial state; otherwise nothing changes |
| Asistente.Sesion.Inicializar | app.py:250-300 | every key is set as on first load |
| Asistente.Sesion.InicializarFases | app.py:251-268 | the keys of phases 0 to 3 are set as on first load |
| Asistente.Sesion.InicializarRedaccion | app.py:269-298 | the keys of phase 4 are set as on first load |
| Asistente.Sesion.ElegirMetodo | app.py:338-357 | in phase 0 choosing a method records it and moves to phase 0.5 |
| Asistente.Sesion.Procesar | app.py:365-414 | loaded non-empty text becomes the facts; only then "Volver" returns to phase 0 without a method and "Continuar" moves to phase 1 |
| Asistente.Sesion.CambiarMetodo | app.py:440-443 | in phase 1 the method is cleared and phase 0 returns; the facts stay |
| Asistente.Sesion.GenerarResumen | app.py:447-466 | blank facts change nothing; otherwise the summary, the facts and the summary flag are set unless the generator raised |
| Asistente.Sesion.GuardarResumen | app.py:460-462 | the summary, the facts and the summary flag are stored together |
| Asistente.Sesion.ContinuarFase2 | app.py:469-476 | phase 2 follows only with non-blank facts and a generated summary; otherwise the phase is unchanged |
| Asistente.Sesion.EmitirConcepto | app.py:491-501 | the opinion is the viability answer on the stored facts, unless the generator raised |
| Asistente.Sesion.VolverFase1 | app.py:523-525 | phase 2 goes back to phase 1 |
| Asistente.Sesion.ContinuarFase3 | app.py:528-533 | phase 3 follows only with a non-empty opinion |
| Asistente.Sesion.VolverFase2 | app.py:579-581 | phase 3 goes back to phase 2 |
| Asistente.Sesion.IrAFase4 | app.py:584-592 | phase 3 always leads to phase 4, and only "Ir al Módulo de Poder" records the power of attorney |
| Asistente.Sesion.RedaccionCompleta | app.py:604-608 | in phase 4 the facts, summary and opinion are always done, so "Volver al Inicio" never shows |
| Asistente.Sesion.MostrarSeccion | app.py:616-672 | a blank name stops the run; otherwise the stripped name is stored and an empty current section is drafted and stored under its title |
| Asistente.Sesion.RedactarSiVacia | app.py:638-672 | a section is drafted only while its text is empty, and only that section changes |
| Asistente.Sesion.TituloActual | app.py:628-629 | the current title is the key at the current index |
| Asistente.Sesion.Redactar | app.py:641-670 | the draft comes from the generator the strategy selects |
| Asistente.Sesion.GuardarSeccion | app.py:672 | only the current section's text changes |
| Asistente.Sesion.Anterior | app.py:691-694 | past the first section the index goes back by exactly one, staying in range |
| Asistente.Sesion.Siguiente | app.py:697-700 | before the last section the index goes forward by exactly one, staying in range |
| Asistente.Sesion.Reescribir | app.py:725-770 | a rewrite replaces the current section's text, whatever it held, and no other section |
| Asistente.Sesion.ExportarDemanda | app.py:702-724 | the export is offered exactly on the last section and is the title, the lawyer line and the sections in order |

## Left out

- Streamlit rendering is not modelled: CSS, cards, widgets, spinners, progress markup, messages and download buttons. Each button is a method. What a widget returns (typed text, uploaded content, whether a button was pressed) is a parameter.
- The "¿Está de acuerdo?" radio in phase 4 only decides which buttons are drawn. It is not session state, so the navigation and rewrite methods do not take it.
- The sidebar's retrieval mode survives a reset (app.py:233-237). It is passed to every method as `modo` rather than stored in `Sesion`.
- OpenAI chat and embedding calls are the parameters `llm` and `embed`. A prompt is a `Peticion` value carrying everything it interpolates. The instruction prose, model names, temperatures and token limits are not modelled.
- Other generators are not part of this model: utils/resumen.py, utils/viabilidad.py and utils/por_secciones.py. They enter the wizard only through the `Generadores` record.
- The transcription module (Whisper, SSL tweaks, the 25 MB guard) is not part of this model. Its output enters phase 0.5 as `cargado`.
- Cosine similarity is the parameter `cosine` to real numbers. Floating-point effects are not modelled.
- MD5 hashing: the embedding cache is keyed by the text itself, which is what an injective hash gives.
- VectorRag.VectorLegalRag.GetEmbedding treats the empty vector as failure. An API that returned an empty embedding successfully would be cached by the source and is not distinguished here.
- External libraries are not modelled; what they produce is a parameter. This covers PyPDF2, LlamaParse, pytesseract, pdf2image, temporary files, TESSDATA and the Spanish-to-English OCR language fallback. Pages are given as text, or `None` when a page failed.
- JSON is not modelled: `json.loads`/`json.load` are a `parse` result or an `Option` argument, and `json.dumps` is left out.
  - `export_knowledge_base` (utils/knowledge_manager.py:149-151) is left out because it is only `json.dumps`.
- KnowledgeManager.LegalKnowledgeManager.constructor requires a loaded base with unique keys at both levels, as a parsed JSON object always has. A file whose top level is not an object is not modelled.
- KnowledgeManager.LegalKnowledgeManager.ImportKnowledgeBase requires the same of a successful parse.
- KnowledgeManager.LegalKnowledgeManager.ImportKnowledgeBase and the constructor take a base whose every category is an object and whose record contents, when present, are strings. A category that is not an object (imported `{"a": [1]}`) makes search, `get_document_types` and `add_legal_document` raise (utils/knowledge_manager.py:95-125), and a non-string "content" makes `.lower()` raise (utils/knowledge_manager.py:129); neither is modelled.
- Referencia.ElegirContexto takes patterns that are objects whose "estructura", "estilo" and "ejemplo_extracto" are strings and whose "elementos" and "formulas_legales" are lists of strings, each possibly absent. A pattern that is not an object, or an "elementos" given as a string (joined character by character at utils/documento_referencia.py:276), is not modelled.
- File writes are not modelled; the outcome of `save_knowledge_base` and of writing the patterns file is a boolean parameter. `datetime.now()` is the parameter `ahora`.
- Word documents (python-docx) are sequences of blocks: paragraphs for the power of attorney, headings and paragraphs for the claim. `doc.save` and utils/exportar.py (the opinion's Word export, app.py:508-519) are not part of this model.
- Character classes: whitespace is modelled in full as the set `str.isspace` accepts, Unicode spaces included. Only `lower()` is limited: it is modelled for ASCII and Latin-1 letters.
- Poder.PlantillaBienFormada assumes that the literal prose of the template contains no blank line and no surrounding whitespace (the predicate `ProsaSimple(Plantilla)`). This is not proved over the long literals.
- Poder.DocumentoPoder takes the same premise, and so does every statement about the rendered template that builds on it.
- ExtraerPatrones.Ejecutar does not model argparse, printing or exceptions other than a missing file and an unsupported extension.
- `cargar_documento_referencia` (utils/documento_referencia.py:170-241) is modelled as Referencia.CargaReferencia. app.py does not call it.
- The prompt in utils/documento_referencia.py:301 uses a backslash inside an f-string expression. Python before 3.12 rejects that. The model takes the 3.12 meaning: the comment block, or nothing. The same pattern appears in utils/por_secciones.py:91, which is not part of this model.
- The phase is the datatype `Fase`; the page stores it as the numbers 0, 0.5, 1, 2, 3 and 4.
- The page's reruns are not modelled: each method is one script run that ends at its button.

## Findings

| source | as written | input that shows it | evidently intended | confidence | as-written member | corrected member |
|---|---|---|---|---|---|---|
| utils/expediente.py:429-446 | when plain extraction of a PDF yields 50 or fewer significant characters and the user does not retry with OCR, the function warns that no text could be extracted but still returns that raw, unprocessed text, which app.py:400-401 loads as the case facts | `SubirPdf(false, Some("a\nb"), false, None)`: the text "a\nb" is handed over with its newline | return nothing, so that no facts are loaded, as the warning says | medium, not executed | Expediente.CargaCortaSinProcesar | Expediente.CargaCorregidaProcesada |
