# A verified model of a retrieval-augmented chat backend's core

This project models, in Dafny, the three pieces of logic at the centre of a
Node.js chat backend that ingests web pages, uploaded files and raw text into a
Pinecone vector index and answers visitors' questions with an OpenAI chat model:

- **Batched vector upsert** (`updatePinecone`, module `Upsert`). For each
  per-source document list, the first document is re-split into chunks. The
  chunk texts, with line feeds turned into spaces, are embedded. One vector
  record with id `${txtPath}_${idx}` is built per chunk. The records are
  pushed onto a batch that is flushed to the index when it holds 100 records
  or the last chunk has been pushed. Every error is caught, so the function
  never rejects; a failure stops the sources that follow.
- **Document assembly** (`truncateStringByBytes` and `createEmbeddings`,
  modules `Truncation` and `Ingest`). The byte budget is measured on the
  UTF-8 encoding. A text within the budget is kept whole as `metadata.text`.
  A text over the budget makes `truncateStringByBytes` throw (see
  "## Findings"), and that rejects the whole call. The per-source document
  lists come in a fixed order: crawled pages, then files, then raw text.
- **Conversation and prompt assembly** (`getCurrentChatContext`,
  `saveCurrentChatContext`, `queryPineconeVectorStoreAndQueryLLM`, module
  `Chat`). This covers the history string, appending a turn to a stored
  conversation, the space-joined context and source strings, the system
  message, and the order of the answer function's saves, lookups, vector
  query and chat call.

The model treats every outside service as a parameter:

- the browser, the file extractor, the two text splitters, the embedders,
  the vector index and the chat model are functions in a services record;
- `Option.None` stands for a rejected call;
- `JSON.stringify` of a chunk's location is also a parameter.

Side effects are recorded in ghost logs: `VectorIndex.log` holds the upsert
requests and `Backend.trace` holds the calls of the answer function. MongoDB
is an in-memory map from (client, visitor, chatbot) to a conversation. The
instants `new Date()` returns are parameters.

Every loop of the source is a `while` loop in a method. Each such method is
proved equal to a pure specification function: `RunFrom`/`Attempt`
(batches), `IngestUpserts` (sources), `CrawlAll`, `ExtractAll`, `AllDocs`,
`History` and `AnswerQuestion`. The properties are lemmas about those
functions.

Modules: `Wrappers` (Option/Result), `JsText` (JavaScript's rendering of numbers, `join(" ")`,
`split(" ")`), `Truncation`, `Documents` (source ids and documents), `Upsert`, `Ingest`, `Chat`.

Behaviour of the code that a caller might not expect, all modelled as written:

- A page that fails to load, or a file that cannot be extracted, rejects the
  whole `createEmbeddings` call. The source is not skipped.
- A failed embedding call or a refused upsert is swallowed. It skips the
  current source and every later one, and `createEmbeddings` still resolves
  "Created".
- The chat prompt's history is always empty, because the chain's
  `BufferMemory` is created fresh for each call. Earlier turns are stored,
  but they are never sent to the chat model.
- Saving a turn for a visitor without a stored conversation changes nothing
  and returns undefined. `findOneAndUpdate` runs without `upsert`, so it
  returns `null`, and reading `.err` on that throws inside the `try`.

## Model

| member | source | states |
|---|---|---|
| Upsert.VectorIndex.constructor | updatePinecone.js:12 | `client.Index(indexName)`: an index handle with that name and an empty log of upsert requests |
| Upsert.VectorIndex.Upsert | updatePinecone.js:57-62 | one upsert call: the request is appended to the index's log, and success is the index's verdict on that request |
| Upsert.VectorIdInjective | updatePinecone.js:44 | `${txtPath}_${idx}` determines the rendered source and the index: equal ids have equal sources and equal indices |
| Upsert.VectorIdsDistinct | updatePinecone.js:44 | within one source, records at different chunk indices have different ids |
| Upsert.SameIdsOnReingestion | updatePinecone.js:44 | re-ingesting a source with as many chunks gives the same ids in the same order, whatever the texts and embeddings |
| Upsert.VectorId | updatePinecone.js:44 | computes `${txtPath}_${idx}`: the rendered source, an underscore, the decimal index |
| Upsert.VectorAt | updatePinecone.js:43-53 | computes the record of chunk `idx`: its id, `embeddingsArrays[idx]` (undefined past the end), and the metadata fields |
| Upsert.ReplaceNewlines | updatePinecone.js:28 | `replace(/\n/g, " ")`: same length; every line feed becomes a space and every other character is kept |
| Upsert.ReplaceNewlinesIdempotent | updatePinecone.js:28 | replacing twice equals replacing once; a text without line feeds is unchanged |
| Upsert.EmbeddingInputs | updatePinecone.js:27-29 | one embedder input per chunk; input i is chunk i's text with every line feed replaced by a space (so it has no line feed and the same length) |
| Upsert.Vectors | updatePinecone.js:41-53 | one record per chunk |
| Upsert.VectorFields | updatePinecone.js:43-53 | record `idx` has id `${txtPath}_${idx}`, values `embeddingsArrays[idx]` (undefined when the embedder returned fewer vectors than chunks), the JSON of the chunk's location, the chunk text, the source and the caller's clientName |
| Upsert.Batches | updatePinecone.js:38-65 | every batch holds 1 to 100 records; every batch but the last holds exactly 100; there are no batches exactly when there are no records |
| Upsert.BatchesFlatten | updatePinecone.js:40-65 | concatenating the batches gives back the records in order, none lost or duplicated |
| Upsert.BatchesCount | updatePinecone.js:41-56 | there are ceil(n / 100) batches for n records, so zero batches for no chunks |
| Upsert.Attempt | updatePinecone.js:56-65 | computes the requests of sending the batches in order in namespace chatbotId, stopping after the first one the index refuses, and whether all were accepted |
| Upsert.RunFrom | updatePinecone.js:40-65 | computes the same thing from the flush positions: from record f, the batch runs to f + 100 or to the last record, it is sent, and the run goes on if it was accepted |
| Upsert.AttemptSends | updatePinecone.js:56-62 | the requests sent are the batches' requests in order, each in namespace chatbotId; all but a refused last one were accepted; the run completes exactly when every batch was sent and accepted |
| Upsert.RunFromIsAttempt | updatePinecone.js:54-65 | flushing where the batch reaches 100 or at the last chunk sends exactly the request sequence of `Batches` |
| Upsert.OnlyFirstDocumentUsed | updatePinecone.js:15 | only element 0 of a per-source list affects what is sent |
| Upsert.SourceUpserts | updatePinecone.js:14-66 | computes one source's requests and whether it completed: an empty list or a failed embedding sends nothing and fails; otherwise `Attempt` of the batches of its records |
| Upsert.IngestUpserts | updatePinecone.js:10-71 | computes the whole ingestion's requests: each source's in order, up to and including the first source that fails |
| Upsert.IngestUpsertsBounds | updatePinecone.js:38-65 | over the whole ingestion, every request carries 1 to 100 records and goes to namespace chatbotId |
| Upsert.SourceUpsertsSendEachVectorOnce | updatePinecone.js:14-66 | every request of a source carries 1 to 100 records in namespace chatbotId; a source that completes sends exactly its records, in chunk order, in ceil(n / 100) calls |
| Upsert.IngestStopsAtFailure | updatePinecone.js:10-71 | once a source fails (no document, a failed embedding or a refused upsert), no request of any later source is sent |
| Upsert.IngestUpsertsAppend | updatePinecone.js:14-68 | while sources complete, the requests of consecutive groups of sources follow one another |
| Upsert.UpsertSource | updatePinecone.js:14-29 | one outer iteration: the log grows by the source's requests; an empty list or a failed embedding sends nothing and stops the loop |
| Upsert.PushVector | updatePinecone.js:43-54 | `batch.push(vector)` with the record of chunk `idx` extends the pending batch by that record |
| Upsert.UpsertChunks | updatePinecone.js:40-66 | the accumulate-and-flush loop sends exactly the requests of the batch boundaries, stops at the first refused upsert, and leaves nothing pending |
| Upsert.UpdatePinecone | updatePinecone.js:3-72 | the whole function: the log grows by `IngestUpserts` of the per-source lists; it never rejects |
| JsText.NatToStringDigits | updatePinecone.js:44 | `${idx}` is a nonempty string of digits, one digit long exactly below 10 |
| JsText.DigitsValueOfNatToString | updatePinecone.js:44 | reading the digits of `${n}` back gives n |
| JsText.NatToStringInjective | updatePinecone.js:44 | different indices render differently |
| JsText.NatToString | updatePinecone.js:44 | computes the decimal rendering of an array index, most significant digit first |
| Documents.SourceText | updatePinecone.js:44 | computes `${txtPath}`: a URL or filename as it is, the raw-text source 0 as its decimal rendering |
| JsText.JoinWithSpace | queryPineconeAndQueryGPT.js.js:143-149 | computes `join(" ")`: the elements in order with one space between neighbours, "" for none |
| JsText.JoinAt | queryPineconeAndQueryGPT.js.js:143-149 | in `join(" ")`, element i sits at its offset and is followed by exactly one space unless it is last, and the last element ends the string |
| JsText.SplitJoin | queryPineconeAndQueryGPT.js.js:143-145 | splitting the join of space-free pieces on spaces gives the pieces back |
| Truncation.EncodeChar | create-embeddings.js:18-19 | a code point encodes to 1 to 4 bytes, and to 1 byte exactly when it is below 0x80 |
| Truncation.Utf8Encode | create-embeddings.js:18-20 | the encoding of s has between \|s\| and 4·\|s\| bytes |
| Truncation.Utf8EncodeAppend | create-embeddings.js:19 | the encoding of a concatenation is the concatenation of the encodings |
| Truncation.Utf8EncodeAscii | create-embeddings.js:19-20 | an ASCII string has as many bytes as characters |
| Truncation.TailBytes | create-embeddings.js:26-29 | the intended slice `bytes.slice(length - byteLimit, length)`: min(length, byteLimit) bytes, a suffix of the encoding |
| Truncation.TailBytesKeepsTail | create-embeddings.js:26-29 | the intended slice taken from head + tail with limit \|tail\| is tail, never a prefix |
| Truncation.TailBytesIdempotent | create-embeddings.js:26-29 | taking the intended slice again with the same limit returns it unchanged |
| Truncation.ToJsString | create-embeddings.js:19 | the string `encode` converts its argument to: a string is itself, an extraction object is "[object Object]" |
| Truncation.ByteLength | create-embeddings.js:19-20 | `enc.encode(str).byteLength`: the UTF-8 length of the value's string conversion |
| Truncation.TruncateStringByBytes | create-embeddings.js:17-30 | as written: a value whose encoding fits the limit (equality included) is returned itself; any longer value throws, because `enc` is a `TextEncoder` and has no `decode` |
| Truncation.AsciiTruncation | create-embeddings.js:17-30 | for ASCII text the function throws exactly when the text has more characters than the limit |
| Truncation.OversizedTextThrows | create-embeddings.js:18-29 | 36001 letters "a" under the 36000-byte limit make the function throw |
| Truncation.TruncateTail | create-embeddings.js:17-30 | the intended function: a value that fits is returned itself; otherwise the result decodes a suffix of exactly byteLimit bytes of the encoding, the preceding bytes dropped |
| Truncation.TruncateAsWrittenAgrees | create-embeddings.js:17-30 | where the function as written returns, it returns what the intended one does; it throws exactly where the intended one decodes a tail |
| Truncation.TruncateIgnoresHead | create-embeddings.js:26-29 | the intended function keeps the text whose encoding is the last byteLimit bytes: with a decoder that reads that encoding back, s + t truncates to t, of exactly byteLimit bytes, whatever s is |
| Truncation.ExtractionNeverTruncated | create-embeddings.js:138 | the extraction object renders as "[object Object]" (15 bytes), so the function returns the object itself and never throws for it |
| Ingest.Fits | create-embeddings.js:22 | the test `length <= byteLimit` with the byte limit 36000 (set at create-embeddings.js:35): the text's UTF-8 length is at most 36000 bytes |
| Ingest.SplitDocuments | create-embeddings.js:105-113 | one document per token chunk, in order, each with the chunk as page content and the original source and `metadata.text` |
| Ingest.TruncatedDocuments | create-embeddings.js:105-113 | truncation runs before the split: the documents exist exactly when the text fits the 36000-byte budget, and then are the chunks tagged with the source and with the whole text as `metadata.text`; otherwise the TypeError |
| Ingest.RowDocuments | create-embeddings.js:100-115 | an undefined row contributes no documents; a page's documents exist exactly when its text fits the budget, and carry its URL as source and its whole text as `metadata.text` |
| Ingest.TextDocuments | create-embeddings.js:151-164 | the raw text's documents exist exactly when it fits the budget, and carry source 0 and the whole text as `metadata.text` |
| Ingest.CrawlAll | create-embeddings.js:82-95 | on success, one row per URL |
| Ingest.ExtractAll | create-embeddings.js:129-144 | on success, one extraction per file name |
| Ingest.CrawlAllRows | create-embeddings.js:82-95 | the crawl succeeds exactly when every page loads; it then yields row i = (urls[i], its page text); a failure names a URL whose page failed |
| Ingest.ExtractAllResults | create-embeddings.js:129-144 | extraction succeeds exactly when every file is readable; it then yields extraction i for name i; a failure names a file that could not be read |
| Ingest.CrawledDocuments | create-embeddings.js:99-116 | on success, one document list per crawled page |
| Ingest.CrawledDocumentsResults | create-embeddings.js:99-116 | mapping the rows succeeds exactly when every page's text fits the budget; list i is then page i's chunks tagged with its URL and its whole text; a failure is the TypeError |
| Ingest.ExtractedDocuments | create-embeddings.js:129-144 | one document list per file, in the order of `documentNames` |
| Ingest.FileDocuments | create-embeddings.js:130-143 | computes a file's documents: the chunks of its `rawText`, tagged with the filename and with the extraction object (returned by the truncation) as `metadata.text` |
| Ingest.FileDocumentsKeepExtraction | create-embeddings.js:133-141 | every document of a file has the filename as source and the extraction object, rendered "[object Object]", as `metadata.text` |
| Ingest.AllDocsLayout | create-embeddings.js:99-166 | when every page loads and fits, every file is readable and the raw text fits, `allDocs` is the pages' lists in `urls` order, then the files' lists in `documentNames` order, then one list for nonempty raw text with source 0 |
| Ingest.AllDocs | create-embeddings.js:82-166 | computes `allDocs` or the rejection: crawl, then the pages' documents, then the files, then the raw text, stopping at the first failure |
| Ingest.AllDocsFails | create-embeddings.js:82-166 | assembly fails exactly when some page fails to load, some page's text is over the budget, some file cannot be read, or nonempty raw text is over the budget (never for a file's `metadata.text`); the error is that of the first of these in program order |
| Ingest.OversizedPageRejects | create-embeddings.js:99-116 | a single URL whose page text is over the budget makes assembly fail with the TypeError |
| Ingest.CrawlPages | create-embeddings.js:82-95 | the crawl loop's result is `CrawlAll` of the URLs |
| Ingest.ExtractFiles | create-embeddings.js:129-144 | the extraction's result is `ExtractAll` of the names |
| Ingest.CreateEmbeddings | create-embeddings.js:45-210 | on an assembly failure (including a text over the budget) it rejects with that error and upserts nothing; otherwise it upserts `IngestUpserts(allDocs)` and resolves "Created" |
| Chat.HistoryAppend | queryPineconeAndQueryGPT.js.js:28-35 | the history of a + b is the history of a followed by the history of b |
| Chat.HistoriesAgree | queryPineconeAndQueryGPT.js.js:28-35 | the loop's left fold equals the in-order concatenation of `sender + ": " + text + "\n"` over all turns |
| Chat.HistoryLength | queryPineconeAndQueryGPT.js.js:25-35 | the history is "" exactly for empty content, ends in a line feed otherwise, and has at least 3 characters per turn |
| Chat.TurnLine | queryPineconeAndQueryGPT.js.js:34 | computes one turn's line, `sender + ": " + text + "\n"` |
| Chat.History | queryPineconeAndQueryGPT.js.js:25-35 | computes the history as the loop builds it, appending each turn's line at the end |
| Chat.HistoryFromFront | queryPineconeAndQueryGPT.js.js:25-35 | computes the same string from the front: the first turn's line, then the lines of the rest |
| Chat.GetCurrentChatContext | queryPineconeAndQueryGPT.js.js:17-46 | "" when no record exists, otherwise every turn's line in order |
| Chat.Backend.FindConversation | queryPineconeAndQueryGPT.js.js:18-22 | `findOne` returns the stored record for the key, or nothing |
| Chat.Backend.PushContent | queryPineconeAndQueryGPT.js.js:64-72 | `findOneAndUpdate` with `$push`/`$set` and `new: true`: the store becomes `Save` of the old store, the updated record or `null` is returned, and the call is logged |
| Chat.SaveAppends | queryPineconeAndQueryGPT.js.js:57-82 | a save of an existing record appends exactly one turn at the end, leaves other records alone, sets lastModified and returns the appended last element's id; without a record nothing changes and the result is undefined |
| Chat.SaveFreshId | queryPineconeAndQueryGPT.js.js:78-82 | the returned id belongs to no earlier turn, and all ids stay below the next one |
| Chat.Save | queryPineconeAndQueryGPT.js.js:57-82 | computes one save: with a record for the key, the turn with the next id is pushed, `lastModified` is set and that id is returned; without one, nothing changes and the result is undefined |
| Chat.SaveCurrentChatContext | queryPineconeAndQueryGPT.js.js:48-87 | the store and the result are those of `Save`, and the save is logged |
| Chat.PageContents | queryPineconeAndQueryGPT.js.js:143-144 | the matches' page contents in returned order |
| Chat.SourceTexts | queryPineconeAndQueryGPT.js.js:147-148 | one rendered source per match |
| Chat.SourceTextsAt | queryPineconeAndQueryGPT.js.js:147-148 | element i is match i's `txtPath` as rendered by `join` |
| Chat.ContextHoldsEachMatch | queryPineconeAndQueryGPT.js.js:143-145 | match i's page content sits in the context string at its offset, followed by one space unless it is last |
| Chat.SourceHoldsEachMatch | queryPineconeAndQueryGPT.js.js:147-149 | match i's source sits in the source string at its offset, followed by one space unless it is last |
| Chat.ContextString | queryPineconeAndQueryGPT.js.js:143-145 | computes the matches' page contents joined with spaces |
| Chat.SourceString | queryPineconeAndQueryGPT.js.js:147-149 | computes the matches' rendered sources joined with spaces |
| Chat.ContextSplitsBack | queryPineconeAndQueryGPT.js.js:143-145 | when no page content has a space, splitting the context string on spaces gives the page contents back in order |
| Chat.SystemMessage | queryPineconeAndQueryGPT.js.js:154-159 | computes the system template after substitution, with CRLF line ends as LF: the prompt, then "\n" plus eight spaces, "CONTEXT: " and the context, then "\n" plus eight spaces, "SOURCE: " and the source, then "\n" plus eight spaces |
| Chat.SystemMessageLayout | queryPineconeAndQueryGPT.js.js:154-159 | the message is the system prompt; then a line feed, eight spaces, "CONTEXT: " and the context; then a line feed, eight spaces, "SOURCE: " and the source; and it ends with a line feed and eight spaces; its length is fixed by the three parts |
| Chat.Backend.FindCustomization | queryPineconeAndQueryGPT.js.js:106-109 | returns the customization for (clientName, chatbotId) or nothing, and logs the lookup |
| Chat.Backend.EmbedQuery | queryPineconeAndQueryGPT.js.js:123 | returns the embedder's vector for the question and logs the call |
| Chat.Backend.Query | queryPineconeAndQueryGPT.js.js:125-136 | returns the index's matches for the request and logs the call |
| Chat.Backend.CallChat | queryPineconeAndQueryGPT.js.js:170-172 | returns the chain's reply for the prompt and logs the call |
| Chat.VisitorSavedFirst | queryPineconeAndQueryGPT.js.js:98-123 | the first call saves the visitor's question and the second looks up the customization; embedding and query come later |
| Chat.MissingCustomizationAfterSave | queryPineconeAndQueryGPT.js.js:98-111 | with no customization the promise rejects after two calls; the store is what the visitor's save left, so the question is stored only when the visitor's record exists |
| Chat.QueryInChatbotNamespace | queryPineconeAndQueryGPT.js.js:123-136 | every vector query uses the question's embedding, topK 3, values and metadata, and namespace chatbotId |
| Chat.NoChatWithoutMatches | queryPineconeAndQueryGPT.js.js:234-237 | the outcome is "no matches" exactly when the customization exists, the embedding succeeds and the query returns zero matches; then there is no chat call and no AI save, and the store is what the visitor's save left (the question is stored only when a record exists) |
| Chat.RejectionKeepsQuestion | queryPineconeAndQueryGPT.js.js:98-200 | whichever call rejects, the visitor's save came first and the store is what it left; no AI turn is saved |
| Chat.AnsweredAppendsTwoTurns | queryPineconeAndQueryGPT.js.js:140-200 | an answer makes six calls; the query returned at least one match, and the chat prompt's system message is `SystemMessage` of the customization's prompt with the context and source strings of exactly those matches, no history, and the question as input; exactly two turns are appended, Visitor then AI; messageId is the second turn's id (undefined without a stored conversation) |
| Chat.QueryPineconeVectorStoreAndQueryLLM | queryPineconeAndQueryGPT.js.js:90-238 | the answer, the new store and the logged calls are those of `AnswerQuestion` |
| Chat.AnswerQuestion | queryPineconeAndQueryGPT.js.js:90-200 | computes the settlement, the store and the calls: save the question, look up the customization, embed, query, and on matches call the chat and save the reply, rejecting at the first failed step |

## Left out

- Puppeteer crawling and the unused `Crawler` branch (create-embeddings.js:62-81,96) are browser I/O. Page text is the `pageText` parameter.
- `getTextFromDocument` is file I/O. It is the `extract` parameter. An extraction is represented only by its `rawText`.
- `TokenTextSplitter` and `RecursiveCharacterTextSplitter` are library code. They are the `tokenSplit` and `split` parameters; no claim is made about chunk overlap.
- `JSON.stringify(chunk.metadata.loc)` is the `locJson` parameter. Other fields spread from `chunk.metadata` are not modelled.
- `TruncateTail`, the intended truncation, takes `TextDecoder.decode` as its `decode` parameter, because of how that decoder handles invalid byte sequences.
- `TruncateStringByBytes`: JavaScript strings may hold lone surrogates, which `TextEncoder` turns into U+FFFD. Dafny characters are Unicode scalar values, so this case is not modelled.
- `Answered` keeps the reply text, the chain output's `response` field. The resolved `data` is the whole output object, whose other fields are not modelled.
- OpenAI embeddings and chat are opaque oracles. Embedding vectors are sequences of reals that are only passed on. `temperature = 0.5` is not modelled.
- `PineconeClient`, `client.init` and `client.Index` are network setup. A failure of `client.init`, which rejects both `createEmbeddings` and the answer function, is not modelled.
- MongoDB connectivity errors are not modelled. The only save failure modelled is a missing record.
- Message `_id`s are modelled as a counter, in place of `ObjectId`s.
- Timestamps are parameters. One instant is used per save, for both `timestamp` and `lastModified`.
- `Customization` is reduced to `sysPrompt`. A record without that field, which would render "undefined", is not modelled.
- langchain's prompt templating is not modelled. `SystemMessage` is the substituted string taken literally, and braces inside it are not re-interpreted as template variables.
- `ExtractFiles`: `Promise.all` runs the extractions concurrently and rejects with the failure that happens first in time. The model extracts one file after the other and reports the first failing name in list order.
- All other async interleaving is modelled as sequential steps.
- Crawl rows are never undefined, because the crawl loop always pushes an object. `RowDocuments` still gives an undefined row no documents, as the source does.
- `urls` and `documentNames` are `Option`s of sequences. An empty array is truthy, and non-array values are not modelled.
- An undefined or empty `text` is modelled as "".
- The unused `model` argument of `createEmbeddings` is not modelled.
- Console logging is not modelled.
- The unreachable code after the `return` (queryPineconeAndQueryGPT.js.js:202-233) and every commented-out block are left out.
- `getCurrentChatContext` is modelled on its own, because its call in the answer function is commented out (queryPineconeAndQueryGPT.js.js:141).

## Findings

| source | as written | input that shows it | evidently intended | confidence | as-written member | corrected member |
|---|---|---|---|---|---|---|
| create-embeddings.js:18-29 | `enc` is a `TextEncoder`, and `enc.decode(...)` is called on it; `TextEncoder` has no `decode`, so every value over the byte limit throws a TypeError, and `createEmbeddings` rejects before anything is upserted | one URL whose page text is 36001 letters "a" (or raw text of that length) | decode the last `byteLimit` bytes with a `TextDecoder`, keeping the tail of the text | high; not executed | Truncation.OversizedTextThrows | Truncation.TruncateTail |

The ingestion model (`Ingest.AllDocs`, `Ingest.CreateEmbeddings`) uses the
function as written, `Truncation.TruncateStringByBytes`, because that is what
decides whether the call rejects. `Truncation.TruncateAsWrittenAgrees` relates
the two functions, and `Truncation.TruncateIgnoresHead` proves the intended
tail-keeping property about `Truncation.TruncateTail`.
