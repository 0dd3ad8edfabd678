/**
 * `updatePinecone` (updatePinecone.js): for every per-source document list,
 * take its first document, re-split its text into chunks, embed the chunks,
 * build one vector record per chunk and write the records to the vector
 * index in batches of at most 100, all in the chatbot's namespace. One
 * `try` surrounds the whole loop, so the first error ends the ingestion
 * silently and the function never rejects.
 *
 * The vector index is an external service: it is modelled only through the
 * ghost log of the upsert requests it receives. The text splitter, the
 * embedder and the index's verdict on each request are parameters.
 */
module Upsert {
  import opened Wrappers
  import opened JsText
  import opened Documents

  /** `batchSize` (updatePinecone.js:38). */
  const BatchSize: nat := 100

  /** `chunk.metadata.loc` as the character splitter records it: the chunk's line range. */
  datatype Location = Location(fromLine: nat, toLine: nat)

  /** One document of `RecursiveCharacterTextSplitter.createDocuments([text])`. */
  datatype Chunk = Chunk(pageContent: string, loc: Location)

  datatype VectorMetadata = VectorMetadata(loc: string, pageContent: string, txtPath: SourceId, clientName: string)

  /** `{ id, values, metadata }`; `values` is `undefined` when the embedder returned too few vectors. */
  datatype VectorRecord = VectorRecord(id: string, values: Option<Embedding>, metadata: VectorMetadata)

  /** `{ upsertRequest: { vectors, namespace } }`. */
  datatype UpsertRequest = UpsertRequest(vectors: seq<VectorRecord>, namespace: string)

  /**
   * The collaborators of the upsert loop: the character splitter (chunk size
   * 1000), `JSON.stringify` of the splitter's location object,
   * `OpenAIEmbeddings.embedDocuments` (`None` when the call throws), and
   * whether the index accepts a given request (a refused request throws).
   */
  datatype IngestServices = IngestServices(
    split: string -> seq<Chunk>,
    locJson: Location -> string,
    embed: seq<string> -> Option<seq<Embedding>>,
    upsertOk: UpsertRequest -> bool)

  /** `client.Index(indexName)`: every upsert request sent to it, in order, is kept in `log`. */
  class VectorIndex {
    const name: string
    ghost var log: seq<UpsertRequest>

    constructor (name: string)
      ensures this.name == name && log == []
    {
      this.name := name;
      log := [];
    }

    /** `index.upsert(request)`: the request is sent (and logged) whether or not the index accepts it. */
    method Upsert(request: UpsertRequest, svc: IngestServices) returns (ok: bool)
      modifies this
      ensures log == old(log) + [request]
      ensures ok == svc.upsertOk(request)
    {
      log := log + [request];
      ok := svc.upsertOk(request);
    }
  }

  /** `${txtPath}_${idx}`. */
  function VectorId(txtPath: SourceId, idx: nat): string {
    SourceText(txtPath) + "_" + NatToString(idx)
  }

  /**
   * A vector id determines the rendered source and the chunk index: the
   * digits after the last underscore are the index, everything before it the
   * source. (Two sources whose renderings agree, such as a URL "0" and raw
   * text, do share ids.)
   */
  lemma VectorIdInjective(p: SourceId, i: nat, q: SourceId, j: nat)
    requires VectorId(p, i) == VectorId(q, j)
    ensures SourceText(p) == SourceText(q) && i == j
  {
    var s := VectorId(p, i);
    var a, b := NatToString(i), NatToString(j);
    NatToStringDigits(i);
    NatToStringDigits(j);
    TrailingDigitsAfterUnderscore(SourceText(p), a);
    TrailingDigitsAfterUnderscore(SourceText(q), b);
    assert a == s[|s| - |a|..] == b;
    assert SourceText(p) == s[..|s| - |a| - 1] == SourceText(q);
    NatToStringInjective(i, j);
  }

  /** How many characters at the end of `s` are digits. */
  function TrailingDigits(s: string): (n: nat)
    ensures n <= |s|
  {
    if s == [] || !IsDigit(s[|s| - 1]) then 0 else 1 + TrailingDigits(s[..|s| - 1])
  }

  lemma {:induction false} TrailingDigitsAfterUnderscore(prefix: string, digits: string)
    requires AllDigits(digits)
    ensures TrailingDigits(prefix + "_" + digits) == |digits|
    decreases |digits|
  {
    var s := prefix + "_" + digits;
    if digits != [] {
      assert s[..|s| - 1] == prefix + "_" + digits[..|digits| - 1];
      TrailingDigitsAfterUnderscore(prefix, digits[..|digits| - 1]);
    }
  }

  /** `text.replace(/\n/g, " ")`: every line feed becomes a space, nothing else changes. */
  function ReplaceNewlines(s: string): (r: string)
    ensures |r| == |s|
    ensures forall i :: 0 <= i < |s| ==> r[i] == (if s[i] == '\n' then ' ' else s[i])
  {
    if s == [] then [] else [if s[0] == '\n' then ' ' else s[0]] + ReplaceNewlines(s[1..])
  }

  /** Replacing twice is replacing once, and a text without line feeds is left as it is. */
  lemma ReplaceNewlinesIdempotent(s: string)
    ensures ReplaceNewlines(ReplaceNewlines(s)) == ReplaceNewlines(s)
    ensures (forall i :: 0 <= i < |s| ==> s[i] != '\n') ==> ReplaceNewlines(s) == s
  {
  }

  /** The strings given to the embedder: one per chunk, in chunk order (updatePinecone.js:27-29). */
  function EmbeddingInputs(chunks: seq<Chunk>): (inputs: seq<string>)
    ensures |inputs| == |chunks|
    ensures forall i :: 0 <= i < |chunks| ==>
      inputs[i] == ReplaceNewlines(chunks[i].pageContent) && '\n' !in inputs[i] && |inputs[i]| == |chunks[i].pageContent|
  {
    seq(|chunks|, i requires 0 <= i < |chunks| => ReplaceNewlines(chunks[i].pageContent))
  }

  /** The record built for chunk `idx` (updatePinecone.js:43-53). */
  function VectorAt(txtPath: SourceId, chunks: seq<Chunk>, embeddings: seq<Embedding>, clientName: string, locJson: Location -> string, idx: nat): VectorRecord
    requires idx < |chunks|
  {
    VectorRecord(
      VectorId(txtPath, idx),
      if idx < |embeddings| then Some(embeddings[idx]) else None,
      VectorMetadata(locJson(chunks[idx].loc), chunks[idx].pageContent, txtPath, clientName))
  }

  /** All records of one source, in chunk order. */
  function Vectors(txtPath: SourceId, chunks: seq<Chunk>, embeddings: seq<Embedding>, clientName: string, locJson: Location -> string): (vs: seq<VectorRecord>)
    ensures |vs| == |chunks|
  {
    seq(|chunks|, idx requires 0 <= idx < |chunks| => VectorAt(txtPath, chunks, embeddings, clientName, locJson, idx))
  }

  /**
   * Record `idx` carries id `${txtPath}_${idx}`, the embedder's vector `idx`
   * (undefined when the embedder returned fewer vectors than there are
   * chunks) and the chunk's text, the source and the caller's client name.
   */
  lemma VectorFields(txtPath: SourceId, chunks: seq<Chunk>, embeddings: seq<Embedding>, clientName: string, locJson: Location -> string, idx: nat)
    requires idx < |chunks|
    ensures var v := Vectors(txtPath, chunks, embeddings, clientName, locJson)[idx];
      && v.id == VectorId(txtPath, idx)
      && (idx < |embeddings| ==> v.values == Some(embeddings[idx]))
      && (idx >= |embeddings| ==> v.values == None)
      && v.metadata.loc == locJson(chunks[idx].loc)
      && v.metadata.pageContent == chunks[idx].pageContent
      && v.metadata.txtPath == txtPath
      && v.metadata.clientName == clientName
  {
  }

  /** The ids of one source's records are pairwise distinct. */
  lemma VectorIdsDistinct(txtPath: SourceId, chunks: seq<Chunk>, embeddings: seq<Embedding>, clientName: string, locJson: Location -> string, i: nat, j: nat)
    requires i < |chunks| && j < |chunks| && i != j
    ensures Vectors(txtPath, chunks, embeddings, clientName, locJson)[i].id != Vectors(txtPath, chunks, embeddings, clientName, locJson)[j].id
  {
    if VectorId(txtPath, i) == VectorId(txtPath, j) {
      VectorIdInjective(txtPath, i, txtPath, j);
    }
  }

  /**
   * Re-ingesting a source that splits into as many chunks yields the same ids
   * in the same order, whatever the chunk texts and embeddings, so the second
   * upsert overwrites the first.
   */
  lemma SameIdsOnReingestion(txtPath: SourceId, c1: seq<Chunk>, e1: seq<Embedding>, n1: string, l1: Location -> string,
                             c2: seq<Chunk>, e2: seq<Embedding>, n2: string, l2: Location -> string, idx: nat)
    requires |c1| == |c2| && idx < |c1|
    ensures Vectors(txtPath, c1, e1, n1, l1)[idx].id == Vectors(txtPath, c2, e2, n2, l2)[idx].id
  {
  }

  /**
   * The batches the accumulate-and-flush loop sends, in order: runs of
   * `BatchSize` consecutive records, the last run holding what remains.
   */
  function Batches<T>(xs: seq<T>): (bs: seq<seq<T>>)
    ensures forall i :: 0 <= i < |bs| ==> 1 <= |bs[i]| <= BatchSize
    ensures forall i :: 0 <= i < |bs| - 1 ==> |bs[i]| == BatchSize
    ensures |bs| == 0 <==> |xs| == 0
    decreases |xs|
  {
    if |xs| == 0 then []
    else if |xs| <= BatchSize then [xs]
    else [xs[..BatchSize]] + Batches(xs[BatchSize..])
  }

  function Flatten<T>(xss: seq<seq<T>>): seq<T> {
    if xss == [] then [] else xss[0] + Flatten(xss[1..])
  }

  /** Concatenating the batches gives back every record once, in order. */
  lemma {:induction false} BatchesFlatten<T>(xs: seq<T>)
    ensures Flatten(Batches(xs)) == xs
    decreases |xs|
  {
    if |xs| > BatchSize {
      var bs := Batches(xs);
      assert bs[1..] == Batches(xs[BatchSize..]);
      BatchesFlatten(xs[BatchSize..]);
      assert xs == xs[..BatchSize] + xs[BatchSize..];
    } else if |xs| > 0 {
      assert Flatten(Batches(xs)) == xs + Flatten([]);
    }
  }

  /** There are ceil(n / 100) batches for n records. */
  lemma {:induction false} BatchesCount<T>(xs: seq<T>)
    ensures |Batches(xs)| == (|xs| + BatchSize - 1) / BatchSize
    decreases |xs|
  {
    if |xs| > BatchSize {
      BatchesCount(xs[BatchSize..]);
    }
  }

  /** Where a flush starts at `f` and ends at `g`, the batches from `f` on begin with `xs[f..g]`. */
  lemma BatchesFrom<T>(xs: seq<T>, f: nat, g: nat)
    requires f < g <= |xs|
    requires g - f == BatchSize || (g == |xs| && g - f <= BatchSize)
    ensures Batches(xs[f..]) == [xs[f..g]] + Batches(xs[g..])
  {
    var s := xs[f..];
    if |s| <= BatchSize {
      assert g == |xs| && s == xs[f..g];
      assert xs[g..] == [];
    } else {
      assert s[..BatchSize] == xs[f..g];
      assert s[BatchSize..] == xs[g..];
    }
  }

  /** What one source's upserts come to: the requests sent, and whether the source finished without error. */
  datatype SourceRun = SourceRun(calls: seq<UpsertRequest>, completed: bool)

  /** Sending the batches in order, stopping at the first one the index refuses. */
  function Attempt(batches: seq<seq<VectorRecord>>, namespace: string, ok: UpsertRequest -> bool): SourceRun
    decreases |batches|
  {
    if batches == [] then SourceRun([], true)
    else
      var request := UpsertRequest(batches[0], namespace);
      if !ok(request) then SourceRun([request], false)
      else
        var rest := Attempt(batches[1..], namespace, ok);
        SourceRun([request] + rest.calls, rest.completed)
  }

  /**
   * The requests sent are a prefix of the batches' requests, every one but a
   * refused last one was accepted, and the run completes exactly when every
   * batch was sent and accepted.
   */
  lemma {:induction false} AttemptSends(batches: seq<seq<VectorRecord>>, namespace: string, ok: UpsertRequest -> bool)
    ensures var run := Attempt(batches, namespace, ok);
      && |run.calls| <= |batches|
      && (forall i :: 0 <= i < |run.calls| ==> run.calls[i] == UpsertRequest(batches[i], namespace))
      && (forall i :: 0 <= i < |run.calls| - 1 ==> ok(run.calls[i]))
      && (run.completed <==> |run.calls| == |batches| && forall i :: 0 <= i < |batches| ==> ok(UpsertRequest(batches[i], namespace)))
      && (!run.completed ==> |run.calls| > 0 && !ok(run.calls[|run.calls| - 1]))
    decreases |batches|
  {
    if batches != [] && ok(UpsertRequest(batches[0], namespace)) {
      AttemptSends(batches[1..], namespace, ok);
      var rest := Attempt(batches[1..], namespace, ok);
      var run := Attempt(batches, namespace, ok);
      assert forall i :: 1 <= i < |run.calls| ==> run.calls[i] == rest.calls[i - 1];
      assert forall i :: 1 <= i < |batches| ==> batches[i] == batches[1..][i - 1];
    }
  }

  /** The run of the batches that start at position `f`, defined by the flush positions themselves. */
  function RunFrom(xs: seq<VectorRecord>, f: nat, namespace: string, ok: UpsertRequest -> bool): SourceRun
    requires f <= |xs|
    decreases |xs| - f
  {
    if f == |xs| then SourceRun([], true)
    else
      var g := if f + BatchSize <= |xs| then f + BatchSize else |xs|;
      var request := UpsertRequest(xs[f..g], namespace);
      if !ok(request) then SourceRun([request], false)
      else
        var rest := RunFrom(xs, g, namespace, ok);
        SourceRun([request] + rest.calls, rest.completed)
  }

  /** One flush: the batch `xs[f..g]` is sent, and the run goes on from `g` if the index accepts it. */
  lemma RunFromStep(xs: seq<VectorRecord>, f: nat, g: nat, namespace: string, ok: UpsertRequest -> bool)
    requires f < g <= |xs| && (g - f == BatchSize || (g == |xs| && g - f < BatchSize))
    ensures var request := UpsertRequest(xs[f..g], namespace);
      RunFrom(xs, f, namespace, ok)
      == if !ok(request) then SourceRun([request], false)
         else SourceRun([request] + RunFrom(xs, g, namespace, ok).calls, RunFrom(xs, g, namespace, ok).completed)
  {
  }

  /** Flushing at the batch boundaries sends exactly what sending `Batches` in order sends. */
  lemma {:induction false} RunFromIsAttempt(xs: seq<VectorRecord>, f: nat, namespace: string, ok: UpsertRequest -> bool)
    requires f <= |xs|
    ensures RunFrom(xs, f, namespace, ok) == Attempt(Batches(xs[f..]), namespace, ok)
    decreases |xs| - f
  {
    if f < |xs| {
      var g := if f + BatchSize <= |xs| then f + BatchSize else |xs|;
      BatchesFrom(xs, f, g);
      RunFromIsAttempt(xs, g, namespace, ok);
      var bs := Batches(xs[f..]);
      assert bs[0] == xs[f..g] && bs[1..] == Batches(xs[g..]);
    }
  }

  /**
   * One iteration of the outer loop (updatePinecone.js:14-67). An empty list
   * has no element 0, so reading `doc.metadata` throws; a failed embedding
   * call throws; otherwise the batches are sent until one is refused.
   */
  function SourceUpserts(docList: seq<Document>, clientName: string, chatbotId: string, svc: IngestServices): SourceRun {
    if |docList| == 0 then SourceRun([], false)
    else
      var doc := docList[0];
      var chunks := svc.split(doc.pageContent);
      match svc.embed(EmbeddingInputs(chunks))
      case None => SourceRun([], false)
      case Some(embeddings) =>
        Attempt(Batches(Vectors(doc.source, chunks, embeddings, clientName, svc.locJson)), chatbotId, svc.upsertOk)
  }

  /** Only the first document of a per-source list is read; the rest of the list makes no difference. */
  lemma OnlyFirstDocumentUsed(d: Document, rest: seq<Document>, clientName: string, chatbotId: string, svc: IngestServices)
    ensures SourceUpserts([d] + rest, clientName, chatbotId, svc) == SourceUpserts([d], clientName, chatbotId, svc)
  {
  }

  /** Every upsert request of a whole ingestion, in order: sources are processed until the first one that fails. */
  function IngestUpserts(docs: seq<seq<Document>>, clientName: string, chatbotId: string, svc: IngestServices): seq<UpsertRequest>
  {
    if docs == [] then []
    else
      var run := SourceUpserts(docs[0], clientName, chatbotId, svc);
      if run.completed then run.calls + IngestUpserts(docs[1..], clientName, chatbotId, svc) else run.calls
  }

  /** The records carried by a sequence of requests, in call order. */
  function SentVectors(calls: seq<UpsertRequest>): seq<VectorRecord> {
    if calls == [] then [] else calls[0].vectors + SentVectors(calls[1..])
  }

  /** Requests that carry the batches one for one carry their concatenation. */
  lemma {:induction false} SentVectorsOfBatches(calls: seq<UpsertRequest>, batches: seq<seq<VectorRecord>>)
    requires |calls| == |batches|
    requires forall i :: 0 <= i < |calls| ==> calls[i].vectors == batches[i]
    ensures SentVectors(calls) == Flatten(batches)
    decreases |calls|
  {
    if calls != [] {
      SentVectorsOfBatches(calls[1..], batches[1..]);
    }
  }

  /**
   * For one source: every request goes to namespace `chatbotId` with between
   * 1 and `BatchSize` records, and when the source completes the requests
   * carry exactly its records, each once, in chunk order, in
   * ceil(n / 100) calls.
   */
  lemma SourceUpsertsSendEachVectorOnce(docList: seq<Document>, clientName: string, chatbotId: string, svc: IngestServices)
    ensures var run := SourceUpserts(docList, clientName, chatbotId, svc);
      forall i :: 0 <= i < |run.calls| ==> 1 <= |run.calls[i].vectors| <= BatchSize && run.calls[i].namespace == chatbotId
    ensures var run := SourceUpserts(docList, clientName, chatbotId, svc);
      run.completed ==>
        && |docList| > 0
        && var chunks := svc.split(docList[0].pageContent);
        && svc.embed(EmbeddingInputs(chunks)).Some?
        && var vs := Vectors(docList[0].source, chunks, svc.embed(EmbeddingInputs(chunks)).value, clientName, svc.locJson);
        && SentVectors(run.calls) == vs
        && |run.calls| == (|vs| + BatchSize - 1) / BatchSize
  {
    if |docList| > 0 {
      var chunks := svc.split(docList[0].pageContent);
      if svc.embed(EmbeddingInputs(chunks)).Some? {
        var vs := Vectors(docList[0].source, chunks, svc.embed(EmbeddingInputs(chunks)).value, clientName, svc.locJson);
        var bs := Batches(vs);
        AttemptSends(bs, chatbotId, svc.upsertOk);
        var run := Attempt(bs, chatbotId, svc.upsertOk);
        if run.completed {
          SentVectorsOfBatches(run.calls, bs);
          BatchesFlatten(vs);
          BatchesCount(vs);
        }
      }
    }
  }

  /** Across the whole ingestion, every request carries 1 to 100 records and goes to namespace `chatbotId`. */
  lemma {:induction false} IngestUpsertsBounds(docs: seq<seq<Document>>, clientName: string, chatbotId: string, svc: IngestServices)
    ensures forall r :: r in IngestUpserts(docs, clientName, chatbotId, svc) ==> 1 <= |r.vectors| <= BatchSize && r.namespace == chatbotId
    decreases |docs|
  {
    if docs != [] {
      SourceUpsertsSendEachVectorOnce(docs[0], clientName, chatbotId, svc);
      IngestUpsertsBounds(docs[1..], clientName, chatbotId, svc);
    }
  }

  /**
   * Once a source fails, nothing after it is sent: the error is caught
   * outside the loop over sources, so the remaining sources are skipped.
   */
  lemma {:induction false} IngestStopsAtFailure(docs: seq<seq<Document>>, rest: seq<seq<Document>>, clientName: string, chatbotId: string,
                                                svc: IngestServices)
    requires exists i :: 0 <= i < |docs| && !SourceUpserts(docs[i], clientName, chatbotId, svc).completed
    ensures IngestUpserts(docs + rest, clientName, chatbotId, svc) == IngestUpserts(docs, clientName, chatbotId, svc)
    decreases |docs|
  {
    assert (docs + rest)[0] == docs[0];
    if SourceUpserts(docs[0], clientName, chatbotId, svc).completed {
      var i :| 0 <= i < |docs| && !SourceUpserts(docs[i], clientName, chatbotId, svc).completed;
      assert docs[1..][i - 1] == docs[i];
      assert (docs + rest)[1..] == docs[1..] + rest;
      IngestStopsAtFailure(docs[1..], rest, clientName, chatbotId, svc);
    }
  }

  /** A completed source is followed by the requests of the sources after it. */
  lemma IngestUpsertsCons(d: seq<Document>, tail: seq<seq<Document>>, clientName: string, chatbotId: string, svc: IngestServices)
    requires SourceUpserts(d, clientName, chatbotId, svc).completed
    ensures IngestUpserts([d] + tail, clientName, chatbotId, svc)
         == SourceUpserts(d, clientName, chatbotId, svc).calls + IngestUpserts(tail, clientName, chatbotId, svc)
  {
    assert ([d] + tail)[0] == d && ([d] + tail)[1..] == tail;
  }

  /** While every source completes, the requests of consecutive groups of sources are sent one group after the other. */
  lemma {:induction false} IngestUpsertsAppend(docs: seq<seq<Document>>, rest: seq<seq<Document>>, clientName: string, chatbotId: string,
                                               svc: IngestServices)
    requires forall i :: 0 <= i < |docs| ==> SourceUpserts(docs[i], clientName, chatbotId, svc).completed
    ensures IngestUpserts(docs + rest, clientName, chatbotId, svc)
         == IngestUpserts(docs, clientName, chatbotId, svc) + IngestUpserts(rest, clientName, chatbotId, svc)
    decreases |docs|
  {
    if docs == [] {
      assert docs + rest == rest;
    } else {
      var tail := docs[1..];
      forall i | 0 <= i < |tail|
        ensures SourceUpserts(tail[i], clientName, chatbotId, svc).completed
      {
        assert tail[i] == docs[i + 1];
      }
      IngestUpsertsAppend(tail, rest, clientName, chatbotId, svc);
      IngestUpsertsCons(docs[0], tail + rest, clientName, chatbotId, svc);
      IngestUpsertsCons(docs[0], tail, clientName, chatbotId, svc);
      assert docs + rest == [docs[0]] + (tail + rest);
      assert docs == [docs[0]] + tail;
    }
  }

  /** The body of the outer loop for one per-source list; `completed` is false where the source code throws. */
  method UpsertSource(index: VectorIndex, docList: seq<Document>, clientName: string, chatbotId: string, svc: IngestServices)
    returns (completed: bool)
    modifies index
    ensures index.log == old(index.log) + SourceUpserts(docList, clientName, chatbotId, svc).calls
    ensures completed == SourceUpserts(docList, clientName, chatbotId, svc).completed
  {
    if |docList| == 0 {
      // `doc = doc[0]` is undefined and `doc.metadata.source` throws
      return false;
    }
    var doc := docList[0];
    var txtPath := doc.source;
    var text := doc.pageContent;
    var chunks := svc.split(text);
    var embedded := svc.embed(EmbeddingInputs(chunks));
    if embedded.None? {
      return false;
    }
    ghost var vs := Vectors(txtPath, chunks, embedded.value, clientName, svc.locJson);
    completed := UpsertChunks(index, txtPath, chunks, embedded.value, clientName, chatbotId, svc, vs);
    RunFromIsAttempt(vs, 0, chatbotId, svc.upsertOk);
    assert vs[0..] == vs;
  }

  /** `batch = [...batch, vector]` with the record built for chunk `idx` (updatePinecone.js:43-55). */
  method PushVector(batch: seq<VectorRecord>, txtPath: SourceId, chunks: seq<Chunk>, embeddingsArrays: seq<Embedding>,
                    clientName: string, locJson: Location -> string, idx: nat, ghost vs: seq<VectorRecord>, ghost start: nat)
    returns (pushed: seq<VectorRecord>)
    requires |vs| == |chunks|
    requires forall k :: 0 <= k < |chunks| ==> vs[k] == VectorAt(txtPath, chunks, embeddingsArrays, clientName, locJson, k)
    requires start <= idx < |chunks| && batch == vs[start..idx]
    ensures pushed == vs[start..idx + 1]
  {
    var vector := VectorAt(txtPath, chunks, embeddingsArrays, clientName, locJson, idx);
    pushed := batch + [vector];
  }

  /**
   * The accumulate-and-flush loop (updatePinecone.js:40-66): push each
   * chunk's record onto `batch` and send the batch when it holds
   * `BatchSize` records or the last chunk has been pushed.
   */
  method UpsertChunks(index: VectorIndex, txtPath: SourceId, chunks: seq<Chunk>, embeddingsArrays: seq<Embedding>,
                      clientName: string, chatbotId: string, svc: IngestServices, ghost vs: seq<VectorRecord>)
    returns (completed: bool)
    requires |vs| == |chunks|
    requires forall k :: 0 <= k < |chunks| ==> vs[k] == VectorAt(txtPath, chunks, embeddingsArrays, clientName, svc.locJson, k)
    modifies index
    ensures var run := RunFrom(vs, 0, chatbotId, svc.upsertOk);
      index.log == old(index.log) + run.calls && completed == run.completed
  {
    ghost var all := RunFrom(vs, 0, chatbotId, svc.upsertOk);
    var batch: seq<VectorRecord> := [];
    ghost var start := 0;
    var idx := 0;
    while idx < |chunks|
      invariant 0 <= start <= idx <= |chunks|
      invariant batch == vs[start..idx] && |batch| < BatchSize
      invariant idx == |chunks| ==> batch == []
      invariant old(index.log) + all.calls == index.log + RunFrom(vs, start, chatbotId, svc.upsertOk).calls
      invariant all.completed == RunFrom(vs, start, chatbotId, svc.upsertOk).completed
    {
      batch := PushVector(batch, txtPath, chunks, embeddingsArrays, clientName, svc.locJson, idx, vs, start);
      if |batch| == BatchSize || idx == |chunks| - 1 {
        var ok := index.Upsert(UpsertRequest(batch, chatbotId), svc);
        RunFromStep(vs, start, idx + 1, chatbotId, svc.upsertOk);
        if !ok {
          // the rejection propagates to the catch around the outer loop
          return false;
        }
        batch := [];
        start := idx + 1;
      }
      idx := idx + 1;
    }
    return true;
  }

  /** `updatePinecone(client, indexName, docs, clientName, chatbotId)`; it resolves in every case. */
  method UpdatePinecone(index: VectorIndex, docs: seq<seq<Document>>, clientName: string, chatbotId: string, svc: IngestServices)
    modifies index
    ensures index.log == old(index.log) + IngestUpserts(docs, clientName, chatbotId, svc)
  {
    var k := 0;
    while k < |docs|
      invariant 0 <= k <= |docs|
      invariant old(index.log) + IngestUpserts(docs, clientName, chatbotId, svc)
             == index.log + IngestUpserts(docs[k..], clientName, chatbotId, svc)
    {
      assert docs[k..][0] == docs[k] && docs[k..][1..] == docs[k + 1..];
      var completed := UpsertSource(index, docs[k], clientName, chatbotId, svc);
      if !completed {
        // caught and logged by the catch at updatePinecone.js:69-71
        return;
      }
      k := k + 1;
    }
  }
}
