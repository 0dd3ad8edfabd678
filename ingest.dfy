/**
 * `createEmbeddings(urls, documentNames, text, model, clientName, chatbotId)`
 * (create-embeddings.js:45-210): crawl the URLs, extract the uploaded files,
 * take the raw text, split each into token chunks that carry their source and
 * `truncateStringByBytes` of the whole text, and hand the per-source lists to
 * `updatePinecone`. That truncation throws for a text over the byte budget,
 * which rejects the whole call.
 */
module Ingest {
  import opened Wrappers
  import opened Truncation
  import opened Documents
  import opened Upsert

  /** The token splitter's settings (create-embeddings.js:33-34). */
  const ChunkSize: nat := 300
  const ChunkOverlap: nat := 20

  /** The byte budget of the `metadata.text` copy (create-embeddings.js:35). */
  const ByteLimit: nat := 36000

  /** One entry of `final_data`: a crawled URL and its page's `document.body.innerText`. */
  datatype CrawlRow = CrawlRow(url: string, text: string)

  /**
   * Why the returned promise rejects: a page that could not be loaded, a file
   * that could not be read, or the TypeError `enc.decode is not a function`
   * that `truncateStringByBytes` throws for a text over the byte budget.
   */
  datatype IngestError = PageLoadFailed(url: string) | ExtractionFailed(filename: string) | DecodeNotAFunction

  /** How the promise settles. */
  datatype Resolution = Resolved(message: string) | Rejected(error: IngestError)

  /**
   * The outside world as document assembly sees it: the browser's rendering of
   * a URL, the file text extractor (`getTextFromDocument`), the token splitter,
   * and the services the upsert loop uses.
   */
  datatype CreateServices = CreateServices(
    pageText: string -> Option<string>,
    extract: string -> Option<Extraction>,
    tokenSplit: (string, nat, nat) -> seq<string>,
    upsert: IngestServices)

  /** A string `truncateStringByBytes` returns without throwing. */
  predicate Fits(s: string) {
    ByteLength(StringValue(s)) <= ByteLimit
  }

  /**
   * `splitter.splitDocuments([new Document({pageContent, metadata: {source, text}})])`:
   * one document per token chunk, each carrying the original metadata.
   */
  function SplitDocuments(pageContent: string, source: SourceId, text: JsValue, svc: CreateServices): (docs: seq<Document>)
    ensures var chunks := svc.tokenSplit(pageContent, ChunkSize, ChunkOverlap);
      && |docs| == |chunks|
      && forall i :: 0 <= i < |docs| ==> docs[i].pageContent == chunks[i] && docs[i].source == source && docs[i].text == text
  {
    var chunks := svc.tokenSplit(pageContent, ChunkSize, ChunkOverlap);
    seq(|chunks|, i requires 0 <= i < |chunks| => Document(chunks[i], source, text))
  }

  /**
   * `splitter.splitDocuments([new Document({pageContent, metadata: {source,
   * text: truncateStringByBytes(pageContent, byteLimit)}})])` for a string:
   * the truncation runs first, so a text over the budget throws before it is
   * split; a text within it is its own `metadata.text`.
   */
  function TruncatedDocuments(pageContent: string, source: SourceId, svc: CreateServices): (r: Result<seq<Document>, IngestError>)
    ensures r.Success? <==> Fits(pageContent)
    ensures r.Failure? ==> r.error == DecodeNotAFunction
    ensures r.Success? ==> r.value == SplitDocuments(pageContent, source, StringValue(pageContent), svc)
  {
    match TruncateStringByBytes(StringValue(pageContent), ByteLimit)
    case None => Failure(DecodeNotAFunction)
    case Some(text) => Success(SplitDocuments(pageContent, source, text, svc))
  }

  /**
   * The documents of one `final_data` row (create-embeddings.js:100-115): none
   * for an undefined row, otherwise the page's chunks tagged with its URL.
   */
  function RowDocuments(row: Option<CrawlRow>, svc: CreateServices): (docs: Result<seq<Document>, IngestError>)
    ensures row.None? ==> docs == Success([])
    ensures row.Some? ==> (docs.Success? <==> Fits(row.value.text))
    ensures row.Some? && docs.Success? ==>
      forall d :: d in docs.value ==> d.source == Named(row.value.url) && d.text == StringValue(row.value.text)
  {
    match row
    case None => Success([])
    case Some(r) => TruncatedDocuments(r.text, Named(r.url), svc)
  }

  /**
   * The documents of one uploaded file (create-embeddings.js:130-143). The
   * page content is the extracted `rawText`, but the truncation is applied to
   * the extraction object itself, not to its text, so it never throws.
   */
  function FileDocuments(filename: string, extraction: Extraction, svc: CreateServices): seq<Document> {
    ExtractionNeverTruncated(extraction, ByteLimit);
    SplitDocuments(extraction.rawText, Named(filename), TruncateStringByBytes(ExtractionValue(extraction), ByteLimit).value, svc)
  }

  /** The documents of the raw text, tagged with source 0 (create-embeddings.js:151-164). */
  function TextDocuments(text: string, svc: CreateServices): (docs: Result<seq<Document>, IngestError>)
    ensures docs.Success? <==> Fits(text)
    ensures docs.Success? ==> forall d :: d in docs.value ==> d.source == Numbered(0) && d.text == StringValue(text)
  {
    TruncatedDocuments(text, Numbered(0), svc)
  }

  /** Visiting the URLs in order; the first page that fails to load rejects the whole call. */
  function CrawlAll(urls: seq<string>, svc: CreateServices): (r: Result<seq<CrawlRow>, IngestError>)
    ensures r.Success? ==> |r.value| == |urls|
  {
    if urls == [] then Success([])
    else match svc.pageText(urls[0])
      case None => Failure(PageLoadFailed(urls[0]))
      case Some(text) =>
        match CrawlAll(urls[1..], svc)
        case Failure(e) => Failure(e)
        case Success(rows) => Success([CrawlRow(urls[0], text)] + rows)
  }

  /** Extracting the files; a file that cannot be read rejects the whole call. */
  function ExtractAll(names: seq<string>, svc: CreateServices): (r: Result<seq<Extraction>, IngestError>)
    ensures r.Success? ==> |r.value| == |names|
  {
    if names == [] then Success([])
    else match svc.extract(names[0])
      case None => Failure(ExtractionFailed(names[0]))
      case Some(e) =>
        match ExtractAll(names[1..], svc)
        case Failure(err) => Failure(err)
        case Success(es) => Success([e] + es)
  }

  /** The outcome of a loop that has already collected `done` and still has `rest` to go. */
  function Prepend<T>(done: seq<T>, rest: Result<seq<T>, IngestError>): Result<seq<T>, IngestError> {
    match rest
    case Failure(e) => Failure(e)
    case Success(xs) => Success(done + xs)
  }

  /**
   * `final_data.map(...)`: one document list per crawled page, in page order.
   * The callback truncates synchronously, so the first page over the byte
   * budget throws out of the `map`.
   */
  function CrawledDocuments(rows: seq<CrawlRow>, svc: CreateServices): (r: Result<seq<seq<Document>>, IngestError>)
    ensures r.Success? ==> |r.value| == |rows|
  {
    if rows == [] then Success([])
    else match RowDocuments(Some(rows[0]), svc)
      case Failure(e) => Failure(e)
      case Success(docs) => Prepend([docs], CrawledDocuments(rows[1..], svc))
  }

  /** `documentNames.map(...)`: one document list per file, in the order the names were given. */
  function ExtractedDocuments(names: seq<string>, extractions: seq<Extraction>, svc: CreateServices): (docs: seq<seq<Document>>)
    requires |names| == |extractions|
    ensures |docs| == |names|
    ensures forall i :: 0 <= i < |names| ==> docs[i] == FileDocuments(names[i], extractions[i], svc)
  {
    seq(|names|, i requires 0 <= i < |names| => FileDocuments(names[i], extractions[i], svc))
  }

  /**
   * `allDocs`: the crawled pages' lists, then the files' lists, then the raw
   * text's list. `urls` and `documentNames` are `None` when undefined (an empty
   * array is still truthy); an empty `text` is falsy and contributes nothing.
   * The first failure in program order rejects: a page that does not load, a
   * page over the byte budget, a file that cannot be read, raw text over the
   * budget.
   */
  function AllDocs(urls: Option<seq<string>>, documentNames: Option<seq<string>>, text: string, svc: CreateServices)
    : Result<seq<seq<Document>>, IngestError>
  {
    var crawled := if urls.None? then Success([]) else CrawlAll(urls.value, svc);
    if crawled.Failure? then Failure(crawled.error)
    else
      var pages := CrawledDocuments(crawled.value, svc);
      if pages.Failure? then Failure(pages.error)
      else
        var names := if documentNames.None? then [] else documentNames.value;
        var extracted := ExtractAll(names, svc);
        if extracted.Failure? then Failure(extracted.error)
        else
          var raw := if text != "" then TextDocuments(text, svc) else Success([]);
          if raw.Failure? then Failure(raw.error)
          else
            Success(pages.value
                    + ExtractedDocuments(names, extracted.value, svc)
                    + (if text != "" then [raw.value] else []))
  }

  /** Crawling succeeds exactly when every page loads, and then yields one row per URL, in order. */
  lemma {:induction false} CrawlAllRows(urls: seq<string>, svc: CreateServices)
    ensures CrawlAll(urls, svc).Success? <==> forall i :: 0 <= i < |urls| ==> svc.pageText(urls[i]).Some?
    ensures CrawlAll(urls, svc).Success? ==>
      var rows := CrawlAll(urls, svc).value;
      && |rows| == |urls|
      && forall i :: 0 <= i < |urls| ==> rows[i] == CrawlRow(urls[i], svc.pageText(urls[i]).value)
    ensures CrawlAll(urls, svc).Failure? ==>
      exists i :: 0 <= i < |urls| && svc.pageText(urls[i]).None? && CrawlAll(urls, svc).error == PageLoadFailed(urls[i])
    decreases |urls|
  {
    if urls != [] {
      CrawlAllRows(urls[1..], svc);
      assert forall i :: 1 <= i < |urls| ==> urls[i] == urls[1..][i - 1];
      if svc.pageText(urls[0]).None? {
        assert svc.pageText(urls[0]).None? && CrawlAll(urls, svc).error == PageLoadFailed(urls[0]);
      } else if CrawlAll(urls[1..], svc).Failure? {
        var i :| 0 <= i < |urls[1..]| && svc.pageText(urls[1..][i]).None? && CrawlAll(urls[1..], svc).error == PageLoadFailed(urls[1..][i]);
        assert svc.pageText(urls[i + 1]).None? && CrawlAll(urls, svc).error == PageLoadFailed(urls[i + 1]);
      }
    }
  }

  /** Extraction succeeds exactly when every file can be read, and then yields one extraction per name, in order. */
  lemma {:induction false} ExtractAllResults(names: seq<string>, svc: CreateServices)
    ensures ExtractAll(names, svc).Success? <==> forall i :: 0 <= i < |names| ==> svc.extract(names[i]).Some?
    ensures ExtractAll(names, svc).Success? ==>
      var es := ExtractAll(names, svc).value;
      && |es| == |names|
      && forall i :: 0 <= i < |names| ==> es[i] == svc.extract(names[i]).value
    ensures ExtractAll(names, svc).Failure? ==>
      exists i :: 0 <= i < |names| && svc.extract(names[i]).None? && ExtractAll(names, svc).error == ExtractionFailed(names[i])
    decreases |names|
  {
    if names != [] {
      ExtractAllResults(names[1..], svc);
      assert forall i :: 1 <= i < |names| ==> names[i] == names[1..][i - 1];
      if svc.extract(names[0]).None? {
        assert svc.extract(names[0]).None? && ExtractAll(names, svc).error == ExtractionFailed(names[0]);
      } else if ExtractAll(names[1..], svc).Failure? {
        var i :| 0 <= i < |names[1..]| && svc.extract(names[1..][i]).None? && ExtractAll(names[1..], svc).error == ExtractionFailed(names[1..][i]);
        assert svc.extract(names[i + 1]).None? && ExtractAll(names, svc).error == ExtractionFailed(names[i + 1]);
      }
    }
  }

  /**
   * Each file's documents carry the extraction object as `metadata.text`,
   * never truncated and rendered "[object Object]", while their page contents
   * are the chunks of the extracted text.
   */
  lemma FileDocumentsKeepExtraction(filename: string, extraction: Extraction, svc: CreateServices)
    ensures var docs := FileDocuments(filename, extraction, svc);
      forall d :: d in docs ==> d.text == ExtractionValue(extraction) && ToJsString(d.text) == "[object Object]" && d.source == Named(filename)
  {
    ExtractionNeverTruncated(extraction, ByteLimit);
  }

  /**
   * Mapping the rows succeeds exactly when every page's text fits the byte
   * budget; the list of row i is then that page's chunks, tagged with its
   * URL and carrying the whole page text as `metadata.text`.
   */
  lemma {:induction false} CrawledDocumentsResults(rows: seq<CrawlRow>, svc: CreateServices)
    ensures CrawledDocuments(rows, svc).Success? <==> forall i :: 0 <= i < |rows| ==> Fits(rows[i].text)
    ensures CrawledDocuments(rows, svc).Failure? ==> CrawledDocuments(rows, svc).error == DecodeNotAFunction
    ensures CrawledDocuments(rows, svc).Success? ==>
      var docs := CrawledDocuments(rows, svc).value;
      forall i :: 0 <= i < |rows| ==> docs[i] == SplitDocuments(rows[i].text, Named(rows[i].url), StringValue(rows[i].text), svc)
    decreases |rows|
  {
    if rows != [] {
      CrawledDocumentsResults(rows[1..], svc);
      assert forall i :: 1 <= i < |rows| ==> rows[i] == rows[1..][i - 1];
    }
  }

  /**
   * When every page loads and fits the byte budget, every file can be read
   * and the raw text fits, `allDocs` holds one list per URL, then one per
   * file, then one for a nonempty raw text, each list tagged with its own
   * source.
   */
  lemma AllDocsLayout(urls: seq<string>, documentNames: seq<string>, text: string, svc: CreateServices)
    requires forall i :: 0 <= i < |urls| ==> svc.pageText(urls[i]).Some? && Fits(svc.pageText(urls[i]).value)
    requires forall i :: 0 <= i < |documentNames| ==> svc.extract(documentNames[i]).Some?
    requires Fits(text)
    ensures AllDocs(Some(urls), Some(documentNames), text, svc).Success?
    ensures var all := AllDocs(Some(urls), Some(documentNames), text, svc).value;
      && |all| == |urls| + |documentNames| + (if text != "" then 1 else 0)
      && (forall i :: 0 <= i < |urls| ==>
            all[i] == SplitDocuments(svc.pageText(urls[i]).value, Named(urls[i]), StringValue(svc.pageText(urls[i]).value), svc))
      && (forall j :: 0 <= j < |documentNames| ==>
            all[|urls| + j] == FileDocuments(documentNames[j], svc.extract(documentNames[j]).value, svc))
      && (text != "" ==> all[|all| - 1] == SplitDocuments(text, Numbered(0), StringValue(text), svc))
  {
    CrawlAllRows(urls, svc);
    var rows := CrawlAll(urls, svc).value;
    CrawledDocumentsResults(rows, svc);
    ExtractAllResults(documentNames, svc);
    var pages := CrawledDocuments(rows, svc).value;
    var files := ExtractedDocuments(documentNames, ExtractAll(documentNames, svc).value, svc);
    var raw := if text != "" then [TextDocuments(text, svc).value] else [];
    assert AllDocs(Some(urls), Some(documentNames), text, svc) == Success(pages + files + raw);
  }

  /**
   * The call rejects exactly when some page fails to load, some page's text
   * exceeds the byte budget, some file cannot be read, or a nonempty raw
   * text exceeds the budget (a file's `metadata.text` never does); and the
   * reason is the first of these in program order.
   */
  lemma AllDocsFails(urls: seq<string>, documentNames: seq<string>, text: string, svc: CreateServices)
    ensures var r := AllDocs(Some(urls), Some(documentNames), text, svc);
      var loads := forall i :: 0 <= i < |urls| ==> svc.pageText(urls[i]).Some?;
      var pagesFit := forall i :: 0 <= i < |urls| && svc.pageText(urls[i]).Some? ==> Fits(svc.pageText(urls[i]).value);
      var readable := forall j :: 0 <= j < |documentNames| ==> svc.extract(documentNames[j]).Some?;
      && (r.Failure? <==> !loads || !pagesFit || !readable || (text != "" && !Fits(text)))
      && (!loads ==> r.Failure? && r.error.PageLoadFailed?)
      && (loads && !pagesFit ==> r.Failure? && r.error == DecodeNotAFunction)
      && (loads && pagesFit && !readable ==> r.Failure? && r.error.ExtractionFailed?)
      && (loads && pagesFit && readable && text != "" && !Fits(text) ==> r.Failure? && r.error == DecodeNotAFunction)
  {
    CrawlAllRows(urls, svc);
    ExtractAllResults(documentNames, svc);
    if CrawlAll(urls, svc).Success? {
      var rows := CrawlAll(urls, svc).value;
      CrawledDocumentsResults(rows, svc);
      assert forall i :: 0 <= i < |urls| ==> rows[i].text == svc.pageText(urls[i]).value;
    }
  }

  /**
   * One URL whose page text is over the byte budget (36001 letters "a" are,
   * by `OversizedTextThrows`): the call rejects before anything is split or
   * upserted.
   */
  lemma OversizedPageRejects(url: string, svc: CreateServices)
    requires svc.pageText(url).Some? && !Fits(svc.pageText(url).value)
    ensures AllDocs(Some([url]), None, "", svc) == Failure(DecodeNotAFunction)
  {
    CrawlAllRows([url], svc);
    CrawledDocumentsResults(CrawlAll([url], svc).value, svc);
  }

  lemma PrependNothing<T>(r: Result<seq<T>, IngestError>)
    ensures Prepend([], r) == r
  {
    if r.Success? {
      assert [] + r.value == r.value;
    }
  }

  lemma PrependAppend<T>(done: seq<T>, x: T, rest: Result<seq<T>, IngestError>)
    ensures Prepend(done, Prepend([x], rest)) == Prepend(done + [x], rest)
  {
    if rest.Success? {
      assert done + ([x] + rest.value) == (done + [x]) + rest.value;
    }
  }

  /**
   * The crawl loop (create-embeddings.js:82-95): visit the URLs in order and
   * push one row per page onto `final_data`; a page that fails to load
   * throws out of the loop.
   */
  method CrawlPages(urls: seq<string>, svc: CreateServices) returns (finalData: Result<seq<CrawlRow>, IngestError>)
    ensures finalData == CrawlAll(urls, svc)
  {
    var rows: seq<CrawlRow> := [];
    var k := 0;
    PrependNothing(CrawlAll(urls, svc));
    assert urls[0..] == urls;
    while k < |urls|
      invariant 0 <= k <= |urls|
      invariant CrawlAll(urls, svc) == Prepend(rows, CrawlAll(urls[k..], svc))
    {
      assert urls[k..][0] == urls[k] && urls[k..][1..] == urls[k + 1..];
      var page := svc.pageText(urls[k]);
      if page.None? {
        // `page.goto` throws
        return Failure(PageLoadFailed(urls[k]));
      }
      PrependAppend(rows, CrawlRow(urls[k], page.value), CrawlAll(urls[k + 1..], svc));
      rows := rows + [CrawlRow(urls[k], page.value)];
      k := k + 1;
    }
    assert urls[k..] == [] && rows + [] == rows;
    return Success(rows);
  }

  /**
   * `Promise.all(documentNames.map(... getTextFromDocument(filename) ...))`
   * (create-embeddings.js:129-144), taken one file after the other: the
   * extractions in name order, or the failure of a file that cannot be read.
   */
  method ExtractFiles(names: seq<string>, svc: CreateServices) returns (extracted: Result<seq<Extraction>, IngestError>)
    ensures extracted == ExtractAll(names, svc)
  {
    var extractions: seq<Extraction> := [];
    var k := 0;
    PrependNothing(ExtractAll(names, svc));
    assert names[0..] == names;
    while k < |names|
      invariant 0 <= k <= |names|
      invariant ExtractAll(names, svc) == Prepend(extractions, ExtractAll(names[k..], svc))
    {
      assert names[k..][0] == names[k] && names[k..][1..] == names[k + 1..];
      var extraction := svc.extract(names[k]);
      if extraction.None? {
        // the promise of `Promise.all` rejects
        return Failure(ExtractionFailed(names[k]));
      }
      PrependAppend(extractions, extraction.value, ExtractAll(names[k + 1..], svc));
      extractions := extractions + [extraction.value];
      k := k + 1;
    }
    assert names[k..] == [] && extractions + [] == extractions;
    return Success(extractions);
  }

  /**
   * `createEmbeddings`: the crawl loop, the pages' documents, the file
   * extraction, the raw text, then `updatePinecone`. Once the documents are
   * assembled the promise resolves with "Created", since `updatePinecone`
   * never throws; a page or file failure, or a text over the byte budget,
   * rejects it through the outer catch before anything is upserted.
   */
  method CreateEmbeddings(index: VectorIndex, urls: Option<seq<string>>, documentNames: Option<seq<string>>, text: string,
                          clientName: string, chatbotId: string, svc: CreateServices)
    returns (r: Resolution)
    modifies index
    ensures match AllDocs(urls, documentNames, text, svc)
      case Failure(e) => r == Rejected(e) && index.log == old(index.log)
      case Success(all) => r == Resolved("Created") && index.log == old(index.log) + IngestUpserts(all, clientName, chatbotId, svc.upsert)
  {
    var allDocs: seq<seq<Document>> := [];
    ghost var rows: seq<CrawlRow> := [];
    if urls.Some? {
      var finalData := CrawlPages(urls.value, svc);
      if finalData.Failure? {
        return Rejected(finalData.error);
      }
      rows := finalData.value;
      var pages := CrawledDocuments(finalData.value, svc);
      if pages.Failure? {
        // `truncateStringByBytes` throws inside the `map` callback
        return Rejected(pages.error);
      }
      allDocs := pages.value;
    }
    assert CrawledDocuments(rows, svc) == Success(allDocs);
    ghost var names := if documentNames.None? then [] else documentNames.value;
    ghost var extractions: seq<Extraction> := [];
    if documentNames.Some? {
      var extracted := ExtractFiles(documentNames.value, svc);
      if extracted.Failure? {
        return Rejected(extracted.error);
      }
      extractions := extracted.value;
      allDocs := allDocs + ExtractedDocuments(documentNames.value, extracted.value, svc);
    }
    assert allDocs == CrawledDocuments(rows, svc).value + ExtractedDocuments(names, extractions, svc);
    ghost var assembled := allDocs;
    if text != "" {
      var raw := TextDocuments(text, svc);
      if raw.Failure? {
        // the plain-text promise rejects, and with it `Promise.all`
        return Rejected(raw.error);
      }
      allDocs := allDocs + [raw.value];
    } else {
      assert allDocs == assembled + [];
    }
    assert AllDocs(urls, documentNames, text, svc) == Success(allDocs);
    UpdatePinecone(index, allDocs, clientName, chatbotId, svc.upsert);
    return Resolved("Created");
  }
}
