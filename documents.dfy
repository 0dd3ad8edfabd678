/** The values that flow from document assembly (create-embeddings.js) into the upsert loop (updatePinecone.js). */
module Documents {
  import opened JsText
  import opened Truncation

  /**
   * `metadata.source` of a document: a URL or a file name, or the number 0
   * that raw text is tagged with (create-embeddings.js:157).
   */
  datatype SourceId = Named(name: string) | Numbered(n: nat)

  /** `${source}` inside a template literal, and the element text `join` uses. */
  function SourceText(source: SourceId): string {
    match source
    case Named(name) => name
    case Numbered(n) => NatToString(n)
  }

  /** A langchain `Document` as the token splitter returns it: `pageContent`, `metadata.source`, `metadata.text`. */
  datatype Document = Document(pageContent: string, source: SourceId, text: JsValue)

  /** An embedding vector. Its components are floats in the system and only stored and passed on here. */
  type Embedding = seq<real>
}
