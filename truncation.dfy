/**
 * `truncateStringByBytes` of create-embeddings.js: encode a value as UTF-8
 * (as `TextEncoder.encode` does) and keep it whole when it fits the byte
 * budget. Past the budget the function means to decode the LAST `byteLimit`
 * bytes, but it calls `decode` on the `TextEncoder` itself, which has no such
 * method, so it throws instead.
 *
 * Encoding is written out (UTF-8 is fixed by its standard). The intended
 * tail-keeping version, `TruncateTail`, is kept beside the function as
 * written; its decoder, which may meet a slice that starts inside a
 * character, is an opaque parameter.
 */
module Truncation {
  import opened Wrappers

  type byte = x: int | 0 <= x < 256

  /** The UTF-8 encoding of one Unicode scalar value: one to four bytes. */
  function EncodeChar(c: char): (bytes: seq<byte>)
    ensures 1 <= |bytes| <= 4
    ensures (c as int) < 0x80 <==> |bytes| == 1
  {
    var cp := c as int;
    if cp < 0x80 then [cp]
    else if cp < 0x800 then [0xC0 + cp / 0x40, 0x80 + cp % 0x40]
    else if cp < 0x1_0000 then [0xE0 + cp / 0x1000, 0x80 + (cp / 0x40) % 0x40, 0x80 + cp % 0x40]
    else [0xF0 + cp / 0x4_0000, 0x80 + (cp / 0x1000) % 0x40, 0x80 + (cp / 0x40) % 0x40, 0x80 + cp % 0x40]
  }

  /** `new TextEncoder().encode(s)`: the characters' encodings, in order. */
  function Utf8Encode(s: string): (bytes: seq<byte>)
    ensures |s| <= |bytes| <= 4 * |s|
  {
    if s == [] then [] else EncodeChar(s[0]) + Utf8Encode(s[1..])
  }

  /** Encoding distributes over concatenation. */
  lemma {:induction false} Utf8EncodeAppend(a: string, b: string)
    ensures Utf8Encode(a + b) == Utf8Encode(a) + Utf8Encode(b)
    decreases |a|
  {
    if a == [] {
      assert a + b == b;
    } else {
      assert (a + b)[1..] == a[1..] + b;
      Utf8EncodeAppend(a[1..], b);
    }
  }

  /** An ASCII-only string encodes to one byte per character. */
  lemma {:induction false} Utf8EncodeAscii(s: string)
    requires forall i :: 0 <= i < |s| ==> (s[i] as int) < 0x80
    ensures |Utf8Encode(s)| == |s|
    decreases |s|
  {
    if s != [] {
      Utf8EncodeAscii(s[1..]);
    }
  }

  function Min(a: nat, b: nat): nat {
    if a <= b then a else b
  }

  /**
   * `bytes.slice(length - byteLimit, length)` when the encoding is longer than
   * the limit, and the whole encoding otherwise: the bytes the function keeps.
   */
  function TailBytes(bytes: seq<byte>, byteLimit: nat): (tail: seq<byte>)
    ensures |tail| == Min(|bytes|, byteLimit)
    ensures bytes == bytes[..|bytes| - |tail|] + tail
  {
    if |bytes| <= byteLimit then bytes else bytes[|bytes| - byteLimit..]
  }

  /** Whatever precedes them, the last `|tail|` bytes are what is kept. */
  lemma TailBytesKeepsTail(head: seq<byte>, tail: seq<byte>)
    ensures TailBytes(head + tail, |tail|) == tail
  {
    var all := head + tail;
    if |all| > |tail| {
      assert all[|all| - |tail|..] == tail;
    }
  }

  /** Keeping the tail twice with the same limit is keeping it once. */
  lemma TailBytesIdempotent(bytes: seq<byte>, byteLimit: nat)
    ensures TailBytes(TailBytes(bytes, byteLimit), byteLimit) == TailBytes(bytes, byteLimit)
  {
  }

  /**
   * What `getTextFromDocument` resolves to: an object whose `rawText` holds
   * the extracted text (its other fields are not used by the core).
   */
  datatype Extraction = Extraction(rawText: string)

  /** The values the core passes as `str`: a string, or (create-embeddings.js:138) an extraction object. */
  datatype JsValue = StringValue(s: string) | ExtractionValue(e: Extraction)

  /** JavaScript's `String(v)`: a plain object renders as "[object Object]". */
  function ToJsString(v: JsValue): string {
    match v
    case StringValue(s) => s
    case ExtractionValue(_) => "[object Object]"
  }

  /** The number of bytes `new TextEncoder().encode(v).byteLength` counts. */
  function ByteLength(v: JsValue): nat {
    |Utf8Encode(ToJsString(v))|
  }

  /**
   * `truncateStringByBytes(str, byteLimit)` as written. A value whose
   * encoding fits (equality included) is returned unchanged, the very value
   * and not a copy. Any longer value reaches `enc.decode(...)`, and since
   * `enc` is a `TextEncoder` the call throws a TypeError: `None`.
   */
  function TruncateStringByBytes(str: JsValue, byteLimit: nat): (r: Option<JsValue>)
    ensures r.Some? <==> ByteLength(str) <= byteLimit
    ensures r.Some? ==> r.value == str
  {
    if ByteLength(str) <= byteLimit then Some(str) else None
  }

  /** For ASCII text the function throws exactly when the text has more characters than the budget. */
  lemma AsciiTruncation(s: string, byteLimit: nat)
    requires forall i :: 0 <= i < |s| ==> (s[i] as int) < 0x80
    ensures TruncateStringByBytes(StringValue(s), byteLimit).None? <==> |s| > byteLimit
  {
    Utf8EncodeAscii(s);
  }

  /** A page of 36001 letters "a" makes the function throw under the 36000-byte budget. */
  lemma OversizedTextThrows()
    ensures TruncateStringByBytes(StringValue(seq(36001, _ => 'a')), 36000) == None
  {
    AsciiTruncation(seq(36001, _ => 'a'), 36000);
  }

  /**
   * The evidently intended function: past the budget, decode the last
   * `byteLimit` bytes of the encoding (`new TextDecoder().decode`, here
   * `decode`). The result is the decoding of a suffix of exactly `byteLimit`
   * bytes, the preceding bytes being dropped.
   */
  function TruncateTail(str: JsValue, byteLimit: nat, decode: seq<byte> -> string): (r: JsValue)
    ensures ByteLength(str) <= byteLimit ==> r == str
    ensures ByteLength(str) > byteLimit ==>
      exists head: seq<byte>, tail: seq<byte> ::
        Utf8Encode(ToJsString(str)) == head + tail && |tail| == byteLimit && r == StringValue(decode(tail))
  {
    var bytes := Utf8Encode(ToJsString(str));
    if |bytes| <= byteLimit then str
    else
      var tail := TailBytes(bytes, byteLimit);
      assert bytes == bytes[..|bytes| - byteLimit] + tail;
      StringValue(decode(tail))
  }

  /** Where the function as written returns, it agrees with the intended one; it throws exactly where that one decodes. */
  lemma TruncateAsWrittenAgrees(str: JsValue, byteLimit: nat, decode: seq<byte> -> string)
    ensures TruncateStringByBytes(str, byteLimit)
         == if ByteLength(str) <= byteLimit then Some(TruncateTail(str, byteLimit, decode)) else None
  {
  }

  /**
   * The intended function keeps the text whose encoding is the last
   * `byteLimit` bytes, whatever text precedes it: with a decoder that reads
   * that encoding back, the result is exactly that text, within the budget.
   */
  lemma TruncateIgnoresHead(s: string, t: string, byteLimit: nat, decode: seq<byte> -> string)
    requires |Utf8Encode(t)| == byteLimit
    requires decode(Utf8Encode(t)) == t
    ensures TruncateTail(StringValue(s + t), byteLimit, decode) == StringValue(t)
    ensures ByteLength(TruncateTail(StringValue(s + t), byteLimit, decode)) == byteLimit
  {
    Utf8EncodeAppend(s, t);
    TailBytesKeepsTail(Utf8Encode(s), Utf8Encode(t));
    if s == [] {
      assert s + t == t;
    }
  }

  /** An extraction object never reaches the throwing branch: it renders as 15 bytes. */
  lemma ExtractionNeverTruncated(e: Extraction, byteLimit: nat)
    requires byteLimit >= 15
    ensures TruncateStringByBytes(ExtractionValue(e), byteLimit) == Some(ExtractionValue(e))
  {
    var s := ToJsString(ExtractionValue(e));
    assert forall i :: 0 <= i < |s| ==> (s[i] as int) < 0x80;
    Utf8EncodeAscii(s);
  }
}
