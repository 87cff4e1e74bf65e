/** The document store's data as both the browser client and the Read API
    see it: field values, timestamps, documents, and the product object
    `{ id: doc.id, ...doc.data() }` built from a document. */
module Firestore {

  /** A store timestamp: whole seconds since the epoch and a nanosecond part. */
  datatype Timestamp = Timestamp(seconds: int, nanoseconds: nat)

  /** A field value. `ServerTimestamp` is the sentinel a client writes with
      `serverTimestamp()`; the store replaces it by the write time. */
  datatype Value =
    | Null
    | Bool(b: bool)
    | Num(n: real)
    | Str(s: string)
    | Time(t: Timestamp)
    | ServerTimestamp

  /** The fields of a document (`doc.data()`). */
  type Data = map<string, Value>

  /** A document of the products collection: its store-assigned key and its data. */
  datatype Doc = Doc(id: string, data: Data)

  /** A product object: the document id merged with the document's fields. */
  type Product = map<string, Value>

  /** `{ id: doc.id, ...doc.data() }`: the spread comes last, so a field of
      the data named "id" would win over the document id. */
  function ToProduct(d: Doc): (p: Product)
    ensures p.Keys == d.data.Keys + {"id"}
    ensures forall k :: k in d.data ==> p[k] == d.data[k]
    ensures "id" !in d.data ==> p["id"] == Str(d.id)
  {
    map["id" := Str(d.id)] + d.data
  }

  /** One product per document, in snapshot order. */
  function ToProducts(docs: seq<Doc>): (ps: seq<Product>)
    ensures |ps| == |docs|
    ensures forall i :: 0 <= i < |docs| ==> ps[i] == ToProduct(docs[i])
  {
    seq(|docs|, i requires 0 <= i < |docs| => ToProduct(docs[i]))
  }

  /** True when the product carries a store timestamp under "createdAt". */
  predicate HasCreatedAt(p: Product) {
    "createdAt" in p && p["createdAt"].Time?
  }

  /** The browser's sort key, `p.createdAt?.seconds || 0`: a value without a
      `seconds` member yields undefined, which ranks as 0. */
  function CreatedAtSeconds(p: Product): int {
    if HasCreatedAt(p) then p["createdAt"].t.seconds else 0
  }

  /** The Read API's sort key, `p.createdAt ? p.createdAt.toDate().getTime() : 0`,
      with the timestamp truncated to whole milliseconds. */
  function CreatedAtMillis(p: Product): int {
    if HasCreatedAt(p) then Millis(p["createdAt"].t) else 0
  }

  function Millis(t: Timestamp): int {
    t.seconds * 1000 + t.nanoseconds / 1_000_000
  }

  /** A well-formed timestamp keeps its nanosecond part below one second. */
  predicate ValidTimestamp(t: Timestamp) {
    t.nanoseconds < 1_000_000_000
  }

  /** The two sort keys agree wherever the browser's key tells two products
      apart: a strictly later second is a strictly later millisecond. */
  lemma SecondsOrderAgreesWithMillis(p: Product, q: Product)
    requires HasCreatedAt(p) ==> ValidTimestamp(p["createdAt"].t)
    requires HasCreatedAt(q) ==> ValidTimestamp(q["createdAt"].t)
    requires CreatedAtSeconds(p) < CreatedAtSeconds(q)
    ensures CreatedAtMillis(p) < CreatedAtMillis(q)
  {
    var sp, sq := CreatedAtSeconds(p), CreatedAtSeconds(q);
    var np := if HasCreatedAt(p) then p["createdAt"].t.nanoseconds / 1_000_000 else 0;
    var nq := if HasCreatedAt(q) then q["createdAt"].t.nanoseconds / 1_000_000 else 0;
    assert CreatedAtMillis(p) == sp * 1000 + np;
    assert CreatedAtMillis(q) == sq * 1000 + nq;
    assert np < 1000;
    assert sp * 1000 + 1000 <= sq * 1000;
  }
}
