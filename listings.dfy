/** Turning a snapshot of the products collection into the products array
    that the dashboard caches and the Read API returns: one product per
    document, `{ id: doc.id, ...doc.data() }`, sorted newest first by a
    createdAt key in which a missing createdAt counts as 0. */
module Listings {
  import opened Firestore
  import opened DescendingSort

  /** The products of a snapshot, newest first by `key`. */
  function SortedProducts(docs: seq<Doc>, key: Product -> int): (r: seq<Product>)
    ensures |r| == |docs|
  {
    SortDesc(ToProducts(docs), key)
  }

  /** The push loop followed by the in-place sort. */
  method CollectSorted(docs: seq<Doc>, key: Product -> int) returns (products: seq<Product>)
    ensures products == SortedProducts(docs, key)
  {
    var fetched := new Product[|docs|];
    var i := 0;
    while i < |docs|
      invariant 0 <= i <= |docs|
      invariant forall m :: 0 <= m < i ==> fetched[m] == ToProduct(docs[m])
    {
      fetched[i] := ToProduct(docs[i]);
      i := i + 1;
    }
    assert fetched[..] == ToProducts(docs);
    InsertionSortDesc(fetched, key);
    products := fetched[..];
  }

  /** What the sorted products are: exactly one product per document (a
      permutation of the mapped snapshot), newest first, and documents with
      equal keys in snapshot order. */
  lemma {:induction false} SortedProductsSpec(docs: seq<Doc>, key: Product -> int)
    ensures multiset(SortedProducts(docs, key)) == multiset(ToProducts(docs))
    ensures SortedDesc(SortedProducts(docs, key), key)
    ensures forall k :: WithKey(SortedProducts(docs, key), key, k) == WithKey(ToProducts(docs), key, k)
  {
    SortDescPermutes(ToProducts(docs), key);
    SortDescSorted(ToProducts(docs), key);
    forall k ensures WithKey(SortedProducts(docs, key), key, k) == WithKey(ToProducts(docs), key, k) {
      SortDescStable(ToProducts(docs), key, k);
    }
  }

  /** Every product in the result comes from a document of the snapshot,
      and every document contributes its product. */
  lemma {:induction false} SortedProductsFromDocs(docs: seq<Doc>, key: Product -> int)
    ensures forall p :: p in SortedProducts(docs, key) ==> exists d :: d in docs && p == ToProduct(d)
    ensures forall d :: d in docs ==> ToProduct(d) in SortedProducts(docs, key)
  {
    SortedProductsSpec(docs, key);
    var r, ps := SortedProducts(docs, key), ToProducts(docs);
    forall p | p in r ensures exists d :: d in docs && p == ToProduct(d) {
      assert p in multiset(r);
      assert p in multiset(ps);
      var m :| 0 <= m < |ps| && ps[m] == p;
      assert docs[m] in docs;
    }
    forall d | d in docs ensures ToProduct(d) in r {
      var m :| 0 <= m < |docs| && docs[m] == d;
      assert ps[m] in multiset(ps);
    }
  }
}
