/** The Read API: the two GET routes over the products collection, each a
    function from what the store returned to the HTTP response, and the
    handler that computes it with a push loop and an in-place sort. */
module ReadApi {
  import opened Wrappers
  import opened Firestore
  import opened DescendingSort
  import opened Listings

  /** A JSON response body: the products array, or an error object. */
  datatype Body = Products(items: seq<Product>) | ErrorBody(error: string, details: string)

  datatype Response = Response(status: int, body: Body)

  const AllProductsFailure := "Failed to fetch products"
  const SellerProductsFailure := "Failed to fetch seller products"

  /** The products of the fetched documents, newest first by createdAt
      milliseconds. */
  function ByCreatedAt(docs: seq<Doc>): (r: seq<Product>)
    ensures |r| == |docs|
  {
    SortedProducts(docs, CreatedAtMillis)
  }

  /** GET /api/products, given the result of reading the whole collection. */
  function AllProductsResponse(fetched: Result<seq<Doc>, string>): (r: Response)
    ensures fetched.Failure? ==> r == Response(500, ErrorBody(AllProductsFailure, fetched.error))
    ensures fetched.Success? ==> r.status == 200 && r.body.Products?
    ensures fetched.Success? ==> |r.body.items| == |fetched.value|
    ensures fetched == Success([]) ==> r == Response(200, Products([]))
  {
    match fetched
    case Failure(message) => Response(500, ErrorBody(AllProductsFailure, message))
    case Success(docs) =>
      if docs == [] then Response(200, Products([]))
      else Response(200, Products(ByCreatedAt(docs)))
  }

  /** Does the document belong to the seller? */
  predicate SoldBy(d: Doc, sellerId: string) {
    "sellerId" in d.data && d.data["sellerId"] == Str(sellerId)
  }

  /** The store's `where('sellerId', '==', sellerId)`: the seller's
      documents, in collection order. */
  function SellerQuery(docs: seq<Doc>, sellerId: string): (r: seq<Doc>)
    ensures forall d :: d in r <==> d in docs && SoldBy(d, sellerId)
    ensures |r| <= |docs|
  {
    if docs == [] then []
    else
      var init, last := docs[..|docs| - 1], docs[|docs| - 1];
      assert docs == init + [last];
      SellerQuery(init, sellerId) + (if SoldBy(last, sellerId) then [last] else [])
  }

  /** GET /api/products/seller/:userId, given the result of reading the
      collection, which the route narrows to the seller's documents. */
  function SellerProductsResponse(fetched: Result<seq<Doc>, string>, sellerId: string): (r: Response)
    ensures fetched.Failure? ==> r == Response(500, ErrorBody(SellerProductsFailure, fetched.error))
    ensures fetched.Success? ==> r.status == 200 && r.body.Products?
    ensures fetched.Success? && SellerQuery(fetched.value, sellerId) == [] ==> r == Response(200, Products([]))
  {
    match fetched
    case Failure(message) => Response(500, ErrorBody(SellerProductsFailure, message))
    case Success(docs) =>
      var snapshot := SellerQuery(docs, sellerId);
      if snapshot == [] then Response(200, Products([]))
      else Response(200, Products(ByCreatedAt(snapshot)))
  }

  /** The all-products array holds one `{ id, ...data }` product per
      document, newest first, with equal timestamps in collection order. */
  lemma {:induction false} AllProductsContents(docs: seq<Doc>)
    ensures var items := AllProductsResponse(Success(docs)).body.items;
      && multiset(items) == multiset(ToProducts(docs))
      && SortedDesc(items, CreatedAtMillis)
      && forall k :: WithKey(items, CreatedAtMillis, k) == WithKey(ToProducts(docs), CreatedAtMillis, k)
  {
    SortedProductsSpec(docs, CreatedAtMillis);
  }

  /** The seller's array holds exactly the products of the seller's
      documents, each one carrying that sellerId, in the same order as the
      all-products route, equal timestamps in collection order. */
  lemma {:induction false} SellerProductsContents(docs: seq<Doc>, sellerId: string)
    ensures var items := SellerProductsResponse(Success(docs), sellerId).body.items;
      && multiset(items) == multiset(ToProducts(SellerQuery(docs, sellerId)))
      && SortedDesc(items, CreatedAtMillis)
      && (forall k :: WithKey(items, CreatedAtMillis, k)
                   == WithKey(ToProducts(SellerQuery(docs, sellerId)), CreatedAtMillis, k))
      && (forall p :: p in items ==> "sellerId" in p && p["sellerId"] == Str(sellerId))
      && (forall d :: d in docs && SoldBy(d, sellerId) ==> ToProduct(d) in items)
  {
    var snapshot := SellerQuery(docs, sellerId);
    SortedProductsSpec(snapshot, CreatedAtMillis);
    SortedProductsFromDocs(snapshot, CreatedAtMillis);
    var items := SellerProductsResponse(Success(docs), sellerId).body.items;
    forall p | p in items ensures "sellerId" in p && p["sellerId"] == Str(sellerId) {
      var d :| d in snapshot && p == ToProduct(d);
      assert SoldBy(d, sellerId);
    }
  }

  /** On the all-products route a product without a createdAt comes after
      every product stamped after the epoch. */
  lemma {:induction false} UnstampedServedLast(docs: seq<Doc>, i: nat, j: nat)
    requires i < |docs| && j < |docs|
    requires !HasCreatedAt(ByCreatedAt(docs)[i])
    requires HasCreatedAt(ByCreatedAt(docs)[j]) && ValidTimestamp(ByCreatedAt(docs)[j]["createdAt"].t)
    requires ByCreatedAt(docs)[j]["createdAt"].t.seconds > 0
    ensures j < i
  {
    SortedProductsSpec(docs, CreatedAtMillis);
  }

  /** The all-products handler. */
  method GetProducts(fetched: Result<seq<Doc>, string>) returns (response: Response)
    ensures response == AllProductsResponse(fetched)
  {
    match fetched {
      case Failure(message) =>
        return Response(500, ErrorBody(AllProductsFailure, message));
      case Success(snapshot) =>
        if snapshot == [] {
          return Response(200, Products([]));
        }
        var products := CollectSorted(snapshot, CreatedAtMillis);
        return Response(200, Products(products));
    }
  }

  /** The seller handler. */
  method GetSellerProducts(fetched: Result<seq<Doc>, string>, sellerId: string) returns (response: Response)
    ensures response == SellerProductsResponse(fetched, sellerId)
  {
    match fetched {
      case Failure(message) =>
        return Response(500, ErrorBody(SellerProductsFailure, message));
      case Success(docs) =>
        var snapshot := SellerQuery(docs, sellerId);
        if snapshot == [] {
          return Response(200, Products([]));
        }
        var products := CollectSorted(snapshot, CreatedAtMillis);
        return Response(200, Products(products));
    }
  }
}
