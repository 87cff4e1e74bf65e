/** The dashboard: a live copy of the user's profile and of the products
    collection, updated only by the two subscriptions' callbacks, and the
    choice of what the listings panel shows. */
module Dashboard {
  import opened Wrappers
  import opened Firestore
  import opened DescendingSort
  import opened Listings

  /** What a profile subscription delivers: the document, or word that it
      does not exist. */
  datatype ProfileSnapshot = Missing | Present(data: Data)

  /** What the main panel shows. */
  datatype Panel = LoadingProfile | LoadingProducts | NoProducts | Grid(cards: seq<Product>)

  /** The panel for the given state: the profile spinner first, then the
      products spinner, then the "no products" message or one card per
      cached product. */
  function MainPanel(profileLoading: bool, productsLoading: bool, products: seq<Product>): (v: Panel)
    ensures v == LoadingProfile <==> profileLoading
    ensures v == LoadingProducts <==> !profileLoading && productsLoading
    ensures v == NoProducts <==> !profileLoading && !productsLoading && products == []
    ensures v.Grid? ==> v.cards == products && |v.cards| > 0
  {
    if profileLoading then LoadingProfile
    else if productsLoading then LoadingProducts
    else if products == [] then NoProducts
    else Grid(products)
  }

  /** Once the profile has arrived, the panel a products snapshot leads to
      is the "no products" message exactly when the snapshot is empty, and
      otherwise a grid with one card per document. */
  lemma {:induction false} PanelAfterSnapshot(docs: seq<Doc>)
    ensures MainPanel(false, false, SortedProducts(docs, CreatedAtSeconds)) == NoProducts <==> docs == []
    ensures docs != [] ==> MainPanel(false, false, SortedProducts(docs, CreatedAtSeconds)).Grid?
    ensures docs != [] ==> |MainPanel(false, false, SortedProducts(docs, CreatedAtSeconds)).cards| == |docs|
  {
    SortedProductsSpec(docs, CreatedAtSeconds);
  }

  /** In the cached order a product without a createdAt comes after every
      product stamped after the epoch. */
  lemma {:induction false} UnstampedListedLast(docs: seq<Doc>, i: nat, j: nat)
    requires i < |docs| && j < |docs|
    requires !HasCreatedAt(SortedProducts(docs, CreatedAtSeconds)[i])
    requires HasCreatedAt(SortedProducts(docs, CreatedAtSeconds)[j])
    requires SortedProducts(docs, CreatedAtSeconds)[j]["createdAt"].t.seconds > 0
    ensures j < i
  {
    SortedProductsSpec(docs, CreatedAtSeconds);
  }

  /** Products stamped at seconds 3, 1, (not yet stamped) and 2, in that
      snapshot order, are cached as 3, 2, 1 and then the unstamped one. */
  lemma OrderingExample(p3: Product, p1: Product, pm: Product, p2: Product)
    requires HasCreatedAt(p3) && p3["createdAt"].t.seconds == 3
    requires HasCreatedAt(p1) && p1["createdAt"].t.seconds == 1
    requires !HasCreatedAt(pm)
    requires HasCreatedAt(p2) && p2["createdAt"].t.seconds == 2
    ensures SortDesc([p3, p1, pm, p2], CreatedAtSeconds) == [p3, p2, p1, pm]
  {
    var s := [p3, p1, pm, p2];
    assert s[..3] == [p3, p1, pm] && [p3, p1, pm][..2] == [p3, p1];
    assert [p3, p1][..1] == [p3] && [p3][..0] == [];
    assert SortDesc([p3, p1], CreatedAtSeconds) == [p3, p1];
    assert SortDesc([p3, p1, pm], CreatedAtSeconds) == [p3, p1, pm];
    assert InsertDesc([p3], p2, CreatedAtSeconds) == [p3, p2];
    assert InsertDesc([p3, p1], p2, CreatedAtSeconds) == [p3, p2, p1];
  }

  class DashboardState {
    var userProfile: Option<Data>
    var profileLoading: bool
    var products: seq<Product>
    var productsLoading: bool

    /** The cached products are always newest first. */
    ghost predicate Valid()
      reads this
    {
      SortedDesc(products, CreatedAtSeconds)
    }

    /** The panel the current state shows. */
    function CurrentPanel(): Panel
      reads this
    {
      MainPanel(profileLoading, productsLoading, products)
    }

    constructor ()
      ensures Valid()
      ensures userProfile == None && profileLoading
      ensures products == [] && productsLoading
      ensures CurrentPanel() == LoadingProfile
    {
      userProfile, profileLoading := None, true;
      products, productsLoading := [], true;
    }

    /** Profile callback: the document's data, or no profile. */
    method OnProfileSnapshot(snap: ProfileSnapshot)
      requires Valid()
      modifies this
      ensures Valid()
      ensures userProfile == (if snap.Present? then Some(snap.data) else None)
      ensures !profileLoading
      ensures products == old(products) && productsLoading == old(productsLoading)
    {
      match snap {
        case Present(data) => userProfile := Some(data);
        case Missing => userProfile := None;
      }
      profileLoading := false;
    }

    /** Profile error callback: stops waiting and keeps the last profile. */
    method OnProfileError()
      requires Valid()
      modifies this
      ensures Valid()
      ensures !profileLoading && userProfile == old(userProfile)
      ensures products == old(products) && productsLoading == old(productsLoading)
    {
      profileLoading := false;
    }

    /** Products callback: the cache becomes the whole snapshot, newest
        first by createdAt seconds. */
    method OnProductsSnapshot(docs: seq<Doc>)
      requires Valid()
      modifies this
      ensures Valid()
      ensures products == SortedProducts(docs, CreatedAtSeconds)
      ensures multiset(products) == multiset(ToProducts(docs))
      ensures !productsLoading
      ensures CurrentPanel() != LoadingProducts
      ensures userProfile == old(userProfile) && profileLoading == old(profileLoading)
    {
      var fetched := CollectSorted(docs, CreatedAtSeconds);
      SortedProductsSpec(docs, CreatedAtSeconds);
      products := fetched;
      productsLoading := false;
    }

    /** Products error callback: stops waiting and keeps the last list. */
    method OnProductsError()
      requires Valid()
      modifies this
      ensures Valid()
      ensures !productsLoading && products == old(products)
      ensures userProfile == old(userProfile) && profileLoading == old(profileLoading)
    {
      productsLoading := false;
    }
  }
}
