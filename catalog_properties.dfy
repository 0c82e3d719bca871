/** What the catalogue endpoints promise, stated over `Catalog.Listing` and `Catalog.GetProduct`. */
module CatalogProperties {
  import opened Wrappers
  import opened ObjectIds
  import opened Documents
  import opened MongoQuery
  import opened Projection
  import opened Catalog

  /** The documents of a page: selected from the store, in sort order, at most `limit` of them. */
  lemma {:induction false} PageFacts(store: seq<Doc>, p: Query)
    requires ParamsOk(p)
    ensures var order := ResolveSort(p.sort);
      && SortedOn(Page(store, p), order.key, order.dir)
      && |Page(store, p)| == (if |Where(store, Selector(p))| <= p.limit then |Where(store, Selector(p))| else p.limit)
      && forall d :: d in Page(store, p) ==> d in store && Wanted(p, d)
  {
    var order := ResolveSort(p.sort);
    var selected := Where(store, Selector(p));
    var sorted := SortBy(selected, order.key, order.dir);
    SortBySorted(selected, order.key, order.dir);
    SortByPermutes(selected, order.key, order.dir);
    forall d | d in Page(store, p)
      ensures d in store && Wanted(p, d)
    {
      assert d in sorted;
      assert d in multiset(sorted);
      assert d in selected;
    }
  }

  /** Every listed record is the projection of a stored document the query selects. */
  lemma ListingSelects(store: seq<Doc>, available: bool, p: Query, items: seq<ProductOut>)
    requires Listing(store, available, p) == Success(items)
    ensures forall i :: 0 <= i < |items| ==>
      exists d :: d in store && Wanted(p, d) && ProjectProduct(WithPublicId(d)) == Some(items[i])
  {
    if available {
      var page := Page(store, p);
      PageFacts(store, p);
      forall i | 0 <= i < |items|
        ensures exists d :: d in store && Wanted(p, d) && ProjectProduct(WithPublicId(d)) == Some(items[i])
      {
        assert page[i] in page;
      }
    }
  }

  /** A projected record's price, rating and review count are the keys its document sorts by. */
  lemma ProjectedKeys(d: Doc, o: ProductOut)
    requires ProjectProduct(WithPublicId(d)) == Some(o)
    ensures KeyOf(d, "price") == Number(o.price)
    ensures KeyOf(d, "rating") == Number(o.rating)
    ensures KeyOf(d, "reviews_count") == Number(o.reviewsCount as real)
  {
    var e := WithPublicId(d);
    assert e["price"] == d["price"] && e["rating"] == d["rating"] && e["reviews_count"] == d["reviews_count"];
  }

  /** Two projected documents in sort order show their sort fields in that order. */
  lemma PairInOrder(a: Doc, b: Doc, oa: ProductOut, ob: ProductOut, key: string, dir: Direction)
    requires ProjectProduct(WithPublicId(a)) == Some(oa) && ProjectProduct(WithPublicId(b)) == Some(ob)
    requires !Precedes(KeyOf(b, key), KeyOf(a, key), dir)
    ensures key == "price" && dir == Ascending ==> oa.price <= ob.price
    ensures key == "price" && dir == Descending ==> oa.price >= ob.price
    ensures key == "rating" && dir == Descending ==> oa.rating >= ob.rating
    ensures key == "reviews_count" && dir == Descending ==> oa.reviewsCount >= ob.reviewsCount
  {
    ProjectedKeys(a, oa);
    ProjectedKeys(b, ob);
  }

  /**
    The listing is ordered by the resolved key: ascending price, descending
    price, descending rating, or (for every other `sort`) descending review count.
  */
  lemma ListingOrder(store: seq<Doc>, available: bool, p: Query, items: seq<ProductOut>)
    requires Listing(store, available, p) == Success(items)
    ensures p.sort == Some("price_asc") ==>
      forall i, j :: 0 <= i < j < |items| ==> items[i].price <= items[j].price
    ensures p.sort == Some("price_desc") ==>
      forall i, j :: 0 <= i < j < |items| ==> items[i].price >= items[j].price
    ensures p.sort == Some("rating") ==>
      forall i, j :: 0 <= i < j < |items| ==> items[i].rating >= items[j].rating
    ensures p.sort !in {Some("price_asc"), Some("price_desc"), Some("rating")} ==>
      forall i, j :: 0 <= i < j < |items| ==> items[i].reviewsCount >= items[j].reviewsCount
  {
    if available {
      var page := Page(store, p);
      var order := ResolveSort(p.sort);
      assert ProjectEach(page, ProjectProduct) == Success(items);
      PageFacts(store, p);
      forall i, j | 0 <= i < j < |items|
        ensures order.key == "price" && order.dir == Ascending ==> items[i].price <= items[j].price
        ensures order.key == "price" && order.dir == Descending ==> items[i].price >= items[j].price
        ensures order.key == "rating" && order.dir == Descending ==> items[i].rating >= items[j].rating
        ensures order.key == "reviews_count" && order.dir == Descending ==> items[i].reviewsCount >= items[j].reviewsCount
      {
        PairInOrder(page[i], page[j], items[i], items[j], order.key, order.dir);
      }
    }
  }

  /**
    Truncation comes after sorting: a selected document left off the page
    would not have come before any listed one, and when the selection fits
    the limit the page holds all of it.
  */
  lemma ListingKeepsTheFirst(store: seq<Doc>, p: Query)
    requires ParamsOk(p)
    ensures var order := ResolveSort(p.sort);
      forall d, i :: d in store && Wanted(p, d) && d !in Page(store, p) && 0 <= i < |Page(store, p)| ==>
        !Precedes(KeyOf(d, order.key), KeyOf(Page(store, p)[i], order.key), order.dir)
    ensures |Where(store, Selector(p))| <= p.limit ==>
      multiset(Page(store, p)) == multiset(Where(store, Selector(p)))
  {
    var order := ResolveSort(p.sort);
    var selected := Where(store, Selector(p));
    var sorted := SortBy(selected, order.key, order.dir);
    var page := Page(store, p);
    SortBySorted(selected, order.key, order.dir);
    SortByPermutes(selected, order.key, order.dir);
    forall d, i | d in store && Wanted(p, d) && d !in page && 0 <= i < |page|
      ensures !Precedes(KeyOf(d, order.key), KeyOf(page[i], order.key), order.dir)
    {
      assert d in selected;
      assert d in multiset(sorted);
      var j :| 0 <= j < |sorted| && sorted[j] == d;
      assert page == sorted[..|page|];
      assert j >= |page|;
    }
  }

  /** Any `sort` without an order of its own lists exactly what `popularity` lists. */
  lemma FallbackSortIsPopularity(store: seq<Doc>, available: bool, p: Query)
    requires p.sort !in {Some("price_asc"), Some("price_desc"), Some("rating")}
    ensures Listing(store, available, p) == Listing(store, available, p.(sort := Some("popularity")))
  {
    var p' := p.(sort := Some("popularity"));
    WhereAgrees(store, Selector(p), Selector(p'));
  }

  /**
    An inverted price range selects no document with a numeric price, so the
    listing is empty or, should an array-valued price be selected, fails.
  */
  lemma InvertedRangeListsNothing(store: seq<Doc>, available: bool, p: Query)
    requires p.minPrice.Some? && p.maxPrice.Some? && p.minPrice.value > p.maxPrice.value
    requires ParamsOk(p)
    ensures forall d :: "price" in d && NumberOf(d["price"]).Some? ==> !Wanted(p, d)
    ensures Listing(store, available, p) in {Success([]), Failure(InvalidDocument)}
  {
    forall d: Doc
      ensures ProjectProduct(WithPublicId(d)).Some? ==> !Wanted(p, d)
    {
      ProjectableHasNumericPrice(d);
    }
    if available {
      PageFacts(store, p);
    }
  }

  /** A document that projects carries a numeric `price`. */
  lemma ProjectableHasNumericPrice(d: Doc)
    ensures ProjectProduct(WithPublicId(d)).Some? ==> "price" in d && NumberOf(d["price"]).Some?
  {
    if ProjectProduct(WithPublicId(d)).Some? {
      var e := WithPublicId(d);
      assert e["price"] == d["price"];
    }
  }

  /** With no search text, category or price, the listing is the whole store in sort order. */
  lemma UnfilteredListsEverything(store: seq<Doc>, p: Query)
    requires ParamsOk(p)
    requires !Given(p.q) && !Given(p.category) && p.minPrice.None? && p.maxPrice.None?
    ensures Page(store, p) == Take(SortBy(store, ResolveSort(p.sort).key, ResolveSort(p.sort).dir), p.limit)
  {
    WhereAll(store, Selector(p));
  }

  /** A selected document that fails projection fails the whole listing; it is not skipped. */
  lemma BadDocumentFailsListing(store: seq<Doc>, p: Query, d: Doc)
    requires ParamsOk(p)
    requires d in Page(store, p) && ProjectProduct(WithPublicId(d)).None?
    ensures Listing(store, true, p) == Failure(InvalidDocument)
  {
    var page := Page(store, p);
    var k :| 0 <= k < |page| && page[k] == d;
  }

  /** No two stored documents share an `_id`. */
  ghost predicate UniqueIds(store: seq<Doc>) {
    forall i, j ::
      (0 <= i < |store| && 0 <= j < |store| && "_id" in store[i] && "_id" in store[j]
       && store[i]["_id"] == store[j]["_id"]) ==> i == j
  }

  /**
    Looking a stored product up by any string that parses as its ObjectId
    (lower- or upper-case hex) finds that product.
  */
  lemma LookupFindsStored(store: seq<Doc>, d: Doc, productId: string, oid: ObjectId)
    requires UniqueIds(store)
    requires d in store && "_id" in d && d["_id"] == Oid(oid)
    requires Parse(productId) == Some(oid)
    ensures GetProduct(store, true, productId) == ProjectProduct(WithPublicId(d))
  {
    var found := FindOne(store, oid).value;
    var i :| 0 <= i < |store| && store[i] == found;
    var j :| 0 <= j < |store| && store[j] == d;
  }

  /** A record projected from a stored document can be looked up by its `id`. */
  lemma LookupFindsProjection(store: seq<Doc>, d: Doc, o: ProductOut)
    requires UniqueIds(store)
    requires d in store && "_id" in d && d["_id"].Oid?
    requires ProjectProduct(WithPublicId(d)) == Some(o)
    ensures GetProduct(store, true, o.id) == Some(o)
  {
    var oid := d["_id"].oid;
    assert o.id == Render(oid);
    ParseRender(oid);
    LookupFindsStored(store, d, o.id, oid);
  }

  /** Every record the listing shows can be looked up by its `id` and comes back unchanged. */
  lemma ListedProductsLookUp(store: seq<Doc>, p: Query, items: seq<ProductOut>)
    requires UniqueIds(store)
    requires forall d: Doc :: d in store ==> "_id" in d && d["_id"].Oid?
    requires Listing(store, true, p) == Success(items)
    ensures forall i :: 0 <= i < |items| ==> GetProduct(store, true, items[i].id) == Some(items[i])
  {
    ListingSelects(store, true, p, items);
    forall i | 0 <= i < |items|
      ensures GetProduct(store, true, items[i].id) == Some(items[i])
    {
      var d: Doc :| d in store && Wanted(p, d) && ProjectProduct(WithPublicId(d)) == Some(items[i]);
      LookupFindsProjection(store, d, items[i]);
    }
  }
}
