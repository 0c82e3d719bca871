/**
  The catalogue endpoints: the product listing (search, category and price
  filters, a sort order and a result cap), the single-product lookup and the
  category listing. The store is a sequence of documents; `available` says
  whether a database connection exists at all.
*/
module Catalog {
  import opened Wrappers
  import opened ObjectIds
  import opened Documents
  import opened MongoQuery
  import opened Projection

  /** The listing's query parameters as the web framework hands them over. */
  datatype Query = Query(
    q: Option<string>,
    category: Option<string>,
    minPrice: Option<real>,
    maxPrice: Option<real>,
    sort: Option<string>,
    limit: int)

  datatype Error =
    | InvalidParameter   // a query parameter outside its declared bounds, rejected before the handler runs
    | InvalidDocument    // a stored document that fails projection, raised out of the handler

  const DefaultLimit := 24
  const MaxLimit := 100

  /** The parameters when none is given. */
  function DefaultQuery(): Query {
    Query(None, None, None, None, Some("popularity"), DefaultLimit)
  }

  /** The declared bounds: `1 <= limit <= 100`, and prices, when given, not negative. */
  predicate ParamsOk(p: Query) {
    && 1 <= p.limit <= MaxLimit
    && (p.minPrice.Some? ==> p.minPrice.value >= 0.0)
    && (p.maxPrice.Some? ==> p.maxPrice.value >= 0.0)
  }

  /** Python truthiness of an optional string: given and not empty. */
  predicate Given(s: Option<string>) {
    s.Some? && s.value != ""
  }

  // ----------------------------------------------------- the selection

  /** `q` occurs, ignoring case, in the title, the description or a tag of `d`. */
  predicate MentionsText(d: Doc, q: string) {
    || ("title" in d && ContainsText(d["title"], q, true))
    || ("description" in d && ContainsText(d["description"], q, true))
    || ("tags" in d && ContainsText(d["tags"], q, true))
  }

  /** What the listing is meant to select: every condition that is given holds of `d`. */
  predicate Wanted(p: Query, d: Doc) {
    && (Given(p.q) ==> MentionsText(d, p.q.value))
    && (Given(p.category) ==> "category" in d && EqualsText(d["category"], p.category.value))
    && (p.minPrice.Some? ==> "price" in d && AtLeast(d["price"], p.minPrice.value))
    && (p.maxPrice.Some? ==> "price" in d && AtMost(d["price"], p.maxPrice.value))
  }

  function Selector(p: Query): Doc -> bool {
    d => Wanted(p, d)
  }

  /** The `$or` clause for a search text. */
  function TextSearch(q: string): Clause {
    AnyOf([FieldRegex("title", Regex(q, "i")),
           FieldRegex("description", Regex(q, "i")),
           FieldRegex("tags", Regex(q, "i"))])
  }

  lemma TextSearchMeans(q: string, d: Doc)
    ensures ClauseHolds("$or", TextSearch(q), d) <==> MentionsText(d, q)
  {
    var bs := TextSearch(q).branches;
    assert 'i' in "i";
    if MentionsText(d, q) {
      if "title" in d && ContainsText(d["title"], q, true) {
        assert RegexHolds(d, bs[0]);
      } else if "description" in d && ContainsText(d["description"], q, true) {
        assert RegexHolds(d, bs[1]);
      } else {
        assert RegexHolds(d, bs[2]);
      }
    }
  }

  /** The price operators for the given bounds: `$gte` for a minimum, `$lte` for a maximum. */
  predicate PriceOps(ops: map<string, real>, p: Query) {
    && ops.Keys <= {"$gte", "$lte"}
    && ("$gte" in ops <==> p.minPrice.Some?)
    && ("$lte" in ops <==> p.maxPrice.Some?)
    && (p.minPrice.Some? ==> ops["$gte"] == p.minPrice.value)
    && (p.maxPrice.Some? ==> ops["$lte"] == p.maxPrice.value)
  }

  lemma PriceOpsMean(ops: map<string, real>, p: Query, d: Doc)
    requires PriceOps(ops, p) && (p.minPrice.Some? || p.maxPrice.Some?)
    ensures ClauseHolds("price", Compare(ops), d) <==>
      && (p.minPrice.Some? ==> "price" in d && AtLeast(d["price"], p.minPrice.value))
      && (p.maxPrice.Some? ==> "price" in d && AtMost(d["price"], p.maxPrice.value))
  {
    assert ops != map[] by {
      if p.minPrice.Some? { assert "$gte" in ops; } else { assert "$lte" in ops; }
    }
  }

  /** A filter with keys among three is the conjunction of the clauses it has. */
  lemma MatchesThreeKeys(flt: Filter, d: Doc)
    requires flt.Keys <= {"$or", "category", "price"}
    ensures Matches(flt, d) <==>
      && ("$or" in flt ==> ClauseHolds("$or", flt["$or"], d))
      && ("category" in flt ==> ClauseHolds("category", flt["category"], d))
      && ("price" in flt ==> ClauseHolds("price", flt["price"], d))
  {
  }

  /**
    The filter document of the listing, built key by key: a search text adds
    one `$or` over title, description and tags; a category adds an exact
    match; a minimum and/or maximum price add one price clause.
  */
  method BuildFilter(p: Query) returns (flt: Filter)
    ensures forall d :: Matches(flt, d) <==> Wanted(p, d)
    ensures flt.Keys <= {"$or", "category", "price"}
    ensures ("$or" in flt <==> Given(p.q)) && (Given(p.q) ==> flt["$or"] == TextSearch(p.q.value))
    ensures ("category" in flt <==> Given(p.category))
    ensures Given(p.category) ==> flt["category"] == Equals(p.category.value)
    ensures ("price" in flt <==> p.minPrice.Some? || p.maxPrice.Some?)
    ensures "price" in flt ==> flt["price"].Compare? && PriceOps(flt["price"].ops, p)
    ensures flt == map[] <==> !Given(p.q) && !Given(p.category) && p.minPrice.None? && p.maxPrice.None?
  {
    flt := map[];
    if Given(p.q) {
      flt := flt["$or" := TextSearch(p.q.value)];
    }
    if Given(p.category) {
      flt := flt["category" := Equals(p.category.value)];
    }
    if p.minPrice.Some? || p.maxPrice.Some? {
      var price: map<string, real> := map[];
      if p.minPrice.Some? {
        price := price["$gte" := p.minPrice.value];
      }
      if p.maxPrice.Some? {
        price := price["$lte" := p.maxPrice.value];
      }
      flt := flt["price" := Compare(price)];
    }
    assert flt == map[] <==> !Given(p.q) && !Given(p.category) && p.minPrice.None? && p.maxPrice.None? by {
      if Given(p.q) { assert "$or" in flt; }
      if Given(p.category) { assert "category" in flt; }
      if p.minPrice.Some? || p.maxPrice.Some? { assert "price" in flt; }
    }
    forall d
      ensures Matches(flt, d) <==> Wanted(p, d)
    {
      MatchesThreeKeys(flt, d);
      if Given(p.q) {
        TextSearchMeans(p.q.value, d);
      }
      if p.minPrice.Some? || p.maxPrice.Some? {
        PriceOpsMean(flt["price"].ops, p, d);
      }
    }
  }

  // ------------------------------------------------------- the order

  /** A sort field and direction. */
  datatype SortOrder = SortOrder(key: string, dir: Direction)

  /**
    The sort order a `sort` value names: `price_asc`, `price_desc` and
    `rating` have their own; every other value, `new`, `popularity` and no
    value among them, falls back to the most reviewed first.
  */
  function ResolveSort(sort: Option<string>): (o: SortOrder)
    ensures o.key in {"price", "rating", "reviews_count"}
    ensures sort == Some("price_asc") <==> o == SortOrder("price", Ascending)
    ensures sort == Some("price_desc") <==> o == SortOrder("price", Descending)
    ensures sort == Some("rating") <==> o == SortOrder("rating", Descending)
    ensures sort !in {Some("price_asc"), Some("price_desc"), Some("rating")}
            <==> o == SortOrder("reviews_count", Descending)
  {
    if sort == Some("price_asc") then SortOrder("price", Ascending)
    else if sort == Some("price_desc") then SortOrder("price", Descending)
    else if sort == Some("rating") then SortOrder("rating", Descending)
    else SortOrder("reviews_count", Descending)
  }

  // -------------------------------------------------- the projection

  /**
    Projects every document in order; the first one that fails validation
    fails the whole sequence.
  */
  function ProjectEach<T>(docs: seq<Doc>, validate: Doc -> Option<T>): (r: Result<seq<T>, Error>)
    ensures r.Success? <==> forall i :: 0 <= i < |docs| ==> validate(WithPublicId(docs[i])).Some?
    ensures r.Failure? ==> r.error == InvalidDocument
    ensures r.Success? ==> |r.value| == |docs|
    ensures r.Success? ==> forall i :: 0 <= i < |docs| ==> validate(WithPublicId(docs[i])) == Some(r.value[i])
  {
    if docs == [] then Success([])
    else
      match validate(WithPublicId(docs[0]))
      case None => Failure(InvalidDocument)
      case Some(x) =>
        match ProjectEach(docs[1..], validate)
        case Failure(e) => Failure(e)
        case Success(xs) =>
          assert forall i :: 1 <= i < |docs| ==> docs[i] == docs[1..][i - 1];
          Success([x] + xs)
  }

  /** `[Model(**_to_id_str(d)) for d in docs]`. */
  method ProjectAll<T>(docs: seq<Doc>, validate: Doc -> Option<T>) returns (r: Result<seq<T>, Error>)
    ensures r == ProjectEach(docs, validate)
  {
    var items: seq<T> := [];
    var i := 0;
    while i < |docs|
      invariant 0 <= i <= |docs|
      invariant |items| == i
      invariant forall j :: 0 <= j < i ==> validate(WithPublicId(docs[j])) == Some(items[j])
    {
      var d := ToIdStr(docs[i]);
      var item := validate(d);
      if item.None? {
        assert ProjectEach(docs, validate).Failure?;
        assert ProjectEach(docs, validate) == Failure(InvalidDocument);
        return Failure(InvalidDocument);
      }
      items := items + [item.value];
      i := i + 1;
    }
    r := Success(items);
    assert ProjectEach(docs, validate).Success?;
    assert forall j :: 0 <= j < |items| ==> ProjectEach(docs, validate).value[j] == items[j];
    assert ProjectEach(docs, validate).value == items;
  }

  // ---------------------------------------------------- the endpoints

  /** The documents a listing shows: the selection, in sort order, cut to `limit`. */
  function Page(store: seq<Doc>, p: Query): seq<Doc>
    requires ParamsOk(p)
  {
    var order := ResolveSort(p.sort);
    Take(SortBy(Where(store, Selector(p)), order.key, order.dir), p.limit)
  }

  /** What the product listing answers. */
  function Listing(store: seq<Doc>, available: bool, p: Query): Result<seq<ProductOut>, Error> {
    if !ParamsOk(p) then Failure(InvalidParameter)
    else if !available then Success([])
    else ProjectEach(Page(store, p), ProjectProduct)
  }

  /** `get_products`: filter, then sort, then limit, then project. */
  method GetProducts(store: seq<Doc>, available: bool, p: Query) returns (r: Result<seq<ProductOut>, Error>)
    ensures r == Listing(store, available, p)
    ensures r == Failure(InvalidParameter) <==> !ParamsOk(p)
    ensures ParamsOk(p) && !available ==> r == Success([])
    ensures r.Success? ==> |r.value| <= p.limit <= MaxLimit
  {
    if !ParamsOk(p) {
      return Failure(InvalidParameter);
    }
    if !available {
      return Success([]);
    }
    var flt := BuildFilter(p);
    var order := ResolveSort(p.sort);
    var cursor := Find(store, flt);
    WhereAgrees(store, Matcher(flt), Selector(p));
    if order.key != "" {
      cursor := SortBy(cursor, order.key, order.dir);
    }
    cursor := Take(cursor, p.limit);
    assert cursor == Page(store, p);
    r := ProjectAll(cursor, ProjectProduct);
  }

  /**
    `get_product`: absent when there is no database, when the identifier does
    not parse, when no document has it, or when the document fails projection.
  */
  function GetProduct(store: seq<Doc>, available: bool, productId: string): (r: Option<ProductOut>)
    ensures !available ==> r == None
    ensures Parse(productId).None? ==> r == None
    ensures Parse(productId).Some? && FindOne(store, Parse(productId).value).None? ==> r == None
    ensures available && Parse(productId).Some? && FindOne(store, Parse(productId).value).Some? ==>
      r == ProjectProduct(WithPublicId(FindOne(store, Parse(productId).value).value))
    ensures r.Some? ==> r.value.id == Render(Parse(productId).value)
    ensures r.Some? ==> exists d :: d in store && "_id" in d && d["_id"] == Oid(Parse(productId).value)
                                    && ProjectProduct(WithPublicId(d)) == r
  {
    if !available then None
    else
      match Parse(productId)
      case None => None
      case Some(oid) =>
        match FindOne(store, oid)
        case None => None
        case Some(doc) => if doc == map[] then None else ProjectProduct(WithPublicId(doc))
  }

  /** `get_categories`: every stored category in natural order, or an error if one fails projection. */
  method GetCategories(store: seq<Doc>, available: bool) returns (r: Result<seq<CategoryOut>, Error>)
    ensures !available ==> r == Success([])
    ensures available ==> r == ProjectEach(store, ProjectCategory)
    ensures available ==> (r.Success? <==> forall i :: 0 <= i < |store| ==> ProjectCategory(WithPublicId(store[i])).Some?)
    ensures r.Success? ==> |r.value| == (if available then |store| else 0)
    ensures r.Success? && available ==> forall i :: 0 <= i < |store| ==> ProjectCategory(WithPublicId(store[i])) == Some(r.value[i])
  {
    if !available {
      return Success([]);
    }
    r := ProjectAll(store, ProjectCategory);
  }
}
