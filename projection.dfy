/**
  The public record shapes of the service and the step that turns a stored
  document into one: the internal `_id` is moved into a string `id`, then the
  map is validated against the output shape. Unlike the collection schema,
  the output shape declares `rating` and `reviews_count` without defaults
  and checks no numeric bounds.
*/
module Projection {
  import opened Wrappers
  import opened ObjectIds
  import opened Documents
  import Schemas

  datatype ProductOut = ProductOut(
    id: string,
    title: string,
    description: Option<string>,
    price: real,
    category: string,
    brand: Option<string>,
    rating: real,
    reviewsCount: int,
    images: seq<string>,
    colors: seq<string>,
    sizes: seq<string>,
    inStock: bool,
    discountPercent: real,
    tags: seq<string>)

  datatype CategoryOut = CategoryOut(id: string, name: string, slug: string, icon: Option<string>)

  /** The document has an `_id` that Python treats as true. */
  predicate HasTruthyId(doc: Doc) {
    "_id" in doc && Truthy(doc["_id"])
  }

  /**
    A copy of `doc` in which a truthy `_id` has been replaced by `id`, its
    string form; without one the copy equals `doc`.
  */
  function WithPublicId(doc: Doc): (r: Doc)
    ensures HasTruthyId(doc) ==> "id" in r && r["id"] == Str(PyStr(doc["_id"])) && "_id" !in r
    ensures HasTruthyId(doc) ==> r.Keys == doc.Keys - {"_id"} + {"id"}
    ensures !HasTruthyId(doc) ==> r == doc
    ensures forall k :: k != "_id" && k != "id" ==> (k in r <==> k in doc) && (k in r ==> r[k] == doc[k])
  {
    if HasTruthyId(doc) then (doc - {"_id"})["id" := Str(PyStr(doc["_id"]))] else doc
  }

  /** `_to_id_str`: copies the document, then pops `_id` into `id`. */
  method ToIdStr(doc: Doc) returns (d: Doc)
    ensures d == WithPublicId(doc)
  {
    d := doc;
    var id := if "_id" in d then d["_id"] else Null;
    if Truthy(id) {
      d := d - {"_id"};
      d := d["id" := Str(PyStr(id))];
    }
  }

  /** The identifier of a document whose `_id` is an ObjectId reads back as that ObjectId. */
  lemma PublicIdRoundTrip(doc: Doc, oid: ObjectId)
    requires "_id" in doc && doc["_id"] == Oid(oid)
    ensures "id" in WithPublicId(doc) && WithPublicId(doc)["id"].Str?
    ensures Parse(WithPublicId(doc)["id"].s) == Some(oid)
  {
  }

  /**
    `ProductOut(**d)`: `None` where validation raises. Fields the shape does
    not declare, a leftover `_id` among them, are ignored.
  */
  function ProjectProduct(d: Doc): (r: Option<ProductOut>)
    ensures ("id" !in d || "title" !in d || "price" !in d || "category" !in d
             || "rating" !in d || "reviews_count" !in d) ==> r.None?
    ensures r.Some? ==> d["id"] == Str(r.value.id) && d["title"] == Str(r.value.title)
                        && d["category"] == Str(r.value.category)
    ensures r.Some? ==> NumberOf(d["price"]) == Some(r.value.price)
                        && NumberOf(d["rating"]) == Some(r.value.rating)
                        && NumberOf(d["reviews_count"]) == Some(r.value.reviewsCount as real)
    ensures r.Some? ==> AsInt(d["reviews_count"]) == Some(r.value.reviewsCount)
    ensures r.Some? ==> Schemas.OptionalsRead(d, r.value.description, r.value.brand, r.value.images, r.value.colors,
                                               r.value.sizes, r.value.inStock, r.value.discountPercent, r.value.tags)
  {
    var id :- Required(d, "id", AsStr);
    // declared without defaults here, unlike the collection schema
    var _ :- Required(d, "rating", AsFloat);
    var _ :- Required(d, "reviews_count", AsInt);
    var p :- Schemas.ProductFields(d);
    Some(Publish(id, p))
  }

  /**
    `ProductOut(**d)` succeeds exactly when id, title, price, category, rating
    and reviews_count are present with their types and every optional field
    that is present has its type.
  */
  lemma ProjectProductAccepts(d: Doc)
    ensures ProjectProduct(d).Some? <==>
      && "id" in d && d["id"].Str?
      && "title" in d && d["title"].Str?
      && "price" in d && AsFloat(d["price"]).Some?
      && "category" in d && d["category"].Str?
      && "rating" in d && AsFloat(d["rating"]).Some?
      && "reviews_count" in d && AsInt(d["reviews_count"]).Some?
      && Schemas.OptionalsTyped(d)
  {
    Schemas.ProductFieldsAccepts(d);
  }

  /** `CategoryOut(**d)`: `None` where validation raises. */
  function ProjectCategory(d: Doc): (r: Option<CategoryOut>)
    ensures r.Some? <==>
      && "id" in d && d["id"].Str?
      && "name" in d && d["name"].Str?
      && "slug" in d && d["slug"].Str?
      && ("icon" in d ==> d["icon"].Null? || d["icon"].Str?)
    ensures r.Some? ==> d["id"] == Str(r.value.id) && d["name"] == Str(r.value.name)
                        && d["slug"] == Str(r.value.slug)
    ensures r.Some? ==> if "icon" in d then AsOptStr(d["icon"]) == Some(r.value.icon) else r.value.icon == None
  {
    var id :- Required(d, "id", AsStr);
    var name :- Required(d, "name", AsStr);
    var slug :- Required(d, "slug", AsStr);
    var icon :- Defaulted(d, "icon", AsOptStr, None);
    Some(CategoryOut(id, name, slug, icon))
  }

  /** The public record of a schema-valid product stored under identifier string `id`. */
  function Publish(id: string, p: Schemas.Product): ProductOut {
    ProductOut(id, p.title, p.description, p.price, p.category, p.brand, p.rating, p.reviewsCount,
               p.images, p.colors, p.sizes, p.inStock, p.discountPercent, p.tags)
  }

  /** Two documents that agree on every key but `_id` and `id`. */
  ghost predicate AgreeBesideIds(d: Doc, doc: Doc) {
    forall k :: k != "_id" && k != "id" ==> (k in d <==> k in doc) && (k in d ==> d[k] == doc[k])
  }

  lemma ScalarFieldsAgree(doc: Doc, d: Doc)
    requires AgreeBesideIds(d, doc)
    ensures Required(d, "title", AsStr) == Required(doc, "title", AsStr)
    ensures Defaulted(d, "description", AsOptStr, None) == Defaulted(doc, "description", AsOptStr, None)
    ensures Required(d, "price", AsFloat) == Required(doc, "price", AsFloat)
    ensures Required(d, "category", AsStr) == Required(doc, "category", AsStr)
    ensures Defaulted(d, "brand", AsOptStr, None) == Defaulted(doc, "brand", AsOptStr, None)
    ensures Defaulted(d, "rating", AsFloat, Schemas.DefaultRating) == Defaulted(doc, "rating", AsFloat, Schemas.DefaultRating)
    ensures Defaulted(d, "reviews_count", AsInt, 0) == Defaulted(doc, "reviews_count", AsInt, 0)
  {
    assert "title" != "_id" && "title" != "id";
  }

  lemma OtherFieldsAgree(doc: Doc, d: Doc)
    requires AgreeBesideIds(d, doc)
    ensures Defaulted(d, "images", AsStrList, []) == Defaulted(doc, "images", AsStrList, [])
    ensures Defaulted(d, "colors", AsStrList, []) == Defaulted(doc, "colors", AsStrList, [])
    ensures Defaulted(d, "sizes", AsStrList, []) == Defaulted(doc, "sizes", AsStrList, [])
    ensures Defaulted(d, "in_stock", AsBool, true) == Defaulted(doc, "in_stock", AsBool, true)
    ensures Defaulted(d, "discount_percent", AsFloat, 0.0) == Defaulted(doc, "discount_percent", AsFloat, 0.0)
    ensures Defaulted(d, "tags", AsStrList, []) == Defaulted(doc, "tags", AsStrList, [])
  {
  }

  /** Decoding the product fields looks at no key but the schema's own. */
  lemma ProductFieldsIgnoreIds(doc: Doc, d: Doc)
    requires AgreeBesideIds(d, doc)
    ensures Schemas.ProductFields(d) == Schemas.ProductFields(doc)
  {
    ScalarFieldsAgree(doc, d);
    OtherFieldsAgree(doc, d);
  }

  /**
    A document the collection schema accepts projects to the same field values,
    provided it carries an ObjectId and stores `rating` and `reviews_count`
    explicitly.
  */
  lemma SchemaDocumentProjects(doc: Doc, oid: ObjectId, p: Schemas.Product)
    requires "_id" in doc && doc["_id"] == Oid(oid)
    requires Schemas.ParseProduct(doc) == Some(p)
    requires "rating" in doc && "reviews_count" in doc
    ensures ProjectProduct(WithPublicId(doc)) == Some(Publish(Render(oid), p))
  {
    var d := WithPublicId(doc);
    ProductFieldsIgnoreIds(doc, d);
  }

  /**
    The collection schema's defaults for `rating` and `reviews_count` do not
    carry over: a stored document that the schema accepts, holding only the
    required fields, fails projection.
  */
  lemma SchemaDefaultsDoNotProject(title: string, price: real, category: string, oid: ObjectId)
    requires price >= 0.0
    ensures var doc := map["title" := Str(title), "price" := Float(price), "category" := Str(category), "_id" := Oid(oid)];
      && Schemas.ParseProduct(doc) == Some(Schemas.NewProduct(title, price, category))
      && ProjectProduct(WithPublicId(doc)) == None
  {
    var minimal := map["title" := Str(title), "price" := Float(price), "category" := Str(category)];
    var doc := minimal["_id" := Oid(oid)];
    assert doc == map["title" := Str(title), "price" := Float(price), "category" := Str(category), "_id" := Oid(oid)];
    Schemas.MinimalProductDefaults(title, price, category);
    ProductFieldsIgnoreIds(minimal, doc);
    assert "rating" !in WithPublicId(doc);
  }
}
