/**
  The collection schemas: the fields a product or a category document must
  carry, the defaults of the optional ones and the numeric bounds.
*/
module Schemas {
  import opened Wrappers
  import opened Documents

  datatype Product = Product(
    title: string,
    description: Option<string>,
    price: real,
    category: string,
    brand: Option<string>,
    rating: real,
    reviewsCount: int,
    images: seq<string>,
    colors: seq<string>,
    sizes: seq<string>,
    inStock: bool,
    discountPercent: real,
    tags: seq<string>)

  datatype Category = Category(name: string, slug: string, icon: Option<string>)

  const DefaultRating: real := 4.5
  const MaxRating: real := 5.0
  const MaxDiscount: real := 95.0

  /** The `ge`/`le` bounds of the product schema. */
  predicate ValidProduct(p: Product) {
    && p.price >= 0.0
    && 0.0 <= p.rating <= MaxRating
    && p.reviewsCount >= 0
    && 0.0 <= p.discountPercent <= MaxDiscount
  }

  /** A product built from its three required fields, every other field at its default. */
  function NewProduct(title: string, price: real, category: string): (p: Product)
    ensures ValidProduct(p) <==> price >= 0.0
  {
    Product(title, None, price, category, None, DefaultRating, 0, [], [], [], true, 0.0, [])
  }

  /**
    The eight fields both the collection schema and the public record declare
    with a default: each one that is present has its declared type.
  */
  predicate OptionalsTyped(d: Doc) {
    && ("description" in d ==> AsOptStr(d["description"]).Some?)
    && ("brand" in d ==> AsOptStr(d["brand"]).Some?)
    && ("images" in d ==> AsStrList(d["images"]).Some?)
    && ("colors" in d ==> AsStrList(d["colors"]).Some?)
    && ("sizes" in d ==> AsStrList(d["sizes"]).Some?)
    && ("in_stock" in d ==> d["in_stock"].Bool?)
    && ("discount_percent" in d ==> AsFloat(d["discount_percent"]).Some?)
    && ("tags" in d ==> AsStrList(d["tags"]).Some?)
  }

  /** The values of those eight fields: what the document stores, or the default where it stores nothing. */
  predicate OptionalsRead(d: Doc, description: Option<string>, brand: Option<string>,
                          images: seq<string>, colors: seq<string>, sizes: seq<string>,
                          inStock: bool, discountPercent: real, tags: seq<string>) {
    && (if "description" in d then AsOptStr(d["description"]) == Some(description) else description == None)
    && (if "brand" in d then AsOptStr(d["brand"]) == Some(brand) else brand == None)
    && (if "images" in d then AsStrList(d["images"]) == Some(images) else images == [])
    && (if "colors" in d then AsStrList(d["colors"]) == Some(colors) else colors == [])
    && (if "sizes" in d then AsStrList(d["sizes"]) == Some(sizes) else sizes == [])
    && (if "in_stock" in d then d["in_stock"] == Bool(inStock) else inStock)
    && (if "discount_percent" in d then AsFloat(d["discount_percent"]) == Some(discountPercent)
        else discountPercent == 0.0)
    && (if "tags" in d then AsStrList(d["tags"]) == Some(tags) else tags == [])
  }

  /** `OptionalsRead` for the optional fields of a product. */
  predicate ProductOptionalsRead(d: Doc, p: Product) {
    OptionalsRead(d, p.description, p.brand, p.images, p.colors, p.sizes, p.inStock, p.discountPercent, p.tags)
  }

  /**
    The product fields of a document, each checked for its declared type and
    taken from the document or, when missing, from its default; no bounds yet.
  */
  function ProductFields(d: Doc): (r: Option<Product>)
    ensures r.Some? ==> "title" in d && "category" in d && "price" in d
                        && d["title"] == Str(r.value.title) && d["category"] == Str(r.value.category)
                        && AsFloat(d["price"]) == Some(r.value.price)
    ensures r.Some? ==> (if "rating" in d then AsFloat(d["rating"]) == Some(r.value.rating)
                         else r.value.rating == DefaultRating)
    ensures r.Some? ==> (if "reviews_count" in d then AsInt(d["reviews_count"]) == Some(r.value.reviewsCount)
                         else r.value.reviewsCount == 0)
    ensures r.Some? ==> ProductOptionalsRead(d, r.value)
  {
    var title :- Required(d, "title", AsStr);
    var description :- Defaulted(d, "description", AsOptStr, None);
    var price :- Required(d, "price", AsFloat);
    var category :- Required(d, "category", AsStr);
    var brand :- Defaulted(d, "brand", AsOptStr, None);
    var rating :- Defaulted(d, "rating", AsFloat, DefaultRating);
    var reviewsCount :- Defaulted(d, "reviews_count", AsInt, 0);
    var images :- Defaulted(d, "images", AsStrList, []);
    var colors :- Defaulted(d, "colors", AsStrList, []);
    var sizes :- Defaulted(d, "sizes", AsStrList, []);
    var inStock :- Defaulted(d, "in_stock", AsBool, true);
    var discountPercent :- Defaulted(d, "discount_percent", AsFloat, 0.0);
    var tags :- Defaulted(d, "tags", AsStrList, []);
    Some(Product(title, description, price, category, brand, rating, reviewsCount,
                 images, colors, sizes, inStock, discountPercent, tags))
  }

  /** The product fields are accepted exactly when every required field is present and every present field has its type. */
  lemma ProductFieldsAccepts(d: Doc)
    ensures ProductFields(d).Some? <==>
      && "title" in d && d["title"].Str?
      && "price" in d && AsFloat(d["price"]).Some?
      && "category" in d && d["category"].Str?
      && ("rating" in d ==> AsFloat(d["rating"]).Some?)
      && ("reviews_count" in d ==> AsInt(d["reviews_count"]).Some?)
      && OptionalsTyped(d)
  {
  }

  /**
    Validation of a document against the product schema: `None` where the
    schema raises a validation error. Fields the schema does not declare are
    ignored.
  */
  function ParseProduct(d: Doc): (r: Option<Product>)
    ensures r.Some? ==> ValidProduct(r.value)
    ensures ("title" !in d || "price" !in d || "category" !in d) ==> r.None?
    ensures r.Some? ==> d["title"] == Str(r.value.title) && d["category"] == Str(r.value.category)
    ensures r.Some? ==> AsFloat(d["price"]) == Some(r.value.price)
    ensures r.Some? ==> (if "rating" in d then AsFloat(d["rating"]) == Some(r.value.rating)
                         else r.value.rating == DefaultRating)
    ensures r.Some? ==> (if "reviews_count" in d then AsInt(d["reviews_count"]) == Some(r.value.reviewsCount)
                         else r.value.reviewsCount == 0)
    ensures r.Some? ==> ProductOptionalsRead(d, r.value)
  {
    var p :- ProductFields(d);
    if ValidProduct(p) then Some(p) else None
  }

  /**
    Validation accepts exactly the documents whose product fields are
    accepted and whose stored numbers are within the schema's bounds.
  */
  lemma ParseProductAccepts(d: Doc)
    ensures ParseProduct(d).Some? <==>
      && "title" in d && d["title"].Str?
      && "price" in d && AsFloat(d["price"]).Some?
      && "category" in d && d["category"].Str?
      && ("rating" in d ==> AsFloat(d["rating"]).Some?)
      && ("reviews_count" in d ==> AsInt(d["reviews_count"]).Some?)
      && OptionalsTyped(d)
      && AsFloat(d["price"]).value >= 0.0
      && ("rating" in d ==> 0.0 <= AsFloat(d["rating"]).value <= MaxRating)
      && ("reviews_count" in d ==> AsInt(d["reviews_count"]).value >= 0)
      && ("discount_percent" in d ==> 0.0 <= AsFloat(d["discount_percent"]).value <= MaxDiscount)
  {
    ProductFieldsAccepts(d);
  }

  /** The document a product is stored as: every schema field under its own name. */
  function ProductDocument(p: Product): Doc {
    map[
      "title" := Str(p.title),
      "description" := OptStr(p.description),
      "price" := Float(p.price),
      "category" := Str(p.category),
      "brand" := OptStr(p.brand),
      "rating" := Float(p.rating),
      "reviews_count" := Int(p.reviewsCount),
      "images" := StrArray(p.images),
      "colors" := StrArray(p.colors),
      "sizes" := StrArray(p.sizes),
      "in_stock" := Bool(p.inStock),
      "discount_percent" := Float(p.discountPercent),
      "tags" := StrArray(p.tags)
    ]
  }

  lemma ScalarFieldsRead(p: Product)
    ensures var d := ProductDocument(p);
      && Required(d, "title", AsStr) == Some(p.title)
      && Defaulted(d, "description", AsOptStr, None) == Some(p.description)
      && Required(d, "price", AsFloat) == Some(p.price)
      && Required(d, "category", AsStr) == Some(p.category)
      && Defaulted(d, "brand", AsOptStr, None) == Some(p.brand)
      && Defaulted(d, "rating", AsFloat, DefaultRating) == Some(p.rating)
      && Defaulted(d, "reviews_count", AsInt, 0) == Some(p.reviewsCount)
      && Defaulted(d, "in_stock", AsBool, true) == Some(p.inStock)
      && Defaulted(d, "discount_percent", AsFloat, 0.0) == Some(p.discountPercent)
  {
  }

  lemma ListFieldsRead(p: Product)
    ensures var d := ProductDocument(p);
      && Defaulted(d, "images", AsStrList, []) == Some(p.images)
      && Defaulted(d, "colors", AsStrList, []) == Some(p.colors)
      && Defaulted(d, "sizes", AsStrList, []) == Some(p.sizes)
      && Defaulted(d, "tags", AsStrList, []) == Some(p.tags)
  {
  }

  /** A stored product reads back as itself exactly when it is within the schema's bounds. */
  lemma ProductRoundTrip(p: Product)
    ensures ParseProduct(ProductDocument(p)) == (if ValidProduct(p) then Some(p) else None)
  {
    ScalarFieldsRead(p);
    ListFieldsRead(p);
  }

  /** A document holding only the required fields gets every default. */
  lemma MinimalProductDefaults(title: string, price: real, category: string)
    ensures ParseProduct(map["title" := Str(title), "price" := Float(price), "category" := Str(category)])
         == (if price >= 0.0 then Some(NewProduct(title, price, category)) else None)
  {
  }

  /** Validation of a document against the category schema; `icon` defaults to absent. */
  function ParseCategory(d: Doc): (r: Option<Category>)
    ensures r.Some? <==>
      && "name" in d && d["name"].Str?
      && "slug" in d && d["slug"].Str?
      && ("icon" in d ==> d["icon"].Null? || d["icon"].Str?)
    ensures r.Some? ==> d["name"] == Str(r.value.name) && d["slug"] == Str(r.value.slug)
    ensures r.Some? ==> if "icon" in d then AsOptStr(d["icon"]) == Some(r.value.icon) else r.value.icon == None
  {
    var name :- Required(d, "name", AsStr);
    var slug :- Required(d, "slug", AsStr);
    var icon :- Defaulted(d, "icon", AsOptStr, None);
    Some(Category(name, slug, icon))
  }
}
