/** The seeded sneakers as the product listing publishes them. */
module SeedListing {
  import opened Wrappers
  import opened ObjectIds
  import opened Documents
  import opened Projection
  import opened Catalog
  import opened CatalogExamples

  /**
    A document storing every field of `o` under `_id` `oid` publishes `o`:
    each of the fourteen public fields is read back from the stored value.
  */
  lemma {:induction false} StoredProductPublishes(d: Doc, oid: ObjectId, o: ProductOut)
    requires "_id" in d && d["_id"] == Oid(oid) && o.id == Render(oid)
    requires "title" in d && d["title"] == Str(o.title)
    requires "category" in d && d["category"] == Str(o.category)
    requires "price" in d && AsFloat(d["price"]) == Some(o.price)
    requires "rating" in d && AsFloat(d["rating"]) == Some(o.rating)
    requires "reviews_count" in d && AsInt(d["reviews_count"]) == Some(o.reviewsCount)
    requires "description" in d && AsOptStr(d["description"]) == Some(o.description)
    requires "brand" in d && AsOptStr(d["brand"]) == Some(o.brand)
    requires "images" in d && AsStrList(d["images"]) == Some(o.images)
    requires "colors" in d && AsStrList(d["colors"]) == Some(o.colors)
    requires "sizes" in d && AsStrList(d["sizes"]) == Some(o.sizes)
    requires "in_stock" in d && d["in_stock"] == Bool(o.inStock)
    requires "discount_percent" in d && AsFloat(d["discount_percent"]) == Some(o.discountPercent)
    requires "tags" in d && AsStrList(d["tags"]) == Some(o.tags)
    ensures ProjectProduct(WithPublicId(d)) == Some(o)
  {
    var w := WithPublicId(d);
    ProjectProductAccepts(w);
  }

  /** The sneakers as the product listing publishes them. */
  function SneakersOut(): ProductOut {
    ProductOut(Render(SeedId(1)), "Кроссовки AirFlex X", Some("Лёгкие, дышащие, для бега и прогулок"),
               5999.0, "Обувь", Some("AirFlex"), 4.7, 321,
               ["https://images.unsplash.com/photo-1608231387042-66d1773070a5?q=80&w=1200&auto=format&fit=crop"],
               ["Белый", "Черный", "Серый"], ["38", "39", "40", "41", "42", "43"], true, 20.0,
               ["кроссовки", "спорт"])
  }

  lemma SneakersNames()
    ensures "_id" in Sneakers() && Sneakers()["_id"] == Oid(SeedId(1))
    ensures "title" in Sneakers() && Sneakers()["title"] == Str(SneakersOut().title)
    ensures "category" in Sneakers() && Sneakers()["category"] == Str(SneakersOut().category)
  {
  }

  /** The integer price and discount read as the floats the record publishes. */
  lemma SneakersNumbers()
    ensures "price" in Sneakers() && AsFloat(Sneakers()["price"]) == Some(SneakersOut().price)
    ensures "rating" in Sneakers() && AsFloat(Sneakers()["rating"]) == Some(SneakersOut().rating)
    ensures "reviews_count" in Sneakers() && AsInt(Sneakers()["reviews_count"]) == Some(SneakersOut().reviewsCount)
    ensures "discount_percent" in Sneakers()
         && AsFloat(Sneakers()["discount_percent"]) == Some(SneakersOut().discountPercent)
  {
    assert Sneakers()["price"] == Int(5999);
    assert Sneakers()["rating"] == Float(4.7);
    assert Sneakers()["reviews_count"] == Int(321);
    assert Sneakers()["discount_percent"] == Int(20);
  }

  lemma SneakersDetails()
    ensures "description" in Sneakers() && AsOptStr(Sneakers()["description"]) == Some(SneakersOut().description)
    ensures "brand" in Sneakers() && AsOptStr(Sneakers()["brand"]) == Some(SneakersOut().brand)
    ensures "in_stock" in Sneakers() && Sneakers()["in_stock"] == Bool(SneakersOut().inStock)
  {
    assert Sneakers()["description"] == Str(SneakersOut().description.value);
    assert Sneakers()["brand"] == Str("AirFlex");
  }

  /** Values that are the strings `xs`, one by one, read back as `xs`. */
  lemma StringValuesRead(items: seq<Value>, xs: seq<string>)
    requires |items| == |xs| && forall i :: 0 <= i < |xs| ==> items[i] == Str(xs[i])
    ensures AsStrList(Array(items)) == Some(xs)
  {
    var r := AsStrings(items);
    assert forall i :: 0 <= i < |items| ==> items[i].Str?;
    assert r.Some? && |r.value| == |xs|;
    assert forall i :: 0 <= i < |xs| ==> r.value[i] == xs[i];
    assert r.value == xs;
    assert AsStrList(Array(items)) == r;
  }

  lemma SneakersListValues()
    ensures "images" in Sneakers() && "colors" in Sneakers() && "sizes" in Sneakers() && "tags" in Sneakers()
    ensures Sneakers()["images"] == Array([Str(SneakersOut().images[0])])
    ensures Sneakers()["colors"] == Array([Str("Белый"), Str("Черный"), Str("Серый")])
    ensures Sneakers()["sizes"] == Array([Str("38"), Str("39"), Str("40"), Str("41"), Str("42"), Str("43")])
    ensures Sneakers()["tags"] == Array([Str("кроссовки"), Str("спорт")])
  {
  }

  lemma SneakersLists()
    ensures AsStrList(Array([Str(SneakersOut().images[0])])) == Some(SneakersOut().images)
    ensures AsStrList(Array([Str("Белый"), Str("Черный"), Str("Серый")])) == Some(SneakersOut().colors)
    ensures AsStrList(Array([Str("38"), Str("39"), Str("40"), Str("41"), Str("42"), Str("43")]))
         == Some(SneakersOut().sizes)
    ensures AsStrList(Array([Str("кроссовки"), Str("спорт")])) == Some(SneakersOut().tags)
  {
    var o := SneakersOut();
    StringValuesRead([Str(o.images[0])], o.images);
    StringValuesRead([Str("Белый"), Str("Черный"), Str("Серый")], o.colors);
    StringValuesRead([Str("38"), Str("39"), Str("40"), Str("41"), Str("42"), Str("43")], o.sizes);
    StringValuesRead([Str("кроссовки"), Str("спорт")], o.tags);
  }

  /** The seeded sneakers pass `ProductOut` with the values the seed stores. */
  lemma SneakersPublish()
    ensures ProjectProduct(WithPublicId(Sneakers())) == Some(SneakersOut())
  {
    SneakersNames();
    SneakersNumbers();
    SneakersDetails();
    SneakersListValues();
    SneakersLists();
    StoredProductPublishes(Sneakers(), SeedId(1), SneakersOut());
  }

  /** A page of one document that projects lists its projection alone. */
  lemma {:induction false} SingleDocumentListed(store: seq<Doc>, p: Query, d: Doc, o: ProductOut)
    requires ParamsOk(p) && Page(store, p) == [d] && ProjectProduct(WithPublicId(d)) == Some(o)
    ensures Listing(store, true, p) == Success([o])
  {
    var r := ProjectEach(Page(store, p), ProjectProduct);
    assert r.Success? && |r.value| == 1 && r.value[0] == o;
    assert r.value == [o];
  }

  /** The shoe listing succeeds and publishes the sneakers alone. */
  lemma ShoeListing()
    ensures Listing(SeedStore(), true, ShoeQuery()) == Success([SneakersOut()])
  {
    ShoesInPriceRange();
    SneakersPublish();
    SingleDocumentListed(SeedStore(), ShoeQuery(), Sneakers(), SneakersOut());
  }
}
