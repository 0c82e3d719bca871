/** The demonstration catalogue the service seeds into an empty store, and what the listing selects from it. */
module CatalogExamples {
  import opened Wrappers
  import opened ObjectIds
  import opened Documents
  import opened MongoQuery
  import opened Catalog

  /** An ObjectId whose twelve bytes are all `k`; the store assigns the real ones on insert. */
  function SeedId(k: Byte): ObjectId {
    ObjectId(seq(12, _ => k))
  }

  function Sneakers(): Doc {
    map["_id" := Oid(SeedId(1)), "title" := Str("Кроссовки AirFlex X"),
        "description" := Str("Лёгкие, дышащие, для бега и прогулок"),
        "price" := Int(5999), "category" := Str("Обувь"), "brand" := Str("AirFlex"),
        "rating" := Float(4.7), "reviews_count" := Int(321), "in_stock" := Bool(true),
        "discount_percent" := Int(20), "images" := Array([Str("https://images.unsplash.com/photo-1608231387042-66d1773070a5?q=80&w=1200&auto=format&fit=crop")]),
        "colors" := Array([Str("Белый"), Str("Черный"), Str("Серый")]), "sizes" := Array([Str("38"), Str("39"), Str("40"), Str("41"), Str("42"), Str("43")]),
        "tags" := Array([Str("кроссовки"), Str("спорт")])]
  }

  function TShirt(): Doc {
    map["_id" := Oid(SeedId(2)), "title" := Str("Футболка Basic Cotton"),
        "description" := Str("100% хлопок, унисекс"),
        "price" := Int(899), "category" := Str("Одежда"), "brand" := Str("Cotty"),
        "rating" := Float(4.6), "reviews_count" := Int(1542), "in_stock" := Bool(true),
        "discount_percent" := Int(10), "images" := Array([Str("https://images.unsplash.com/photo-1541099649105-f69ad21f3246?q=80&w=1200&auto=format&fit=crop")]),
        "colors" := Array([Str("Белый"), Str("Черный"), Str("Синий")]), "sizes" := Array([Str("S"), Str("M"), Str("L"), Str("XL")]),
        "tags" := Array([Str("футболка"), Str("одежда")])]
  }

  function Headphones(): Doc {
    map["_id" := Oid(SeedId(3)), "title" := Str("Наушники Sonic Pro"),
        "description" := Str("Шумоподавление, до 40ч работы"),
        "price" := Int(7990), "category" := Str("Электроника"), "brand" := Str("Sonic"),
        "rating" := Float(4.8), "reviews_count" := Int(2134), "in_stock" := Bool(true),
        "discount_percent" := Int(15), "images" := Array([Str("https://images.unsplash.com/photo-1518443895914-05b7b8ad8b3e?q=80&w=1200&auto=format&fit=crop")]),
        "colors" := Array([Str("Черный")]), "sizes" := Array([]),
        "tags" := Array([Str("наушники"), Str("аудио")])]
  }

  function Vacuum(): Doc {
    map["_id" := Oid(SeedId(4)), "title" := Str("Робот-пылесос CleanMax"),
        "description" := Str("Лидар, влажная уборка, управление из приложения"),
        "price" := Int(19990), "category" := Str("Дом и дача"), "brand" := Str("CleanMax"),
        "rating" := Float(4.5), "reviews_count" := Int(624), "in_stock" := Bool(true),
        "discount_percent" := Int(30), "images" := Array([Str("https://images.unsplash.com/photo-1581578731548-c64695cc6952?q=80&w=1200&auto=format&fit=crop")]),
        "colors" := Array([Str("Белый")]), "sizes" := Array([]),
        "tags" := Array([Str("уборка"), Str("робот")])]
  }

  function SeedStore(): seq<Doc> {
    [Sneakers(), TShirt(), Headphones(), Vacuum()]
  }

  /** Case folding turns the capitalised title's first word into the lower-case search word. */
  lemma FoldedTitleStartsWithWord()
    ensures FoldAll("наушники") <= FoldAll("Наушники Sonic Pro")
  {
    var q, title := "наушники", "Наушники Sonic Pro";
    assert forall i :: 0 <= i < |q| ==> Fold(q[i]) == Fold(title[i]);
  }

  /** The headphones' title contains the word, ignoring case. */
  lemma TitleContainsWord()
    ensures ContainsText(Str("Наушники Sonic Pro"), "наушники", true)
  {
    FoldedTitleStartsWithWord();
    assert TextContains("Наушники Sonic Pro", "наушники", true);
  }

  lemma HeadphonesTitle()
    ensures "title" in Headphones() && Headphones()["title"] == Str("Наушники Sonic Pro")
  {}

  lemma HeadphonesMentionWord()
    ensures MentionsText(Headphones(), "наушники")
  {
    TitleContainsWord();
    HeadphonesTitle();
  }

  /** Searching a lower-case word finds the product whose title starts with it capitalised. */
  lemma SearchIgnoresCase()
    ensures Wanted(DefaultQuery().(q := Some("наушники")), Headphones())
  {
    HeadphonesMentionWord();
  }

  function ShoeQuery(): Query {
    DefaultQuery().(category := Some("Обувь"), minPrice := Some(1000.0), maxPrice := Some(10000.0))
  }

  /** Of four documents of which only the first is wanted, selection keeps the first. */
  lemma {:induction false} OnlyFirstSelected(p: Query, a: Doc, b: Doc, c: Doc, e: Doc)
    requires Wanted(p, a) && !Wanted(p, b) && !Wanted(p, c) && !Wanted(p, e)
    ensures Where([a, b, c, e], Selector(p)) == [a]
  {
    var s := [a, b, c, e];
    assert Where(s[3..], Selector(p)) == [];
    assert Where(s[2..], Selector(p)) == [];
    assert Where(s[1..], Selector(p)) == [];
  }

  lemma SneakersAreWantedShoes()
    ensures Wanted(ShoeQuery(), Sneakers())
  {}

  lemma OtherCategoryNotShoes(d: Doc, c: string)
    requires "category" in d && d["category"] == Str(c) && c != "Обувь"
    ensures !Wanted(ShoeQuery(), d)
  {
  }

  /** The other seed products are in other categories. */
  lemma OthersAreNotShoes()
    ensures !Wanted(ShoeQuery(), TShirt())
    ensures !Wanted(ShoeQuery(), Headphones())
    ensures !Wanted(ShoeQuery(), Vacuum())
  {
    assert TShirt()["category"] == Str("Одежда");
    OtherCategoryNotShoes(TShirt(), "Одежда");
    assert Headphones()["category"] == Str("Электроника");
    OtherCategoryNotShoes(Headphones(), "Электроника");
    assert Vacuum()["category"] == Str("Дом и дача");
    OtherCategoryNotShoes(Vacuum(), "Дом и дача");
  }

  /** Shoes priced 1000 to 10000: of the seed products only the sneakers qualify. */
  lemma ShoesInPriceRange()
    ensures Page(SeedStore(), ShoeQuery()) == [Sneakers()]
  {
    SneakersAreWantedShoes();
    OthersAreNotShoes();
    OnlyFirstSelected(ShoeQuery(), Sneakers(), TShirt(), Headphones(), Vacuum());
  }

  lemma SeedPopularity()
    ensures KeyOf(Sneakers(), "reviews_count") == Number(321.0)
    ensures KeyOf(TShirt(), "reviews_count") == Number(1542.0)
    ensures KeyOf(Headphones(), "reviews_count") == Number(2134.0)
    ensures KeyOf(Vacuum(), "reviews_count") == Number(624.0)
  {
    assert Sneakers()["reviews_count"] == Int(321);
    assert TShirt()["reviews_count"] == Int(1542);
    assert Headphones()["reviews_count"] == Int(2134);
    assert Vacuum()["reviews_count"] == Int(624);
  }

  /**
    Four documents whose review counts are 321, 1542, 2134 and 624, inserted
    one at a time, end up most-reviewed first.
  */
  lemma {:induction false} SortFourByPopularity(a: Doc, b: Doc, c: Doc, e: Doc)
    requires KeyOf(a, "reviews_count") == Number(321.0) && KeyOf(b, "reviews_count") == Number(1542.0)
    requires KeyOf(c, "reviews_count") == Number(2134.0) && KeyOf(e, "reviews_count") == Number(624.0)
    ensures SortBy([a, b, c, e], "reviews_count", Descending) == [c, b, e, a]
  {
    var key, dir := "reviews_count", Descending;
    var s := [a, b, c, e];
    assert SortBy(s[1..], key, dir) == [c, b, e] by {
      assert SortBy(s[3..], key, dir) == [e];
      assert Insert(c, [e], key, dir) == [c, e];
      assert Insert(b, [e], key, dir) == [b, e];
    }
    assert Insert(a, [e], key, dir) == [e, a];
    assert Insert(a, [b, e], key, dir) == [b, e, a];
  }

  /** Sorting the seed products by review count, most first. */
  lemma SeedByPopularity()
    ensures SortBy(SeedStore(), "reviews_count", Descending) == [Headphones(), TShirt(), Vacuum(), Sneakers()]
  {
    SeedPopularity();
    SortFourByPopularity(Sneakers(), TShirt(), Headphones(), Vacuum());
  }

  /** With no parameters the seed products come most-reviewed first. */
  lemma DefaultListingOrder()
    ensures Page(SeedStore(), DefaultQuery()) == [Headphones(), TShirt(), Vacuum(), Sneakers()]
  {
    var p := DefaultQuery();
    assert ResolveSort(p.sort) == SortOrder("reviews_count", Descending);
    assert Where(SeedStore(), Selector(p)) == SeedStore() by {
      WhereAll(SeedStore(), Selector(p));
    }
    SeedByPopularity();
  }
}
