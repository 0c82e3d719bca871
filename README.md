# Store API catalogue — a Dafny model

This is a model of the read side of a small shop's HTTP API. The shop stores products and
categories as documents in a document database. The API serves three endpoints:

- the product listing (`GET /api/products`), with
  - a case-insensitive search over title, description and tags;
  - an exact category match;
  - an inclusive price range;
  - one of four sort orders (`price_asc`, `price_desc`, `rating`; any other value, `new` and
    `popularity` included, sorts by review count, most first);
  - a result cap between 1 and 100;
- the single-product lookup by the hexadecimal form of its ObjectId (`GET /api/products/{id}`);
- the category listing (`GET /api/categories`).

Every returned document first passes through `_to_id_str`. It replaces a truthy `_id` with its
string form under `id`. It is then validated into the response shape (`ProductOut` or
`CategoryOut`). The collection schemas `Product` and `Category` give the stored fields, their
defaults and their bounds.

Modules, one per file:

| file | module | what it holds |
|---|---|---|
| `wrappers.dfy` | `Wrappers` | `Option` and `Result` |
| `object_ids.dfy` | `ObjectIds` | twelve-byte ObjectIds, their 24-digit lower-case hex form, and the parse that inverts it |
| `documents.dfy` | `Documents` | stored values and documents, truthiness, `str()` of a value, and the validators for the typed fields (string, optional string, float, int, bool, list of strings) |
| `schemas.dfy` | `Schemas` | the two collection schemas: constructor with defaults, validation with bounds, and the round trip |
| `mongo_query.dfy` | `MongoQuery` | the meaning of the filter documents the listing builds, `find`, `find_one`, the single-key sort, and `limit` |
| `projection.dfy` | `Projection` | `_to_id_str` and the two response shapes |
| `catalog.dfy` | `Catalog` | the three endpoints |
| `catalog_properties.dfy` | `CatalogProperties` | what the endpoints promise across calls |
| `catalog_examples.dfy` | `CatalogExamples` | the seeded demonstration catalogue, with concrete selections from it |
| `seed_listing.dfy` | `SeedListing` | the seeded sneakers as the listing publishes them, and the shoe listing that returns them |

The store is a sequence of documents, in insertion order. The parameter `available` says
whether a database connection exists. Without one, both listings are empty and the lookup
finds nothing.

Two behaviours of the code are worth stating outright:

- A listed product document that fails `ProductOut` validation makes the whole listing fail
  (`Failure(InvalidDocument)`), because the list comprehension raises. It is not skipped.
  `CatalogProperties.BadDocumentFailsListing` states this.
- `title` must be a string but may be empty. No bound in the schema excludes `""`.

## Model

| member | source | states |
|---|---|---|
| ObjectIds.HexDigit | main.py:84 | each digit of the printed id reads back as the value it encodes, and is lower case |
| ObjectIds.UnhexHex | main.py:243 | decoding the hex form of any byte string gives those bytes back |
| ObjectIds.ParseRender | main.py:243 | `ObjectId(str(oid)) == oid`: parsing the printed id recovers the id |
| ObjectIds.RenderInjective | main.py:84 | distinct ids print to distinct strings |
| ObjectIds.Parse | main.py:243 | a `product_id` parses as an id exactly when it is 24 hexadecimal digits, in either case; every other string is rejected |
| ObjectIds.UnhexAccepts | main.py:243 | hex decoding succeeds exactly on an even number of hexadecimal digits |
| Documents.PyStr | main.py:84 | `str()` of an ObjectId is its 24-digit hex form and parses back to it; `str()` of a string is the string |
| Documents.AsStrings | main.py:37-42 | a list validates as `List[str]` exactly when every element is a string, and the result holds those strings in order |
| Documents.StrArray | main.py:37-42 | a stored list of strings validates back to the same list |
| Documents.OptStr | main.py:31-34 | a stored optional string validates back to the same option |
| Schemas.NewProduct | schemas.py:17-29 | a product built from title, price and category with every other field defaulted satisfies the schema's bounds exactly when the price is not negative |
| Schemas.ProductFields | schemas.py:12-29 | each product field is the stored value of its declared type, or its declared default when the document does not store it |
| Schemas.ProductFieldsAccepts | schemas.py:12-29 | the product fields are accepted exactly when title, price and category are present with their types and every other present field has its type |
| Schemas.ParseProduct | schemas.py:12-29 | validation accepts only documents within the bounds (`price >= 0`, `0 <= rating <= 5`, `reviews_count >= 0`, `0 <= discount_percent <= 95`); it needs title, price and category; each field is the stored value, or its declared default when absent |
| Schemas.ParseProductAccepts | schemas.py:12-29 | validation accepts exactly the documents with title, price and category of their types, every present optional field of its type, and price, rating, reviews_count and discount_percent within their bounds; an integer price is accepted as a float |
| Schemas.ProductRoundTrip | schemas.py:12-29 | storing a product and validating the stored document gives the product back exactly when it is within bounds, and rejects it otherwise |
| Schemas.MinimalProductDefaults | schemas.py:17-29 | a document holding only title, price and category validates to the product with every default (rating 4.5, no reviews, in stock, no discount, empty lists) |
| Schemas.ParseCategory | schemas.py:32-39 | a category validates exactly when name and slug are strings and icon, if present, is a string or null; name, slug and icon are the stored values, and icon defaults to none |
| MongoQuery.FoldAll | main.py:203-208 | case folding keeps the length and folds each character in place |
| MongoQuery.Where | main.py:229 | the selection holds exactly the documents the predicate accepts, each no more often than the input holds it |
| MongoQuery.WhereAgrees | main.py:229 | two filters that accept the same documents select the same sequence |
| MongoQuery.WhereAll | main.py:229 | an empty filter selects the whole collection |
| MongoQuery.Find | main.py:229 | `find(flt)` selects exactly the documents the filter matches |
| MongoQuery.FindOne | main.py:243 | `find_one({"_id": oid})` returns a stored document with that `_id`, or none when no document has it |
| MongoQuery.SortBySorted | main.py:230-231 | `cursor.sort(key, dir)` yields the documents ordered by the key in that direction |
| MongoQuery.SortByPermutes | main.py:230-231 | sorting neither adds, drops nor duplicates a document |
| MongoQuery.SortByStable | main.py:230-231 | documents with equal keys keep their store order |
| MongoQuery.Take | main.py:232 | `limit(n)` keeps exactly the first `n` documents, or all of them when there are fewer |
| Projection.WithPublicId | main.py:81-85 | a truthy `_id` is removed and its `str()` put under `id`; without one the document is unchanged; every other field is kept as is |
| Projection.ToIdStr | main.py:81-85 | copying the document and moving the id computes `WithPublicId` |
| Projection.PublicIdRoundTrip | main.py:81-85 | the `id` a stored ObjectId is published under parses back to that ObjectId |
| Projection.ProjectProduct | main.py:28-42 | `ProductOut` needs id, title, price, category, rating and reviews_count; every published field is the stored value, or its declared default when absent |
| Projection.ProjectProductAccepts | main.py:28-42 | `ProductOut` is accepted exactly when its six required fields are present with their types and every present optional field has its type; no numeric bound is checked |
| Projection.ProjectCategory | main.py:21-25 | `CategoryOut` is accepted exactly when id, name and slug are strings and icon is absent, null or a string; every published field is the stored value, and icon defaults to none |
| Projection.ProductFieldsIgnoreIds | main.py:81-85 | moving the id does not change how the schema reads the product fields |
| Projection.SchemaDocumentProjects | main.py:234 | a stored product that passes the schema and stores rating and review count is published with the schema's values under its printed ObjectId |
| Projection.SchemaDefaultsDoNotProject | main.py:35-36 | a product stored with only its required fields is valid for the schema but fails `ProductOut`, which requires rating and reviews_count |
| Catalog.TextSearchMeans | main.py:203-208 | the `$or` of three case-insensitive regexes holds exactly when the text occurs in the title, the description or a tag |
| Catalog.PriceOpsMean | main.py:209-216 | the price clause holds exactly when the price is at least the minimum and at most the maximum, each when given |
| Catalog.MatchesThreeKeys | main.py:201-216 | the filter document is the conjunction of its clauses |
| Catalog.BuildFilter | main.py:201-216 | the filter matches exactly the documents the query wants, and holds a key only for each parameter that is given |
| Catalog.ResolveSort | main.py:218-227 | `price_asc` sorts by price ascending, `price_desc` by price descending, `rating` by rating descending, and anything else by review count descending |
| Catalog.ProjectEach | main.py:234 | the listing's projection succeeds exactly when every document projects, and then holds their projections in order |
| Catalog.ProjectAll | main.py:234 | the loop over the cursor computes `ProjectEach` |
| Catalog.GetProducts | main.py:190-235 | parameters out of bounds are rejected; without a database the list is empty; otherwise it is the projected, sorted, capped selection, never longer than `limit` |
| Catalog.GetProduct | main.py:238-246 | without a database, for an unparsable id, or for an id no document has, the result is none; otherwise it is the projection of the stored document `find_one` returns for that `_id` (none if that document fails projection), published under the printed id |
| Catalog.GetCategories | main.py:184-187 | without a database the list is empty; otherwise every category is listed in store order, or the call fails if one does not validate |
| CatalogProperties.PageFacts | main.py:229-232 | the page is sorted by the resolved key, holds `min(limit, matches)` documents, and each comes from the store and satisfies the query |
| CatalogProperties.ListingSelects | main.py:229-235 | every listed product is the projection of a stored document that satisfies every given condition |
| CatalogProperties.ProjectedKeys | main.py:230-234 | the price, rating and review count a document is sorted by are the ones its listed product shows |
| CatalogProperties.PairInOrder | main.py:230-234 | two projected documents that the sort keeps in order show their price, rating or review count in that order |
| CatalogProperties.ListingOrder | main.py:218-234 | listed products ascend by price for `price_asc`, descend by price for `price_desc`, descend by rating for `rating`, and descend by review count otherwise |
| CatalogProperties.ListingKeepsTheFirst | main.py:229-232 | the cap applies after the sort: a matching document left off the page would not come before any listed one, and when the matches fit the cap the page holds all of them |
| CatalogProperties.FallbackSortIsPopularity | main.py:226-227 | `new`, an unknown value or no value lists exactly what `popularity` lists |
| CatalogProperties.InvertedRangeListsNothing | main.py:209-216 | a minimum above the maximum selects no document with a numeric price, so the listing is empty or fails |
| CatalogProperties.ProjectableHasNumericPrice | main.py:32 | every document that validates as `ProductOut` holds a numeric price |
| CatalogProperties.UnfilteredListsEverything | main.py:200-232 | with no search, no category and no price bound, the page is the whole store sorted and capped |
| CatalogProperties.BadDocumentFailsListing | main.py:234 | a selected document that fails `ProductOut` fails the whole listing |
| CatalogProperties.LookupFindsStored | main.py:243-244 | when ids are unique, looking up any string that parses as a stored document's `_id`, in lower- or upper-case hex, returns that document's projection |
| CatalogProperties.LookupFindsProjection | main.py:243-244 | when ids are unique, a product projected from a stored document can be looked up by its `id` |
| CatalogProperties.ListedProductsLookUp | main.py:238-246 | when ids are unique ObjectIds, every product the listing shows comes back unchanged from the lookup by its `id` |
| CatalogExamples.SearchIgnoresCase | main.py:203-208 | searching `наушники` finds the seeded headphones, whose title is `Наушники Sonic Pro` |
| CatalogExamples.ShoesInPriceRange | main.py:209-216 | of the seeded products, shoes priced 1000 to 10000 select only the sneakers |
| SeedListing.StoredProductPublishes | main.py:81-85 | a document storing every public field, under an ObjectId `_id`, is published as exactly those values under the id's printed form |
| SeedListing.SneakersPublish | main.py:105-122 | the seeded sneakers, stored with integer price and discount, pass `ProductOut` with the seeded values |
| SeedListing.ShoeListing | main.py:229-235 | the shoe listing over the seeded catalogue succeeds and publishes the sneakers alone |
| CatalogExamples.SeedByPopularity | main.py:230-231 | sorting the seeded products by review count, most first, gives headphones, T-shirt, vacuum, sneakers |
| CatalogExamples.DefaultListingOrder | main.py:218-232 | with no parameters the seeded catalogue lists most-reviewed first |

## Left out

- The HTTP layer is not modelled: routing, CORS, the `/` and `/test` endpoints, and response serialisation.
- Seeding (`_ensure_seed`) is left out as an operation. Its four products, with every field it stores, appear only as the example store. The categories it seeds do not appear.
- The database connection is a boolean parameter. Connection errors, timeouts and concurrent writers are not modelled.
- `if db` is modelled as "a connection exists". Recent drivers make truth-testing a database object raise an error; that driver behaviour is not part of this model.
- The search text is matched literally. Regular-expression metacharacters in `q` are not interpreted, and an invalid pattern's server error is not modelled.
- MongoQuery.Fold: case-insensitive matching folds only ASCII and Cyrillic letters, not the rest of Unicode.
- Sorting orders missing or null keys before numbers before every other value. BSON's full cross-type order and the sorting of array-valued keys are not modelled.
- MongoQuery.SortBy: the server does not promise any order among equal keys. The model fixes one, store order, so ties are ordered more tightly than the server guarantees.
- Documents.PyStr: `str()` of a float or an array is not modelled. Such an `_id` gets the placeholder `""`.
- Pydantic's lax coercions are not modelled beyond int to float and integral float to int. Numeric strings to numbers is one example.
- Floating-point numbers are modelled as exact reals. Rounding and the conversion `float(min_price)` are not modelled.
- ObjectIds.Parse: `ObjectId(s)` is modelled for 24-character hex strings only. Other accepted inputs (12-byte strings, or whitespace that `bytes.fromhex` skips) are not modelled.
- The `_id` a store assigns on insert is not modelled. The examples use fixed ids.
