/**
  The document store's side of a query, as the service relies on it: the
  meaning of a filter document over one stored document, `find`, `find_one`,
  a single-key `sort` and `limit`. The store itself is a sequence of
  documents in natural (insertion) order.
*/
module MongoQuery {
  import opened Wrappers
  import opened ObjectIds
  import opened Documents

  // ---------------------------------------------------------------- text

  /**
    Simple case folding for ASCII and the basic Cyrillic block, the scripts
    the catalogue is written in; every other character folds to itself.
  */
  function Fold(c: char): char {
    if 'A' <= c <= 'Z' then (c as int + 32) as char
    else if '\U{0410}' <= c <= '\U{042F}' then (c as int + 32) as char
    else if '\U{0400}' <= c <= '\U{040F}' then (c as int + 80) as char
    else c
  }

  function FoldAll(s: string): (r: string)
    ensures |r| == |s|
    ensures forall i :: 0 <= i < |s| ==> r[i] == Fold(s[i])
  {
    if s == [] then [] else [Fold(s[0])] + FoldAll(s[1..])
  }

  /** `pattern` occurs somewhere in `text` (plain substring, not anchored). */
  predicate Occurs(pattern: string, text: string)
    decreases |text|
  {
    pattern <= text || (text != [] && Occurs(pattern, text[1..]))
  }

  /** A string value contains `pattern`, folding case on both sides when `caseless`. */
  predicate TextContains(s: string, pattern: string, caseless: bool) {
    if caseless then Occurs(FoldAll(pattern), FoldAll(s)) else Occurs(pattern, s)
  }

  // ---------------------------------------------------- field conditions

  /** A regular-expression test on a field: a string, or an array with some such string element. */
  predicate ContainsText(v: Value, pattern: string, caseless: bool) {
    match v
    case Str(s) => TextContains(s, pattern, caseless)
    case Array(items) => exists i :: 0 <= i < |items| && items[i].Str? && TextContains(items[i].s, pattern, caseless)
    case _ => false
  }

  /** Equality with a string: the value itself, or some element of an array value. */
  predicate EqualsText(v: Value, s: string) {
    v == Str(s) || (v.Array? && Str(s) in v.items)
  }

  /** `$gte`: the value, or some element of an array value, is a number at least `bound`. */
  predicate AtLeast(v: Value, bound: real) {
    (NumberOf(v).Some? && NumberOf(v).value >= bound)
    || (v.Array? && exists i :: 0 <= i < |v.items| && NumberOf(v.items[i]).Some? && NumberOf(v.items[i]).value >= bound)
  }

  /** `$lte`: the value, or some element of an array value, is a number at most `bound`. */
  predicate AtMost(v: Value, bound: real) {
    (NumberOf(v).Some? && NumberOf(v).value <= bound)
    || (v.Array? && exists i :: 0 <= i < |v.items| && NumberOf(v.items[i]).Some? && NumberOf(v.items[i]).value <= bound)
  }

  // ------------------------------------------------------------- filters

  /** `{"$regex": pattern, "$options": options}`; the pattern is read as literal text. */
  datatype Regex = Regex(pattern: string, options: string)

  /** `{field: {"$regex": ...}}`, one branch of an `$or`. */
  datatype FieldRegex = FieldRegex(field: string, regex: Regex)

  /** The value stored under one key of a filter document. */
  datatype Clause =
    | AnyOf(branches: seq<FieldRegex>)   // under "$or"
    | Equals(text: string)               // field: "literal"
    | Compare(ops: map<string, real>)    // field: {"$gte": x, "$lte": y}

  /** A filter document; its keys are combined by AND. */
  type Filter = map<string, Clause>

  predicate RegexHolds(d: Doc, b: FieldRegex) {
    b.field in d && ContainsText(d[b.field], b.regex.pattern, 'i' in b.regex.options)
  }

  predicate OperatorHolds(op: string, bound: real, v: Value) {
    if op == "$gte" then AtLeast(v, bound)
    else if op == "$lte" then AtMost(v, bound)
    else false
  }

  /** The clause stored under `key` holds for document `d`. */
  predicate ClauseHolds(key: string, c: Clause, d: Doc) {
    match c
    case AnyOf(branches) => exists i :: 0 <= i < |branches| && RegexHolds(d, branches[i])
    case Equals(text) => key in d && EqualsText(d[key], text)
    case Compare(ops) =>
      // an empty operator document would be an equality test against {}, which no value here equals
      && ops != map[]
      && key in d
      && forall op :: op in ops ==> OperatorHolds(op, ops[op], d[key])
  }

  /** `d` is selected by `flt`: every clause holds; the empty filter selects everything. */
  predicate Matches(flt: Filter, d: Doc) {
    forall key :: key in flt ==> ClauseHolds(key, flt[key], d)
  }

  // ------------------------------------------------------ find, find_one

  /** The documents of `s` that `keep` selects, in their original order. */
  function Where(s: seq<Doc>, keep: Doc -> bool): (r: seq<Doc>)
    ensures |r| <= |s|
    ensures forall d :: d in r <==> d in s && keep(d)
    ensures multiset(r) <= multiset(s)
  {
    if s == [] then []
    else
      assert s == [s[0]] + s[1..];
      (if keep(s[0]) then [s[0]] else []) + Where(s[1..], keep)
  }

  /** Selecting by two predicates that agree everywhere gives the same documents. */
  lemma {:induction false} WhereAgrees(s: seq<Doc>, f: Doc -> bool, g: Doc -> bool)
    requires forall d :: f(d) == g(d)
    ensures Where(s, f) == Where(s, g)
  {
    if s != [] {
      WhereAgrees(s[1..], f, g);
    }
  }

  /** The selection function a filter stands for. */
  function Matcher(flt: Filter): Doc -> bool {
    d => Matches(flt, d)
  }

  /** Selecting by a predicate that holds everywhere keeps the whole sequence. */
  lemma {:induction false} WhereAll(s: seq<Doc>, keep: Doc -> bool)
    requires forall d :: keep(d)
    ensures Where(s, keep) == s
  {
    if s != [] {
      WhereAll(s[1..], keep);
      assert [s[0]] + s[1..] == s;
    }
  }

  /** `collection.find(flt)`: the matching documents in natural order. */
  function Find(store: seq<Doc>, flt: Filter): (r: seq<Doc>)
    ensures forall d :: d in r <==> d in store && Matches(flt, d)
  {
    Where(store, Matcher(flt))
  }

  /** `collection.find_one({"_id": oid})`: the first document with that identifier. */
  function FindOne(store: seq<Doc>, oid: ObjectId): (r: Option<Doc>)
    ensures r.Some? ==> r.value in store && "_id" in r.value && r.value["_id"] == Oid(oid)
    ensures r.None? <==> forall d :: d in store ==> !("_id" in d && d["_id"] == Oid(oid))
  {
    if store == [] then None
    else if "_id" in store[0] && store[0]["_id"] == Oid(oid) then Some(store[0])
    else FindOne(store[1..], oid)
  }

  // ---------------------------------------------------------- sort, limit

  /** pymongo's sort direction: 1 is `Ascending`, -1 is `Descending`. */
  datatype Direction = Ascending | Descending

  /**
    Where a document falls in a sort on one field: a missing or null field
    sorts below every number, and a value of any other kind above every number.
  */
  datatype SortKey = Missing | Number(x: real) | NonNumeric

  function KeyOf(d: Doc, field: string): SortKey {
    if field !in d then Missing
    else match d[field]
      case Null => Missing
      case Int(i) => Number(i as real)
      case Float(f) => Number(f)
      case _ => NonNumeric
  }

  /** `a` sorts strictly below `b` in ascending order. */
  predicate Below(a: SortKey, b: SortKey) {
    match (a, b)
    case (Missing, Missing) => false
    case (Missing, _) => true
    case (Number(x), Number(y)) => x < y
    case (Number(_), NonNumeric) => true
    case _ => false
  }

  /** `a` must come strictly before `b` in direction `dir`. */
  predicate Precedes(a: SortKey, b: SortKey, dir: Direction) {
    if dir == Ascending then Below(a, b) else Below(b, a)
  }

  /** No later document must come before an earlier one. */
  predicate SortedOn(s: seq<Doc>, field: string, dir: Direction) {
    forall i, j :: 0 <= i < j < |s| ==> !Precedes(KeyOf(s[j], field), KeyOf(s[i], field), dir)
  }

  lemma NotPrecedesTransitive(a: SortKey, b: SortKey, c: SortKey, dir: Direction)
    requires !Precedes(b, a, dir) && !Precedes(c, b, dir)
    ensures !Precedes(c, a, dir)
  {
  }

  /** Places `x` before the first element of `s` that need not come before it. */
  function Insert(x: Doc, s: seq<Doc>, field: string, dir: Direction): seq<Doc> {
    if s == [] then [x]
    else if Precedes(KeyOf(s[0], field), KeyOf(x, field), dir) then [s[0]] + Insert(x, s[1..], field, dir)
    else [x] + s
  }

  /**
    `cursor.sort(field, dir)`. The store promises only the order of the keys;
    documents with equal keys keep their natural order here.
  */
  function SortBy(s: seq<Doc>, field: string, dir: Direction): seq<Doc> {
    if s == [] then [] else Insert(s[0], SortBy(s[1..], field, dir), field, dir)
  }

  lemma {:induction false} InsertPermutes(x: Doc, s: seq<Doc>, field: string, dir: Direction)
    ensures multiset(Insert(x, s, field, dir)) == multiset(s) + multiset{x}
  {
    if s != [] && Precedes(KeyOf(s[0], field), KeyOf(x, field), dir) {
      InsertPermutes(x, s[1..], field, dir);
      assert s == [s[0]] + s[1..];
    }
  }

  /** Insertion adds `x` and keeps every document already there. */
  lemma {:induction false} InsertMembers(x: Doc, s: seq<Doc>, field: string, dir: Direction)
    ensures forall d :: d in Insert(x, s, field, dir) <==> d == x || d in s
  {
    InsertPermutes(x, s, field, dir);
    forall d
      ensures d in Insert(x, s, field, dir) <==> d == x || d in s
    {
      assert d in Insert(x, s, field, dir) <==> d in multiset(Insert(x, s, field, dir));
    }
  }

  /** In a sorted sequence nothing after the first document must come before it. */
  lemma HeadFirst(s: seq<Doc>, field: string, dir: Direction)
    requires s != [] && SortedOn(s, field, dir)
    ensures forall d :: d in s[1..] ==> !Precedes(KeyOf(d, field), KeyOf(s[0], field), dir)
  {
    forall d | d in s[1..]
      ensures !Precedes(KeyOf(d, field), KeyOf(s[0], field), dir)
    {
      var k :| 0 <= k < |s[1..]| && s[1..][k] == d;
      assert s[k + 1] == d;
    }
  }

  /** A document that no later one must precede can head a sorted sequence. */
  lemma ConsSorted(y: Doc, t: seq<Doc>, field: string, dir: Direction)
    requires SortedOn(t, field, dir)
    requires forall d :: d in t ==> !Precedes(KeyOf(d, field), KeyOf(y, field), dir)
    ensures SortedOn([y] + t, field, dir)
  {
    var r := [y] + t;
    forall i, j | 0 <= i < j < |r|
      ensures !Precedes(KeyOf(r[j], field), KeyOf(r[i], field), dir)
    {
      assert r[j] == t[j - 1];
      if i > 0 {
        assert r[i] == t[i - 1];
      } else {
        assert r[j] in t;
      }
    }
  }

  lemma {:induction false} InsertSorted(x: Doc, s: seq<Doc>, field: string, dir: Direction)
    requires SortedOn(s, field, dir)
    ensures SortedOn(Insert(x, s, field, dir), field, dir)
  {
    if s != [] && Precedes(KeyOf(s[0], field), KeyOf(x, field), dir) {
      var rest := Insert(x, s[1..], field, dir);
      assert Insert(x, s, field, dir) == [s[0]] + rest;
      assert SortedOn(s[1..], field, dir);
      InsertSorted(x, s[1..], field, dir);
      assert forall d :: d in rest ==> !Precedes(KeyOf(d, field), KeyOf(s[0], field), dir) by {
        InsertMembers(x, s[1..], field, dir);
        HeadFirst(s, field, dir);
      }
      ConsSorted(s[0], rest, field, dir);
    } else if s != [] {
      assert Insert(x, s, field, dir) == [x] + s;
      assert forall d :: d in s ==> !Precedes(KeyOf(d, field), KeyOf(x, field), dir) by {
        HeadFirst(s, field, dir);
        forall d | d in s[1..]
          ensures !Precedes(KeyOf(d, field), KeyOf(x, field), dir)
        {
          NotPrecedesTransitive(KeyOf(x, field), KeyOf(s[0], field), KeyOf(d, field), dir);
        }
        assert s == [s[0]] + s[1..];
      }
      ConsSorted(x, s, field, dir);
    }
  }

  /** The sort puts every document in key order. */
  lemma {:induction false} SortBySorted(s: seq<Doc>, field: string, dir: Direction)
    ensures SortedOn(SortBy(s, field, dir), field, dir)
  {
    if s != [] {
      SortBySorted(s[1..], field, dir);
      InsertSorted(s[0], SortBy(s[1..], field, dir), field, dir);
    }
  }

  /** The sort only reorders: the same documents, each as often. */
  lemma {:induction false} SortByPermutes(s: seq<Doc>, field: string, dir: Direction)
    ensures multiset(SortBy(s, field, dir)) == multiset(s)
    ensures |SortBy(s, field, dir)| == |s|
  {
    if s != [] {
      SortByPermutes(s[1..], field, dir);
      InsertPermutes(s[0], SortBy(s[1..], field, dir), field, dir);
      assert s == [s[0]] + s[1..];
    }
    assert |multiset(SortBy(s, field, dir))| == |multiset(s)|;
  }

  /** Selection distributes over putting one document in front. */
  lemma WhereCons(x: Doc, s: seq<Doc>, keep: Doc -> bool)
    ensures Where([x] + s, keep) == (if keep(x) then [x] else []) + Where(s, keep)
  {
    assert ([x] + s)[1..] == s;
  }

  lemma SwapFronts(a: seq<Doc>, b: seq<Doc>, t: seq<Doc>)
    requires a == [] || b == []
    ensures a + (b + t) == b + (a + t)
  {
    if a == [] {
      assert a + (b + t) == b + t == b + (a + t);
    } else {
      assert a + (b + t) == a + t == b + (a + t);
    }
  }

  /** Two neighbours of which at most one is selected can trade places without changing the selection. */
  lemma WhereSwap(x: Doc, y: Doc, t: seq<Doc>, keep: Doc -> bool)
    requires !(keep(x) && keep(y))
    ensures Where([y] + ([x] + t), keep) == Where([x] + ([y] + t), keep)
  {
    var kx, ky, w := if keep(x) then [x] else [], if keep(y) then [y] else [], Where(t, keep);
    WhereCons(x, t, keep);
    WhereCons(y, t, keep);
    WhereCons(y, [x] + t, keep);
    WhereCons(x, [y] + t, keep);
    SwapFronts(ky, kx, w);
  }

  /** Passing one document over a selection-equal tail: the step of insertion that moves `x` past `y`. */
  lemma WhereStep(x: Doc, y: Doc, t: seq<Doc>, rest: seq<Doc>, keep: Doc -> bool)
    requires Where(rest, keep) == Where([x] + t, keep)
    requires !(keep(x) && keep(y))
    ensures Where([y] + rest, keep) == Where([x] + ([y] + t), keep)
  {
    WhereCons(y, rest, keep);
    WhereCons(y, [x] + t, keep);
    WhereSwap(x, y, t, keep);
  }

  /** The documents whose key on `field` is `k`. */
  function SameKey(field: string, k: SortKey): Doc -> bool {
    d => KeyOf(d, field) == k
  }

  lemma {:induction false} InsertKeepsTies(x: Doc, s: seq<Doc>, field: string, dir: Direction, k: SortKey)
    ensures Where(Insert(x, s, field, dir), SameKey(field, k)) == Where([x] + s, SameKey(field, k))
  {
    var tie := SameKey(field, k);
    if s != [] && Precedes(KeyOf(s[0], field), KeyOf(x, field), dir) {
      var rest := Insert(x, s[1..], field, dir);
      assert Insert(x, s, field, dir) == [s[0]] + rest;
      assert Where([s[0]] + rest, tie) == Where([x] + ([s[0]] + s[1..]), tie) by {
        InsertKeepsTies(x, s[1..], field, dir, k);
        // s[0] must come before x, so their keys differ and at most one of them is a tie
        assert !(tie(s[0]) && tie(x));
        WhereStep(x, s[0], s[1..], rest, tie);
      }
      assert [s[0]] + s[1..] == s;
    } else {
      assert Insert(x, s, field, dir) == [x] + s;
    }
  }

  /** Stability: the documents that share one key value keep their natural order. */
  lemma {:induction false} SortByStable(s: seq<Doc>, field: string, dir: Direction, k: SortKey)
    ensures Where(SortBy(s, field, dir), SameKey(field, k)) == Where(s, SameKey(field, k))
  {
    if s != [] {
      var tie := SameKey(field, k);
      var sorted := SortBy(s[1..], field, dir);
      calc {
        Where(SortBy(s, field, dir), tie);
        Where(Insert(s[0], sorted, field, dir), tie);
        { InsertKeepsTies(s[0], sorted, field, dir, k); }
        Where([s[0]] + sorted, tie);
        { WhereCons(s[0], sorted, tie); }
        (if tie(s[0]) then [s[0]] else []) + Where(sorted, tie);
        { SortByStable(s[1..], field, dir, k); }
        (if tie(s[0]) then [s[0]] else []) + Where(s[1..], tie);
        { WhereCons(s[0], s[1..], tie); assert [s[0]] + s[1..] == s; }
        Where(s, tie);
      }
    }
  }

  /** `cursor.limit(n)` for `n >= 1`: the first `n` documents, or all of them. */
  function Take(s: seq<Doc>, n: nat): (r: seq<Doc>)
    ensures |r| == if |s| <= n then |s| else n
    ensures |s| <= n ==> r == s
    ensures r == s[..|r|]
  {
    if |s| <= n then s else s[..n]
  }
}
