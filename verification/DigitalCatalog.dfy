/** The records of the digital-goods server (app.js) and its read-only
    queries: the filtered list, the category list, the most downloaded
    products and the text search. Each query works on a copy of the store's
    array, so none of them changes the store. */
module DigitalCatalog {
  import opened Js
  import opened Http
  import opened Seqs

  /** One digital product. `price` is whatever the last create or update
      stored: a positive number after a create, and after an update possibly
      also NaN or `true`. `description`, `fileSize` and `licenseType` are the
      truthy values the client sent, or the placeholders. The creation and
      update timestamps are not modelled. */
  datatype Product = Product(
    id: int,
    name: string,
    price: Value,
    category: string,
    description: Value,
    fileSize: Value,
    licenseType: Value,
    downloads: int)

  /** `if (param)` on a query-string parameter: present and not empty. */
  predicate Given(param: Option<string>) {
    param.Some? && param.value != ""
  }

  // ---------------------------------------------------------------------------
  // GET /api/products?category=&minPrice=&maxPrice=

  datatype ListQuery = ListQuery(category: Option<string>, minPrice: Option<string>, maxPrice: Option<string>)

  function InCategory(category: string): Product -> bool {
    (p: Product) => ToLower(p.category) == ToLower(category)
  }

  function PriceAtLeast(min: Number): Product -> bool {
    (p: Product) => NumGe(ToNumber(p.price), min)
  }

  function PriceAtMost(max: Number): Product -> bool {
    (p: Product) => NumLe(ToNumber(p.price), max)
  }

  /** The list handler's three filters, in its order, each applied only when
      its parameter is given; the bounds go through parseFloat. */
  function ListProducts(ps: seq<Product>, q: ListQuery): (r: seq<Product>)
    ensures |r| <= |ps|
    ensures forall p :: p in r ==> p in ps
  {
    var byCategory := if Given(q.category) then Filter(ps, InCategory(q.category.value)) else ps;
    var byMin := if Given(q.minPrice) then Filter(byCategory, PriceAtLeast(ParseInt(q.minPrice.value))) else byCategory;
    if Given(q.maxPrice) then Filter(byMin, PriceAtMost(ParseInt(q.maxPrice.value))) else byMin
  }

  /** What the list promises about one product: the same category up to
      case, and a price within the inclusive bounds; each test only when its
      parameter is given. */
  predicate Listed(q: ListQuery, p: Product) {
    && (Given(q.category) ==> ToLower(p.category) == ToLower(q.category.value))
    && (Given(q.minPrice) ==> NumGe(ToNumber(p.price), ParseInt(q.minPrice.value)))
    && (Given(q.maxPrice) ==> NumLe(ToNumber(p.price), ParseInt(q.maxPrice.value)))
  }

  function ListedBy(q: ListQuery): Product -> bool {
    (p: Product) => Listed(q, p)
  }

  /** Each test of the list as one filter that passes everything when its
      parameter is not given. */
  function CategoryTest(q: ListQuery): Product -> bool {
    (p: Product) => Given(q.category) ==> ToLower(p.category) == ToLower(q.category.GetOr(""))
  }

  function MinTest(q: ListQuery): Product -> bool {
    (p: Product) => Given(q.minPrice) ==> NumGe(ToNumber(p.price), ParseInt(q.minPrice.GetOr("")))
  }

  function MaxTest(q: ListQuery): Product -> bool {
    (p: Product) => Given(q.maxPrice) ==> NumLe(ToNumber(p.price), ParseInt(q.maxPrice.GetOr("")))
  }

  function CategoryAndMin(q: ListQuery): Product -> bool {
    (p: Product) => CategoryTest(q)(p) && MinTest(q)(p)
  }

  /** The category step of the list, given or not, is the category test. */
  lemma CategoryStep(s: seq<Product>, q: ListQuery)
    ensures (if Given(q.category) then Filter(s, InCategory(q.category.value)) else s) == Filter(s, CategoryTest(q))
  {
    if Given(q.category) {
      FilterSameTest(s, InCategory(q.category.value), CategoryTest(q));
    } else {
      FilterKeepsAll(s, CategoryTest(q));
    }
  }

  /** The minimum-price step of the list is the minimum test. */
  lemma MinStep(s: seq<Product>, q: ListQuery)
    ensures (if Given(q.minPrice) then Filter(s, PriceAtLeast(ParseInt(q.minPrice.value))) else s) == Filter(s, MinTest(q))
  {
    if Given(q.minPrice) {
      FilterSameTest(s, PriceAtLeast(ParseInt(q.minPrice.value)), MinTest(q));
    } else {
      FilterKeepsAll(s, MinTest(q));
    }
  }

  /** The maximum-price step of the list is the maximum test. */
  lemma MaxStep(s: seq<Product>, q: ListQuery)
    ensures (if Given(q.maxPrice) then Filter(s, PriceAtMost(ParseInt(q.maxPrice.value))) else s) == Filter(s, MaxTest(q))
  {
    if Given(q.maxPrice) {
      FilterSameTest(s, PriceAtMost(ParseInt(q.maxPrice.value)), MaxTest(q));
    } else {
      FilterKeepsAll(s, MaxTest(q));
    }
  }

  /** The list handler's three steps are the three tests, one after the
      other. */
  lemma ListIsChain(ps: seq<Product>, q: ListQuery)
    ensures ListProducts(ps, q) == Filter(Filter(Filter(ps, CategoryTest(q)), MinTest(q)), MaxTest(q))
  {
    var s1 := Filter(ps, CategoryTest(q));
    CategoryStep(ps, q);
    MinStep(s1, q);
    MaxStep(Filter(s1, MinTest(q)), q);
  }

  /** The three tests in a row are one filter on `Listed`. */
  lemma ChainIsListed(ps: seq<Product>, q: ListQuery)
    ensures Filter(Filter(Filter(ps, CategoryTest(q)), MinTest(q)), MaxTest(q)) == Filter(ps, ListedBy(q))
  {
    FilterThenFilter(ps, CategoryTest(q), MinTest(q), CategoryAndMin(q));
    FilterThenFilter(ps, CategoryAndMin(q), MaxTest(q), ListedBy(q));
  }

  /** The chain of filters is one filter on the conjunction: the answer is
      the products of the store, in store order, that satisfy every given
      test, and no others. */
  lemma ListIsConjunction(ps: seq<Product>, q: ListQuery)
    ensures ListProducts(ps, q) == Filter(ps, ListedBy(q))
    ensures forall p :: p in ListProducts(ps, q) <==> p in ps && Listed(q, p)
    ensures |ListProducts(ps, q)| <= |ps|
  {
    ListIsChain(ps, q);
    ChainIsListed(ps, q);
  }

  /** The category filter ignores case: two spellings that lower-case
      alike list the same products. */
  lemma ListCategoryIgnoresCase(ps: seq<Product>, c: string, d: string)
    requires c != "" && d != "" && ToLower(c) == ToLower(d)
    ensures ListProducts(ps, ListQuery(Some(c), None, None)) == ListProducts(ps, ListQuery(Some(d), None, None))
  {
    var qc, qd := ListQuery(Some(c), None, None), ListQuery(Some(d), None, None);
    ListIsConjunction(ps, qc);
    ListIsConjunction(ps, qd);
    FilterSameTest(ps, ListedBy(qc), ListedBy(qd));
  }

  // ---------------------------------------------------------------------------
  // GET /api/products/categories: [...new Set(products.map(p => p.category))]

  predicate NoDuplicates<T(==)>(s: seq<T>) {
    forall i, j :: 0 <= i < j < |s| ==> s[i] != s[j]
  }

  /** The elements of `s` not in `seen`, each once, at its first occurrence:
      inserting `s` into a Set that already holds `seen`. */
  function Unseen(s: seq<string>, seen: set<string>): (r: seq<string>)
    ensures forall x :: x in r <==> x in s && x !in seen
    ensures NoDuplicates(r)
  {
    if s == [] then []
    else if s[0] in seen then Unseen(s[1..], seen)
    else [s[0]] + Unseen(s[1..], seen + {s[0]})
  }

  function CategoryColumn(ps: seq<Product>): seq<string> {
    seq(|ps|, i requires 0 <= i < |ps| => ps[i].category)
  }

  /** Every category that some product has, each once, without any case
      normalisation. */
  function Categories(ps: seq<Product>): (r: seq<string>)
    ensures NoDuplicates(r)
    ensures forall c :: c in r <==> exists i :: 0 <= i < |ps| && ps[i].category == c
  {
    var column := CategoryColumn(ps);
    assert forall i :: 0 <= i < |ps| ==> column[i] == ps[i].category;
    Unseen(column, {})
  }

  /** The index of the first occurrence of `x` in `s`. */
  function FirstIndex<T(==)>(s: seq<T>, x: T): (i: nat)
    requires x in s
    ensures i < |s| && s[i] == x
    ensures forall k :: 0 <= k < i ==> s[k] != x
  {
    if s[0] == x then 0 else 1 + FirstIndex(s[1..], x)
  }

  /** Past the first element, first occurrences in `s` are one more than in its tail. */
  lemma FirstIndexInTail(s: seq<string>, x: string)
    requires x in s && x != s[0]
    ensures x in s[1..] && FirstIndex(s, x) == 1 + FirstIndex(s[1..], x)
  {
  }

  /** Set insertion order: of two survivors, the earlier one occurs first
      earlier in `s`. */
  lemma {:induction false} UnseenFirstSeenOrder(s: seq<string>, seen: set<string>, i: nat, j: nat)
    requires i < j < |Unseen(s, seen)|
    ensures FirstIndex(s, Unseen(s, seen)[i]) < FirstIndex(s, Unseen(s, seen)[j])
    decreases |s|
  {
    var r := Unseen(s, seen);
    if s[0] in seen {
      var rest := Unseen(s[1..], seen);
      assert r == rest;
      FirstIndexInTail(s, r[i]);
      FirstIndexInTail(s, r[j]);
      UnseenFirstSeenOrder(s[1..], seen, i, j);
    } else {
      var rest := Unseen(s[1..], seen + {s[0]});
      assert r == [s[0]] + rest;
      assert r[j] == rest[j - 1];
      FirstIndexInTail(s, r[j]);
      if i > 0 {
        assert r[i] == rest[i - 1];
        FirstIndexInTail(s, r[i]);
        UnseenFirstSeenOrder(s[1..], seen + {s[0]}, i - 1, j - 1);
      }
    }
  }

  /** The categories come in the order in which the store first mentions them. */
  lemma CategoriesFirstSeen(ps: seq<Product>)
    ensures var r := Categories(ps);
      forall i, j :: 0 <= i < j < |r| ==> FirstIndex(CategoryColumn(ps), r[i]) < FirstIndex(CategoryColumn(ps), r[j])
  {
    var r := Categories(ps);
    assert r == Unseen(CategoryColumn(ps), {});
    forall i, j | 0 <= i < j < |r|
      ensures FirstIndex(CategoryColumn(ps), r[i]) < FirstIndex(CategoryColumn(ps), r[j])
    {
      UnseenFirstSeenOrder(CategoryColumn(ps), {}, i, j);
    }
  }

  // ---------------------------------------------------------------------------
  // GET /api/products/popular?limit=N:
  // [...products].sort((a, b) => b.downloads - a.downloads).slice(0, parseInt(limit))

  /** Downloads never increase along the sequence. */
  predicate ByDownloads(s: seq<Product>) {
    forall i, j :: 0 <= i < j < |s| ==> s[i].downloads >= s[j].downloads
  }

  /** Puts `p` in front of the first product that does not have more
      downloads: the stable insertion step of the sort. */
  function InsertByDownloads(p: Product, s: seq<Product>): (r: seq<Product>)
    ensures |r| == |s| + 1 && (r[0] == p || (s != [] && r[0] == s[0]))
    ensures multiset(r) == multiset(s) + multiset{p}
  {
    if s == [] || p.downloads >= s[0].downloads then
      [p] + s
    else
      assert s == [s[0]] + s[1..];
      [s[0]] + InsertByDownloads(p, s[1..])
  }

  /** Inserting into a sequence ordered by downloads keeps it ordered. */
  lemma {:induction false} InsertKeepsOrder(p: Product, s: seq<Product>)
    requires ByDownloads(s)
    ensures ByDownloads(InsertByDownloads(p, s))
    decreases |s|
  {
    if s != [] && p.downloads < s[0].downloads {
      var rest := InsertByDownloads(p, s[1..]);
      InsertKeepsOrder(p, s[1..]);
      assert InsertByDownloads(p, s) == [s[0]] + rest;
      InsertBounded(p, s[1..], s[0].downloads);
      ConsKeepsOrder(s[0], rest);
    }
  }

  /** A product with at least the downloads of every product in an ordered
      sequence can go in front of it. */
  lemma ConsKeepsOrder(x: Product, s: seq<Product>)
    requires ByDownloads(s)
    requires forall k :: 0 <= k < |s| ==> s[k].downloads <= x.downloads
    ensures ByDownloads([x] + s)
  {
    var r := [x] + s;
    forall i, j | 0 <= i < j < |r|
      ensures r[i].downloads >= r[j].downloads
    {
      assert r[j] == s[j - 1];
      if i > 0 {
        assert r[i] == s[i - 1];
      }
    }
  }

  /** Inserting a product with at most `d` downloads into products with at
      most `d` downloads gives products with at most `d` downloads. */
  lemma {:induction false} InsertBounded(p: Product, s: seq<Product>, d: int)
    requires p.downloads <= d
    requires forall k :: 0 <= k < |s| ==> s[k].downloads <= d
    ensures forall k :: 0 <= k < |InsertByDownloads(p, s)| ==> InsertByDownloads(p, s)[k].downloads <= d
    decreases |s|
  {
    var r := InsertByDownloads(p, s);
    if s != [] && p.downloads < s[0].downloads {
      InsertBounded(p, s[1..], d);
      var rest := InsertByDownloads(p, s[1..]);
      assert r == [s[0]] + rest;
      forall k | 0 <= k < |r|
        ensures r[k].downloads <= d
      {
        if k == 0 {
          assert r[0] == s[0];
        } else {
          assert r[k] == rest[k - 1];
        }
      }
    } else {
      assert r == [p] + s;
      forall k | 0 <= k < |r|
        ensures r[k].downloads <= d
      {
        if k > 0 {
          assert r[k] == s[k - 1];
        }
      }
    }
  }

  /** The comparator `b.downloads - a.downloads` under a stable sort. */
  function SortByDownloads(ps: seq<Product>): (r: seq<Product>)
    ensures |r| == |ps|
    ensures multiset(r) == multiset(ps)
    ensures ByDownloads(r)
  {
    if ps == [] then []
    else
      assert ps == [ps[0]] + ps[1..];
      var sorted := SortByDownloads(ps[1..]);
      InsertKeepsOrder(ps[0], sorted);
      InsertByDownloads(ps[0], sorted)
  }

  function HasDownloads(d: int): Product -> bool {
    (p: Product) => p.downloads == d
  }

  /** A product with more downloads than `p` put in front of both sides
      keeps `p`'s place among the products with `d` downloads. */
  lemma InsertStableStep(p: Product, first: Product, rest: seq<Product>, tail: seq<Product>, d: int)
    requires p.downloads < first.downloads
    requires Filter(rest, HasDownloads(d)) == (if p.downloads == d then [p] else []) + Filter(tail, HasDownloads(d))
    ensures Filter([first] + rest, HasDownloads(d))
         == (if p.downloads == d then [p] else []) + Filter([first] + tail, HasDownloads(d))
  {
    var f := HasDownloads(d);
    FilterCons(first, rest, f);
    FilterCons(first, tail, f);
    if p.downloads == d {
      assert !f(first);
    } else {
      FrontOfEmpty(if f(first) then [first] else [], Filter(tail, f));
    }
  }

  /** Putting `h` in front of `[] + x` is putting nothing in front of `h + x`. */
  lemma FrontOfEmpty(h: seq<Product>, x: seq<Product>)
    ensures h + ([] + x) == [] + (h + x)
  {
    assert [] + x == x;
    assert [] + (h + x) == h + x;
  }

  lemma {:induction false} InsertIsStable(p: Product, s: seq<Product>, d: int)
    ensures Filter(InsertByDownloads(p, s), HasDownloads(d))
         == (if p.downloads == d then [p] else []) + Filter(s, HasDownloads(d))
    decreases |s|
  {
    if s == [] || p.downloads >= s[0].downloads {
      FilterCons(p, s, HasDownloads(d));
    } else {
      assert InsertByDownloads(p, s) == [s[0]] + InsertByDownloads(p, s[1..]);
      InsertIsStable(p, s[1..], d);
      InsertStableStep(p, s[0], InsertByDownloads(p, s[1..]), s[1..], d);
      assert [s[0]] + s[1..] == s;
    }
  }

  /** Stability: the products that share a download count come out in the
      order they had in the store. */
  lemma {:induction false} SortIsStable(ps: seq<Product>, d: int)
    ensures Filter(SortByDownloads(ps), HasDownloads(d)) == Filter(ps, HasDownloads(d))
    decreases |ps|
  {
    if ps != [] {
      SortIsStable(ps[1..], d);
      InsertIsStable(ps[0], SortByDownloads(ps[1..]), d);
    }
  }

  /** `req.query.limit || 5`, then parseInt. */
  function PopularLimit(limit: Option<string>): Number {
    if Given(limit) then ParseInt(limit.value) else Int(5)
  }

  /** The popular handler: sort a copy, then slice(0, limit). */
  function Popular(ps: seq<Product>, limit: Option<string>): seq<Product> {
    var sorted := SortByDownloads(ps);
    sorted[..SliceEnd(|sorted|, PopularLimit(limit))]
  }

  /** In a sequence ordered by downloads, nothing after position `k` has
      more downloads than anything before it. */
  lemma PrefixIsTop(sorted: seq<Product>, k: nat)
    requires ByDownloads(sorted) && k <= |sorted|
    ensures forall x, y :: x in sorted[..k] && y in sorted[k..] ==> x.downloads >= y.downloads
  {
    forall x: Product, y: Product | x in sorted[..k] && y in sorted[k..]
      ensures x.downloads >= y.downloads
    {
      var i :| 0 <= i < k && sorted[..k][i] == x;
      var j :| 0 <= j < |sorted| - k && sorted[k..][j] == y;
      assert sorted[i] == x && sorted[k + j] == y;
    }
  }

  /** A prefix of a sequence ordered by downloads is ordered by downloads
      and is drawn from the sequence. */
  lemma PrefixOfSorted(sorted: seq<Product>, k: nat)
    requires ByDownloads(sorted) && k <= |sorted|
    ensures ByDownloads(sorted[..k])
    ensures multiset(sorted[..k]) <= multiset(sorted)
  {
    assert sorted == sorted[..k] + sorted[k..];
  }

  /** The answer is ordered by downloads, is drawn from the store, and is as
      long as the slice end says: the limit clamped to the store size when
      the limit is a non-negative integer. */
  lemma PopularShape(ps: seq<Product>, limit: Option<string>)
    ensures var r := Popular(ps, limit);
      && ByDownloads(r)
      && multiset(r) <= multiset(ps)
      && |r| == SliceEnd(|ps|, PopularLimit(limit))
  {
    var sorted := SortByDownloads(ps);
    var k := SliceEnd(|sorted|, PopularLimit(limit));
    assert Popular(ps, limit) == sorted[..k];
    PrefixOfSorted(sorted, k);
  }

  /** Cutting an ordered arrangement of a bag: nothing outside the prefix
      has more downloads than anything in it. */
  lemma PrefixIsTopOfBag(sorted: seq<Product>, k: nat, whole: multiset<Product>)
    requires ByDownloads(sorted) && k <= |sorted| && multiset(sorted) == whole
    ensures forall x, y :: x in sorted[..k] && y in whole - multiset(sorted[..k]) ==> x.downloads >= y.downloads
  {
    var taken, dropped := sorted[..k], sorted[k..];
    assert sorted == taken + dropped;
    assert whole - multiset(taken) == multiset(dropped);
    PrefixIsTop(sorted, k);
  }

  /** The answer is a most-downloaded selection: no product left out has
      more downloads than one taken. */
  lemma PopularIsTop(ps: seq<Product>, limit: Option<string>)
    ensures var r := Popular(ps, limit);
      forall x, y :: x in r && y in multiset(ps) - multiset(r) ==> x.downloads >= y.downloads
  {
    var sorted := SortByDownloads(ps);
    var k := SliceEnd(|sorted|, PopularLimit(limit));
    assert Popular(ps, limit) == sorted[..k];
    PrefixIsTopOfBag(sorted, k, multiset(ps));
  }

  /** The default of five applies when no limit is given. */
  lemma PopularDefaultsToFive(ps: seq<Product>)
    ensures |Popular(ps, None)| == if |ps| < 5 then |ps| else 5
  {
    PopularShape(ps, None);
  }

  /** A limit that does not parse gives an empty answer: slice(0, NaN) is
      slice(0, 0). */
  lemma PopularUnparsableLimit(ps: seq<Product>, text: string)
    requires text != "" && ParseInt(text) == NaN
    ensures Popular(ps, Some(text)) == []
  {
  }

  /** "abc" is such a limit. */
  lemma PopularLetterLimit(ps: seq<Product>)
    ensures Popular(ps, Some("abc")) == []
  {
    ParseIntNoDigit("abc");
    PopularUnparsableLimit(ps, "abc");
  }

  /** A limit that parses to a non-negative number takes that many products,
      or all of them when the store has fewer. */
  lemma PopularClamp(ps: seq<Product>, text: string, e: int)
    requires text != "" && ParseInt(text) == Int(e) && e >= 0
    ensures |Popular(ps, Some(text))| == if e < |ps| then e else |ps|
  {
    PopularShape(ps, Some(text));
  }

  /** A negative limit -n counts back from the end: every product but the
      n least downloaded. */
  lemma PopularNegativeLimit(ps: seq<Product>, n: nat)
    requires 0 < n <= |ps|
    ensures Popular(ps, Some(Decimal(-(n as int)))) == SortByDownloads(ps)[..|ps| - n]
  {
    var limit := -(n as int);
    var text := Decimal(limit);
    ParseIntDecimal(limit);
    DecimalShape(limit);
    PopularParsedLimit(ps, text, limit);
    assert SliceEnd(|ps|, Int(limit)) == |ps| - n;
  }

  /** A limit whose text parses to the integer `e` slices at `e`. */
  lemma PopularParsedLimit(ps: seq<Product>, text: string, e: int)
    requires text != [] && ParseInt(text) == Int(e)
    ensures Popular(ps, Some(text)) == SortByDownloads(ps)[..SliceEnd(|ps|, Int(e))]
  {
  }

  /** Inserting behind the one product that has more downloads. */
  lemma InsertBehindOne(p: Product, q: Product)
    requires p.downloads < q.downloads
    ensures InsertByDownloads(p, [q]) == [q, p]
  {
    assert [q][1..] == [];
  }

  /** Inserting between two products. */
  lemma InsertBetween(p: Product, q: Product, r: Product)
    requires r.downloads <= p.downloads < q.downloads
    ensures InsertByDownloads(p, [q, r]) == [q, p, r]
  {
    assert [q, r][1..] == [r];
  }

  /** Sorting three products with 10, 5 and 20 downloads. */
  lemma SortExample(a: Product, b: Product, c: Product)
    requires a.downloads == 10 && b.downloads == 5 && c.downloads == 20
    ensures SortByDownloads([a, b, c]) == [c, a, b]
  {
    assert [a, b, c][1..] == [b, c] && [b, c][1..] == [c];
    assert SortByDownloads([c]) == [c];
    InsertBehindOne(b, c);
    InsertBetween(a, c, b);
  }

  /** Three products with 10, 5 and 20 downloads and limit "2": the one
      with 20, then the one with 10. */
  lemma PopularExample(a: Product, b: Product, c: Product)
    requires a.downloads == 10 && b.downloads == 5 && c.downloads == 20
    ensures Popular([a, b, c], Some("2")) == [c, a]
  {
    SortExample(a, b, c);
    assert PopularLimit(Some("2")) == Int(2) by {
      ParseIntDecimal(2);
      assert Decimal(2) == "2";
    }
    assert Popular([a, b, c], Some("2")) == [c, a, b][..2];
  }

  // ---------------------------------------------------------------------------
  // GET /api/products/search?q=

  /** The search test for one product: the lower-cased name, or else the
      lower-cased description, contains the term. toLowerCase on a
      description that is not a string throws, which the handler answers
      with 500. */
  function SearchHit(p: Product, term: string): Result<bool> {
    if Includes(ToLower(p.name), term) then Ok(true)
    else if p.description.Str? then Ok(Includes(ToLower(p.description.s), term))
    else Err(ServerError)
  }

  /** The match the search promises: the lower-cased name, or a
      lower-cased string description, includes the term. */
  function SearchTest(term: string): Product -> bool {
    (p: Product) => Includes(ToLower(p.name), term)
      || (p.description.Str? && Includes(ToLower(p.description.s), term))
  }

  function Search(ps: seq<Product>, q: Option<string>): (r: Result<seq<Product>>)
    ensures r == Err(BadRequest) <==> !Given(q)
    ensures r == Err(ServerError) <==>
      Given(q) && exists p :: p in ps && !Includes(ToLower(p.name), ToLower(q.value)) && !p.description.Str?
    ensures r.Ok? ==> forall p :: p in r.value <==>
      p in ps && (Includes(ToLower(p.name), ToLower(q.value))
                  || (p.description.Str? && Includes(ToLower(p.description.s), ToLower(q.value))))
    ensures r.Ok? ==> r.value == Filter(ps, SearchTest(ToLower(q.value)))
    ensures r.Ok? || r == Err(BadRequest) || r == Err(ServerError)
  {
    if !Given(q) then Err(BadRequest)
    else
      var term := ToLower(q.value);
      if exists p :: p in ps && SearchHit(p, term).Err? then Err(ServerError)
      else
        var hit := (p: Product) => SearchHit(p, term) == Ok(true);
        FilterSameTest(ps, hit, SearchTest(term));
        Ok(Filter(ps, hit))
  }
}
