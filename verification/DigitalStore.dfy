/** The digital-goods store of app.js: the module-level `digitalProducts`
    array and the `nextId` counter, and the handlers that change them
    (GET by id counts a download, POST, PUT, DELETE). */
module DigitalStore {
  import opened Js
  import opened Http
  import opened DigitalCatalog

  /** The fields of a POST or PUT body that the handlers read. */
  datatype Body = Body(
    name: Value,
    price: Value,
    category: Value,
    description: Value,
    fileSize: Value,
    licenseType: Value)

  /** A body that supplies nothing. */
  const EmptyBody := Body(Undefined, Undefined, Undefined, Undefined, Undefined, Undefined)

  const NoDescription: string := "Описание отсутствует"
  const NoFileSize: string := "Не указано"
  const StandardLicense: string := "Стандартная"

  /** A price for which the handlers' test `price <= 0` is false. */
  predicate PriceAccepted(price: Value) {
    !NumLe(ToNumber(price), Int(0))
  }

  /** `typeof price === 'number' && price > 0`. */
  predicate PositiveNumber(v: Value) {
    v.Num? && v.n.Int? && v.n.i > 0
  }

  /** What every stored product satisfies: its price passed the handlers'
      test, the three optional text fields are truthy, the counter is not
      negative. */
  predicate WellFormed(p: Product) {
    && PriceAccepted(p.price)
    && Truthy(p.description) && Truthy(p.fileSize) && Truthy(p.licenseType)
    && p.downloads >= 0
  }

  /** `findIndex(p => p.id === id)`: the first position holding the id, if
      any. NaN, which parseInt gives for a non-numeric path segment, matches
      nothing. */
  function FindById(ps: seq<Product>, id: Number): (k: Option<nat>)
    ensures k.Some? ==> k.value < |ps| && Int(ps[k.value].id) == id
    ensures k.Some? ==> forall i :: 0 <= i < k.value ==> Int(ps[i].id) != id
    ensures k.None? <==> forall i :: 0 <= i < |ps| ==> Int(ps[i].id) != id
  {
    if ps == [] then None
    else if Int(ps[0].id) == id then Some(0)
    else
      match FindById(ps[1..], id)
      case None => None
      case Some(k) => Some(k + 1)
  }

  /** The ids in `ps` are pairwise different. */
  predicate UniqueIds(ps: seq<Product>) {
    forall i, j :: 0 <= i < j < |ps| ==> ps[i].id != ps[j].id
  }

  /** With unique ids, the product at position `k` is the one FindById finds
      for its id. */
  lemma FindByIdUnique(ps: seq<Product>, k: nat)
    requires UniqueIds(ps) && k < |ps|
    ensures FindById(ps, Int(ps[k].id)) == Some(k)
  {
  }

  // ---------------------------------------------------------------------------
  // POST /api/products

  /** The POST handler when `nextId` is `id`. It answers 400 when name, price
      or category is falsy, or the price is not a number greater than zero.
      Otherwise the object literal runs `id: nextId++` before `name.trim()`
      and `category.trim()`, which throw on a non-string (answered 500). The
      product keeps the number it was given (parseFloat of an integer is that
      integer), trims name and category, substitutes placeholders for falsy
      optional fields and starts with no downloads. */
  function CreateOutcome(body: Body, id: int): (r: Result<Product>)
    ensures r == Err(BadRequest) <==>
      !Truthy(body.name) || !Truthy(body.category) || !PositiveNumber(body.price)
    ensures r == Err(ServerError) <==>
      r != Err(BadRequest) && (!body.name.Str? || !body.category.Str?)
    ensures r.Ok? || r == Err(BadRequest) || r == Err(ServerError)
    ensures r.Ok? ==> && r.value.id == id && r.value.downloads == 0
                      && r.value.price == body.price && PositiveNumber(r.value.price)
                      && WellFormed(r.value)
                      && IsTrimmed(r.value.name) && r.value.name == Trim(body.name.s)
                      && IsTrimmed(r.value.category) && r.value.category == Trim(body.category.s)
    ensures r.Ok? ==> && (Truthy(body.description) ==> r.value.description == body.description)
                      && (!Truthy(body.description) ==> r.value.description == Str(NoDescription))
                      && (Truthy(body.fileSize) ==> r.value.fileSize == body.fileSize)
                      && (!Truthy(body.fileSize) ==> r.value.fileSize == Str(NoFileSize))
                      && (Truthy(body.licenseType) ==> r.value.licenseType == body.licenseType)
                      && (!Truthy(body.licenseType) ==> r.value.licenseType == Str(StandardLicense))
  {
    if !Truthy(body.name) || !Truthy(body.price) || !Truthy(body.category) then
      Err(BadRequest)
    else if !body.price.Num? || NumLe(body.price.n, Int(0)) then
      Err(BadRequest)
    else if !body.name.Str? || !body.category.Str? then
      Err(ServerError)
    else
      Ok(Product(
        id,
        Trim(body.name.s),
        body.price,
        Trim(body.category.s),
        if Truthy(body.description) then body.description else Str(NoDescription),
        if Truthy(body.fileSize) then body.fileSize else Str(NoFileSize),
        if Truthy(body.licenseType) then body.licenseType else Str(StandardLicense),
        0))
  }

  // ---------------------------------------------------------------------------
  // PUT /api/products/:id

  /** The price the merge leaves: absent keeps the current one, a string
      goes through parseFloat, any other value is kept as it is. */
  function MergedPrice(current: Value, supplied: Value): Value {
    if supplied == Undefined then current
    else if supplied.Str? then Num(ParseInt(supplied.s))
    else supplied
  }

  /** The PUT handler on the product it found: spread the old record, then
      every truthy name, category, description, fileSize and licenseType
      and every supplied price; `trim` on a truthy name or category that is
      not a string throws (500); a merged price that is `<= 0` is refused
      (400). */
  function UpdateOutcome(p: Product, body: Body): (r: Result<Product>)
    ensures r == Err(ServerError) <==>
      (Truthy(body.name) && !body.name.Str?) || (Truthy(body.category) && !body.category.Str?)
    ensures r == Err(BadRequest) <==>
      r != Err(ServerError) && !PriceAccepted(MergedPrice(p.price, body.price))
    ensures r.Ok? || r == Err(BadRequest) || r == Err(ServerError)
    ensures r.Ok? ==> r.value.id == p.id && r.value.downloads == p.downloads
    ensures r.Ok? ==> PriceAccepted(r.value.price)
    ensures r.Ok? && WellFormed(p) ==> WellFormed(r.value)
  {
    if (Truthy(body.name) && !body.name.Str?) || (Truthy(body.category) && !body.category.Str?) then
      Err(ServerError)
    else
      var merged := p.(
        name := if Truthy(body.name) then Trim(body.name.s) else p.name,
        price := MergedPrice(p.price, body.price),
        category := if Truthy(body.category) then Trim(body.category.s) else p.category,
        description := if Truthy(body.description) then body.description else p.description,
        fileSize := if Truthy(body.fileSize) then body.fileSize else p.fileSize,
        licenseType := if Truthy(body.licenseType) then body.licenseType else p.licenseType);
      if !PriceAccepted(merged.price) then Err(BadRequest) else Ok(merged)
  }

  /** Only the truthy fields the body supplies overwrite; the rest of the
      record is the old one. */
  lemma UpdateOverwritesSupplied(p: Product, body: Body)
    requires UpdateOutcome(p, body).Ok?
    ensures var q := UpdateOutcome(p, body).value;
      && q.name == (if Truthy(body.name) then Trim(body.name.s) else p.name)
      && q.category == (if Truthy(body.category) then Trim(body.category.s) else p.category)
      && q.price == MergedPrice(p.price, body.price)
      && (Truthy(body.description) ==> q.description == body.description)
      && (!Truthy(body.description) ==> q.description == p.description)
      && (Truthy(body.fileSize) ==> q.fileSize == body.fileSize)
      && (!Truthy(body.fileSize) ==> q.fileSize == p.fileSize)
      && (Truthy(body.licenseType) ==> q.licenseType == body.licenseType)
      && (!Truthy(body.licenseType) ==> q.licenseType == p.licenseType)
  {
  }

  /** A PUT that supplies nothing leaves a stored product as it was. */
  lemma UpdateWithEmptyBody(p: Product)
    requires WellFormed(p)
    ensures UpdateOutcome(p, EmptyBody) == Ok(p)
  {
  }

  /** The price test is `price <= 0`, so text that does not parse is stored
      as NaN instead of being refused. */
  lemma UpdateStoresNaNPrice(p: Product)
    requires WellFormed(p)
    ensures UpdateOutcome(p, EmptyBody.(price := Str("abc"))) == Ok(p.(price := Num(NaN)))
  {
    ParseIntNoDigit("abc");
  }

  // ---------------------------------------------------------------------------
  // The store

  /** The three products the server starts with. */
  function Seed(): seq<Product> {
    [ Product(1, "Adobe Photoshop 2024 (Лицензия)", Num(Int(23990)), "Программное обеспечение",
              Str("Профессиональный графический редактор для дизайнеров"), Str("2.1 GB"),
              Str("Пожизненная"), 1245),
      Product(2, "Курс по React: Полное руководство", Num(Int(8900)), "Онлайн-курсы",
              Str("Исчерпывающий курс по React с нуля"), Str("15.7 GB"),
              Str("Пожизненный доступ"), 3210),
      Product(3, "Фотобанк Премиум: 5000+ фото", Num(Int(12990)), "Стоковые медиа",
              Str("Коллекция профессиональных фотографий"), Str("8.5 GB"),
              Str("Коммерческая"), 890) ]
  }

  /** A product as GET /api/products/:id leaves it: one more download,
      everything else as it was, still well formed. */
  function Viewed(p: Product): (q: Product)
    ensures q.id == p.id && q.downloads == p.downloads + 1
    ensures q == p.(downloads := q.downloads)
    ensures WellFormed(p) ==> WellFormed(q)
  {
    p.(downloads := p.downloads + 1)
  }

  /** What the store keeps true: ids are unique, every stored id was
      issued, every issued id is below the counter, and every product is
      well formed. */
  ghost predicate StoreInvariant(ps: seq<Product>, issued: set<int>, nextId: int) {
    && UniqueIds(ps)
    && (forall i :: 0 <= i < |ps| ==> ps[i].id in issued && WellFormed(ps[i]))
    && (forall id :: id in issued ==> id < nextId)
  }

  /** The seed products carry ids 1, 2 and 3 and are well formed. */
  lemma SeedWellFormed()
    ensures |Seed()| == 3
    ensures forall i :: 0 <= i < 3 ==> Seed()[i].id == i + 1 && WellFormed(Seed()[i])
  {
    var seed := Seed();
    assert WellFormed(seed[0]) && WellFormed(seed[1]) && WellFormed(seed[2]);
  }

  lemma SeedInvariant()
    ensures StoreInvariant(Seed(), {1, 2, 3}, 4)
  {
    SeedWellFormed();
  }

  /** Consuming an id keeps the invariant; appending a well-formed product
      that carries it too. */
  lemma IssueKeepsInvariant(ps: seq<Product>, issued: set<int>, nextId: int, p: Option<Product>)
    requires StoreInvariant(ps, issued, nextId)
    requires p.Some? ==> p.value.id == nextId && WellFormed(p.value)
    ensures var after := if p.Some? then ps + [p.value] else ps;
      StoreInvariant(after, issued + {nextId}, nextId + 1)
  {
    if p.Some? {
      var after := ps + [p.value];
      forall i | 0 <= i < |ps|
        ensures after[i].id != nextId
      {
        assert ps[i].id in issued;
      }
    }
  }

  /** Replacing a product by a well-formed one with the same id keeps the
      invariant. */
  lemma ReplaceKeepsInvariant(ps: seq<Product>, issued: set<int>, nextId: int, k: nat, p: Product)
    requires StoreInvariant(ps, issued, nextId) && k < |ps|
    requires p.id == ps[k].id && WellFormed(p)
    ensures StoreInvariant(ps[k := p], issued, nextId)
  {
  }

  /** Splicing a product out keeps the invariant, and its id is then found
      nowhere. */
  lemma RemoveKeepsInvariant(ps: seq<Product>, issued: set<int>, nextId: int, k: nat)
    requires StoreInvariant(ps, issued, nextId) && k < |ps|
    ensures StoreInvariant(ps[..k] + ps[k + 1..], issued, nextId)
    ensures FindById(ps[..k] + ps[k + 1..], Int(ps[k].id)).None?
  {
    var after := ps[..k] + ps[k + 1..];
    assert forall i :: 0 <= i < |after| ==> after[i] == ps[if i < k then i else i + 1];
  }

  class Store {
    /** `digitalProducts`, in insertion order. */
    var products: seq<Product>
    /** `nextId`: the id the next POST stamps. */
    var nextId: int
    /** Every id the server has stamped so far, including deleted ones. */
    ghost var issued: set<int>

    ghost predicate Valid()
      reads this
    {
      StoreInvariant(products, issued, nextId)
    }

    constructor ()
      ensures Valid()
      ensures products == Seed() && nextId == 4 && issued == {1, 2, 3}
    {
      products := Seed();
      nextId := 4;
      issued := {1, 2, 3};
      SeedInvariant();
    }

    /** GET /api/products: the filtered copy; the store is not changed. */
    method List(q: ListQuery) returns (r: seq<Product>)
      ensures r == ListProducts(products, q)
      ensures forall p :: p in r <==> p in products && Listed(q, p)
    {
      ListIsConjunction(products, q);
      r := ListProducts(products, q);
    }

    /** GET /api/products/categories: the distinct categories in first-seen
        order; the store is not changed. */
    method CategoryList() returns (r: seq<string>)
      ensures r == Categories(products)
    {
      r := Categories(products);
    }

    /** GET /api/products/popular: the most downloaded products, from a
        sorted copy; the store keeps its order. */
    method PopularList(limit: Option<string>) returns (r: seq<Product>)
      ensures r == Popular(products, limit)
      ensures ByDownloads(r) && multiset(r) <= multiset(products)
    {
      PopularShape(products, limit);
      r := Popular(products, limit);
    }

    /** GET /api/products/search; the store is not changed. */
    method SearchList(q: Option<string>) returns (r: Result<seq<Product>>)
      ensures r == Search(products, q)
    {
      r := Search(products, q);
    }

    /** GET /api/products/:id: an unknown id answers 404 and changes nothing;
        a known one counts one more download on that product alone and
        answers with it. */
    method GetById(idParam: string) returns (r: Result<Product>)
      requires Valid()
      modifies this
      ensures Valid() && nextId == old(nextId) && issued == old(issued)
      ensures match FindById(old(products), ParseInt(idParam))
        case None => r == Err(NotFound) && products == old(products)
        case Some(k) => r == Ok(Viewed(old(products)[k])) && products == old(products)[k := Viewed(old(products)[k])]
    {
      var found := FindById(products, ParseInt(idParam));
      if found.None? {
        return Err(NotFound);
      }
      var k := found.value;
      var product := Viewed(products[k]);
      ReplaceKeepsInvariant(products, issued, nextId, k, product);
      products := products[k := product];
      r := Ok(product);
    }

    /** POST /api/products: a 400 changes nothing; a 500 has already consumed
        an id; a success stamps the old `nextId`, an id never issued before,
        and appends the product after all the others. */
    method Create(body: Body) returns (r: Result<Product>)
      requires Valid()
      modifies this
      ensures Valid()
      ensures r == CreateOutcome(body, old(nextId))
      ensures r == Err(BadRequest) ==> nextId == old(nextId) && issued == old(issued)
      ensures r != Err(BadRequest) ==> nextId == old(nextId) + 1 && issued == old(issued) + {old(nextId)}
      ensures products == if r.Ok? then old(products) + [r.value] else old(products)
      ensures r.Ok? ==> r.value.id !in old(issued)
      ensures r.Ok? ==> FindById(products, Int(r.value.id)) == Some(|products| - 1)
    {
      r := CreateOutcome(body, nextId);
      if r != Err(BadRequest) {
        IssueKeepsInvariant(products, issued, nextId, if r.Ok? then Some(r.value) else None);
        issued := issued + {nextId};
        nextId := nextId + 1;
      }
      if r.Ok? {
        products := products + [r.value];
        FindByIdUnique(products, |products| - 1);
      }
    }

    /** PUT /api/products/:id: an unknown id answers 404, a refused merge
        answers 400 or 500, and neither changes anything; a success replaces
        that one product with the merged record. */
    method Update(idParam: string, body: Body) returns (r: Result<Product>)
      requires Valid()
      modifies this
      ensures Valid() && nextId == old(nextId) && issued == old(issued)
      ensures match FindById(old(products), ParseInt(idParam))
        case None => r == Err(NotFound) && products == old(products)
        case Some(k) =>
          && r == UpdateOutcome(old(products)[k], body)
          && products == if r.Ok? then old(products)[k := r.value] else old(products)
    {
      var found := FindById(products, ParseInt(idParam));
      if found.None? {
        return Err(NotFound);
      }
      var k := found.value;
      r := UpdateOutcome(products[k], body);
      if r.Ok? {
        ReplaceKeepsInvariant(products, issued, nextId, k, r.value);
        products := products[k := r.value];
      }
    }

    /** DELETE /api/products/:id: an unknown id answers 404 and changes
        nothing; otherwise the product is spliced out, the others keep their
        order, it is returned, and its id is no longer found. */
    method Delete(idParam: string) returns (r: Result<Product>)
      requires Valid()
      modifies this
      ensures Valid() && nextId == old(nextId) && issued == old(issued)
      ensures match FindById(old(products), ParseInt(idParam))
        case None => r == Err(NotFound) && products == old(products)
        case Some(k) => r == Ok(old(products)[k]) && products == old(products)[..k] + old(products)[k + 1..]
      ensures r.Ok? ==> FindById(products, ParseInt(idParam)).None?
    {
      var found := FindById(products, ParseInt(idParam));
      if found.None? {
        return Err(NotFound);
      }
      var k := found.value;
      r := Ok(products[k]);
      RemoveKeepsInvariant(products, issued, nextId, k);
      products := products[..k] + products[k + 1..];
    }
  }
}
