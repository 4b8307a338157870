/** The electronics store of src/app.js: the module-level `products` array
    with string ids from nanoid, `findProductOr404`, and the list, get,
    create, patch and delete handlers. Generated ids arrive as parameters;
    nothing checks them for collisions, and neither does the model. */
module ElectronicsStore {
  import opened Js
  import opened Http
  import opened Seqs

  /** A stored product. Handlers only ever write trimmed text and the
      result of Number() into these fields. */
  datatype Item = Item(id: string, name: string, category: string, description: string, price: Number, stock: Number)

  /** The fields of a POST or PATCH body that the handlers read. */
  datatype Body = Body(name: Value, category: Value, description: Value, price: Value, stock: Value)

  /** A body that supplies nothing. */
  const EmptyBody := Body(Undefined, Undefined, Undefined, Undefined, Undefined)

  /** The three text fields of every stored product carry no white space at
      either end. */
  predicate TextTrimmed(p: Item) {
    IsTrimmed(p.name) && IsTrimmed(p.category) && IsTrimmed(p.description)
  }

  /** The first position holding the id, if any (`products.find`). */
  function IndexOf(ps: seq<Item>, id: string): (k: Option<nat>)
    ensures k.Some? ==> k.value < |ps| && ps[k.value].id == id
    ensures k.Some? ==> forall i :: 0 <= i < k.value ==> ps[i].id != id
    ensures k.None? <==> forall i :: 0 <= i < |ps| ==> ps[i].id != id
  {
    if ps == [] then None
    else if ps[0].id == id then Some(0)
    else
      match IndexOf(ps[1..], id)
      case None => None
      case Some(k) => Some(k + 1)
  }

  /** `findProductOr404`: the first product with the id, or 404 when no
      product has it. */
  function FindProductOr404(ps: seq<Item>, id: string): (r: Result<Item>)
    ensures r.Ok? <==> exists i :: 0 <= i < |ps| && ps[i].id == id
    ensures r.Ok? ==> r.value.id == id && r.value in ps
    ensures r.Ok? ==> exists k :: 0 <= k < |ps| && ps[k] == r.value && forall i :: 0 <= i < k ==> ps[i].id != id
    ensures r.Err? ==> r.failure == NotFound
  {
    match IndexOf(ps, id)
    case None => Err(NotFound)
    case Some(k) => Ok(ps[k])
  }

  // ---------------------------------------------------------------------------
  // POST /api/products

  /** `!field?.trim()` followed by `field.trim()`: a null or absent field, or
      one that is blank after trimming, answers 400; a field of another type
      has no `trim` and throws (500); otherwise the trimmed text. */
  function RequiredText(v: Value): (r: Result<string>)
    ensures r == Err(BadRequest) <==> v == Undefined || v == Null || (v.Str? && Trim(v.s) == "")
    ensures r == Err(ServerError) <==> v != Undefined && v != Null && !v.Str?
    ensures r.Ok? ==> v.Str? && r.value == Trim(v.s) && r.value != "" && IsTrimmed(r.value)
    ensures v.Str? && Trim(v.s) != "" ==> r == Ok(Trim(v.s))
    ensures r.Ok? || r == Err(BadRequest) || r == Err(ServerError)
  {
    match v
    case Undefined => Err(BadRequest)
    case Null => Err(BadRequest)
    case Str(s) => if Trim(s) == "" then Err(BadRequest) else Ok(Trim(s))
    case _ => Err(ServerError)
  }

  /** The POST handler with `freshId` as what nanoid returns: name, category
      and description are checked in that order, the first failure decides
      the answer, then an absent price or stock answers 400; otherwise the
      product has the trimmed text and Number() of price and stock. */
  function CreateOutcome(body: Body, freshId: string): (r: Result<Item>)
    ensures var name, category, description :=
              RequiredText(body.name), RequiredText(body.category), RequiredText(body.description);
      && (r.Ok? <==> name.Ok? && category.Ok? && description.Ok?
                      && body.price != Undefined && body.stock != Undefined)
      && (r == Err(ServerError) <==>
            || name == Err(ServerError)
            || (name.Ok? && category == Err(ServerError))
            || (name.Ok? && category.Ok? && description == Err(ServerError)))
      && (r.Ok? ==> r.value == Item(freshId, name.value, category.value, description.value,
                                    ToNumber(body.price), ToNumber(body.stock)))
    ensures r.Ok? || r == Err(BadRequest) || r == Err(ServerError)
    ensures r.Ok? ==> TextTrimmed(r.value) && r.value.name != "" && r.value.category != "" && r.value.description != ""
  {
    var name := RequiredText(body.name);
    if name.Err? then Err(name.failure)
    else
      var category := RequiredText(body.category);
      if category.Err? then Err(category.failure)
      else
        var description := RequiredText(body.description);
        if description.Err? then Err(description.failure)
        else if body.price == Undefined || body.stock == Undefined then Err(BadRequest)
        else Ok(Item(freshId, name.value, category.value, description.value,
                     ToNumber(body.price), ToNumber(body.stock)))
  }

  // ---------------------------------------------------------------------------
  // PATCH /api/products/:id

  /** `field.trim()` on a supplied field throws unless it is a string. */
  predicate Throws(v: Value) {
    v != Undefined && !v.Str?
  }

  /** What a text field holds after the patch wrote it: trimmed text
      stays trimmed. */
  function Written(current: string, supplied: Value): (r: string)
    ensures IsTrimmed(current) ==> IsTrimmed(r)
  {
    if supplied.Str? then Trim(supplied.s) else current
  }

  /** What a number field holds after the patch wrote it. */
  function NumberWritten(current: Number, supplied: Value): Number {
    if supplied == Undefined then current else ToNumber(supplied)
  }

  /** The record after a PATCH, and whether it threw on the way. */
  datatype Patched = Patched(item: Item, threw: bool)

  /** The effect of the PATCH handler's five in-place writes, stated by
      where they stop: the text fields before the first field that throws
      are written, the ones from it on are not, and price and stock are
      written only when nothing threw. */
  function ApplyPatch(p: Item, body: Body): (r: Patched)
    ensures r.item.id == p.id
    ensures r.threw <==> Throws(body.name) || Throws(body.category) || Throws(body.description)
    ensures !r.threw ==> && r.item.price == NumberWritten(p.price, body.price)
                         && r.item.stock == NumberWritten(p.stock, body.stock)
    ensures TextTrimmed(p) ==> TextTrimmed(r.item)
  {
    var stop :=
      if Throws(body.name) then 0
      else if Throws(body.category) then 1
      else if Throws(body.description) then 2
      else 3;
    Patched(
      Item(
        p.id,
        if stop > 0 then Written(p.name, body.name) else p.name,
        if stop > 1 then Written(p.category, body.category) else p.category,
        if stop > 2 then Written(p.description, body.description) else p.description,
        if stop > 2 then NumberWritten(p.price, body.price) else p.price,
        if stop > 2 then NumberWritten(p.stock, body.stock) else p.stock),
      stop < 3)
  }

  /** A PATCH that does not throw overwrites exactly the fields that are
      present: text trimmed, numbers through Number(). */
  lemma PatchOverwritesPresent(p: Item, body: Body)
    requires !ApplyPatch(p, body).threw
    ensures var q := ApplyPatch(p, body).item;
      && (body.name == Undefined ==> q.name == p.name)
      && (body.name != Undefined ==> q.name == Trim(body.name.s))
      && (body.category == Undefined ==> q.category == p.category)
      && (body.category != Undefined ==> q.category == Trim(body.category.s))
      && (body.description == Undefined ==> q.description == p.description)
      && (body.description != Undefined ==> q.description == Trim(body.description.s))
      && (body.price == Undefined ==> q.price == p.price)
      && (body.price != Undefined ==> q.price == ToNumber(body.price))
      && (body.stock == Undefined ==> q.stock == p.stock)
      && (body.stock != Undefined ==> q.stock == ToNumber(body.stock))
  {
  }

  /** An empty PATCH leaves the record identical. */
  lemma PatchEmptyBody(p: Item)
    ensures ApplyPatch(p, EmptyBody) == Patched(p, false)
  {
  }

  /** Writing the same supplied text twice is writing it once. */
  lemma WrittenTwice(current: string, supplied: Value)
    ensures Written(Written(current, supplied), supplied) == Written(current, supplied)
  {
    if supplied.Str? {
      TrimTrimmed(Trim(supplied.s));
    }
  }

  /** Sending the same PATCH twice leaves the record as sending it once. */
  lemma PatchIdempotent(p: Item, body: Body)
    ensures ApplyPatch(ApplyPatch(p, body).item, body) == ApplyPatch(p, body)
  {
    WrittenTwice(p.name, body.name);
    WrittenTwice(p.category, body.category);
    WrittenTwice(p.description, body.description);
  }

  /** A PATCH that throws keeps the writes before the first field that
      throws; that field, the text fields after it, price and stock keep
      their old values. */
  lemma PatchStopsAtThrow(p: Item, body: Body)
    requires ApplyPatch(p, body).threw
    ensures var q := ApplyPatch(p, body).item;
      && q.name == (if Throws(body.name) then p.name else Written(p.name, body.name))
      && q.category == (if Throws(body.name) || Throws(body.category) then p.category
                        else Written(p.category, body.category))
      && q.description == p.description
      && q.price == p.price
      && q.stock == p.stock
  {
  }

  /** A PATCH whose category is not a string still renames the product
      before it throws: the answer is 500, the write before it stays. */
  lemma PatchPartialWrite(p: Item)
    ensures var r := ApplyPatch(p, EmptyBody.(name := Str("Планшет"), category := Num(Int(5))));
      && r.threw
      && r.item == p.(name := "Планшет")
  {
    TrimTrimmed("Планшет");
  }

  // ---------------------------------------------------------------------------
  // DELETE /api/products/:id

  /** The test `p.id !== id` that DELETE keeps products by. */
  function OtherThan(id: string): Item -> bool {
    (p: Item) => p.id != id
  }

  /** The products DELETE keeps have other ids, keep their order, and are
      all of the products with other ids. */
  lemma DeleteKeepsOthers(ps: seq<Item>, id: string)
    ensures forall p :: p in Filter(ps, OtherThan(id)) <==> p in ps && p.id != id
    ensures multiset(Filter(ps, OtherThan(id))) <= multiset(ps)
    ensures (forall i :: 0 <= i < |ps| ==> ps[i].id != id) ==> Filter(ps, OtherThan(id)) == ps
  {
    FilterMultiset(ps, OtherThan(id));
    if forall i :: 0 <= i < |ps| ==> ps[i].id != id {
      FilterKeepsAll(ps, OtherThan(id));
    }
  }

  // ---------------------------------------------------------------------------
  // The store

  /** The ten products the server starts with, given the ids nanoid drew. */
  function Seed(ids: seq<string>): seq<Item>
    requires |ids| == 10
  {
    [ Item(ids[0], "Ноутбук ASUS ROG", "Ноутбуки", "Игровой ноутбук с RTX 4060, 16GB RAM", Int(120000), Int(5)),
      Item(ids[1], "Смартфон iPhone 15", "Смартфоны", "128GB, черный, A16 Bionic", Int(89990), Int(8)),
      Item(ids[2], "Наушники Sony WH-1000XM5", "Аудио", "Беспроводные, шумоподавление", Int(29990), Int(12)),
      Item(ids[3], "Планшет Samsung Tab S9", "Планшеты", "11\" AMOLED, 256GB", Int(69990), Int(3)),
      Item(ids[4], "Монитор LG 27\" 4K", "Мониторы", "IPS, HDR10, USB-C", Int(34990), Int(7)),
      Item(ids[5], "Клавиатура Logitech MX", "Аксессуары", "Механическая, беспроводная", Int(12990), Int(15)),
      Item(ids[6], "Мышь Razer DeathAdder", "Аксессуары", "Оптическая, 16000 DPI", Int(4990), Int(20)),
      Item(ids[7], "Внешний SSD Samsung T7", "Хранение", "1TB, USB 3.2", Int(8990), Int(9)),
      Item(ids[8], "Умные часы Galaxy Watch 6", "Гаджеты", "44mm, GPS, Bluetooth", Int(24990), Int(4)),
      Item(ids[9], "Роутер TP-Link Archer", "Сетевое", "WiFi 6, гигабитный", Int(7990), Int(6)) ]
  }

  /** The seed text carries no surrounding white space (one product at a
      time, then all of them). */
  lemma SeedItem0Trimmed(ids: seq<string>)
    requires |ids| == 10
    ensures TextTrimmed(Seed(ids)[0])
  {
  }

  lemma SeedItem1Trimmed(ids: seq<string>)
    requires |ids| == 10
    ensures TextTrimmed(Seed(ids)[1])
  {
  }

  lemma SeedItem2Trimmed(ids: seq<string>)
    requires |ids| == 10
    ensures TextTrimmed(Seed(ids)[2])
  {
  }

  lemma SeedItem3Trimmed(ids: seq<string>)
    requires |ids| == 10
    ensures TextTrimmed(Seed(ids)[3])
  {
  }

  lemma SeedItem4Trimmed(ids: seq<string>)
    requires |ids| == 10
    ensures TextTrimmed(Seed(ids)[4])
  {
  }

  lemma SeedItem5Trimmed(ids: seq<string>)
    requires |ids| == 10
    ensures TextTrimmed(Seed(ids)[5])
  {
  }

  lemma SeedItem6Trimmed(ids: seq<string>)
    requires |ids| == 10
    ensures TextTrimmed(Seed(ids)[6])
  {
  }

  lemma SeedItem7Trimmed(ids: seq<string>)
    requires |ids| == 10
    ensures TextTrimmed(Seed(ids)[7])
  {
  }

  lemma SeedItem8Trimmed(ids: seq<string>)
    requires |ids| == 10
    ensures TextTrimmed(Seed(ids)[8])
  {
  }

  lemma SeedItem9Trimmed(ids: seq<string>)
    requires |ids| == 10
    ensures TextTrimmed(Seed(ids)[9])
  {
  }

  lemma SeedTrimmed(ids: seq<string>)
    requires |ids| == 10
    ensures forall p :: p in Seed(ids) ==> TextTrimmed(p)
  {
    SeedItem0Trimmed(ids);
    SeedItem1Trimmed(ids);
    SeedItem2Trimmed(ids);
    SeedItem3Trimmed(ids);
    SeedItem4Trimmed(ids);
    SeedItem5Trimmed(ids);
    SeedItem6Trimmed(ids);
    SeedItem7Trimmed(ids);
    SeedItem8Trimmed(ids);
    SeedItem9Trimmed(ids);
    EveryIndexTrimmed(Seed(ids));
  }

  /** A list whose every position holds a trimmed product holds only
      trimmed products. */
  lemma EveryIndexTrimmed(ps: seq<Item>)
    requires forall i :: 0 <= i < |ps| ==> TextTrimmed(ps[i])
    ensures forall p :: p in ps ==> TextTrimmed(p)
  {
  }

  /** Appending a trimmed product keeps every product trimmed. */
  lemma AppendTrimmed(ps: seq<Item>, p: Item)
    requires forall q :: q in ps ==> TextTrimmed(q)
    requires TextTrimmed(p)
    ensures forall q :: q in ps + [p] ==> TextTrimmed(q)
  {
  }

  /** Replacing one element brings in only the new one. */
  lemma UpdateMembers<T>(s: seq<T>, k: nat, v: T)
    requires k < |s|
    ensures forall x :: x in s[k := v] ==> x == v || x in s
  {
    forall x | x in s[k := v]
      ensures x == v || x in s
    {
      var i :| 0 <= i < |s| && s[k := v][i] == x;
      if i != k {
        assert s[i] == x;
      }
    }
  }

  /** The PATCH handler's five writes to the found record, one after the
      other; a `trim` that throws stops them, and the record keeps the
      writes made before it. */
  method WriteFields(p: Item, body: Body) returns (product: Item, threw: bool)
    ensures Patched(product, threw) == ApplyPatch(p, body)
  {
    product := p;
    threw := true;
    if body.name != Undefined {
      if !body.name.Str? {
        return;
      }
      product := product.(name := Trim(body.name.s));
    }
    if body.category != Undefined {
      if !body.category.Str? {
        return;
      }
      product := product.(category := Trim(body.category.s));
    }
    if body.description != Undefined {
      if !body.description.Str? {
        return;
      }
      product := product.(description := Trim(body.description.s));
    }
    if body.price != Undefined {
      product := product.(price := ToNumber(body.price));
    }
    if body.stock != Undefined {
      product := product.(stock := ToNumber(body.stock));
    }
    threw := false;
  }

  class Store {
    /** `products`, in insertion order. */
    var products: seq<Item>

    /** Every stored text field is trimmed. */
    ghost predicate Valid()
      reads this
    {
      forall p :: p in products ==> TextTrimmed(p)
    }

    constructor (ids: seq<string>)
      requires |ids| == 10
      ensures Valid() && products == Seed(ids)
    {
      products := Seed(ids);
      SeedTrimmed(ids);
    }

    /** GET /api/products: the products in insertion order, unchanged. */
    method List() returns (r: seq<Item>)
      ensures r == products
    {
      r := products;
    }

    /** GET /api/products/:id. */
    method Get(id: string) returns (r: Result<Item>)
      ensures r == FindProductOr404(products, id)
    {
      r := FindProductOr404(products, id);
    }

    /** POST /api/products: a refused body changes nothing; an accepted one
        appends exactly one product after all the others. */
    method Create(body: Body, freshId: string) returns (r: Result<Item>)
      requires Valid()
      modifies this
      ensures Valid()
      ensures r == CreateOutcome(body, freshId)
      ensures products == if r.Ok? then old(products) + [r.value] else old(products)
    {
      r := CreateOutcome(body, freshId);
      if r.Ok? {
        AppendTrimmed(products, r.value);
        products := products + [r.value];
      }
    }

    /** PATCH /api/products/:id: an unknown id answers 404 and changes
        nothing; otherwise the found product's fields are written one after
        the other, in place, and a write that throws ends the handler with
        500 and leaves the writes before it. No other product changes. */
    method Patch(id: string, body: Body) returns (r: Result<Item>)
      requires Valid()
      modifies this
      ensures Valid()
      ensures match IndexOf(old(products), id)
        case None => r == Err(NotFound) && products == old(products)
        case Some(k) =>
          var patched := ApplyPatch(old(products)[k], body);
          && products == old(products)[k := patched.item]
          && r == if patched.threw then Err(ServerError) else Ok(patched.item)
    {
      var found := IndexOf(products, id);
      if found.None? {
        return Err(NotFound);
      }
      var k := found.value;
      var product, threw := WriteFields(products[k], body);
      UpdateMembers(products, k, product);
      products := products[k := product];
      r := if threw then Err(ServerError) else Ok(product);
    }

    /** DELETE /api/products/:id: 404 and no change when no product has the
        id; otherwise every product with that id is removed and the others
        keep their order. */
    method Delete(id: string) returns (r: Result<()>)
      requires Valid()
      modifies this
      ensures Valid()
      ensures IndexOf(old(products), id).None? ==> r == Err(NotFound) && products == old(products)
      ensures IndexOf(old(products), id).Some? ==> r == Ok(()) && products == Filter(old(products), OtherThan(id))
      ensures forall i :: 0 <= i < |products| ==> products[i].id != id
    {
      if IndexOf(products, id).None? {
        return Err(NotFound);
      }
      products := Filter(products, OtherThan(id));
      r := Ok(());
      forall i | 0 <= i < |products|
        ensures products[i].id != id
      {
        assert products[i] in products;
      }
    }
  }
}
