/** The logic of ProductModal.jsx: the effect that fills the form when the
    modal opens, and handleSubmit, which either refuses the submission at
    the first check that fails or hands a cleaned payload to `onSubmit`. */
module ProductForm {
  import opened Js
  import opened Http
  import opened ElectronicsStore

  /** The form state. The three text inputs hold text; price and stock hold
      what their inputs produced (text) or the number copied from the
      product being edited. */
  datatype FormData = FormData(name: string, category: string, description: string, price: Value, stock: Value)

  /** The state with every field empty. */
  const Blank := FormData("", "", "", Str(""), Str(""))

  /** The checks of handleSubmit, in the order they run. */
  datatype FormError = NameMissing | CategoryMissing | DescriptionMissing | InvalidPrice | InvalidStock

  /** What `onSubmit` receives; `id` is absent when no product is edited. */
  datatype Payload = Payload(id: Option<string>, name: string, category: string, description: string, price: int, stock: int)

  datatype Submission = Submitted(payload: Payload) | Refused(error: FormError)

  /** `n || ''` on a number: zero and NaN become the empty text. */
  function NumberOrBlank(n: Number): (v: Value)
    ensures Truthy(Num(n)) ==> v == Num(n)
    ensures !Truthy(Num(n)) ==> v == Str("")
    ensures ToNumber(v) == if n.Int? then n else Int(0)
  {
    if n.Int? && n.i != 0 then Num(n) else Str("")
  }

  /** The effect on `[open, initialProduct]`. Opening with a product copies
      it into the form (text as is, a falsy price or stock as ''); opening
      without one clears the form; a closed modal keeps its state. */
  function OnOpen(open: bool, initial: Option<Item>, current: FormData): (f: FormData)
    ensures !open ==> f == current
    ensures open && initial.None? ==> f == Blank
    ensures open && initial.Some? ==>
      && f.name == initial.value.name
      && f.category == initial.value.category
      && f.description == initial.value.description
      && f.price == (if Truthy(Num(initial.value.price)) then Num(initial.value.price) else Str(""))
      && f.stock == (if Truthy(Num(initial.value.stock)) then Num(initial.value.stock) else Str(""))
      && ToNumber(f.price) == (if initial.value.price.Int? then initial.value.price else Int(0))
      && ToNumber(f.stock) == (if initial.value.stock.Int? then initial.value.stock else Int(0))
  {
    if !open then current
    else match initial
      case None => Blank
      case Some(p) => FormData(p.name, p.category, p.description, NumberOrBlank(p.price), NumberOrBlank(p.stock))
  }

  /** Number(x) passes `Number.isFinite(x) && x >= 0`. */
  predicate Acceptable(n: Number) {
    n.Int? && n.i >= 0
  }

  /** The position of each check in the order handleSubmit runs them. */
  function Rank(e: FormError): nat {
    match e
    case NameMissing => 0
    case CategoryMissing => 1
    case DescriptionMissing => 2
    case InvalidPrice => 3
    case InvalidStock => 4
  }

  /** The form fails the check. */
  predicate Fails(form: FormData, e: FormError) {
    match e
    case NameMissing => Trim(form.name) == ""
    case CategoryMissing => Trim(form.category) == ""
    case DescriptionMissing => Trim(form.description) == ""
    case InvalidPrice => !Acceptable(ToNumber(form.price))
    case InvalidStock => !Acceptable(ToNumber(form.stock))
  }

  /** A form that passes the first `n` checks fails none of them. */
  lemma PassesFirst(form: FormData, n: nat)
    requires n > 0 ==> Trim(form.name) != ""
    requires n > 1 ==> Trim(form.category) != ""
    requires n > 2 ==> Trim(form.description) != ""
    requires n > 3 ==> Acceptable(ToNumber(form.price))
    requires n > 4 ==> Acceptable(ToNumber(form.stock))
    ensures forall e :: Rank(e) < n ==> !Fails(form, e)
  {
    forall e | Rank(e) < n
      ensures !Fails(form, e)
    {
      match e
      case NameMissing =>
      case CategoryMissing =>
      case DescriptionMissing =>
      case InvalidPrice =>
      case InvalidStock =>
    }
  }

  /** handleSubmit: a refusal reports a check that fails, and every check
      before it passes, so it is the first failing one; a submission means
      every check passes, and its payload carries the trimmed text, the
      numbers, and the edited product's id. */
  function HandleSubmit(form: FormData, initial: Option<Item>): (r: Submission)
    ensures r.Refused? ==> Fails(form, r.error)
    ensures r.Refused? ==> forall e :: Rank(e) < Rank(r.error) ==> !Fails(form, e)
    ensures r.Submitted? ==> forall e :: !Fails(form, e)
    ensures r.Submitted? ==>
      && r.payload.id == (if initial.Some? then Some(initial.value.id) else None)
      && r.payload.name == Trim(form.name) && r.payload.name != ""
      && r.payload.category == Trim(form.category) && r.payload.category != ""
      && r.payload.description == Trim(form.description) && r.payload.description != ""
      && Int(r.payload.price) == ToNumber(form.price) && r.payload.price >= 0
      && Int(r.payload.stock) == ToNumber(form.stock) && r.payload.stock >= 0
  {
    var name, category, description := Trim(form.name), Trim(form.category), Trim(form.description);
    var price, stock := ToNumber(form.price), ToNumber(form.stock);
    if name == "" then
      assert Fails(form, NameMissing);
      Refused(NameMissing)
    else if category == "" then
      PassesFirst(form, 1);
      assert Fails(form, CategoryMissing);
      Refused(CategoryMissing)
    else if description == "" then
      PassesFirst(form, 2);
      assert Fails(form, DescriptionMissing);
      Refused(DescriptionMissing)
    else if !price.Int? || price.i < 0 then
      PassesFirst(form, 3);
      assert Fails(form, InvalidPrice);
      Refused(InvalidPrice)
    else if !stock.Int? || stock.i < 0 then
      PassesFirst(form, 4);
      assert Fails(form, InvalidStock);
      Refused(InvalidStock)
    else
      PassesFirst(form, 5);
      Submitted(Payload(
        if initial.Some? then Some(initial.value.id) else None,
        name, category, description, price.i, stock.i))
  }

  /** With the text filled in and a valid stock, a price is accepted exactly
      when it is not negative: zero passes, -1 does not. */
  lemma PriceBoundary(form: FormData, initial: Option<Item>, price: int)
    requires Trim(form.name) != "" && Trim(form.category) != "" && Trim(form.description) != ""
    requires Acceptable(ToNumber(form.stock))
    ensures HandleSubmit(form.(price := Num(Int(price))), initial).Submitted? <==> price >= 0
  {
  }

  /** Opening the modal without a product and submitting straight away is
      refused at the first check, whatever the form held before. */
  lemma ResetThenSubmit(current: FormData, initial: Option<Item>)
    ensures HandleSubmit(OnOpen(true, None, current), initial) == Refused(NameMissing)
  {
  }

  /** Opening the modal on a stored product and submitting it unchanged
      sends that product back as it is. */
  lemma EditRoundTrip(p: Item, current: FormData)
    requires TextTrimmed(p) && p.name != "" && p.category != "" && p.description != ""
    requires Acceptable(p.price) && Acceptable(p.stock)
    ensures HandleSubmit(OnOpen(true, Some(p), current), Some(p))
         == Submitted(Payload(Some(p.id), p.name, p.category, p.description, p.price.i, p.stock.i))
  {
    TrimTrimmed(p.name);
    TrimTrimmed(p.category);
    TrimTrimmed(p.description);
  }

  /** The body the payload becomes when the client posts it. */
  function AsBody(payload: Payload): Body {
    Body(Str(payload.name), Str(payload.category), Str(payload.description),
         Num(Int(payload.price)), Num(Int(payload.stock)))
  }

  /** A payload the form submits passes the server's POST checks, and the
      server stores it as sent. */
  lemma SubmittedIsCreated(form: FormData, initial: Option<Item>, freshId: string)
    requires HandleSubmit(form, initial).Submitted?
    ensures var payload := HandleSubmit(form, initial).payload;
      CreateOutcome(AsBody(payload), freshId)
        == Ok(Item(freshId, payload.name, payload.category, payload.description, Int(payload.price), Int(payload.stock)))
  {
    var payload := HandleSubmit(form, initial).payload;
    TrimTrimmed(payload.name);
    TrimTrimmed(payload.category);
    TrimTrimmed(payload.description);
    assert RequiredText(Str(payload.name)) == Ok(payload.name);
    assert RequiredText(Str(payload.category)) == Ok(payload.category);
    assert RequiredText(Str(payload.description)) == Ok(payload.description);
  }
}
