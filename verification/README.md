# Digital-goods and electronics product stores, modelled in Dafny

The repository has two small Express servers that each keep a product
catalogue in memory, and a React modal that validates a product form before
it is posted. This project models their logic and proves what it promises:

- **app.js**, the digital-goods store. It holds the `digitalProducts` array
  and the `nextId` counter. Handlers:
  - get-by-id, which counts a download;
  - create, update and delete;
  - four read-only queries: the filtered list, the distinct categories, the
    most downloaded products and the text search.

  Its route table is modelled as well. Express tries routes in the order
  they are registered, so the popular and search routes can never be reached
  (see Findings).
- **src/app.js**, the electronics store. It holds the `products` array with
  nanoid string ids. It has `findProductOr404` and the list, get, create,
  in-place PATCH and filtering delete handlers.
- **src/components/ProductModal/ProductModal.jsx**: the effect that fills or
  resets the form when the modal opens, and `handleSubmit`. The latter either
  reports the first failing check or builds the payload for `onSubmit`.

Modules:

| module | models |
|---|---|
| `Js` | JavaScript runtime pieces the code relies on. Request-body values and their truthiness; `trim`, `toLowerCase` and `includes`; `parseInt`, `parseFloat` and `Number()` on integer text; the end index of `slice`. |
| `Http` | The three error answers: 400, 404 and 500. |
| `Seqs` | `Array.prototype.filter`, and the facts about it that the queries need. |
| `DigitalCatalog` | The app.js product record and its read-only queries, as functions. |
| `DigitalStore` | The app.js store. It is a class with `products`, `nextId` and a ghost set of issued ids. Its handlers are methods, and each is proved against a function that defines its outcome. |
| `DigitalRoutes` | The app.js route table and Express's first-match dispatch. |
| `ElectronicsStore` | The src/app.js store. It is a class with `products`. The PATCH handler's five in-place writes are a method, proved against a declarative definition. |
| `ProductForm` | The modal's reset effect and `handleSubmit`, as functions. |

Things that come from outside the code are parameters:

- the ids nanoid draws (`ids` and `freshId`);
- the request body (`Body`);
- the query string (`ListQuery` and `Option<string>`);
- the path (`Path`).

A `TypeError` thrown inside a handler becomes `Err(ServerError)`. In app.js
this is the handler's own `catch`; in src/app.js it is Express's error
handler.

Four behaviours of the code are easy to misread, and the model follows the
code as written:

- PATCH in src/app.js writes fields one at a time, in place. A `trim` that
  throws on a later field leaves the earlier writes in the store, so a 500
  is not all-or-nothing.
- POST in src/app.js checks only that price and stock are present. It does
  not check their range.
- PUT in app.js refuses only a merged price that is `<= 0`. Text that does
  not parse is stored as NaN, and `true` is stored as it is.
- In app.js, popular and search are unreachable over HTTP. The 404
  handler's list of endpoints (app.js:352-361) advertises them all the same.

## Model

| member | source | states |
|---|---|---|
| Js.Trim | app.js:183 | trim leaves no white space at either end and never lengthens the text |
| Js.TrimDropsSpace | app.js:183-185 | trim returns a contiguous slice of the input, and everything it cut away is white space |
| Js.TrimBlank | src/app.js:61 | the trimmed text is empty exactly when every character is white space |
| Js.TrimTrimmed | src/app.js:68-70 | trim leaves text that has no surrounding space unchanged |
| Js.Truthy | app.js:166 | JavaScript truthiness of a body value: undefined, null, false, 0, NaN and '' are falsy. It is a predicate with no contract of its own; CreateOutcome, UpdateOverwritesSupplied and NumberOrBlank state the behaviour that depends on it |
| Js.ToLower | app.js:78 | lower-casing keeps the length, character by character; ToLowerIdempotent and ListCategoryIgnoresCase state the rest |
| Js.ToLowerIdempotent | app.js:78 | lower-casing twice is lower-casing once: a lower-cased term is already in the form it is compared in |
| Js.Includes | app.js:327-328 | `includes`; IncludesAt states its meaning |
| Js.IncludesAt | app.js:327-328 | includes holds exactly when the term occurs at some index |
| Js.ParseInt | app.js:134 | `parseInt`, and `parseFloat` on integer text (app.js:84, 92, 184, 229). ParseIntNoDigit, ParseIntDecimal and UpdateStoresNaNPrice state its behaviour |
| Js.ParseIntNoDigit | app.js:134 | parseInt of text starting with a letter is NaN |
| Js.ParseIntDecimal | app.js:134 | parseInt reads back the decimal text of every integer |
| Js.StringToNumber | src/app.js:71-72 | `Number()` on text. The blank string is 0, and text that is not a signed run of digits is NaN. NumberDecimal states the round trip |
| Js.NumberDecimal | src/app.js:71-72 | Number() reads back the decimal text of every integer |
| Js.ToNumber | src/app.js:88-89 | `Number()` on a body value. Its behaviour is stated by ElectronicsStore.CreateOutcome, ElectronicsStore.PatchOverwritesPresent and ProductForm.HandleSubmit |
| Js.SliceEnd | app.js:297 | the slice end never exceeds the length, and an in-range limit is taken as is |
| Seqs.Filter | app.js:77-79 | the result keeps exactly the elements that pass the test, and is no longer than the input |
| Seqs.FilterThenFilter | app.js:76-96 | two filters in a row are one filter on the conjunction of their tests |
| Seqs.FilterMultiset | src/app.js:98 | filtering only drops elements |
| DigitalCatalog.ListProducts | app.js:73-96 | the list is drawn from the store and no longer than it; ListIsConjunction states exactly which products it holds, in store order |
| DigitalCatalog.CategoryStep | app.js:76-80 | the optional category step is one filter that passes everything when no category is given |
| DigitalCatalog.MinStep | app.js:83-88 | the optional minimum-price step is one filter with the same property |
| DigitalCatalog.MaxStep | app.js:91-96 | the optional maximum-price step is one filter with the same property |
| DigitalCatalog.ListIsChain | app.js:73-96 | the handler's three steps are the three tests applied one after the other |
| DigitalCatalog.ChainIsListed | app.js:73-96 | the three tests in a row are one filter on `Listed` |
| DigitalCatalog.ListIsConjunction | app.js:73-101 | the list is the store's subsequence, in store order, of exactly the products that satisfy every given test; it is no longer than the store |
| DigitalCatalog.ListCategoryIgnoresCase | app.js:76-79 | two category spellings that lower-case alike list the same products |
| DigitalCatalog.Unseen | app.js:115 | the survivors are exactly the elements not seen before, each once |
| DigitalCatalog.Categories | app.js:115 | the categories have no duplicates, and are exactly the categories of the products |
| DigitalCatalog.UnseenFirstSeenOrder | app.js:115 | Set insertion order: an earlier survivor first occurs earlier in the input |
| DigitalCatalog.CategoriesFirstSeen | app.js:115 | categories come in the order the store first mentions them |
| DigitalCatalog.InsertByDownloads | app.js:296 | the insertion step adds exactly the one product |
| DigitalCatalog.InsertKeepsOrder | app.js:296 | inserting into a list ordered by downloads keeps it ordered |
| DigitalCatalog.SortByDownloads | app.js:295-296 | the sort is a permutation of the store, ordered by downloads descending |
| DigitalCatalog.InsertIsStable | app.js:296 | among products with equal downloads, the inserted earlier product comes first |
| DigitalCatalog.SortIsStable | app.js:295-296 | products with equal downloads keep their store order (a stable sort) |
| DigitalCatalog.PrefixIsTop | app.js:297 | in an ordered list, nothing after the cut has more downloads than anything before it |
| DigitalCatalog.PrefixOfSorted | app.js:297 | a prefix of an ordered list is ordered, and is drawn from it |
| DigitalCatalog.PopularShape | app.js:294-297 | the answer is ordered by downloads, is drawn from the store, and has as many products as the slice end allows, which is min(limit, n) for a limit in range |
| DigitalCatalog.PrefixIsTopOfBag | app.js:295-297 | cutting an ordered arrangement of the store leaves out nothing that has more downloads than a product taken |
| DigitalCatalog.PopularIsTop | app.js:294-297 | no product left out has more downloads than one returned |
| DigitalCatalog.PopularDefaultsToFive | app.js:294 | without a limit, the answer has min(5, n) products |
| DigitalCatalog.PopularLimit | app.js:294 | the limit: 5 by default, otherwise `parseInt` of the parameter. PopularDefaultsToFive and PopularParsedLimit state it |
| DigitalCatalog.Popular | app.js:294-297 | the popular answer. PopularShape, PopularIsTop and SortIsStable state its order and contents |
| DigitalCatalog.PopularParsedLimit | app.js:294-297 | a non-empty limit is read with parseInt, and the answer is the sorted store sliced at that number |
| DigitalCatalog.PopularUnparsableLimit | app.js:294-297 | every non-empty limit whose parseInt is NaN gives an empty answer |
| DigitalCatalog.PopularLetterLimit | app.js:294-297 | the limit "abc" gives an empty answer |
| DigitalCatalog.PopularClamp | app.js:297 | a limit that parses to e >= 0 gives min(e, n) products |
| DigitalCatalog.PopularNegativeLimit | app.js:297 | a negative limit -n returns every product except the n least downloaded |
| DigitalCatalog.InsertBehindOne | app.js:296 | a product with fewer downloads is inserted behind the one that has more |
| DigitalCatalog.InsertBetween | app.js:296 | a product is inserted between one with more downloads and one with no more |
| DigitalCatalog.SortExample | app.js:295-296 | downloads 10, 5, 20 sort to 20, 10, 5 |
| DigitalCatalog.PopularExample | app.js:294-297 | downloads 10, 5, 20 with limit "2" give the products with 20 and 10 |
| DigitalCatalog.Search | app.js:318-329 | a missing or empty `q` gives 400; a 500 occurs exactly when some name misses the term and that product's description is not a string; otherwise the answer is a success, and the hits are exactly the products whose lower-cased name or description includes the lower-cased term, in store order: the store filtered by that test |
| DigitalStore.FindById | app.js:135 | the first index holding the id, or none when no product has it; NaN matches nothing |
| DigitalStore.FindByIdUnique | app.js:215 | with unique ids, a product's own id finds that product |
| DigitalStore.CreateOutcome | app.js:163-191 | 400 exactly when name, price or category is falsy or the price is not a positive number; 500 exactly when a validated name or category is not a string; otherwise the product has the given id, trimmed name and category, the price, 0 downloads and the placeholder defaults |
| DigitalStore.MergedPrice | app.js:228-230 | the merged price. UpdateOverwritesSupplied and UpdateStoresNaNPrice state it |
| DigitalStore.UpdateOutcome | app.js:212-244 | 500 exactly when a truthy name or category is not a string; 400 exactly when the merged price is `<= 0`; a success keeps the id and downloads, and keeps a well-formed product well formed |
| DigitalStore.UpdateOverwritesSupplied | app.js:225-236 | only truthy supplied fields overwrite; every other field is the old one |
| DigitalStore.UpdateWithEmptyBody | app.js:225-246 | a PUT that supplies nothing leaves the product as it was |
| DigitalStore.UpdateStoresNaNPrice | app.js:228-239 | price text that does not parse is stored as NaN rather than refused |
| DigitalStore.Viewed | app.js:145 | one more download, every other field unchanged, still well formed |
| DigitalStore.Seed | app.js:17-48 | the three seed products; SeedWellFormed states their ids and shape |
| DigitalStore.SeedWellFormed | app.js:17-48 | the seed products carry ids 1 to 3 and are well formed |
| DigitalStore.SeedInvariant | app.js:17-51 | the starting state satisfies the store invariant |
| DigitalStore.IssueKeepsInvariant | app.js:181-193 | consuming `nextId`, and appending a product that carries it, keeps ids unique and below the counter |
| DigitalStore.ReplaceKeepsInvariant | app.js:246 | replacing a product with a well-formed one that has the same id keeps the invariant |
| DigitalStore.RemoveKeepsInvariant | app.js:275 | splicing a product out keeps the invariant, and its id is found no more |
| DigitalStore.Store.constructor | app.js:17-51 | the three seed products, `nextId` = 4 |
| DigitalStore.Store.List | app.js:70-101 | the filtered list of the current store, exactly the products that pass every given test; the store is unchanged |
| DigitalStore.Store.CategoryList | app.js:113-115 | the distinct categories of the current store; the store is unchanged |
| DigitalStore.Store.PopularList | app.js:292-297 | the answer is ordered by downloads and drawn from the store; the store keeps its order |
| DigitalStore.Store.SearchList | app.js:314-329 | the search over the current store; the store is unchanged |
| DigitalStore.Store.GetById | app.js:132-145 | an unknown id gives 404 and no change; otherwise only that product's downloads rise, by exactly 1 |
| DigitalStore.Store.Create | app.js:161-193 | a 400 changes nothing; a 500 consumes an id; a success appends exactly one product, whose id is the old `nextId` and was never issued before, and increments `nextId` |
| DigitalStore.Store.Update | app.js:210-246 | an unknown id gives 404; 400 and 500 change nothing; a success replaces only that index |
| DigitalStore.Store.Delete | app.js:263-275 | an unknown id gives 404 and no change; otherwise the product is returned and spliced out, the others keep their order, and the id is found no more |
| DigitalRoutes.Target | app.js:54-314 | the handler of the first fitting route. TargetConcat, QueriesUnreachable and IntendedReachesAll state its behaviour |
| DigitalRoutes.Registered | app.js:54-314 | the nine routes in registration order. QueriesUnreachable and QueryPathsAnswer404 are stated about it |
| DigitalRoutes.FirstFit | app.js:54-314 | the first route, in registration order, whose verb and pattern fit the request |
| DigitalRoutes.TargetConcat | app.js:54-314 | dispatching over two tables tries the first table, then the second |
| DigitalRoutes.QueryFitIsShadowed | app.js:132 | whatever fits the popular or search route also fits `GET /api/products/:id` |
| DigitalRoutes.QueriesUnreachable | app.js:132 | as registered, no request reaches the popular or search handler |
| DigitalRoutes.LeadingMissesQueries | app.js:54-113 | no route before `:id` fits the popular or search path |
| DigitalRoutes.QueryPathReachesById | app.js:132 | GET on the popular or search path runs the by-id handler |
| DigitalRoutes.QueryPathsAnswer404 | app.js:132-142 | that handler parses "popular" and "search" to NaN, which matches no product: 404 |
| DigitalRoutes.IntendedReachesQuery | app.js:292 | with the two routes moved before `:id`, the path reaches its own handler |
| DigitalRoutes.IntendedReachesQueries | app.js:314 | in that table, both popular and search answer |
| DigitalRoutes.ReachedAt | app.js:54-263 | a route preceded only by routes with another verb or another length is reachable |
| DigitalRoutes.IntendedReachesLeading | app.js:54-113 | the home, list and categories handlers are reachable |
| DigitalRoutes.IntendedReachesById | app.js:132 | GET /api/products/1 reaches the by-id handler |
| DigitalRoutes.IntendedReachesWrites | app.js:161-263 | POST, PUT and DELETE reach their handlers |
| DigitalRoutes.IntendedReachesAll | app.js:54-314 | in the corrected order, every handler is reachable |
| DigitalRoutes.IntendedAgreesElsewhere | app.js:54-314 | the correction changes the answer for no request other than popular and search |
| ElectronicsStore.IndexOf | src/app.js:39 | the first position holding the id, or none when no product has it |
| ElectronicsStore.FindProductOr404 | src/app.js:38-45 | found exactly when some product has the id, and then it is the first such product; otherwise 404 |
| ElectronicsStore.RequiredText | src/app.js:61 | 400 exactly for absent, null or blank text; 500 for a non-string; any other text succeeds with its trimmed, non-empty form |
| ElectronicsStore.CreateOutcome | src/app.js:58-73 | checks run in order and the first failure decides; success exactly when the three texts pass and price and stock are present; the item holds the trimmed texts and Number() of price and stock |
| ElectronicsStore.Written | src/app.js:85-87 | writing a text field keeps it trimmed |
| ElectronicsStore.ApplyPatch | src/app.js:83-89 | the id is kept; the handler throws exactly when a supplied text field is not a string; price and stock are written when nothing threw; text stays trimmed |
| ElectronicsStore.PatchOverwritesPresent | src/app.js:83-89 | a PATCH that does not throw overwrites exactly the present fields, trimming text and applying Number() |
| ElectronicsStore.PatchEmptyBody | src/app.js:83-91 | an empty body leaves the record identical |
| ElectronicsStore.WrittenTwice | src/app.js:85-87 | writing the same text twice is writing it once |
| ElectronicsStore.PatchIdempotent | src/app.js:83-89 | the same PATCH twice has the effect of once |
| ElectronicsStore.PatchStopsAtThrow | src/app.js:85-89 | a PATCH that throws keeps the text writes before the throwing field; that field, the later ones, price and stock keep their old values |
| ElectronicsStore.PatchPartialWrite | src/app.js:85-86 | a valid name followed by a numeric category: 500, and the rename stays |
| ElectronicsStore.DeleteKeepsOthers | src/app.js:98 | the kept products are exactly those with other ids, in order; with no match the list is unchanged |
| ElectronicsStore.Seed | src/app.js:25-36 | the ten seed products with the drawn ids; SeedTrimmed states their text is trimmed |
| ElectronicsStore.SeedTrimmed | src/app.js:25-36 | every seed product has trimmed text |
| ElectronicsStore.WriteFields | src/app.js:85-89 | the five sequential in-place writes have the effect `ApplyPatch` defines |
| ElectronicsStore.Store.constructor | src/app.js:25-36 | the ten seed products with the drawn ids |
| ElectronicsStore.Store.List | src/app.js:48-50 | all products, in insertion order, unchanged |
| ElectronicsStore.Store.Get | src/app.js:52-56 | the answer of `findProductOr404` |
| ElectronicsStore.Store.Create | src/app.js:58-77 | a refused body changes nothing; an accepted one appends exactly one product at the end; all text stays trimmed |
| ElectronicsStore.Store.Patch | src/app.js:79-92 | an unknown id gives 404 and no change; otherwise only that index changes, to the patched record, and a throw gives 500 with the earlier writes kept |
| ElectronicsStore.Store.Delete | src/app.js:94-100 | 404 and no change when no product has the id; otherwise every product with it is removed and the rest keep their order |
| ProductForm.NumberOrBlank | src/components/ProductModal/ProductModal.jsx:19-20 | `n \|\| ''` on a number: a truthy number is kept, and 0 or NaN becomes ''; Number() of the result is the number, or 0 for NaN |
| ProductForm.OnOpen | src/components/ProductModal/ProductModal.jsx:13-31 | opening with a product copies it, keeping truthy numbers and turning 0 and NaN into ''; opening without one resets all five fields; a closed modal keeps its state |
| ProductForm.PassesFirst | src/components/ProductModal/ProductModal.jsx:41-64 | a form that passes the first n checks fails none of them |
| ProductForm.HandleSubmit | src/components/ProductModal/ProductModal.jsx:38-74 | a refusal names a failing check, and every earlier check passes; a submission means every check passes, and carries the trimmed texts, the non-negative numbers and the edited product's id (none in create mode) |
| ProductForm.PriceBoundary | src/components/ProductModal/ProductModal.jsx:54-58 | with the rest valid, a price is accepted exactly when it is not negative: 0 passes |
| ProductForm.ResetThenSubmit | src/components/ProductModal/ProductModal.jsx:22-44 | opening in create mode and submitting at once is refused at the name check |
| ProductForm.EditRoundTrip | src/components/ProductModal/ProductModal.jsx:13-73 | opening on a valid stored product and submitting it unchanged sends that product back |
| ProductForm.SubmittedIsCreated | src/components/ProductModal/ProductModal.jsx:66-73 | a payload the form submits passes src/app.js's POST checks and is stored as sent |

## Left out

- Express plumbing is not modelled: middleware, logging, CORS, `listen`, body parsing and the catch-all 404. Only the app.js route table is modelled. The electronics server registers no two routes that overlap, so its dispatch is not.
- Response envelopes and messages are not modelled, nor the 201/204 success codes. A success is `Ok(value)`, and an error is one of 400, 404 and 500.
- The `createdAt` and `updatedAt` timestamps are not modelled; they depend on the clock.
- nanoid is not modelled. The ids it draws are parameters, and nothing claims they are unique, since the code never checks.
- Only integers and NaN are modelled. `parseFloat` is read as the same integer-prefix parse as `parseInt`, so "12.5" gives 12 here but 12.5 in JavaScript. Exponents, hexadecimal text, Infinity, -0 and fractional JSON prices are outside the model.
- `toLowerCase` maps only the Latin, Latin-1 and Cyrillic capitals. Full Unicode case mapping is not modelled.
- Request bodies holding objects or arrays, and repeated query parameters, are not modelled. Express's case-insensitive and trailing-slash path matching and URL decoding are not modelled either.
- Object identity is not modelled. A handler's answer is a value, not a shared reference to the stored object, and JSON serialisation (NaN as `null`) is not modelled.
- The JSX half of ProductModal.jsx is not modelled: `handleChange`, `alert` and the browser's own input constraints. src/Pages/UsersPage/UsersPage.jsx, ProductCard.jsx and ProductList.jsx are not part of this model.
- Js.SliceEnd: its contract states only the in-range case. About the popular query, DigitalCatalog.PopularUnparsableLimit proves the NaN case for every limit, and DigitalCatalog.PopularClamp proves the clamp past the length. DigitalCatalog.PopularNegativeLimit proves a negative limit -n only for n up to the store's size; a more negative limit gives 0 in the body, and no lemma states that.
- Js.StringToNumber: Number() of decimal or exponent text is NaN in the model. JavaScript reads it as a number. So ProductForm.HandleSubmit refuses a price of "12.5", which the browser accepts, and ElectronicsStore.CreateOutcome stores NaN where JavaScript stores 12.5.
- DigitalStore.Store.Create: ids and counters are unbounded integers. In JavaScript they are doubles, so `nextId++` (app.js:182) and `downloads += 1` (app.js:145) stop growing at 2^53, and ids would then repeat. The fresh-id promise `r.value.id !in old(issued)` holds only below that bound.

## Findings

| source | as written | input that shows it | evidently intended | confidence | as-written member | corrected member |
|---|---|---|---|---|---|---|
| app.js:132 | `GET /api/products/:id` is registered before `GET /api/products/popular` (app.js:292) and `GET /api/products/search` (app.js:314). Its `:id` matches the pieces `popular` and `search`. | `GET /api/products/popular?limit=2` runs the by-id handler. `parseInt("popular")` is NaN, so it answers 404. | Register the two fixed paths before `:id`, as `/api/products/categories` already is. Then both answer, and no other request changes. | high; not executed | DigitalRoutes.QueriesUnreachable | DigitalRoutes.IntendedReachesAll |
