/** How app.js dispatches a request: its routes in registration order, each
    a verb and a path pattern, and Express trying them first to last. The
    popular and search routes are registered after `/api/products/:id`,
    which matches their paths first. */
module DigitalRoutes {
  import opened Js
  import DigitalCatalog
  import DigitalStore

  datatype Verb = Get | Post | Put | Delete

  /** One `/`-separated piece of a route pattern: fixed text, or a named
      parameter such as `:id`, which matches any non-empty piece. */
  datatype Segment = Lit(text: string) | Param

  /** The handlers app.js registers. */
  datatype Handler =
    | Home | ListProducts | Categories | ProductById
    | CreateProduct | UpdateProduct | DeleteProduct | Popular | Search

  datatype Route = Route(verb: Verb, pattern: seq<Segment>, handler: Handler)

  /** A request path, split on `/` (so `/api/products` is `["api", "products"]`). */
  type Path = seq<string>

  /** One piece of the path fits one piece of the pattern. */
  predicate SegmentFits(segment: Segment, piece: string) {
    match segment
    case Lit(t) => piece == t
    case Param => piece != ""
  }

  /** The path fits the pattern piece by piece. */
  predicate Matches(pattern: seq<Segment>, path: Path) {
    |pattern| == |path| && forall i :: 0 <= i < |path| ==> SegmentFits(pattern[i], path[i])
  }

  predicate Fits(route: Route, verb: Verb, path: Path) {
    route.verb == verb && Matches(route.pattern, path)
  }

  /** The position of the first route, in registration order, whose verb and
      pattern fit the request. */
  function FirstFit(routes: seq<Route>, verb: Verb, path: Path): (k: Option<nat>)
    ensures k.Some? ==> k.value < |routes| && Fits(routes[k.value], verb, path)
    ensures k.Some? ==> forall i :: 0 <= i < k.value ==> !Fits(routes[i], verb, path)
    ensures k.None? <==> forall i :: 0 <= i < |routes| ==> !Fits(routes[i], verb, path)
  {
    if routes == [] then None
    else if Fits(routes[0], verb, path) then Some(0)
    else
      match FirstFit(routes[1..], verb, path)
      case None => None
      case Some(k) => Some(k + 1)
  }

  /** The handler Express runs: that of the first route that fits; None
      falls through to the catch-all 404. */
  function Target(routes: seq<Route>, verb: Verb, path: Path): Option<Handler> {
    match FirstFit(routes, verb, path)
    case None => None
    case Some(k) => Some(routes[k].handler)
  }

  /** A pattern of at most three pieces fits when each piece does. */
  lemma MatchesPieces(pattern: seq<Segment>, path: Path)
    requires |pattern| <= 3
    ensures Matches(pattern, path) <==>
      && |pattern| == |path|
      && (|path| > 0 ==> SegmentFits(pattern[0], path[0]))
      && (|path| > 1 ==> SegmentFits(pattern[1], path[1]))
      && (|path| > 2 ==> SegmentFits(pattern[2], path[2]))
  {
    if |pattern| == |path|
      && (|path| > 0 ==> SegmentFits(pattern[0], path[0]))
      && (|path| > 1 ==> SegmentFits(pattern[1], path[1]))
      && (|path| > 2 ==> SegmentFits(pattern[2], path[2]))
    {
      forall i | 0 <= i < |path|
        ensures SegmentFits(pattern[i], path[i])
      {
        assert i == 0 || i == 1 || i == 2;
      }
    }
  }

  /** Some request reaches the handler. */
  ghost predicate Reachable(routes: seq<Route>, h: Handler) {
    exists verb, path :: Target(routes, verb, path) == Some(h)
  }

  /** A request that reaches the handler witnesses that it is reachable. */
  lemma ReachableBy(routes: seq<Route>, verb: Verb, path: Path, h: Handler)
    requires Target(routes, verb, path) == Some(h)
    ensures Reachable(routes, h)
  {
  }

  /** The route at `k` is the one that answers when it fits and none before
      it does. */
  lemma TargetIs(routes: seq<Route>, verb: Verb, path: Path, k: nat)
    requires k < |routes| && Fits(routes[k], verb, path)
    requires forall i :: 0 <= i < k ==> !Fits(routes[i], verb, path)
    ensures Target(routes, verb, path) == Some(routes[k].handler)
  {
  }

  /** Trying a concatenation of tables tries the first, then the second. */
  lemma TargetConcat(a: seq<Route>, b: seq<Route>, verb: Verb, path: Path)
    ensures Target(a + b, verb, path) == if Target(a, verb, path).Some? then Target(a, verb, path) else Target(b, verb, path)
  {
    var ab := a + b;
    match FirstFit(a, verb, path)
    case Some(j) =>
      assert ab[j] == a[j];
      TargetIs(ab, verb, path, j);
    case None =>
      match FirstFit(b, verb, path)
      case Some(j) =>
        assert ab[|a| + j] == b[j];
        forall i | 0 <= i < |a| + j
          ensures !Fits(ab[i], verb, path)
        {
          if i < |a| {
            assert ab[i] == a[i];
          } else {
            assert ab[i] == b[i - |a|];
          }
        }
        TargetIs(ab, verb, path, |a| + j);
      case None =>
        forall i | 0 <= i < |ab|
          ensures !Fits(ab[i], verb, path)
        {
          if i < |a| {
            assert ab[i] == a[i];
          } else {
            assert ab[i] == b[i - |a|];
          }
        }
  }

  const ProductsPath: seq<Segment> := [Lit("api"), Lit("products")]

  /** The routes up to `/api/products/categories`, in app.js order. */
  function Leading(): seq<Route> {
    [ Route(Get, [], Home),
      Route(Get, ProductsPath, ListProducts),
      Route(Get, ProductsPath + [Lit("categories")], Categories) ]
  }

  /** The routes on `/api/products/:id` and POST, in app.js order. */
  function ById(): seq<Route> {
    [ Route(Get, ProductsPath + [Param], ProductById),
      Route(Post, ProductsPath, CreateProduct),
      Route(Put, ProductsPath + [Param], UpdateProduct),
      Route(Delete, ProductsPath + [Param], DeleteProduct) ]
  }

  /** The popular and search routes. */
  function Queries(): seq<Route> {
    [ Route(Get, ProductsPath + [Lit("popular")], Popular),
      Route(Get, ProductsPath + [Lit("search")], Search) ]
  }

  /** The table as app.js registers it: popular and search come last. */
  function Registered(): seq<Route> {
    Leading() + ById() + Queries()
  }

  /** The table with popular and search registered before `:id`, as the
      fixed `categories` route already is. */
  function Intended(): seq<Route> {
    Leading() + Queries() + ById()
  }

  const PopularPath: Path := ["api", "products", "popular"]
  const SearchPath: Path := ["api", "products", "search"]

  /** Whatever fits the popular or the search route also fits
      `GET /api/products/:id`. */
  lemma QueryFitIsShadowed(verb: Verb, path: Path, j: nat)
    requires j < 2 && Fits(Queries()[j], verb, path)
    ensures Fits(ById()[0], verb, path)
  {
    MatchesPieces(Queries()[j].pattern, path);
    MatchesPieces(ById()[0].pattern, path);
  }

  /** As registered, no request reaches the popular or the search handler:
      every path they fit is fitted earlier by `GET /api/products/:id`. */
  lemma QueriesUnreachable(verb: Verb, path: Path)
    ensures Target(Registered(), verb, path) != Some(Popular)
    ensures Target(Registered(), verb, path) != Some(Search)
  {
    var earlier := Leading() + ById();
    TargetConcat(earlier, Queries(), verb, path);
    match FirstFit(Queries(), verb, path)
    case None =>
    case Some(j) =>
      QueryFitIsShadowed(verb, path, j);
      assert Fits(earlier[3], verb, path);
    match FirstFit(earlier, verb, path)
    case None =>
    case Some(k) =>
      assert earlier[k].handler != Popular && earlier[k].handler != Search;
  }

  /** No route before `:id` fits GET on the popular or the search path. */
  lemma LeadingMissesQueries(path: Path)
    requires path == PopularPath || path == SearchPath
    ensures Target(Leading(), Get, path) == None
  {
    var lead := Leading();
    forall i | 0 <= i < 3
      ensures !Fits(lead[i], Get, path)
    {
      MatchesPieces(lead[i].pattern, path);
    }
  }

  /** As registered, GET on the popular or the search path runs the by-id
      handler: `GET /api/products/:id` is the first route that fits. */
  lemma QueryPathReachesById(path: Path)
    requires path == PopularPath || path == SearchPath
    ensures Target(Registered(), Get, path) == Some(ProductById)
  {
    var byId := ById();
    MatchesPieces(byId[0].pattern, path);
    TargetIs(byId, Get, path, 0);
    LeadingMissesQueries(path);
    TargetConcat(Leading(), byId, Get, path);
    TargetConcat(Leading() + byId, Queries(), Get, path);
  }

  /** What GET /api/products/popular does as registered: it runs the by-id
      handler with `:id` = "popular", whose parseInt is NaN, which matches
      no product, so the answer is 404. The same holds for search. */
  lemma QueryPathsAnswer404(ps: seq<DigitalCatalog.Product>)
    ensures Target(Registered(), Get, PopularPath) == Some(ProductById)
    ensures Target(Registered(), Get, SearchPath) == Some(ProductById)
    ensures ParseInt(PopularPath[2]) == NaN && ParseInt(SearchPath[2]) == NaN
    ensures DigitalStore.FindById(ps, NaN).None?
  {
    QueryPathReachesById(PopularPath);
    QueryPathReachesById(SearchPath);
    ParseIntNoDigit(PopularPath[2]);
    ParseIntNoDigit(SearchPath[2]);
  }

  /** With popular and search moved before `:id`, the path reaches its
      handler. */
  lemma IntendedReachesQuery(path: Path)
    requires path == PopularPath || path == SearchPath
    ensures Target(Intended(), Get, path) == Some(if path == PopularPath then Popular else Search)
  {
    var queries := Queries();
    MatchesPieces(queries[0].pattern, path);
    MatchesPieces(queries[1].pattern, path);
    if path == PopularPath {
      TargetIs(queries, Get, path, 0);
    } else {
      TargetIs(queries, Get, path, 1);
    }
    LeadingMissesQueries(path);
    TargetConcat(Leading(), queries, Get, path);
    TargetConcat(Leading() + queries, ById(), Get, path);
  }

  /** With popular and search moved before `:id`, their paths reach them. */
  lemma IntendedReachesQueries()
    ensures Target(Intended(), Get, PopularPath) == Some(Popular)
    ensures Target(Intended(), Get, SearchPath) == Some(Search)
  {
    IntendedReachesQuery(PopularPath);
    IntendedReachesQuery(SearchPath);
  }

  /** A request for which the route at `k` is the first that fits, because
      every route before it has another verb or another number of pieces. */
  lemma ReachedAt(routes: seq<Route>, k: nat, verb: Verb, path: Path)
    requires k < |routes| && Fits(routes[k], verb, path)
    requires forall i :: 0 <= i < k ==> routes[i].verb != verb || |routes[i].pattern| != |path|
    ensures Reachable(routes, routes[k].handler)
  {
    TargetIs(routes, verb, path, k);
    ReachableBy(routes, verb, path, routes[k].handler);
  }

  /** The handlers registered before popular and search are reachable. */
  lemma IntendedReachesLeading(h: Handler)
    requires h == Home || h == ListProducts || h == Categories
    ensures Reachable(Intended(), h)
  {
    var t := Intended();
    match h
    case Home =>
      MatchesPieces(t[0].pattern, []);
      ReachedAt(t, 0, Get, []);
    case ListProducts =>
      MatchesPieces(t[1].pattern, ["api", "products"]);
      ReachedAt(t, 1, Get, ["api", "products"]);
    case Categories =>
      MatchesPieces(t[2].pattern, ["api", "products", "categories"]);
      ReachedAt(t, 2, Get, ["api", "products", "categories"]);
  }

  /** GET /api/products/1 reaches the by-id handler. */
  lemma IntendedReachesById()
    ensures Reachable(Intended(), ProductById)
  {
    var one := ["api", "products", "1"];
    var lead, queries, byId := Leading(), Queries(), ById();
    forall i | 0 <= i < 3
      ensures !Fits(lead[i], Get, one)
    {
      MatchesPieces(lead[i].pattern, one);
    }
    forall i | 0 <= i < 2
      ensures !Fits(queries[i], Get, one)
    {
      MatchesPieces(queries[i].pattern, one);
    }
    MatchesPieces(byId[0].pattern, one);
    TargetIs(byId, Get, one, 0);
    TargetConcat(lead, queries, Get, one);
    TargetConcat(lead + queries, byId, Get, one);
    ReachableBy(Intended(), Get, one, ProductById);
  }

  /** POST, PUT and DELETE reach their handlers. */
  lemma IntendedReachesWrites(h: Handler)
    requires h == CreateProduct || h == UpdateProduct || h == DeleteProduct
    ensures Reachable(Intended(), h)
  {
    var t := Intended();
    match h
    case CreateProduct =>
      MatchesPieces(t[6].pattern, ["api", "products"]);
      ReachedAt(t, 6, Post, ["api", "products"]);
    case UpdateProduct =>
      MatchesPieces(t[7].pattern, ["api", "products", "1"]);
      ReachedAt(t, 7, Put, ["api", "products", "1"]);
    case DeleteProduct =>
      MatchesPieces(t[8].pattern, ["api", "products", "1"]);
      ReachedAt(t, 8, Delete, ["api", "products", "1"]);
  }

  /** Every handler is reachable with the intended order. */
  lemma IntendedReachesAll(h: Handler)
    ensures Reachable(Intended(), h)
  {
    match h
    case Home => IntendedReachesLeading(h);
    case ListProducts => IntendedReachesLeading(h);
    case Categories => IntendedReachesLeading(h);
    case ProductById => IntendedReachesById();
    case CreateProduct => IntendedReachesWrites(h);
    case UpdateProduct => IntendedReachesWrites(h);
    case DeleteProduct => IntendedReachesWrites(h);
    case Popular => IntendedReachesQueries();
    case Search => IntendedReachesQueries();
  }

  /** Moving the two routes changes nothing for any other request. */
  lemma IntendedAgreesElsewhere(verb: Verb, path: Path)
    requires path != PopularPath && path != SearchPath
    ensures Target(Intended(), verb, path) == Target(Registered(), verb, path)
  {
    var q := Queries();
    forall i | 0 <= i < 2
      ensures !Fits(q[i], verb, path)
    {
      MatchesPieces(q[i].pattern, path);
    }
    TargetConcat(Leading(), Queries(), verb, path);
    TargetConcat(Leading() + Queries(), ById(), verb, path);
    TargetConcat(Leading(), ById(), verb, path);
    TargetConcat(Leading() + ById(), Queries(), verb, path);
  }
}
