/** The request handler of the market-intel API (app.py): three read-only
    lookup tables, the response helper, the three lookup handlers and the
    router. Every operation is a function of the request and the tables. */
module Api {
  import opened PyStr

  datatype Option<T> = None | Some(value: T)

  /** One field of a market record as stored. Numbers with a fractional part
      (months of supply, sale-to-list ratio) keep their literal text: the
      handler only passes them through. */
  datatype Field = Text(text: string) | Whole(n: int) | Decimal(literal: string) | Texts(items: seq<string>)

  /** A market record is a flat JSON object: field name to field value. */
  type MarketRecord = map<string, Field>

  /** The three static indices of `SAMPLE`. */
  datatype Tables = Tables(
    cityToZips: map<string, seq<string>>,
    zipNeighbors: map<string, seq<string>>,
    market: map<string, MarketRecord>)

  /** The JSON object a response carries, one constructor per shape the
      handler produces. */
  datatype Body =
    | Ok                          // {"ok": true}
    | Err(msg: string)            // {"error": msg}
    | NotFoundPath(path: string)  // {"error": "not found", "path": path}
    | Zips(zips: seq<string>)     // {"zips": [...]}
    | Neighbors(neighbors: seq<string>)  // {"neighbors": [...]}
    | Market(rec: MarketRecord)   // the stored record itself

  datatype Header = Header(name: string, value: string)

  datatype Response = Response(status: nat, headers: seq<Header>, body: Body)

  /** The headers every response carries, in the order they are written. */
  const CorsHeaders: seq<Header> := [
    Header("Content-Type", "application/json"),
    Header("Access-Control-Allow-Origin", "https://jb24000.github.io"),
    Header("Access-Control-Allow-Methods", "GET,OPTIONS"),
    Header("Access-Control-Allow-Headers", "Content-Type,Authorization")
  ]

  const CityStateRequired := "city_state required"
  const ZipRequired := "zip required"
  const ZipNotFound := "zip not found"

  /** The values of one query parameter as the query-string parser returns
      them: at least one, in order of appearance. */
  type Values = s: seq<string> | |s| > 0 witness [""]

  /** A parsed query string: parameter name to its values. */
  type Query = map<string, Values>

  /** The parts of an HTTP API event the handler reads: the method at
      `requestContext.http.method` (as `verb`), `rawPath`, and `rawQueryString` after
      parsing (None when the event carries no query string). */
  datatype Request = Request(verb: Option<string>, path: Option<string>, query: Option<Query>)

  /** `_response`: the body and status with the fixed headers attached. */
  function MakeResponse(body: Body, status: nat): (r: Response)
    ensures r.headers == CorsHeaders
    ensures r.status == status && r.body == body
  {
    Response(status, CorsHeaders, body)
  }

  // ---------------------------------------------------------------------
  // Reading the request

  /** A missing query string parses like the empty one, to no parameters. */
  function Params(req: Request): (q: Query)
    ensures req.query.None? ==> q == map[]
    ensures req.query.Some? ==> q == req.query.value
  {
    match req.query
    case None => map[]
    case Some(q) => q
  }

  /** `qs.get(name, [""])[0]`: the first value of a parameter, "" if absent. */
  function FirstValue(q: Query, name: string): (v: string)
    ensures name in q ==> v == q[name][0]
    ensures name !in q ==> v == ""
  {
    if name in q then q[name][0] else ""
  }

  /** The normalised `city_state` parameter: stripped, then lower-cased. */
  function CityKey(q: Query): (k: string)
    ensures Stripped(k)
    ensures k == Lower(k)
    ensures |k| <= |FirstValue(q, "city_state")|
  {
    StripLowerCommute(FirstValue(q, "city_state"));
    LowerIdempotent(Strip(FirstValue(q, "city_state")));
    Lower(Strip(FirstValue(q, "city_state")))
  }

  /** The normalised `zip` parameter: stripped only, case kept. */
  function ZipKey(q: Query): (k: string)
    ensures Stripped(k)
    ensures |k| <= |FirstValue(q, "zip")|
  {
    Strip(FirstValue(q, "zip"))
  }

  /** The method, upper-cased; a missing or empty one is `GET`. */
  function MethodOf(m: Option<string>): (r: string)
    ensures r != ""
    ensures r == "OPTIONS" <==> m.Some? && Upper(m.value) == "OPTIONS"
  {
    if m.None? || m.value == "" then "GET" else Upper(m.value)
  }

  /** The path, lower-cased; a missing one is "". */
  function PathOf(p: Option<string>): (r: string)
    ensures Lower(r) == r
    ensures p.None? ==> r == ""
    ensures p.Some? ==> |r| == |p.value| && Lower(p.value) == r
  {
    if p.None? then ""
    else
      LowerIdempotent(p.value);
      Lower(p.value)
  }

  // ---------------------------------------------------------------------
  // The lookup handlers

  /** The decision of `route_city_zips` once the key is normalised. */
  function CityZipsFor(key: string, t: Tables): (r: Response)
    ensures r.headers == CorsHeaders
    ensures r.status == 400 <==> key == ""
    ensures r.status == 400 ==> r.body == Err(CityStateRequired)
    ensures r.status != 400 ==> r.status == 200
    ensures r.status == 200 ==>
              r.body == Zips(if key in t.cityToZips then t.cityToZips[key] else [])
  {
    if key == "" then MakeResponse(Err(CityStateRequired), 400)
    else if key !in t.cityToZips || t.cityToZips[key] == [] then MakeResponse(Zips([]), 200)
    else MakeResponse(Zips(t.cityToZips[key]), 200)
  }

  /** `route_city_zips`. */
  function RouteCityZips(q: Query, t: Tables): (r: Response)
    ensures r.status in {200, 400}
  {
    CityZipsFor(CityKey(q), t)
  }

  /** The decision of `route_zip_neighbors` once the zip is stripped. */
  function NeighborsFor(zip: string, t: Tables): (r: Response)
    ensures r.headers == CorsHeaders
    ensures r.status == 400 <==> zip == ""
    ensures r.status == 400 ==> r.body == Err(ZipRequired)
    ensures r.status != 400 ==> r.status == 200
    ensures r.status == 200 ==>
              r.body == Neighbors(if zip in t.zipNeighbors then t.zipNeighbors[zip] else [])
  {
    if zip == "" then MakeResponse(Err(ZipRequired), 400)
    else MakeResponse(Neighbors(if zip in t.zipNeighbors then t.zipNeighbors[zip] else []), 200)
  }

  /** `route_zip_neighbors`. */
  function RouteZipNeighbors(q: Query, t: Tables): (r: Response)
    ensures r.status in {200, 400}
  {
    NeighborsFor(ZipKey(q), t)
  }

  /** The decision of `route_market` once the zip is stripped. An empty
      stored record counts as missing, as an empty dict is false in the
      source's `if not m`. */
  function MarketFor(zip: string, t: Tables): (r: Response)
    ensures r.headers == CorsHeaders
    ensures r.status == 400 <==> zip == ""
    ensures r.status == 400 ==> r.body == Err(ZipRequired)
    ensures r.status == 404 <==> zip != "" && (zip !in t.market || t.market[zip] == map[])
    ensures r.status == 404 ==> r.body == Err(ZipNotFound)
    ensures r.status in {200, 400, 404}
    ensures r.status == 200 ==> zip in t.market && r.body == Market(t.market[zip])
  {
    if zip == "" then MakeResponse(Err(ZipRequired), 400)
    else if zip !in t.market || t.market[zip] == map[] then MakeResponse(Err(ZipNotFound), 404)
    else MakeResponse(Market(t.market[zip]), 200)
  }

  /** `route_market`. */
  function RouteMarket(q: Query, t: Tables): (r: Response)
    ensures r.status in {200, 400, 404}
  {
    MarketFor(ZipKey(q), t)
  }

  // ---------------------------------------------------------------------
  // The router

  const CityZipsSuffix := "/city-zips"
  const ZipNeighborsSuffix := "/zip-neighbors"
  const MarketSuffix := "/market"

  datatype Route = ToCityZips | ToZipNeighbors | ToMarket | NoRoute

  /** The suffix tests of `lambda_handler`, in the order it makes them. */
  function RouteOf(path: string): (r: Route)
    ensures r == ToCityZips <==> EndsWith(path, CityZipsSuffix)
    ensures r == ToZipNeighbors <==> !EndsWith(path, CityZipsSuffix) && EndsWith(path, ZipNeighborsSuffix)
    ensures r == ToMarket <==>
              !EndsWith(path, CityZipsSuffix) && !EndsWith(path, ZipNeighborsSuffix) && EndsWith(path, MarketSuffix)
  {
    if EndsWith(path, CityZipsSuffix) then ToCityZips
    else if EndsWith(path, ZipNeighborsSuffix) then ToZipNeighbors
    else if EndsWith(path, MarketSuffix) then ToMarket
    else NoRoute
  }

  /** A pre-flight request: a missing or empty method is GET, so only an
      explicit spelling of OPTIONS is one. */
  predicate IsPreflight(req: Request)
    ensures IsPreflight(req) <==> req.verb.Some? && Upper(req.verb.value) == "OPTIONS"
  {
    MethodOf(req.verb) == "OPTIONS"
  }

  /** `lambda_handler` over the given tables. */
  function Handle(req: Request, t: Tables): (r: Response)
    ensures r.headers == CorsHeaders
    ensures r.status in {200, 400, 404}
    ensures r.body == Ok <==> IsPreflight(req)
  {
    if IsPreflight(req) then MakeResponse(Ok, 200)
    else match RouteOf(PathOf(req.path))
      case ToCityZips => RouteCityZips(Params(req), t)
      case ToZipNeighbors => RouteZipNeighbors(Params(req), t)
      case ToMarket => RouteMarket(Params(req), t)
      case NoRoute => MakeResponse(NotFoundPath(PathOf(req.path)), 404)
  }
}
