/** Properties of `lambda_handler` that hold over any lookup tables. */
module ApiProperties {
  import opened PyStr
  import opened Api

  // ---------------------------------------------------------------------
  // Pre-flight requests

  /** An OPTIONS request is answered 200 {"ok": true}, whatever its path and
      query; no other request gets that body. */
  lemma PreflightAnswer(req: Request, t: Tables)
    ensures IsPreflight(req) ==> Handle(req, t) == Response(200, CorsHeaders, Ok)
    ensures !IsPreflight(req) ==> Handle(req, t).body != Ok
  {
  }

  /** The method is compared after upper-casing, so every spelling of
      OPTIONS is a pre-flight request. */
  lemma PreflightAnyCase(m: string, path: Option<string>, query: Option<Query>, t: Tables)
    requires Upper(m) == "OPTIONS"
    ensures Handle(Request(Some(m), path, query), t) == Response(200, CorsHeaders, Ok)
  {
    assert m != "";
  }

  /** A missing or empty method is GET: never a pre-flight request, and the
      handler answers exactly as it does for an explicit GET. */
  lemma MissingMethodIsGet(req: Request, t: Tables)
    requires req.verb.None? || req.verb == Some("")
    ensures !IsPreflight(req)
    ensures Handle(req, t) == Handle(req.(verb := Some("GET")), t)
  {
    assert Upper("GET") == "GET";
  }

  // ---------------------------------------------------------------------
  // Routing by path suffix

  /** No lower-case path ends with two of the three endpoint suffixes. */
  lemma SuffixesExclusive(path: string)
    ensures !(EndsWith(path, CityZipsSuffix) && EndsWith(path, ZipNeighborsSuffix))
    ensures !(EndsWith(path, CityZipsSuffix) && EndsWith(path, MarketSuffix))
    ensures !(EndsWith(path, ZipNeighborsSuffix) && EndsWith(path, MarketSuffix))
  {
    if EndsWith(path, CityZipsSuffix) && EndsWith(path, ZipNeighborsSuffix) {
      EndsWithBoth(path, CityZipsSuffix, ZipNeighborsSuffix);
    }
    if EndsWith(path, CityZipsSuffix) && EndsWith(path, MarketSuffix) {
      EndsWithBoth(path, MarketSuffix, CityZipsSuffix);
    }
    if EndsWith(path, ZipNeighborsSuffix) && EndsWith(path, MarketSuffix) {
      EndsWithBoth(path, MarketSuffix, ZipNeighborsSuffix);
    }
  }

  /** Because the suffixes exclude each other, the order of the tests does
      not matter: each endpoint is chosen exactly when the path ends with its
      own suffix. */
  lemma RouteBySuffix(path: string)
    ensures RouteOf(path) == ToCityZips <==> EndsWith(path, CityZipsSuffix)
    ensures RouteOf(path) == ToZipNeighbors <==> EndsWith(path, ZipNeighborsSuffix)
    ensures RouteOf(path) == ToMarket <==> EndsWith(path, MarketSuffix)
    ensures RouteOf(path) == NoRoute <==>
              !EndsWith(path, CityZipsSuffix) && !EndsWith(path, ZipNeighborsSuffix) && !EndsWith(path, MarketSuffix)
  {
    SuffixesExclusive(path);
  }

  /** Everything that is not pre-flight goes to the handler of the suffix its
      lower-cased path ends with, and otherwise gets a 404 that echoes the
      lower-cased path. */
  lemma Dispatch(req: Request, t: Tables)
    requires !IsPreflight(req)
    ensures EndsWith(PathOf(req.path), CityZipsSuffix) ==> Handle(req, t) == RouteCityZips(Params(req), t)
    ensures EndsWith(PathOf(req.path), ZipNeighborsSuffix) ==> Handle(req, t) == RouteZipNeighbors(Params(req), t)
    ensures EndsWith(PathOf(req.path), MarketSuffix) ==> Handle(req, t) == RouteMarket(Params(req), t)
    ensures RouteOf(PathOf(req.path)) == NoRoute ==>
              Handle(req, t) == Response(404, CorsHeaders, NotFoundPath(PathOf(req.path)))
  {
    RouteBySuffix(PathOf(req.path));
  }

  /** A request without a path is matched as "" and so gets the 404. */
  lemma MissingPathNotFound(req: Request, t: Tables)
    requires !IsPreflight(req) && req.path.None?
    ensures Handle(req, t) == Response(404, CorsHeaders, NotFoundPath(""))
  {
  }

  /** The path matters only up to ASCII case: the handler answers a path and
      its upper-cased spelling alike. */
  lemma PathCaseInsensitive(req: Request, p: string, t: Tables)
    ensures Handle(req.(path := Some(Upper(p))), t) == Handle(req.(path := Some(p)), t)
  {
    LowerOfUpper(p);
  }

  // ---------------------------------------------------------------------
  // Query string handling

  /** A missing query string behaves exactly like an empty one. */
  lemma MissingQueryIsEmpty(req: Request, t: Tables)
    requires req.query.None?
    ensures Handle(req, t) == Handle(req.(query := Some(map[])), t)
  {
  }

  /** Without a query string, every routed request is rejected with the 400
      of its handler. */
  lemma MissingQueryRejected(req: Request, t: Tables)
    requires req.query.None? && !IsPreflight(req)
    requires RouteOf(PathOf(req.path)) != NoRoute
    ensures Handle(req, t).status == 400
    ensures Handle(req, t).body ==
              if RouteOf(PathOf(req.path)) == ToCityZips then Err(CityStateRequired) else Err(ZipRequired)
  {
    assert FirstValue(Params(req), "city_state") == "";
    assert FirstValue(Params(req), "zip") == "";
    assert Strip("") == "";
  }

  /** Only the first value of `city_state` and of `zip` is read; repeated
      values and every other parameter are ignored. */
  lemma FirstValuesDecide(req1: Request, req2: Request, t: Tables)
    requires req1.verb == req2.verb && req1.path == req2.path
    requires FirstValue(Params(req1), "city_state") == FirstValue(Params(req2), "city_state")
    requires FirstValue(Params(req1), "zip") == FirstValue(Params(req2), "zip")
    ensures Handle(req1, t) == Handle(req2, t)
  {
    assert CityKey(Params(req1)) == CityKey(Params(req2));
    assert ZipKey(Params(req1)) == ZipKey(Params(req2));
  }

  /** Appending further values for a parameter changes nothing. */
  lemma RepeatedParameterIgnored(req: Request, q: Query, name: string, v: string, rest: seq<string>, t: Tables)
    ensures Handle(req.(query := Some(q[name := [v] + rest])), t)
         == Handle(req.(query := Some(q[name := [v]])), t)
  {
    var q1 := q[name := [v] + rest];
    var q2 := q[name := [v]];
    assert forall n :: FirstValue(q1, n) == FirstValue(q2, n);
    FirstValuesDecide(req.(query := Some(q1)), req.(query := Some(q2)), t);
  }

  // ---------------------------------------------------------------------
  // The lookup handlers

  /** Case and surrounding whitespace of `city_state` do not change the
      key it is looked up under. */
  lemma CityKeySpelling(w1: string, v: string, w2: string, u: string)
    requires AllSpace(w1) && AllSpace(w2) && Lower(v) == Lower(u)
    ensures Lower(Strip(w1 + v + w2)) == Lower(Strip(u))
  {
    StripPadded(w1, v, w2);
    StripLowerCommute(v);
    StripLowerCommute(u);
  }

  /** Hence they do not change the answer of the city endpoint either. */
  lemma CitySpellingIrrelevant(q: Query, w1: string, v: string, w2: string, u: string, t: Tables)
    requires AllSpace(w1) && AllSpace(w2) && Lower(v) == Lower(u)
    ensures RouteCityZips(q["city_state" := [w1 + v + w2]], t) == RouteCityZips(q["city_state" := [u]], t)
  {
    CityKeySpelling(w1, v, w2, u);
    assert FirstValue(q["city_state" := [w1 + v + w2]], "city_state") == w1 + v + w2;
    assert FirstValue(q["city_state" := [u]], "city_state") == u;
  }

  /** A city key already in normal form, spelled in any case and with any
      surrounding whitespace, finds its stored zip list in stored order. */
  lemma CityFoundAnySpelling(q: Query, w1: string, v: string, w2: string, t: Tables)
    requires AllSpace(w1) && AllSpace(w2)
    requires Lower(v) in t.cityToZips && Stripped(Lower(v)) && Lower(v) != ""
    ensures RouteCityZips(q["city_state" := [w1 + v + w2]], t)
         == Response(200, CorsHeaders, Zips(t.cityToZips[Lower(v)]))
  {
    var q' := q["city_state" := [w1 + v + w2]];
    assert FirstValue(q', "city_state") == w1 + v + w2;
    CityKeySpelling(w1, v, w2, v);
    StripLowerCommute(v);
    StripOfStripped(Lower(v));
    assert CityKey(q') == Lower(v);
  }

  /** Surrounding whitespace of `zip` changes neither zip endpoint. */
  lemma ZipSpacingIrrelevant(q: Query, w1: string, v: string, w2: string, t: Tables)
    requires AllSpace(w1) && AllSpace(w2)
    ensures RouteZipNeighbors(q["zip" := [w1 + v + w2]], t) == RouteZipNeighbors(q["zip" := [v]], t)
    ensures RouteMarket(q["zip" := [w1 + v + w2]], t) == RouteMarket(q["zip" := [v]], t)
  {
    StripPadded(w1, v, w2);
    assert FirstValue(q["zip" := [w1 + v + w2]], "zip") == w1 + v + w2;
    assert FirstValue(q["zip" := [v]], "zip") == v;
  }

  /** The zip is not case-folded: a key stored in lower case is not found
      when asked for in upper case. */
  lemma ZipIsCaseSensitive()
    ensures RouteZipNeighbors(map["zip" := ["ab"]], Tables(map[], map["ab" := ["cd"]], map[])).body
         == Neighbors(["cd"])
    ensures RouteZipNeighbors(map["zip" := ["AB"]], Tables(map[], map["ab" := ["cd"]], map[])).body
         == Neighbors([])
  {
    var t := Tables(map[], map["ab" := ["cd"]], map[]);
    StripOfStripped("ab");
    StripOfStripped("AB");
    assert FirstValue(map["zip" := ["ab"]], "zip") == "ab";
    assert FirstValue(map["zip" := ["AB"]], "zip") == "AB";
    assert "AB" != "ab";
  }

  /** A stored market record that is empty is answered like a missing zip,
      as an empty dict is false in the source's `if not m`. */
  lemma EmptyMarketRecordNotFound(q: Query, t: Tables)
    requires ZipKey(q) != "" && ZipKey(q) in t.market && t.market[ZipKey(q)] == map[]
    ensures RouteMarket(q, t) == Response(404, CorsHeaders, Err(ZipNotFound))
  {
  }

  // ---------------------------------------------------------------------
  // Whole requests to each endpoint

  /** The endpoint suffixes are written in lower case, so the lower-cased
      path can end with them. */
  lemma SuffixesLowerCase()
    ensures Lower(CityZipsSuffix) == CityZipsSuffix
    ensures Lower(ZipNeighborsSuffix) == ZipNeighborsSuffix
    ensures Lower(MarketSuffix) == MarketSuffix
  {
    assert NoUpperCase(CityZipsSuffix) && NoUpperCase(ZipNeighborsSuffix) && NoUpperCase(MarketSuffix);
    LowerOfNoUpperCase(CityZipsSuffix);
    LowerOfNoUpperCase(ZipNeighborsSuffix);
    LowerOfNoUpperCase(MarketSuffix);
  }

  /** A request for exactly an endpoint's path reaches that endpoint with
      the request's parameters. */
  lemma CityZipsPath(verb: Option<string>, q: Query, t: Tables)
    requires MethodOf(verb) != "OPTIONS"
    ensures Handle(Request(verb, Some(CityZipsSuffix), Some(q)), t) == RouteCityZips(q, t)
  {
    SuffixesLowerCase();
    assert EndsWith(CityZipsSuffix, CityZipsSuffix);
    Dispatch(Request(verb, Some(CityZipsSuffix), Some(q)), t);
  }

  lemma ZipNeighborsPath(verb: Option<string>, q: Query, t: Tables)
    requires MethodOf(verb) != "OPTIONS"
    ensures Handle(Request(verb, Some(ZipNeighborsSuffix), Some(q)), t) == RouteZipNeighbors(q, t)
  {
    SuffixesLowerCase();
    assert EndsWith(ZipNeighborsSuffix, ZipNeighborsSuffix);
    Dispatch(Request(verb, Some(ZipNeighborsSuffix), Some(q)), t);
  }

  lemma MarketPath(verb: Option<string>, q: Query, t: Tables)
    requires MethodOf(verb) != "OPTIONS"
    ensures Handle(Request(verb, Some(MarketSuffix), Some(q)), t) == RouteMarket(q, t)
  {
    SuffixesLowerCase();
    assert EndsWith(MarketSuffix, MarketSuffix);
    Dispatch(Request(verb, Some(MarketSuffix), Some(q)), t);
  }

  /** A stripped, non-empty zip sent alone is looked up as it is. */
  lemma ZipKeyOfStripped(w1: string, z: string, w2: string)
    requires AllSpace(w1) && AllSpace(w2) && Stripped(z)
    ensures ZipKey(map["zip" := [w1 + z + w2]]) == z
  {
    assert FirstValue(map["zip" := [w1 + z + w2]], "zip") == w1 + z + w2;
    StripPadded(w1, z, w2);
    StripOfStripped(z);
  }

  /** A request to `/city-zips` whose `city_state` is a stored key up to
      case and surrounding whitespace answers the stored list. */
  lemma CityEndpointFound(verb: Option<string>, w1: string, v: string, w2: string, t: Tables)
    requires MethodOf(verb) != "OPTIONS"
    requires AllSpace(w1) && AllSpace(w2)
    requires Lower(v) in t.cityToZips && Stripped(Lower(v)) && Lower(v) != ""
    ensures Handle(Request(verb, Some(CityZipsSuffix), Option<Query>.Some(map["city_state" := [w1 + v + w2]])), t)
         == Response(200, CorsHeaders, Zips(t.cityToZips[Lower(v)]))
  {
    CityZipsPath(verb, map["city_state" := [w1 + v + w2]], t);
    CityFoundAnySpelling(map[], w1, v, w2, t);
  }

  /** A request to `/zip-neighbors` for a stored zip, with any surrounding
      whitespace, answers the stored list. */
  lemma NeighborsEndpointFound(verb: Option<string>, w1: string, z: string, w2: string, t: Tables)
    requires MethodOf(verb) != "OPTIONS"
    requires AllSpace(w1) && AllSpace(w2)
    requires z in t.zipNeighbors && Stripped(z) && z != ""
    ensures Handle(Request(verb, Some(ZipNeighborsSuffix), Option<Query>.Some(map["zip" := [w1 + z + w2]])), t)
         == Response(200, CorsHeaders, Neighbors(t.zipNeighbors[z]))
  {
    ZipNeighborsPath(verb, map["zip" := [w1 + z + w2]], t);
    ZipKeyOfStripped(w1, z, w2);
  }

  /** A request to `/market` for a stored zip with a non-empty record, with
      any surrounding whitespace, answers that record unchanged. */
  lemma MarketEndpointFound(verb: Option<string>, w1: string, z: string, w2: string, t: Tables)
    requires MethodOf(verb) != "OPTIONS"
    requires AllSpace(w1) && AllSpace(w2)
    requires z in t.market && t.market[z] != map[] && Stripped(z) && z != ""
    ensures Handle(Request(verb, Some(MarketSuffix), Option<Query>.Some(map["zip" := [w1 + z + w2]])), t)
         == Response(200, CorsHeaders, Market(t.market[z]))
  {
    MarketPath(verb, map["zip" := [w1 + z + w2]], t);
    ZipKeyOfStripped(w1, z, w2);
  }

  /** A request to `/market` for a zip the table lacks is a 404. */
  lemma MarketEndpointUnknown(verb: Option<string>, z: string, t: Tables)
    requires MethodOf(verb) != "OPTIONS"
    requires z !in t.market && Stripped(z) && z != ""
    ensures Handle(Request(verb, Some(MarketSuffix), Option<Query>.Some(map["zip" := [z]])), t)
         == Response(404, CorsHeaders, Err(ZipNotFound))
  {
    MarketPath(verb, map["zip" := [z]], t);
    ZipKeyOfStripped([], z, []);
    assert [] + z + [] == z;
  }

  /** A GET of any path without an endpoint suffix is a 404 echoing the
      lower-cased path; the query is never read. */
  lemma UnknownPathEchoed(p: string, query: Option<Query>, t: Tables)
    requires RouteOf(Lower(p)) == NoRoute
    ensures Handle(Request(Some("GET"), Some(p), query), t) == Response(404, CorsHeaders, NotFoundPath(Lower(p)))
  {
    assert Upper("GET") == "GET";
    Dispatch(Request(Some("GET"), Some(p), query), t);
  }

  // ---------------------------------------------------------------------
  // The response envelope

  /** What each status code means: 200 is a pre-flight or a lookup answer,
      400 a missing parameter, 404 an unknown path or an unknown zip. */
  lemma StatusMeaning(req: Request, t: Tables)
    ensures Handle(req, t).status == 200 ==>
              Handle(req, t).body.Ok? || Handle(req, t).body.Zips? ||
              Handle(req, t).body.Neighbors? || Handle(req, t).body.Market?
    ensures Handle(req, t).status == 400 ==>
              Handle(req, t).body in {Err(CityStateRequired), Err(ZipRequired)}
    ensures Handle(req, t).status == 404 ==>
              Handle(req, t).body.NotFoundPath? || Handle(req, t).body == Err(ZipNotFound)
  {
  }
}
