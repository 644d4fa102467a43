/** Properties of the deployed handler, `lambda_handler` over `SAMPLE`. */
module SampleProperties {
  import opened PyStr
  import opened Api
  import opened SampleData
  import ApiProperties

  // ---------------------------------------------------------------------
  // Facts about the stored keys and records

  /** The city table has exactly the five listed keys. */
  lemma CityTableKeys()
    ensures CityToZips.Keys == {"raleigh, nc", "durham, nc", "elizabeth city, nc", "goldsboro, nc", "portland, or"}
  {
  }

  /** Every stored city key is one of the five. */
  lemma CityKeysListed(k: string)
    requires k in CityToZips
    ensures k in {"raleigh, nc", "durham, nc", "elizabeth city, nc", "goldsboro, nc", "portland, or"}
  {
  }

  lemma CityNamesNormal(k: string)
    requires k in {"raleigh, nc", "durham, nc", "elizabeth city, nc", "goldsboro, nc", "portland, or"}
    ensures NoUpperCase(k) && Stripped(k) && k != ""
  {
    assert NoUpperCase("raleigh, nc");
    assert NoUpperCase("durham, nc");
    assert NoUpperCase("elizabeth city, nc");
    assert NoUpperCase("goldsboro, nc");
    assert NoUpperCase("portland, or");
  }

  /** Every city key of `SAMPLE` is stripped, lower-case and non-empty, so
      a normalised query can meet it. */
  lemma CityKeysNormal(k: string)
    requires k in CityToZips
    ensures Stripped(k) && k != "" && Lower(k) == k
  {
    CityKeysListed(k);
    CityNamesNormal(k);
    LowerOfNoUpperCase(k);
  }

  lemma MarketTableKeys()
    ensures MarketTable.Keys == MarketZips
  {
  }

  lemma NeighborKeysStripped(z: string)
    requires z in ZipNeighbors
    ensures Stripped(z) && z != ""
  {
  }

  lemma MarketZipsStripped(z: string)
    requires z in MarketZips
    ensures Stripped(z) && z != ""
  {
  }

  /** No stored market record is empty: each has the full set of fields. */
  lemma MarketRecordsComplete(z: string)
    requires z in MarketTable
    ensures MarketTable[z].Keys == RecordFields
    ensures MarketTable[z] != map[]
  {
    assert "city" in MarketTable[z];
  }

  lemma UnknownZipAbsent()
    ensures "00000" !in MarketTable
  {
    assert "00000" !in MarketZips;
  }

  // ---------------------------------------------------------------------
  // Requests to the deployed handler

  /** Every sample city, in any case and with any surrounding whitespace,
      yields its exact stored zip list. */
  lemma CityZipsAnySpelling(verb: Option<string>, w1: string, v: string, w2: string)
    requires MethodOf(verb) != "OPTIONS"
    requires AllSpace(w1) && AllSpace(w2) && Lower(v) in CityToZips
    ensures LambdaHandler(Request(verb, Some(CityZipsSuffix), Option<Query>.Some(map["city_state" := [w1 + v + w2]])))
         == Response(200, CorsHeaders, Zips(CityToZips[Lower(v)]))
  {
    CityKeysNormal(Lower(v));
    ApiProperties.CityEndpointFound(verb, w1, v, w2, Sample);
  }

  /** The city of the example query, `Raleigh, NC`, lower-cases to a stored
      key, whose zips are 27603, 27610 and 27612 in that order. */
  lemma RaleighKey(v: string)
    requires v == "Raleigh, NC"
    ensures Lower(v) == "raleigh, nc"
    ensures Lower(v) in CityToZips && CityToZips[Lower(v)] == ["27603", "27610", "27612"]
  {
    LowerAt(v);
    assert forall i :: 0 <= i < |v| ==> Lower(v)[i] == "raleigh, nc"[i];
  }

  /** `/city-zips` with `city_state` set to `Raleigh, NC` between single
      spaces, that is " Raleigh, NC ". */
  lemma RaleighExample(v: string)
    requires v == "Raleigh, NC"
    ensures LambdaHandler(Request(None, Some(CityZipsSuffix), Option<Query>.Some(map["city_state" := [" " + v + " "]])))
         == Response(200, CorsHeaders, Zips(["27603", "27610", "27612"]))
  {
    RaleighKey(v);
    CityZipsAnySpelling(None, " ", v, " ");
  }

  /** Every sample zip, with any surrounding whitespace, yields its exact
      stored neighbor list. */
  lemma NeighborsOfKnownZip(verb: Option<string>, w1: string, z: string, w2: string)
    requires MethodOf(verb) != "OPTIONS"
    requires AllSpace(w1) && AllSpace(w2) && z in ZipNeighbors
    ensures LambdaHandler(Request(verb, Some(ZipNeighborsSuffix), Option<Query>.Some(map["zip" := [w1 + z + w2]])))
         == Response(200, CorsHeaders, Neighbors(ZipNeighbors[z]))
  {
    NeighborKeysStripped(z);
    ApiProperties.NeighborsEndpointFound(verb, w1, z, w2, Sample);
  }

  /** Every sample zip of the market table, with any surrounding whitespace,
      yields its stored record unchanged. */
  lemma MarketOfKnownZip(verb: Option<string>, w1: string, z: string, w2: string)
    requires AllSpace(w1) && AllSpace(w2) && z in MarketTable
    requires MethodOf(verb) != "OPTIONS"
    ensures LambdaHandler(Request(verb, Some(MarketSuffix), Option<Query>.Some(map["zip" := [w1 + z + w2]])))
         == Response(200, CorsHeaders, Market(MarketTable[z]))
  {
    MarketTableKeys();
    MarketZipsStripped(z);
    MarketRecordsComplete(z);
    ApiProperties.MarketEndpointFound(verb, w1, z, w2, Sample);
  }

  /** `/market` with `zip=00000` is an unknown zip. */
  lemma UnknownMarketZip()
    ensures LambdaHandler(Request(None, Some(MarketSuffix), Option<Query>.Some(map["zip" := ["00000"]])))
         == Response(404, CorsHeaders, Err(ZipNotFound))
  {
    UnknownZipAbsent();
    ApiProperties.MarketEndpointUnknown(None, "00000", Sample);
  }

  /** `/Unknown` is not an endpoint; the answer echoes the lower-cased path. */
  lemma UnknownPath()
    ensures LambdaHandler(Request(Some("GET"), Some("/Unknown"), None))
         == Response(404, CorsHeaders, NotFoundPath("/unknown"))
  {
    assert Lower("/Unknown") == "/unknown";
    ApiProperties.RouteBySuffix("/unknown");
    ApiProperties.UnknownPathEchoed("/Unknown", None, Sample);
  }
}
