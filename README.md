# mbps-market-intel-api, modelled in Dafny

The repository is one AWS Lambda function, `app.py`, that answers three
read-only lookups for a real-estate market dashboard:

- `/city-zips?city_state=…`: the zip codes of a city;
- `/zip-neighbors?zip=…`: the neighboring zip codes of a zip;
- `/market?zip=…`: the market record of a zip.

It also answers CORS pre-flight (`OPTIONS`) requests. Every response carries
the same four headers. The data is a constant dictionary, `SAMPLE`, that is
never written.

Once the event and JSON plumbing is removed, the handler is a total,
deterministic function from (method, path, parsed query, tables) to (status,
headers, body). The model keeps that shape. It is written with Dafny
functions and lemmas only: no state, no loops, because the source has none.
Determinism holds by construction, since every operation is a function.

Files:

- `pystr.dfy` (module `PyStr`): the Python string methods the handler uses —
  `strip`, `lower`, `upper` and `endswith` — restricted to ASCII, with their
  algebra: strip removes exactly the surrounding whitespace, strip is
  idempotent, lower forgets case, and strip and lower commute.
- `api.dfy` (module `Api`):
  - the request, response, body and market-record types;
  - `_response`;
  - the three lookup handlers, each split into key normalisation and a
    decision on the normalised key;
  - the router, over any `Tables`.
- `sample_data.dfy` (module `SampleData`): the `SAMPLE` tables as constants,
  and `lambda_handler` as `Handle` over them.
- `api_properties.dfy` (module `ApiProperties`): properties of the handler
  over any tables:
  - pre-flight;
  - routing by suffix;
  - query handling;
  - normalisation of the keys;
  - the answer of each endpoint;
  - the meaning of each status code.
- `sample_properties.dfy` (module `SampleProperties`): the same properties
  instantiated on `SAMPLE`, plus a few concrete requests.

Shape of the request:

- `verb` is `requestContext.http.method`, `None` when absent.
- `path` is `rawPath`.
- `query` is what `parse_qs` returns for `rawQueryString`: a map from
  parameter name to a non-empty sequence of values. It is `None` when the
  event has no query string.

## Model

| member | source | states |
|---|---|---|
| PyStr.TrimLeft | app.py:70 | the result is no longer than the input and does not start with whitespace |
| PyStr.TrimRight | app.py:70 | the result is no longer than the input and does not end with whitespace |
| PyStr.TrimLeftFrames | app.py:70 | `lstrip` returns a suffix of its input, and what it removed is all whitespace |
| PyStr.TrimRightFrames | app.py:70 | `rstrip` returns a prefix of its input, and what it removed is all whitespace |
| PyStr.Strip | app.py:70 | the result is no longer than the input and has no whitespace at either end |
| PyStr.StripFrames | app.py:81 | `strip` returns a contiguous piece of its input, framed on both sides by runs of whitespace only |
| PyStr.TrimLeftPadded | app.py:81 | leading whitespace added to a string does not survive `lstrip` |
| PyStr.TrimRightPadded | app.py:81 | trailing whitespace added to a string does not survive `rstrip` |
| PyStr.TrimLeftThenSpace | app.py:81 | `lstrip` of a string followed by whitespace keeps that whitespace unless the string was all whitespace |
| PyStr.StripPadded | app.py:90 | any whitespace added around a value leaves its `strip` unchanged |
| PyStr.StripOfStripped | app.py:90 | a string with no whitespace at either end is its own `strip` |
| PyStr.StripIdempotent | app.py:90 | `strip` applied twice is `strip` applied once |
| PyStr.UpperChar | app.py:101 | the upper-case form of a character is never a lower-case ASCII letter |
| PyStr.LowerChar | app.py:70 | the lower-case form of a character is never an upper-case ASCII letter, and it upper-cases as the character itself does |
| PyStr.LowerOfUpperChar | app.py:101 | upper-casing a character keeps its lower-case form |
| PyStr.LowerCharUnique | app.py:70 | the lower-case form is the only character that is not an upper-case letter and upper-cases as the original does, so `LowerChar`'s contract fixes it |
| PyStr.UpperCharUnique | app.py:101 | the upper-case form is the only character that is not a lower-case letter and lower-cases as the original does, so `UpperChar`'s contract and `LowerOfUpperChar` fix it |
| PyStr.Lower | app.py:100 | `lower` preserves length |
| PyStr.Upper | app.py:101 | `upper` preserves length |
| PyStr.LowerAt | app.py:100 | `lower` maps each character on its own, position by position |
| PyStr.UpperAt | app.py:101 | `upper` maps each character on its own, position by position |
| PyStr.LowerOfNoUpperCase | app.py:107-111 | a string without upper-case letters, such as the endpoint suffixes, is its own `lower` |
| PyStr.LowerIdempotent | app.py:70 | `lower` applied twice is `lower` applied once |
| PyStr.LowerOfUpper | app.py:100 | `lower` after `upper` equals `lower`, so all case variants of a path lower to the same string |
| PyStr.UpperOfLower | app.py:101 | `upper` after `lower` equals `upper`, so all case variants of a method upper to the same string |
| PyStr.LowerPreservesSpace | app.py:70 | lower-casing neither creates nor removes whitespace |
| PyStr.TrimLeftLower | app.py:70 | `lstrip` and `lower` commute |
| PyStr.TrimRightLower | app.py:70 | `rstrip` and `lower` commute |
| PyStr.StripLowerCommute | app.py:70 | `strip` and `lower` commute, so the city key depends on the input only through its lower-cased form |
| PyStr.EndsWith | app.py:107-111 | a string that ends with a suffix is some prefix followed by that suffix |
| PyStr.EndsWithAppended | app.py:107-111 | conversely, any prefix followed by a suffix ends with that suffix |
| PyStr.EndsWithBoth | app.py:107-112 | when one string ends with two suffixes, the shorter suffix is a suffix of the longer |
| PyStr.EndsWithLowerOf | app.py:100 | a suffix of a string, lower-cased, is a suffix of the lower-cased string |
| Api.MakeResponse | app.py:54-65 | `_response` attaches the four fixed headers and passes status and body through unchanged; `Api.Handle` carries the headers to every response |
| Api.Params | app.py:68-69 | a missing query string gives no parameters, as `parse_qs("")` does; a present one is used as parsed (see `ApiProperties.MissingQueryIsEmpty`) |
| Api.FirstValue | app.py:70 | `qs.get(name, [""])[0]`: the first value of a present parameter, "" for an absent one (see `ApiProperties.FirstValuesDecide`) |
| Api.MethodOf | app.py:101 | the method is never empty, and it is OPTIONS exactly when one was given that upper-cases to OPTIONS: the GET default is never a pre-flight (see `ApiProperties.MissingMethodIsGet`) |
| Api.PathOf | app.py:100 | the path is lower case, as long as the given one, and "" when missing (see `ApiProperties.PathCaseInsensitive`, `ApiProperties.MissingPathNotFound`) |
| Api.IsPreflight | app.py:101-103 | a request is pre-flight exactly when it names a method that upper-cases to OPTIONS |
| Api.CityKey | app.py:70 | the normalised `city_state` has no surrounding whitespace, is already lower case, and is no longer than the raw value |
| Api.ZipKey | app.py:81 | the normalised `zip` has no surrounding whitespace and is no longer than the raw value |
| Api.CityZipsFor | app.py:71-76 | 400 `city_state required` exactly when the key is empty; otherwise 200 with the stored list when the key is present and `[]` when it is absent, always with the fixed headers |
| Api.RouteCityZips | app.py:67-76 | the city endpoint answers only 200 or 400 |
| Api.NeighborsFor | app.py:82-85 | 400 `zip required` exactly when the zip is empty; otherwise 200 with the stored list, or `[]` when the zip is absent |
| Api.RouteZipNeighbors | app.py:78-85 | the neighbor endpoint answers only 200 or 400 |
| Api.MarketFor | app.py:91-96 | 400 `zip required` exactly when the zip is empty; 404 `zip not found` exactly when the zip is absent or its record is empty; otherwise 200 with the stored record itself |
| Api.RouteMarket | app.py:87-96 | the market endpoint answers only 200, 400 or 404 |
| Api.RouteOf | app.py:107-112 | the suffix tests are made in the source's order: city first, then neighbors, then market, and each route is chosen exactly when its test is the first to succeed |
| Api.Handle | app.py:98-114 | every response carries the four fixed headers; the status is always 200, 400 or 404; the body is `{"ok": true}` exactly for pre-flight requests |
| SampleData.Record | app.py:22-51 | every market record built from the stored fields has exactly the twelve field names |
| SampleData.MarketRecordOf | app.py:22-51 | each stored market record has the twelve field names |
| SampleData.LambdaHandler | app.py:98-114 | over `SAMPLE`, every response carries the fixed headers and a status of 200, 400 or 404 |
| ApiProperties.PreflightAnswer | app.py:103-105 | an OPTIONS request is answered 200 `{"ok": true}` whatever its path and query, and no other request gets that body |
| ApiProperties.PreflightAnyCase | app.py:101-105 | every spelling of OPTIONS, in any case, is a pre-flight request |
| ApiProperties.MissingMethodIsGet | app.py:101 | a missing or empty method is never a pre-flight request and is answered exactly like GET |
| ApiProperties.SuffixesExclusive | app.py:107-112 | no path ends with two of the three endpoint suffixes |
| ApiProperties.RouteBySuffix | app.py:107-114 | each endpoint is chosen exactly when the path ends with its own suffix, whatever the order of the tests; no route exactly when none matches |
| ApiProperties.Dispatch | app.py:107-114 | a request that is not pre-flight goes to the handler named by its lower-cased path's suffix, and otherwise gets 404 echoing the lower-cased path |
| ApiProperties.MissingPathNotFound | app.py:100 | a request without a path is matched as "" and gets the 404 with path "" |
| ApiProperties.PathCaseInsensitive | app.py:100 | a path and its upper-cased spelling are answered identically |
| ApiProperties.MissingQueryIsEmpty | app.py:68-69 | a missing query string is answered exactly like an empty one |
| ApiProperties.MissingQueryRejected | app.py:68-72 | without a query string, each routed request gets its handler's 400 |
| ApiProperties.FirstValuesDecide | app.py:70 | the answer depends on the query only through the first values of `city_state` and `zip` |
| ApiProperties.RepeatedParameterIgnored | app.py:81 | further values of a repeated parameter change nothing |
| ApiProperties.CityKeySpelling | app.py:70 | case and surrounding whitespace of `city_state` do not change its normalised key |
| ApiProperties.CitySpellingIrrelevant | app.py:70-76 | case and surrounding whitespace of `city_state` do not change the city endpoint's answer |
| ApiProperties.CityFoundAnySpelling | app.py:70-76 | a stored normalised key, spelled in any case with any surrounding whitespace, yields its stored list in stored order |
| ApiProperties.ZipSpacingIrrelevant | app.py:81-96 | surrounding whitespace of `zip` changes neither zip endpoint's answer |
| ApiProperties.ZipIsCaseSensitive | app.py:81-84 | the zip is not case-folded: a zip stored in lower case is found as `ab` and not as `AB` |
| ApiProperties.EmptyMarketRecordNotFound | app.py:93-95 | a stored but empty market record is answered 404 like a missing zip |
| ApiProperties.SuffixesLowerCase | app.py:107-111 | the three endpoint suffixes are their own lower-case forms |
| ApiProperties.CityZipsPath | app.py:107-108 | a request for `/city-zips` reaches the city handler with its parameters |
| ApiProperties.ZipNeighborsPath | app.py:109-110 | a request for `/zip-neighbors` reaches the neighbor handler with its parameters |
| ApiProperties.MarketPath | app.py:111-112 | a request for `/market` reaches the market handler with its parameters |
| ApiProperties.ZipKeyOfStripped | app.py:90 | a stripped zip sent with any surrounding whitespace is looked up as it is |
| ApiProperties.CityEndpointFound | app.py:67-76 | a whole non-pre-flight `/city-zips` request for a stored key, in any spelling, answers 200 with the stored list |
| ApiProperties.NeighborsEndpointFound | app.py:78-85 | a whole non-pre-flight `/zip-neighbors` request for a stored zip answers 200 with the stored list |
| ApiProperties.MarketEndpointFound | app.py:87-96 | a whole non-pre-flight `/market` request for a stored zip with a non-empty record answers 200 with that record unchanged |
| ApiProperties.MarketEndpointUnknown | app.py:93-95 | a whole non-pre-flight `/market` request for a zip the table lacks answers 404 `zip not found` |
| ApiProperties.UnknownPathEchoed | app.py:114 | a GET of a path without an endpoint suffix answers 404 echoing the lower-cased path, whatever the query |
| ApiProperties.StatusMeaning | app.py:72-114 | 200 carries a pre-flight or lookup body; 400 only a missing-parameter error; 404 only an unknown path or `zip not found` |
| SampleProperties.CityTableKeys | app.py:6-12 | the stored city keys are exactly the five listed names |
| SampleProperties.CityKeysListed | app.py:6-12 | every stored city key is one of the five listed names |
| SampleProperties.CityNamesNormal | app.py:6-12 | the five city names have no upper case, no surrounding whitespace, and are non-empty |
| SampleProperties.CityKeysNormal | app.py:6-12 | every stored city key is already normalised, so a normalised query can meet it |
| SampleProperties.MarketTableKeys | app.py:22-51 | the market table holds records for exactly the seven listed zips |
| SampleProperties.NeighborKeysStripped | app.py:13-21 | every stored neighbor zip key is stripped and non-empty |
| SampleProperties.MarketZipsStripped | app.py:22-51 | every market zip is stripped and non-empty |
| SampleProperties.MarketRecordsComplete | app.py:22-51 | no stored market record is empty: each has the twelve fields |
| SampleProperties.UnknownZipAbsent | app.py:22-51 | zip `00000` has no market record |
| SampleProperties.CityZipsAnySpelling | app.py:67-76 | every sample city, in any case and with any surrounding whitespace, gets 200 with its stored list |
| SampleProperties.RaleighKey | app.py:7 | `Raleigh, NC` lower-cases to the stored key `raleigh, nc`, whose zips are 27603, 27610, 27612 in that order |
| SampleProperties.RaleighExample | app.py:67-76 | `/city-zips` with `city_state` set to `Raleigh, NC` between single spaces answers 200 with 27603, 27610, 27612 |
| SampleProperties.NeighborsOfKnownZip | app.py:78-85 | every sample zip of the neighbor table, with any surrounding whitespace and any non-OPTIONS method, gets 200 with its stored list |
| SampleProperties.MarketOfKnownZip | app.py:87-96 | every sample zip of the market table, with any surrounding whitespace and any non-OPTIONS method, gets 200 with its stored record unchanged |
| SampleProperties.UnknownMarketZip | app.py:93-95 | `/market?zip=00000` answers 404 `zip not found` |
| SampleProperties.UnknownPath | app.py:100-114 | a GET of `/Unknown` answers 404 echoing `/unknown` |

## Left out

- JSON serialisation (`json.dumps`, app.py:64): a body is the abstract
  `Body` datatype, one constructor per JSON shape the handler produces. The
  encoded string is not modelled.
- Query-string decoding (`parse_qs`, app.py:69, 80, 89): the query arrives
  already parsed. Percent-decoding, `+` handling and the dropping of blank
  values belong to the library.
  - A missing `rawQueryString` is `None`.
  - The model assumes that `parse_qs("")` is the empty map. This is how
    `MissingQueryIsEmpty` relates the `or ""` default to an empty query.
- Unicode semantics of `str.strip`, `str.lower` and `str.upper`: the model
  uses ASCII only.
  - Whitespace is the ASCII characters `str.isspace` accepts: 9 to 13 and
    28 to 32.
  - Case mapping moves only A–Z and a–z.
  - Non-ASCII whitespace and letters are kept as they are.
- Floating-point fields `mos` and `slr` of the market records
  (app.py:23-50): they keep their literal text (`Decimal`), since the handler
  only passes records through.
- Lambda plumbing:
  - the nested `requestContext.http.method` lookup (app.py:101) is the
    optional `verb`;
  - the `context` argument is never read and is not modelled.
- The remark that the sample data may later move to DynamoDB (app.py:4) is
  future I/O and is not modelled.
- PyStr.Lower: its own contract states only the length. Its meaning,
  position by position, is `LowerAt`.
- PyStr.Upper: likewise; its meaning, position by position, is `UpperAt`.
