/** The static reference data `SAMPLE` (app.py:5-52), loaded once and never
    written. Months of supply and sale-to-list ratio keep their literal text. */
module SampleData {
  import opened Api

  const CityToZips: map<string, seq<string>> := map[
    "raleigh, nc" := ["27603", "27610", "27612"],
    "durham, nc" := ["27703", "27713", "27707"],
    "elizabeth city, nc" := ["27909", "27921", "27917"],
    "goldsboro, nc" := ["27534", "27530", "27531"],
    "portland, or" := ["97202", "97206", "97229"]
  ]

  const ZipNeighbors: map<string, seq<string>> := map[
    "27612" := ["27613", "27609"],
    "27610" := ["27603", "27604"],
    "27603" := ["27610", "27529"],
    "27703" := ["27713", "27560"],
    "97202" := ["97206", "97214"],
    "27534" := ["27530", "27531"],
    "27909" := ["27921", "27917"]
  ]

  /** The field names every market record carries. */
  const RecordFields: set<string> := {"city", "state", "county", "score", "class", "dom", "mos",
                                      "slr", "reductions", "trends", "insights", "evidence"}

  /** One market record, under the field names the source stores. */
  function Record(city: string, state: string, county: string, score: int, heat: string,
                  dom: int, mos: string, slr: string, reductions: int,
                  trends: seq<string>, insights: seq<string>, evidence: seq<string>): (m: MarketRecord)
    ensures m.Keys == RecordFields
  {
    map[
      "city" := Text(city), "state" := Text(state), "county" := Text(county),
      "score" := Whole(score), "class" := Text(heat), "dom" := Whole(dom),
      "mos" := Decimal(mos), "slr" := Decimal(slr), "reductions" := Whole(reductions),
      "trends" := Texts(trends), "insights" := Texts(insights), "evidence" := Texts(evidence)]
  }

  /** The zips the market table has a record for. */
  const MarketZips: set<string> := {"27612", "27603", "27610", "27703", "97202", "27909", "27534"}

  /** The stored record of each zip of `MarketZips`. */
  function MarketRecordOf(z: string): (m: MarketRecord)
    requires z in MarketZips
    ensures m.Keys == RecordFields
  {
    if z == "27612" then
      Record("Raleigh", "NC", "Wake County", 71, "WARM", 41, "2.4", "98.7", 23,
        ["Inventory loosening slightly", "Buyers negotiating harder", "Higher price points slowing"],
        ["Target expireds & high-equity owners", "Flip smaller homes/townhomes for faster turns"],
        ["DOM > 40", "Reductions up", "Supply trending up"])
    else if z == "27603" then
      Record("Raleigh", "NC", "Wake County", 82, "HOT", 27, "1.7", "100.3", 14,
        ["Core buyer demand strong", "Under-30 DOM common", "Tight sub-400k supply"],
        ["Fast flips w/ cosmetic rehabs", "Wholesale entry-level SFRs"],
        ["DOM < 30", "Sale/List > 100%", "Low MoS"])
    else if z == "27610" then
      Record("Raleigh", "NC", "Wake County", 74, "WARM", 33, "2.0", "99.1", 19,
        ["Mixed comps by micro-hood", "Slight uptick in inventory", "Investors active but selective"],
        ["Novations & wholetails near retail-ready", "Assign lower ARV pockets"],
        ["DOM ~ 30", "Moderate reductions", "MoS ~ 2.0"])
    else if z == "27703" then
      Record("Durham", "NC", "Durham County", 76, "WARM", 32, "1.9", "100.1", 18,
        ["Near RTP demand steady", "Townhomes move quickly", "Affordability pockets remain"],
        ["Focus 3/2 ranches near 70/540", "Wholesale townhomes to FHA buyers"],
        ["Sale/List ≈ 100%", "MoS < 2.0", "DOM low 30s"])
    else if z == "97202" then
      Record("Portland", "OR", "Multnomah County", 69, "WARM", 43, "2.6", "98.1", 25,
        ["High rates cooling move-up buyers", "More price improvements", "Segmented by school clusters"],
        ["Focus cosmetic rehabs under 500k", "Wholesale craftsman fixers"],
        ["DOM > 40", "Reductions 25%", "MoS > 2.5"])
    else if z == "27909" then
      Record("Elizabeth City", "NC", "Pasquotank County", 64, "COOL", 52, "3.1", "97.4", 28,
        ["Longer marketing times", "Investor demand patchy", "More concessions"],
        ["Creative finance / sub-to", "Deeper discounts for flips"],
        ["DOM > 50", "MoS > 3", "Reductions near 30%"])
    else
      Record("Goldsboro", "NC", "Wayne County", 66, "COOL", 48, "2.8", "97.9", 26,
        ["Military turnover influences DOM", "Affordability remains key", "Builders cautious"],
        ["Assignments near bases", "Entry-level wholetails"],
        ["DOM ~ 50", "MoS ~ 2.8", "SLR < 98%"])
  }

  const MarketTable: map<string, MarketRecord> := map z | z in MarketZips :: MarketRecordOf(z)

  const Sample: Tables := Tables(CityToZips, ZipNeighbors, MarketTable)

  /** The deployed handler: `lambda_handler` over `SAMPLE`. The context
      argument is unused and not modelled. */
  function LambdaHandler(req: Request): (r: Response)
    ensures r.headers == CorsHeaders
    ensures r.status in {200, 400, 404}
  {
    Handle(req, Sample)
  }
}
