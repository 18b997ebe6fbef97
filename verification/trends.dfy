/** The market-trend record shown on the public site and edited by the
    admin, with its partial-update form and shallow merge. */
module MarketTrends {
  import opened Optional

  datatype Mood = Bullish | Neutral | Bearish
  datatype Direction = Up | Stable | Down

  datatype Budget = Budget(min: string, max: string, trend: Direction)

  /** `marketMoodValue` is a JavaScript number meant to lie in 0..100; the
      model keeps it as an integer. */
  datatype Trend = Trend(
    trendingAreas: seq<string>,
    marketMood: Mood,
    marketMoodValue: int,
    mostRequestedType: string,
    averageBudget: Budget,
    insights: seq<string>,
    lastUpdated: string)

  /** A `Partial<MarketTrend>`: every key may be absent (`None`). */
  datatype TrendPatch = TrendPatch(
    trendingAreas: Option<seq<string>>,
    marketMood: Option<Mood>,
    marketMoodValue: Option<int>,
    mostRequestedType: Option<string>,
    averageBudget: Option<Budget>,
    insights: Option<seq<string>>,
    lastUpdated: Option<string>)

  const NoChanges := TrendPatch(None, None, None, None, None, None, None)

  /** A whole record passed where a partial one is expected. */
  function AsPatch(t: Trend): TrendPatch {
    TrendPatch(Some(t.trendingAreas), Some(t.marketMood), Some(t.marketMoodValue),
      Some(t.mostRequestedType), Some(t.averageBudget), Some(t.insights), Some(t.lastUpdated))
  }

  /** `{ ...t, ...u }`, shallow: a present `averageBudget` replaces the whole
      nested record. */
  function Merge(t: Trend, u: TrendPatch): Trend {
    Trend(
      u.trendingAreas.GetOr(t.trendingAreas),
      u.marketMood.GetOr(t.marketMood),
      u.marketMoodValue.GetOr(t.marketMoodValue),
      u.mostRequestedType.GetOr(t.mostRequestedType),
      u.averageBudget.GetOr(t.averageBudget),
      u.insights.GetOr(t.insights),
      u.lastUpdated.GetOr(t.lastUpdated))
  }

  lemma MergeLaws(t: Trend, s: Trend, u: TrendPatch)
    ensures Merge(t, NoChanges) == t
    ensures Merge(s, AsPatch(t)) == t
    ensures Merge(Merge(t, u), u) == Merge(t, u)
    ensures u.averageBudget.Some? ==> Merge(t, u).averageBudget == u.averageBudget.value
  {
  }

  /** The bundled record the store starts from. */
  const Fixture := Trend(
    ["Lekki Phase 1", "Victoria Island", "Ikoyi", "Banana Island", "Ikeja GRA"],
    Bullish,
    72,
    "3-4 Bedroom Apartments",
    Budget("\U{20A6}80M", "\U{20A6}250M", Up),
    ["Luxury apartments seeing 15% YoY growth",
     "Commercial spaces in VI remain in high demand",
     "New developments in Lekki attracting foreign investors"],
    "December 2024")
}
