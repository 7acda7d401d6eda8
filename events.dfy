/**
 * The rows the dashboard works on: one GDELT event as the warehouse returns it,
 * the same event after enrichment, and what a warehouse request can come back
 * with.
 */
module Events {
  import opened Wrappers

  datatype Date = Date(year: int, month: int, day: int)

  /**
   * One event row, with the columns the query selects. `None` stands for two
   * different things:
   *  - in the five score columns (GoldsteinScale, NumMentions, NumSources,
   *    NumArticles, AvgTone) the column is absent from the row, which is where
   *    `row.get(column, 0)` and `row[column]` part ways; the page's own query
   *    always selects them (App.HasQueriedColumns), and a NULL number there
   *    (NaN or pd.NA) is not modelled;
   *  - in every other column it is a NULL cell, which `pd.notna`, `dropna`,
   *    `fillna` and `str` see.
   */
  datatype Row = Row(
    eventDate: Option<Date>,
    actor1CountryCode: Option<string>,
    actor2CountryCode: Option<string>,
    eventCode: Option<string>,
    goldsteinScale: Option<real>,
    numMentions: Option<int>,
    numSources: Option<int>,
    numArticles: Option<int>,
    avgTone: Option<real>,
    eventRootCode: Option<string>,
    quadClass: Option<int>,
    actor1Name: Option<string>,
    actor2Name: Option<string>,
    actionGeoFullName: Option<string>,
    sourceUrl: Option<string>)

  /** The three derived scores. */
  datatype Scores = Scores(socialImpact: real, politicalImpact: real, economicImpact: real)

  /** A row with the two description columns and the three score columns added. */
  datatype EnrichedRow = EnrichedRow(
    row: Row,
    eventRootDescription: string,
    quadClassDescription: string,
    scores: Scores)

  /** What a request to the warehouse came back with. */
  datatype QueryOutcome =
    | ClientMissing             // no client could be built from the credentials
    | ServiceFailed             // the query raised
    | Returned(rows: seq<Row>)  // the result rows, in the order the service sent them

  /**
   * A data frame as the queries.py fetch returns it: one without any columns,
   * the query's own columns with no extra ones, or the enriched frame.
   */
  datatype Frame =
    | NoColumns
    | Plain(plainRows: seq<Row>)
    | Enriched(enrichedRows: seq<EnrichedRow>)

  predicate IsEmpty(f: Frame)
  {
    match f
    case NoColumns => true
    case Plain(rs) => rs == []
    case Enriched(es) => es == []
  }

  /** Python's `min(1.0, x)`: `x` unless `x` is not below 1.0. */
  function MinOne(x: real): (r: real)
    ensures r <= 1.0
    ensures r == x || r == 1.0
    ensures r >= 0.0 <==> x >= 0.0
    ensures x <= 1.0 ==> r == x
  {
    if x < 1.0 then x else 1.0
  }

  /** Python's `abs` on a float. */
  function Abs(x: real): (r: real)
    ensures r >= 0.0 && (r == x || r == -x)
  {
    if x < 0.0 then -x else x
  }

  /** Every score at most 1, the political score at least 0. */
  predicate ScoresBounded(s: Scores)
  {
    s.socialImpact <= 1.0 && s.politicalImpact <= 1.0 && s.economicImpact <= 1.0 && 0.0 <= s.politicalImpact
  }
}
