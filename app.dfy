/**
 * app.py: its own copies of the lookup tables, the score formula that reads
 * every cell with `row[column]`, the description lookups without null checks,
 * and the fetch step that the dashboard actually runs (the definition at
 * app.py:130 shadows the one imported from queries.py).
 */
module App {
  import opened Wrappers
  import opened Events
  import C = Constants
  import PyStr
  import Queries

  // ---------------------------------------------------------------------------
  // The tables as app.py redefines them (app.py:22-74)

  const CameoEventCodes: map<string, string> := map[
    "01" := "MAKE PUBLIC STATEMENT",
    "02" := "APPEAL",
    "03" := "EXPRESS INTENT TO COOPERATE",
    "04" := "CONSULT",
    "05" := "ENGAGE IN DIPLOMATIC COOPERATION",
    "06" := "ENGAGE IN MATERIAL COOPERATION",
    "07" := "PROVIDE AID",
    "08" := "YIELD",
    "09" := "INVESTIGATE",
    "10" := "DEMAND",
    "11" := "DISAPPROVE",
    "12" := "REJECT",
    "13" := "THREATEN",
    "14" := "PROTEST",
    "15" := "EXHIBIT MILITARY POSTURE",
    "16" := "REDUCE RELATIONS",
    "17" := "COERCE",
    "18" := "ASSAULT",
    "19" := "FIGHT",
    "20" := "USE UNCONVENTIONAL MASS VIOLENCE"
  ]

  const QuadClassCodes: map<int, string> := map[
    1 := "Verbal Cooperation",
    2 := "Material Cooperation",
    3 := "Verbal Conflict",
    4 := "Material Conflict"
  ]

  const CommonCountries: map<string, string> := map[
    "USA" := "United States",
    "GBR" := "United Kingdom",
    "FRA" := "France",
    "DEU" := "Germany",
    "CHN" := "China",
    "RUS" := "Russia",
    "JPN" := "Japan",
    "IND" := "India",
    "BRA" := "Brazil",
    "CAN" := "Canada",
    "AUS" := "Australia",
    "ZAF" := "South Africa",
    "SAU" := "Saudi Arabia",
    "IRN" := "Iran",
    "ISR" := "Israel",
    "UKR" := "Ukraine",
    "PAK" := "Pakistan",
    "KOR" := "South Korea",
    "MEX" := "Mexico",
    "TUR" := "Turkey"
  ]

  /** The copies in app.py are the tables of constants.py. */
  lemma TablesMatchConstants()
    ensures CameoEventCodes == C.CameoEventCodes
    ensures QuadClassCodes == C.QuadClassCodes
    ensures CommonCountries == C.CommonCountries
  {
  }

  // ---------------------------------------------------------------------------
  // The impact scores (app.py:112-126)

  /** `min(1.0, (articles / 50) * (sources / 10))` */
  function EconomicImpact(articles: int, sources: int): (r: real)
    ensures r <= 1.0
    ensures r >= 0.0 <==> articles * sources >= 0
  {
    var a, s := articles as real, sources as real;
    assert (a / 50.0) * (s / 10.0) == a * s / 500.0;
    assert (articles * sources) as real == a * s;
    MinOne((a / 50.0) * (s / 10.0))
  }

  /** Over the reals the two groupings of the economic formula are the same number. */
  lemma EconomicFormulasAgree(articles: int, sources: int)
    ensures EconomicImpact(articles, sources) == Queries.EconomicImpact(articles, sources)
  {
    var a, s := articles as real, sources as real;
    assert (a / 50.0) * (s / 10.0) == (a / 50.0) * s / 10.0;
  }

  /** The five numeric cells the score formula reads. */
  predicate HasScoreInputs(r: Row)
  {
    r.numMentions.Some? && r.avgTone.Some? && r.goldsteinScale.Some? && r.numArticles.Some? && r.numSources.Some?
  }

  /**
   * `calculate_impact_scores(row)`: `row[column]` raises KeyError on the first
   * cell it reads that the row lacks, in the order the formulas read them.
   */
  function ImpactScores(r: Row): (res: Result<Scores>)
    ensures res.Success? <==> HasScoreInputs(r)
    ensures r.numMentions.None? ==> res == Failure(KeyError("NumMentions"))
    ensures r.numMentions.Some? && r.avgTone.None? ==> res == Failure(KeyError("AvgTone"))
    ensures r.numMentions.Some? && r.avgTone.Some? && r.goldsteinScale.None? ==> res == Failure(KeyError("GoldsteinScale"))
    ensures r.numMentions.Some? && r.avgTone.Some? && r.goldsteinScale.Some? && r.numArticles.None? ==>
              res == Failure(KeyError("NumArticles"))
    ensures r.numMentions.Some? && r.avgTone.Some? && r.goldsteinScale.Some? && r.numArticles.Some? && r.numSources.None? ==>
              res == Failure(KeyError("NumSources"))
    ensures res.Success? ==> ScoresBounded(res.value)
    ensures res.Success? && r.numMentions.value >= 0 ==> res.value.socialImpact >= 0.0
    ensures res.Success? ==>
              (res.value.economicImpact >= 0.0 <==> r.numArticles.value * r.numSources.value >= 0)
  {
    if r.numMentions.None? then Failure(KeyError("NumMentions"))
    else if r.avgTone.None? then Failure(KeyError("AvgTone"))
    else if r.goldsteinScale.None? then Failure(KeyError("GoldsteinScale"))
    else if r.numArticles.None? then Failure(KeyError("NumArticles"))
    else if r.numSources.None? then Failure(KeyError("NumSources"))
    else
      Success(Scores(
        Queries.SocialImpact(r.numMentions.value, r.avgTone.value),
        Queries.PoliticalImpact(r.goldsteinScale.value),
        EconomicImpact(r.numArticles.value, r.numSources.value)))
  }

  /** Worked example: mentions 50, tone -10, Goldstein 5, articles 25, sources 4. */
  lemma ImpactScoresExample(r: Row)
    requires r.numMentions == Some(50) && r.avgTone == Some(-10.0) && r.goldsteinScale == Some(5.0)
    requires r.numArticles == Some(25) && r.numSources == Some(4)
    ensures ImpactScores(r) == Success(Scores(0.25, 0.5, 0.2))
  {
  }

  /** On a row that has all five cells both variants of the formula give the same scores. */
  lemma ScoreVariantsAgree(r: Row)
    requires HasScoreInputs(r)
    ensures ImpactScores(r) == Success(Queries.ImpactScores(Some(r)))
  {
    EconomicFormulasAgree(r.numArticles.value, r.numSources.value);
  }

  // ---------------------------------------------------------------------------
  // The description lookups (app.py:159-164)

  /**
   * `str(x)` of a text cell: the text itself, and 'None' for a null, which no
   * padding turns into a CAMEO code.
   */
  function Str(cell: Option<string>): (s: string)
    ensures cell.Some? ==> s == cell.value
    ensures cell.None? ==> s == "None" && !C.IsRootCode(PyStr.ZFill(s, 2))
  {
    match cell
    case Some(c) => c
    case None => "None"
  }

  /**
   * `CAMEO_EVENT_CODES.get(str(x).zfill(2), 'Unknown')`. There is no null
   * check, but a null reads as 'None', which is no code, so the result is
   * the one of the null-aware lookup in queries.py.
   */
  function RootDescription(code: Option<string>): (d: string)
    ensures d == Queries.RootDescription(code)
  {
    C.CameoKeysAreRootCodes();
    TablesMatchConstants();
    var key := PyStr.ZFill(Str(code), 2);
    if key in CameoEventCodes then CameoEventCodes[key] else C.Unknown
  }

  /**
   * `QUAD_CLASS_CODES.get(x, 'Unknown')`: a null is no key, so this is the
   * null-aware lookup of queries.py.
   */
  function QuadDescription(quad: Option<int>): (d: string)
    ensures d == Queries.QuadDescription(quad)
  {
    TablesMatchConstants();
    match quad
    case Some(q) => if q in QuadClassCodes then QuadClassCodes[q] else C.Unknown
    case None => C.Unknown
  }

  // ---------------------------------------------------------------------------
  // Enrichment and the fetch (app.py:130-170)

  /** One row with its two descriptions and its scores, or the error its scores raise. */
  function EnrichOne(r: Row): (res: Result<EnrichedRow>)
    ensures res.Success? <==> HasScoreInputs(r)
    ensures res.Failure? ==> ImpactScores(r) == Failure(res.error)
    ensures res.Success? ==> res.value.row == r && ScoresBounded(res.value.scores)
  {
    match ImpactScores(r)
    case Failure(e) => Failure(e)
    case Success(s) => Success(EnrichedRow(r, RootDescription(r.eventRootCode), QuadDescription(r.quadClass), s))
  }

  /**
   * Lines 158-168: both description columns, then the scores row by row; the
   * first row whose scores raise aborts the whole step with that error. The
   * rows here may lack different cells; for the rows of one frame, which all
   * have the frame's columns, EnrichFailsAtFirstRow says that row is the first.
   */
  function Enrich(rows: seq<Row>): (res: Result<seq<EnrichedRow>>)
    ensures res.Success? <==> forall i :: 0 <= i < |rows| ==> HasScoreInputs(rows[i])
    ensures res.Success? ==>
              |res.value| == |rows| &&
              forall i :: 0 <= i < |rows| ==> EnrichOne(rows[i]) == Success(res.value[i])
    ensures res.Failure? ==>
              exists i :: 0 <= i < |rows| && EnrichOne(rows[i]) == Failure(res.error) &&
                forall j :: 0 <= j < i ==> EnrichOne(rows[j]).Success?
  {
    var each := seq(|rows|, i requires 0 <= i < |rows| => EnrichOne(rows[i]));
    assert forall i :: 0 <= i < |rows| ==> (each[i].Success? <==> HasScoreInputs(rows[i]));
    Collect(each)
  }

  /**
   * The rows the page's own query yields: its SELECT list (app.py:132-154)
   * names all five score columns, so every row has them.
   */
  predicate HasQueriedColumns(rows: seq<Row>)
  {
    forall i :: 0 <= i < |rows| ==> HasScoreInputs(rows[i])
  }

  /** `a` and `b` lack the same score columns, as two rows of one frame do. */
  predicate SameScoreColumns(a: Row, b: Row)
  {
    && (a.numMentions.Some? <==> b.numMentions.Some?)
    && (a.avgTone.Some? <==> b.avgTone.Some?)
    && (a.goldsteinScale.Some? <==> b.goldsteinScale.Some?)
    && (a.numArticles.Some? <==> b.numArticles.Some?)
    && (a.numSources.Some? <==> b.numSources.Some?)
  }

  /**
   * All rows of a frame have the frame's columns, so the enrichment of a
   * non-empty frame fails exactly when its first row lacks a score column,
   * and with that row's KeyError.
   */
  lemma EnrichFailsAtFirstRow(rows: seq<Row>)
    requires rows != [] && forall i :: 0 <= i < |rows| ==> SameScoreColumns(rows[0], rows[i])
    ensures Enrich(rows).Success? <==> HasScoreInputs(rows[0])
    ensures Enrich(rows).Failure? ==> ImpactScores(rows[0]) == Failure(Enrich(rows).error)
  {
    var res := Enrich(rows);
    if res.Failure? {
      var i :| 0 <= i < |rows| && EnrichOne(rows[i]) == Failure(res.error) &&
               forall j :: 0 <= j < i ==> EnrichOne(rows[j]).Success?;
      assert SameScoreColumns(rows[0], rows[i]);
      assert i == 0;
    }
  }

  /** Where every row has its score cells, app.py enriches exactly as queries.py does. */
  lemma EnrichVariantsAgree(rows: seq<Row>)
    requires forall i :: 0 <= i < |rows| ==> HasScoreInputs(rows[i])
    ensures Enrich(rows) == Success(Queries.Enrich(rows))
  {
    var q := Queries.Enrich(rows);
    var res := Enrich(rows);
    assert res.Success?;
    forall i | 0 <= i < |rows| ensures res.value[i] == q[i] {
      RowVariantsAgree(rows[i]);
    }
    assert res.value == q;
  }

  /** One row enriched by app.py's definitions is the row enriched by queries.py's. */
  lemma RowVariantsAgree(r: Row)
    requires HasScoreInputs(r)
    ensures EnrichOne(r) == Success(Queries.EnrichRow(r))
  {
    ScoreVariantsAgree(r);
  }

  /**
   * `fetch_gdelt_data` as app.py defines it: without a client `client.query`
   * raises AttributeError; a failing query raises; otherwise the rows are
   * enriched, an empty result included.
   */
  function FetchGdeltData(outcome: QueryOutcome): (res: Result<seq<EnrichedRow>>)
    ensures outcome.ClientMissing? ==> res == Failure(AttributeError)
    ensures outcome.ServiceFailed? ==> res == Failure(ServiceError)
    ensures outcome == Returned([]) ==> res == Success([])
    ensures res.Success? ==>
              outcome.Returned? && |res.value| == |outcome.rows| &&
              forall i :: 0 <= i < |outcome.rows| ==> res.value[i].row == outcome.rows[i]
    ensures outcome.Returned? ==> res == Enrich(outcome.rows)
  {
    match outcome
    case ClientMissing => Failure(AttributeError)
    case ServiceFailed => Failure(ServiceError)
    case Returned(rows) => Enrich(rows)
  }

  /**
   * The two fetch definitions agree on a non-empty result whose rows have their
   * score cells; on an empty result queries.py hands back the unenriched frame.
   */
  lemma FetchVariantsAgree(outcome: QueryOutcome)
    requires outcome.Returned? && outcome.rows != []
    requires forall i :: 0 <= i < |outcome.rows| ==> HasScoreInputs(outcome.rows[i])
    ensures Queries.FetchGdeltData(outcome).Enriched?
    ensures FetchGdeltData(outcome) == Success(Queries.FetchGdeltData(outcome).enrichedRows)
  {
    EnrichVariantsAgree(outcome.rows);
  }
}
