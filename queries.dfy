/**
 * queries.py: the score formulas that read missing cells as 0, the null-aware
 * description lookups, and the fetch step with its empty-result paths.
 */
module Queries {
  import opened Wrappers
  import opened Events
  import opened Constants
  import PyStr

  // ---------------------------------------------------------------------------
  // The impact scores (queries.py:20-42)

  /** `min(1.0, (mentions / 100) * abs(tone) / 20)` */
  function SocialImpact(mentions: int, tone: real): (r: real)
    ensures r <= 1.0
    ensures r >= 0.0 <==> (mentions >= 0 || tone == 0.0)
    ensures mentions == 0 || tone == 0.0 ==> r == 0.0
  {
    var m := mentions as real;
    var x := (m / 100.0) * Abs(tone) / 20.0;
    assert x == m * Abs(tone) / 2000.0;
    assert x >= 0.0 <==> m * Abs(tone) >= 0.0;
    MinOne(x)
  }

  /** `min(1.0, abs(goldstein) / 10)` */
  function PoliticalImpact(goldstein: real): (r: real)
    ensures 0.0 <= r <= 1.0
    ensures r == 0.0 <==> goldstein == 0.0
    ensures Abs(goldstein) >= 10.0 ==> r == 1.0
  {
    MinOne(Abs(goldstein) / 10.0)
  }

  /** `min(1.0, (articles / 50) * sources / 10)` */
  function EconomicImpact(articles: int, sources: int): (r: real)
    ensures r <= 1.0
    ensures r >= 0.0 <==> articles * sources >= 0
    ensures articles == 0 || sources == 0 ==> r == 0.0
  {
    var a, s := articles as real, sources as real;
    var x := (a / 50.0) * s / 10.0;
    assert x == a * s / 500.0;
    assert (articles * sources) as real == a * s;
    MinOne(x)
  }

  /**
   * `calculate_impact_scores(row)`: no row gives three zeros; a cell the row
   * lacks counts as 0 (the `row.get(column, 0)` default).
   */
  function ImpactScores(row: Option<Row>): (s: Scores)
    ensures ScoresBounded(s)
    ensures row.None? ==> s == Scores(0.0, 0.0, 0.0)
    ensures row.Some? && (row.value.numMentions.None? || row.value.avgTone.None?) ==> s.socialImpact == 0.0
    ensures row.Some? && row.value.goldsteinScale.None? ==> s.politicalImpact == 0.0
    ensures row.Some? && (row.value.numArticles.None? || row.value.numSources.None?) ==> s.economicImpact == 0.0
    ensures row.Some? && GetOr(row.value.numMentions, 0) >= 0 ==> s.socialImpact >= 0.0
    ensures row.Some? && GetOr(row.value.numArticles, 0) >= 0 && GetOr(row.value.numSources, 0) >= 0 ==>
              s.economicImpact >= 0.0
  {
    match row
    case None => Scores(0.0, 0.0, 0.0)
    case Some(r) =>
      var a, b := GetOr(r.numArticles, 0), GetOr(r.numSources, 0);
      assert a >= 0 && b >= 0 ==> a * b >= 0;
      Scores(
        SocialImpact(GetOr(r.numMentions, 0), GetOr(r.avgTone, 0.0)),
        PoliticalImpact(GetOr(r.goldsteinScale, 0.0)),
        EconomicImpact(a, b))
  }

  // ---------------------------------------------------------------------------
  // The description lookups (queries.py:83-88)

  /**
   * `CAMEO_EVENT_CODES.get(str(x).zfill(2) if pd.notna(x) else '', 'Unknown')`:
   * a present code is padded to two characters and looked up; a null code is
   * looked up as '' and so always falls back.
   */
  function RootDescription(code: Option<string>): (d: string)
    ensures code.None? ==> d == Unknown
    ensures d == Unknown <==> code.None? || PyStr.ZFill(code.value, 2) !in CameoEventCodes
    ensures d != Unknown ==> IsRootCode(PyStr.ZFill(code.value, 2)) && d in CameoLabelOrder
    ensures d != Unknown ==> d == CameoLabelOrder[TwoDigitValue(PyStr.ZFill(code.value, 2)) - 1]
  {
    CameoKeysAreRootCodes();
    CameoLabelsDistinct();
    var key := match code case Some(c) => PyStr.ZFill(c, 2) case None => "";
    if key in CameoEventCodes then
      CameoLabelOf(key);
      CameoEventCodes[key]
    else Unknown
  }

  /**
   * `QUAD_CLASS_CODES.get(x if pd.notna(x) else 0, 'Unknown')`: the label of
   * quad classes 1 to 4, and the fallback for anything else, null included.
   */
  function QuadDescription(quad: Option<int>): (d: string)
    ensures d != Unknown <==> quad.Some? && 1 <= quad.value <= 4
    ensures quad.Some? && 1 <= quad.value <= 4 ==> d == QuadLabelOrder[quad.value - 1]
  {
    QuadKeys();
    QuadLabelsListed();
    QuadLabelsDistinct();
    var key := match quad case Some(q) => q case None => 0;
    if key in QuadClassCodes then QuadClassCodes[key] else Unknown
  }

  /** A one-character code is padded before the lookup: '1' is read as '01'. */
  lemma RootDescriptionPads()
    ensures RootDescription(Some("1")) == "MAKE PUBLIC STATEMENT"
    ensures RootDescription(Some("1")) == RootDescription(Some("01"))
  {
    assert PyStr.ZFill("1", 2) == "01";
    assert IsRootCode("01");
  }

  /** A padded code outside '01'..'20' falls back, e.g. '99', '21' and '00'. */
  lemma RootDescriptionFallback()
    ensures RootDescription(Some("99")) == Unknown
    ensures RootDescription(Some("21")) == Unknown
    ensures RootDescription(Some("0")) == Unknown
  {
    assert PyStr.ZFill("0", 2) == "00";
    assert !IsRootCode("99") && !IsRootCode("21") && !IsRootCode("00");
  }

  /** Quad classes outside 1..4 fall back, e.g. 0 and 5. */
  lemma QuadDescriptionExamples()
    ensures QuadDescription(Some(1)) == "Verbal Cooperation"
    ensures QuadDescription(Some(4)) == "Material Conflict"
    ensures QuadDescription(Some(0)) == Unknown && QuadDescription(Some(5)) == Unknown
    ensures QuadDescription(None) == Unknown
  {
  }

  // ---------------------------------------------------------------------------
  // Enrichment and the fetch (queries.py:44-98)

  /** One row with its two descriptions and three scores added. */
  function EnrichRow(r: Row): (e: EnrichedRow)
    ensures e.row == r
    ensures ScoresBounded(e.scores)
  {
    EnrichedRow(r, RootDescription(r.eventRootCode), QuadDescription(r.quadClass), ImpactScores(Some(r)))
  }

  /**
   * The column assignments of lines 83-92 over the whole frame: the same rows
   * in the same order with their original cells, each enriched on its own.
   */
  function Enrich(rows: seq<Row>): (es: seq<EnrichedRow>)
    ensures |es| == |rows|
    ensures forall i :: 0 <= i < |rows| ==> es[i] == EnrichRow(rows[i])
  {
    seq(|rows|, i requires 0 <= i < |rows| => EnrichRow(rows[i]))
  }

  /**
   * `fetch_gdelt_data`: no client or a failing query gives a frame without
   * columns; an empty result is handed back as it came; anything else is
   * enriched.
   */
  function FetchGdeltData(outcome: QueryOutcome): (f: Frame)
    ensures outcome.ClientMissing? || outcome.ServiceFailed? ==> f == NoColumns
    ensures outcome == Returned([]) ==> f == Plain([])
    ensures outcome.Returned? && outcome.rows != [] ==>
              f.Enriched? && |f.enrichedRows| == |outcome.rows| &&
              forall i :: 0 <= i < |outcome.rows| ==>
                f.enrichedRows[i].row == outcome.rows[i] && ScoresBounded(f.enrichedRows[i].scores)
    ensures outcome.Returned? && outcome.rows != [] ==>
              f == Enriched(Enrich(outcome.rows)) &&
              forall i :: 0 <= i < |outcome.rows| ==> f.enrichedRows[i] == EnrichRow(outcome.rows[i])
    ensures IsEmpty(f) <==> !(outcome.Returned? && outcome.rows != [])
  {
    match outcome
    case ClientMissing => NoColumns
    case ServiceFailed => NoColumns
    case Returned(rows) => if rows == [] then Plain(rows) else Enriched(Enrich(rows))
  }
}
