/**
 * The static tables and settings of the dashboard: CAMEO root event codes,
 * GDELT quad classes, display names of common ISO-3 country codes, and the
 * query and cache settings.
 */
module Constants {

  /** CAMEO root event code (two digits) to its category label. */
  const CameoEventCodes: map<string, string> := map[
    "01" := "MAKE PUBLIC STATEMENT",
    "02" := "APPEAL",
    "03" := "EXPRESS INTENT TO COOPERATE",
    "04" := "CONSULT",
    "05" := "ENGAGE IN DIPLOMATIC COOPERATION",
    "06" := "ENGAGE IN MATERIAL COOPERATION",
    "07" := "PROVIDE AID",
    "08" := "YIELD",
    "09" := "INVESTIGATE",
    "10" := "DEMAND",
    "11" := "DISAPPROVE",
    "12" := "REJECT",
    "13" := "THREATEN",
    "14" := "PROTEST",
    "15" := "EXHIBIT MILITARY POSTURE",
    "16" := "REDUCE RELATIONS",
    "17" := "COERCE",
    "18" := "ASSAULT",
    "19" := "FIGHT",
    "20" := "USE UNCONVENTIONAL MASS VIOLENCE"
  ]

  /** The keys of CameoEventCodes in the order the table lists them (a dict keeps it). */
  const CameoCodeOrder: seq<string> := [
    "01", "02", "03", "04", "05", "06", "07", "08", "09", "10",
    "11", "12", "13", "14", "15", "16", "17", "18", "19", "20"
  ]

  /** GDELT quad class to its label. */
  const QuadClassCodes: map<int, string> := map[
    1 := "Verbal Cooperation",
    2 := "Material Cooperation",
    3 := "Verbal Conflict",
    4 := "Material Conflict"
  ]

  /** The keys of QuadClassCodes in table order. */
  const QuadClassOrder: seq<int> := [1, 2, 3, 4]

  /** Display names of common ISO-3 country codes. */
  const CommonCountries: map<string, string> := map[
    "USA" := "United States",
    "GBR" := "United Kingdom",
    "FRA" := "France",
    "DEU" := "Germany",
    "CHN" := "China",
    "RUS" := "Russia",
    "JPN" := "Japan",
    "IND" := "India",
    "BRA" := "Brazil",
    "CAN" := "Canada",
    "AUS" := "Australia",
    "ZAF" := "South Africa",
    "SAU" := "Saudi Arabia",
    "IRN" := "Iran",
    "ISR" := "Israel",
    "UKR" := "Ukraine",
    "PAK" := "Pakistan",
    "KOR" := "South Korea",
    "MEX" := "Mexico",
    "TUR" := "Turkey"
  ]

  /** The warehouse table the events are read from. */
  const GdeltTable: string := "gdelt-bq.gdeltv2.events"

  /** At most this many rows are requested per date. */
  const QueryLimit: nat := 1000

  /** Seconds a cached query result stays valid. */
  const CacheTtl: nat := 3600

  /** The label every lookup falls back to. */
  const Unknown: string := "Unknown"

  /** The labels of CameoEventCodes in table order (what `.values()` yields). */
  const CameoLabelOrder: seq<string> := [
    "MAKE PUBLIC STATEMENT", "APPEAL", "EXPRESS INTENT TO COOPERATE", "CONSULT",
    "ENGAGE IN DIPLOMATIC COOPERATION", "ENGAGE IN MATERIAL COOPERATION", "PROVIDE AID",
    "YIELD", "INVESTIGATE", "DEMAND", "DISAPPROVE", "REJECT", "THREATEN", "PROTEST",
    "EXHIBIT MILITARY POSTURE", "REDUCE RELATIONS", "COERCE", "ASSAULT", "FIGHT",
    "USE UNCONVENTIONAL MASS VIOLENCE"
  ]

  /** The labels of QuadClassCodes in table order. */
  const QuadLabelOrder: seq<string> := [
    "Verbal Cooperation", "Material Cooperation", "Verbal Conflict", "Material Conflict"
  ]

  /** The keys of CommonCountries in table order. */
  const CountryCodeOrder: seq<string> := [
    "USA", "GBR", "FRA", "DEU", "CHN", "RUS", "JPN", "IND", "BRA", "CAN",
    "AUS", "ZAF", "SAU", "IRN", "ISR", "UKR", "PAK", "KOR", "MEX", "TUR"
  ]

  /** The display names of CommonCountries in table order. */
  const CountryNameOrder: seq<string> := [
    "United States", "United Kingdom", "France", "Germany", "China", "Russia", "Japan",
    "India", "Brazil", "Canada", "Australia", "South Africa", "Saudi Arabia", "Iran",
    "Israel", "Ukraine", "Pakistan", "South Korea", "Mexico", "Turkey"
  ]

  predicate IsDigit(c: char)
  {
    '0' <= c <= '9'
  }

  predicate IsUpperLetter(c: char)
  {
    'A' <= c <= 'Z'
  }

  /** The number written by two decimal digits. */
  function TwoDigitValue(k: string): int
    requires |k| == 2
  {
    10 * (k[0] as int - '0' as int) + (k[1] as int - '0' as int)
  }

  /** Two decimal digits whose value is between 1 and 20. */
  predicate IsRootCode(k: string)
  {
    |k| == 2 && IsDigit(k[0]) && IsDigit(k[1]) && 1 <= TwoDigitValue(k) <= 20
  }

  /** `n`, between 0 and 99, written with two digits. */
  function TwoDigits(n: int): (k: string)
    requires 0 <= n < 100
    ensures |k| == 2 && IsDigit(k[0]) && IsDigit(k[1]) && TwoDigitValue(k) == n
  {
    [('0' as int + n / 10) as char, ('0' as int + n % 10) as char]
  }

  predicate NoParentheses(s: string)
  {
    '(' !in s && ')' !in s
  }

  predicate Distinct<T(==)>(xs: seq<T>)
  {
    forall i, j :: 0 <= i < j < |xs| ==> xs[i] != xs[j]
  }

  /** No two keys of `m` share a value. */
  predicate Injective<K, V(==)>(m: map<K, V>)
  {
    forall a, b :: a in m && b in m && m[a] == m[b] ==> a == b
  }

  /** `keys` lists exactly the keys of `m`. */
  predicate ListsKeys<K>(m: map<K, string>, keys: seq<K>)
  {
    (forall k :: k in m ==> k in keys) && forall i :: 0 <= i < |keys| ==> keys[i] in m
  }

  /** `labels[i]` is what `m` maps `keys[i]` to. */
  predicate ListsLabels<K>(m: map<K, string>, keys: seq<K>, labels: seq<string>)
  {
    |keys| == |labels| && forall i :: 0 <= i < |keys| ==> keys[i] in m && m[keys[i]] == labels[i]
  }

  lemma {:induction false} DistinctCardinality<T>(xs: seq<T>)
    requires Distinct(xs)
    ensures |set x | x in xs| == |xs|
  {
    if xs != [] {
      DistinctCardinality(xs[1..]);
      var rest := set x | x in xs[1..];
      assert (set x | x in xs) == {xs[0]} + rest;
      assert xs[0] !in rest;
    }
  }

  /** A table whose keys are listed without repetition has as many entries as the listing. */
  lemma {:induction false} ListedCardinality<K>(m: map<K, string>, keys: seq<K>)
    requires ListsKeys(m, keys) && Distinct(keys)
    ensures |m| == |keys|
  {
    assert m.Keys == set x | x in keys;
    DistinctCardinality(keys);
  }

  /** A table whose labels are listed without repetition is injective and has exactly those labels. */
  lemma {:induction false} ListedLabels<K>(m: map<K, string>, keys: seq<K>, labels: seq<string>)
    requires ListsKeys(m, keys) && ListsLabels(m, keys, labels) && Distinct(labels)
    ensures Injective(m)
    ensures forall v :: v in m.Values <==> v in labels
  {
    forall a, b | a in m && b in m && m[a] == m[b] ensures a == b {
      var i :| 0 <= i < |keys| && keys[i] == a;
      var j :| 0 <= j < |keys| && keys[j] == b;
      assert labels[i] == labels[j];
    }
    forall v ensures v in m.Values <==> v in labels {
      if v in labels {
        var i :| 0 <= i < |labels| && labels[i] == v;
        assert m[keys[i]] == v;
      }
      if v in m.Values {
        var k :| k in m && m[k] == v;
        var i :| 0 <= i < |keys| && keys[i] == k;
      }
    }
  }

  // The facts below are checked on the literal tables one at a time: each
  // table definition is large, and one obligation per fact keeps them cheap.

  lemma CameoKeysListed()
    ensures ListsKeys(CameoEventCodes, CameoCodeOrder)
  {
  }

  lemma CameoLabelsListedLow()
    ensures forall i :: 0 <= i < 10 ==>
              CameoCodeOrder[i] in CameoEventCodes && CameoEventCodes[CameoCodeOrder[i]] == CameoLabelOrder[i]
  {
  }

  lemma CameoLabelsListedHigh()
    ensures forall i :: 10 <= i < 20 ==>
              CameoCodeOrder[i] in CameoEventCodes && CameoEventCodes[CameoCodeOrder[i]] == CameoLabelOrder[i]
  {
  }

  lemma CameoLabelsListed()
    ensures ListsLabels(CameoEventCodes, CameoCodeOrder, CameoLabelOrder)
  {
    CameoLabelsListedLow();
    CameoLabelsListedHigh();
  }

  lemma CameoOrdersDistinct()
    ensures Distinct(CameoCodeOrder) && Distinct(CameoLabelOrder) && Unknown !in CameoLabelOrder
  {
    CameoCodeOrderDistinct();
    CameoLabelOrderDistinct();
  }

  /** The codes are '01' to '20', and two-digit strings with different values differ. */
  lemma CameoCodeOrderDistinct()
    ensures Distinct(CameoCodeOrder)
  {
    CameoCodeOrderCounts();
    forall i, j | 0 <= i < j < |CameoCodeOrder| ensures CameoCodeOrder[i] != CameoCodeOrder[j] {
      assert TwoDigitValue(CameoCodeOrder[i]) == i + 1 && TwoDigitValue(CameoCodeOrder[j]) == j + 1;
    }
  }

  /** No two labels among positions lo1..hi1 and lo2..hi2 of `xs` are equal. */
  predicate DistinctAcross(xs: seq<string>, lo1: nat, hi1: nat, lo2: nat, hi2: nat)
    requires hi1 <= |xs| && hi2 <= |xs|
  {
    forall i, j :: lo1 <= i < hi1 && lo2 <= j < hi2 && i < j ==> xs[i] != xs[j]
  }

  lemma CameoLabelsDistinctLow()
    ensures |CameoLabelOrder| == 20 && DistinctAcross(CameoLabelOrder, 0, 10, 0, 10)
  {
  }

  lemma CameoLabelsDistinctHigh()
    ensures |CameoLabelOrder| == 20 && DistinctAcross(CameoLabelOrder, 10, 20, 10, 20)
  {
  }

  lemma CameoLabelsDistinctCross()
    ensures |CameoLabelOrder| == 20 && DistinctAcross(CameoLabelOrder, 0, 10, 10, 20)
  {
  }

  lemma CameoLabelOrderDistinct()
    ensures Distinct(CameoLabelOrder) && Unknown !in CameoLabelOrder
  {
    CameoLabelsDistinctLow();
    CameoLabelsDistinctHigh();
    CameoLabelsDistinctCross();
  }

  /** The listed CAMEO codes are '01' to '20', in that order. */
  lemma CameoCodeOrderCounts()
    ensures |CameoCodeOrder| == 20
    ensures forall i :: 0 <= i < 20 ==> CameoCodeOrder[i] == TwoDigits(i + 1)
  {
  }

  /** The code of value n is listed at position n - 1. */
  lemma RootCodeIsListed(k: string)
    requires IsRootCode(k)
    ensures |CameoCodeOrder| == 20 && CameoCodeOrder[TwoDigitValue(k) - 1] == k
  {
    var n := TwoDigitValue(k);
    var d := TwoDigits(n);
    assert d[0] == k[0] && d[1] == k[1];
    assert k == d;
    CameoCodeOrderCounts();
    assert CameoCodeOrder[n - 1] == k;
  }

  /** The keys of CameoEventCodes are exactly the twenty codes '01' to '20'. */
  lemma CameoKeysAreRootCodes()
    ensures |CameoEventCodes| == 20
    ensures forall k :: k in CameoEventCodes <==> IsRootCode(k)
  {
    CameoKeysListed();
    CameoOrdersDistinct();
    CameoCodeOrderCounts();
    ListedCardinality(CameoEventCodes, CameoCodeOrder);
    forall k ensures k in CameoEventCodes <==> IsRootCode(k) {
      if IsRootCode(k) {
        RootCodeIsListed(k);
      }
      if k in CameoEventCodes {
        var i :| 0 <= i < 20 && CameoCodeOrder[i] == k;
      }
    }
  }

  /** The code of value n is a key, and its label is the n-th one listed. */
  lemma CameoLabelOf(k: string)
    requires IsRootCode(k)
    ensures k in CameoEventCodes && CameoEventCodes[k] == CameoLabelOrder[TwoDigitValue(k) - 1]
  {
    RootCodeIsListed(k);
    CameoLabelsListed();
  }

  /** The CAMEO labels are pairwise distinct, are the listed ones, and none is the fallback. */
  lemma CameoLabelsDistinct()
    ensures Injective(CameoEventCodes)
    ensures forall v :: v in CameoEventCodes.Values <==> v in CameoLabelOrder
    ensures Unknown !in CameoEventCodes.Values
  {
    CameoKeysListed();
    CameoLabelsListed();
    CameoOrdersDistinct();
    ListedLabels(CameoEventCodes, CameoCodeOrder, CameoLabelOrder);
  }

  /** The keys of QuadClassCodes are exactly 1, 2, 3 and 4, listed in that order. */
  lemma QuadKeys()
    ensures QuadClassCodes.Keys == {1, 2, 3, 4}
    ensures ListsKeys(QuadClassCodes, QuadClassOrder)
  {
  }

  lemma QuadLabelsListed()
    ensures ListsLabels(QuadClassCodes, QuadClassOrder, QuadLabelOrder)
    ensures Distinct(QuadLabelOrder) && Unknown !in QuadLabelOrder
  {
  }

  /** The quad class labels are pairwise distinct, are the listed ones, and none is the fallback. */
  lemma QuadLabelsDistinct()
    ensures Injective(QuadClassCodes)
    ensures forall v :: v in QuadClassCodes.Values <==> v in QuadLabelOrder
    ensures Unknown !in QuadClassCodes.Values
  {
    QuadKeys();
    QuadLabelsListed();
    ListedLabels(QuadClassCodes, QuadClassOrder, QuadLabelOrder);
  }

  lemma CountryKeysListed()
    ensures ListsKeys(CommonCountries, CountryCodeOrder)
  {
  }

  lemma CountryCodeOrderShape()
    ensures |CountryCodeOrder| == 20 && Distinct(CountryCodeOrder)
    ensures forall i :: 0 <= i < |CountryCodeOrder| ==>
              |CountryCodeOrder[i]| == 3 && forall j :: 0 <= j < 3 ==> IsUpperLetter(CountryCodeOrder[i][j])
  {
  }

  /** Twenty countries, each keyed by three capital letters. */
  lemma CountryCodes()
    ensures |CommonCountries| == 20
    ensures forall k :: k in CommonCountries ==> |k| == 3 && forall j :: 0 <= j < 3 ==> IsUpperLetter(k[j])
  {
    CountryKeysListed();
    CountryCodeOrderShape();
    ListedCardinality(CommonCountries, CountryCodeOrder);
    forall k | k in CommonCountries ensures |k| == 3 && forall j :: 0 <= j < 3 ==> IsUpperLetter(k[j]) {
      var i :| 0 <= i < 20 && CountryCodeOrder[i] == k;
    }
  }

  lemma CountryNameOrderShape()
    ensures forall i :: 0 <= i < |CountryNameOrder| ==> NoParentheses(CountryNameOrder[i])
  {
  }

  lemma CountryNamesListedLow()
    ensures |CountryCodeOrder| == |CountryNameOrder|
    ensures forall i :: 0 <= i < 10 ==>
              CountryCodeOrder[i] in CommonCountries && CommonCountries[CountryCodeOrder[i]] == CountryNameOrder[i]
  {
  }

  lemma CountryNamesListedHigh()
    ensures forall i :: 10 <= i < 20 ==>
              CountryCodeOrder[i] in CommonCountries && CommonCountries[CountryCodeOrder[i]] == CountryNameOrder[i]
  {
  }

  /** No country display name contains a parenthesis. */
  lemma CountryNamesWithoutParentheses()
    ensures forall k :: k in CommonCountries ==> NoParentheses(CommonCountries[k])
  {
    CountryKeysListed();
    CountryNameOrderShape();
    CountryNamesListedLow();
    CountryNamesListedHigh();
    forall k | k in CommonCountries ensures NoParentheses(CommonCountries[k]) {
      var i :| 0 <= i < 20 && CountryCodeOrder[i] == k;
      assert CommonCountries[k] == CountryNameOrder[i];
    }
  }

  lemma SettingValues()
    ensures QueryLimit == 1000 && CacheTtl == 3600
    ensures GdeltTable == "gdelt-bq.gdeltv2.events"
  {
  }
}
