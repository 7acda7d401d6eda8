/**
 * The dashboard page of app.py as far as it is logic: the country, category
 * and event-type selectors, reading the country code back out of the chosen
 * country label, the three filters, the per-event summaries and the order in
 * which the page gives up (no credentials, no client, a failed fetch, no rows).
 */
module Dashboard {
  import opened Wrappers
  import opened Events
  import C = Constants
  import PyStr
  import App

  // ---------------------------------------------------------------------------
  // Country names and labels (app.py:178-179, 285)

  /**
   * `COMMON_COUNTRIES.get(code, code)`: the display name from the table, or the
   * code itself for a country the table does not know.
   */
  function CountryName(code: string): (name: string)
    ensures code in C.CommonCountries ==> name == C.CommonCountries[code] && C.NoParentheses(name)
    ensures code !in C.CommonCountries ==> name == code
  {
    App.TablesMatchConstants();
    C.CountryNamesWithoutParentheses();
    if code in App.CommonCountries then App.CommonCountries[code] else code
  }

  /** The same lookup on a cell; an f-string shows a null cell as 'None'. */
  function CountryDisplay(cell: Option<string>): (d: string)
    ensures cell.None? ==> d == "None"
    ensures cell.Some? && cell.value in C.CommonCountries ==> d == C.CommonCountries[cell.value]
    ensures cell.Some? && cell.value !in C.CommonCountries ==> d == cell.value
  {
    match cell
    case Some(c) => CountryName(c)
    case None => "None"
  }

  /**
   * The option label `f"{COMMON_COUNTRIES.get(c, c)} ({c})"`: the table's name
   * for a known code, the code itself otherwise, then the code in parentheses.
   * It always has a '(', so parsing it never raises; by LabelInjective
   * different codes get different labels.
   */
  function Label(code: string): (l: string)
    ensures '(' in l && l[|l| - 1] == ')'
  {
    var l := CountryName(code) + " (" + code + ")";
    assert l[|CountryName(code)| + 1] == '(';
    l
  }

  // ---------------------------------------------------------------------------
  // The country selector (app.py:281-286)

  /** `.dropna()` of a column: the present values, in order. */
  function Present(cells: seq<Option<string>>): (r: seq<string>)
    ensures |r| <= |cells|
    ensures forall x :: x in r <==> Some(x) in cells
  {
    if cells == [] then []
    else
      var rest := Present(cells[1..]);
      assert cells == [cells[0]] + cells[1..];
      (if cells[0].Some? then [cells[0].value] else []) + rest
  }

  function Actor1Cells(rows: seq<EnrichedRow>): seq<Option<string>>
  {
    seq(|rows|, i requires 0 <= i < |rows| => rows[i].row.actor1CountryCode)
  }

  function Actor2Cells(rows: seq<EnrichedRow>): seq<Option<string>>
  {
    seq(|rows|, i requires 0 <= i < |rows| => rows[i].row.actor2CountryCode)
  }

  /** `[c for c in xs if c]`: the non-empty strings of `xs`, in order. */
  function NonEmpty(xs: seq<string>): (r: seq<string>)
    ensures forall x :: x in r <==> x in xs && x != ""
    ensures PyStr.StrictlySorted(xs) ==> PyStr.StrictlySorted(r)
  {
    if xs == [] then []
    else
      var rest := NonEmpty(xs[1..]);
      assert xs == [xs[0]] + xs[1..];
      if xs[0] == "" then rest
      else
        assert PyStr.StrictlySorted(xs) ==> forall j :: 0 <= j < |rest| ==> PyStr.LexLess(xs[0], rest[j]) by {
          if PyStr.StrictlySorted(xs) {
            forall j | 0 <= j < |rest| ensures PyStr.LexLess(xs[0], rest[j]) {
              assert rest[j] in xs[1..];
            }
          }
        }
        [xs[0]] + rest
  }

  /** Some row has `code` as the country code of one of its two actors. */
  predicate Mentions(rows: seq<EnrichedRow>, code: string)
  {
    exists i :: 0 <= i < |rows| && (rows[i].row.actor1CountryCode == Some(code) || rows[i].row.actor2CountryCode == Some(code))
  }

  /**
   * The codes the country selector offers: the distinct non-empty actor country
   * codes of either column, in increasing order.
   */
  function OptionCodes(rows: seq<EnrichedRow>): (codes: seq<string>)
    ensures PyStr.StrictlySorted(codes)
    ensures forall c :: c in codes <==> c != "" && Mentions(rows, c)
  {
    var a1, a2 := Actor1Cells(rows), Actor2Cells(rows);
    var codes := NonEmpty(PyStr.SortedDistinct(Present(a1) + Present(a2)));
    assert forall c :: c in codes <==> c != "" && Mentions(rows, c) by {
      forall c ensures c in codes <==> c != "" && Mentions(rows, c) {
        if Some(c) in a1 {
          var i :| 0 <= i < |a1| && a1[i] == Some(c);
          assert rows[i].row.actor1CountryCode == Some(c);
        }
        if Some(c) in a2 {
          var i :| 0 <= i < |a2| && a2[i] == Some(c);
          assert rows[i].row.actor2CountryCode == Some(c);
        }
        if Mentions(rows, c) {
          var i :| 0 <= i < |rows| && (rows[i].row.actor1CountryCode == Some(c) || rows[i].row.actor2CountryCode == Some(c));
          assert a1[i] == rows[i].row.actor1CountryCode && a2[i] == rows[i].row.actor2CountryCode;
        }
      }
    }
    codes
  }

  /** By StrictlySortedUnique there is exactly one increasing listing of those codes. */
  lemma OptionCodesUnique(rows: seq<EnrichedRow>, codes: seq<string>)
    requires PyStr.StrictlySorted(codes)
    requires forall c :: c in codes <==> c != "" && Mentions(rows, c)
    ensures codes == OptionCodes(rows)
  {
    PyStr.StrictlySortedUnique(codes, OptionCodes(rows));
  }

  /** `["All"]` followed by one label per offered code. */
  function CountryOptions(rows: seq<EnrichedRow>): (opts: seq<string>)
    ensures |opts| == |OptionCodes(rows)| + 1 && opts[0] == "All"
    ensures forall i :: 0 <= i < |OptionCodes(rows)| ==> opts[i + 1] == Label(OptionCodes(rows)[i])
  {
    var codes := OptionCodes(rows);
    ["All"] + seq(|codes|, i requires 0 <= i < |codes| => Label(codes[i]))
  }

  /** The category selector: "All", then the quad-class labels in table order (app.py:289-292). */
  function CategoryOptions(): (opts: seq<string>)
    ensures |opts| == 5 && opts[0] == "All"
    ensures forall v :: v in opts[1..] <==> v in App.QuadClassCodes.Values
    ensures C.Distinct(opts)
  {
    App.TablesMatchConstants();
    C.QuadLabelsDistinct();
    C.QuadLabelsListed();
    ["All"] + C.QuadLabelOrder
  }

  /** The event-type selector: "All", then the CAMEO root labels in table order (app.py:294-297). */
  function EventTypeOptions(): (opts: seq<string>)
    ensures |opts| == 21 && opts[0] == "All"
    ensures forall v :: v in opts[1..] <==> v in App.CameoEventCodes.Values
    ensures C.Distinct(opts)
  {
    App.TablesMatchConstants();
    C.CameoLabelsDistinct();
    C.CameoOrdersDistinct();
    ["All"] + C.CameoLabelOrder
  }

  // ---------------------------------------------------------------------------
  // Reading the code back out of a label (app.py:304)

  /**
   * `choice.split('(')[1].split(')')[0].strip()`. A choice without '(' has a
   * single piece, and indexing the second one raises IndexError.
   */
  function ParseCountryCode(choice: string): (r: Result<string>)
    ensures r.Success? <==> '(' in choice
    ensures r.Failure? ==> r.error == IndexError
    ensures r.Success? ==> C.NoParentheses(r.value) && !PyStr.HasSurroundingSpace(r.value)
  {
    PyStr.SplitHasSeveralPieces(choice, '(');
    var pieces := PyStr.Split(choice, '(');
    if |pieces| < 2 then Failure(IndexError)
    else
      var inner := PyStr.Split(pieces[1], ')')[0];
      assert '(' !in inner by {
        PyStr.JoinSplit(pieces[1], ')');
        JoinHead(PyStr.Split(pieces[1], ')'), ')');
      }
      Success(PyStr.Strip(inner))
  }

  /** Every character of the first piece occurs in the joined string. */
  lemma JoinHead(parts: seq<string>, sep: char)
    requires |parts| >= 1
    ensures forall c :: c in parts[0] ==> c in PyStr.Join(parts, sep)
  {
    if |parts| > 1 {
      assert PyStr.Join(parts, sep) == parts[0] + [sep] + PyStr.Join(parts[1..], sep);
    }
  }

  /**
   * The label round-trip: a label built from a name without '(' and a code
   * without parentheses or surrounding whitespace parses back to the code.
   */
  lemma LabelRoundTrip(name: string, code: string)
    requires '(' !in name
    requires C.NoParentheses(code) && !PyStr.HasSurroundingSpace(code)
    ensures ParseCountryCode(name + " (" + code + ")") == Success(code)
  {
    var text := name + " (" + code + ")";
    assert text == (name + " ") + ['('] + (code + ")");
    assert '(' !in name + " ";
    PyStr.SplitAtFirstSeparator(name + " ", code + ")", '(');
    assert '(' !in code + ")";
    PyStr.SplitWithoutSeparator(code + ")", '(');
    assert PyStr.Split(text, '(')[1] == code + ")";
    assert code + ")" == code + [')'] + "";
    PyStr.SplitAtFirstSeparator(code, "", ')');
  }

  /** Every country label parses back to its code when the code is free of parentheses and outer whitespace. */
  lemma CountryLabelRoundTrip(code: string)
    requires C.NoParentheses(code) && !PyStr.HasSurroundingSpace(code)
    ensures ParseCountryCode(Label(code)) == Success(code)
  {
    LabelRoundTrip(CountryName(code), code);
  }

  /** In particular every code of the country table round-trips. */
  lemma TableCountryRoundTrip(code: string)
    requires code in C.CommonCountries
    ensures ParseCountryCode(Label(code)) == Success(code)
  {
    TableCodePlain(code);
    CountryLabelRoundTrip(code);
  }

  lemma TableCodePlain(code: string)
    requires code in C.CommonCountries
    ensures C.NoParentheses(code) && !PyStr.HasSurroundingSpace(code)
  {
    C.CountryKeysListed();
    C.CountryCodeOrderShape();
    var i :| 0 <= i < |C.CountryCodeOrder| && C.CountryCodeOrder[i] == code;
    PlainCode(C.CountryCodeOrder[i]);
  }

  /** Three upper-case letters hold no parentheses and no whitespace. */
  lemma PlainCode(code: string)
    requires |code| == 3 && forall j :: 0 <= j < 3 ==> C.IsUpperLetter(code[j])
    ensures C.NoParentheses(code) && !PyStr.HasSurroundingSpace(code)
  {
    forall c | c in code ensures c != '(' && c != ')' {
      var j :| 0 <= j < 3 && code[j] == c;
    }
  }

  /**
   * Two codes with the same label are the same code. A table name has no '(',
   * and a code of the table has none either, so when either code is in the
   * table the first '(' of the label ends the same name in both; when neither
   * is, the label is the code twice and its length fixes the code.
   */
  lemma LabelInjective(a: string, b: string)
    requires Label(a) == Label(b)
    ensures a == b
  {
    if a in C.CommonCountries {
      TableCodePlain(a);
      LabelParts(CountryName(a), a, CountryName(b), b);
    } else if b in C.CommonCountries {
      TableCodePlain(b);
      LabelParts(CountryName(b), b, CountryName(a), a);
    } else {
      assert |Label(a)| == 2 * |a| + 3 && |Label(b)| == 2 * |b| + 3;
      assert Label(a)[..|a|] == a && Label(b)[..|b|] == b;
    }
  }

  /** With no '(' in the name and the code, `x (y)` is split into x and y by its only '('. */
  lemma LabelParts(x: string, y: string, x2: string, y2: string)
    requires '(' !in x && '(' !in y
    requires x + " (" + y + ")" == x2 + " (" + y2 + ")"
    ensures x == x2 && y == y2
  {
    var l := x + " (" + y + ")";
    assert forall k :: 0 <= k < |x| ==> l[k] == x[k];
    assert forall k :: 0 <= k < |y| ==> l[|x| + 2 + k] == y[k];
    assert l[|x|] == ' ' && l[|l| - 1] == ')';
    assert l[|x2| + 1] == '(';
    assert |x2| == |x|;
    assert x == l[..|x|] && x2 == l[..|x2|];
    assert y == l[|x| + 2..|l| - 1] && y2 == l[|x2| + 2..|l| - 1];
  }

  /** Every entry of the country selector but "All" parses without an IndexError, and "All" is no label. */
  lemma CountryOptionsParse(rows: seq<EnrichedRow>)
    ensures forall i :: 1 <= i < |CountryOptions(rows)| ==>
              CountryOptions(rows)[i] != "All" && ParseCountryCode(CountryOptions(rows)[i]).Success?
  {
    var opts, codes := CountryOptions(rows), OptionCodes(rows);
    forall i | 1 <= i < |opts| ensures opts[i] != "All" && ParseCountryCode(opts[i]).Success? {
      var l := Label(codes[i - 1]);
      assert opts[i] == l;
      assert l[|l| - 1] != "All"[2];
    }
  }

  /** No option occurs twice: the codes are distinct, and so are their labels (LabelInjective). */
  lemma CountryOptionsDistinct(rows: seq<EnrichedRow>)
    ensures C.Distinct(CountryOptions(rows))
  {
    forall i, j | 0 <= i < j < |CountryOptions(rows)| ensures CountryOptions(rows)[i] != CountryOptions(rows)[j] {
      OptionsDiffer(rows, i, j);
    }
  }

  lemma OptionsDiffer(rows: seq<EnrichedRow>, i: int, j: int)
    requires 0 <= i < j < |CountryOptions(rows)|
    ensures CountryOptions(rows)[i] != CountryOptions(rows)[j]
  {
    var opts, codes := CountryOptions(rows), OptionCodes(rows);
    if i == 0 {
      CountryOptionsParse(rows);
    } else {
      var a, b := codes[i - 1], codes[j - 1];
      assert a in codes && b in codes;
      assert PyStr.LexLess(a, b);
      PyStr.LexLessIrreflexive(a);
      if Label(a) == Label(b) {
        LabelInjective(a, b);
      }
    }
  }

  // ---------------------------------------------------------------------------
  // The filters (app.py:300-313)

  /** One active filter. */
  datatype Criterion =
    | ByCountry(code: string)          // either actor's country code, a null one read as ''
    | ByCategory(category: string)     // the quad-class description
    | ByEventType(eventType: string)   // the root event description

  /**
   * The mask a filter builds, at one row. With `fillna('')` the country mask
   * holds where either actor has the code, and, for the code '', also where
   * either actor's code is null.
   */
  predicate Holds(c: Criterion, e: EnrichedRow)
    ensures c.ByCountry? ==>
              (Holds(c, e) <==>
                 || e.row.actor1CountryCode == Some(c.code) || e.row.actor2CountryCode == Some(c.code)
                 || (c.code == "" && (e.row.actor1CountryCode.None? || e.row.actor2CountryCode.None?)))
  {
    match c
    case ByCountry(code) =>
      GetOr(e.row.actor1CountryCode, "") == code || GetOr(e.row.actor2CountryCode, "") == code
    case ByCategory(category) => e.quadClassDescription == category
    case ByEventType(eventType) => e.eventRootDescription == eventType
  }

  /** `df[mask]`: the rows where the mask holds, in their order. */
  function FilterBy(rows: seq<EnrichedRow>, c: Criterion): (r: seq<EnrichedRow>)
    ensures |r| <= |rows|
  {
    if rows == [] then []
    else
      var rest := FilterBy(rows[1..], c);
      if Holds(c, rows[0]) then [rows[0]] + rest else rest
  }

  /** The mask keeps exactly the rows where it holds. */
  lemma {:induction false} FilterByKeeps(rows: seq<EnrichedRow>, c: Criterion)
    ensures forall e :: e in FilterBy(rows, c) <==> e in rows && Holds(c, e)
  {
    if rows != [] {
      FilterByKeeps(rows[1..], c);
      assert rows == [rows[0]] + rows[1..];
    }
  }

  /** Masking a concatenation masks each part. */
  lemma {:induction false} FilterByAppend(a: seq<EnrichedRow>, b: seq<EnrichedRow>, c: Criterion)
    ensures FilterBy(a + b, c) == FilterBy(a, c) + FilterBy(b, c)
  {
    if a == [] {
      assert a + b == b;
    } else {
      var ab := a + b;
      assert ab[0] == a[0] && ab[1..] == a[1..] + b;
      FilterByAppend(a[1..], b, c);
      if Holds(c, a[0]) {
        calc {
          FilterBy(ab, c);
          [a[0]] + FilterBy(a[1..] + b, c);
          [a[0]] + (FilterBy(a[1..], c) + FilterBy(b, c));
          ([a[0]] + FilterBy(a[1..], c)) + FilterBy(b, c);
        }
      }
    }
  }

  predicate AllHold(cs: seq<Criterion>, e: EnrichedRow)
  {
    forall i :: 0 <= i < |cs| ==> Holds(cs[i], e)
  }

  /** The reference definition: the rows satisfying every criterion, in their order. */
  function FilterAll(rows: seq<EnrichedRow>, cs: seq<Criterion>): (r: seq<EnrichedRow>)
    ensures |r| <= |rows|
    ensures forall e :: e in r <==> e in rows && AllHold(cs, e)
  {
    if rows == [] then []
    else
      var rest := FilterAll(rows[1..], cs);
      assert rows == [rows[0]] + rows[1..];
      if AllHold(cs, rows[0]) then [rows[0]] + rest else rest
  }

  /**
   * The filters one after the other, as the page rebinds the frame. It never
   * adds rows; by ApplyInOrderIsConjunction it keeps exactly the rows of
   * `rows` that pass every filter.
   */
  function ApplyInOrder(rows: seq<EnrichedRow>, cs: seq<Criterion>): (r: seq<EnrichedRow>)
    ensures |r| <= |rows|
    decreases |cs|
  {
    if cs == [] then rows else ApplyInOrder(FilterBy(rows, cs[0]), cs[1..])
  }

  /** With no criterion nothing is dropped. */
  lemma {:induction false} FilterAllNone(rows: seq<EnrichedRow>)
    ensures FilterAll(rows, []) == rows
  {
    if rows != [] {
      FilterAllNone(rows[1..]);
      assert rows == [rows[0]] + rows[1..];
    }
  }

  lemma {:induction false} FilterByThenAll(rows: seq<EnrichedRow>, c: Criterion, cs: seq<Criterion>)
    ensures FilterAll(FilterBy(rows, c), cs) == FilterAll(rows, [c] + cs)
  {
    if rows != [] {
      FilterByThenAll(rows[1..], c, cs);
      AllHoldCons(c, cs, rows[0]);
      if Holds(c, rows[0]) {
        var f := FilterBy(rows, c);
        assert f[0] == rows[0] && f[1..] == FilterBy(rows[1..], c);
      }
    }
  }

  lemma AllHoldCons(c: Criterion, cs: seq<Criterion>, e: EnrichedRow)
    ensures AllHold([c] + cs, e) <==> Holds(c, e) && AllHold(cs, e)
  {
    var ds := [c] + cs;
    assert ds[0] == c;
    assert forall i :: 0 <= i < |cs| ==> ds[i + 1] == cs[i];
    if Holds(c, e) && AllHold(cs, e) {
      forall i | 0 <= i < |ds| ensures Holds(ds[i], e) {
        if i > 0 { assert ds[i] == cs[i - 1]; }
      }
    }
  }

  /** Filtering one after the other keeps exactly the rows that satisfy all the filters. */
  lemma {:induction false} ApplyInOrderIsConjunction(rows: seq<EnrichedRow>, cs: seq<Criterion>)
    ensures ApplyInOrder(rows, cs) == FilterAll(rows, cs)
    decreases |cs|
  {
    if cs == [] {
      FilterAllNone(rows);
    } else {
      ApplyInOrderIsConjunction(FilterBy(rows, cs[0]), cs[1..]);
      FilterByThenAll(rows, cs[0], cs[1..]);
      assert [cs[0]] + cs[1..] == cs;
    }
  }

  /** Only which criteria are active matters to FilterAll, not their order or repetition. */
  lemma {:induction false} FilterAllSameCriteria(rows: seq<EnrichedRow>, cs1: seq<Criterion>, cs2: seq<Criterion>)
    requires forall c :: c in cs1 <==> c in cs2
    ensures FilterAll(rows, cs1) == FilterAll(rows, cs2)
  {
    if rows != [] {
      FilterAllSameCriteria(rows[1..], cs1, cs2);
      assert AllHold(cs1, rows[0]) <==> AllHold(cs2, rows[0]) by {
        if AllHold(cs1, rows[0]) {
          forall i | 0 <= i < |cs2| ensures Holds(cs2[i], rows[0]) {
            assert cs2[i] in cs1;
          }
        }
        if AllHold(cs2, rows[0]) {
          forall i | 0 <= i < |cs1| ensures Holds(cs1[i], rows[0]) {
            assert cs1[i] in cs2;
          }
        }
      }
    }
  }

  /** Applying the filters in any order, each any number of times, gives the same rows. */
  lemma FilterOrderIrrelevant(rows: seq<EnrichedRow>, cs1: seq<Criterion>, cs2: seq<Criterion>)
    requires forall c :: c in cs1 <==> c in cs2
    ensures ApplyInOrder(rows, cs1) == ApplyInOrder(rows, cs2)
  {
    ApplyInOrderIsConjunction(rows, cs1);
    ApplyInOrderIsConjunction(rows, cs2);
    FilterAllSameCriteria(rows, cs1, cs2);
  }

  /** Filtering a concatenation filters each part and keeps them in order. */
  lemma {:induction false} FilterAllAppend(a: seq<EnrichedRow>, b: seq<EnrichedRow>, cs: seq<Criterion>)
    ensures FilterAll(a + b, cs) == FilterAll(a, cs) + FilterAll(b, cs)
  {
    if a == [] {
      assert a + b == b;
    } else {
      var ab := a + b;
      assert ab[0] == a[0] && ab[1..] == a[1..] + b;
      FilterAllAppend(a[1..], b, cs);
      if AllHold(cs, a[0]) {
        calc {
          FilterAll(ab, cs);
          [a[0]] + FilterAll(a[1..] + b, cs);
          [a[0]] + (FilterAll(a[1..], cs) + FilterAll(b, cs));
          ([a[0]] + FilterAll(a[1..], cs)) + FilterAll(b, cs);
        }
      }
    }
  }

  /** A country filter on a non-empty code that no row mentions leaves no row. */
  lemma {:induction false} UnmentionedCountryMatchesNothing(rows: seq<EnrichedRow>, code: string)
    requires code != "" && !Mentions(rows, code)
    ensures FilterBy(rows, ByCountry(code)) == []
  {
    if rows != [] {
      assert !Holds(ByCountry(code), rows[0]);
      assert forall i :: 0 <= i < |rows| - 1 ==> rows[1..][i] == rows[i + 1];
      UnmentionedCountryMatchesNothing(rows[1..], code);
    }
  }

  /** A row with both actor country codes null never passes a filter on a non-empty code. */
  lemma NullActorsNeverMatch(rows: seq<EnrichedRow>, e: EnrichedRow, code: string)
    requires e.row.actor1CountryCode.None? && e.row.actor2CountryCode.None?
    requires code != ""
    ensures e !in FilterBy(rows, ByCountry(code))
  {
    FilterByKeeps(rows, ByCountry(code));
  }

  // ---------------------------------------------------------------------------
  // A code of only whitespace (app.py:285, 304-306)

  /**
   * As written: an actor code " " is offered with the label "  ( )", which
   * parses to '' once stripped; the filter on '' keeps the row whose actor
   * codes are null and drops the row that has the code " ".
   */
  lemma WhitespaceCodeSelectsNullRows(blank: EnrichedRow, nulls: EnrichedRow)
    requires blank.row.actor1CountryCode == Some(" ") && blank.row.actor2CountryCode == Some(" ")
    requires nulls.row.actor1CountryCode.None? && nulls.row.actor2CountryCode.None?
    ensures OptionCodes([blank, nulls]) == [" "]
    ensures ParseCountryCode(Label(" ")) == Success("")
    ensures FilterBy([blank, nulls], ByCountry("")) == [nulls]
  {
    BlankOffered(blank, nulls);
    BlankLabelParses();
    EmptyCodeFilter(blank, nulls);
  }

  /** The only code the two rows offer is " ". */
  lemma BlankOffered(blank: EnrichedRow, nulls: EnrichedRow)
    requires blank.row.actor1CountryCode == Some(" ") && blank.row.actor2CountryCode == Some(" ")
    requires nulls.row.actor1CountryCode.None? && nulls.row.actor2CountryCode.None?
    ensures OptionCodes([blank, nulls]) == [" "]
  {
    var rows := [blank, nulls];
    assert rows[0] == blank && rows[1] == nulls;
    assert Mentions(rows, " ");
    OptionCodesUnique(rows, [" "]);
  }

  /** The filter on '' drops the row with code " " and keeps the one with null codes. */
  lemma EmptyCodeFilter(blank: EnrichedRow, nulls: EnrichedRow)
    requires blank.row.actor1CountryCode == Some(" ") && blank.row.actor2CountryCode == Some(" ")
    requires nulls.row.actor1CountryCode.None? && nulls.row.actor2CountryCode.None?
    ensures FilterBy([blank, nulls], ByCountry("")) == [nulls]
  {
    var rows := [blank, nulls];
    assert !Holds(ByCountry(""), blank) && Holds(ByCountry(""), nulls);
    assert rows[1..] == [nulls] && rows[1..][1..] == [];
  }

  /** The label of " " is "  ( )", whose text between the parentheses strips to ''. */
  lemma BlankLabelParses()
    ensures ParseCountryCode(Label(" ")) == Success("")
  {
    assert " " !in C.CommonCountries by {
      C.CountryCodes();
    }
    var l := Label(" ");
    assert l == "  " + ['('] + " )";
    assert PyStr.Split(l, '(') == ["  ", " )"] by {
      PyStr.SplitAtFirstSeparator("  ", " )", '(');
      PyStr.SplitWithoutSeparator(" )", '(');
      assert PyStr.Split(" )", '(') == [" )"];
    }
    assert PyStr.Split(" )", ')') == [" ", ""] by {
      PyStr.SplitAtFirstSeparator(" ", "", ')');
    }
    assert PyStr.Strip(" ") == "" by {
      assert PyStr.StripLeading(" ") == "";
    }
  }

  /** The offered code whose label is `choice`, if there is one. */
  function LabelledCode(codes: seq<string>, choice: string): (r: Option<string>)
    ensures r.Some? ==> r.value in codes && Label(r.value) == choice
    ensures r.None? ==> forall c :: c in codes ==> Label(c) != choice
  {
    if codes == [] then None
    else if Label(codes[0]) == choice then Some(codes[0])
    else
      assert codes == [codes[0]] + codes[1..];
      LabelledCode(codes[1..], choice)
  }

  /**
   * Corrected: the country filter as the selector means it, on the code the
   * chosen option was built from rather than on the text parsed back out of
   * the label; a choice that is no option leaves the frame as it is.
   */
  function IntendedCountryFilter(rows: seq<EnrichedRow>, choice: string): (r: seq<EnrichedRow>)
    ensures |r| <= |rows|
  {
    match LabelledCode(OptionCodes(rows), choice)
    case Some(c) => FilterBy(rows, ByCountry(c))
    case None => rows
  }

  /** Choosing the option of a code keeps exactly the rows one of whose actors has that code. */
  lemma IntendedCountryFilterKeeps(rows: seq<EnrichedRow>, c: string)
    requires c in OptionCodes(rows)
    ensures forall e :: e in IntendedCountryFilter(rows, Label(c)) <==>
              e in rows && (e.row.actor1CountryCode == Some(c) || e.row.actor2CountryCode == Some(c))
  {
    var found := LabelledCode(OptionCodes(rows), Label(c));
    LabelInjective(found.value, c);
    FilterByKeeps(rows, ByCountry(c));
  }

  /** For a code without parentheses or outer whitespace the page as written filters as intended. */
  lemma PageFilterAsIntended(rows: seq<EnrichedRow>, c: string)
    requires c in OptionCodes(rows)
    requires C.NoParentheses(c) && !PyStr.HasSurroundingSpace(c)
    ensures ParseCountryCode(Label(c)) == Success(c)
    ensures FilterBy(rows, ByCountry(c)) == IntendedCountryFilter(rows, Label(c))
  {
    CountryLabelRoundTrip(c);
    var found := LabelledCode(OptionCodes(rows), Label(c));
    LabelInjective(found.value, c);
  }

  // ---------------------------------------------------------------------------
  // The three selectors together

  /** What the three selectors show. */
  datatype Selection = Selection(country: string, category: string, eventType: string)

  /** The filters a selection turns on, in the page's order; parsing the country label can fail. */
  function Criteria(sel: Selection): (r: Result<seq<Criterion>>)
    ensures r.Failure? <==> sel.country != "All" && '(' !in sel.country
    ensures r.Success? ==>
              (forall i :: 0 <= i < |r.value| ==> !r.value[i].ByCountry? || sel.country != "All") &&
              (ByCategory(sel.category) in r.value <==> sel.category != "All") &&
              (ByEventType(sel.eventType) in r.value <==> sel.eventType != "All")
  {
    var others := Optional(sel.category, ByCategory(sel.category)) + Optional(sel.eventType, ByEventType(sel.eventType));
    if sel.country == "All" then
      Success(others)
    else
      match ParseCountryCode(sel.country)
      case Failure(e) => Failure(e)
      case Success(code) => Success([ByCountry(code)] + others)
  }

  /** The filter of one selector, when it is not at "All". */
  function Optional(chosen: string, c: Criterion): seq<Criterion>
  {
    if chosen != "All" then [c] else []
  }

  /**
   * A row the selection asks for: it involves the chosen country (unless "All"),
   * has the chosen category (unless "All") and the chosen event type (unless "All").
   */
  predicate Wanted(sel: Selection, e: EnrichedRow)
    requires sel.country == "All" || '(' in sel.country
  {
    && (sel.country == "All" || Holds(ByCountry(ParseCountryCode(sel.country).value), e))
    && (sel.category == "All" || e.quadClassDescription == sel.category)
    && (sel.eventType == "All" || e.eventRootDescription == sel.eventType)
  }

  /**
   * The filtered frame: IndexError for a country label without '(', otherwise
   * exactly the wanted rows, in their order.
   */
  function ApplyFilters(rows: seq<EnrichedRow>, sel: Selection): (r: Result<seq<EnrichedRow>>)
    ensures r.Failure? <==> sel.country != "All" && '(' !in sel.country
    ensures r.Failure? ==> r.error == IndexError
    ensures r.Success? ==> forall e :: e in r.value <==> e in rows && Wanted(sel, e)
  {
    match Criteria(sel)
    case Failure(e) => Failure(e)
    case Success(cs) =>
      CriteriaMeaning(sel);
      Success(FilterAll(rows, cs))
  }

  lemma {:induction false} AllHoldAppend(a: seq<Criterion>, b: seq<Criterion>, e: EnrichedRow)
    ensures AllHold(a + b, e) <==> AllHold(a, e) && AllHold(b, e)
  {
    var ab := a + b;
    assert forall i :: 0 <= i < |a| ==> ab[i] == a[i];
    assert forall i :: 0 <= i < |b| ==> ab[|a| + i] == b[i];
    if AllHold(a, e) && AllHold(b, e) {
      forall i | 0 <= i < |ab| ensures Holds(ab[i], e) {
        if i >= |a| { assert ab[i] == b[i - |a|]; }
      }
    }
  }

  /** The filter a selector turns on, if any, holds exactly where the selector wants. */
  lemma OptionalFilter(chosen: string, c: Criterion, e: EnrichedRow, wanted: bool)
    requires chosen != "All" ==> (Holds(c, e) <==> wanted)
    ensures AllHold(Optional(chosen, c), e) <==> (chosen == "All" || wanted)
  {
    if chosen != "All" {
      assert Optional(chosen, c)[0] == c;
    }
  }

  /** A row satisfies every filter a selection turns on exactly when the selection wants it. */
  lemma CriteriaMeaning(sel: Selection)
    requires sel.country == "All" || '(' in sel.country
    ensures forall e :: AllHold(Criteria(sel).value, e) <==> Wanted(sel, e)
  {
    forall e ensures AllHold(Criteria(sel).value, e) <==> Wanted(sel, e) {
      CriteriaMeaningAt(sel, e);
    }
  }

  lemma CriteriaMeaningAt(sel: Selection, e: EnrichedRow)
    requires sel.country == "All" || '(' in sel.country
    ensures AllHold(Criteria(sel).value, e) <==> Wanted(sel, e)
  {
    var category, eventType := Optional(sel.category, ByCategory(sel.category)), Optional(sel.eventType, ByEventType(sel.eventType));
    OptionalFilter(sel.category, ByCategory(sel.category), e, e.quadClassDescription == sel.category);
    OptionalFilter(sel.eventType, ByEventType(sel.eventType), e, e.eventRootDescription == sel.eventType);
    AllHoldAppend(category, eventType, e);
    if sel.country != "All" {
      var code := ParseCountryCode(sel.country).value;
      assert Criteria(sel).value == [ByCountry(code)] + (category + eventType);
      OptionalFilter(sel.country, ByCountry(code), e, Holds(ByCountry(code), e));
      assert Optional(sel.country, ByCountry(code)) == [ByCountry(code)];
      AllHoldAppend([ByCountry(code)], category + eventType, e);
    }
  }

  /** With every selector at "All" the frame is shown unfiltered. */
  lemma AllSelectorsAll(rows: seq<EnrichedRow>)
    ensures ApplyFilters(rows, Selection("All", "All", "All")) == Success(rows)
  {
    FilterAllNone(rows);
  }

  /** The filtered frame of a concatenation is the concatenation of the filtered parts. */
  lemma ApplyFiltersAppend(a: seq<EnrichedRow>, b: seq<EnrichedRow>, sel: Selection)
    requires sel.country == "All" || '(' in sel.country
    ensures ApplyFilters(a + b, sel).value == ApplyFilters(a, sel).value + ApplyFilters(b, sel).value
  {
    FilterAllAppend(a, b, Criteria(sel).value);
  }

  /** `filtered_df[mask]` computed row by row. */
  method Select(rows: seq<EnrichedRow>, c: Criterion) returns (kept: seq<EnrichedRow>)
    ensures kept == FilterBy(rows, c)
  {
    kept := [];
    var i := 0;
    while i < |rows|
      invariant 0 <= i <= |rows|
      invariant kept == FilterBy(rows[..i], c)
    {
      FilterByAppend(rows[..i], [rows[i]], c);
      assert rows[..i + 1] == rows[..i] + [rows[i]];
      if Holds(c, rows[i]) {
        kept := kept + [rows[i]];
      }
      i := i + 1;
    }
    assert rows[..i] == rows;
  }

  /**
   * Lines 300-313: start from a copy of the frame and narrow it once per
   * selector that is not "All", the country first.
   */
  method FilterEvents(rows: seq<EnrichedRow>, sel: Selection) returns (res: Result<seq<EnrichedRow>>)
    ensures res == ApplyFilters(rows, sel)
  {
    var filtered := rows;
    ghost var applied: seq<Criterion> := [];
    if sel.country != "All" {
      var code := ParseCountryCode(sel.country);
      if code.Failure? {
        return Failure(code.error);
      }
      filtered := Select(filtered, ByCountry(code.value));
      applied := applied + [ByCountry(code.value)];
    }
    assert filtered == ApplyInOrder(rows, applied);
    ghost var lead := applied;
    if sel.category != "All" {
      filtered := Select(filtered, ByCategory(sel.category));
      AppendStep(rows, applied, ByCategory(sel.category));
      applied := applied + [ByCategory(sel.category)];
    }
    assert filtered == ApplyInOrder(rows, applied);
    if sel.eventType != "All" {
      filtered := Select(filtered, ByEventType(sel.eventType));
      AppendStep(rows, applied, ByEventType(sel.eventType));
      applied := applied + [ByEventType(sel.eventType)];
    }
    assert filtered == ApplyInOrder(rows, applied);
    assert applied == lead + (Optional(sel.category, ByCategory(sel.category)) + Optional(sel.eventType, ByEventType(sel.eventType)));
    assert applied == Criteria(sel).value;
    ApplyInOrderIsConjunction(rows, applied);
    res := Success(filtered);
  }

  /** One more filter at the end of the chain. */
  lemma {:induction false} AppendStep(rows: seq<EnrichedRow>, cs: seq<Criterion>, c: Criterion)
    ensures ApplyInOrder(rows, cs + [c]) == FilterBy(ApplyInOrder(rows, cs), c)
    decreases |cs|
  {
    if cs == [] {
      assert ApplyInOrder(FilterBy(rows, c), []) == FilterBy(rows, c);
      assert [] + [c] == [c];
    } else {
      assert (cs + [c])[0] == cs[0] && (cs + [c])[1..] == cs[1..] + [c];
      AppendStep(FilterBy(rows, cs[0]), cs[1..], c);
    }
  }

  // ---------------------------------------------------------------------------
  // Event summaries (app.py:172-199, 319-322)

  /**
   * The fields `format_event_summary` writes into its markdown text, before
   * any formatting. Text cells are shown with `str`, so a null shows as 'None'.
   */
  datatype EventSummary = EventSummary(
    eventType: string,
    eventCode: string,
    category: string,
    primaryCountry: string,
    primaryCode: string,
    targetCountry: string,
    targetCode: string,
    location: string,
    primaryActor: string,
    targetActor: string,
    scores: Scores,
    mentions: Option<int>,
    sources: Option<int>,
    tone: Option<real>,
    sourceUrl: string)

  /**
   * The summary of one enriched row. Its early return for a row of nothing but
   * nulls cannot fire here: the description columns always hold a string.
   */
  function FormatEventSummary(e: EnrichedRow): (s: EventSummary)
    ensures s.eventType == e.eventRootDescription && s.category == e.quadClassDescription && s.scores == e.scores
    ensures e.row.actor1CountryCode.Some? ==>
              s.primaryCountry == CountryName(e.row.actor1CountryCode.value) && s.primaryCode == e.row.actor1CountryCode.value
    ensures e.row.actor2CountryCode.Some? ==>
              s.targetCountry == CountryName(e.row.actor2CountryCode.value) && s.targetCode == e.row.actor2CountryCode.value
    ensures e.row.actor1CountryCode.None? ==> s.primaryCountry == "None" && s.primaryCode == "None"
    ensures e.row.actor2CountryCode.None? ==> s.targetCountry == "None" && s.targetCode == "None"
  {
    EventSummary(
      e.eventRootDescription, App.Str(e.row.eventCode), e.quadClassDescription,
      CountryDisplay(e.row.actor1CountryCode), App.Str(e.row.actor1CountryCode),
      CountryDisplay(e.row.actor2CountryCode), App.Str(e.row.actor2CountryCode),
      App.Str(e.row.actionGeoFullName), App.Str(e.row.actor1Name), App.Str(e.row.actor2Name),
      e.scores, e.row.numMentions, e.row.numSources, e.row.avgTone, App.Str(e.row.sourceUrl))
  }

  /** Lines 319-322: one summary per filtered row, in order. */
  method RenderSummaries(filtered: seq<EnrichedRow>) returns (shown: seq<EventSummary>)
    ensures |shown| == |filtered|
    ensures forall i :: 0 <= i < |filtered| ==> shown[i] == FormatEventSummary(filtered[i])
  {
    shown := [];
    for i := 0 to |filtered|
      invariant |shown| == i
      invariant forall j :: 0 <= j < i ==> shown[j] == FormatEventSummary(filtered[j])
    {
      shown := shown + [FormatEventSummary(filtered[i])];
    }
  }

  // ---------------------------------------------------------------------------
  // The page (app.py:202-226, 278-326)

  /** What the page ends up showing. */
  datatype View =
    | MissingCredentials      // the credentials file is not there
    | NoClient                // no client could be built
    | ErrorShown(error: Error)  // an exception reached the handler at the bottom of the page
    | NoData                  // the fetch returned no rows
    | Events(countryOptions: seq<string>, categoryOptions: seq<string>, eventTypeOptions: seq<string>,
             matching: nat, summaries: seq<EventSummary>)

  /**
   * `main` from the credentials check on. The client is built before the
   * fetch and the page stops when there is none, so the fetch never sees a
   * missing client and AttributeError is never shown.
   */
  method ShowDashboard(credentialsFound: bool, outcome: QueryOutcome, sel: Selection) returns (view: View)
    ensures !credentialsFound ==> view == MissingCredentials
    ensures credentialsFound && outcome.ClientMissing? ==> view == NoClient
    ensures credentialsFound && outcome.ServiceFailed? ==> view == ErrorShown(ServiceError)
    ensures credentialsFound && outcome.Returned? && App.Enrich(outcome.rows).Failure? ==>
              view == ErrorShown(App.Enrich(outcome.rows).error)
    ensures credentialsFound && outcome == Returned([]) ==> view == NoData
    ensures view.ErrorShown? ==> view.error != AttributeError
    ensures view == ErrorShown(IndexError) ==> sel.country != "All" && '(' !in sel.country
    ensures view.ErrorShown? && outcome.Returned? && App.HasQueriedColumns(outcome.rows) ==> view.error == IndexError
    ensures credentialsFound && outcome.Returned? && outcome.rows != [] && App.Enrich(outcome.rows).Success? &&
              ApplyFilters(App.Enrich(outcome.rows).value, sel).Failure? ==>
              view == ErrorShown(IndexError)
    ensures view.Events? <==>
              credentialsFound && outcome.Returned? && outcome.rows != [] &&
              App.Enrich(outcome.rows).Success? && ApplyFilters(App.Enrich(outcome.rows).value, sel).Success?
    ensures view.Events? ==>
              var es := App.Enrich(outcome.rows).value;
              var f := ApplyFilters(es, sel).value;
              view.countryOptions == CountryOptions(es) &&
              view.categoryOptions == CategoryOptions() && view.eventTypeOptions == EventTypeOptions() &&
              view.matching == |f| && |view.summaries| == |f| &&
              forall i :: 0 <= i < |f| ==> view.summaries[i] == FormatEventSummary(f[i])
  {
    if !credentialsFound {
      return MissingCredentials;
    }
    if outcome.ClientMissing? {
      return NoClient;
    }
    var fetched := App.FetchGdeltData(outcome);
    if fetched.Failure? {
      return ErrorShown(fetched.error);
    }
    var df := fetched.value;
    if df == [] {
      return NoData;
    }
    var filtered := FilterEvents(df, sel);
    if filtered.Failure? {
      return ErrorShown(filtered.error);
    }
    var shown := RenderSummaries(filtered.value);
    view := Events(CountryOptions(df), CategoryOptions(), EventTypeOptions(), |filtered.value|, shown);
  }
}
