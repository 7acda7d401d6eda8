# GDELT events dashboard: enrichment and filtering, modelled in Dafny

The dashboard fetches at most 1000 GDELT event rows for one date. It enriches
each row with two descriptions and three impact scores. It then lets the
user narrow the rows by country, category and event type, and shows one
summary per remaining row. This project models that logic and proves what
it promises:

- `constants.dfy` (module `Constants`): the CAMEO root-code, quad-class and
  country tables, with the query and cache settings. It also proves the
  tables' shape.
- `queries.dfy` (module `Queries`): the `queries.py` variant of the scores
  and of the fetch. Here a missing cell counts as 0 and a null code falls
  back to 'Unknown'. The empty result and the failure paths are modelled
  too.
- `app.dfy` (module `App`): the variant that the page actually runs.
  `app.py` redefines the tables and `fetch_gdelt_data`, shadowing the
  imports. Its score formula reads every cell with `row[...]`, so a missing
  cell raises KeyError. Its lookups have no null checks. The model proves
  both copies of the tables equal. It also proves that both variants
  compute the same scores and descriptions wherever app.py does not raise.
- `dashboard.dfy` (module `Dashboard`): `main` and `format_event_summary`.
  It covers:
  - the three selectors: the country labels `"<name> (<code>)"`, built from
    the sorted distinct non-empty actor codes;
  - reading the code back out of the chosen label;
  - the three filters, AND-ed and applied one after the other;
  - the summaries;
  - the order in which the page gives up: no credentials, no client, an
    exception, or no rows.
- `pystr.dfy` (module `PyStr`): the Python string operations the code relies
  on, with Python's semantics:
  - `str.zfill`, where a leading sign stays in front;
  - `str.split` on one character;
  - `str.strip()` with Python's whitespace set;
  - the code-point order on `str`;
  - `sorted(set(...))`.
- `events.dfy` and `wrappers.dfy`: the row datatypes, `min(1.0, x)`,
  `abs`, Option/Result, and the exceptions that reach the page's handler.

A row cell that is `None` in the model stands for one of two things,
depending on the column:

- In the five score columns (GoldsteinScale, NumMentions, NumSources,
  NumArticles, AvgTone) it means the row has no such column. This is the
  case where `row.get(column, 0)` in `queries.py` gives its default 0, while
  `row[column]` in `app.py` raises KeyError. The model returns
  `Failure(KeyError(column))` for the first column the formulas read, in
  the order NumMentions, AvgTone, GoldsteinScale, NumArticles, NumSources.
  All rows of one frame have the same columns, so in a frame it is the
  first row that fails (`App.EnrichFailsAtFirstRow`). The page's own query
  selects all five columns (app.py:132-154), so its rows never take this
  path (`App.HasQueriedColumns`). A NULL number in a selected column is a
  NaN or `pd.NA` value, not a missing column, and is left out.
- In every other column it means a NULL value: the event root code and the
  quad class that `pd.notna` tests, and the actor country codes that
  `dropna` drops and `fillna('')` fills.

The page runs `app.py`'s own `fetch_gdelt_data` (line 130), not the imported
one. So:

- a failing query reaches the page's exception handler and is shown as an
  error;
- the page stops before the fetch when no client could be built, so the
  `None.query` AttributeError is never shown;
- an empty result is enriched to an empty frame and shown as "no data".

Three points where the code does less than a quick reading suggests, and
the model follows the code:

- The scores are capped at 1 but not clamped at 0. Only the political score
  is always at least 0. The other two are non-negative when the counts are.
- A missing score column counts as zero only in `queries.py`; `app.py`
  would raise KeyError. The page's query always selects those columns, so
  on the page the only errors shown are the service's and the label
  parser's IndexError.
- A service failure becomes an empty table only in `queries.py`.

No two codes share a label (`Dashboard.LabelInjective`), so the country
options have no duplicates for any actor codes. The label parses back to
its code for codes without parentheses or outer whitespace
(`Dashboard.CountryLabelRoundTrip`), so for every code of the country
table. A code outside those conditions parses to some other string; the
one case with a visible effect is under "## Findings".

## Model

| member | source | states |
|---|---|---|
| Wrappers.Collect | app.py:166-167 | row-wise `apply` that stops at the first exception: success iff every row succeeds, with the values in row order; otherwise the error of the earliest failing row |
| PyStr.ZFill | app.py:160 | `zfill(width)`: length is the larger of the two; unchanged when long enough; otherwise zeros on the left, after a leading sign |
| PyStr.Split | app.py:304 | `split(sep)` yields at least one piece and no piece contains the separator |
| PyStr.JoinSplit | app.py:304 | joining the pieces with the separator gives the string back |
| PyStr.SplitWithoutSeparator | app.py:304 | a string without the separator splits into itself alone |
| PyStr.SplitAtFirstSeparator | app.py:304 | the first piece ends at the first separator, the rest is the split of what follows |
| PyStr.SplitHasSeveralPieces | app.py:304 | there is a second piece, so `[1]` does not raise, exactly when the separator occurs |
| PyStr.StripLeading | app.py:304 | removes a whitespace prefix, leaves a string not starting with whitespace, keeps every other character |
| PyStr.StripTrailing | app.py:304 | removes a whitespace suffix, leaves a string not ending with whitespace, keeps every other character |
| PyStr.IsSpace | app.py:304 | the characters Python's `str.isspace()` accepts, which `strip()` removes |
| PyStr.Join | app.py:304 | `sep.join(parts)` starts with the first piece, followed by the separator when there are more |
| PyStr.Strip | app.py:304 | the result is the untouched middle `s[i..j]` of `s`, with only whitespace before `i` and from `j` on, and none at its own ends; every non-whitespace character kept; identity on strings without outer whitespace |
| PyStr.StripUnique | app.py:304 | any middle of `s` with only whitespace around it and none at its ends is `s.strip()` |
| PyStr.LexLess | app.py:281 | Python's `<` on `str`: compare code points from the left, a proper prefix sorting first |
| PyStr.LexLessFirstDifference | app.py:281 | `a < b` iff `a` is a proper prefix of `b` or has the smaller code point at the first position where they differ |
| PyStr.LexLessIrreflexive | app.py:281 | no string sorts before itself |
| PyStr.LexLessTransitive | app.py:281 | string order is transitive |
| PyStr.LexLessTotal | app.py:281 | of two different strings one sorts first |
| PyStr.LexLessAsymmetric | app.py:281 | two strings never sort before each other |
| PyStr.InsertSorted | app.py:281-284 | inserting into a strictly increasing list keeps it strictly increasing and adds exactly the new element |
| PyStr.SortedDistinct | app.py:281-284 | `sorted(set(xs))` is strictly increasing and has exactly the elements of `xs` |
| PyStr.StrictlySortedUnique | app.py:281-284 | two strictly increasing lists with the same elements are equal |
| Constants.TwoDigits | constants.py:2-23 | a number below 100 written with two digits reads back as that number |
| Constants.CameoCodeOrderCounts | constants.py:2-23 | the CAMEO keys in table order are '01' to '20' |
| Constants.RootCodeIsListed | constants.py:2-23 | the two-digit string of value n, for n in 1..20, is the n-th listed key |
| Constants.CameoLabelOf | constants.py:2-23 | the two-digit string of value n is a key of the table and maps to the n-th listed label |
| Constants.CameoKeysAreRootCodes | constants.py:2-23 | the CAMEO table has 20 keys, exactly the two-digit strings '01'..'20' |
| Constants.CameoLabelsListed | constants.py:2-23 | the table's values in key order are the 20 category labels |
| Constants.CameoOrdersDistinct | constants.py:2-23 | keys pairwise distinct, labels pairwise distinct, 'Unknown' not a label |
| Constants.CameoLabelsDistinct | constants.py:2-23 | no two codes share a label, the values are exactly the listed labels, 'Unknown' is none of them |
| Constants.QuadKeys | constants.py:25-30 | the quad-class keys are exactly 1, 2, 3, 4 |
| Constants.QuadLabelsListed | constants.py:25-30 | the quad labels in key order, pairwise distinct, 'Unknown' not among them |
| Constants.QuadLabelsDistinct | constants.py:25-30 | no two quad classes share a label; the values are the four labels |
| Constants.CountryCodes | constants.py:33-54 | 20 countries, each keyed by three capital letters |
| Constants.CountryNamesListedLow | constants.py:34-43 | the first ten country codes in table order map to the first ten listed names |
| Constants.CountryNamesListedHigh | constants.py:44-53 | the last ten country codes in table order map to the last ten listed names |
| Constants.CountryNamesWithoutParentheses | constants.py:33-54 | no display name contains '(' or ')' |
| Constants.SettingValues | constants.py:57-66 | table `gdelt-bq.gdeltv2.events`, query limit 1000, cache TTL 3600 |
| Events.MinOne | app.py:114-120 | `min(1.0, x)` is at most 1, is `x` below 1, and is non-negative iff `x` is |
| Events.Abs | app.py:114-117 | `abs` is non-negative and is `x` or `-x` |
| Queries.SocialImpact | queries.py:30 | at most 1; non-negative iff mentions are non-negative or the tone is 0; 0 for no mentions or zero tone |
| Queries.PoliticalImpact | queries.py:33 | between 0 and 1; 0 exactly for Goldstein 0; 1 once its magnitude reaches 10 |
| Queries.EconomicImpact | queries.py:36 | at most 1; non-negative iff articles times sources is; 0 when either is 0 |
| Queries.ImpactScores | queries.py:20-42 | all scores at most 1, political at least 0; a `None` row gives three zeros; each missing cell zeroes the score that reads it; non-negative counts give non-negative scores |
| Queries.RootDescription | queries.py:83-85 | 'Unknown' exactly for a null code or a padded key not in the table; otherwise the padded key is a root code '01'..'20' of value n and the description is the n-th listed label |
| Queries.RootDescriptionPads | queries.py:83-85 | '1' is padded to '01' and described 'MAKE PUBLIC STATEMENT', like '01' |
| Queries.RootDescriptionFallback | queries.py:83-85 | '99', '21' and '0' are described 'Unknown' |
| Queries.QuadDescription | queries.py:86-88 | not 'Unknown' exactly for a quad class 1..4, and then the class's label |
| Queries.QuadDescriptionExamples | queries.py:86-88 | 1 and 4 give their labels; 0, 5 and null give 'Unknown' |
| Queries.EnrichRow | queries.py:83-92 | the enriched row keeps the original row and has bounded scores |
| Queries.Enrich | queries.py:83-92 | same number of rows, same order, each row enriched on its own |
| Queries.FetchGdeltData | queries.py:45-98 | no client or a failing query gives a frame without columns; an empty result comes back as it is; otherwise the rows of `Enrich`, each row `EnrichRow` of its input row (the descriptions and scores of lines 83-92); the frame is empty exactly when no rows came back |
| App.TablesMatchConstants | app.py:22-74 | app.py's three tables equal those of constants.py |
| App.EconomicImpact | app.py:120 | at most 1; non-negative iff articles times sources is |
| App.EconomicFormulasAgree | app.py:120 | `(A/50)*(S/10)` equals queries.py's `(A/50)*S/10` |
| App.ImpactScores | app.py:112-126 | success iff all five score columns are present, else KeyError naming the first missing one in the order NumMentions, AvgTone, GoldsteinScale, NumArticles, NumSources; on success scores at most 1, political at least 0, social and economic non-negative for non-negative counts |
| App.ImpactScoresExample | app.py:114-120 | mentions 50, tone -10, Goldstein 5, articles 25, sources 4 give 0.25, 0.5 and 0.2 |
| App.ScoreVariantsAgree | app.py:112-126 | on a row with all five cells both score variants agree |
| App.Str | app.py:160 | `str(x)` of a text cell is the text, and 'None' for a null, which no padding turns into a CAMEO code |
| App.RootDescription | app.py:159-161 | without a null check it still equals the null-aware lookup of queries.py, since `str(None)` is no table key |
| App.QuadDescription | app.py:162-164 | equals the null-aware lookup of queries.py |
| App.EnrichOne | app.py:158-168 | a row's enrichment succeeds iff its score cells are present, keeps the row, bounds the scores, and otherwise fails with the scores' error |
| App.Enrich | app.py:158-168 | success iff every row has its score columns; then same length and each row enriched in place; otherwise the error of the first failing row |
| App.EnrichFailsAtFirstRow | app.py:158-168 | when all rows have the same columns, as in one frame, enrichment fails exactly when the first row lacks a score column, with that row's KeyError |
| App.RowVariantsAgree | app.py:158-168 | one row enriched by app.py is the row enriched by queries.py |
| App.EnrichVariantsAgree | app.py:158-168 | when every row has its score cells both enrichments give the same rows |
| App.FetchGdeltData | app.py:130-170 | no client raises AttributeError, a failing query raises, an empty result stays empty, and any returned result is exactly `App.Enrich` of its rows (which fails at the first row missing a score column), with success keeping the rows in order |
| App.FetchVariantsAgree | app.py:130-170 | on a non-empty result with all score cells both fetch variants give the same enriched rows |
| Wrappers.GetOr | queries.py:30-36 | `get(column, default)` or `fillna(default)` on one cell: the value when present, the default otherwise |
| Dashboard.CountryName | app.py:178-179 | the table's display name, which has no parentheses, or the code itself when the table lacks it |
| Dashboard.CountryDisplay | app.py:178-179 | a null cell shows 'None'; a known code shows the table's name; any other code shows itself |
| Dashboard.Label | app.py:285 | the label `"<name> (<code>)"` always contains '(' and ends with ')' |
| Dashboard.Present | app.py:282-283 | `dropna()` keeps exactly the present values |
| Dashboard.NonEmpty | app.py:285 | `if c` keeps exactly the non-empty strings and keeps a strictly sorted list sorted |
| Dashboard.OptionCodes | app.py:281-285 | the offered codes are strictly increasing, and are exactly the non-empty codes of either actor column |
| Dashboard.OptionCodesUnique | app.py:281-285 | that listing is the only strictly increasing one, so there is exactly one entry per code |
| Dashboard.CountryOptions | app.py:285 | "All" first, then one label per offered code, in code order |
| Dashboard.CategoryOptions | app.py:289-292 | "All" and the four quad labels, pairwise distinct, exactly the table's values |
| Dashboard.EventTypeOptions | app.py:294-297 | "All" and the 20 CAMEO labels, pairwise distinct, exactly the table's values |
| Dashboard.ParseCountryCode | app.py:304 | succeeds iff the choice contains '(' (else IndexError); the result has no parentheses and no outer whitespace |
| Dashboard.LabelRoundTrip | app.py:285-304 | `"<name> (<code>)"` parses back to the code when the name has no '(' and the code has no parentheses or outer whitespace |
| Dashboard.CountryLabelRoundTrip | app.py:285-304 | a country label parses back to its code under those conditions on the code alone |
| Dashboard.TableCountryRoundTrip | app.py:285-304 | every code of the country table round-trips |
| Dashboard.CountryOptionsParse | app.py:285-304 | every country option but the first parses without IndexError and differs from "All" |
| Dashboard.LabelInjective | app.py:285 | two codes with the same label are the same code, for any codes |
| Dashboard.CountryOptionsDistinct | app.py:281-285 | no country option occurs twice, whatever the actor codes |
| Dashboard.Holds | app.py:305-306 | the country mask holds iff an actor has the code, or the code is '' and an actor's code is null (the `fillna('')`) |
| Dashboard.FilterBy | app.py:305-307 | masking never adds rows |
| Dashboard.FilterByKeeps | app.py:305-313 | the mask keeps exactly the rows where it holds |
| Dashboard.FilterByAppend | app.py:305-313 | masking a concatenation masks each part, keeping their order |
| Dashboard.UnmentionedCountryMatchesNothing | app.py:303-307 | a country filter on a non-empty code that no row mentions leaves no row |
| Dashboard.NullActorsNeverMatch | app.py:305-306 | a row with two null actor codes never passes a filter on a non-empty code |
| Dashboard.FilterAll | app.py:300-313 | the reference conjunction: never adds rows, keeps exactly the rows meeting every criterion |
| Dashboard.ApplyInOrder | app.py:303-313 | rebinding the frame once per active filter never adds rows |
| Dashboard.FilterAllNone | app.py:300 | with no active filter the frame is unchanged |
| Dashboard.FilterByThenAll | app.py:300-313 | a mask followed by the conjunction is the conjunction with that mask added |
| Dashboard.ApplyInOrderIsConjunction | app.py:300-313 | applying the masks one after the other equals the conjunction |
| Dashboard.FilterAllSameCriteria | app.py:300-313 | the conjunction depends only on which criteria are active |
| Dashboard.FilterOrderIrrelevant | app.py:300-313 | applying the filters in any order, or repeating one, gives the same rows |
| Dashboard.FilterAllAppend | app.py:300-313 | the conjunction of a concatenation is the concatenation of the parts, so row order is kept |
| Dashboard.WhitespaceCodeSelectsNullRows | app.py:285-306 | with an actor code " ", the only option code is " ", its label parses to '', and the filter on '' keeps only the null-code row |
| Dashboard.BlankLabelParses | app.py:304 | the label of " " parses to '' |
| Dashboard.LabelledCode | app.py:285 | the offered code whose label is the choice, or none when no offered label is the choice |
| Dashboard.IntendedCountryFilter | app.py:303-307 | the corrected country filter never adds rows |
| Dashboard.IntendedCountryFilterKeeps | app.py:303-307 | choosing the option of an offered code keeps exactly the rows one of whose actors has that code |
| Dashboard.PageFilterAsIntended | app.py:303-307 | for a code without parentheses or outer whitespace the code's label parses back and the page's filter equals the corrected one |
| Dashboard.Criteria | app.py:303-313 | fails exactly for a country choice other than "All" without '('; the category and event-type filters are on iff their selector is not "All" |
| Dashboard.CriteriaMeaning | app.py:303-313 | a row meets every active filter iff the selection wants it |
| Dashboard.ApplyFilters | app.py:300-313 | IndexError exactly for a country choice without '('; otherwise exactly the input rows the selection wants |
| Dashboard.AllSelectorsAll | app.py:300-313 | with all three selectors at "All" the result is the input |
| Dashboard.ApplyFiltersAppend | app.py:300-313 | the filtered frame of a concatenation is the concatenation of the filtered parts |
| Dashboard.Select | app.py:307 | `df[mask]` computed row by row is the mask's result |
| Dashboard.AppendStep | app.py:310-313 | adding one more filter at the end masks the previous result |
| Dashboard.FilterEvents | app.py:300-313 | the step-by-step rebinding of the frame gives exactly `ApplyFilters` |
| Dashboard.FormatEventSummary | app.py:172-199 | the summary shows the row's descriptions and scores; each country is its display name and code, or 'None' for a null code |
| Dashboard.RenderSummaries | app.py:319-322 | one summary per filtered row, in order |
| Dashboard.ShowDashboard | app.py:202-326 | the page's outcome for every input: missing credentials, no client, the error of the fetch or of enrichment, IndexError whenever the enriched rows exist and the country label cannot be parsed (never AttributeError, IndexError only for a choice without '(', and only IndexError for rows with all queried columns), no data, or the selectors and one summary per matching row |

## Left out

- The Streamlit UI is not modelled: titles, spinners, metrics and their means, the two Plotly charts with their `value_counts`/`head(10)` data, the wording of the "Showing N events" line and the markdown text of the summaries with its `:.2f` formatting. It is presentation only. `ShowDashboard` returns the values the page would show, the N of that line included (`View.Events.matching`).
- The BigQuery client, the credentials check and the SQL string are external I/O. The credentials check is a boolean parameter, and the fetch is a `QueryOutcome` parameter: no client, a failing query, or the returned rows.
- The date selector only feeds the SQL string, so it is not modelled.
- The `st.cache_data(ttl=3600)` and `st.cache_resource` memoization is not modelled: it is a library decorator driven by wall-clock time. Only the TTL value is kept.
- `get_bigquery_client`'s error message and `check_credentials`' help text are not modelled. They are display only.
- App.ImpactScores: a present cell that holds NaN or `pd.NA` is not modelled. With such a cell, `min(1.0, nan)` gives 1.0 and `pd.NA` raises TypeError. Only present values and missing cells are modelled.
- Queries.ImpactScores: a present cell that holds NaN is not modelled, because `get` returns the NaN rather than its default. Float rounding is not modelled either: the scores are computed over exact reals.
- Queries.FetchGdeltData, App.FetchGdeltData, App.Enrich: pandas adds columns to the frame in place. The model builds new enriched rows from the old ones, so aliasing of the frame is not modelled.
- Dashboard.FormatEventSummary: its early return for a missing or all-null row is not modelled. It cannot happen for an enriched row, whose description cells always hold a string. Its 'Unknown'/0/'#' defaults are not modelled either: they are never used, because every column is present.

## Findings

| source | as written | input that shows it | evidently intended | confidence | as-written member | corrected member |
|---|---|---|---|---|---|---|
| app.py:285, 304-306 | the country filter parses the code back out of the label and strips it, and compares it with actor codes whose nulls were filled with '' | rows whose actor codes are " " in one row and null in another: " " is offered as "  ( )", that parses to '', and the filter keeps the null row and drops the " " row | choosing a country option keeps the rows one of whose actors has that option's code | low, not executed; GDELT country codes are three letters, so a code of only whitespace is unlikely | Dashboard.WhitespaceCodeSelectsNullRows | Dashboard.IntendedCountryFilterKeeps |

The corrected filter is `Dashboard.IntendedCountryFilter`.
`Dashboard.PageFilterAsIntended` shows that the page, modelled as written,
filters exactly as the corrected filter does for codes without parentheses
or outer whitespace. Every code of the country table is such a code.
