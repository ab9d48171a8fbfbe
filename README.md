# Pension-fund comparator: a verified model of its logic

This project models, in Dafny, the logic of a web application that compares Italian
supplementary pension funds. The application has three parts:

- a Node script that builds the fund dataset from CSV exports;
- a React frontend that filters, sorts, shortlists, scores and explains funds;
- a FastAPI backend that handles sessions and stores user profiles in Firestore.

What the model covers:

- **The CSV pipeline** (`csv_parse.dfy`, `csv_merge.dfy`, `fund_ids.dfy`). It covers:
  - delimiter detection and the quote-aware line parser;
  - row filtering and decimal normalisation;
  - the fuzzy category lookup and the keyed join of the two tables;
  - the two-level sort;
  - the id scheme of the generated module.
- **Fund classification and scoring** (`fund_types.dfy`, `fund_logic_config.dfy`, `fund_config.dfy`, `fund_shortlist.dfy`, `choose_fund_flow.dfy`, `insights_panel.dfy`). It covers:
  - the cost, performance and coherence labels and colours;
  - the coherence score;
  - the two shortlist algorithms;
  - the insights panel.
- **Selection, filter and sort state** (`app_dashboard.dfy`, `fund_table.dfy`, `guided_context.dfy`, `entry_mode.dfy`, `active_filters.dfy`, `color_mapping.dfy`). It covers:
  - the dashboard and guided-flow state, as classes whose methods update fields;
  - the sort-configuration transitions and the null-last comparator;
  - the filter chips and the chart palette.
- **Text handling** (`fund_label.dfy`, `tfr_faq.dfy`, `fund_detail_modal.dfy`, `check_my_fund.dfy`, `feedback_widget.dfy`). It covers:
  - labels and truncation;
  - the FAQ parser;
  - website normalisation and fund search;
  - the feedback form.
- **Sessions** (`auth_routes.dfy`, `auth_client.dfy`, `firestore_provider.dfy`). It covers:
  - plan normalisation, the upgrade token's claims and the cookie policy;
  - the popup-message checks of the frontend;
  - the `.env` reader, the configuration precedence chains and the Firestore client cache.

Shared helper modules:

- `wrappers.dfy`: Option and Result;
- `text.dfy`: ASCII string functions (trim, case mapping, search, split and join, replace-first, Python's `strip(chars)`, decimal numerals);
- `ordered_maps.dfy`: JavaScript `Map` semantics as an insertion-ordered sequence of pairs;
- `sequences.dfy`: filter, slicing and a stable insertion sort. The sort stands for ECMAScript's stable `Array.prototype.sort`; its lemmas prove it sorted, a permutation and stable under a total preorder.

Modelling conventions:

- Fund numbers are exact `real`s. JavaScript `null`/`undefined` and Python `None` are `Option.None`.
- A comparator `cmp` becomes the relation `cmp(a, b) <= 0`.
- Locale-dependent operations use ASCII case mapping and plain lexicographic order.
- The outside world is a parameter: the network, files, the clock, environment variables, signing and the stores. A call to it is a parameter holding its outcome, and a request is the value that would be sent.
- Where the source mutates state (React state setters, the Python process environment, the module-global client cache), the model is a class whose methods update its fields. Each method is proved against a function of the old state.
- Loops in the source are methods with loop invariants, proved equal to a recursive specification function.

## Model

| member | source | states |
|---|---|---|
| CsvParse.DetectDelimiter | scripts/generate_fp_to_ts.js:20-24 | the delimiter is `;` exactly when the first line has strictly more semicolons than commas, otherwise `,`; a tie gives `,` |
| CsvParse.DetectSemicolonHeader | scripts/generate_fp_to_ts.js:20-24 | a header of at least two comma-free columns joined by `;` is read as `;`-delimited |
| CsvParse.ParseCsvLine | scripts/generate_fp_to_ts.js:27-52 | the loop over `i` with `current` and `inQuotes` yields exactly the fields of the recursive scan `ParseLine` |
| CsvParse.ScanFieldCount | scripts/generate_fp_to_ts.js:32-51 | from any state of the scan, the number of fields is one more than the number of delimiters met outside quotes |
| CsvParse.ParseLineFieldCount | scripts/generate_fp_to_ts.js:43-51 | a line parses to exactly one field more than it has delimiters outside quotes, so a delimiter inside quotes stays in its field |
| CsvParse.ScanQuotedBody | scripts/generate_fp_to_ts.js:36-42 | inside quotes a doubled quote adds one literal `"` and the closing quote only ends quoting and is not emitted |
| CsvParse.ParseSerialize | scripts/generate_fp_to_ts.js:27-52 | quoting every field (doubling its inner quotes) and joining with any delimiter other than `"` parses back to the same fields |
| CsvParse.ScanSerialize | scripts/generate_fp_to_ts.js:32-51 | the same round trip, stated on the scan from its initial state |
| CsvParse.Lines | scripts/generate_fp_to_ts.js:56 | splitting on `\n` or `\r\n` gives at least one line |
| CsvParse.NonBlankLines | scripts/generate_fp_to_ts.js:56 | every line kept has non-blank text |
| CsvParse.RowsOfWidth | scripts/generate_fp_to_ts.js:63-68 | only rows as wide as the header are kept, never more rows than lines |
| CsvParse.RowsOfWidthSnoc | scripts/generate_fp_to_ts.js:63-68 | one more line adds its parsed row exactly when its width equals the header's |
| CsvParse.KeepRowsOfWidth | scripts/generate_fp_to_ts.js:62-69 | the loop that pushes rows computes `RowsOfWidth` |
| CsvParse.ParseCsvRows | scripts/generate_fp_to_ts.js:55-70 | the method computes `CsvRows`: blank lines dropped, delimiter from the first line, header parsed and left out, rows filtered by width |
| CsvParse.CsvRowsShape | scripts/generate_fp_to_ts.js:55-70 | the header is never a row (at most one row fewer than non-blank lines) and every row is exactly as wide as the header |
| CsvParse.LinesAllSpace | scripts/generate_fp_to_ts.js:56 | in blank content every line is blank |
| CsvParse.BlankContentNoRows | scripts/generate_fp_to_ts.js:56-57 | blank or whitespace-only content gives no rows |
| CsvParse.NormalizeDecimal | scripts/generate_fp_to_ts.js:73-76 | empty or whitespace-only input gives `''`; otherwise only the first `,` becomes `.` and the rest is kept |
| CsvParse.ReplaceFirstChar | scripts/generate_fp_to_ts.js:75 | `replace(',', '.')` changes nothing without a comma and otherwise exactly the first comma |
| CsvMerge.DropBom | scripts/generate_fp_to_ts.js:89-92 | a leading U+FEFF is removed and any other content is kept |
| CsvMerge.ReadFondiInfo | scripts/generate_fp_to_ts.js:79-114 | a missing file gives an empty map; otherwise the map built from the parsed rows |
| CsvMerge.FondiFromRows | scripts/generate_fp_to_ts.js:96-109 | the loop over the rows sets `TYPE` and `N.ALBO` joined by a bar to the website for every row of at least four columns, in order |
| CsvMerge.FondiLookupLast | scripts/generate_fp_to_ts.js:99-108 | a key maps to the trimmed website of the last row that produces it (`Map.set` overwrites) |
| CsvMerge.FondiLookupMissing | scripts/generate_fp_to_ts.js:99-108 | a key that no row of at least four columns produces is absent |
| CsvMerge.StripFondoPensione | scripts/generate_fp_to_ts.js:141 | removing the `FONDO PENSIONE` prefix leaves a suffix of the name |
| CsvMerge.StripFondoPensionePrefix | scripts/generate_fp_to_ts.js:141 | `FONDO PENSIONE ` followed by a name that does not start with a blank gives back that name, in either case mode |
| CsvMerge.ReadCategoryData | scripts/generate_fp_to_ts.js:117-151 | a missing file gives an empty map; otherwise the map built from the parsed rows after the first |
| CsvMerge.CategoriesFromRows | scripts/generate_fp_to_ts.js:129-148 | the loop over the rows sets each row's keys in order |
| CsvMerge.AddCategoryRow | scripts/generate_fp_to_ts.js:132-147 | a row of at least three columns sets its upper-cased, space-free and prefix-free names to its trimmed category |
| CsvMerge.SetKeys | scripts/generate_fp_to_ts.js:144-146 | the loop over the keys sets each of them to the category |
| CsvMerge.CategoryDataSkipsFirstRow | scripts/generate_fp_to_ts.js:127-131 | the first data row never contributes: replacing it by any row gives the same map |
| CsvMerge.CategoryLookupLast | scripts/generate_fp_to_ts.js:131-147 | each key of the last row maps to that row's trimmed category |
| CsvMerge.FirstPartialMatch | scripts/generate_fp_to_ts.js:177-181 | a value is found iff some key is contained in the name or contains the prefix-free name, and it is the value of such an entry |
| CsvMerge.FirstPartialAt | scripts/generate_fp_to_ts.js:177-181 | the first entry in map order that matches partially is the one returned |
| CsvMerge.MatchCategoryData | scripts/generate_fp_to_ts.js:154-184 | an empty name gives null; an exact hit on the upper-cased, trimmed name wins; any result is a value of the map |
| CsvMerge.MatchCategoryDataPartial | scripts/generate_fp_to_ts.js:159-181 | with no exact, space-free or prefix-free hit, the first entry in map order that matches partially gives the category |
| CsvMerge.BlankNameTakesFirstEntry | scripts/generate_fp_to_ts.js:155-179 | a non-empty, whitespace-only name cleans to `''`, which every key contains, so without an empty key the first entry's category is returned |
| CsvMerge.KeyRows | scripts/generate_fp_to_ts.js:205-215 | the loop keys every row by its first five columns joined by a bar, the last row of a key winning |
| CsvMerge.ContractCategory | scripts/generate_fp_to_ts.js:244-251 | the contract category is non-empty only for rows whose type is exactly `FPN` |
| CsvMerge.MergeRowColumns | scripts/generate_fp_to_ts.js:230-254 | a merged row has 17 columns: 6 trimmed id columns, 5 normalised returns, 4 normalised ISC values, the contract category and the website (default `''`) |
| CsvMerge.MergeRowContractOnlyFpn | scripts/generate_fp_to_ts.js:243-251 | a non-empty contract category only appears on `FPN` rows |
| CsvMerge.SharedKeys | scripts/generate_fp_to_ts.js:218-225 | the merged keys are exactly the returns-table keys also present in the cost table, in the returns table's order |
| CsvMerge.MergedKeys | scripts/generate_fp_to_ts.js:221-258 | the join emits exactly the merged rows of the shared keys (`MergeAll`: one row per key), in the key order of the returns table |
| CsvMerge.ParseIntOfDecimal | scripts/generate_fp_to_ts.js:267-268 | `parseInt` of a decimal numeral gives its value |
| CsvMerge.RowLeLexicographic | scripts/generate_fp_to_ts.js:262-270 | the comparator orders by type (FPN < FPA < PIP < other), then by numeric N.ALBO |
| CsvMerge.RowLeTotalPreorder | scripts/generate_fp_to_ts.js:263-270 | when every N.ALBO parses, the comparator is a total preorder |
| CsvMerge.ReadAndMap | scripts/generate_fp_to_ts.js:187-273 | the method (keying loops, merge loop, sort) throws exactly when a row of the returns table that the join reaches lacks a register number column, and otherwise computes `MergedAndSorted` of its inputs |
| CsvMerge.MergeKeys | scripts/generate_fp_to_ts.js:219-258 | the merge loop throws exactly when a row of the returns table whose key the costs table shares lacks a register number column, and otherwise yields `Merged` over the keys of the returns table |
| CsvMerge.WideRowsMergeable | scripts/generate_fp_to_ts.js:219-240 | when every row of the returns table has at least two columns, the join never throws, whatever the costs table holds |
| CsvMerge.MergedAndSortedOrder | scripts/generate_fp_to_ts.js:260-270 | the output is sorted by type then N.ALBO, is a permutation of the merged rows, and rows with equal keys keep their input order |
| FundIds.CollapseRuns | scripts/generate_fp_to_ts.js:287 | replacing every run of characters outside a-z and 0-9 by one dash leaves only those characters and dashes, never two dashes in a row |
| FundIds.Sanitize | scripts/generate_fp_to_ts.js:287 | the sanitised name holds only `a-z`, `0-9` and `-`, with no dash at either end and no two dashes in a row |
| FundIds.WithSuffixInjective | scripts/generate_fp_to_ts.js:288 | different suffixes give different ids for the same base |
| FundIds.AssignIds | scripts/generate_fp_to_ts.js:314-317 | as written: one id per row (what the ids are is shown by `AssignIdsCollide`) |
| FundIds.AssignIdsCollide | scripts/generate_fp_to_ts.js:314-317 | as written: for any N.ALBO, when a third sub-fund's sanitised name is a repeated sub-fund's sanitised name followed by `-2`, the second and third rows get the same id |
| FundIds.CollidingNames | scripts/generate_fp_to_ts.js:287 | the sub-fund names `a` and `a 2` sanitise to `a` and `a-2`, so they meet the condition of `AssignIdsCollide` |
| FundIds.FreeSuffix | scripts/generate_fp_to_ts.js:314-317 | the suffix search always ends, at a suffix whose id is not yet used |
| FundIds.AssignUniqueIds | scripts/generate_fp_to_ts.js:314-317 | corrected: one id per row, pairwise distinct and distinct from every id already used |
| FundIds.AssignUniqueIdsShape | scripts/generate_fp_to_ts.js:286-289 | every corrected id is the row's base id or that base id with a suffix of at least 2 |
| FundLogicConfig.CategoryRiskScore | app/frontend/config/fundLogicConfig.ts:22-29 | a category has a risk score exactly when it is one of the six fund categories, and the score lies in 0..100 |
| FundLogicConfig.CategoryRiskExtremes | app/frontend/config/fundLogicConfig.ts:22-29 | GAR (10) has the lowest risk score and AZN (85) the highest |
| FundLogicConfig.ThresholdsOrdered | app/frontend/config/fundLogicConfig.ts:14-21 | `veryCompetitive` 0.6 < `average` 1.0 and `inLine` 2.0 < `aboveAverage` 4.0, so each set of bands is disjoint and exhaustive |
| FundLogicConfig.FirstMatchRisk | app/frontend/config/fundConfig.ts:52-58 | the first-match loop's ideal risk is the fallback or the risk of a rule whose bound the horizon exceeds; with no bound exceeded it is the fallback |
| FundLogicConfig.HorizonRiskRulesDescending | app/frontend/config/fundLogicConfig.ts:33-38 | the horizon rules have strictly decreasing bounds and decreasing ideal risks, all above the short-horizon risk 20 |
| FundLogicConfig.FirstMatchAtMostHead | app/frontend/config/fundLogicConfig.ts:33-38 | under descending rules, matching past the first rule never gives more than the first rule's risk |
| FundLogicConfig.FirstMatchMonotone | app/frontend/config/fundConfig.ts:52-58 | under descending rules, first-match ideal risk is non-decreasing in the horizon |
| FundLogicConfig.HorizonIdealRiskMonotone | app/frontend/config/fundConfig.ts:51-58 | a longer horizon never gives a lower ideal risk |
| FundLogicConfig.AgeFallbackDecreasing | app/frontend/config/fundLogicConfig.ts:39-43 | the age fallback covers the three age ranges and decreases with age: 70 > 50 > 30 |
| FundLogicConfig.RuleCategories | app/frontend/config/fundLogicConfig.ts:54-58 | a category list found is one of the rules' lists, and a rule without an upper bound guarantees one is found |
| FundLogicConfig.EveryHorizonHasCategories | app/frontend/config/fundLogicConfig.ts:54-58 | the last rule's bound is +infinity, so every horizon selects a category list |
| FundConfig.CostLabelFromIsc35 | app/frontend/config/fundConfig.ts:8-13 | null gives "dato non disponibile", at most 0.6 "molto competitivo", at most 1.0 "nella media", otherwise "sopra la media", each as an if-and-only-if |
| FundConfig.PerfLabelFromRendimento10y | app/frontend/config/fundConfig.ts:22-27 | null gives "dato mancante", at least 4.0 "sopra la media", at least 2.0 "in linea", otherwise "sotto la media", each as an if-and-only-if |
| FundConfig.IdealRisk | app/frontend/config/fundConfig.ts:46-62 | with a horizon (0 included) the first-match horizon risk, else with an age range the age fallback, else 50 |
| FundConfig.CoherenceScore | app/frontend/config/fundConfig.ts:37-70 | the score always lies in 0..100 |
| FundConfig.ComputeCoherenceScore | app/frontend/config/fundConfig.ts:37-70 | the method with the first-match loop and `break` computes `CoherenceScore` |
| FundConfig.CoherenceScoreWithoutCategory | app/frontend/config/fundConfig.ts:41 | a missing or empty category gives the neutral 50 |
| FundConfig.CoherenceScorePerfect | app/frontend/config/fundConfig.ts:64-69 | the score is 100 exactly when the fund's risk equals the ideal risk |
| FundConfig.HorizonOverridesAge | app/frontend/config/fundConfig.ts:51-62 | with a horizon present the age range is never consulted |
| FundConfig.CoherenceLabelFromScore | app/frontend/config/fundConfig.ts:72-77 | at least 80 "ottima", at least 60 "buona", at least 40 "accettabile", else "poco adatta", each as an if-and-only-if |
| FundConfig.CostColourMatchesLabel | app/frontend/config/fundConfig.ts:80-90 | the cost colour bands use the label thresholds (slate, emerald, amber, red against missing, very competitive, average, above), and the 10-year wrappers agree with the 35-year functions |
| FundConfig.PerfColourMatchesLabel | app/frontend/config/fundConfig.ts:92-97 | the performance colour bands use the label thresholds |
| FundConfig.CoherenceColourMatchesLabel | app/frontend/config/fundConfig.ts:99-104 | the coherence colour is emerald for "ottima" (from 80), amber for "buona" (from 60) and red for the two lower labels |
| FundConfig.MatchLabelFromFund | app/frontend/config/fundConfig.ts:106-119 | a null fund gives "dati mancanti"; without a profile, or with a falsy horizon and no age range, the category/type label; otherwise the label of the computed score |
| FundConfig.ZeroHorizonHasNoContext | app/frontend/config/fundConfig.ts:51-62 | a horizon of 0 with no age range counts as no context for the label, yet the score uses it and gives the short-horizon risk 20 |
| FundShortlist.TargetCategories | app/frontend/utils/fundShortlist.ts:36-39 | up to 10 years the cautious categories, up to 20 the balanced ones, beyond 20 the equity ones |
| FundShortlist.TargetCategoriesMatchConfig | app/frontend/config/fundLogicConfig.ts:54-58 | the shortlist's hard-coded horizon bands select the same category lists as the configuration's horizon category rules |
| FundShortlist.MinOf | app/frontend/utils/fundShortlist.ts:43 | `Math.min` over a non-empty list is an element no greater than any other |
| FundShortlist.MaxOf | app/frontend/utils/fundShortlist.ts:44 | `Math.max` over a non-empty list is an element no smaller than any other |
| FundShortlist.FundBounds | app/frontend/utils/fundShortlist.ts:42-48 | the cost and return bounds (999 and -999 standing in for missing values) enclose every fund's cost and return |
| FundShortlist.BoundsCover | app/frontend/utils/fundShortlist.ts:42-48 | the minimum and maximum of a measure taken over all funds bound that measure on every fund |
| FundShortlist.Normalized | app/frontend/utils/fundShortlist.ts:50 | a value inside its bounds normalises into 0..1 (0.5 when the bounds coincide) |
| FundShortlist.RiskBoost | app/frontend/utils/fundShortlist.ts:72-89 | the risk boost lies within plus or minus 0.14 and is 0 for a mixed category that is not equity-like |
| FundShortlist.AgeBoost | app/frontend/utils/fundShortlist.ts:91-94 | only equity-like categories get an age adjustment, between -0.06 (over 50) and +0.03 (under 35) |
| FundShortlist.ComputeShortlist | app/frontend/utils/fundShortlist.ts:19-111 | a falsy horizon gives no funds; the result is never longer than the input nor than a non-negative `maxResults` |
| FundShortlist.ShortlistIsTopCandidates | app/frontend/utils/fundShortlist.ts:103-110 | the shortlist is exactly the first entries of the candidates stably sorted best score first: `min(maxResults, candidates)` of them for a non-negative `maxResults`, and all but the last `-maxResults` for a negative one, as `slice(0, maxResults)` does |
| FundShortlist.ShortlistBest | app/frontend/utils/fundShortlist.ts:103-110 | a candidate left out of the shortlist scores no higher than any fund on it |
| FundShortlist.ComputeShortlistDefault | app/frontend/utils/fundShortlist.ts:20 | without options at most five funds are returned |
| FundShortlist.ShortlistMembers | app/frontend/utils/fundShortlist.ts:52-62 | every fund returned is an input fund (as a sub-multiset), lies in a targeted category, and is not of type FPN when the user said they have no contractual FPN |
| FundShortlist.ScoreOrderTotal | app/frontend/utils/fundShortlist.ts:108 | the descending-score comparator is a total preorder, so the stable sort is well defined |
| FundShortlist.ShortlistOrdered | app/frontend/utils/fundShortlist.ts:103-110 | the shortlist is ordered best score first |
| FundShortlist.ScoreComponentsInUnit | app/frontend/utils/fundShortlist.ts:64-70 | the cost and return scores of an input fund lie in 0..1 |
| FundShortlist.FpnBoostExact | app/frontend/utils/fundShortlist.ts:96-98 | for a user with a contractual FPN, an FPN fund scores exactly 0.18 more than the same fund with another type |
| ChooseFundFlow.ChooseShortlist | app/frontend/components/guided/ChooseFundFlow.tsx:12-32 | a falsy horizon gives no funds, otherwise at most five |
| ChooseFundFlow.CostOrderTotal | app/frontend/components/guided/ChooseFundFlow.tsx:25-29 | the cost comparator is a total preorder |
| ChooseFundFlow.ShortlistIsPrefix | app/frontend/components/guided/ChooseFundFlow.tsx:25-31 | the shortlist is the first min(5, n) funds of the matching funds sorted by cost, and that sort is ordered |
| ChooseFundFlow.ChooseShortlistMembers | app/frontend/components/guided/ChooseFundFlow.tsx:21-31 | every fund shown is an input fund lying in a targeted category; with at most five matches, all of them are shown |
| ChooseFundFlow.ChooseShortlistAscending | app/frontend/components/guided/ChooseFundFlow.tsx:25-31 | the funds shown are in non-decreasing 35-year ISC order |
| ChooseFundFlow.ChooseShortlistCheapest | app/frontend/components/guided/ChooseFundFlow.tsx:25-31 | a matching fund left out costs at least as much as every fund shown |
| ChooseFundFlow.MissingCostComesLast | app/frontend/components/guided/ChooseFundFlow.tsx:26-27 | after a fund without an ISC (cost 999) only funds costing at least 999 follow |
| ChooseFundFlow.HasFpnSelectValue | app/frontend/components/guided/ChooseFundFlow.tsx:105 | unset shows the empty option, true shows "yes" (and false "no") |
| ChooseFundFlow.HasFpnFromSelect | app/frontend/components/guided/ChooseFundFlow.tsx:109 | the empty option clears the answer and "yes" sets true; any other value sets false |
| ChooseFundFlow.HasFpnSelectRoundTrip | app/frontend/components/guided/ChooseFundFlow.tsx:105-109 | reading back the displayed option gives the stored answer |
| ChooseFundFlow.WithHasFpn | app/frontend/components/guided/ChooseFundFlow.tsx:106-111 | the change handler sets only `hasFpn` and keeps every other profile field |
| ChooseFundFlow.HandleSelectFund | app/frontend/components/guided/ChooseFundFlow.tsx:34-36 | picking a fund sets the selected fund id and leaves the rest of the shared state as it was |
| InsightsPanel.FirstWithId | app/frontend/components/guided/SelectedFundInsightsPanel.tsx:12 | `find` gives the first index whose id matches, or -1 when none does |
| InsightsPanel.FindFund | app/frontend/components/guided/SelectedFundInsightsPanel.tsx:12 | no fund exactly when nothing is selected or no id matches; otherwise the first match |
| InsightsPanel.HorizonSentence | app/frontend/components/guided/SelectedFundInsightsPanel.tsx:26-38 | one of four sentences: none without a horizon, then up to 10, 10 to 20 and over 20 years, each as an if-and-only-if |
| InsightsPanel.RiskBandOf | app/frontend/components/guided/SelectedFundInsightsPanel.tsx:54-58 | "lower" exactly when the category contains GAR, "higher" exactly when it does not but contains AZ, else "intermediate" |
| InsightsPanel.PanelFor | app/frontend/components/guided/SelectedFundInsightsPanel.tsx:12-85 | the placeholder exactly when no fund is found; otherwise the panel shows that fund's name, risk band, ISC, 10-year return and the horizon sentence |
| InsightsPanel.HorizonSentenceMonotone | app/frontend/components/guided/SelectedFundInsightsPanel.tsx:30-37 | a longer horizon never selects an earlier sentence |
| InsightsPanel.RiskBandAgreesWithScores | app/frontend/config/fundLogicConfig.ts:22-29 | on the six categories, the panel's lower band is the category with risk score 10 and its higher band the one with score 85 |
| AppDashboard.GetSortValue | app/frontend/App.tsx:16-37 | text for `linea` and `categoria`, a number or null for the cost and the five return keys, and null for every other key |
| AppDashboard.StrCompare | app/frontend/App.tsx:120 | the string comparison gives -1, 0 or 1, and 0 exactly for equal strings |
| AppDashboard.StrCompareAntisymmetric | app/frontend/App.tsx:120 | swapping the operands negates the comparison |
| AppDashboard.StrCompareTransitive | app/frontend/App.tsx:120 | the string order is transitive |
| AppDashboard.StrComparePrefix | app/frontend/App.tsx:120 | a string sorts no later than any extension of it |
| AppDashboard.CompareValues | app/frontend/App.tsx:106-123 | a null goes after a non-null in either direction; numbers and strings compare in the configured direction |
| AppDashboard.CompareValuesTotal | app/frontend/App.tsx:106-123 | on values of one kind the comparator relates every pair one way or the other |
| AppDashboard.CompareValuesTransitive | app/frontend/App.tsx:106-123 | on values of one kind the comparator is transitive |
| AppDashboard.DashboardOrderTotal | app/frontend/App.tsx:106-123 | the comparator is a total preorder on the funds of any list, since one key gives values of one kind |
| AppDashboard.SortFunds | app/frontend/App.tsx:106 | the sorted list is a permutation of the filtered list |
| AppDashboard.SortFundsSorted | app/frontend/App.tsx:103-126 | the sorted list is ordered by the comparator |
| AppDashboard.SortFundsNullsLast | app/frontend/App.tsx:111-114 | after a fund whose sort value is null, only funds with null sort values follow |
| AppDashboard.SortFundsNumbersOrdered | app/frontend/App.tsx:109-118 | numeric sort values are ascending for the ascending direction and descending otherwise |
| AppDashboard.SortFundsTextsOrdered | app/frontend/App.tsx:119-121 | text sort values follow the string order, reversed for the descending direction |
| AppDashboard.SortFundsNullKeyUnchanged | app/frontend/App.tsx:34-35 | for a key whose value is always null the order is left unchanged |
| AppDashboard.FilterFunds | app/frontend/App.tsx:84-101 | a fund is kept exactly when its category and company match (or the filter is "all") and the lower-cased search term is empty or found in "pip linea societa"; the kept funds are a sub-multiset of the data |
| AppDashboard.DefaultFiltersKeepAll | app/frontend/App.tsx:44-46 | the initial filters keep every fund, in order |
| AppDashboard.WithIds | app/frontend/App.tsx:128-130 | the selected funds are exactly the data funds whose id is selected |
| AppDashboard.ToggleInSet | app/frontend/App.tsx:132-145 | a selected id is removed, a new id is added only while fewer than 10 are selected, and the size never exceeds 10 |
| AppDashboard.Dashboard.constructor | app/frontend/App.tsx:44-49 | empty search, "all" filters, no selection, sort by last-year return descending, no modal |
| AppDashboard.Dashboard.FilteredAndSortedFunds | app/frontend/App.tsx:103-126 | the dashboard list is a permutation of the filtered funds |
| AppDashboard.Dashboard.SelectedFunds | app/frontend/App.tsx:128-130 | the charts show exactly the data funds whose id is selected |
| AppDashboard.Dashboard.ToggleFundSelection | app/frontend/App.tsx:132-145 | the selection becomes the toggled set, nothing else changes, and at most 10 selected ids is preserved |
| AppDashboard.Dashboard.ResetSelection | app/frontend/App.tsx:147-149 | the selection is emptied and nothing else changes |
| AppDashboard.Dashboard.ResetFilters | app/frontend/App.tsx:159-163 | search, category and company are reset while selection, sort and modal are untouched |
| AppDashboard.Dashboard.SetSortConfig | app/frontend/App.tsx:48 | the sort configuration is replaced by the updater's result and nothing else changes |
| AppDashboard.Dashboard.HandleFundClick | app/frontend/App.tsx:151-153 | the clicked fund opens in the modal and nothing else changes |
| AppDashboard.Dashboard.HandleCloseModal | app/frontend/App.tsx:155-157 | the modal closes and nothing else changes |
| AppDashboard.ResetFiltersShowsAll | app/frontend/App.tsx:159-163 | after resetting the filters the dashboard lists every fund of the data (as a multiset) |
| FundTable.HeaderClick | app/frontend/components/FundTable.tsx:35-41 | clicking a header sorts by its column, ascending exactly when that column was already sorted descending |
| FundTable.HeaderClickAlternates | app/frontend/components/FundTable.tsx:35-41 | repeated clicks on one header alternate the direction, with period two |
| FundTable.HeaderClickNewColumn | app/frontend/components/FundTable.tsx:36-39 | a new column starts descending, and a second click makes it ascending |
| FundTable.MobileToggle | app/frontend/components/FundTable.tsx:169-175 | the mobile direction button keeps the key and flips the direction |
| FundTable.MobileToggleTwice | app/frontend/components/FundTable.tsx:171-174 | pressing the direction button twice restores the configuration |
| FundTable.MobileSelect | app/frontend/components/FundTable.tsx:199-201 | choosing a key in the mobile menu sorts by it descending |
| FundTable.MobileSelectLikeHeaderClick | app/frontend/components/FundTable.tsx:196-202 | for a new column the mobile menu does what a header click does |
| FundTable.CheckboxDisabledIffToggleIgnored | app/frontend/components/FundTable.tsx:118 | a row's checkbox is disabled exactly when toggling that fund would leave the selection unchanged |
| GuidedContext.RemoveId | app/frontend/components/guided/GuidedComparatorContext.tsx:37-39 | the id is gone, every other id stays exactly when it was there, and the list does not grow |
| GuidedContext.RemoveIdAppend | app/frontend/components/guided/GuidedComparatorContext.tsx:38 | removing from a concatenation removes from each part |
| GuidedContext.RemoveIdAbsent | app/frontend/components/guided/GuidedComparatorContext.tsx:38 | removing an absent id leaves the list as it was |
| GuidedContext.RemoveIdKeepsNoDuplicates | app/frontend/components/guided/GuidedComparatorContext.tsx:38 | removal keeps a list free of duplicates |
| GuidedContext.AddId | app/frontend/components/guided/GuidedComparatorContext.tsx:28-35 | an id already present, or a full list of 10, leaves the list unchanged; otherwise the id is appended |
| GuidedContext.ToggleId | app/frontend/components/guided/GuidedComparatorContext.tsx:41-51 | a present id is removed; an absent one is appended unless 10 are already picked |
| GuidedContext.AppendKeepsNoDuplicates | app/frontend/components/guided/GuidedComparatorContext.tsx:33 | appending an absent id keeps the list free of duplicates |
| GuidedContext.UpdatersKeepValid | app/frontend/components/guided/GuidedComparatorContext.tsx:28-51 | add, remove and toggle keep the picked ids distinct and at most 10 |
| GuidedContext.ToggleTwice | app/frontend/components/guided/GuidedComparatorContext.tsx:41-51 | toggling a new id twice restores the list |
| GuidedContext.GuidedState.constructor | app/frontend/components/guided/GuidedComparatorContext.tsx:23-26 | no entry mode, an empty profile, no fund shown and nothing picked |
| GuidedContext.GuidedState.SetEntryMode | app/frontend/components/guided/GuidedComparatorContext.tsx:23 | the entry mode is replaced and nothing else changes |
| GuidedContext.GuidedState.SetProfile | app/frontend/components/guided/GuidedComparatorContext.tsx:55-57 | the profile becomes the updater applied to the previous profile, nothing else changes |
| GuidedContext.GuidedState.SetSelectedFundId | app/frontend/components/guided/GuidedComparatorContext.tsx:25 | the fund shown is replaced and nothing else changes |
| GuidedContext.GuidedState.AddSelectedFund | app/frontend/components/guided/GuidedComparatorContext.tsx:28-35 | the picked ids become `AddId` of the old ones, nothing else changes, the selection stays valid |
| GuidedContext.GuidedState.RemoveSelectedFund | app/frontend/components/guided/GuidedComparatorContext.tsx:37-39 | the picked ids become `RemoveId` of the old ones, nothing else changes, the selection stays valid |
| GuidedContext.GuidedState.ToggleSelectedFund | app/frontend/components/guided/GuidedComparatorContext.tsx:41-51 | the picked ids become `ToggleId` of the old ones, nothing else changes, the selection stays valid |
| GuidedContext.GuidedState.ClearSelectedFunds | app/frontend/components/guided/GuidedComparatorContext.tsx:53 | nothing is picked any more and nothing else changes |
| GuidedContext.UseGuidedComparator | app/frontend/components/guided/GuidedComparatorContext.tsx:80-86 | the shared state inside a provider, the fixed error outside one |
| EntryModeSelector.NextMode | app/frontend/components/guided/EntryModeSelector.tsx:18-31 | clicking a card makes it active exactly when it was not, and no other card is active afterwards |
| EntryModeSelector.AtMostOneActive | app/frontend/components/guided/EntryModeSelector.tsx:18-30 | at most one card is active at a time |
| EntryModeSelector.ClickTwice | app/frontend/components/guided/EntryModeSelector.tsx:18-31 | clicking a card twice restores no mode or that card's mode, and from another card's mode ends with none |
| EntryModeSelector.ClickCard | app/frontend/components/guided/EntryModeSelector.tsx:19-31 | the click sets the entry mode to `NextMode` and changes nothing else |
| ActiveFiltersChips.Chips | app/frontend/components/ActiveFiltersChips.tsx:28-87 | a chip is shown exactly for each filter away from its default, none at all exactly when no filter is active, and never twice |
| ActiveFiltersChips.ResetChip | app/frontend/components/ActiveFiltersChips.tsx:41-87 | clicking a chip clears its own filter only: that chip disappears and every other chip and filter stays as it was |
| ActiveFiltersChips.ResetEveryChip | app/frontend/components/ActiveFiltersChips.tsx:41-87 | clicking every shown chip, in any order, returns all filters to their defaults and hides the bar |
| ActiveFiltersChips.SearchLabel | app/frontend/components/ActiveFiltersChips.tsx:82 | a search term of up to 20 characters is shown whole, a longer one as its first 20 characters followed by "..." |
| ActiveFiltersChips.SearchLabelBounded | app/frontend/components/ActiveFiltersChips.tsx:82 | the search label is at most 23 characters and starts with the term's first (up to 20) characters |
| ColorMapping.ChartColorsDistinct | app/frontend/utils/colorMapping.ts:5-16 | the palette has ten distinct colours |
| ColorMapping.ColorForFund | app/frontend/utils/colorMapping.ts:21-25 | the colour is always from the palette: the first for a fund not selected, else the one at its selection position modulo 10 |
| ColorMapping.FirstTenColorsDistinct | app/frontend/utils/colorMapping.ts:21-25 | among the first ten funds of a duplicate-free selection no two share a colour |
| ColorMapping.ColorsWrapAfterTen | app/frontend/utils/colorMapping.ts:24 | the eleventh selected fund reuses the first fund's colour |
| FundLabel.FormatFundLabel | app/frontend/utils/fundLabel.ts:3-6 | "pip - linea", followed by " (societa)" exactly when the company is non-empty |
| FundLabel.FormatShortFundLabel | app/frontend/utils/fundLabel.ts:8-14 | the full label when it fits, else its first max(0, maxLength - 3) characters and "..."; never longer than a `maxLength` of at least 3 |
| FundLabel.ShortLabelDefaultFits | app/frontend/utils/fundLabel.ts:8 | with the default length the short label has at most 32 characters |
| FundLabel.ShortLabelKeepsPrefix | app/frontend/utils/fundLabel.ts:12-13 | a truncated label is exactly `maxLength` long, ends with "...", and what precedes the dots is a prefix of the full label |
| TfrFaq.FindSub | app/frontend/components/TfrFaq.tsx:11-12 | `indexOf` gives -1 exactly when the marker is absent, otherwise a position where it occurs |
| TfrFaq.Flush | app/frontend/components/TfrFaq.tsx:42-45 | a non-empty buffer becomes one paragraph, an empty one none |
| TfrFaq.ParagraphsWellFormed | app/frontend/components/TfrFaq.tsx:39-53 | every paragraph is non-empty and has no line break |
| TfrFaq.ParagraphsKeepText | app/frontend/components/TfrFaq.tsx:39-53 | joining the paragraphs with spaces gives the buffered text and the trimmed non-blank lines joined with spaces: no text is lost or added |
| TfrFaq.CollectParagraphs | app/frontend/components/TfrFaq.tsx:32-53 | the loop over the lines computes the paragraph grouping `ParagraphsFrom` |
| TfrFaq.QuestionEndsAtMark | app/frontend/components/TfrFaq.tsx:25-28 | when the first line has a question mark, the question ends at its first question mark |
| TfrFaq.AnswerLinesAreParagraphs | app/frontend/components/TfrFaq.tsx:55-58 | the answer's lines are exactly the paragraphs, all non-empty, and the answer is empty when there are none |
| TfrFaq.BuildEntry | app/frontend/components/TfrFaq.tsx:22-59 | the imperative entry builder computes the question and answer that `ParseEntry` defines |
| TfrFaq.Blocks | app/frontend/components/TfrFaq.tsx:17-21 | the trimmed non-empty blocks after each question marker, no more of them than markers |
| TfrFaq.ParseFaqEntries | app/frontend/components/TfrFaq.tsx:10-61 | no entries when the FAQ heading is missing, and every entry has a non-empty question |
| TfrFaq.EntriesComeFromBlocks | app/frontend/components/TfrFaq.tsx:16-60 | there are at most as many entries as markers after the heading, and each entry is the parse of one block |
| FundDetailModal.NormalizedSite | app/frontend/components/FundDetailModal.tsx:53-55 | no link exactly for an empty or missing site; a link always has an http or https protocol, the site itself when it had one, else "https://" in front |
| FundDetailModal.NormalizedSiteIdempotent | app/frontend/components/FundDetailModal.tsx:53-55 | normalising a normalised site changes nothing |
| FundDetailModal.StripProtocol | app/frontend/components/FundDetailModal.tsx:56 | a leading "https://" or "http://" is removed, anything else is kept |
| FundDetailModal.StripTrailingSlash | app/frontend/components/FundDetailModal.tsx:56 | one trailing slash is removed, anything else is kept |
| FundDetailModal.DisplaySite | app/frontend/components/FundDetailModal.tsx:56 | no link shows as the empty text |
| FundDetailModal.DisplayBareSite | app/frontend/components/FundDetailModal.tsx:53-56 | a bare host without a trailing slash links with "https://" and displays as typed |
| FundDetailModal.DisplaySiteWithProtocol | app/frontend/components/FundDetailModal.tsx:53-56 | an https site links unchanged and displays without its protocol |
| FundDetailModal.ContractCategories | app/frontend/components/FundDetailModal.tsx:88-102 | no chips for an empty value; otherwise one chip per comma-separated piece, trimmed, none containing a comma |
| FundDetailModal.CategoriesCoverText | app/frontend/components/FundDetailModal.tsx:94 | the pieces joined back with commas give the original text, so the chips cover it |
| FundDetailModal.ModalHeader | app/frontend/components/FundDetailModal.tsx:48-56 | nothing is rendered exactly without a fund; otherwise the header carries the normalised link and the category chips |
| FundDetailModal.ValueTone | app/frontend/components/FundDetailModal.tsx:13-15 | grey exactly for a missing value, green exactly for a value of at least 0, red exactly for a negative one |
| CheckMyFundFlow.SearchTerm | app/frontend/components/guided/CheckMyFundFlow.tsx:17 | the term is the trimmed search, lower-cased character by character, never longer than the search |
| CheckMyFundFlow.MatchingFunds | app/frontend/components/guided/CheckMyFundFlow.tsx:16-23 | no funds for a term under three characters; otherwise exactly the funds whose lower-cased "linea pip societa" contains the term |
| CheckMyFundFlow.Suggestions | app/frontend/components/guided/CheckMyFundFlow.tsx:61 | at most eight suggestions, a prefix of the matches, all of them when there are at most eight |
| CheckMyFundFlow.NarrowingSearch | app/frontend/components/guided/CheckMyFundFlow.tsx:16-23 | typing more characters never brings back a fund the shorter term excluded |
| CheckMyFundFlow.ShortSearchSuggestsNothing | app/frontend/components/guided/CheckMyFundFlow.tsx:18 | a trimmed search under three characters suggests nothing |
| CheckMyFundFlow.CheckState.constructor | app/frontend/components/guided/CheckMyFundFlow.tsx:14-25 | an empty search and no fund |
| CheckMyFundFlow.CheckState.SetSearch | app/frontend/components/guided/CheckMyFundFlow.tsx:55 | typing replaces the search and keeps the fund |
| CheckMyFundFlow.CheckState.HandleSelectFund | app/frontend/components/guided/CheckMyFundFlow.tsx:27-31 | the chosen fund is shown and shared, the search is cleared so no suggestion remains, and the rest of the shared state is untouched |
| CheckMyFundFlow.CompanyHeading | app/frontend/components/guided/CheckMyFundFlow.tsx:167 | the company, else the product name for an FPN, else "Compagnia non indicata" |
| CheckMyFundFlow.CoherenceVerdict | app/frontend/components/guided/CheckMyFundFlow.tsx:207 | the in-line verdict exactly from a score of 60, the other verdict exactly below it |
| CheckMyFundFlow.Clamp | app/frontend/components/guided/CheckMyFundFlow.tsx:248 | the gauge value lies in 0..100 and equals the score when the score already does |
| CheckMyFundFlow.ClampIdempotent | app/frontend/components/guided/CheckMyFundFlow.tsx:248 | clamping twice is clamping once |
| CheckMyFundFlow.ClampMonotone | app/frontend/components/guided/CheckMyFundFlow.tsx:248 | clamping keeps the order of scores |
| CheckMyFundFlow.GaugeColor | app/frontend/components/guided/CheckMyFundFlow.tsx:247-250 | a given colour class wins; otherwise green exactly from 80, amber exactly from 60 to 79, red exactly below 60, on the clamped score |
| CheckMyFundFlow.GaugeSaturates | app/frontend/components/guided/CheckMyFundFlow.tsx:248-250 | scores above 100 colour like 100 and scores below 0 like 0 |
| FeedbackWidget.Validate | app/frontend/components/feedback/FeedbackWidget.tsx:148-157 | never a general error; "Scrivi il tuo feedback." exactly for a blank message, the short-message error exactly for 1 to 9 characters after trimming, no message error exactly from 10 |
| FeedbackWidget.EmptyErrorIffBlank | app/frontend/components/feedback/FeedbackWidget.tsx:150-152 | the empty-message error appears exactly when the message is all whitespace |
| FeedbackWidget.ValidateTrimmed | app/frontend/components/feedback/FeedbackWidget.tsx:169-174 | validating the trimmed form gives the same errors as validating the raw form |
| FeedbackWidget.Trimmed | app/frontend/components/feedback/FeedbackWidget.tsx:169-172 | the trimmed form keeps the type and trims the message |
| FeedbackWidget.PassesIffNoErrors | app/frontend/components/feedback/FeedbackWidget.tsx:174-178 | the submission goes ahead exactly when validation finds no error |
| FeedbackWidget.CanSubmitByDefault | app/frontend/components/feedback/FeedbackWidget.tsx:115-236 | without the setting, or with it off, anyone can submit; with it on, only a logged-in user |
| FeedbackWidget.SubmitCases | app/frontend/components/feedback/FeedbackWidget.tsx:167-226 | the three outcomes of a submission: refused with the validation errors, accepted (sent, closed and reset), failed (sent, kept open, with the general error) |
| FeedbackWidget.SubmitRefused | app/frontend/components/feedback/FeedbackWidget.tsx:174-178 | an invalid form sends nothing and changes only the errors, to a message error with no general error |
| FeedbackWidget.SubmitSends | app/frontend/components/feedback/FeedbackWidget.tsx:179-192 | a valid form sends exactly one payload with the trimmed message (of at least 10 characters) and its type |
| FeedbackWidget.SubmitOutcome | app/frontend/components/feedback/FeedbackWidget.tsx:190-222 | success closes and resets the dialog; a 401 failure shows the login-required error, any other failure the send-failed error, keeping the form |
| FeedbackWidget.SubmitKeepsValid | app/frontend/components/feedback/FeedbackWidget.tsx:167-226 | every payload ever sent has a trimmed message of at least 10 characters, and a closed dialog holds the initial form |
| FeedbackWidget.Widget.constructor | app/frontend/components/feedback/FeedbackWidget.tsx:117-120 | closed, initial form, no errors, nothing sent, not submitting |
| FeedbackWidget.Widget.SetOpen | app/frontend/components/feedback/FeedbackWidget.tsx:122-127 | closing resets the form and errors, opening keeps them, and nothing else changes |
| FeedbackWidget.Widget.SetMessage | app/frontend/components/feedback/FeedbackWidget.tsx:143-146 | only the message field changes |
| FeedbackWidget.Widget.SetFeedbackType | app/frontend/components/feedback/FeedbackWidget.tsx:143-146 | only the type field changes |
| FeedbackWidget.Widget.HandleSubmit | app/frontend/components/feedback/FeedbackWidget.tsx:167-226 | the new dialog state is `Submit` of the old one, and the widget is no longer submitting |
| AuthRoutes.PlanText | app/backend/routes/auth.py:217 | `str(plan or "free")`: the plan when it is non-empty, else "free" |
| AuthRoutes.SpacesToDashes | app/backend/routes/auth.py:217 | `replace(" ", "-")`: same length, no space left, every other character kept |
| AuthRoutes.NormalizePlan | app/backend/routes/auth.py:217-220 | the result is always "free" or "full-access", and "full-access" exactly when the trimmed, lower-cased, dashed plan text is "full-access" |
| AuthRoutes.NormalizeMissingPlan | app/backend/routes/auth.py:217 | a missing or empty plan normalises to "free" |
| AuthRoutes.NormalizeTitleCase | app/backend/routes/auth.py:217-219 | "Full Access" normalises to "full-access" |
| AuthRoutes.NormalizePlanIdempotent | app/backend/routes/auth.py:217-220 | normalising a normalised plan changes nothing |
| AuthRoutes.NormalizeKnown | app/backend/routes/auth.py:218 | the two known plans normalise to themselves |
| AuthRoutes.NormalizePlanCaseInsensitive | app/backend/routes/auth.py:217 | upper-casing the plan text does not change its normalisation |
| AuthRoutes.Me | app/backend/routes/auth.py:199-221 | 401 exactly without a session user; otherwise the session user with only its plan replaced, by a known plan taken from the stored profile when the lookup finds one with a plan, else from the session, lookup failures included |
| AuthRoutes.SessionCookie | app/backend/routes/auth.py:187-195 | the cookie "session" holds the token, is http-only for 7 days (604800 s), and is secure and strict exactly in production, lax otherwise |
| AuthRoutes.ProductionAnyCase | app/backend/routes/auth.py:187 | the production test ignores the case of the environment name |
| AuthRoutes.OAuthCallback | app/backend/routes/auth.py:65-71 | a 500 error exactly when the frontend base URL is not configured; otherwise the session cookie for the exchanged token |
| AuthRoutes.RolesOf | app/backend/routes/auth.py:278 | the session roles when non-empty, else ["user"], never empty |
| AuthRoutes.UpgradeClaims | app/backend/routes/auth.py:276-298 | the claims copy the user's identity, carry the roles and the "full-access" plan, are issued now and expire after the configured minutes, with audience and issuer exactly when configured and non-empty |
| AuthRoutes.UpgradeLifetime | app/backend/routes/auth.py:266-277 | the token lives the configured number of minutes, 60 minutes without a JWT configuration |
| AuthRoutes.StoreStep | app/backend/routes/auth.py:239-263 | a 400 exactly when no profile exists and the session has no email; otherwise a 500 only for a store failure other than missing credentials, which are skipped |
| AuthRoutes.FakeUpgrade | app/backend/routes/auth.py:231-315 | 401 without a session user; otherwise fails exactly when the store step does, and on success returns plan "full-access", the token signed over the upgrade claims with the configured or default secret and algorithm, and the session cookie holding that token |
| AuthRoutes.ListProviders | app/backend/routes/auth.py:318-330 | the provider names in configuration order, and for each the same name and scopes |
| FirestoreProvider.ProcessEnv.constructor | app/backend/providers/firestore.py:26 | the process environment starts as the given variables |
| FirestoreProvider.Getenv | app/backend/providers/firestore.py:30-34 | `os.getenv`: a value exactly for a set variable, and then that variable's value |
| FirestoreProvider.Unquote | app/backend/providers/firestore.py:72 | after stripping double and then single quotes, no single quote remains at either end |
| FirestoreProvider.EnvLine | app/backend/providers/firestore.py:66-73 | a value comes only from a non-blank, non-comment line containing "=", and never has a single quote at either end |
| FirestoreProvider.EnvLineAssignment | app/backend/providers/firestore.py:67-72 | a line "KEY=value" for the credentials key yields the unquoted value |
| FirestoreProvider.EnvLinePlainRoundTrip | app/backend/providers/firestore.py:67-72 | writing `KEY=value` and reading it back gives the value, for a value without quotes or edge whitespace |
| FirestoreProvider.EnvLineQuotedRoundTrip | app/backend/providers/firestore.py:67-72 | writing `KEY="value"` and reading it back gives the value without the quotes |
| FirestoreProvider.OverrideCredentials | app/backend/providers/firestore.py:19-77 | in a GCP managed environment the credentials variable is removed; otherwise it is set from the first env file that assigns it, and left as it was when none does; no other variable changes |
| FirestoreProvider.ResolveProjectId | app/backend/providers/firestore.py:84-96 | the first non-empty of `APP_GOOGLE_PROJECT_ID`, the settings value and `GOOGLE_PROJECT_ID`, else the project inferred from the credentials |
| FirestoreProvider.EmptyProjectVariableIsUnset | app/backend/providers/firestore.py:88 | a project variable set to the empty string counts as unset |
| FirestoreProvider.ResolveDatabaseId | app/backend/providers/firestore.py:99-119 | the first non-empty of the two database variables, else a configured id other than "(default)", else the settings' database id or "(default)"; raises exactly when the settings have a database section without a Firestore part |
| FirestoreProvider.PlaceholderIsUnset | app/backend/providers/firestore.py:111-112 | a configured "(default)" database resolves as if nothing were configured |
| FirestoreProvider.EmulatorEnvironment | app/backend/providers/firestore.py:122-146 | with the emulator off both emulator variables are removed and nothing else changes; with it on the host variable is set from the configuration only when not already set |
| FirestoreProvider.EmulatorEnvironmentIdempotent | app/backend/providers/firestore.py:122-146 | adjusting the emulator variables twice is adjusting them once |
| FirestoreProvider.EnsureEmulatorEnvironment | app/backend/providers/firestore.py:122-146 | the process variables become `EmulatorEnvironment` of the old ones |
| FirestoreProvider.ClientCache.constructor | app/backend/providers/firestore.py:304-314 | no client is cached and none has been built |
| FirestoreProvider.RepoFallbackValue | app/backend/providers/firestore.py:192-217 | a value taken from the repository `.env` files by the fallback is never empty |
| FirestoreProvider.FallbackReadsLikeOverride | app/backend/providers/firestore.py:199-217 | over the same files the fallback takes the value the import-time override takes whenever that value is non-empty, and nothing when the override finds nothing |
| FirestoreProvider.FirstExisting | app/backend/providers/firestore.py:268-278 | the chosen candidate is a listed path that exists, and there is none exactly when no listed path exists |
| FirestoreProvider.CredentialsFallback | app/backend/providers/firestore.py:149-278 | in a GCP managed environment the variables are unchanged; otherwise only the credentials variable may change |
| FirestoreProvider.FallbackFindsCredentials | app/backend/providers/firestore.py:220-278 | outside GCP, when some candidate file exists, the credentials variable ends up naming an existing file |
| FirestoreProvider.FallbackPrefersRepoValue | app/backend/providers/firestore.py:199-226 | a non-empty repository value that names an existing file becomes the credentials variable, whatever it held before |
| FirestoreProvider.FallbackKeepsValidVariable | app/backend/providers/firestore.py:219-226 | without a repository value, a credentials variable that names an existing file is left as it is |
| FirestoreProvider.FallbackKeepsResolution | app/backend/providers/firestore.py:84-119 | the fallback changes neither the resolved project nor the resolved database |
| FirestoreProvider.EnsureCredentialsFallback | app/backend/providers/firestore.py:149-278 | the process variables become `CredentialsFallback` of the old ones |
| FirestoreProvider.ClientCache.GetFirestoreClient | app/backend/providers/firestore.py:304-329 | a cached client is returned with nothing else done; otherwise the emulator variables are adjusted, the credentials fallback writes the credentials variable, and a client for the resolved project (and database, when the library accepts one) is built once and cached; a raising resolution caches nothing |
| FirestoreProvider.ClientCache.ResetFirestoreClient | app/backend/providers/firestore.py:332-336 | the cache is emptied, so the next request builds a new client |
| FirestoreProvider.GetCollectionName | app/backend/providers/firestore.py:339-347 | the configured collection name for the key when there is a Firestore configuration holding it, else the default |
| FirestoreProvider.CollectionNameDefault | app/backend/providers/firestore.py:339-347 | a name other than the default always comes from the configuration |
| AuthClient.ApiBase | app/frontend/auth.tsx:13-14 | `VITE_API_BASE` when set and non-empty, else "http://localhost:8000"; never empty |
| AuthClient.MeRequest | app/frontend/auth.tsx:16-33 | a GET of `/auth/me` with cookies and JSON accepted, carrying "Bearer token" exactly when a non-empty token is given |
| AuthClient.MeResult | app/frontend/auth.tsx:30-44 | a user exactly when the response is OK and its body is a user object, and then that user |
| AuthClient.MeResultFailuresAgree | app/frontend/auth.tsx:37-44 | a non-OK status gives no user, just as a network error does |
| AuthClient.LogoutRequest | app/frontend/auth.tsx:178-185 | a POST of `/auth/logout` with cookies, the XMLHttpRequest marker and JSON accepted, and no Authorization header |
| AuthClient.ExpectedOrigins | app/frontend/auth.tsx:70-74 | three origins, the first of them the API's own |
| AuthClient.OwnOriginAccepted | app/frontend/auth.tsx:79-81 | messages from the API's own origin are accepted |
| AuthClient.PlainOriginOnly | app/frontend/auth.tsx:73-81 | when the API origin names neither loopback spelling, exactly its own origin is accepted |
| AuthClient.LoopbackAliases | app/frontend/auth.tsx:73-74 | "localhost" and "127.0.0.1" are each accepted for the other, same scheme and port |
| AuthClient.Utf8 | app/frontend/auth.tsx:130 | each character is one to four bytes, one exactly for ASCII, which is its own code |
| AuthClient.HexValue | app/frontend/auth.tsx:130 | a hex digit's value is below 16 and maps back to the same digit |
| AuthClient.Escape | app/frontend/auth.tsx:130 | a byte escapes to "%" and two hex digits whose value is the byte |
| AuthClient.EscapeAll | app/frontend/auth.tsx:130 | three characters per byte, all URI-safe |
| AuthClient.EncodeChar | app/frontend/auth.tsx:130 | unreserved characters are kept, every other becomes percent escapes, all URI-safe |
| AuthClient.EncodeUriComponent | app/frontend/auth.tsx:130 | the encoding is at least as long as the text and contains only URI-safe characters |
| AuthClient.EncodeUnreserved | app/frontend/auth.tsx:130 | text of unreserved characters encodes to itself |
| AuthClient.DecodeEncodedChar | app/frontend/auth.tsx:130 | an encoded ASCII character decodes back to itself, whatever follows |
| AuthClient.DecodeEncode | app/frontend/auth.tsx:130 | decoding the encoding of ASCII text gives the text back |
| AuthClient.LoginUrl | app/frontend/auth.tsx:126-130 | the login URL starts with the API base and `/auth/google/login?redirect=` |
| AuthClient.LoginUrlRedirect | app/frontend/auth.tsx:129-130 | the redirect parameter is the encoded window origin, cannot break out of its parameter (no "&", "#" or "="), and decodes back to the origin |
| AuthClient.SafeHasNoDelimiters | app/frontend/auth.tsx:130 | URI-safe text contains none of the query delimiters |
| AuthClient.AuthProvider.constructor | app/frontend/auth.tsx:47-52 | no user, loading, mounted, nothing navigated |
| AuthClient.AuthProvider.InitialLoad | app/frontend/auth.tsx:51-57 | the first request is the cookie-only `/auth/me`; while mounted the user becomes its result and loading ends; after unmounting nothing changes |
| AuthClient.AuthProvider.Unmount | app/frontend/auth.tsx:120-123 | the provider is no longer mounted and nothing else changes |
| AuthClient.AuthProvider.OnMessage | app/frontend/auth.tsx:60-117 | a message from another origin, or not an OAuth success, is ignored; otherwise a non-empty token is stored, `/auth/me` is called with it, and the user is replaced only when that call returns one |
| AuthClient.AuthProvider.Login | app/frontend/auth.tsx:126-148 | the login URL is built; when the popup is blocked the page navigates to it, otherwise nothing changes |
| AuthClient.AuthProvider.Logout | app/frontend/auth.tsx:176-190 | the logout request is sent and the user cleared whatever its outcome; nothing else changes |
| AuthClient.UseAuth | app/frontend/auth.tsx:199-203 | the context inside a provider, the fixed error outside one |

## Left out

- File system and process I/O: the script's reads of the CSV files and the writing of the generated module are not modelled. File contents are parameters (`Option<string>` when a file may be missing). `ReadAndMap` takes the parsed rows of the two tables.
- The text emission of the generated TypeScript module (`buildBackupTsContent`) is not modelled. Only its id scheme is (`FundIds`).
- `CsvMerge.MergeRow`: requires at least two columns in the row of the returns table. The script throws a TypeError on a shorter row, and `ReadAndMap` returns that error before calling it; a shorter row whose key the costs table lacks is keyed and skipped, as in the script.
- `CsvMerge.MergeTablesPreorder`, `CsvMerge.MergedAndSortedOrder`: hold only when every register number that the join reaches parses. With a NaN register number the source comparator returns NaN, which the sort treats as 0. That comparator is not a consistent order, and the engine's result is then implementation-defined.
- `typeOrder[t] || 999` is modelled for the three fund types and any other text. Property names inherited from `Object.prototype` are not modelled.
- In-place `Array.prototype.sort` is modelled as a value: a stable insertion sort under the comparator read as "may precede". Aliasing of the sorted array is not modelled.
- Locale-sensitive behaviour is modelled on ASCII. `localeCompare` becomes plain code-point order, so the dashboard's text sort in the model is not the browser's locale collation (which, for example, ignores case at the first level). `toLowerCase`/`toUpperCase` become ASCII case mapping, which differs from Unicode for letters such as the Kelvin sign. JavaScript `trim`, the regex class `\s` and Python `str.strip()` become ASCII whitespace.
- Lengths are counted in characters, not UTF-16 code units. This affects `substring(0, 20)`, `slice(0, maxLength - 3)` and the 3- and 10-character minimums.
- Fund figures are exact rationals (`real`). Floating-point rounding, NaN and `Math.round` of non-integral values are not modelled. A NaN horizon is not representable.
- `FundConfig.CoherenceScore`: requires a category that is absent, empty or one of the six known categories, as the declared type does. An unknown string would give `undefined` from the risk table and a NaN score.
- Rendering and styling are not modelled: JSX, Tailwind classes, animations, charts, `toFixed` formatting and the `isMobile`/resize listener.
- The dashboard's theme and view state are not modelled, nor the company and category option lists (App.tsx:69-82).
- The Escape-key listener of the detail modal is modelled only as the key test `ClosesOnKey`.
- The select inputs of the check-my-fund flow for age and horizon are not modelled. They only write the profile through `SetProfile`.
- React batching and the asynchrony of state updates: every handler is one atomic method.
- Feedback widget: the payload's page URL, user agent and page metadata are not modelled; the toast notifications and console logging are not modelled either.
- Feedback widget: the 400 ms timer that closes the dialog and requests a login after a 401 is not modelled.
- `FeedbackWidget.Widget.HandleSubmit`: states the new state as `Submit` of the old one. Preservation of `Valid` is stated on `Submit` by the lemma `FeedbackWidget.SubmitKeepsValid` rather than as an `old(Valid()) ==> Valid()` clause.
- `backend.services.auth_service` is not part of this model. Its functions (`build_login_url`, `exchange_code`, `get_current_user`, `logout_user`, `get_provider`) become parameters: the session user, the exchanged token and the provider table. The OAuth state rule, token verification and expiry checks therefore are not modelled. The `/login` and `/logout` routes only forward to that service and are not modelled.
- `user_service` is not part of this model. Its lookups and writes become outcome parameters: found, not found, or the error raised.
- `jwt.encode` is the parameter `sign`. The token is whatever it returns for the claims, secret and algorithm.
- The HTML and JavaScript page returned by the OAuth callback (auth.py:73-174) is transport and is not modelled. That covers the `urlparse` of the frontend URL and the `postMessage` script; only the 500 guard and the cookie policy are modelled.
- `_ensure_credentials_fallback` (firestore.py:149-293) is modelled up to its writes of `GOOGLE_APPLICATION_CREDENTIALS`. The parse of the credentials JSON and the project-id comparison that follow (firestore.py:280-293) only log, and are not modelled.
- The `.env` file paths and the credentials candidate paths, both built from `__file__`, are not modelled. The files are a parameter holding each file's lines, or None when missing or unreadable. The candidates are a parameter listing the paths in order, taken as already normalised, so `os.path.normpath` is not modelled. `os.path.exists` is membership in the parameter `existing`.
- The Firestore client library is not modelled. Building a client is a record of its project, database and build number; `acceptsDatabase` stands for the `TypeError` raised by library versions without the `database` argument. The project inferred by `firestore.Client().project` is a parameter.
- Logging, on every side, is not modelled.
- The popup's 200 ms polling interval and 60 s timeout in `login` (auth.tsx:150-173) are not modelled. Neither is the window geometry of the popup.
- `new URL(API_BASE).origin` is a parameter (`apiOrigin`), None when the URL does not parse; the handler's `try` then ignores the message.
- `AuthClient.DecodeEncode`: the round trip of `encodeURIComponent` is proved for ASCII text. The decoder reads single-byte escapes only, so multi-byte UTF-8 sequences are not decoded.

## Findings

| source | as written | input that shows it | evidently intended | confidence | as-written member | corrected member |
|---|---|---|---|---|---|---|
| scripts/generate_fp_to_ts.js:314-317 | the n-th row with a given base id gets that base id with suffix n, but the counter only tracks base ids, so the suffixed id can equal another row's base id | rows with sub-fund names "a", "a" and "a 2" under register number 1 get ids "1-a", "1-a-2" and "1-a-2" (the names meet the condition by `CollidingNames`) | every fund gets a distinct id, as the comment above the counter says | not executed | FundIds.AssignIdsCollide | FundIds.AssignUniqueIds |
