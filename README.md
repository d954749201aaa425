# NBA lineup pipeline — a Dafny model of its fetch-and-merge engine

The repository collects NBA lineup statistics from the `stats.nba.com` API and
writes them to CSV files. It has two parts.

- The `pipeline` package:
  - a retry caller with a global call counter (`api_call_with_retry`);
  - a column-claiming outer merge of the seven lineup measure types (`merge_measure_types`);
  - a lineup sweep over season type × group size × per-mode (`fetch_and_merge_lineups`);
  - seven supplementary sweep fetchers (on/off court, clutch, play types, hustle, player
    tracking, defense tracking, estimated metrics);
  - an orchestrator (`run`) that sequences the sections, classifies each as succeeded or
    failed, counts rows and lists the files written.
- The older stand-alone script `fetchlineups.py`: a second retry loop (`get_lineups`), the
  Base/Advanced inner-merge case analysis per team and season type, and post-processing.

This project models that engine in Dafny and proves what it promises. Every API endpoint
becomes an oracle `World = (nat, Request) -> Reply`: the n-th request the process sends sees
`world(n, req)`, which is `Fail` (the endpoint raised) or `Ok(tables)`.

**Modules, in dependency order:**

- `Config` — the catalog constants.
- `Text` — `str.split`, `str.join` and the character removal of the output file name.
- `Frames` — DataFrames as `Frame(columns, rows)`, with column assignment and `pd.concat`.
- `Merge` — `pd.merge(..., how="outer")` and `merge_measure_types`.
- `Ordering` — `sort_values` over several columns.
- `Teams` — the team-name cache and the sorted team ids.
- `Retry` — the call counter, `api_call_with_retry`, `pace`, `health_check`; class `Api`.
- `Sweep` — the loop shared by the supplementary fetchers.
- `Lineups` — `fetch_all_lineups` and `fetch_and_merge_lineups`.
- `Supplementary` — the seven supplementary fetchers.
- `Orchestrator` — `_run_section`, `_print_summary` and `run`.
- `Legacy` — `fetchlineups.py`; class `LegacyScript`.

**How state is modelled:**

- Code that updates state is modelled by methods on a class:
  - `Retry.Api` holds the call counter, the backoff sleeps, the `pace()` calls and the longer
    endpoint pauses;
  - `Teams.TeamDirectory` holds the lazily filled team map;
  - `Legacy.LegacyScript` holds the requests sent and the sleeps taken.
- Each such method is proved against a function of the inputs and the old state. The
  properties are proved about those functions.

## Model

| member | source | states |
|---|---|---|
| Config.CatalogShape | pipeline/config.py:22-103 | 7 measure types beginning with Base and Advanced; group sizes exactly [5, 3, 2]; 12 tracking measure types, 6 defense categories, 11 play types, 3 per-modes; season types Regular Season then Playoffs; `API_RETRIES` > 0; no catalog repeats a value |
| Text.Split | pipeline/fetch_lineups.py:187-192 | `str.split` always yields at least one piece |
| Text.JoinSplit | pipeline/fetch_lineups.py:187-192 | joining the pieces of a split with the separator gives back the original string |
| Text.SplitPiecesFree | pipeline/fetch_lineups.py:187-192 | no piece of a split contains the separator |
| Text.RemoveChar | fetchlineups.py:221 | `replace("-", "")` leaves no dash, keeps every other character, and never lengthens the string |
| Text.RemoveCharAppend | fetchlineups.py:221 | removal from a concatenation is the concatenation of the removals, so characters keep their order |
| Text.RemoveCharAround | fetchlineups.py:221 | one dash between two strings is dropped, and removal goes on in each of them |
| Text.RemoveCharOne | fetchlineups.py:221 | a single character is dropped when it is the one removed, and kept otherwise; with `RemoveCharAppend` this fixes the result for every string |
| Text.RemoveCharCount | fetchlineups.py:221 | every other character is kept as often as it occurs, and the removed one not at all |
| Text.RemoveCharAbsent | fetchlineups.py:221 | a string without the character is left as it is |
| Text.NatToString | pipeline/fetch_lineups.py:215 | `str(n)` of a group size is a non-empty run of decimal digits |
| Text.NatToStringValue | pipeline/fetch_lineups.py:215 | reading the digits back gives n: the decimal rendering is exact |
| Text.NatToStringLeading | pipeline/fetch_lineups.py:215 | only zero starts with `0`: the rendering has no padding |
| Text.NatToStringInjective | pipeline/fetch_lineups.py:215 | different numbers are written differently |
| Frames.Restrict | pipeline/utils.py:171 | a row cut down to some columns keeps their cells, reads `Null` elsewhere, and holds nothing outside them |
| Frames.MapColumn | pipeline/fetch_lineups.py:183-192 | `df[c] = fn(row)` keeps the row count; every row's `c` is `fn` of the old row; every other cell is unchanged; a new column goes at the end |
| Frames.MapKeepsTagged | pipeline/fetch_lineups.py:183-192 | writing a column that is not a tag name keeps every tag |
| Frames.SetColumn | pipeline/fetch_lineups.py:178-180 | `df[c] = v` makes `c` equal `v` in every row and changes no other cell or row count |
| Frames.Tag | pipeline/fetch_supplementary.py:237-240 | a sequence of constant-column assignments keeps the row count and every existing column |
| Frames.TagKeeps | pipeline/fetch_supplementary.py:237-240 | tagging never changes a cell of a column outside the tag names |
| Frames.TagKeepsConstant | fetchlineups.py:151-152 | a column constant before tagging stays constant when the tags do not name it |
| Frames.TagSetsAll | pipeline/fetch_supplementary.py:237-240 | with distinct tag names, every row carries every tag value |
| Frames.TagColumns | pipeline/fetch_supplementary.py:237-240 | tagging adds exactly the tag names to the columns |
| Frames.UnionColumns | pipeline/fetch_supplementary.py:84 | concatenated columns: those of the first frame in order, then the new ones, and nothing else |
| Frames.ConcatPair | pipeline/fetch_supplementary.py:84 | `pd.concat([a, b])` holds the rows of `a` then those of `b`, under the columns of both |
| Frames.ConcatSnoc | fetchlineups.py:193 | concatenating one more frame adds its new columns and appends its rows |
| Frames.ConcatLen | pipeline/fetch_lineups.py:207 | the row count of a concatenation is the sum of the row counts |
| Frames.ConcatColumns | pipeline/fetch_lineups.py:207 | every column of every concatenated frame is a column of the result |
| Frames.SumLenZero | pipeline/fetch_supplementary.py:100-103 | the summed row count is zero exactly when every frame has no rows |
| Merge.Matching | pipeline/utils.py:177 | the right rows a left row joins with are exactly those of the same key |
| Merge.JoinOne | pipeline/utils.py:177 | an outer join turns a left row into at least one row, each keeping its key; each is the row alone (key absent on the right) or the row overlaid with a right row of the same key |
| Merge.Unmatched | pipeline/utils.py:177 | the right rows an outer join adds on their own are exactly those whose key the left side lacks |
| Merge.JoinedFrom | pipeline/utils.py:177 | every outer-join row is a left row with a same-key right row, a left row with no match, or a right row with no match |
| Merge.JoinKeys | pipeline/utils.py:177 | the outer join's key values are the union of both sides' key values |
| Merge.JoinLeftLen | pipeline/utils.py:177 | an outer join keeps at least one row per left row |
| Merge.FoldShape | pipeline/utils.py:177 | the `reduce` of outer joins holds the key, exactly the columns of all frames, rows within those columns, and at least the first frame's row count |
| Merge.FoldKeys | pipeline/utils.py:177 | the fold's key values are the union of all the frames' key values |
| Merge.FoldCells | pipeline/utils.py:177 | every cell of a column a frame brings into the fold comes from that frame's row of the same key, or is `Null` when that frame lacks the key |
| Merge.NewColumns | pipeline/utils.py:168 | `new_cols`: the columns not yet seen, plus the key |
| Merge.Project | pipeline/utils.py:171 | `df[new_cols]` has exactly those columns and the same number of rows |
| Merge.ProjectKeys | pipeline/utils.py:171 | a projection that keeps the key keeps the key values |
| Merge.Contributors | pipeline/utils.py:163-172 | the positions of the measure types that take part (present, not empty, holding the key) are ascending, and every such position is listed |
| Merge.ClaimSeen | pipeline/utils.py:161-172 | `seen_cols` ends as the key plus every column of every measure type that took part |
| Merge.ClaimFrames | pipeline/utils.py:161-172 | the kept frames match the participating measure types one to one, in order; each is that frame cut to the key plus the columns no earlier participant held |
| Merge.ClaimJoinable | pipeline/utils.py:161-172 | the kept frames all hold the key and share no other column |
| Merge.MergedEmpty | pipeline/utils.py:157-158 | the merge is empty exactly when no measure type takes part, covering both the empty dictionary and a dictionary of skipped frames |
| Merge.MergedColumns | pipeline/utils.py:161-177 | the merged columns are exactly the columns of the measure types that take part |
| Merge.MergedKeys | pipeline/utils.py:164-177 | the merged key values are exactly the union of the participating frames' key values |
| Merge.FirstWriterWins | pipeline/utils.py:161-177 | a non-key column belongs to the first participant that holds it: every merged cell of that column comes from that participant's frame, matched by key |
| Merge.MergeMeasureTypes | pipeline/utils.py:141-184 | the claiming loop then the fold of outer joins computes `Merged`, about which the lemmas above are proved |
| Ordering.StrLeqTotal | pipeline/fetch_lineups.py:213 | Python string comparison is total |
| Ordering.StrLeqTrans | pipeline/fetch_lineups.py:213 | Python string comparison is transitive |
| Ordering.RowLeqTotal | pipeline/fetch_lineups.py:213 | the multi-column row order, with missing values last, is total |
| Ordering.RowLeqTrans | pipeline/fetch_lineups.py:213 | the multi-column row order is transitive |
| Ordering.InsertRow | pipeline/fetch_lineups.py:213 | inserting a row into sorted rows keeps them sorted and adds exactly that row |
| Ordering.SortRows | pipeline/fetch_lineups.py:213 | sorting yields a sorted permutation of the rows |
| Ordering.SortValues | pipeline/fetch_lineups.py:213 | `sort_values` keeps the columns and the row count, and reorders the rows into a sorted permutation |
| Teams.TeamMap | pipeline/utils.py:272 | the id-to-name map has exactly the listed ids |
| Teams.TeamMapLast | pipeline/utils.py:272 | a dictionary comprehension gives each id the name of its last record |
| Teams.TeamNameSpec | pipeline/utils.py:256-273 | `get_team_name` gives a listed id the full name of its last record, and an unlisted id `"Unknown"` |
| Teams.TeamDirectory.GetTeamName | pipeline/utils.py:269-273 | the first lookup fills the cache with the team map; every lookup returns the name `TeamName` gives |
| Teams.InsertInt | pipeline/utils.py:284 | insertion keeps the ids sorted and adds exactly one element |
| Teams.SortInts | pipeline/utils.py:284 | `sorted` yields an ascending permutation |
| Teams.Ids | pipeline/utils.py:284 | the list comprehension of ids keeps the list order |
| Teams.AllTeamIds | pipeline/utils.py:276-284 | `get_all_team_ids` is ascending and holds every listed id as often as listed |
| Teams.AllTeamIdsListed | pipeline/utils.py:276-284 | an id is among the sorted ids exactly when some record lists it |
| Retry.Backoffs | pipeline/utils.py:110 | the i-th backoff wait is `base * 2^i` |
| Retry.FirstOk | pipeline/utils.py:102-107 | the first successful attempt: all attempts before it fail, and it succeeds when it is within range |
| Retry.FirstOkUnique | pipeline/utils.py:102-107 | only one offset has those two properties |
| Retry.RetrySpec | pipeline/utils.py:74-133 | with `retries <= 0`, nothing is attempted and the call raises; otherwise it makes 1 to `retries` attempts, all but the last failing. A return carries the last attempt's tables; a raise follows `retries` failed attempts. Exactly one backoff wait `base * 2^i` follows each attempt but the last |
| Retry.SucceedsAfterFailures | pipeline/utils.py:102-120 | k failures then a success: k + 1 attempts, that attempt's tables, and the k backoff waits |
| Retry.ExhaustedRaises | pipeline/utils.py:111-130 | `retries` failures: the call raises after `retries` attempts and `retries - 1` waits, with no sleep after the last |
| Retry.DefaultExhaustion | pipeline/config.py:101-103 | with the defaults, an exhausted call makes 5 attempts and sleeps 3, 6, 12 and 24 seconds |
| Retry.Api.CallCount | pipeline/utils.py:59-61 | `get_api_call_count` reads the counter |
| Retry.Api.IncrementCallCount | pipeline/utils.py:64-66 | the counter goes up by exactly one |
| Retry.Api.Pace | pipeline/utils.py:292-298 | one more short pacing sleep |
| Retry.Api.Pause | pipeline/fetch_lineups.py:197 | one more `API_ENDPOINT_DELAY` pause |
| Retry.Api.CallWithRetry | pipeline/utils.py:74-133 | the loop's outcome, counter increase and sleeps are exactly those of `Retry`; the counter is raised before each attempt is sent |
| Retry.Api.HealthCheck | pipeline/utils.py:192-228 | three attempts with a 2-second base wait; healthy exactly when the call returned, even with 0 rows; unhealthy only when it raised |
| Sweep.RunCalls | pipeline/fetch_supplementary.py:131-161 | one outcome per request, and the counter never goes back |
| Sweep.RunCallsBounds | pipeline/config.py:101 | each request of a sweep costs between 1 and `API_RETRIES` attempts |
| Sweep.RunCallsAppend | pipeline/fetch_supplementary.py:131-161 | two runs of calls in a row are the first run followed by the second, counter and waits included |
| Sweep.RunCallsAt | pipeline/fetch_supplementary.py:131-161 | outcome i is the retry call for request i, started where request i - 1 left the counter |
| Sweep.Requests | pipeline/fetch_supplementary.py:131-151 | one request per point, in sweep order |
| Sweep.FirstTableAccepted | pipeline/fetch_supplementary.py:153-156 | a point is accepted exactly when its call returned a non-empty first table; that table keeps its rows and carries every tag of its point |
| Sweep.CollectSnoc | pipeline/fetch_supplementary.py:156 | each point appends its accepted table, if any, at the end |
| Sweep.CollectSources | pipeline/fetch_supplementary.py:131-161 | only accepted points contribute, each exactly once, in ascending point order, and every accepted point does |
| Sweep.CollectTagged | pipeline/fetch_supplementary.py:153-156 | every collected table is not empty and carries the exact axis values of its point |
| Sweep.NonEmpty | pipeline/fetch_supplementary.py:164 | the filter keeps exactly the non-empty tables |
| Sweep.FinishSpec | pipeline/fetch_supplementary.py:164-169 | a fetcher returns `None` exactly when every collected table is empty; otherwise its table holds the rows of all non-empty collected tables |
| Sweep.FinishCollected | pipeline/fetch_supplementary.py:164-169 | a sweep ends with `None` exactly when no point contributed a table with rows |
| Sweep.FirstTablesResult | pipeline/fetch_supplementary.py:153-169 | a single-table sweep returns `None` exactly when no point was accepted; otherwise it returns the accepted tables concatenated in sweep order, with their rows summed |
| Sweep.Pairs | pipeline/fetch_supplementary.py:206-209 | two nested loops visit \|xs\| · \|ys\| points |
| Sweep.PairsAt | pipeline/fetch_supplementary.py:206-209 | the pair `(xs[i], ys[j])` is visited as number `i * \|ys\| + j` |
| Sweep.PairsCover | pipeline/fetch_supplementary.py:206-209 | every visited point is some `(xs[i], ys[j])` |
| Sweep.SweepStep | pipeline/fetch_supplementary.py:131-161 | one point further: one retry call, and its accepted table appended |
| Sweep.SweepPoint | pipeline/fetch_supplementary.py:132-161 | one point: the retry call; its table kept when accepted, nothing kept when the call raised; one `pace()` whatever the outcome |
| Sweep.CollectTables | pipeline/fetch_supplementary.py:131-161 | the loop collects exactly `Collect` of the sweep's outcomes, with one `pace()` per point; an exception at one point does not stop the sweep |
| Lineups.ComboAt | pipeline/fetch_lineups.py:144-146 | 18 combinations; `(SEASON_TYPES[i], GROUP_QUANTITIES[j], PER_MODES[k])` is visited as number `(i * 3 + j) * 3 + k` |
| Lineups.ComboFrom | pipeline/fetch_lineups.py:144-146 | every visited combination is made of catalog values, at its nesting-order position |
| Lineups.CombosCount | pipeline/fetch_lineups.py:137-141 | the number of combinations is \|ST\| · \|GQ\| · \|PM\| = 18 |
| Lineups.LineupTableOutcome | pipeline/fetch_lineups.py:81-112 | a lineup fetch yields a table only from a successful attempt with a non-empty first table, and yields that table; five failed attempts yield `None` |
| Lineups.FetchAllLineups | pipeline/fetch_lineups.py:34-112 | the fetch returns `LineupTable` of its retry call, whose counter and sleeps it takes on |
| Lineups.ComboRequests | pipeline/fetch_lineups.py:158-159 | one request per measure type, in catalog order |
| Lineups.MeasureFramesSpec | pipeline/fetch_lineups.py:157-164 | `measure_frames` holds only non-empty tables, each under its measure type; it is empty exactly when no fetch yielded one |
| Lineups.FetchMeasure | pipeline/fetch_lineups.py:159-162 | one measure type: fetch; keep the frame when present and not empty; one `pace()` |
| Lineups.FetchMeasureFrames | pipeline/fetch_lineups.py:157-162 | all seven measure types in catalog order, one `pace()` each |
| Lineups.PlayersListJoin | pipeline/fetch_lineups.py:187-192 | a lineup's players joined by `" - "` give back its `GROUP_NAME`, and no name contains the separator; a missing name gives `[""]` |
| Lineups.DecorateTagged | pipeline/fetch_lineups.py:178-192 | decoration keeps the rows and every column, and every row carries the combination's `SEASON_TYPE`, `GROUP_QUANTITY` and `PER_MODE` |
| Lineups.DecorateColumns | pipeline/fetch_lineups.py:183-192 | `team` is added exactly when `TEAM_ID` is present, and `players_list` exactly when `GROUP_NAME` is |
| Lineups.DecorateRows | pipeline/fetch_lineups.py:183-192 | in every row, `team` is `get_team_name` of that row's `TEAM_ID`, and `players_list` is that row's split `GROUP_NAME` |
| Lineups.MergedResultSpec | pipeline/fetch_lineups.py:164-192 | a combination contributes exactly when some kept frame holds `GROUP_ID`; its contribution is not empty, holds `GROUP_ID` and carries the combination's tags |
| Lineups.FetchCombo | pipeline/fetch_lineups.py:157-192 | one combination's body computes `ComboResult` of its seven calls, with seven `pace()` calls |
| Lineups.InitialAccumulators | pipeline/fetch_lineups.py:135 | there is one empty accumulator for every group size, and no other |
| Lineups.SweepLineups | pipeline/fetch_lineups.py:135-197 | the accumulators stay exactly the configured group sizes throughout the sweep |
| Lineups.Advance | pipeline/fetch_lineups.py:194-197 | a step keeps the accumulator keys, and the calls and waits continue from the previous combination |
| Lineups.LineupStep | pipeline/fetch_lineups.py:144-197 | one combination further: its calls follow the previous ones, and its contribution goes to its own group size's accumulator |
| Lineups.SweepCallBounds | pipeline/fetch_lineups.py:144-162 | each combination's seven requests cost between 7 and 35 attempts |
| Lineups.ComboKeeps | pipeline/fetch_lineups.py:164-197 | whatever its calls returned, a combination keeps the pause count and the accumulator tagging |
| Lineups.SweepInvariant | pipeline/fetch_lineups.py:164-197 | one pause per contributing combination; every accumulated frame is not empty, holds `GROUP_ID`, and carries its accumulator's group size in every row |
| Lineups.AddCombo | pipeline/fetch_lineups.py:157-197 | a combination that contributes appends its frame to its own group size's accumulator only and pauses once; otherwise nothing changes |
| Lineups.SweepCombos | pipeline/fetch_lineups.py:144-197 | the combination loops match `SweepLineups`, with seven `pace()` calls per combination and one counter increment per combination |
| Lineups.FetchAndMergeLineups | pipeline/fetch_lineups.py:120-226 | every combination in loop order, 126 `pace()` calls in all, `combo_idx` ending at 18; the results are `LineupResults` of the accumulators |
| Lineups.IfPresent | pipeline/fetch_lineups.py:210 | a sort column is listed exactly when the frame has it |
| Frames.Repeat | pipeline/fetch_lineups.py:212 | `[v] * n` has n copies of v; it gives both the lineup sort's `ascending` flags and the legacy script's equal retry sleeps (fetchlineups.py:84-86) |
| Frames.RepeatSnoc | fetchlineups.py:84-86 | one more retry sleep of the same length |
| Lineups.LineupFileDistinct | pipeline/fetch_lineups.py:215 | two group sizes name the same lineup file only when they are equal |
| Lineups.LineupSortKeysSpec | pipeline/fetch_lineups.py:210-213 | the sort keys are the present members of team, SEASON_TYPE, PER_MODE and MIN, in that order; each is ascending except MIN, which is descending; there are keys exactly when one of the four is present |
| Lineups.CombineSpec | pipeline/fetch_lineups.py:207-213 | a group's result holds exactly the rows of its frames as a permutation, with their summed count and all their columns, sorted by the lineup sort keys |
| Lineups.LineupResultsSpec | pipeline/fetch_lineups.py:200-217 | the results hold a group size exactly when its accumulator is not empty; that entry is its frames combined |
| Lineups.CombineAll | pipeline/fetch_lineups.py:202-217 | the results loop computes `LineupResults` over `GROUP_QUANTITIES` |
| Supplementary.ClutchPoints | pipeline/fetch_supplementary.py:131-156 | one clutch point per season type, in catalog order, tagged with it |
| Supplementary.FetchClutch | pipeline/fetch_supplementary.py:117-173 | `fetch_clutch` finishes the collected accepted first tables of its points, with one `pace()` per season type |
| Supplementary.PlayTypePoint | pipeline/fetch_supplementary.py:222-240 | a play-type point's four tag names are distinct |
| Supplementary.PlayTypePointAt | pipeline/fetch_supplementary.py:195-210 | the play-type sweep has 2 · 11 · 2 · 2 = 88 points; season type i, play type j, grouping k and party l form point `((i * 11 + j) * 2 + k) * 2 + l` |
| Supplementary.FetchPlayTypes | pipeline/fetch_supplementary.py:181-263 | `fetch_play_types` finishes the accepted first tables of its 88 points, one `pace()` each |
| Supplementary.TrackingPointAt | pipeline/fetch_supplementary.py:372-382 | the tracking sweep has 2 · 12 · 2 = 48 points, in nesting order |
| Supplementary.FetchTracking | pipeline/fetch_supplementary.py:357-423 | `fetch_tracking` finishes the accepted first tables of its points, one `pace()` each |
| Supplementary.DefensePointAt | pipeline/fetch_supplementary.py:445-450 | the defense sweep has 2 · 6 = 12 points, in nesting order |
| Supplementary.FetchDefenseTracking | pipeline/fetch_supplementary.py:431-483 | `fetch_defense_tracking` finishes the accepted first tables of its points, one `pace()` each |
| Supplementary.EstimatedPoints | pipeline/fetch_supplementary.py:505-519 | one estimated-metrics point per season type, tagged with it |
| Supplementary.FetchEstimatedMetrics | pipeline/fetch_supplementary.py:491-535 | `fetch_estimated_metrics` finishes the accepted first tables, one `pace()` per season type |
| Supplementary.HustlePoints | pipeline/fetch_supplementary.py:288-327 | the hustle calls alternate per season type: the player endpoint, then the team endpoint, each tagged with the season type |
| Supplementary.HustlePoint | pipeline/fetch_supplementary.py:290-327 | one hustle call's table goes only to the list of its endpoint; one `pace()` follows |
| Supplementary.FetchHustle | pipeline/fetch_supplementary.py:271-349 | the player and team results are each finished from their own accepted tables; one `pace()` per call |
| Supplementary.HustlePlayersOnly | pipeline/fetch_supplementary.py:329-349 | the player result depends only on the player calls, and is `None` exactly when no player call was accepted |
| Supplementary.HustleTeamsOnly | pipeline/fetch_supplementary.py:329-349 | the team result depends only on the team calls, and is `None` exactly when no team call was accepted |
| Supplementary.TeamPoints | pipeline/fetch_supplementary.py:55-86 | one on/off point per season type, tagged with the team's name and the season type |
| Supplementary.OnOffTableSpec | pipeline/fetch_supplementary.py:77-87 | a reply contributes exactly when it has at least three tables; its rows are the on-court rows marked "On", then the off-court rows marked "Off", all with the team and season-type tags |
| Supplementary.OnOffRows | pipeline/fetch_supplementary.py:81-86 | concatenating the marked halves keeps the marks in order and adds the tags |
| Supplementary.OnOffSweep | pipeline/fetch_supplementary.py:51-97 | the counter never goes back across the team loop |
| Supplementary.OnOffStep | pipeline/fetch_supplementary.py:51-97 | one team further: its season-type calls follow, and their tables are appended |
| Supplementary.Roster | pipeline/fetch_supplementary.py:49-52 | teams in ascending id order, each named by `get_team_name` |
| Supplementary.OnOffSweepTagged | pipeline/fetch_supplementary.py:51-97 | every collected on/off table came from one of the teams: it carries that team's name and one season type in every row, and every row is marked "On" or "Off" |
| Supplementary.OnOffTeam | pipeline/fetch_supplementary.py:55-97 | one team: one call and one `pace()` per season type, then one pause |
| Supplementary.SweepTeams | pipeline/fetch_supplementary.py:51-97 | the team loop matches `OnOffSweep`, with two `pace()` calls and one pause per team |
| Supplementary.FetchOnOff | pipeline/fetch_supplementary.py:33-109 | `fetch_on_off` finishes the tables of the sweep over the roster in ascending id order |
| Orchestrator.TableRowsAppend | pipeline/main.py:61-65 | DataFrame row counts add up over two runs of values |
| Orchestrator.TableRowsZero | pipeline/main.py:61-65 | the count is zero exactly when every DataFrame among the values has no rows |
| Orchestrator.RunSection | pipeline/main.py:26-79 | a section succeeds exactly when it returned a result whose count is positive, and then reports that count; otherwise, including an exception, it reports `(False, 0)` |
| Orchestrator.SingleTableSection | pipeline/main.py:56-67 | a fetcher's optional table succeeds exactly when it is present with rows, and counts its rows |
| Orchestrator.HustleSection | pipeline/main.py:62-65 | the hustle pair counts the rows of whichever tables are present; `None` elements count nothing |
| Orchestrator.DictValuesRows | pipeline/main.py:58-61 | the lineup dict's DataFrames count the rows accumulated for their group sizes |
| Orchestrator.ResultRows | pipeline/fetch_lineups.py:202-217 | a group size's result holds all its accumulated rows; a missing result means nothing was accumulated |
| Orchestrator.LineupsRows | pipeline/main.py:58-61 | the lineup section counts every row the lineup sweep accumulated, over all group sizes |
| Orchestrator.NamesIndexed | pipeline/main.py:101-102 | succeeded (or failed) lists exactly the entries carrying that flag, at strictly increasing positions: insertion order, nothing left out |
| Orchestrator.NamesPartition | pipeline/main.py:101-102 | every section name is in exactly one of the succeeded and failed lists |
| Orchestrator.TotalRowsZero | pipeline/main.py:100-101 | with `_run_section`'s classification, `total_rows` is zero exactly when no section succeeded |
| Orchestrator.Summarize | pipeline/main.py:87-126 | succeeded and failed together have one name per entry, and the file count is the length of `files_written` |
| Orchestrator.LineupFiles | pipeline/main.py:221-222 | one lineup file per group size, in `GROUP_QUANTITIES` order |
| Orchestrator.LineupFilesDistinct | pipeline/main.py:221-222 | the lineup files listed are all different |
| Orchestrator.SectionFiles | pipeline/main.py:220-288 | a succeeding section adds one path per group size for Lineups, two for Hustle, and one for each other section |
| Orchestrator.PlanSpec | pipeline/main.py:215-288 | Lineups runs exactly when `--supplementary-only` is off; each supplementary section runs exactly when `--lineups-only` is off, last and in fixed order; with both flags set nothing runs; no two sections share a `results` key |
| Orchestrator.PlanShape | pipeline/main.py:215-230 | the plan is Lineups unless `--supplementary-only`, then the seven supplementary sections unless `--lineups-only` |
| Orchestrator.NameInjective | pipeline/main.py:219-286 | different sections use different `results` keys |
| Orchestrator.Record | pipeline/main.py:219-222 | a section adds one `results` entry, and its files only when it succeeded |
| Orchestrator.BooksSpec | pipeline/main.py:215-288 | every executed section writes exactly one `results` entry, in order, from `_run_section` on its outcome; `files_written` holds exactly the files of the sections that succeeded |
| Orchestrator.RunLineups | pipeline/main.py:215-225 | the lineup section is recorded, then one pause |
| Orchestrator.RunOne | pipeline/main.py:242-245 | one section extends the bookkeeping by its `Record` |
| Orchestrator.RunSupplementary | pipeline/main.py:241-288 | the seven sections in order, with a pause after each but the last |
| Orchestrator.Run | pipeline/main.py:179-294 | the health check comes first, with 3 attempts and a 2-second base. In a dry run, a failed check exits 1 and a passing one completes, before any section. Outside a dry run, the result is the bookkeeping and summary of the plan, with one pause after Lineups and after each supplementary section but the last |
| Legacy.IndexOf | fetchlineups.py:15-16 | the position of a dictionary key, or the length when absent |
| Legacy.Put | fetchlineups.py:16 | `d[k] = v`: an existing key keeps its place and takes the new value; a new key goes at the end; keys stay distinct |
| Legacy.PutKeys | fetchlineups.py:16 | an assignment adds exactly its key to the keys |
| Legacy.TeamDictKeys | fetchlineups.py:12-16 | `team_dict`'s keys are exactly the team names |
| Legacy.TeamDictLast | fetchlineups.py:12-16 | each name maps to the id of the last team of that name |
| Legacy.BuildTeamDict | fetchlineups.py:12-16 | the loop builds `TeamDict` |
| Legacy.GetLineupsSpec | fetchlineups.py:19-89 | with `retries <= 0`, nothing is sent and the result is `None`. Otherwise 1 to `retries` requests, all but the last failing, with a `delay` sleep between requests and none after the last. A result comes only from a reply with at least two tables and is its second table tagged with the season type. When every attempt fails the result is `None`, and the call does not raise |
| Legacy.ShortReplyStops | fetchlineups.py:72-80 | a reply with fewer than two tables ends the call with `None` at once, without retrying |
| Legacy.FirstReplyEnds | fetchlineups.py:69-80 | the first reply that does not fail ends the call |
| Legacy.AllFailGivesUp | fetchlineups.py:82-89 | when all attempts fail, the call returns `None` after `retries - 1` sleeps |
| Legacy.AdvancedColumns | fetchlineups.py:130-136 | Advanced keeps `GROUP_ID` and the columns Base lacks, `SEASON_TYPE` excluded, that Advanced really has |
| Legacy.InnerRowsFrom | fetchlineups.py:142-148 | every inner-join row is a Base row combined with an Advanced row of the same key |
| Legacy.InnerRowsKeys | fetchlineups.py:142-148 | the inner join's keys are those the two sides share |
| Legacy.InnerMergeKeys | fetchlineups.py:142-148 | the inner merge has exactly the lineups Base and Advanced share |
| Legacy.InnerMergeColumns | fetchlineups.py:130-148 | the inner merge's columns are Base's plus Advanced's, with `SEASON_TYPE` excluded |
| Legacy.InnerMergeSeasonType | fetchlineups.py:142-148 | every merged row takes its `SEASON_TYPE` from its Base row |
| Legacy.MergeCaseFallbacks | fetchlineups.py:173-189 | without usable Base nothing is contributed, even when Advanced has data; with usable Base and unusable Advanced, Base itself is contributed, tagged with team and team_id |
| Legacy.AdvancedColumnsKeyTwice | fetchlineups.py:130-136 | `cols_to_keep` names `GROUP_ID` at least twice exactly when Advanced has it and Base does not |
| Legacy.MergeCaseKeyMissing | fetchlineups.py:140-165 | when Advanced lacks `GROUP_ID`, the merge raises `KeyError`, which is caught: the script goes on and nothing is contributed |
| Legacy.MergeAbortsWhen | fetchlineups.py:130-165 | with usable frames, the merge raises an error the `except KeyError` does not catch exactly when Advanced has `GROUP_ID` and Base lacks it; nothing is contributed then |
| Legacy.MergeCaseInner | fetchlineups.py:125-156 | with both frames usable and keyed, the contribution has exactly the shared lineups, is absent when they share none, carries the team tags, and has the merged columns plus team and team_id |
| Legacy.MergeCaseSeasonType | fetchlineups.py:125-179 | a contribution keeps Base's `SEASON_TYPE` in every row |
| Legacy.ConcatWellFormed | fetchlineups.py:193 | a concatenation has no repeated columns, and its rows lie within its columns |
| Legacy.ConcatGrow | fetchlineups.py:192-193 | repeated `pd.concat([league_lineup, part])` from an empty frame equals one concatenation of all the parts |
| Legacy.ServesLikeGetLineups | fetchlineups.py:19-89 | each of the script's `get_lineups` calls sends one to three requests and returns, if anything, a frame of its season type |
| Legacy.SeasonStepFetch | fetchlineups.py:106-197 | one season type adds one fetch of that type, after two to six requests, and halts the script exactly when that fetch's merge aborts |
| Legacy.SeasonStepsHalted | fetchlineups.py:106-197 | once the script has halted, no season type does anything more |
| Legacy.TeamStepHalted | fetchlineups.py:101-203 | once the script has halted, no team does anything more |
| Legacy.TeamStepFetches | fetchlineups.py:101-203 | one team adds a Regular Season fetch and, unless its merge aborts, a Playoffs fetch, after at most twelve requests, and at least four when the script goes on; the script halts exactly at an aborting fetch |
| Legacy.LeagueSweepFetches | fetchlineups.py:101-203 | fetch k of the sweep is of season type k % 2; the sweep halts exactly at the first fetch whose merge aborts; until then it makes two fetches and four to twelve requests per team |
| Legacy.LeagueSweepHalted | fetchlineups.py:101-203 | once a team has halted the script, the remaining teams change nothing |
| Legacy.MergeCaseContributes | fetchlineups.py:150-194 | every contribution is not empty and carries the team's tags |
| Legacy.PartsOrdered | fetchlineups.py:192-194 | `league_lineup` grows only with non-empty results, in team then season-type order; each part is one team's contribution for one season type, tagged with it |
| Legacy.LeagueRows | fetchlineups.py:101-203 | after the sweep, `league_lineup` has as many rows as its parts together; each row belongs to a team of the dictionary, with its name and id, and to one of the two season types |
| Legacy.OutputFilename | fetchlineups.py:221 | the output file is the fixed name under `data`, around the season with its dashes removed |
| Legacy.OutputFilenameDash | fetchlineups.py:221 | `2025-26` names the same file as `202526`, and a season without dashes appears in the name as it is |
| Legacy.PostProcessSpec | fetchlineups.py:210-231 | an empty `league_lineup` saves nothing. Otherwise the saved table holds its rows as a permutation, each with its own `players_list`, sorted by team and season type ascending and MIN descending, under the season's file name |
| Legacy.SweepOutput | fetchlineups.py:101-215 | after the sweep, post-processing can crash only for want of `GROUP_NAME` or `MIN`, since `team` and `SEASON_TYPE` are always present |
| Legacy.Contribute | fetchlineups.py:125-194 | one fetch's merge case, then `league_lineup` grown by its contribution, matches `Parts` |
| Legacy.LegacyScript.Sleep | fetchlineups.py:114 | one more sleep, in tenths of a second |
| Legacy.LegacyScript.GetLineups | fetchlineups.py:19-89 | the retry loop's result, requests and sleeps are exactly `GetLineupsRun`'s |
| Legacy.LegacyScript.FetchSeason | fetchlineups.py:110-120 | Base, a 0.6-second sleep, then Advanced |
| Legacy.LegacyScript.constructor | fetchlineups.py:96 | a script for a season starts with nothing sent and no sleep, and its `get_lineups` calls serve that season |
| Legacy.LegacyScript.SeasonRound | fetchlineups.py:106-197 | one season type matches `SeasonStep`: it stops at a merge that aborts, and otherwise `league_lineup` grows by its part and the 0.5-second sleep follows |
| Legacy.LegacyScript.TeamRound | fetchlineups.py:101-203 | one team matches `TeamStep`: both season types until a merge aborts, then a one-second sleep unless the script halted |
| Legacy.LegacyScript.SweepLeague | fetchlineups.py:92-203 | the team loop matches `LeagueSweep` and stops at the first merge that aborts; `league_lineup` is the concatenation of its parts |
| Legacy.LegacyScript.RunScript | fetchlineups.py:12-231 | the whole script: the team dictionary, the sweep, then `Crashed` if a merge aborted it, and otherwise `PostProcess` of `league_lineup` |

## Left out

**Not modelled:**

- I/O: `save_dataframe`, `to_csv`, `os.makedirs`, logging and `print`, `argparse` and the mechanics of `sys.exit`. `run` returns its exit decision as a value.
- Wall-clock time. Elapsed seconds are only logged. Sleeps are counted: `pace()` calls and endpoint pauses are counted, backoff waits are kept in whole seconds, and the legacy script's sleeps are kept in tenths of a second.
- The fractional delays `API_CALL_DELAY` (1.5 s) and `API_ENDPOINT_DELAY` (3.0 s). Only their number is modelled.
- `API_TIMEOUT`: the request timeout and the endpoint classes of `nba_api` are not part of this model. Every reply comes from the `World` oracle.
- The `NBA_SEASON` environment variable and `DATA_DIR`. Both are parameters.
- `app.py` (a Streamlit view) and `pipeline/__init__.py` are not part of this model.
- The fetchers' progress counters (`call_idx`, `total`) and `api_calls` in the summary. They are only logged. `combo_idx` is modelled.
- The `team_has_data` flag of the legacy script. It only logs.

**Simplified:**

- The static team list becomes a parameter `records`.
- pandas details are not modelled: dtypes, NaN beyond a missing cell reading `Null`, and the index.
- The outer merge's row order is not modelled. It is modelled as left rows then unmatched right rows; pandas sorts the keys. Key sets, columns and cell provenance do not depend on order.
- Joins are modelled over row sequences, so duplicate keys give the many-to-many result; they are not restricted to unique keys.
- Of the errors pandas can raise inside the legacy sweep, only the one at fetchlineups.py:142-148 is modelled: a merge key that is not unique in the Advanced subset. When it is raised the script halts, and `RunScript` ends with `Crashed`.
- The set difference at fetchlineups.py:134 has no fixed order. It is modelled in Advanced's column order.
- The sort is proved to be a sorted permutation. Which permutation pandas picks among equal keys is not modelled.
- `Legacy.LegacyScript`: the script's `get_lineups` calls are specified through a ghost `run` function that `Valid()` ties to the service. `FetchSeason` and the rounds are stated over it.
- `Retry.Api.HealthCheck`: when the call returns it reports healthy even with no data, which is what the code does (pipeline/utils.py:220-225). The module documentation speaks of data.
- `Orchestrator.Run`: with both `--lineups-only` and `--supplementary-only` set, the code rejects nothing and no section runs. That behaviour is modelled.
- `Orchestrator.Run`: the section fetchers are passed in as a function from section to outcome. Each fetcher is proved on its own in `Lineups` and `Supplementary`.
