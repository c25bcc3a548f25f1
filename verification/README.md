# Comparative ranking engine — a Dafny model

This project models the scoring and aggregation engine of `comcollect.py`, a
script that ranks a fixed list of shows from the scores that community members
gave them on MyAnimeList (MAL) and Anilist. The engine works on what a
profile-page scraper hands it:

1. **Item registry** (`registry.dfy`). The configured MAL ids are paired with
   the Anilist ids at the same list position. A scraped id resolves to the
   first pair, in list order, that holds it in either slot. An item's key is
   the position of its pair.
2. **Score filters** (`normalizer.dfy`). An entry whose id no pair holds is
   skipped. On Anilist, a score of 0 (an unscored entry) is dropped. A score
   text that is not a number aborts the whole run, because that `float(...)`
   call sits outside any `try`. On MAL, a score text that is not a number is
   skipped and the profile goes on; a score of 0 is kept.
3. **Pairwise differences** (`differences.dfy`). The outer subtraction of a
   profile's score vector with itself is walked row by row. Cell (row d,
   column o) becomes the entry keyed `[other, anchor]` = `[key(o), key(d)]`
   with delta `score(d) - score(o)`. Cells whose two ids are equal are skipped.
4. **Aggregation** (`aggregate.dfy`). `compare_type` 0 (direct) averages raw
   scores per item. Type 1 (intra-profile) averages each profile's deltas per
   anchor, then averages those per-profile values. Type 2 (cross-profile)
   averages all pooled deltas per anchor over the registry keys.
5. **Ranking** (`ranker.dfy`, `grouping.dfy`). The table is grouped by id,
   each group is averaged, and the rows are sorted highest score first.

`pipeline.dfy` chains these steps from a list of pages to the final table.
`scenario.dfy` proves what a three-item example yields in all three modes.
`stats.dfy` holds sums and means, and `outcomes.dfy` holds `Option` and
`Result`.

Scores and means are Dafny `real`s. Every aggregation is stated in closed
form: the mean of an explicit sample that is defined from the profiles alone.
The pandas `groupby(...).mean()` is modelled as a one-pass tally of sums and
counts. It is proved to give the closed-form means.

## Model

| member | source | states |
|---|---|---|
| Registry.MakePairs | comcollect.py:99 | the i-th pair holds the i-th MAL id and the i-th Anilist id; the list stops at the end of the shorter id list |
| Registry.Lookup | comcollect.py:138-142 | the result is the first pair, in list order, that holds the id in either slot; it is None exactly when no pair holds it |
| Registry.LookupPairRoundTrip | comcollect.py:98-99 | when no id repeats an earlier pair's id, looking up either id of pair i gives key i |
| Registry.ConfiguredPairsComplete | comcollect.py:45-52 | the two configured id lists both have 57 entries, so pairing them drops no id |
| Normalizer.CollectAnilist | comcollect.py:133-148 | the run aborts exactly when a known entry has a score text that is not a number; otherwise every rating in the profile comes from a known entry with a non-zero score, every such entry appears, and only registry keys occur |
| Normalizer.CollectAnilistAsMal | comcollect.py:133-148 | a successful Anilist profile is the MAL filter's profile with the zero scores dropped, so each non-zero entry is kept once per listing and in page order |
| Normalizer.CollectAnilistAppend | comcollect.py:133-148 | the filter is one pass: on two runs of entries it aborts at the first run's abort, else at the second's, and otherwise yields the first run's ratings followed by the second's |
| Normalizer.CollectAnilistFailsAtFirst | comcollect.py:143 | an abort names the first known entry whose score text is not a number |
| Normalizer.CollectMal | comcollect.py:155-173 | the profile holds exactly the entries whose id is known and whose score text is a number, with zero scores kept and only registry keys |
| Normalizer.CollectMalAppend | comcollect.py:166-169 | skipping an entry never stops the profile: the entries before and after a skipped one are both collected, in order |
| Differences.BuildMembers | comcollect.py:200-216 | an entry is built exactly when some cell (row d, column o) holds two different items; it is keyed `[key(o), key(d)]` and carries `score(d) - score(o)` |
| Differences.BuildNoSelfPairs | comcollect.py:211-213 | no entry pairs an item with itself, and both of an entry's keys are items the profile rated |
| Differences.Antisymmetric | comcollect.py:200-216 | whenever the entry `[x, y]` with delta v is built, so is the entry `[y, x]` with delta -v |
| Differences.BuildCount | comcollect.py:209-218 | a profile of n distinct items yields exactly n*(n-1) entries |
| Differences.BuildSingle | comcollect.py:209-218 | a profile with at most one rating yields no entries |
| Differences.DifferenceRow | comcollect.py:210-216 | the inner loop over one row of the matrix appends exactly that row's entries, in column order |
| Differences.DifferenceTable | comcollect.py:200-218 | the nested loop over the outer-difference matrix appends exactly the entries that BuildMembers characterises, in row-major order |
| Grouping.GroupMean | comcollect.py:241 | the grouped table has increasing keys, so one row per key; a key has a row exactly when it has values, and the row holds the arithmetic mean of them |
| Grouping.TallyFacts | comcollect.py:241 | a key is tallied exactly when the table has values for it, and its tally holds their sum and their count |
| Grouping.EmitFacts | comcollect.py:241 | emitting the tallied keys of a range gives increasing keys inside the range, and each key present in the tally gets its total divided by its count |
| Grouping.GroupMeanIdempotent | comcollect.py:270 | grouping an already grouped table changes nothing, so the final regrouping is neutral for types 0 and 2 |
| Aggregate.DirectMean | comcollect.py:224-256 | type 0 gives each item the mean of every score it received, over all observations in all profiles; an item nobody scored gets no row |
| Aggregate.IntraProfileMean | comcollect.py:234-241 | within one profile, type 1 gives each anchor the mean of the deltas anchored at it, even when the item is listed more than once; an item with no such entry gets no row |
| Aggregate.IntraMean | comcollect.py:234-270 | after the final regrouping, type 1 gives each item the mean of its per-profile values, over the profiles that produced one |
| Aggregate.CrossMean | comcollect.py:249-267 | type 2 gives each registry key the mean of all deltas anchored at it, pooled from every profile; keys outside the registry get no row |
| Aggregate.ModeValue | comcollect.py:224-270 | for every mode, after the final regrouping each item holds the value its mode promises over the profiles, and has no row when the mode promises none |
| Aggregate.SamplesPermutation | comcollect.py:107-267 | reordering the profiles changes neither the sum nor the size of the sample that any mode averages |
| Aggregate.ProfileOrderIrrelevant | comcollect.py:107-270 | the value each mode promises for an item (the mean of its sample) does not depend on the order in which the profiles are processed |
| Aggregate.FinalValueOrderIrrelevant | comcollect.py:107-270 | the final grouped table gives every item the same value whichever order the profiles come in, in every mode |
| Aggregate.SingleRatingProfile | comcollect.py:209-256 | a profile with one rating adds its score to type 0 and nothing to types 1 and 2 |
| Ranker.SortDescending | comcollect.py:271 | the result is a permutation of the input, ordered by score from highest to lowest |
| Ranker.Rank | comcollect.py:270-271 | the final table is sorted highest score first, has exactly one row per id, is a permutation of the grouped rows, and each id holds the mean of its values |
| Pipeline.CollectAll | comcollect.py:108-197 | the collection aborts exactly when some page aborts; otherwise it holds one profile per page, in page order |
| Pipeline.Run | comcollect.py:104-271 | a run fails exactly when some page aborts or when `compare_type` is 0 and there are no pages (line 256 then drops a `Title` column that the table never gained); otherwise the table is sorted highest first with one row per id, and a `compare_type` other than 0, 1 or 2 gives an empty table |
| Pipeline.RunValue | comcollect.py:220-271 | in a successful run, each item's row holds exactly the value the selected mode promises over the collected profiles |
| Scenario.ScenarioCollect | comcollect.py:133-173 | in the example, an unknown id, a known MAL entry whose score text is not a number, and a zero Anilist score are all dropped |
| Scenario.ScenarioRunDirect | comcollect.py:224-271 | in the example, type 0 ranks X (8.5), Z (8), Y (6) |
| Scenario.ScenarioRunIntra | comcollect.py:234-271 | in the example, type 1 ranks X (0.75), Z (0), Y (-1.5) |
| Scenario.ScenarioRunCross | comcollect.py:249-271 | in the example, type 2 ranks X (1), Z (0), Y (-1.5) |

## Left out

- Reddit user and flair discovery (comcollect.py:30-96) is network I/O through praw and is not modelled. The model starts from the list of profile pages.
- Selenium page loading and the scroll loop (comcollect.py:108-128) are browser I/O with sleeps and are not modelled.
- HTML selection and string splitting (comcollect.py:131-197) are calls into BeautifulSoup. A page is modelled as the sequence of (scraped id, score) entries they produce. The score is the result of `float(...)`, with `None` when the text is not a number. A missing `.score-label` element on a first-layout MAL page would raise `AttributeError`; that crash is not modelled.
- Line 196 stores the bare MAL id (`link_ref[0]`) for second-layout MAL pages, unlike lines 148 and 173. Every modelled page uses the pair's key uniformly instead.
- Line 238 tests `df.ID[i][0] in score_df.ID[j][1]`: is the MAL id anywhere in the anchor pair? That could also match another pair's Anilist id. The model uses key equality.
- The final table's id column holds the pair `[mal, anilist]`; the model holds the pair's position. The pair is `reg[key]`. pandas `groupby` (comcollect.py:241, 256, 266, 270) orders its groups by the pair, while the model orders them by position; for the configured lists these differ (position 3, `[86, 86]`, sorts before position 2, `[8839, 8839]`). Only the order of tied rows after the final sort can depend on this, and that order is left open anyway.
- Ranker.SortDescending: `sort_values` is not stable, so ties may come out in any order. The model sorts in one particular order and states only sortedness and the permutation property, which is what the source guarantees.
- Floating point: scores and means are exact reals. Rounding and NaN are not modelled; for example, a NaN Anilist score passes `if score:`.
- Duplicate pairs in the configured id lists would make type 2 (comcollect.py:261-264) add each delta once per copy. Per-key means are unchanged by that, so the model iterates over keys only.
- With a `compare_type` other than 0, 1 or 2, the source never clears its per-profile tables. They grow across profiles, but nothing reaches the output. The model returns the empty table directly.
- CSV and pickle export, the timing prints (comcollect.py:272-276) and the contents of the `Title` column are output only and are not modelled; only the missing `Title` column of a direct run with no pages is (Pipeline.Run).

## Behaviour of the code worth knowing

- **Repeated items.** When a profile lists an item twice, the code keeps every observation, and so does the model. Type 0 counts each observation. The difference loop skips every cell whose two ids are equal, which is an id comparison and not a position comparison. Type 1 repeats an anchor's deltas once per listing, which leaves their mean unchanged (Aggregate.IntraProfileMean).
- **Tie order.** `sort_values` (comcollect.py:271) is not stable, so the order of rows with equal scores is left open; the model specifies only sortedness and the permutation property.
- **Bad score text.** An Anilist score text that is not a number reaches `float(...)` at comcollect.py:143 outside any `try`, so it aborts the run; on MyAnimeList the same case is caught and the entry is skipped (comcollect.py:166-169, 190-193).
- **Direct comparison with no pages.** With `compare_type` 0 and no profile pages, the direct table keeps the two columns it was created with (comcollect.py:104), and dropping `Title` at comcollect.py:256 fails; the model returns `NoTitleColumn` (Pipeline.Run).
