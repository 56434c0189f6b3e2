# Battlegrounds global hero stats: the join-and-reshape handler

This project models the Lambda handler in `src/retrieve-bgs-global-stats.ts`, which builds the
Battlegrounds global hero report, and proves properties of the model. The handler:

- resolves the latest snapshot date of each statistics table (the first row of an
  `ORDER BY id desc limit 1` date query);
- renders the enumerated hero ids as the quoted list `'id1','id2',...`;
- maps every hero-stats row to a hero record and appends one `{ id: 'average' }` record;
- joins onto each record, by `heroCardId`:
  - the tribe rows, with the tribe name lower-cased;
  - the warband rows up to turn 15, as `(turn, totalStats := statsDelta)`;
  - the combat-winrate rows up to turn 18, as `(turn, winrate)`;
- returns `{ result: { heroStats } }` with status 200, or the 500 envelope with
  `message: 'not ok'` when anything in the `try` block throws.

Files:

- `wrappers.dfy`: `Option` (a property left undefined) and `Result` (a value, or the error thrown).
- `arrays.dfy`: the JavaScript `filter`, `map` and `join`, with their algebra. Filtering and mapping
  split over concatenation. Filtering keeps every ordered-pair relation. Joining appends in order.
- `strings.dfy`: ASCII `toLowerCase`, and a `split` that is proved to undo `join`.
- `global_stats.dfy`: the report records of `src/bgs-global-stats.ts:5-15`. A property the object
  does not have yet is `None`.
- `retrieve.dfy`: the handler. Query results are inputs. A `Db` value holds each query's result, as a
  function of the date or id list that the query text interpolates.
- `scenarios.dfy`: concrete inputs and the report built from them.

Two consequences of the code are easy to miss:

- The code never sorts a hero's turn series. It keeps the order of the query's
  `ORDER BY heroCardId, turn` (see `Scenarios.WarbandKeepsInputOrder`). `WarbandStatsAscending` and
  `CombatWinrateAscending` prove the series non-decreasing when the rows are ordered per hero. They
  are non-decreasing, not strictly ascending, because nothing makes `(heroCardId, turn)` unique.
- Hero records come one per hero-stats row. An enumerated hero with no such row is absent from the
  report.

## Model

| member | source | states |
|---|---|---|
| Arrays.Filter | src/retrieve-bgs-global-stats.ts:21 | `filter` keeps exactly the elements that pass, each from the input, never more than the input |
| Arrays.Map | src/retrieve-bgs-global-stats.ts:24-27 | `map` yields one image per element, at the same index |
| Arrays.Join | src/retrieve-bgs-global-stats.ts:170 | `join` of no parts is `""`, of one part is that part, and is never shorter than its first part |
| Arrays.FilterConcat | src/retrieve-bgs-global-stats.ts:21 | filtering a concatenation is the concatenation of the filtered halves (order kept, no cross-talk) |
| Arrays.FilterSingleton | src/retrieve-bgs-global-stats.ts:21 | a one-element input is kept whole iff its element passes |
| Arrays.FilterPairwise | src/retrieve-bgs-global-stats.ts:41 | a relation holding between every earlier and later input element still holds in the filtered output |
| Arrays.MapConcat | src/retrieve-bgs-global-stats.ts:42-45 | mapping a concatenation is the concatenation of the mapped halves |
| Arrays.InMap | src/retrieve-bgs-global-stats.ts:24-27 | a value is in the mapped output iff it is the image of some input element |
| Arrays.JoinAppend | src/retrieve-bgs-global-stats.ts:170 | joining one more part appends the separator and that part at the end |
| Strings.ToLower | src/retrieve-bgs-global-stats.ts:25 | lower-casing keeps the length, leaves no upper-case letter, maps each `A`-`Z` to its lower-case letter and keeps every other character |
| Strings.ToLowerIdempotent | src/retrieve-bgs-global-stats.ts:25 | lower-casing leaves lower-case text unchanged, so applying it twice equals applying it once |
| Strings.Split | src/retrieve-bgs-global-stats.ts:170 | splitting yields at least one piece, none containing the separator, and a separator-free string is its own single piece |
| Strings.SplitAtSeparator | src/retrieve-bgs-global-stats.ts:170 | a separator between two strings splits their pieces apart |
| Strings.SplitJoin | src/retrieve-bgs-global-stats.ts:170 | splitting a join on a separator no part contains gives back the parts |
| RetrieveGlobalStats.SnapshotDate | src/retrieve-bgs-global-stats.ts:120 | `[0].creationDate` succeeds iff the result has a first row with a date, and yields that date; an empty result fails with EmptyResult and a NULL date fails with NullDate |
| RetrieveGlobalStats.FetchSnapshot | src/retrieve-bgs-global-stats.ts:116-127 | a failed date query, an empty date result or a NULL first date makes the fetch fail with that error; a dated first row makes the fetch exactly the rows query for that date |
| RetrieveGlobalStats.GetAllHeroes | src/retrieve-bgs-global-stats.ts:170 | the rendered hero list is empty iff there are no rows |
| RetrieveGlobalStats.GetAllHeroesSingle | src/retrieve-bgs-global-stats.ts:170 | one row renders as its id between single quotes |
| RetrieveGlobalStats.GetAllHeroesAppend | src/retrieve-bgs-global-stats.ts:170 | one more row appends `,'id'`, so ids appear comma-separated in row order |
| RetrieveGlobalStats.GetAllHeroesRoundTrip | src/retrieve-bgs-global-stats.ts:170 | when no id contains a comma, splitting the list on commas and unquoting gives back the rows' ids in order |
| RetrieveGlobalStats.GetHeroStats | src/retrieve-bgs-global-stats.ts:97-112 | one record per row, in row order, with id and the five scalar metrics copied and no sub-collection; then exactly one `'average'` record with no metric |
| RetrieveGlobalStats.GetHeroStatsIds | src/retrieve-bgs-global-stats.ts:97-112 | the records' ids are the rows' ids in order followed by `'average'` |
| RetrieveGlobalStats.AverageNotDeduplicated | src/retrieve-bgs-global-stats.ts:109-111 | a row whose id is `'average'` is kept beside the appended record: two records carry that id |
| RetrieveGlobalStats.TribesStatFor | src/retrieve-bgs-global-stats.ts:21-27 | a hero's tribe entries are never more than the rows, and every tribe name is lower-case |
| RetrieveGlobalStats.TribesStatConcat | src/retrieve-bgs-global-stats.ts:21-27 | tribe entries follow the input order: the join of a concatenation is the concatenation of the joins |
| RetrieveGlobalStats.TribesStatRow | src/retrieve-bgs-global-stats.ts:21-27 | one row gives `(lower-cased tribe, percent)` iff its heroCardId is the hero's id, else nothing |
| RetrieveGlobalStats.TribesStatMembership | src/retrieve-bgs-global-stats.ts:21-27 | an entry is in a hero's tribesStat iff some row of that hero has that lower-cased tribe and that percent |
| RetrieveGlobalStats.WarbandStatsFor | src/retrieve-bgs-global-stats.ts:32-45 | a hero's warband series is never longer than the rows and no turn in it exceeds 15 |
| RetrieveGlobalStats.WarbandStatsConcat | src/retrieve-bgs-global-stats.ts:32-45 | the warband series follows the input order (the join splits over concatenation) |
| RetrieveGlobalStats.WarbandStatsRow | src/retrieve-bgs-global-stats.ts:32-45 | one row gives `(turn, totalStats := statsDelta)` iff it is the hero's and its turn is at most 15, else nothing |
| RetrieveGlobalStats.WarbandStatsMembership | src/retrieve-bgs-global-stats.ts:32-45 | a point is in the series iff some row of that hero with turn at most 15 has that turn and statsDelta |
| RetrieveGlobalStats.CombatWinrateFor | src/retrieve-bgs-global-stats.ts:33-53 | a hero's winrate series is never longer than the rows and no turn in it exceeds 18 |
| RetrieveGlobalStats.CombatWinrateConcat | src/retrieve-bgs-global-stats.ts:33-53 | the winrate series follows the input order (the join splits over concatenation) |
| RetrieveGlobalStats.CombatWinrateRow | src/retrieve-bgs-global-stats.ts:33-53 | one row gives `(turn, winrate)` iff it is the hero's and its turn is at most 18, else nothing |
| RetrieveGlobalStats.CombatWinrateMembership | src/retrieve-bgs-global-stats.ts:33-53 | a point is in the series iff some row of that hero with turn at most 18 has that turn and winrate |
| RetrieveGlobalStats.WarbandStatsAscending | src/retrieve-bgs-global-stats.ts:135-139 | if each hero's rows come in non-decreasing turn order, as the ORDER BY requests, then so does its warband series |
| RetrieveGlobalStats.CombatWinrateAscending | src/retrieve-bgs-global-stats.ts:121-125 | the same for the combat-winrate series |
| RetrieveGlobalStats.Report | src/retrieve-bgs-global-stats.ts:20-60 | the report has one record per hero record, in order, each equal to that record with only the three joined sub-collections added |
| RetrieveGlobalStats.ReportIds | src/retrieve-bgs-global-stats.ts:20-60 | the report's ids are the hero-stats rows' ids in order then `'average'`, and every record has all three sub-collections present |
| RetrieveGlobalStats.UnmatchedHeroGetsEmptyCollections | src/retrieve-bgs-global-stats.ts:37-53 | a hero that no row names gets three empty series, not absent ones |
| RetrieveGlobalStats.AverageRecordIsEmpty | src/retrieve-bgs-global-stats.ts:109-111 | the last report record is `'average'` with no metric and three empty series when no row names `'average'` |
| RetrieveGlobalStats.ForeignTribesIgnored | src/retrieve-bgs-global-stats.ts:21 | tribe rows naming another hero, inserted anywhere among the rows, leave a hero's tribesStat unchanged |
| RetrieveGlobalStats.ForeignWarbandIgnored | src/retrieve-bgs-global-stats.ts:32 | warband rows naming another hero, inserted anywhere, leave a hero's warband series unchanged |
| RetrieveGlobalStats.ForeignWinrateIgnored | src/retrieve-bgs-global-stats.ts:33 | winrate rows naming another hero, inserted anywhere, leave a hero's winrate series unchanged |
| RetrieveGlobalStats.ForeignRowsIgnored | src/retrieve-bgs-global-stats.ts:20-55 | inserting rows whose hero is not in the report anywhere among the rows of any of the three tables leaves the report unchanged |
| RetrieveGlobalStats.FetchAllHeroes | src/retrieve-bgs-global-stats.ts:158-171 | succeeds iff the latest dated hero-stats snapshot can be fetched, then yields its rows rendered as the quoted id list; otherwise fails with the fetch's error |
| RetrieveGlobalStats.FetchAll | src/retrieve-bgs-global-stats.ts:14-18 | succeeds when every fetch succeeds; on success the hero records are GetHeroStats of the hero-stats query called with the rendered hero list, and the three row sets are their tables' latest snapshots |
| RetrieveGlobalStats.Retrieve | src/retrieve-bgs-global-stats.ts:11-60 | the `try` block succeeds iff the connection and every fetch succeed, and then yields the joined report of the fetched rows |
| RetrieveGlobalStats.Handle | src/retrieve-bgs-global-stats.ts:10-86 | status 200 iff retrieval succeeded, then base64-flagged gzip body with the report and the two headers; otherwise status 500, not base64, body `message: 'not ok'` with the error |
| RetrieveGlobalStats.EmptySnapshotFails | src/retrieve-bgs-global-stats.ts:163 | an empty "latest date" result in any of the four tables yields the 500 `not ok` envelope |
| RetrieveGlobalStats.AllFetchesSucceedGive200 | src/retrieve-bgs-global-stats.ts:58-75 | when every query returns rows, the response is status 200, base64-flagged, carrying the joined report |
| RetrieveGlobalStats.SuccessfulReportShape | src/retrieve-bgs-global-stats.ts:58-75 | a 200 response's report ends with the metric-less `'average'` record and every record carries all three sub-collections |
| Scenarios.TwoHeroesNoAuxiliaryRows | src/retrieve-bgs-global-stats.ts:20-60 | two hero rows and no other rows give three records (H1, H2, average) with their popularity and empty series |
| Scenarios.WarbandKeepsInputOrder | src/retrieve-bgs-global-stats.ts:39-45 | warband turns 5, 20, 15, 10 give the series (5,1), (15,3), (10,4): turn 20 dropped, order kept |
| Scenarios.WarbandInQueryOrderIsAscending | src/retrieve-bgs-global-stats.ts:39-45 | the same rows in query order give (5,1), (10,4), (15,3) |
| Scenarios.CutOffsAreIndependent | src/retrieve-bgs-global-stats.ts:41-49 | turn 16 is dropped from the warband series but kept in the winrate series; turn 19 is dropped from both |
| Scenarios.TribeIsLowerCased | src/retrieve-bgs-global-stats.ts:24-27 | tribe `BEAST` at 40 becomes `(beast, 40)` |
| Scenarios.HeroListRendering | src/retrieve-bgs-global-stats.ts:170 | ids A, B, C render as `'A','B','C'`, and no ids render as `""` |

## Left out

- Query execution and the connection (`getConnection`, `mysql.query`): I/O. Each query's result is an
  input. A failed connection or query is an `Error` value.
- SQL semantics (`WHERE date IS NULL`, `heroCardId in (...)`, `ORDER BY`, `limit 1`): not modelled.
  "Latest" is whatever row the date query returns first. Ordering is a precondition where a lemma
  needs it.
- Interpolating dates (`toISOString`) and the id list into SQL text: plumbing. A date is passed on
  unchanged. An id containing `'` would break the SQL; the model does not see that.
- `JSON.stringify`, `gzipSync` and base64: foreign library calls. The success body carries the report
  itself, tagged as gzipped.
- The error envelope has no `headers` property in the source. The model gives it an empty map.
- The thrown exception's content: the model keeps only which kind of failure happened.
- `console.log` and `console.error`: no effect on the result.
- The `!warbandStatInfo ? [] : ...` and `!winrateInfo ? [] : ...` branches: `filter` always returns
  an array, so they cannot fire, and the model leaves them out.
- Rows are taken as decoded: a NULL column is not modelled. A NULL `tribe` makes `toLowerCase` throw
  at line 25, and the handler then returns 500; the model does not capture that failure. NULL turns
  and metric values are not modelled either.
- Metric values are only copied: they are `int`, not JavaScript floats. `turn` is an `int`.
- Strings.ToLower: lower-cases ASCII letters only, not the full Unicode mapping of `toLowerCase`.
- `src/bgs-global-hero-stat.ts`: the older record shape without `combatWinrate`, used only as a cast
  target. Casts (`as ...`) have no behaviour.
- The unused `event` argument. Repeated calls on identical inputs give identical reports, because
  every operation is a function.
