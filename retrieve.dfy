/**
 * The handler that builds the Battlegrounds global hero report: it resolves
 * the latest snapshot of each statistics table, renders the enumerated hero
 * ids into the list the hero-stats query filters on, maps the hero-stats rows
 * to records followed by one `'average'` record, joins the tribe, warband and
 * combat-winrate rows onto each record by hero id (with the turn cut-offs 15
 * and 18), and wraps the outcome in the response envelope.
 *
 * Query execution is not modelled: each query's result is given, as a value
 * or a function of the date / id list it is parameterised by.
 */
module RetrieveGlobalStats {
  import opened Wrappers
  import opened GlobalStats
  import Arrays
  import Strings

  // ---------------------------------------------------------------------------
  // Rows as the queries return them

  datatype HeroIdRow = HeroIdRow(heroCardId: string)

  datatype HeroStatsRow = HeroStatsRow(
    heroCardId: string, averagePosition: Num, popularity: Num, top4: Num, top1: Num, tier: string)

  datatype TribeRow = TribeRow(heroCardId: string, tribe: string, percent: Num)

  datatype WarbandRow = WarbandRow(heroCardId: string, turn: int, statsDelta: Num)

  datatype WinrateRow = WinrateRow(heroCardId: string, turn: int, winrate: Num)

  /** A snapshot time stamp; only passed on. */
  datatype Date = Date(epochMillis: int)

  /** The one-column row of a "latest date" query; the column may be NULL. */
  datatype DateRow = DateRow(date: Option<Date>)

  /** What can be thrown inside the handler's `try` block. */
  datatype Error =
    | ConnectionFailed
    | QueryFailed(table: string)
    | EmptyResult(table: string)   // `[0]` of an empty result is `undefined`
    | NullDate(table: string)      // `toISOString()` of a NULL date

  type QueryResult<T> = Result<seq<T>, Error>

  const HeroStatsTable := "bgs_hero_stats"
  const TribesTable := "bgs_hero_tribes_at_end"
  const WarbandTable := "bgs_hero_warband_stats"
  const WinrateTable := "bgs_hero_combat_winrate"

  // ---------------------------------------------------------------------------
  // Latest snapshot: the date column of the first row of a date query

  function SnapshotDate(table: string, rows: seq<DateRow>): (r: Result<Date, Error>)
    ensures r.Success? <==> |rows| > 0 && rows[0].date.Some?
    ensures r.Success? ==> r.value == rows[0].date.value
    ensures |rows| == 0 ==> r == Failure(EmptyResult(table))
    ensures |rows| > 0 && rows[0].date.None? ==> r == Failure(NullDate(table))
  {
    if |rows| == 0 then Failure(EmptyResult(table))
    else match rows[0].date
      case None => Failure(NullDate(table))
      case Some(d) => Success(d)
  }

  /** Resolve a table's latest date, then fetch that snapshot's rows. */
  function FetchSnapshot<T>(table: string, dateQuery: QueryResult<DateRow>, rowsQuery: Date -> QueryResult<T>)
    : (r: QueryResult<T>)
    ensures dateQuery.Failure? ==> r == Failure(dateQuery.error)
    ensures dateQuery == Success([]) ==> r == Failure(EmptyResult(table))
    ensures dateQuery.Success? && |dateQuery.value| > 0 && dateQuery.value[0].date.None? ==>
              r == Failure(NullDate(table))
    ensures dateQuery.Success? && SnapshotDate(table, dateQuery.value).Success? ==>
              r == rowsQuery(SnapshotDate(table, dateQuery.value).value)
    ensures r.Success? ==>
              && dateQuery.Success?
              && SnapshotDate(table, dateQuery.value).Success?
              && r == rowsQuery(SnapshotDate(table, dateQuery.value).value)
  {
    var dates :- dateQuery;
    var date :- SnapshotDate(table, dates);
    rowsQuery(date)
  }

  // ---------------------------------------------------------------------------
  // The enumerated hero ids as an SQL list: 'id1','id2',...

  function QuotedId(row: HeroIdRow): string {
    "'" + row.heroCardId + "'"
  }

  function HeroCardIdOf(row: HeroIdRow): string {
    row.heroCardId
  }

  function GetAllHeroes(rows: seq<HeroIdRow>): (r: string)
    ensures r == "" <==> rows == []
  {
    Arrays.Join(Arrays.Map(QuotedId, rows), ",")
  }

  function Unquote(s: string): string {
    if |s| >= 2 then s[1..|s| - 1] else s
  }

  /** Reads a rendered id list back; the inverse of GetAllHeroes. */
  function ParseHeroList(s: string): seq<string> {
    if s == "" then [] else Arrays.Map(Unquote, Strings.Split(s, ','))
  }

  lemma GetAllHeroesSingle(row: HeroIdRow)
    ensures GetAllHeroes([row]) == "'" + row.heroCardId + "'"
  {
  }

  /** One more row appends a comma and its quoted id: ids come out in row order. */
  lemma GetAllHeroesAppend(rows: seq<HeroIdRow>, row: HeroIdRow)
    requires rows != []
    ensures GetAllHeroes(rows + [row]) == GetAllHeroes(rows) + ",'" + row.heroCardId + "'"
  {
    Arrays.MapConcat(QuotedId, rows, [row]);
    assert Arrays.Map(QuotedId, [row]) == [QuotedId(row)];
    Arrays.JoinAppend(Arrays.Map(QuotedId, rows), ",", QuotedId(row));
  }

  /** Every quoted id is comma-free when the id is. */
  lemma QuotedIdsCommaFree(rows: seq<HeroIdRow>)
    requires forall k :: 0 <= k < |rows| ==> ',' !in rows[k].heroCardId
    ensures forall k :: 0 <= k < |rows| ==> ',' !in Arrays.Map(QuotedId, rows)[k]
  {
  }

  /** Unquoting undoes quoting, row by row. */
  lemma UnquoteQuotedId(row: HeroIdRow)
    ensures Unquote(QuotedId(row)) == row.heroCardId
  {
  }

  lemma UnquoteAll(rows: seq<HeroIdRow>)
    ensures Arrays.Map(Unquote, Arrays.Map(QuotedId, rows)) == Arrays.Map(HeroCardIdOf, rows)
  {
  }

  /** The rendered list names exactly the rows' ids, in order, when no id holds a comma. */
  lemma GetAllHeroesRoundTrip(rows: seq<HeroIdRow>)
    requires forall k :: 0 <= k < |rows| ==> ',' !in rows[k].heroCardId
    ensures ParseHeroList(GetAllHeroes(rows)) == Arrays.Map(HeroCardIdOf, rows)
  {
    if rows != [] {
      var quoted := Arrays.Map(QuotedId, rows);
      var s := GetAllHeroes(rows);
      assert s == Arrays.Join(quoted, ",");
      QuotedIdsCommaFree(rows);
      Strings.SplitJoin(quoted, ',');
      assert ParseHeroList(s) == Arrays.Map(Unquote, quoted);
      UnquoteAll(rows);
    }
  }

  // ---------------------------------------------------------------------------
  // Hero records: one per hero-stats row, then the 'average' record

  const AverageId := "average"

  const Average := HeroStat(AverageId, None, None, None, None, None, None, None, None)

  function HeroStatOfRow(row: HeroStatsRow): HeroStat {
    HeroStat(row.heroCardId, Some(row.popularity), Some(row.averagePosition), Some(row.top4),
             Some(row.top1), Some(row.tier), None, None, None)
  }

  predicate HasNoScalars(h: HeroStat) {
    h.popularity.None? && h.averagePosition.None? && h.top4.None? && h.top1.None? && h.tier.None?
  }

  predicate HasNoSubCollections(h: HeroStat) {
    h.tribesStat.None? && h.warbandStats.None? && h.combatWinrate.None?
  }

  function IdOf(h: HeroStat): string {
    h.id
  }

  function RowId(row: HeroStatsRow): string {
    row.heroCardId
  }

  function GetHeroStats(rows: seq<HeroStatsRow>): (r: seq<HeroStat>)
    ensures |r| == |rows| + 1
    ensures forall i :: 0 <= i < |rows| ==>
              && r[i].id == rows[i].heroCardId
              && r[i].popularity == Some(rows[i].popularity)
              && r[i].averagePosition == Some(rows[i].averagePosition)
              && r[i].top4 == Some(rows[i].top4)
              && r[i].top1 == Some(rows[i].top1)
              && r[i].tier == Some(rows[i].tier)
              && HasNoSubCollections(r[i])
    ensures r[|rows|].id == AverageId && HasNoScalars(r[|rows|]) && HasNoSubCollections(r[|rows|])
  {
    Arrays.Map(HeroStatOfRow, rows) + [Average]
  }

  /** The records' ids are the rows' ids in row order, then 'average'. */
  lemma GetHeroStatsIds(rows: seq<HeroStatsRow>)
    ensures Arrays.Map(IdOf, GetHeroStats(rows)) == Arrays.Map(RowId, rows) + [AverageId]
  {
  }

  /** A real hero with id 'average' is kept beside the appended record: no de-duplication. */
  lemma AverageNotDeduplicated(rows: seq<HeroStatsRow>, k: nat)
    requires k < |rows| && rows[k].heroCardId == AverageId
    ensures exists i, j :: 0 <= i < j < |GetHeroStats(rows)|
                           && GetHeroStats(rows)[i].id == AverageId && GetHeroStats(rows)[j].id == AverageId
  {
    var r := GetHeroStats(rows);
    assert r[k].id == AverageId && r[|rows|].id == AverageId;
  }

  // ---------------------------------------------------------------------------
  // Tribe join

  function TribeOf(id: string): TribeRow -> bool {
    (row: TribeRow) => row.heroCardId == id
  }

  function ToTribeStat(row: TribeRow): TribeStat {
    TribeStat(Strings.ToLower(row.tribe), row.percent)
  }

  /** The tribe rows of hero `id`, tribe lower-cased, percent copied. */
  function TribesStatFor(id: string, rows: seq<TribeRow>): (r: seq<TribeStat>)
    ensures |r| <= |rows|
    ensures forall k :: 0 <= k < |r| ==> Strings.IsLowerCase(r[k].tribe)
  {
    Arrays.Map(ToTribeStat, Arrays.Filter(TribeOf(id), rows))
  }

  function AttachTribes(tribeRows: seq<TribeRow>): HeroStat -> HeroStat {
    (h: HeroStat) => h.(tribesStat := Some(TribesStatFor(h.id, tribeRows)))
  }

  function WithTribes(heroStats: seq<HeroStat>, tribeRows: seq<TribeRow>): seq<HeroStat> {
    Arrays.Map(AttachTribes(tribeRows), heroStats)
  }

  /** Rows are joined in input order and independently of their neighbours. */
  lemma TribesStatConcat(id: string, a: seq<TribeRow>, b: seq<TribeRow>)
    ensures TribesStatFor(id, a + b) == TribesStatFor(id, a) + TribesStatFor(id, b)
  {
    Arrays.FilterConcat(TribeOf(id), a, b);
    Arrays.MapConcat(ToTribeStat, Arrays.Filter(TribeOf(id), a), Arrays.Filter(TribeOf(id), b));
  }

  /** A single row contributes its lower-cased tribe and percent iff its hero matches. */
  lemma TribesStatRow(id: string, row: TribeRow)
    ensures TribesStatFor(id, [row]) ==
              if row.heroCardId == id then [TribeStat(Strings.ToLower(row.tribe), row.percent)] else []
  {
  }

  lemma TribesStatMembership(id: string, rows: seq<TribeRow>, t: TribeStat)
    ensures t in TribesStatFor(id, rows) <==>
              exists row :: row in rows && row.heroCardId == id && t == TribeStat(Strings.ToLower(row.tribe), row.percent)
  {
  }

  // ---------------------------------------------------------------------------
  // Warband and combat-winrate joins

  const WarbandMaxTurn := 15
  const WinrateMaxTurn := 18

  function WarbandOf(id: string): WarbandRow -> bool {
    (row: WarbandRow) => row.heroCardId == id
  }

  predicate WithinWarbandTurns(row: WarbandRow) {
    row.turn <= WarbandMaxTurn
  }

  function ToWarbandStat(row: WarbandRow): WarbandStat {
    WarbandStat(row.turn, row.statsDelta)
  }

  /** Hero `id`'s warband rows up to turn 15, as (turn, totalStats := statsDelta). */
  function WarbandStatsFor(id: string, rows: seq<WarbandRow>): (r: seq<WarbandStat>)
    ensures |r| <= |rows|
    ensures forall k :: 0 <= k < |r| ==> r[k].turn <= WarbandMaxTurn
  {
    Arrays.Map(ToWarbandStat, Arrays.Filter(WithinWarbandTurns, Arrays.Filter(WarbandOf(id), rows)))
  }

  function WinrateOf(id: string): WinrateRow -> bool {
    (row: WinrateRow) => row.heroCardId == id
  }

  predicate WithinWinrateTurns(row: WinrateRow) {
    row.turn <= WinrateMaxTurn
  }

  function ToCombatWinrate(row: WinrateRow): CombatWinrate {
    CombatWinrate(row.turn, row.winrate)
  }

  /** Hero `id`'s combat-winrate rows up to turn 18, as (turn, winrate). */
  function CombatWinrateFor(id: string, rows: seq<WinrateRow>): (r: seq<CombatWinrate>)
    ensures |r| <= |rows|
    ensures forall k :: 0 <= k < |r| ==> r[k].turn <= WinrateMaxTurn
  {
    Arrays.Map(ToCombatWinrate, Arrays.Filter(WithinWinrateTurns, Arrays.Filter(WinrateOf(id), rows)))
  }

  function AttachWarband(warbandRows: seq<WarbandRow>, winrateRows: seq<WinrateRow>): HeroStat -> HeroStat {
    (h: HeroStat) => h.(warbandStats := Some(WarbandStatsFor(h.id, warbandRows)),
            combatWinrate := Some(CombatWinrateFor(h.id, winrateRows)))
  }

  function WithWarband(heroStats: seq<HeroStat>, warbandRows: seq<WarbandRow>, winrateRows: seq<WinrateRow>)
    : seq<HeroStat>
  {
    Arrays.Map(AttachWarband(warbandRows, winrateRows), heroStats)
  }

  lemma WarbandStatsConcat(id: string, a: seq<WarbandRow>, b: seq<WarbandRow>)
    ensures WarbandStatsFor(id, a + b) == WarbandStatsFor(id, a) + WarbandStatsFor(id, b)
  {
    Arrays.FilterConcat(WarbandOf(id), a, b);
    var fa, fb := Arrays.Filter(WarbandOf(id), a), Arrays.Filter(WarbandOf(id), b);
    Arrays.FilterConcat(WithinWarbandTurns, fa, fb);
    Arrays.MapConcat(ToWarbandStat, Arrays.Filter(WithinWarbandTurns, fa), Arrays.Filter(WithinWarbandTurns, fb));
  }

  lemma WarbandStatsRow(id: string, row: WarbandRow)
    ensures WarbandStatsFor(id, [row]) ==
              if row.heroCardId == id && row.turn <= WarbandMaxTurn then [WarbandStat(row.turn, row.statsDelta)] else []
  {
  }

  lemma WarbandStatsMembership(id: string, rows: seq<WarbandRow>, p: WarbandStat)
    ensures p in WarbandStatsFor(id, rows) <==>
              exists row :: row in rows && row.heroCardId == id && row.turn <= WarbandMaxTurn
                            && p == WarbandStat(row.turn, row.statsDelta)
  {
  }

  lemma CombatWinrateConcat(id: string, a: seq<WinrateRow>, b: seq<WinrateRow>)
    ensures CombatWinrateFor(id, a + b) == CombatWinrateFor(id, a) + CombatWinrateFor(id, b)
  {
    Arrays.FilterConcat(WinrateOf(id), a, b);
    var fa, fb := Arrays.Filter(WinrateOf(id), a), Arrays.Filter(WinrateOf(id), b);
    Arrays.FilterConcat(WithinWinrateTurns, fa, fb);
    Arrays.MapConcat(ToCombatWinrate, Arrays.Filter(WithinWinrateTurns, fa), Arrays.Filter(WithinWinrateTurns, fb));
  }

  lemma CombatWinrateRow(id: string, row: WinrateRow)
    ensures CombatWinrateFor(id, [row]) ==
              if row.heroCardId == id && row.turn <= WinrateMaxTurn then [CombatWinrate(row.turn, row.winrate)] else []
  {
  }

  lemma CombatWinrateMembership(id: string, rows: seq<WinrateRow>, p: CombatWinrate)
    ensures p in CombatWinrateFor(id, rows) <==>
              exists row :: row in rows && row.heroCardId == id && row.turn <= WinrateMaxTurn
                            && p == CombatWinrate(row.turn, row.winrate)
  {
  }

  // Input order per hero, as the queries' ORDER BY heroCardId, turn delivers it.

  predicate WarbandSameHeroOrdered(a: WarbandRow, b: WarbandRow) {
    a.heroCardId == b.heroCardId ==> a.turn <= b.turn
  }

  predicate WarbandTurnOrdered(a: WarbandRow, b: WarbandRow) {
    a.turn <= b.turn
  }

  /** Within each hero's rows the turn never decreases. */
  ghost predicate WarbandTurnsAscending(rows: seq<WarbandRow>) {
    Arrays.Pairwise(rows, WarbandSameHeroOrdered)
  }

  lemma WarbandStatsAscending(id: string, rows: seq<WarbandRow>)
    requires WarbandTurnsAscending(rows)
    ensures var r := WarbandStatsFor(id, rows); forall i, j :: 0 <= i < j < |r| ==> r[i].turn <= r[j].turn
  {
    var mine := Arrays.Filter(WarbandOf(id), rows);
    Arrays.FilterPairwise(WarbandOf(id), rows, WarbandSameHeroOrdered);
    assert Arrays.Pairwise(mine, WarbandTurnOrdered) by {
      forall i, j | 0 <= i < j < |mine| ensures WarbandTurnOrdered(mine[i], mine[j]) {
        assert WarbandOf(id)(mine[i]) && WarbandOf(id)(mine[j]);
        assert WarbandSameHeroOrdered(mine[i], mine[j]);
      }
    }
    var kept := Arrays.Filter(WithinWarbandTurns, mine);
    Arrays.FilterPairwise(WithinWarbandTurns, mine, WarbandTurnOrdered);
    var r := Arrays.Map(ToWarbandStat, kept);
    forall i, j | 0 <= i < j < |r| ensures r[i].turn <= r[j].turn {
      assert WarbandTurnOrdered(kept[i], kept[j]);
    }
  }

  predicate WinrateSameHeroOrdered(a: WinrateRow, b: WinrateRow) {
    a.heroCardId == b.heroCardId ==> a.turn <= b.turn
  }

  predicate WinrateTurnOrdered(a: WinrateRow, b: WinrateRow) {
    a.turn <= b.turn
  }

  /** Within each hero's rows the turn never decreases. */
  ghost predicate WinrateTurnsAscending(rows: seq<WinrateRow>) {
    Arrays.Pairwise(rows, WinrateSameHeroOrdered)
  }

  lemma CombatWinrateAscending(id: string, rows: seq<WinrateRow>)
    requires WinrateTurnsAscending(rows)
    ensures var r := CombatWinrateFor(id, rows); forall i, j :: 0 <= i < j < |r| ==> r[i].turn <= r[j].turn
  {
    var mine := Arrays.Filter(WinrateOf(id), rows);
    Arrays.FilterPairwise(WinrateOf(id), rows, WinrateSameHeroOrdered);
    assert Arrays.Pairwise(mine, WinrateTurnOrdered) by {
      forall i, j | 0 <= i < j < |mine| ensures WinrateTurnOrdered(mine[i], mine[j]) {
        assert WinrateOf(id)(mine[i]) && WinrateOf(id)(mine[j]);
        assert WinrateSameHeroOrdered(mine[i], mine[j]);
      }
    }
    var kept := Arrays.Filter(WithinWinrateTurns, mine);
    Arrays.FilterPairwise(WithinWinrateTurns, mine, WinrateTurnOrdered);
    var r := Arrays.Map(ToCombatWinrate, kept);
    forall i, j | 0 <= i < j < |r| ensures r[i].turn <= r[j].turn {
      assert WinrateTurnOrdered(kept[i], kept[j]);
    }
  }

  // ---------------------------------------------------------------------------
  // The report

  /** Both joins over the hero records, wrapped as `{ heroStats }`. */
  function Report(heroStats: seq<HeroStat>, tribeRows: seq<TribeRow>, warbandRows: seq<WarbandRow>,
                  winrateRows: seq<WinrateRow>): (r: BgsGlobalStats)
    ensures |r.heroStats| == |heroStats|
    ensures forall i :: 0 <= i < |heroStats| ==>
              r.heroStats[i] == heroStats[i].(tribesStat := Some(TribesStatFor(heroStats[i].id, tribeRows)),
                                               warbandStats := Some(WarbandStatsFor(heroStats[i].id, warbandRows)),
                                               combatWinrate := Some(CombatWinrateFor(heroStats[i].id, winrateRows)))
  {
    BgsGlobalStats(WithWarband(WithTribes(heroStats, tribeRows), warbandRows, winrateRows))
  }

  /** The report lists the hero-stats rows' ids in order, then 'average'; all three sub-collections are present. */
  lemma ReportIds(heroRows: seq<HeroStatsRow>, tribeRows: seq<TribeRow>, warbandRows: seq<WarbandRow>,
                  winrateRows: seq<WinrateRow>)
    ensures var r := Report(GetHeroStats(heroRows), tribeRows, warbandRows, winrateRows);
            && Arrays.Map(IdOf, r.heroStats) == Arrays.Map(RowId, heroRows) + [AverageId]
            && forall i :: 0 <= i < |r.heroStats| ==>
                 r.heroStats[i].tribesStat.Some? && r.heroStats[i].warbandStats.Some? && r.heroStats[i].combatWinrate.Some?
  {
  }

  /** A hero that no row names gets three empty sub-collections, never absent ones. */
  lemma UnmatchedHeroGetsEmptyCollections(id: string, tribeRows: seq<TribeRow>, warbandRows: seq<WarbandRow>,
                                          winrateRows: seq<WinrateRow>)
    requires forall k :: 0 <= k < |tribeRows| ==> tribeRows[k].heroCardId != id
    requires forall k :: 0 <= k < |warbandRows| ==> warbandRows[k].heroCardId != id
    requires forall k :: 0 <= k < |winrateRows| ==> winrateRows[k].heroCardId != id
    ensures TribesStatFor(id, tribeRows) == []
    ensures WarbandStatsFor(id, warbandRows) == []
    ensures CombatWinrateFor(id, winrateRows) == []
  {
  }

  /** The last record is 'average' with no metric, and empty series when no row names 'average'. */
  lemma AverageRecordIsEmpty(heroRows: seq<HeroStatsRow>, tribeRows: seq<TribeRow>, warbandRows: seq<WarbandRow>,
                             winrateRows: seq<WinrateRow>)
    requires forall k :: 0 <= k < |tribeRows| ==> tribeRows[k].heroCardId != AverageId
    requires forall k :: 0 <= k < |warbandRows| ==> warbandRows[k].heroCardId != AverageId
    requires forall k :: 0 <= k < |winrateRows| ==> winrateRows[k].heroCardId != AverageId
    ensures var r := Report(GetHeroStats(heroRows), tribeRows, warbandRows, winrateRows);
            r.heroStats[|r.heroStats| - 1] == Average.(tribesStat := Some([]), warbandStats := Some([]), combatWinrate := Some([]))
  {
  }

  /** Tribe rows for another hero, wherever they stand among the rows, leave a hero's tribes unchanged. */
  lemma ForeignTribesIgnored(id: string, before: seq<TribeRow>, extra: seq<TribeRow>, after: seq<TribeRow>)
    requires forall k :: 0 <= k < |extra| ==> extra[k].heroCardId != id
    ensures TribesStatFor(id, before + extra + after) == TribesStatFor(id, before + after)
  {
    assert TribesStatFor(id, extra) == [];
    TribesStatConcat(id, before + extra, after);
    TribesStatConcat(id, before, extra);
    TribesStatConcat(id, before, after);
  }

  /** Warband rows for another hero, wherever they stand, leave a hero's warband series unchanged. */
  lemma ForeignWarbandIgnored(id: string, before: seq<WarbandRow>, extra: seq<WarbandRow>, after: seq<WarbandRow>)
    requires forall k :: 0 <= k < |extra| ==> extra[k].heroCardId != id
    ensures WarbandStatsFor(id, before + extra + after) == WarbandStatsFor(id, before + after)
  {
    assert WarbandStatsFor(id, extra) == [];
    WarbandStatsConcat(id, before + extra, after);
    WarbandStatsConcat(id, before, extra);
    WarbandStatsConcat(id, before, after);
  }

  /** Winrate rows for another hero, wherever they stand, leave a hero's winrate series unchanged. */
  lemma ForeignWinrateIgnored(id: string, before: seq<WinrateRow>, extra: seq<WinrateRow>, after: seq<WinrateRow>)
    requires forall k :: 0 <= k < |extra| ==> extra[k].heroCardId != id
    ensures CombatWinrateFor(id, before + extra + after) == CombatWinrateFor(id, before + after)
  {
    assert CombatWinrateFor(id, extra) == [];
    CombatWinrateConcat(id, before + extra, after);
    CombatWinrateConcat(id, before, extra);
    CombatWinrateConcat(id, before, after);
  }

  /** Rows whose hero is not in the report, inserted anywhere among the rows, change nothing and cause no failure. */
  lemma ForeignRowsIgnored(heroStats: seq<HeroStat>,
                           tribesBefore: seq<TribeRow>, extraTribes: seq<TribeRow>, tribesAfter: seq<TribeRow>,
                           warbandBefore: seq<WarbandRow>, extraWarband: seq<WarbandRow>, warbandAfter: seq<WarbandRow>,
                           winrateBefore: seq<WinrateRow>, extraWinrate: seq<WinrateRow>, winrateAfter: seq<WinrateRow>)
    requires forall k :: 0 <= k < |extraTribes| ==> extraTribes[k].heroCardId !in Arrays.Map(IdOf, heroStats)
    requires forall k :: 0 <= k < |extraWarband| ==> extraWarband[k].heroCardId !in Arrays.Map(IdOf, heroStats)
    requires forall k :: 0 <= k < |extraWinrate| ==> extraWinrate[k].heroCardId !in Arrays.Map(IdOf, heroStats)
    ensures Report(heroStats, tribesBefore + extraTribes + tribesAfter, warbandBefore + extraWarband + warbandAfter,
                   winrateBefore + extraWinrate + winrateAfter)
            == Report(heroStats, tribesBefore + tribesAfter, warbandBefore + warbandAfter, winrateBefore + winrateAfter)
  {
    var ids := Arrays.Map(IdOf, heroStats);
    var r1 := Report(heroStats, tribesBefore + extraTribes + tribesAfter, warbandBefore + extraWarband + warbandAfter,
                     winrateBefore + extraWinrate + winrateAfter);
    var r2 := Report(heroStats, tribesBefore + tribesAfter, warbandBefore + warbandAfter, winrateBefore + winrateAfter);
    forall i | 0 <= i < |heroStats| ensures r1.heroStats[i] == r2.heroStats[i] {
      assert ids[i] == heroStats[i].id && ids[i] in ids;
      ForeignTribesIgnored(heroStats[i].id, tribesBefore, extraTribes, tribesAfter);
      ForeignWarbandIgnored(heroStats[i].id, warbandBefore, extraWarband, warbandAfter);
      ForeignWinrateIgnored(heroStats[i].id, winrateBefore, extraWinrate, winrateAfter);
    }
    assert r1.heroStats == r2.heroStats;
  }

  // ---------------------------------------------------------------------------
  // The handler

  /** The query results the handler obtains, each as a function of the value it interpolates. */
  datatype Db = Db(
    heroesDate: QueryResult<DateRow>,
    heroesAt: Date -> QueryResult<HeroIdRow>,
    heroStatsFor: string -> QueryResult<HeroStatsRow>,
    tribesDate: QueryResult<DateRow>,
    tribesAt: Date -> QueryResult<TribeRow>,
    warbandDate: QueryResult<DateRow>,
    warbandAt: Date -> QueryResult<WarbandRow>,
    winrateDate: QueryResult<DateRow>,
    winrateAt: Date -> QueryResult<WinrateRow>)

  datatype Fetched = Fetched(
    heroStats: seq<HeroStat>, tribeRows: seq<TribeRow>, warbandRows: seq<WarbandRow>, winrateRows: seq<WinrateRow>)

  /** The enumerated heroes of the latest dated hero-stats snapshot, rendered as an id list. */
  function FetchAllHeroes(db: Db): (r: Result<string, Error>)
    ensures r.Success? <==> FetchSnapshot(HeroStatsTable, db.heroesDate, db.heroesAt).Success?
    ensures r.Success? ==> r.value == GetAllHeroes(FetchSnapshot(HeroStatsTable, db.heroesDate, db.heroesAt).value)
    ensures r.Failure? ==> r.error == FetchSnapshot(HeroStatsTable, db.heroesDate, db.heroesAt).error
  {
    var rows :- FetchSnapshot(HeroStatsTable, db.heroesDate, db.heroesAt);
    Success(GetAllHeroes(rows))
  }

  /** The fetches in the handler's order; the first failure ends them. */
  function FetchAll(db: Db): (r: Result<Fetched, Error>)
    ensures r.Success? ==>
              && FetchAllHeroes(db).Success?
              && db.heroStatsFor(FetchAllHeroes(db).value).Success?
              && r.value.heroStats == GetHeroStats(db.heroStatsFor(FetchAllHeroes(db).value).value)
    ensures r.Success? ==>
              && Some(r.value.tribeRows) == ValueOf(FetchSnapshot(TribesTable, db.tribesDate, db.tribesAt))
              && Some(r.value.warbandRows) == ValueOf(FetchSnapshot(WarbandTable, db.warbandDate, db.warbandAt))
              && Some(r.value.winrateRows) == ValueOf(FetchSnapshot(WinrateTable, db.winrateDate, db.winrateAt))
    ensures AllFetchesSucceed(db) ==> r.Success?
  {
    var allHeroes :- FetchAllHeroes(db);
    var heroRows :- db.heroStatsFor(allHeroes);
    var tribeRows :- FetchSnapshot(TribesTable, db.tribesDate, db.tribesAt);
    var warbandRows :- FetchSnapshot(WarbandTable, db.warbandDate, db.warbandAt);
    var winrateRows :- FetchSnapshot(WinrateTable, db.winrateDate, db.winrateAt);
    Success(Fetched(GetHeroStats(heroRows), tribeRows, warbandRows, winrateRows))
  }

  /** Every query of the handler, in its order, returns rows. */
  predicate AllFetchesSucceed(db: Db) {
    && FetchAllHeroes(db).Success?
    && db.heroStatsFor(FetchAllHeroes(db).value).Success?
    && FetchSnapshot(TribesTable, db.tribesDate, db.tribesAt).Success?
    && FetchSnapshot(WarbandTable, db.warbandDate, db.warbandAt).Success?
    && FetchSnapshot(WinrateTable, db.winrateDate, db.winrateAt).Success?
  }

  function ValueOf<T>(r: Result<T, Error>): Option<T> {
    if r.Success? then Some(r.value) else None
  }

  /** The handler's `try` block: all or nothing. */
  function Retrieve(conn: Result<Db, Error>): (r: Result<BgsGlobalStats, Error>)
    ensures r.Success? <==> conn.Success? && FetchAll(conn.value).Success?
    ensures r.Success? ==>
              var f := FetchAll(conn.value).value;
              r.value == Report(f.heroStats, f.tribeRows, f.warbandRows, f.winrateRows)
  {
    var db :- conn;
    var fetched :- FetchAll(db);
    Success(Report(fetched.heroStats, fetched.tribeRows, fetched.warbandRows, fetched.winrateRows))
  }

  /** The body: the gzipped, base64-encoded JSON report, or the JSON error message. */
  datatype Body = GzippedReport(result: BgsGlobalStats) | ErrorMessage(message: string, exception: Error)

  datatype Response = Response(statusCode: int, isBase64Encoded: bool, body: Body, headers: map<string, string>)

  const SuccessHeaders := map["Content-Type" := "text/html", "Content-Encoding" := "gzip"]

  function Handle(conn: Result<Db, Error>): (resp: Response)
    ensures resp.statusCode == 200 <==> Retrieve(conn).Success?
    ensures resp.statusCode == 200 ==>
              resp.isBase64Encoded && resp.body == GzippedReport(Retrieve(conn).value) && resp.headers == SuccessHeaders
    ensures resp.statusCode != 200 ==>
              && resp.statusCode == 500
              && !resp.isBase64Encoded
              && resp.body == ErrorMessage("not ok", Retrieve(conn).error)
              && resp.headers == map[]
  {
    match Retrieve(conn)
    case Success(result) => Response(200, true, GzippedReport(result), SuccessHeaders)
    case Failure(e) => Response(500, false, ErrorMessage("not ok", e), map[])
  }

  /** An empty "latest date" result in any of the four tables makes the response the 500 envelope. */
  lemma EmptySnapshotFails(db: Db)
    requires || db.heroesDate == Success([])
             || db.tribesDate == Success([])
             || db.warbandDate == Success([])
             || db.winrateDate == Success([])
    ensures Handle(Success(db)).statusCode == 500
    ensures !Handle(Success(db)).isBase64Encoded
    ensures Handle(Success(db)).body.ErrorMessage? && Handle(Success(db)).body.message == "not ok"
  {
  }

  /** When every query returns rows, the response is the 200 envelope with the joined report. */
  lemma AllFetchesSucceedGive200(db: Db)
    requires AllFetchesSucceed(db)
    ensures Handle(Success(db)).statusCode == 200
    ensures Handle(Success(db)).isBase64Encoded
    ensures var f := FetchAll(db).value;
            Handle(Success(db)).body == GzippedReport(Report(f.heroStats, f.tribeRows, f.warbandRows, f.winrateRows))
  {
  }

  /** A 200 response carries one record per hero-stats row, then 'average', each with all three series. */
  lemma SuccessfulReportShape(db: Db)
    requires Handle(Success(db)).statusCode == 200
    ensures var report := Handle(Success(db)).body.result;
            && |report.heroStats| >= 1
            && report.heroStats[|report.heroStats| - 1].id == AverageId
            && HasNoScalars(report.heroStats[|report.heroStats| - 1])
            && forall i :: 0 <= i < |report.heroStats| ==>
                 report.heroStats[i].tribesStat.Some? && report.heroStats[i].warbandStats.Some?
                 && report.heroStats[i].combatWinrate.Some?
  {
  }
}
