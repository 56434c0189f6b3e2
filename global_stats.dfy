/**
 * The report's record shapes (`BgsGlobalStats` and `BgsGlobalHeroStat`, the
 * version that carries `combatWinrate`). A property the TypeScript object does
 * not have yet is `None`: the hero records built from the hero-stats rows have
 * no sub-collections, and the `'average'` record has no scalar metric either.
 */
module GlobalStats {
  import opened Wrappers

  /** The metric values (`popularity`, `percent`, `statsDelta`, ...) are only copied, never computed. */
  type Num = int

  datatype TribeStat = TribeStat(tribe: string, percent: Num)

  datatype WarbandStat = WarbandStat(turn: int, totalStats: Num)

  datatype CombatWinrate = CombatWinrate(turn: int, winrate: Num)

  datatype HeroStat = HeroStat(
    id: string,
    popularity: Option<Num>,
    averagePosition: Option<Num>,
    top4: Option<Num>,
    top1: Option<Num>,
    tier: Option<string>,
    tribesStat: Option<seq<TribeStat>>,
    warbandStats: Option<seq<WarbandStat>>,
    combatWinrate: Option<seq<CombatWinrate>>)

  datatype BgsGlobalStats = BgsGlobalStats(heroStats: seq<HeroStat>)
}
