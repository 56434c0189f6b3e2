/** Concrete inputs and the report the handler builds from them. */
module Scenarios {
  import opened Wrappers
  import opened GlobalStats
  import opened RetrieveGlobalStats
  import Strings

  /** Two heroes and no auxiliary rows: three records, every series empty. */
  lemma TwoHeroesNoAuxiliaryRows()
    ensures var r := Report(GetHeroStats([HeroStatsRow("H1", 4, 10, 50, 12, "A"), HeroStatsRow("H2", 5, 20, 40, 9, "B")]), [], [], []);
            && |r.heroStats| == 3
            && r.heroStats[0].id == "H1" && r.heroStats[0].popularity == Some(10)
            && r.heroStats[1].id == "H2" && r.heroStats[1].popularity == Some(20)
            && r.heroStats[2].id == AverageId && r.heroStats[2].popularity == None
            && forall i :: 0 <= i < 3 ==>
                 r.heroStats[i].tribesStat == Some([]) && r.heroStats[i].warbandStats == Some([])
                 && r.heroStats[i].combatWinrate == Some([])
  {
  }

  /** Turns 5, 20, 15, 10: turn 20 is dropped and the rest keep their input order (nothing sorts them). */
  lemma WarbandKeepsInputOrder(rows: seq<WarbandRow>)
    requires rows == [WarbandRow("H1", 5, 1), WarbandRow("H1", 20, 2), WarbandRow("H1", 15, 3), WarbandRow("H1", 10, 4)]
    ensures WarbandStatsFor("H1", rows) == [WarbandStat(5, 1), WarbandStat(15, 3), WarbandStat(10, 4)]
  {
    var tail2 := rows[2..];
    assert WarbandStatsFor("H1", tail2) == [WarbandStat(15, 3), WarbandStat(10, 4)] by {
      assert tail2 == [tail2[0]] + [tail2[1]];
      WarbandStatsConcat("H1", [tail2[0]], [tail2[1]]);
      WarbandStatsRow("H1", tail2[0]);
      WarbandStatsRow("H1", tail2[1]);
    }
    var tail1 := rows[1..];
    assert WarbandStatsFor("H1", tail1) == [WarbandStat(15, 3), WarbandStat(10, 4)] by {
      assert tail1 == [tail1[0]] + tail2;
      WarbandStatsConcat("H1", [tail1[0]], tail2);
      WarbandStatsRow("H1", tail1[0]);
    }
    assert rows == [rows[0]] + tail1;
    WarbandStatsConcat("H1", [rows[0]], tail1);
    WarbandStatsRow("H1", rows[0]);
  }

  /** The same rows in the order the query requests come out ascending by turn. */
  lemma WarbandInQueryOrderIsAscending()
    ensures WarbandStatsFor("H1", [WarbandRow("H1", 5, 1), WarbandRow("H1", 10, 4), WarbandRow("H1", 15, 3),
                                   WarbandRow("H1", 20, 2)])
            == [WarbandStat(5, 1), WarbandStat(10, 4), WarbandStat(15, 3)]
  {
  }

  /** A row at turn 16 is dropped from the warband series but kept in the winrate series. */
  lemma CutOffsAreIndependent()
    ensures WarbandStatsFor("H1", [WarbandRow("H1", 16, 7)]) == []
    ensures CombatWinrateFor("H1", [WinrateRow("H1", 16, 7)]) == [CombatWinrate(16, 7)]
    ensures CombatWinrateFor("H1", [WinrateRow("H1", 19, 7)]) == []
  {
  }

  /** Tribe "BEAST" at 40 percent becomes ("beast", 40). */
  lemma TribeIsLowerCased()
    ensures TribesStatFor("H1", [TribeRow("H1", "BEAST", 40)]) == [TribeStat("beast", 40)]
  {
    TribesStatRow("H1", TribeRow("H1", "BEAST", 40));
    assert Strings.ToLower("BEAST") == "beast";
  }

  /** Three enumerated heroes render as a quoted, comma-separated list. */
  lemma HeroListRendering()
    ensures GetAllHeroes([HeroIdRow("A"), HeroIdRow("B"), HeroIdRow("C")]) == "'A','B','C'"
    ensures GetAllHeroes([]) == ""
  {
    GetAllHeroesSingle(HeroIdRow("A"));
    GetAllHeroesAppend([HeroIdRow("A")], HeroIdRow("B"));
    assert [HeroIdRow("A")] + [HeroIdRow("B")] == [HeroIdRow("A"), HeroIdRow("B")];
    GetAllHeroesAppend([HeroIdRow("A"), HeroIdRow("B")], HeroIdRow("C"));
    assert [HeroIdRow("A"), HeroIdRow("B")] + [HeroIdRow("C")] == [HeroIdRow("A"), HeroIdRow("B"), HeroIdRow("C")];
  }
}
