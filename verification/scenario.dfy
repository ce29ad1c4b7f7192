/**
 A worked example of the whole pipeline on three finals, one of them won
 under the name "West Germany".
 */
module Scenario {
  import Text
  import opened Series
  import opened Finals
  import Aaa
  import Assignment7
  import Divergence

  function ThreeFinals(): seq<Record> {
    [Record(2014, Germany, "Argentina"), Record(1990, WestGermany, "Argentina"), Record(2018, "France", "Croatia")]
  }

  lemma ThreeFinalsMergedWins()
    ensures MergedWins(ThreeFinals(), Germany) == 2
    ensures MergedWins(ThreeFinals(), "France") == 1
    ensures forall c | c != Germany && c != "France" :: MergedWins(ThreeFinals(), c) == 0
  {
    var w := Winners(ThreeFinals());
    assert w == [Germany, WestGermany, "France"];
    assert w[..2] == [Germany, WestGermany];
    assert w[..2][..1] == [Germany];
    assert w[..2][..1][..0] == [];
  }

  /** Both dashboards count Germany twice and France once, and nothing else. */
  lemma ThreeFinalsWinTable()
    ensures Aaa.Prepare(ThreeFinals()).winCounts == map[Germany := 2, "France" := 1]
    ensures Assignment7.CountryWinCounts(ThreeFinals()) == map[Germany := 2, "France" := 1]
  {
    var expected := map[Germany := 2, "France" := 1];
    var m := Assignment7.CountryWinCounts(ThreeFinals());
    ThreeFinalsMergedWins();
    assert m.Keys == expected.Keys;
    assert m == expected;
    Divergence.WinTablesAgree(ThreeFinals());
  }

  /** Germany has won twice, Brazil never, in both dashboards' wording. */
  lemma ThreeFinalsCountryOutputs()
    ensures Aaa.UpdateCountryOutput(Aaa.Prepare(ThreeFinals()), Germany) == Aaa.WonSentence(Germany, 2)
    ensures Aaa.UpdateCountryOutput(Aaa.Prepare(ThreeFinals()), "Brazil") == Aaa.NeverWonSentence("Brazil")
    ensures Assignment7.ShowCountryWins(ThreeFinals(), Germany) == Assignment7.HasWinsSentence(Germany, 2)
    ensures Assignment7.ShowCountryWins(ThreeFinals(), "Brazil") == Assignment7.HasNoWinsSentence("Brazil")
  {
    ThreeFinalsMergedWins();
    Divergence.CountryOutputsAgree(ThreeFinals(), Germany);
    Divergence.CountryOutputsAgree(ThreeFinals(), "Brazil");
  }

  /** The same country answers, as the exact texts the two dashboards display. */
  lemma ThreeFinalsCountryTexts()
    ensures Aaa.UpdateCountryOutput(Aaa.Prepare(ThreeFinals()), Germany) == "Germany has won the World Cup 2 time(s)."
    ensures Aaa.UpdateCountryOutput(Aaa.Prepare(ThreeFinals()), "Brazil") == "Brazil has never won the World Cup."
    ensures Assignment7.ShowCountryWins(ThreeFinals(), Germany) == "Germany has 2 wins."
    ensures Assignment7.ShowCountryWins(ThreeFinals(), "Brazil") == "Brazil has no wins."
  {
    ThreeFinalsCountryOutputs();
    SampleWonSentence();
    SampleNeverWonSentence();
    SampleHasWinsSentence();
    SampleHasNoWinsSentence();
  }

  lemma SampleWonSentence()
    ensures Aaa.WonSentence(Germany, 2) == "Germany has won the World Cup 2 time(s)."
  {
    assert Text.NatToString(2) == "2";
  }

  lemma SampleNeverWonSentence()
    ensures Aaa.NeverWonSentence("Brazil") == "Brazil has never won the World Cup."
  {
  }

  lemma SampleHasWinsSentence()
    ensures Assignment7.HasWinsSentence(Germany, 2) == "Germany has 2 wins."
  {
    assert Text.NatToString(2) == "2";
  }

  lemma SampleHasNoWinsSentence()
    ensures Assignment7.HasNoWinsSentence("Brazil") == "Brazil has no wins."
  {
  }

  /** 2018 is found with France and Croatia; 2000 had no final. */
  lemma ThreeFinalsYearOutputs()
    ensures Aaa.UpdateYearOutput(Aaa.Prepare(ThreeFinals()).finals, 2018) == Aaa.YearSentence(2018, "France", "Croatia")
    ensures Aaa.UpdateYearOutput(Aaa.Prepare(ThreeFinals()).finals, 2000) == Aaa.YearNotFound
  {
    var finals := Aaa.Prepare(ThreeFinals()).finals;
    assert finals[2] == Record(2018, "France", "Croatia");
    assert finals[0].year == 2014 && finals[1].year == 1990;
  }

  /** The same year answers, as the exact texts `aaa.py` displays. */
  lemma ThreeFinalsYearTexts()
    ensures Aaa.UpdateYearOutput(Aaa.Prepare(ThreeFinals()).finals, 2018)
      == "In 2018, the Winner was France and the Runner-up was Croatia."
    ensures Aaa.UpdateYearOutput(Aaa.Prepare(ThreeFinals()).finals, 2000) == "Year not found."
  {
    ThreeFinalsYearOutputs();
    SampleYearSentence();
  }

  lemma SampleYearSentence()
    ensures Aaa.YearSentence(2018, "France", "Croatia")
      == "In 2018, the Winner was France and the Runner-up was Croatia."
  {
    assert Text.IntToString(2018) == "2018";
    SampleYearText();
  }

  /** The year sentence's pieces for 2018, joined one at a time. */
  lemma SampleYearText()
    ensures "In " + "2018" + ", the Winner was " + "France" + " and the Runner-up was " + "Croatia" + "."
      == "In 2018, the Winner was France and the Runner-up was Croatia."
  {
    assert "In " + "2018" == "In 2018";
    assert "In 2018" + ", the Winner was " == "In 2018, the Winner was ";
    assert "In 2018, the Winner was " + "France" == "In 2018, the Winner was France";
    assert "In 2018, the Winner was France" + " and the Runner-up was "
      == "In 2018, the Winner was France and the Runner-up was ";
    assert "In 2018, the Winner was France and the Runner-up was " + "Croatia"
      == "In 2018, the Winner was France and the Runner-up was Croatia";
    assert "In 2018, the Winner was France and the Runner-up was Croatia" + "."
      == "In 2018, the Winner was France and the Runner-up was Croatia.";
  }
}
