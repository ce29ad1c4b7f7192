/**
 How the two dashboards relate: they build the same win table and agree on
 every country, but only `aaa.py` normalises the rows its year callback
 reads, so `assignment7.py` can still report "West Germany".
 */
module Divergence {
  import Text
  import opened Series
  import opened Finals
  import Aaa
  import Assignment7

  /** `win_counts` of `aaa.py` equals `country_win_counts` of `assignment7.py`. */
  lemma WinTablesAgree(raw: seq<Record>)
    ensures Aaa.Prepare(raw).winCounts == Assignment7.CountryWinCounts(raw)
  {
    NormaliseColumns(raw);
  }

  /** Both country callbacks report the same number of wins, and "none" for the same countries. */
  lemma CountryOutputsAgree(raw: seq<Record>, country: string)
    ensures Aaa.UpdateCountryOutput(Aaa.Prepare(raw), country) == Aaa.NeverWonSentence(country)
        <==> Assignment7.ShowCountryWins(raw, country) == Assignment7.HasNoWinsSentence(country)
    ensures MergedWins(raw, country) > 0 ==>
      && Aaa.UpdateCountryOutput(Aaa.Prepare(raw), country) == Aaa.WonSentence(country, MergedWins(raw, country))
      && Assignment7.ShowCountryWins(raw, country) == Assignment7.HasWinsSentence(country, MergedWins(raw, country))
  {
    WinTablesAgree(raw);
  }

  /**
   For the same selected year both callbacks pick the same row, but
   `aaa.py` reports its teams under their present-day names and
   `assignment7.py` reports them as scraped.
   */
  lemma YearOutputsDiverge(raw: seq<Record>, year: int, i: nat)
    requires i < |raw| && raw[i].year == year
    requires forall j | 0 <= j < i :: raw[j].year != year
    ensures Aaa.UpdateYearOutput(Aaa.Prepare(raw).finals, year)
      == Aaa.YearSentence(year, Canonical(raw[i].winner), Canonical(raw[i].runnerUp))
    ensures Assignment7.ShowYearDetails(raw, year)
      == Assignment7.YearDetailsSentence(year, raw[i].winner, raw[i].runnerUp)
  {
    FirstWithYearOnlyReadsYears(Aaa.Prepare(raw).finals, raw, year);
  }

  /**
   The 1990 final as scraped, West Germany beating Argentina: `assignment7.py`
   prints the historical name (characters 9 to 20 of its sentence), while
   `aaa.py` prints "Germany".
   */
  lemma WestGermanyStillShownByAssignment7()
    ensures var s := Assignment7.ShowYearDetails([Record(1990, WestGermany, "Argentina")], 1990);
      && s == Assignment7.YearDetailsSentence(1990, WestGermany, "Argentina")
      && |s| > 21 && s[9..21] == WestGermany
    ensures Aaa.UpdateYearOutput(Aaa.Prepare([Record(1990, WestGermany, "Argentina")]).finals, 1990)
      == Aaa.YearSentence(1990, Germany, "Argentina")
  {
    var raw := [Record(1990, WestGermany, "Argentina")];
    YearOutputsDiverge(raw, 1990, 0);
    assert Text.IntToString(1990) == "1990";
    var s := Assignment7.YearDetailsSentence(1990, WestGermany, "Argentina");
    var head := "In " + "1990" + ", ";
    assert s == head + WestGermany + (" won, and the runner-up was " + "Argentina" + ".");
    assert s[|head|..|head| + |WestGermany|] == WestGermany;
  }
}
