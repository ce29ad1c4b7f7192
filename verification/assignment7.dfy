/**
 The dashboard of `assignment7.py`. Only the Winners column is normalised,
 and only for counting: the win table is built from it at start-up, the
 country callback rebuilds the same counts on every call, and the year
 callback reads the scraped table as it is.
 */
module Assignment7 {
  import opened Text
  import opened Series
  import opened Finals

  /** `country_win_counts`: value counts of the Winners column after the merge. */
  function CountryWinCounts(raw: seq<Record>): (m: map<string, nat>)
    ensures WestGermany !in m
    ensures forall c :: c in m <==> MergedWins(raw, c) > 0
    ensures forall c | c in m :: m[c] == MergedWins(raw, c) && m[c] >= 1
  {
    MergedWinTable(raw);
    ValueCounts(Replace(Winners(raw), WestGermany, Germany))
  }

  /** Every final is won by exactly one team: the counts add up to the number of finals. */
  lemma CountryWinCountsTotal(raw: seq<Record>)
    ensures SumValues(CountryWinCounts(raw)) == |raw|
  {
    ValueCountsTotal(Replace(Winners(raw), WestGermany, Germany));
  }

  /** Only the Winners column is read: the runners-up never matter to the counts. */
  lemma CountryWinCountsReadsWinnersOnly(a: seq<Record>, b: seq<Record>)
    requires Winners(a) == Winners(b)
    ensures CountryWinCounts(a) == CountryWinCounts(b)
  {
  }

  function HasWinsSentence(country: string, wins: nat): string {
    country + " has " + NatToString(wins) + " wins."
  }

  function HasNoWinsSentence(country: string): string {
    country + " has no wins."
  }

  /** The character before " wins." is a digit in one sentence and 'o' in the other. */
  lemma HasWinsIsNotHasNoWins(country: string, wins: nat, other: string)
    ensures HasWinsSentence(country, wins) != HasNoWinsSentence(other)
  {
    var digits := NatToString(wins);
    var s := HasWinsSentence(country, wins);
    var t := HasNoWinsSentence(other);
    assert s == (country + " has " + digits) + " wins.";
    assert s[|s| - 7] == digits[|digits| - 1];
    assert IsDigit(s[|s| - 7]);
    assert t[|t| - 7] == 'o';
  }

  /** `dict.get`-style lookup with a default, as `Series.get(key, 0)`. */
  function GetOrZero(m: map<string, nat>, key: string): nat {
    if key in m then m[key] else 0
  }

  /**
   `show_country_wins`: recounts the merged winners on each call and reports
   the country's total, which agrees with `country_win_counts` (0 when the
   country is absent from it).
   */
  function ShowCountryWins(raw: seq<Record>, country: string): (s: string)
    ensures country in CountryWinCounts(raw) ==> s == HasWinsSentence(country, CountryWinCounts(raw)[country])
    ensures country !in CountryWinCounts(raw) <==> s == HasNoWinsSentence(country)
  {
    var winSeries := ValueCounts(Replace(Winners(raw), WestGermany, Germany));
    var totalWins := GetOrZero(winSeries, country);
    if totalWins > 0 then
      HasWinsIsNotHasNoWins(country, totalWins, country);
      HasWinsSentence(country, totalWins)
    else HasNoWinsSentence(country)
  }

  function YearDetailsSentence(year: int, winner: string, runnerUp: string): string {
    "In " + IntToString(year) + ", " + winner + " won, and the runner-up was " + runnerUp + "."
  }

  const YearNotFound: string := "Year not found."

  lemma YearDetailsIsNotNotFound(year: int, winner: string, runnerUp: string)
    ensures YearDetailsSentence(year, winner, runnerUp) != YearNotFound
  {
    assert YearDetailsSentence(year, winner, runnerUp)[0] == 'I';
  }

  /**
   `show_year_details`: the first scraped final of the selected year, with
   its Winners and Runners-up cells as scraped, or "Year not found.".
   */
  function ShowYearDetails(raw: seq<Record>, year: int): (s: string)
    ensures (forall i | 0 <= i < |raw| :: raw[i].year != year) <==> s == YearNotFound
    ensures forall i | 0 <= i < |raw| && raw[i].year == year && (forall j | 0 <= j < i :: raw[j].year != year) ::
      s == YearDetailsSentence(year, raw[i].winner, raw[i].runnerUp)
  {
    match FirstWithYear(raw, year)
    case None => YearNotFound
    case Some(i) =>
      YearDetailsIsNotNotFound(year, raw[i].winner, raw[i].runnerUp);
      YearDetailsSentence(year, raw[i].winner, raw[i].runnerUp)
  }
}
