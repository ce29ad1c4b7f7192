/**
 The dashboard of `aaa.py`. At start-up both team columns are normalised and
 the wins are counted from the normalised Winner column; the two text
 callbacks then read those two tables.
 */
module Aaa {
  import opened Text
  import opened Series
  import opened Finals

  /** The tables computed once at start-up: `finals_df` and `win_counts`. */
  datatype Dashboard = Dashboard(finals: seq<Record>, winCounts: map<string, nat>)

  /** Normalise the scraped finals, keep Year/Winner/RunnerUp, count the wins. */
  function Prepare(raw: seq<Record>): (d: Dashboard)
    ensures |d.finals| == |raw|
    ensures forall i | 0 <= i < |raw| :: d.finals[i].year == raw[i].year
    ensures forall i | 0 <= i < |raw| :: d.finals[i].winner == Canonical(raw[i].winner)
    ensures forall i | 0 <= i < |raw| :: d.finals[i].runnerUp == Canonical(raw[i].runnerUp)
    ensures forall i | 0 <= i < |raw| :: d.finals[i].winner != WestGermany && d.finals[i].runnerUp != WestGermany
    ensures forall c :: c in d.winCounts <==> c in Winners(d.finals)
    ensures forall c | c in d.winCounts :: d.winCounts[c] == Count(Winners(d.finals), c) && d.winCounts[c] >= 1
    ensures WestGermany !in d.winCounts
  {
    var finals := Normalise(raw);
    Dashboard(finals, ValueCounts(Winners(finals)))
  }

  /** The win table of `aaa.py` credits each country with its merged wins. */
  lemma WinCountsFromRaw(raw: seq<Record>)
    ensures forall c :: c in Prepare(raw).winCounts <==> MergedWins(raw, c) > 0
    ensures forall c | c in Prepare(raw).winCounts :: Prepare(raw).winCounts[c] == MergedWins(raw, c)
  {
    NormaliseColumns(raw);
    MergedWinTable(raw);
  }

  /** Germany's entry adds the raw "Germany" and "West Germany" wins. */
  lemma GermanyMerged(raw: seq<Record>)
    ensures var n := Count(Winners(raw), Germany) + Count(Winners(raw), WestGermany);
      && (Germany in Prepare(raw).winCounts <==> n > 0)
      && (Germany in Prepare(raw).winCounts ==> Prepare(raw).winCounts[Germany] == n)
  {
    WinCountsFromRaw(raw);
  }

  /** Every final is won by exactly one team: the wins add up to the number of finals. */
  lemma WinsSumToFinals(raw: seq<Record>)
    ensures SumValues(Prepare(raw).winCounts) == |raw|
  {
    ValueCountsTotal(Winners(Normalise(raw)));
  }

  /** Starting up again from the prepared finals yields the same tables. */
  lemma PrepareIdempotent(raw: seq<Record>)
    ensures Prepare(Prepare(raw).finals) == Prepare(raw)
  {
    NormaliseIdempotent(raw);
  }

  function WonSentence(country: string, wins: nat): string {
    country + " has won the World Cup " + NatToString(wins) + " time(s)."
  }

  function NeverWonSentence(country: string): string {
    country + " has never won the World Cup."
  }

  /** The "time(s)." and "World Cup." endings never coincide. */
  lemma WonIsNotNeverWon(country: string, wins: nat, other: string)
    ensures WonSentence(country, wins) != NeverWonSentence(other)
  {
    var s := WonSentence(country, wins);
    var t := NeverWonSentence(other);
    assert s[|s| - 2] == ')';
    assert t[|t| - 2] == 'p';
  }

  /** `update_country_output`: the country's row of the win table, or the "never won" sentence. */
  function UpdateCountryOutput(d: Dashboard, country: string): (s: string)
    ensures country in d.winCounts ==> s == WonSentence(country, d.winCounts[country])
    ensures country !in d.winCounts <==> s == NeverWonSentence(country)
  {
    if country in d.winCounts then
      WonIsNotNeverWon(country, d.winCounts[country], country);
      WonSentence(country, d.winCounts[country])
    else NeverWonSentence(country)
  }

  /** From the scraped finals to the sentence shown for a country. */
  lemma CountryOutputFromRaw(raw: seq<Record>, country: string)
    ensures MergedWins(raw, country) > 0 ==>
      UpdateCountryOutput(Prepare(raw), country) == WonSentence(country, MergedWins(raw, country))
    ensures MergedWins(raw, country) == 0 ==>
      UpdateCountryOutput(Prepare(raw), country) == NeverWonSentence(country)
  {
    WinCountsFromRaw(raw);
  }

  function YearSentence(year: int, winner: string, runnerUp: string): string {
    "In " + IntToString(year) + ", the Winner was " + winner + " and the Runner-up was " + runnerUp + "."
  }

  const YearNotFound: string := "Year not found."

  lemma YearSentenceIsNotNotFound(year: int, winner: string, runnerUp: string)
    ensures YearSentence(year, winner, runnerUp) != YearNotFound
  {
    assert YearSentence(year, winner, runnerUp)[0] == 'I';
  }

  /**
   `update_year_output`: the first final of the selected year, reported with
   the winner and runner-up of that row, or "Year not found.".
   */
  function UpdateYearOutput(finals: seq<Record>, year: int): (s: string)
    ensures (forall i | 0 <= i < |finals| :: finals[i].year != year) <==> s == YearNotFound
    ensures forall i | 0 <= i < |finals| && finals[i].year == year && (forall j | 0 <= j < i :: finals[j].year != year) ::
      s == YearSentence(year, finals[i].winner, finals[i].runnerUp)
  {
    match FirstWithYear(finals, year)
    case None => YearNotFound
    case Some(i) =>
      YearSentenceIsNotNotFound(year, finals[i].winner, finals[i].runnerUp);
      YearSentence(year, finals[i].winner, finals[i].runnerUp)
  }

  /** No year sentence of this dashboard mentions "West Germany" as a team. */
  lemma YearOutputNeverNamesWestGermany(raw: seq<Record>, year: int, i: nat)
    requires i < |raw| && raw[i].year == year
    requires forall j | 0 <= j < i :: raw[j].year != year
    ensures UpdateYearOutput(Prepare(raw).finals, year) == YearSentence(year, Canonical(raw[i].winner), Canonical(raw[i].runnerUp))
    ensures Canonical(raw[i].winner) != WestGermany && Canonical(raw[i].runnerUp) != WestGermany
  {
  }
}
