/**
 The finals table scraped from the list of FIFA World Cup finals: one record
 per final, its year, its winner and its runner-up, in the order of the page.
 The only cleaning either dashboard applies is merging the historical name
 "West Germany" into "Germany".
 */
module Finals {
  import opened Series

  datatype Record = Record(year: int, winner: string, runnerUp: string)

  datatype Option<T> = None | Some(value: T)

  const WestGermany: string := "West Germany"
  const Germany: string := "Germany"

  /** The Winner column of a table. */
  function Winners(rows: seq<Record>): (column: seq<string>)
  {
    seq(|rows|, i requires 0 <= i < |rows| => rows[i].winner)
  }

  /** The Runner-up column of a table. */
  function RunnersUp(rows: seq<Record>): (column: seq<string>)
  {
    seq(|rows|, i requires 0 <= i < |rows| => rows[i].runnerUp)
  }

  /** The present-day name of a team: "West Germany" is merged into "Germany". */
  function Canonical(name: string): string {
    if name == WestGermany then Germany else name
  }

  /**
   Both team columns with "West Germany" replaced by "Germany". The Year
   column, the number of rows and their order are kept, and no other cell
   changes.
   */
  function Normalise(rows: seq<Record>): (out: seq<Record>)
    ensures |out| == |rows|
    ensures forall i | 0 <= i < |rows| :: out[i].year == rows[i].year
    ensures forall i | 0 <= i < |rows| :: out[i].winner != WestGermany && out[i].runnerUp != WestGermany
    ensures forall i | 0 <= i < |rows| && rows[i].winner == WestGermany :: out[i].winner == Germany
    ensures forall i | 0 <= i < |rows| && rows[i].winner != WestGermany :: out[i].winner == rows[i].winner
    ensures forall i | 0 <= i < |rows| && rows[i].runnerUp == WestGermany :: out[i].runnerUp == Germany
    ensures forall i | 0 <= i < |rows| && rows[i].runnerUp != WestGermany :: out[i].runnerUp == rows[i].runnerUp
  {
    if |rows| == 0 then []
    else
      var last := rows[|rows| - 1];
      Normalise(rows[..|rows| - 1]) + [Record(last.year, Canonical(last.winner), Canonical(last.runnerUp))]
  }

  /** Normalising the rows is the same as replacing in each team column. */
  lemma NormaliseColumns(rows: seq<Record>)
    ensures Winners(Normalise(rows)) == Replace(Winners(rows), WestGermany, Germany)
    ensures RunnersUp(Normalise(rows)) == Replace(RunnersUp(rows), WestGermany, Germany)
  {
  }

  /** Normalising already-normalised finals changes nothing. */
  lemma NormaliseIdempotent(rows: seq<Record>)
    ensures Normalise(Normalise(rows)) == Normalise(rows)
  {
  }

  /** Position of the first row whose Year is `year`, if any. */
  function FirstWithYear(rows: seq<Record>, year: int): (r: Option<nat>)
    ensures r.None? <==> forall i | 0 <= i < |rows| :: rows[i].year != year
    ensures r.Some? ==> r.value < |rows| && rows[r.value].year == year
    ensures r.Some? ==> forall j | 0 <= j < r.value :: rows[j].year != year
  {
    if |rows| == 0 then None
    else if rows[0].year == year then Some(0)
    else
      match FirstWithYear(rows[1..], year)
      case None => None
      case Some(k) => Some(k + 1)
  }

  /** Two tables with the same Year column give the same first match. */
  lemma FirstWithYearOnlyReadsYears(a: seq<Record>, b: seq<Record>, year: int)
    requires |a| == |b|
    requires forall i | 0 <= i < |a| :: a[i].year == b[i].year
    ensures FirstWithYear(a, year) == FirstWithYear(b, year)
  {
  }

  /**
   Wins credited to `country` by the raw finals once "West Germany" is
   merged into "Germany": the historical name is credited with none, and
   Germany with the finals won under either name.
   */
  function MergedWins(raw: seq<Record>, country: string): nat {
    if country == WestGermany then 0
    else if country == Germany then Count(Winners(raw), Germany) + Count(Winners(raw), WestGermany)
    else Count(Winners(raw), country)
  }

  /**
   The win table both dashboards build, counted from the winners after the
   merge, credits each country with exactly its merged wins, and lists just
   the countries that have some.
   */
  lemma MergedWinTable(raw: seq<Record>)
    ensures var m := ValueCounts(Replace(Winners(raw), WestGermany, Germany));
      && (forall c :: c in m <==> MergedWins(raw, c) > 0)
      && (forall c | c in m :: m[c] == MergedWins(raw, c))
  {
    var column := Replace(Winners(raw), WestGermany, Germany);
    forall c
      ensures Count(column, c) == MergedWins(raw, c)
    {
      ReplaceCount(Winners(raw), WestGermany, Germany, c);
    }
  }
}
