# FIFA World Cup finals dashboard — a Dafny model of its data pipeline

The repository holds two near-identical Dash applications, `aaa.py` and
`assignment7.py`. Each scrapes the table of FIFA World Cup finals (year,
winner, runner-up), merges the historical team name "West Germany" into
"Germany", counts the wins per country, and answers two questions in text:
how many times a selected country has won, and who played the final of a
selected year.

This project models that pipeline as pure functions over a sequence of
finals records and proves what it computes:

- `Text`: Python's decimal rendering of integers in f-strings, with its inverse.
- `Series`: the two pandas operations used on a team column.
  `Series.replace` is an exact-match replacement.
  `Series.value_counts` is kept as a map from name to count, so each country is a key only once.
- `Finals`: the finals record, the "West Germany" merge, first-match lookup
  by year, and `MergedWins`. `MergedWins` is an independent reference for
  the number of wins each country should be credited with.
- `Aaa`: start-up tables and the two text callbacks of `aaa.py`.
- `Assignment7`: the win table and the two text callbacks of `assignment7.py`.
- `Divergence`: how the two files agree (same win table, same country
  answers) and where they differ. `assignment7.py`'s year callback reads the
  scraped, un-normalised rows, so it can still print "West Germany".
- `Scenario`: three sample finals pushed through both pipelines.

The tables computed once at start-up are passed explicitly to the callbacks.
In `aaa.py` the country callback takes the `Dashboard` value, and the year
callback takes its `finals` table. In `assignment7.py` both callbacks take
the scraped rows.

Points where the code's behaviour is easy to misread, modelled as the code has it:

- Only `aaa.py` normalises the Runner-up column, and only it feeds normalised rows to its year callback. `assignment7.py` normalises
  only the Winners column, and only when counting.
- The country callbacks test whether the country is in the win table.
  `aaa.py` tests for a non-empty lookup; `assignment7.py` tests `get(c, 0) > 0`.
  Every count in the table is at least 1, so both tests come to the same thing.
- The year callbacks take the first row of the selected year. They do not
  assume that years are unique.

## Model

| member | source | states |
|---|---|---|
| Text.NatToString | aaa.py:72 | a win count renders as a non-empty run of decimal digits with no leading zero |
| Text.ParseNatToString | aaa.py:72 | reading the rendered digits back gives the count again |
| Text.NatToStringInjective | aaa.py:72 | different counts render to different texts |
| Text.IntToString | aaa.py:83 | a year renders as Python prints an int: a leading '-' exactly for negative years, then digits with no leading zero (only 0 itself starts with '0') |
| Text.ParseIntToString | aaa.py:83 | reading the rendered year back gives the year again |
| Text.IntToStringInjective | aaa.py:83 | different years render to different texts |
| Series.Count | aaa.py:22 | the number of cells equal to a name is at most the column length, and 0 exactly when the name is absent |
| Series.Replace | aaa.py:12-13 | `replace` turns exactly the cells equal to the old name into the new one; length, order and every other cell are kept; the old name no longer occurs |
| Series.ReplaceCount | assignment7.py:12 | after the replace the old name counts 0, the new name counts both names' former counts, and every other name keeps its count |
| Series.ReplaceIdempotent | aaa.py:12-13 | replacing a second time changes nothing |
| Series.ValueCounts | aaa.py:22-23 | `value_counts` has exactly the names occurring in the column as keys, each mapped to its number of occurrences, which is at least 1 |
| Series.ValueCountsTotal | aaa.py:22-23 | the counts of `value_counts` add up to the number of cells |
| Finals.Normalise | aaa.py:12-19 | normalisation keeps row count, order and Year; it rewrites exactly the "West Germany" Winner and Runner-up cells to "Germany"; no "West Germany" cell remains |
| Finals.NormaliseColumns | aaa.py:12-16 | normalising rows equals `replace` on the Winner column and on the Runner-up column |
| Finals.NormaliseIdempotent | aaa.py:12-13 | normalising already-normalised finals gives the same finals |
| Finals.FirstWithYear | aaa.py:79-82 | the lookup finds the first row of the selected year, and finds none exactly when no row has that year |
| Finals.FirstWithYearOnlyReadsYears | aaa.py:79 | the year lookup reads only the Year column: two tables with the same Year column pick the same row |
| Finals.MergedWinTable | assignment7.py:12-13 | counting the merged winners lists a country exactly when its merged wins are positive, with that number |
| Aaa.Prepare | aaa.py:12-23 | `finals_df` is the scraped finals with both team names canonical; `win_counts` lists exactly the Winner values of `finals_df`, each with its number of finals (at least 1), and never "West Germany" |
| Aaa.WinCountsFromRaw | aaa.py:12-23 | `win_counts` credits each country with its wins in the scraped finals, counting "West Germany" wins for Germany |
| Aaa.GermanyMerged | aaa.py:12-22 | the Germany entry equals the raw "Germany" wins plus the raw "West Germany" wins, and is present exactly when that sum is positive |
| Aaa.WinsSumToFinals | aaa.py:22-23 | the wins in `win_counts` add up to the number of finals |
| Aaa.PrepareIdempotent | aaa.py:12-23 | running the preparation again on `finals_df` yields the same two tables |
| Aaa.WonIsNotNeverWon | aaa.py:72 | a "has won ... time(s)." sentence never equals a "has never won" sentence |
| Aaa.UpdateCountryOutput | aaa.py:70-72 | a country in `win_counts` gets "{c} has won the World Cup {w} time(s)." with its count; the "never won" sentence is returned exactly for countries absent from the table |
| Aaa.CountryOutputFromRaw | aaa.py:70-72 | from the scraped finals: a country with merged wins n > 0 gets the "won n time(s)" sentence, any other gets "never won" |
| Aaa.YearSentenceIsNotNotFound | aaa.py:83-84 | a found-year sentence never equals "Year not found." |
| Aaa.UpdateYearOutput | aaa.py:78-84 | the output names the winner and runner-up of the first row of the selected year; it is "Year not found." exactly when no row has that year |
| Aaa.YearOutputNeverNamesWestGermany | aaa.py:78-84 | the year sentence reports the canonical names of the first matching scraped row, so neither team is "West Germany" |
| Assignment7.CountryWinCounts | assignment7.py:12-13 | `country_win_counts` never has a "West Germany" key; it lists a country exactly when its merged wins are positive, with that number (Germany = raw Germany + raw West Germany wins) |
| Assignment7.CountryWinCountsTotal | assignment7.py:12-13 | the counts add up to the number of finals |
| Assignment7.CountryWinCountsReadsWinnersOnly | assignment7.py:12 | only the Winners column feeds the table: tables with equal Winners columns give equal counts |
| Assignment7.HasWinsIsNotHasNoWins | assignment7.py:67-70 | a "has n wins." sentence never equals a "has no wins." sentence |
| Assignment7.ShowCountryWins | assignment7.py:64-70 | the recomputed total agrees with `country_win_counts`: "{c} has {n} wins." with the table's count when listed, and "has no wins." exactly when the country is absent |
| Assignment7.YearDetailsIsNotNotFound | assignment7.py:82-83 | a found-year sentence never equals "Year not found." |
| Assignment7.ShowYearDetails | assignment7.py:77-83 | the output reports the first scraped row of the selected year with its Winners and Runners-up cells verbatim; it is "Year not found." exactly when no row has that year |
| Divergence.WinTablesAgree | assignment7.py:12-13 | `country_win_counts` of `assignment7.py` equals `win_counts` of `aaa.py` on every input |
| Divergence.CountryOutputsAgree | assignment7.py:64-70 | both country callbacks report the same number of wins, and report "none" for the same countries |
| Divergence.YearOutputsDiverge | assignment7.py:77-83 | both year callbacks pick the same row; `aaa.py` prints its canonical team names, `assignment7.py` prints them as scraped |
| Divergence.WestGermanyStillShownByAssignment7 | assignment7.py:78-82 | on the 1990 final as scraped, `assignment7.py` prints "West Germany" verbatim while `aaa.py` prints "Germany" |
| Scenario.ThreeFinalsMergedWins | aaa.py:12-22 | in the three sample finals Germany is credited with 2 wins, France with 1, every other name with 0 |
| Scenario.ThreeFinalsWinTable | aaa.py:22-23 | both win tables of the sample are exactly {Germany: 2, France: 1} |
| Scenario.ThreeFinalsCountryOutputs | aaa.py:70-72 | in the sample, Germany gets the "2" sentence and Brazil the "never"/"no wins" sentence, in both files |
| Scenario.ThreeFinalsCountryTexts | aaa.py:70-72 | in the sample the displayed texts are exactly "Germany has won the World Cup 2 time(s).", "Brazil has never won the World Cup.", "Germany has 2 wins." and "Brazil has no wins." |
| Scenario.SampleWonSentence | aaa.py:72 | the "won" sentence for Germany with 2 wins is the literal text "Germany has won the World Cup 2 time(s)." |
| Scenario.SampleNeverWonSentence | aaa.py:72 | the "never won" sentence for Brazil is the literal text "Brazil has never won the World Cup." |
| Scenario.SampleHasWinsSentence | assignment7.py:68 | the "wins" sentence for Germany with 2 wins is the literal text "Germany has 2 wins." |
| Scenario.SampleHasNoWinsSentence | assignment7.py:70 | the "no wins" sentence for Brazil is the literal text "Brazil has no wins." |
| Scenario.ThreeFinalsYearOutputs | aaa.py:78-84 | in the sample, 2018 reports France and Croatia, and 2000 is "Year not found." |
| Scenario.ThreeFinalsYearTexts | aaa.py:78-84 | in the sample the displayed texts are exactly "In 2018, the Winner was France and the Runner-up was Croatia." and "Year not found." |
| Scenario.SampleYearSentence | aaa.py:83 | the year sentence for 2018, France and Croatia is the literal text "In 2018, the Winner was France and the Runner-up was Croatia." |

## Left out

- Fetching and parsing the web page (`pd.read_html`, table index 3) is network I/O and a foreign HTML parser. The scraped table is a parameter of the model.
- Columns of the scraped table other than Year, Winners and Runners-up are not modelled. The column rename and the column subset in `aaa.py` are the identity on the model's record.
- Missing cells, NaN and pandas dtype coercion are not modelled. Every Year is an integer and every team name is a string.
- A cleared dropdown delivering `None` to a callback is not modelled. Callback inputs are a string country and an integer year.
- The Dash layout, dropdown options and default values are UI wiring. This includes the sorted unique countries and years and the defaults 'Brazil' and 2018.
- `update_map` is not modelled. It is a foreign plotly call, and its result does not depend on its argument in either file.
- Server start-up, the `PORT` variable (default 8050) and debug mode are process plumbing.
- The descending order of the `value_counts` result is not modelled. No consumer relies on it, so the win table is a map.
