/**
 The few pandas Series operations the dashboard uses, on a column of team
 names: `Series.replace(old, new)` with exact-match semantics and
 `Series.value_counts()`, whose result is kept as a map from name to count
 (the descending order of the pandas result is not modelled).
 */
module Series {

  /** Number of cells of `column` equal to `c`. */
  function Count(column: seq<string>, c: string): (n: nat)
    ensures n <= |column|
    ensures n == 0 <==> c !in column
  {
    if |column| == 0 then 0
    else
      var init := column[..|column| - 1];
      assert column == init + [column[|column| - 1]];
      Count(init, c) + (if column[|column| - 1] == c then 1 else 0)
  }

  /**
   `Series.replace(from, to)`: every cell exactly equal to `from` becomes `to`;
   every other cell, the length and the order are kept.
   */
  function Replace(column: seq<string>, from: string, to: string): (r: seq<string>)
    ensures |r| == |column|
    ensures forall i | 0 <= i < |column| && column[i] == from :: r[i] == to
    ensures forall i | 0 <= i < |column| && column[i] != from :: r[i] == column[i]
    ensures from != to ==> from !in r
  {
    if |column| == 0 then []
    else
      var last := column[|column| - 1];
      Replace(column[..|column| - 1], from, to) + [if last == from then to else last]
  }

  /** How replacing `from` by `to` moves the counts of a column. */
  lemma {:induction false} ReplaceCount(column: seq<string>, from: string, to: string, c: string)
    requires from != to
    ensures c == from ==> Count(Replace(column, from, to), c) == 0
    ensures c == to ==> Count(Replace(column, from, to), c) == Count(column, to) + Count(column, from)
    ensures c != from && c != to ==> Count(Replace(column, from, to), c) == Count(column, c)
  {
    if |column| > 0 {
      var init := column[..|column| - 1];
      var r := Replace(column, from, to);
      assert r[..|r| - 1] == Replace(init, from, to);
      ReplaceCount(init, from, to, c);
    }
  }

  /** Replacing twice is replacing once. */
  lemma ReplaceIdempotent(column: seq<string>, from: string, to: string)
    ensures Replace(Replace(column, from, to), from, to) == Replace(column, from, to)
  {
  }

  /**
   `Series.value_counts()`: one key per distinct cell, mapped to the number of
   cells holding it.
   */
  function ValueCounts(column: seq<string>): (m: map<string, nat>)
    ensures forall c :: c in m <==> c in column
    ensures forall c | c in m :: m[c] == Count(column, c) && m[c] >= 1
  {
    if |column| == 0 then map[]
    else
      var init := column[..|column| - 1];
      var last := column[|column| - 1];
      assert column == init + [last];
      var m := ValueCounts(init);
      m[last := (if last in m then m[last] else 0) + 1]
  }

  /** Sum of the values of a map. */
  ghost function SumValues(m: map<string, nat>): nat
    decreases |m|
  {
    if m == map[] then 0
    else
      var k :| k in m;
      assert (m - {k}).Keys == m.Keys - {k};
      m[k] + SumValues(m - {k})
  }

  /** The sum does not depend on which key is taken out first. */
  lemma {:induction false} SumValuesRemove(m: map<string, nat>, k: string)
    requires k in m
    ensures SumValues(m) == m[k] + SumValues(m - {k})
    decreases |m|
  {
    var j :| j in m && SumValues(m) == m[j] + SumValues(m - {j});
    if j != k {
      assert (m - {j}).Keys == m.Keys - {j};
      assert (m - {k}).Keys == m.Keys - {k};
      SumValuesRemove(m - {j}, k);
      SumValuesRemove(m - {k}, j);
      assert m - {j} - {k} == m - {k} - {j};
    }
  }

  /** Adding one to the entry of `k` (created at 0 when absent) adds one to the sum. */
  lemma SumValuesIncrement(m: map<string, nat>, k: string)
    ensures SumValues(m[k := (if k in m then m[k] else 0) + 1]) == SumValues(m) + 1
  {
    var m' := m[k := (if k in m then m[k] else 0) + 1];
    SumValuesRemove(m', k);
    assert m' - {k} == m - {k};
    if k in m {
      SumValuesRemove(m, k);
    } else {
      assert m - {k} == m;
    }
  }

  /** Each cell of the column is counted once: the counts add up to its length. */
  lemma {:induction false} ValueCountsTotal(column: seq<string>)
    ensures SumValues(ValueCounts(column)) == |column|
  {
    if |column| > 0 {
      var init := column[..|column| - 1];
      var last := column[|column| - 1];
      var m := ValueCounts(init);
      assert ValueCounts(column) == m[last := (if last in m then m[last] else 0) + 1];
      ValueCountsTotal(init);
      SumValuesIncrement(m, last);
    }
  }
}
