/**
 * `pd.merge(left, right, on=key)` with pandas' defaults: an inner join on
 * one key column. The result has one row for every pair (left row, right
 * row) whose keys are equal, ordered by left row and then by right row.
 * The key column appears once; any other column name the two frames
 * share is renamed with the default suffixes "_x" (left) and "_y" (right).
 * Keys are compared with plain equality, so two missing keys match, as
 * they do in pandas.
 */
module Merge {
  import opened Tables

  const LeftSuffix := "_x"
  const RightSuffix := "_y"

  /** The name a left column gets in the result. */
  function LeftLabel(c: string, rightColumns: set<string>, key: string): string
  {
    if c != key && c in rightColumns then c + LeftSuffix else c
  }

  /** The name a right column other than the key gets in the result. */
  function RightLabel(c: string, leftColumns: set<string>): string
  {
    if c in leftColumns then c + RightSuffix else c
  }

  /** No two columns of the result would share a name. */
  predicate LabelsDistinct(lc: set<string>, rc: set<string>, key: string)
  {
    && (forall a, b | a in lc && b in lc && a != b :: LeftLabel(a, rc, key) != LeftLabel(b, rc, key))
    && (forall a, b | a in rc && b in rc && a != key && b != key && a != b :: RightLabel(a, lc) != RightLabel(b, lc))
    && (forall a, b | a in lc && b in rc && b != key :: LeftLabel(a, rc, key) != RightLabel(b, lc))
  }

  function MergedColumns(lc: set<string>, rc: set<string>, key: string): set<string>
  {
    (set a | a in lc :: LeftLabel(a, rc, key)) + (set b | b in rc && b != key :: RightLabel(b, lc))
  }

  /** The left row's values under their result names. */
  function LeftPart(l: Row, rc: set<string>, key: string): (m: Row)
    requires forall a, b | a in l && b in l && a != b :: LeftLabel(a, rc, key) != LeftLabel(b, rc, key)
    ensures m.Keys == set a | a in l :: LeftLabel(a, rc, key)
    ensures forall a :: a in l ==> m[LeftLabel(a, rc, key)] == l[a]
  {
    map a | a in l :: LeftLabel(a, rc, key) := l[a]
  }

  /** The right row's values, key excepted, under their result names. */
  function RightPart(r: Row, lc: set<string>, key: string): (m: Row)
    requires forall a, b | a in r && b in r && a != key && b != key && a != b :: RightLabel(a, lc) != RightLabel(b, lc)
    ensures m.Keys == set b | b in r && b != key :: RightLabel(b, lc)
    ensures forall b :: b in r && b != key ==> m[RightLabel(b, lc)] == r[b]
  {
    map b | b in r && b != key :: RightLabel(b, lc) := r[b]
  }

  /** The result row for one matching pair: every left value, and every right value but the key. */
  function MergeRow(l: Row, r: Row, key: string): (m: Row)
    requires key in l && key in r && LabelsDistinct(l.Keys, r.Keys, key)
    ensures m.Keys == MergedColumns(l.Keys, r.Keys, key)
    ensures m[key] == l[key]
  {
    var lp := LeftPart(l, r.Keys, key);
    var rp := RightPart(r, l.Keys, key);
    assert LeftLabel(key, r.Keys, key) == key;
    assert key !in rp;
    lp + rp
  }

  /** A result row holds each left value under its left name and each right value but the key under its right name. */
  lemma {:induction false} MergeRowValues(l: Row, r: Row, key: string)
    requires key in l && key in r && LabelsDistinct(l.Keys, r.Keys, key)
    ensures var m := MergeRow(l, r, key);
      && (forall a :: a in l ==> m[LeftLabel(a, r.Keys, key)] == l[a])
      && (forall b :: b in r && b != key ==> m[RightLabel(b, l.Keys)] == r[b])
  {
    var rp := RightPart(r, l.Keys, key);
    assert forall a :: a in l ==> LeftLabel(a, r.Keys, key) !in rp;
  }

  predicate HasKey(rows: seq<Row>, key: string)
  {
    forall k :: 0 <= k < |rows| ==> key in rows[k]
  }

  /** (i, j) comes before (i', j') in the order pandas emits inner-join rows. */
  predicate PairBefore(p: (nat, nat), q: (nat, nat))
  {
    p.0 < q.0 || (p.0 == q.0 && p.1 < q.1)
  }

  predicate StrictlyOrdered(ps: seq<(nat, nat)>)
  {
    forall a, b :: 0 <= a < b < |ps| ==> PairBefore(ps[a], ps[b])
  }

  lemma {:induction false} OrderedConcat(xs: seq<(nat, nat)>, ys: seq<(nat, nat)>)
    requires StrictlyOrdered(xs) && StrictlyOrdered(ys)
    requires forall x, y :: x in xs && y in ys ==> PairBefore(x, y)
    ensures StrictlyOrdered(xs + ys)
  {
    forall a, b | 0 <= a < b < |xs + ys|
      ensures PairBefore((xs + ys)[a], (xs + ys)[b])
    {
      if a < |xs| && |xs| <= b {
        assert (xs + ys)[a] in xs && (xs + ys)[b] in ys;
      }
    }
  }

  /** The pairs (i, j) with j >= `from` whose right key equals `v`, in order of j. */
  function MatchesOf(v: Value, i: nat, right: seq<Row>, key: string, from: nat): (ps: seq<(nat, nat)>)
    requires HasKey(right, key)
    decreases |right| - from
    ensures forall p :: p in ps <==> p.0 == i && from <= p.1 < |right| && right[p.1][key] == v
    ensures StrictlyOrdered(ps)
  {
    if from >= |right| then []
    else
      var rest := MatchesOf(v, i, right, key, from + 1);
      var here := if right[from][key] == v then [(i, from)] else [];
      OrderedConcat(here, rest);
      here + rest
  }

  /** The pairs (i, j) with i >= `from` whose keys are equal, in the order the join emits them. */
  function JoinPairs(left: seq<Row>, right: seq<Row>, key: string, from: nat): (ps: seq<(nat, nat)>)
    requires HasKey(left, key) && HasKey(right, key)
    decreases |left| - from
    ensures forall p :: p in ps <==> from <= p.0 < |left| && p.1 < |right| && left[p.0][key] == right[p.1][key]
    ensures StrictlyOrdered(ps)
  {
    if from >= |left| then []
    else
      var here := MatchesOf(left[from][key], from, right, key, 0);
      var rest := JoinPairs(left, right, key, from + 1);
      OrderedConcat(here, rest);
      here + rest
  }

  /** Every (left row, right row) pair with equal keys, as a set of index pairs. */
  function MatchingPairs(left: seq<Row>, right: seq<Row>, key: string): set<(nat, nat)>
    requires HasKey(left, key) && HasKey(right, key)
  {
    set i: nat, j: nat | i < |left| && j < |right| && left[i][key] == right[j][key] :: (i, j)
  }

  lemma {:induction false} OrderedCardinality(ps: seq<(nat, nat)>)
    requires StrictlyOrdered(ps)
    ensures |set p | p in ps| == |ps|
  {
    if ps != [] {
      var rest := ps[1..];
      OrderedCardinality(rest);
      assert (set p | p in ps) == {ps[0]} + (set p | p in rest);
      assert ps[0] !in rest by {
        forall b | 0 <= b < |rest| ensures rest[b] != ps[0] {
          assert PairBefore(ps[0], ps[b + 1]);
        }
      }
    }
  }

  predicate CanJoin(left: DataFrame, right: DataFrame, key: string)
  {
    key in left.columns && key in right.columns && LabelsDistinct(left.columns, right.columns, key)
  }

  function JoinedRows(left: DataFrame, right: DataFrame, key: string): (rows: seq<Row>)
    requires CanJoin(left, right, key)
    ensures forall k :: 0 <= k < |rows| ==> rows[k].Keys == MergedColumns(left.columns, right.columns, key)
  {
    var ps := JoinPairs(left.rows, right.rows, key, 0);
    seq(|ps|, k requires 0 <= k < |ps| =>
      assert ps[k] in ps;
      MergeRow(left.rows[ps[k].0], right.rows[ps[k].1], key))
  }

  /** `pd.merge(left, right, on=key)`; a key missing from either frame is a KeyError. */
  function InnerJoin(left: DataFrame, right: DataFrame, key: string): (r: Result<DataFrame>)
    ensures r.Ok? <==> CanJoin(left, right, key)
    ensures r.Err? && (key !in left.columns || key !in right.columns) ==> r.error == MissingColumn(key)
    ensures r.Err? && key in left.columns && key in right.columns ==> r.error == DuplicateColumns
    ensures r.Ok? ==> r.value.columns == MergedColumns(left.columns, right.columns, key)
  {
    if key !in left.columns || key !in right.columns then Err(MissingColumn(key))
    else if !LabelsDistinct(left.columns, right.columns, key) then Err(DuplicateColumns)
    else Ok(Frame(MergedColumns(left.columns, right.columns, key), JoinedRows(left, right, key)))
  }

  /** The result has exactly one row per pair (left row, right row) with equal keys. */
  lemma {:induction false} JoinRowCount(left: DataFrame, right: DataFrame, key: string)
    requires CanJoin(left, right, key)
    ensures |InnerJoin(left, right, key).value.rows| == |MatchingPairs(left.rows, right.rows, key)|
  {
    var ps := JoinPairs(left.rows, right.rows, key, 0);
    OrderedCardinality(ps);
    assert (set p | p in ps) == MatchingPairs(left.rows, right.rows, key);
  }

  /** `row` merges the i-th left row with the j-th right row, and their keys are equal. */
  predicate MergesPair(left: DataFrame, right: DataFrame, key: string, i: int, j: int, row: Row)
    requires CanJoin(left, right, key)
  {
    && 0 <= i < |left.rows| && 0 <= j < |right.rows|
    && left.rows[i][key] == right.rows[j][key]
    && row == MergeRow(left.rows[i], right.rows[j], key)
  }

  lemma {:induction false} JoinedRowAt(left: DataFrame, right: DataFrame, key: string, k: int)
    requires CanJoin(left, right, key)
    requires 0 <= k < |JoinedRows(left, right, key)|
    ensures var ps := JoinPairs(left.rows, right.rows, key, 0);
      |JoinedRows(left, right, key)| == |ps| && ps[k] in ps
      && MergesPair(left, right, key, ps[k].0, ps[k].1, JoinedRows(left, right, key)[k])
  {
    var ps := JoinPairs(left.rows, right.rows, key, 0);
    assert ps[k] in ps;
  }

  /** `row` merges some left row with some right row of equal key. */
  ghost predicate FromMatchingPair(left: DataFrame, right: DataFrame, key: string, row: Row)
    requires CanJoin(left, right, key)
  {
    exists i, j :: MergesPair(left, right, key, i, j, row)
  }

  /** Each result row merges a left row and a right row whose keys are equal. */
  lemma {:induction false} JoinRowsComeFromMatchingPairs(left: DataFrame, right: DataFrame, key: string)
    requires CanJoin(left, right, key)
    ensures var rows := InnerJoin(left, right, key).value.rows;
      forall k :: 0 <= k < |rows| ==> FromMatchingPair(left, right, key, rows[k])
  {
    var rows := InnerJoin(left, right, key).value.rows;
    assert rows == JoinedRows(left, right, key);
    forall k | 0 <= k < |rows|
      ensures FromMatchingPair(left, right, key, rows[k])
    {
      JoinedRowAt(left, right, key, k);
      var ps := JoinPairs(left.rows, right.rows, key, 0);
      assert MergesPair(left, right, key, ps[k].0, ps[k].1, rows[k]);
    }
  }

  /** Each left row and right row whose keys are equal give a result row. */
  lemma {:induction false} MatchingPairsGiveJoinRows(left: DataFrame, right: DataFrame, key: string)
    requires CanJoin(left, right, key)
    ensures var rows := InnerJoin(left, right, key).value.rows;
      forall i, j :: 0 <= i < |left.rows| && 0 <= j < |right.rows| && left.rows[i][key] == right.rows[j][key] ==>
        exists k :: 0 <= k < |rows| && MergesPair(left, right, key, i, j, rows[k])
  {
    var rows := JoinedRows(left, right, key);
    var ps := JoinPairs(left.rows, right.rows, key, 0);
    forall i, j | 0 <= i < |left.rows| && 0 <= j < |right.rows| && left.rows[i][key] == right.rows[j][key]
      ensures exists k :: 0 <= k < |rows| && MergesPair(left, right, key, i, j, rows[k])
    {
      assert (i, j) in ps;
      var k :| 0 <= k < |ps| && ps[k] == (i, j);
      JoinedRowAt(left, right, key, k);
    }
  }

  /** Some row of `rows` has the value `v` in column `key`. */
  ghost predicate OccursAsKey(rows: seq<Row>, key: string, v: Value)
  {
    exists i :: 0 <= i < |rows| && key in rows[i] && rows[i][key] == v
  }

  /** Every result row carries a key value found both in the left frame and in the right frame. */
  lemma {:induction false} JoinKeyFromBothSides(left: DataFrame, right: DataFrame, key: string)
    requires CanJoin(left, right, key)
    ensures var rows := InnerJoin(left, right, key).value.rows;
      forall k :: 0 <= k < |rows| ==>
        key in rows[k] && OccursAsKey(left.rows, key, rows[k][key]) && OccursAsKey(right.rows, key, rows[k][key])
  {
    var rows := JoinedRows(left, right, key);
    assert InnerJoin(left, right, key).value.rows == rows;
    var ps := JoinPairs(left.rows, right.rows, key, 0);
    forall k | 0 <= k < |rows|
      ensures key in rows[k] && OccursAsKey(left.rows, key, rows[k][key]) && OccursAsKey(right.rows, key, rows[k][key])
    {
      JoinedRowAt(left, right, key, k);
      var (i, j) := ps[k];
      assert rows[k][key] == left.rows[i][key] == right.rows[j][key];
    }
  }

  /** A key value that one side lacks is on no result row: unmatched customers and orders disappear. */
  lemma {:induction false} UnmatchedKeysDisappear(left: DataFrame, right: DataFrame, key: string, v: Value)
    requires CanJoin(left, right, key)
    requires !OccursAsKey(left.rows, key, v) || !OccursAsKey(right.rows, key, v)
    ensures var rows := InnerJoin(left, right, key).value.rows;
      forall k :: 0 <= k < |rows| ==> rows[k][key] != v
  {
    JoinKeyFromBothSides(left, right, key);
  }
}
