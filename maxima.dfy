/** The maximum-finding primitives the classifiers rely on: numpy's `argmax`
    and `max`, torch's `max(dim=0)`, and numpy's flattening of a 2-D array. */
module Maxima {

  /** True when `k` is the first index holding the largest value of `p`. */
  predicate IsFirstMax(p: seq<real>, k: nat) {
    k < |p|
    && (forall j :: 0 <= j < |p| ==> p[j] <= p[k])
    && (forall j :: 0 <= j < k ==> p[j] < p[k])
  }

  /** `np.argmax(p)` on a non-empty vector: the index of the maximum, the first
      one when several entries tie. */
  function ArgMax(p: seq<real>): (k: nat)
    requires |p| > 0
    ensures IsFirstMax(p, k)
  {
    if |p| == 1 then 0
    else
      var k := ArgMax(p[..|p| - 1]);
      assert forall j :: 0 <= j < |p| - 1 ==> p[..|p| - 1][j] == p[j];
      if p[|p| - 1] > p[k] then |p| - 1 else k
  }

  /** `np.max(p)` on a non-empty vector. */
  function Max(p: seq<real>): (m: real)
    requires |p| > 0
    ensures m in p
    ensures forall j :: 0 <= j < |p| ==> p[j] <= m
  {
    if |p| == 1 then p[0]
    else
      var m := Max(p[..|p| - 1]);
      assert forall j :: 0 <= j < |p| - 1 ==> p[..|p| - 1][j] == p[j];
      if p[|p| - 1] > m then p[|p| - 1] else m
  }

  /** The first maximal index is unique: any index with the two properties is
      the one `ArgMax` returns. */
  lemma FirstMaxUnique(p: seq<real>, k: nat)
    requires IsFirstMax(p, k)
    ensures ArgMax(p) == k
  {
  }

  /** The value `max` reports is the value at the index `argmax` reports. */
  lemma MaxAtArgMax(p: seq<real>)
    requires |p| > 0
    ensures Max(p) == p[ArgMax(p)]
  {
    var m := Max(p);
    var k := ArgMax(p);
    var i :| 0 <= i < |p| && p[i] == m;
    assert p[i] <= p[k] && p[k] <= m;
  }

  /** Row-major flattening of a 2-D array, as numpy does before `argmax` and
      `max` when no axis is given. */
  function Flatten(rows: seq<seq<real>>): (flat: seq<real>)
    ensures |flat| == TotalSize(rows)
    ensures |rows| > 0 ==> |rows[0]| <= |flat| && flat[..|rows[0]|] == rows[0]
    ensures |rows| > 0 ==> flat[|rows[0]|..] == Flatten(rows[1..])
  {
    if rows == [] then [] else rows[0] + Flatten(rows[1..])
  }

  /** The number of entries of a 2-D array: the sum of its row lengths. */
  function TotalSize(rows: seq<seq<real>>): nat {
    if rows == [] then 0 else |rows[0]| + TotalSize(rows[1..])
  }

  /** Where row `i` starts in the flattened array: the total length of the
      rows before it. */
  function Offset(rows: seq<seq<real>>, i: nat): nat
    requires i <= |rows|
  {
    if i == 0 then 0 else |rows[0]| + Offset(rows[1..], i - 1)
  }

  /** Entry `j` of row `i` sits at position `Offset(rows, i) + j` of the
      flattened array, the flat index numpy's `argmax` reports for it. */
  lemma {:induction false} FlattenAt(rows: seq<seq<real>>, i: nat, j: nat)
    requires i < |rows| && j < |rows[i]|
    ensures Offset(rows, i) + j < |Flatten(rows)|
    ensures Flatten(rows)[Offset(rows, i) + j] == rows[i][j]
  {
    if i > 0 {
      FlattenAt(rows[1..], i - 1, j);
      assert rows[1..][i - 1] == rows[i];
    }
  }

  /** A batch of one row flattens to that row. */
  lemma FlattenSingle(row: seq<real>)
    ensures Flatten([row]) == row
  {
    assert [row][1..] == [];
  }
}
