/** Sequence helpers standing for the library calls the trainer relies on:
    concatenation along the leading axis (torch.cat, np.concatenate with axis=0),
    summation of per-batch losses, and np.argmax along the class axis. */
module Aggregation {

  /** The parts joined in list order, as torch.cat / np.concatenate along axis 0. */
  function Flatten<T>(parts: seq<seq<T>>): seq<T>
  {
    if |parts| == 0 then [] else Flatten(parts[..|parts| - 1]) + parts[|parts| - 1]
  }

  /** Position in the concatenation where part `b` begins. */
  function Offset<T>(parts: seq<seq<T>>, b: nat): nat
    requires b <= |parts|
  {
    |Flatten(parts[..b])|
  }

  /** Appending one more part extends the concatenation by exactly that part. */
  lemma FlattenAppend<T>(parts: seq<seq<T>>, p: seq<T>)
    ensures Flatten(parts + [p]) == Flatten(parts) + p
  {
    assert (parts + [p])[..|parts|] == parts;
  }

  /** Element `j` of part `b` sits at `Offset(parts, b) + j`: concatenation keeps batch order. */
  lemma {:induction false} FlattenAt<T>(parts: seq<seq<T>>, b: nat, j: nat)
    requires b < |parts| && j < |parts[b]|
    ensures Offset(parts, b) + j < |Flatten(parts)|
    ensures Flatten(parts)[Offset(parts, b) + j] == parts[b][j]
  {
    var n := |parts| - 1;
    var init := parts[..n];
    if b < n {
      FlattenAt(init, b, j);
      assert init[..b] == parts[..b];
    }
  }

  /** Two lists of parts with pairwise equal lengths concatenate to equal lengths. */
  lemma {:induction false} FlattenLengths<T, U>(p: seq<seq<T>>, q: seq<seq<U>>)
    requires |p| == |q|
    requires forall i :: 0 <= i < |p| ==> |p[i]| == |q[i]|
    ensures |Flatten(p)| == |Flatten(q)|
  {
    if |p| > 0 {
      FlattenLengths(p[..|p| - 1], q[..|q| - 1]);
    }
  }

  /** Every element of a concatenation comes from one of its parts. */
  lemma {:induction false} FlattenMember<T>(parts: seq<seq<T>>, x: T)
    requires x in Flatten(parts)
    ensures exists b :: 0 <= b < |parts| && x in parts[b]
  {
    var n := |parts| - 1;
    if x in Flatten(parts[..n]) {
      FlattenMember(parts[..n], x);
      var b :| 0 <= b < n && x in parts[..n][b];
      assert x in parts[b];
    } else {
      assert x in parts[n];
    }
  }

  /** Left-to-right sum, as the running `+=` over batch losses. */
  function Sum(xs: seq<real>): real
  {
    if |xs| == 0 then 0.0 else Sum(xs[..|xs| - 1]) + xs[|xs| - 1]
  }

  /** Index of the first maximal entry of a non-empty row, as np.argmax. */
  function ArgMax(row: seq<real>): (k: nat)
    requires |row| > 0
    ensures k < |row|
    ensures forall j :: 0 <= j < |row| ==> row[j] <= row[k]
    ensures forall j :: 0 <= j < k ==> row[j] < row[k]
  {
    if |row| == 1 then 0
    else
      var k := ArgMax(row[..|row| - 1]);
      if row[|row| - 1] > row[k] then |row| - 1 else k
  }

  /** np.argmax(m, axis=1): the predicted class of every row. */
  function RowArgMax(m: seq<seq<real>>): (r: seq<nat>)
    requires forall i :: 0 <= i < |m| ==> |m[i]| > 0
    ensures |r| == |m|
    ensures forall i :: 0 <= i < |m| ==> r[i] < |m[i]| && r[i] == ArgMax(m[i])
  {
    seq(|m|, i requires 0 <= i < |m| => ArgMax(m[i]))
  }
}
