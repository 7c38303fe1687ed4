/** Exact arithmetic means, as train.py takes them over batch losses and
    molecule scores (floating point replaced by `real`). */
module Means {

  /** Sum of a sequence, adding from the front as the Python loops do. */
  function Sum(s: seq<real>): real
  {
    if |s| == 0 then 0.0 else Sum(s[..|s| - 1]) + s[|s| - 1]
  }

  /** Arithmetic mean: the sum divided by the number of terms. */
  function MeanOf(s: seq<real>): real
    requires |s| > 0
  {
    Sum(s) / |s| as real
  }

  lemma SumStep(s: seq<real>, i: nat)
    requires i < |s|
    ensures Sum(s[..i + 1]) == Sum(s[..i]) + s[i]
  {
    assert s[..i + 1][..i] == s[..i];
  }

  lemma SumAppend(s: seq<real>, x: real)
    ensures Sum(s + [x]) == Sum(s) + x
  {
    assert (s + [x])[..|s|] == s;
  }

  lemma {:induction false} SumBounds(s: seq<real>, lo: real, hi: real)
    requires forall i :: 0 <= i < |s| ==> lo <= s[i] <= hi
    ensures |s| as real * lo <= Sum(s) <= |s| as real * hi
  {
    if |s| > 0 {
      var init := s[..|s| - 1];
      assert forall i :: 0 <= i < |init| ==> init[i] == s[i];
      SumBounds(init, lo, hi);
    }
  }

  /** A mean lies between any bounds on its terms. */
  lemma MeanBounds(s: seq<real>, lo: real, hi: real)
    requires |s| > 0
    requires forall i :: 0 <= i < |s| ==> lo <= s[i] <= hi
    ensures lo <= MeanOf(s) <= hi
  {
    SumBounds(s, lo, hi);
    var n := |s| as real;
    assert Sum(s) / n >= (n * lo) / n;
    assert Sum(s) / n <= (n * hi) / n;
  }

  lemma {:induction false} SumConstant(s: seq<real>, c: real)
    requires forall i :: 0 <= i < |s| ==> s[i] == c
    ensures Sum(s) == |s| as real * c
  {
    if |s| > 0 {
      var init := s[..|s| - 1];
      assert forall i :: 0 <= i < |init| ==> init[i] == s[i];
      SumConstant(init, c);
    }
  }

  /** The mean of terms that all equal c is c. */
  lemma MeanConstant(s: seq<real>, c: real)
    requires |s| > 0
    requires forall i :: 0 <= i < |s| ==> s[i] == c
    ensures MeanOf(s) == c
  {
    SumConstant(s, c);
  }

  /** All the groups of a table, one after the other. */
  function Flatten(t: seq<seq<real>>): seq<real>
  {
    if |t| == 0 then [] else Flatten(t[..|t| - 1]) + t[|t| - 1]
  }

  /** The per-group means of a table whose groups are all non-empty. */
  function GroupMeans(t: seq<seq<real>>): (r: seq<real>)
    requires forall i :: 0 <= i < |t| ==> |t[i]| > 0
    ensures |r| == |t| && forall i :: 0 <= i < |t| ==> r[i] == MeanOf(t[i])
  {
    if |t| == 0 then []
    else
      var init := t[..|t| - 1];
      assert forall i :: 0 <= i < |init| ==> init[i] == t[i];
      GroupMeans(init) + [MeanOf(t[|t| - 1])]
  }

  /** A mean of group means lies between any bounds on the terms. */
  lemma GroupMeansBounds(t: seq<seq<real>>, lo: real, hi: real)
    requires |t| > 0 && forall i :: 0 <= i < |t| ==> |t[i]| > 0
    requires forall i, j :: 0 <= i < |t| && 0 <= j < |t[i]| ==> lo <= t[i][j] <= hi
    ensures lo <= MeanOf(GroupMeans(t)) <= hi
  {
    var m := GroupMeans(t);
    forall i | 0 <= i < |t| ensures lo <= m[i] <= hi {
      MeanBounds(t[i], lo, hi);
    }
    MeanBounds(m, lo, hi);
  }

  /** A mean of group means of terms that all equal c is c. */
  lemma GroupMeansConstant(t: seq<seq<real>>, c: real)
    requires |t| > 0 && forall i :: 0 <= i < |t| ==> |t[i]| > 0
    requires forall i, j :: 0 <= i < |t| && 0 <= j < |t[i]| ==> t[i][j] == c
    ensures MeanOf(GroupMeans(t)) == c
  {
    var m := GroupMeans(t);
    forall i | 0 <= i < |t| ensures m[i] == c {
      MeanConstant(t[i], c);
    }
    MeanConstant(m, c);
  }

  /** The mean of group means is not the pooled mean of all terms once the
      groups differ in size: groups [0] and [1, 1] give a two-level mean of
      1/2 and a pooled mean of 2/3. */
  lemma TwoLevelMeanOfUnequalGroups()
    ensures MeanOf(GroupMeans([[0.0], [1.0, 1.0]])) == 0.5
    ensures MeanOf(Flatten([[0.0], [1.0, 1.0]])) == 2.0 / 3.0
  {
    var t := [[0.0], [1.0, 1.0]];
    assert t[..1] == [[0.0]];
    assert t[..0] == [];
    assert Flatten(t[..1]) == [0.0];
    assert Flatten(t) == [0.0, 1.0, 1.0];
    assert [0.0, 1.0, 1.0][..2] == [0.0, 1.0];
    assert [0.0, 1.0][..1] == [0.0];
    assert [1.0, 1.0][..1] == [1.0];
    assert GroupMeans(t) == [0.0, 1.0];
  }
}
