/** The fingerprint reconstruction score of serifs/gen/train.py (fp_score):
    the share of the fingerprint's set bits whose substructure key the
    decoded molecule contains.

    A fingerprint is the sequence of its entries. The key table and the
    substructure test are outside the model; for one molecule they are
    given as `hits`, where `hits[i]` says whether the molecule contains the
    pattern in row i of the key table, and `|hits|` is the number of rows. */
module Fingerprint {
  import opened Faults

  /** Number of entries equal to 1: the set bits. */
  function SetBits(fp: seq<int>): nat
  {
    if |fp| == 0 then 0
    else SetBits(fp[..|fp| - 1]) + (if fp[|fp| - 1] == 1 then 1 else 0)
  }

  /** Sum of all entries, the denominator of the score. */
  function BitTotal(fp: seq<int>): int
  {
    if |fp| == 0 then 0 else BitTotal(fp[..|fp| - 1]) + fp[|fp| - 1]
  }

  /** Number of set bits whose key pattern the molecule contains. */
  function MatchCount(fp: seq<int>, hits: seq<bool>): nat
  {
    if |fp| == 0 then 0
    else
      var i := |fp| - 1;
      MatchCount(fp[..i], hits) + (if fp[i] == 1 && i < |hits| && hits[i] then 1 else 0)
  }

  /** Every set bit has a row in the key table. */
  predicate KeysCover(fp: seq<int>, hits: seq<bool>)
  {
    forall i :: 0 <= i < |fp| && fp[i] == 1 ==> i < |hits|
  }

  predicate Binary(fp: seq<int>)
  {
    forall i :: 0 <= i < |fp| ==> fp[i] == 0 || fp[i] == 1
  }

  /** The score fp_score returns, or the fault it raises: a set bit past the
      end of the key table, or a fingerprint whose entries sum to zero. */
  function FingerprintScore(fp: seq<int>, hits: seq<bool>): Result<real>
  {
    if !KeysCover(fp, hits) then Err(MissingKey)
    else if BitTotal(fp) == 0 then Err(ZeroBitTotal)
    else Ok(MatchCount(fp, hits) as real / BitTotal(fp) as real)
  }

  /** fp_score: walks the bit positions, counting the set bits whose pattern
      matches, then divides by the sum of the entries. */
  method FpScore(fp: seq<int>, hits: seq<bool>) returns (r: Result<real>)
    ensures r == FingerprintScore(fp, hits)
  {
    var score := 0;
    for i := 0 to |fp|
      invariant score == MatchCount(fp[..i], hits)
      invariant KeysCover(fp[..i], hits)
    {
      assert fp[..i + 1][..i] == fp[..i];
      if fp[i] == 1 {
        if i >= |hits| {
          assert !KeysCover(fp, hits);
          return Err(MissingKey);
        }
        if hits[i] {
          score := score + 1;
        }
      }
    }
    assert fp[..|fp|] == fp;
    var total := BitTotal(fp);
    if total == 0 {
      return Err(ZeroBitTotal);
    }
    r := Ok(score as real / total as real);
  }

  /** Only set bits add to the numerator, so it never exceeds their number. */
  lemma {:induction false} MatchCountAtMostSetBits(fp: seq<int>, hits: seq<bool>)
    ensures MatchCount(fp, hits) <= SetBits(fp)
  {
    if |fp| > 0 {
      MatchCountAtMostSetBits(fp[..|fp| - 1], hits);
    }
  }

  /** For a binary fingerprint the denominator is the number of set bits. */
  lemma {:induction false} BinaryTotalIsSetBits(fp: seq<int>)
    requires Binary(fp)
    ensures BitTotal(fp) == SetBits(fp)
  {
    if |fp| > 0 {
      var init := fp[..|fp| - 1];
      assert forall i :: 0 <= i < |init| ==> init[i] == fp[i];
      BinaryTotalIsSetBits(init);
    }
  }

  /** A binary fingerprint is scored exactly when it has a set bit and every
      set bit has a key row; the score then lies in [0, 1]. */
  lemma FingerprintScoreInUnitInterval(fp: seq<int>, hits: seq<bool>)
    requires Binary(fp)
    ensures FingerprintScore(fp, hits).Ok? <==> KeysCover(fp, hits) && SetBits(fp) > 0
    ensures FingerprintScore(fp, hits).Ok? ==>
      0.0 <= FingerprintScore(fp, hits).value <= 1.0
  {
    BinaryTotalIsSetBits(fp);
    MatchCountAtMostSetBits(fp, hits);
    if KeysCover(fp, hits) && SetBits(fp) > 0 {
      RatioAtMostOne(MatchCount(fp, hits), SetBits(fp));
    }
  }

  lemma RatioAtMostOne(m: nat, n: nat)
    requires 0 < n && m <= n
    ensures 0.0 <= m as real / n as real <= 1.0
  {
  }

  lemma {:induction false} MatchCountAllHit(fp: seq<int>, hits: seq<bool>)
    requires forall i :: 0 <= i < |fp| && fp[i] == 1 ==> i < |hits| && hits[i]
    ensures MatchCount(fp, hits) == SetBits(fp)
  {
    if |fp| > 0 {
      var init := fp[..|fp| - 1];
      assert forall i :: 0 <= i < |init| ==> init[i] == fp[i];
      MatchCountAllHit(init, hits);
    }
  }

  lemma {:induction false} MatchCountNoneHit(fp: seq<int>, hits: seq<bool>)
    requires forall i :: 0 <= i < |fp| && fp[i] == 1 && i < |hits| ==> !hits[i]
    ensures MatchCount(fp, hits) == 0
  {
    if |fp| > 0 {
      var init := fp[..|fp| - 1];
      assert forall i :: 0 <= i < |init| ==> init[i] == fp[i];
      MatchCountNoneHit(init, hits);
    }
  }

  /** A molecule containing the pattern of every set bit scores 1. */
  lemma FingerprintScoreAllMatch(fp: seq<int>, hits: seq<bool>)
    requires Binary(fp) && SetBits(fp) > 0
    requires forall i :: 0 <= i < |fp| && fp[i] == 1 ==> i < |hits| && hits[i]
    ensures FingerprintScore(fp, hits) == Ok(1.0)
  {
    MatchCountAllHit(fp, hits);
    BinaryTotalIsSetBits(fp);
    var n := SetBits(fp) as real;
    assert n / n == 1.0;
  }

  /** A molecule containing the pattern of no set bit scores 0. */
  lemma FingerprintScoreNoneMatch(fp: seq<int>, hits: seq<bool>)
    requires Binary(fp) && SetBits(fp) > 0 && KeysCover(fp, hits)
    requires forall i :: 0 <= i < |fp| && fp[i] == 1 ==> !hits[i]
    ensures FingerprintScore(fp, hits) == Ok(0.0)
  {
    MatchCountNoneHit(fp, hits);
    BinaryTotalIsSetBits(fp);
  }

  /** A fingerprint with no set bits is never scored: the division fails. */
  lemma FingerprintScoreNoSetBits(fp: seq<int>, hits: seq<bool>)
    requires Binary(fp) && SetBits(fp) == 0
    ensures FingerprintScore(fp, hits) == Err(ZeroBitTotal)
  {
    BinaryTotalIsSetBits(fp);
    assert KeysCover(fp, hits) by {
      forall i | 0 <= i < |fp| && fp[i] == 1 ensures false {
        SetBitsPositive(fp, i);
      }
    }
  }

  lemma {:induction false} SetBitsPositive(fp: seq<int>, i: nat)
    requires i < |fp| && fp[i] == 1
    ensures SetBits(fp) > 0
  {
    if i < |fp| - 1 {
      var init := fp[..|fp| - 1];
      assert init[i] == fp[i];
      SetBitsPositive(init, i);
    }
  }

  /** Fingerprint [1, 0, 1, 0] and a molecule matching only the pattern of
      bit 0 score one half. */
  lemma FingerprintScoreHalf()
    ensures FingerprintScore([1, 0, 1, 0], [true, false, false, false]) == Ok(0.5)
  {
    var fp, hits := [1, 0, 1, 0], [true, false, false, false];
    var p0, p1, p2, p3 := fp[..0], fp[..1], fp[..2], fp[..3];
    assert p1[..0] == p0 && p2[..1] == p1 && p3[..2] == p2 && fp[..3] == p3;
    assert MatchCount(p1, hits) == 1 && BitTotal(p1) == 1;
    assert MatchCount(p2, hits) == 1 && BitTotal(p2) == 1;
    assert MatchCount(p3, hits) == 1 && BitTotal(p3) == 2;
    assert MatchCount(fp, hits) == 1 && BitTotal(fp) == 2;
  }
}
