/** `EWCFisherMatrix` of chimera.py: one hash-derived entry in [0, 1] per
    lexicon symbol, overwritten in place on every call, and their mean. */
module Fisher {
  import opened PyOps
  import opened Hashing

  /** Entry i: the ratio of sha256(f"{state_hash}_{i}"). */
  function FisherEntry(env: Env, stateHash: string, i: nat): (r: real)
    ensures 0.0 <= r <= 1.0
  {
    HexRatio(HexDigest(env.sha256(Utf8(stateHash + "_" + Decimal(i)))))
  }

  /** The whole diagonal for n parameters. */
  function FisherDiagonal(env: Env, stateHash: string, n: nat): (d: seq<real>)
    ensures |d| == n
    ensures forall i :: 0 <= i < n ==> 0.0 <= d[i] <= 1.0
  {
    seq(n, i requires 0 <= i < n => FisherEntry(env, stateHash, i))
  }

  lemma {:induction false} MeanInUnit(s: real, n: real)
    requires n > 0.0 && 0.0 <= s <= n
    ensures 0.0 <= s / n <= 1.0
  {
  }

  /** What `compute_fisher_diagonal` returns: the mean of the diagonal, or None
      where the division by `num_params == 0` raises ZeroDivisionError. */
  function FisherMean(env: Env, stateHash: string, n: nat): (r: Option<real>)
    ensures r.None? <==> n == 0
    ensures r.Some? ==> 0.0 <= r.value <= 1.0
  {
    if n == 0 then None
    else
      var d := FisherDiagonal(env, stateHash, n);
      SumBounds(d, 0.0, 1.0);
      MeanInUnit(Sum(d), n as real);
      Some(Sum(d) / n as real)
  }

  /** The engine's coherence, `1 - fisher_mean`, lies in [0, 1]. */
  lemma {:induction false} CoherenceInUnit(env: Env, stateHash: string, n: nat)
    requires n > 0
    ensures 0.0 <= 1.0 - FisherMean(env, stateHash, n).value <= 1.0
  {
  }

  class EWCFisherMatrix {
    const numParams: nat
    const fisherDiagonal: array<real>

    ghost predicate Valid()
    {
      fisherDiagonal.Length == numParams
    }

    /** `[0.0] * num_params`. */
    constructor (numParams: nat)
      ensures Valid() && fresh(fisherDiagonal)
      ensures this.numParams == numParams
      ensures forall i :: 0 <= i < numParams ==> fisherDiagonal[i] == 0.0
    {
      this.numParams := numParams;
      fisherDiagonal := new real[numParams](_ => 0.0);
    }

    /** `compute_fisher_diagonal(state_hash)`: overwrites every entry, then
        returns their mean (None where Python divides by zero). */
    method ComputeFisherDiagonal(env: Env, stateHash: string) returns (mean: Option<real>)
      requires Valid()
      modifies fisherDiagonal
      ensures fisherDiagonal[..] == FisherDiagonal(env, stateHash, numParams)
      ensures mean == FisherMean(env, stateHash, numParams)
    {
      var i := 0;
      while i < numParams
        invariant 0 <= i <= numParams
        invariant forall k :: 0 <= k < i ==> fisherDiagonal[k] == FisherEntry(env, stateHash, k)
      {
        var paramSeed := Utf8(stateHash + "_" + Decimal(i));
        var h := HexDigest(env.sha256(paramSeed));
        fisherDiagonal[i] := HexRatio(h);
        i := i + 1;
      }
      assert fisherDiagonal[..] == FisherDiagonal(env, stateHash, numParams);
      if numParams == 0 {
        return None;
      }
      mean := Some(Sum(fisherDiagonal[..]) / numParams as real);
    }
  }
}
