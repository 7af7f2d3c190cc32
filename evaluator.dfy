/** `StateEvaluator` of chimera.py: priming a hash chain from the seed, and one
    evaluation step that hashes the previous state together with the lexicon
    repr and a 1024-byte window of the model blob, then derives five agent values. */
module Evaluator {
  import opened PyOps
  import opened Hashing

  const WindowSize: nat := 1024
  const AgentCount: nat := 5

  /** One priming round: the raw previous digest followed by the seed bytes, hashed. */
  function PrimeStep(env: Env, seed: seq<byte>, d: Digest): Digest
  {
    env.sha256(d + seed)
  }

  /** The digest reached after k more priming rounds from d. */
  function Chain(env: Env, seed: seq<byte>, d: Digest, k: nat): Digest
    decreases k
  {
    if k == 0 then d else Chain(env, seed, PrimeStep(env, seed, d), k - 1)
  }

  /** How many times `for _ in range(complexity)` runs. */
  function Rounds(complexity: int): nat
  {
    if complexity < 0 then 0 else complexity
  }

  /** The raw digest `prime` ends with, before it is turned into hex text. */
  function PrimeDigest(env: Env, seed: seq<byte>, complexity: int): Digest
  {
    Chain(env, seed, env.sha256(seed), Rounds(complexity))
  }

  /** Chaining k+1 rounds is chaining k rounds and then one more. */
  lemma {:induction false} ChainLast(env: Env, seed: seq<byte>, d: Digest, k: nat)
    ensures Chain(env, seed, d, k + 1) == PrimeStep(env, seed, Chain(env, seed, d, k))
    decreases k
  {
    if k > 0 {
      ChainLast(env, seed, PrimeStep(env, seed, d), k - 1);
    }
  }

  /** Complexity 0 (or a negative one, for which `range` is empty) primes to a
      single hash of the seed. */
  lemma {:induction false} PrimeWithoutRounds(env: Env, seed: seq<byte>, complexity: int)
    requires complexity <= 0
    ensures PrimeDigest(env, seed, complexity) == env.sha256(seed)
  {
  }

  /** Each further round hashes the previous raw digest followed by the seed. */
  lemma {:induction false} PrimeRoundByRound(env: Env, seed: seq<byte>, k: nat)
    ensures PrimeDigest(env, seed, k + 1) == env.sha256(PrimeDigest(env, seed, k) + seed)
  {
    ChainLast(env, seed, env.sha256(seed), k);
  }

  /** `int(state_hash[:16], 16) % (model_size - 1024)`; None when the divisor is
      zero, where Python raises ZeroDivisionError. */
  function ReadIndex(stateHash: string, modelSize: nat): (r: Option<int>)
    requires IsHexDigest(stateHash)
    ensures r.None? <==> modelSize == WindowSize
    ensures modelSize > WindowSize ==> r.Some? && 0 <= r.value < modelSize - WindowSize
    ensures modelSize < WindowSize ==> r.Some? && modelSize - WindowSize < r.value <= 0
  {
    if modelSize == WindowSize then None
    else Some(PyMod(ParseHex(stateHash[..16]), modelSize - WindowSize))
  }

  /** `model_data[index : index + 1024]`. */
  function ModelWindow(modelData: seq<byte>, index: int): (w: seq<byte>)
    ensures |w| <= WindowSize && |w| <= |modelData|
    ensures 0 <= index && index + WindowSize <= |modelData| ==> w == modelData[index..index + WindowSize]
  {
    PySlice(modelData, index, index + WindowSize)
  }

  /** The bytes agent i mixes in: `model_slice[i*200:(i+1)*200]`. */
  function AgentSlice(window: seq<byte>, i: nat): (s: seq<byte>)
    ensures |s| <= 200
    ensures 200 * i + 200 <= |window| ==> s == window[200 * i..200 * i + 200]
  {
    PySlice(window, 200 * i, 200 * i + 200)
  }

  /** Agent i's value: the ratio of sha256(f"{next_hash}_{i}" || slice_i). */
  function AgentValue(env: Env, nextHash: string, window: seq<byte>, i: nat): (r: real)
    requires IsHexDigest(nextHash)
    ensures 0.0 <= r <= 1.0
  {
    HexRatio(HexDigest(env.sha256(Utf8(nextHash + "_" + Decimal(i)) + AgentSlice(window, i))))
  }

  datatype Evaluation = Evaluation(nextHash: string, agentValues: seq<real>)

  /** What `evaluate(state_hash)` returns, or None where it raises ZeroDivisionError. */
  function Evaluated(env: Env, vectorsStr: seq<byte>, modelData: seq<byte>, stateHash: string): (r: Option<Evaluation>)
    requires IsHexDigest(stateHash)
    ensures r.None? <==> |modelData| == WindowSize
    ensures r.Some? ==> IsHexDigest(r.value.nextHash)
    ensures r.Some? ==> |r.value.agentValues| == AgentCount
    ensures r.Some? ==> forall i :: 0 <= i < AgentCount ==> 0.0 <= r.value.agentValues[i] <= 1.0
  {
    match ReadIndex(stateHash, |modelData|)
    case None => None
    case Some(index) =>
      var window := ModelWindow(modelData, index);
      var next := HexDigest(env.sha256(Utf8(stateHash) + vectorsStr + window));
      Some(Evaluation(next, seq(AgentCount, i requires 0 <= i < AgentCount => AgentValue(env, next, window, i))))
  }

  /** With a model larger than the window, the read offset stays in
      [0, model_size - 1024), the window is exactly 1024 bytes of the model at
      that offset, and every agent reads a full 200-byte sub-slice of it. */
  lemma {:induction false} WindowInModel(modelData: seq<byte>, stateHash: string)
    requires IsHexDigest(stateHash)
    requires |modelData| > WindowSize
    ensures var index := ReadIndex(stateHash, |modelData|).value;
      && 0 <= index < |modelData| - WindowSize
      && ModelWindow(modelData, index) == modelData[index..index + WindowSize]
      && forall i :: 0 <= i < AgentCount ==>
           AgentSlice(ModelWindow(modelData, index), i)
             == modelData[index + 200 * i..index + 200 * i + 200]
  {
    var index := ReadIndex(stateHash, |modelData|).value;
    var window := ModelWindow(modelData, index);
    assert window == modelData[index..index + WindowSize];
    forall i | 0 <= i < AgentCount
      ensures AgentSlice(window, i) == modelData[index + 200 * i..index + 200 * i + 200]
    {
      assert 200 * i + 200 <= WindowSize;
      assert AgentSlice(window, i) == window[200 * i..200 * i + 200];
      SliceOfSlice(modelData, index, index + WindowSize, 200 * i, 200 * i + 200);
    }
  }

  lemma {:induction false} SliceOfSlice<T>(s: seq<T>, lo: nat, hi: nat, a: nat, b: nat)
    requires lo <= hi <= |s| && a <= b <= hi - lo
    ensures s[lo..hi][a..b] == s[lo + a..lo + b]
  {
    var inner := s[lo..hi];
    assert forall k :: 0 <= k < b - a ==> inner[a..b][k] == inner[a + k] == s[lo + a + k];
  }

  /** A model shorter than the window: Python's negative modulus and clamped
      slicing give a window no longer than the model, with no error. */
  lemma {:induction false} ShortModelWindow(modelData: seq<byte>, stateHash: string)
    requires IsHexDigest(stateHash)
    requires |modelData| < WindowSize
    ensures ReadIndex(stateHash, |modelData|).Some?
    ensures |ModelWindow(modelData, ReadIndex(stateHash, |modelData|).value)| <= |modelData|
  {
  }

  /** The `for i in range(5)` loop of `evaluate`: one value per agent, from
      the new hash and the agent's 200-byte share of the window. */
  method AgentValues(env: Env, next: string, window: seq<byte>) returns (values: seq<real>)
    requires IsHexDigest(next)
    ensures values == seq(AgentCount, j requires 0 <= j < AgentCount => AgentValue(env, next, window, j))
  {
    ghost var expected := seq(AgentCount, j requires 0 <= j < AgentCount => AgentValue(env, next, window, j));
    values := [];
    var i := 0;
    while i < AgentCount
      invariant 0 <= i <= AgentCount
      invariant values == expected[..i]
    {
      var agentInput := Utf8(next + "_" + Decimal(i)) + PySlice(window, 200 * i, 200 * i + 200);
      var agentHash := HexDigest(env.sha256(agentInput));
      assert HexRatio(agentHash) == expected[i];
      assert expected[..i + 1] == expected[..i] + [expected[i]];
      values := values + [HexRatio(agentHash)];
      i := i + 1;
    }
    assert expected[..AgentCount] == expected;
  }

  /** The evaluator built once per run: the encoded lexicon repr, the priming
      complexity and the model bytes, none of which change afterwards. */
  class StateEvaluator {
    const vectorsStr: seq<byte>
    const complexity: int
    const modelData: seq<byte>
    const modelSize: nat

    ghost predicate Valid()
    {
      modelSize == |modelData|
    }

    constructor (env: Env, names: seq<string>, vectors: map<string, string>, complexity: int, modelData: seq<byte>)
      ensures Valid()
      ensures vectorsStr == Utf8(env.reprLexicon(names, vectors))
      ensures this.complexity == complexity && this.modelData == modelData
    {
      vectorsStr := Utf8(env.reprLexicon(names, vectors));
      this.complexity := complexity;
      this.modelData := modelData;
      modelSize := |modelData|;
    }

    /** `prime(seed)`: hash the seed, then rehash digest-plus-seed `complexity` times. */
    method Prime(env: Env, seed: string) returns (h: string)
      ensures h == HexDigest(PrimeDigest(env, Utf8(seed), complexity))
      ensures IsHexDigest(h)
    {
      var seedBytes := Utf8(seed);
      var current := env.sha256(seedBytes);
      var k := 0;
      while k < complexity
        invariant 0 <= k <= Rounds(complexity)
        invariant Chain(env, seedBytes, current, Rounds(complexity) - k) == PrimeDigest(env, seedBytes, complexity)
      {
        current := env.sha256(current + seedBytes);
        k := k + 1;
      }
      h := HexDigest(current);
    }

    /** `evaluate(state_hash)`; None where Python raises ZeroDivisionError. */
    method Evaluate(env: Env, stateHash: string) returns (r: Option<Evaluation>)
      requires Valid()
      requires IsHexDigest(stateHash)
      ensures r == Evaluated(env, vectorsStr, modelData, stateHash)
    {
      if modelSize == WindowSize {
        return None;
      }
      var index := PyMod(ParseHex(stateHash[..16]), modelSize - WindowSize);
      var window := PySlice(modelData, index, index + WindowSize);
      var next := HexDigest(env.sha256(Utf8(stateHash) + vectorsStr + window));
      assert ReadIndex(stateHash, |modelData|) == Some(index) && window == ModelWindow(modelData, index);
      var values := AgentValues(env, next, window);
      r := Some(Evaluation(next, values));
    }
  }
}
