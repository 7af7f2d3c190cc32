/** `QMixerNetwork` of chimera.py: an equal-weight sum of the agent values plus
    a hash-derived noise term designed to stay within +-0.05. */
module Mixer {
  import opened PyOps
  import opened Hashing

  /** The mixer never changes after construction, so it is a value. */
  datatype QMixerNetwork = QMixerNetwork(numAgents: nat, mixingWeights: seq<real>)

  /** `QMixerNetwork(num_agents)`: `[1.0 / num_agents] * num_agents`. Python
      raises ZeroDivisionError for zero agents; the engine always asks for five. */
  function NewQMixer(numAgents: nat): (m: QMixerNetwork)
    requires numAgents > 0
    ensures m.numAgents == numAgents && |m.mixingWeights| == numAgents
    ensures forall i :: 0 <= i < numAgents ==> m.mixingWeights[i] == 1.0 / numAgents as real
  {
    QMixerNetwork(numAgents, Repeat(1.0 / numAgents as real, numAgents))
  }

  /** `[x] * n`. */
  function Repeat(x: real, n: nat): (r: seq<real>)
    ensures |r| == n
    ensures forall i :: 0 <= i < n ==> r[i] == x
  {
    if n == 0 then [] else Repeat(x, n - 1) + [x]
  }

  /** The weights of a fresh mixer add up to 1. */
  lemma {:induction false} WeightsSumToOne(numAgents: nat)
    requires numAgents > 0
    ensures Sum(NewQMixer(numAgents).mixingWeights) == 1.0
  {
    var n := numAgents as real;
    SumConstant(NewQMixer(numAgents).mixingWeights, 1.0 / n);
    assert n * (1.0 / n) == 1.0;
  }

  /** `q * w for q, w in zip(agent_q_values, mixing_weights)`: zip stops at the shorter list. */
  function Products(q: seq<real>, w: seq<real>): (ps: seq<real>)
    ensures |ps| == Min(|q|, |w|)
    ensures forall i :: 0 <= i < |ps| ==> ps[i] == q[i] * w[i]
  {
    seq(Min(|q|, |w|), i requires 0 <= i < Min(|q|, |w|) => q[i] * w[i])
  }

  /** The noise term: `(int(sha256(str(q)).hexdigest()[:8], 16) / 0xFFFFFFFF - 0.5) * 0.1`. */
  function Noise(env: Env, q: seq<real>): (r: real)
    ensures -0.05 <= r <= 0.05
  {
    (HexRatio(HexDigest(env.sha256(Utf8(env.reprFloats(q))))) - 0.5) * 0.1
  }

  /** `mix_q_values(agent_q_values)`: the weighted sum, moved by the noise
      by at most 0.05 either way. */
  function MixQValues(env: Env, mixer: QMixerNetwork, q: seq<real>): (r: real)
    ensures Sum(Products(q, mixer.mixingWeights)) - 0.05 <= r <= Sum(Products(q, mixer.mixingWeights)) + 0.05
  {
    Sum(Products(q, mixer.mixingWeights)) + Noise(env, q)
  }

  /** The weighted sum with one common weight c is c times the plain sum;
      a fresh mixer's common weight is 1/num_agents, so with one value per
      agent `mix_q_values` is their mean plus the noise. */
  lemma {:induction false} CommonWeightSum(q: seq<real>, w: seq<real>, c: real)
    requires |q| == |w|
    requires forall i :: 0 <= i < |w| ==> w[i] == c
    ensures Sum(Products(q, w)) == Sum(q) * c
  {
    var ps := Products(q, w);
    forall i | 0 <= i < |q|
      ensures ps[i] == q[i] * c
    {
      assert ps[i] == q[i] * w[i] && w[i] == c;
    }
    SumScale(q, ps, c);
  }

  /** With one value per agent, a fresh mixer returns their mean plus the noise. */
  lemma {:induction false} MixIsMeanPlusNoise(env: Env, q: seq<real>)
    requires |q| > 0
    ensures MixQValues(env, NewQMixer(|q|), q) == Sum(q) / |q| as real + Noise(env, q)
  {
    var n := |q| as real;
    CommonWeightSum(q, NewQMixer(|q|).mixingWeights, 1.0 / n);
    assert Sum(q) * (1.0 / n) == Sum(q) / n;
  }

  lemma {:induction false} ScaledBelow(x: real, c: real)
    requires 0.0 <= x <= 1.0 && c >= 0.0
    ensures 0.0 <= x * c <= c
  {
  }

  lemma {:induction false} FractionAtMostOne(m: real, n: real)
    requires 0.0 <= m <= n && n > 0.0
    ensures m * (1.0 / n) <= 1.0
  {
    assert m * (1.0 / n) == m / n;
  }

  /** Products of values in [0, 1] with one common non-negative weight c lie in [0, c]. */
  lemma {:induction false} ProductsBelowWeight(q: seq<real>, ps: seq<real>, c: real)
    requires c >= 0.0 && |ps| <= |q|
    requires forall i :: 0 <= i < |q| ==> 0.0 <= q[i] <= 1.0
    requires forall i :: 0 <= i < |ps| ==> ps[i] == q[i] * c
    ensures forall i :: 0 <= i < |ps| ==> 0.0 <= ps[i] <= c
  {
    forall i | 0 <= i < |ps|
      ensures 0.0 <= ps[i] <= c
    {
      ScaledBelow(q[i], c);
      assert ps[i] == q[i] * c;
      assert 0.0 <= q[i] * c;
      assert q[i] * c <= c;
    }
  }

  /** At most n terms, each in [0, 1/n], sum to a value in [0, 1]. */
  lemma {:induction false} SumOfSharesAtMostOne(ps: seq<real>, n: nat)
    requires 0 < n && |ps| <= n
    requires forall i :: 0 <= i < |ps| ==> 0.0 <= ps[i] <= 1.0 / n as real
    ensures 0.0 <= Sum(ps) <= 1.0
  {
    SumBounds(ps, 0.0, 1.0 / n as real);
    FractionAtMostOne(|ps| as real, n as real);
  }

  /** Values in [0, 1] mix to a total in [-0.05, 1.05], whatever their number. */
  lemma {:induction false} MixBounds(env: Env, numAgents: nat, q: seq<real>)
    requires numAgents > 0
    requires forall i :: 0 <= i < |q| ==> 0.0 <= q[i] <= 1.0
    ensures -0.05 <= MixQValues(env, NewQMixer(numAgents), q) <= 1.05
  {
    var c := 1.0 / numAgents as real;
    var ps := Products(q, NewQMixer(numAgents).mixingWeights);
    ProductsBelowWeight(q, ps, c);
    SumOfSharesAtMostOne(ps, numAgents);
  }
}
