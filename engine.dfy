/** `ResonanceEngine.run` of chimera.py: the start-up sequence, the ACTIVE loop
    and the single failure exit every run ends in. The run is specified by the
    pure trace `RunTrace` (what the engine puts on the GUI queue and why it
    stops); the class's `Run` is proved to produce exactly that trace. */
module Engine {
  import opened PyOps
  import opened Hashing
  import opened Evaluator
  import opened Mixer
  import opened Fisher
  import opened Lexicon
  import opened Replay

  datatype State = Idle | Bootstrap | KernelInit | Priming | Active | Critical

  /** Why a run ended; every run ends in exactly one of these. */
  datatype Reason =
    | CognitiveCoreMissing
    | LexiconInitializationError
    | MissingSeedError
    | CoherenceCollapse
    | VolatilityExceeded
    | ConvergenceTimeout
    | UnhandledException

  /** The reason text `handle_failure` logs. */
  function ReasonText(r: Reason): string
  {
    match r
    case CognitiveCoreMissing => "CognitiveCoreMissing"
    case LexiconInitializationError => "LexiconInitializationError"
    case MissingSeedError => "MissingSeedError"
    case CoherenceCollapse => "Resonance Cascade (Coherence Collapse)"
    case VolatilityExceeded => "State Decoherence (Volatility Exceeded)"
    case ConvergenceTimeout => "Convergence Timeout"
    case UnhandledException => "UnhandledException"
  }

  /** What the engine puts on the GUI queue, as far as this model follows it:
      state changes and iteration updates (both "dashboard_update"), the fatal
      log line with its reason, and "finished". */
  datatype Message =
    | StateUpdate(state: State)
    | Dashboard(state: State, iteration: nat, maxIterations: int, coherence: real,
                volatility: real, totalQ: real, buffer: seq<Memory>)
    | Fatal(reason: string)
    | Finished

  /** The initiation log: base64 text that decodes to the seed, a missing file,
      or a file that cannot be read or decoded. */
  datatype SeedFile = SeedText(text: string) | SeedMissing | SeedUnreadable

  /** The configuration values `run` reads. The two core parameters are parsed
      when the interface starts (a failure there disables the start button), so
      a run always sees integers; each threshold is read on every iteration and
      is None when it is absent or not a number. */
  datatype Config = Config(complexityFactor: int, maxIterations: int,
                           coherenceMin: Option<real>, volatilityMax: Option<real>)

  /** The outcomes of the start-up's outside calls: whether the GPU probe
      raises an error it does not catch (an `OSError` other than
      `FileNotFoundError`, such as a `nvidia-smi` that is not executable), the
      model blob (None when missing), the decoded lexicon (None when missing or
      undecodable), and the seed file. */
  datatype Inputs = Inputs(probeRaises: bool, model: Option<seq<byte>>, lexicon: Option<seq<Entry>>,
                           seed: SeedFile, config: Config)

  const NumAgents: nat := 5

  /** Everything one iteration reads but never changes: the evaluator's
      encoded lexicon repr and model bytes, the lexicon's names, and the
      number of Fisher parameters. */
  datatype ActiveContext = ActiveContext(
    env: Env, vectorsStr: seq<byte>, modelData: seq<byte>, names: seq<string>, numParams: nat)

  /** What one pass of the loop computes before its threshold checks. */
  datatype Iteration = Iteration(nextHash: string, totalQ: real, coherence: real,
                                 volatility: real, memory: Memory)

  /** `int(state_hash[24:28], 16) % len(vector_names)`. */
  function ActionIndex(stateHash: string, n: nat): (k: nat)
    requires IsHexDigest(stateHash) && n > 0
    ensures k < n
  {
    PyMod(ParseHex(stateHash[24..28]), n)
  }

  /** One pass of the ACTIVE loop up to its threshold checks; None where Python
      raises (evaluation or Fisher mean dividing by zero, or an action drawn
      from an empty name list). */
  function Iterate(ctx: ActiveContext, stateHash: string): (r: Option<Iteration>)
    requires IsHexDigest(stateHash)
    ensures r.Some? ==> IsHexDigest(r.value.nextHash)
  {
    match Evaluated(ctx.env, ctx.vectorsStr, ctx.modelData, stateHash)
    case None => None
    case Some(ev) =>
      var totalQ := MixQValues(ctx.env, NewQMixer(NumAgents), ev.agentValues);
      match FisherMean(ctx.env, ev.nextHash, ctx.numParams)
      case None => None
      case Some(mean) =>
        if |ctx.names| == 0 then None
        else
          var action := ctx.names[ActionIndex(ev.nextHash, |ctx.names|)];
          Some(Iteration(ev.nextHash, totalQ, 1.0 - mean, Abs(totalQ - 0.5) * 2.0,
                         Memory(ev.nextHash[..8], action, totalQ)))
  }

  /** One iteration as a total function of the state hash. */
  type StepFunction = string -> Option<Iteration>

  /** `step` agrees with the engine's iteration on every state hash. */
  ghost predicate Computes(step: StepFunction, ctx: ActiveContext)
  {
    forall h {:trigger Iterate(ctx, h)} :: IsHexDigest(h) ==> step(h) == Iterate(ctx, h)
  }

  lemma {:induction false} IterateIsAStep(ctx: ActiveContext)
    ensures Computes(h => if IsHexDigest(h) then Iterate(ctx, h) else None, ctx)
  {
  }

  /** The iteration of the ACTIVE loop as a step function. The loop only ever
      applies it to hex digests, where it is `Iterate`; what it gives on other
      strings never reaches a trace. The traces take the step as a value rather
      than the context so that proofs about the loop see one opaque call per
      pass instead of the whole evaluation, mixing and Fisher computation,
      which keeps them within the solver's budget; `Computes` is the only
      link back to `Iterate`. */
  ghost function EngineStep(ctx: ActiveContext): (step: StepFunction)
    ensures Computes(step, ctx)
  {
    IterateIsAStep(ctx);
    var step :| Computes(step, ctx); step
  }

  /** The two stability checks, coherence first; None lets the loop go on.
      Reading a threshold that is not configured raises. */
  function Verdict(coherence: real, volatility: real, coherenceMin: Option<real>, volatilityMax: Option<real>): (r: Option<Reason>)
    ensures r.None? <==> coherenceMin.Some? && volatilityMax.Some?
                         && coherence >= coherenceMin.value && volatility <= volatilityMax.value
    ensures r.Some? ==> r.value in {CoherenceCollapse, VolatilityExceeded, UnhandledException}
    ensures coherenceMin.Some? && coherence < coherenceMin.value ==> r == Some(CoherenceCollapse)
    ensures r == Some(CoherenceCollapse) ==> coherenceMin.Some? && coherence < coherenceMin.value
    ensures (coherenceMin.Some? && coherence >= coherenceMin.value &&
             volatilityMax.Some? && volatility > volatilityMax.value) ==> r == Some(VolatilityExceeded)
    ensures r == Some(VolatilityExceeded) ==>
              (coherenceMin.Some? && coherence >= coherenceMin.value &&
               volatilityMax.Some? && volatility > volatilityMax.value)
  {
    match coherenceMin
    case None => Some(UnhandledException)
    case Some(cmin) =>
      if coherence < cmin then Some(CoherenceCollapse)
      else
        match volatilityMax
        case None => Some(UnhandledException)
        case Some(vmax) => if volatility > vmax then Some(VolatilityExceeded) else None
  }

  /** A run's trace: the messages before the failure exit, why it stopped, and
      every memory ever appended to the replay buffer, oldest first. */
  datatype Outcome = Outcome(messages: seq<Message>, reason: Reason, history: seq<Memory>)

  function Prepend(ms: seq<Message>, o: Outcome): Outcome
  {
    Outcome(ms + o.messages, o.reason, o.history)
  }

  /** The queue after the loop's failure exit, regrouped around the whole loop's trace. */
  lemma {:induction false} ExitMessages(before: seq<Message>, updates: seq<Message>, rest: Outcome, whole: Outcome)
    requires whole.messages == updates + rest.messages && whole.reason == rest.reason
    ensures before + updates + rest.messages + FailureMessages(rest.reason)
            == before + whole.messages + FailureMessages(whole.reason)
    ensures rest.messages == [] ==>
              before + updates + FailureMessages(rest.reason) == before + whole.messages + FailureMessages(whole.reason)
  {
    assert before + updates + rest.messages == before + whole.messages;
  }

  /** One more pass of the loop moves its update from the rest of the trace
      to the updates already sent. */
  lemma {:induction false} TailAdvance(whole: Outcome, updates: seq<Message>, rest: Outcome,
                                       update: Message, next: Outcome)
    requires whole.messages == updates + rest.messages
    requires whole.reason == rest.reason && whole.history == rest.history
    requires rest == Prepend([update], next)
    ensures whole.messages == (updates + [update]) + next.messages
    ensures whole.reason == next.reason && whole.history == next.history
  {
    assert updates + ([update] + next.messages) == (updates + [update]) + next.messages;
  }

  /** The dashboard update iteration i+1 sends once its memory has joined `history`. */
  function UpdateFor(config: Config, it: Iteration, history: seq<Memory>, i: nat): (m: Message)
    ensures m.Dashboard? && |m.buffer| == Min(|history|, ReplayCapacity)
    ensures |history| > 0 ==> m.buffer[|m.buffer| - 1] == history[|history| - 1]
  {
    Dashboard(Active, i + 1, config.maxIterations, it.coherence, it.volatility, it.totalQ,
              Recent(history, ReplayCapacity))
  }

  /** The ACTIVE loop from iteration i on, entered with `stateHash` and with
      `history` already appended to the replay buffer. */
  function LoopTrace(step: StepFunction, config: Config, stateHash: string, history: seq<Memory>, i: nat): (o: Outcome)
    ensures o.reason in {CoherenceCollapse, VolatilityExceeded, ConvergenceTimeout, UnhandledException}
    decreases config.maxIterations - i
  {
    if i >= config.maxIterations then Outcome([], ConvergenceTimeout, history)
    else
      match step(stateHash)
      case None => Outcome([], UnhandledException, history)
      case Some(it) =>
        var h := history + [it.memory];
        var update := UpdateFor(config, it, h, i);
        match Verdict(it.coherence, it.volatility, config.coherenceMin, config.volatilityMax)
        case Some(reason) => Outcome([update], reason, h)
        case None => Prepend([update], LoopTrace(step, config, it.nextHash, h, i + 1))
  }

  /** The context of the ACTIVE loop once the lexicon has loaded: the
      evaluator hashes the encoded repr of the vector table, and the Fisher
      matrix has one parameter per distinct name. */
  function LoadedContext(env: Env, modelData: seq<byte>, names: seq<string>): (ctx: ActiveContext)
    ensures ctx.names == names && ctx.modelData == modelData
    ensures ctx.numParams <= |names| && (ctx.numParams == 0 <==> names == [])
  {
    LexiconSize(env, names);
    var vectors := Register(env, map[], names);
    ActiveContext(env, Utf8(env.reprLexicon(names, vectors)), modelData, names, |vectors|)
  }

  /** The run from PRIMING on, once the model and the lexicon have loaded:
      read the seed, prime, go ACTIVE and run the loop from the primed hash. */
  ghost function PrimedTrace(env: Env, modelData: seq<byte>, names: seq<string>, seed: SeedFile, config: Config): (o: Outcome)
    ensures |o.messages| >= 1 && o.messages[0] == StateUpdate(Priming)
    ensures o.reason !in {CognitiveCoreMissing, LexiconInitializationError}
  {
    match seed
    case SeedMissing => Outcome([StateUpdate(Priming)], MissingSeedError, [])
    case SeedUnreadable => Outcome([StateUpdate(Priming)], UnhandledException, [])
    case SeedText(text) =>
      var start := HexDigest(PrimeDigest(env, Utf8(text), config.complexityFactor));
      Prepend([StateUpdate(Priming), StateUpdate(Active)],
              LoopTrace(EngineStep(LoadedContext(env, modelData, names)), config, start, [], 0))
  }

  /** The whole run, up to (not including) the failure exit. */
  ghost function RunTrace(env: Env, inp: Inputs): (o: Outcome)
    ensures |o.messages| >= 2 && o.messages[..2] == [StateUpdate(Bootstrap), StateUpdate(KernelInit)]
  {
    var boot := [StateUpdate(Bootstrap), StateUpdate(KernelInit)];
    if inp.probeRaises then Outcome(boot, UnhandledException, [])
    else if inp.model.None? then Outcome(boot, CognitiveCoreMissing, [])
    else if inp.lexicon.None? || !AllNamed(inp.lexicon.value) then Outcome(boot, LexiconInitializationError, [])
    else Prepend(boot, PrimedTrace(env, inp.model.value, NamedPrefix(inp.lexicon.value), inp.seed, inp.config))
  }

  /** What `handle_failure(reason)` puts on the queue. */
  function FailureMessages(reason: Reason): seq<Message>
  {
    [StateUpdate(Critical), Fatal(ReasonText(reason)), Finished]
  }

  /** The loop body up to its threshold checks: evaluate, mix, recompute the
      Fisher diagonal, pick the action. None where Python raises. */
  method Step(env: Env, evaluator: StateEvaluator, ewcMatrix: EWCFisherMatrix, qmixer: QMixerNetwork,
              names: seq<string>, stateHash: string, ghost ctx: ActiveContext) returns (r: Option<Iteration>)
    requires evaluator.Valid() && ewcMatrix.Valid() && IsHexDigest(stateHash)
    requires qmixer == NewQMixer(NumAgents)
    requires ctx.env == env && ctx.vectorsStr == evaluator.vectorsStr && ctx.modelData == evaluator.modelData
    requires ctx.names == names && ctx.numParams == ewcMatrix.numParams
    modifies ewcMatrix.fisherDiagonal
    ensures r == Iterate(ctx, stateHash)
    ensures var ev := Evaluated(env, evaluator.vectorsStr, evaluator.modelData, stateHash);
            && (ev.None? ==> ewcMatrix.fisherDiagonal[..] == old(ewcMatrix.fisherDiagonal[..]))
            && (ev.Some? ==> ewcMatrix.fisherDiagonal[..] == FisherDiagonal(env, ev.value.nextHash, ewcMatrix.numParams))
  {
    var evaluation := evaluator.Evaluate(env, stateHash);
    if evaluation.None? {
      return None;
    }
    var nextHash := evaluation.value.nextHash;
    var totalQ := MixQValues(env, qmixer, evaluation.value.agentValues);
    var fisherMean := ewcMatrix.ComputeFisherDiagonal(env, nextHash);
    if fisherMean.None? {
      return None;
    }
    var coherence := 1.0 - fisherMean.value;
    var volatility := Abs(totalQ - 0.5) * 2.0;
    if |names| == 0 {
      return None;
    }
    var actionId := ActionIndex(nextHash, |names|);
    r := Some(Iteration(nextHash, totalQ, coherence, volatility, Memory(nextHash[..8], names[actionId], totalQ)));
  }

  class ResonanceEngine {
    var state: State
    /** The contents of `deque(maxlen=10)`, oldest first. */
    var replayBuffer: seq<Memory>
    /** What this engine has put on the GUI queue, oldest first. */
    var messages: seq<Message>

    constructor ()
      ensures state == Idle && replayBuffer == [] && messages == []
    {
      state := Idle;
      replayBuffer := [];
      messages := [];
    }

    /** `set_state(new_state)`. */
    method SetState(newState: State)
      modifies this
      ensures state == newState && replayBuffer == old(replayBuffer)
      ensures messages == old(messages) + [StateUpdate(newState)]
    {
      state := newState;
      messages := messages + [StateUpdate(newState)];
    }

    /** `handle_failure(reason)`: CRITICAL, the fatal log line, then "finished". */
    method HandleFailure(reason: Reason)
      modifies this
      ensures state == Critical && replayBuffer == old(replayBuffer)
      ensures messages == old(messages) + FailureMessages(reason)
    {
      SetState(Critical);
      messages := messages + [Fatal(ReasonText(reason)), Finished];
    }

    /** The two threshold checks that end an iteration, coherence first: a
        breach, or a threshold that cannot be read, fails the run. */
    method CheckStability(coherence: real, volatility: real, config: Config) returns (stopped: bool)
      modifies this
      ensures var verdict := Verdict(coherence, volatility, config.coherenceMin, config.volatilityMax);
              && stopped == verdict.Some?
              && replayBuffer == old(replayBuffer)
              && (stopped ==> state == Critical && messages == old(messages) + FailureMessages(verdict.value))
              && (!stopped ==> state == old(state) && messages == old(messages))
    {
      if config.coherenceMin.None? {
        HandleFailure(UnhandledException);
        return true;
      }
      if coherence < config.coherenceMin.value {
        HandleFailure(CoherenceCollapse);
        return true;
      }
      if config.volatilityMax.None? {
        HandleFailure(UnhandledException);
        return true;
      }
      if volatility > config.volatilityMax.value {
        HandleFailure(VolatilityExceeded);
        return true;
      }
      return false;
    }

    /** One pass of the `for i in range(max_iter)` body: iterate, append the
        memory to the replay buffer, send the dashboard update, check the
        thresholds. Either the run fails here, with exactly the rest of the
        loop trace sent, or it goes on from `nextHash` with one update sent. */
    method Cycle(env: Env, evaluator: StateEvaluator, ewcMatrix: EWCFisherMatrix, qmixer: QMixerNetwork,
                 names: seq<string>, config: Config, stateHash: string, i: nat,
                 ghost step: StepFunction, ghost history: seq<Memory>)
      returns (stopped: bool, nextHash: string, update: Message, ghost extended: seq<Memory>)
      requires evaluator.Valid() && ewcMatrix.Valid() && IsHexDigest(stateHash)
      requires qmixer == NewQMixer(NumAgents)
      requires Computes(step, ActiveContext(env, evaluator.vectorsStr, evaluator.modelData, names, ewcMatrix.numParams))
      requires i < config.maxIterations
      requires state == Active && replayBuffer == Recent(history, ReplayCapacity)
      modifies this, ewcMatrix.fisherDiagonal
      ensures var current := LoopTrace(step, config, stateHash, history, i);
              stopped ==> && state == Critical
                          && messages == old(messages) + current.messages + FailureMessages(current.reason)
                          && replayBuffer == Recent(current.history, ReplayCapacity)
      ensures var current := LoopTrace(step, config, stateHash, history, i);
              !stopped ==> && IsHexDigest(nextHash) && state == Active
                           && messages == old(messages) + [update]
                           && replayBuffer == Recent(extended, ReplayCapacity)
                           && ewcMatrix.fisherDiagonal[..] == FisherDiagonal(env, nextHash, ewcMatrix.numParams)
                           && current == Prepend([update], LoopTrace(step, config, nextHash, extended, i + 1))
    {
      ghost var ctx := ActiveContext(env, evaluator.vectorsStr, evaluator.modelData, names, ewcMatrix.numParams);
      var it := Step(env, evaluator, ewcMatrix, qmixer, names, stateHash, ctx);
      assert it == step(stateHash);
      if it.None? {
        HandleFailure(UnhandledException);
        return true, stateHash, Finished, history;
      }
      nextHash := it.value.nextHash;
      var memory := it.value.memory;
      DequeKeepsRecent(history, memory, ReplayCapacity);
      replayBuffer := DequeAppend(replayBuffer, memory, ReplayCapacity);
      extended := history + [memory];
      update := Dashboard(state, i + 1, config.maxIterations, it.value.coherence, it.value.volatility,
                          it.value.totalQ, replayBuffer);
      messages := messages + [update];
      stopped := CheckStability(it.value.coherence, it.value.volatility, config);
    }

    /** The ACTIVE loop of `run()`, from the primed hash to the failure exit;
        `step` is the iteration the loop body computes. */
    method RunActive(env: Env, evaluator: StateEvaluator, ewcMatrix: EWCFisherMatrix, qmixer: QMixerNetwork,
                     names: seq<string>, config: Config, start: string, ghost step: StepFunction)
      requires evaluator.Valid() && ewcMatrix.Valid() && IsHexDigest(start)
      requires qmixer == NewQMixer(NumAgents)
      requires Computes(step, ActiveContext(env, evaluator.vectorsStr, evaluator.modelData, names, ewcMatrix.numParams))
      requires state == Active && replayBuffer == []
      modifies this, ewcMatrix.fisherDiagonal
      ensures var o := LoopTrace(step, config, start, [], 0);
              && state == Critical
              && messages == old(messages) + o.messages + FailureMessages(o.reason)
              && replayBuffer == Recent(o.history, ReplayCapacity)
    {
      var maxIter := config.maxIterations;
      ghost var whole := LoopTrace(step, config, start, [], 0);
      ghost var rest := whole;
      ghost var history: seq<Memory> := [];
      ghost var updates: seq<Message> := [];
      var stateHash := start;
      var i: nat := 0;
      while i < maxIter
        invariant IsHexDigest(stateHash)
        invariant state == Active
        invariant messages == old(messages) + updates
        invariant replayBuffer == Recent(history, ReplayCapacity)
        invariant rest == LoopTrace(step, config, stateHash, history, i)
        invariant whole.messages == updates + rest.messages
        invariant whole.reason == rest.reason && whole.history == rest.history
        decreases maxIter - i
      {
        var stopped;
        var update;
        stopped, stateHash, update, history := Cycle(env, evaluator, ewcMatrix, qmixer, names, config, stateHash, i, step, history);
        if stopped {
          ExitMessages(old(messages), updates, rest, whole);
          return;
        }
        ghost var next := LoopTrace(step, config, stateHash, history, i + 1);
        TailAdvance(whole, updates, rest, update, next);
        rest := next;
        updates := updates + [update];
        i := i + 1;
      }
      assert rest.messages == [];
      ExitMessages(old(messages), updates, rest, whole);
      HandleFailure(ConvergenceTimeout);
    }

    /** `run()` from PRIMING on: build the subsystems over the loaded model and
        lexicon, read the seed, prime, and run the ACTIVE loop. */
    method Launch(env: Env, modelData: seq<byte>, names: seq<string>, vectors: map<string, string>,
                  seed: SeedFile, config: Config)
      requires vectors == Register(env, map[], names)
      requires replayBuffer == []
      modifies this
      ensures var o := PrimedTrace(env, modelData, names, seed, config);
              && state == Critical
              && messages == old(messages) + o.messages + FailureMessages(o.reason)
              && replayBuffer == Recent(o.history, ReplayCapacity)
    {
      var ewcMatrix := new EWCFisherMatrix(|vectors|);
      var qmixer := NewQMixer(NumAgents);
      var evaluator := new StateEvaluator(env, names, vectors, config.complexityFactor, modelData);
      SetState(Priming);
      if seed.SeedMissing? {
        HandleFailure(MissingSeedError);
        return;
      } else if seed.SeedUnreadable? {
        HandleFailure(UnhandledException);
        return;
      }
      var stateHash := evaluator.Prime(env, seed.text);
      SetState(Active);
      ghost var ctx := LoadedContext(env, modelData, names);
      ghost var active := LoopTrace(EngineStep(ctx), config, stateHash, [], 0);
      assert ActiveContext(env, evaluator.vectorsStr, evaluator.modelData, names, ewcMatrix.numParams) == ctx;
      assert messages == old(messages) + [StateUpdate(Priming), StateUpdate(Active)];
      RunActive(env, evaluator, ewcMatrix, qmixer, names, config, stateHash, EngineStep(ctx));
      ExitMessages(old(messages), [StateUpdate(Priming), StateUpdate(Active)], active,
                   PrimedTrace(env, modelData, names, seed, config));
    }

    /** `run()` on a fresh engine: every exit goes through `handle_failure`, and
        the queue receives exactly the run's trace followed by that exit. */
    method Run(env: Env, inp: Inputs)
      requires replayBuffer == []
      modifies this
      ensures state == Critical
      ensures messages == old(messages) + RunTrace(env, inp).messages + FailureMessages(RunTrace(env, inp).reason)
      ensures replayBuffer == Recent(RunTrace(env, inp).history, ReplayCapacity)
    {
      SetState(Bootstrap);
      SetState(KernelInit);
      assert messages == old(messages) + [StateUpdate(Bootstrap), StateUpdate(KernelInit)];
      if inp.probeRaises {
        HandleFailure(UnhandledException);
        return;
      }
      if inp.model.None? {
        HandleFailure(CognitiveCoreMissing);
        return;
      }
      var lexicon := new SymbolicProcessor();
      var loaded := lexicon.LoadLexicon(env, inp.lexicon);
      if !loaded {
        HandleFailure(LexiconInitializationError);
        return;
      }
      assert lexicon.vectorNames == NamedPrefix(inp.lexicon.value);
      ghost var primed := PrimedTrace(env, inp.model.value, lexicon.vectorNames, inp.seed, inp.config);
      Launch(env, inp.model.value, lexicon.vectorNames, lexicon.vectors, inp.seed, inp.config);
      ExitMessages(old(messages), [StateUpdate(Bootstrap), StateUpdate(KernelInit)], primed, RunTrace(env, inp));
    }
  }
}
