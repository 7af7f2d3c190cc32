/** Properties of the engine's trace: what one iteration can compute, the
    shape of the ACTIVE loop's updates, the order of the state changes a run
    reports, and how the thresholds decide where a run ends. */
module EngineProperties {
  import opened PyOps
  import opened Hashing
  import opened Evaluator
  import opened Mixer
  import opened Lexicon
  import opened Replay
  import opened Engine

  /** Each reason is logged with its own text, so the fatal line tells the
      reasons apart. */
  lemma {:induction false} ReasonTextIdentifies(a: Reason, b: Reason)
    ensures ReasonText(a) == ReasonText(b) <==> a == b
  {
  }

  /** The values of an iteration: coherence in [0, 1], the mixed value in
      [-0.05, 1.05], volatility in [0, 1.1], and a memory made of the first
      eight characters of the new hash, one of the lexicon's names and the
      mixed value. */
  lemma {:induction false} IterateBounds(ctx: ActiveContext, stateHash: string)
    requires IsHexDigest(stateHash)
    ensures var r := Iterate(ctx, stateHash);
            r.Some? ==>
              && 0.0 <= r.value.coherence <= 1.0
              && -0.05 <= r.value.totalQ <= 1.05
              && 0.0 <= r.value.volatility <= 1.1
              && r.value.memory.statePrefix == r.value.nextHash[..8]
              && r.value.memory.action in ctx.names
              && r.value.memory.reward == r.value.totalQ
  {
    var ev := Evaluated(ctx.env, ctx.vectorsStr, ctx.modelData, stateHash);
    if ev.Some? {
      MixBounds(ctx.env, NumAgents, ev.value.agentValues);
    }
  }

  /** Where an iteration raises: a model of exactly 1024 bytes (modulo by
      zero), no Fisher parameters (mean over zero entries), or no names to
      draw an action from. */
  lemma {:induction false} IterateFaults(ctx: ActiveContext, stateHash: string)
    requires IsHexDigest(stateHash)
    ensures Iterate(ctx, stateHash).None? <==>
              |ctx.modelData| == WindowSize || ctx.numParams == 0 || ctx.names == []
  {
  }

  /** Once the lexicon has loaded, an iteration raises exactly when the model
      is 1024 bytes long or the lexicon has no names: with at least one name
      the Fisher matrix has at least one parameter. */
  lemma {:induction false} LoadedIterateFaults(env: Env, modelData: seq<byte>, names: seq<string>, stateHash: string)
    requires IsHexDigest(stateHash)
    ensures Iterate(LoadedContext(env, modelData, names), stateHash).None? <==>
              |modelData| == WindowSize || names == []
  {
    LexiconSize(env, names);
    IterateFaults(LoadedContext(env, modelData, names), stateHash);
  }

  /** The number of passes `range(max_iter)` still has from pass i. */
  function RoundsLeft(config: Config, i: nat): (n: nat)
    ensures i + n >= config.maxIterations
    ensures n > 0 ==> i + n == config.maxIterations
  {
    if i < config.maxIterations then config.maxIterations - i else 0
  }

  /** The ACTIVE loop stops for a breach, a timeout or an exception; it sends
      one update per memory it appends, never more than the passes left, and
      all of them when it times out. The history only grows at its end. */
  lemma {:induction false} LoopTraceShape(step: StepFunction, config: Config, stateHash: string,
                                          history: seq<Memory>, i: nat)
    ensures var o := LoopTrace(step, config, stateHash, history, i);
            && o.reason in {CoherenceCollapse, VolatilityExceeded, ConvergenceTimeout, UnhandledException}
            && |o.history| == |history| + |o.messages|
            && o.history[..|history|] == history
            && |o.messages| <= RoundsLeft(config, i)
            && (o.reason == ConvergenceTimeout ==> |o.messages| == RoundsLeft(config, i))
    decreases config.maxIterations - i
  {
    if i < config.maxIterations && step(stateHash).Some? {
      var it := step(stateHash).value;
      var h := history + [it.memory];
      if Verdict(it.coherence, it.volatility, config.coherenceMin, config.volatilityMax).None? {
        LoopTraceShape(step, config, it.nextHash, h, i + 1);
        var rest := LoopTrace(step, config, it.nextHash, h, i + 1);
        assert rest.history[..|history|] == rest.history[..|h|][..|history|];
      }
    }
  }

  /** `m` is the dashboard update of pass `pass` of max_iter, sent while
      ACTIVE, showing the replay buffer after the memories of `appended`. */
  predicate ShowsPass(m: Message, config: Config, pass: nat, appended: seq<Memory>)
  {
    && m.Dashboard?
    && m.state == Active
    && m.iteration == pass
    && m.maxIterations == config.maxIterations
    && m.buffer == Recent(appended, ReplayCapacity)
  }

  /** Every update of `o` shows its pass: update k is pass i+k+1 and shows
      the buffer after the first k+1 memories appended past `history`. */
  predicate UpdatesShowPasses(o: Outcome, config: Config, history: seq<Memory>, i: nat)
  {
    forall k :: 0 <= k < |o.messages| ==> UpdateShowsPass(o, config, history, i, k)
  }

  /** Update k of `o` is pass i+k+1 and shows the buffer after the first
      k+1 memories appended past `history`. */
  predicate UpdateShowsPass(o: Outcome, config: Config, history: seq<Memory>, i: nat, k: nat)
    requires k < |o.messages|
  {
    && |history| + k + 1 <= |o.history|
    && ShowsPass(o.messages[k], config, i + k + 1, o.history[..|history| + k + 1])
  }

  /** An update showing pass i+1, in front of updates that show the passes
      after it, gives updates that show their passes from pass i+1 on. */
  lemma {:induction false} UpdatesPrepend(o: Outcome, rest: Outcome, update: Message, config: Config,
                                          history: seq<Memory>, h: seq<Memory>, i: nat)
    requires o.messages == [update] + rest.messages && o.history == rest.history
    requires |h| == |history| + 1 && |h| <= |rest.history| && rest.history[..|h|] == h
    requires ShowsPass(update, config, i + 1, h)
    requires UpdatesShowPasses(rest, config, h, i + 1)
    ensures UpdatesShowPasses(o, config, history, i)
  {
    forall k | 0 <= k < |o.messages|
      ensures UpdateShowsPass(o, config, history, i, k)
    {
      PrependedUpdate(o, rest, update, config, history, h, i, k);
    }
  }

  /** Update k of the prepended updates shows pass i+k+1. */
  lemma {:induction false} PrependedUpdate(o: Outcome, rest: Outcome, update: Message, config: Config,
                                           history: seq<Memory>, h: seq<Memory>, i: nat, k: nat)
    requires o.messages == [update] + rest.messages && o.history == rest.history
    requires |h| == |history| + 1 && |h| <= |rest.history| && rest.history[..|h|] == h
    requires ShowsPass(update, config, i + 1, h)
    requires UpdatesShowPasses(rest, config, h, i + 1)
    requires k < |o.messages|
    ensures UpdateShowsPass(o, config, history, i, k)
  {
    if k == 0 {
      assert o.messages[0] == update;
    } else {
      assert UpdateShowsPass(rest, config, h, i + 1, k - 1);
      assert o.messages[k] == rest.messages[k - 1];
      assert |h| + (k - 1) + 1 == |history| + k + 1;
      assert (i + 1) + (k - 1) + 1 == i + k + 1;
    }
  }

  /** Update k of the ACTIVE loop is the dashboard of pass i+k+1 of
      max_iter: ACTIVE, and showing the replay buffer as it stood after
      that pass's memory was appended (the last ten memories). */
  lemma {:induction false} LoopTraceUpdates(step: StepFunction, config: Config, stateHash: string,
                                            history: seq<Memory>, i: nat)
    ensures UpdatesShowPasses(LoopTrace(step, config, stateHash, history, i), config, history, i)
    decreases config.maxIterations - i
  {
    var o := LoopTrace(step, config, stateHash, history, i);
    if i < config.maxIterations && step(stateHash).Some? {
      var it := step(stateHash).value;
      var h := history + [it.memory];
      var update := UpdateFor(config, it, h, i);
      if Verdict(it.coherence, it.volatility, config.coherenceMin, config.volatilityMax).None? {
        var rest := LoopTrace(step, config, it.nextHash, h, i + 1);
        LoopTraceUpdates(step, config, it.nextHash, h, i + 1);
        LoopTraceShape(step, config, it.nextHash, h, i + 1);
        UpdatesPrepend(o, rest, update, config, history, h, i);
      } else {
        assert o.messages == [update] && o.history == h;
        assert o.history[..|history| + 1] == h;
      }
    }
  }

  /** The thresholds decide where the loop stops: every update but the last
      passed both checks; a breach is seen in the last update (coherence
      below its minimum, or coherence fine and volatility above its maximum);
      and a timeout means every update passed. */
  lemma {:induction false} LoopTraceVerdicts(step: StepFunction, config: Config, stateHash: string,
                                             history: seq<Memory>, i: nat)
    ensures var o := LoopTrace(step, config, stateHash, history, i);
            && (forall k :: 0 <= k < |o.messages| - 1 ==> Passes(o.messages[k], config))
            && (o.reason == ConvergenceTimeout ==> forall k :: 0 <= k < |o.messages| ==> Passes(o.messages[k], config))
            && (o.reason == CoherenceCollapse ==>
                  && |o.messages| > 0 && Last(o.messages).Dashboard? && config.coherenceMin.Some?
                  && Last(o.messages).coherence < config.coherenceMin.value)
            && (o.reason == VolatilityExceeded ==>
                  && |o.messages| > 0 && Last(o.messages).Dashboard?
                  && config.coherenceMin.Some? && config.volatilityMax.Some?
                  && Last(o.messages).coherence >= config.coherenceMin.value
                  && Last(o.messages).volatility > config.volatilityMax.value)
    decreases config.maxIterations - i
  {
    var o := LoopTrace(step, config, stateHash, history, i);
    if i < config.maxIterations && step(stateHash).Some? {
      var it := step(stateHash).value;
      var h := history + [it.memory];
      var update := UpdateFor(config, it, h, i);
      if Verdict(it.coherence, it.volatility, config.coherenceMin, config.volatilityMax).None? {
        var rest := LoopTrace(step, config, it.nextHash, h, i + 1);
        LoopTraceVerdicts(step, config, it.nextHash, h, i + 1);
        assert o.messages == [update] + rest.messages;
        assert Passes(update, config);
        forall k | 0 <= k < |o.messages| - 1
          ensures Passes(o.messages[k], config)
        {
          if k > 0 {
            assert o.messages[k] == rest.messages[k - 1];
          }
        }
        if |rest.messages| > 0 {
          assert Last(o.messages) == Last(rest.messages);
        }
        if o.reason == ConvergenceTimeout {
          forall k | 0 <= k < |o.messages|
            ensures Passes(o.messages[k], config)
          {
            if k > 0 {
              assert o.messages[k] == rest.messages[k - 1];
            }
          }
        }
      } else {
        assert o.messages == [update];
      }
    }
  }

  /** An update whose coherence and volatility pass both configured checks. */
  predicate Passes(m: Message, config: Config)
  {
    m.Dashboard? && Verdict(m.coherence, m.volatility, config.coherenceMin, config.volatilityMax).None?
  }

  function Last<T>(s: seq<T>): T
    requires |s| > 0
  {
    s[|s| - 1]
  }

  /** The state change one message reports, if any. */
  function Reported(m: Message): seq<State>
  {
    if m.StateUpdate? then [m.state] else []
  }

  /** The state changes a list of messages reports, in order. */
  function StateChanges(ms: seq<Message>): seq<State>
  {
    if ms == [] then [] else Reported(ms[0]) + StateChanges(ms[1..])
  }

  lemma {:induction false} StateChangesAppend(a: seq<Message>, b: seq<Message>)
    ensures StateChanges(a + b) == StateChanges(a) + StateChanges(b)
  {
    if a == [] {
      assert a + b == b;
    } else {
      var ab := a + b;
      assert ab[0] == a[0] && ab[1..] == a[1..] + b;
      StateChangesAppend(a[1..], b);
      assert StateChanges(ab) == Reported(a[0]) + (StateChanges(a[1..]) + StateChanges(b));
    }
  }

  /** The ACTIVE loop reports no state change of its own. */
  lemma {:induction false} LoopTraceKeepsState(step: StepFunction, config: Config, stateHash: string,
                                               history: seq<Memory>, i: nat)
    ensures StateChanges(LoopTrace(step, config, stateHash, history, i).messages) == []
    decreases config.maxIterations - i
  {
    if i < config.maxIterations && step(stateHash).Some? {
      var it := step(stateHash).value;
      var h := history + [it.memory];
      var update := UpdateFor(config, it, h, i);
      if Verdict(it.coherence, it.volatility, config.coherenceMin, config.volatilityMax).None? {
        var rest := LoopTrace(step, config, it.nextHash, h, i + 1);
        LoopTraceKeepsState(step, config, it.nextHash, h, i + 1);
        StateChangesAppend([update], rest.messages);
      } else {
        assert StateChanges([update]) == StateChanges([]);
      }
    }
  }

  /** The states a successful start-up passes through, in order. */
  const Lifecycle: seq<State> := [Bootstrap, KernelInit, Priming, Active]

  /** The state changes of `handle_failure` appended to those of the trace. */
  function ReportedStates(o: Outcome): seq<State>
  {
    StateChanges(o.messages + FailureMessages(o.reason))
  }

  /** The state-change messages for a list of states. */
  function StateUpdates(states: seq<State>): (ms: seq<Message>)
    ensures |ms| == |states|
    ensures forall k :: 0 <= k < |ms| ==> ms[k] == StateUpdate(states[k])
  {
    seq(|states|, k requires 0 <= k < |states| => StateUpdate(states[k]))
  }

  lemma {:induction false} StateChangesOfUpdates(states: seq<State>)
    ensures StateChanges(StateUpdates(states)) == states
  {
    if states != [] {
      assert StateUpdates(states)[1..] == StateUpdates(states[1..]);
      StateChangesOfUpdates(states[1..]);
    }
  }

  /** A trace that reports the first `reached` lifecycle states and then only
      updates reports them followed by CRITICAL. */
  lemma {:induction false} ReportedLifecycle(o: Outcome, reached: nat, loop: seq<Message>)
    requires reached <= |Lifecycle|
    requires o.messages == StateUpdates(Lifecycle[..reached]) + loop
    requires StateChanges(loop) == []
    ensures ReportedStates(o) == Lifecycle[..reached] + [Critical]
  {
    var prefix := StateUpdates(Lifecycle[..reached]);
    var fail := FailureMessages(o.reason);
    assert o.messages + fail == prefix + (loop + fail);
    StateChangesAppend(prefix, loop + fail);
    StateChangesAppend(loop, fail);
    StateChangesOfUpdates(Lifecycle[..reached]);
    FailureReportsCritical(o.reason);
  }

  /** `handle_failure` reports one state change, to CRITICAL. */
  lemma {:induction false} FailureReportsCritical(reason: Reason)
    ensures StateChanges(FailureMessages(reason)) == [Critical]
  {
    var fail := FailureMessages(reason);
    assert fail[1..][1..][1..] == [];
    assert StateChanges(fail[1..][1..]) == [];
    assert StateChanges(fail[1..]) == [];
  }

  /** How far a run's start-up got, and with which messages, for a run that
      stops before its ACTIVE loop. */
  lemma {:induction false} EarlyExit(env: Env, inp: Inputs)
    requires !Starts(inp)
    ensures var o := RunTrace(env, inp);
            if inp.probeRaises then
              o.messages == StateUpdates(Lifecycle[..2]) + [] && o.reason == UnhandledException
            else if inp.model.None? || inp.lexicon.None? || !AllNamed(inp.lexicon.value) then
              o.messages == StateUpdates(Lifecycle[..2]) + [] && o.reason in {CognitiveCoreMissing, LexiconInitializationError}
            else
              o.messages == StateUpdates(Lifecycle[..3]) + [] && o.reason in {MissingSeedError, UnhandledException}
  {
    assert StateUpdates(Lifecycle[..2]) == [StateUpdate(Bootstrap), StateUpdate(KernelInit)];
    assert StateUpdates(Lifecycle[..3]) == [StateUpdate(Bootstrap), StateUpdate(KernelInit), StateUpdate(Priming)];
  }

  /** How many of the lifecycle states a run's start-up gets through: two
      when the GPU probe, the model or the lexicon fails, three when the seed
      does, all four otherwise. */
  function StagesReached(inp: Inputs): (n: nat)
    ensures 2 <= n <= |Lifecycle|
  {
    if inp.probeRaises || inp.model.None? || inp.lexicon.None? || !AllNamed(inp.lexicon.value) then 2
    else if !inp.seed.SeedText? then 3
    else 4
  }

  /** A run reports the lifecycle states its start-up got through, in order,
      then CRITICAL once, as its last state. */
  lemma {:induction false} RunLifecycle(env: Env, inp: Inputs)
    ensures ReportedStates(RunTrace(env, inp)) == Lifecycle[..StagesReached(inp)] + [Critical]
  {
    var o := RunTrace(env, inp);
    if Starts(inp) {
      var step := EngineStep(StartContext(env, inp));
      var loop := LoopTrace(step, inp.config, StartHash(env, inp), [], 0);
      StartingRun(env, inp);
      LoopTraceKeepsState(step, inp.config, StartHash(env, inp), [], 0);
      assert StateUpdates(Lifecycle[..4]) == [StateUpdate(Bootstrap), StateUpdate(KernelInit),
                                              StateUpdate(Priming), StateUpdate(Active)];
      ReportedLifecycle(o, 4, loop.messages);
    } else {
      EarlyExit(env, inp);
      ReportedLifecycle(o, StagesReached(inp), []);
    }
  }

  /** Where a run stopped tells how far its start-up got: a GPU probe that
      raises, a missing model or a bad lexicon after KERNEL_INIT, a missing
      seed after PRIMING, and a breach or a timeout only in the ACTIVE loop. */
  lemma {:induction false} StageOfReason(env: Env, inp: Inputs)
    ensures var r := RunTrace(env, inp).reason;
            && (r in {CognitiveCoreMissing, LexiconInitializationError} || inp.probeRaises <==> StagesReached(inp) == 2)
            && (inp.probeRaises ==> r == UnhandledException)
            && (r == MissingSeedError ==> StagesReached(inp) == 3)
            && (r in {CoherenceCollapse, VolatilityExceeded, ConvergenceTimeout} ==> StagesReached(inp) == 4)
  {
    if Starts(inp) {
      StartingRun(env, inp);
      LoopTraceShape(EngineStep(StartContext(env, inp)), inp.config, StartHash(env, inp), [], 0);
    } else {
      EarlyExit(env, inp);
    }
  }

  /** The start-up a run needs to reach the ACTIVE loop: a GPU probe that
      returns, a model, a lexicon whose every entry has a name, and a readable
      seed. */
  predicate Starts(inp: Inputs)
  {
    !inp.probeRaises && inp.model.Some? && inp.lexicon.Some? && AllNamed(inp.lexicon.value) && inp.seed.SeedText?
  }

  /** The context and the primed hash the ACTIVE loop of a starting run works with. */
  ghost function StartContext(env: Env, inp: Inputs): ActiveContext
    requires Starts(inp)
  {
    LoadedContext(env, inp.model.value, NamedPrefix(inp.lexicon.value))
  }

  function StartHash(env: Env, inp: Inputs): (h: string)
    requires Starts(inp)
    ensures IsHexDigest(h)
  {
    HexDigest(PrimeDigest(env, Utf8(inp.seed.text), inp.config.complexityFactor))
  }

  /** A starting run ends in the outcome of its ACTIVE loop. */
  lemma {:induction false} StartingRun(env: Env, inp: Inputs)
    requires Starts(inp)
    ensures var o := RunTrace(env, inp);
            var loop := LoopTrace(EngineStep(StartContext(env, inp)), inp.config, StartHash(env, inp), [], 0);
            o.reason == loop.reason && o.history == loop.history
            && o.messages == [StateUpdate(Bootstrap), StateUpdate(KernelInit),
                              StateUpdate(Priming), StateUpdate(Active)] + loop.messages
  {
    var loop := LoopTrace(EngineStep(StartContext(env, inp)), inp.config, StartHash(env, inp), [], 0);
    var boot := [StateUpdate(Bootstrap), StateUpdate(KernelInit)];
    var activation := [StateUpdate(Priming), StateUpdate(Active)];
    var primed := PrimedTrace(env, inp.model.value, NamedPrefix(inp.lexicon.value), inp.seed, inp.config);
    var o := RunTrace(env, inp);
    LoadedRun(env, inp);
    assert o == Prepend(boot, primed);
    PrimedRun(env, inp.model.value, NamedPrefix(inp.lexicon.value), inp.seed.text, inp.config);
    assert primed == Prepend(activation, loop);
    assert o.messages == boot + (activation + loop.messages);
    assert boot + (activation + loop.messages) == (boot + activation) + loop.messages;
  }

  /** A run whose probe, model and lexicon succeed continues as its primed trace. */
  lemma {:induction false} LoadedRun(env: Env, inp: Inputs)
    requires Starts(inp)
    ensures RunTrace(env, inp) == Prepend([StateUpdate(Bootstrap), StateUpdate(KernelInit)],
                                          PrimedTrace(env, inp.model.value, NamedPrefix(inp.lexicon.value), inp.seed, inp.config))
  {
  }

  /** With a readable seed, the primed trace goes ACTIVE and runs the loop from the primed hash. */
  lemma {:induction false} PrimedRun(env: Env, modelData: seq<byte>, names: seq<string>, text: string, config: Config)
    ensures PrimedTrace(env, modelData, names, SeedText(text), config)
            == Prepend([StateUpdate(Priming), StateUpdate(Active)],
                       LoopTrace(EngineStep(LoadedContext(env, modelData, names)), config,
                                 HexDigest(PrimeDigest(env, Utf8(text), config.complexityFactor)), [], 0))
  {
  }

  /** A coherence minimum above 1 cannot be met: a run that reaches the
      ACTIVE loop with a usable model and lexicon collapses in its first
      pass, whatever the volatility threshold, because coherence is checked
      first. */
  lemma {:induction false} CoherenceAboveOneCollapses(env: Env, inp: Inputs)
    requires Starts(inp)
    requires |inp.model.value| != WindowSize && inp.lexicon.value != []
    requires inp.config.maxIterations >= 1
    requires inp.config.coherenceMin.Some? && inp.config.coherenceMin.value > 1.0
    ensures RunTrace(env, inp).reason == CoherenceCollapse
    ensures |RunTrace(env, inp).history| == 1
  {
    var ctx := StartContext(env, inp);
    var start := StartHash(env, inp);
    var names := NamedPrefix(inp.lexicon.value);
    NamedPrefixOfAllNamed(inp.lexicon.value);
    assert names != [];
    StartingRun(env, inp);
    LoadedIterateFaults(env, inp.model.value, names, start);
    IterateBounds(ctx, start);
    assert EngineStep(ctx)(start) == Iterate(ctx, start);
  }

  /** Pass from `stateHash` succeeds and passes both checks. */
  ghost predicate Continues(step: StepFunction, config: Config, stateHash: string)
  {
    && step(stateHash).Some?
    && IsHexDigest(step(stateHash).value.nextHash)
    && Verdict(step(stateHash).value.coherence, step(stateHash).value.volatility,
               config.coherenceMin, config.volatilityMax).None?
  }

  /** Thresholds every iteration meets (a coherence minimum of at most 0 and
      a volatility maximum of at least 1.1) and a usable model and lexicon:
      the run goes through every pass and ends in "Convergence Timeout",
      with one memory per pass. */
  lemma {:induction false} SafeThresholdsTimeOut(env: Env, inp: Inputs)
    requires Starts(inp)
    requires |inp.model.value| != WindowSize && inp.lexicon.value != []
    requires inp.config.coherenceMin.Some? && inp.config.coherenceMin.value <= 0.0
    requires inp.config.volatilityMax.Some? && inp.config.volatilityMax.value >= 1.1
    ensures RunTrace(env, inp).reason == ConvergenceTimeout
    ensures |RunTrace(env, inp).history| == RoundsLeft(inp.config, 0)
  {
    var ctx := StartContext(env, inp);
    var step := EngineStep(ctx);
    var names := NamedPrefix(inp.lexicon.value);
    NamedPrefixOfAllNamed(inp.lexicon.value);
    assert names != [];
    StartingRun(env, inp);
    forall h | IsHexDigest(h)
      ensures Continues(step, inp.config, h)
    {
      LoadedIterateFaults(env, inp.model.value, names, h);
      IterateBounds(ctx, h);
      assert step(h) == Iterate(ctx, h);
    }
    LoopRunsOut(step, inp.config, StartHash(env, inp), [], 0);
  }

  /** Every update in `ms` passed both configured checks. */
  predicate AllPass(ms: seq<Message>, config: Config)
  {
    forall k :: 0 <= k < |ms| ==> Passes(ms[k], config)
  }

  /** The loop times out exactly when it makes every pass it has left and
      every one of them passes both checks: no breach and no exception in the
      passes of `range(max_iter)` means "Convergence Timeout", including when
      there are no passes at all. */
  lemma {:induction false} TimeoutIff(step: StepFunction, config: Config, stateHash: string,
                                      history: seq<Memory>, i: nat)
    ensures var o := LoopTrace(step, config, stateHash, history, i);
            o.reason == ConvergenceTimeout <==> |o.messages| == RoundsLeft(config, i) && AllPass(o.messages, config)
    decreases config.maxIterations - i
  {
    var o := LoopTrace(step, config, stateHash, history, i);
    LoopTraceShape(step, config, stateHash, history, i);
    LoopTraceVerdicts(step, config, stateHash, history, i);
    if i < config.maxIterations && step(stateHash).Some? {
      var it := step(stateHash).value;
      var h := history + [it.memory];
      var update := UpdateFor(config, it, h, i);
      if Verdict(it.coherence, it.volatility, config.coherenceMin, config.volatilityMax).None? {
        var rest := LoopTrace(step, config, it.nextHash, h, i + 1);
        TimeoutIff(step, config, it.nextHash, h, i + 1);
        assert o.messages == [update] + rest.messages;
        if |o.messages| == RoundsLeft(config, i) && AllPass(o.messages, config) {
          forall k | 0 <= k < |rest.messages|
            ensures Passes(rest.messages[k], config)
          {
            assert rest.messages[k] == o.messages[k + 1];
          }
        }
      } else {
        assert o.messages == [update];
        assert !Passes(o.messages[0], config);
      }
    }
  }

  /** A run that reaches ACTIVE with `max_iterations` at most 0 never enters
      the loop and ends in "Convergence Timeout", whatever its model, lexicon
      and thresholds. */
  lemma {:induction false} NoPassesTimeOut(env: Env, inp: Inputs)
    requires Starts(inp) && inp.config.maxIterations <= 0
    ensures RunTrace(env, inp).reason == ConvergenceTimeout
    ensures RunTrace(env, inp).history == []
  {
    StartingRun(env, inp);
  }

  /** A loop whose every pass succeeds and passes both checks runs out its passes. */
  lemma {:induction false} LoopRunsOut(step: StepFunction, config: Config,
                                       stateHash: string, history: seq<Memory>, i: nat)
    requires IsHexDigest(stateHash)
    requires forall h {:trigger Continues(step, config, h)} :: IsHexDigest(h) ==> Continues(step, config, h)
    ensures LoopTrace(step, config, stateHash, history, i).reason == ConvergenceTimeout
    ensures |LoopTrace(step, config, stateHash, history, i).history| == |history| + RoundsLeft(config, i)
    decreases config.maxIterations - i
  {
    if i < config.maxIterations {
      assert Continues(step, config, stateHash);
      var it := step(stateHash).value;
      LoopRunsOut(step, config, it.nextHash, history + [it.memory], i + 1);
    }
  }
}
