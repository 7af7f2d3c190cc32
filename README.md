# Chimera resonance engine — a Dafny model

`chimera.py` is a Tkinter application whose worker thread, the
`ResonanceEngine`, runs a small deterministic engine underneath the GUI:

- a **state evaluator** primes a SHA-256 hash chain from a seed and then, on
  every step, hashes the previous state together with the repr of the lexicon
  table and a 1024-byte window of a binary model blob, deriving five "agent"
  values from sub-hashes;
- a **Q mixer** combines the agent values with equal weights plus a
  hash-derived noise term;
- an **EWC Fisher matrix** overwrites one hash-derived entry per lexicon
  symbol and returns their mean (coherence is one minus that mean);
- a **symbolic processor** builds the lexicon: a name-to-hash table and an
  ordered list of names;
- the **run** itself is a state machine IDLE → BOOTSTRAP → KERNEL_INIT →
  PRIMING → ACTIVE → CRITICAL whose ACTIVE loop appends one memory per pass
  to a `deque(maxlen=10)` replay buffer and stops at the first stability
  breach, on an exception, or when its iterations run out — always through
  `handle_failure`.

The model keeps the source's form. The Fisher matrix, the symbolic processor
and the engine are classes whose methods loop and update their fields (the
Fisher diagonal is an `array<real>`, the replay buffer and the GUI queue are
`seq` fields). The evaluator is a class whose fields are fixed at
construction; its methods loop but only compute. Each method is proved equal
to a pure specification function, and the properties are proved as lemmas
about those functions. The mixer, which never changes after construction and only
computes, is a datatype and functions.

Files: `pyops.dfy` (Python `%`, slicing, `str(int)`, UTF-8, `sum`),
`hashing.dfy` (digests, hex text, `int(h, 16)`, the `/ 0xFFFFFFFF` ratio),
`evaluator.dfy`, `mixer.dfy`, `fisher.dfy`, `lexicon.dfy`, `replay.dfy`,
`engine.dfy` (the run: trace functions and the `ResonanceEngine` class) and
`engine_properties.dfy` (lemmas about whole runs).

SHA-256 and the two Python reprs the engine hashes (`str(list_of_floats)`,
`str(dict)`) are functions carried in an `Env` value, so every statement holds
for any hash function with 32-byte digests. The outcomes of the file reads
(model blob, decoded lexicon, seed file) and the configuration values are
inputs of the run.

## Model

| member | source | states |
|---|---|---|
| PyOps.PyMod | chimera.py:161 | Python's `%`: for a positive divisor the result lies in [0, divisor), for a negative one in (divisor, 0], and `a == b * (a // b) + a % b` |
| PyOps.PyFloorDiv | chimera.py:161 | Python's `a // b` rounds towards minus infinity: for a positive divisor `b * q <= a < b * q + b`, for a negative one `b * q + b < a <= b * q` |
| PyOps.Utf8 | chimera.py:109 | `str.encode()` takes one to four bytes per character, so the encoding is never shorter than the text and at most four times as long |
| PyOps.Decimal | chimera.py:123 | `str(i)` of a non-negative integer is a non-empty run of decimal digits without a leading zero |
| PyOps.Abs | chimera.py:235 | `abs(x)` is non-negative and is either x or -x |
| PyOps.Sum | chimera.py:126 | Python's `sum`, added left to right from 0; its bounds, scaling and constant cases are the lemmas SumBounds, SumScale and SumConstant |
| PyOps.PySlice | chimera.py:164 | Python slicing clamps its bounds: the result is never longer than the sequence or than `stop - start`, and equals the plain slice when the bounds are in range |
| Hashing.HexDigest | chimera.py:124 | `hexdigest()` of a digest is exactly 64 lower-case hex characters |
| Hashing.ParseHex | chimera.py:125 | `int(s, 16)` for lower-case hex text, digit by digit; ParseHexBound bounds it below 16^n and ParseHexOfBytes ties it to the digest's bytes |
| Hashing.HexRatio | chimera.py:125 | `int(h[:8], 16) / 0xFFFFFFFF` lies in [0, 1] for hex text of at least eight characters |
| Hashing.DigestRatio | chimera.py:172-173 | the ratio of a digest's hex text is its first four bytes read big-endian over 0xFFFFFFFF |
| Hashing.ParseHexOfBytes | chimera.py:161 | `int(d.hex(), 16)` is the big-endian value of the bytes |
| Evaluator.PrimeDigest | chimera.py:148-152 | the digest `prime` ends with: `H(seed)` chained once per round of `range(complexity)`; PrimeWithoutRounds and PrimeRoundByRound state its cases |
| Evaluator.Chain | chimera.py:150-151 | k rounds of `H(current + seed)`; ChainLast states that k+1 rounds are k rounds and one more |
| Evaluator.PrimeWithoutRounds | chimera.py:148-152 | with complexity 0 (or negative, an empty `range`) `prime` yields `H(seed)` |
| Evaluator.PrimeRoundByRound | chimera.py:150-151 | each further round hashes the previous raw 32-byte digest followed by the seed |
| Evaluator.StateEvaluator.Prime | chimera.py:148-152 | the loop returns the hex text of the chained digest for the evaluator's complexity; a hex digest |
| Evaluator.StateEvaluator.constructor | chimera.py:142-146 | the evaluator keeps the UTF-8 encoding of the lexicon repr, the complexity and the model bytes, with the model size equal to the model's length |
| Evaluator.ReadIndex | chimera.py:161 | the read offset is undefined (ZeroDivisionError) exactly when the model is 1024 bytes; for a larger model it lies in [0, size - 1024), for a smaller one in (size - 1024, 0] |
| Evaluator.ModelWindow | chimera.py:164 | the window is at most 1024 bytes and never longer than the model, and is exactly the bytes `index .. index + 1024` when those lie inside the model |
| Evaluator.AgentSlice | chimera.py:171 | agent i's slice is at most 200 bytes, and is exactly bytes `200 i .. 200 i + 200` of the window when the window holds them |
| Evaluator.AgentValue | chimera.py:171-173 | agent i's value lies in [0, 1] |
| Evaluator.WindowInModel | chimera.py:161-171 | for a model over 1024 bytes the window is exactly the 1024 model bytes at the offset, and agent i reads model bytes offset+200i to offset+200i+200 |
| Evaluator.ShortModelWindow | chimera.py:161-164 | a model under 1024 bytes raises nothing: the negative offset and the clamped slice give a window no longer than the model |
| Evaluator.Evaluated | chimera.py:154-175 | `evaluate` fails exactly for a 1024-byte model; otherwise the next hash is a hex digest and there are exactly five agent values, each in [0, 1] |
| Evaluator.AgentValues | chimera.py:169-173 | the loop yields, in order, agent i's ratio of `H(f"{next_hash}_{i}" + slice[200i:200i+200])` for i = 0..4 |
| Evaluator.StateEvaluator.Evaluate | chimera.py:154-175 | the method returns the next hash `H(state_hash + vectors_str + window)` and the five agent values, or fails exactly where `evaluate` divides by zero |
| Mixer.NewQMixer | chimera.py:129-131 | a mixer for n agents has n weights, each `1 / n` |
| Mixer.Repeat | chimera.py:131 | `[x] * n` has n entries, each equal to x |
| Mixer.Products | chimera.py:134 | `zip` pairs as many entries as the shorter list has, and entry i is `q[i] * w[i]` |
| Mixer.WeightsSumToOne | chimera.py:131 | the weights of a fresh mixer add up to 1 |
| Mixer.Noise | chimera.py:135-137 | the noise term lies in [-0.05, 0.05] for any input |
| Mixer.CommonWeightSum | chimera.py:134 | with one common weight c, the weighted sum over `zip` is c times the plain sum, so a fresh mixer takes the mean of one value per agent |
| Mixer.MixQValues | chimera.py:133-138 | `mix_q_values` returns the weighted sum over `zip(agent_q_values, mixing_weights)`, moved by the noise by at most 0.05 either way |
| Mixer.MixIsMeanPlusNoise | chimera.py:131-138 | with one value per agent, a fresh mixer returns the mean of the values plus the noise term |
| Mixer.MixBounds | chimera.py:133-138 | values in [0, 1], however many, mix to a total in [-0.05, 1.05] |
| Fisher.FisherMean | chimera.py:122-126 | the mean is undefined (ZeroDivisionError) exactly when there are no parameters, and otherwise lies in [0, 1] |
| Fisher.FisherEntry | chimera.py:123-125 | entry i, the ratio of `H(f"{state_hash}_{i}")`, lies in [0, 1] |
| Fisher.FisherDiagonal | chimera.py:122-125 | the diagonal has one entry per parameter, each in [0, 1] |
| Fisher.CoherenceInUnit | chimera.py:235 | coherence `1 - fisher_mean` lies in [0, 1] |
| Fisher.EWCFisherMatrix.constructor | chimera.py:115-117 | the diagonal holds `num_params` zeros |
| Fisher.EWCFisherMatrix.ComputeFisherDiagonal | chimera.py:120-126 | every entry is overwritten with the ratio of `H(f"{state_hash}_{i}")` (each in [0, 1]), the length is unchanged, and the mean of the new entries is returned |
| Lexicon.SymbolicProcessor.constructor | chimera.py:101 | a new processor has an empty table and no names |
| Lexicon.VectorHash | chimera.py:109 | each name's vector is a hex digest of 64 characters |
| Lexicon.SymbolicProcessor.LoadLexicon | chimera.py:104-112 | an undecodable file returns False and changes nothing; otherwise it returns True exactly when every entry has a name, appends the names before the first failing entry in order (duplicates kept) and enters each into the table |
| Lexicon.Register | chimera.py:108-110 | entering names into the table never removes a key |
| Lexicon.NamedPrefix | chimera.py:108-112 | the names appended before the first entry that raises are never more than the entries |
| Lexicon.RegisterKeys | chimera.py:108-110 | the table's keys after the loop are the old keys plus the loaded names |
| Lexicon.RegisterHashes | chimera.py:108-110 | every loaded name maps to the hex SHA-256 of its own UTF-8 text, whatever its duplicates |
| Lexicon.RegisterKeepsOthers | chimera.py:108-110 | a key that is not among the loaded names keeps its old value |
| Lexicon.RegisterContents | chimera.py:108-110 | the table gains exactly the loaded names as keys, each mapped to `H(name)` as hex text, and keeps every other key's value |
| Lexicon.LexiconSize | chimera.py:108-111 | a table built from scratch has at most as many entries as names, and is empty exactly when there are no names |
| Lexicon.NamedPrefixOfAllNamed | chimera.py:108-110 | when every entry has a name, the name list is the entries' names in input order |
| Replay.DequeAppend | chimera.py:238-239 | `append` on a `deque(maxlen=n)` never holds more than n entries and puts the new entry last |
| Replay.Recent | chimera.py:183 | what a `deque(maxlen=n)` holds after a history of appends: `min(len(history), n)` entries; DequeKeepsRecent states that each append keeps it the most recent ones |
| Replay.DequeKeepsRecent | chimera.py:238-239 | appending to the deque keeps it equal to the last ten memories of the whole history: at most ten, oldest evicted first, order kept |
| Engine.ActionIndex | chimera.py:236-237 | the action index is a valid position in a non-empty name list |
| Engine.Iterate | chimera.py:232-238 | one pass produces a hex-digest next state |
| Engine.Verdict | chimera.py:247-250 | the loop goes on exactly when both thresholds are configured and met; Coherence Collapse is reported exactly when coherence is below its minimum, ahead of any volatility breach; Volatility Exceeded exactly when coherence is met and volatility is above its maximum; a threshold that cannot be read raises |
| Engine.ReasonText | chimera.py:207-256 | the reason string each exit passes to `handle_failure` |
| Engine.FailureMessages | chimera.py:256 | what `handle_failure` queues: the CRITICAL state change, the fatal line with the reason, "finished" |
| Engine.UpdateFor | chimera.py:240-243 | a pass's dashboard update carries the replay buffer: `min(len(history), 10)` memories, the newest last |
| Engine.LoadedContext | chimera.py:211-213 | the loop's context keeps the model bytes and the lexicon's names, and its Fisher matrix has at most one parameter per name and none exactly when there are no names |
| Engine.LoopTrace | chimera.py:231-252 | the ACTIVE loop from pass i on, as the updates it queues, the reason it stops and the memories appended; it stops only for a breach, a timeout or an exception |
| Engine.PrimedTrace | chimera.py:217-252 | the run from PRIMING on: PRIMING is reported first, and its exits are never the model or lexicon reasons |
| Engine.RunTrace | chimera.py:198-254 | the whole run: BOOTSTRAP and KERNEL_INIT are always reported first; a raising GPU probe, a missing model or a bad lexicon ends it there |
| Engine.Step | chimera.py:232-237 | the loop body's computations equal one pass of `Iterate`; the Fisher diagonal is left as it was when evaluation raises, and otherwise holds the entries for the new hash |
| Engine.ResonanceEngine.constructor | chimera.py:179-183 | a new engine is IDLE with an empty replay buffer |
| Engine.ResonanceEngine.SetState | chimera.py:255 | the state becomes the new one and a state update is queued |
| Engine.ResonanceEngine.HandleFailure | chimera.py:256 | the state becomes CRITICAL and the queue receives the state change, the fatal line with the reason, and "finished" |
| Engine.ResonanceEngine.CheckStability | chimera.py:247-250 | the run fails, through `handle_failure` with the verdict's reason, exactly when the verdict is a breach; otherwise nothing changes |
| Engine.ResonanceEngine.Cycle | chimera.py:232-250 | one pass: either the run fails with exactly the rest of the loop trace sent, or it goes on from the next hash with one dashboard update sent, the memory appended and the Fisher diagonal holding the entries for the next hash |
| Engine.ResonanceEngine.RunActive | chimera.py:231-252 | the ACTIVE loop sends exactly the loop trace's updates, then fails with its reason; the buffer holds the last ten memories |
| Engine.ResonanceEngine.Launch | chimera.py:211-252 | from PRIMING on, the queue receives exactly the primed trace and its failure exit |
| Engine.ResonanceEngine.Run | chimera.py:198-256 | every run ends CRITICAL, having queued exactly the run's trace followed by `handle_failure`'s messages for its reason |
| EngineProperties.ReasonTextIdentifies | chimera.py:207-254 | each exit is logged with its own reason text: equal texts mean equal reasons |
| EngineProperties.IterateBounds | chimera.py:232-238 | in every pass coherence lies in [0, 1], the total in [-0.05, 1.05], volatility in [0, 1.1], and the memory is (first 8 hex characters of the new hash, a lexicon name, the total) |
| EngineProperties.IterateFaults | chimera.py:232-237 | a pass raises exactly when the model is 1024 bytes, there are no Fisher parameters, or there are no names |
| EngineProperties.LoadedIterateFaults | chimera.py:211-237 | once the lexicon loads, a pass raises exactly when the model is 1024 bytes or the lexicon is empty |
| EngineProperties.RoundsLeft | chimera.py:231 | the passes `range(max_iter)` has left from pass i, none for a non-positive max_iter |
| EngineProperties.LoopTraceShape | chimera.py:231-252 | the loop ends in a breach, a timeout or an exception; one memory per update; never more updates than passes left, all of them on a timeout |
| EngineProperties.LoopTraceUpdates | chimera.py:238-244 | update k is the ACTIVE dashboard for pass i+k+1 of max_iter, showing the last ten memories up to that pass |
| EngineProperties.LoopTraceVerdicts | chimera.py:247-252 | every update but the last passed both checks; a collapse shows coherence below the minimum; a volatility exit shows coherence met and volatility above the maximum; a timeout means every update passed |
| EngineProperties.StateChangesAppend | chimera.py:255 | the states reported by two message lists in turn are those of the first, then those of the second |
| EngineProperties.LoopTraceKeepsState | chimera.py:231-252 | the ACTIVE loop changes no state of its own |
| EngineProperties.FailureReportsCritical | chimera.py:256 | `handle_failure` reports a single state change, to CRITICAL |
| EngineProperties.EarlyExit | chimera.py:204-223 | a run stopped by the GPU probe (UnhandledException), the model or the lexicon reports BOOTSTRAP and KERNEL_INIT; one stopped by the seed also PRIMING |
| EngineProperties.StagesReached | chimera.py:200-229 | how many start-up states a run passes: 2, 3 or 4 |
| EngineProperties.RunLifecycle | chimera.py:198-256 | a run reports the start-up states it reached, in order, then CRITICAL once and last |
| EngineProperties.StageOfReason | chimera.py:205-252 | a run stops at stage 2 exactly when the GPU probe raises (UnhandledException) or the model or lexicon fails; a missing seed means stage 3; breaches and timeouts happen only after ACTIVE |
| EngineProperties.StartHash | chimera.py:226 | the primed hash is a hex digest |
| EngineProperties.LoadedRun | chimera.py:204-217 | once the probe, the model and the lexicon succeed, the run is BOOTSTRAP, KERNEL_INIT and then the primed trace |
| EngineProperties.PrimedRun | chimera.py:217-231 | with a readable seed, PRIMING and ACTIVE are reported and the loop starts from the primed hash with an empty buffer |
| EngineProperties.StartingRun | chimera.py:198-252 | a run that reaches ACTIVE sends BOOTSTRAP, KERNEL_INIT, PRIMING, ACTIVE and then its loop's trace, and ends for the loop's reason |
| EngineProperties.CoherenceAboveOneCollapses | chimera.py:247-248 | with a coherence minimum above 1 and a usable model and lexicon, the first pass collapses, whatever the volatility threshold |
| EngineProperties.TimeoutIff | chimera.py:231-252 | the loop ends in "Convergence Timeout" if and only if it makes every pass `range(max_iter)` has left and every one of them passes both checks (no breach and no exception), for any thresholds and any step |
| EngineProperties.NoPassesTimeOut | chimera.py:229-231 | a run that reaches ACTIVE with max_iter <= 0 never enters the loop and ends in "Convergence Timeout" with an empty replay buffer, whatever its thresholds |
| EngineProperties.SafeThresholdsTimeOut | chimera.py:231-252 | with thresholds every pass meets, the run makes every pass and ends in "Convergence Timeout" with one memory per pass (none for max_iter <= 0) |

## Left out

- The Tkinter interface, the dashboard rendering and the queue polling: user interface.
- The thread, the GUI queue as a concurrent channel, and `time.sleep`: the queue is the engine's `messages` field, a list of what is put on it, in order.
- Log lines other than the fatal reason (progress messages, the `[CRITICAL KERNEL PANIC]` text and the helix visualisation every 15 passes): they carry no state the run depends on.
- `generate_helix_frame`: floating-point drawing with `sin` and `cos`.
- `HardwareAbstractionLayer.probe_gpu`: a subprocess call; the GPU flag only changes a log line of the Fisher matrix. Whether the probe raises an error it does not catch (an `OSError` other than `FileNotFoundError`) is an input of the run; the probe is assumed to return, since `check_output` has no timeout and a hang is not modelled.
- `ModelLoader.load_model`, the seed file read and `ConfigManager`: file I/O; their outcomes are inputs (the model bytes or none, the decoded lexicon or none, the seed text or missing or unreadable, the configuration values).
- base64 and JSON decoding: library calls; the lexicon is given already decoded as a list of entries, each with or without a usable name.
- SHA-256, `str()` of the agent value list and `str()` of the lexicon dict: library internals, carried as functions in `Env`; the dict's repr is a function of the name list and the table.
- Floating-point arithmetic: all quantities are reals, so IEEE rounding in the sums, ratios and threshold comparisons is not modelled.
- Replay.Memory: the reward is kept as the total it formats, not the `f"{total_q:.3f}"` text.
- Engine.Config: `complexity_factor` and `max_iterations` are read as integers before the engine starts (`display_params`, chimera.py:318-319, refuses to start otherwise), so they are integers here; each threshold is an optional real because a missing or malformed one raises inside the loop.
- Exceptions the outer `except` catches are one reason, UnhandledException: a GPU probe that raises past its own handler, an unreadable seed file, a 1024-byte model, an empty lexicon, an unreadable threshold.
- Engine.EngineStep: the loop's step is described as any function that agrees with `Iterate` on hex digests, which are the only states the loop ever reaches; the traces take the step as a value so that proofs about the loop see one call per pass.
