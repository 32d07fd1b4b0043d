# Substrate: a verified model

This project models the `Substrate` class of `index.mjs`. It is a small,
synchronous, single-owner environment for closed-loop agent experiments. It
holds:

- a tick counter `t`;
- a scalar `field`;
- a bounded FIFO history of what agents did;
- the last action of every agent;
- a seeded mulberry32 generator.

It has five operations:

- `apply(action, agentId)` moves the field by the action's delta and records the action.
- `tick()` adds drift plus scaled noise and advances `t`.
- `perceive(agentId)` returns a snapshot.
- `reset()` restores the construction state.
- `measureLoopGain(prev, action, next)` scores how much of an action's declared size showed up in the field.

The model is split into these modules:

- `Values` (values.dfy): signals, actions, history entries, percepts and the configuration record with its defaults.
- `Mulberry32` (mulberry32.dfy): the generator on `bv32`.
  - `Rand` is the closure's accumulator as an object.
  - `StateAfter` and `DrawAt` give the stream as a function of the seed and the number of draws.
  - Three lemmas pin concrete draws for seeds 1 and 42.
- `Actions` (actions.dfy):
  - coercion of non-objects to `{type: 'noop'}`;
  - the field delta of an action, with the code's order of sources;
  - the signal recorded in history;
  - `actionMagnitude`.
- `History` (history.dfy): `_pushHistory` as a window over everything pushed. Its capacity is `max(maxHistory, 0)`.
- `LoopGain` (loop_gain.dfy): `clamp01`, the ratio, and `measureLoopGain`.
- `Substrate` (substrate.dfy): the class itself.
  - The fields `t`, `field`, `history`, `lastActionByAgent` and `rand` are updated in place by `Apply`, `Tick` and `Reset`.
  - A ghost `log` of every entry pushed since construction or reset defines the meaning of the state.
  - The object invariant `Inv` says:
    - the history is the window of the log;
    - the generator has made exactly `t` draws;
    - the field is `fieldInit` plus every applied delta plus every tick's change;
    - entries are stamped in tick order;
    - the agent map's keys are the agents in the log.
- `Scenario` (scenario.dfy):
  - the two runs of `index.test.mjs`, as methods whose out-parameters are the asserted values;
  - the helpers `Round` (an apply then a tick), `EmitOne` (one repeated emit round) and the ghost predicate `AfterRounds` (the state after n rounds);
  - `ResetLooksFresh`, which is part of neither run: after any apply and tick, `reset` is seen exactly as a new substrate.

The hook precedence follows the code. At index.mjs:60 an emit's delta comes
from these sources, in order:

1. an explicit numeric `delta`;
2. the `signalToDelta` hook, if configured, whatever the signal is;
3. a numeric signal;
4. 0.

So the hook is consulted before a numeric signal (`Actions.HookPrecedence`).

`Math.tanh` is a parameter `tanh: real -> real` of the loop-gain members.
Every lemma about the gain requires `TanhLike(tanh)`:

- `tanh(0) = 0`;
- `tanh` is strictly increasing on arguments that are not negative;
- `tanh` lies in `[0, 1)` for arguments that are not negative.

The hyperbolic tangent over the reals has all three properties.

## Model

| member | source | states |
|---|---|---|
| `Mulberry32.Rand.constructor` | index.mjs:13 | The accumulator starts as the seed reduced modulo 2^32 (`seed >>> 0`). |
| `Mulberry32.Rand.Next` | index.mjs:14-20 | One draw advances the accumulator by 0x6D2B79F5 modulo 2^32 and returns the mixed new state divided by 2^32, a value in [0, 1). |
| `Mulberry32.SeedState` | index.mjs:13 | The start state is the low 32 bits of the seed in two's complement, which is `seed >>> 0`. |
| `Mulberry32.Advance` | index.mjs:16 | One step adds 0x6D2B79F5 to the accumulator, wrapping modulo 2^32. |
| `Mulberry32.Mix` | index.mjs:17-19 | The bit-mixing of the new state: `imul` as wrapping 32-bit multiplication, and line 18 read with JavaScript precedence: the sum of `t` and `imul(t ^ t >>> 7, 61 or t)`, then xor with `t` (`or` being bitwise). The concrete draw lemmas below pin its values. |
| `Mulberry32.ToUnit` | index.mjs:19 | The division by 2^32 of an unsigned 32-bit value lies in [0, 1) and times 2^32 gives that value back. |
| `Mulberry32.DrawAt` | index.mjs:12-21 | Draw number k of a seeded stream is a function of the seed and k alone, and lies in [0, 1). |
| `Mulberry32.StateAfterAdd` | index.mjs:15-16 | Drawing m times and then n times leaves the accumulator where m + n draws do. |
| `Mulberry32.FirstDrawSeedOne` | index.mjs:12-21 | From seed 1 the first mixed 32-bit value is 2693262067 (the draw 0.6270739405881613). |
| `Mulberry32.SecondDrawSeedOne` | index.mjs:12-21 | From seed 1 the second mixed 32-bit value is 11749833. |
| `Mulberry32.FirstDrawSeedFortyTwo` | index.mjs:12-21 | From seed 42 the first mixed 32-bit value is 2581720956. |
| `LoopGain.Clamp01` | index.mjs:23 | The result lies in [0, 1], equals the input inside it, and is 0 below and 1 above. |
| `Actions.Magnitude` | index.mjs:25-30 | The magnitude is never negative. It is `abs(amount)` if `amount` is numeric, else `abs(delta)` if `delta` is numeric, else 1; a non-object gives 1. |
| `Actions.MagnitudeMatchesDelta` | index.mjs:25-30 | For a nudge with a numeric amount, or an emit whose only size is an explicit delta, the magnitude is the size of the change the action makes to the field. |
| `Actions.Coerce` | index.mjs:55 | A non-object becomes `{type: 'noop'}`; an object passes through unchanged. |
| `Actions.EmitDelta` | index.mjs:60 | The delta of an emit, trying an explicit numeric delta, then the hook, then a numeric signal, then 0; `Actions.HookPrecedence` states the cases. |
| `Actions.FieldDelta` | index.mjs:58-71 | The change `apply` makes to the field, one branch per kind of the coerced action (emit, nudge, anything else), as in the three branches of index.mjs:58-71. |
| `Actions.RecordedSignal` | index.mjs:59-71 | The signal `apply` pushes: an emit's own signal (null if absent), `{nudge: amount}` for a nudge, `{noop: true}` otherwise. |
| `Actions.NonObjectIsNoop` | index.mjs:55-71 | A non-object action changes the field by 0 and records the `{noop: true}` marker, exactly as `{type: 'noop'}` does. |
| `Actions.HookPrecedence` | index.mjs:58-62 | For every emit, an explicit numeric delta wins. Otherwise a configured hook decides the delta, even for a numeric signal. Without a hook, a numeric signal is its own delta and any other signal gives 0. The signal is recorded as given. |
| `Actions.NonEmitIgnoresHook` | index.mjs:65-71 | A nudge moves the field by its numeric amount (or 0) and every other non-emit kind by 0, whatever hook is configured. |
| `Actions.NudgeRecordsItsDelta` | index.mjs:65-68 | A nudge is recorded as `{nudge: x}`, where x is exactly the amount added to the field, and never as a plain number. |
| `History.Capacity` | index.mjs:101 | A `maxHistory` of zero or less keeps nothing; otherwise it is the capacity. |
| `History.Window` | index.mjs:99-102 | The retained history is at most the capacity long and at most as long as everything pushed, and is one of the two. |
| `History.WindowIsSuffix` | index.mjs:99-102 | The retained entries are exactly the most recent ones, oldest first, in call order. |
| `History.WindowLast` | index.mjs:99-102 | With a positive capacity, the entry pushed last is the last one retained. |
| `History.WindowPushRoom` | index.mjs:100 | Pushing onto a history below capacity keeps every entry. |
| `History.WindowPushFull` | index.mjs:100-101 | Pushing onto a full history evicts exactly the oldest entry. |
| `History.PushShiftIsWindow` | index.mjs:99-102 | A push followed by at most one shift, on a history within capacity, yields the window of the extended history. |
| `History.WindowSlide` | index.mjs:99-102 | Sliding the window one push at a time gives the window of the whole sequence pushed, so what is retained never depends on what was evicted. |
| `LoopGain.Ratio` | index.mjs:83-87 | The ratio is never negative and is 0 exactly when the two fields are equal. |
| `LoopGain.MeasureLoopGain` | index.mjs:81-89 | The gain lies in [0, 1] and is 0 when either percept is absent. |
| `LoopGain.GainIsTanhOfRatio` | index.mjs:88 | With both percepts present the clamp never bites: the gain is `tanh(ratio)`, which is below 1. |
| `LoopGain.GainZeroIffNoEffect` | index.mjs:81-89 | With both percepts present, the gain is 0 if and only if the field did not change. |
| `LoopGain.GainMonotone` | index.mjs:85-88 | For one action, a larger change of the field gives at least as large a gain, and a strictly larger change a strictly larger gain. |
| `LoopGain.FullEffectGainGrows` | index.mjs:85-88 | When each of two actions moves the field by exactly its magnitude, the one with the larger magnitude shows the larger gain, because of `EPS`. |
| `Substrate.Noise` | index.mjs:76 | For a draw in [0, 1), the noise lies in [-noiseLevel, noiseLevel). With no noise level it is 0. |
| `Substrate.TickChange` | index.mjs:75-77 | A tick's change to the field: the drift plus the noise of that tick's draw. |
| `Substrate.TickChangeBounds` | index.mjs:74-79 | A tick moves the field by the drift give or take the noise level; with noise level 0, by exactly the drift. |
| `Substrate.NoiselessTicks` | index.mjs:74-79 | Without noise, n ticks move the field by n times the drift. |
| `Substrate.EntryFor` | index.mjs:62-71 | The entry `apply` pushes: the agent, the recorded signal, the field delta and the current tick. |
| `Substrate.InitialInv` | index.mjs:33-40 | The construction state satisfies the invariant, with an empty log. |
| `Substrate.PushInv` | index.mjs:54-72 | Pushing an entry stamped with the current tick, after moving the field by its delta and recording the action, keeps the invariant; with a positive capacity the entry is the last retained. |
| `Substrate.TickInv` | index.mjs:74-79 | One draw plus the tick's change to the field plus `t + 1` keeps the invariant. |
| `Substrate.InvDetermines` | index.mjs:54-79 | The configuration, the tick count and the pushed entries fix the field, the history, the generator state and the set of agents with a recorded action. |
| `Substrate.Signals` | index.mjs:50 | The percept's history has the signals of the retained entries, one for one and in order. |
| `Substrate.Substrate.constructor` | index.mjs:33-40 | A new substrate has `t = 0`, `field = fieldInit`, an empty history and agent map, and a generator seeded with the seed; it satisfies the invariant. |
| `Substrate.Substrate.Perceive` | index.mjs:42-52 | The snapshot echoes the agent, `t` and `field`. `lastSignal` and `lastSignalFrom` are null when the history is empty, and otherwise are the last entry's signal and agent (either of which may itself be null). The history is the retained signals in order. Nothing changes. |
| `Substrate.Substrate.Apply` | index.mjs:54-72 | `t` and the generator are unchanged. The agent's entry in the map becomes the coerced action and the other agents' entries are unchanged. The field moves by exactly the action's delta. The entry pushed carries the recorded signal, the delta and the pre-tick `t`, and, with a positive `maxHistory`, is the newest one retained (a `maxHistory` of zero or less evicts it at once). The invariant is kept. |
| `Substrate.Substrate.PushHistory` | index.mjs:99-102 | Push and one conditional shift leave the window of the old history plus the entry. |
| `Substrate.Substrate.Tick` | index.mjs:74-79 | `t` goes up by one. The field moves by the drift plus the noise of the next draw. The generator advances once. History and the agent map are unchanged, and the invariant is kept. |
| `Substrate.Substrate.Reset` | index.mjs:91-97 | The state is the construction state for the same configuration, with the generator reseeded, and the invariant holds. |
| `Scenario.ResetLooksFresh` | index.mjs:91-97 | After any apply and tick, a reset substrate is perceived exactly as a freshly constructed one. |
| `Scenario.Round` | index.test.mjs:33-34 | An apply followed by a tick, without drift or noise, moves the field by the action's delta alone and advances `t` by one. |
| `Scenario.NudgePhase` | index.test.mjs:19-66 | Initially `t = 0`, the field is 0, there is no last signal and the history is empty. After a nudge of 0.5, `t = 1`, the field is 0.5 and the history is `[{nudge: 0.5}]`. After a nudge of 2, `t = 2`, the field is 2.5 and there are two entries. |
| `Scenario.EmitPhase` | index.test.mjs:68-85 | After `a1` emits 3, the field is 5.5 and the last signal is 3, from `a1`. |
| `Scenario.EmitOne` | index.test.mjs:87-89 | An emit of 1 from `a0` and a tick add 1 to the field and make that emit the last signal. |
| `Scenario.RepeatPhase` | index.test.mjs:87-98 | Three more emits leave `t = 6` and the field at 8.5. The history is capped at exactly 4 entries, and its last signal is 1 from `a0`. |
| `Scenario.ClosedLoop` | index.test.mjs:10-99 | Every assertion of the closed-loop run holds, with gains `gSmall > 0`, `gBig > gSmall` and `gEmit > 0`, for any seed. |
| `Scenario.NoopControl` | index.test.mjs:101-122 | With no drift and no noise, a `{type: 'noop'}` and a tick give a loop gain of exactly 0. |
| `Scenario.NoopControlDefaults` | index.test.mjs:103-121 | With the default configuration, as the run constructs it, the no-op control's gain is exactly 0. |

## Left out

- Floating point: `field`, drift, noise and the loop-gain ratio are reals, so rounding, NaN and infinities are not modelled. In particular, the double-precision `Math.tanh` rounds to 1 for large ratios, while `tanh` here stays below 1.
- `Math.tanh` is a parameter constrained by `TanhLike`, not a definition.
- `EPS` is the constant 1e-9. It keeps the division defined and makes a fully effective larger action score higher (`LoopGain.FullEffectGainGrows`).
- The `signalToDelta` hook is an optional pure function `Signal -> real`. A hook that returns a non-number, throws, or has side effects is not modelled.
- The object spread of the constructor (index.mjs:34) and the defaults (index.mjs:1-8) are a `Config` record and `DefaultConfig`. Unknown extra options and non-numeric option values are not modelled.
- `History.Capacity`: `maxHistory` is an integer. A fractional value, which acts as its floor, is not modelled. Neither are `Infinity` and `NaN`, with which the length test of index.mjs:101 is never true, so nothing is ever evicted and the history grows without bound.
- The seed is an integer reduced modulo 2^32. Non-integer seeds, for which JavaScript's `>>> 0` first truncates a double, are not modelled.
- JavaScript's dynamic typing is reduced to closed datatypes:
  - an action is either `NonObject` or an object with a `Kind`;
  - `delta` and `amount` are `None` unless they are numbers;
  - a signal is `Null`, a number, one of the two markers, or `Opaque(id)` for any other value, which the substrate stores and hands back;
  - a `type` other than the three kinds is `Unrecognised`;
  - an agent id is `null` or a string, though the code accepts any value as a `Map` key (index.mjs:57); the substrate only stores, compares and echoes ids, so no proved behaviour depends on their type.
- `measureLoopGain` reading a non-numeric `field` of a percept as 0 (index.mjs:83-84) is not modelled: a `Percept`'s field is always a number.
- `Substrate.Substrate.Apply`: records the coerced action, which equals the stored object for every object action. Object identity, and later mutation of that object by the caller, are not modelled.
- `Substrate.Substrate.Perceive`: signal object identity and aliasing are not modelled. The code stores the emitted signal object itself (index.mjs:59, 62) and hands out the stored objects, including the `{nudge: x}` and `{noop: true}` markers, in every percept (index.mjs:48, 50; `map` copies the array, not its elements). A caller that mutates a percept's signal, or an object it emitted earlier, changes what later percepts report. Here signals are immutable values.
- The generator is an object owned by one substrate. Sharing it between substrates (aliasing) is not modelled, and `Reset` allocates a fresh generator, as the code allocates a fresh closure.
- `Scenario.ClosedLoop`: holds for every seed, because without noise the seed does not matter. It states the history bound of index.test.mjs:98 as exactly 4, which is stronger. The `console.log` output and the `node:test` harness are not modelled.
- `Scenario.NoopControl`: holds for any configuration without drift or noise, not only the defaults; `Scenario.NoopControlDefaults` is the defaults case of the run.
