// The two runs of index.test.mjs written as methods over the model: every
// value the runs assert on is an out-parameter, and the `ensures` clauses
// are the assertions (stated exactly where the run states a bound).

module Scenario {
  import opened Values
  import opened Actions
  import opened History
  import opened LoopGain
  import opened Substrate

  /** The configuration of the closed-loop run: no drift, no noise, four
      entries of history, the field starting at 0 and no hook. The run uses
      seed 42; without noise the seed does not matter, so any seed will do. */
  predicate ClosedLoopConfig(cfg: Config) {
    && cfg.driftPerTick == 0.0 && cfg.noiseLevel == 0.0
    && cfg.maxHistory == 4 && cfg.fieldInit == 0.0 && cfg.signalToDelta.None?
  }

  /** One round of the run: an action from an agent, then a tick, on a
      substrate without drift or noise. The field moves by the action's
      delta alone. */
  method Round(s: Substrate, action: Action, agentId: AgentId)
    requires s.Valid() && s.config.driftPerTick == 0.0 && s.config.noiseLevel == 0.0
    modifies s, s.rand
    ensures s.Valid() && s.rand == old(s.rand)
    ensures s.t == old(s.t) + 1
    ensures s.field == old(s.field) + FieldDelta(s.config.signalToDelta, action)
    ensures s.history == Window(old(s.history) + [EntryFor(s.config, action, agentId, old(s.t))], Capacity(s.config.maxHistory))
    ensures Capacity(s.config.maxHistory) > 0 ==>
      s.history != [] && s.history[|s.history| - 1] == EntryFor(s.config, action, agentId, old(s.t))
  {
    s.Apply(action, agentId);
    TickChangeBounds(s.config, s.t);
    s.Tick();
  }

  /** The state of the closed-loop substrate after `n` rounds, as far as
      the run looks at it. */
  ghost predicate AfterRounds(s: Substrate, n: nat, field: real)
    reads s, s.rand
  {
    && s.Valid() && ClosedLoopConfig(s.config)
    && s.t == n && s.field == field && |s.history| == if n < 4 then n else 4
  }

  /** The first two blocks of the closed-loop run (index.test.mjs:19-66):
      the initial percept, a nudge of 0.5 and a nudge of 2.0 from `a0`, each
      followed by a tick. */
  method NudgePhase(s: Substrate) returns (p0: Percept, p1: Percept, p1Pre: Percept, p2: Percept)
    requires s.Valid() && s.AtStart() && ClosedLoopConfig(s.config)
    modifies s, s.rand
    ensures AfterRounds(s, 2, 2.5) && s.rand == old(s.rand)
    ensures p0.t == 0 && p0.field == 0.0 && p0.lastSignal == Null && p0.history == []
    ensures p1.t == 1 && p1.field == 0.5 && |p1.history| == 1 && p1.history[0] == NudgeMark(0.5)
    ensures p1Pre == p1
    ensures p2.t == 2 && p2.field == 2.5 && |p2.history| == 2
  {
    p0 := s.Perceive(Some("a0"));
    Round(s, NudgeBy(0.5), Some("a0"));
    p1 := s.Perceive(Some("a0"));
    p1Pre := s.Perceive(Some("a0"));
    Round(s, NudgeBy(2.0), Some("a0"));
    p2 := s.Perceive(Some("a0"));
  }

  /** The third block (index.test.mjs:68-85): `a1` emits the number 3. */
  method EmitPhase(s: Substrate) returns (p2Pre: Percept, p3: Percept)
    requires AfterRounds(s, 2, 2.5)
    modifies s, s.rand
    ensures AfterRounds(s, 3, 5.5) && s.rand == old(s.rand)
    ensures p2Pre.field == 2.5
    ensures p3.field == 5.5 && p3.lastSignal == Number(3.0) && p3.lastSignalFrom == Some("a1")
  {
    p2Pre := s.Perceive(Some("a1"));
    Round(s, EmitSignal(Number(3.0)), Some("a1"));
    p3 := s.Perceive(Some("a1"));
  }

  /** One of the three repeated rounds of the last block: `a0` emits 1. */
  method EmitOne(s: Substrate, n: nat, field: real) returns (p: Percept)
    requires AfterRounds(s, n, field)
    modifies s, s.rand
    ensures AfterRounds(s, n + 1, field + 1.0) && s.rand == old(s.rand)
    ensures p.t == n + 1 && p.field == field + 1.0 && |p.history| == |s.history|
    ensures p.lastSignal == Number(1.0) && p.lastSignalFrom == Some("a0")
  {
    Round(s, EmitSignal(Number(1.0)), Some("a0"));
    p := s.Perceive(Some("a0"));
  }

  /** The last block (index.test.mjs:87-98): three more emits of 1 from
      `a0` fill the four places of history and evict the oldest entry. */
  method RepeatPhase(s: Substrate) returns (pN: Percept)
    requires AfterRounds(s, 3, 5.5)
    modifies s, s.rand
    ensures pN.t == 6 && pN.field == 8.5 && |pN.history| == 4
    ensures pN.lastSignal == Number(1.0) && pN.lastSignalFrom == Some("a0")
  {
    pN := EmitOne(s, 3, 5.5);
    pN := EmitOne(s, 4, 6.5);
    pN := EmitOne(s, 5, 7.5);
  }

  /** The deterministic closed-loop run of index.test.mjs:10-99, with the
      loop gain measured around each of the first three actions. */
  method ClosedLoop(tanh: real -> real, cfg: Config)
      returns (p0: Percept, p1: Percept, gSmall: real, p2: Percept, gBig: real,
               p3: Percept, gEmit: real, pN: Percept)
    requires TanhLike(tanh) && ClosedLoopConfig(cfg)
    ensures p0.t == 0 && p0.field == 0.0 && p0.lastSignal == Null && p0.history == []
    ensures p1.t == 1 && p1.field == 0.5 && |p1.history| == 1 && p1.history[0] == NudgeMark(0.5)
    ensures gSmall > 0.0
    ensures p2.t == 2 && p2.field == 2.5 && |p2.history| == 2
    ensures gBig > gSmall
    ensures p3.field == 5.5 && p3.lastSignal == Number(3.0) && p3.lastSignalFrom == Some("a1")
    ensures gEmit > 0.0
    ensures pN.t == 6 && pN.field == 8.5 && |pN.history| == 4
    ensures pN.lastSignal == Number(1.0) && pN.lastSignalFrom == Some("a0")
  {
    var s := new Substrate(cfg);
    var p1Pre, p2Pre;
    p0, p1, p1Pre, p2 := NudgePhase(s);
    p2Pre, p3 := EmitPhase(s);
    pN := RepeatPhase(s);

    var aSmall, aBig, aEmit := NudgeBy(0.5), NudgeBy(2.0), EmitSignal(Number(3.0));
    gSmall := MeasureLoopGain(tanh, Some(p0), aSmall, Some(p1));
    GainZeroIffNoEffect(tanh, p0, aSmall, p1);
    gBig := MeasureLoopGain(tanh, Some(p1Pre), aBig, Some(p2));
    FullEffectGainGrows(tanh, aSmall, p0, p1, aBig, p1Pre, p2);
    gEmit := MeasureLoopGain(tanh, Some(p2Pre), aEmit, Some(p3));
    GainZeroIffNoEffect(tanh, p2Pre, aEmit, p3);
  }

  /** The no-op control of index.test.mjs:101-122: without drift and noise
      (the run uses the defaults for everything else) a `{type: 'noop'}`
      followed by a tick leaves the field where it was, so the loop gain is
      0. */
  method NoopControl(tanh: real -> real, cfg: Config) returns (g: real)
    requires TanhLike(tanh) && cfg.driftPerTick == 0.0 && cfg.noiseLevel == 0.0
    ensures g == 0.0
  {
    var s := new Substrate(cfg);
    var p0 := s.Perceive(Some("a0"));
    s.Apply(NoopAction, Some("a0"));
    s.Tick();
    var p1 := s.Perceive(Some("a0"));
    g := MeasureLoopGain(tanh, Some(p0), NoopAction, Some(p1));
    GainZeroIffNoEffect(tanh, p0, NoopAction, p1);
  }

  /** The no-op control exactly as index.test.mjs:103 configures it: the
      defaults, which have neither drift nor noise. */
  method NoopControlDefaults(tanh: real -> real) returns (g: real)
    requires TanhLike(tanh)
    ensures g == 0.0
  {
    g := NoopControl(tanh, DefaultConfig);
  }

  /** Whatever was applied and ticked before, a reset substrate is seen by
      every agent exactly as a freshly constructed one with the same
      configuration. */
  method ResetLooksFresh(cfg: Config, action: Action, actor: AgentId, viewer: AgentId)
      returns (initial: Percept, afterReset: Percept)
    ensures initial == afterReset
    ensures initial.t == 0 && initial.field == cfg.fieldInit && initial.history == []
  {
    var s := new Substrate(cfg);
    s.Apply(action, actor);
    s.Tick();
    s.Reset();
    afterReset := s.Perceive(viewer);
    var f := new Substrate(cfg);
    initial := f.Perceive(viewer);
  }
}
