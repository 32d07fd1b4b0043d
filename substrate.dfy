// The `Substrate` class of index.mjs:32-103: a single-owner state machine
// with a tick counter, a scalar field, a bounded history of entries, the
// last action of every agent and a seeded generator. `apply`, `tick` and
// `reset` update it in place; `perceive` reads it.

module Substrate {
  import opened Values
  import opened Actions
  import opened History
  import opened Mulberry32

  /** `(r * 2 - 1) * noiseLevel`: a draw from [0, 1) moved to [-1, 1) and
      scaled. */
  function Noise(r: real, level: real): (n: real)
    ensures 0.0 <= r < 1.0 && level >= 0.0 ==> -level <= n <= level
    ensures 0.0 <= r < 1.0 && level > 0.0 ==> n < level
    ensures level == 0.0 ==> n == 0.0
  {
    ScaleBounds(r, level);
    (r * 2.0 - 1.0) * level
  }

  lemma ScaleBounds(r: real, level: real)
    ensures 0.0 <= r < 1.0 && level >= 0.0 ==> -level <= (r * 2.0 - 1.0) * level <= level
    ensures 0.0 <= r < 1.0 && level > 0.0 ==> (r * 2.0 - 1.0) * level < level
    ensures level == 0.0 ==> (r * 2.0 - 1.0) * level == 0.0
  {
    assert (r * 2.0 - 1.0) * level == 2.0 * (r * level) - level;
    if 0.0 <= r < 1.0 && level >= 0.0 {
      ProductSign(r, level);
      ProductSign(1.0 - r, level);
      assert level - r * level == (1.0 - r) * level;
    }
  }

  lemma ProductSign(x: real, y: real)
    requires x >= 0.0 && y >= 0.0
    ensures x * y >= 0.0
    ensures x > 0.0 && y > 0.0 ==> x * y > 0.0
  {
  }

  /** The change tick number `k` (from 0, since construction or reset) makes
      to the field: the drift plus the noise of draw number `k`. */
  function TickChange(config: Config, k: nat): real {
    config.driftPerTick + Noise(DrawAt(SeedState(config.seed), k), config.noiseLevel)
  }

  /** Every tick moves the field by the drift give or take `noiseLevel`; with
      no noise, by exactly the drift. */
  lemma TickChangeBounds(config: Config, k: nat)
    requires config.noiseLevel >= 0.0
    ensures config.driftPerTick - config.noiseLevel <= TickChange(config, k) <= config.driftPerTick + config.noiseLevel
    ensures config.noiseLevel == 0.0 ==> TickChange(config, k) == config.driftPerTick
  {
  }

  /** The total change of the first `n` ticks. */
  function TickTotal(config: Config, n: nat): real {
    if n == 0 then 0.0 else TickTotal(config, n - 1) + TickChange(config, n - 1)
  }

  /** Without noise, `n` ticks move the field by `n` times the drift. */
  lemma {:induction false} NoiselessTicks(config: Config, n: nat)
    requires config.noiseLevel == 0.0
    ensures TickTotal(config, n) == n as real * config.driftPerTick
  {
    if n > 0 {
      var m := n - 1;
      NoiselessTicks(config, m);
      TickChangeBounds(config, m);
      MultiplyStep(n, config.driftPerTick);
      assert TickTotal(config, m + 1) == TickTotal(config, m) + TickChange(config, m);
    }
  }

  lemma MultiplyStep(n: nat, d: real)
    requires n > 0
    ensures n as real * d == (n - 1) as real * d + d
  {
  }

  /** The sum of the deltas of a sequence of entries. */
  function DeltaSum(es: seq<Entry>): real {
    if es == [] then 0.0 else es[0].delta + DeltaSum(es[1..])
  }

  /** The agents that have an entry among `es`. */
  ghost function Agents(es: seq<Entry>): set<AgentId> {
    set i | 0 <= i < |es| :: es[i].agentId
  }

  /** `history.map(h => h.signal)`. */
  function Signals(h: seq<Entry>): (s: seq<Signal>)
    ensures |s| == |h|
    ensures forall i :: 0 <= i < |h| ==> s[i] == h[i].signal
  {
    seq(|h|, i requires 0 <= i < |h| => h[i].signal)
  }

  /** Appending an entry adds its delta to the sum. */
  lemma {:induction false} DeltaSumAppend(es: seq<Entry>, e: Entry)
    ensures DeltaSum(es + [e]) == DeltaSum(es) + e.delta
  {
    if es != [] {
      assert (es + [e])[1..] == es[1..] + [e];
      DeltaSumAppend(es[1..], e);
    }
  }

  lemma LogStep(log: seq<Entry>, e: Entry)
    ensures DeltaSum(log + [e]) == DeltaSum(log) + e.delta
    ensures Agents(log + [e]) == Agents(log) + {e.agentId}
  {
    DeltaSumAppend(log, e);
    var l := log + [e];
    forall a | a in Agents(l) ensures a in Agents(log) + {e.agentId} {
      var i :| 0 <= i < |l| && l[i].agentId == a;
      if i < |log| { assert log[i].agentId == a; }
    }
    forall a | a in Agents(log) ensures a in Agents(l) {
      var i :| 0 <= i < |log| && log[i].agentId == a;
      assert l[i].agentId == a;
    }
    assert l[|log|].agentId == e.agentId;
  }

  /** The history entry `apply(action, agentId)` pushes at tick `t`. */
  function EntryFor(config: Config, action: Action, agentId: AgentId, t: nat): Entry {
    Entry(agentId, RecordedSignal(action), FieldDelta(config.signalToDelta, action), t)
  }

  /** The invariant of a substrate's state, on plain values: the history is
      the window of the log of every entry pushed since construction or
      reset; the generator has made one draw per tick; the field is its
      initial value plus every applied delta plus every tick's change;
      entries are in the order of their ticks, none later than now; and the
      agents with a recorded action are exactly those with a logged entry. */
  ghost predicate Inv(config: Config, t: nat, field: real, history: seq<Entry>,
                      agents: map<AgentId, Action>, a: bv32, log: seq<Entry>)
  {
    && history == Window(log, Capacity(config.maxHistory))
    && a == StateAfter(SeedState(config.seed), t)
    && field == config.fieldInit + DeltaSum(log) + TickTotal(config, t)
    && (forall i :: 0 <= i < |log| ==> log[i].t <= t)
    && (forall i, j :: 0 <= i < j < |log| ==> log[i].t <= log[j].t)
    && agents.Keys == Agents(log)
  }

  /** A fresh substrate satisfies the invariant. */
  lemma InitialInv(config: Config)
    ensures Inv(config, 0, config.fieldInit, [], map[], SeedState(config.seed), [])
  {
  }

  /** Pushing an entry stamped with the current tick, after moving the field
      by its delta, keeps the invariant; the new entry is then the last one
      retained unless the capacity is zero. */
  lemma PushInv(config: Config, t: nat, field: real, history: seq<Entry>,
                agents: map<AgentId, Action>, a: bv32, log: seq<Entry>, e: Entry, x: Action)
    requires Inv(config, t, field, history, agents, a, log)
    requires e.t == t
    ensures Inv(config, t, field + e.delta, Window(history + [e], Capacity(config.maxHistory)),
                agents[e.agentId := x], a, log + [e])
    ensures Capacity(config.maxHistory) > 0 ==>
      var h := Window(history + [e], Capacity(config.maxHistory)); h != [] && h[|h| - 1] == e
  {
    var n := Capacity(config.maxHistory);
    WindowSlide(log, e, n);
    LogStep(log, e);
    if n > 0 {
      WindowLast(history + [e], n);
    }
  }

  /** A tick, which draws once and moves the field by that tick's change,
      keeps the invariant. */
  lemma TickInv(config: Config, t: nat, field: real, history: seq<Entry>,
                agents: map<AgentId, Action>, a: bv32, log: seq<Entry>)
    requires Inv(config, t, field, history, agents, a, log)
    ensures Inv(config, t + 1, field + TickChange(config, t), history, agents, Advance(a), log)
  {
  }

  /** Determinism: the configuration, the tick and the sequence of pushed
      entries fix the field, the history, the generator state and the set
      of agents with a recorded action. Two substrates given the same calls
      therefore agree on everything they show. */
  lemma InvDetermines(config: Config, t: nat, log: seq<Entry>,
                      f1: real, h1: seq<Entry>, m1: map<AgentId, Action>, a1: bv32,
                      f2: real, h2: seq<Entry>, m2: map<AgentId, Action>, a2: bv32)
    requires Inv(config, t, f1, h1, m1, a1, log)
    requires Inv(config, t, f2, h2, m2, a2, log)
    ensures f1 == f2 && h1 == h2 && a1 == a2 && m1.Keys == m2.Keys
  {
  }

  class Substrate {
    const config: Config
    var t: nat
    var field: real
    var history: seq<Entry>
    var lastActionByAgent: map<AgentId, Action>
    var rand: Rand
    /** Every entry pushed since construction or the last reset, in call
        order; the history is its most recent part. */
    ghost var log: seq<Entry>

    /** The object invariant, `Inv` of the current fields. */
    ghost predicate Valid()
      reads this, rand
    {
      Inv(config, t, field, history, lastActionByAgent, rand.a, log)
    }

    /** The state of a freshly constructed substrate. */
    ghost predicate AtStart()
      reads this, rand
    {
      && t == 0
      && field == config.fieldInit
      && history == []
      && lastActionByAgent == map[]
      && rand.a == SeedState(config.seed)
      && log == []
    }

    constructor (cfg: Config)
      ensures config == cfg
      ensures AtStart() && Valid() && fresh(rand)
    {
      config := cfg;
      t := 0;
      field := cfg.fieldInit;
      history := [];
      lastActionByAgent := map[];
      rand := new Rand(cfg.seed);
      log := [];
      InitialInv(cfg);
    }

    /** `perceive(agentId)`: a snapshot of the state, changing nothing. */
    function Perceive(agentId: AgentId): (p: Percept)
      reads this
      ensures p.agentId == agentId && p.t == t && p.field == field
      ensures |p.history| == |history|
      ensures forall i :: 0 <= i < |history| ==> p.history[i] == history[i].signal
      ensures history == [] ==> p.lastSignal == Null && p.lastSignalFrom == None
      ensures history != [] ==>
        p.lastSignal == history[|history| - 1].signal && p.lastSignalFrom == history[|history| - 1].agentId
    {
      if history == [] then Percept(agentId, t, field, Null, None, Signals(history))
      else
        var last := history[|history| - 1];
        Percept(agentId, t, field, last.signal, last.agentId, Signals(history))
    }

    /** `apply(action, agentId)`: record the action for the agent, move the
        field by the action's delta and push an entry stamped with the
        current tick. Neither the tick nor the generator changes. */
    method Apply(action: Action, agentId: AgentId)
      requires Valid()
      modifies this
      ensures Valid()
      ensures t == old(t) && rand == old(rand)
      ensures lastActionByAgent == old(lastActionByAgent)[agentId := Coerce(action)]
      ensures field == old(field) + FieldDelta(config.signalToDelta, action)
      ensures log == old(log) + [EntryFor(config, action, agentId, t)]
      ensures history == Window(old(history) + [EntryFor(config, action, agentId, t)], Capacity(config.maxHistory))
      ensures Capacity(config.maxHistory) > 0 ==>
        history != [] && history[|history| - 1] == EntryFor(config, action, agentId, t)
    {
      var a := Coerce(action);
      var delta := FieldDelta(config.signalToDelta, action);
      var entry := Entry(agentId, RecordedSignal(action), delta, t);
      PushInv(config, t, field, history, lastActionByAgent, rand.a, log, entry, a);
      lastActionByAgent := lastActionByAgent[agentId := a];
      field := field + delta;
      PushHistory(entry);
      log := log + [entry];
    }

    /** `_pushHistory(entry)`: append, then drop the oldest entry once if the
        length exceeds `maxHistory`; the result is the window. */
    method PushHistory(entry: Entry)
      requires |history| <= Capacity(config.maxHistory)
      modifies this`history
      ensures history == Window(old(history) + [entry], Capacity(config.maxHistory))
    {
      PushShiftIsWindow(history, entry, config.maxHistory);
      history := history + [entry];
      if |history| > config.maxHistory {
        history := history[1..];
      }
    }

    /** `tick()`: one draw of the generator, the field moves by the drift
        plus the scaled noise, and the tick counter goes up by one. History
        and the agent map stay as they are. */
    method Tick()
      requires Valid()
      modifies this, rand
      ensures Valid()
      ensures t == old(t) + 1
      ensures field == old(field) + TickChange(config, old(t))
      ensures rand == old(rand) && rand.a == Advance(old(rand.a))
      ensures history == old(history) && lastActionByAgent == old(lastActionByAgent) && log == old(log)
    {
      var drift := config.driftPerTick;
      var r := rand.Next();
      var noise := Noise(r, config.noiseLevel);
      assert r == DrawAt(SeedState(config.seed), t);
      TickInv(config, t, field, history, lastActionByAgent, old(rand.a), log);
      field := field + (drift + noise);
      t := t + 1;
    }

    /** `reset()`: back to the state of a fresh construction with the same
        configuration, generator reseeded. */
    method Reset()
      modifies this
      ensures AtStart() && Valid() && fresh(rand)
    {
      t := 0;
      field := config.fieldInit;
      history := [];
      lastActionByAgent := map[];
      rand := new Rand(config.seed);
      log := [];
      InitialInv(config);
    }
  }
}
