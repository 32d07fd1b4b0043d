// The values that cross the substrate's interface (index.mjs): signals,
// actions as agents submit them, history entries, percepts and the
// configuration record with its defaults.

module Values {

  datatype Option<T> = None | Some(value: T) {
    function GetOr(default: T): T {
      match this
      case Some(v) => v
      case None => default
    }
  }

  /** An agent identifier; `None` is JavaScript's `null`, the default. */
  type AgentId = Option<string>

  /** A signal value as the substrate stores and reports it. `Null` covers
      both `null` and a missing signal (`action.signal ?? null`); `Number` is
      a numeric signal; `NudgeMark(x)` is the object `{nudge: x}` and
      `NoopMark` the object `{noop: true}` that the substrate records for
      nudges and no-ops; `Opaque(id)` stands for any other value an agent may
      emit, which the substrate stores and hands back without looking
      inside it. */
  datatype Signal =
    | Null
    | Number(x: real)
    | NudgeMark(amount: real)
    | NoopMark
    | Opaque(id: nat)

  /** The `type` property of an action object: the three kinds the substrate
      recognises and every other value (missing, or any other string). */
  datatype Kind = Emit | Nudge | Noop | Unrecognised

  /** An action as submitted. `NonObject` is anything for which
      `!action || typeof action !== 'object'` holds (null, undefined, numbers,
      strings, functions). An object carries its `type` and the three
      properties the substrate reads; `delta` and `amount` are `None` when the
      property is missing or is not a number. */
  datatype Action =
    | NonObject
    | Object(kind: Kind, signal: Signal, delta: Option<real>, amount: Option<real>)

  /** `{type: 'noop'}`, the action a non-object is replaced by. */
  const NoopAction: Action := Object(Noop, Null, None, None)

  /** `{type: 'nudge', amount: x}`. */
  function NudgeBy(x: real): Action { Object(Nudge, Null, None, Some(x)) }

  /** `{type: 'emit', signal: s}`. */
  function EmitSignal(s: Signal): Action { Object(Emit, s, None, None) }

  /** One retained history record: who acted, what was recorded as the
      signal, the change applied to the field, and the tick it happened in. */
  datatype Entry = Entry(agentId: AgentId, signal: Signal, delta: real, t: nat)

  /** The snapshot `perceive` returns; `history` holds only the signals. */
  datatype Percept = Percept(
    agentId: AgentId,
    t: nat,
    field: real,
    lastSignal: Signal,
    lastSignalFrom: AgentId,
    history: seq<Signal>)

  /** The substrate's configuration after defaults are merged in.
      `signalToDelta` is the optional caller-supplied hook. */
  datatype Config = Config(
    seed: int,
    driftPerTick: real,
    noiseLevel: real,
    maxHistory: int,
    fieldInit: real,
    signalToDelta: Option<Signal -> real>)

  /** The defaults of index.mjs: seed 1, no drift, no noise, 16 entries of
      history, field starting at 0, no hook. */
  const DefaultConfig: Config := Config(1, 0.0, 0.0, 16, 0.0, None)

  function Abs(x: real): (r: real)
    ensures r >= 0.0 && (r == x || r == -x)
  {
    if x < 0.0 then -x else x
  }
}
