// How `apply` reads an action (index.mjs:54-72) and how `measureLoopGain`
// sizes one (index.mjs:25-30): coercion of non-objects to `{type: 'noop'}`,
// the change to the field, and the signal that goes into the history.

module Actions {
  import opened Values

  /** The coercion at the boundary: anything that is not an object becomes
      `{type: 'noop'}`; objects pass through untouched. */
  function Coerce(a: Action): (c: Action)
    ensures c.Object?
    ensures a.Object? ==> c == a
    ensures a.NonObject? ==> c == NoopAction
  {
    if a.NonObject? then NoopAction else a
  }

  /** The delta of an `emit`, in the order the code tries its sources: an
      explicit numeric `delta`, then the hook if one is configured (whatever
      the signal is), then a numeric signal, then 0. */
  function EmitDelta(hook: Option<Signal -> real>, a: Action): real
    requires a.Object?
  {
    if a.delta.Some? then a.delta.value
    else if hook.Some? then hook.value(a.signal)
    else if a.signal.Number? then a.signal.x
    else 0.0
  }

  /** The change `apply` makes to the field for action `a`. */
  function FieldDelta(hook: Option<Signal -> real>, a: Action): real {
    var c := Coerce(a);
    match c.kind
    case Emit => EmitDelta(hook, c)
    case Nudge => c.amount.GetOr(0.0)
    case _ => 0.0
  }

  /** The signal `apply` records in the history for action `a`. */
  function RecordedSignal(a: Action): Signal {
    var c := Coerce(a);
    match c.kind
    case Emit => c.signal
    case Nudge => NudgeMark(c.amount.GetOr(0.0))
    case _ => NoopMark
  }

  /** A non-object action behaves exactly as `{type: 'noop'}`: no change to
      the field and a no-op marker in the history. */
  lemma NonObjectIsNoop(hook: Option<Signal -> real>)
    ensures Coerce(NonObject) == NoopAction
    ensures FieldDelta(hook, NonObject) == FieldDelta(hook, NoopAction) == 0.0
    ensures RecordedSignal(NonObject) == RecordedSignal(NoopAction) == NoopMark
  {
  }

  /** Only an `emit` moves the field by something other than its own stated
      size: a nudge moves it by its numeric amount (or not at all), every
      other kind leaves it alone, and neither consults the hook. */
  lemma NonEmitIgnoresHook(h1: Option<Signal -> real>, h2: Option<Signal -> real>, a: Action)
    requires Coerce(a).kind != Emit
    ensures FieldDelta(h1, a) == FieldDelta(h2, a)
    ensures Coerce(a).kind == Nudge ==> FieldDelta(h1, a) == Coerce(a).amount.GetOr(0.0)
    ensures Coerce(a).kind != Nudge ==> FieldDelta(h1, a) == 0.0
  {
  }

  /** A nudge is recorded as a marker carrying exactly the amount that was
      added to the field, so the history tells nudges from emitted numbers. */
  lemma NudgeRecordsItsDelta(hook: Option<Signal -> real>, a: Action)
    requires Coerce(a).kind == Nudge
    ensures RecordedSignal(a) == NudgeMark(FieldDelta(hook, a))
    ensures !RecordedSignal(a).Number?
  {
  }

  /** An emit's delta comes from the first of these that applies: an
      explicit numeric `delta`; the hook, when configured, whatever the
      signal is; a numeric signal; 0. Its signal is recorded as given. */
  lemma HookPrecedence(hook: Option<Signal -> real>, a: Action)
    requires a.Object? && a.kind == Emit
    ensures a.delta.Some? ==> FieldDelta(hook, a) == a.delta.value
    ensures a.delta.None? && hook.Some? ==> FieldDelta(hook, a) == hook.value(a.signal)
    ensures a.delta.None? && hook.None? && a.signal.Number? ==> FieldDelta(hook, a) == a.signal.x
    ensures a.delta.None? && hook.None? && !a.signal.Number? ==> FieldDelta(hook, a) == 0.0
    ensures RecordedSignal(a) == a.signal
  {
  }

  /** `actionMagnitude`: the size an action declares, `|amount|` before
      `|delta|`, and 1 when it declares none (including every non-object). */
  function Magnitude(a: Action): (m: real)
    ensures m >= 0.0
    ensures a.NonObject? || (a.amount.None? && a.delta.None?) ==> m == 1.0
    ensures a.Object? && a.amount.Some? ==> m == Abs(a.amount.value)
    ensures a.Object? && a.amount.None? && a.delta.Some? ==> m == Abs(a.delta.value)
  {
    if a.NonObject? then 1.0
    else if a.amount.Some? then Abs(a.amount.value)
    else if a.delta.Some? then Abs(a.delta.value)
    else 1.0
  }

  /** For a nudge or an emit with an explicit delta, and no other size
      property, the magnitude is the size of the change the action makes to
      the field. */
  lemma MagnitudeMatchesDelta(hook: Option<Signal -> real>, a: Action)
    requires a.Object?
    requires (a.kind == Nudge && a.amount.Some?) || (a.kind == Emit && a.amount.None? && a.delta.Some?)
    ensures Magnitude(a) == Abs(FieldDelta(hook, a))
  {
  }
}
