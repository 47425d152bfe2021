/**
 Trace materialisation (crates/tiv-core/src/trace.rs): a second walk over the action list that
 reserves every dynamic output and binds every input to the output it will consume.
 */
module Trace {
  import opened Wrappers
  import opened Plan
  import opened PlanCompiler

  datatype OutputSlot = PaymentIntentOutput | EventOutput | ProviderGateOutput

  datatype InputSlot = PaymentIntentInput | ProviderGateInput {
    function Source(): OutputSlot {
      match this
      case PaymentIntentInput => PaymentIntentOutput
      case ProviderGateInput => ProviderGateOutput
    }
  }

  datatype OutputRef = OutputRef(actionId: nat, slot: OutputSlot, occurrence: nat)

  datatype Input = Input(slot: InputSlot, source: OutputRef)

  /** `declared` is in the order its set iterates in: by slot, then occurrence. */
  datatype CompiledAction = CompiledAction(planned: PlannedAction, inputs: seq<Input>, declared: seq<OutputRef>)

  datatype MaterializationError = MissingDynamicSource(actionId: nat, input: InputSlot)

  /** The materialiser's own state. */
  datatype Bindings = Bindings(
    active: Option<OutputRef>,
    objects: seq<OutputRef>,
    generated: nat,
    gate: Option<OutputRef>)

  const UNBOUND := Bindings(None, [], 0, None)

  datatype Bound = Bound(next: Bindings, inputs: seq<Input>, declared: seq<OutputRef>)

  /** The outputs reserved by the first `n` calls of a script: one for each call that commits. */
  function CommittedRefs(id: nat, outcomes: seq<ProviderOutcome>, n: nat): seq<OutputRef>
    requires n <= |outcomes|
  {
    if n == 0 then []
    else
      CommittedRefs(id, outcomes, n - 1)
      + (if outcomes[n - 1].Commits() then [OutputRef(id, PaymentIntentOutput, n - 1)] else [])
  }

  function GateRef(id: nat): OutputRef {
    OutputRef(id, ProviderGateOutput, 0)
  }

  function GateOf(id: nat, script: Script): seq<OutputRef> {
    if script.Terminal() == CommitThenDelay then [GateRef(id)] else []
  }

  function BindBusiness(b: Bindings, id: nat, script: Script): Bound {
    var created := CommittedRefs(id, script.Outcomes(), |script.Outcomes()|);
    var gates := GateOf(id, script);
    Bound(
      Bindings(
        if created == [] then b.active else Some(created[|created| - 1]),
        b.objects + created,
        b.generated,
        if gates == [] then b.gate else Some(gates[0])),
      [],
      created + gates)
  }

  function BindActive(b: Bindings, id: nat, gates: seq<OutputRef>): Result<Bound, MaterializationError> {
    if b.active.None? then Err(MissingDynamicSource(id, PaymentIntentInput))
    else
      Ok(Bound(if gates == [] then b else b.(gate := Some(gates[0])),
               [Input(PaymentIntentInput, b.active.value)], gates))
  }

  /** Position `i` in a list of `n` that starts over at its end. */
  function Wrap(i: nat, n: nat): (r: nat)
    requires n > 0
    ensures r < n
  {
    i % n
  }

  function BindEvent(b: Bindings, id: nat): Result<Bound, MaterializationError> {
    if |b.objects| == 0 then Err(MissingDynamicSource(id, PaymentIntentInput))
    else
      Ok(Bound(b.(generated := b.generated + 1),
               [Input(PaymentIntentInput, b.objects[Wrap(b.generated, |b.objects|)])],
               [OutputRef(id, EventOutput, 0)]))
  }

  function BindRelease(b: Bindings, id: nat): Result<Bound, MaterializationError> {
    if b.gate.None? then Err(MissingDynamicSource(id, ProviderGateInput))
    else Ok(Bound(b.(gate := None), [Input(ProviderGateInput, b.gate.value)], []))
  }

  function BindAction(b: Bindings, id: nat, kind: Action): Result<Bound, MaterializationError> {
    match kind
    case DriveCheckout(script) => Ok(BindBusiness(b, id, script))
    case RetryBusinessRequest(script) => Ok(BindBusiness(b, id, script))
    case RetrievePaymentIntent => BindActive(b, id, [])
    case ConfirmPaymentIntent(script) => BindActive(b, id, GateOf(id, script))
    case RetryProviderRequest(script) => BindActive(b, id, GateOf(id, script))
    case GenerateProviderEvent => BindEvent(b, id)
    case ReleaseProviderGate => BindRelease(b, id)
    case _ => Ok(Bound(b, [], []))
  }

  datatype Materialized = Materialized(bindings: Bindings, actions: seq<CompiledAction>)

  /** The whole walk, as a left fold that stops at the first missing source. */
  function Materialize(planned: seq<PlannedAction>): Result<Materialized, MaterializationError> {
    if planned == [] then Ok(Materialized(UNBOUND, []))
    else
      var last := planned[|planned| - 1];
      match Materialize(planned[..|planned| - 1])
      case Err(e) => Err(e)
      case Ok(m) =>
        match BindAction(m.bindings, last.id, last.kind)
        case Err(e) => Err(e)
        case Ok(bound) =>
          Ok(Materialized(bound.next, m.actions + [CompiledAction(last, bound.inputs, bound.declared)]))
  }

  // ---------- the imperative walk ----------

  /** Reserves one output per committing call, in call order. */
  method ReserveBusinessProviderOutputs(id: nat, script: Script, b: Bindings)
    returns (next: Bindings, declared: seq<OutputRef>)
    ensures Bound(next, [], declared) == BindBusiness(b, id, script)
  {
    var outcomes := script.Outcomes();
    next, declared := b, [];
    for i := 0 to |outcomes|
      invariant declared == CommittedRefs(id, outcomes, i)
      invariant next.objects == b.objects + declared
      invariant next.active == if declared == [] then b.active else Some(declared[|declared| - 1])
      invariant next.gate == b.gate && next.generated == b.generated
    {
      if outcomes[i].Commits() {
        var output := OutputRef(id, PaymentIntentOutput, i);
        declared := declared + [output];
        next := next.(active := Some(output), objects := next.objects + [output]);
      }
    }
    if script.Terminal() == CommitThenDelay {
      declared := declared + [GateRef(id)];
      next := next.(gate := Some(GateRef(id)));
    }
  }

  method MaterializeCaseActions(planned: seq<PlannedAction>)
    returns (result: Result<seq<CompiledAction>, MaterializationError>)
    ensures result == (match Materialize(planned) case Ok(m) => Ok(m.actions) case Err(e) => Err(e))
  {
    hide BindBusiness, BindActive, BindEvent, BindRelease, CommittedRefs;
    var b := UNBOUND;
    var actions: seq<CompiledAction> := [];
    for i := 0 to |planned|
      invariant Materialize(planned[..i]) == Ok(Materialized(b, actions))
    {
      var p := planned[i];
      assert planned[..i + 1][..i] == planned[..i];
      var inputs: seq<Input>, declared: seq<OutputRef> := [], [];
      match p.kind {
        case DriveCheckout(script) =>
          b, declared := ReserveBusinessProviderOutputs(p.id, script, b);
        case RetryBusinessRequest(script) =>
          b, declared := ReserveBusinessProviderOutputs(p.id, script, b);
        case _ =>
          var bound := BindAction(b, p.id, p.kind);
          if bound.Err? {
            MaterializeStops(planned, i + 1);
            return Err(bound.error);
          }
          b, inputs, declared := bound.value.next, bound.value.inputs, bound.value.declared;
      }
      actions := actions + [CompiledAction(p, inputs, declared)];
    }
    assert planned[..|planned|] == planned;
    return Ok(actions);
  }

  lemma {:induction false} MaterializeStops(planned: seq<PlannedAction>, n: nat)
    requires n <= |planned| && Materialize(planned[..n]).Err?
    ensures Materialize(planned) == Materialize(planned[..n])
    decreases |planned|
  {
    hide BindAction;
    if n < |planned| {
      var last := |planned| - 1;
      assert planned[..last][..n] == planned[..n];
      MaterializeStops(planned[..last], n);
    } else {
      assert planned[..n] == planned;
    }
  }
}
