/** The materialiser simulates the planner, and what it binds is sound, distinct and fully consumed. */
module TraceSimulation {
  import opened Wrappers
  import opened Sequences
  import opened Plan
  import opened PlanInvariant
  import opened PlanCompiler
  import opened PlanLedger
  import opened Trace

  // ---------- the materialiser alone: every binding names an earlier, correctly typed output ----------

  /** `source` is declared by the action it names, which is one of the first `n`. */
  predicate DeclaredBefore(actions: seq<CompiledAction>, n: nat, source: OutputRef) {
    1 <= source.actionId <= n <= |actions| && source in actions[source.actionId - 1].declared
  }

  /** Actions are identified by position and own the outputs they declare. */
  predicate Owned(actions: seq<CompiledAction>) {
    forall i :: 0 <= i < |actions| ==>
      actions[i].planned.id == i + 1
      && forall r :: r in actions[i].declared ==> r.actionId == i + 1
  }

  predicate InputsBoundAt(actions: seq<CompiledAction>, i: nat)
    requires i < |actions|
  {
    forall input :: input in actions[i].inputs ==>
      input.source.slot == input.slot.Source() && DeclaredBefore(actions, i, input.source)
  }

  predicate InputsBound(actions: seq<CompiledAction>) {
    forall i :: 0 <= i < |actions| ==> InputsBoundAt(actions, i)
  }

  predicate BindingsSound(b: Bindings, actions: seq<CompiledAction>) {
    && (forall r :: r in b.objects ==> r.slot == PaymentIntentOutput && DeclaredBefore(actions, |actions|, r))
    && (b.active.Some? ==>
          b.active.value.slot == PaymentIntentOutput && DeclaredBefore(actions, |actions|, b.active.value))
    && (b.gate.Some? ==> b.gate.value.slot == ProviderGateOutput && DeclaredBefore(actions, |actions|, b.gate.value))
    && Distinct(b.objects)
  }

  predicate NumberedFromOne(planned: seq<PlannedAction>) {
    forall i :: 0 <= i < |planned| ==> planned[i].id == i + 1
  }

  lemma {:induction false} CommittedRefsShape(id: nat, outcomes: seq<ProviderOutcome>, n: nat)
    requires n <= |outcomes|
    ensures forall r :: r in CommittedRefs(id, outcomes, n) ==>
      r.actionId == id && r.slot == PaymentIntentOutput && r.occurrence < n
    ensures Distinct(CommittedRefs(id, outcomes, n))
  {
    if n > 0 { CommittedRefsShape(id, outcomes, n - 1); }
  }

  /** What one bound action may do to the bindings: only its own outputs are new, only known outputs are read. */
  predicate BoundFrom(b: Bindings, id: nat, bound: Bound) {
    && (forall r :: r in bound.declared ==> r.actionId == id)
    && b.objects <= bound.next.objects
    && (forall i :: |b.objects| <= i < |bound.next.objects| ==>
          bound.next.objects[i] in bound.declared && bound.next.objects[i].slot == PaymentIntentOutput)
    && Distinct(bound.next.objects[|b.objects|..])
    && (bound.next.active == b.active
        || (bound.next.active.Some? && bound.next.active.value in bound.declared
            && bound.next.active.value.slot == PaymentIntentOutput))
    && (bound.next.gate == b.gate || bound.next.gate.None?
        || (bound.next.gate.value in bound.declared && bound.next.gate.value.slot == ProviderGateOutput))
    && (forall input :: input in bound.inputs ==>
          match input.slot
          case PaymentIntentInput => input.source in b.objects || b.active == Some(input.source)
          case ProviderGateInput => b.gate == Some(input.source))
  }

  lemma BusinessIsBoundFrom(b: Bindings, id: nat, script: Script)
    ensures BoundFrom(b, id, BindBusiness(b, id, script))
  {
    var created := CommittedRefs(id, script.Outcomes(), |script.Outcomes()|);
    CommittedRefsShape(id, script.Outcomes(), |script.Outcomes()|);
    hide CommittedRefs;
    assert (b.objects + created)[|b.objects|..] == created;
    forall i | |b.objects| <= i < |b.objects + created| ensures (b.objects + created)[i] in created {
      assert (b.objects + created)[i] == created[i - |b.objects|];
    }
  }

  lemma ActionIsBoundFrom(b: Bindings, id: nat, kind: Action, bound: Bound)
    requires BindAction(b, id, kind) == Ok(bound)
    ensures BoundFrom(b, id, bound)
  {
    hide BindBusiness;
    match kind
    case DriveCheckout(script) => BusinessIsBoundFrom(b, id, script);
    case RetryBusinessRequest(script) => BusinessIsBoundFrom(b, id, script);
    case _ =>
  }

  lemma DeclaredStays(actions: seq<CompiledAction>, c: CompiledAction, r: OutputRef)
    requires DeclaredBefore(actions, |actions|, r)
    ensures DeclaredBefore(actions + [c], |actions|, r) && DeclaredBefore(actions + [c], |actions| + 1, r)
  {
  }

  lemma ObjectsStaySound(b: Bindings, actions: seq<CompiledAction>, c: CompiledAction, bound: Bound, i: nat, j: nat)
    requires BindingsSound(b, actions) && BoundFrom(b, |actions| + 1, bound) && c.declared == bound.declared
    requires i < j < |bound.next.objects|
    ensures bound.next.objects[i] != bound.next.objects[j]
  {
    var n := |b.objects|;
    if i < n {
      assert bound.next.objects[i] == b.objects[i] && b.objects[i] in b.objects;
      if j < n {
        assert bound.next.objects[j] == b.objects[j];
      } else {
        assert bound.next.objects[j] in bound.declared;
      }
    } else {
      assert bound.next.objects[n..][i - n] == bound.next.objects[i];
      assert bound.next.objects[n..][j - n] == bound.next.objects[j];
    }
  }

  lemma BoundKeepsBindings(b: Bindings, actions: seq<CompiledAction>, c: CompiledAction, bound: Bound)
    requires BindingsSound(b, actions) && BoundFrom(b, |actions| + 1, bound) && c.declared == bound.declared
    ensures BindingsSound(bound.next, actions + [c])
  {
    var longer := actions + [c];
    assert longer[|actions|] == c;
    forall r | DeclaredBefore(actions, |actions|, r) ensures DeclaredBefore(longer, |longer|, r) {
      DeclaredStays(actions, c, r);
    }
    forall i | 0 <= i < |bound.next.objects|
      ensures bound.next.objects[i].slot == PaymentIntentOutput
      ensures DeclaredBefore(longer, |longer|, bound.next.objects[i])
    {
      if i < |b.objects| { assert bound.next.objects[i] == b.objects[i] && b.objects[i] in b.objects; }
    }
    forall i, j | 0 <= i < j < |bound.next.objects| ensures bound.next.objects[i] != bound.next.objects[j] {
      ObjectsStaySound(b, actions, c, bound, i, j);
    }
  }

  lemma BoundInputsAreEarlier(b: Bindings, actions: seq<CompiledAction>, c: CompiledAction, bound: Bound)
    requires BindingsSound(b, actions) && BoundFrom(b, |actions| + 1, bound) && c.inputs == bound.inputs
    ensures InputsBoundAt(actions + [c], |actions|)
  {
    var longer := actions + [c];
    assert longer[|actions|] == c;
    forall input | input in c.inputs
      ensures input.source.slot == input.slot.Source() && DeclaredBefore(longer, |actions|, input.source)
    {
      assert DeclaredBefore(actions, |actions|, input.source);
      DeclaredStays(actions, c, input.source);
    }
  }

  lemma BoundIsOwned(b: Bindings, actions: seq<CompiledAction>, c: CompiledAction, bound: Bound)
    requires Owned(actions) && BoundFrom(b, |actions| + 1, bound)
    requires c.planned.id == |actions| + 1 && c.declared == bound.declared
    ensures Owned(actions + [c])
  {
  }

  /** One bound action keeps the bindings sound; its own inputs come from strictly earlier actions. */
  lemma BindKeepsSound(b: Bindings, actions: seq<CompiledAction>, p: PlannedAction, bound: Bound)
    requires BindingsSound(b, actions) && Owned(actions) && p.id == |actions| + 1
    requires BindAction(b, p.id, p.kind) == Ok(bound)
    ensures var longer := actions + [CompiledAction(p, bound.inputs, bound.declared)];
            BindingsSound(bound.next, longer) && Owned(longer) && InputsBoundAt(longer, |actions|)
  {
    hide *;
    ActionIsBoundFrom(b, p.id, p.kind, bound);
    var c := CompiledAction(p, bound.inputs, bound.declared);
    BoundKeepsBindings(b, actions, c, bound);
    BoundInputsAreEarlier(b, actions, c, bound);
    BoundIsOwned(b, actions, c, bound);
  }

  /** Every materialised trace binds soundly, whatever the action list was. */
  lemma {:induction false} MaterializedIsSound(planned: seq<PlannedAction>)
    requires NumberedFromOne(planned) && Materialize(planned).Ok?
    ensures var m := Materialize(planned).value;
            && |m.actions| == |planned| && (forall i :: 0 <= i < |planned| ==> m.actions[i].planned == planned[i])
            && Owned(m.actions) && InputsBound(m.actions) && BindingsSound(m.bindings, m.actions)
  {
    hide BindAction, BindingsSound, InputsBoundAt;
    var m := Materialize(planned).value;
    if planned == [] {
      assert BindingsSound(UNBOUND, []) by { EmptyIsSound(); }
    } else {
      var n := |planned| - 1;
      MaterializedIsSound(planned[..n]);
      var before := Materialize(planned[..n]).value;
      var bound := BindAction(before.bindings, planned[n].id, planned[n].kind).value;
      BindKeepsSound(before.bindings, before.actions, planned[n], bound);
      forall i | 0 <= i < n ensures InputsBoundAt(m.actions, i) {
        InputsStayBound(before.actions, m.actions[n], i);
      }
    }
  }

  lemma EmptyIsSound()
    ensures BindingsSound(UNBOUND, [])
  {
  }

  lemma InputsStayBound(actions: seq<CompiledAction>, c: CompiledAction, i: nat)
    requires i < |actions| && InputsBoundAt(actions, i)
    ensures InputsBoundAt(actions + [c], i)
  {
  }

  // ---------- the simulation ----------

  function EventsSoFar(spec: Spec, s: State): nat {
    match s.phase
    case Events(e) => e.generated
    case Quiesced => s.objects * spec.EventsPerProvider()
    case Complete => s.objects * spec.EventsPerProvider()
    case _ => 0
  }

  /** The materialiser's state is a function of nothing but the planner's, up to the names of outputs. */
  predicate Simulates(spec: Spec, b: Bindings, s: State) {
    && |b.objects| == s.objects
    && (b.active.Some? <==> s.objects > 0)
    && (b.gate.Some? <==> GateHeld(s.phase))
    && b.generated == EventsSoFar(spec, s)
  }

  lemma CommittedRefsCount(id: nat, script: Script)
    ensures |CommittedRefs(id, script.Outcomes(), |script.Outcomes()|)| == script.CommittedCount()
  {
    var outcomes := script.Outcomes();
    assert |CommittedRefs(id, outcomes, 1)| == if outcomes[0].Commits() then 1 else 0;
  }

  lemma BusinessBinds(b: Bindings, id: nat, script: Script)
    ensures var next := BindBusiness(b, id, script).next;
            && |next.objects| == |b.objects| + script.CommittedCount()
            && (next.active.Some? <==> b.active.Some? || script.CommittedCount() > 0)
            && (next.gate.Some? <==> b.gate.Some? || script.Terminal() == CommitThenDelay)
            && next.generated == b.generated
  {
    CommittedRefsCount(id, script);
    hide CommittedRefs;
  }

  lemma BusinessApplies(s: State, a: Action)
    requires s.healthy && Apply(s, a).Some?
    requires (s.phase.Start? && a.DriveCheckout?) || (s.phase.CheckoutRetryable? && a.RetryBusinessRequest?)
    ensures var t := Apply(s, a).value;
            && t.objects == s.objects + a.script.CommittedCount()
            && (GateHeld(t.phase) <==> a.script.Terminal() == CommitThenDelay)
            && !t.phase.Events? && !t.phase.Quiesced? && !t.phase.Complete?
  {
  }

  lemma BusinessSimulates(spec: Spec, b: Bindings, s: State, id: nat, a: Action)
    requires Simulates(spec, b, s) && s.healthy && Apply(s, a).Some?
    requires (s.phase.Start? && a.DriveCheckout?) || (s.phase.CheckoutRetryable? && a.RetryBusinessRequest?)
    ensures BindAction(b, id, a).Ok? && Simulates(spec, BindAction(b, id, a).value.next, Apply(s, a).value)
  {
    BusinessBinds(b, id, a.script);
    BusinessApplies(s, a);
    hide Apply, BindBusiness;
  }

  lemma CheckoutSimulates(spec: Spec, b: Bindings, s: State, id: nat, a: Action)
    requires ValidSpec(spec) && Inv(spec, s) && Simulates(spec, b, s) && s.healthy && Apply(s, a).Some?
    requires s.phase.Start? || s.phase.CheckoutRetryable? || s.phase.CheckoutResponseHeld?
    requires PhaseAllows(spec, s.phase, s.objects, a)
    ensures BindAction(b, id, a).Ok? && Simulates(spec, BindAction(b, id, a).value.next, Apply(s, a).value)
  {
    if a.DriveCheckout? || a.RetryBusinessRequest? { BusinessSimulates(spec, b, s, id, a); }
  }

  lemma ConfirmSimulates(spec: Spec, b: Bindings, s: State, id: nat, a: Action)
    requires ValidSpec(spec) && Inv(spec, s) && Simulates(spec, b, s) && s.healthy && Apply(s, a).Some?
    requires s.phase.PaymentIntentKnown? || s.phase.ConfirmRetryable? || s.phase.ConfirmResponseHeld?
             || s.phase.Confirmed?
    requires PhaseAllows(spec, s.phase, s.objects, a)
    ensures BindAction(b, id, a).Ok? && Simulates(spec, BindAction(b, id, a).value.next, Apply(s, a).value)
  {
  }

  lemma EventsSimulate(spec: Spec, b: Bindings, s: State, id: nat, a: Action)
    requires ValidSpec(spec) && Inv(spec, s) && Simulates(spec, b, s) && s.healthy && Apply(s, a).Some?
    requires s.phase.Events? || s.phase.Quiesced?
    requires PhaseAllows(spec, s.phase, s.objects, a)
    ensures BindAction(b, id, a).Ok? && Simulates(spec, BindAction(b, id, a).value.next, Apply(s, a).value)
  {
    ObjectsFitOneByte(spec, s);
  }

  lemma KillSimulates(spec: Spec, b: Bindings, s: State, id: nat, a: Action)
    requires Inv(spec, s) && Simulates(spec, b, s) && Apply(s, a).Some?
    requires a.KillApplication? || a.RestartAndAwaitHealth?
    requires CanTake(spec, s, a)
    ensures BindAction(b, id, a).Ok? && Simulates(spec, BindAction(b, id, a).value.next, Apply(s, a).value)
  {
  }

  lemma StepSimulates(spec: Spec, b: Bindings, s: State, id: nat, a: Action)
    requires ValidSpec(spec) && Inv(spec, s) && Simulates(spec, b, s)
    requires CanTake(spec, s, a) && Apply(s, a).Some?
    ensures BindAction(b, id, a).Ok? && Simulates(spec, BindAction(b, id, a).value.next, Apply(s, a).value)
  {
    hide BindAction, Apply, Simulates;
    if !s.healthy || KillAllowed(spec, s, a) {
      KillSimulates(spec, b, s, id, a);
    } else if s.phase.Start? || s.phase.CheckoutRetryable? || s.phase.CheckoutResponseHeld? {
      CheckoutSimulates(spec, b, s, id, a);
    } else if s.phase.Events? || s.phase.Quiesced? {
      EventsSimulate(spec, b, s, id, a);
    } else {
      ConfirmSimulates(spec, b, s, id, a);
    }
  }

  /** No accepted run is ever missing a dynamic source, and the two machines stay in step. */
  lemma {:induction false} RunSimulates(spec: Spec, legacy: bool, planned: seq<PlannedAction>)
    requires ValidSpec(spec) && Run(spec, Initial(legacy), Kinds(planned)).Some?
    ensures Materialize(planned).Ok?
    ensures Simulates(spec, Materialize(planned).value.bindings, Run(spec, Initial(legacy), Kinds(planned)).value)
  {
    hide BindAction, Apply, CanTake, Inv;
    InitialInv(spec, legacy);
    if planned != [] {
      var n := |planned| - 1;
      assert Kinds(planned)[..n] == Kinds(planned[..n]);
      RunSimulates(spec, legacy, planned[..n]);
      RunKeepsInv(spec, Initial(legacy), Kinds(planned[..n]));
      var s := Run(spec, Initial(legacy), Kinds(planned[..n])).value;
      StepSimulates(spec, Materialize(planned[..n]).value.bindings, s, planned[n].id, planned[n].kind);
    }
  }

  // ---------- what a complete trace consumed ----------

  function EventSource(c: CompiledAction): seq<OutputRef> {
    if c.planned.kind.GenerateProviderEvent? && |c.inputs| == 1 then [c.inputs[0].source] else []
  }

  /** The provider objects events were generated from, in order. */
  function EventSources(actions: seq<CompiledAction>): seq<OutputRef> {
    if actions == [] then []
    else EventSources(actions[..|actions| - 1]) + EventSource(actions[|actions| - 1])
  }

  /** The first `n` elements of `objects` repeated for ever. */
  function Cycle(objects: seq<OutputRef>, n: nat): seq<OutputRef>
    requires n > 0 ==> |objects| > 0
  {
    seq(n, i requires 0 <= i < n => objects[Wrap(i, |objects|)])
  }

  function GatesIn(refs: seq<OutputRef>): seq<OutputRef> {
    if refs == [] then []
    else GatesIn(refs[..|refs| - 1])
         + (if refs[|refs| - 1].slot.ProviderGateOutput? then [refs[|refs| - 1]] else [])
  }

  function DeclaredGates(actions: seq<CompiledAction>): seq<OutputRef> {
    if actions == [] then []
    else DeclaredGates(actions[..|actions| - 1]) + GatesIn(actions[|actions| - 1].declared)
  }

  function ReleaseOf(c: CompiledAction): seq<OutputRef> {
    if c.planned.kind.ReleaseProviderGate? && |c.inputs| == 1 then [c.inputs[0].source] else []
  }

  /** The gates released, in order. */
  function ReleasedGates(actions: seq<CompiledAction>): seq<OutputRef> {
    if actions == [] then []
    else ReleasedGates(actions[..|actions| - 1]) + ReleaseOf(actions[|actions| - 1])
  }

  function PendingGate(b: Bindings): seq<OutputRef> {
    match b.gate
    case None => []
    case Some(g) => [g]
  }

  lemma {:induction false} NoGatesAmongObjects(id: nat, outcomes: seq<ProviderOutcome>, n: nat)
    requires n <= |outcomes|
    ensures GatesIn(CommittedRefs(id, outcomes, n)) == []
  {
    if n > 0 {
      NoGatesAmongObjects(id, outcomes, n - 1);
      var before := CommittedRefs(id, outcomes, n - 1);
      var r := OutputRef(id, PaymentIntentOutput, n - 1);
      assert (before + [r])[..|before|] == before;
      assert before + [] == before;
    }
  }

  lemma BusinessGates(b: Bindings, id: nat, script: Script)
    ensures GatesIn(BindBusiness(b, id, script).declared) == GateOf(id, script)
  {
    var created := CommittedRefs(id, script.Outcomes(), |script.Outcomes()|);
    NoGatesAmongObjects(id, script.Outcomes(), |script.Outcomes()|);
    if GateOf(id, script) == [] {
      assert created + GateOf(id, script) == created;
    } else {
      assert (created + [GateRef(id)])[..|created|] == created;
    }
  }

  /** Events are drawn from the objects in rotation, and gates are released in the order they were taken. */
  predicate Consumed(m: Materialized) {
    && (m.bindings.generated > 0 ==> |m.bindings.objects| > 0)
    && EventSources(m.actions) == Cycle(m.bindings.objects, m.bindings.generated)
    && DeclaredGates(m.actions) == ReleasedGates(m.actions) + PendingGate(m.bindings)
  }

  lemma AppendCompiled(actions: seq<CompiledAction>, c: CompiledAction)
    ensures EventSources(actions + [c]) == EventSources(actions) + EventSource(c)
    ensures DeclaredGates(actions + [c]) == DeclaredGates(actions) + GatesIn(c.declared)
    ensures ReleasedGates(actions + [c]) == ReleasedGates(actions) + ReleaseOf(c)
  {
    assert (actions + [c])[..|actions|] == actions;
  }

  /** New gates are only taken with none pending, new objects only before the first event. */
  predicate FreshEnough(b: Bindings, kind: Action) {
    && (kind.DriveCheckout? || kind.RetryBusinessRequest? ==> b.generated == 0)
    && (HasScript(kind) ==> b.gate.None?)
  }

  /** The part of `Consumed` an action without events or gates cannot disturb. */
  lemma QuietBindConsumes(m: Materialized, p: PlannedAction, bound: Bound)
    requires Consumed(m) && bound.next.objects == m.bindings.objects && bound.next.generated == m.bindings.generated
    requires bound.declared == [] && bound.next.gate == m.bindings.gate
    requires !p.kind.GenerateProviderEvent? && !p.kind.ReleaseProviderGate?
    ensures Consumed(Materialized(bound.next, m.actions + [CompiledAction(p, bound.inputs, bound.declared)]))
  {
    AppendCompiled(m.actions, CompiledAction(p, bound.inputs, bound.declared));
    hide Cycle, EventSources, DeclaredGates, ReleasedGates;
  }

  lemma GateBindConsumes(m: Materialized, p: PlannedAction, bound: Bound)
    requires Consumed(m) && m.bindings.gate.None?
    requires m.bindings.generated == bound.next.generated
    requires m.bindings.objects == bound.next.objects || m.bindings.generated == 0
    requires GatesIn(bound.declared) == PendingGate(bound.next)
    requires !p.kind.GenerateProviderEvent? && !p.kind.ReleaseProviderGate?
    ensures Consumed(Materialized(bound.next, m.actions + [CompiledAction(p, bound.inputs, bound.declared)]))
  {
    AppendCompiled(m.actions, CompiledAction(p, bound.inputs, bound.declared));
    hide GatesIn, EventSources, DeclaredGates, ReleasedGates;
    assert Cycle(m.bindings.objects, m.bindings.generated) == Cycle(bound.next.objects, bound.next.generated);
  }

  lemma CycleGrows(objects: seq<OutputRef>, n: nat)
    requires |objects| > 0
    ensures Cycle(objects, n + 1) == Cycle(objects, n) + [objects[Wrap(n, |objects|)]]
  {
  }

  lemma EventBindConsumes(m: Materialized, p: PlannedAction, bound: Bound)
    requires Consumed(m) && p.kind.GenerateProviderEvent? && BindEvent(m.bindings, p.id) == Ok(bound)
    ensures Consumed(Materialized(bound.next, m.actions + [CompiledAction(p, bound.inputs, bound.declared)]))
  {
    hide Cycle, GatesIn, EventSources, DeclaredGates, ReleasedGates, Wrap;
    AppendCompiled(m.actions, CompiledAction(p, bound.inputs, bound.declared));
    CycleGrows(m.bindings.objects, m.bindings.generated);
    NoGateInEvent(p.id);
  }

  lemma NoGateInEvent(id: nat)
    ensures GatesIn([OutputRef(id, EventOutput, 0)]) == []
  {
  }

  lemma ReleaseBindConsumes(m: Materialized, p: PlannedAction, bound: Bound)
    requires Consumed(m) && p.kind.ReleaseProviderGate? && BindRelease(m.bindings, p.id) == Ok(bound)
    ensures Consumed(Materialized(bound.next, m.actions + [CompiledAction(p, bound.inputs, bound.declared)]))
  {
    AppendCompiled(m.actions, CompiledAction(p, bound.inputs, bound.declared));
  }

  lemma ConfirmGates(id: nat, script: Script)
    ensures GatesIn(GateOf(id, script)) == GateOf(id, script)
  {
  }

  lemma ConfirmPending(b: Bindings, id: nat, script: Script, bound: Bound)
    requires b.gate.None? && BindActive(b, id, GateOf(id, script)) == Ok(bound)
    ensures PendingGate(bound.next) == GateOf(id, script) == bound.declared
    ensures bound.next.generated == b.generated && bound.next.objects == b.objects
  {
  }

  lemma ConfirmBindConsumes(m: Materialized, p: PlannedAction, bound: Bound)
    requires Consumed(m) && FreshEnough(m.bindings, p.kind)
    requires p.kind.ConfirmPaymentIntent? || p.kind.RetryProviderRequest?
    requires BindActive(m.bindings, p.id, GateOf(p.id, p.kind.script)) == Ok(bound)
    ensures Consumed(Materialized(bound.next, m.actions + [CompiledAction(p, bound.inputs, bound.declared)]))
  {
    hide Consumed, GatesIn, GateOf, PendingGate, BindActive;
    ConfirmGates(p.id, p.kind.script);
    ConfirmPending(m.bindings, p.id, p.kind.script, bound);
    GateBindConsumes(m, p, bound);
  }

  lemma BusinessPending(b: Bindings, id: nat, script: Script)
    requires b.gate.None?
    ensures PendingGate(BindBusiness(b, id, script).next) == GateOf(id, script)
    ensures BindBusiness(b, id, script).next.generated == b.generated
  {
    hide CommittedRefs;
  }

  lemma BusinessBindConsumes(m: Materialized, p: PlannedAction, bound: Bound)
    requires Consumed(m) && FreshEnough(m.bindings, p.kind)
    requires p.kind.DriveCheckout? || p.kind.RetryBusinessRequest?
    requires bound == BindBusiness(m.bindings, p.id, p.kind.script)
    ensures Consumed(Materialized(bound.next, m.actions + [CompiledAction(p, bound.inputs, bound.declared)]))
  {
    hide Consumed, GatesIn, BindBusiness, GateOf, PendingGate;
    BusinessGates(m.bindings, p.id, p.kind.script);
    BusinessPending(m.bindings, p.id, p.kind.script);
    GateBindConsumes(m, p, bound);
  }

  lemma RetrieveBindConsumes(m: Materialized, p: PlannedAction, bound: Bound)
    requires Consumed(m) && p.kind.RetrievePaymentIntent? && BindActive(m.bindings, p.id, []) == Ok(bound)
    ensures Consumed(Materialized(bound.next, m.actions + [CompiledAction(p, bound.inputs, bound.declared)]))
  {
    hide Consumed;
    QuietBindConsumes(m, p, bound);
  }

  lemma BindConsumes(m: Materialized, p: PlannedAction, bound: Bound)
    requires Consumed(m) && FreshEnough(m.bindings, p.kind)
    requires BindAction(m.bindings, p.id, p.kind) == Ok(bound)
    ensures Consumed(Materialized(bound.next, m.actions + [CompiledAction(p, bound.inputs, bound.declared)]))
  {
    hide Consumed, FreshEnough, BindBusiness, BindActive, GateOf;
    match p.kind
    case GenerateProviderEvent => EventBindConsumes(m, p, bound);
    case ReleaseProviderGate => ReleaseBindConsumes(m, p, bound);
    case DriveCheckout(_) => BusinessBindConsumes(m, p, bound);
    case RetryBusinessRequest(_) => BusinessBindConsumes(m, p, bound);
    case ConfirmPaymentIntent(_) => ConfirmBindConsumes(m, p, bound);
    case RetryProviderRequest(_) => ConfirmBindConsumes(m, p, bound);
    case RetrievePaymentIntent => RetrieveBindConsumes(m, p, bound);
    case _ => QuietBindConsumes(m, p, bound);
  }

  lemma AcceptedIsFresh(spec: Spec, b: Bindings, s: State, a: Action)
    requires Inv(spec, s) && Simulates(spec, b, s) && CanTake(spec, s, a)
    ensures FreshEnough(b, a)
  {
  }

  lemma {:induction false} RunConsumes(spec: Spec, legacy: bool, planned: seq<PlannedAction>)
    requires ValidSpec(spec) && Run(spec, Initial(legacy), Kinds(planned)).Some?
    ensures Materialize(planned).Ok? && Consumed(Materialize(planned).value)
  {
    hide BindAction, Apply, CanTake, Inv, Simulates, FreshEnough, Consumed;
    RunSimulates(spec, legacy, planned);
    InitialInv(spec, legacy);
    if planned == [] {
      EmptyIsConsumed();
    } else {
      var n := |planned| - 1;
      assert Kinds(planned)[..n] == Kinds(planned[..n]);
      RunSimulates(spec, legacy, planned[..n]);
      RunConsumes(spec, legacy, planned[..n]);
      RunKeepsInv(spec, Initial(legacy), Kinds(planned[..n]));
      var m := Materialize(planned[..n]).value;
      AcceptedIsFresh(spec, m.bindings, Run(spec, Initial(legacy), Kinds(planned[..n])).value, planned[n].kind);
      BindConsumes(m, planned[n], BindAction(m.bindings, planned[n].id, planned[n].kind).value);
    }
  }

  lemma EmptyIsConsumed()
    ensures Consumed(Materialized(UNBOUND, []))
  {
  }

  lemma FirstRound(i: nat, n: nat)
    requires i < n
    ensures Wrap(i, n) == i
  {
  }

  lemma SecondRound(i: nat, n: nat)
    requires 0 < n <= i < 2 * n
    ensures Wrap(i, n) == i - n
  {
    assert i == n * (i / n) + i % n;
  }

  lemma CycleOnce(objects: seq<OutputRef>)
    ensures Cycle(objects, |objects|) == objects
  {
    hide Wrap;
    forall i | 0 <= i < |objects| ensures Wrap(i, |objects|) == i {
      FirstRound(i, |objects|);
    }
  }

  lemma CycleTwice(objects: seq<OutputRef>)
    ensures |objects| > 0 ==> Cycle(objects, 2 * |objects|) == objects + objects
  {
    hide Wrap;
    var n := |objects|;
    if n > 0 {
      forall i | 0 <= i < 2 * n ensures objects[Wrap(i, n)] == (objects + objects)[i] {
        if i < n { FirstRound(i, n); } else { SecondRound(i, n); }
      }
    }
  }

  /**
   In every complete trace each committed object backs exactly one event, or two with stale events,
   and the gates taken are exactly the gates released, in order.
   */
  lemma CompleteTraceConsumesAll(spec: Spec, legacy: bool, planned: seq<PlannedAction>)
    requires ValidSpec(spec) && Feasible(spec, legacy, Kinds(planned)) && NumberedFromOne(planned)
    ensures Materialize(planned).Ok?
    ensures var m := Materialize(planned).value;
            && |m.bindings.objects| > 0 && Distinct(m.bindings.objects)
            && EventSources(m.actions)
               == (if spec.allowStaleEvent then m.bindings.objects + m.bindings.objects else m.bindings.objects)
            && DeclaredGates(m.actions) == ReleasedGates(m.actions)
  {
    hide Materialize, Run, EventSources, DeclaredGates, ReleasedGates, Cycle, Simulates, Inv, Owned, InputsBound;
    RunSimulates(spec, legacy, planned);
    RunConsumes(spec, legacy, planned);
    MaterializedIsSound(planned);
    InitialInv(spec, legacy);
    RunKeepsInv(spec, Initial(legacy), Kinds(planned));
    var m := Materialize(planned).value;
    CompleteBindings(spec, m.bindings, Run(spec, Initial(legacy), Kinds(planned)).value);
    CycleOnce(m.bindings.objects);
    CycleTwice(m.bindings.objects);
  }

  lemma CompleteBindings(spec: Spec, b: Bindings, s: State)
    requires ValidSpec(spec) && Inv(spec, s) && Simulates(spec, b, s) && s.phase.Complete?
    ensures |b.objects| > 0 && PendingGate(b) == []
    ensures b.generated == if spec.allowStaleEvent then 2 * |b.objects| else |b.objects|
  {
  }

  /** No gate is declared twice. */
  lemma {:induction false} GatesAreDistinct(planned: seq<PlannedAction>)
    requires NumberedFromOne(planned) && Materialize(planned).Ok?
    ensures Distinct(DeclaredGates(Materialize(planned).value.actions))
    ensures forall g :: g in DeclaredGates(Materialize(planned).value.actions) ==> g.actionId <= |planned|
  {
    hide BindAction;
    if planned != [] {
      var n := |planned| - 1;
      GatesAreDistinct(planned[..n]);
      var m := Materialize(planned[..n]).value;
      var bound := BindAction(m.bindings, planned[n].id, planned[n].kind).value;
      AppendCompiled(m.actions, CompiledAction(planned[n], bound.inputs, bound.declared));
      OneGatePerAction(m.bindings, planned[n].id, planned[n].kind);
    }
  }

  lemma OneGatePerAction(b: Bindings, id: nat, kind: Action)
    requires BindAction(b, id, kind).Ok?
    ensures var gates := GatesIn(BindAction(b, id, kind).value.declared); gates == [] || gates == [GateRef(id)]
  {
    match kind
    case DriveCheckout(script) => BusinessGates(b, id, script);
    case RetryBusinessRequest(script) => BusinessGates(b, id, script);
    case _ =>
  }

  predicate ReleasedAt(actions: seq<CompiledAction>, j: int, g: OutputRef) {
    0 <= j < |actions| && ReleaseOf(actions[j]) == [g]
  }

  lemma {:induction false} ReleaserExists(actions: seq<CompiledAction>, g: OutputRef) returns (j: nat)
    requires g in ReleasedGates(actions)
    ensures ReleasedAt(actions, j, g)
  {
    var n := |actions| - 1;
    if g in ReleaseOf(actions[n]) {
      j := n;
    } else {
      j := ReleaserExists(actions[..n], g);
    }
  }

  lemma {:induction false} ReleaseIsListed(actions: seq<CompiledAction>, j: nat, g: OutputRef)
    requires ReleasedAt(actions, j, g)
    ensures g in ReleasedGates(actions)
  {
    if j < |actions| - 1 {
      ReleaseIsListed(actions[..|actions| - 1], j, g);
    }
  }

  lemma NotListedTwice(before: seq<OutputRef>, g: OutputRef)
    requires Distinct(before + [g])
    ensures g !in before
  {
    var s := before + [g];
    forall i | 0 <= i < |before| ensures before[i] != g {
      assert s[i] != s[|before|];
    }
  }

  lemma {:induction false} ReleaserIsUnique(actions: seq<CompiledAction>, j: nat, k: nat, g: OutputRef)
    requires Distinct(ReleasedGates(actions)) && ReleasedAt(actions, j, g) && ReleasedAt(actions, k, g) && j <= k
    ensures j == k
  {
    hide ReleaseOf;
    var n := |actions| - 1;
    var before := ReleasedGates(actions[..n]);
    assert ReleasedGates(actions) == before + ReleaseOf(actions[n]);
    if k < n {
      assert before == ReleasedGates(actions)[..|before|];
      ReleaserIsUnique(actions[..n], j, k, g);
    } else if j < n {
      NotListedTwice(before, g);
      ReleaseIsListed(actions[..n], j, g);
    }
  }

  /** In a complete trace every declared gate is released by exactly one action, after the one that declared it. */
  lemma EachGateIsReleasedOnce(spec: Spec, legacy: bool, planned: seq<PlannedAction>, g: OutputRef)
    requires ValidSpec(spec) && Feasible(spec, legacy, Kinds(planned)) && NumberedFromOne(planned)
    requires Materialize(planned).Ok? ==> g in DeclaredGates(Materialize(planned).value.actions)
    ensures Materialize(planned).Ok?
    ensures var actions := Materialize(planned).value.actions;
            exists j :: ReleasedAt(actions, j, g) && 1 <= g.actionId <= j
              && forall k :: ReleasedAt(actions, k, g) ==> k == j
  {
    hide Materialize, Feasible, ReleasedGates, DeclaredGates, Distinct, Owned;
    CompleteTraceConsumesAll(spec, legacy, planned);
    GatesAreDistinct(planned);
    MaterializedIsSound(planned);
    var actions := Materialize(planned).value.actions;
    var j := ReleaserExists(actions, g);
    assert InputsBoundAt(actions, j) && actions[j].inputs[0] in actions[j].inputs;
    forall k | ReleasedAt(actions, k, g) ensures k == j {
      if j <= k { ReleaserIsUnique(actions, j, k, g); } else { ReleaserIsUnique(actions, k, j, g); }
    }
  }
}
