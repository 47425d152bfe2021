/**
 What the materialiser declares and binds (crates/tiv-core/src/trace.rs), told from the action list
 alone: which outputs each action reserves, and which earlier output each input names.
 */
module TraceBinding {
  import opened Wrappers
  import opened Sequences
  import opened Plan
  import opened PlanCompiler
  import opened Trace
  import opened TraceSimulation

  // ---------- what is declared ----------

  /** An object per committed call, an event per generation, a gate per script whose last call is held back. */
  predicate Declares(id: nat, kind: Action, r: OutputRef) {
    && r.actionId == id
    && match r.slot
       case PaymentIntentOutput =>
         && (kind.DriveCheckout? || kind.RetryBusinessRequest?)
         && r.occurrence < |kind.script.Outcomes()| && kind.script.Outcomes()[r.occurrence].Commits()
       case EventOutput => kind.GenerateProviderEvent? && r.occurrence == 0
       case ProviderGateOutput =>
         && HasScript(kind) && r.occurrence == 0
         && kind.script.Outcomes()[|kind.script.Outcomes()| - 1] == CommitThenDelay
  }

  lemma {:induction false} CommittedRefsAre(id: nat, outcomes: seq<ProviderOutcome>, n: nat, r: OutputRef)
    requires n <= |outcomes|
    ensures r in CommittedRefs(id, outcomes, n) <==>
      r.actionId == id && r.slot == PaymentIntentOutput && r.occurrence < n && outcomes[r.occurrence].Commits()
  {
    if n > 0 { CommittedRefsAre(id, outcomes, n - 1, r); }
  }

  lemma BoundDeclares(b: Bindings, id: nat, kind: Action, r: OutputRef)
    requires BindAction(b, id, kind).Ok?
    ensures r in BindAction(b, id, kind).value.declared <==> Declares(id, kind, r)
  {
    if HasScript(kind) {
      CommittedRefsAre(id, kind.script.Outcomes(), |kind.script.Outcomes()|, r);
      hide CommittedRefs;
    }
  }

  /** Every action of a materialised list reserves exactly the outputs its kind calls for. */
  lemma {:induction false} DeclaredAre(planned: seq<PlannedAction>, i: nat, r: OutputRef)
    requires Materialize(planned).Ok? && |Materialize(planned).value.actions| == |planned| && i < |planned|
    ensures r in Materialize(planned).value.actions[i].declared <==> Declares(planned[i].id, planned[i].kind, r)
  {
    hide BindAction, Declares;
    var n := |planned| - 1;
    BoundDeclares(Materialize(planned[..n]).value.bindings, planned[n].id, planned[n].kind, r);
    if i < n { DeclaredAre(planned[..n], i, r); }
  }

  // ---------- what is bound ----------

  function ObjectsIn(refs: seq<OutputRef>): seq<OutputRef> {
    Filter((r: OutputRef) => r.slot == PaymentIntentOutput, refs)
  }

  /** All provider objects a list declares, in order. */
  function ObjectsOf(actions: seq<CompiledAction>): seq<OutputRef> {
    if actions == [] then []
    else ObjectsOf(actions[..|actions| - 1]) + ObjectsIn(actions[|actions| - 1].declared)
  }

  function GenerationsIn(actions: seq<CompiledAction>): nat {
    if actions == [] then 0
    else
      GenerationsIn(actions[..|actions| - 1])
      + if actions[|actions| - 1].planned.kind.GenerateProviderEvent? then 1 else 0
  }

  /** A gate was declared and has not been released since. */
  predicate GatePending(actions: seq<CompiledAction>) {
    actions != []
    && var last := actions[|actions| - 1];
       !last.planned.kind.ReleaseProviderGate?
       && (GatesIn(last.declared) != [] || GatePending(actions[..|actions| - 1]))
  }

  /** What an action consumes has not been declared, or no longer is there. */
  predicate LacksSource(before: seq<CompiledAction>, kind: Action) {
    match kind
    case RetrievePaymentIntent => ObjectsOf(before) == []
    case ConfirmPaymentIntent(_) => ObjectsOf(before) == []
    case RetryProviderRequest(_) => ObjectsOf(before) == []
    case GenerateProviderEvent => ObjectsOf(before) == []
    case ReleaseProviderGate => !GatePending(before)
    case _ => false
  }

  function LastOf(refs: seq<OutputRef>): Option<OutputRef> {
    if refs == [] then None else Some(refs[|refs| - 1])
  }

  /** Lookups and confirmations name the latest object, events the objects in rotation, a release the latest gate. */
  predicate BoundTo(before: seq<CompiledAction>, c: CompiledAction) {
    match c.planned.kind
    case RetrievePaymentIntent => BoundToObject(c, LastOf(ObjectsOf(before)))
    case ConfirmPaymentIntent(_) => BoundToObject(c, LastOf(ObjectsOf(before)))
    case RetryProviderRequest(_) => BoundToObject(c, LastOf(ObjectsOf(before)))
    case GenerateProviderEvent =>
      ObjectsOf(before) != []
      && BoundToObject(c, Some(ObjectsOf(before)[Wrap(GenerationsIn(before), |ObjectsOf(before)|)]))
    case ReleaseProviderGate =>
      var gate := LastOf(DeclaredGates(before));
      gate.Some? && c.inputs == [Input(ProviderGateInput, gate.value)]
    case _ => c.inputs == []
  }

  predicate BoundToObject(c: CompiledAction, source: Option<OutputRef>) {
    source.Some? && c.inputs == [Input(PaymentIntentInput, source.value)]
  }

  /** The materialiser's memory: all objects so far, the latest of them, and the latest gate until it is released. */
  predicate Tracks(m: Materialized) {
    && m.bindings.objects == ObjectsOf(m.actions)
    && m.bindings.active == LastOf(ObjectsOf(m.actions))
    && m.bindings.generated == GenerationsIn(m.actions)
    && (m.bindings.gate.Some? <==> GatePending(m.actions))
    && (m.bindings.gate.Some? ==> m.bindings.gate == LastOf(DeclaredGates(m.actions)))
  }

  lemma GateObjects(id: nat, script: Script)
    ensures ObjectsIn(GateOf(id, script)) == [] && GatesIn(GateOf(id, script)) == GateOf(id, script)
  {
    ConfirmGates(id, script);
    hide GatesIn;
  }

  lemma CreatedObjects(id: nat, script: Script)
    ensures var created := CommittedRefs(id, script.Outcomes(), |script.Outcomes()|);
            && ObjectsIn(created + GateOf(id, script)) == created
            && GatesIn(created + GateOf(id, script)) == GateOf(id, script)
  {
    var keep := (r: OutputRef) => r.slot == PaymentIntentOutput;
    var created := CommittedRefs(id, script.Outcomes(), |script.Outcomes()|);
    CommittedRefsShape(id, script.Outcomes(), |script.Outcomes()|);
    GateObjects(id, script);
    BusinessGates(UNBOUND, id, script);
    hide CommittedRefs, Filter, GatesIn, GateOf;
    FilterConcat(keep, created, GateOf(id, script));
    FilterAll(keep, created);
  }

  lemma EventObjects(id: nat)
    ensures ObjectsIn([OutputRef(id, EventOutput, 0)]) == [] && GatesIn([OutputRef(id, EventOutput, 0)]) == []
    ensures ObjectsIn([]) == [] && GatesIn([]) == []
  {
    NoGateInEvent(id);
  }

  lemma OneMore(actions: seq<CompiledAction>, c: CompiledAction)
    ensures ObjectsOf(actions + [c]) == ObjectsOf(actions) + ObjectsIn(c.declared)
    ensures DeclaredGates(actions + [c]) == DeclaredGates(actions) + GatesIn(c.declared)
    ensures GenerationsIn(actions + [c])
         == GenerationsIn(actions) + if c.planned.kind.GenerateProviderEvent? then 1 else 0
    ensures GatePending(actions + [c]) <==>
      !c.planned.kind.ReleaseProviderGate? && (GatesIn(c.declared) != [] || GatePending(actions))
  {
    assert (actions + [c])[..|actions|] == actions;
  }

  /** The memory after an action that declares these objects and these gates. */
  lemma TracksOn(m: Materialized, c: CompiledAction, next: Bindings, objects: seq<OutputRef>, gates: seq<OutputRef>)
    requires Tracks(m) && ObjectsIn(c.declared) == objects && GatesIn(c.declared) == gates
    requires next.objects == m.bindings.objects + objects
    requires next.active == if objects == [] then m.bindings.active else LastOf(objects)
    requires next.generated == m.bindings.generated + if c.planned.kind.GenerateProviderEvent? then 1 else 0
    requires c.planned.kind.ReleaseProviderGate? ==> next.gate.None? && gates == []
    requires !c.planned.kind.ReleaseProviderGate? && gates == [] ==> next.gate == m.bindings.gate
    requires gates != [] ==> next.gate == LastOf(gates)
    ensures Tracks(Materialized(next, m.actions + [c]))
  {
    OneMore(m.actions, c);
    hide ObjectsIn, ObjectsOf, GatesIn, DeclaredGates, GenerationsIn, GatePending;
    assert DeclaredGates(m.actions) + [] == DeclaredGates(m.actions);
    assert ObjectsOf(m.actions) + [] == ObjectsOf(m.actions);
  }

  lemma BusinessTracks(m: Materialized, p: PlannedAction, bound: Bound)
    requires Tracks(m) && (p.kind.DriveCheckout? || p.kind.RetryBusinessRequest?)
    requires BindAction(m.bindings, p.id, p.kind) == Ok(bound)
    ensures var c := CompiledAction(p, bound.inputs, bound.declared);
            BoundTo(m.actions, c) && Tracks(Materialized(bound.next, m.actions + [c]))
  {
    hide *;
    var script := p.kind.script;
    CreatedObjects(p.id, script);
    BusinessNext(m.bindings, p.id, script);
    var c := CompiledAction(p, bound.inputs, bound.declared);
    BusinessBound(m.bindings, p, bound);
    NothingBound(m.actions, c);
    TracksOn(m, c, bound.next, CommittedRefs(p.id, script.Outcomes(), |script.Outcomes()|), GateOf(p.id, script));
  }

  lemma NothingBound(before: seq<CompiledAction>, c: CompiledAction)
    requires c.inputs == [] && (c.planned.kind.DriveCheckout? || c.planned.kind.RetryBusinessRequest?)
    ensures BoundTo(before, c)
  {
  }

  lemma BusinessBound(b: Bindings, p: PlannedAction, bound: Bound)
    requires p.kind.DriveCheckout? || p.kind.RetryBusinessRequest?
    requires BindAction(b, p.id, p.kind) == Ok(bound)
    ensures bound == BindBusiness(b, p.id, p.kind.script) && bound.inputs == []
  {
    hide CommittedRefs;
  }

  lemma BusinessNext(b: Bindings, id: nat, script: Script)
    ensures var bound := BindBusiness(b, id, script);
            var created, gates := CommittedRefs(id, script.Outcomes(), |script.Outcomes()|), GateOf(id, script);
            && bound.declared == created + gates && bound.next.objects == b.objects + created
            && bound.next.active == (if created == [] then b.active else LastOf(created))
            && bound.next.generated == b.generated
            && (gates == [] ==> bound.next.gate == b.gate) && (gates != [] ==> bound.next.gate == LastOf(gates))
  {
    hide CommittedRefs;
  }

  lemma ActiveNext(b: Bindings, id: nat, gates: seq<OutputRef>, bound: Bound)
    requires BindActive(b, id, gates) == Ok(bound) && |gates| <= 1
    ensures bound.declared == gates && bound.next.objects == b.objects + [] && bound.next.active == b.active
    ensures bound.next.generated == b.generated && b.active.Some?
    ensures bound.inputs == [Input(PaymentIntentInput, b.active.value)]
    ensures (gates == [] ==> bound.next.gate == b.gate) && (gates != [] ==> bound.next.gate == LastOf(gates))
  {
    assert b.objects + [] == b.objects;
  }

  lemma ConfirmTracks(m: Materialized, p: PlannedAction, bound: Bound)
    requires Tracks(m) && (p.kind.ConfirmPaymentIntent? || p.kind.RetryProviderRequest?)
    requires BindAction(m.bindings, p.id, p.kind) == Ok(bound)
    ensures var c := CompiledAction(p, bound.inputs, bound.declared);
            BoundTo(m.actions, c) && Tracks(Materialized(bound.next, m.actions + [c]))
  {
    var script := p.kind.script;
    GateObjects(p.id, script);
    ActiveNext(m.bindings, p.id, GateOf(p.id, script), bound);
    var c := CompiledAction(p, bound.inputs, bound.declared);
    hide ObjectsIn, ObjectsOf, GatesIn, DeclaredGates, GenerationsIn, GatePending, BindActive, GateOf;
    assert BoundTo(m.actions, c);
    hide *;
    TracksOn(m, c, bound.next, [], GateOf(p.id, script));
  }

  lemma OtherTracks(m: Materialized, p: PlannedAction, bound: Bound)
    requires Tracks(m) && !HasScript(p.kind) && BindAction(m.bindings, p.id, p.kind) == Ok(bound)
    ensures var c := CompiledAction(p, bound.inputs, bound.declared);
            BoundTo(m.actions, c) && Tracks(Materialized(bound.next, m.actions + [c]))
  {
    EventObjects(p.id);
    hide CommittedRefs, ObjectsIn, ObjectsOf, GatesIn, DeclaredGates, GenerationsIn, Wrap, GatePending;
    var c := CompiledAction(p, bound.inputs, bound.declared);
    assert bound.next.objects == m.bindings.objects + [] && BoundTo(m.actions, c);
    assert ObjectsIn(c.declared) == [] && GatesIn(c.declared) == [];
    assert bound.next.generated == m.bindings.generated + (if c.planned.kind.GenerateProviderEvent? then 1 else 0);
    assert bound.next.active == m.bindings.active;
    assert bound.next.gate == if p.kind.ReleaseProviderGate? then None else m.bindings.gate;
    hide *;
    TracksOn(m, c, bound.next, [], []);
  }

  lemma BindTracks(m: Materialized, p: PlannedAction, bound: Bound)
    requires Tracks(m) && BindAction(m.bindings, p.id, p.kind) == Ok(bound)
    ensures var c := CompiledAction(p, bound.inputs, bound.declared);
            BoundTo(m.actions, c) && Tracks(Materialized(bound.next, m.actions + [c]))
  {
    hide Tracks, BoundTo, BindAction;
    if !HasScript(p.kind) {
      OtherTracks(m, p, bound);
    } else if p.kind.DriveCheckout? || p.kind.RetryBusinessRequest? {
      BusinessTracks(m, p, bound);
    } else {
      ConfirmTracks(m, p, bound);
    }
  }

  lemma NothingTracked()
    ensures Tracks(Materialized(UNBOUND, []))
  {
  }

  /** In a materialised list every input names the output its action should consume, by what was declared before it. */
  lemma {:induction false} InputsAre(planned: seq<PlannedAction>)
    requires Materialize(planned).Ok?
    ensures var m := Materialize(planned).value;
            Tracks(m) && forall i :: 0 <= i < |m.actions| ==> BoundTo(m.actions[..i], m.actions[i])
  {
    hide BindAction, Tracks, BoundTo;
    var m := Materialize(planned).value;
    if planned == [] {
      NothingTracked();
    } else {
      var n := |planned| - 1;
      InputsAre(planned[..n]);
      var before := Materialize(planned[..n]).value;
      var bound := BindAction(before.bindings, planned[n].id, planned[n].kind).value;
      BindTracks(before, planned[n], bound);
      forall i | 0 <= i < |m.actions| ensures BoundTo(m.actions[..i], m.actions[i]) {
        if i < |before.actions| {
          assert m.actions[..i] == before.actions[..i];
        } else {
          assert m.actions[..i] == before.actions;
        }
      }
    }
  }

  lemma BindsUnlessLacking(m: Materialized, p: PlannedAction)
    requires Tracks(m)
    ensures BindAction(m.bindings, p.id, p.kind).Err? <==> LacksSource(m.actions, p.kind)
    ensures LacksSource(m.actions, p.kind) ==>
      BindAction(m.bindings, p.id, p.kind)
      == Err(MissingDynamicSource(p.id, if p.kind.ReleaseProviderGate? then ProviderGateInput else PaymentIntentInput))
  {
    hide ObjectsOf, DeclaredGates, GenerationsIn, GatePending, CommittedRefs, Wrap;
  }

  /** Action `n` is the first that lacks its source, and the error names it. */
  ghost predicate StopsAt(planned: seq<PlannedAction>, n: nat, error: MaterializationError) {
    && n < |planned| && Materialize(planned[..n]).Ok?
    && LacksSource(Materialize(planned[..n]).value.actions, planned[n].kind)
    && error == MissingDynamicSource(
                  planned[n].id,
                  if planned[n].kind.ReleaseProviderGate? then ProviderGateInput else PaymentIntentInput)
  }

  lemma StopsLater(planned: seq<PlannedAction>, n: nat, k: nat, error: MaterializationError)
    requires n <= |planned| && StopsAt(planned[..n], k, error)
    ensures StopsAt(planned, k, error)
  {
    hide LacksSource;
    assert planned[..n][..k] == planned[..k];
  }

  /** No action of the list lacks its source. */
  predicate AllSourced(actions: seq<CompiledAction>) {
    forall n :: 0 <= n < |actions| ==> !LacksSource(actions[..n], actions[n].planned.kind)
  }

  lemma OneMoreSourced(actions: seq<CompiledAction>, c: CompiledAction)
    requires AllSourced(actions) && !LacksSource(actions, c.planned.kind)
    ensures AllSourced(actions + [c])
  {
    hide LacksSource;
    var longer := actions + [c];
    forall n | 0 <= n < |longer| ensures !LacksSource(longer[..n], longer[n].planned.kind) {
      assert longer[..n] == actions[..n];
    }
    assert actions[..|actions|] == actions;
  }

  /** How materialising ends: with every source there, or at the first action whose source is not. */
  ghost predicate EndsProperly(planned: seq<PlannedAction>) {
    match Materialize(planned)
    case Err(e) => exists n: nat :: StopsAt(planned, n, e)
    case Ok(m) => |m.actions| == |planned| && AllSourced(m.actions)
  }

  lemma {:induction false} FailsAtFirstMissing(planned: seq<PlannedAction>)
    ensures EndsProperly(planned)
  {
    hide BindAction, LacksSource, Tracks, BoundTo, StopsAt, AllSourced;
    if planned == [] {
      NothingLacks();
    } else {
      var n := |planned| - 1;
      FailsAtFirstMissing(planned[..n]);
      match Materialize(planned[..n])
      case Err(e) =>
        var k: nat :| StopsAt(planned[..n], k, e);
        StopsLater(planned, n, k, e);
      case Ok(before) => LastDecides(planned, before);
    }
  }

  lemma NothingLacks()
    ensures AllSourced([])
  {
  }

  lemma LastDecides(planned: seq<PlannedAction>, before: Materialized)
    requires planned != [] && Materialize(planned[..|planned| - 1]) == Ok(before)
    requires |before.actions| == |planned| - 1 && AllSourced(before.actions)
    ensures EndsProperly(planned)
  {
    hide BindAction, LacksSource, Tracks, BoundTo, AllSourced;
    var n := |planned| - 1;
    InputsAre(planned[..n]);
    BindsUnlessLacking(before, planned[n]);
    if Materialize(planned).Err? {
      assert StopsAt(planned, n, Materialize(planned).error);
    } else {
      var bound := BindAction(before.bindings, planned[n].id, planned[n].kind).value;
      OneMoreSourced(before.actions, CompiledAction(planned[n], bound.inputs, bound.declared));
    }
  }
}
