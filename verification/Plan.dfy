/**
 The payment case planner's state machine (crates/tiv-core/src/plan.rs).

 A `BTreeSet` of capabilities is a listing of its members; nothing below depends on the
 listing being ordered or free of repeats. Counters are naturals: PlanInvariant bounds each of
 them well below 255, and the two checked `u8` operations are written out.
 */
module Plan {
  import opened Wrappers
  import opened Sequences

  const MAX_ACTIONS_PER_CASE: nat := 40
  const U8_MAX: nat := 255

  datatype ProviderOutcome =
    | Normal
    | PreExecute429
    | PreExecute500
    | PostExecute500
    | CommitThenClose
    | CommitThenDelay
  {
    predicate Commits() {
      !PreExecute429? && !PreExecute500?
    }

    predicate ResponseIsAmbiguous() {
      PostExecute500? || CommitThenClose? || CommitThenDelay?
    }
  }

  /** One call, or a commit-then-close call followed by its transport retry: no other pair can be built. */
  datatype Script = Single(only: ProviderOutcome) | TransportRetry(retry: ProviderOutcome) {
    function Outcomes(): seq<ProviderOutcome> {
      match this
      case Single(o) => [o]
      case TransportRetry(r) => [CommitThenClose, r]
    }

    function Terminal(): ProviderOutcome {
      match this
      case Single(o) => o
      case TransportRetry(r) => r
    }

    function CommittedCount(): nat {
      match this
      case Single(o) => if o.Commits() then 1 else 0
      case TransportRetry(r) => 1 + if r.Commits() then 1 else 0
    }

    predicate HasAmbiguousCommit() {
      match this
      case Single(o) => o.Commits() && o.ResponseIsAmbiguous()
      case TransportRetry(_) => true
    }
  }

  datatype CutPoint =
    | ClientRequestForwarded
    | ClientResponseObserved
    | WebhookRequestForwarded
    | WebhookResponseObserved
    | SqlProbe

  datatype Action =
    | DriveCheckout(script: Script)
    | RetrievePaymentIntent
    | ReleaseProviderGate
    | RetryBusinessRequest(script: Script)
    | ConfirmPaymentIntent(script: Script)
    | RetryProviderRequest(script: Script)
    | GenerateProviderEvent
    | DeliverWebhook
    | DuplicateWebhook
    | DelayWebhook(milliseconds: nat)
    | ReorderWebhooks
    | DropWebhook
    | KillApplication(cutPoint: CutPoint)
    | RestartAndAwaitHealth
    | WaitForQuiescence
    | CheckCheckpoint

  datatype Spec = Spec(
    maxActions: nat,
    outcomes: seq<ProviderOutcome>,
    duplicateMax: nat,
    delays: seq<nat>,
    allowReorder: bool,
    allowDrop: bool,
    allowStaleEvent: bool,
    cutPoints: seq<CutPoint>,
    maxKills: nat)
  {
    /** The action budget type admits 1 to 40 only. */
    predicate BudgetInRange() {
      1 <= maxActions <= MAX_ACTIONS_PER_CASE
    }

    function EventsPerProvider(): nat {
      if allowStaleEvent then 2 else 1
    }
  }

  datatype PlanValidationError = MissingNormalProviderOutcome | CapabilityOutsideV1Bounds | PlanIsNotFeasible

  function ValidateSpec(spec: Spec): Result<(), PlanValidationError> {
    if Normal !in spec.outcomes then Err(MissingNormalProviderOutcome)
    else if spec.duplicateMax > 3 || exists d :: d in spec.delays && d > 5000 then Err(CapabilityOutsideV1Bounds)
    else if spec.maxKills > 1 then Err(CapabilityOutsideV1Bounds)
    else Ok(())
  }

  predicate ValidSpec(spec: Spec) {
    ValidateSpec(spec).Ok?
  }

  datatype EventState = EventState(
    generated: nat,
    pending: nat,
    delivered: nat,
    duplicates: nat,
    delayUsed: bool,
    reorderUsed: bool)

  datatype Phase =
    | Start
    | CheckoutRetryable(attempts: nat, ambiguous: bool)
    | CheckoutResponseHeld
    | PaymentIntentKnown
    | ConfirmRetryable(attempts: nat, ambiguous: bool)
    | ConfirmResponseHeld
    | Confirmed
    | Events(events: EventState)
    | Quiesced
    | Complete

  datatype Observation =
    | NoObservation
    | InitialCheckoutResponse
    | CheckoutResponse
    | CheckoutRequestHeld
    | WebhookDelivery

  datatype State = State(
    phase: Phase,
    objects: nat,
    healthy: bool,
    kills: nat,
    legacy: bool,
    observation: Observation)

  function Initial(legacy: bool): State {
    State(Start, 0, true, 0, legacy, NoObservation)
  }

  // ---------- eligibility ----------

  function BusinessScripts(spec: Spec, first: ProviderOutcome): seq<Script> {
    if first == CommitThenClose then Map(retry => TransportRetry(retry), spec.outcomes)
    else [Single(first)]
  }

  /** Outcomes a retry may meet: from the second retry on, only the normal one. */
  function RetryOutcomes(spec: Spec, attempts: nat): seq<ProviderOutcome> {
    Filter(o => attempts < 2 || o == Normal, spec.outcomes)
  }

  function ScriptsStartingWith(spec: Spec, firsts: seq<ProviderOutcome>): seq<Script> {
    FlatMap(first => BusinessScripts(spec, first), firsts)
  }

  function TargetEvents(spec: Spec, objects: nat): nat {
    var product := objects * spec.EventsPerProvider();
    if product > U8_MAX then U8_MAX else product
  }

  function EventActions(spec: Spec, e: EventState, objects: nat): seq<Action> {
    if e.generated < TargetEvents(spec, objects) then [GenerateProviderEvent]
    else
      (if e.pending > 0 then
         [DeliverWebhook]
         + (if e.delayUsed then [] else Map(d => DelayWebhook(d), spec.delays))
         + (if spec.allowDrop then [DropWebhook] else [])
       else [])
      + (if e.pending >= 2 && spec.allowReorder && !e.reorderUsed then [ReorderWebhooks] else [])
      + (if e.delivered > 0 && e.duplicates < spec.duplicateMax then [DuplicateWebhook] else [])
      + (if e.generated > 0 && e.pending == 0 then [WaitForQuiescence] else [])
  }

  function PhaseActions(spec: Spec, phase: Phase, objects: nat): seq<Action> {
    match phase
    case Start =>
      Map(script => DriveCheckout(script), ScriptsStartingWith(spec, spec.outcomes))
    case CheckoutRetryable(attempts, ambiguous) =>
      Map(script => RetryBusinessRequest(script), ScriptsStartingWith(spec, RetryOutcomes(spec, attempts)))
      + (if ambiguous then [RetrievePaymentIntent] else [])
    case CheckoutResponseHeld => [ReleaseProviderGate]
    case ConfirmResponseHeld => [ReleaseProviderGate]
    case PaymentIntentKnown =>
      Map(o => ConfirmPaymentIntent(Single(o)), spec.outcomes)
    case ConfirmRetryable(attempts, ambiguous) =>
      Map(o => RetryProviderRequest(Single(o)), RetryOutcomes(spec, attempts))
      + (if ambiguous then [RetrievePaymentIntent] else [])
    case Confirmed => [GenerateProviderEvent]
    case Events(e) => EventActions(spec, e, objects)
    case Quiesced => [CheckCheckpoint]
    case Complete => []
  }

  /** Which cut points an observed effect proves reachable. */
  predicate Supports(observation: Observation, cutPoint: CutPoint) {
    match cutPoint
    case ClientRequestForwarded => observation == CheckoutRequestHeld
    case ClientResponseObserved => observation == InitialCheckoutResponse || observation == CheckoutResponse
    case SqlProbe => observation == InitialCheckoutResponse
    case WebhookRequestForwarded => observation == WebhookDelivery
    case WebhookResponseObserved => observation == WebhookDelivery
  }

  /** The legacy policy looks at the phase alone. */
  predicate LegacyObservable(phase: Phase, cutPoint: CutPoint) {
    match cutPoint
    case ClientRequestForwarded =>
      || phase.CheckoutRetryable? || phase.CheckoutResponseHeld? || phase.PaymentIntentKnown?
      || phase.ConfirmRetryable? || phase.ConfirmResponseHeld? || phase.Confirmed?
    case ClientResponseObserved =>
      phase.CheckoutRetryable? || phase.PaymentIntentKnown? || phase.ConfirmRetryable? || phase.Confirmed?
    case WebhookRequestForwarded => phase.Events? && phase.events.delivered > 0
    case WebhookResponseObserved => phase.Events? && phase.events.delivered > 0
    case SqlProbe =>
      || phase.CheckoutResponseHeld? || phase.PaymentIntentKnown? || phase.ConfirmRetryable?
      || phase.ConfirmResponseHeld? || phase.Confirmed? || phase.Events?
  }

  predicate CutPointReachable(s: State, cutPoint: CutPoint) {
    if s.legacy then LegacyObservable(s.phase, cutPoint) else Supports(s.observation, cutPoint)
  }

  function KillActions(spec: Spec, s: State): seq<Action> {
    if s.kills < spec.maxKills
    then Map(c => KillApplication(c), Filter(c => CutPointReachable(s, c), spec.cutPoints))
    else []
  }

  function EligibleActions(spec: Spec, s: State): seq<Action> {
    if !s.healthy then [RestartAndAwaitHealth]
    else PhaseActions(spec, s.phase, s.objects) + KillActions(spec, s)
  }

  // ---------- eligibility without lists ----------

  predicate BusinessScriptAllowed(spec: Spec, attempts: nat, script: Script) {
    match script
    case Single(o) => o in spec.outcomes && o != CommitThenClose && (attempts < 2 || o == Normal)
    case TransportRetry(r) => CommitThenClose in spec.outcomes && r in spec.outcomes && attempts < 2
  }

  predicate ConfirmScriptAllowed(spec: Spec, attempts: nat, script: Script) {
    script.Single? && script.only in spec.outcomes && (attempts < 2 || script.only == Normal)
  }

  predicate EventAllowed(spec: Spec, e: EventState, objects: nat, a: Action) {
    if e.generated < TargetEvents(spec, objects) then a.GenerateProviderEvent?
    else
      match a
      case DeliverWebhook => e.pending > 0
      case DelayWebhook(d) => e.pending > 0 && !e.delayUsed && d in spec.delays
      case DropWebhook => e.pending > 0 && spec.allowDrop
      case ReorderWebhooks => e.pending >= 2 && spec.allowReorder && !e.reorderUsed
      case DuplicateWebhook => e.delivered > 0 && e.duplicates < spec.duplicateMax
      case WaitForQuiescence => e.generated > 0 && e.pending == 0
      case _ => false
  }

  predicate PhaseAllows(spec: Spec, phase: Phase, objects: nat, a: Action) {
    match phase
    case Start => a.DriveCheckout? && BusinessScriptAllowed(spec, 0, a.script)
    case CheckoutRetryable(n, ambiguous) =>
      (a.RetryBusinessRequest? && BusinessScriptAllowed(spec, n, a.script)) || (ambiguous && a.RetrievePaymentIntent?)
    case CheckoutResponseHeld => a.ReleaseProviderGate?
    case ConfirmResponseHeld => a.ReleaseProviderGate?
    case PaymentIntentKnown => a.ConfirmPaymentIntent? && ConfirmScriptAllowed(spec, 0, a.script)
    case ConfirmRetryable(n, ambiguous) =>
      (a.RetryProviderRequest? && ConfirmScriptAllowed(spec, n, a.script)) || (ambiguous && a.RetrievePaymentIntent?)
    case Confirmed => a.GenerateProviderEvent?
    case Events(e) => EventAllowed(spec, e, objects, a)
    case Quiesced => a.CheckCheckpoint?
    case Complete => false
  }

  predicate KillAllowed(spec: Spec, s: State, a: Action) {
    a.KillApplication? && s.kills < spec.maxKills && a.cutPoint in spec.cutPoints && CutPointReachable(s, a.cutPoint)
  }

  /** Eligibility as a property of one action, with no enumeration. */
  predicate CanTake(spec: Spec, s: State, a: Action) {
    if !s.healthy then a.RestartAndAwaitHealth?
    else PhaseAllows(spec, s.phase, s.objects, a) || KillAllowed(spec, s, a)
  }

  // ---------- transitions ----------

  function ObservationAfter(a: Action): Observation {
    match a
    case DriveCheckout(script) =>
      if script.Terminal() == Normal then InitialCheckoutResponse
      else if script.Terminal() == CommitThenDelay then CheckoutRequestHeld
      else CheckoutResponse
    case RetryBusinessRequest(script) =>
      if script.Terminal() == CommitThenDelay then CheckoutRequestHeld else CheckoutResponse
    case DeliverWebhook => WebhookDelivery
    case DuplicateWebhook => WebhookDelivery
    case _ => NoObservation
  }

  function CreatePhase(script: Script, attempts: nat): Phase {
    match script.Terminal()
    case Normal => PaymentIntentKnown
    case CommitThenDelay => CheckoutResponseHeld
    case _ => CheckoutRetryable(attempts, script.HasAmbiguousCommit())
  }

  function ConfirmPhase(script: Script, attempts: nat): Phase {
    match script.Terminal()
    case Normal => Confirmed
    case CommitThenDelay => ConfirmResponseHeld
    case _ => ConfirmRetryable(attempts, script.HasAmbiguousCommit())
  }

  function ApplyProvider(phase: Phase, a: Action): Option<Phase> {
    match a
    case DriveCheckout(script) =>
      if phase.Start? then Some(CreatePhase(script, 0)) else None
    case RetryBusinessRequest(script) =>
      if phase.CheckoutRetryable? then Some(CreatePhase(script, phase.attempts + 1)) else None
    case ReleaseProviderGate =>
      if phase.CheckoutResponseHeld? then Some(PaymentIntentKnown)
      else if phase.ConfirmResponseHeld? then Some(Confirmed)
      else None
    case RetrievePaymentIntent =>
      if phase.CheckoutRetryable? && phase.ambiguous then Some(PaymentIntentKnown)
      else if phase.ConfirmRetryable? && phase.ambiguous then Some(Confirmed)
      else None
    case ConfirmPaymentIntent(script) =>
      if phase.PaymentIntentKnown? then Some(ConfirmPhase(script, 0)) else None
    case RetryProviderRequest(script) =>
      if phase.ConfirmRetryable? then Some(ConfirmPhase(script, phase.attempts + 1)) else None
    case GenerateProviderEvent =>
      if phase.Confirmed? then Some(Events(EventState(1, 1, 0, 0, false, false))) else None
    case _ => None
  }

  function ApplyEvent(phase: Phase, a: Action): Option<Phase> {
    if !phase.Events? then None
    else
      var e := phase.events;
      match a
      case GenerateProviderEvent => Some(Events(e.(generated := e.generated + 1, pending := e.pending + 1)))
      case DeliverWebhook =>
        if e.pending == 0 then None
        else Some(Events(e.(pending := e.pending - 1, delivered := e.delivered + 1)))
      case DuplicateWebhook => Some(Events(e.(duplicates := e.duplicates + 1)))
      case DelayWebhook(_) => Some(Events(e.(delayUsed := true)))
      case ReorderWebhooks => Some(Events(e.(reorderUsed := true)))
      case DropWebhook =>
        if e.pending == 0 then None else Some(Events(e.(pending := e.pending - 1)))
      case _ => None
  }

  /** Objects an action creates; `None` when the `u8` counter would overflow. */
  function ApplyObjects(objects: nat, a: Action): Option<nat> {
    if a.DriveCheckout? || a.RetryBusinessRequest? then
      if objects + a.script.CommittedCount() > U8_MAX then None else Some(objects + a.script.CommittedCount())
    else Some(objects)
  }

  function ApplyHealthy(s: State, a: Action): Option<State> {
    var provider := ApplyProvider(s.phase, a);
    if provider.Some? then
      var objects :- ApplyObjects(s.objects, a);
      Some(s.(phase := provider.value, objects := objects))
    else
      var event := ApplyEvent(s.phase, a);
      if event.Some? then Some(s.(phase := event.value))
      else if s.phase.Events? && a.WaitForQuiescence? then Some(s.(phase := Quiesced))
      else if s.phase.Quiesced? && a.CheckCheckpoint? then Some(s.(phase := Complete))
      else None
  }

  function Observe(s: State, a: Action): State {
    if !s.legacy && s.kills == 0 then s.(observation := ObservationAfter(a)) else s
  }

  function Apply(before: State, a: Action): Option<State> {
    var s := Observe(before, a);
    if a.KillApplication? && s.healthy then
      var phase :=
        if a.cutPoint == ClientResponseObserved && s.phase == PaymentIntentKnown
        then CheckoutRetryable(0, false) else s.phase;
      Some(s.(phase := phase, healthy := false, kills := s.kills + 1))
    else if a.RestartAndAwaitHealth? && !s.healthy then Some(s.(healthy := true))
    else if !s.healthy then None
    else ApplyHealthy(s, a)
  }

  // ---------- runs ----------

  /** One accepted action: eligible, and applied. PlanInvariant ties `CanTake` to the enumeration. */
  function Step(spec: Spec, s: State, a: Action): Option<State> {
    if CanTake(spec, s, a) then Apply(s, a) else None
  }

  function Run(spec: Spec, s: State, actions: seq<Action>): Option<State> {
    if actions == [] then Some(s)
    else
      var last := |actions| - 1;
      var t :- Run(spec, s, actions[..last]);
      Step(spec, t, actions[last])
  }

  /** A schedule the workflow accepts from its start to its completion. */
  predicate Feasible(spec: Spec, legacy: bool, actions: seq<Action>) {
    var end := Run(spec, Initial(legacy), actions);
    end.Some? && end.value.phase.Complete?
  }

  lemma RunAppend(spec: Spec, s: State, actions: seq<Action>, a: Action)
    ensures Run(spec, s, actions + [a])
         == (var t := Run(spec, s, actions); if t.Some? then Step(spec, t.value, a) else None)
  {
    assert (actions + [a])[..|actions|] == actions;
  }

  lemma {:induction false} RunConcat(spec: Spec, s: State, left: seq<Action>, right: seq<Action>)
    ensures Run(spec, s, left + right)
         == (var t := Run(spec, s, left); if t.Some? then Run(spec, t.value, right) else None)
  {
    if right == [] {
      assert left + right == left;
    } else {
      var last := |right| - 1;
      RunConcat(spec, s, left, right[..last]);
      assert left + right == (left + right[..last]) + [right[last]];
      RunAppend(spec, s, left + right[..last], right[last]);
    }
  }
}
