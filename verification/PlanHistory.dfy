/**
 The planner without its state machine (crates/tiv-core/src/plan.rs): which action may come next is
 a matter of what the schedule so far contains, and the machine accepts exactly that.
 */
module PlanHistory {
  import opened Wrappers
  import opened Sequences
  import opened Plan
  import opened PlanInvariant
  import opened PlanCompiler
  import opened PlanLedger

  // ---------- what a schedule so far says ----------

  function Last(actions: seq<Action>): (r: Action)
    requires actions != []
  {
    actions[|actions| - 1]
  }

  predicate IsInterruption(a: Action) {
    a.KillApplication? || a.RestartAndAwaitHealth?
  }

  /** The last action that is neither a kill nor a restart. */
  function LastStep(actions: seq<Action>): Option<Action> {
    if actions == [] then None
    else if IsInterruption(Last(actions)) then LastStep(actions[..|actions| - 1])
    else Some(Last(actions))
  }

  /** The application is down: the kill has not been answered yet. */
  predicate IsDown(actions: seq<Action>) {
    actions != [] && Last(actions).KillApplication?
  }

  /** What the last call of a script came to. */
  function FinalOutcome(script: Script): ProviderOutcome {
    script.Outcomes()[|script.Outcomes()| - 1]
  }

  predicate EndedIn(step: Option<Action>, outcome: ProviderOutcome) {
    step.Some? && HasScript(step.value) && FinalOutcome(step.value.script) == outcome
  }

  /** The last step was a call whose last response was neither the normal one nor held back. */
  predicate Rejected(step: Option<Action>) {
    step.Some? && HasScript(step.value) && !EndedIn(step, Normal) && !EndedIn(step, CommitThenDelay)
  }

  /** The last step brought a call to its normal end, directly, by looking it up or by releasing it. */
  predicate Succeeded(step: Option<Action>) {
    EndedIn(step, Normal) || (step.Some? && (step.value.RetrievePaymentIntent? || step.value.ReleaseProviderGate?))
  }

  /** Some call of the script committed without its normal response. */
  predicate CommitWasHidden(script: Script) {
    exists k :: 0 <= k < |script.Outcomes()| && script.Outcomes()[k].Commits() && script.Outcomes()[k] != Normal
  }

  predicate IsConfirming(actions: seq<Action>) {
    exists i :: 0 <= i < |actions| && actions[i].ConfirmPaymentIntent?
  }

  predicate HasWaited(actions: seq<Action>) {
    WaitForQuiescence in actions
  }

  /** The checkout had succeeded, but the kill at its response left the customer without it. */
  predicate IsForgotten(actions: seq<Action>)
    decreases |actions|, 0
  {
    actions != []
    && var before := actions[..|actions| - 1];
       match Last(actions)
       case KillApplication(cutPoint) => cutPoint == ClientResponseObserved && IsCheckedOut(before)
       case RestartAndAwaitHealth => IsForgotten(before)
       case _ => false
  }

  /** The customer knows the payment intent and has not begun to confirm it. */
  predicate IsCheckedOut(actions: seq<Action>)
    decreases |actions|, 1
  {
    Succeeded(LastStep(actions)) && !IsConfirming(actions) && !IsForgotten(actions)
  }

  /** Business retries since the drive, or since the checkout was forgotten. */
  function CheckoutRetries(actions: seq<Action>): nat {
    if actions == [] then 0
    else
      var before := actions[..|actions| - 1];
      if Last(actions).RetryBusinessRequest? then CheckoutRetries(before) + 1
      else if Last(actions).KillApplication? && IsForgotten(actions) then 0
      else CheckoutRetries(before)
  }

  function ConfirmRetries(actions: seq<Action>): nat {
    if actions == [] then 0
    else ConfirmRetries(actions[..|actions| - 1]) + if Last(actions).RetryProviderRequest? then 1 else 0
  }

  /** Configured outcomes; a transport retry follows a closed connection and nothing else; a third retry is normal. */
  predicate CallsAllowed(spec: Spec, retries: nat, script: Script) {
    && (forall k :: 0 <= k < |script.Outcomes()| ==> script.Outcomes()[k] in spec.outcomes)
    && (|script.Outcomes()| == 2 <==> script.Outcomes()[0] == CommitThenClose)
    && (retries < 2 || script.Outcomes() == [Normal])
  }

  predicate ConfirmCallAllowed(spec: Spec, retries: nat, script: Script) {
    && |script.Outcomes()| == 1 && script.Outcomes()[0] in spec.outcomes
    && (retries < 2 || script.Outcomes() == [Normal])
  }

  function Pending(actions: seq<Action>): int {
    var t := TallyOf(actions);
    t.generated - t.delivered - t.dropped
  }

  predicate InEvents(actions: seq<Action>) {
    TallyOf(actions).generated > 0 && !HasWaited(actions)
  }

  /** Every committed object has all of its events. */
  predicate AllGenerated(spec: Spec, actions: seq<Action>) {
    InEvents(actions) && TallyOf(actions).generated == TallyOf(actions).committed * spec.EventsPerProvider()
  }

  /** The effect at a cut point is one the action itself produces. */
  predicate Produces(a: Action, cutPoint: CutPoint) {
    match cutPoint
    case ClientRequestForwarded => IsBusinessCall(a) && FinalOutcome(a.script) == CommitThenDelay
    case ClientResponseObserved => IsBusinessCall(a) && FinalOutcome(a.script) != CommitThenDelay
    case WebhookRequestForwarded => a.DeliverWebhook? || a.DuplicateWebhook?
    case WebhookResponseObserved => a.DeliverWebhook? || a.DuplicateWebhook?
    case SqlProbe => a.DriveCheckout? && FinalOutcome(a.script) == Normal
  }

  predicate IsBusinessCall(a: Action) {
    a.DriveCheckout? || a.RetryBusinessRequest?
  }

  predicate IsProviderStep(a: Action) {
    HasScript(a) || a.RetrievePaymentIntent? || a.ReleaseProviderGate?
  }

  predicate IsEventStep(a: Action) {
    || a.GenerateProviderEvent? || a.DeliverWebhook? || a.DuplicateWebhook? || a.DelayWebhook?
    || a.ReorderWebhooks? || a.DropWebhook?
  }

  /** The legacy policy asks how far the workflow has come, not what the last action did. */
  predicate LegacyObserves(actions: seq<Action>, cutPoint: CutPoint) {
    var step := LastStep(actions);
    step.Some?
    && match cutPoint
       case ClientRequestForwarded => IsProviderStep(step.value)
       case ClientResponseObserved => IsProviderStep(step.value) && !EndedIn(step, CommitThenDelay)
       case WebhookRequestForwarded => InEvents(actions) && TallyOf(actions).delivered > 0
       case WebhookResponseObserved => InEvents(actions) && TallyOf(actions).delivered > 0
       case SqlProbe =>
         IsEventStep(step.value) || (IsProviderStep(step.value) && !(IsBusinessCall(step.value) && Rejected(step)))
  }

  predicate KillMayFollow(spec: Spec, legacy: bool, actions: seq<Action>, cutPoint: CutPoint) {
    && TallyOf(actions).kills < spec.maxKills && cutPoint in spec.cutPoints
    && if legacy then LegacyObserves(actions, cutPoint) else actions != [] && Produces(Last(actions), cutPoint)
  }

  predicate ProviderStepMayFollow(spec: Spec, actions: seq<Action>, a: Action) {
    var step := LastStep(actions);
    match a
    case DriveCheckout(script) => step.None? && CallsAllowed(spec, 0, script)
    case RetryBusinessRequest(script) =>
      && step.Some? && !IsConfirming(actions) && (IsForgotten(actions) || Rejected(step))
      && CallsAllowed(spec, CheckoutRetries(actions), script)
    case RetrievePaymentIntent => Rejected(step) && !IsForgotten(actions) && CommitWasHidden(step.value.script)
    case ReleaseProviderGate => EndedIn(step, CommitThenDelay)
    case ConfirmPaymentIntent(script) => IsCheckedOut(actions) && ConfirmCallAllowed(spec, 0, script)
    case RetryProviderRequest(script) =>
      IsConfirming(actions) && Rejected(step) && ConfirmCallAllowed(spec, ConfirmRetries(actions), script)
    case _ => false
  }

  predicate EventStepMayFollow(spec: Spec, actions: seq<Action>, a: Action) {
    var t := TallyOf(actions);
    match a
    case GenerateProviderEvent =>
      (IsConfirming(actions) && Succeeded(LastStep(actions))) || (InEvents(actions) && !AllGenerated(spec, actions))
    case DeliverWebhook => AllGenerated(spec, actions) && Pending(actions) > 0
    case DelayWebhook(d) => AllGenerated(spec, actions) && Pending(actions) > 0 && t.delayed == 0 && d in spec.delays
    case DropWebhook => AllGenerated(spec, actions) && Pending(actions) > 0 && spec.allowDrop
    case ReorderWebhooks =>
      AllGenerated(spec, actions) && Pending(actions) >= 2 && t.reordered == 0 && spec.allowReorder
    case DuplicateWebhook => AllGenerated(spec, actions) && t.delivered > 0 && t.duplicated < spec.duplicateMax
    case WaitForQuiescence => AllGenerated(spec, actions) && Pending(actions) == 0
    case CheckCheckpoint => LastStep(actions) == Some(WaitForQuiescence)
    case _ => false
  }

  /** What may follow a schedule, by what the schedule contains. */
  predicate MayFollow(spec: Spec, legacy: bool, actions: seq<Action>, a: Action) {
    if IsDown(actions) then a.RestartAndAwaitHealth?
    else if a.KillApplication? then KillMayFollow(spec, legacy, actions, a.cutPoint)
    else ProviderStepMayFollow(spec, actions, a) || EventStepMayFollow(spec, actions, a)
  }

  // ---------- the machine reflects its history ----------

  predicate ReflectsCheckout(actions: seq<Action>, phase: Phase) {
    var step := LastStep(actions);
    match phase
    case Start => step.None? && !IsConfirming(actions) && CheckoutRetries(actions) == 0
    case CheckoutRetryable(n, ambiguous) =>
      && step.Some? && !IsConfirming(actions) && n == CheckoutRetries(actions)
      && if IsForgotten(actions) then !ambiguous && IsProviderStep(step.value) && !EndedIn(step, CommitThenDelay)
         else IsBusinessCall(step.value) && Rejected(step) && (ambiguous <==> CommitWasHidden(step.value.script))
    case CheckoutResponseHeld =>
      !IsConfirming(actions) && EndedIn(step, CommitThenDelay) && !IsForgotten(actions)
    case PaymentIntentKnown => IsCheckedOut(actions)
    case _ => IsConfirming(actions) && !IsForgotten(actions)
  }

  predicate ReflectsConfirm(actions: seq<Action>, phase: Phase) {
    var step := LastStep(actions);
    match phase
    case ConfirmRetryable(n, ambiguous) =>
      && Rejected(step) && !IsBusinessCall(step.value) && n == ConfirmRetries(actions)
      && (ambiguous <==> CommitWasHidden(step.value.script))
    case ConfirmResponseHeld => EndedIn(step, CommitThenDelay)
    case Confirmed => Succeeded(step) && !IsBusinessCall(step.value)
    case Events(_) => step.Some? && IsEventStep(step.value)
    case Quiesced => step == Some(WaitForQuiescence)
    case Complete => step == Some(CheckCheckpoint) && Last(actions).CheckCheckpoint?
    case _ => ConfirmRetries(actions) == 0
  }

  predicate Reflects(actions: seq<Action>, s: State) {
    && (s.healthy <==> !IsDown(actions))
    && ReflectsCheckout(actions, s.phase) && ReflectsConfirm(actions, s.phase)
    && (IsForgotten(actions) ==> s.kills == 1)
    && (HasWaited(actions) <==> s.phase.Quiesced? || s.phase.Complete?)
    && (!s.legacy && s.kills == 0 ==>
          s.observation == if actions == [] then NoObservation else ObservationAfter(Last(actions)))
  }

  /** How each notion changes with one more action. */
  lemma Extended(actions: seq<Action>, a: Action)
    ensures var next := actions + [a];
            && next != [] && Last(next) == a
            && LastStep(next) == (if IsInterruption(a) then LastStep(actions) else Some(a))
            && (IsDown(next) <==> a.KillApplication?)
            && (IsConfirming(next) <==> IsConfirming(actions) || a.ConfirmPaymentIntent?)
            && (HasWaited(next) <==> HasWaited(actions) || a.WaitForQuiescence?)
            && TallyOf(next) == Record(TallyOf(actions), a)
            && ConfirmRetries(next) == ConfirmRetries(actions) + (if a.RetryProviderRequest? then 1 else 0)
    ensures var next := actions + [a];
            && (IsForgotten(next) <==>
                  || (a.KillApplication? && a.cutPoint == ClientResponseObserved && IsCheckedOut(actions))
                  || (a.RestartAndAwaitHealth? && IsForgotten(actions)))
            && CheckoutRetries(next)
               == (if a.KillApplication? && IsForgotten(next) then 0
                   else CheckoutRetries(actions) + if a.RetryBusinessRequest? then 1 else 0)
            && (IsCheckedOut(actions) <==>
                  Succeeded(LastStep(actions)) && !IsConfirming(actions) && !IsForgotten(actions))
            && (IsCheckedOut(next) <==> Succeeded(LastStep(next)) && !IsConfirming(next) && !IsForgotten(next))
  {
    var next := actions + [a];
    assert next[..|next| - 1] == actions;
    if IsConfirming(actions) {
      var i :| 0 <= i < |actions| && actions[i].ConfirmPaymentIntent?;
      assert next[i] == actions[i];
    }
    if a.ConfirmPaymentIntent? {
      assert next[|actions|].ConfirmPaymentIntent?;
    }
  }

  lemma AmbiguityIsHidden(script: Script)
    ensures FinalOutcome(script) == script.Terminal()
    ensures script.HasAmbiguousCommit() <==> CommitWasHidden(script)
  {
    assert script.Outcomes()[0].Commits() || !script.Outcomes()[0].Commits();
    if script.TransportRetry? {
      assert script.Outcomes()[0] == CommitThenClose;
    }
  }

  lemma StartReflects(legacy: bool)
    ensures Reflects([], Initial(legacy))
  {
  }

  lemma KillReflects(spec: Spec, actions: seq<Action>, s: State, a: Action)
    requires Inv(spec, s) && Reflects(actions, s) && CanTake(spec, s, a) && IsInterruption(a) && Apply(s, a).Some?
    ensures Reflects(actions + [a], Apply(s, a).value)
  {
    Extended(actions, a);
    hide LastStep, IsConfirming, HasWaited, IsForgotten, IsCheckedOut, CheckoutRetries, ConfirmRetries, TallyOf,
      IsDown;
  }

  lemma CheckoutCallApplies(s: State, a: Action)
    requires s.healthy && Apply(s, a).Some?
    requires (s.phase.Start? && a.DriveCheckout?) || (s.phase.CheckoutRetryable? && a.RetryBusinessRequest?)
    ensures var t := Apply(s, a).value;
            && t.healthy && t.kills == s.kills && t.legacy == s.legacy
            && t.phase == CreatePhase(a.script, if s.phase.Start? then 0 else s.phase.attempts + 1)
            && (!s.legacy && s.kills == 0 ==> t.observation == ObservationAfter(a))
  {
    hide CreatePhase, ObservationAfter;
  }

  lemma CheckoutCallReflects(spec: Spec, actions: seq<Action>, s: State, a: Action)
    requires Inv(spec, s) && Reflects(actions, s) && s.healthy && PhaseAllows(spec, s.phase, s.objects, a)
    requires (s.phase.Start? && a.DriveCheckout?) || (s.phase.CheckoutRetryable? && a.RetryBusinessRequest?)
    requires Apply(s, a).Some?
    ensures Reflects(actions + [a], Apply(s, a).value)
  {
    Extended(actions, a);
    CheckoutCallApplies(s, a);
    var retries := if s.phase.Start? then 0 else s.phase.attempts + 1;
    assert CheckoutRetries(actions) + (if s.phase.Start? then 0 else 1) == retries;
    assert !IsConfirming(actions) && !HasWaited(actions) && ConfirmRetries(actions) == 0;
    hide *;
    CheckoutCallPhase(actions + [a], a, retries);
    CallIsReflected(actions + [a], a, Apply(s, a).value);
  }

  lemma CallIsReflected(actions: seq<Action>, a: Action, t: State)
    requires actions != [] && Last(actions) == a && !IsDown(actions) && t.healthy
    requires ReflectsCheckout(actions, t.phase) && ReflectsConfirm(actions, t.phase)
    requires !IsForgotten(actions) && !HasWaited(actions) && !t.phase.Quiesced? && !t.phase.Complete?
    requires !t.legacy && t.kills == 0 ==> t.observation == ObservationAfter(a)
    ensures Reflects(actions, t)
  {
    hide ReflectsCheckout, ReflectsConfirm, HasWaited, IsForgotten, ObservationAfter;
  }

  lemma CheckoutCallPhase(actions: seq<Action>, a: Action, retries: nat)
    requires IsBusinessCall(a) && LastStep(actions) == Some(a) && !IsConfirming(actions) && !IsForgotten(actions)
    requires CheckoutRetries(actions) == retries && ConfirmRetries(actions) == 0
    ensures var phase := CreatePhase(a.script, retries);
            && ReflectsCheckout(actions, phase) && ReflectsConfirm(actions, phase)
            && !phase.Quiesced? && !phase.Complete?
  {
    AmbiguityIsHidden(a.script);
    hide LastStep, IsConfirming, IsForgotten, CheckoutRetries, ConfirmRetries, CommitWasHidden;
  }

  lemma CheckoutReflects(spec: Spec, actions: seq<Action>, s: State, a: Action)
    requires Inv(spec, s) && Reflects(actions, s) && s.healthy && PhaseAllows(spec, s.phase, s.objects, a)
    requires s.phase.Start? || s.phase.CheckoutRetryable? || s.phase.CheckoutResponseHeld?
    requires Apply(s, a).Some?
    ensures Reflects(actions + [a], Apply(s, a).value)
  {
    if HasScript(a) {
      CheckoutCallReflects(spec, actions, s, a);
    } else {
      Extended(actions, a);
      hide LastStep, IsConfirming, HasWaited, IsForgotten, IsCheckedOut, CheckoutRetries, ConfirmRetries, TallyOf,
        IsDown, CommitWasHidden;
    }
  }

  lemma ConfirmCallApplies(s: State, a: Action)
    requires s.healthy && Apply(s, a).Some?
    requires (s.phase.PaymentIntentKnown? && a.ConfirmPaymentIntent?)
             || (s.phase.ConfirmRetryable? && a.RetryProviderRequest?)
    ensures var t := Apply(s, a).value;
            && t.healthy && t.kills == s.kills && t.legacy == s.legacy
            && t.phase == ConfirmPhase(a.script, if s.phase.PaymentIntentKnown? then 0 else s.phase.attempts + 1)
            && (!s.legacy && s.kills == 0 ==> t.observation == ObservationAfter(a))
  {
    hide ConfirmPhase, ObservationAfter;
  }

  lemma ConfirmCallPhase(actions: seq<Action>, a: Action, retries: nat)
    requires HasScript(a) && !IsBusinessCall(a)
    requires LastStep(actions) == Some(a) && IsConfirming(actions) && !IsForgotten(actions)
    requires ConfirmRetries(actions) == retries
    ensures var phase := ConfirmPhase(a.script, retries);
            && ReflectsCheckout(actions, phase) && ReflectsConfirm(actions, phase)
            && !phase.Quiesced? && !phase.Complete?
  {
    AmbiguityIsHidden(a.script);
    hide LastStep, IsConfirming, IsForgotten, CheckoutRetries, ConfirmRetries, CommitWasHidden;
  }

  lemma ConfirmCallReflects(spec: Spec, actions: seq<Action>, s: State, a: Action)
    requires Inv(spec, s) && Reflects(actions, s) && s.healthy && PhaseAllows(spec, s.phase, s.objects, a)
    requires (s.phase.PaymentIntentKnown? && a.ConfirmPaymentIntent?)
             || (s.phase.ConfirmRetryable? && a.RetryProviderRequest?)
    requires Apply(s, a).Some?
    ensures Reflects(actions + [a], Apply(s, a).value)
  {
    Extended(actions, a);
    ConfirmCallApplies(s, a);
    var retries := if s.phase.PaymentIntentKnown? then 0 else s.phase.attempts + 1;
    assert ConfirmRetries(actions) + (if s.phase.PaymentIntentKnown? then 0 else 1) == retries;
    assert (IsConfirming(actions) || a.ConfirmPaymentIntent?) && !HasWaited(actions) && !IsForgotten(actions);
    hide *;
    ConfirmCallPhase(actions + [a], a, retries);
    CallIsReflected(actions + [a], a, Apply(s, a).value);
  }

  lemma ConfirmEndReflects(spec: Spec, actions: seq<Action>, s: State, a: Action)
    requires Inv(spec, s) && Reflects(actions, s) && s.healthy && PhaseAllows(spec, s.phase, s.objects, a)
    requires s.phase.ConfirmRetryable? || s.phase.ConfirmResponseHeld? || s.phase.Confirmed?
    requires !HasScript(a) && Apply(s, a).Some?
    ensures Reflects(actions + [a], Apply(s, a).value)
  {
    hide LastStep, IsConfirming, HasWaited, IsForgotten, IsCheckedOut, CheckoutRetries, ConfirmRetries, TallyOf,
      IsDown, CommitWasHidden, ConfirmScriptAllowed, EventsInRange, MaxObjects, ConfirmPhase, CreatePhase, ApplyEvent,
      ObservationFits, NeedsObject;
    Extended(actions, a);
  }

  lemma ConfirmReflects(spec: Spec, actions: seq<Action>, s: State, a: Action)
    requires Inv(spec, s) && Reflects(actions, s) && s.healthy && PhaseAllows(spec, s.phase, s.objects, a)
    requires s.phase.PaymentIntentKnown? || s.phase.ConfirmRetryable? || s.phase.ConfirmResponseHeld?
             || s.phase.Confirmed?
    requires Apply(s, a).Some?
    ensures Reflects(actions + [a], Apply(s, a).value)
  {
    if HasScript(a) {
      ConfirmCallReflects(spec, actions, s, a);
    } else {
      ConfirmEndReflects(spec, actions, s, a);
    }
  }

  lemma WebhookReflects(spec: Spec, actions: seq<Action>, s: State, a: Action)
    requires Inv(spec, s) && Reflects(actions, s) && s.healthy && PhaseAllows(spec, s.phase, s.objects, a)
    requires s.phase.Events? && Apply(s, a).Some?
    ensures Reflects(actions + [a], Apply(s, a).value)
  {
    hide LastStep, IsConfirming, HasWaited, IsForgotten, IsCheckedOut, CheckoutRetries, ConfirmRetries, TallyOf,
      IsDown, CommitWasHidden, TargetEvents, EventsInRange, MaxObjects, ObservationFits, NeedsObject;
    Extended(actions, a);
  }

  lemma CheckpointReflects(spec: Spec, actions: seq<Action>, s: State, a: Action)
    requires Inv(spec, s) && Reflects(actions, s) && s.healthy && PhaseAllows(spec, s.phase, s.objects, a)
    requires s.phase.Quiesced? && Apply(s, a).Some?
    ensures Reflects(actions + [a], Apply(s, a).value)
  {
    hide LastStep, IsConfirming, HasWaited, IsForgotten, IsCheckedOut, CheckoutRetries, ConfirmRetries, TallyOf,
      IsDown, CommitWasHidden, TargetEvents, EventsInRange, MaxObjects, ObservationFits, NeedsObject;
    Extended(actions, a);
  }

  lemma StepReflects(spec: Spec, actions: seq<Action>, s: State, a: Action)
    requires Inv(spec, s) && Reflects(actions, s) && CanTake(spec, s, a) && Apply(s, a).Some?
    ensures Reflects(actions + [a], Apply(s, a).value)
  {
    hide Reflects, Apply;
    if IsInterruption(a) {
      KillReflects(spec, actions, s, a);
    } else if s.phase.Start? || s.phase.CheckoutRetryable? || s.phase.CheckoutResponseHeld? {
      CheckoutReflects(spec, actions, s, a);
    } else if s.phase.Events? {
      WebhookReflects(spec, actions, s, a);
    } else if s.phase.Quiesced? {
      CheckpointReflects(spec, actions, s, a);
    } else {
      ConfirmReflects(spec, actions, s, a);
    }
  }

  /** Every accepted run ends in the state its actions describe. */
  lemma {:induction false} RunReflects(spec: Spec, legacy: bool, actions: seq<Action>)
    requires ValidSpec(spec) && Run(spec, Initial(legacy), actions).Some?
    ensures Reflects(actions, Run(spec, Initial(legacy), actions).value)
  {
    hide CanTake, Apply, Reflects, Inv;
    InitialInv(spec, legacy);
    if actions == [] {
      StartReflects(legacy);
    } else {
      var before, last := actions[..|actions| - 1], actions[|actions| - 1];
      RunReflects(spec, legacy, before);
      RunKeepsInv(spec, Initial(legacy), before);
      StepReflects(spec, before, Run(spec, Initial(legacy), before).value, last);
      assert actions == before + [last];
    }
  }

  // ---------- the machine accepts exactly what may follow ----------

  lemma CallsAgree(spec: Spec, retries: nat, script: Script)
    ensures CallsAllowed(spec, retries, script) <==> BusinessScriptAllowed(spec, retries, script)
    ensures ConfirmCallAllowed(spec, retries, script) <==> ConfirmScriptAllowed(spec, retries, script)
  {
    assert script.Outcomes()[0] in spec.outcomes || script.Outcomes()[0] !in spec.outcomes;
    if script.TransportRetry? {
      assert script.Outcomes()[1] == script.retry;
    }
  }

  /** The planner's memory of the last effect is exactly what the kill needs. */
  lemma SupportsIsProduces(a: Action, cutPoint: CutPoint)
    ensures Supports(ObservationAfter(a), cutPoint) <==> Produces(a, cutPoint)
    ensures !Supports(NoObservation, cutPoint)
  {
  }

  /** With no kill so far, the legacy phase table says what the last step says. */
  lemma LegacyTableIsHistory(spec: Spec, actions: seq<Action>, s: State, cutPoint: CutPoint)
    requires Inv(spec, s) && Reflects(actions, s) && Balanced(spec, TallyOf(actions), s) && s.kills == 0
    ensures LegacyObservable(s.phase, cutPoint) <==> LegacyObserves(actions, cutPoint)
  {
    hide LastStep, IsConfirming, HasWaited, IsForgotten, CheckoutRetries, ConfirmRetries, TallyOf, IsDown,
      CommitWasHidden;
  }

  lemma KillsAgree(spec: Spec, actions: seq<Action>, s: State, a: Action)
    requires ValidSpec(spec) && Inv(spec, s) && Reflects(actions, s) && Balanced(spec, TallyOf(actions), s)
    requires a.KillApplication?
    ensures KillAllowed(spec, s, a) <==> KillMayFollow(spec, s.legacy, actions, a.cutPoint)
  {
    if actions != [] { SupportsIsProduces(Last(actions), a.cutPoint); }
    SupportsIsProduces(DropWebhook, a.cutPoint);
    if s.kills == 0 { LegacyTableIsHistory(spec, actions, s, a.cutPoint); }
    hide ReflectsCheckout, ReflectsConfirm, TallyOf, Supports, Produces, LegacyObservable, LegacyObserves,
      ObservationAfter;
  }

  lemma ProviderStepsAgree(spec: Spec, actions: seq<Action>, s: State, a: Action)
    requires Inv(spec, s) && Reflects(actions, s) && s.healthy && IsProviderStep(a)
    ensures PhaseAllows(spec, s.phase, s.objects, a) <==> ProviderStepMayFollow(spec, actions, a)
  {
    if HasScript(a) {
      CallsAgree(spec, 0, a.script);
      CallsAgree(spec, CheckoutRetries(actions), a.script);
      CallsAgree(spec, ConfirmRetries(actions), a.script);
    }
    hide LastStep, IsConfirming, HasWaited, IsForgotten, CheckoutRetries, ConfirmRetries, TallyOf, IsDown,
      CommitWasHidden, CallsAllowed, ConfirmCallAllowed, BusinessScriptAllowed, ConfirmScriptAllowed;
  }

  /** The counters of the event phase are what the schedule contains. */
  predicate EventsCounted(spec: Spec, actions: seq<Action>, e: EventState, objects: nat) {
    && InEvents(actions) && e.generated > 0
    && EventsBalance(TallyOf(actions), e) && e.pending == Pending(actions)
    && e.generated <= TargetEvents(spec, objects)
    && (AllGenerated(spec, actions) <==> e.generated == TargetEvents(spec, objects))
  }

  lemma LaterStepsAgree(spec: Spec, actions: seq<Action>, s: State, a: Action)
    requires Inv(spec, s) && Reflects(actions, s) && Balanced(spec, TallyOf(actions), s) && s.healthy
    requires !s.phase.Events? && !IsProviderStep(a) && !a.KillApplication?
    ensures PhaseAllows(spec, s.phase, s.objects, a) <==> EventStepMayFollow(spec, actions, a)
  {
    hide LastStep, IsConfirming, HasWaited, IsForgotten, CheckoutRetries, ConfirmRetries, TallyOf, IsDown,
      CommitWasHidden, TargetEvents, MaxObjects, ObservationFits, NeedsObject, EventAllowed;
  }

  lemma EventStepsAgree(spec: Spec, actions: seq<Action>, s: State, a: Action)
    requires Inv(spec, s) && Reflects(actions, s) && Balanced(spec, TallyOf(actions), s) && s.healthy
    requires !IsProviderStep(a) && !a.KillApplication?
    ensures PhaseAllows(spec, s.phase, s.objects, a) <==> EventStepMayFollow(spec, actions, a)
  {
    if s.phase.Events? {
      InEventsAgrees(spec, actions, s);
      WebhooksAgree(spec, actions, s, a);
    } else {
      LaterStepsAgree(spec, actions, s, a);
    }
  }

  lemma WebhooksAgree(spec: Spec, actions: seq<Action>, s: State, a: Action)
    requires s.phase.Events? && Reflects(actions, s) && !IsProviderStep(a) && !a.KillApplication?
    requires EventsCounted(spec, actions, s.phase.events, s.objects)
    ensures PhaseAllows(spec, s.phase, s.objects, a) <==> EventStepMayFollow(spec, actions, a)
  {
    hide LastStep, IsConfirming, HasWaited, IsForgotten, CheckoutRetries, ConfirmRetries, TallyOf, IsDown,
      CommitWasHidden, TargetEvents, AllGenerated, InEvents, Pending;
  }

  lemma InEventsAgrees(spec: Spec, actions: seq<Action>, s: State)
    requires Inv(spec, s) && Reflects(actions, s) && Balanced(spec, TallyOf(actions), s) && s.phase.Events?
    ensures EventsCounted(spec, actions, s.phase.events, s.objects)
  {
    ObjectsFitOneByte(spec, s);
    hide LastStep, IsConfirming, HasWaited, IsForgotten, CheckoutRetries, ConfirmRetries, TallyOf, IsDown,
      CommitWasHidden, TargetEvents, MaxObjects, ObservationFits, NeedsObject;
  }

  lemma MachineAgrees(spec: Spec, actions: seq<Action>, s: State, a: Action)
    requires ValidSpec(spec) && Inv(spec, s) && Reflects(actions, s) && Balanced(spec, TallyOf(actions), s)
    ensures CanTake(spec, s, a) <==> MayFollow(spec, s.legacy, actions, a)
  {
    hide Inv, Balanced, ReflectsCheckout, ReflectsConfirm;
    if s.healthy {
      if a.KillApplication? {
        KillsAgree(spec, actions, s, a);
      } else if IsProviderStep(a) {
        ProviderStepsAgree(spec, actions, s, a);
      } else {
        EventStepsAgree(spec, actions, s, a);
      }
    }
  }

  /** After every accepted run, the actions the machine offers are those its history allows. */
  lemma EligibleIffMayFollow(spec: Spec, legacy: bool, actions: seq<Action>, a: Action)
    requires ValidSpec(spec) && Run(spec, Initial(legacy), actions).Some?
    ensures a in EligibleActions(spec, Run(spec, Initial(legacy), actions).value)
       <==> MayFollow(spec, legacy, actions, a)
  {
    hide *;
    var s := Run(spec, Initial(legacy), actions).value;
    InitialInv(spec, legacy);
    RunKeepsInv(spec, Initial(legacy), actions);
    RunReflects(spec, legacy, actions);
    RunBalances(spec, legacy, actions);
    MachineAgrees(spec, actions, s, a);
    EligibleIffCanTake(spec, s, a);
    InitialPolicy(legacy);
  }

  lemma InitialPolicy(legacy: bool)
    ensures Initial(legacy).legacy == legacy
  {
  }

  /** Each action may follow the ones before it. */
  predicate Admissible(spec: Spec, legacy: bool, actions: seq<Action>) {
    forall i :: 0 <= i < |actions| ==> MayFollow(spec, legacy, actions[..i], actions[i])
  }

  lemma {:induction false} RunsIffAdmissible(spec: Spec, legacy: bool, actions: seq<Action>)
    requires ValidSpec(spec)
    ensures Run(spec, Initial(legacy), actions).Some? <==> Admissible(spec, legacy, actions)
  {
    hide CanTake, Apply, Inv, MayFollow, EligibleActions;
    InitialInv(spec, legacy);
    if actions != [] {
      var n := |actions| - 1;
      RunsIffAdmissible(spec, legacy, actions[..n]);
      forall i | 0 <= i < n ensures actions[..n][..i] == actions[..i] {}
      if Run(spec, Initial(legacy), actions[..n]).Some? {
        var s := Run(spec, Initial(legacy), actions[..n]).value;
        RunKeepsInv(spec, Initial(legacy), actions[..n]);
        EligibleIffMayFollow(spec, legacy, actions[..n], actions[n]);
        EligibleIffCanTake(spec, s, actions[n]);
        if CanTake(spec, s, actions[n]) { EligibleApplies(spec, s, actions[n]); }
      }
    }
  }

  /** The schedules the workflow accepts, told without any state: admissible throughout, and checked at the end. */
  lemma FeasibleIffAdmissible(spec: Spec, legacy: bool, actions: seq<Action>)
    requires ValidSpec(spec)
    ensures Feasible(spec, legacy, actions)
       <==> Admissible(spec, legacy, actions) && actions != [] && Last(actions).CheckCheckpoint?
  {
    hide Run, Admissible, Reflects;
    RunsIffAdmissible(spec, legacy, actions);
    if Run(spec, Initial(legacy), actions).Some? {
      RunReflects(spec, legacy, actions);
      InitialInv(spec, legacy);
      RunKeepsInv(spec, Initial(legacy), actions);
      CompleteIsChecked(spec, actions, Run(spec, Initial(legacy), actions).value);
    }
  }

  lemma CompleteIsChecked(spec: Spec, actions: seq<Action>, s: State)
    requires Inv(spec, s) && Reflects(actions, s)
    ensures s.phase.Complete? <==> actions != [] && Last(actions).CheckCheckpoint?
  {
    hide IsConfirming, IsForgotten, CheckoutRetries, ConfirmRetries, HasWaited, CommitWasHidden;
  }
}
