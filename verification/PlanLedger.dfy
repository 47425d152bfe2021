/** Conservation: what a run did, counted over its actions, always balances against its state. */
module PlanLedger {
  import opened Plan
  import opened PlanInvariant

  datatype Tally = Tally(
    committed: nat,   // provider objects created by checkout and business retries
    generated: nat,
    delivered: nat,
    dropped: nat,
    duplicated: nat,
    delayed: nat,
    reordered: nat,
    kills: nat,
    restarts: nat,
    held: nat,        // scripts ending in commit-then-delay
    released: nat)

  const NOTHING := Tally(0, 0, 0, 0, 0, 0, 0, 0, 0, 0, 0)

  function HeldBy(script: Script): nat {
    if script.Terminal() == CommitThenDelay then 1 else 0
  }

  function Record(t: Tally, a: Action): Tally {
    match a
    case DriveCheckout(script) =>
      t.(committed := t.committed + script.CommittedCount(), held := t.held + HeldBy(script))
    case RetryBusinessRequest(script) =>
      t.(committed := t.committed + script.CommittedCount(), held := t.held + HeldBy(script))
    case ConfirmPaymentIntent(script) => t.(held := t.held + HeldBy(script))
    case RetryProviderRequest(script) => t.(held := t.held + HeldBy(script))
    case ReleaseProviderGate => t.(released := t.released + 1)
    case GenerateProviderEvent => t.(generated := t.generated + 1)
    case DeliverWebhook => t.(delivered := t.delivered + 1)
    case DropWebhook => t.(dropped := t.dropped + 1)
    case DuplicateWebhook => t.(duplicated := t.duplicated + 1)
    case DelayWebhook(_) => t.(delayed := t.delayed + 1)
    case ReorderWebhooks => t.(reordered := t.reordered + 1)
    case KillApplication(_) => t.(kills := t.kills + 1)
    case RestartAndAwaitHealth => t.(restarts := t.restarts + 1)
    case _ => t
  }

  function TallyOf(actions: seq<Action>): Tally {
    if actions == [] then NOTHING
    else Record(TallyOf(actions[..|actions| - 1]), actions[|actions| - 1])
  }

  predicate EventsBalance(t: Tally, e: EventState) {
    && t.generated == e.generated
    && t.delivered == e.delivered
    && t.delivered + t.dropped + e.pending == t.generated
    && t.duplicated == e.duplicates
    && t.delayed == (if e.delayUsed then 1 else 0)
    && t.reordered == (if e.reorderUsed then 1 else 0)
  }

  predicate EventsSettled(spec: Spec, t: Tally, objects: nat) {
    && t.generated == objects * spec.EventsPerProvider()
    && t.delivered + t.dropped == t.generated
    && t.duplicated <= spec.duplicateMax && t.delayed <= 1 && t.reordered <= 1
  }

  predicate NoEvents(t: Tally) {
    t.generated == t.delivered == t.dropped == t.duplicated == t.delayed == t.reordered == 0
  }

  predicate GateHeld(phase: Phase) {
    phase.CheckoutResponseHeld? || phase.ConfirmResponseHeld?
  }

  /** The books of a run that is now in state `s`. */
  predicate Balanced(spec: Spec, t: Tally, s: State) {
    && t.committed == s.objects
    && t.kills == s.kills
    && t.restarts + (if s.healthy then 0 else 1) == t.kills
    && t.released + (if GateHeld(s.phase) then 1 else 0) == t.held
    && (match s.phase
        case Events(e) => EventsBalance(t, e)
        case Quiesced => EventsSettled(spec, t, s.objects)
        case Complete => EventsSettled(spec, t, s.objects)
        case _ => NoEvents(t))
  }

  lemma KillBalances(spec: Spec, t: Tally, s: State, a: Action)
    requires Inv(spec, s) && Balanced(spec, t, s) && (KillAllowed(spec, s, a) || a.RestartAndAwaitHealth?)
    requires CanTake(spec, s, a) && Apply(s, a).Some?
    ensures Balanced(spec, Record(t, a), Apply(s, a).value)
  {
  }

  lemma CheckoutBalances(spec: Spec, t: Tally, s: State, a: Action)
    requires Inv(spec, s) && Balanced(spec, t, s) && s.healthy && Apply(s, a).Some?
    requires s.phase.Start? || s.phase.CheckoutRetryable? || s.phase.CheckoutResponseHeld?
    requires PhaseAllows(spec, s.phase, s.objects, a)
    ensures Balanced(spec, Record(t, a), Apply(s, a).value)
  {
  }

  lemma ConfirmBalances(spec: Spec, t: Tally, s: State, a: Action)
    requires Inv(spec, s) && Balanced(spec, t, s) && s.healthy && Apply(s, a).Some?
    requires s.phase.PaymentIntentKnown? || s.phase.ConfirmRetryable? || s.phase.ConfirmResponseHeld?
             || s.phase.Confirmed?
    requires PhaseAllows(spec, s.phase, s.objects, a)
    ensures Balanced(spec, Record(t, a), Apply(s, a).value)
  {
  }

  /** Webhook actions keep the event books, whatever the target is. */
  lemma EventActionBalances(spec: Spec, t: Tally, e: EventState, objects: nat, a: Action)
    requires EventsBalance(t, e) && EventAllowed(spec, e, objects, a) && !a.WaitForQuiescence?
    ensures ApplyEvent(Events(e), a).Some? && ApplyEvent(Events(e), a).value.Events?
    ensures EventsBalance(Record(t, a), ApplyEvent(Events(e), a).value.events)
  {
    hide TargetEvents;
  }

  lemma EventActionTouchesNothingElse(t: Tally, s: State, a: Action)
    requires s.phase.Events? && s.healthy && Apply(s, a).Some? && !a.KillApplication? && !a.WaitForQuiescence?
    ensures ApplyEvent(s.phase, a).Some?
    ensures var u := Apply(s, a).value;
            u.phase == ApplyEvent(s.phase, a).value && u.objects == s.objects && u.kills == s.kills && u.healthy
    ensures var r := Record(t, a);
            && r.committed == t.committed && r.kills == t.kills && r.restarts == t.restarts
            && r.released == t.released && r.held == t.held
  {
  }

  /** Quiescence comes when every event of every object has been delivered or dropped. */
  lemma QuiescenceSettles(spec: Spec, t: Tally, s: State, a: Action)
    requires Inv(spec, s) && Balanced(spec, t, s) && s.healthy && s.phase.Events? && a.WaitForQuiescence?
    requires EventAllowed(spec, s.phase.events, s.objects, a)
    ensures Apply(s, a).Some? && Balanced(spec, Record(t, a), Apply(s, a).value)
  {
    ObjectsFitOneByte(spec, s);
    hide TargetEvents;
  }

  lemma CheckpointKeepsBooks(spec: Spec, t: Tally, s: State, a: Action)
    requires Balanced(spec, t, s) && s.healthy && s.phase.Quiesced? && a.CheckCheckpoint?
    ensures Apply(s, a).Some? && Balanced(spec, Record(t, a), Apply(s, a).value)
  {
    hide EventsSettled;
  }

  lemma EventsBalanceKept(spec: Spec, t: Tally, s: State, a: Action)
    requires Inv(spec, s) && Balanced(spec, t, s) && s.healthy && Apply(s, a).Some?
    requires s.phase.Events? || s.phase.Quiesced?
    requires PhaseAllows(spec, s.phase, s.objects, a)
    ensures Balanced(spec, Record(t, a), Apply(s, a).value)
  {
    if s.phase.Quiesced? {
      CheckpointKeepsBooks(spec, t, s, a);
    } else if a.WaitForQuiescence? {
      QuiescenceSettles(spec, t, s, a);
    } else {
      EventActionBalances(spec, t, s.phase.events, s.objects, a);
      EventActionTouchesNothingElse(t, s, a);
      hide Record, Apply, ApplyEvent, EventsBalance, EventAllowed, Inv;
    }
  }

  lemma StepBalances(spec: Spec, t: Tally, s: State, a: Action)
    requires ValidSpec(spec) && Inv(spec, s) && Balanced(spec, t, s)
    requires CanTake(spec, s, a) && Apply(s, a).Some?
    ensures Balanced(spec, Record(t, a), Apply(s, a).value)
  {
    if !s.healthy || KillAllowed(spec, s, a) {
      KillBalances(spec, t, s, a);
    } else if s.phase.Start? || s.phase.CheckoutRetryable? || s.phase.CheckoutResponseHeld? {
      CheckoutBalances(spec, t, s, a);
    } else if s.phase.Events? || s.phase.Quiesced? {
      EventsBalanceKept(spec, t, s, a);
    } else {
      ConfirmBalances(spec, t, s, a);
    }
  }

  /** The books balance after every accepted run, complete or not. */
  lemma {:induction false} RunBalances(spec: Spec, legacy: bool, actions: seq<Action>)
    requires ValidSpec(spec) && Run(spec, Initial(legacy), actions).Some?
    ensures Balanced(spec, TallyOf(actions), Run(spec, Initial(legacy), actions).value)
  {
    hide CanTake, Apply, Balanced, Inv;
    InitialInv(spec, legacy);
    if actions == [] {
      EmptyBalances(spec, legacy);
    } else {
      var before := actions[..|actions| - 1];
      RunBalances(spec, legacy, before);
      RunKeepsInv(spec, Initial(legacy), before);
      StepBalances(spec, TallyOf(before), Run(spec, Initial(legacy), before).value, actions[|actions| - 1]);
    }
  }

  lemma EmptyBalances(spec: Spec, legacy: bool)
    ensures Balanced(spec, NOTHING, Initial(legacy))
  {
  }

  /** Conservation over every complete accepted run. */
  lemma CompleteRunConserves(spec: Spec, legacy: bool, actions: seq<Action>)
    requires ValidSpec(spec) && Feasible(spec, legacy, actions)
    ensures var t := TallyOf(actions);
            && t.generated == t.committed * spec.EventsPerProvider()
            && t.delivered + t.dropped == t.generated
            && 1 <= t.committed <= 12 && t.generated <= 24
            && t.kills == t.restarts <= spec.maxKills
            && t.released == t.held
            && t.duplicated <= spec.duplicateMax && t.delayed <= 1 && t.reordered <= 1
  {
    hide CanTake, Apply, Run;
    var s := Run(spec, Initial(legacy), actions).value;
    RunBalances(spec, legacy, actions);
    InitialInv(spec, legacy);
    RunKeepsInv(spec, Initial(legacy), actions);
    ObjectsFitOneByte(spec, s);
  }

  // ---------- kills are answered at once ----------

  lemma {:induction false} RunPrefix(spec: Spec, s: State, actions: seq<Action>, n: nat)
    requires n <= |actions| && Run(spec, s, actions).Some?
    ensures Run(spec, s, actions[..n]).Some?
    ensures n < |actions| ==>
      Run(spec, s, actions[..n + 1]) == Step(spec, Run(spec, s, actions[..n]).value, actions[n])
      && Run(spec, s, actions[..n + 1]).Some?
  {
    hide Step;
    if n == |actions| {
      assert actions[..n] == actions;
    } else {
      var last := |actions| - 1;
      assert actions[..last][..n] == actions[..n];
      RunPrefix(spec, s, actions[..last], n);
      assert actions[..n + 1][..n] == actions[..n];
      if n == last {
        assert actions[..n + 1] == actions;
      } else {
        assert actions[..last][..n + 1] == actions[..n + 1];
      }
    }
  }

  lemma KillStops(spec: Spec, s: State, a: Action)
    requires Step(spec, s, a).Some?
    ensures a.KillApplication? <==> s.healthy && !Step(spec, s, a).value.healthy
    ensures a.RestartAndAwaitHealth? <==> !s.healthy
    ensures a.RestartAndAwaitHealth? ==> Step(spec, s, a).value.healthy
  {
  }

  /** In every complete accepted run a kill is immediately followed by its restart, and every restart follows a kill. */
  lemma KillsAreRestarted(spec: Spec, legacy: bool, actions: seq<Action>, i: nat)
    requires ValidSpec(spec) && Feasible(spec, legacy, actions) && i < |actions|
    ensures actions[i].KillApplication? ==> i + 1 < |actions| && actions[i + 1].RestartAndAwaitHealth?
    ensures actions[i].RestartAndAwaitHealth? ==> i > 0 && actions[i - 1].KillApplication?
  {
    hide Step, Apply, CanTake;
    var s0 := Initial(legacy);
    RunPrefix(spec, s0, actions, i);
    KillStops(spec, Run(spec, s0, actions[..i]).value, actions[i]);
    if i + 1 < |actions| {
      RunPrefix(spec, s0, actions, i + 1);
      KillStops(spec, Run(spec, s0, actions[..i + 1]).value, actions[i + 1]);
    } else {
      assert actions[..i + 1] == actions;
      InitialInv(spec, legacy);
      RunKeepsInv(spec, s0, actions);
    }
    if i > 0 {
      RunPrefix(spec, s0, actions, i - 1);
      KillStops(spec, Run(spec, s0, actions[..i - 1]).value, actions[i - 1]);
    } else {
      assert actions[..0] == [];
    }
  }
}
