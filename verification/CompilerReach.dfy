/**
 What the compiler (crates/tiv-core/src/plan.rs) can produce: exactly the complete schedules within
 the budget. No draw leads anywhere else, and for each of them there is a random stream.
 */
module CompilerReach {
  import opened Decision
  import opened Plan
  import opened PlanInvariant
  import opened PlanDistance
  import opened PlanCompiler
  import opened PlanLedger

  // ---------- every finite set of actions has a listing ----------

  ghost function Inserted(s: seq<Action>, x: Action): seq<Action> {
    if s == [] then [x]
    else if s[0] == x then s
    else if ActionLess(s[0], x) then [s[0]] + Inserted(s[1..], x)
    else [x] + s
  }

  lemma {:induction false} InsertedMembers(s: seq<Action>, x: Action)
    ensures forall a :: a in Inserted(s, x) <==> a == x || a in s
  {
    hide ActionLess;
    if s != [] {
      InsertedMembers(s[1..], x);
      assert s == [s[0]] + s[1..];
    }
  }

  lemma Trichotomy(a: Action, b: Action)
    ensures a == b || ActionLess(a, b) || ActionLess(b, a)
  {
    ActionOrder({a, b});
  }

  lemma Transitivity(a: Action, b: Action, c: Action)
    requires ActionLess(a, b) && ActionLess(b, c)
    ensures ActionLess(a, c)
  {
    ActionOrder({a, b, c});
  }

  lemma {:induction false} InsertedIncreases(s: seq<Action>, x: Action)
    requires StrictlyIncreasing(ActionLess, s)
    ensures StrictlyIncreasing(ActionLess, Inserted(s, x))
  {
    hide ActionLess;
    if s != [] && s[0] != x {
      Trichotomy(s[0], x);
      if ActionLess(s[0], x) {
        InsertedIncreases(s[1..], x);
        InsertedMembers(s[1..], x);
        PrependedIncreases(s[0], Inserted(s[1..], x));
      } else {
        forall a | a in s ensures ActionLess(x, a) {
          if a != s[0] { Transitivity(x, s[0], a); }
        }
        PrependedIncreases(x, s);
      }
    }
  }

  lemma PrependedIncreases(x: Action, s: seq<Action>)
    requires StrictlyIncreasing(ActionLess, s) && forall a :: a in s ==> ActionLess(x, a)
    ensures StrictlyIncreasing(ActionLess, [x] + s)
  {
    hide ActionLess;
  }

  ghost function Listing(items: seq<Action>): seq<Action> {
    if items == [] then [] else Inserted(Listing(items[1..]), items[0])
  }

  lemma {:induction false} ListingLists(items: seq<Action>)
    ensures IsListing(ActionLess, items, Listing(items))
    ensures forall a :: a in Listing(items) <==> a in items
  {
    hide ActionLess, Inserted;
    if items != [] {
      ListingLists(items[1..]);
      InsertedMembers(Listing(items[1..]), items[0]);
      InsertedIncreases(Listing(items[1..]), items[0]);
      assert items == [items[0]] + items[1..];
    }
  }

  // ---------- a stream for every schedule ----------

  /** The state a complete schedule is in after `i` actions. */
  ghost function StateAt(spec: Spec, legacy: bool, actions: seq<Action>, i: nat): State
    requires i <= |actions| && Run(spec, Initial(legacy), actions[..i]).Some?
  {
    Run(spec, Initial(legacy), actions[..i]).value
  }

  /** Each next action of a complete schedule within the budget is among the safe ones. */
  lemma NextIsSafe(spec: Spec, legacy: bool, actions: seq<Action>, i: nat)
    requires ValidSpec(spec) && Feasible(spec, legacy, actions) && |actions| <= spec.maxActions && i < |actions|
    ensures Run(spec, Initial(legacy), actions[..i]).Some?
    ensures actions[i] in SafeActions(spec, StateAt(spec, legacy, actions, i), spec.maxActions - i)
  {
    hide Step, Inv, Distance, EligibleActions, CanTake, Apply;
    var s0 := Initial(legacy);
    InitialInv(spec, legacy);
    RunPrefix(spec, s0, actions, i);
    RunKeepsInv(spec, s0, actions[..i + 1]);
    var s, t := Run(spec, s0, actions[..i]).value, Run(spec, s0, actions[..i + 1]).value;
    RunConcat(spec, s0, actions[..i + 1], actions[i + 1..]);
    assert actions[..i + 1] + actions[i + 1..] == actions;
    DistanceIsShortest(spec, t);
    assert Completes(spec, t, actions[i + 1..]);
    StepIsApply(spec, s, actions[i]);
    EligibleIffCanTake(spec, s, actions[i]);
  }

  lemma StepIsApply(spec: Spec, s: State, a: Action)
    requires Step(spec, s, a).Some?
    ensures CanTake(spec, s, a) && Apply(s, a) == Step(spec, s, a)
  {
  }

  ghost function ListingAt(spec: Spec, legacy: bool, actions: seq<Action>, i: nat): seq<Action>
    requires ValidSpec(spec) && Feasible(spec, legacy, actions) && i < |actions| <= spec.maxActions
  {
    NextIsSafe(spec, legacy, actions, i);
    Listing(SafeActions(spec, StateAt(spec, legacy, actions, i), spec.maxActions - i))
  }

  lemma NextIsListed(spec: Spec, legacy: bool, actions: seq<Action>, i: nat)
    requires ValidSpec(spec) && Feasible(spec, legacy, actions) && i < |actions| <= spec.maxActions
    ensures actions[i] in ListingAt(spec, legacy, actions, i)
  {
    hide Run, SafeActions, Feasible, Listing;
    NextIsSafe(spec, legacy, actions, i);
    ListingLists(SafeActions(spec, StateAt(spec, legacy, actions, i), spec.maxActions - i));
  }

  ghost function IndexIn(listing: seq<Action>, a: Action): (k: nat)
    requires a in listing
    ensures k < |listing| && listing[k] == a
  {
    var k :| 0 <= k < |listing| && listing[k] == a;
    k
  }

  /** Where the next action stands in its listing. */
  ghost function ChoiceAt(spec: Spec, legacy: bool, actions: seq<Action>, i: nat): nat
    requires ValidSpec(spec) && Feasible(spec, legacy, actions) && i < |actions| <= spec.maxActions
  {
    NextIsListed(spec, legacy, actions, i);
    IndexIn(ListingAt(spec, legacy, actions, i), actions[i])
  }

  ghost function StreamFor(spec: Spec, legacy: bool, actions: seq<Action>): (nat, nat) -> nat
    requires ValidSpec(spec) && Feasible(spec, legacy, actions) && |actions| <= spec.maxActions
  {
    var choices := seq(|actions|, i requires 0 <= i < |actions| => ChoiceAt(spec, legacy, actions, i));
    (position: nat, bound: nat) => if position < |choices| then choices[position] else 0
  }

  ghost function PlanFor(spec: Spec, legacy: bool, actions: seq<Action>): (r: PlannedCase)
    requires ValidSpec(spec) && Feasible(spec, legacy, actions) && |actions| <= spec.maxActions
    ensures Kinds(r.actions) == actions
  {
    PlannedCase(legacy, spec, |actions|, seq(|actions|, i requires 0 <= i < |actions| =>
      PlannedAction(i + 1, i + 1, if i == 0 then {} else {i}, i, |ListingAt(spec, legacy, actions, i)|, actions[i])))
  }

  lemma PlanIsDecided(spec: Spec, legacy: bool, actions: seq<Action>, i: nat)
    requires ValidSpec(spec) && Feasible(spec, legacy, actions) && i < |actions| <= spec.maxActions
    ensures var p := PlanFor(spec, legacy, actions).actions;
            DecidedAfter(spec, legacy, StreamFor(spec, legacy, actions), p[..i], p[i])
  {
    PlannedAt(spec, legacy, actions, i);
    hide Run, Feasible, Decided, StreamFor, ListingAt, PlanFor, Kinds, Numbered;
    ChoiceIsDecided(spec, legacy, actions, i, PlanFor(spec, legacy, actions).actions[i]);
  }

  lemma PlannedAt(spec: Spec, legacy: bool, actions: seq<Action>, i: nat)
    requires ValidSpec(spec) && Feasible(spec, legacy, actions) && i < |actions| <= spec.maxActions
    ensures var p := PlanFor(spec, legacy, actions).actions;
            && |p| == |actions| && Kinds(p[..i]) == actions[..i] && Numbered(p[i], i)
            && p[i].decisionNumber == i && p[i].kind == actions[i]
            && p[i].eligibleCount == |ListingAt(spec, legacy, actions, i)|
  {
    hide Feasible, ListingAt;
    KindsPrefix(PlanFor(spec, legacy, actions).actions, i);
  }

  lemma ChoiceIsDecided(spec: Spec, legacy: bool, actions: seq<Action>, i: nat, p: PlannedAction)
    requires ValidSpec(spec) && Feasible(spec, legacy, actions) && i < |actions| <= spec.maxActions
    requires p.decisionNumber == i && p.kind == actions[i]
    requires p.eligibleCount == |ListingAt(spec, legacy, actions, i)|
    ensures Run(spec, Initial(legacy), actions[..i]).Some?
    ensures Decided(spec, StateAt(spec, legacy, actions, i), spec.maxActions - i, StreamFor(spec, legacy, actions), p)
  {
    hide Run, SafeActions, Feasible, Listing, ActionLess, StateAt, IsListing, ChoiceAt;
    NextIsSafe(spec, legacy, actions, i);
    ListingLists(SafeActions(spec, StateAt(spec, legacy, actions, i), spec.maxActions - i));
    StreamChooses(spec, legacy, actions, i);
  }

  lemma StreamChooses(spec: Spec, legacy: bool, actions: seq<Action>, i: nat)
    requires ValidSpec(spec) && Feasible(spec, legacy, actions) && i < |actions| <= spec.maxActions
    ensures var listing := ListingAt(spec, legacy, actions, i);
            listing != [] && listing[StreamFor(spec, legacy, actions)(i, |listing|) % |listing|] == actions[i]
  {
    hide Run, Feasible, ListingAt;
    NextIsListed(spec, legacy, actions, i);
    var listing, k := ListingAt(spec, legacy, actions, i), ChoiceAt(spec, legacy, actions, i);
    assert StreamFor(spec, legacy, actions)(i, |listing|) == k < |listing|;
    SmallRemainder(k, |listing|);
  }

  lemma SmallRemainder(k: nat, n: nat)
    requires k < n
    ensures k % n == k
  {
  }

  /** Every complete schedule within the budget is what some random stream compiles to. */
  lemma EveryScheduleIsCompiled(spec: Spec, legacy: bool, actions: seq<Action>)
    requires ValidSpec(spec) && Feasible(spec, legacy, actions) && |actions| <= spec.maxActions
    ensures WellPlanned(PlanFor(spec, legacy, actions), spec, legacy, StreamFor(spec, legacy, actions))
  {
    hide DecidedAfter, Feasible;
    forall i | 0 <= i < |actions|
      ensures var p := PlanFor(spec, legacy, actions).actions;
              DecidedAfter(spec, legacy, StreamFor(spec, legacy, actions), p[..i], p[i])
    {
      PlanIsDecided(spec, legacy, actions, i);
    }
  }

  ghost predicate IsCompiled(spec: Spec, legacy: bool, planned: PlannedCase) {
    exists draw :: WellPlanned(planned, spec, legacy, draw)
  }

  /** The compiler's schedules are exactly the complete ones within the budget. */
  lemma CompilesExactlyTheFeasible(spec: Spec, legacy: bool, actions: seq<Action>)
    requires ValidSpec(spec)
    ensures (exists planned :: IsCompiled(spec, legacy, planned) && Kinds(planned.actions) == actions)
       <==> Feasible(spec, legacy, actions) && |actions| <= spec.maxActions
  {
    hide Feasible, DecidedFrom;
    if Feasible(spec, legacy, actions) && |actions| <= spec.maxActions {
      EveryScheduleIsCompiled(spec, legacy, actions);
      assert IsCompiled(spec, legacy, PlanFor(spec, legacy, actions));
    }
  }
}
