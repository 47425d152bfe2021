/**
 The two entrances of the executor (crates/tiv-runtime/src/campaign.rs): a compiled case, which is
 recompiled first, and a shrink candidate, which is revalidated first. Either way nothing but the
 outside world can make the execution fail.
 */
module CaseExecution {
  import opened Wrappers
  import opened Plan
  import opened PlanCompiler
  import opened ShrinkOrder
  import opened Campaign
  import opened Shrink
  import opened Generator

  /** A case that passes the recompilation check runs; anything else is refused before the journal exists. */
  method ExecutePlannedCase(
    recompiles: PlannedCase -> bool, planned: PlannedCase, journal: Journal, adapter: EffectAdapter, synced: bool)
    returns (result: Result<CaseTrace, CaseFailure>)
    requires forall p :: recompiles(p) ==> ValidSource(p)
    requires journal.records == [] && adapter.calls == []
    modifies journal, adapter
    ensures result == Err(InvalidPlan) <==> !recompiles(planned)
    ensures result == Err(InvalidPlan) ==> journal.records == [] && adapter.calls == []
    ensures JournalFirst(planned.actions, journal, adapter)
    ensures result.Ok? ==> synced && Completed(planned.actions, result.value, journal, adapter)
    ensures result.Err? && recompiles(planned) ==>
      OutsideFailed(planned.actions, result.error, journal, adapter, synced)
  {
    if !recompiles(planned) {
      return Err(InvalidPlan);
    }
    SourceIsExecutable(planned);
    hide *;
    result := ExecuteCaseActions(planned.actions, planned.spec, planned.legacy, journal, adapter, synced);
  }

  lemma SourceIsExecutable(planned: PlannedCase)
    requires ValidSource(planned)
    ensures Executable(planned.spec, planned.legacy, planned.actions)
  {
  }

  /** The same for a candidate: one that revalidates runs like a compiled case. */
  method ExecuteShrinkCandidate(
    recompiles: PlannedCase -> bool, c: Candidate, journal: Journal, adapter: EffectAdapter, synced: bool)
    returns (result: Result<CaseTrace, CaseFailure>)
    requires forall p :: recompiles(p) ==> ValidSource(p)
    requires journal.records == [] && adapter.calls == []
    modifies journal, adapter
    ensures result == Err(InvalidPlan) <==> Revalidate(recompiles, c).Err?
    ensures result == Err(InvalidPlan) ==> journal.records == [] && adapter.calls == []
    ensures JournalFirst(c.actions, journal, adapter)
    ensures result.Ok? ==> synced && Completed(c.actions, result.value, journal, adapter)
    ensures result.Err? && Revalidate(recompiles, c).Ok? ==>
      OutsideFailed(c.actions, result.error, journal, adapter, synced)
  {
    var valid := RevalidateCandidate(recompiles, c);
    if valid.Err? {
      return Err(InvalidPlan);
    }
    RevalidatedIsExecutable(recompiles, c);
    hide *;
    result := ExecuteCaseActions(c.actions, c.source.spec, c.source.legacy, journal, adapter, synced);
  }

  lemma RevalidatedIsExecutable(recompiles: PlannedCase -> bool, c: Candidate)
    requires forall p :: recompiles(p) ==> ValidSource(p)
    requires Revalidate(recompiles, c).Ok?
    ensures Executable(c.source.spec, c.source.legacy, c.actions)
  {
    hide MaterializeSchedule, Executable, ValidSource;
    CandidatesAreExecutable(c);
  }

  /** A checked candidate is itself an executable plan: feasible, numbered from one, within the cap. */
  lemma CandidatesAreExecutable(c: Candidate)
    requires ValidSource(c.source) && MaterializeSchedule(c.source, c.schedule) == Ok(c)
    ensures Executable(c.source.spec, c.source.legacy, c.actions)
  {
    hide Descends, CutPointsSupported, Less, ComplexityOf, Feasible, EligibleActions;
    assert Kinds(c.actions) == KindsOf(c.schedule);
  }
}
