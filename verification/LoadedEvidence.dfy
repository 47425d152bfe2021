/**
 What a minimised trace is worth once the loader (crates/tiv-runtime/src/configured_minimized_replay.rs)
 has accepted it: facts about the stored files, told without the loader's own checks.
 */
module LoadedEvidence {
  import opened Wrappers
  import opened Sequences
  import opened Shrink
  import opened PlanCompiler
  import opened Generator
  import opened Search
  import opened ShrinkSummary
  import opened SummaryReader

  /** Five outcomes, each named once, with witnesses exactly where violated. */
  ghost predicate OutcomeFacts(outcomes: seq<InvariantOutcome>) {
    && |outcomes| == 5
    && (forall i, j :: 0 <= i < 5 && 0 <= j < 5 && outcomes[i].identity == outcomes[j].identity ==> i == j)
    && (forall i :: 0 <= i < 5 ==> (outcomes[i].witnesses == 0 <==> !outcomes[i].violated))
  }

  /** The expected violation if it is there, else the least one there is, else none. */
  ghost predicate VerdictFacts(
    outcomes: seq<InvariantOutcome>, expected: FailureIdentity, verdict: AttemptVerdict,
    failure: Option<FailureIdentity>)
  {
    match verdict
    case HeldVerdict => failure == None && forall o :: o in outcomes ==> !o.violated
    case ExpectedViolation => failure == Some(expected) && IsViolated(outcomes, expected)
    case OtherViolation =>
      failure.Some? && !IsViolated(outcomes, expected) && IsLeastViolated(outcomes, failure.value)
  }

  ghost predicate IsLeastViolated(outcomes: seq<InvariantOutcome>, identity: FailureIdentity) {
    && IsViolated(outcomes, identity)
    && forall other :: IsViolated(outcomes, other) ==> other == identity || Before(identity, other)
  }

  /** An attempt on a database of its own, journalled, with a verdict that follows from its outcomes. */
  ghost predicate AttemptFacts(d: AttemptDocument, number: nat, actionCount: nat, expected: FailureIdentity) {
    && d.attempt == number && d.executedActions == actionCount && d.traceMatchesAuthority
    && 0 !in {d.beforeOid, d.afterOid, d.journalRecords}
    && d.beforeOid != d.afterOid && d.beforeMarker != d.afterMarker && d.journalHash != None
    && OutcomeFacts(d.invariants) && VerdictFacts(d.invariants, expected, d.verdict, d.failure)
  }

  lemma LeastIsUnique(outcomes: seq<InvariantOutcome>, a: FailureIdentity, b: FailureIdentity)
    requires IsLeastViolated(outcomes, a) && IsLeastViolated(outcomes, b)
    ensures a == b
  {
    hide IsViolated;
  }

  lemma VerdictMeans(
    outcomes: seq<InvariantOutcome>, expected: FailureIdentity, verdict: AttemptVerdict,
    failure: Option<FailureIdentity>)
    ensures var result := AttemptResultOf(expected, outcomes);
            (verdict == VerdictOf(expected, result) && failure == FailureOf(result))
            <==> VerdictFacts(outcomes, expected, verdict, failure)
  {
    var result := AttemptResultOf(expected, outcomes);
    ResultMeans(expected, outcomes);
    hide AttemptResultOf;
    match result
    case Held => assert forall i :: !IsViolated(outcomes, i);
    case Violation(identity) =>
      if identity != expected {
        assert IsLeastViolated(outcomes, identity);
        if failure.Some? && IsLeastViolated(outcomes, failure.value) {
          LeastIsUnique(outcomes, identity, failure.value);
        }
      }
      hide IsLeastViolated;
  }

  lemma OutcomesMean(outcomes: seq<InvariantOutcome>)
    ensures |outcomes| == INVARIANT_COUNT && InvariantsCoherent(outcomes) <==> OutcomeFacts(outcomes)
  {
  }

  lemma CoherentMeans(d: AttemptDocument, number: nat, actionCount: nat, expected: FailureIdentity)
    ensures AttemptCoherent(d, number, actionCount, expected) <==> AttemptFacts(d, number, actionCount, expected)
  {
    VerdictMeans(d.invariants, expected, d.verdict, d.failure);
    OutcomesMean(d.invariants);
    hide AttemptResultOf, VerdictFacts, OutcomeFacts, InvariantsCoherent, VerdictOf, FailureOf;
  }

  /** Three stored attempts on three databases, each with this many actions and coherent on its own. */
  ghost predicate ThreeAttempts(documents: seq<AttemptDocument>, actionCount: nat, expected: FailureIdentity) {
    && |documents| == 3
    && (forall i :: 0 <= i < 3 ==> AttemptFacts(documents[i], i + 1, actionCount, expected))
    && (forall i, j :: 0 <= i < j < 3 ==>
          documents[i].afterOid != documents[j].afterOid && documents[i].afterMarker != documents[j].afterMarker)
  }

  ghost function Violating(documents: seq<AttemptDocument>, expected: FailureIdentity): set<nat> {
    set i | 0 <= i < |documents| && IsViolated(documents[i].invariants, expected)
  }

  /** How many of the attempts violate the expected invariant. */
  ghost function Reproductions(documents: seq<AttemptDocument>, expected: FailureIdentity): nat {
    |Violating(documents, expected)|
  }

  /** The stored candidate is the one named, and checked again from its own source. */
  ghost predicate HeaderFacts(
    recompiles: PlannedCase -> bool, files: CandidateFiles, document: EvaluationDocument)
  {
    var c := files.candidate;
    && c.source == document.candidateId.source && c.schedule == document.candidateId.schedule
    && recompiles(c.source) && MaterializeSchedule(c.source, c.schedule) == Ok(c)
    && files.evaluation == document && document.actionCount == |c.actions|
    && document.complexity == CandidateComplexity(c)
  }

  /** Every stored attempt is the one listed, ran this candidate, and repeated the first one's trace. */
  ghost predicate TraceFacts(files: CandidateFiles, document: EvaluationDocument) {
    && |files.attempts| >= 3 && |document.attempts| == 3
    && forall i :: 0 <= i < 3 ==>
         && files.attempts[i].document == document.attempts[i]
         && files.attempts[i].trace.candidate == files.candidate
         && files.attempts[i].trace.durable == files.attempts[0].trace.durable
  }

  /** One evaluated candidate of a readable artifact. */
  ghost predicate CandidateFacts(
    recompiles: PlannedCase -> bool, artifact: Artifact, document: EvaluationDocument)
  {
    var expected := artifact.source.header.expected;
    && document.candidateId in artifact.candidateFiles
    && var files := artifact.candidateFiles[document.candidateId];
       && HeaderFacts(recompiles, files, document) && TraceFacts(files, document)
       && ThreeAttempts(document.attempts, |files.candidate.actions|, expected)
       && document.matching == Reproductions(document.attempts, expected)
       && (document.accepted <==> document.matching >= 2)
  }

  lemma ViolatingGrows(expected: FailureIdentity, before: seq<AttemptDocument>, d: AttemptDocument)
    ensures |before| !in Violating(before, expected)
    ensures Violating(before + [d], expected)
         == Violating(before, expected) + (if IsViolated(d.invariants, expected) then {|before|} else {})
  {
    hide IsViolated;
  }

  lemma NothingCounts(expected: FailureIdentity)
    ensures MatchingFailureCount(Results(expected, []), expected) == 0 && Violating([], expected) == {}
  {
  }

  lemma {:induction false} ResultsCount(expected: FailureIdentity, documents: seq<AttemptDocument>)
    ensures MatchingFailureCount(Results(expected, documents), expected) == Reproductions(documents, expected)
  {
    hide AttemptResultOf, IsViolated, MatchingFailureCount, Results, Violating;
    if documents == [] {
      NothingCounts(expected);
    } else {
      var n := |documents| - 1;
      var before, last := documents[..n], documents[n];
      assert documents == before + [last];
      ResultsCount(expected, before);
      ResultMeans(expected, last.invariants);
      ResultsGrow(expected, before, last);
      ViolatingGrows(expected, before, last);
    }
  }

  lemma ResultsGrow(expected: FailureIdentity, before: seq<AttemptDocument>, d: AttemptDocument)
    ensures MatchingFailureCount(Results(expected, before + [d]), expected)
         == MatchingFailureCount(Results(expected, before), expected)
            + if AttemptResultOf(expected, d.invariants) == Violation(expected) then 1 else 0
  {
    hide AttemptResultOf;
    var result := AttemptResultOf(expected, d.invariants);
    assert Results(expected, before + [d]) == Results(expected, before) + [result];
    FilterConcat((r: AttemptResult) => r == Violation(expected), Results(expected, before), [result]);
    assert [result][1..] == [];
  }

  lemma AttemptsMean(
    documents: seq<AttemptDocument>, actionCount: nat, expected: FailureIdentity)
    requires HasDistinctFreshBaselines(documents)
    requires forall i :: 0 <= i < ATTEMPT_COUNT ==> AttemptCoherent(documents[i], i + 1, actionCount, expected)
    ensures ThreeAttempts(documents, actionCount, expected)
  {
    DistinctBaselines(documents);
    hide AttemptCoherent, AttemptFacts;
    forall i | 0 <= i < 3 ensures AttemptFacts(documents[i], i + 1, actionCount, expected) {
      CoherentMeans(documents[i], i + 1, actionCount, expected);
    }
  }

  lemma HeaderMeans(recompiles: PlannedCase -> bool, files: CandidateFiles, document: EvaluationDocument)
    requires CandidateHeaderCoherent(recompiles, files, document)
    ensures HeaderFacts(recompiles, files, document)
  {
    hide MaterializeSchedule, CandidateComplexity, HasDistinctFreshBaselines;
  }

  lemma TracesMean(
    recompiles: PlannedCase -> bool, files: CandidateFiles, document: EvaluationDocument, expected: FailureIdentity,
    selected: Option<ShrinkTrace>)
    requires |files.attempts| >= ATTEMPT_COUNT && |document.attempts| == ATTEMPT_COUNT
    requires forall i :: 0 <= i < ATTEMPT_COUNT ==>
      StoredAttemptCoherent(recompiles, files, document, expected, selected, i)
    ensures TraceFacts(files, document)
    ensures forall i :: 0 <= i < ATTEMPT_COUNT ==>
      AttemptCoherent(document.attempts[i], i + 1, |files.candidate.actions|, expected)
    ensures selected.Some? ==> forall i :: 0 <= i < 3 ==> files.attempts[i].trace.durable == selected.value.durable
  {
    hide AttemptCoherent, Revalidate;
    forall i | 0 <= i < ATTEMPT_COUNT
      ensures AttemptCoherent(document.attempts[i], i + 1, |files.candidate.actions|, expected)
      ensures files.attempts[i].document == document.attempts[i]
      ensures files.attempts[i].trace.candidate == files.candidate
      ensures files.attempts[i].trace.durable == files.attempts[0].trace.durable
      ensures selected.Some? ==> files.attempts[i].trace.durable == selected.value.durable
    {
      assert StoredAttemptCoherent(recompiles, files, document, expected, selected, i);
    }
  }

  lemma EvidenceMeans(
    recompiles: PlannedCase -> bool, artifact: Artifact, document: EvaluationDocument, selected: Option<ShrinkTrace>)
    requires document.candidateId in artifact.candidateFiles
    requires CandidateCoherent(recompiles, artifact.candidateFiles[document.candidateId], document,
                               artifact.source.header.expected, selected)
    ensures CandidateFacts(recompiles, artifact, document)
    ensures var files := artifact.candidateFiles[document.candidateId];
            |files.attempts| >= 3
            && (selected.Some? ==>
                  forall i :: 0 <= i < 3 ==> files.attempts[i].trace.durable == selected.value.durable)
  {
    var files, expected := artifact.candidateFiles[document.candidateId], artifact.source.header.expected;
    assert |document.attempts| == ATTEMPT_COUNT && HasDistinctFreshBaselines(document.attempts);
    HeaderMeans(recompiles, files, document);
    hide StoredAttemptCoherent, CandidateHeaderCoherent, HeaderFacts, HasDistinctFreshBaselines, AttemptCoherent,
      AttemptFacts, MatchingFailureCount, Results, TraceFacts;
    TracesMean(recompiles, files, document, expected, selected);
    AttemptsMean(document.attempts, |files.candidate.actions|, expected);
    ResultsCount(expected, document.attempts);
  }

  /** The summary's numbers, its originals and its result, read off the rest of the artifact. */
  ghost predicate SummaryFacts(artifact: Artifact, trace: ShrinkTrace) {
    var summary, header := artifact.summary, artifact.source.header;
    && artifact.source.originalTraceRetained && summary.header == header && summary.shrinkId == artifact.runId
    && artifact.result == ResultOf(summary.completion) && !summary.completion.SourceInconclusive?
    && 0 < summary.candidateLimit < 61 && 0 < summary.maxTime < 600_001
    && summary.originalAttemptCount == 3
    && ThreeAttempts(summary.originalAttempts, |artifact.original.planned.actions|, header.expected)
    && |artifact.originalFiles| >= 3
    && (forall i :: 0 <= i < 3 ==>
          && artifact.originalFiles[i].document == summary.originalAttempts[i]
          && artifact.originalFiles[i].trace.planned == artifact.original.planned
          && artifact.originalFiles[i].trace.durable == artifact.original.durable)
    && summary.originalMatching == Reproductions(summary.originalAttempts, header.expected) >= 2
    && summary.evaluatedCandidates == |summary.candidates| <= summary.candidateLimit
    && summary.acceptedCandidates == |Filter((d: EvaluationDocument) => d.accepted, summary.candidates)| > 0
    && summary.originalActionCount == |artifact.original.planned.actions|
    && summary.bestActionCount == |trace.candidate.actions| <= summary.originalActionCount
    && summary.minimizedTraceWritten && trace.candidate.source == artifact.original.planned
  }

  /** The candidate the trace belongs to: accepted, reproduced at least twice, always with this very trace. */
  ghost predicate Reproduced(artifact: Artifact, trace: ShrinkTrace, document: EvaluationDocument) {
    && document.candidateId == IdentityOf(trace.candidate)
    && document.accepted && Reproductions(document.attempts, artifact.source.header.expected) >= 2
    && document.candidateId in artifact.candidateFiles
    && var files := artifact.candidateFiles[document.candidateId];
       && files.candidate == trace.candidate && |files.attempts| >= 3
       && forall i :: 0 <= i < 3 ==> files.attempts[i].trace.durable == trace.durable
  }

  lemma NumbersMean(artifact: Artifact, trace: ShrinkTrace)
    requires NumbersCoherent(artifact, trace) && OriginalAttemptsCoherent(artifact)
    requires artifact.summary.originalMatching == MatchingFailureCount(
               Results(artifact.source.header.expected, artifact.summary.originalAttempts),
               artifact.source.header.expected)
    ensures SummaryFacts(artifact, trace)
  {
    hide HasDistinctFreshBaselines, AttemptCoherent, AttemptFacts, MatchingFailureCount, Results;
    var attempts := artifact.summary.originalAttempts;
    var actionCount, expected := |artifact.original.planned.actions|, artifact.source.header.expected;
    forall i | 0 <= i < ATTEMPT_COUNT
      ensures AttemptCoherent(attempts[i], i + 1, actionCount, expected)
      ensures artifact.originalFiles[i].document == attempts[i]
      ensures artifact.originalFiles[i].trace.planned == artifact.original.planned
      ensures artifact.originalFiles[i].trace.durable == artifact.original.durable
    {
      assert StoredOriginalCoherent(artifact, i);
    }
    AttemptsMean(attempts, actionCount, expected);
    ResultsCount(expected, attempts);
  }

  /**
   Whatever the loader accepts: the minimised trace is a checked candidate of a recompiling source,
   its own evaluation reproduced the expected failure at least twice of three times with that very
   trace, no candidate is listed twice, and every number of the summary follows from the evidence.
   */
  lemma LoadedTraceIsReproduced(recompiles: PlannedCase -> bool, artifact: Artifact)
    requires Readable(recompiles, artifact)
    ensures var trace := artifact.minimized.value;
            && recompiles(artifact.original.planned) && recompiles(trace.candidate.source)
            && MaterializeSchedule(trace.candidate.source, trace.candidate.schedule) == Ok(trace.candidate)
            && SummaryFacts(artifact, trace)
            && (exists k :: 0 <= k < |artifact.summary.candidates|
                  && Reproduced(artifact, trace, artifact.summary.candidates[k]))
    ensures forall k :: 0 <= k < |artifact.summary.candidates| ==>
      CandidateFacts(recompiles, artifact, artifact.summary.candidates[k])
    ensures forall j, k :: 0 <= j < k < |artifact.summary.candidates| ==>
      artifact.summary.candidates[j].candidateId != artifact.summary.candidates[k].candidateId
  {
    hide MaterializeSchedule, NumbersCoherent, OriginalAttemptsCoherent, MatchingFailureCount, Results, SummaryFacts,
      CandidateFacts, CandidateCoherent, IdentityOf, Reproductions;
    var trace, documents := artifact.minimized.value, artifact.summary.candidates;
    NumbersMean(artifact, trace);
    forall k | 0 <= k < |documents| ensures CandidateFacts(recompiles, artifact, documents[k]) {
      assert EvidenceAt(recompiles, artifact, trace, k);
      EvidenceMeans(recompiles, artifact, documents[k], SelectedFor(documents[k], trace));
    }
    var k :| Selects(documents, trace, k);
    assert EvidenceAt(recompiles, artifact, trace, k);
    EvidenceMeans(recompiles, artifact, documents[k], SelectedFor(documents[k], trace));
    FactsOfSelected(recompiles, artifact, documents[k]);
    assert Reproduced(artifact, trace, documents[k]);
  }

  lemma FactsOfSelected(recompiles: PlannedCase -> bool, artifact: Artifact, document: EvaluationDocument)
    requires CandidateFacts(recompiles, artifact, document) && document.accepted
    ensures Reproductions(document.attempts, artifact.source.header.expected) >= 2
    ensures |artifact.candidateFiles[document.candidateId].attempts| >= 3
  {
    hide HeaderFacts, Reproductions, ThreeAttempts;
  }
}
