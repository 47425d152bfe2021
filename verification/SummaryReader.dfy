/**
 The loader of a minimised replay (crates/tiv-runtime/src/configured_minimized_replay.rs). It
 trusts no number in the summary: it recomputes every result, count and flag from the stored
 evidence. Here what it accepts is stated as a predicate, which the loops are shown to decide.
 */
module SummaryReader {
  import opened Wrappers
  import opened Sequences
  import opened PlanCompiler
  import opened Shrink
  import opened Generator
  import opened Search
  import opened ShrinkSummary

  const INVARIANT_COUNT: nat := 5

  // ---------- one attempt ----------

  /** Named once each, and violated exactly when there are witnesses. */
  predicate InvariantsCoherent(outcomes: seq<InvariantOutcome>) {
    && (forall i, j :: 0 <= i < j < |outcomes| ==> outcomes[i].identity != outcomes[j].identity)
    && (forall i :: 0 <= i < |outcomes| ==> (outcomes[i].violated <==> outcomes[i].witnesses > 0))
  }

  predicate EvidencePresent(document: AttemptDocument, number: nat, actionCount: nat) {
    && document.attempt == number && document.traceMatchesAuthority
    && document.beforeOid != 0 && document.afterOid != 0 && document.beforeOid != document.afterOid
    && document.beforeMarker != document.afterMarker
    && document.executedActions == actionCount
    && document.journalRecords != 0 && document.journalHash.Some?
    && |document.invariants| == INVARIANT_COUNT
  }

  /** The declared verdict is the one the invariant outcomes give. */
  predicate AttemptCoherent(document: AttemptDocument, number: nat, actionCount: nat, expected: FailureIdentity) {
    var result := AttemptResultOf(expected, document.invariants);
    && EvidencePresent(document, number, actionCount)
    && InvariantsCoherent(document.invariants)
    && document.verdict == VerdictOf(expected, result) && document.failure == FailureOf(result)
  }

  method CheckInvariants(outcomes: seq<InvariantOutcome>) returns (ok: bool)
    ensures ok <==> InvariantsCoherent(outcomes)
  {
    var identities: set<FailureIdentity> := {};
    for i := 0 to |outcomes|
      invariant InvariantsCoherent(outcomes[..i])
      invariant forall id :: id in identities <==> exists j :: 0 <= j < i && outcomes[j].identity == id
    {
      var outcome := outcomes[i];
      if outcome.identity in identities || outcome.violated != (outcome.witnesses > 0) {
        return false;
      }
      identities := identities + {outcome.identity};
    }
    assert outcomes[..|outcomes|] == outcomes;
    return true;
  }

  method ValidateAttemptDocument(document: AttemptDocument, number: nat, actionCount: nat, expected: FailureIdentity)
    returns (result: Option<AttemptResult>)
    ensures result ==
      if AttemptCoherent(document, number, actionCount, expected)
      then Some(AttemptResultOf(expected, document.invariants)) else None
  {
    if !EvidencePresent(document, number, actionCount) { return None; }
    var ok := CheckInvariants(document.invariants);
    if !ok { return None; }
    var actual := AttemptResultOf(expected, document.invariants);
    var coherent := match (document.verdict, document.failure, actual) {
      case (HeldVerdict, None, Held) => true
      case (ExpectedViolation, Some(declared), Violation(identity)) => declared == expected && identity == expected
      case (OtherViolation, Some(declared), Violation(identity)) => declared == identity && identity != expected
      case _ => false
    };
    return if coherent then Some(actual) else None;
  }

  // ---------- fresh baselines ----------

  function AfterOids(documents: seq<AttemptDocument>): set<nat> {
    set d | d in documents :: d.afterOid
  }

  function AfterMarkers(documents: seq<AttemptDocument>): set<nat> {
    set d | d in documents :: d.afterMarker
  }

  predicate HasDistinctFreshBaselines(documents: seq<AttemptDocument>) {
    && |documents| == ATTEMPT_COUNT
    && |AfterOids(documents)| == ATTEMPT_COUNT && |AfterMarkers(documents)| == ATTEMPT_COUNT
  }

  lemma ThreeDistinct(a: nat, b: nat, c: nat)
    ensures |{a, b, c}| == 3 <==> a != b && a != c && b != c
  {
    if a == b { assert {a, b, c} == {a, c}; }
    if a == c { assert {a, b, c} == {a, b}; }
    if b == c { assert {a, b, c} == {a, b}; }
  }

  /** Counting the sets says exactly that no two attempts ran on the same database. */
  lemma DistinctBaselines(documents: seq<AttemptDocument>)
    ensures HasDistinctFreshBaselines(documents) <==>
      && |documents| == ATTEMPT_COUNT
      && forall i, j :: 0 <= i < j < |documents| ==>
           documents[i].afterOid != documents[j].afterOid && documents[i].afterMarker != documents[j].afterMarker
  {
    if |documents| == ATTEMPT_COUNT {
      var a, b, c := documents[0], documents[1], documents[2];
      assert documents == [a, b, c];
      assert AfterOids(documents) == {a.afterOid, b.afterOid, c.afterOid};
      assert AfterMarkers(documents) == {a.afterMarker, b.afterMarker, c.afterMarker};
      ThreeDistinct(a.afterOid, b.afterOid, c.afterOid);
      ThreeDistinct(a.afterMarker, b.afterMarker, c.afterMarker);
    }
  }

  // ---------- one candidate ----------

  function Results(expected: FailureIdentity, documents: seq<AttemptDocument>): (r: seq<AttemptResult>)
    ensures |r| == |documents|
    ensures forall i :: 0 <= i < |r| ==> r[i] == AttemptResultOf(expected, documents[i].invariants)
  {
    Map((d: AttemptDocument) => AttemptResultOf(expected, d.invariants), documents)
  }

  function MatchingFailureCount(results: seq<AttemptResult>, expected: FailureIdentity): nat {
    |Filter((r: AttemptResult) => r == Violation(expected), results)|
  }

  predicate StoredAttemptCoherent(
    recompiles: PlannedCase -> bool, files: CandidateFiles, document: EvaluationDocument,
    expected: FailureIdentity, selected: Option<ShrinkTrace>, i: nat)
    requires i < |document.attempts| && i < |files.attempts|
  {
    var stored := files.attempts[i];
    && stored.document == document.attempts[i]
    && Revalidate(recompiles, stored.trace.candidate).Ok? && stored.trace.candidate == files.candidate
    && MatchesReplayAuthority(files.attempts[0].trace, stored.trace)
    && (selected.Some? ==> MatchesReplayAuthority(selected.value, stored.trace))
    && AttemptCoherent(document.attempts[i], i + 1, |files.candidate.actions|, expected)
  }

  predicate CandidateHeaderCoherent(
    recompiles: PlannedCase -> bool, files: CandidateFiles, document: EvaluationDocument)
  {
    && Revalidate(recompiles, files.candidate).Ok?
    && document.candidateId == IdentityOf(files.candidate)
    && document.actionCount == |files.candidate.actions|
    && document.complexity == CandidateComplexity(files.candidate)
    && |document.attempts| == ATTEMPT_COUNT && HasDistinctFreshBaselines(document.attempts)
    && files.evaluation == document
  }

  /** The stored candidate, its three attempts and the evaluation's count and flag all agree. */
  predicate CandidateCoherent(
    recompiles: PlannedCase -> bool, files: CandidateFiles, document: EvaluationDocument,
    expected: FailureIdentity, selected: Option<ShrinkTrace>)
  {
    && CandidateHeaderCoherent(recompiles, files, document)
    && |files.attempts| >= ATTEMPT_COUNT
    && (forall i :: 0 <= i < ATTEMPT_COUNT ==>
          StoredAttemptCoherent(recompiles, files, document, expected, selected, i))
    && document.matching == MatchingFailureCount(Results(expected, document.attempts), expected)
    && (document.accepted <==> document.matching >= 2)
  }

  method ValidateCandidateEvidence(
    recompiles: PlannedCase -> bool, stored: map<CandidateIdentity, CandidateFiles>, document: EvaluationDocument,
    expected: FailureIdentity, selected: Option<ShrinkTrace>)
    returns (candidate: Option<Candidate>)
    ensures candidate ==
      if document.candidateId in stored
         && CandidateCoherent(recompiles, stored[document.candidateId], document, expected, selected)
      then Some(stored[document.candidateId].candidate) else None
  {
    hide Revalidate, IdentityOf, CandidateComplexity, HasDistinctFreshBaselines, AttemptCoherent;
    if document.candidateId !in stored { return None; }
    var files := stored[document.candidateId];
    if !CandidateHeaderCoherent(recompiles, files, document) { return None; }
    var results: seq<AttemptResult> := [];
    var authority: Option<ShrinkTrace> := None;
    for i := 0 to ATTEMPT_COUNT
      invariant i <= |files.attempts| && |results| == i
      invariant forall j :: 0 <= j < i ==>
        && StoredAttemptCoherent(recompiles, files, document, expected, selected, j)
        && results[j] == AttemptResultOf(expected, document.attempts[j].invariants)
      invariant authority == if i == 0 then None else Some(files.attempts[0].trace)
    {
      if i >= |files.attempts| { return None; }
      if files.attempts[i].document != document.attempts[i] {
        assert !StoredAttemptCoherent(recompiles, files, document, expected, selected, i);
        return None;
      }
      var trace := files.attempts[i].trace;
      if !Revalidate(recompiles, trace.candidate).Ok? || trace.candidate != files.candidate
         || (authority.Some? && !MatchesReplayAuthority(authority.value, trace))
         || (selected.Some? && !MatchesReplayAuthority(selected.value, trace))
      {
        assert !StoredAttemptCoherent(recompiles, files, document, expected, selected, i);
        return None;
      }
      if authority.None? { authority := Some(trace); }
      var result := ValidateAttemptDocument(document.attempts[i], i + 1, |files.candidate.actions|, expected);
      if result.None? {
        assert !StoredAttemptCoherent(recompiles, files, document, expected, selected, i);
        return None;
      }
      results := results + [result.value];
    }
    assert results == Results(expected, document.attempts);
    var matching := MatchingFailureCount(results, expected);
    if document.matching != matching || document.accepted != (matching >= 2) { return None; }
    return Some(files.candidate);
  }

  // ---------- the original attempts ----------

  predicate StoredOriginalCoherent(artifact: Artifact, i: nat)
    requires i < |artifact.summary.originalAttempts| && i < |artifact.originalFiles|
  {
    var attempts := artifact.summary.originalAttempts;
    && artifact.originalFiles[i].document == attempts[i]
    && MatchesOriginal(artifact.original, artifact.originalFiles[i].trace)
    && AttemptCoherent(attempts[i], i + 1, |artifact.original.planned.actions|, artifact.source.header.expected)
  }

  predicate OriginalAttemptsCoherent(artifact: Artifact) {
    var attempts := artifact.summary.originalAttempts;
    && HasDistinctFreshBaselines(attempts)
    && |attempts| <= |artifact.originalFiles|
    && forall i :: 0 <= i < |attempts| ==> StoredOriginalCoherent(artifact, i)
  }

  method ValidateOriginalAttempts(artifact: Artifact) returns (results: Option<seq<AttemptResult>>)
    ensures results ==
      if OriginalAttemptsCoherent(artifact)
      then Some(Results(artifact.source.header.expected, artifact.summary.originalAttempts)) else None
  {
    hide HasDistinctFreshBaselines, AttemptCoherent;
    var attempts := artifact.summary.originalAttempts;
    var expected := artifact.source.header.expected;
    if !HasDistinctFreshBaselines(attempts) { return None; }
    var found: seq<AttemptResult> := [];
    for i := 0 to |attempts|
      invariant i <= |artifact.originalFiles| && |found| == i
      invariant forall j :: 0 <= j < i ==>
        && StoredOriginalCoherent(artifact, j)
        && found[j] == AttemptResultOf(expected, attempts[j].invariants)
    {
      if i >= |artifact.originalFiles| { return None; }
      var stored := artifact.originalFiles[i];
      if stored.document != attempts[i] || !MatchesOriginal(artifact.original, stored.trace) {
        assert !StoredOriginalCoherent(artifact, i);
        return None;
      }
      var result := ValidateAttemptDocument(attempts[i], i + 1, |artifact.original.planned.actions|, expected);
      if result.None? {
        assert !StoredOriginalCoherent(artifact, i);
        return None;
      }
      found := found + [result.value];
    }
    assert found == Results(expected, attempts);
    return Some(found);
  }

  // ---------- the whole artifact ----------

  function AcceptedDocuments(documents: seq<EvaluationDocument>): nat {
    |Filter((d: EvaluationDocument) => d.accepted, documents)|
  }

  /** The summary's own numbers, before any evidence is opened. */
  predicate NumbersCoherent(artifact: Artifact, trace: ShrinkTrace) {
    var summary := artifact.summary;
    && artifact.source.originalTraceRetained
    && summary.shrinkId == artifact.runId
    && summary.header == artifact.source.header
    && (|| (summary.completion.Complete? && artifact.result.Counterexample?)
        || (summary.completion.BudgetExhausted? && artifact.result.BudgetExhaustedResult?))
    && 1 <= summary.candidateLimit <= 60
    && 1 <= summary.maxTime <= 600_000
    && summary.originalAttemptCount == 3 && |summary.originalAttempts| == 3
    && 2 <= summary.originalMatching <= 3
    && summary.evaluatedCandidates == |summary.candidates| <= summary.candidateLimit
    && summary.acceptedCandidates == AcceptedDocuments(summary.candidates)
    && summary.acceptedCandidates != 0
    && summary.originalActionCount == |artifact.original.planned.actions|
    && summary.bestActionCount == |trace.candidate.actions|
    && summary.bestActionCount <= summary.originalActionCount
    && summary.minimizedTraceWritten
    && trace.candidate.source == artifact.original.planned
  }

  function SelectedFor(document: EvaluationDocument, trace: ShrinkTrace): Option<ShrinkTrace> {
    if document.candidateId == IdentityOf(trace.candidate) then Some(trace) else None
  }

  predicate EvidenceAt(recompiles: PlannedCase -> bool, artifact: Artifact, trace: ShrinkTrace, k: nat)
    requires k < |artifact.summary.candidates|
  {
    var document := artifact.summary.candidates[k];
    && document.candidateId in artifact.candidateFiles
    && CandidateCoherent(recompiles, artifact.candidateFiles[document.candidateId], document,
                         artifact.source.header.expected, SelectedFor(document, trace))
    && (document.candidateId == IdentityOf(trace.candidate) ==>
          document.accepted && artifact.candidateFiles[document.candidateId].candidate == trace.candidate)
  }

  predicate DistinctDocuments(documents: seq<EvaluationDocument>) {
    forall i, j :: 0 <= i < j < |documents| ==> documents[i].candidateId != documents[j].candidateId
  }

  predicate Selects(documents: seq<EvaluationDocument>, trace: ShrinkTrace, k: int) {
    0 <= k < |documents| && documents[k].candidateId == IdentityOf(trace.candidate)
  }

  /** Every candidate is listed once with coherent evidence, and the minimised trace is one of the accepted ones. */
  ghost predicate CandidatesCoherent(recompiles: PlannedCase -> bool, artifact: Artifact, trace: ShrinkTrace) {
    var documents := artifact.summary.candidates;
    && DistinctDocuments(documents)
    && (forall k :: 0 <= k < |documents| ==> EvidenceAt(recompiles, artifact, trace, k))
    && exists k :: Selects(documents, trace, k)
  }

  ghost predicate SummaryCoherent(recompiles: PlannedCase -> bool, artifact: Artifact, trace: ShrinkTrace) {
    && NumbersCoherent(artifact, trace)
    && OriginalAttemptsCoherent(artifact)
    && artifact.summary.originalMatching == MatchingFailureCount(
         Results(artifact.source.header.expected, artifact.summary.originalAttempts), artifact.source.header.expected)
    && CandidatesCoherent(recompiles, artifact, trace)
  }

  /** What the loader accepts. */
  ghost predicate Readable(recompiles: PlannedCase -> bool, artifact: Artifact) {
    && !artifact.result.Inconclusive?
    && artifact.minimized.Some?
    && Revalidate(recompiles, artifact.minimized.value.candidate).Ok?
    && recompiles(artifact.original.planned)
    && SummaryCoherent(recompiles, artifact, artifact.minimized.value)
  }

  method ValidateCandidates(recompiles: PlannedCase -> bool, artifact: Artifact, trace: ShrinkTrace) returns (ok: bool)
    ensures ok <==> CandidatesCoherent(recompiles, artifact, trace)
  {
    hide CandidateCoherent, IdentityOf;
    var documents := artifact.summary.candidates;
    var selected := IdentityOf(trace.candidate);
    var ids: set<CandidateIdentity> := {};
    var selectedCount := 0;
    for k := 0 to |documents|
      invariant DistinctDocuments(documents[..k])
      invariant forall id :: id in ids <==> exists j :: 0 <= j < k && documents[j].candidateId == id
      invariant forall j :: 0 <= j < k ==> EvidenceAt(recompiles, artifact, trace, j)
      invariant selectedCount == if selected in ids then 1 else 0
    {
      var document := documents[k];
      if document.candidateId in ids { return false; }
      var candidate := ValidateCandidateEvidence(
        recompiles, artifact.candidateFiles, document, artifact.source.header.expected, SelectedFor(document, trace));
      if candidate.None? {
        assert !EvidenceAt(recompiles, artifact, trace, k);
        return false;
      }
      if document.candidateId == selected {
        selectedCount := selectedCount + 1;
        if !document.accepted || candidate.value != trace.candidate {
          assert !EvidenceAt(recompiles, artifact, trace, k);
          return false;
        }
      }
      ids := ids + {document.candidateId};
    }
    assert documents[..|documents|] == documents;
    assert selected in ids <==> exists k :: Selects(documents, trace, k) by {
      if k :| Selects(documents, trace, k) { assert documents[k].candidateId in ids; }
      if j :| 0 <= j < |documents| && documents[j].candidateId == selected { assert Selects(documents, trace, j); }
    }
    return selectedCount == 1;
  }

  method ValidateSourceAndSummary(recompiles: PlannedCase -> bool, artifact: Artifact, trace: ShrinkTrace)
    returns (ok: bool)
    ensures ok <==> SummaryCoherent(recompiles, artifact, trace)
  {
    hide NumbersCoherent, OriginalAttemptsCoherent, CandidatesCoherent, MatchingFailureCount;
    if !NumbersCoherent(artifact, trace) { return false; }
    var results := ValidateOriginalAttempts(artifact);
    if results.None? { return false; }
    if MatchingFailureCount(results.value, artifact.source.header.expected) != artifact.summary.originalMatching {
      return false;
    }
    ok := ValidateCandidates(recompiles, artifact, trace);
  }

  /** The minimised trace, when the artifact is a coherent shrink result. */
  method LoadMinimizedSource(recompiles: PlannedCase -> bool, artifact: Artifact) returns (trace: Option<ShrinkTrace>)
    ensures trace == if Readable(recompiles, artifact) then artifact.minimized else None
  {
    hide Revalidate, SummaryCoherent;
    if artifact.result.Inconclusive? || artifact.minimized.None? { return None; }
    if !Revalidate(recompiles, artifact.minimized.value.candidate).Ok? || !recompiles(artifact.original.planned) {
      return None;
    }
    var ok := ValidateSourceAndSummary(recompiles, artifact, artifact.minimized.value);
    return if ok then artifact.minimized else None;
  }
}
