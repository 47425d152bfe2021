/** The bounded generator refines the unbounded frontier: same candidates in the same order, cut at the limit. */
module Generator {
  import opened Wrappers
  import opened Sequences
  import opened Plan
  import opened PlanCompiler
  import opened PlanReplay
  import opened ShrinkOrder
  import opened Shrink
  import opened Frontier

  const MAX_SHRINK_CANDIDATES: nat := 60

  function Take<T>(s: seq<T>, n: nat): seq<T> {
    if |s| <= n then s else s[..n]
  }

  /** The set of schedules already offered. */
  function Schedules(candidates: seq<Candidate>): set<Schedule> {
    set c | c in candidates :: c.schedule
  }

  lemma BoundedAdd(found: seq<Candidate>, next: Option<Candidate>, target: nat)
    ensures Take(AddFresh(found, next), target)
         == if |Take(found, target)| == target then Take(found, target)
            else AddFresh(Take(found, target), next)
  {
  }

  /** Collects candidates up to a target length, one proposal at a time. */
  class CandidateSink {
    const source: PlannedCase
    const targetLen: nat
    const currentComplexity: Complexity
    ghost const current: Schedule
    ghost var done: seq<Schedule>
    var candidates: seq<Candidate>
    var identities: set<Schedule>

    constructor (source: PlannedCase, ghost current: Schedule, currentComplexity: Complexity, targetLen: nat)
      requires ValidSource(source) && currentComplexity == ComplexityOf(KindsOf(current))
      ensures Valid() && done == []
      ensures this.source == source && this.current == current && this.targetLen == targetLen
    {
      this.source, this.current := source, current;
      this.currentComplexity, this.targetLen := currentComplexity, targetLen;
      done, candidates, identities := [], [], {};
    }

    /** What has been collected is the bounded part of what the proposals so far emit. */
    ghost predicate Valid()
      reads this
    {
      && ValidSource(source)
      && currentComplexity == ComplexityOf(KindsOf(current))
      && candidates == Take(Emit(source, current, done), targetLen)
      && identities == Schedules(candidates)
    }

    method Push(proposal: Schedule)
      requires Valid()
      modifies this
      ensures Valid() && done == old(done) + [proposal]
    {
      EmitAppend(source, current, done, proposal);
      BoundedAdd(Emit(source, current, done), CandidateOf(source, current, proposal), targetLen);
      EmitIsGenuine(source, current, done);
      hide Emit, Descends, Replayable, CutPointsSupported, Less, ComplexityOf, ValidSource, Retained, Walk;
      ghost var before := candidates;
      done := done + [proposal];
      if |candidates| == targetLen {
        return;
      }
      var kinds := KindsOf(proposal);
      var retained := NormalizeReplayActionKinds(source.spec, kinds, source.legacy);
      if retained.None? {
        SourceSpecIsValid(source);
        return;
      }
      var normalized := Select(proposal, retained.value);
      var candidate := MaterializeCandidate(source, normalized);
      if candidate.Err? {
        return;
      }
      GenuineIsShort(source, normalized);
      var complexity := ComputeComplexity(KindsOf(candidate.value.schedule));
      if !Less(complexity, currentComplexity) {
        return;
      }
      IdentityTellsApart(source, current, before, candidate.value);
      if candidate.value.schedule !in identities {
        identities := identities + {candidate.value.schedule};
        candidates := candidates + [candidate.value];
      }
    }
  }

  lemma SourceSpecIsValid(source: PlannedCase)
    requires ValidSource(source)
    ensures ValidSpec(source.spec)
  {
  }

  lemma GenuineIsShort(source: PlannedCase, schedule: Schedule)
    requires ValidSource(source) && MaterializeSchedule(source, schedule).Ok?
    ensures MaterializeSchedule(source, schedule).value.schedule == schedule
    ensures |KindsOf(schedule)| <= MAX_ACTIONS_PER_CASE
    ensures forall a :: a in KindsOf(schedule) && a.DelayWebhook? ==> a.milliseconds <= 5000
  {
    hide Less, ComplexityOf, Descends, CutPointsSupported, Feasible;
    DelaysOfFeasible(source.spec, source.legacy, KindsOf(schedule));
  }

  lemma IdentityTellsApart(source: PlannedCase, current: Schedule, candidates: seq<Candidate>, c: Candidate)
    requires forall d :: d in candidates ==> Genuine(source, current, d)
    requires MaterializeSchedule(source, c.schedule) == Ok(c)
    ensures c in candidates <==> c.schedule in Schedules(candidates)
  {
    hide MaterializeSchedule;
    if c.schedule in Schedules(candidates) {
      var d :| d in candidates && d.schedule == c.schedule;
      assert Genuine(source, current, d);
    }
  }

  datatype Batch = Batch(candidates: seq<Candidate>, truncated: bool)

  /** A prefix of the proposals is enough once the sink is full. */
  predicate Covers(done: seq<Schedule>, all: seq<Schedule>, full: bool) {
    done <= all && (full || done == all)
  }

  /** All chunks of one size, from left to right. */
  method PushChunksOfSize(schedule: Schedule, size: nat, sink: CandidateSink) returns (full: bool)
    requires sink.Valid() && size > 0
    modifies sink
    ensures sink.Valid() && (full ==> |sink.candidates| == sink.targetLen)
    ensures Covers(sink.done, old(sink.done) + ChunksFrom(schedule, size, 0), full)
  {
    hide Emit, Take, Schedules, ValidSource, ComplexityOf;
    ghost var all := sink.done + ChunksFrom(schedule, size, 0);
    var start := 0;
    while start < |schedule|
      invariant sink.Valid()
      invariant sink.done + ChunksFrom(schedule, size, start) == all
      decreases |schedule| - start
    {
      hide RemoveRange, ChunkEnd;
      var proposal := RemoveRange(schedule, start, ChunkEnd(schedule, size, start));
      ghost var rest := ChunksFrom(schedule, size, start + size);
      Regroup(sink.done, proposal, rest, []);
      assert sink.done + ([proposal] + rest) + [] == all && sink.done + [proposal] + rest == all;
      sink.Push(proposal);
      if |sink.candidates| == sink.targetLen {
        return true;
      }
      start := start + size;
    }
    assert sink.done + [] == sink.done;
    return false;
  }

  /** First stage: ever smaller chunks. */
  method PushChunks(schedule: Schedule, sizes: seq<nat>, sink: CandidateSink) returns (full: bool)
    requires sink.Valid() && sink.done == []
    requires forall i :: 0 <= i < |sizes| ==> sizes[i] > 0
    modifies sink
    ensures sink.Valid() && (full ==> |sink.candidates| == sink.targetLen)
    ensures Covers(sink.done, ChunkDeletions(schedule, sizes), full)
  {
    assert sizes[0..] == sizes;
    for k := 0 to |sizes|
      invariant sink.Valid()
      invariant sink.done + ChunkDeletions(schedule, sizes[k..]) == ChunkDeletions(schedule, sizes)
    {
      hide ChunksFrom;
      assert sizes[k..][1..] == sizes[k + 1..];
      ghost var rest := ChunkDeletions(schedule, sizes[k + 1..]);
      Reassociate(sink.done, ChunksFrom(schedule, sizes[k], 0), rest);
      ghost var before := sink.done;
      full := PushChunksOfSize(schedule, sizes[k], sink);
      if full {
        PrefixOfSum(before + ChunksFrom(schedule, sizes[k], 0), rest, []);
        assert before + ChunksFrom(schedule, sizes[k], 0) + rest + [] == ChunkDeletions(schedule, sizes);
        PrefixesCompose(sink.done, before + ChunksFrom(schedule, sizes[k], 0), ChunkDeletions(schedule, sizes));
        return true;
      }
    }
    assert sizes[|sizes|..] == [];
    assert sink.done + [] == sink.done;
    return false;
  }

  lemma Reassociate(a: seq<Schedule>, b: seq<Schedule>, c: seq<Schedule>)
    ensures a + (b + c) == a + b + c
  {
  }

  lemma Regroup(done: seq<Schedule>, p: Schedule, more: seq<Schedule>, rest: seq<Schedule>)
    ensures done + ([p] + more) + rest == (done + [p]) + more + rest
  {
    assert done + ([p] + more) == (done + [p]) + more;
  }

  lemma PrefixOfSum(a: seq<Schedule>, b: seq<Schedule>, c: seq<Schedule>)
    ensures a <= a + b + c
  {
  }

  /** Second stage: retries, retrievals and gate releases one at a time. */
  method PushRecoveries(schedule: Schedule, sink: CandidateSink)
    requires sink.Valid()
    modifies sink
    ensures sink.Valid() && sink.done == old(sink.done) + RecoveryDeletions(schedule, 0)
  {
    hide Emit, Take, Schedules, ValidSource, ComplexityOf;
    ghost var before := sink.done;
    for i := 0 to |schedule|
      invariant sink.Valid()
      invariant sink.done + RecoveryDeletions(schedule, i) == before + RecoveryDeletions(schedule, 0)
    {
      hide RemoveRange;
      if IsRecovery(schedule[i].kind) {
        var proposal := RemoveRange(schedule, i, i + 1);
        Regroup(sink.done, proposal, RecoveryDeletions(schedule, i + 1), []);
        sink.Push(proposal);
      } else {
        assert [] + RecoveryDeletions(schedule, i + 1) == RecoveryDeletions(schedule, i + 1);
      }
    }
    assert sink.done + [] == sink.done;
  }

  method PushAll(proposals: seq<Schedule>, sink: CandidateSink)
    requires sink.Valid()
    modifies sink
    ensures sink.Valid() && sink.done == old(sink.done) + proposals
  {
    hide Emit, Take, Schedules, ValidSource, ComplexityOf;
    for i := 0 to |proposals|
      invariant sink.Valid() && sink.done == old(sink.done) + proposals[..i]
    {
      assert proposals[..i + 1] == proposals[..i] + [proposals[i]];
      sink.Push(proposals[i]);
    }
    assert proposals[..|proposals|] == proposals;
  }

  /** Third stage: faults and provider scripts, stopping as soon as the sink is full. */
  method PushSimplifications(schedule: Schedule, sink: CandidateSink) returns (full: bool)
    requires sink.Valid()
    modifies sink
    ensures sink.Valid() && (full ==> |sink.candidates| == sink.targetLen)
    ensures Covers(sink.done, old(sink.done) + Simplifications(schedule, 0), full)
  {
    hide Emit, Take, Schedules, ValidSource, ComplexityOf;
    ghost var all := sink.done + Simplifications(schedule, 0);
    for i := 0 to |schedule|
      invariant sink.Valid()
      invariant sink.done + Simplifications(schedule, i) == all
    {
      hide SimplificationsAt;
      var proposals := SimplificationsAt(schedule, i);
      Reassociate(sink.done, proposals, Simplifications(schedule, i + 1));
      PushAll(proposals, sink);
      if |sink.candidates| == sink.targetLen {
        PrefixOfSum(sink.done, Simplifications(schedule, i + 1), []);
        assert sink.done + Simplifications(schedule, i + 1) + [] == all;
        return true;
      }
    }
    assert sink.done + [] == sink.done;
    return false;
  }

  lemma BatchIsPrefix(
    source: PlannedCase, current: Schedule, done: seq<Schedule>, all: seq<Schedule>, limit: nat,
    candidates: seq<Candidate>, full: bool)
    requires candidates == Take(Emit(source, current, done), limit + 1)
    requires Covers(done, all, full) && (full ==> |candidates| == limit + 1)
    ensures Take(candidates, limit) == Take(Emit(source, current, all), limit)
    ensures |candidates| > limit <==> |Emit(source, current, all)| > limit
  {
    hide Emit;
    EmitGrows(source, current, done, all[|done|..]);
    assert done + all[|done|..] == all;
  }

  /** The schedule the generator starts from when nothing has been accepted yet. */
  function SourceSchedule(source: PlannedCase): (r: Schedule)
    ensures |r| == |source.actions|
  {
    seq(|source.actions|, i requires 0 <= i < |source.actions| =>
      ShrinkAction(source.actions[i].id, source.actions[i].kind))
  }

  lemma SourceIsCurrent(source: PlannedCase)
    requires ValidSource(source)
    ensures ValidCurrent(source, SourceSchedule(source)) && KindsOf(SourceSchedule(source)) == Kinds(source.actions)
  {
    var s := SourceSchedule(source);
    assert KindsOf(s) == Kinds(source.actions);
    assert SourceIndices(s) == Indices(|s|);
  }

  /** Revalidating a candidate: its source recompiles exactly, and its schedule materialises to itself. */
  function Revalidate(recompiles: PlannedCase -> bool, c: Candidate): Result<(), ShrinkError> {
    if !recompiles(c.source) then Err(InvalidSource)
    else
      match MaterializeSchedule(c.source, c.schedule)
      case Err(e) => Err(e)
      case Ok(expected) => if expected == c then Ok(()) else Err(InvalidMaterialization)
  }

  method RevalidateCandidate(recompiles: PlannedCase -> bool, c: Candidate) returns (result: Result<(), ShrinkError>)
    requires forall p :: recompiles(p) ==> ValidSource(p)
    ensures result == Revalidate(recompiles, c)
  {
    hide MaterializeSchedule, ValidSource;
    if !recompiles(c.source) {
      return Err(InvalidSource);
    }
    var expected := MaterializeCandidate(c.source, c.schedule);
    if expected.Err? {
      return Err(expected.error);
    }
    return if expected.value == c then Ok(()) else Err(InvalidMaterialization);
  }

  /** The schedule to be shrunk, once the optional current candidate has been accepted. */
  function CurrentSchedule(source: PlannedCase, current: Option<Candidate>): Schedule {
    if current.Some? then current.value.schedule else SourceSchedule(source)
  }

  /**
   The bounded batch is the first `limit` members of the full frontier, and the truncation bit says
   exactly whether there were more. `recompiles` is the exact recompilation check of a stored plan.
   */
  method CandidateBatch(
    recompiles: PlannedCase -> bool, source: PlannedCase, current: Option<Candidate>, limit: nat)
    returns (result: Result<Batch, ShrinkError>)
    requires forall p :: recompiles(p) ==> ValidSource(p)
    requires recompiles(source)
    ensures current.Some? && Revalidate(recompiles, current.value).Err? ==>
      result == Err(Revalidate(recompiles, current.value).error)
    ensures current.Some? && Revalidate(recompiles, current.value).Ok? && current.value.source != source ==>
      result == Err(SourceMismatch)
    ensures (current.Some? ==> Revalidate(recompiles, current.value).Ok? && current.value.source == source) ==>
      var frontier := FullFrontier(source, CurrentSchedule(source, current));
      result == Ok(Batch(Take(frontier, limit), |frontier| > limit))
  {
    hide Revalidate, Descends, Emit, ChunkDeletions, RecoveryDeletions, Simplifications;
    SourceIsCurrent(source);
    if current.Some? {
      var checked := RevalidateCandidate(recompiles, current.value);
      if checked.Err? {
        return Err(checked.error);
      }
      if current.value.source != source {
        return Err(SourceMismatch);
      }
      RevalidatedIsShort(recompiles, current.value);
    } else {
      DelaysOfSource(source);
    }
    var schedule := CurrentSchedule(source, current);
    var complexity := ComputeComplexity(KindsOf(schedule));
    var sink := new CandidateSink(source, schedule, complexity, limit + 1);
    ChunkSizesReachOne(|schedule|);
    var sizes := HierarchicalChunkSizes(|schedule|);
    ghost var chunks := ChunkDeletions(schedule, sizes);
    ghost var all := chunks + RecoveryDeletions(schedule, 0) + Simplifications(schedule, 0);
    assert all == Proposals(schedule);
    var full := PushChunks(schedule, sizes, sink);
    if full {
      PrefixOfSum(chunks, RecoveryDeletions(schedule, 0), Simplifications(schedule, 0));
      PrefixesCompose(sink.done, chunks, all);
      BatchIsPrefix(source, schedule, sink.done, all, limit, sink.candidates, true);
      return Ok(Batch(Take(sink.candidates, limit), true));
    }
    PushRecoveries(schedule, sink);
    full := PushSimplifications(schedule, sink);
    BatchIsPrefix(source, schedule, sink.done, all, limit, sink.candidates, full);
    return Ok(Batch(Take(sink.candidates, limit), |sink.candidates| > limit));
  }

  lemma PrefixesCompose(a: seq<Schedule>, b: seq<Schedule>, c: seq<Schedule>)
    requires a <= b && b <= c
    ensures a <= c
  {
  }

  lemma DelaysOfSource(source: PlannedCase)
    requires ValidSource(source)
    ensures |Kinds(source.actions)| <= MAX_ACTIONS_PER_CASE
    ensures forall a :: a in Kinds(source.actions) && a.DelayWebhook? ==> a.milliseconds <= 5000
  {
    DelaysOfFeasible(source.spec, source.legacy, Kinds(source.actions));
  }

  lemma RevalidatedIsShort(recompiles: PlannedCase -> bool, c: Candidate)
    requires forall p :: recompiles(p) ==> ValidSource(p)
    requires Revalidate(recompiles, c).Ok?
    ensures |KindsOf(c.schedule)| <= MAX_ACTIONS_PER_CASE
    ensures forall a :: a in KindsOf(c.schedule) && a.DelayWebhook? ==> a.milliseconds <= 5000
  {
    hide MaterializeSchedule;
    GenuineIsShort(c.source, c.schedule);
  }

  /** Every member of a frontier revalidates, descends from the source and can itself be shrunk further. */
  lemma FrontierRevalidates(recompiles: PlannedCase -> bool, source: PlannedCase, current: Schedule, c: Candidate)
    requires recompiles(source) && c in FullFrontier(source, current)
    ensures Revalidate(recompiles, c).Ok? && c.source == source
    ensures ValidCurrent(source, c.schedule)
    ensures Less(ComplexityOf(KindsOf(c.schedule)), ComplexityOf(KindsOf(current)))
  {
    hide Descends, Replayable, CutPointsSupported, Less, ComplexityOf, Emit;
    EmitIsGenuine(source, current, Proposals(current));
    assert Genuine(source, current, c);
  }
}
