/**
 The candidate generator: hierarchical deletions, recovery deletions and simplifications, each
 normalised and deduplicated, cut off at a limit with an exact truncation bit.
 */
module Frontier {
  import opened Wrappers
  import opened Sequences
  import opened Plan
  import opened PlanCompiler
  import opened PlanReplay
  import opened ShrinkOrder
  import opened Shrink

  // ---------- chunk sizes ----------

  function CeilDiv(n: nat, parts: nat): nat
    requires parts > 0
  {
    (n + parts - 1) / parts
  }

  function ChunkSize(n: nat, parts: nat): nat
    requires parts > 0
  {
    if CeilDiv(n, parts) < 1 then 1 else CeilDiv(n, parts)
  }

  lemma CeilDivCovers(n: nat, parts: nat)
    requires parts > 0
    ensures CeilDiv(n, parts) * parts >= n
  {
    var d := n + parts - 1;
    assert d == parts * (d / parts) + d % parts;
    assert d % parts <= parts - 1;
  }

  lemma DivAtMost(d: nat, q: nat, a: nat)
    requires q > 0 && d < (a + 1) * q
    ensures d / q <= a
  {
    assert d == q * (d / q) + d % q;
  }

  /** Finer partitions never have larger chunks, and as many parts as actions means chunks of one. */
  lemma FinerIsSmaller(n: nat, p: nat, q: nat)
    requires 0 < p <= q
    ensures ChunkSize(n, q) <= ChunkSize(n, p)
    ensures ChunkSize(n, p) > 1 ==> p < n
  {
    CeilDivCovers(n, p);
    MoreParts(CeilDiv(n, p), p, q);
    CeilDivAtMost(n, q, CeilDiv(n, p));
    if p >= n {
      CeilDivAtMost(n, p, 1);
    }
    hide CeilDiv;
  }

  lemma MoreParts(a: nat, p: nat, q: nat)
    requires p <= q
    ensures a * p <= a * q
  {
  }

  /** Chunks of `a` are enough when `a` per part covers everything. */
  lemma CeilDivAtMost(n: nat, parts: nat, a: nat)
    requires parts > 0 && n <= a * parts
    ensures CeilDiv(n, parts) <= a
  {
    assert (a + 1) * parts == a * parts + parts;
    DivAtMost(n + parts - 1, parts, a);
  }

  function ChunkSizesFrom(n: nat, parts: nat, previous: nat): seq<nat>
    requires parts > 0
    decreases if n > parts then n - parts else 0
  {
    FinerIsSmaller(n, parts, parts);
    var size := ChunkSize(n, parts);
    (if size == previous then [] else [size])
    + (if size == 1 then [] else ChunkSizesFrom(n, 2 * parts, size))
  }

  function ChunkSizes(n: nat): seq<nat> {
    if n < 2 then [1] else ChunkSizesFrom(n, 2, 0)
  }

  /** Twice as many parts make chunks half the size, rounded up. */
  lemma TwiceTheParts(n: nat, parts: nat)
    requires parts > 0 && n > 0
    ensures ChunkSize(n, 2 * parts) == (ChunkSize(n, parts) + 1) / 2
  {
    var q, r := (n + parts - 1) / parts, (n + parts - 1) % parts;
    assert n + parts - 1 == parts * q + r;
    var m, odd := (q + 1) / 2, (q + 1) % 2;
    assert q + 1 == 2 * m + odd;
    assert parts * (q + 1) == parts * (2 * m) + parts * odd;
    assert n + 2 * parts - 1 == (2 * parts) * m + (parts * odd + r);
    assert parts * odd <= parts;
    QuotientIs(n + 2 * parts - 1, 2 * parts, m, parts * odd + r);
    CeilDivCovers(n, parts);
    assert CeilDiv(n, parts) >= 1 && CeilDiv(n, 2 * parts) >= 1;
  }

  lemma QuotientIs(d: nat, q: nat, a: nat, r: nat)
    requires q > 0 && d == q * a + r && r < q
    ensures d / q == a
  {
    var b := d / q;
    assert d == q * b + d % q;
    assert q * (a + 1) == q * a + q && q * (b + 1) == q * b + q;
    if b < a {
      MoreParts(q, b + 1, a);
    } else if b > a {
      MoreParts(q, a + 1, b);
    }
  }

  lemma {:induction false} SizesFallToOne(n: nat, parts: nat, previous: nat)
    requires parts > 0 && n > 0
    requires previous == 0 || (previous > 1 && ChunkSize(n, parts) == (previous + 1) / 2)
    ensures var sizes := ChunkSizesFrom(n, parts, previous);
            && sizes != [] && sizes[|sizes| - 1] == 1
            && (forall i :: 0 <= i < |sizes| ==> 1 <= sizes[i])
            && sizes[0] == ChunkSize(n, parts)
            && (forall i :: 0 < i < |sizes| ==> sizes[i] == (sizes[i - 1] + 1) / 2)
            && (forall i, j :: 0 <= i < j < |sizes| ==> sizes[i] > sizes[j])
    decreases if n > parts then n - parts else 0
  {
    FinerIsSmaller(n, parts, 2 * parts);
    TwiceTheParts(n, parts);
    hide ChunkSize;
    var size := ChunkSize(n, parts);
    if size > 1 {
      SizesFallToOne(n, 2 * parts, size);
    }
  }

  /** Chunk sizes start at half the schedule and halve on, always rounded up, until they end at single actions. */
  lemma ChunkSizesReachOne(n: nat)
    ensures var sizes := ChunkSizes(n);
            && sizes != [] && sizes[|sizes| - 1] == 1
            && sizes[0] == (if n < 2 then 1 else (n + 1) / 2)
            && (forall i :: 0 < i < |sizes| ==> sizes[i] == (sizes[i - 1] + 1) / 2)
            && (forall i :: 0 <= i < |sizes| ==> 1 <= sizes[i])
            && (forall i, j :: 0 <= i < j < |sizes| ==> sizes[i] > sizes[j])
  {
    if n >= 2 {
      SizesFallToOne(n, 2, 0);
    }
  }

  lemma ChunkSizesUnfold(n: nat, parts: nat, previous: nat)
    requires parts > 0
    ensures ChunkSize(n, parts) >= 1
    ensures ChunkSize(n, parts) > 1 ==> n > parts
    ensures ChunkSizesFrom(n, parts, previous)
         == (if ChunkSize(n, parts) == previous then [] else [ChunkSize(n, parts)])
            + (if ChunkSize(n, parts) == 1 then [] else ChunkSizesFrom(n, 2 * parts, ChunkSize(n, parts)))
  {
    FinerIsSmaller(n, parts, parts);
  }

  lemma Absorb(sizes: seq<nat>, size: nat, previous: nat, rest: seq<nat>)
    ensures sizes + ((if size == previous then [] else [size]) + rest)
         == (if size == previous then sizes else sizes + [size]) + rest
  {
    assert [] + rest == rest;
    assert sizes + ([size] + rest) == (sizes + [size]) + rest;
  }

  method HierarchicalChunkSizes(n: nat) returns (sizes: seq<nat>)
    ensures sizes == ChunkSizes(n)
  {
    if n < 2 {
      return [1];
    }
    hide ChunkSize, ChunkSizesFrom, CeilDiv;
    sizes := [];
    assert sizes + ChunkSizesFrom(n, 2, 0) == ChunkSizesFrom(n, 2, 0);
    ghost var previous := 0;
    var parts := 2;
    while true
      invariant parts > 0
      invariant previous == if sizes == [] then 0 else sizes[|sizes| - 1]
      invariant sizes + ChunkSizesFrom(n, parts, previous) == ChunkSizesFrom(n, 2, 0)
      decreases if n > parts then n - parts else 0
    {
      ChunkSizesUnfold(n, parts, previous);
      var size := ChunkSize(n, parts);
      ghost var rest := if size == 1 then [] else ChunkSizesFrom(n, 2 * parts, size);
      Absorb(sizes, size, previous, rest);
      if sizes == [] || sizes[|sizes| - 1] != size {
        sizes := sizes + [size];
      }
      if size == 1 {
        assert sizes + rest == sizes;
        break;
      }
      previous := size;
      parts := 2 * parts;
    }
  }

  // ---------- proposals ----------

  function RemoveRange(s: Schedule, from: nat, to: nat): Schedule
    requires from <= to <= |s|
  {
    s[..from] + s[to..]
  }

  function ReplaceKind(s: Schedule, i: nat, kind: Action): Schedule
    requires i < |s|
  {
    s[i := s[i].(kind := kind)]
  }

  function ChunkEnd(s: Schedule, size: nat, start: nat): nat {
    if start + size <= |s| then start + size else |s|
  }

  function ChunksFrom(s: Schedule, size: nat, start: nat): seq<Schedule>
    requires size > 0
    decreases if |s| > start then |s| - start else 0
  {
    if start >= |s| then []
    else [RemoveRange(s, start, ChunkEnd(s, size, start))] + ChunksFrom(s, size, start + size)
  }

  function ChunkDeletions(s: Schedule, sizes: seq<nat>): seq<Schedule>
    requires forall i :: 0 <= i < |sizes| ==> sizes[i] > 0
  {
    if sizes == [] then [] else ChunksFrom(s, sizes[0], 0) + ChunkDeletions(s, sizes[1..])
  }

  predicate IsRecovery(kind: Action) {
    kind.RetryBusinessRequest? || kind.RetryProviderRequest? || kind.RetrievePaymentIntent? || kind.ReleaseProviderGate?
  }

  function RecoveryDeletions(s: Schedule, i: nat): seq<Schedule>
    decreases if |s| > i then |s| - i else 0
  {
    if i >= |s| then []
    else (if IsRecovery(s[i].kind) then [RemoveRange(s, i, i + 1)] else []) + RecoveryDeletions(s, i + 1)
  }

  function WithScript(kind: Action, script: Script): Action
    requires HasScript(kind)
  {
    match kind
    case DriveCheckout(_) => DriveCheckout(script)
    case RetryBusinessRequest(_) => RetryBusinessRequest(script)
    case ConfirmPaymentIntent(_) => ConfirmPaymentIntent(script)
    case RetryProviderRequest(_) => RetryProviderRequest(script)
  }

  function SimplifiedProviderActions(kind: Action): seq<Action> {
    if !HasScript(kind) then []
    else
      match kind.script
      case TransportRetry(r) =>
        [WithScript(kind, Single(CommitThenClose))]
        + (if r != Normal then [WithScript(kind, TransportRetry(Normal))] else [])
        + [WithScript(kind, Single(Normal))]
      case Single(o) => if o != Normal then [WithScript(kind, Single(Normal))] else []
  }

  function Replacements(s: Schedule, i: nat, kinds: seq<Action>): seq<Schedule>
    requires i < |s|
  {
    if kinds == [] then [] else [ReplaceKind(s, i, kinds[0])] + Replacements(s, i, kinds[1..])
  }

  /** What replaces or removes the entry at `i`, in the order it is tried. */
  function SimplificationsAt(s: Schedule, i: nat): seq<Schedule>
    requires i < |s|
  {
    match s[i].kind
    case KillApplication(_) =>
      [RemoveRange(s, i, if i + 1 < |s| && s[i + 1].kind.RestartAndAwaitHealth? then i + 2 else i + 1)]
    case DuplicateWebhook => [RemoveRange(s, i, i + 1)]
    case ReorderWebhooks => [RemoveRange(s, i, i + 1)]
    case DelayWebhook(milliseconds) =>
      (if milliseconds > 0 then [ReplaceKind(s, i, DelayWebhook(0))] else []) + [RemoveRange(s, i, i + 1)]
    case DropWebhook => [ReplaceKind(s, i, DeliverWebhook)]
    case _ => Replacements(s, i, SimplifiedProviderActions(s[i].kind))
  }

  function Simplifications(s: Schedule, i: nat): seq<Schedule>
    decreases if |s| > i then |s| - i else 0
  {
    if i >= |s| then [] else SimplificationsAt(s, i) + Simplifications(s, i + 1)
  }

  function Proposals(s: Schedule): seq<Schedule> {
    ChunkSizesReachOne(|s|);
    ChunkDeletions(s, ChunkSizes(|s|)) + RecoveryDeletions(s, 0) + Simplifications(s, 0)
  }

  // ---------- every proposal is a proper reduction ----------

  ghost predicate ProperlyDerived(s: Schedule, p: Schedule) {
    KindsOf(p) != KindsOf(s) && exists indices :: Derived(s, p, indices)
  }

  lemma RemovalIsDerived(s: Schedule, from: nat, to: nat)
    requires from < to <= |s|
    ensures ProperlyDerived(s, RemoveRange(s, from, to))
  {
    var p := RemoveRange(s, from, to);
    var indices: seq<nat> := seq(|p|, i requires 0 <= i < |p| => if i < from then i else i + (to - from));
    assert Derived(s, p, indices);
    assert |KindsOf(p)| < |KindsOf(s)|;
  }

  lemma ReplacementIsDerived(s: Schedule, i: nat, kind: Action)
    requires i < |s| && Simplifies(s[i].kind, kind) && s[i].kind != kind
    ensures ProperlyDerived(s, ReplaceKind(s, i, kind))
  {
    var p := ReplaceKind(s, i, kind);
    assert Derived(s, p, Indices(|s|));
    assert KindsOf(p)[i] != KindsOf(s)[i];
  }

  lemma {:induction false} ChunksAreDerived(s: Schedule, size: nat, start: nat)
    requires size > 0
    ensures forall p :: p in ChunksFrom(s, size, start) ==> ProperlyDerived(s, p)
    decreases if |s| > start then |s| - start else 0
  {
    hide ProperlyDerived, RemoveRange;
    if start < |s| {
      RemovalIsDerived(s, start, ChunkEnd(s, size, start));
      ChunksAreDerived(s, size, start + size);
    }
  }

  lemma {:induction false} ChunkDeletionsAreDerived(s: Schedule, sizes: seq<nat>)
    requires forall i :: 0 <= i < |sizes| ==> sizes[i] > 0
    ensures forall p :: p in ChunkDeletions(s, sizes) ==> ProperlyDerived(s, p)
  {
    hide ProperlyDerived;
    if sizes != [] {
      ChunksAreDerived(s, sizes[0], 0);
      ChunkDeletionsAreDerived(s, sizes[1..]);
    }
  }

  lemma {:induction false} RecoveriesAreDerived(s: Schedule, i: nat)
    ensures forall p :: p in RecoveryDeletions(s, i) ==> ProperlyDerived(s, p)
    decreases if |s| > i then |s| - i else 0
  {
    hide ProperlyDerived, RemoveRange;
    if i < |s| {
      RemovalIsDerived(s, i, i + 1);
      RecoveriesAreDerived(s, i + 1);
    }
  }

  lemma ProviderSimplificationsSimplify(kind: Action, simplified: Action)
    requires simplified in SimplifiedProviderActions(kind)
    ensures Simplifies(kind, simplified) && simplified != kind
  {
  }

  lemma {:induction false} ReplacementsAreDerived(s: Schedule, i: nat, kinds: seq<Action>)
    requires i < |s| && forall k :: k in kinds ==> Simplifies(s[i].kind, k) && s[i].kind != k
    ensures forall p :: p in Replacements(s, i, kinds) ==> ProperlyDerived(s, p)
  {
    hide ProperlyDerived, ReplaceKind, Simplifies;
    if kinds != [] {
      assert kinds[0] in kinds && forall k :: k in kinds[1..] ==> k in kinds;
      ReplacementIsDerived(s, i, kinds[0]);
      ReplacementsAreDerived(s, i, kinds[1..]);
    }
  }

  lemma SimplificationsAtAreDerived(s: Schedule, i: nat)
    requires i < |s|
    ensures forall p :: p in SimplificationsAt(s, i) ==> ProperlyDerived(s, p)
  {
    hide ProperlyDerived, RemoveRange, ReplaceKind, Replacements;
    hide SimplifiedProviderActions;
    RemovalIsDerived(s, i, i + 1);
    match s[i].kind
    case KillApplication(_) =>
      if i + 1 < |s| { RemovalIsDerived(s, i, i + 2); }
    case DelayWebhook(milliseconds) =>
      if milliseconds > 0 { ReplacementIsDerived(s, i, DelayWebhook(0)); }
    case DropWebhook => ReplacementIsDerived(s, i, DeliverWebhook);
    case _ =>
      forall k | k in SimplifiedProviderActions(s[i].kind) ensures Simplifies(s[i].kind, k) && s[i].kind != k {
        ProviderSimplificationsSimplify(s[i].kind, k);
      }
      ReplacementsAreDerived(s, i, SimplifiedProviderActions(s[i].kind));
  }

  lemma {:induction false} SimplificationsAreDerived(s: Schedule, i: nat)
    ensures forall p :: p in Simplifications(s, i) ==> ProperlyDerived(s, p)
    decreases if |s| > i then |s| - i else 0
  {
    hide ProperlyDerived, SimplificationsAt;
    if i < |s| {
      SimplificationsAtAreDerived(s, i);
      SimplificationsAreDerived(s, i + 1);
    }
  }

  lemma ProposalsAreDerived(s: Schedule, p: Schedule)
    requires p in Proposals(s)
    ensures ProperlyDerived(s, p)
  {
    hide ProperlyDerived, ChunkDeletions, RecoveryDeletions, Simplifications;
    ChunkSizesReachOne(|s|);
    ChunkDeletionsAreDerived(s, ChunkSizes(|s|));
    RecoveriesAreDerived(s, 0);
    SimplificationsAreDerived(s, 0);
  }

  // ---------- every single deletion is proposed ----------

  lemma {:induction false} UnitChunks(s: Schedule, start: nat, i: nat)
    requires start <= i < |s|
    ensures RemoveRange(s, i, i + 1) in ChunksFrom(s, 1, start)
    decreases |s| - start
  {
    if start < i {
      UnitChunks(s, start + 1, i);
    }
  }

  lemma {:induction false} ChunksOfSizeAreProposed(s: Schedule, sizes: seq<nat>, k: nat, p: Schedule)
    requires forall i :: 0 <= i < |sizes| ==> sizes[i] > 0
    requires k < |sizes| && p in ChunksFrom(s, sizes[k], 0)
    ensures p in ChunkDeletions(s, sizes)
    decreases k
  {
    if k > 0 {
      ChunksOfSizeAreProposed(s, sizes[1..], k - 1, p);
    }
  }

  /** Every single-action deletion is among the proposals. */
  lemma SingleDeletionsAreProposed(s: Schedule, i: nat)
    requires i < |s|
    ensures RemoveRange(s, i, i + 1) in Proposals(s)
  {
    ChunkSizesReachOne(|s|);
    UnitChunks(s, 0, i);
    ChunksOfSizeAreProposed(s, ChunkSizes(|s|), |ChunkSizes(|s|)| - 1, RemoveRange(s, i, i + 1));
  }

  // ---------- the proposals are exactly the chunks, the kills with their restarts, and the simplifications ----------

  /** Without one chunk of one of the chunk sizes, counted from the left. */
  ghost predicate IsChunkDeletion(s: Schedule, p: Schedule) {
    exists size :: size in ChunkSizes(|s|) && IsChunkFrom(s, p, 0, size)
  }

  /** Without the `k`-th chunk of this size. */
  ghost predicate IsChunk(s: Schedule, p: Schedule, k: nat, size: nat) {
    k * size < |s| && p == RemoveRange(s, k * size, ChunkEnd(s, size, k * size))
  }

  /** Without one kill and the restart right after it, or without a kill no restart follows. */
  ghost predicate IsKillDeletion(s: Schedule, p: Schedule) {
    exists i :: 0 <= i < |s| && IsKillAt(s, p, i)
  }

  predicate IsKillAt(s: Schedule, p: Schedule, i: nat)
    requires i < |s|
  {
    s[i].kind.KillApplication? && p == RemoveRange(s, i, KillEnd(s, i))
  }

  function KillEnd(s: Schedule, i: nat): nat
    requires i < |s|
  {
    if i + 1 < |s| && s[i + 1].kind.RestartAndAwaitHealth? then i + 2 else i + 1
  }

  /** With one action properly simplified; a delay goes all the way to zero. */
  ghost predicate IsSimplification(s: Schedule, p: Schedule) {
    exists i, kind :: 0 <= i < |s| && SimplifiesAt(s, i, kind) && p == ReplaceKind(s, i, kind)
  }

  predicate SimplifiesAt(s: Schedule, i: nat, kind: Action)
    requires i < |s|
  {
    && kind != s[i].kind && Simplifies(s[i].kind, kind)
    && (kind.DelayWebhook? ==> kind.milliseconds == 0)
  }

  /** The `k`-th chunk or a later one is missing. */
  ghost predicate IsChunkFrom(s: Schedule, p: Schedule, k: nat, size: nat) {
    exists j :: k <= j && IsChunk(s, p, j, size)
  }

  lemma LaterChunk(s: Schedule, p: Schedule, k: nat, size: nat)
    ensures IsChunkFrom(s, p, k, size) <==> IsChunk(s, p, k, size) || IsChunkFrom(s, p, k + 1, size)
  {
    hide IsChunk;
    if IsChunkFrom(s, p, k, size) {
      var j :| k <= j && IsChunk(s, p, j, size);
      assert j == k || k + 1 <= j;
    }
  }

  lemma NoLaterChunk(s: Schedule, p: Schedule, k: nat, size: nat)
    requires |s| <= k * size
    ensures !IsChunkFrom(s, p, k, size)
  {
    forall j | k <= j ensures !IsChunk(s, p, j, size) {
      MoreParts(size, k, j);
    }
  }

  lemma {:induction false} ChunksAre(s: Schedule, size: nat, k: nat, p: Schedule)
    requires size > 0
    ensures p in ChunksFrom(s, size, k * size) <==> IsChunkFrom(s, p, k, size)
    decreases if |s| > k * size then |s| - k * size else 0
  {
    assert (k + 1) * size == k * size + size;
    if k * size < |s| {
      ChunksAre(s, size, k + 1, p);
      LaterChunk(s, p, k, size);
    } else {
      NoLaterChunk(s, p, k, size);
    }
    hide RemoveRange, ChunkEnd, IsChunkFrom;
  }

  lemma {:induction false} ChunkDeletionsAre(s: Schedule, sizes: seq<nat>, p: Schedule)
    requires forall i :: 0 <= i < |sizes| ==> sizes[i] > 0
    ensures p in ChunkDeletions(s, sizes) <==> exists size :: size in sizes && IsChunkFrom(s, p, 0, size)
  {
    hide IsChunkFrom, ChunksFrom;
    if sizes != [] {
      var size := sizes[0];
      ChunkDeletionsAre(s, sizes[1..], p);
      assert 0 * size == 0;
      ChunksAre(s, size, 0, p);
      assert forall other :: other in sizes <==> other == size || other in sizes[1..];
    }
  }

  ghost predicate IsRecoveryFrom(s: Schedule, p: Schedule, i: nat) {
    exists j :: i <= j < |s| && IsRecoveryAt(s, p, j)
  }

  predicate IsRecoveryAt(s: Schedule, p: Schedule, j: nat)
    requires j < |s|
  {
    IsRecovery(s[j].kind) && p == RemoveRange(s, j, j + 1)
  }

  lemma {:induction false} RecoveriesAre(s: Schedule, i: nat, p: Schedule)
    ensures p in RecoveryDeletions(s, i) <==> IsRecoveryFrom(s, p, i)
    decreases if |s| > i then |s| - i else 0
  {
    if i < |s| {
      RecoveriesAre(s, i + 1, p);
      assert IsRecoveryFrom(s, p, i) <==> IsRecoveryAt(s, p, i) || IsRecoveryFrom(s, p, i + 1) by {
        hide IsRecoveryAt;
      }
    }
    hide RemoveRange, IsRecovery, IsRecoveryFrom;
  }

  lemma {:induction false} ReplacementsAre(s: Schedule, i: nat, kinds: seq<Action>, p: Schedule)
    requires i < |s|
    ensures p in Replacements(s, i, kinds) <==> exists kind :: kind in kinds && p == ReplaceKind(s, i, kind)
  {
    hide ReplaceKind;
    if kinds != [] {
      ReplacementsAre(s, i, kinds[1..], p);
      assert forall kind :: kind in kinds <==> kind == kinds[0] || kind in kinds[1..];
    }
  }

  /** The listed simplifications of a call are all there are. */
  lemma ProviderSimplificationsAre(kind: Action, simplified: Action)
    requires !kind.DelayWebhook? && !kind.DropWebhook?
    ensures simplified in SimplifiedProviderActions(kind) <==> Simplifies(kind, simplified) && simplified != kind
  {
  }

  /** What is tried at one position: a proper simplification, or a removal that also drops a kill's restart. */
  lemma SimplificationsAtAre(s: Schedule, i: nat, p: Schedule)
    requires i < |s|
    ensures p in SimplificationsAt(s, i) <==>
      || (exists kind :: SimplifiesAt(s, i, kind) && p == ReplaceKind(s, i, kind))
      || IsKillAt(s, p, i)
      || ((s[i].kind.DuplicateWebhook? || s[i].kind.ReorderWebhooks? || s[i].kind.DelayWebhook?)
          && p == RemoveRange(s, i, i + 1))
  {
    hide RemoveRange, ReplaceKind, SimplifiedProviderActions, Replacements;
    var kind := s[i].kind;
    match kind
    case DelayWebhook(milliseconds) =>
      forall k | SimplifiesAt(s, i, k) ensures k == DelayWebhook(0) && milliseconds > 0 {}
      assert milliseconds > 0 ==> SimplifiesAt(s, i, DelayWebhook(0));
    case DropWebhook =>
      forall k | SimplifiesAt(s, i, k) ensures k == DeliverWebhook {}
      assert SimplifiesAt(s, i, DeliverWebhook);
    case KillApplication(_) => forall k | SimplifiesAt(s, i, k) ensures false {}
    case DuplicateWebhook => forall k | SimplifiesAt(s, i, k) ensures false {}
    case ReorderWebhooks => forall k | SimplifiesAt(s, i, k) ensures false {}
    case _ =>
      ReplacementsAre(s, i, SimplifiedProviderActions(kind), p);
      forall k ensures k in SimplifiedProviderActions(kind) <==> SimplifiesAt(s, i, k) {
        ProviderSimplificationsAre(kind, k);
      }
  }

  lemma {:induction false} SimplificationsAre(s: Schedule, i: nat, p: Schedule)
    ensures p in Simplifications(s, i) <==> exists j :: i <= j < |s| && p in SimplificationsAt(s, j)
    decreases if |s| > i then |s| - i else 0
  {
    hide SimplificationsAt;
    if i < |s| {
      SimplificationsAre(s, i + 1, p);
    }
  }

  /** A deletion of a single action is a chunk of size one. */
  lemma UnitIsChunk(s: Schedule, i: nat)
    requires i < |s|
    ensures IsChunkDeletion(s, RemoveRange(s, i, i + 1))
  {
    hide RemoveRange, ChunkSizes;
    ChunkSizesReachOne(|s|);
    var sizes := ChunkSizes(|s|);
    assert sizes[|sizes| - 1] in sizes;
    assert IsChunk(s, RemoveRange(s, i, i + 1), i, 1);
    assert IsChunkFrom(s, RemoveRange(s, i, i + 1), 0, 1);
  }

  /** Nothing but these three is proposed, and all of them are. */
  lemma ProposalsAre(s: Schedule, p: Schedule)
    ensures p in Proposals(s) <==> IsChunkDeletion(s, p) || IsKillDeletion(s, p) || IsSimplification(s, p)
  {
    hide RemoveRange, ReplaceKind, ChunkSizes, SimplificationsAt, SimplifiesAt, IsChunkFrom, IsKillAt, ChunkDeletions,
      RecoveryDeletions, Simplifications;
    ChunkSizesReachOne(|s|);
    ChunkDeletionsAre(s, ChunkSizes(|s|), p);
    RecoveriesAre(s, 0, p);
    SimplificationsAre(s, 0, p);
    if p in RecoveryDeletions(s, 0) {
      var j :| 0 <= j < |s| && IsRecoveryAt(s, p, j);
      UnitIsChunk(s, j);
    }
    if p in Simplifications(s, 0) {
      var j :| 0 <= j < |s| && p in SimplificationsAt(s, j);
      SimplificationsAtAre(s, j, p);
      UnitIsChunk(s, j);
    }
    if IsKillDeletion(s, p) {
      var i :| 0 <= i < |s| && IsKillAt(s, p, i);
      SimplificationsAtAre(s, i, p);
    }
    if IsSimplification(s, p) {
      var i, kind :| 0 <= i < |s| && SimplifiesAt(s, i, kind) && p == ReplaceKind(s, i, kind);
      SimplificationsAtAre(s, i, p);
    }
  }

  // ---------- and in which order ----------

  /** A full chunk, or what is left of the schedule at its right end. */
  predicate RemovesChunk(s: Schedule, p: Schedule, size: nat) {
    |p| + size >= |s| && (|p| + size == |s| || p == Prefix(s, |p|))
  }

  function Prefix(s: Schedule, n: nat): Schedule {
    if n <= |s| then s[..n] else s
  }

  lemma {:induction false} ChunksRemove(s: Schedule, size: nat, start: nat)
    requires size > 0
    ensures forall p :: p in ChunksFrom(s, size, start) ==> RemovesChunk(s, p, size)
    decreases if |s| > start then |s| - start else 0
  {
    if start < |s| {
      ChunksRemove(s, size, start + size);
    }
  }

  /** Of two proposals the first is no longer than the second, unless it drops the right end. */
  predicate Coarser(s: Schedule, p: Schedule, q: Schedule) {
    |p| <= |q| || p == Prefix(s, |p|)
  }

  lemma {:induction false} CoarserFirst(s: Schedule, sizes: seq<nat>)
    requires forall i :: 0 <= i < |sizes| ==> sizes[i] > 0
    requires forall i, j :: 0 <= i < j < |sizes| ==> sizes[i] > sizes[j]
    ensures var all := ChunkDeletions(s, sizes);
            && (forall a, b :: 0 <= a < b < |all| ==> Coarser(s, all[a], all[b]))
            && (forall p :: p in all ==> |p| + sizes[0] >= |s|)
  {
    if sizes != [] {
      var first, rest := ChunksFrom(s, sizes[0], 0), ChunkDeletions(s, sizes[1..]);
      ChunksRemove(s, sizes[0], 0);
      CoarserFirst(s, sizes[1..]);
      hide ChunksFrom, ChunkDeletions, Prefix;
      forall a, b | 0 <= a < b < |first + rest| ensures Coarser(s, (first + rest)[a], (first + rest)[b]) {
        if b < |first| {
          assert first[b] in first && RemovesChunk(s, first[b], sizes[0]);
          ChunkIsCoarser(s, first[a], first[b], sizes[0]);
        } else if a < |first| {
          assert rest[b - |first|] in rest;
          ChunkIsCoarser(s, first[a], rest[b - |first|], sizes[0]);
        }
      }
    }
  }

  lemma ChunkIsCoarser(s: Schedule, p: Schedule, q: Schedule, size: nat)
    requires RemovesChunk(s, p, size) && |q| + size >= |s|
    ensures Coarser(s, p, q)
  {
    hide Prefix;
  }

  lemma LaterProposalsAreSmall(s: Schedule, p: Schedule)
    requires p in RecoveryDeletions(s, 0) + Simplifications(s, 0)
    ensures |p| + 2 >= |s|
  {
    RecoveriesAre(s, 0, p);
    SimplificationsAre(s, 0, p);
    if p in Simplifications(s, 0) {
      var j :| 0 <= j < |s| && p in SimplificationsAt(s, j);
      SimplificationsAtAre(s, j, p);
    }
  }

  /**
   The first `n` proposals are chunks from coarse to fine, the left half before all others; what
   follows removes or replaces single steps.
   */
  ghost predicate CoarseToFine(s: Schedule, all: seq<Schedule>, n: nat) {
    && n <= |all|
    && (forall a, b :: 0 <= a < b < n ==> Coarser(s, all[a], all[b]))
    && (forall a :: 0 <= a < n ==> IsChunkDeletion(s, all[a]))
    && (forall b :: n <= b < |all| ==> |all[b]| + 2 >= |s|)
    && (|s| >= 2 ==> n > 0 && all[0] == RemoveRange(s, 0, (|s| + 1) / 2))
  }

  /** Big deletions are tried first. */
  lemma ProposalsInOrder(s: Schedule)
    ensures exists n :: CoarseToFine(s, Proposals(s), n)
  {
    ChunkSizesReachOne(|s|);
    var sizes := ChunkSizes(|s|);
    var chunks, later := ChunkDeletions(s, sizes), RecoveryDeletions(s, 0) + Simplifications(s, 0);
    CoarserFirst(s, sizes);
    if |s| >= 2 { FirstIsHalf(s); }
    forall a | 0 <= a < |chunks| ensures IsChunkDeletion(s, chunks[a]) {
      assert chunks[a] in chunks;
      ChunkDeletionsAre(s, sizes, chunks[a]);
    }
    forall b | 0 <= b < |later| ensures |later[b]| + 2 >= |s| {
      assert later[b] in later;
      LaterProposalsAreSmall(s, later[b]);
    }
    assert Proposals(s) == chunks + later;
    hide *;
    InTwoParts(s, chunks, later);
  }

  lemma FirstIsHalf(s: Schedule)
    requires |s| >= 2
    ensures ChunkSizes(|s|) != [] && forall i :: 0 <= i < |ChunkSizes(|s|)| ==> ChunkSizes(|s|)[i] > 0
    ensures var chunks := ChunkDeletions(s, ChunkSizes(|s|));
            chunks != [] && chunks[0] == RemoveRange(s, 0, (|s| + 1) / 2)
  {
    ChunkSizesReachOne(|s|);
    var size := ChunkSizes(|s|)[0];
    hide ChunkSizes;
    assert ChunksFrom(s, size, 0)[0] == RemoveRange(s, 0, ChunkEnd(s, size, 0));
  }

  lemma InTwoParts(s: Schedule, chunks: seq<Schedule>, later: seq<Schedule>)
    requires forall a, b :: 0 <= a < b < |chunks| ==> Coarser(s, chunks[a], chunks[b])
    requires forall a :: 0 <= a < |chunks| ==> IsChunkDeletion(s, chunks[a])
    requires forall b :: 0 <= b < |later| ==> |later[b]| + 2 >= |s|
    requires |s| >= 2 ==> chunks != [] && chunks[0] == RemoveRange(s, 0, (|s| + 1) / 2)
    ensures CoarseToFine(s, chunks + later, |chunks|)
  {
    hide Coarser, IsChunkDeletion, RemoveRange;
    var all := chunks + later;
    forall b | |chunks| <= b < |all| ensures |all[b]| + 2 >= |s| {
      assert all[b] == later[b - |chunks|];
    }
  }

  // ---------- the unbounded frontier ----------

  /** The candidate a proposal yields, if any: normalise, materialise, compare. */
  function CandidateOf(source: PlannedCase, current: Schedule, proposal: Schedule): Option<Candidate> {
    if !Completable(source, proposal) then None
    else
      match MaterializeSchedule(source, NormalizedSchedule(source, proposal))
      case Err(_) => None
      case Ok(c) =>
        if Less(ComplexityOf(KindsOf(c.schedule)), ComplexityOf(KindsOf(current))) then Some(c) else None
  }

  function AddFresh(found: seq<Candidate>, next: Option<Candidate>): seq<Candidate> {
    if next.None? || next.value in found then found else found + [next.value]
  }

  function Emit(source: PlannedCase, current: Schedule, proposals: seq<Schedule>): seq<Candidate> {
    if proposals == [] then []
    else
      var last := |proposals| - 1;
      AddFresh(Emit(source, current, proposals[..last]), CandidateOf(source, current, proposals[last]))
  }

  /** Everything the generator could offer for `current`, without a limit. */
  function FullFrontier(source: PlannedCase, current: Schedule): seq<Candidate> {
    Emit(source, current, Proposals(current))
  }

  lemma EmitAppend(source: PlannedCase, current: Schedule, proposals: seq<Schedule>, p: Schedule)
    ensures Emit(source, current, proposals + [p])
         == AddFresh(Emit(source, current, proposals), CandidateOf(source, current, p))
  {
    assert (proposals + [p])[..|proposals|] == proposals;
  }

  lemma {:induction false} EmitGrows(
    source: PlannedCase, current: Schedule, proposals: seq<Schedule>, more: seq<Schedule>)
    ensures Emit(source, current, proposals) <= Emit(source, current, proposals + more)
  {
    hide CandidateOf;
    if more == [] {
      assert proposals + more == proposals;
    } else {
      var last := |more| - 1;
      EmitGrows(source, current, proposals, more[..last]);
      assert proposals + more == (proposals + more[..last]) + [more[last]];
      EmitAppend(source, current, proposals + more[..last], more[last]);
    }
  }

  /** A member of the frontier is a checked, strictly simpler candidate of the source. */
  predicate Genuine(source: PlannedCase, current: Schedule, c: Candidate) {
    && MaterializeSchedule(source, c.schedule) == Ok(c)
    && Less(ComplexityOf(KindsOf(c.schedule)), ComplexityOf(KindsOf(current)))
  }

  lemma CandidateIsGenuine(source: PlannedCase, current: Schedule, p: Schedule)
    requires CandidateOf(source, current, p).Some?
    ensures Genuine(source, current, CandidateOf(source, current, p).value)
  {
    hide Descends, Replayable, CutPointsSupported, Less, ComplexityOf;
  }

  lemma {:induction false} EmitIsGenuine(source: PlannedCase, current: Schedule, proposals: seq<Schedule>)
    ensures forall c :: c in Emit(source, current, proposals) ==> Genuine(source, current, c)
    ensures Distinct(Emit(source, current, proposals))
    ensures forall c :: c in Emit(source, current, proposals) <==>
      exists p :: p in proposals && CandidateOf(source, current, p) == Some(c)
  {
    hide CandidateOf, Genuine;
    if proposals != [] {
      var last := |proposals| - 1;
      var before := proposals[..last];
      EmitIsGenuine(source, current, before);
      if CandidateOf(source, current, proposals[last]).Some? {
        CandidateIsGenuine(source, current, proposals[last]);
      }
      assert proposals == before + [proposals[last]];
      forall c
        ensures c in Emit(source, current, proposals) <==>
          exists p :: p in proposals && CandidateOf(source, current, p) == Some(c)
      {
        if c in Emit(source, current, proposals) {
          if c in Emit(source, current, before) {
            var p :| p in before && CandidateOf(source, current, p) == Some(c);
            assert p in proposals;
          } else {
            assert proposals[last] in proposals;
          }
        }
        if p :| p in proposals && CandidateOf(source, current, p) == Some(c) {
          if p in before { assert c in Emit(source, current, before); }
        }
      }
    }
  }

  /**
   The frontier of a valid current schedule is exactly the set of normalised proposals that
   complete; only a legacy source can lose one, to the cut-point rule.
   */
  lemma FrontierIsEveryFeasibleProposal(source: PlannedCase, current: Schedule, p: Schedule)
    requires ValidSource(source) && ValidCurrent(source, current) && p in Proposals(current)
    ensures CandidateOf(source, current, p).Some?
       <==> Completable(source, p) && CutPointsSupported(KindsOf(NormalizedSchedule(source, p)))
    ensures CandidateOf(source, current, p).Some? ==>
      CandidateOf(source, current, p).value in FullFrontier(source, current)
      && CandidateOf(source, current, p).value.schedule == NormalizedSchedule(source, p)
    ensures Completable(source, p) && !source.legacy ==> CutPointsSupported(KindsOf(NormalizedSchedule(source, p)))
  {
    hide Descends, Completable, CutPointsSupported, Less, ComplexityOf, ValidSource, ValidCurrent, Proposals;
    EmitIsGenuine(source, current, Proposals(current));
    ProposalsAreDerived(current, p);
    var indices :| Derived(current, p, indices);
    if Completable(source, p) {
      FeasibleProposalsMaterialize(source, current, p, indices);
    }
  }
}
