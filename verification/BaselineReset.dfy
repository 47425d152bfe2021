/**
 Case reset with recovery (crates/tiv-runtime/src/baseline.rs): fence, rename, clone, mark,
 attest, drop the backup, and a restore that may be entered from any phase. Any statement may
 fail, before or after its effect.
 */
module BaselineReset {
  import opened Wrappers
  import opened Catalog
  import opened BaselineAttestation

  datatype Phase =
    | PreMutation
    | FenceStarted
    | RenameStarted
    | CloneStarted
    | MarkerUpdateStarted
    | CaseAttestationStarted
    | BaselineAttestationStarted
    | CommitStarted

  datatype Failure = Failure(phase: Phase, error: BaselineError)

  // ---------- what must survive every fault ----------

  /** Where a reset begins: an attested case, a sealed baseline. */
  ghost predicate Begins(start: Databases, admin: nat) {
    Attestable(start, admin) && Sealed(start, admin)
  }

  /** The original database, fenced or not. */
  predicate IsOriginal(start: Databases, db: Database)
    requires CaseName in start
  {
    db.(connectable := true) == start[CaseName].(connectable := true)
  }

  /** Nothing but the case, its backup and attestation copies ever changes; the baseline never does. */
  ghost predicate Elsewhere(start: Databases, catalog: Databases, backup: Name) {
    forall n: Name :: !n.Attest? && n != CaseName && n != backup ==>
      (n in start <==> n in catalog) && (n in start ==> start[n] == catalog[n])
  }

  /**
   The original is under its own name with no backup, or under the backup name beside at most a
   stranger; it is never open while a stranger stands beside it.
   */
  ghost predicate Guarded(start: Databases, catalog: Databases, backup: Name)
    requires CaseName in start
  {
    && Elsewhere(start, catalog, backup)
    && (|| (CaseName in catalog && backup !in catalog && IsOriginal(start, catalog[CaseName]))
        || (&& backup in catalog && IsOriginal(start, catalog[backup])
            && (CaseName in catalog ==>
                  && !catalog[backup].connectable
                  && catalog[CaseName].owner == start[CaseName].owner && catalog[CaseName].oid != start[CaseName].oid)))
  }

  /** A finished copy of the baseline under the case name. */
  predicate IsReplacement(start: Databases, db: Database, uuid: nat)
    requires CaseName in start && BaselineName in start
  {
    && db.oid != start[CaseName].oid && db.owner == start[CaseName].owner
    && db.connectable && db.seal.None?
    && db.contents == start[BaselineName].contents.(markerUuid := uuid, markerKind := CaseMarker)
  }

  /** The backup is gone and the attested replacement has taken its place. */
  ghost predicate Committed(start: Databases, catalog: Databases, backup: Name, uuid: nat)
    requires CaseName in start && BaselineName in start
  {
    && Elsewhere(start, catalog, backup)
    && backup !in catalog && CaseName in catalog && IsReplacement(start, catalog[CaseName], uuid)
  }

  ghost predicate PointSafe(start: Databases, catalog: Databases, backup: Name, uuid: nat)
    requires CaseName in start && BaselineName in start
  {
    SameButAttest(start, catalog) || Guarded(start, catalog, backup) || Committed(start, catalog, backup, uuid)
  }

  /** Safety at every point, including one where the process stops for good. */
  ghost predicate SafeSince(start: Databases, history: seq<Databases>, from: nat, backup: Name, uuid: nat)
    requires CaseName in start && BaselineName in start
  {
    from <= |history| && forall k :: from <= k < |history| ==> PointSafe(start, history[k], backup, uuid)
  }

  ghost predicate Restored(start: Databases, catalog: Databases, backup: Name)
    requires CaseName in start
  {
    && Elsewhere(start, catalog, backup)
    && backup !in catalog && CaseName in catalog && catalog[CaseName] == start[CaseName]
  }

  /** The attestation names in use are the same. */
  ghost predicate SameCopies(before: Databases, after: Databases) {
    forall n: Name :: n.Attest? ==> (n in before <==> n in after)
  }

  // ---------- single transitions ----------

  lemma FenceKeeps(start: Databases, catalog: Databases, backup: Name, name: Name, allow: bool)
    requires CaseName in start && Guarded(start, catalog, backup) && !backup.Attest?
    requires name in catalog && (name == backup || (name == CaseName && backup !in catalog))
    requires allow && name == backup ==> CaseName !in catalog
    ensures Guarded(start, catalog[name := catalog[name].(connectable := allow)], backup)
  {
  }

  lemma RenameAwayKeeps(start: Databases, catalog: Databases, backup: Name)
    requires CaseName in start && backup != CaseName && Guarded(start, catalog, backup)
    requires CaseName in catalog && backup !in catalog
    ensures Guarded(start, (catalog - {CaseName})[backup := catalog[CaseName]], backup)
  {
  }

  lemma RenameBackKeeps(start: Databases, catalog: Databases, backup: Name)
    requires CaseName in start && backup != CaseName && Guarded(start, catalog, backup)
    requires CaseName !in catalog && backup in catalog
    ensures Guarded(start, (catalog - {backup})[CaseName := catalog[backup]], backup)
  {
  }

  lemma CloneKeeps(start: Databases, catalog: Databases, backup: Name, db: Database)
    requires CaseName in start && backup != CaseName && Guarded(start, catalog, backup)
    requires CaseName !in catalog && db.owner == start[CaseName].owner && db.oid != start[CaseName].oid
    requires backup in catalog && !catalog[backup].connectable
    ensures Guarded(start, catalog[CaseName := db], backup)
  {
  }

  lemma MarkKeeps(start: Databases, catalog: Databases, backup: Name, uuid: nat)
    requires CaseName in start && backup != CaseName && Guarded(start, catalog, backup)
    requires CaseName in catalog && backup in catalog
    ensures Guarded(start, catalog[CaseName := Marked(catalog[CaseName], uuid)], backup)
  {
  }

  lemma DropStrangerKeeps(start: Databases, catalog: Databases, backup: Name)
    requires CaseName in start && backup != CaseName && Guarded(start, catalog, backup)
    requires backup in catalog
    ensures Guarded(start, catalog - {CaseName}, backup)
  {
  }

  lemma AttestKeeps(start: Databases, before: Databases, after: Databases, backup: Name)
    requires CaseName in start && !backup.Attest? && Guarded(start, before, backup) && SameButAttest(before, after)
    ensures Guarded(start, after, backup)
  {
    assert CaseName in before <==> CaseName in after;
    assert backup in before <==> backup in after;
  }

  lemma StartIsGuarded(start: Databases, backup: Name)
    requires CaseName in start && backup !in start
    ensures Guarded(start, start, backup)
  {
  }

  // ---------- histories ----------

  ghost predicate GuardedSince(start: Databases, history: seq<Databases>, from: nat, backup: Name)
    requires CaseName in start
  {
    from <= |history| && forall k :: from <= k < |history| ==> Guarded(start, history[k], backup)
  }

  lemma GuardedGrows(start: Databases, history: seq<Databases>, from: nat, backup: Name, catalog: Databases)
    requires CaseName in start && GuardedSince(start, history, from, backup) && Guarded(start, catalog, backup)
    ensures GuardedSince(start, history + [catalog], from, backup)
  {
    hide Guarded;
  }

  lemma QuietIsGuarded(
    start: Databases, catalog: Databases, history: seq<Databases>, from: nat, split: nat, backup: Name)
    requires CaseName in start && !backup.Attest? && from <= split <= |history|
    requires Guarded(start, catalog, backup)
    requires GuardedSince(start, history[..split], from, backup)
    requires QuietSince(catalog, history, split)
    ensures GuardedSince(start, history, from, backup)
  {
    hide Guarded, SameButAttest;
    forall k | from <= k < |history| ensures Guarded(start, history[k], backup) {
      if k < split {
        assert history[..split][k] == history[k];
      } else {
        AttestKeeps(start, catalog, history[k], backup);
      }
    }
  }

  lemma GuardedConcat(start: Databases, history: seq<Databases>, from: nat, split: nat, backup: Name)
    requires CaseName in start && from <= split <= |history|
    requires GuardedSince(start, history[..split], from, backup) && GuardedSince(start, history, split, backup)
    ensures GuardedSince(start, history, from, backup)
  {
    hide Guarded;
    forall k | from <= k < |history| ensures Guarded(start, history[k], backup) {
      if k < split { assert history[..split][k] == history[k]; }
    }
  }

  // ---------- the original stays closed ----------

  /** The original, wherever it is, admits no new session. */
  ghost predicate Closed(start: Databases, catalog: Databases, backup: Name)
    requires CaseName in start
  {
    && (backup in catalog ==> !catalog[backup].connectable)
    && (CaseName in catalog && catalog[CaseName].oid == start[CaseName].oid ==> !catalog[CaseName].connectable)
  }

  ghost predicate ClosedSince(start: Databases, history: seq<Databases>, from: nat, backup: Name)
    requires CaseName in start
  {
    forall k :: from <= k < |history| ==> Closed(start, history[k], backup)
  }

  lemma ClosedConcat(start: Databases, history: seq<Databases>, from: nat, split: nat, backup: Name)
    requires CaseName in start && from <= split <= |history|
    requires ClosedSince(start, history[..split], from, backup) && ClosedSince(start, history, split, backup)
    ensures ClosedSince(start, history, from, backup)
  {
    hide Closed;
    forall k | from <= k < |history| ensures Closed(start, history[k], backup) {
      if k < split { assert history[..split][k] == history[k]; }
    }
  }

  lemma QuietIsClosed(start: Databases, catalog: Databases, history: seq<Databases>, from: nat, backup: Name)
    requires CaseName in start && !backup.Attest? && Closed(start, catalog, backup)
    requires QuietSince(catalog, history, from)
    ensures ClosedSince(start, history, from, backup)
  {
    forall k | from <= k < |history| ensures Closed(start, history[k], backup) {
      AttestKeepsClosed(start, catalog, history[k], backup);
    }
  }

  lemma AttestKeepsClosed(start: Databases, before: Databases, after: Databases, backup: Name)
    requires CaseName in start && !backup.Attest? && Closed(start, before, backup) && SameButAttest(before, after)
    ensures Closed(start, after, backup)
  {
    assert CaseName in before <==> CaseName in after;
    assert backup in before <==> backup in after;
  }

  /** Nothing can stand beside an open original. */
  lemma BesideIsClosed(start: Databases, catalog: Databases, backup: Name)
    requires CaseName in start && Guarded(start, catalog, backup) && backup in catalog && CaseName in catalog
    ensures Closed(start, catalog, backup)
  {
  }

  lemma MarkKeepsClosed(start: Databases, catalog: Databases, backup: Name, uuid: nat)
    requires CaseName in start && backup != CaseName && Guarded(start, catalog, backup)
    requires backup in catalog && CaseName in catalog
    ensures Closed(start, catalog, backup)
    ensures Closed(start, catalog[CaseName := Marked(catalog[CaseName], uuid)], backup)
  {
  }

  /** A history that only ever was at two points. */
  lemma PointsAreSafe(
    start: Databases, history: seq<Databases>, from: nat, backup: Name, before: Databases, after: Databases)
    requires CaseName in start && from <= |history|
    requires Guarded(start, before, backup) && Closed(start, before, backup)
    requires Guarded(start, after, backup) && Closed(start, after, backup)
    requires forall k :: from <= k < |history| ==> history[k] == before || history[k] == after
    ensures GuardedSince(start, history, from, backup) && ClosedSince(start, history, from, backup)
  {
    hide Guarded, Closed;
  }

  lemma CommittedIsClosed(start: Databases, catalog: Databases, backup: Name, uuid: nat)
    requires CaseName in start && BaselineName in start && Committed(start, catalog, backup, uuid)
    ensures Closed(start, catalog, backup)
  {
  }

  /** The fence, the third statement of a reset, was issued and took effect. */
  ghost predicate Fenced(server: Server, start: Databases, begun: nat, backup: Name) {
    backup !in start && server.CleanBetween(begun, begun + 2) && !server.fate(begun + 2).FailsWithoutEffect?
  }

  // ---------- the forward path ----------

  /** Closes the case to new sessions, evicts the old ones, re-checks it, and moves it aside. */
  method FenceAndRename(server: Server, before: Identity, backup: Name, ghost start: Databases)
    returns (failure: Option<Failure>)
    requires server.Valid() && server.catalog == start && backup.Recovery? && backup !in start
    requires CaseName in start
    modifies server`catalog, server`clock, server`history, server`evicted
    ensures server.Valid() && old(server.clock) <= server.clock <= old(server.clock) + 4
    ensures old(server.history) <= server.history
    ensures Guarded(start, server.catalog, backup)
    ensures GuardedSince(start, server.history, |old(server.history)|, backup)
    ensures failure.Some? ==> !failure.value.error.CaseDatabaseRecoveryFailed? && !failure.value.phase.PreMutation?
    ensures failure.None? ==>
      backup in server.catalog && CaseName !in server.catalog && !server.catalog[backup].connectable
    ensures SameCopies(start, server.catalog)
    ensures !server.fate(old(server.clock)).FailsWithoutEffect? ==>
      ClosedSince(start, server.history, |old(server.history)|, backup) && Closed(start, server.catalog, backup)
    ensures server.CleanBetween(old(server.clock), server.clock) && before == CaseIdentity(start[CaseName]) ==>
      failure.None?
    ensures failure.None? ==> server.clock == old(server.clock) + 4 && server.fate(old(server.clock)).Succeeds?
  {
    hide Guarded, DistinctOids;
    StartIsGuarded(start, backup);
    FenceKeeps(start, start, backup, CaseName, false);
    var ok := server.AllowConnections(CaseName, false);
    if !ok { return Some(Failure(FenceStarted, StatementFailed)); }
    ok := server.Evict(before.oid);
    if !ok { return Some(Failure(FenceStarted, StatementFailed)); }
    var found: Option<CatalogIdentity>;
    ok, found := server.Lookup(CaseName);
    if !ok { return Some(Failure(FenceStarted, StatementFailed)); }
    if found != Some(CatalogIdentity(before.oid, before.owner)) {
      return Some(Failure(FenceStarted, UnexpectedDatabaseIdentity));
    }
    RenameAwayKeeps(start, server.catalog, backup);
    ok := server.Rename(CaseName, backup);
    if !ok { return Some(Failure(RenameStarted, StatementFailed)); }
    return None;
  }

  /** Copies the baseline under the case name and grants its roles. */
  method Clone(server: Server, backup: Name, ghost start: Databases)
    returns (failure: Option<Failure>)
    requires server.Valid() && backup.Recovery? && Begins(start, server.admin)
    requires Guarded(start, server.catalog, backup) && backup in server.catalog && CaseName !in server.catalog
    requires Closed(start, server.catalog, backup)
    modifies server
    ensures server.Valid() && old(server.clock) <= server.clock <= old(server.clock) + 2
    ensures old(server.history) <= server.history
    ensures Guarded(start, server.catalog, backup)
    ensures GuardedSince(start, server.history, |old(server.history)|, backup)
    ensures failure.Some? ==> !failure.value.error.CaseDatabaseRecoveryFailed? && !failure.value.phase.PreMutation?
    ensures failure.None? ==>
      && backup in server.catalog && CaseName in server.catalog
      && server.catalog[CaseName].connectable && server.catalog[CaseName].seal.None?
      && server.catalog[CaseName].contents == start[BaselineName].contents
    ensures SameCopies(old(server.catalog), server.catalog)
    ensures ClosedSince(start, server.history, |old(server.history)|, backup) && Closed(start, server.catalog, backup)
    ensures server.CleanBetween(old(server.clock), server.clock) ==> failure.None?
    ensures failure.None? ==> server.clock == old(server.clock) + 2
  {
    assert server.catalog[BaselineName] == start[BaselineName];
    ghost var copy := Database(server.nextOid, server.admin, true, start[BaselineName].contents, None);
    assert server.catalog[backup].oid == start[CaseName].oid < server.nextOid;
    CloneKeeps(start, server.catalog, backup, copy);
    var ok := server.CreateFrom(CaseName, BaselineName);
    if !ok { return Some(Failure(CloneStarted, StatementFailed)); }
    ok := server.Execute();
    if !ok { return Some(Failure(CloneStarted, StatementFailed)); }
    return None;
  }

  /** Opens the maintenance session and makes sure the backup name is free. */
  method RequireBackupAbsent(server: Server, backup: Name) returns (failure: Option<Failure>)
    requires server.Valid() && CaseName in server.catalog && backup.Recovery?
    modifies server`clock, server`history
    ensures old(server.clock) <= server.clock <= old(server.clock) + 3 && old(server.history) <= server.history
    ensures QuietSince(server.catalog, server.history, |old(server.history)|)
    ensures failure.Some? ==> failure.value.phase.PreMutation? && !failure.value.error.CaseDatabaseRecoveryFailed?
    ensures failure.None? ==>
      backup !in server.catalog && GuardedSince(server.catalog, server.history, |old(server.history)|, backup)
    ensures server.CleanBetween(old(server.clock), server.clock) && backup !in server.catalog ==> failure.None?
    ensures failure.Some? && server.CleanBetween(old(server.clock), server.clock) ==>
      failure.value.error == UnexpectedDatabaseIdentity
    ensures failure.None? <==>
      server.CleanBetween(old(server.clock), old(server.clock) + 2) && backup !in server.catalog
    ensures failure.None? ==> server.clock == old(server.clock) + 2 && |server.history| == |old(server.history)| + 2
  {
    var ok := server.Execute();
    if !ok { return Some(Failure(PreMutation, StatementFailed)); }
    var found: Option<CatalogIdentity>;
    ok, found := server.Lookup(backup);
    if !ok || found.Some? {
      failure := Some(Failure(PreMutation, if ok then UnexpectedDatabaseIdentity else StatementFailed));
      ok := server.Execute();
      return;
    }
    StartIsGuarded(server.catalog, backup);
    return None;
  }

  /** Moves the case aside and puts a copy of the baseline in its place. */
  method MoveAndClone(server: Server, before: Identity, backup: Name, ghost start: Databases)
    returns (failure: Option<Failure>)
    requires server.Valid() && server.catalog == start && Begins(start, server.admin)
    requires backup.Recovery? && backup !in start
    modifies server
    ensures server.Valid() && old(server.clock) <= server.clock <= old(server.clock) + 6
    ensures old(server.history) <= server.history
    ensures failure.Some? ==> !failure.value.error.CaseDatabaseRecoveryFailed? && !failure.value.phase.PreMutation?
    ensures Guarded(start, server.catalog, backup)
    ensures GuardedSince(start, server.history, |old(server.history)|, backup)
    ensures failure.None? ==>
      && backup in server.catalog && CaseName in server.catalog
      && server.catalog[CaseName].connectable && server.catalog[CaseName].seal.None?
      && server.catalog[CaseName].contents == start[BaselineName].contents
    ensures SameCopies(start, server.catalog)
    ensures !server.fate(old(server.clock)).FailsWithoutEffect? ==>
      ClosedSince(start, server.history, |old(server.history)|, backup) && Closed(start, server.catalog, backup)
    ensures server.CleanBetween(old(server.clock), server.clock) && before == CaseIdentity(start[CaseName]) ==>
      failure.None?
    ensures failure.None? ==> server.clock == old(server.clock) + 6 && server.fate(old(server.clock)).Succeeds?
  {
    hide Guarded, DistinctOids, Closed;
    failure := FenceAndRename(server, before, backup, start);
    if failure.Some? { return; }
    ghost var split, soFar := |server.history|, server.history;
    failure := Clone(server, backup, start);
    assert server.history[..split] == soFar;
    GuardedConcat(start, server.history, |old(server.history)|, split, backup);
    ClosedConcat(start, server.history, |old(server.history)|, split, backup);
  }

  /** Fences, renames and clones; tells in which phase it stopped. */
  method PrepareCaseReplacement(server: Server, before: Identity, backup: Name)
    returns (failure: Option<Failure>)
    requires server.Valid() && Begins(server.catalog, server.admin) && backup.Recovery?
    modifies server
    ensures server.Valid() && old(server.clock) <= server.clock <= old(server.clock) + 9
    ensures old(server.history) <= server.history
    ensures failure.Some? ==> !failure.value.error.CaseDatabaseRecoveryFailed?
    ensures failure.Some? && failure.value.phase.PreMutation? ==>
      server.catalog == old(server.catalog) && QuietSince(server.catalog, server.history, |old(server.history)|)
    ensures !(failure.Some? && failure.value.phase.PreMutation?) ==>
      && backup !in old(server.catalog) && Guarded(old(server.catalog), server.catalog, backup)
      && GuardedSince(old(server.catalog), server.history, |old(server.history)|, backup)
    ensures failure.None? ==>
      && backup in server.catalog && CaseName in server.catalog
      && server.catalog[CaseName].connectable && server.catalog[CaseName].seal.None?
      && server.catalog[CaseName].contents == old(server.catalog)[BaselineName].contents
    ensures failure.None? ==> !server.catalog[backup].connectable
    ensures failure.Some? && server.CleanBetween(old(server.clock), server.clock)
            && before == CaseIdentity(old(server.catalog)[CaseName]) ==>
      failure.value.error == UnexpectedDatabaseIdentity && backup in old(server.catalog)
    ensures SameCopies(old(server.catalog), server.catalog)
    ensures failure.None? ==> Fenced(server, old(server.catalog), old(server.clock), backup)
    ensures Fenced(server, old(server.catalog), old(server.clock), backup) ==>
      && ClosedSince(old(server.catalog), server.history, |old(server.history)| + 2, backup)
      && Closed(old(server.catalog), server.catalog, backup)
    ensures server.CleanBetween(old(server.clock), server.clock) ==>
      (backup !in old(server.catalog) && before == CaseIdentity(old(server.catalog)[CaseName]) ==> failure.None?)
    ensures failure.None? ==> server.clock == old(server.clock) + 9 && |server.history| >= |old(server.history)| + 2
  {
    ghost var start, from := server.catalog, |old(server.history)|;
    failure := RequireBackupAbsent(server, backup);
    if failure.Some? { return; }
    hide Guarded, DistinctOids, Attestable, Sealed, SameButAttest;
    ghost var split, soFar := |server.history|, server.history;
    failure := MoveAndClone(server, before, backup, start);
    assert server.history[..split] == soFar;
    GuardedConcat(start, server.history, from, split, backup);
    GuardedGrows(start, server.history, from, backup, server.catalog);
    assert Fenced(server, start, old(server.clock), backup)
      <==> !server.fate(old(server.clock) + 2).FailsWithoutEffect?;
    var ok := server.Execute();
    if failure.None? && !ok {
      failure := Some(Failure(CloneStarted, StatementFailed));
    }
  }

  /** Gives the copy its own marker. */
  method ReplaceCaseMarker(server: Server, backup: Name, uuid: nat, ghost start: Databases) returns (ok: bool)
    requires server.Valid() && backup.Recovery? && CaseName in start
    requires Guarded(start, server.catalog, backup) && backup in server.catalog && CaseName in server.catalog
    modifies server`catalog, server`clock, server`history, server`evicted
    ensures server.Valid() && old(server.clock) <= server.clock <= old(server.clock) + 3
    ensures old(server.history) <= server.history
    ensures Guarded(start, server.catalog, backup) && backup in server.catalog
    ensures GuardedSince(start, server.history, |old(server.history)|, backup)
    ensures ok ==> server.catalog == old(server.catalog)[CaseName := Marked(old(server.catalog)[CaseName], uuid)]
    ensures SameCopies(old(server.catalog), server.catalog)
    ensures server.CleanBetween(old(server.clock), server.clock) && old(server.catalog)[CaseName].connectable ==> ok
    ensures ok ==> server.clock == old(server.clock) + 3
    ensures ClosedSince(start, server.history, |old(server.history)|, backup) && Closed(start, server.catalog, backup)
  {
    ghost var from, plain := |server.history|, server.catalog;
    MarkKeeps(start, plain, backup, uuid);
    MarkKeepsClosed(start, plain, backup, uuid);
    hide Guarded, Closed, DistinctOids, Marked, GuardedSince, ClosedSince;
    ok := server.Connect(CaseName);
    PointsAreSafe(start, server.history, from, backup, plain, plain);
    if !ok { return; }
    ok := server.UpdateMarker(CaseName, uuid);
    var closed := server.Execute();
    PointsAreSafe(start, server.history, from, backup, plain, server.catalog);
    ok := ok && closed;
  }

  // ---------- recovery ----------

  lemma GuardedRecoveryCases(start: Databases, catalog: Databases, backup: Name)
    requires CaseName in start && backup != CaseName && Guarded(start, catalog, backup)
    ensures backup !in catalog ==>
      CaseName in catalog && IdentityOf(catalog[CaseName]) == IdentityOf(start[CaseName])
    ensures backup in catalog ==>
      && IdentityOf(catalog[backup]) == IdentityOf(start[CaseName])
      && (CaseName in catalog ==>
            catalog[CaseName].owner == start[CaseName].owner
            && IdentityOf(catalog[CaseName]) != IdentityOf(start[CaseName]))
  {
  }

  lemma ReopenedIsRestored(start: Databases, catalog: Databases, backup: Name)
    requires CaseName in start && start[CaseName].connectable && backup != CaseName
    requires Guarded(start, catalog, backup) && backup !in catalog
    requires CaseName in catalog && catalog[CaseName].connectable
    ensures Restored(start, catalog, backup)
  {
  }

  /** Puts the backup back under the case name, dropping whatever stands there. */
  method RestoreFromBackup(server: Server, backup: Name, replacement: Option<CatalogIdentity>, ghost start: Databases)
    returns (ok: bool)
    requires server.Valid() && backup.Recovery? && CaseName in start && start[CaseName].connectable
    requires Guarded(start, server.catalog, backup) && backup in server.catalog
    requires replacement == if CaseName in server.catalog then Some(IdentityOf(server.catalog[CaseName])) else None
    modifies server`catalog, server`clock, server`history, server`evicted
    ensures server.Valid() && server.clock >= old(server.clock) && old(server.history) <= server.history
    ensures Guarded(start, server.catalog, backup)
    ensures GuardedSince(start, server.history, |old(server.history)|, backup)
    ensures ok ==> Restored(start, server.catalog, backup) && server.clock > old(server.clock)
    ensures server.CleanBetween(old(server.clock), server.clock) <==> ok
  {
    hide Guarded, Restored, DistinctOids, Elsewhere, IsOriginal;
    if replacement.Some? {
      ok := server.Evict(replacement.value.oid);
      if !ok { return; }
      DropStrangerKeeps(start, server.catalog, backup);
      ok := server.Drop(CaseName);
      if !ok { return; }
    }
    FenceKeeps(start, server.catalog, backup, backup, true);
    ok := server.AllowConnections(backup, true);
    if !ok { return; }
    RenameBackKeeps(start, server.catalog, backup);
    ok := server.Rename(backup, CaseName);
    if ok { ReopenedIsRestored(start, server.catalog, backup); }
  }

  lemma RestoredIsAttestable(start: Databases, catalog: Databases, backup: Name, admin: nat)
    requires CaseName in start && Attestable(start, admin) && Restored(start, catalog, backup)
    ensures Attestable(catalog, admin) && CaseIdentity(catalog[CaseName]) == CaseIdentity(start[CaseName])
  {
  }

  /** The case name holds a stranger and there is no backup: nothing is left to restore. */
  predicate Settled(start: Databases, catalog: Databases, backup: Name)
    requires CaseName in start
  {
    backup !in catalog && CaseName in catalog && IdentityOf(catalog[CaseName]) != IdentityOf(start[CaseName])
  }

  /** What the two names hold decides: reopen, put the backup back, or refuse. */
  method RestoreByIdentity(
    server: Server, expected: Identity, backup: Name, caseIdentity: Option<CatalogIdentity>,
    backupIdentity: Option<CatalogIdentity>, ghost start: Databases)
    returns (ok: bool)
    requires server.Valid() && backup.Recovery? && Begins(start, server.admin)
    requires expected == CaseIdentity(start[CaseName])
    requires Guarded(start, server.catalog, backup) || Settled(start, server.catalog, backup)
    requires caseIdentity == server.Found(CaseName) && backupIdentity == server.Found(backup)
    modifies server`catalog, server`clock, server`history, server`evicted
    ensures server.Valid() && server.clock >= old(server.clock) && old(server.history) <= server.history
    ensures old(Guarded(start, server.catalog, backup)) ==>
      && Guarded(start, server.catalog, backup)
      && GuardedSince(start, server.history, |old(server.history)|, backup)
      && (server.CleanBetween(old(server.clock), server.clock) <==> ok)
    ensures ok ==> Restored(start, server.catalog, backup) && server.clock > old(server.clock)
    ensures !old(Guarded(start, server.catalog, backup)) ==>
      !ok && server.catalog == old(server.catalog) && server.history == old(server.history)
  {
    if Guarded(start, server.catalog, backup) {
      GuardedRecoveryCases(start, server.catalog, backup);
    }
    hide DistinctOids, Guarded, Restored, IsOriginal, Elsewhere;
    var expectedCatalog := CatalogIdentity(expected.oid, expected.owner);
    if caseIdentity == Some(expectedCatalog) && backupIdentity.None? {
      ok := ReopenCase(server, backup, start);
    } else if backupIdentity == Some(expectedCatalog) {
      if caseIdentity.Some? && (caseIdentity.value == expectedCatalog || caseIdentity.value.owner != expected.owner) {
        return false;
      }
      ok := RestoreFromBackup(server, backup, caseIdentity, start);
    } else {
      return false;
    }
  }

  /** Reads both names and undoes whatever the reset had done to them. */
  method RestoreByCatalog(server: Server, expected: Identity, backup: Name, ghost start: Databases)
    returns (ok: bool)
    requires server.Valid() && backup.Recovery? && Begins(start, server.admin)
    requires expected == CaseIdentity(start[CaseName])
    requires Guarded(start, server.catalog, backup) || Settled(start, server.catalog, backup)
    modifies server`catalog, server`clock, server`history, server`evicted
    ensures server.Valid() && server.clock >= old(server.clock) && old(server.history) <= server.history
    ensures old(Guarded(start, server.catalog, backup)) ==>
      && Guarded(start, server.catalog, backup)
      && GuardedSince(start, server.history, |old(server.history)|, backup)
      && (server.CleanBetween(old(server.clock), server.clock) <==> ok)
    ensures ok ==> Restored(start, server.catalog, backup) && server.clock > old(server.clock) + 2
    ensures !old(Guarded(start, server.catalog, backup)) ==>
      && !ok && server.catalog == old(server.catalog)
      && QuietSince(server.catalog, server.history, |old(server.history)|)
  {
    SameIsReflexive(server.catalog);
    hide DistinctOids, Guarded, Restored, Settled, SameButAttest;
    var caseIdentity: Option<CatalogIdentity>, backupIdentity: Option<CatalogIdentity>;
    ok, caseIdentity := server.Lookup(CaseName);
    if !ok { return; }
    ok, backupIdentity := server.Lookup(backup);
    if !ok { return; }
    ghost var split, soFar := |server.history|, server.history;
    ghost var guarded := Guarded(start, server.catalog, backup);
    ok := RestoreByIdentity(server, expected, backup, caseIdentity, backupIdentity, start);
    assert server.history[..split] == soFar;
    if guarded { GuardedConcat(start, server.history, |old(server.history)|, split, backup); }
  }

  /**
   Restores the original case from wherever the reset stopped. It never endangers the original; it
   reports success only when the original is back exactly; it succeeds if its own statements do; and
   it refuses, touching nothing, once the backup is gone.
   */
  method RestoreOriginalCase(server: Server, expected: Identity, backup: Name, ghost start: Databases)
    returns (ok: bool)
    requires server.Valid() && backup.Recovery? && Begins(start, server.admin)
    requires expected == CaseIdentity(start[CaseName])
    requires Guarded(start, server.catalog, backup) || Settled(start, server.catalog, backup)
    modifies server`catalog, server`clock, server`history, server`evicted
    ensures server.Valid() && server.clock >= old(server.clock) && old(server.history) <= server.history
    ensures old(Guarded(start, server.catalog, backup)) ==>
      && Guarded(start, server.catalog, backup)
      && GuardedSince(start, server.history, |old(server.history)|, backup)
      && (server.CleanBetween(old(server.clock), server.clock) ==> ok)
    ensures ok ==> server.clock >= old(server.clock) + 12
    ensures ok ==>
      Restored(start, server.catalog, backup) && server.CleanBetween(old(server.clock), server.clock)
    ensures !old(Guarded(start, server.catalog, backup)) ==>
      && !ok && server.catalog == old(server.catalog)
      && QuietSince(server.catalog, server.history, |old(server.history)|)
  {
    hide DistinctOids, Guarded, Restored, Settled;
    ok := server.Execute();
    if !ok { return; }
    ghost var split, soFar := |server.history|, server.history;
    ghost var guarded := Guarded(start, server.catalog, backup);
    ok := RestoreByCatalog(server, expected, backup, start);
    assert server.history[..split] == soFar;
    if guarded { GuardedConcat(start, server.history, |old(server.history)|, split, backup); }
    if !ok { return; }
    split, soFar := |server.history|, server.history;
    ok := CloseAndConfirm(server, expected, backup, start);
    assert server.history[..split] == soFar;
    GuardedConcat(start, server.history, |old(server.history)|, split, backup);
  }

  /** The case never moved: only its fence has to go. */
  method ReopenCase(server: Server, backup: Name, ghost start: Databases) returns (ok: bool)
    requires server.Valid() && backup.Recovery? && CaseName in start && start[CaseName].connectable
    requires Guarded(start, server.catalog, backup) && backup !in server.catalog && CaseName in server.catalog
    modifies server`catalog, server`clock, server`history, server`evicted
    ensures server.Valid() && server.clock == old(server.clock) + 1 && old(server.history) <= server.history
    ensures Guarded(start, server.catalog, backup)
    ensures GuardedSince(start, server.history, |old(server.history)|, backup)
    ensures ok ==> Restored(start, server.catalog, backup)
    ensures server.CleanBetween(old(server.clock), server.clock) <==> ok
  {
    FenceKeeps(start, server.catalog, backup, CaseName, true);
    ok := server.AllowConnections(CaseName, true);
    if ok { ReopenedIsRestored(start, server.catalog, backup); }
  }

  /** Closes the maintenance session and proves the restored case is the expected one. */
  method CloseAndConfirm(server: Server, expected: Identity, backup: Name, ghost start: Databases) returns (ok: bool)
    requires server.Valid() && backup.Recovery? && Begins(start, server.admin)
    requires expected == CaseIdentity(start[CaseName])
    requires Guarded(start, server.catalog, backup) && Restored(start, server.catalog, backup)
    modifies server`clock, server`history
    ensures server.clock >= old(server.clock) && old(server.history) <= server.history
    ensures ok ==> server.clock == old(server.clock) + 8
    ensures GuardedSince(start, server.history, |old(server.history)|, backup)
    ensures server.CleanBetween(old(server.clock), server.clock) <==> ok
  {
    RestoredIsAttestable(start, server.catalog, backup, server.admin);
    hide Guarded, Restored, DistinctOids;
    ok := server.Execute();
    if !ok { return; }
    ghost var split, soFar := |server.history|, server.history;
    var restored := ObserveCaseIdentity(server);
    assert server.history[..split] == soFar;
    QuietIsGuarded(start, server.catalog, server.history, |old(server.history)|, split, backup);
    ok := restored.Ok? && restored.value == expected;
  }

  // ---------- failing, and the whole reset ----------

  lemma GuardedIsSafe(start: Databases, history: seq<Databases>, from: nat, backup: Name, uuid: nat)
    requires CaseName in start && BaselineName in start && GuardedSince(start, history, from, backup)
    ensures SafeSince(start, history, from, backup, uuid)
  {
    hide Guarded;
  }

  lemma SafeConcat(start: Databases, history: seq<Databases>, from: nat, split: nat, backup: Name, uuid: nat)
    requires CaseName in start && BaselineName in start && from <= split <= |history|
    requires SafeSince(start, history[..split], from, backup, uuid) && SafeSince(start, history, split, backup, uuid)
    ensures SafeSince(start, history, from, backup, uuid)
  {
    hide PointSafe;
    forall k | from <= k < |history| ensures PointSafe(start, history[k], backup, uuid) {
      if k < split { assert history[..split][k] == history[k]; }
    }
  }

  lemma QuietIsSafe(
    start: Databases, catalog: Databases, history: seq<Databases>, from: nat, backup: Name, uuid: nat)
    requires CaseName in start && BaselineName in start && !backup.Attest?
    requires SameButAttest(start, catalog) || Guarded(start, catalog, backup) || Committed(start, catalog, backup, uuid)
    requires QuietSince(catalog, history, from)
    ensures SafeSince(start, history, from, backup, uuid)
  {
    hide Guarded, Committed, SameButAttest;
    forall k | from <= k < |history| ensures PointSafe(start, history[k], backup, uuid) {
      if SameButAttest(start, catalog) {
        SameComposes(start, catalog, history[k]);
      } else if Guarded(start, catalog, backup) {
        AttestKeeps(start, catalog, history[k], backup);
      } else {
        AttestKeepsCommitted(start, catalog, history[k], backup, uuid);
      }
    }
  }

  lemma SameComposes(a: Databases, b: Databases, c: Databases)
    requires SameButAttest(a, b) && SameButAttest(b, c)
    ensures SameButAttest(a, c)
  {
  }

  lemma AttestKeepsCommitted(start: Databases, before: Databases, after: Databases, backup: Name, uuid: nat)
    requires CaseName in start && BaselineName in start && !backup.Attest?
    requires Committed(start, before, backup, uuid) && SameButAttest(before, after)
    ensures Committed(start, after, backup, uuid)
  {
    assert CaseName in before <==> CaseName in after;
    assert backup in before <==> backup in after;
  }

  lemma CommittedIsSettled(start: Databases, catalog: Databases, backup: Name, uuid: nat)
    requires CaseName in start && BaselineName in start && Committed(start, catalog, backup, uuid)
    ensures Settled(start, catalog, backup) && !Guarded(start, catalog, backup)
  {
  }

  lemma GuardedIsNotCommitted(start: Databases, catalog: Databases, backup: Name, uuid: nat)
    requires CaseName in start && BaselineName in start && (Guarded(start, catalog, backup) || catalog == start)
    ensures !Committed(start, catalog, backup, uuid)
  {
  }

  /** Every outcome of a reset, in terms of what the case name now holds. */
  ghost predicate Resolved(
    start: Databases, catalog: Databases, backup: Name, uuid: nat, result: Result<Identity, BaselineError>)
    requires CaseName in start && BaselineName in start
  {
    match result
    case Ok(after) => Committed(start, catalog, backup, uuid) && after == CaseIdentity(catalog[CaseName])
    case Err(error) =>
      if error.CaseDatabaseRecoveryFailed?
      then Guarded(start, catalog, backup) || Committed(start, catalog, backup, uuid)
      else Restored(start, catalog, backup) || SameButAttest(start, catalog)
  }

  /** Fails one phase: before any mutation nothing is done, after it the original is restored or the failure says so. */
  method FailCaseReset(
    server: Server, before: Identity, backup: Name, failure: Failure, ghost start: Databases, ghost uuid: nat)
    returns (error: BaselineError)
    requires server.Valid() && backup.Recovery? && Begins(start, server.admin)
    requires before == CaseIdentity(start[CaseName])
    requires !failure.error.CaseDatabaseRecoveryFailed?
    requires failure.phase.PreMutation? ==> server.catalog == start
    requires !failure.phase.PreMutation? ==>
      Guarded(start, server.catalog, backup) || Committed(start, server.catalog, backup, uuid)
    modifies server`catalog, server`clock, server`history, server`evicted
    ensures server.Valid() && server.clock >= old(server.clock) && old(server.history) <= server.history
    ensures SafeSince(start, server.history, |old(server.history)|, backup, uuid)
    ensures Resolved(start, server.catalog, backup, uuid, Err(error))
    ensures !old(Committed(start, server.catalog, backup, uuid)) ==>
      (server.CleanBetween(old(server.clock), server.clock) ==> !error.CaseDatabaseRecoveryFailed?)
    ensures failure.phase.PreMutation? ==> error == failure.error
    ensures !error.CaseDatabaseRecoveryFailed? ==>
      server.CleanBetween(old(server.clock), server.clock) && (!failure.phase.PreMutation? ==> error == failure.error)
    ensures old(Committed(start, server.catalog, backup, uuid)) ==> server.catalog == old(server.catalog)
    ensures Committed(start, server.catalog, backup, uuid) <==> old(Committed(start, server.catalog, backup, uuid))
  {
    if failure.phase.PreMutation? {
      return failure.error;
    }
    ghost var catalog, guarded := server.catalog, Guarded(start, server.catalog, backup);
    if Committed(start, catalog, backup, uuid) { CommittedIsSettled(start, catalog, backup, uuid); }
    hide Guarded, Committed, Settled, Restored, DistinctOids, SameButAttest;
    var restored := RestoreOriginalCase(server, before, backup, start);
    if guarded {
      GuardedIsNotCommitted(start, server.catalog, backup, uuid);
      GuardedIsNotCommitted(start, catalog, backup, uuid);
      GuardedIsSafe(start, server.history, |old(server.history)|, backup, uuid);
    } else {
      QuietIsSafe(start, catalog, server.history, |old(server.history)|, backup, uuid);
    }
    return if restored then failure.error else CaseDatabaseRecoveryFailed;
  }

  /** The copy beside the backup is finished and attested, ready to take over. */
  ghost predicate Ready(start: Databases, catalog: Databases, backup: Name, uuid: nat)
    requires CaseName in start && BaselineName in start
  {
    && Guarded(start, catalog, backup)
    && backup in catalog && CaseName in catalog && IsReplacement(start, catalog[CaseName], uuid)
  }

  lemma CommitReplaces(start: Databases, catalog: Databases, backup: Name, uuid: nat)
    requires CaseName in start && BaselineName in start && backup.Recovery?
    requires Ready(start, catalog, backup, uuid)
    ensures Committed(start, catalog - {backup}, backup, uuid)
  {
  }

  lemma AttestKeepsReady(start: Databases, before: Databases, after: Databases, backup: Name, uuid: nat)
    requires CaseName in start && BaselineName in start && backup.Recovery?
    requires Ready(start, before, backup, uuid) && SameButAttest(before, after)
    ensures Ready(start, after, backup, uuid)
  {
    AttestKeeps(start, before, after, backup);
    assert CaseName in before <==> CaseName in after;
    assert backup in before <==> backup in after;
  }

  lemma GuardedOwner(start: Databases, catalog: Databases, backup: Name)
    requires CaseName in start && Guarded(start, catalog, backup) && backup in catalog && CaseName in catalog
    ensures catalog[CaseName].owner == start[CaseName].owner && catalog[CaseName].oid != start[CaseName].oid
    ensures IdentityOf(catalog[backup]) == IdentityOf(start[CaseName])
  {
  }

  lemma GuardedBaseline(start: Databases, catalog: Databases, backup: Name, admin: nat)
    requires CaseName in start && BaselineName in start && backup.Recovery? && Guarded(start, catalog, backup)
    ensures BaselineName in catalog && catalog[BaselineName] == start[BaselineName]
    ensures Sealed(catalog, admin) <==> Sealed(start, admin)
  {
  }

  /** Marks the fresh copy and attests it as a new, equivalent case. */
  method MarkAndAttestCase(server: Server, before: Identity, backup: Name, uuid: nat, ghost start: Databases)
    returns (result: Result<Identity, Failure>)
    requires server.Valid() && backup.Recovery? && Begins(start, server.admin)
    requires before == CaseIdentity(start[CaseName])
    requires Guarded(start, server.catalog, backup) && backup in server.catalog && CaseName in server.catalog
    requires server.catalog[CaseName].connectable && server.catalog[CaseName].seal.None?
    requires server.catalog[CaseName].contents == start[BaselineName].contents
    modifies server`catalog, server`clock, server`history, server`evicted
    ensures server.Valid() && old(server.clock) <= server.clock <= old(server.clock) + 10
    ensures old(server.history) <= server.history
    ensures Guarded(start, server.catalog, backup)
    ensures GuardedSince(start, server.history, |old(server.history)|, backup)
    ensures result.Err? ==> !result.error.error.CaseDatabaseRecoveryFailed? && !result.error.phase.PreMutation?
    ensures result.Ok? ==>
      Ready(start, server.catalog, backup, uuid) && result.value == CaseIdentity(server.catalog[CaseName])
    ensures SameCopies(old(server.catalog), server.catalog)
    ensures server.CleanBetween(old(server.clock), server.clock) ==> result.Ok?
    ensures result.Ok? ==> server.clock == old(server.clock) + 10
    ensures ClosedSince(start, server.history, |old(server.history)|, backup) && Closed(start, server.catalog, backup)
  {
    GuardedOwner(start, server.catalog, backup);
    hide Guarded, DistinctOids, Closed;
    var marked := ReplaceCaseMarker(server, backup, uuid, start);
    if !marked { return Err(Failure(MarkerUpdateStarted, StatementFailed)); }
    ghost var split, soFar := |server.history|, server.history;
    var after := ObserveCaseIdentity(server);
    assert server.history[..split] == soFar;
    QuietIsGuarded(start, server.catalog, server.history, |old(server.history)|, split, backup);
    QuietIsClosed(start, server.catalog, server.history, split, backup);
    ClosedConcat(start, server.history, |old(server.history)|, split, backup);
    match after {
      case Err(e) =>
        return Err(Failure(CaseAttestationStarted, e));
      case Ok(identity) =>
        if identity.oid == before.oid || identity.owner != before.owner || identity.markerUuid != uuid {
          return Err(Failure(CaseAttestationStarted, ResetProofFailed));
        }
        return Ok(identity);
    }
  }

  /** Attests that the baseline is still exactly the expected one. */
  method AttestBaseline(
    server: Server, expected: Identity, backup: Name, attest: Name, ghost start: Databases, ghost uuid: nat)
    returns (failure: Option<Failure>)
    requires server.Valid() && backup.Recovery? && attest.Attest? && CaseName in start && BaselineName in start
    requires Ready(start, server.catalog, backup, uuid)
    modifies server
    ensures server.Valid() && old(server.clock) <= server.clock <= old(server.clock) + 20
    ensures old(server.history) <= server.history
    ensures Ready(start, server.catalog, backup, uuid)
    ensures SameButAttest(old(server.catalog), server.catalog)
    ensures SafeSince(start, server.history, |old(server.history)|, backup, uuid)
    ensures failure.Some? ==> !failure.value.error.CaseDatabaseRecoveryFailed? && !failure.value.phase.PreMutation?
    ensures failure.None? ==> expected == CaseIdentity(start[BaselineName])
    ensures server.CleanBetween(old(server.clock), server.clock) && Sealed(start, server.admin) ==>
      (failure.None? <==> expected == CaseIdentity(start[BaselineName]) && attest !in old(server.catalog))
    ensures failure.None? ==> server.clock == old(server.clock) + 20
    ensures ClosedSince(start, server.history, |old(server.history)|, backup) && Closed(start, server.catalog, backup)
    ensures failure.Some? && server.CleanBetween(old(server.clock), server.clock) && Sealed(start, server.admin) ==>
      failure.value.error == BaselineIdentityMismatch
  {
    hide Guarded, DistinctOids, SameButAttest, IsReplacement, Sealed;
    ghost var catalog := server.catalog;
    GuardedBaseline(start, catalog, backup, server.admin);
    BesideIsClosed(start, catalog, backup);
    hide Closed;
    var observed := ObserveSealedBaseline(server, attest);
    AttestKeepsReady(start, catalog, server.catalog, backup, uuid);
    AttestKeepsClosed(start, catalog, server.catalog, backup);
    QuietIsClosed(start, catalog, server.history, |old(server.history)|, backup);
    QuietIsSafe(start, catalog, server.history, |old(server.history)|, backup, uuid);
    match observed {
      case Err(e) =>
        return Some(Failure(BaselineAttestationStarted, e));
      case Ok(identity) =>
        if identity != expected {
          return Some(Failure(BaselineAttestationStarted, BaselineIdentityMismatch));
        }
        return None;
    }
  }

  /** The drop was issued and changed the catalog, whatever it reported. */
  ghost predicate DropTookEffect(server: Server, droppedAt: Option<nat>) {
    droppedAt.Some? && !server.fate(droppedAt.value).FailsWithoutEffect?
  }

  /** The drop succeeded, and so did closing the session right after it. */
  ghost predicate DropReported(server: Server, droppedAt: Option<nat>) {
    droppedAt.Some? && server.fate(droppedAt.value).Succeeds? && server.fate(droppedAt.value + 1).Succeeds?
  }

  /** The drop failed after its effect, or it succeeded and closing the session right after it failed. */
  ghost predicate DropLost(server: Server, droppedAt: Option<nat>) {
    && droppedAt.Some?
    && (server.fate(droppedAt.value).FailsAfterEffect?
        || (server.fate(droppedAt.value).Succeeds? && !server.fate(droppedAt.value + 1).Succeeds?))
  }

  /** Drops the backup: the one step after which the original cannot come back. */
  method DropBackup(server: Server, before: Identity, backup: Name, ghost start: Databases, ghost uuid: nat)
    returns (ok: bool, ghost droppedAt: Option<nat>)
    requires server.Valid() && backup.Recovery? && CaseName in start && BaselineName in start
    requires before == CaseIdentity(start[CaseName]) && Ready(start, server.catalog, backup, uuid)
    modifies server`catalog, server`clock, server`history, server`evicted
    ensures server.Valid() && server.clock >= old(server.clock) && old(server.history) <= server.history
    ensures SafeSince(start, server.history, |old(server.history)|, backup, uuid)
    ensures Ready(start, server.catalog, backup, uuid) || Committed(start, server.catalog, backup, uuid)
    ensures ok <==> DropReported(server, droppedAt)
    ensures Committed(start, server.catalog, backup, uuid) <==> DropTookEffect(server, droppedAt)
    ensures droppedAt.Some? ==> droppedAt.value == old(server.clock) + 3
    ensures server.clock <= old(server.clock) + if droppedAt.Some? then 5 else 3
    ensures CaseName in server.catalog && server.catalog[CaseName] == old(server.catalog)[CaseName]
    ensures server.CleanBetween(old(server.clock), server.clock) ==> ok
    ensures ClosedSince(start, server.history, |old(server.history)|, backup) && Closed(start, server.catalog, backup)
  {
    GuardedOwner(start, server.catalog, backup);
    CommitReplaces(start, server.catalog, backup, uuid);
    BesideIsClosed(start, server.catalog, backup);
    CommittedIsClosed(start, server.catalog - {backup}, backup, uuid);
    hide Closed;
    GuardedIsNotCommitted(start, server.catalog, backup, uuid);
    hide Guarded, DistinctOids, Committed, IsReplacement;
    ok, droppedAt := DropDatabaseExact(server, backup, CatalogIdentity(before.oid, before.owner));
  }

  predicate NamesAreFree(start: Databases, backup: Name, attest: Name) {
    backup !in start && attest !in start
  }

  /** Marks and attests the copy, then attests the baseline: what must be known before the backup goes. */
  method AttestBoth(
    server: Server, before: Identity, expected: Identity, backup: Name, attest: Name, uuid: nat, ghost start: Databases)
    returns (result: Result<Identity, Failure>)
    requires server.Valid() && backup.Recovery? && attest.Attest? && Begins(start, server.admin)
    requires before == CaseIdentity(start[CaseName])
    requires Guarded(start, server.catalog, backup) && backup in server.catalog && CaseName in server.catalog
    requires server.catalog[CaseName].connectable && server.catalog[CaseName].seal.None?
    requires server.catalog[CaseName].contents == start[BaselineName].contents
    requires SameCopies(start, server.catalog)
    modifies server
    ensures server.Valid() && old(server.clock) <= server.clock <= old(server.clock) + 30
    ensures old(server.history) <= server.history && Guarded(start, server.catalog, backup)
    ensures SafeSince(start, server.history, |old(server.history)|, backup, uuid)
    ensures result.Ok? ==>
      && server.clock == old(server.clock) + 30 && Ready(start, server.catalog, backup, uuid)
      && result.value == CaseIdentity(server.catalog[CaseName]) && expected == CaseIdentity(start[BaselineName])
    ensures result.Err? ==> !result.error.error.CaseDatabaseRecoveryFailed? && !result.error.phase.PreMutation?
    ensures server.CleanBetween(old(server.clock), server.clock) ==>
      (result.Ok? <==> attest !in start && expected == CaseIdentity(start[BaselineName]))
    ensures ClosedSince(start, server.history, |old(server.history)|, backup) && Closed(start, server.catalog, backup)
    ensures result.Err? && server.CleanBetween(old(server.clock), server.clock) ==>
      result.error.error == BaselineIdentityMismatch
  {
    ghost var from := |old(server.history)|;
    hide Guarded, DistinctOids, Committed, IsReplacement, SameButAttest, PointSafe, Attestable, Sealed, Closed;
    var after := MarkAndAttestCase(server, before, backup, uuid, start);
    GuardedIsSafe(start, server.history, from, backup, uuid);
    if after.Err? { return after; }
    ghost var split, soFar := |server.history|, server.history;
    ghost var attested := server.catalog;
    var baseline := AttestBaseline(server, expected, backup, attest, start, uuid);
    assert server.history[..split] == soFar;
    SafeConcat(start, server.history, from, split, backup, uuid);
    ClosedConcat(start, server.history, from, split, backup);
    if baseline.Some? { return Err(baseline.value); }
    SameCase(attested, server.catalog);
    return after;
  }

  /** From the unmarked copy to the drop: the backup goes only after both attestations. */
  method AttestAndCommit(
    server: Server, before: Identity, expected: Identity, backup: Name, attest: Name, uuid: nat, ghost start: Databases)
    returns (result: Result<Identity, Failure>, ghost droppedAt: Option<nat>)
    requires server.Valid() && backup.Recovery? && attest.Attest? && Begins(start, server.admin)
    requires before == CaseIdentity(start[CaseName])
    requires Guarded(start, server.catalog, backup) && backup in server.catalog && CaseName in server.catalog
    requires server.catalog[CaseName].connectable && server.catalog[CaseName].seal.None?
    requires server.catalog[CaseName].contents == start[BaselineName].contents
    requires SameCopies(start, server.catalog)
    modifies server
    ensures server.Valid() && server.clock >= old(server.clock) && old(server.history) <= server.history
    ensures SafeSince(start, server.history, |old(server.history)|, backup, uuid)
    ensures result.Ok? ==>
      Committed(start, server.catalog, backup, uuid) && result.value == CaseIdentity(server.catalog[CaseName])
    ensures result.Err? ==>
      && !result.error.error.CaseDatabaseRecoveryFailed? && !result.error.phase.PreMutation?
      && (Guarded(start, server.catalog, backup)
          || (result.error.phase.CommitStarted? && Committed(start, server.catalog, backup, uuid)))
    ensures result.Ok? <==> DropReported(server, droppedAt)
    ensures Committed(start, server.catalog, backup, uuid) <==> DropTookEffect(server, droppedAt)
    ensures droppedAt.Some? ==> droppedAt.value == old(server.clock) + 33
    ensures server.clock <= old(server.clock) + if droppedAt.Some? then 35 else 33
    ensures Committed(start, server.catalog, backup, uuid) ==> expected == CaseIdentity(start[BaselineName])
    ensures server.CleanBetween(old(server.clock), server.clock) ==>
      (result.Ok? <==> attest !in start && expected == CaseIdentity(start[BaselineName]))
    ensures ClosedSince(start, server.history, |old(server.history)|, backup) && Closed(start, server.catalog, backup)
    ensures result.Err? && server.CleanBetween(old(server.clock), server.clock) ==>
      result.error.error == BaselineIdentityMismatch
    ensures result.Err? && droppedAt.Some? ==> result.error == Failure(CommitStarted, CaseBackupCleanupFailed)
  {
    ghost var from := |old(server.history)|;
    hide Guarded, DistinctOids, Committed, IsReplacement, SameButAttest, PointSafe, Attestable, Sealed, Closed;
    var attested := AttestBoth(server, before, expected, backup, attest, uuid, start);
    GuardedIsNotCommitted(start, server.catalog, backup, uuid);
    if attested.Err? { return attested, None; }
    ghost var split, soFar := |server.history|, server.history;
    var dropped: bool;
    dropped, droppedAt := DropBackup(server, before, backup, start, uuid);
    assert server.history[..split] == soFar;
    SafeConcat(start, server.history, from, split, backup, uuid);
    ClosedConcat(start, server.history, from, split, backup);
    if !dropped { return Err(Failure(CommitStarted, CaseBackupCleanupFailed)), droppedAt; }
    return attested, droppedAt;
  }

  /** The forward path in full; the backup is dropped only after both attestations. */
  method Advance(
    server: Server, before: Identity, expected: Identity, backup: Name, attest: Name, uuid: nat)
    returns (result: Result<Identity, Failure>, ghost droppedAt: Option<nat>)
    requires server.Valid() && Begins(server.catalog, server.admin) && backup.Recovery? && attest.Attest?
    requires before == CaseIdentity(server.catalog[CaseName])
    modifies server
    ensures server.Valid() && server.clock >= old(server.clock) && old(server.history) <= server.history
    ensures SafeSince(old(server.catalog), server.history, |old(server.history)|, backup, uuid)
    ensures result.Ok? ==>
      && Committed(old(server.catalog), server.catalog, backup, uuid)
      && result.value == CaseIdentity(server.catalog[CaseName])
    ensures result.Err? ==>
      && !result.error.error.CaseDatabaseRecoveryFailed?
      && (result.error.phase.PreMutation? ==> server.catalog == old(server.catalog))
      && (!result.error.phase.PreMutation? ==>
            Guarded(old(server.catalog), server.catalog, backup)
            || Committed(old(server.catalog), server.catalog, backup, uuid))
      && (!result.error.phase.PreMutation? && !result.error.phase.CommitStarted? ==>
            Guarded(old(server.catalog), server.catalog, backup))
    ensures result.Ok? <==> DropReported(server, droppedAt)
    ensures Committed(old(server.catalog), server.catalog, backup, uuid) <==> DropTookEffect(server, droppedAt)
    ensures droppedAt.Some? ==> droppedAt.value == old(server.clock) + 42
    ensures server.clock <= old(server.clock) + if droppedAt.Some? then 44 else 42
    ensures Committed(old(server.catalog), server.catalog, backup, uuid) ==>
      expected == CaseIdentity(old(server.catalog)[BaselineName])
    ensures server.CleanBetween(old(server.clock), server.clock) ==>
      (result.Ok? <==> NamesAreFree(old(server.catalog), backup, attest)
                       && expected == CaseIdentity(old(server.catalog)[BaselineName]))
    ensures Fenced(server, old(server.catalog), old(server.clock), backup) ==>
      ClosedSince(old(server.catalog), server.history, |old(server.history)| + 2, backup)
    ensures result.Err? && server.CleanBetween(old(server.clock), server.clock) ==>
      result.error.error
      == if backup in old(server.catalog) then UnexpectedDatabaseIdentity else BaselineIdentityMismatch
    ensures result.Err? && droppedAt.Some? ==> result.error == Failure(CommitStarted, CaseBackupCleanupFailed)
  {
    ghost var start, from := server.catalog, |old(server.history)|;
    hide Guarded, DistinctOids, Committed, SameButAttest, PointSafe, Attestable, Sealed, Closed;
    var prepared := PrepareCaseReplacement(server, before, backup);
    GuardedIsNotCommitted(start, server.catalog, backup, uuid);
    if prepared.Some? {
      if prepared.value.phase.PreMutation? {
        SameIsReflexive(start);
        QuietIsSafe(start, start, server.history, from, backup, uuid);
      } else {
        GuardedIsSafe(start, server.history, from, backup, uuid);
      }
      return Err(prepared.value), None;
    }
    GuardedIsSafe(start, server.history, from, backup, uuid);
    ghost var split, soFar := |server.history|, server.history;
    result, droppedAt := AttestAndCommit(server, before, expected, backup, attest, uuid, start);
    assert server.history[..split] == soFar;
    SafeConcat(start, server.history, from, split, backup, uuid);
    ClosedConcat(start, server.history, from + 2, split, backup);
  }

  lemma SameCase(before: Databases, after: Databases)
    requires SameButAttest(before, after) && CaseName in before
    ensures CaseName in after && after[CaseName] == before[CaseName]
  {
  }

  /**
   One reset of a verified case. At every point, whatever fails, the original survives under its own
   or the backup name until the attested replacement has taken over; if recovery's own statements
   succeed, every failure restores the original exactly, unless the final drop had taken effect.
   From the fence on the original is closed at every statement before recovery, and `SafeSince` keeps
   it closed in recovery for as long as anything stands beside it.
   */
  method ResetVerifiedCase(
    server: Server, before: Identity, expected: Identity, backup: Name, attest: Name, uuid: nat)
    returns (
      result: Result<Identity, BaselineError>, ghost recovering: nat, ghost droppedAt: Option<nat>,
      ghost forward: seq<Databases>)
    requires server.Valid() && Begins(server.catalog, server.admin) && backup.Recovery? && attest.Attest?
    requires before == CaseIdentity(server.catalog[CaseName])
    modifies server
    ensures server.Valid() && old(server.clock) <= recovering <= server.clock && old(server.history) <= server.history
    ensures SafeSince(old(server.catalog), server.history, |old(server.history)|, backup, uuid)
    ensures forward <= server.history
    ensures Fenced(server, old(server.catalog), old(server.clock), backup) ==>
      ClosedSince(old(server.catalog), forward, |old(server.history)| + 2, backup)
    ensures Resolved(old(server.catalog), server.catalog, backup, uuid, result)
    ensures result.Err? && server.CleanBetween(recovering, server.clock) ==>
      && (result.error.CaseDatabaseRecoveryFailed? <==> DropLost(server, droppedAt))
      && (!result.error.CaseDatabaseRecoveryFailed? ==>
            Restored(old(server.catalog), server.catalog, backup) || SameButAttest(old(server.catalog), server.catalog))
    ensures result.Err? && !result.error.CaseDatabaseRecoveryFailed? ==> server.CleanBetween(recovering, server.clock)
    ensures result.Ok? <==> DropReported(server, droppedAt)
    ensures Committed(old(server.catalog), server.catalog, backup, uuid) <==> DropTookEffect(server, droppedAt)
    ensures droppedAt.Some? ==> droppedAt.value == old(server.clock) + 42
    ensures recovering <= old(server.clock) + if droppedAt.Some? then 44 else 42
    ensures Committed(old(server.catalog), server.catalog, backup, uuid) ==>
      expected == CaseIdentity(old(server.catalog)[BaselineName])
    ensures server.CleanBetween(old(server.clock), recovering) ==>
      (result.Ok? <==> NamesAreFree(old(server.catalog), backup, attest)
                       && expected == CaseIdentity(old(server.catalog)[BaselineName]))
    ensures result.Err? && server.CleanBetween(old(server.clock), server.clock) ==>
      result.error == if backup in old(server.catalog) then UnexpectedDatabaseIdentity else BaselineIdentityMismatch
  {
    ghost var start, from := server.catalog, |old(server.history)|;
    hide Guarded, DistinctOids, Committed, Restored, SameButAttest, PointSafe, SafeSince, ClosedSince, Fenced;
    var advanced: Result<Identity, Failure>;
    advanced, droppedAt := Advance(server, before, expected, backup, attest, uuid);
    recovering, forward := server.clock, server.history;
    match advanced {
      case Ok(after) => return Ok(after), recovering, droppedAt, forward;
      case Err(failure) =>
        ghost var split, soFar := |server.history|, server.history;
        var error := FailCaseReset(server, before, backup, failure, start, uuid);
        assert server.history[..split] == soFar;
        SafeConcat(start, server.history, from, split, backup, uuid);
        RecoveryFailsAfterCommit(start, server.catalog, backup, uuid, error);
        return Err(error), recovering, droppedAt, forward;
    }
  }

  lemma RecoveryFailsAfterCommit(
    start: Databases, catalog: Databases, backup: Name, uuid: nat, error: BaselineError)
    requires CaseName in start && BaselineName in start && backup.Recovery?
    requires Resolved(start, catalog, backup, uuid, Err(error))
    ensures Committed(start, catalog, backup, uuid) ==> error.CaseDatabaseRecoveryFailed?
  {
    if SameButAttest(start, catalog) {
      SameCase(start, catalog);
    }
  }

  // ---------- the one exception is real ----------

  /** An open case and a sealed baseline, both the administrator's. */
  const SAMPLE: Databases :=
    map[CaseName := Database(1, 7, true, Contents(10, CaseMarker, 0), None),
        BaselineName := Database(2, 7, false, Contents(20, BaselineMarker, 5), Some(20))]

  /**
   One failing statement is enough: either the drop itself, after its effect, or the close right
   after it. Everything else succeeds, the replacement has taken over, and still recovery fails.
   */
  method LoseTheDrop(afterEffect: bool) returns (server: Server, result: Result<Identity, BaselineError>)
    ensures result == Err(CaseDatabaseRecoveryFailed)
    ensures Committed(SAMPLE, server.catalog, Recovery(1), 30)
    ensures forall i: nat :: i != (if afterEffect then 42 else 43) ==> server.fate(i).Succeeds?
  {
    var lost := if afterEffect then 42 else 43;
    var fate := (i: nat) =>
      if i != lost then Succeeds else if afterEffect then FailsAfterEffect else FailsWithoutEffect;
    server := new Server(SAMPLE, 3, 7, fate);
    hide Committed;
    ghost var recovering: nat, droppedAt: Option<nat>, forward: seq<Databases>;
    result, recovering, droppedAt, forward := ResetVerifiedCase(
      server, CaseIdentity(SAMPLE[CaseName]), CaseIdentity(SAMPLE[BaselineName]), Recovery(1), Attest(2), 30);
    assert !server.fate(lost).Succeeds? && result.Err?;
    RecoveryFailsAfterCommit(SAMPLE, server.catalog, Recovery(1), 30, result.error);
  }
}
