/** The backup and restore tasks of tasks/tasks.go: each runs the stages of a
    source and a store in order and stops at the first failing stage, wrapping
    its error with a message naming the stage. */
module Tasks {
  import opened Wrappers
  import opened Paths
  import opened Effects
  import opened Retention
  import Sources
  import Stores

  /** The task configuration; `MAX_BACKUPS` is taken as a count (see README). */
  datatype Config = Config(schedule: string, maxBackups: nat, restoreFile: string, randomDelay: int)

  /** The values the environment defaults give: daily, seven backups, no fixed
      restore file, a random delay of one second. */
  const Defaults := Config("@daily", 7, "", 1)

  const BackupFailed := "source backup failed"
  const UploadFailed := "couldn't upload file to store"
  const PruneFailed := "couldn't remove old backups from store"
  const LookupFailed := "cannot find the latest backup"
  const DownloadFailed := "cannot download file "
  const RestoreFailed := "source restore failed"

  /** One call a task makes on its source or store, with what it reported. */
  datatype Call =
    | SourceBackup(made: Result<string>)
    | StoreUpload(path: string, name: string, stored: Option<Error>)
    | StorePrune(keep: nat, pruned: Option<Error>)
    | StoreFindLatest(found: Result<string>)
    | StoreRetrieve(name: string, fetched: Result<string>)
    | SourceRestore(path: string, restored: Option<Error>)
    | StoreClose

  /** The error a task returns for a failed call: the call's own error wrapped
      with the message of its stage; None for a call that succeeded. */
  function StageError(call: Call): (e: Option<Error>)
    ensures e.Some? ==> e.value.Wrapped?
  {
    match call
    case SourceBackup(made) => if made.Failure? then Some(Wrapped(BackupFailed, made.error)) else None
    case StoreUpload(_, _, stored) => if stored.Some? then Some(Wrapped(UploadFailed, stored.value)) else None
    case StorePrune(_, pruned) => if pruned.Some? then Some(Wrapped(PruneFailed, pruned.value)) else None
    case StoreFindLatest(found) => if found.Failure? then Some(Wrapped(LookupFailed, found.error)) else None
    case StoreRetrieve(name, fetched) =>
      if fetched.Failure? then Some(Wrapped(DownloadFailed + name, fetched.error)) else None
    case SourceRestore(_, restored) => if restored.Some? then Some(Wrapped(RestoreFailed, restored.value)) else None
    case StoreClose => None
  }

  /** The error of the first failed call, if any. */
  function FirstStageError(calls: seq<Call>): Option<Error>
  {
    if calls == [] then None
    else if StageError(calls[0]).Some? then StageError(calls[0])
    else FirstStageError(calls[1..])
  }

  /** The error a task reports: that of its last stage, `Close` aside. */
  function LastStageError(calls: seq<Call>): Option<Error>
    requires calls != []
  {
    var last := calls[|calls| - 1];
    if last == StoreClose && |calls| >= 2 then StageError(calls[|calls| - 2]) else StageError(last)
  }

  /** The calls of a backup task: `Backup`; on success `Store` of the artifact
      under its base name; on success `RemoveOlderBackups(MaxBackups)`. */
  predicate BackupTrace(calls: seq<Call>, keep: nat)
  {
    && 1 <= |calls| <= 3
    && calls[0].SourceBackup?
    && (|calls| >= 2 <==> calls[0].made.Success?)
    && (|calls| >= 2 ==>
          calls[1].StoreUpload? && calls[1].path == calls[0].made.value && calls[1].name == Base(calls[1].path))
    && (|calls| == 3 <==> |calls| >= 2 && calls[1].stored.None?)
    && (|calls| == 3 ==> calls[2].StorePrune? && calls[2].keep == keep)
  }

  /** `BackupTask`. */
  method BackupTask(c: Config, source: Sources.Source, store: Stores.Backend, w: World)
    returns (err: Option<Error>, calls: seq<Call>, acts: seq<Action>)
    ensures BackupTrace(calls, c.maxBackups)
    ensures err == LastStageError(calls)
    ensures calls[0].made.Success? ==> calls[0].made.value == Sources.ArtifactPath(source, w.now)
    ensures |calls| >= 2 && '/' !in Sources.NamePrefix(source) ==>
      calls[1].name == Sources.ArtifactName(source, w.now)
    ensures |calls| >= 2 && calls[1].stored.None? ==>
      Stores.Accepted(store, calls[1].path, calls[1].name, acts, w)
    ensures |calls| >= 2 && calls[1].stored.None? && store.S3Backend? ==>
      Stores.Placed(store, calls[1].path, calls[1].name, acts, w)
    ensures |calls| == 3 ==> (calls[2].pruned.None? <==> Stores.Pruned(store, c.maxBackups, w))
  {
    var made;
    made, acts := Sources.Backup(source, w);
    calls := [SourceBackup(made)];
    assert LastStageError(calls) == StageError(SourceBackup(made));
    if made.Failure? {
      return Some(Wrapped(BackupFailed, made.error)), calls, acts;
    }
    var path := made.value;
    var name := Base(path);
    if '/' !in Sources.NamePrefix(source) {
      Sources.BaseIsArtifactName(source, w.now);
    }
    var later, stored;
    err, later, stored := UploadAndPrune(c.maxBackups, store, path, name, w);
    Stores.AcceptedGrows(store, path, name, stored, acts + stored, w);
    Stores.PlacedGrows(store, path, name, stored, acts + stored, w);
    acts := acts + stored;
    BackupThenUploadIsTrace(made, later, c.maxBackups);
    calls := [SourceBackup(made)] + later;
  }

  /** The calls from the upload of `path` as `name` on: `Store`, then on
      success `RemoveOlderBackups(keep)`. */
  predicate UploadTrace(calls: seq<Call>, path: string, name: string, keep: nat)
  {
    && 1 <= |calls| <= 2 && calls[0].StoreUpload? && calls[0].path == path && calls[0].name == name
    && (|calls| == 2 <==> calls[0].stored.None?)
    && (|calls| == 2 ==> calls[1].StorePrune? && calls[1].keep == keep)
  }

  /** A successful backup followed by the upload calls makes a backup trace
      that reports what the upload stages report. */
  lemma BackupThenUploadIsTrace(made: Result<string>, rest: seq<Call>, keep: nat)
    requires made.Success? && UploadTrace(rest, made.value, Base(made.value), keep)
    ensures BackupTrace([SourceBackup(made)] + rest, keep)
    ensures LastStageError([SourceBackup(made)] + rest) == LastStageError(rest)
    ensures ([SourceBackup(made)] + rest)[1..] == rest
  {
    var calls := [SourceBackup(made)] + rest;
    assert calls[1..] == rest;
    assert calls[|calls| - 1] == rest[|rest| - 1];
  }

  /** The second half of `BackupTask`: upload the artifact and, once that
      succeeded, prune the store to `keep` backups. */
  method UploadAndPrune(keep: nat, store: Stores.Backend, path: string, name: string, w: World)
    returns (err: Option<Error>, calls: seq<Call>, acts: seq<Action>)
    ensures UploadTrace(calls, path, name, keep)
    ensures err == LastStageError(calls)
    ensures calls[0].stored.None? ==> Stores.Accepted(store, path, name, acts, w)
    ensures calls[0].stored.None? && store.S3Backend? ==> Stores.Placed(store, path, name, acts, w)
    ensures |calls| == 2 ==> (calls[1].pruned.None? <==> Stores.Pruned(store, keep, w))
  {
    var stored;
    stored, acts := Stores.Store(store, path, name, w);
    calls := [StoreUpload(path, name, stored)];
    assert LastStageError(calls) == StageError(StoreUpload(path, name, stored));
    if stored.Some? {
      return Some(Wrapped(UploadFailed, stored.value)), calls, acts;
    }
    var pruned, removed := Stores.RemoveOlderBackups(store, keep, w);
    Stores.AcceptedGrows(store, path, name, acts, acts + removed, w);
    Stores.PlacedGrows(store, path, name, acts, acts + removed, w);
    acts := acts + removed;
    calls := calls + [StorePrune(keep, pruned)];
    assert LastStageError(calls) == StageError(StorePrune(keep, pruned));
    if pruned.Some? {
      return Some(Wrapped(PruneFailed, pruned.value)), calls, acts;
    }
    return None, calls, acts;
  }

  /** Calls that did not fail do not decide the first failure. */
  lemma {:induction false} FirstStageErrorSkips(calls: seq<Call>, n: nat)
    requires n <= |calls|
    requires forall i :: 0 <= i < n ==> StageError(calls[i]).None?
    ensures FirstStageError(calls) == FirstStageError(calls[n..])
  {
    if n > 0 {
      FirstStageErrorSkips(calls[1..], n - 1);
      assert calls[1..][n - 1..] == calls[n..];
    }
  }

  /** A backup task stops at its first failure: the error it reports is the
      first failed call's. */
  lemma BackupReportsFirstFailure(calls: seq<Call>, keep: nat)
    requires BackupTrace(calls, keep)
    ensures LastStageError(calls) == FirstStageError(calls)
  {
    var n := |calls| - 1;
    FirstStageErrorSkips(calls, n);
    assert calls[n..] == [calls[n]];
    assert [calls[n]][1..] == [];
  }

  /** A backup task succeeds exactly when all three stages ran and pruning
      succeeded. */
  lemma BackupSucceedsIffAllStages(calls: seq<Call>, keep: nat)
    requires BackupTrace(calls, keep)
    ensures LastStageError(calls).None? <==> |calls| == 3 && calls[2].pruned.None?
  {
  }

  /** Where the retrieval call sits: after the lookup when no file is named. */
  function RetrieveIndex(restoreFile: string): nat
  {
    if restoreFile == "" then 1 else 0
  }

  /** The calls of a restore task: `FindLatestBackup` unless a file is named;
      on success `Retrieve`; on success `Restore` of the local copy and then
      `Close`, whatever `Restore` reported. */
  predicate RestoreTrace(calls: seq<Call>, restoreFile: string)
  {
    var k := RetrieveIndex(restoreFile);
    && |calls| >= 1
    && (restoreFile == "" ==> calls[0].StoreFindLatest? && (|calls| > 1 <==> calls[0].found.Success?))
    && (|calls| > k ==>
          calls[k].StoreRetrieve?
          && calls[k].name == (if restoreFile != "" then restoreFile else calls[0].found.value))
    && (|calls| > k + 1 <==> |calls| > k && calls[k].fetched.Success?)
    && (|calls| > k + 1 ==>
          |calls| == k + 3 && calls[k + 1].SourceRestore? && calls[k + 1].path == calls[k].fetched.value
          && calls[k + 2] == StoreClose)
  }

  /** The calls from the retrieval of `name` on: `Retrieve`, then on success
      `Restore` of the local copy and `Close`. */
  predicate RetrievalTrace(calls: seq<Call>, name: string)
  {
    && |calls| >= 1 && calls[0].StoreRetrieve? && calls[0].name == name
    && (|calls| > 1 <==> calls[0].fetched.Success?)
    && (|calls| > 1 ==>
          |calls| == 3 && calls[1].SourceRestore? && calls[1].path == calls[0].fetched.value && calls[2] == StoreClose)
  }

  /** With a named file, the task's calls are those of the retrieval. */
  lemma NamedRetrievalIsTrace(calls: seq<Call>, restoreFile: string)
    requires restoreFile != "" && RetrievalTrace(calls, restoreFile)
    ensures RestoreTrace(calls, restoreFile)
  {
  }

  /** Without one, a successful lookup comes first; it does not change what
      the task reports or its last call. */
  lemma LookupThenRetrievalIsTrace(found: Result<string>, rest: seq<Call>)
    requires found.Success? && RetrievalTrace(rest, found.value)
    ensures RestoreTrace([StoreFindLatest(found)] + rest, "")
    ensures LastStageError([StoreFindLatest(found)] + rest) == LastStageError(rest)
    ensures ([StoreFindLatest(found)] + rest)[0] == StoreFindLatest(found)
    ensures ([StoreFindLatest(found)] + rest)[|rest|] == rest[|rest| - 1]
  {
    var calls := [StoreFindLatest(found)] + rest;
    assert calls[1..] == rest;
    if |rest| > 1 {
      assert calls[|calls| - 2] == rest[|rest| - 2];
    }
  }

  /** `RestoreTask`. */
  method RestoreTask(c: Config, source: Sources.Source, store: Stores.Backend, w: World)
    returns (err: Option<Error>, calls: seq<Call>, acts: seq<Action>)
    modifies Stores.Objects(store)
    ensures RestoreTrace(calls, c.restoreFile)
    ensures err == LastStageError(calls)
    ensures c.restoreFile == "" && calls[0].found.Success? ==>
      Stores.Listed(store, w).Some? && Stores.Listed(store, w).value != []
      && calls[0].found.value == Latest(Stores.Listed(store, w).value)
    ensures store.S3Backend? ==>
      store.s3.retrievedFile == if calls[|calls| - 1] == StoreClose then "" else old(store.s3.retrievedFile)
  {
    if c.restoreFile != "" {
      err, calls, acts := RetrieveAndRestore(source, store, c.restoreFile, w);
      NamedRetrievalIsTrace(calls, c.restoreFile);
      return;
    }
    err, calls, acts := LookupAndRestore(source, store, w);
  }

  /** `RestoreTask` without a named file: look up the latest backup, then
      retrieve and restore it. */
  method LookupAndRestore(source: Sources.Source, store: Stores.Backend, w: World)
    returns (err: Option<Error>, calls: seq<Call>, acts: seq<Action>)
    modifies Stores.Objects(store)
    ensures RestoreTrace(calls, "")
    ensures err == LastStageError(calls)
    ensures calls[0].found.Success? ==>
      Stores.Listed(store, w).Some? && Stores.Listed(store, w).value != []
      && calls[0].found.value == Latest(Stores.Listed(store, w).value)
    ensures store.S3Backend? ==>
      store.s3.retrievedFile == if calls[|calls| - 1] == StoreClose then "" else old(store.s3.retrievedFile)
  {
    var found, looked := Stores.FindLatestBackup(store, w);
    calls := [StoreFindLatest(found)];
    if found.Failure? {
      assert LastStageError(calls) == StageError(StoreFindLatest(found));
      return Some(Wrapped(LookupFailed, found.error)), calls, looked;
    }
    var fetched, restored;
    err, fetched, restored := RetrieveAndRestore(source, store, found.value, w);
    LookupThenRetrievalIsTrace(found, fetched);
    acts := looked + restored;
    calls := [StoreFindLatest(found)] + fetched;
    assert RestoreTrace(calls, "") && err == LastStageError(calls);
  }

  /** The second half of `RestoreTask`: retrieve the named backup and, once
      that succeeded, restore it and close the store. */
  method RetrieveAndRestore(source: Sources.Source, store: Stores.Backend, name: string, w: World)
    returns (err: Option<Error>, calls: seq<Call>, acts: seq<Action>)
    modifies Stores.Objects(store)
    ensures RetrievalTrace(calls, name)
    ensures err == LastStageError(calls)
    ensures store.S3Backend? ==>
      store.s3.retrievedFile == if calls[|calls| - 1] == StoreClose then "" else old(store.s3.retrievedFile)
  {
    var fetched;
    fetched, acts := Stores.Retrieve(store, name, w);
    calls := [StoreRetrieve(name, fetched)];
    if fetched.Failure? {
      assert LastStageError(calls) == StageError(StoreRetrieve(name, fetched));
      return Some(Wrapped(DownloadFailed + name, fetched.error)), calls, acts;
    }
    var later, applied;
    err, later, applied := RestoreAndClose(source, store, fetched.value, w);
    acts := acts + applied;
    calls := calls + later;
    assert calls[1..] == later;
  }

  /** The last part of `RestoreTask`: restore the retrieved copy, then close the
      store (the deferred `Close`), whatever the restore reported. */
  method RestoreAndClose(source: Sources.Source, store: Stores.Backend, path: string, w: World)
    returns (err: Option<Error>, calls: seq<Call>, acts: seq<Action>)
    modifies Stores.Objects(store)
    ensures |calls| == 2 && calls[0].SourceRestore? && calls[0].path == path && calls[1] == StoreClose
    ensures err == StageError(calls[0])
    ensures store.S3Backend? ==> store.s3.retrievedFile == ""
  {
    var restored, applied := Sources.Restore(source, path, w);
    var closed := Stores.Close(store);
    acts := applied + closed;
    calls := [SourceRestore(path, restored), StoreClose];
    if restored.Some? {
      return Some(Wrapped(RestoreFailed, restored.value)), calls, acts;
    }
    return None, calls, acts;
  }

  /** `Close` is called at most once, as the last call, and exactly when the
      retrieval succeeded; it follows `Restore` whether or not that failed. */
  lemma RestoreClosesOnce(calls: seq<Call>, restoreFile: string)
    requires RestoreTrace(calls, restoreFile)
    ensures multiset(calls)[StoreClose] <= 1
    ensures StoreClose in calls <==>
      exists i :: 0 <= i < |calls| && calls[i].StoreRetrieve? && calls[i].fetched.Success?
    ensures StoreClose in calls ==>
      |calls| >= 2 && calls[|calls| - 1] == StoreClose && calls[|calls| - 2].SourceRestore?
  {
    var k := RetrieveIndex(restoreFile);
    if |calls| > k + 1 {
      assert calls == calls[..k + 2] + [StoreClose];
      assert StoreClose !in calls[..k + 2];
    } else {
      assert forall i :: 0 <= i < |calls| ==> calls[i] != StoreClose;
      assert forall i :: 0 <= i < |calls| && calls[i].StoreRetrieve? ==> i == k;
    }
  }

  /** A named restore file is retrieved directly: the latest backup is never
      looked up. */
  lemma NamedFileSkipsLookup(calls: seq<Call>, restoreFile: string)
    requires restoreFile != "" && RestoreTrace(calls, restoreFile)
    ensures calls[0] == StoreRetrieve(restoreFile, calls[0].fetched)
    ensures forall i :: 0 <= i < |calls| ==> !calls[i].StoreFindLatest?
  {
  }

  /** A restore task stops at its first failure, `Close` aside: the error it
      reports is the first failed call's. */
  lemma RestoreReportsFirstFailure(calls: seq<Call>, restoreFile: string)
    requires RestoreTrace(calls, restoreFile)
    ensures LastStageError(calls) == FirstStageError(calls)
  {
    var k := RetrieveIndex(restoreFile);
    if |calls| > k + 1 {
      FirstStageErrorSkips(calls, k + 1);
      assert calls[k + 1..] == [calls[k + 1], StoreClose];
      assert [calls[k + 1], StoreClose][1..] == [StoreClose];
      assert [StoreClose][1..] == [];
    } else {
      var n := |calls| - 1;
      FirstStageErrorSkips(calls, n);
      assert calls[n..] == [calls[n]];
      assert [calls[n]][1..] == [];
    }
  }

  /** A restore task succeeds exactly when the source restore ran and succeeded. */
  lemma RestoreSucceedsIffRestored(calls: seq<Call>, restoreFile: string)
    requires RestoreTrace(calls, restoreFile)
    ensures LastStageError(calls).None? <==>
      exists i :: 0 <= i < |calls| && calls[i].SourceRestore? && calls[i].restored.None?
  {
    var k := RetrieveIndex(restoreFile);
    if |calls| > k + 1 {
      assert forall i :: 0 <= i < |calls| && calls[i].SourceRestore? ==> i == k + 1;
    }
  }
}
