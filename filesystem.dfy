/** The filesystem store of stores/filesystem.go: backups are files in one
    directory, moved there by a rename or, failing that, by a copy. */
module Filesystem {
  import opened Wrappers
  import opened Paths
  import opened Lex
  import opened Effects
  import opened Retention

  datatype FilesystemConfig = FilesystemConfig(saveDir: string)

  /** Where a file named `filename` is kept. */
  function Destination(f: FilesystemConfig, filename: string): string
  {
    Clean(Join(f.saveDir, filename))
  }

  /** Whether the actions moved the contents of `src` to `dest`: a successful
      rename from `src` to `dest`, or a successful copy into `dest` that was
      flushed to disk. */
  predicate Delivered(acts: seq<Action>, w: World, src: string, dest: string)
  {
    (Io(Rename(src, dest)) in acts && w.ok(Rename(src, dest)))
    || (Io(CopyContents(src, dest)) in acts && w.ok(CopyContents(src, dest))
        && Io(Sync(dest)) in acts && w.ok(Sync(dest)))
  }

  /** Whether the actions include a successful rename of `dest` onto `src`:
      the reversed fast path of `Store` as written. */
  predicate RenamedBack(acts: seq<Action>, w: World, src: string, dest: string)
  {
    Io(Rename(dest, src)) in acts && w.ok(Rename(dest, src))
  }

  /** The copy fallback of `Store`: open the source, create the destination,
      copy, flush; the source is removed only after all four succeeded, and a
      failed removal is only logged. */
  method CopyFallback(src: string, dest: string, w: World) returns (r: Option<Error>, acts: seq<Action>)
    ensures !w.ok(Open(src)) ==>
      acts == [Io(Open(src))] && r == Some(Wrapped("cannot open source file " + src, IoFailure))
    ensures w.ok(Open(src)) && !w.ok(Create(dest)) ==>
      acts == [Io(Open(src)), Io(Create(dest))]
      && r == Some(Wrapped("cannot create destination file " + dest, IoFailure))
    ensures w.ok(Open(src)) && w.ok(Create(dest)) && !w.ok(CopyContents(src, dest)) ==>
      acts == [Io(Open(src)), Io(Create(dest)), Io(CopyContents(src, dest))]
      && r == Some(Wrapped("error while copying file", IoFailure))
    ensures w.ok(Open(src)) && w.ok(Create(dest)) && w.ok(CopyContents(src, dest)) ==>
      |acts| >= 4 && acts[..4] == [Io(Open(src)), Io(Create(dest)), Io(CopyContents(src, dest)), Io(Sync(dest))]
      && (w.ok(Sync(dest)) ==> acts == acts[..4] + [Io(Remove(src))] && r.None?)
      && (!w.ok(Sync(dest)) ==> acts == acts[..4] && r == Some(Wrapped("cannot flush file contents", IoFailure)))
    ensures Io(Remove(src)) in acts <==> r.None?
    ensures r.None? <==> Delivered(acts, w, src, dest)
  {
    var removeSourceFile := false;
    acts := [Io(Open(src))];
    if !w.ok(Open(src)) {
      return Some(Wrapped("cannot open source file " + src, IoFailure)), acts;
    }
    acts := acts + [Io(Create(dest))];
    if !w.ok(Create(dest)) {
      r := Some(Wrapped("cannot create destination file " + dest, IoFailure));
    } else {
      acts := acts + [Io(CopyContents(src, dest))];
      if !w.ok(CopyContents(src, dest)) {
        r := Some(Wrapped("error while copying file", IoFailure));
      } else {
        acts := acts + [Io(Sync(dest))];
        if !w.ok(Sync(dest)) {
          r := Some(Wrapped("cannot flush file contents", IoFailure));
        } else {
          removeSourceFile := true;
          r := None;
        }
      }
    }
    // the deferred function: remove the source once the copy is complete
    if removeSourceFile {
      acts := acts + [Io(Remove(src))];
    }
  }

  /** `Store` as written: the fast path calls `os.Rename(dest, src)`. */
  method StoreAsWritten(f: FilesystemConfig, src: string, filename: string, w: World)
    returns (r: Option<Error>, acts: seq<Action>)
    ensures var dest := Destination(f, filename);
      && (src == dest ==> r.None? && acts == [])
      && (src != dest && w.ok(Rename(dest, src)) ==> r.None? && acts == [Io(Rename(dest, src))])
      && (src != dest && !w.ok(Rename(dest, src)) ==>
            |acts| > 0 && acts[0] == Io(Rename(dest, src)) && (r.None? <==> Delivered(acts[1..], w, src, dest)))
      && (src != dest ==> (r.None? <==> RenamedBack(acts, w, src, dest) || Delivered(acts, w, src, dest)))
  {
    var dest := Clean(Join(f.saveDir, filename));
    if src == dest {
      return None, [];
    }
    acts := [Io(Rename(dest, src))];
    if w.ok(Rename(dest, src)) {
      return None, acts;
    }
    var copied;
    r, copied := CopyFallback(src, dest, w);
    acts := acts + copied;
    assert acts[1..] == copied;
    assert Io(Rename(src, dest)) !in acts by {
      assert Io(Rename(src, dest)) != acts[0];
    }
    assert Delivered(acts, w, src, dest) == Delivered(copied, w, src, dest);
  }

  /** Finding: when a file already exists at the destination, the reversed
      rename succeeds, `Store` reports success, and the backup never reaches
      the store: the old file at the destination is moved over the new backup. */
  lemma StoreAsWrittenLosesBackup(src: string, dest: string, w: World)
    requires src != dest && w.ok(Rename(dest, src))
    ensures RenamedBack([Io(Rename(dest, src))], w, src, dest)
    ensures !Delivered([Io(Rename(dest, src))], w, src, dest)
  {
  }

  /** `Store` corrected: the fast path renames the source to the destination. */
  method Store(f: FilesystemConfig, src: string, filename: string, w: World)
    returns (r: Option<Error>, acts: seq<Action>)
    ensures var dest := Destination(f, filename);
      && (src == dest ==> r.None? && acts == [])
      && (src != dest ==> |acts| > 0 && acts[0] == Io(Rename(src, dest)))
      && (src != dest && w.ok(Rename(src, dest)) ==> r.None? && acts == [Io(Rename(src, dest))])
      && (src != dest ==> (r.None? <==> Delivered(acts, w, src, dest)))
  {
    var dest := Clean(Join(f.saveDir, filename));
    if src == dest {
      return None, [];
    }
    acts := [Io(Rename(src, dest))];
    if w.ok(Rename(src, dest)) {
      return None, acts;
    }
    var copied;
    r, copied := CopyFallback(src, dest, w);
    acts := acts + copied;
    assert forall a :: a in copied ==> a in acts;
    assert forall a :: a in acts && a != Io(Rename(src, dest)) ==> a in copied;
  }

  /** `ioutil.ReadDir`: the directory's names, sorted. */
  function Listing(f: FilesystemConfig, w: World): seq<string>
  {
    Sort(w.names(ReadDir(f.saveDir)))
  }

  /** The removals `RemoveOlderBackups` attempts: one per name to delete. */
  function RemovalOps(dir: string, names: seq<string>): (ops: seq<Op>)
    ensures |ops| == |names|
    ensures forall i :: 0 <= i < |names| ==> ops[i] == Remove(Clean(Join(dir, names[i])))
  {
    if names == [] then [] else [Remove(Clean(Join(dir, names[0])))] + RemovalOps(dir, names[1..])
  }

  /** How many of the operations succeed. */
  function Successes(ops: seq<Op>, w: World): (n: nat)
    ensures n <= |ops|
  {
    if ops == [] then 0 else Successes(ops[..|ops| - 1], w) + (if w.ok(ops[|ops| - 1]) then 1 else 0)
  }

  /** `RemoveOlderBackups`: remove the first `len - keep` names of the sorted
      listing one by one; a failed removal is logged, not counted, and does not
      stop the others. `deleted` is the count that is logged. */
  method RemoveOlderBackups(f: FilesystemConfig, keep: nat, w: World)
    returns (r: Option<Error>, acts: seq<Action>, deleted: nat)
    ensures !w.ok(ReadDir(f.saveDir)) ==>
      acts == [Io(ReadDir(f.saveDir))] && deleted == 0
      && r == Some(Wrapped("cannot list contents of directory " + f.saveDir, IoFailure))
    ensures w.ok(ReadDir(f.saveDir)) ==>
      var ops := RemovalOps(f.saveDir, Oldest(Listing(f, w), keep));
      && r.None?
      && acts == [Io(ReadDir(f.saveDir))] + Ios(ops)
      && deleted == Successes(ops, w)
  {
    acts := [Io(ReadDir(f.saveDir))];
    deleted := 0;
    if !w.ok(ReadDir(f.saveDir)) {
      return Some(Wrapped("cannot list contents of directory " + f.saveDir, IoFailure)), acts, 0;
    }
    var files := Sort(w.names(ReadDir(f.saveDir)));
    var count := |files| - keep;
    if count > 0 {
      var removed;
      removed, deleted := RemoveEach(f.saveDir, files[..count], w);
      acts := [Io(ReadDir(f.saveDir))] + removed;
    } else {
      assert Oldest(files, keep) == [];
    }
    return None, acts, deleted;
  }

  /** The loop of `RemoveOlderBackups`: every name is attempted, and only
      successful removals are counted. */
  method RemoveEach(dir: string, names: seq<string>, w: World) returns (acts: seq<Action>, deleted: nat)
    ensures acts == Ios(RemovalOps(dir, names))
    ensures deleted == Successes(RemovalOps(dir, names), w)
  {
    ghost var ops := RemovalOps(dir, names);
    acts := [];
    deleted := 0;
    for i := 0 to |names|
      invariant acts == Ios(ops[..i])
      invariant deleted == Successes(ops[..i], w)
    {
      var fullpath := Clean(Join(dir, names[i]));
      assert ops[i] == Remove(fullpath);
      IosSnoc(ops, i);
      SuccessesSnoc(ops, i, w);
      acts := acts + [Io(Remove(fullpath))];
      if w.ok(Remove(fullpath)) {
        deleted := deleted + 1;
      }
    }
    assert ops[..|names|] == ops;
  }

  lemma SuccessesSnoc(ops: seq<Op>, i: nat, w: World)
    requires i < |ops|
    ensures Successes(ops[..i + 1], w) == Successes(ops[..i], w) + (if w.ok(ops[i]) then 1 else 0)
  {
    assert ops[..i + 1][..i] == ops[..i];
  }

  /** Every removal is attempted, so the logged count is the number of names
      to delete exactly when every removal succeeded. */
  lemma {:induction false} AllDeletedIffAllRemoved(ops: seq<Op>, w: World)
    ensures Successes(ops, w) == |ops| <==> forall i :: 0 <= i < |ops| ==> w.ok(ops[i])
  {
    if ops != [] {
      var init := ops[..|ops| - 1];
      AllDeletedIffAllRemoved(init, w);
      assert forall i :: 0 <= i < |init| ==> init[i] == ops[i];
    }
  }

  /** `FindLatestBackup`: the last name of the sorted listing, or an error for
      an empty directory. */
  method FindLatestBackup(f: FilesystemConfig, w: World) returns (r: Result<string>, acts: seq<Action>)
    ensures acts == [Io(ReadDir(f.saveDir))]
    ensures !w.ok(ReadDir(f.saveDir)) ==>
      r == Failure(Wrapped("cannot list contents of directory " + f.saveDir, IoFailure))
    ensures w.ok(ReadDir(f.saveDir)) && w.names(ReadDir(f.saveDir)) == [] ==>
      r == Failure(Failed("cannot find a recent backup on " + f.saveDir))
    ensures w.ok(ReadDir(f.saveDir)) && w.names(ReadDir(f.saveDir)) != [] ==>
      r == Success(Latest(w.names(ReadDir(f.saveDir))))
  {
    acts := [Io(ReadDir(f.saveDir))];
    if !w.ok(ReadDir(f.saveDir)) {
      return Failure(Wrapped("cannot list contents of directory " + f.saveDir, IoFailure)), acts;
    }
    var files := Sort(w.names(ReadDir(f.saveDir)));
    if |files| == 0 {
      return Failure(Failed("cannot find a recent backup on " + f.saveDir)), acts;
    }
    LastOfSortedIsLatest(files);
    SortedUnique(Sort(files), Sort(w.names(ReadDir(f.saveDir))));
    return Success(files[|files| - 1]), acts;
  }

  /** `Retrieve`: the backup is already local, so this only names its path and never fails. */
  function Retrieve(f: FilesystemConfig, filename: string): (r: Result<string>)
    ensures r.Success? && r.value == Destination(f, filename)
  {
    Success(Clean(Join(f.saveDir, filename)))
  }

  /** What `Store` saves under a plain name is what `Retrieve` returns for it. */
  lemma RetrieveFindsStored(f: FilesystemConfig, filename: string)
    requires Plain(filename)
    ensures Retrieve(f, filename).value == Destination(f, filename)
    ensures Destination(f, filename) == DirPrefix(f.saveDir) + filename
  {
    JoinPlain(f.saveDir, filename);
  }
}
