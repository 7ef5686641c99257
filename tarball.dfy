/** The tarball source of sources/tarball.go: archive a file or directory, and
    restore it by emptying the target and unpacking the archive over it. The
    archiver library is part of the world: making, recognising and unpacking an
    archive either succeed or fail. */
module Tarball {
  import opened Wrappers
  import opened Paths
  import opened Clock
  import opened Command
  import opened Effects

  datatype TarballConfig = TarballConfig(
    name: string,
    file: string,
    path: string,
    compress: bool,
    saveDir: string)

  /** The values the environment defaults give when nothing is set:
      TAR_PATH "./", TAR_COMPRESS true, SAVEDIR "/tmp/". */
  const Defaults := TarballConfig("", "", "./", true, "/tmp/")

  /** `target`: the file under Path when File is set, Path itself otherwise.
      Path and File are concatenated as strings, without a separator. */
  function Target(f: TarballConfig): (t: string)
    ensures HasPrefix(t, f.path) && t[|f.path|..] == f.file
  {
    var target := f.path;
    if f.file != "" then target + f.file else target
  }

  /** The name part of the artifact: Name when set, else the last element of the target. */
  function NamePrefix(f: TarballConfig): string
  {
    if f.name != "" then f.name + "-backup" else Base(Target(f)) + "-backup"
  }

  function Extension(f: TarballConfig): string
  {
    if f.compress then ".tar.gz" else ".tar"
  }

  /** The artifact `Backup` produces at the instant `now`. */
  function ArtifactPath(f: TarballConfig, now: Instant): string
  {
    GenerateFilename(f.saveDir, NamePrefix(f), now) + Extension(f)
  }

  /** With the defaults, the target is the working directory, named `.`. */
  lemma DefaultTarget()
    ensures Target(Defaults) == "./"
    ensures NamePrefix(Defaults) == ".-backup"
  {
    assert Base("./") == "." by {
      assert TrimTrailingSlashes("./") == ".";
      assert AfterLastSlash(".") == ".";
    }
  }

  /** With the defaults, the artifact is a gzipped tarball named after the
      working directory. */
  lemma DefaultArtifact(now: Instant)
    ensures Base(ArtifactPath(Defaults, now)) == ".-backup-" + Layout(now) + ".tar.gz"
  {
    DefaultTarget();
    assert '/' !in ".-backup" && '/' !in ".tar.gz";
    ArtifactBase("/tmp/", ".-backup", now, ".tar.gz");
  }

  /** `Backup`: one archive of the target, gzipped when Compress is set. */
  method Backup(f: TarballConfig, w: World) returns (r: Result<string>, acts: seq<Action>)
    ensures var path := ArtifactPath(f, w.now);
      && acts == [Io(MakeArchive(path, Target(f), f.compress))]
      && r == (if w.ok(MakeArchive(path, Target(f), f.compress)) then Success(path)
               else Failure(Wrapped("cannot create tarball on " + path, IoFailure)))
  {
    var name: string;
    var target := Target(f);
    if f.name != "" {
      name := f.name + "-backup";
    } else {
      name := Base(target) + "-backup";
    }
    var path := GenerateFilename(f.saveDir, name, w.now) + ".tar";
    var op: Op;
    if f.compress {
      path := path + ".gz";
      op := MakeArchive(path, target, true);
    } else {
      op := MakeArchive(path, target, false);
    }
    assert path == ArtifactPath(f, w.now);
    acts := [Io(op)];
    if !w.ok(op) {
      return Failure(Wrapped("cannot create tarball on " + path, IoFailure)), acts;
    }
    return Success(path), acts;
  }

  /** The removals `removeDirectoryContents` performs, one per entry name. */
  function RemovalOps(dir: string, names: seq<string>): (ops: seq<Op>)
    ensures |ops| == |names|
    ensures forall i :: 0 <= i < |names| ==> ops[i] == RemoveAll(Join(dir, names[i]))
  {
    if names == [] then [] else [RemoveAll(Join(dir, names[0]))] + RemovalOps(dir, names[1..])
  }

  /** The actions of `removeDirectoryContents`: open, read the names, then the
      removals up to and including the first failure. */
  function EmptyActs(dir: string, w: World): seq<Action>
  {
    if !w.ok(Open(dir)) then [Io(Open(dir))]
    else if !w.ok(ReadNames(dir)) then [Io(Open(dir)), Io(ReadNames(dir))]
    else
      var ops := RemovalOps(dir, w.names(ReadNames(dir)));
      [Io(Open(dir)), Io(ReadNames(dir))] + Ios(ops[..IoAttempted(ops, w)])
  }

  /** The error of `removeDirectoryContents`, naming the entry it could not remove. */
  function EmptyError(dir: string, w: World): Option<Error>
  {
    if !w.ok(Open(dir)) then Some(Wrapped("cannot open directory", IoFailure))
    else if !w.ok(ReadNames(dir)) then Some(Wrapped("cannot read files on directory", IoFailure))
    else
      var names := w.names(ReadNames(dir));
      var ops := RemovalOps(dir, names);
      RemovalError(names, ops, IoAttempted(ops, w), w)
  }

  /** Emptying succeeds exactly when the directory is read and every entry in it
      is removed; on success every entry was attempted, in listing order. */
  lemma EmptySucceeds(dir: string, w: World)
    ensures EmptyError(dir, w).None? <==>
      w.ok(Open(dir)) && w.ok(ReadNames(dir))
      && forall j :: 0 <= j < |w.names(ReadNames(dir))| ==> w.ok(RemoveAll(Join(dir, w.names(ReadNames(dir))[j])))
    ensures EmptyError(dir, w).None? ==>
      EmptyActs(dir, w) == [Io(Open(dir)), Io(ReadNames(dir))] + Ios(RemovalOps(dir, w.names(ReadNames(dir))))
  {
    if w.ok(Open(dir)) && w.ok(ReadNames(dir)) {
      var ops := RemovalOps(dir, w.names(ReadNames(dir)));
      IoAttemptedMeaning(ops, w);
      assert ops[..|ops|] == ops;
    }
  }

  /** The error of the removal loop after `n` removals were attempted. */
  function RemovalError(names: seq<string>, ops: seq<Op>, n: nat, w: World): Option<Error>
    requires |ops| == |names| && n <= |ops|
  {
    if n > 0 && !w.ok(ops[n - 1]) then Some(Wrapped("failed to remove " + names[n - 1], IoFailure)) else None
  }

  /** The loop of `removeDirectoryContents` over the entry names. */
  method RemoveEntries(dir: string, names: seq<string>, w: World) returns (r: Option<Error>, acts: seq<Action>)
    ensures acts == Ios(RemovalOps(dir, names)[..IoAttempted(RemovalOps(dir, names), w)])
    ensures r == RemovalError(names, RemovalOps(dir, names), IoAttempted(RemovalOps(dir, names), w), w)
  {
    ghost var ops := RemovalOps(dir, names);
    acts := [];
    var i := 0;
    while i < |names|
      invariant 0 <= i <= |names|
      invariant acts == Ios(ops[..i])
      invariant i > 0 ==> w.ok(ops[i - 1])
      invariant IoAttempted(ops, w) == i + IoAttempted(ops[i..], w)
    {
      var op := RemoveAll(Join(dir, names[i]));
      IosSnoc(ops, i);
      IoAttemptedStep(ops, i, w);
      acts := acts + [Io(op)];
      if !w.ok(op) {
        assert IoAttempted(ops, w) == i + 1;
        return Some(Wrapped("failed to remove " + names[i], IoFailure)), acts;
      }
      i := i + 1;
    }
    assert IoAttempted(ops, w) == |ops|;
    return None, acts;
  }

  /** `removeDirectoryContents` (sources/command.go): read the entry names of the
      directory and remove each one recursively, stopping at the first failure. */
  method RemoveDirectoryContents(dir: string, w: World) returns (r: Option<Error>, acts: seq<Action>)
    ensures r == EmptyError(dir, w)
    ensures acts == EmptyActs(dir, w)
  {
    acts := [Io(Open(dir))];
    if !w.ok(Open(dir)) {
      return Some(Wrapped("cannot open directory", IoFailure)), acts;
    }
    acts := acts + [Io(ReadNames(dir))];
    if !w.ok(ReadNames(dir)) {
      return Some(Wrapped("cannot read files on directory", IoFailure)), acts;
    }
    var names := w.names(ReadNames(dir));
    var removed;
    r, removed := RemoveEntries(dir, names, w);
    acts := [Io(Open(dir)), Io(ReadNames(dir))] + removed;
  }

  /** `Restore`: empty the target, recognise the archive format from the file
      name, and unpack into the parent of Path (the archive holds the target's
      own directory). Each step runs only when the one before succeeded. */
  method Restore(f: TarballConfig, path: string, w: World) returns (r: Option<Error>, acts: seq<Action>)
    ensures var target := Target(f);
      var emptied := EmptyActs(target, w);
      var err := EmptyError(target, w);
      && (err.Some? ==> acts == emptied && r == Some(Wrapped("failed to empty directory contents before restoring", err.value)))
      && (err.None? && !w.ok(MatchFormat(path)) ==>
            acts == emptied + [Io(MatchFormat(path))] && r == Some(Failed("unsupported file extension: " + Base(path))))
      && (err.None? && w.ok(MatchFormat(path)) ==>
            acts == emptied + [Io(MatchFormat(path)), Io(Unpack(path, Dir(f.path)))]
            && r == (if w.ok(Unpack(path, Dir(f.path))) then None else Some(Wrapped("cannot unpack backup", IoFailure))))
  {
    var err, emptied := RemoveDirectoryContents(Target(f), w);
    acts := emptied;
    if err.Some? {
      r := Some(Wrapped("failed to empty directory contents before restoring", err.value));
      return;
    }
    acts := acts + [Io(MatchFormat(path))];
    if !w.ok(MatchFormat(path)) {
      r := Some(Failed("unsupported file extension: " + Base(path)));
      return;
    }
    acts := acts + [Io(Unpack(path, Dir(f.path)))];
    if !w.ok(Unpack(path, Dir(f.path))) {
      r := Some(Wrapped("cannot unpack backup", IoFailure));
    } else {
      r := None;
    }
  }
}
