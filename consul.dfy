/** The Consul source of sources/consul.go: `consul snapshot save` and
    `consul snapshot restore`, both run without streams. */
module Consul {
  import opened Wrappers
  import opened Clock
  import opened Command
  import opened Effects

  datatype ConsulConfig = ConsulConfig(saveDir: string)

  const AppPath := "/bin/consul"
  const NamePrefix := "consul-backup"
  const Extension := ".snap"

  function ArtifactPath(c: ConsulConfig, now: Instant): string
  {
    GenerateFilename(c.saveDir, NamePrefix, now) + Extension
  }

  function SaveInvocation(path: string): Invocation
  {
    Invocation(AppPath, ["snapshot", "save", path], Command.Plain([]))
  }

  function RestoreInvocation(path: string): Invocation
  {
    Invocation(AppPath, ["snapshot", "restore", path], Command.Plain([]))
  }

  /** `Backup`: consul writes the snapshot to the artifact path itself. */
  method Backup(c: ConsulConfig, w: World) returns (r: Result<string>, acts: seq<Action>)
    ensures var path := ArtifactPath(c, w.now);
      && acts == [Exec(SaveInvocation(path))]
      && (r.Success? <==> Run(SaveInvocation(path), w).None?)
      && (r.Success? ==> r.value == path)
      && (r.Failure? ==> r.error == Wrapped("couldn't execute " + AppPath, Run(SaveInvocation(path), w).value))
  {
    var path := GenerateFilename(c.saveDir, NamePrefix, w.now) + ".snap";
    var inv := Invocation(AppPath, ["snapshot", "save", path], CmdConfig([], Inherit, Inherit, None, ""));
    acts := [Exec(inv)];
    var err := Run(inv, w);
    if err.Some? {
      return Failure(Wrapped("couldn't execute " + AppPath, err.value)), acts;
    }
    return Success(path), acts;
  }

  const RestoreContext := "couldn't execute consul restore"

  /** The error `Restore` reports: the snapshot run's error under one context. */
  function RestoreError(path: string, w: World): Option<Error>
  {
    var e := Run(RestoreInvocation(path), w);
    if e.Some? then Some(Wrapped(RestoreContext, e.value)) else None
  }

  /** `Restore`: consul reads the snapshot from the given path. */
  method Restore(c: ConsulConfig, path: string, w: World) returns (r: Option<Error>, acts: seq<Action>)
    ensures acts == [Exec(RestoreInvocation(path))]
    ensures r == RestoreError(path, w)
    ensures r.None? <==> Run(RestoreInvocation(path), w).None?
    ensures r.Some? ==> r.value == Wrapped("couldn't execute consul restore", Run(RestoreInvocation(path), w).value)
  {
    var inv := Invocation(AppPath, ["snapshot", "restore", path], CmdConfig([], Inherit, Inherit, None, ""));
    acts := [Exec(inv)];
    var err := Run(inv, w);
    if err.Some? {
      return Some(Wrapped(RestoreContext, err.value)), acts;
    }
    return None, acts;
  }

  /** Without streams, a failing snapshot command reports its raw process error:
      a non-zero exit stays an exit error, and `Restore` reports it under the
      one wrapping context. */
  lemma RestoreReportsExit(path: string, w: World)
    requires var o := w.process(RestoreInvocation(path));
      !o.startFails && o.exit.Exited? && o.exit.code != 0
    ensures Run(RestoreInvocation(path), w) == Some(ExitError(w.process(RestoreInvocation(path)).exit.code))
    ensures RestoreError(path, w) == Some(Wrapped(RestoreContext, ExitError(w.process(RestoreInvocation(path)).exit.code)))
  {
  }
}
