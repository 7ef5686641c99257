/** The PostgreSQL source of sources/postgres.go: pg_dump / pg_dumpall for
    backups, psql / pg_restore for restores, and the optional drop-and-recreate
    of the database before a restore. */
module Postgres {
  import opened Wrappers
  import opened Paths
  import opened Clock
  import opened Command
  import opened Effects

  datatype PostgresConfig = PostgresConfig(
    host: string,
    port: string,
    user: string,
    password: string,
    database: string,
    options: string,
    compress: bool,
    custom: bool,
    saveDir: string,
    ignoreExitCode: bool,
    drop: bool,
    owner: string)

  const DumpCmd := "/usr/bin/pg_dump"
  const DumpallCmd := "/usr/bin/pg_dumpall"
  const RestoreCmd := "/usr/bin/pg_restore"
  const TermCmd := "/usr/bin/psql"
  const MaintenanceDatabase := "postgres"
  const NamePrefix := "postgres-backup"

  /** The custom format is used only when a single database is named. */
  predicate UsesCustomFormat(p: PostgresConfig)
  {
    p.custom && p.database != ""
  }

  /** `newBaseArgs`: connection flags, the database if one is named, then the
      extra options split at white space. */
  function BaseArgs(p: PostgresConfig): (args: seq<string>)
    ensures |args| == 6 + (if p.database != "" then 2 else 0) + |Fields(p.options)|
    ensures args[..6] == ["-h", p.host, "-p", p.port, "-U", p.user]
    ensures p.database != "" ==> args[6..8] == ["-d", p.database]
    ensures args[|args| - |Fields(p.options)|..] == Fields(p.options)
  {
    var args := ["-h", p.host, "-p", p.port, "-U", p.user];
    var args := if p.database != "" then args + ["-d", p.database] else args;
    args + Fields(p.options)
  }

  /** Extra options written as space-separated words reach the tool as those words. */
  lemma OptionsPassedAsWords(p: PostgresConfig, words: seq<string>)
    requires forall i :: 0 <= i < |words| ==> Word(words[i])
    requires p.options == Unwords(words)
    ensures BaseArgs(p) == BaseArgs(p.(options := "")) + words
  {
    FieldsUnwords(words);
  }

  /** `newPostgresCmd`: the password travels in the environment, never in the arguments. */
  function CmdEnv(p: PostgresConfig): (env: seq<string>)
    ensures |env| <= 1
    ensures |env| == 1 <==> p.password != ""
    ensures |env| == 1 ==> env[0] == "PGPASSWORD=" + p.password
  {
    if p.password != "" then ["PGPASSWORD=" + p.password] else []
  }

  function DumpTool(p: PostgresConfig): string
  {
    if p.database != "" then DumpCmd else DumpallCmd
  }

  function Extension(p: PostgresConfig): string
  {
    if UsesCustomFormat(p) then ".dump" else if !p.compress then ".sql" else ".sql.gz"
  }

  /** The artifact `Backup` produces at the instant `now`. */
  function ArtifactPath(p: PostgresConfig, now: Instant): string
  {
    GenerateFilename(p.saveDir, NamePrefix, now) + Extension(p)
  }

  /** The arguments that follow the base arguments in a dump. */
  function DumpFlags(p: PostgresConfig, path: string): seq<string>
  {
    if UsesCustomFormat(p) then ["-f", path, "-Fc"]
    else if !p.compress then ["-f", path]
    else []
  }

  /** Line 112 as written: the gzip writer is attached when `Compress && !Custom`. */
  predicate GzipsOutputAsWritten(p: PostgresConfig)
  {
    p.compress && !p.custom
  }

  /** Corrected: the gzip writer is attached exactly when the `.sql.gz` branch is taken. */
  predicate GzipsOutput(p: PostgresConfig)
  {
    p.compress && !UsesCustomFormat(p)
  }

  /** The dump run of `Backup` as written. */
  function DumpInvocation(p: PostgresConfig, path: string): Invocation
  {
    Invocation(DumpTool(p), BaseArgs(p) + DumpFlags(p, path),
               CmdConfig(CmdEnv(p), Inherit, if GzipsOutputAsWritten(p) then Gzip(path) else Inherit, None, ""))
  }

  /** The dump run with the corrected gzip condition. */
  function DumpInvocationCorrected(p: PostgresConfig, path: string): Invocation
  {
    Invocation(DumpTool(p), BaseArgs(p) + DumpFlags(p, path),
               CmdConfig(CmdEnv(p), Inherit, if GzipsOutput(p) then Gzip(path) else Inherit, None, ""))
  }

  /** The dump lands in the artifact file through exactly one route: `-f <path>`
      given to the tool, or the gzip writer over the file. */
  predicate WritesArtifactOnce(p: PostgresConfig, path: string, output: Stream)
  {
    var flags := DumpFlags(p, path);
    (|flags| >= 2 && flags[..2] == ["-f", path]) != (output == Gzip(path))
  }

  /** Which tool, extension and flags a backup uses. */
  lemma DumpChoice(p: PostgresConfig, path: string)
    ensures DumpTool(p) == DumpCmd <==> p.database != ""
    ensures Extension(p) == ".dump" <==> UsesCustomFormat(p)
    ensures Extension(p) == ".sql" <==> !UsesCustomFormat(p) && !p.compress
    ensures Extension(p) == ".sql.gz" <==> !UsesCustomFormat(p) && p.compress
    ensures UsesCustomFormat(p) <==> |DumpFlags(p, path)| == 3 && DumpFlags(p, path)[2] == "-Fc"
    ensures GzipsOutputAsWritten(p) ==> Extension(p) == ".sql.gz"
    ensures Extension(p) == ".sql.gz" && !GzipsOutputAsWritten(p) <==> p.custom && p.compress && p.database == ""
    ensures GzipsOutput(p) <==> Extension(p) == ".sql.gz"
  {
    assert DumpCmd != DumpallCmd;
    assert ".dump" != ".sql" && ".sql" != ".sql.gz" && ".dump" != ".sql.gz";
  }

  /** Finding: as written, a custom-format, compressed dump of all databases gets
      neither `-f` nor a gzip writer, so pg_dumpall writes to the caller's standard
      output and the returned `.sql.gz` path is never written. */
  lemma DumpAsWrittenLosesOutput(p: PostgresConfig, path: string)
    requires p.custom && p.compress && p.database == ""
    ensures DumpFlags(p, path) == [] && !GzipsOutputAsWritten(p)
    ensures !WritesArtifactOnce(p, path, DumpInvocation(p, path).cfg.output)
    ensures Extension(p) == ".sql.gz"
  {
  }

  /** Corrected: every configuration writes its dump to the artifact exactly once. */
  lemma DumpWritesArtifact(p: PostgresConfig, path: string)
    ensures WritesArtifactOnce(p, path, DumpInvocationCorrected(p, path).cfg.output)
  {
  }

  /** The dump as written differs from the corrected one, and misses the
      artifact, exactly for a compressed custom-format dump of all databases. */
  lemma DumpAsWrittenAgrees(p: PostgresConfig, path: string)
    ensures DumpInvocation(p, path) == DumpInvocationCorrected(p, path) <==> !(p.custom && p.compress && p.database == "")
    ensures WritesArtifactOnce(p, path, DumpInvocation(p, path).cfg.output) <==> !(p.custom && p.compress && p.database == "")
  {
    if p.custom && p.compress && p.database == "" {
      assert DumpInvocation(p, path).cfg.output != DumpInvocationCorrected(p, path).cfg.output;
    }
  }

  /** `Backup`: names the artifact, picks the tool and flags, creates the file
      for the gzip writer when `Compress && !Custom` (as written), and runs the dump. */
  method Backup(p: PostgresConfig, w: World) returns (r: Result<string>, acts: seq<Action>)
    ensures var path := ArtifactPath(p, w.now);
      var inv := DumpInvocation(p, path);
      if GzipsOutputAsWritten(p) && !w.ok(Create(path)) then
        acts == [Io(Create(path))] && r == Failure(Wrapped("cannot create file", IoFailure))
      else
        acts == (if GzipsOutputAsWritten(p) then [Io(Create(path))] else []) + [Exec(inv)]
        && r == (if Run(inv, w).Some? then Failure(Wrapped("couldn't execute " + DumpTool(p), Run(inv, w).value))
                 else Success(path))
  {
    var path := GenerateFilename(p.saveDir, NamePrefix, w.now);
    var args := BaseArgs(p);
    var appPath := if p.database != "" then DumpCmd else DumpallCmd;
    if p.custom && p.database != "" {
      path := path + ".dump";
      args := args + ["-f", path];
      args := args + ["-Fc"];
      assert args == BaseArgs(p) + ["-f", path, "-Fc"];
    } else if !p.compress {
      path := path + ".sql";
      args := args + ["-f", path];
    } else {
      path := path + ".sql.gz";
    }
    var app := CmdConfig(CmdEnv(p), Inherit, Inherit, None, "");
    acts := [];
    if p.compress && !p.custom {
      acts := acts + [Io(Create(path))];
      if !w.ok(Create(path)) {
        return Failure(Wrapped("cannot create file", IoFailure)), acts;
      }
      app := app.(output := Gzip(path));
    }
    var inv := Invocation(appPath, args, app);
    assert inv == DumpInvocation(p, path);
    acts := acts + [Exec(inv)];
    var err := Run(inv, w);
    if err.Some? {
      return Failure(Wrapped("couldn't execute " + appPath, err.value)), acts;
    }
    return Success(path), acts;
  }

  function RestoreTool(p: PostgresConfig): string
  {
    if UsesCustomFormat(p) then RestoreCmd else TermCmd
  }

  function RestoreArgs(p: PostgresConfig, path: string): seq<string>
  {
    BaseArgs(p) + (if UsesCustomFormat(p) then [path] else [])
  }

  /** Line 148 as written: the dump is fed to standard input when `!Custom`. */
  predicate FeedsInputAsWritten(p: PostgresConfig)
  {
    !p.custom
  }

  /** Corrected: the dump is fed to standard input exactly when psql restores it. */
  predicate FeedsInput(p: PostgresConfig)
  {
    !UsesCustomFormat(p)
  }

  /** The restoring tool's standard input as written. */
  function InputStream(p: PostgresConfig, path: string): Stream
  {
    if !FeedsInputAsWritten(p) then Inherit else if HasSuffix(path, ".gz") then Gzip(path) else File(path)
  }

  /** The restoring tool's standard input with the corrected condition. */
  function InputStreamCorrected(p: PostgresConfig, path: string): Stream
  {
    if !FeedsInput(p) then Inherit else if HasSuffix(path, ".gz") then Gzip(path) else File(path)
  }

  /** The restore run of `Restore` as written. */
  function RestoreInvocation(p: PostgresConfig, path: string): Invocation
  {
    Invocation(RestoreTool(p), RestoreArgs(p, path), CmdConfig(CmdEnv(p), InputStream(p, path), Inherit, None, ""))
  }

  /** The restore run with the corrected input condition. */
  function RestoreInvocationCorrected(p: PostgresConfig, path: string): Invocation
  {
    Invocation(RestoreTool(p), RestoreArgs(p, path), CmdConfig(CmdEnv(p), InputStreamCorrected(p, path), Inherit, None, ""))
  }

  /** The restoring tool receives the artifact exactly once: as the last argument
      of pg_restore or on psql's standard input. */
  predicate ReadsArtifactOnce(p: PostgresConfig, path: string, input: Stream)
  {
    var extra := RestoreArgs(p, path)[|BaseArgs(p)|..];
    (extra == [path]) != (input == File(path) || input == Gzip(path))
  }

  /** Finding: as written, a custom-format restore with no database named runs
      psql with neither a file argument nor an input stream: nothing is restored. */
  lemma RestoreAsWrittenReadsNothing(p: PostgresConfig, path: string)
    requires p.custom && p.database == ""
    ensures RestoreTool(p) == TermCmd && !FeedsInputAsWritten(p)
    ensures !ReadsArtifactOnce(p, path, Inherit)
    ensures !ReadsArtifactOnce(p, path, RestoreInvocation(p, path).cfg.input)
  {
    assert RestoreArgs(p, path)[|BaseArgs(p)|..] == [];
  }

  /** Corrected: every configuration hands the artifact to the restoring tool once,
      and decompresses it exactly when its name ends in `.gz` and psql reads it. */
  lemma RestoreReadsArtifact(p: PostgresConfig, path: string)
    ensures ReadsArtifactOnce(p, path, RestoreInvocationCorrected(p, path).cfg.input)
    ensures InputStreamCorrected(p, path) == Gzip(path) <==> FeedsInput(p) && HasSuffix(path, ".gz")
    ensures RestoreTool(p) == RestoreCmd <==> UsesCustomFormat(p)
  {
    assert RestoreCmd != TermCmd;
    var extra := RestoreArgs(p, path)[|BaseArgs(p)|..];
    assert extra == (if UsesCustomFormat(p) then [path] else []);
  }

  /** The restore as written differs from the corrected one, and misses the
      artifact, exactly for a custom-format restore with no database named. */
  lemma RestoreAsWrittenAgrees(p: PostgresConfig, path: string)
    ensures RestoreInvocation(p, path) == RestoreInvocationCorrected(p, path) <==> !(p.custom && p.database == "")
    ensures ReadsArtifactOnce(p, path, RestoreInvocation(p, path).cfg.input) <==> !(p.custom && p.database == "")
  {
    var extra := RestoreArgs(p, path)[|BaseArgs(p)|..];
    assert extra == (if UsesCustomFormat(p) then [path] else []);
    if p.custom && p.database == "" {
      assert RestoreInvocation(p, path).cfg.input != RestoreInvocationCorrected(p, path).cfg.input;
    }
  }

  /** Finding: as written, IgnoreExitCode takes effect only when no input is
      streamed, that is only under Custom; a psql restore fed from the artifact
      reports its non-zero exit wrapped, and the type assertion misses it. */
  lemma RestoreAsWrittenToleratesOnlyCustom(p: PostgresConfig, path: string, w: World)
    requires Run(RestoreInvocation(p, path), w).Some?
    requires ToleratedAsWritten(Run(RestoreInvocation(p, path), w).value, p.ignoreExitCode)
    ensures p.custom
  {
    var inv := RestoreInvocation(p, path);
    ToleranceAsWrittenOnlyUnstreamed(inv.cfg, w.process(inv), p.ignoreExitCode);
  }

  function Owner(p: PostgresConfig): string
  {
    if p.owner != "" then p.owner else p.user
  }

  const TerminateSelect := "SELECT pg_terminate_backend(pg_stat_activity.pid)\n"
  const TerminateFrom := "FROM pg_stat_activity\n"
  const TerminateWhere := "WHERE pg_stat_activity.datname = '"
  const TerminateTail := "' AND pid <> pg_backend_pid();"

  function TerminateQuery(db: string): string
  {
    TerminateSelect + TerminateFrom + TerminateWhere + db + TerminateTail
  }

  function DropQuery(db: string): string
  {
    "DROP DATABASE \"" + db + "\";"
  }

  function CreateQuery(db: string, owner: string): string
  {
    "CREATE DATABASE \"" + db + "\" OWNER \"" + owner + "\";"
  }

  /** The three psql runs of `recreate`, in order: terminate, drop, create. */
  function RecreateSteps(p: PostgresConfig): (steps: seq<Invocation>)
    ensures |steps| == 3
    ensures forall i :: 0 <= i < 3 ==> steps[i].app == TermCmd && steps[i].cfg == Command.Plain(CmdEnv(p))
  {
    var args := ["-h", p.host, "-p", p.port, "-U", p.user, MaintenanceDatabase];
    var cfg := Command.Plain(CmdEnv(p));
    [ Invocation(TermCmd, args + ["-c", TerminateQuery(p.database)], cfg),
      Invocation(TermCmd, args + ["-c", DropQuery(p.database)], cfg),
      Invocation(TermCmd, args + ["-c", CreateQuery(p.database, Owner(p))], cfg) ]
  }

  const RecreateContexts := ["psql error on terminate", "psql error on drop", "psql error on create"]

  /** `recreate`: terminate the other sessions, drop, create; the first failure
      stops the sequence and names its step. */
  method Recreate(p: PostgresConfig, w: World) returns (r: Option<Error>, acts: seq<Action>)
    ensures var steps := RecreateSteps(p);
      var n := Attempted(steps, w);
      && 1 <= n
      && acts == Execs(steps[..n])
      && (r.None? <==> forall i :: 0 <= i < 3 ==> Run(steps[i], w).None?)
      && (r.Some? ==> r.value == Wrapped(RecreateContexts[n - 1], Run(steps[n - 1], w).value))
    ensures r == RecreateError(p, w) && acts == RecreateActs(p, w)
  {
    var steps := RecreateSteps(p);
    assert steps[1..][1..] == [steps[2]] && steps[1..][1..][1..] == [];
    acts := [Exec(steps[0])];
    var err := Run(steps[0], w);
    if err.Some? {
      return Some(Wrapped("psql error on terminate", err.value)), acts;
    }
    acts := acts + [Exec(steps[1])];
    err := Run(steps[1], w);
    if err.Some? {
      return Some(Wrapped("psql error on drop", err.value)), acts;
    }
    acts := acts + [Exec(steps[2])];
    err := Run(steps[2], w);
    if err.Some? {
      return Some(Wrapped("psql error on create", err.value)), acts;
    }
    assert steps[..3] == steps;
    return None, acts;
  }

  /** The database is created owned by Owner when it is set, by User otherwise. */
  lemma RecreateOwner(p: PostgresConfig)
    ensures RecreateSteps(p)[2].args[|RecreateSteps(p)[2].args| - 1] == CreateQuery(p.database, Owner(p))
    ensures Owner(p) == (if p.owner == "" then p.user else p.owner)
  {
  }

  /** The actions of `recreate`: the psql runs up to and including the first failure. */
  function RecreateActs(p: PostgresConfig, w: World): seq<Action>
  {
    var steps := RecreateSteps(p);
    Execs(steps[..Attempted(steps, w)])
  }

  /** The error of `recreate`: the first failing step's error, named after its step. */
  function RecreateError(p: PostgresConfig, w: World): Option<Error>
  {
    var steps := RecreateSteps(p);
    var n := Attempted(steps, w);
    if Run(steps[n - 1], w).Some? then Some(Wrapped(RecreateContexts[n - 1], Run(steps[n - 1], w).value)) else None
  }

  /** Opening the artifact (and the gzip reader over it) for psql's input. */
  function PrepareActs(p: PostgresConfig, path: string, w: World): seq<Action>
  {
    if !FeedsInputAsWritten(p) then []
    else if !w.ok(Open(path)) || !HasSuffix(path, ".gz") then [Io(Open(path))]
    else [Io(Open(path)), Io(GzipReader(path))]
  }

  function PrepareError(p: PostgresConfig, path: string, w: World): Option<Error>
  {
    if !FeedsInputAsWritten(p) then None
    else if !w.ok(Open(path)) then Some(Wrapped("cannot open file", IoFailure))
    else if HasSuffix(path, ".gz") && !w.ok(GzipReader(path)) then Some(Wrapped("cannot create gzip reader", IoFailure))
    else None
  }

  /** The first part of `Restore`: unless Custom is set, open the artifact for
      the tool's input, through a gzip reader when its name ends in `.gz`. */
  method OpenInput(p: PostgresConfig, path: string, w: World) returns (err: Option<Error>, input: Stream, acts: seq<Action>)
    ensures err == PrepareError(p, path, w) && acts == PrepareActs(p, path, w)
    ensures err.None? ==> input == InputStream(p, path)
  {
    input := Inherit;
    acts := [];
    err := None;
    if !p.custom {
      acts := acts + [Io(Open(path))];
      if !w.ok(Open(path)) {
        return Some(Wrapped("cannot open file", IoFailure)), input, acts;
      }
      if HasSuffix(path, ".gz") {
        acts := acts + [Io(GzipReader(path))];
        if !w.ok(GzipReader(path)) {
          return Some(Wrapped("cannot create gzip reader", IoFailure)), input, acts;
        }
        input := Gzip(path);
      } else {
        input := File(path);
      }
    }
  }

  /** `Restore`: prepare the input, recreate the database when Drop is set, then
      run the restoring tool; under IgnoreExitCode a run error is ignored when
      the type assertion of line 179 finds a bare exit error. */
  method Restore(p: PostgresConfig, path: string, w: World) returns (r: Option<Error>, acts: seq<Action>)
    ensures PrepareError(p, path, w).Some? ==> acts == PrepareActs(p, path, w) && r == PrepareError(p, path, w)
    ensures PrepareError(p, path, w).None? && p.drop && RecreateError(p, w).Some? ==>
      acts == PrepareActs(p, path, w) + RecreateActs(p, w)
      && r == Some(Wrapped("couldn't recreate database", RecreateError(p, w).value))
    ensures PrepareError(p, path, w).None? && !(p.drop && RecreateError(p, w).Some?) ==>
      acts == PrepareActs(p, path, w) + (if p.drop then RecreateActs(p, w) else []) + [Exec(RestoreInvocation(p, path))]
    ensures PrepareError(p, path, w).None? && !(p.drop && RecreateError(p, w).Some?) ==>
      var e := Run(RestoreInvocation(p, path), w);
      r == (if e.None? || ToleratedAsWritten(e.value, p.ignoreExitCode) then None
            else Some(Wrapped("couldn't execute " + RestoreTool(p), e.value)))
  {
    var err, input, prep := OpenInput(p, path, w);
    acts := prep;
    if err.Some? {
      return err, acts;
    }
    if p.drop {
      var steps;
      err, steps := Recreate(p, w);
      acts := acts + steps;
      if err.Some? {
        return Some(Wrapped("couldn't recreate database", err.value)), acts;
      }
    }
    var act;
    r, act := RunRestoreTool(p, path, input, w);
    acts := acts + [act];
  }

  /** The last part of `Restore`: run pg_restore or psql on the prepared input;
      under IgnoreExitCode a bare exit error is only logged. */
  method RunRestoreTool(p: PostgresConfig, path: string, input: Stream, w: World) returns (r: Option<Error>, act: Action)
    requires input == InputStream(p, path)
    ensures act == Exec(RestoreInvocation(p, path))
    ensures var e := Run(RestoreInvocation(p, path), w);
      r == (if e.None? || ToleratedAsWritten(e.value, p.ignoreExitCode) then None
            else Some(Wrapped("couldn't execute " + RestoreTool(p), e.value)))
  {
    var args := BaseArgs(p);
    var appPath: string;
    if p.custom && p.database != "" {
      args := args + [path];
      appPath := RestoreCmd;
    } else {
      appPath := TermCmd;
    }
    assert appPath == RestoreTool(p) && args == RestoreArgs(p, path);
    var inv := Invocation(appPath, args, CmdConfig(CmdEnv(p), input, Inherit, None, ""));
    assert inv == RestoreInvocation(p, path);
    act := Exec(inv);
    var err := Run(inv, w);
    if err.Some? && !ToleratedAsWritten(err.value, p.ignoreExitCode) {
      return Some(Wrapped("couldn't execute " + appPath, err.value)), act;
    }
    return None, act;
  }

  /** With Drop set, the restoring tool runs only after all three recreate steps
      succeeded, in the order terminate, drop, create. */
  lemma RecreateAllOrNothing(p: PostgresConfig, w: World)
    ensures RecreateError(p, w).None? <==> forall i :: 0 <= i < 3 ==> Run(RecreateSteps(p)[i], w).None?
    ensures RecreateError(p, w).None? ==> RecreateActs(p, w) == Execs(RecreateSteps(p))
  {
    var steps := RecreateSteps(p);
    assert steps[..3] == steps;
  }
}
