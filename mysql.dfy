/** The MySQL source of sources/mysql.go: mysqldump for backups, the mysql
    client fed with the dump for restores. */
module MySQL {
  import opened Wrappers
  import opened Paths
  import opened Clock
  import opened Command
  import opened Effects

  datatype MySQLConfig = MySQLConfig(
    host: string,
    port: string,
    user: string,
    password: string,
    database: string,
    options: string,
    compress: bool,
    saveDir: string,
    ignoreExitCode: bool)

  const DumpCmd := "/usr/bin/mysqldump"
  const RestoreCmd := "/usr/bin/mysql"
  const NamePrefix := "mysql-backup"
  /** The short flag that carries the password, and the token given to the log redaction. */
  const PasswordFlag := "-p"

  /** `newBaseArgs`: connection flags, the password glued to `-p` when there is
      one, then the extra options split at white space. */
  function BaseArgs(m: MySQLConfig): (args: seq<string>)
    ensures |args| == 6 + (if m.password != "" then 1 else 0) + |Fields(m.options)|
    ensures args[..6] == ["-h", m.host, "-P", m.port, "-u", m.user]
    ensures m.password != "" ==> args[6] == PasswordFlag + m.password
    ensures args[|args| - |Fields(m.options)|..] == Fields(m.options)
  {
    var args := ["-h", m.host, "-P", m.port, "-u", m.user];
    var args := if m.password != "" then args + [PasswordFlag + m.password] else args;
    args + Fields(m.options)
  }

  function Extension(m: MySQLConfig): string
  {
    if m.compress then ".sql.gz" else ".sql"
  }

  /** The artifact `Backup` produces at the instant `now`. */
  function ArtifactPath(m: MySQLConfig, now: Instant): string
  {
    GenerateFilename(m.saveDir, NamePrefix, now) + Extension(m)
  }

  function DumpArgs(m: MySQLConfig, path: string): seq<string>
  {
    BaseArgs(m)
    + (if m.database != "" then ["-B", m.database] else ["--all-databases"])
    + (if !m.compress then ["-r", path] else [])
  }

  function DumpInvocation(m: MySQLConfig, path: string): Invocation
  {
    Invocation(DumpCmd, DumpArgs(m, path),
               CmdConfig([], Inherit, if m.compress then Gzip(path) else Inherit, None, PasswordFlag))
  }

  /** A dump selects the named database, or all of them, and writes to the
      artifact exactly once: through a trailing `-r <path>` or through the gzip
      writer. */
  lemma DumpShape(m: MySQLConfig, path: string)
    ensures var args := DumpArgs(m, path);
      var n := |BaseArgs(m)|;
      && |args| == n + (if m.database != "" then 2 else 1) + (if m.compress then 0 else 2)
      && args[..n] == BaseArgs(m)
      && (m.database != "" ==> args[n..n + 2] == ["-B", m.database])
      && (m.database == "" ==> args[n] == "--all-databases")
      && (!m.compress ==> args[|args| - 2..] == ["-r", path])
      && (DumpInvocation(m, path).cfg.output == Gzip(path) <==> m.compress)
  {
  }

  /** No argument before the password starts with `-p`, so the redaction finds
      the password and nothing else. */
  predicate PasswordIsFirstMatch(m: MySQLConfig)
  {
    m.password != ""
    && !HasPrefix(m.host, PasswordFlag) && !HasPrefix(m.port, PasswordFlag) && !HasPrefix(m.user, PasswordFlag)
  }

  /** The logged arguments of a compressed dump show the password as
      `-p********` and every other argument as it is. */
  lemma DumpLogHidesPassword(m: MySQLConfig, path: string, o: ProcessOutcome)
    requires PasswordIsFirstMatch(m)
    ensures var inv := DumpInvocation(m, path);
      LoggedArgs(inv, o).Some? ==>
        var logged := LoggedArgs(inv, o).value;
        |logged| == |inv.args| && logged[6] == PasswordFlag + ShortMask
        && forall j :: 0 <= j < |inv.args| && j != 6 ==> logged[j] == inv.args[j]
  {
    var args := DumpArgs(m, path);
    assert args[..|BaseArgs(m)|] == BaseArgs(m);
    assert args[6] == PasswordFlag + m.password;
    assert PasswordFlag[..2][1] != "--"[1];
    RedactShort(args, PasswordFlag, 6);
  }

  /** `Backup`: names the artifact, selects the databases, creates the file for
      the gzip writer when compressing, and runs mysqldump. */
  method Backup(m: MySQLConfig, w: World) returns (r: Result<string>, acts: seq<Action>)
    ensures var path := ArtifactPath(m, w.now);
      var inv := DumpInvocation(m, path);
      if m.compress && !w.ok(Create(path)) then
        acts == [Io(Create(path))] && r == Failure(Wrapped("cannot create file", IoFailure))
      else
        acts == (if m.compress then [Io(Create(path))] else []) + [Exec(inv)]
        && r == (if Run(inv, w).Some? then Failure(Wrapped("couldn't execute " + DumpCmd, Run(inv, w).value))
                 else Success(path))
  {
    var path := GenerateFilename(m.saveDir, NamePrefix, w.now);
    var args := BaseArgs(m);
    if m.database != "" {
      args := args + ["-B", m.database];
    } else {
      args := args + ["--all-databases"];
    }
    if !m.compress {
      path := path + ".sql";
      args := args + ["-r", path];
    } else {
      path := path + ".sql.gz";
    }
    var app := CmdConfig([], Inherit, Inherit, None, PasswordFlag);
    acts := [];
    if m.compress {
      acts := acts + [Io(Create(path))];
      if !w.ok(Create(path)) {
        return Failure(Wrapped("cannot create file", IoFailure)), acts;
      }
      app := app.(output := Gzip(path));
    }
    var inv := Invocation(DumpCmd, args, app);
    assert inv == DumpInvocation(m, path);
    acts := acts + [Exec(inv)];
    var err := Run(inv, w);
    if err.Some? {
      return Failure(Wrapped("couldn't execute " + DumpCmd, err.value)), acts;
    }
    return Success(path), acts;
  }

  function RestoreArgs(m: MySQLConfig): seq<string>
  {
    BaseArgs(m) + (if m.database != "" then ["-D", m.database] else [])
  }

  function InputStream(path: string): Stream
  {
    if HasSuffix(path, ".gz") then Gzip(path) else File(path)
  }

  /** Line 99 as written: the restore's `CmdConfig` names no secret to redact. */
  function RestoreInvocationAsWritten(m: MySQLConfig, path: string): Invocation
  {
    Invocation(RestoreCmd, RestoreArgs(m), CmdConfig([], InputStream(path), Inherit, None, ""))
  }

  /** Corrected: the restore redacts the password as the backup does. */
  function RestoreInvocation(m: MySQLConfig, path: string): Invocation
  {
    Invocation(RestoreCmd, RestoreArgs(m), CmdConfig([], InputStream(path), Inherit, None, PasswordFlag))
  }

  /** Finding: as written, the restore always streams its input, so it always
      logs its arguments, and the password is among them in clear. */
  lemma RestoreAsWrittenLogsPassword(m: MySQLConfig, path: string, o: ProcessOutcome)
    requires m.password != "" && !o.stdinPipeFails
    ensures var inv := RestoreInvocationAsWritten(m, path);
      LoggedArgs(inv, o).Some? && LoggedArgs(inv, o).value[6] == PasswordFlag + m.password
  {
    assert RestoreArgs(m)[6] == BaseArgs(m)[6];
  }

  /** Corrected: the logged restore arguments show the password as `-p********`. */
  lemma RestoreLogHidesPassword(m: MySQLConfig, path: string, o: ProcessOutcome)
    requires PasswordIsFirstMatch(m)
    ensures var inv := RestoreInvocation(m, path);
      LoggedArgs(inv, o).Some? ==>
        var logged := LoggedArgs(inv, o).value;
        |logged| == |inv.args| && logged[6] == PasswordFlag + ShortMask
        && forall j :: 0 <= j < |inv.args| && j != 6 ==> logged[j] == inv.args[j]
  {
    var args := RestoreArgs(m);
    assert args[6] == BaseArgs(m)[6];
    assert PasswordFlag[..2][1] != "--"[1];
    RedactShort(args, PasswordFlag, 6);
  }

  /** Finding: as written, `IgnoreExitCode` never takes effect, because the
      restore's input is streamed and `CmdRun` wraps the exit error. */
  lemma RestoreAsWrittenNeverTolerates(m: MySQLConfig, path: string, o: ProcessOutcome)
    requires CmdRun(RestoreInvocationAsWritten(m, path).cfg, o).Some?
    ensures !ToleratedAsWritten(CmdRun(RestoreInvocationAsWritten(m, path).cfg, o).value, m.ignoreExitCode)
  {
    var cfg := RestoreInvocationAsWritten(m, path).cfg;
    if ToleratedAsWritten(CmdRun(cfg, o).value, m.ignoreExitCode) {
      ToleranceAsWrittenOnlyUnstreamed(cfg, o, m.ignoreExitCode);
    }
  }

  /** `Restore`: open the dump, through a gzip reader when its name ends in
      `.gz`, and feed it to the mysql client with the invocation of line 99 as
      written; a run error is ignored under IgnoreExitCode only when the type
      assertion of line 125 finds a bare exit error. */
  method Restore(m: MySQLConfig, path: string, w: World) returns (r: Option<Error>, acts: seq<Action>)
    ensures !w.ok(Open(path)) ==> acts == [Io(Open(path))] && r == Some(Wrapped("cannot open file", IoFailure))
    ensures w.ok(Open(path)) && HasSuffix(path, ".gz") && !w.ok(GzipReader(path)) ==>
      acts == [Io(Open(path)), Io(GzipReader(path))] && r == Some(Wrapped("cannot create gzip reader", IoFailure))
    ensures w.ok(Open(path)) && (HasSuffix(path, ".gz") ==> w.ok(GzipReader(path))) ==>
      var inv := RestoreInvocationAsWritten(m, path);
      var e := Run(inv, w);
      acts == [Io(Open(path))] + (if HasSuffix(path, ".gz") then [Io(GzipReader(path))] else []) + [Exec(inv)]
      && r == (if e.None? || ToleratedAsWritten(e.value, m.ignoreExitCode) then None
               else Some(Wrapped("couldn't execute " + RestoreCmd, e.value)))
  {
    var args := BaseArgs(m);
    var app := CmdConfig([], Inherit, Inherit, None, "");
    if m.database != "" {
      args := args + ["-D", m.database];
    }
    acts := [Io(Open(path))];
    if !w.ok(Open(path)) {
      return Some(Wrapped("cannot open file", IoFailure)), acts;
    }
    if HasSuffix(path, ".gz") {
      acts := acts + [Io(GzipReader(path))];
      if !w.ok(GzipReader(path)) {
        return Some(Wrapped("cannot create gzip reader", IoFailure)), acts;
      }
      app := app.(input := Gzip(path));
    } else {
      app := app.(input := File(path));
    }
    var inv := Invocation(RestoreCmd, args, app);
    assert inv == RestoreInvocationAsWritten(m, path);
    acts := acts + [Exec(inv)];
    var err := Run(inv, w);
    if err.Some? {
      if ToleratedAsWritten(err.value, m.ignoreExitCode) {
        // the exit code is logged and ignored
      } else {
        return Some(Wrapped("couldn't execute " + RestoreCmd, err.value)), acts;
      }
    }
    return None, acts;
  }

  /** With IgnoreExitCode set, a restore whose client started and exited
      non-zero succeeds; without it, it fails. */
  lemma RestoreToleratesExit(m: MySQLConfig, path: string, w: World)
    requires w.ok(Open(path)) && (HasSuffix(path, ".gz") ==> w.ok(GzipReader(path)))
    requires var o := w.process(RestoreInvocation(m, path));
      !o.stdinPipeFails && !o.startFails && o.exit.Exited? && o.exit.code != 0
    ensures Run(RestoreInvocation(m, path), w).Some?
    ensures Tolerated(Run(RestoreInvocation(m, path), w).value, m.ignoreExitCode) <==> m.ignoreExitCode
  {
    var inv := RestoreInvocation(m, path);
    ToleratedExactlyNonZeroExit(inv.cfg, w.process(inv), m.ignoreExitCode);
  }
}
