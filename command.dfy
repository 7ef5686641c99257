/** The external-command runner of sources/command.go: the configuration of one
    invocation, the error it reports, argument redaction for the log line and the
    timestamped artifact names. Process creation, pipes and the two copy goroutines
    are replaced by the outcome of each of their steps. */
module Command {
  import opened Wrappers
  import opened Paths
  import opened Clock
  import Lex

  /** Where a stream of the child process is connected. */
  datatype Stream =
    | Inherit            // nil in CmdConfig: the child uses the caller's stream
    | File(path: string) // a plain file
    | Gzip(path: string) // a gzip reader (for input) or gzip writer (for output) over the file

  datatype Credential = Credential(uid: nat, gid: nat)

  /** `CmdConfig`. An empty `env` is Go's nil `Env`, under which the child
      inherits the caller's environment; a non-empty one replaces it. */
  datatype CmdConfig = CmdConfig(
    env: seq<string>,
    input: Stream,
    output: Stream,
    credential: Option<Credential>,
    parsedArg: string)

  function Plain(env: seq<string>): CmdConfig
  {
    CmdConfig(env, Inherit, Inherit, None, "")
  }

  /** One call `app.CmdRun(name, args...)`. */
  datatype Invocation = Invocation(app: string, args: seq<string>, cfg: CmdConfig)

  datatype Exit = Exited(code: int) | WaitFailed

  /** What happened at each step of running the process; a step that the
      configuration does not take (a pipe that is not requested) is ignored. */
  datatype ProcessOutcome = ProcessOutcome(
    stdoutPipeFails: bool,
    stdinPipeFails: bool,
    startFails: bool,
    exit: Exit,
    stdinCopyFails: bool,
    stdoutCopyFails: bool)

  const StdoutPipeContext := "cannot create stdout pipe"
  const StdinPipeContext := "cannot create stdin pipe"
  const StartContext := "cannot start process"
  const WaitContext := "failed to wait for process"
  const ReadContext := "failed to read process stdin"
  const WriteContext := "failed to write process stdout"

  predicate Streamed(cfg: CmdConfig)
  {
    !cfg.input.Inherit? || !cfg.output.Inherit?
  }

  /** The error `cmd.Wait()` reports, if any. */
  function WaitError(exit: Exit): Option<Error>
  {
    match exit
    case Exited(code) => if code == 0 then None else Some(ExitError(code))
    case WaitFailed => Some(Failed("wait"))
  }

  /** `CmdRun`'s result. Without streams it is `cmd.Run()`'s own error; with streams
      the first failing step wins: pipe set-up, start, wait, stdin copy, stdout copy. */
  function CmdRun(cfg: CmdConfig, o: ProcessOutcome): Option<Error>
  {
    if !Streamed(cfg) then
      if o.startFails then Some(Failed("start")) else WaitError(o.exit)
    else if !cfg.output.Inherit? && o.stdoutPipeFails then Some(Wrapped(StdoutPipeContext, Failed("pipe")))
    else if !cfg.input.Inherit? && o.stdinPipeFails then Some(Wrapped(StdinPipeContext, Failed("pipe")))
    else if o.startFails then Some(Wrapped(StartContext, Failed("start")))
    else if WaitError(o.exit).Some? then Some(Wrapped(WaitContext, WaitError(o.exit).value))
    else if !cfg.input.Inherit? && o.stdinCopyFails then Some(Wrapped(ReadContext, Failed("copy")))
    else if !cfg.output.Inherit? && o.stdoutCopyFails then Some(Wrapped(WriteContext, Failed("copy")))
    else None
  }

  /** One step of a streamed run, as a reference list for the priority order. */
  datatype Step = Step(taken: bool, fails: bool, report: Error)

  function Steps(cfg: CmdConfig, o: ProcessOutcome): seq<Step>
  {
    [ Step(!cfg.output.Inherit?, o.stdoutPipeFails, Wrapped(StdoutPipeContext, Failed("pipe"))),
      Step(!cfg.input.Inherit?, o.stdinPipeFails, Wrapped(StdinPipeContext, Failed("pipe"))),
      Step(true, o.startFails, Wrapped(StartContext, Failed("start"))),
      Step(true, WaitError(o.exit).Some?,
           Wrapped(WaitContext, if WaitError(o.exit).Some? then WaitError(o.exit).value else Failed("wait"))),
      Step(!cfg.input.Inherit?, o.stdinCopyFails, Wrapped(ReadContext, Failed("copy"))),
      Step(!cfg.output.Inherit?, o.stdoutCopyFails, Wrapped(WriteContext, Failed("copy"))) ]
  }

  /** The report of the first step that is taken and fails. */
  function FirstFailure(steps: seq<Step>): Option<Error>
  {
    if steps == [] then None
    else if steps[0].taken && steps[0].fails then Some(steps[0].report)
    else FirstFailure(steps[1..])
  }

  /** With a stream attached, `CmdRun` reports the first failing step in the order
      pipe set-up, start, wait, stdin copy, stdout copy. */
  lemma CmdRunPriority(cfg: CmdConfig, o: ProcessOutcome)
    requires Streamed(cfg)
    ensures CmdRun(cfg, o) == FirstFailure(Steps(cfg, o))
  {
    var s := Steps(cfg, o);
    assert FirstFailure(s[6..]) == None by { assert s[6..] == []; }
    FirstFailureStep(s, 5);
    FirstFailureStep(s, 4);
    FirstFailureStep(s, 3);
    FirstFailureStep(s, 2);
    FirstFailureStep(s, 1);
    FirstFailureStep(s, 0);
    assert s[0..] == s;
  }

  lemma FirstFailureStep(s: seq<Step>, k: nat)
    requires k < |s|
    ensures FirstFailure(s[k..]) ==
      if s[k].taken && s[k].fails then Some(s[k].report) else FirstFailure(s[k + 1..])
  {
    assert s[k..][1..] == s[k + 1..];
  }

  /** `CmdRun` succeeds exactly when the process starts and exits with code 0 and
      every requested pipe and copy succeeds. */
  lemma CmdRunSucceeds(cfg: CmdConfig, o: ProcessOutcome)
    ensures CmdRun(cfg, o).None? <==>
      !o.startFails && o.exit == Exited(0)
      && (Streamed(cfg) ==>
            (!cfg.output.Inherit? ==> !o.stdoutPipeFails && !o.stdoutCopyFails)
            && (!cfg.input.Inherit? ==> !o.stdinPipeFails && !o.stdinCopyFails))
  {
  }

  /** A raw `*exec.ExitError` reaches the caller only from an invocation without
      streams; a streamed run wraps it, so a type assertion on the result fails. */
  lemma RawExitErrorOnlyUnstreamed(cfg: CmdConfig, o: ProcessOutcome)
    ensures CmdRun(cfg, o).Some? && CmdRun(cfg, o).value.ExitError? <==>
      !Streamed(cfg) && !o.startFails && o.exit.Exited? && o.exit.code != 0
  {
  }

  /** The restore backends' tolerance check as written: `err.(*exec.ExitError)`
      with IgnoreExitCode set. Only an unwrapped exit error passes it. */
  predicate ToleratedAsWritten(err: Error, ignore: bool)
  {
    ignore && err.ExitError?
  }

  /** `errors.As(err, &exitErr)` once `CmdRun` wraps with `%w` at line 97 of
      sources/command.go: an exit error somewhere in the wrapping chain. */
  predicate CarriesExit(err: Error)
  {
    match err
    case ExitError(_) => true
    case Failed(_) => false
    case Wrapped(_, inner) => CarriesExit(inner)
  }

  /** The tolerance check corrected: a non-zero exit is ignored whether or not
      `CmdRun` wrapped it. */
  predicate Tolerated(err: Error, ignore: bool)
  {
    ignore && CarriesExit(err)
  }

  /** Finding: as written, the tolerance can only apply to a run without streams,
      because a streamed run always wraps the wait error. */
  lemma ToleranceAsWrittenOnlyUnstreamed(cfg: CmdConfig, o: ProcessOutcome, ignore: bool)
    requires CmdRun(cfg, o).Some? && ToleratedAsWritten(CmdRun(cfg, o).value, ignore)
    ensures !Streamed(cfg)
  {
  }

  /** Corrected: with IgnoreExitCode set, exactly the runs whose process started
      and then exited non-zero are tolerated, streamed or not. */
  lemma ToleratedExactlyNonZeroExit(cfg: CmdConfig, o: ProcessOutcome, ignore: bool)
    requires CmdRun(cfg, o).Some?
    ensures Tolerated(CmdRun(cfg, o).value, ignore) <==>
      ignore && !o.startFails && o.exit.Exited? && o.exit.code != 0
      && (Streamed(cfg) ==>
            !(!cfg.output.Inherit? && o.stdoutPipeFails) && !(!cfg.input.Inherit? && o.stdinPipeFails))
  {
    var e := CmdRun(cfg, o).value;
    if Streamed(cfg) && e.Wrapped? {
      assert CarriesExit(e) == CarriesExit(e.inner);
      if e.inner.Wrapped? {
        assert !CarriesExit(e.inner);
      }
    }
  }

  /** The credential the child runs with: the configured one only for a root caller. */
  function RunAs(euid: nat, credential: Option<Credential>): (r: Option<Credential>)
    ensures r.Some? <==> euid == 0 && credential.Some?
    ensures r.Some? ==> r == credential
  {
    if euid == 0 && credential.Some? then credential else None
  }

  /** The note "Not running as root" is logged exactly for a non-root caller. */
  function LogsNotRoot(euid: nat, credential: Option<Credential>): (r: bool)
    ensures r ==> RunAs(euid, credential).None?
    ensures r <==> euid != 0
  {
    !(euid == 0 && credential.Some?) && euid != 0
  }

  const ShortMask := "********"
  const LongMask := "*****"

  predicate IsShort(token: string)
  {
    !HasPrefix(token, "--")
  }

  /** Whether an argument is where the secret named by `token` sits. */
  predicate Matches(a: string, token: string)
  {
    if IsShort(token) then HasPrefix(a, token) else a == token
  }

  /** The index of the first argument matching `token`. */
  function FirstMatch(args: seq<string>, token: string): (r: Option<nat>)
    ensures r.Some? ==> r.value < |args| && Matches(args[r.value], token)
    ensures r.Some? ==> forall j :: 0 <= j < r.value ==> !Matches(args[j], token)
    ensures r.None? ==> forall j :: 0 <= j < |args| ==> !Matches(args[j], token)
  {
    if args == [] then None
    else if Matches(args[0], token) then Some(0)
    else match FirstMatch(args[1..], token)
      case None => None
      case Some(i) => Some(i + 1)
  }

  /** `parseArg` as written: `None` stands for the runtime panic of `args[i+2:]`
      when a long token is the last argument. */
  function RedactAsWritten(args: seq<string>, token: string): Option<seq<string>>
  {
    if token == "" then Some(args)
    else match FirstMatch(args, token)
      case None => Some(args)
      case Some(i) =>
        if IsShort(token) then Some(args[..i] + [token + ShortMask] + args[i + 1..])
        else if i + 2 <= |args| then Some(args[..i] + [token, LongMask] + args[i + 2..])
        else None
  }

  /** `parseArg` with a long token at the end left as it is (nothing follows it to hide). */
  function Redact(args: seq<string>, token: string): seq<string>
  {
    if token == "" then args
    else match FirstMatch(args, token)
      case None => args
      case Some(i) =>
        if IsShort(token) then args[..i] + [token + ShortMask] + args[i + 1..]
        else if i + 2 <= |args| then args[..i] + [token, LongMask] + args[i + 2..]
        else args
  }

  /** `parseArg`: the loop copies arguments until the first match, rewrites it and
      appends the rest unchanged. */
  method ParseArg(args: seq<string>, token: string) returns (updated: Option<seq<string>>)
    ensures updated == RedactAsWritten(args, token)
  {
    if token == "" {
      return Some(args);
    }
    var isShort := IsShort(token);
    var acc: seq<string> := [];
    var i := 0;
    while i < |args|
      invariant 0 <= i <= |args|
      invariant acc == args[..i]
      invariant forall j :: 0 <= j < i ==> !Matches(args[j], token)
    {
      var a := args[i];
      if isShort {
        if HasPrefix(a, token) {
          acc := acc + [token + ShortMask];
          acc := acc + args[i + 1..];
          assert FirstMatch(args, token) == Some(i);
          return Some(acc);
        }
      } else {
        if a == token {
          assert FirstMatch(args, token) == Some(i);
          if i + 2 > |args| {
            return None;
          }
          acc := acc + [token, LongMask];
          acc := acc + args[i + 2..];
          return Some(acc);
        }
      }
      acc := acc + [a];
      i := i + 1;
    }
    assert args[..i] == args;
    return Some(acc);
  }

  /** The arguments of the "Running" log line. A streamed run prints it, with
      the secret redacted, once its pipes are set up; a run without streams
      prints none. The redaction is the total `Redact`, which equals the code's
      wherever the code does not panic (`RedactTotal`); the panic of a long
      token in last position is not carried into the log or the run. */
  function LoggedArgs(inv: Invocation, o: ProcessOutcome): Option<seq<string>>
  {
    if !Streamed(inv.cfg)
       || (!inv.cfg.output.Inherit? && o.stdoutPipeFails)
       || (!inv.cfg.input.Inherit? && o.stdinPipeFails)
    then None
    else Some(Redact(inv.args, inv.cfg.parsedArg))
  }

  /** An empty token, or a token that matches nothing, leaves the arguments as they are. */
  lemma RedactNoMatch(args: seq<string>, token: string)
    requires token == "" || forall j :: 0 <= j < |args| ==> !Matches(args[j], token)
    ensures RedactAsWritten(args, token) == Some(args)
    ensures Redact(args, token) == args
  {
    if token != "" {
      assert FirstMatch(args, token).None?;
    }
  }

  /** A short token (`-p`) hides the first argument starting with it behind a fixed
      mask; every other argument keeps its place and value. */
  lemma RedactShort(args: seq<string>, token: string, i: nat)
    requires token != "" && IsShort(token)
    requires i < |args| && Matches(args[i], token)
    requires forall j :: 0 <= j < i ==> !Matches(args[j], token)
    ensures RedactAsWritten(args, token).Some?
    ensures var r := Redact(args, token);
      RedactAsWritten(args, token).value == r
      && |r| == |args| && r[i] == token + ShortMask
      && forall j :: 0 <= j < |args| && j != i ==> r[j] == args[j]
  {
    FirstMatchUnique(args, token, i);
  }

  /** A long token (`--password`) is kept and the argument after it is masked;
      the rest is unchanged. */
  lemma RedactLong(args: seq<string>, token: string, i: nat)
    requires token != "" && !IsShort(token)
    requires i + 1 < |args| && args[i] == token
    requires forall j :: 0 <= j < i ==> args[j] != token
    ensures RedactAsWritten(args, token) == Some(Redact(args, token))
    ensures var r := Redact(args, token);
      |r| == |args| && r[i] == token && r[i + 1] == LongMask
      && forall j :: 0 <= j < |args| && j != i + 1 ==> r[j] == args[j]
  {
    FirstMatchUnique(args, token, i);
  }

  lemma FirstMatchUnique(args: seq<string>, token: string, i: nat)
    requires i < |args| && Matches(args[i], token)
    requires forall j :: 0 <= j < i ==> !Matches(args[j], token)
    ensures FirstMatch(args, token) == Some(i)
  {
  }

  /** Finding: a long token that is the last argument makes `args[i+2:]` go out
      of range, so the log helper panics. */
  lemma RedactAsWrittenPanics()
    ensures RedactAsWritten(["--foo", "--bar"], "--bar").None?
  {
    assert !IsShort("--bar");
    assert FirstMatch(["--foo", "--bar"], "--bar") == Some(1);
  }

  /** The corrected redaction never fails, never changes the number of arguments,
      and agrees with the code wherever the code does not panic. */
  lemma {:induction false} RedactTotal(args: seq<string>, token: string)
    ensures |Redact(args, token)| == |args|
    ensures RedactAsWritten(args, token).Some? ==> RedactAsWritten(args, token).value == Redact(args, token)
  {
  }

  /** `generateFilename(dir, prefix)` at the instant `now`. */
  function GenerateFilename(dir: string, prefix: string, now: Instant): string
  {
    Join(dir, prefix + "-" + Layout(now))
  }

  /** An artifact path ends in `<prefix>-<YYYYMMDDHHMMSS><ext>`, which is what the
      stores keep as its name. */
  lemma ArtifactBase(dir: string, prefix: string, now: Instant, ext: string)
    requires '/' !in prefix && '/' !in ext
    ensures Base(GenerateFilename(dir, prefix, now) + ext) == prefix + "-" + Layout(now) + ext
  {
    var name := prefix + "-" + Layout(now);
    assert '/' !in name by {
      forall k | 0 <= k < |name| ensures name[k] != '/' {
        if k < |prefix| { assert name[k] == prefix[k]; }
        else if k > |prefix| { assert name[k] == Layout(now)[k - |prefix| - 1]; }
      }
    }
    assert name[0] == name[0] && |name| > 0;
    BaseOfJoin(dir, name, ext);
  }

  /** Names of two artifacts of one backend sort as the instants they were made:
      this is what makes "oldest" and "latest" a matter of string order. */
  lemma ArtifactNamesSortByTime(prefix: string, ext: string, a: Instant, b: Instant)
    ensures Lex.Less(prefix + "-" + Layout(a) + ext, prefix + "-" + Layout(b) + ext) <==> Before(a, b)
  {
    var p := prefix + "-";
    LayoutOrder(a, b);
    assert p + Layout(a) + ext == p + (Layout(a) + ext);
    assert p + Layout(b) + ext == p + (Layout(b) + ext);
    Lex.LessCommonPrefix(p, Layout(a) + ext, Layout(b) + ext);
    Lex.LessSameLengthHeads(Layout(a), ext, Layout(b), ext);
    Lex.LessIrreflexive(ext);
  }
}
