/** The outside world the backends act on: processes, files, archives and the
    object store. Each operation either succeeds or fails; a listing operation
    also yields names. The model of a backend returns, besides its result, the
    actions it attempted in order, so that order and early aborts are visible. */
module Effects {
  import opened Wrappers
  import opened Clock
  import opened Command

  datatype Op =
    | Create(path: string)                               // os.Create
    | Open(path: string)                                 // os.Open
    | GzipReader(path: string)                           // gzip.NewReader over the opened file
    | Remove(path: string)                               // os.Remove
    | Rename(oldPath: string, newPath: string)           // os.Rename(oldPath, newPath)
    | CopyContents(src: string, dst: string)             // io.Copy between the opened files
    | Sync(path: string)                                 // (*os.File).Sync
    | ReadDir(dir: string)                               // ioutil.ReadDir
    | ReadNames(dir: string)                             // (*os.File).Readdirnames(-1)
    | RemoveAll(path: string)                            // os.RemoveAll
    | MakeArchive(archive: string, target: string, gzip: bool) // archiver Tar/TarGz Make
    | MatchFormat(archive: string)                       // archiver.MatchingFormat finds a format
    | Unpack(archive: string, into: string)              // archive.Open
    | Upload(bucket: string, key: string, local: string) // s3manager Upload
    | ListObjects(bucket: string, prefix: string)        // ListObjectsPages, all pages
    | DeleteObjects(bucket: string, keys: seq<string>)   // one DeleteObjects batch
    | Download(bucket: string, key: string, local: string) // s3manager Download

  datatype Action = Exec(inv: Invocation) | Io(op: Op)

  datatype World = World(
    now: Instant,                            // time.Now()
    process: Invocation -> ProcessOutcome,   // how each command run goes
    ok: Op -> bool,                          // whether each operation succeeds
    names: Op -> seq<string>)                // what a successful listing returns

  /** The error `CmdRun` returns for the invocation. */
  function Run(inv: Invocation, w: World): Option<Error>
  {
    CmdRun(inv.cfg, w.process(inv))
  }

  /** The error an operation of the world reports when it fails. */
  const IoFailure := Failed("operation failed")

  function Execs(invs: seq<Invocation>): (acts: seq<Action>)
    ensures |acts| == |invs|
    ensures forall i :: 0 <= i < |invs| ==> acts[i] == Exec(invs[i])
  {
    if invs == [] then [] else [Exec(invs[0])] + Execs(invs[1..])
  }

  /** How many of `invs` are run when they run in order and the first failure
      stops the rest. */
  function Attempted(invs: seq<Invocation>, w: World): (n: nat)
    ensures n <= |invs|
    ensures forall j :: 0 <= j < n - 1 ==> Run(invs[j], w).None?
    ensures n < |invs| ==> n > 0 && Run(invs[n - 1], w).Some?
    ensures n == |invs| && n > 0 && Run(invs[n - 1], w).None? ==>
      forall j :: 0 <= j < |invs| ==> Run(invs[j], w).None?
  {
    if invs == [] then 0
    else if Run(invs[0], w).Some? then 1
    else 1 + Attempted(invs[1..], w)
  }

  function Ios(ops: seq<Op>): (acts: seq<Action>)
    ensures |acts| == |ops|
    ensures forall i :: 0 <= i < |ops| ==> acts[i] == Io(ops[i])
  {
    if ops == [] then [] else [Io(ops[0])] + Ios(ops[1..])
  }

  lemma {:induction false} IosAppend(a: seq<Op>, b: seq<Op>)
    ensures Ios(a + b) == Ios(a) + Ios(b)
  {
    if a == [] {
      assert a + b == b;
    } else {
      assert (a + b)[1..] == a[1..] + b;
      IosAppend(a[1..], b);
    }
  }

  lemma IosSnoc(ops: seq<Op>, i: nat)
    requires i < |ops|
    ensures Ios(ops[..i + 1]) == Ios(ops[..i]) + [Io(ops[i])]
  {
    assert ops[..i + 1] == ops[..i] + [ops[i]];
    IosAppend(ops[..i], [ops[i]]);
  }

  /** How many of `ops` are performed when they run in order and the first
      failure stops the rest. */
  function IoAttempted(ops: seq<Op>, w: World): (n: nat)
    ensures n <= |ops|
  {
    if ops == [] then 0
    else if !w.ok(ops[0]) then 1
    else 1 + IoAttempted(ops[1..], w)
  }

  lemma IoAttemptedStep(ops: seq<Op>, i: nat, w: World)
    requires i < |ops|
    ensures IoAttempted(ops[i..], w) == if !w.ok(ops[i]) then 1 else 1 + IoAttempted(ops[i + 1..], w)
  {
    assert ops[i..][1..] == ops[i + 1..];
  }

  /** The operations before the last attempted one all succeeded; the last one
      failed unless every operation was attempted. */
  lemma {:induction false} IoAttemptedMeaning(ops: seq<Op>, w: World)
    ensures var n := IoAttempted(ops, w);
      && (forall j :: 0 <= j < n - 1 ==> w.ok(ops[j]))
      && (n < |ops| ==> n > 0 && !w.ok(ops[n - 1]))
      && (n == |ops| && n > 0 && w.ok(ops[n - 1]) ==> forall j :: 0 <= j < |ops| ==> w.ok(ops[j]))
      && (n == |ops| && (n == 0 || w.ok(ops[n - 1])) <==> forall j :: 0 <= j < |ops| ==> w.ok(ops[j]))
  {
    if ops != [] && w.ok(ops[0]) {
      IoAttemptedMeaning(ops[1..], w);
      assert forall j :: 1 <= j < |ops| ==> ops[j] == ops[1..][j - 1];
    }
  }
}
