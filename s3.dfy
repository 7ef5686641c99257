/** The S3 store of stores/s3.go. The AWS SDK calls (upload, paginated
    listing, batch delete, download) are operations of the world; the store's
    own state is the path of the last downloaded file, which `Close` removes. */
module S3 {
  import opened Wrappers
  import opened Paths
  import opened Lex
  import opened Effects
  import opened Retention

  datatype S3Config = S3Config(
    endpoint: string,
    region: string,
    bucket: string,
    prefix: string,
    forcePathStyle: bool,
    keepAfterUpload: bool,
    saveDir: string)

  /** The object key of an uploaded file: `path.Clean(path.Join(Prefix, filename))`. */
  function StoreKey(prefix: string, filename: string): string
  {
    Clean(Join(prefix, filename))
  }

  /** Line 94 as written: `path.Clean(Prefix) + "/"`. */
  function ListPrefixAsWritten(prefix: string): string
  {
    Clean(prefix) + "/"
  }

  /** Corrected: the cleaned prefix ending in exactly one `/`, and the empty
      prefix (the whole bucket) when no prefix is configured. */
  function ListPrefix(prefix: string): string
  {
    var c := Clean(prefix);
    if c == "." then "" else if EndsWithSlash(c) then c else c + "/"
  }

  /** Finding: with no prefix configured, a stored key is the bare file name,
      which never starts with `./`, so listing never sees the store's own uploads. */
  lemma ListPrefixAsWrittenMissesKeys(name: string)
    requires Plain(name)
    ensures StoreKey("", name) == name
    ensures ListPrefixAsWritten("") == "./"
    ensures !HasPrefix(StoreKey("", name), ListPrefixAsWritten(""))
  {
    JoinPlain("", name);
    assert ListPrefixAsWritten("") == "./";
    if |name| >= 2 {
      assert name[1] in name;
      assert name[..2][1] == name[1];
    }
  }

  lemma CollapseSlash(s: string)
    requires s != ""
    ensures Collapse(s + "/") == if s[|s| - 1] == '/' then Collapse(s) else Collapse(s) + "/"
    ensures EndsWithSlash(Collapse(s)) <==> s[|s| - 1] == '/'
  {
    assert (s + "/")[..|s|] == s;
    CollapseLast(s);
  }

  /** Corrected: every key the store writes for a plain file name lies under
      the listing prefix, whatever prefix is configured. */
  lemma KeyListed(prefix: string, name: string)
    requires Plain(name)
    ensures HasPrefix(StoreKey(prefix, name), ListPrefix(prefix))
  {
    JoinPlain(prefix, name);
    var d := DirPrefix(prefix);
    assert StoreKey(prefix, name) == d + name;
    if prefix != "" {
      CollapseSlash(prefix);
      var c := Collapse(prefix);
      CollapseNoDoubleSlash(prefix);
      if |c| > 1 && EndsWithSlash(c) {
        assert c[|c| - 2] != '/';
        assert Clean(prefix) == c[..|c| - 1];
        assert c == c[..|c| - 1] + "/";
      }
    }
  }

  /** The correction changes the listing prefix only for an empty prefix and
      for the root prefix `/`. */
  lemma ListPrefixAgrees(prefix: string)
    requires Clean(prefix) != "." && Clean(prefix) != "/"
    ensures ListPrefix(prefix) == ListPrefixAsWritten(prefix)
  {
    if prefix != "" {
      var c := Collapse(prefix);
      CollapseNoDoubleSlash(prefix);
      if |c| > 1 && EndsWithSlash(c) {
        assert c[|c| - 2] != '/';
      }
    }
  }

  /** The keys of a listing that name files: those not ending in `/`. */
  function Files(keys: seq<string>): (files: seq<string>)
    ensures forall k :: k in files <==> k in keys && !EndsWithSlash(k)
  {
    if keys == [] then []
    else
      var last := keys[|keys| - 1];
      assert keys == keys[..|keys| - 1] + [last];
      Files(keys[..|keys| - 1]) + (if EndsWithSlash(last) then [] else [last])
  }

  /** The error a listing failure is reported with by retention and lookup. */
  const ListContext := "couldn't list S3 objects"

  class S3Store {
    const cfg: S3Config
    /** The local copy made by the last successful `Retrieve`; "" when there is none. */
    var retrievedFile: string

    constructor(cfg: S3Config)
      ensures this.cfg == cfg && retrievedFile == ""
    {
      this.cfg := cfg;
      retrievedFile := "";
    }

    /** The listing request of `getFileListing`, with the prefix of line 94 as written. */
    function ListOp(): Op
    {
      ListObjects(cfg.bucket, ListPrefixAsWritten(cfg.prefix))
    }

    /** `Store`: upload the local file under its key. Once the file is open and
        KeepAfterUpload is off, the local file is removed on return whether or
        not the upload succeeded; a failed removal is only logged. */
    method Store(src: string, filename: string, w: World) returns (r: Option<Error>, acts: seq<Action>)
      ensures !w.ok(Open(src)) ==>
        acts == [Io(Open(src))] && r == Some(Wrapped("failed to open file \"" + src + "\"", IoFailure))
      ensures w.ok(Open(src)) ==>
        var up := Upload(cfg.bucket, StoreKey(cfg.prefix, filename), src);
        && acts == [Io(Open(src)), Io(up)] + (if cfg.keepAfterUpload then [] else [Io(Remove(src))])
        && (r.None? <==> w.ok(up))
        && (r.Some? ==> r.value == Wrapped("failed to upload file", IoFailure))
    {
      acts := [Io(Open(src))];
      if !w.ok(Open(src)) {
        return Some(Wrapped("failed to open file \"" + src + "\"", IoFailure)), acts;
      }
      var key := Clean(Join(cfg.prefix, filename));
      var up := Upload(cfg.bucket, key, src);
      acts := acts + [Io(up)];
      if !w.ok(up) {
        r := Some(Wrapped("failed to upload file", IoFailure));
      } else {
        r := None;
      }
      if !cfg.keepAfterUpload {
        acts := acts + [Io(Remove(src))];
      }
    }

    /** `getFileListing`: list every page under the listing prefix and keep the
        keys that do not end in `/`. */
    method GetFileListing(w: World) returns (r: Result<seq<string>>, acts: seq<Action>)
      ensures acts == [Io(ListOp())]
      ensures r == if w.ok(ListOp()) then Success(Files(w.names(ListOp()))) else Failure(IoFailure)
    {
      var op := ListOp();
      acts := [Io(op)];
      if !w.ok(op) {
        return Failure(IoFailure), acts;
      }
      var keys := w.names(op);
      var files: seq<string> := [];
      for i := 0 to |keys|
        invariant files == Files(keys[..i])
      {
        assert keys[..i + 1][..i] == keys[..i];
        if !EndsWithSlash(keys[i]) {
          files := files + [keys[i]];
        }
      }
      assert keys[..|keys|] == keys;
      return Success(files), acts;
    }

    /** `RemoveOlderBackups`: sort the listing and delete its first `len - keep`
        keys in one batch. */
    method RemoveOlderBackups(keep: nat, w: World) returns (r: Option<Error>, acts: seq<Action>)
      ensures !w.ok(ListOp()) ==> acts == [Io(ListOp())] && r == Some(Wrapped(ListContext, IoFailure))
      ensures w.ok(ListOp()) ==>
        var gone := Oldest(Sort(Files(w.names(ListOp()))), keep);
        acts == [Io(ListOp())] + (if gone != [] then [Io(DeleteObjects(cfg.bucket, gone))] else [])
      ensures w.ok(ListOp()) ==>
        var gone := Oldest(Sort(Files(w.names(ListOp()))), keep);
        r == (if gone != [] && !w.ok(DeleteObjects(cfg.bucket, gone))
              then Some(Wrapped("couldn't delete the S3 objects", IoFailure)) else None)
    {
      var listed;
      listed, acts := GetFileListing(w);
      if listed.Failure? {
        return Some(Wrapped(ListContext, listed.error)), acts;
      }
      var files := Sort(listed.value);
      var count := |files| - keep;
      if count > 0 {
        var objs := MarkForDeletion(files, count);
        assert objs == Oldest(files, keep);
        var batch := DeleteObjects(cfg.bucket, objs);
        acts := [Io(ListOp()), Io(batch)];
        if !w.ok(batch) {
          return Some(Wrapped("couldn't delete the S3 objects", IoFailure)), acts;
        }
      }
      return None, acts;
    }

    /** The batch of object identifiers: the first `count` keys, copied into
        an array one by one. */
    method MarkForDeletion(files: seq<string>, count: nat) returns (objs: seq<string>)
      requires count <= |files|
      ensures objs == files[..count]
    {
      var marked := new string[count];
      for i := 0 to count
        invariant forall j :: 0 <= j < i ==> marked[j] == files[j]
      {
        marked[i] := files[i];
      }
      objs := marked[..];
    }

    /** `FindLatestBackup`: the largest listed key, or an error naming the
        bucket and prefix when nothing is listed. */
    method FindLatestBackup(w: World) returns (r: Result<string>, acts: seq<Action>)
      ensures acts == [Io(ListOp())]
      ensures !w.ok(ListOp()) ==> r == Failure(Wrapped(ListContext, IoFailure))
      ensures w.ok(ListOp()) && Files(w.names(ListOp())) == [] ==>
        r == Failure(Failed("cannot find a recent backup on s3://" + cfg.bucket + "/" + cfg.prefix))
      ensures w.ok(ListOp()) && Files(w.names(ListOp())) != [] ==>
        r == Success(Latest(Files(w.names(ListOp()))))
    {
      var listed;
      listed, acts := GetFileListing(w);
      if listed.Failure? {
        return Failure(Wrapped(ListContext, listed.error)), acts;
      }
      var files := listed.value;
      if |files| == 0 {
        return Failure(Failed("cannot find a recent backup on s3://" + cfg.bucket + "/" + cfg.prefix)), acts;
      }
      files := Reverse(Sort(files));
      return Success(files[0]), acts;
    }

    /** The local path `Retrieve` downloads an object to. */
    function LocalPath(s3path: string): string
    {
      Join(cfg.saveDir, Base(s3path))
    }

    /** `Retrieve`: create the local file and download the object into it; only
        a completed download is remembered for `Close`. */
    method Retrieve(s3path: string, w: World) returns (r: Result<string>, acts: seq<Action>)
      modifies this
      ensures var local := LocalPath(s3path);
        var down := Download(cfg.bucket, s3path, local);
        && (!w.ok(Create(local)) ==>
              acts == [Io(Create(local))] && r == Failure(Wrapped("failed to open file", IoFailure)))
        && (w.ok(Create(local)) ==>
              acts == [Io(Create(local)), Io(down)]
              && r == (if w.ok(down) then Success(local) else Failure(Wrapped("failed to download S3 object", IoFailure))))
      ensures retrievedFile == if r.Success? then r.value else old(retrievedFile)
    {
      var local := Join(cfg.saveDir, Base(s3path));
      acts := [Io(Create(local))];
      if !w.ok(Create(local)) {
        return Failure(Wrapped("failed to open file", IoFailure)), acts;
      }
      var down := Download(cfg.bucket, s3path, local);
      acts := acts + [Io(down)];
      if !w.ok(down) {
        return Failure(Wrapped("failed to download S3 object", IoFailure)), acts;
      }
      retrievedFile := local;
      return Success(local), acts;
    }

    /** `Close`: remove the downloaded file if there is one and forget it; a
        failed removal is only logged. A second `Close` does nothing. */
    method Close() returns (acts: seq<Action>)
      modifies this
      ensures acts == if old(retrievedFile) != "" then [Io(Remove(old(retrievedFile)))] else []
      ensures retrievedFile == ""
    {
      acts := [];
      if retrievedFile != "" {
        acts := [Io(Remove(retrievedFile))];
        retrievedFile := "";
      }
    }
  }

  /** With the corrected listing prefix, a key the store uploaded for a plain
      file name is among the listed files, so a lookup over that listing cannot
      come back empty and returns a key that sorts no earlier than it; this
      needs the listing to return exactly the bucket's keys under the prefix. */
  lemma UploadedKeyFound(cfg: S3Config, name: string, w: World, bucket: set<string>)
    requires Plain(name) && w.ok(ListObjects(cfg.bucket, ListPrefix(cfg.prefix)))
    requires forall k :: k in w.names(ListObjects(cfg.bucket, ListPrefix(cfg.prefix))) <==>
      k in bucket && HasPrefix(k, ListPrefix(cfg.prefix))
    requires StoreKey(cfg.prefix, name) in bucket
    ensures var files := Files(w.names(ListObjects(cfg.bucket, ListPrefix(cfg.prefix))));
      StoreKey(cfg.prefix, name) in files && LessEq(StoreKey(cfg.prefix, name), Latest(files))
  {
    var key := StoreKey(cfg.prefix, name);
    KeyListed(cfg.prefix, name);
    JoinPlain(cfg.prefix, name);
    assert key[|key| - 1] == name[|name| - 1] && name[|name| - 1] in name;
    LatestIsMax(Files(w.names(ListObjects(cfg.bucket, ListPrefix(cfg.prefix)))));
  }

  /** The store's listing asks for the corrected prefix exactly when the
      cleaned configured prefix is neither `.` (none configured) nor `/`. */
  lemma ListOpAgrees(s: S3Store)
    ensures s.ListOp() == ListObjects(s.cfg.bucket, ListPrefix(s.cfg.prefix)) <==>
      Clean(s.cfg.prefix) != "." && Clean(s.cfg.prefix) != "/"
  {
    var c := Clean(s.cfg.prefix);
    if c != "." && c != "/" {
      ListPrefixAgrees(s.cfg.prefix);
    } else if c == "." {
      assert ListPrefixAsWritten(s.cfg.prefix) == "./" && ListPrefix(s.cfg.prefix) == "";
    } else {
      assert ListPrefixAsWritten(s.cfg.prefix) == "//" && ListPrefix(s.cfg.prefix) == "/";
    }
  }

  /** Finding, on the store itself: with no prefix configured, what the store
      lists never includes what it uploaded, so retention and lookup miss it. */
  lemma ListOpMissesUploads(s: S3Store, name: string)
    requires s.cfg.prefix == "" && Plain(name)
    ensures s.ListOp() == ListObjects(s.cfg.bucket, "./")
    ensures !HasPrefix(StoreKey(s.cfg.prefix, name), s.ListOp().prefix)
  {
    ListPrefixAsWrittenMissesKeys(name);
    assert s.ListOp().prefix == ListPrefixAsWritten("");
  }

  /** The store's own listing finds what it uploaded whenever the configured
      prefix cleans to neither `.` nor `/`: there the prefix as written is the
      corrected one. */
  lemma StoreListingFindsUpload(s: S3Store, name: string, w: World, bucket: set<string>)
    requires Clean(s.cfg.prefix) != "." && Clean(s.cfg.prefix) != "/"
    requires Plain(name) && w.ok(s.ListOp())
    requires forall k :: k in w.names(s.ListOp()) <==> k in bucket && HasPrefix(k, s.ListOp().prefix)
    requires StoreKey(s.cfg.prefix, name) in bucket
    ensures StoreKey(s.cfg.prefix, name) in Files(w.names(s.ListOp()))
    ensures LessEq(StoreKey(s.cfg.prefix, name), Latest(Files(w.names(s.ListOp()))))
  {
    ListOpAgrees(s);
    UploadedKeyFound(s.cfg, name, w, bucket);
  }
}
