/** The `Store` interface of stores/store.go as a closed choice of the two
    backends, S3 and a local directory. */
module Stores {
  import opened Wrappers
  import opened Effects
  import opened Lex
  import opened Retention
  import S3
  import Filesystem

  datatype Backend =
    | S3Backend(s3: S3.S3Store)
    | FilesystemBackend(fs: Filesystem.FilesystemConfig)

  /** The objects a store updates in place: the S3 store remembers its download. */
  function Objects(st: Backend): set<object>
  {
    if st.S3Backend? then {st.s3} else {}
  }

  /** Where the store keeps a backup named `name`: an object key or a file path. */
  function Location(st: Backend, name: string): string
  {
    match st
    case S3Backend(s3) => S3.StoreKey(s3.cfg.prefix, name)
    case FilesystemBackend(f) => Filesystem.Destination(f, name)
  }

  /** Whether the actions placed the local file `src` at the location of `name`. */
  predicate Placed(st: Backend, src: string, name: string, acts: seq<Action>, w: World)
  {
    match st
    case S3Backend(s3) =>
      Io(Open(src)) in acts && w.ok(Open(src))
      && Io(Upload(s3.cfg.bucket, Location(st, name), src)) in acts
      && w.ok(Upload(s3.cfg.bucket, Location(st, name), src))
    case FilesystemBackend(f) =>
      src == Location(st, name) || Filesystem.Delivered(acts, w, src, Location(st, name))
  }

  /** Placement is witnessed by actions, so it survives further actions. */
  lemma PlacedGrows(st: Backend, src: string, name: string, acts: seq<Action>, more: seq<Action>, w: World)
    requires forall a :: a in acts ==> a in more
    ensures Placed(st, src, name, acts, w) ==> Placed(st, src, name, more, w)
  {
  }

  /** What `Store` reports success on: the file was placed, or, on the
      filesystem, the reversed rename of `Store` as written succeeded. */
  predicate Accepted(st: Backend, src: string, name: string, acts: seq<Action>, w: World)
  {
    Placed(st, src, name, acts, w)
    || (st.FilesystemBackend? && Filesystem.RenamedBack(acts, w, src, Location(st, name)))
  }

  /** Acceptance is witnessed by actions, so it survives further actions. */
  lemma AcceptedGrows(st: Backend, src: string, name: string, acts: seq<Action>, more: seq<Action>, w: World)
    requires forall a :: a in acts ==> a in more
    ensures Accepted(st, src, name, acts, w) ==> Accepted(st, src, name, more, w)
  {
  }

  /** `Store`: succeeds exactly when the backend accepted the file; on S3 that
      is exactly when the file reached its location. */
  method Store(st: Backend, src: string, name: string, w: World) returns (r: Option<Error>, acts: seq<Action>)
    ensures r.None? <==> Accepted(st, src, name, acts, w)
    ensures st.S3Backend? ==> (r.None? <==> Placed(st, src, name, acts, w))
  {
    match st
    case S3Backend(s3) =>
      r, acts := s3.Store(src, name, w);
    case FilesystemBackend(f) =>
      r, acts := Filesystem.StoreAsWritten(f, src, name, w);
  }

  /** Finding, at the interface: when a file already sits at the destination,
      the filesystem store accepts the backup after the reversed rename alone,
      and the backup is not placed. */
  lemma FilesystemAcceptsUnplaced(f: Filesystem.FilesystemConfig, src: string, name: string, w: World)
    requires src != Filesystem.Destination(f, name)
    requires w.ok(Rename(Filesystem.Destination(f, name), src))
    ensures var acts := [Io(Rename(Filesystem.Destination(f, name), src))];
      Accepted(FilesystemBackend(f), src, name, acts, w) && !Placed(FilesystemBackend(f), src, name, acts, w)
  {
    Filesystem.StoreAsWrittenLosesBackup(src, Filesystem.Destination(f, name), w);
  }

  /** The names the store lists, or None when listing fails. */
  function Listed(st: Backend, w: World): Option<seq<string>>
  {
    match st
    case S3Backend(s3) =>
      if w.ok(s3.ListOp()) then Some(S3.Files(w.names(s3.ListOp()))) else None
    case FilesystemBackend(f) =>
      if w.ok(ReadDir(f.saveDir)) then Some(w.names(ReadDir(f.saveDir))) else None
  }

  /** Whether pruning to `keep` backups succeeds: the listing succeeds and, on
      S3, so does the batch deletion when there is something to delete; on the
      filesystem failed removals are only logged. */
  predicate Pruned(st: Backend, keep: nat, w: World)
  {
    match st
    case S3Backend(s3) =>
      var gone := Oldest(Sort(S3.Files(w.names(s3.ListOp()))), keep);
      w.ok(s3.ListOp()) && (gone == [] || w.ok(DeleteObjects(s3.cfg.bucket, gone)))
    case FilesystemBackend(f) =>
      w.ok(ReadDir(f.saveDir))
  }

  /** `RemoveOlderBackups`. */
  method RemoveOlderBackups(st: Backend, keep: nat, w: World) returns (r: Option<Error>, acts: seq<Action>)
    ensures r.None? <==> Pruned(st, keep, w)
  {
    match st
    case S3Backend(s3) =>
      r, acts := s3.RemoveOlderBackups(keep, w);
    case FilesystemBackend(f) =>
      var deleted;
      r, acts, deleted := Filesystem.RemoveOlderBackups(f, keep, w);
  }

  /** `FindLatestBackup`: the latest listed name, and an error exactly when
      listing fails or lists nothing. */
  method FindLatestBackup(st: Backend, w: World) returns (r: Result<string>, acts: seq<Action>)
    ensures r.Success? <==> Listed(st, w).Some? && Listed(st, w).value != []
    ensures r.Success? ==> r.value == Latest(Listed(st, w).value)
  {
    match st
    case S3Backend(s3) =>
      r, acts := s3.FindLatestBackup(w);
    case FilesystemBackend(f) =>
      r, acts := Filesystem.FindLatestBackup(f, w);
  }

  /** The local path a retrieved backup named `name` is at. */
  function Fetched(st: Backend, name: string): string
  {
    match st
    case S3Backend(s3) => s3.LocalPath(name)
    case FilesystemBackend(f) => Filesystem.Destination(f, name)
  }

  /** `Retrieve`: a local path for the backup; the filesystem store never fails,
      and the S3 store remembers a completed download for `Close`. */
  method Retrieve(st: Backend, name: string, w: World) returns (r: Result<string>, acts: seq<Action>)
    modifies Objects(st)
    ensures r.Success? ==> r.value == Fetched(st, name)
    ensures st.FilesystemBackend? ==> r.Success? && acts == []
    ensures st.S3Backend? ==>
      st.s3.retrievedFile == if r.Success? then r.value else old(st.s3.retrievedFile)
  {
    match st
    case S3Backend(s3) =>
      r, acts := s3.Retrieve(name, w);
    case FilesystemBackend(f) =>
      r, acts := Filesystem.Retrieve(f, name), [];
  }

  /** `Close`: the S3 store removes and forgets its download; the filesystem
      store does nothing. */
  method Close(st: Backend) returns (acts: seq<Action>)
    modifies Objects(st)
    ensures st.S3Backend? ==> st.s3.retrievedFile == ""
    ensures st.S3Backend? ==>
      acts == if old(st.s3.retrievedFile) != "" then [Io(Remove(old(st.s3.retrievedFile)))] else []
    ensures st.FilesystemBackend? ==> acts == []
  {
    match st
    case S3Backend(s3) =>
      acts := s3.Close();
    case FilesystemBackend(f) =>
      acts := [];
  }
}
