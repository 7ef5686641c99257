/** The `Source` interface of sources/source.go as a closed choice of the four
    backends, with the naming scheme they share. */
module Sources {
  import opened Wrappers
  import opened Paths
  import opened Clock
  import opened Lex
  import opened Command
  import opened Retention
  import opened Effects
  import Postgres
  import MySQL
  import Tarball
  import Consul

  datatype Source =
    | PostgresSource(pg: Postgres.PostgresConfig)
    | MySQLSource(my: MySQL.MySQLConfig)
    | TarballSource(tar: Tarball.TarballConfig)
    | ConsulSource(consul: Consul.ConsulConfig)

  function SaveDir(s: Source): string
  {
    match s
    case PostgresSource(c) => c.saveDir
    case MySQLSource(c) => c.saveDir
    case TarballSource(c) => c.saveDir
    case ConsulSource(c) => c.saveDir
  }

  function NamePrefix(s: Source): string
  {
    match s
    case PostgresSource(_) => Postgres.NamePrefix
    case MySQLSource(_) => MySQL.NamePrefix
    case TarballSource(c) => Tarball.NamePrefix(c)
    case ConsulSource(_) => Consul.NamePrefix
  }

  function Extension(s: Source): (ext: string)
    ensures '/' !in ext
  {
    match s
    case PostgresSource(c) => Postgres.Extension(c)
    case MySQLSource(c) => MySQL.Extension(c)
    case TarballSource(c) => Tarball.Extension(c)
    case ConsulSource(_) => Consul.Extension
  }

  /** The artifact a backup of `s` at `now` produces: every backend names it
      `<SaveDir>/<prefix>-<YYYYMMDDHHMMSS><extension>`. */
  function ArtifactPath(s: Source, now: Instant): (p: string)
    ensures p == GenerateFilename(SaveDir(s), NamePrefix(s), now) + Extension(s)
  {
    match s
    case PostgresSource(c) => Postgres.ArtifactPath(c, now)
    case MySQLSource(c) => MySQL.ArtifactPath(c, now)
    case TarballSource(c) =>
      var base := GenerateFilename(c.saveDir, Tarball.NamePrefix(c), now);
      assert Tarball.ArtifactPath(c, now) == base + Tarball.Extension(c);
      Tarball.ArtifactPath(c, now)
    case ConsulSource(c) => Consul.ArtifactPath(c, now)
  }

  /** The name a store keeps the artifact under. */
  function ArtifactName(s: Source, now: Instant): string
  {
    NamePrefix(s) + "-" + Layout(now) + Extension(s)
  }

  /** The name the backup task passes to the store, `path.Base` of the artifact
      path, is the artifact name. */
  lemma BaseIsArtifactName(s: Source, now: Instant)
    requires '/' !in NamePrefix(s)
    ensures Base(ArtifactPath(s, now)) == ArtifactName(s, now)
  {
    ArtifactBase(SaveDir(s), NamePrefix(s), now, Extension(s));
  }

  /** Two artifact names of one source compare as the instants they were made at. */
  lemma ArtifactNamesOrder(s: Source, a: Instant, b: Instant)
    ensures Less(ArtifactName(s, a), ArtifactName(s, b)) <==> Before(a, b)
    ensures ArtifactName(s, a) == ArtifactName(s, b) <==> a == b
  {
    ArtifactNamesSortByTime(NamePrefix(s), Extension(s), a, b);
    var p := NamePrefix(s) + "-";
    if ArtifactName(s, a) == ArtifactName(s, b) {
      assert ArtifactName(s, a)[|p|..|p| + 14] == Layout(a);
      assert ArtifactName(s, b)[|p|..|p| + 14] == Layout(b);
      LayoutOrder(a, b);
    }
  }

  /** Retention by name order keeps the newest artifacts: an artifact the store
      deletes was made no later than any artifact it keeps. */
  lemma RetentionKeepsNewest(s: Source, files: seq<string>, keep: nat, a: Instant, b: Instant)
    requires ArtifactName(s, a) in Oldest(Sort(files), keep)
    requires ArtifactName(s, b) in Kept(Sort(files), keep)
    ensures !Before(b, a)
  {
    RetentionSplit(files, keep);
    ArtifactNamesOrder(s, a, b);
    ArtifactNamesOrder(s, b, a);
    if a != b {
      LessAsymmetric(ArtifactName(s, a), ArtifactName(s, b));
    }
  }

  /** `Backup` of whichever backend `s` is; a successful backup returns the artifact path. */
  method Backup(s: Source, w: World) returns (r: Result<string>, acts: seq<Action>)
    ensures r.Success? ==> r.value == ArtifactPath(s, w.now)
    ensures acts != []
  {
    match s
    case PostgresSource(c) => r, acts := Postgres.Backup(c, w);
    case MySQLSource(c) => r, acts := MySQL.Backup(c, w);
    case TarballSource(c) => r, acts := Tarball.Backup(c, w);
    case ConsulSource(c) => r, acts := Consul.Backup(c, w);
  }

  /** `Restore` of whichever backend `s` is. */
  method Restore(s: Source, path: string, w: World) returns (r: Option<Error>, acts: seq<Action>)
    ensures acts != []
  {
    match s
    case PostgresSource(c) => r, acts := Postgres.Restore(c, path, w);
    case MySQLSource(c) => r, acts := MySQL.Restore(c, path, w);
    case TarballSource(c) => r, acts := Tarball.Restore(c, path, w);
    case ConsulSource(c) => r, acts := Consul.Restore(c, path, w);
  }
}
