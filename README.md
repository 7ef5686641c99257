# autobackup in Dafny

A model of the core of autobackup, a Go tool that takes a backup with a
*source*, puts the backup in a *store*, and runs on a schedule.

- **Sources** produce a backup file named `<prefix>-<YYYYMMDDHHMMSS><extension>` in their
  save directory. They also restore from such a file. There are four:
  - PostgreSQL, through `pg_dump`, `pg_dumpall`, `pg_restore` and `psql`;
  - MySQL, through `mysqldump` and `mysql`;
  - a tar archive of a directory;
  - a Consul snapshot.
- **Stores** keep the backups. There are two:
  - an S3 bucket under a key prefix;
  - a local directory.

  Both can keep the newest N backups, find the latest one, and fetch one back.
- **Tasks** chain the stages:
  - the backup task runs Backup, then Store, then RemoveOlderBackups;
  - the restore task runs FindLatestBackup, then Retrieve, then Restore, then a deferred Close.
- **The scheduler** runs a task once, or arms a trigger with a random delay that `Stop` can cancel.

The Go interfaces `Source` and `Store` are closed datatypes with dispatch
methods (`Sources.Source`, `Stores.Backend`). What lies outside the program
is a value `Effects.World`:
- the outcome of every process run;
- whether each file, archive or S3 operation succeeds;
- the names a listing returns;
- the current instant.

Every backend method returns the list of external actions it attempted, so
the contracts state order, early abort and error wrapping. An error is
`ExitError(code)` (Go's `*exec.ExitError`), `Failed(what)`, or
`Wrapped(context, inner)` for `fmt.Errorf("<context>: %v", inner)`.

The operations run the code as written, including the defects listed under
"## Findings". Each corrected definition is a separate member with its own
lemmas, and an agreement lemma says for which inputs the two differ.

Modules, one per file:
- `wrappers`, `lex` (Go string order, `sort.Strings`), `clock` (the timestamp layout), `paths`
  (`path.Join`, `path.Clean`, `path.Base`, `strings.Fields`) and `effects` support the rest;
- `command`, `postgres`, `mysql`, `tarball`, `consul` and `sources` model `sources/`;
- `retention`, `s3`, `filesystem` and `stores` model `stores/`;
- `tasks` and `scheduler` model `tasks/`.

`tasks/tasks.go:51-61` and `tasks/scheduler.go:21-33` both define
`ScheduleBackup` and `ScheduleRestore`. The model follows `scheduler.go`,
which `file.go` uses. The per-trigger logic of `runScheduler`
(`tasks/tasks.go:126-157`) is the same as `Scheduler.Start`'s, and the model
writes it once, as `Scheduler.Decide`.

## Model

| member | source | states |
|---|---|---|
| Command.CmdRunPriority | sources/command.go:46-108 | With a stream attached, `CmdRun` reports the first step that fails, in this order: stdout pipe, stdin pipe, start, wait, stdin copy, stdout copy. Each is wrapped with its own message. |
| Command.CmdRunSucceeds | sources/command.go:41-108 | `CmdRun` succeeds exactly when the process starts and exits with code 0 and every requested pipe and copy succeeds. |
| Command.RawExitErrorOnlyUnstreamed | sources/command.go:41-44 | A bare exit error reaches the caller exactly for a run without streams whose process started and exited non-zero. |
| Command.ToleranceAsWrittenOnlyUnstreamed | sources/command.go:96-98 | With the type assertion as written, a tolerated error can only come from a run without streams. |
| Command.ToleratedExactlyNonZeroExit | sources/command.go:96-98 | With the corrected check, IgnoreExitCode tolerates exactly the runs that started and exited non-zero, streamed or not. |
| Command.RunAs | sources/command.go:33-39 | The child runs with the configured credential exactly when the caller is root and a credential is set. |
| Command.LogsNotRoot | sources/command.go:37-39 | The "Not running as root" note is logged exactly for a non-root caller, and then no credential is used. |
| Command.FirstMatch | sources/command.go:147-160 | Returns the index of the first argument the token matches (a prefix match for a short token, equality for a long one), or none. |
| Command.ParseArg | sources/command.go:138-166 | The loop returns exactly the redaction as written. None stands for the panic. |
| Command.RedactNoMatch | sources/command.go:141-144 | An empty token, or a token that matches nothing, leaves the arguments unchanged. |
| Command.RedactShort | sources/command.go:146-153 | A short token replaces its first match with the token plus `********`. No other argument moves or changes. |
| Command.RedactLong | sources/command.go:154-159 | A long token stays in place and the argument after it becomes `*****`. Nothing else changes. |
| Command.RedactAsWrittenPanics | sources/command.go:157 | A long token as the last argument makes the code go out of range. |
| Command.RedactTotal | sources/command.go:154-159 | The corrected redaction is total, keeps the argument count, and agrees with the code wherever the code does not panic. |
| Command.ArtifactBase | sources/command.go:111-114 | The base name of an artifact path is `<prefix>-<timestamp><ext>`, whatever the save directory. |
| Command.ArtifactNamesSortByTime | sources/command.go:111-114 | Two artifact names with the same prefix and extension compare as strings exactly as their instants compare in time. |
| Clock.Layout | sources/command.go:112 | The timestamp is 14 decimal digits. |
| Clock.LayoutOrder | sources/command.go:112 | String order of timestamps is chronological order, and equal timestamps mean equal instants. |
| Paths.JoinPlain | sources/command.go:113 | Joining a directory with a plain name gives the cleaned directory, a slash, then the name. The result is already clean. |
| Paths.BaseOfJoin | tasks/tasks.go:71 | `path.Base` of a joined path plus an extension gives back the name plus the extension. |
| Paths.CollapseIdempotent | stores/s3.go:71 | Collapsing slashes twice changes nothing after the first time. |
| Paths.FieldsUnwords | sources/postgres.go:64 | `strings.Fields` of words joined by spaces gives back those words. |
| Effects.Attempted | sources/postgres.go:201-223 | For a chain of commands that stops at the first failure: all earlier commands succeeded, the last one attempted failed unless the chain finished, and a finished chain means every command succeeded. |
| Effects.IoAttemptedMeaning | sources/command.go:128-133 | The same, for a chain of file operations that stops at the first failure. |
| Lex.Sort | stores/s3.go:117 | `sort.Strings`: the result is sorted and a permutation of the input. |
| Lex.SortedUnique | stores/s3.go:117 | Two sorted permutations of the same names are equal, so the sorted order is unique. |
| Lex.Reverse | stores/s3.go:159 | The reverse order puts the element at position `n-1-i` at position `i`. |
| Retention.RetentionSplit | stores/s3.go:117-127 | Sorting and cutting at `len - keep` keeps `min(keep, len)` names and deletes the rest. No name is lost, and every deleted name sorts no later than every kept one. |
| Retention.LatestIsMax | stores/s3.go:159-161 | The latest backup is listed, and no listed name sorts after it. |
| Retention.LastOfSortedIsLatest | stores/filesystem.go:111 | The last entry of a sorted listing is the latest backup. |
| Postgres.BaseArgs | sources/postgres.go:53-72 | The arguments are host, port and user flags, then `-d <db>` when a database is set, then the words of Options. |
| Postgres.OptionsPassedAsWords | sources/postgres.go:64-69 | An Options string of space-separated words adds exactly those words after the base arguments. |
| Postgres.CmdEnv | sources/postgres.go:74-84 | The `Env` slice holds one entry, `PGPASSWORD=<password>`, exactly when a password is set, and is empty otherwise. |
| Postgres.DumpChoice | sources/postgres.go:91-123 | `pg_dump` is used exactly when a database is set. The extension is `.dump` for the custom format, else `.sql` or `.sql.gz` by Compress. `-Fc` is passed exactly in custom format. As written, the gzip writer is attached only for `.sql.gz`, and it is missing from a `.sql.gz` dump exactly for Custom + Compress + no database. With the corrected condition it is attached exactly for `.sql.gz`. |
| Postgres.DumpAsWrittenLosesOutput | sources/postgres.go:112 | As written, Custom + Compress + no database passes no `-f` and attaches no writer, so the dump run of `Backup` does not write the `.sql.gz` path it returns. |
| Postgres.DumpWritesArtifact | sources/postgres.go:99-124 | With the corrected condition, every configuration writes the dump to the returned path exactly once. |
| Postgres.DumpAsWrittenAgrees | sources/postgres.go:99-124 | The dump run as written equals the corrected one, and writes the artifact once, exactly unless Custom + Compress + no database. |
| Postgres.Backup | sources/postgres.go:87-131 | Creates the gzip file exactly when `Compress && !Custom`, and fails if that fails. Otherwise runs the dump as written and returns the path, or the wrapped command error. |
| Postgres.RestoreAsWrittenReadsNothing | sources/postgres.go:148 | As written, Custom with no database chooses `psql`, and the restore run gives it no input. |
| Postgres.RestoreReadsArtifact | sources/postgres.go:139-169 | With the corrected condition, the restore tool always reads the file once, through a gzip reader exactly for a `.gz` file fed to `psql`. `pg_restore` is used exactly in custom format. |
| Postgres.RestoreAsWrittenAgrees | sources/postgres.go:139-169 | The restore run as written equals the corrected one, and reads the artifact once, exactly unless Custom is set with no database. |
| Postgres.RestoreAsWrittenToleratesOnlyCustom | sources/postgres.go:148-183 | As written, IgnoreExitCode can excuse a failed restore run only when Custom is set. Otherwise the input is streamed and the exit error arrives wrapped. |
| Postgres.RecreateSteps | sources/postgres.go:191-221 | Recreation is three `psql` commands, each run with the password environment. |
| Postgres.Recreate | sources/postgres.go:191-224 | Terminate, drop and create run in order and stop at the first failure. It succeeds exactly when all three succeed, and the error names the failed step. |
| Postgres.RecreateOwner | sources/postgres.go:211-218 | The database is created with Owner, or with User when Owner is empty. |
| Postgres.RecreateAllOrNothing | sources/postgres.go:201-223 | Recreation succeeds exactly when all three commands succeed, and then all three ran. |
| Postgres.OpenInput | sources/postgres.go:148-169 | Exactly when Custom is not set, opens the file and, for `.gz`, a gzip reader. Each failure is reported with its message, and on success the input stream is returned. |
| Postgres.RunRestoreTool | sources/postgres.go:177-187 | Runs `pg_restore` or `psql` on the prepared input. A run error is dropped exactly when IgnoreExitCode is set and the error is a bare exit error. Any other failure names the tool. |
| Postgres.Restore | sources/postgres.go:134-189 | Order: open the input (unless Custom), then recreate when Drop is set, then the restore tool. Each failure aborts with its message. A run error is ignored exactly when IgnoreExitCode is set and it is a bare exit error. |
| MySQL.BaseArgs | sources/mysql.go:34-53 | Host, port and user flags, then `-p<password>` when a password is set, then the words of Options. |
| MySQL.DumpShape | sources/mysql.go:56-87 | The dump adds `-B <db>` or `--all-databases`, adds `-r <path>` exactly when not compressing, and writes through gzip exactly when compressing. |
| MySQL.DumpLogHidesPassword | sources/mysql.go:73 | The logged dump arguments show the password as `-p********`. Every other argument is unchanged. |
| MySQL.Backup | sources/mysql.go:56-94 | Creates the gzip file only when compressing. Runs `mysqldump` and returns the path, or the wrapped error. |
| MySQL.RestoreAsWrittenLogsPassword | sources/mysql.go:99 | As written, the restore's log line shows `-p<password>` in clear. |
| MySQL.RestoreLogHidesPassword | sources/mysql.go:99 | With the redaction token set, the restore's log line masks the password and nothing else. |
| MySQL.RestoreAsWrittenNeverTolerates | sources/mysql.go:124-132 | As written, the streamed restore's error never passes the exit-code tolerance. |
| MySQL.Restore | sources/mysql.go:97-135 | Opens the file, and a gzip reader for `.gz`, each failure with its message. Runs `mysql` with the input and no redaction token. A run error is ignored exactly when IgnoreExitCode is set and it is a bare exit error. |
| MySQL.RestoreToleratesExit | sources/mysql.go:124-132 | With the corrected check, a restore whose process exits non-zero is tolerated exactly when IgnoreExitCode is set. |
| Tarball.Target | sources/tarball.go:32-40 | The target is Path followed by File. |
| Tarball.DefaultTarget | sources/tarball.go:13-19 | With the defaults, the target is `./` and the name prefix is `.-backup`. |
| Tarball.DefaultArtifact | sources/tarball.go:43-54 | With the defaults, the archive is named `.-backup-<timestamp>.tar.gz`. |
| Tarball.Backup | sources/tarball.go:43-69 | Makes the archive of the target at the artifact path, gzipped when Compress is set. Returns the path, or the error naming it. |
| Tarball.RemovalOps | sources/command.go:128-133 | One `RemoveAll` of `dir/name` per listed name, in listing order. |
| Tarball.RemoveEntries | sources/command.go:128-133 | The loop attempts removals up to and including the first failure, and reports that failure with the entry's name. |
| Tarball.RemoveDirectoryContents | sources/command.go:116-136 | Opens, lists, then removes each entry. Each failure aborts with its message. |
| Tarball.EmptySucceeds | sources/command.go:116-136 | Emptying succeeds exactly when open, listing and every removal succeed, and then every entry was removed. |
| Tarball.Restore | sources/tarball.go:72-90 | Order: empty the target, match the archive format, unpack into the parent of Path. Each failure aborts with its message. |
| Consul.Backup | sources/consul.go:16-27 | Runs `consul snapshot save <path>` and returns the path exactly when the command succeeds. |
| Consul.Restore | sources/consul.go:30-40 | Runs `consul snapshot restore <path>` and succeeds exactly when the command does. |
| Consul.RestoreReportsExit | sources/consul.go:30-40 | A non-zero exit of the restore command is a bare exit error. `Restore` reports it wrapped once under "couldn't execute consul restore". |
| Sources.ArtifactPath | sources/command.go:111-114 | Every source names its artifact `generateFilename(SaveDir, prefix)` plus its extension. |
| Sources.BaseIsArtifactName | tasks/tasks.go:71 | The name the backup task stores under is `<prefix>-<timestamp><ext>`. |
| Sources.ArtifactNamesOrder | sources/command.go:111-114 | Artifact names of one source are ordered, and equal, exactly as their instants are. |
| Sources.RetentionKeepsNewest | stores/s3.go:117-127 | An artifact that retention deletes was made no later than any artifact it keeps. |
| Sources.Backup | sources/source.go:5 | A successful backup of any source returns its artifact path. |
| Sources.Restore | sources/source.go:6 | Dispatches to the backend's restore, which always acts. |
| Stores.Store | stores/store.go:5 | `Store` succeeds exactly when the backend accepted the file. On S3 that means the file reached its location. On the filesystem it also includes the reversed rename of `stores/filesystem.go:27`. |
| Stores.AcceptedGrows | stores/store.go:5 | Acceptance is shown by actions taken, so later actions keep it. |
| Stores.FilesystemAcceptsUnplaced | stores/filesystem.go:27-30 | When a file already sits at the destination, the filesystem store accepts the backup after the reversed rename alone, and the backup is not placed. |
| Stores.RemoveOlderBackups | stores/store.go:7 | Pruning succeeds exactly when the listing succeeds and, on S3, a needed batch delete succeeds. |
| Stores.FindLatestBackup | stores/store.go:8 | Succeeds exactly when the listing succeeds and is non-empty, and then returns its latest name. |
| Stores.Retrieve | stores/store.go:6 | Returns the local path for the name. The filesystem store never fails, and the S3 store remembers a completed download. |
| Stores.Close | stores/store.go:9 | The S3 store removes its remembered download and forgets it. The filesystem store does nothing. |
| S3.ListPrefixAsWrittenMissesKeys | stores/s3.go:94 | As written, with no prefix configured the listing prefix is `./`, and no stored key starts with it. |
| S3.KeyListed | stores/s3.go:94 | With the corrected listing prefix, every key the store writes for a plain name is under the prefix, for every configured prefix. |
| S3.ListPrefixAgrees | stores/s3.go:94 | The correction changes the listing prefix only for prefixes that clean to `.` (such as the empty one) or to `/`. |
| S3.ListOpAgrees | stores/s3.go:92-95 | The store's listing request uses the corrected prefix exactly when the configured prefix does not clean to `.` or `/`. |
| S3.ListOpMissesUploads | stores/s3.go:92-95 | With no prefix configured, the store lists under `./`, and no key it uploads for a plain name is under that prefix. |
| S3.Files | stores/s3.go:97-101 | A listed key is kept exactly when it does not end in `/`. |
| S3.S3Store.constructor | stores/s3.go:20-30 | A new store has the configuration and no download. |
| S3.S3Store.Store | stores/s3.go:52-86 | Store opens the file, uploads it under `Clean(Join(Prefix, name))`, removes the local file unless KeepAfterUpload is set, and succeeds exactly when the upload succeeds, reporting each failure with its message. |
| S3.S3Store.GetFileListing | stores/s3.go:88-106 | One listing under the prefix of line 94 as written, keeping the keys that name files. |
| S3.S3Store.RemoveOlderBackups | stores/s3.go:109-143 | Lists under the prefix as written, sorts, then deletes the oldest `len - keep` keys in one batch, only when there are any. Listing and delete failures are reported. |
| S3.S3Store.MarkForDeletion | stores/s3.go:122-127 | The batch holds exactly the first `count` sorted keys, in order. |
| S3.S3Store.FindLatestBackup | stores/s3.go:146-162 | The latest key listed under the prefix as written. An empty listing is an error naming the bucket and prefix. |
| S3.S3Store.Retrieve | stores/s3.go:165-191 | Creates `SaveDir/Base(key)`, then downloads into it. Only a completed download is remembered. |
| S3.S3Store.Close | stores/s3.go:194-202 | Removes the remembered download if there is one and forgets it, so a second `Close` does nothing. |
| S3.UploadedKeyFound | stores/s3.go:71-101 | With the corrected listing prefix, a key the store uploaded is listed, and the latest listed key sorts no earlier than it. |
| S3.StoreListingFindsUpload | stores/s3.go:71-101 | The store's own listing, with the prefix as written, finds an uploaded key whenever the prefix cleans to neither `.` nor `/`. The latest listed key then sorts no earlier than it. |
| Filesystem.CopyFallback | stores/filesystem.go:36-71 | Order: open, create, copy, sync, each failure with its message. The source is removed exactly when all succeeded, which is exactly when the contents were delivered. |
| Filesystem.StoreAsWritten | stores/filesystem.go:19-71 | As written, the fast path renames the destination onto the source. `Store` succeeds exactly when that reversed rename succeeded or the backup was delivered by copy. |
| Filesystem.StoreAsWrittenLosesBackup | stores/filesystem.go:27 | When that reversed rename succeeds, `Store` reports success although the backup was not delivered. |
| Filesystem.Store | stores/filesystem.go:19-71 | With the corrected rename, `Store` does nothing when source and destination are the same. Otherwise it succeeds exactly when the backup was delivered by rename or by copy. |
| Filesystem.RemovalOps | stores/filesystem.go:84-88 | One removal of `Clean(Join(SaveDir, name))` per name to delete. |
| Filesystem.RemoveOlderBackups | stores/filesystem.go:74-98 | Lists and sorts, then removes the oldest `len - keep` files one by one. Removal failures are logged and not counted, and only a listing failure is reported. |
| Filesystem.RemoveEach | stores/filesystem.go:84-94 | Every removal is attempted, and the count is the number that succeeded. |
| Filesystem.AllDeletedIffAllRemoved | stores/filesystem.go:84-96 | The logged count equals the number of files to delete exactly when every removal succeeded. |
| Filesystem.FindLatestBackup | stores/filesystem.go:101-112 | The last name of the sorted directory listing. An empty directory is an error. |
| Filesystem.Retrieve | stores/filesystem.go:115-117 | Never fails, and names the stored file's path. |
| Filesystem.RetrieveFindsStored | stores/filesystem.go:115-117 | What `Store` saves under a plain name is what `Retrieve` returns for it. |
| Tasks.StageError | tasks/tasks.go:63-111 | Every stage error the task reports is wrapped with context, and `Close` never produces one. |
| Tasks.BackupTask | tasks/tasks.go:63-83 | Backup, then Store of the artifact under `<prefix>-<timestamp><ext>`, then RemoveOlderBackups(MaxBackups), each only after the previous succeeded. A successful upload was accepted by the store, and on S3 it placed the file. |
| Tasks.UploadAndPrune | tasks/tasks.go:71-82 | Store runs first, and RemoveOlderBackups(keep) runs exactly when it succeeded. A successful upload was accepted, and on S3 placed. Pruning succeeds exactly as the store's retention says. |
| Tasks.BackupThenUploadIsTrace | tasks/tasks.go:63-83 | A successful backup followed by the upload stages is a complete backup trace, and it reports what the upload stages report. |
| Tasks.BackupReportsFirstFailure | tasks/tasks.go:63-83 | The backup task's error is its first failed stage's. |
| Tasks.BackupSucceedsIffAllStages | tasks/tasks.go:73-82 | The backup task succeeds exactly when pruning ran and succeeded, so a pruning failure after a good upload is still an error. |
| Tasks.RestoreTask | tasks/tasks.go:85-112 | Uses RestoreFile when set, else the latest listed backup, then Retrieve, Restore and Close. After a successful retrieval, the S3 download is gone. |
| Tasks.LookupAndRestore | tasks/tasks.go:89-111 | Without a named file, the latest listed backup is looked up. A failed lookup stops the task with its error, and otherwise that backup is retrieved and restored. |
| Tasks.LookupThenRetrievalIsTrace | tasks/tasks.go:89-111 | A successful lookup followed by the retrieval stages is a restore trace. The lookup changes neither the reported error nor the last call. |
| Tasks.NamedRetrievalIsTrace | tasks/tasks.go:89-90 | With a named file, the retrieval stages alone are the whole restore trace. |
| Tasks.RetrieveAndRestore | tasks/tasks.go:100-111 | Restore and then Close run exactly when Retrieve succeeded. |
| Tasks.RestoreAndClose | tasks/tasks.go:104-111 | The retrieved copy is restored, and then the deferred Close always runs. The reported error is the restore's, wrapped, and the S3 download is gone afterwards. |
| Tasks.RestoreClosesOnce | tasks/tasks.go:100-111 | Close is called at most once, exactly when Retrieve succeeded. It is the last call, right after Restore, whether or not Restore failed. |
| Tasks.NamedFileSkipsLookup | tasks/tasks.go:89-98 | A named restore file is retrieved directly, and FindLatestBackup is never called. |
| Tasks.RestoreReportsFirstFailure | tasks/tasks.go:85-112 | The restore task's error is its first failed stage's. |
| Tasks.RestoreSucceedsIffRestored | tasks/tasks.go:107-111 | The restore task succeeds exactly when the source restore ran and succeeded. |
| Scheduler.EffectiveDelay | tasks/scheduler.go:60-64 | The draw bound is the configured delay when that is positive, and exactly 1 otherwise. |
| Scheduler.Decide | tasks/scheduler.go:66-89 | A trigger is cancelled exactly when its draw is positive and `quit` holds a value or is closed. A zero draw always runs at once. |
| Scheduler.QuitAfter | tasks/scheduler.go:69-81 | A cancelling trigger takes the waiting value from `quit`. Any other trigger leaves `quit` as it was, so a zero draw leaves a pending `Stop` for the watcher. |
| Scheduler.Scheduler.constructor | tasks/scheduler.go:35-42 | The schedule is copied from the configuration. The scheduler is not started and has no `quit` channel. |
| Scheduler.Scheduler.RunJob | tasks/scheduler.go:21-33 | Running the job is the backup or the restore task, with its error. |
| Scheduler.Scheduler.Start | tasks/scheduler.go:49-103 | `""` or `none` runs the task once and returns its result, without creating `quit`. Any other schedule creates `quit`, arms the trigger and returns nil without running the task. |
| Scheduler.Scheduler.Fire | tasks/scheduler.go:59-90 | One trigger runs the task once or is cancelled, as `Decide` says. Task errors are not returned. |
| Scheduler.Scheduler.Stop | tasks/scheduler.go:44-47 | Sends one value on an open, empty `quit`. On a `quit` the watcher has closed, it panics and changes nothing. |
| Scheduler.Scheduler.Watch | tasks/scheduler.go:92-100 | The watcher takes the value, closes `quit` and stops the cron runner. |
| Scheduler.ScheduleBackup | tasks/scheduler.go:21-26 | A new, unstarted scheduler for the backup task. |
| Scheduler.ScheduleRestore | tasks/scheduler.go:28-33 | A new, unstarted scheduler for the restore task. |
| Scheduler.NonPositiveDelayRunsAtOnce | tasks/scheduler.go:60-74 | With a RandomDelay of 0 or less, every draw is 0. Every trigger runs at once, and `quit` is left as it was. |
| Scheduler.DefaultsRunAtOnce | tasks/tasks.go:27-30 | With the default RandomDelay of 1, every draw is 0, so every trigger runs at once. |
| Scheduler.StopTakenByWaitingTrigger | tasks/scheduler.go:78-81 | A `Stop` taken by a trigger that is waiting out its delay cancels only that trigger. The value is used up, so the watcher keeps waiting and the cron runner keeps firing. |

## Left out

- Process execution in `CmdRun` (`exec.Command`, pipes, the copy goroutines, stderr) is replaced by `ProcessOutcome`, the outcome of each step. The byte contents of dumps, archives and gzip streams are not modelled.
- The effective user id is a parameter of `Command.RunAs`. Switching credentials itself is not modelled.
- Log output is left out. Two exceptions are modelled: the arguments of the "Running" line (`Command.LoggedArgs`) and the "Not running as root" note.
- Error texts are structured values: `Wrapped(context, inner)` stands for `fmt.Errorf("<context>: %v", inner)`, and the `%q` quoting in the S3 open error is plain quotes.
- Configuration loading is left out because it is ambient environment input: `env.Parse`, `godotenv.Load`, `mapstructure.Decode`, `NewS3Config`, `NewConfig` and `NewTarballConfig`. Configurations are parameters.
- Tasks.Config: MaxBackups is a `nat`, so a negative MAX_BACKUPS is outside the model. In Go the outcome depends on the listing slice's spare capacity. The code either panics at the slice, or fails the S3 batch delete on an empty key, or removes every file in SaveDir and then panics on a nil `FileInfo`.
- AWS session settings are left out: endpoint, region, path style and `newSession`.
- The paginated listing is one list of keys.
- `path.Clean` is modelled for slashes only: runs of `/` collapse, a trailing `/` goes, and `""` becomes `.`. `.` and `..` segments are not resolved.
- `ioutil.ReadDir` is the world's names in sorted order. `Readdirnames` is the world's names in directory order.
- `archiver.MatchingFormat` is an operation of the world that succeeds or fails.
- Instants are limited to years up to 9999, where the timestamp layout has 14 digits.
- Deferred `Close` calls on files, gzip readers and writers are left out; their errors are ignored by the code.
- The scheduler is one trigger at a time. Left out are:
  - cron expression parsing;
  - timers and concurrent triggers;
  - signal handling in `runScheduler`.

  A `Stop` that arrives while a trigger waits is modelled as `Stop` before `Fire`.
- Scheduler.Scheduler.Start: requires a scheduler that has not been started. A second `Start` is not modelled.
- Scheduler.Scheduler.Stop: two sends are excluded by its requires. On a nil `quit`, before a scheduled `Start`, the send blocks forever. On a `quit` that already holds a value, the model takes one step at a time; in Go that send waits until the watcher takes the first value (`Watch`), and then completes.
- Command.CmdConfig: an empty `env` stands for Go's nil `Env`, so the child inherits the caller's whole environment. A non-empty `env` is the child's whole environment. With a password set, the PostgreSQL tools therefore run with `PGPASSWORD` alone. The environment itself is not modelled.
- Scheduler.Scheduler.constructor: the Go scheduler keeps a pointer to its Config and reads RandomDelay, MaxBackups and RestoreFile when a trigger fires. The model keeps a copy of the whole Config. No code changes the Config after construction, so the two agree.
- Command.LoggedArgs: the logged arguments use the total `Redact`. The panic of `parseArg` on a long token in last position (`Command.RedactAsWrittenPanics`) is not carried into the log or the run. No caller passes a long token.
- Sources.Restore: the dispatch promises only that the backend acted. Each backend's `Restore` states its full result.
- Sources.Backup: the dispatch states only the returned path. Each backend's `Backup` states its actions and errors.
- Stores.RemoveOlderBackups: the filesystem store's count of deleted files is dropped at the dispatch. `Filesystem.RemoveOlderBackups` states it.
- Tasks.BackupTask: of the stages' actions, only the upload's acceptance is stated. Each stage method states its own actions. Placement is promised only on S3, because the filesystem store as written can accept a backup it did not place.
- Tasks.UploadAndPrune: placement is promised only on S3, for the same reason.
- Stores.Store: success means placement only on S3. On the filesystem, `Store` follows `os.Rename(dest, src)` as written.
- Postgres.Restore: IgnoreExitCode is the type assertion as written. The corrected tolerance is stated only by `Command.ToleratedExactlyNonZeroExit`. The same holds for Postgres.RunRestoreTool and MySQL.Restore.
- Tasks.RestoreTask: the stages' actions are returned but not stated.
- The duplicate `ScheduleBackup`, `ScheduleRestore` and `runScheduler` in `tasks/tasks.go:51-61,114-171` are not modelled separately; `scheduler.go` supersedes them. Their per-trigger logic is `Scheduler.Decide`.
- `file.go` is not part of this model. It only wires the environment to a scheduler.

## Findings

| source | as written | input that shows it | evidently intended | confidence | as-written member | corrected member |
|---|---|---|---|---|---|---|
| sources/postgres.go:112 | the gzip writer is attached when `Compress && !Custom` | Custom and Compress set, no Database: `pg_dumpall` gets no `-f` and no writer, and the returned `.sql.gz` file is never written | attach the writer whenever the path ends in `.sql.gz` | not executed | Postgres.DumpAsWrittenLosesOutput | Postgres.DumpWritesArtifact |
| sources/postgres.go:148 | the input file is attached when `!Custom` | Custom set, no Database: `psql` is chosen and gets no input | feed the file whenever `psql` restores | not executed | Postgres.RestoreAsWrittenReadsNothing | Postgres.RestoreReadsArtifact |
| sources/command.go:97 | the wait error of a streamed run is wrapped with `%v`, so `err.(*exec.ExitError)` fails | MySQL restore with IgnoreExitCode, and `mysql` exits with code 1: the restore still fails | wrap the wait error with `%w` and test it with `errors.As`, so a non-zero exit is tolerated wrapped or not | not executed | MySQL.RestoreAsWrittenNeverTolerates | MySQL.RestoreToleratesExit |
| sources/command.go:157 | `args[i+2:]` after a long token | args `["--foo", "--bar"]`, token `--bar`: the slice is out of range and the call panics | leave a trailing token as it is | not executed | Command.RedactAsWrittenPanics | Command.RedactTotal |
| stores/filesystem.go:27 | `os.Rename(dest, src)` | a file already exists at the destination: it is moved onto the source, and `Store` reports success without delivering the backup | `os.Rename(src, dest)` | not executed | Filesystem.StoreAsWrittenLosesBackup | Filesystem.Store |
| stores/s3.go:94 | listing prefix `path.Clean(Prefix) + "/"` | empty Prefix: the listing prefix is `./`, while the stored keys are bare names, so retention and lookup see no backups | the empty prefix for an unset Prefix | not executed | S3.ListPrefixAsWrittenMissesKeys | S3.KeyListed |
| sources/mysql.go:99 | the restore's `CmdConfig{}` has no `ParsedArg` | Password `secret`: the streamed restore logs `-psecret` | `CmdConfig{ParsedArg: "-p"}`, as the dump has | not executed | MySQL.RestoreAsWrittenLogsPassword | MySQL.RestoreLogHidesPassword |
