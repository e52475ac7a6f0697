# RdsDataDownloader in Dafny

A model of the core of RdsDataDownloader. The downloader periodically fetches
reference data ("RDS data") for a configured list of enum types through a
reference-data client, and publishes it as one JSON file. The model has three
parts, and each keeps the form of its Java class:

- **Fetcher** (`fetcher.dfy`, `categories.dfy`, `strings.dfy`). `RdsDataFetcher`
  is a class. Its constructor loop turns the comma-separated configuration
  value into a list of trimmed, non-empty category names, using Java's
  `String.split` (trailing empty pieces dropped) and `String.trim`
  (characters up to U+0020). Its `Fetch` loop calls the client once per
  category and wraps each answer as `{category: answer}` in an array. The
  client is an oracle `(call index, category) -> identifiers or exception`.
- **Persister** (`persister.dfy`, `paths.dfy`, `files.dfy`).
  - The derivation of the four paths is pure: target, target parent, staging
    file and staging parent, with `java.nio.file.Path` modelled as a root
    flag plus names.
  - `persist` is imperative. It runs, on a `FileSystem` object (a map from
    paths to `File(bytes) | Dir`):
    1. make sure the staging directory exists;
    2. write the staging file;
    3. make sure the target directory exists;
    4. move staging onto target, atomically, replacing what is there.
  - Each call is logged, and each imperative method is proved equal to a
    specification function (`PersistRun`) that records the calls and the
    state after each.
  - `writer_persister.dfy` models the writer-based variant that the
    persister tests exercise: `getCleanWriter()`, the writer, then
    `persist()` with its two extra guards.
- **Lifecycle** (`lifecycle.dfy`).
  - The private `fetch()` retries once after a three-minute pause.
  - `singleRun()` persists the data and reports READY, or reports FAULTY, and
    catches every `Exception`.
  - The constructor reads the schedule configuration (`ReadSchedule`);
    `Create` is `new RdsDataLifecycle(...)`, which throws for an unknown unit name.
  - `start`/`stop` drive a small scheduler state machine.
  - The fetcher's and persister's answers are parameters. Every visible
    effect is appended to a trace: fetch calls, state pushes with their
    messages, sleeps and persist calls.

`cycle.dfy` composes the lifecycle's run with the persister's specification.
It proves what one scheduled cycle leaves at the target. The exception
messages are modelled exactly as the source spells them, including
"rertry" and "temporarty".

The model follows the code in two places where a reader might expect
otherwise:

- `singleRun` catches `Exception`, not `Throwable`, so a `java.lang.Error`
  escapes the run (`RunTrace.escaped`).
- When both fetches fail, FAULTY is pushed twice: once by `fetch()` with
  "Fetching RDS data failed two times in a row", then by `singleRun()` with
  "Failed to receive good RDS data".

The source of the writer-based persister is not part of this model; it is
reconstructed from `RdsDataPersisterTest.java`.

## Model

| member | source | states |
|---|---|---|
| Fetcher.RdsDataFetcher.constructor | src/main/java/com/seleritycorp/rds/downloader/RdsDataFetcher.java:47-58 | The loop over the split pieces leaves `enumTypes` equal to `ConfiguredCategories` of the configuration value; a missing value reads as "". |
| Categories.CategoriesOfAllPieces | src/main/java/com/seleritycorp/rds/downloader/RdsDataFetcher.java:52-57 | The category list is the cleaned form (trim, drop empty) of every comma-separated piece, so Java's dropping of trailing empty pieces changes nothing. |
| Categories.CategoriesAreTrimmed | src/main/java/com/seleritycorp/rds/downloader/RdsDataFetcher.java:53-55 | Every stored name is non-empty, and starts and ends with a character above U+0020. |
| Categories.CleanPiecesAreTrimmed | src/main/java/com/seleritycorp/rds/downloader/RdsDataFetcher.java:53-55 | The same, for any list of pieces cleaned by the loop body. |
| Categories.CleanAppend | src/main/java/com/seleritycorp/rds/downloader/RdsDataFetcher.java:52-57 | Cleaning distributes over concatenation of piece lists (order kept). |
| Categories.CategoriesOfConcat | src/main/java/com/seleritycorp/rds/downloader/RdsDataFetcher.java:51-56 | The list of `a + "," + b` is the list of `a` followed by the list of `b`: order is kept. |
| Categories.CategoryCountOfConcat | src/main/java/com/seleritycorp/rds/downloader/RdsDataFetcher.java:51-56 | Duplicates are not removed: a name occurs in the list of `a,b` as often as in the lists of `a` and `b` together. |
| Categories.CleanEmptyIff | src/main/java/com/seleritycorp/rds/downloader/RdsDataFetcher.java:53-55 | Cleaning leaves nothing exactly when every piece is blank. |
| Categories.NoCategoriesIff | src/main/java/com/seleritycorp/rds/downloader/RdsDataFetcher.java:49-57 | The list is empty if and only if the configuration holds only commas and whitespace (so the empty and blank configurations among them). |
| Categories.MissingConfigHasNoCategories | src/main/java/com/seleritycorp/rds/downloader/RdsDataFetcher.java:49 | A missing configuration value gives the empty list. |
| Categories.TrimExamples | src/test/java/com/seleritycorp/rds/downloader/RdsDataFetcherTest.java:128-149 | `trim` of the two padded pieces of the mixed configuration gives "foo" and "bar". |
| Categories.SevenPieces | src/main/java/com/seleritycorp/rds/downloader/RdsDataFetcher.java:52-57 | Seven comma-joined pieces give the concatenation of each piece's categories, in order. |
| Categories.MixedConfigExample | src/test/java/com/seleritycorp/rds/downloader/RdsDataFetcherTest.java:128-149 | The configuration `",   foo  ,, bar,,,"` names exactly `["foo", "bar"]`. |
| Strings.JoinSplit | src/main/java/com/seleritycorp/rds/downloader/RdsDataFetcher.java:52 | Splitting at every separator loses nothing: joining the pieces gives the string back. |
| Strings.SplitJoin | src/main/java/com/seleritycorp/rds/downloader/RdsDataFetcher.java:52 | Conversely, splitting a join of separator-free pieces gives the pieces back. |
| Strings.SplitConcat | src/main/java/com/seleritycorp/rds/downloader/RdsDataFetcher.java:52 | Splitting `a + sep + b` gives the pieces of `a` followed by those of `b`. |
| Strings.TrimShape | src/main/java/com/seleritycorp/rds/downloader/RdsDataFetcher.java:53 | `trim` returns a slice of its argument with only whitespace cut off on either side, and the slice is empty or starts and ends with non-whitespace. |
| Strings.TrimEmptyIff | src/main/java/com/seleritycorp/rds/downloader/RdsDataFetcher.java:53-54 | `trim` gives "" if and only if every character is whitespace. |
| Strings.TrimOfTrimmed | src/main/java/com/seleritycorp/rds/downloader/RdsDataFetcher.java:53 | `trim` leaves a trimmed non-empty string unchanged (idempotence on its results). |
| Fetcher.RdsDataFetcher.Fetch | src/main/java/com/seleritycorp/rds/downloader/RdsDataFetcher.java:69-80 | The loop returns `FetchResult` of the list, and the categories the client was asked for are `FetchCalls`. |
| Fetcher.FirstFailure | src/main/java/com/seleritycorp/rds/downloader/RdsDataFetcher.java:71-72 | The index of the first call that throws: every call before it returns, and the call at it (if any) throws. |
| Fetcher.FirstFailureUnique | src/main/java/com/seleritycorp/rds/downloader/RdsDataFetcher.java:71-72 | That index is the only one with this property. |
| Fetcher.FetchShape | src/main/java/com/seleritycorp/rds/downloader/RdsDataFetcher.java:70-79 | A successful fetch is an array with one element per category; element i is the single-member object mapping category i to the client's answer for call i. |
| Fetcher.FetchCallsInOrder | src/main/java/com/seleritycorp/rds/downloader/RdsDataFetcher.java:63-78 | The fetch succeeds if and only if every call returns. Then the client was asked for every category in order. Otherwise it was asked for the prefix up to the first failure, and that failure's exception is the result (no retry). |
| Fetcher.EmptyConfigFetchesNothing | src/test/java/com/seleritycorp/rds/downloader/RdsDataFetcherTest.java:47-83 | A missing, empty or blank configuration gives no categories; fetch returns the empty array and asks the client nothing. |
| Fetcher.TwoCategoryFetch | src/test/java/com/seleritycorp/rds/downloader/RdsDataFetcherTest.java:105-126 | Two categories with answers 42 and "baz" give `[{foo: 42}, {bar: "baz"}]`, asking for foo then bar. |
| Fetcher.MixedConfigFetchExample | src/test/java/com/seleritycorp/rds/downloader/RdsDataFetcherTest.java:128-149 | The same result from the configuration `",   foo  ,, bar,,,"`. |
| Paths.ParsedPathWellFormed | src/main/java/com/seleritycorp/rds/downloader/RdsDataPersister.java:61 | Any string parses to a path whose names are non-empty and slash-free. |
| Paths.PathStringRoundTrip | src/main/java/com/seleritycorp/rds/downloader/RdsDataPersister.java:93 | Parsing the rendering of a well-formed path gives the path back, so the paths named in error messages identify the paths. |
| Paths.ResolveWellFormed | src/main/java/com/seleritycorp/rds/downloader/RdsDataPersister.java:61 | Resolving keeps paths well formed. |
| Paths.JoinParses | src/main/java/com/seleritycorp/rds/downloader/RdsDataPersister.java:61 | A slash-joined list of names parses to the relative path of those names. |
| Paths.DefaultTargetNames | src/main/java/com/seleritycorp/rds/downloader/RdsDataPersister.java:61 | "rds/rds-data.json" parses to the two names rds and rds-data.json. |
| Files.FileSystem.CreateDirectoriesAt | src/main/java/com/seleritycorp/rds/downloader/RdsDataPersister.java:91 | createDirectories succeeds exactly when no file takes the place of the directory or one of its ancestors. It then makes them all directories; otherwise nothing changes. |
| Files.FileSystem.Write | src/main/java/com/seleritycorp/rds/downloader/RdsDataPersister.java:98 | A write succeeds exactly when the path is not the root, not a directory, and its parent is a directory. The file then holds exactly the bytes, replacing whatever was there; otherwise nothing changes. |
| Files.FileSystem.Move | src/main/java/com/seleritycorp/rds/downloader/RdsDataPersister.java:114-115 | The atomic replacing move succeeds exactly when the source is a file, the destination's parent is a directory and the destination is not a directory. It is then one map update; otherwise nothing changes. |
| Persister.RdsDataPersister.constructor | src/main/java/com/seleritycorp/rds/downloader/RdsDataPersister.java:58-74 | The fields are `DeriveLayout` of the data root and the two configuration values, and the parents are the paths' parents. |
| Persister.DefaultTargetUnderDataRoot | src/main/java/com/seleritycorp/rds/downloader/RdsDataPersister.java:61 | Without configuration, the target is `rds/rds-data.json` resolved against the data root: its names plus rds and rds-data.json. |
| Persister.TargetWellFormed | src/main/java/com/seleritycorp/rds/downloader/RdsDataPersister.java:61 | The target of a well-formed data root is well formed. |
| Persister.StagingNameParses | src/main/java/com/seleritycorp/rds/downloader/RdsDataPersister.java:66-68 | A file name plus ".tmp" parses as that single name. |
| Persister.SiblingStaging | src/main/java/com/seleritycorp/rds/downloader/RdsDataPersister.java:64-69 | With no staging configured, staging is the target's file name plus ".tmp" in the target's parent. When the target has no parent, it is that bare name. |
| Persister.DefaultStagingIsSibling | src/main/java/com/seleritycorp/rds/downloader/RdsDataPersister.java:64-69 | For the derived target: same parent, same depth, last name plus ".tmp". |
| Persister.ConfiguredStagingResolved | src/main/java/com/seleritycorp/rds/downloader/RdsDataPersister.java:70-72 | A configured staging path is resolved against the data root: a relative one lies under it, an absolute one is used as it is. |
| Persister.DefaultLayoutSeparated | src/main/java/com/seleritycorp/rds/downloader/RdsDataPersister.java:61-73 | In the default layout the parents are consistent, staging differs from the target, and creating the staging directory cannot create the target. |
| Persister.FailureMessageNamesPaths | src/main/java/com/seleritycorp/rds/downloader/RdsDataPersister.java:89-119 | Every failure but the null parent is an IOException whose message names the path it failed on; the move failure names both staging and target. |
| Persister.EnsureDirectoryKeeps | src/main/java/com/seleritycorp/rds/downloader/RdsDataPersister.java:89-95 | Making sure a directory exists changes no entry outside that directory and its ancestors, and makes no move. |
| Persister.EnsureDirectoryKeepsFile | src/main/java/com/seleritycorp/rds/downloader/RdsDataPersister.java:105-111 | It leaves every regular file as it was. |
| Persister.EnsureDirectoryOps | src/main/java/com/seleritycorp/rds/downloader/RdsDataPersister.java:89-95 | No call if the directory exists, otherwise exactly one createDirectories. |
| Persister.StagingDirectoryHandling | src/main/java/com/seleritycorp/rds/downloader/RdsDataPersister.java:89-95 | An existing staging directory is left alone and the first call is the write. A missing one is created first. If it cannot be created, the only call is that attempt, no entry changes and persist throws the error naming the directory. |
| Persister.PersistFollowsPlan | src/main/java/com/seleritycorp/rds/downloader/RdsDataPersister.java:89-119 | The calls persist makes are a prefix of the plan, in order: create the staging directory if missing, write staging, create the target directory if missing, move. A successful persist makes all of them. |
| Persister.PlanChoices | src/main/java/com/seleritycorp/rds/downloader/RdsDataPersister.java:89-119 | The same, with the two directory creations named. |
| Persister.PersistTargetSafe | src/main/java/com/seleritycorp/rds/downloader/RdsDataPersister.java:97-119 | The target is never written directly. Every call but the final move leaves its entry as it was. The move of staging onto target, if made, is the last call and decides the outcome. A persist that throws leaves the target as it was. |
| Persister.PersistPublishes | src/test/java/com/seleritycorp/rds/downloader/RdsDataPersisterTest.java:83-89 | After a normal return, the target holds exactly the data, whatever was at target or staging before (replaced, not merged), and no staging file is left. |
| Persister.PersistFailureKeepsTarget | src/main/java/com/seleritycorp/rds/downloader/RdsDataPersister.java:97-119 | A persist that throws leaves the target's entry as it was. |
| Persister.ReadersSeeOldOrNew | src/main/java/com/seleritycorp/rds/downloader/RdsDataPersister.java:85-87 | Every intermediate state holds the target's old entry or the complete new file. |
| Persister.DirectoryAtTargetFails | src/test/java/com/seleritycorp/rds/downloader/RdsDataPersisterTest.java:163-181 | A directory at the target makes persist throw; once the move is reached the error is the move's, which names the target. |
| Persister.EnsureDirectoryAt | src/main/java/com/seleritycorp/rds/downloader/RdsDataPersister.java:89-95 | The check-then-create on the file system takes exactly the steps of `EnsureDirectory`. |
| Persister.PersistAt | src/main/java/com/seleritycorp/rds/downloader/RdsDataPersister.java:82-120 | The imperative persist makes exactly the calls of `PersistRun`, in order, ends as it does, and leaves its final state. |
| Persister.RdsDataPersister.Persist | src/main/java/com/seleritycorp/rds/downloader/RdsDataPersister.java:82-120 | The same for the serialised data. A normal return leaves exactly that data at the target; a throw leaves the target as it was. |
| WriterPersister.WriterFailureMessages | src/test/java/com/seleritycorp/rds/downloader/RdsDataPersisterTest.java:92-107 | The two guards throw IOExceptions with "Writer is not initialized - Fetch the data into the writer before calling persist!" and "Downloaded RDS data is empty!". |
| WriterPersister.UninitializedWriterFails | src/test/java/com/seleritycorp/rds/downloader/RdsDataPersisterTest.java:92-107 | persist without a writer throws the not-initialised error and makes no call. |
| WriterPersister.EmptyDataRejected | src/test/java/com/seleritycorp/rds/downloader/RdsDataPersisterTest.java:210-224 | persist with nothing written throws; its only call is the flush into staging, and the target is unchanged. With a writable staging file, the error is the empty-data one, and only then. |
| WriterPersister.AcquireKeepsTarget | src/test/java/com/seleritycorp/rds/downloader/RdsDataPersisterTest.java:109-143 | getCleanWriter never touches the target and makes no move; on success it leaves an empty staging file. |
| WriterPersister.AcquireThenEmptyFails | src/test/java/com/seleritycorp/rds/downloader/RdsDataPersisterTest.java:210-224 | getCleanWriter followed by persist with nothing written fails with the empty-data error and leaves the target as before both. |
| WriterPersister.CommitAppends | src/main/java/com/seleritycorp/rds/downloader/RdsDataPersister.java:105-119 | Steps 3 and 4 depend on the earlier calls only by appending to them. |
| WriterPersister.CommitStagedIsStage | src/test/java/com/seleritycorp/rds/downloader/RdsDataPersisterTest.java:63-90 | With data written, the variant's persist is the staged write followed by the commit of the plain persist. |
| WriterPersister.TruncatedStagingWritable | src/test/java/com/seleritycorp/rds/downloader/RdsDataPersisterTest.java:184-208 | Truncating the staging file does not stop it from being written again. |
| WriterPersister.VariantAgreesWithPersist | src/test/java/com/seleritycorp/rds/downloader/RdsDataPersisterTest.java:63-90 | For non-empty data, getCleanWriter followed by persist ends as `RdsDataPersister.persist` of the same bytes: the same outcome and the same final entries. |
| WriterPersister.AcquireAt | src/test/java/com/seleritycorp/rds/downloader/RdsDataPersisterTest.java:80 | getCleanWriter on the file system takes exactly the steps of `AcquireRun`. |
| WriterPersister.RdsDataWriterPersister.GetCleanWriter | src/test/java/com/seleritycorp/rds/downloader/RdsDataPersisterTest.java:80 | It drops any open sink and runs `AcquireRun`. The sink is open, and empty, exactly when it returns normally. |
| WriterPersister.RdsDataWriterPersister.Write | src/test/java/com/seleritycorp/rds/downloader/RdsDataPersisterTest.java:82-83 | An open sink appends the bytes; a closed one throws "Stream closed" and keeps what it had. |
| WriterPersister.RdsDataWriterPersister.Persist | src/test/java/com/seleritycorp/rds/downloader/RdsDataPersisterTest.java:83-107 | It runs `CommitStagedRun` on the sink's state, and the sink is closed afterwards in every case. |
| Lifecycle.DecimalString | src/main/java/com/seleritycorp/rds/downloader/RdsDataLifecycle.java:96 | The rendering of a long: one or more digits, with no leading zero. |
| Lifecycle.DecimalRoundTrip | src/main/java/com/seleritycorp/rds/downloader/RdsDataLifecycle.java:96 | Reading those digits back gives the number. |
| Lifecycle.RetryPauseDigits | src/main/java/com/seleritycorp/rds/downloader/RdsDataLifecycle.java:78 | The pause, 3 * 60 * 1000 ms, in seconds renders as "180". |
| Lifecycle.FetchCalledOnceOrTwice | src/main/java/com/seleritycorp/rds/downloader/RdsDataLifecycle.java:90-112 | fetch() calls the fetcher first and once or twice in all; twice exactly when the first call threw an IOException or CallErrorException. |
| Lifecycle.FirstSuccessPassesThrough | src/main/java/com/seleritycorp/rds/downloader/RdsDataLifecycle.java:92-93 | A first call that returns gives no WARNING, no sleep and exactly its result. |
| Lifecycle.RetryFollowsWarningAndPause | src/main/java/com/seleritycorp/rds/downloader/RdsDataLifecycle.java:94-104 | After a caught failure the events are: the call, WARNING with "… Will rertry in 180 seconds", a sleep of 180000 ms, the second call. The second call's answer decides the outcome. |
| Lifecycle.TwoFailuresReportFaulty | src/main/java/com/seleritycorp/rds/downloader/RdsDataLifecycle.java:105-111 | Two caught failures: FAULTY with "Fetching RDS data failed two times in a row", and null is returned. |
| Lifecycle.FetchEventsPlain | src/main/java/com/seleritycorp/rds/downloader/RdsDataLifecycle.java:90-112 | fetch() neither persists nor reports READY. |
| Lifecycle.PersistAtMostOnce | src/main/java/com/seleritycorp/rds/downloader/RdsDataLifecycle.java:117-124 | singleRun calls the persister at most once, only with the data fetch() returned, and always, right after fetch()'s own events, when that data is non-null. |
| Lifecycle.NullDataNotPersisted | src/main/java/com/seleritycorp/rds/downloader/RdsDataLifecycle.java:119-120 | A null result is reported FAULTY with "Failed to receive good RDS data", and persist is not called. |
| Lifecycle.ReadyAfterPersistAppend | src/main/java/com/seleritycorp/rds/downloader/RdsDataLifecycle.java:121-124 | Appending a persist that returned normally, then READY, to events without READY puts READY only right after that persist. |
| Lifecycle.ReadyOnlyAfterPersist | src/main/java/com/seleritycorp/rds/downloader/RdsDataLifecycle.java:121-124 | READY appears only as the last event, right after a persist call that returned normally. |
| Lifecycle.ReadyIffPersisted | src/main/java/com/seleritycorp/rds/downloader/RdsDataLifecycle.java:117-124 | READY is reported if and only if fetch() returned data and persisting it returned normally. |
| Lifecycle.RunCatchesExceptions | src/main/java/com/seleritycorp/rds/downloader/RdsDataLifecycle.java:125-129 | Only a java.lang.Error escapes a run. A run that does not escape ends with a state push. An exception from fetch or persist is reported FAULTY with "Downloading/Persisting data failed: " + its toString(). |
| Lifecycle.FetchRetryScenario | src/test/java/com/seleritycorp/rds/downloader/RdsDataLifecycleTest.java:136-165 | A CallErrorException, then data, then a normal persist, give exactly: call, WARNING, sleep 180000, call, persist, READY. |
| Lifecycle.TimeUnitNamesRoundTrip | src/main/java/com/seleritycorp/rds/downloader/RdsDataLifecycle.java:82 | `TimeUnit.valueOf` and the constants' names are inverse, in both directions. |
| Lifecycle.ScheduleDefaults | src/main/java/com/seleritycorp/rds/downloader/RdsDataLifecycle.java:80-82 | Without configuration a run is scheduled every 3600 SECONDS; a configured unit name is used as it is. |
| Lifecycle.StartStopPreserve | src/main/java/com/seleritycorp/rds/downloader/RdsDataLifecycle.java:135-164 | start and stop keep the scheduler valid; stop after start shuts down exactly the new executor. |
| Lifecycle.StartTwiceLeaks | src/main/java/com/seleritycorp/rds/downloader/RdsDataLifecycle.java:143-163 | start twice, then stop once: the first executor is still live, and none is current. |
| Lifecycle.RdsDataLifecycle.constructor | src/main/java/com/seleritycorp/rds/downloader/RdsDataLifecycle.java:71-83 | The schedule is `ReadSchedule` of the "interval" and "intervalUnit" values (3600 SECONDS by default, see `ScheduleDefaults`); no executor, an empty trace. |
| Lifecycle.Create | src/main/java/com/seleritycorp/rds/downloader/RdsDataLifecycle.java:71-83 | Construction fails exactly when `ReadSchedule` does, with its IllegalArgumentException ("No enum constant java.util.concurrent.TimeUnit." + name); otherwise a fresh, stopped lifecycle with that schedule. |
| Lifecycle.RdsDataLifecycle.Fetch | src/main/java/com/seleritycorp/rds/downloader/RdsDataLifecycle.java:90-112 | The imperative fetch() appends exactly the events of `FetchSpec` to the trace and returns its outcome. |
| Lifecycle.RdsDataLifecycle.SingleRun | src/main/java/com/seleritycorp/rds/downloader/RdsDataLifecycle.java:114-130 | The imperative singleRun() appends exactly the events of `SingleRunSpec`; the throwable that escapes is the spec's. |
| Lifecycle.RdsDataLifecycle.Start | src/main/java/com/seleritycorp/rds/downloader/RdsDataLifecycle.java:135-156 | A new executor becomes current and live; the previous one is not shut down. |
| Lifecycle.RdsDataLifecycle.Stop | src/main/java/com/seleritycorp/rds/downloader/RdsDataLifecycle.java:161-164 | The current executor is shut down and cleared. Without one, stop throws a NullPointerException. |
| Cycle.TwoFailuresKeepEntries | src/main/java/com/seleritycorp/rds/downloader/RdsDataLifecycle.java:94-120 | Two caught failures leave the file system unchanged, let nothing escape, and give exactly the six events: the call, WARNING with the retry message, the sleep of 180000 ms, the call, FAULTY two-times, FAULTY no-data (so no persist call). |
| Cycle.ReadyMeansPublished | src/main/java/com/seleritycorp/rds/downloader/RdsDataLifecycle.java:117-124 | A cycle ends with READY if and only if data was fetched and its persist succeeded. Then the target holds exactly that data, serialised. |
| Cycle.TargetOldOrNew | src/main/java/com/seleritycorp/rds/downloader/RdsDataLifecycle.java:114-129 | With staging apart from the target, a cycle that does not end with READY leaves the target as it was. |
| Cycle.RecoveryPublishesCategories | src/test/java/com/seleritycorp/rds/downloader/RdsDataLifecycleTest.java:136-165 | A CallErrorException, then a successful fetch and persist, give exactly one WARNING, one persist and READY. The target then holds the array of wrapped answers, one per category, in order. |

## Left out

- Threads and timers: `start()` and `stop()` are a scheduler state machine over executor identities. The daemon thread factory, `scheduleAtFixedRate` and thread naming are not modelled, and neither is the scheduling of runs in time.
- `RdsDataDownloaderMain` (process bootstrap, injection, waiting on a lock) is not part of this model.
- The reference-data client is an oracle parameter; its transport is not modelled.
- JSON serialisation (Gson `toString`, UTF-8 encoding) is the `serialize` parameter of the persister; the data is one abstract `Json` type, so the JsonArray/JsonObject mismatch between the lifecycle and `persist` disappears.
- File-system atomicity and concurrent readers: the move is one map update, and `ReadersSeeOldOrNew` speaks of the states between calls only. Real rename semantics and reader interleavings are not modelled.
- Logging, `Config`, `ConfigUtils`, `ApplicationPaths` and injection: configuration values are `Option` parameters and the data root is a `Path` parameter.
- Sleeping is an event of the trace, not time.
- Lifecycle.ReadSchedule: the "interval" value is an `Option<int>`; a value that is not a number (`NumberFormatException` of `getInt`) is not modelled.
- Exceptions.NullPointer: the message of the NullPointerException from `Files.isDirectory(null)` and from `stop()` without executor is left as none.
- Persister.RdsDataPersister.Persist: the target is proved unchanged on failure only when the staging file is separated from the target. A configured `tmpTarget` equal to the target, or above it, is not excluded by the source, and then the proof does not apply.
- Persister.Separated: paths are compared as spelled. "." and ".." names, the working directory and symbolic links are not resolved, so two spellings of one file on disk are two entries of the model. For such a configuration (for example `tmpTarget` set to `rds/../rds/rds-data.json`, which names the default target) `Persister.Separated` holds while the program writes the target directly, and `Persister.PersistFailureKeepsTarget`, `Persister.ReadersSeeOldOrNew` and `Cycle.TargetOldOrNew` say nothing about the program.
- Lifecycle.RdsDataLifecycle.constructor: it requires a unit name `TimeUnit.valueOf` accepts; the throwing path of construction is `Lifecycle.Create`.
- WriterPersister.RdsDataWriterPersister.Persist: the guards' exception class is not visible in the test and is modelled as an IOException; the flush writes the sink's bytes into the staging file truncated by `getCleanWriter`, which is the same as appending to it.
- WriterPersister.RdsDataWriterPersister.GetCleanWriter: bytes written into a previous sink that was never persisted are dropped, not flushed.
- File-system details beyond what persist needs (permissions, symbolic links, disk-full and other I/O errors) are folded into "the call fails"; the model only fails a call for the structural reasons `Files` checks.
