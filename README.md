# Seedvault backup metadata and storage layout, in Dafny

This project models two parts of Seedvault, the Android backup application.

- **MetadataManager** (`metadata.dfy`, module `Metadata`). It holds the backup
  ledger: the backup token, the time of the last backup, and one entry per
  package recording its backup state, its system flag and its APK provenance.
  The ledger is read lazily from a private cache file. It is changed by four
  operations: device initialisation, APK backed up, package backed up and
  package backup error. Each commit goes first to a caller's output stream and
  then to the cache. A failed write rolls the ledger back to a snapshot. The
  two `PackageInfo` flag tests `isSystemApp` and `isUpdatedSystemApp` are here
  too.
- **DocumentsStorage** (`documents.dfy`, module `Documents`). It keeps the
  layout of a backup location in a storage-access-framework document tree:
  - the root `.SeedVaultAndroidBackup`, with a `.nomedia` file;
  - one directory per backup set, named by the decimal token;
  - the `full` and `kv` directories inside a set.

  Each handle is resolved lazily, found or created, and cached. A null handle
  is resolved again at its next read. The module also holds the
  `DocumentFile` extensions: `createOrGetFile`, `createOrGetDirectory`,
  `deleteContents`, `assertRightFile`, `listFilesBlocking` and
  `findFileBlocking`.

Two small modules support these. `Wrappers` provides `Option`, and a `Result`
carrying one of the three exceptions the code throws. `Decimal` provides
Kotlin's `Long` and `Long.toString()`, and proves that the rendering is
injective, so two tokens never share a set directory.

How the model works:

- **State is modelled as classes.** `BackupMetadata` is a class with a shared
  `PackageMetadataMap`. `MetadataManager`, `Document`, `SettingsManager` and
  `DocumentsStorage` are classes whose methods update their fields, as in the
  source.
- **Value semantics are functions.** What each mutation does to the ledger's
  value is a function (`Mutate` and the per-operation functions). The methods
  are proved against these functions.
- **Foreign calls are nondeterministic methods.** These are the metadata
  writer, the cache write, the provider's create and delete, and
  `getMetadataFromCache`'s decoding. Each may fail, and its contract says
  what holds in either case.
- **Inputs the code reads from outside are parameters:**
  - the clock reading `now`;
  - the cache file's content;
  - the provider's answers to the children queries (`answers(i)` is the
    cursor of the `i`-th query);
  - the moment the content observer fires (`loadedAt`).

The code and its description disagree in one place. The code is followed:

- `modifyMetadata` is described as reverting the ledger when a write fails.
  The snapshot it restores is `metadata.copy()`, a shallow data-class copy
  that shares the package map the mutation edited. The rollback therefore
  restores the token and the time only. The edits to entries survive, except
  after device initialisation, which replaced the whole object.
  `ShallowRollback` states this, and `RollbackKeepsNewEntry` shows an entry
  that survives.

## Model

| member | source | states |
|---|---|---|
| Decimal.NatToString | app/src/main/java/com/stevesoltys/seedvault/plugins/saf/DocumentsStorage.kt:75 | at least one character, all of them decimal digits; a single digit exactly for values below 10; the last digit is the value mod 10 |
| Decimal.LongToString | app/src/main/java/com/stevesoltys/seedvault/plugins/saf/DocumentsStorage.kt:75 | `Long.toString()`: non-empty; starts with a digit exactly when the value is non-negative, otherwise with a minus sign |
| Decimal.NatToStringInjective | app/src/main/java/com/stevesoltys/seedvault/plugins/saf/DocumentsStorage.kt:75 | two naturals with the same digits are equal (by induction on the digits) |
| Decimal.LongToStringInjective | app/src/main/java/com/stevesoltys/seedvault/plugins/saf/DocumentsStorage.kt:130 | two tokens with the same rendering are equal, so a set directory names exactly one token |
| Metadata.IsSystemApp | app/src/main/java/com/stevesoltys/seedvault/metadata/MetadataManager.kt:223-226 | true for the `@pm@` pseudo package and for a package without application info; otherwise exactly when the FLAG_SYSTEM bit is set |
| Metadata.IsUpdatedSystemApp | app/src/main/java/com/stevesoltys/seedvault/metadata/MetadataManager.kt:228-231 | never for the pseudo package or a package without application info; otherwise exactly when the FLAG_UPDATED_SYSTEM_APP bit is set |
| Metadata.FlagTestsIndependent | app/src/main/java/com/stevesoltys/seedvault/metadata/MetadataManager.kt:223-231 | the two tests read different bits: toggling FLAG_UPDATED_SYSTEM_APP never changes `isSystemApp`, toggling FLAG_SYSTEM never changes `isUpdatedSystemApp`, and `@pm@` is a system app and never an updated one |
| Metadata.Lookup | app/src/main/java/com/stevesoltys/seedvault/metadata/MetadataManager.kt:80-81 | `packageMetadataMap[name]`: present exactly when the name is a key, and then the stored entry |
| Metadata.DeviceInitialized | app/src/main/java/com/stevesoltys/seedvault/metadata/MetadataManager.kt:56-60 | `BackupMetadata(token = token)`: the given token, time 0, no packages |
| Metadata.ApkVersionAccepted | app/src/main/java/com/stevesoltys/seedvault/metadata/MetadataManager.kt:72-79 | a new package is always accepted; a null version is accepted only for a new package; an accepted version for a stored package with a version is strictly greater than it |
| Metadata.ApkBackupState | app/src/main/java/com/stevesoltys/seedvault/metadata/MetadataManager.kt:82-86 | the stored state is NotAllowed exactly when the supplied or the previous state is; it differs from the previous state only by moving to NotAllowed; it is never a new ApkAndData |
| Metadata.ApkEntry | app/src/main/java/com/stevesoltys/seedvault/metadata/MetadataManager.kt:80-95 | keeps the previous entry's time (0 for a new one); state by the NotAllowed rule; system flag from the package; version, installer, hash and signatures from the supplied metadata |
| Metadata.ApkBackedUp | app/src/main/java/com/stevesoltys/seedvault/metadata/MetadataManager.kt:87-96 | only the package's entry changes (added if new), it becomes `ApkEntry`, and token and time are kept |
| Metadata.BackedUpEntry | app/src/main/java/com/stevesoltys/seedvault/metadata/MetadataManager.kt:112-121 | the entry gets time `now` and ApkAndData; a stored entry keeps its system flag, version and provenance; a new entry carries only time, state and the package's system flag |
| Metadata.PackageBackedUp | app/src/main/java/com/stevesoltys/seedvault/metadata/MetadataManager.kt:107-123 | only the package's entry changes, to `BackedUpEntry`; the ledger's time becomes `now`; the token is kept |
| Metadata.ErrorEntry | app/src/main/java/com/stevesoltys/seedvault/metadata/MetadataManager.kt:137-145 | a stored entry changes only its state; a new entry has time 0, the state and the package's system flag |
| Metadata.PackageBackupError | app/src/main/java/com/stevesoltys/seedvault/metadata/MetadataManager.kt:133-147 | only the package's entry changes, to `ErrorEntry`; token and time are kept |
| Metadata.Mutate | app/src/main/java/com/stevesoltys/seedvault/metadata/MetadataManager.kt:56-147 | the value each `modFun` body leaves: device initialisation gives the empty ledger for its token; every other body changes only its package's entry, to the stored APK entry, to time `now` (with the ledger's time `now`), or to the reported state |
| Metadata.ShallowRollback | app/src/main/java/com/stevesoltys/seedvault/metadata/MetadataManager.kt:150-161 | after a failed write the token and time are the snapshot's; device initialisation is undone entirely; any other mutation keeps its package-map edits |
| Metadata.ApkBackupOutcome | app/src/main/java/com/stevesoltys/seedvault/metadata/MetadataManager.kt:70-79 | fails exactly when a stored package gets a null version or one not above the stored version, and then with IllegalStateException |
| Metadata.ApkVersionsStrictlyIncrease | app/src/main/java/com/stevesoltys/seedvault/metadata/MetadataManager.kt:70-97 | along accepted APK backups of a package, every version after the first is present and strictly greater than the one before; the ledger ends with the last version supplied |
| Metadata.ApkVersionScenario | app/src/main/java/com/stevesoltys/seedvault/metadata/MetadataManager.kt:72-79 | after version 3 is stored, version 2 is refused with IllegalStateException and version 5 is accepted and stored |
| Metadata.ApkBackupStateRule | app/src/main/java/com/stevesoltys/seedvault/metadata/MetadataManager.kt:82-95 | an APK backup never sets ApkAndData unless it was already stored; a supplied NotAllowed is always adopted; any other supplied state leaves the previous state (UnknownError for a new package) |
| Metadata.NotBackedUp | app/src/main/java/com/stevesoltys/seedvault/metadata/MetadataManager.kt:191-193 | the filter: a system package or one in state ApkAndData is never counted, and every other package is |
| Metadata.NumNotBackedUp | app/src/main/java/com/stevesoltys/seedvault/metadata/MetadataManager.kt:190-194 | an empty ledger counts 0; a positive count has a counted package behind it |
| Metadata.NotBackedUpKeys | app/src/main/java/com/stevesoltys/seedvault/metadata/MetadataManager.kt:190-194 | exactly the packages that are neither system packages nor in state ApkAndData |
| Metadata.NumNotBackedUpBounded | app/src/main/java/com/stevesoltys/seedvault/metadata/MetadataManager.kt:190-194 | the count never exceeds the number of packages |
| Metadata.NumNotBackedUpZero | app/src/main/java/com/stevesoltys/seedvault/metadata/MetadataManager.kt:190-194 | the count is 0 exactly when every package is a system package or fully backed up |
| Metadata.NotBackedUpKeysUpdate | app/src/main/java/com/stevesoltys/seedvault/metadata/MetadataManager.kt:191-193 | setting one entry removes that key from the counted set and re-adds it exactly when the new entry is counted |
| Metadata.NumNotBackedUpUpdate | app/src/main/java/com/stevesoltys/seedvault/metadata/MetadataManager.kt:190-194 | setting one entry changes the count by what that entry contributes before and after |
| Metadata.NumNotBackedUpAdd | app/src/main/java/com/stevesoltys/seedvault/metadata/MetadataManager.kt:190-194 | a new system package leaves the count alone; a new non-system package that is not fully backed up raises it by one |
| Metadata.BackedUpLeavesCount | app/src/main/java/com/stevesoltys/seedvault/metadata/MetadataManager.kt:112-121 | a data backup takes its package out of the count if it was in it, and changes nothing else in the count |
| Metadata.BackupErrorCount | app/src/main/java/com/stevesoltys/seedvault/metadata/MetadataManager.kt:136-145 | after an error a stored package is counted exactly when it is not a system package; a new package raises the count by one unless it is a system package |
| Metadata.RollbackKeepsNewEntry | app/src/main/java/com/stevesoltys/seedvault/metadata/MetadataManager.kt:151-159 | a failed commit of an error report for an unknown package still leaves that package in the ledger |
| Metadata.BackupMetadata.Copy | app/src/main/java/com/stevesoltys/seedvault/metadata/MetadataManager.kt:151 | `copy()`: a new object with the same value that shares the package map |
| Metadata.WriteMetadata | app/src/main/java/com/stevesoltys/seedvault/metadata/MetadataManager.kt:154 | either the whole ledger reaches the stream, or an IOException and the stream got no complete ledger |
| Metadata.MetadataManager.constructor | app/src/main/java/com/stevesoltys/seedvault/metadata/MetadataManager.kt:33-34 | the ledger starts as the sentinel `BackupMetadata(token = 0L)` |
| Metadata.MetadataManager.IsUninitialized | app/src/main/java/com/stevesoltys/seedvault/metadata/MetadataManager.kt:33-36 | the getter's `field == uninitializedMetadata` is structural equality, and the sentinel object itself always satisfies it |
| Metadata.MetadataManager.Loaded | app/src/main/java/com/stevesoltys/seedvault/metadata/MetadataManager.kt:35-46 | what the getter delivers: a ledger not equal to the sentinel as it is; otherwise the cache's; an AssertionError exactly when the ledger equals the sentinel and the cache cannot be decoded |
| Metadata.MetadataManager.Committed | app/src/main/java/com/stevesoltys/seedvault/metadata/MetadataManager.kt:153-154 | the ledger the write reads through the getter: the body's result, unless that result equals the sentinel, when the cache's ledger replaces it; an AssertionError exactly when it equals the sentinel and the cache cannot be decoded |
| Metadata.MetadataManager.CommitOwnResult | app/src/main/java/com/stevesoltys/seedvault/metadata/MetadataManager.kt:150-155 | a body other than device initialisation commits its own result while the sentinel is untouched, unless the ledger shares the sentinel's map and the cache file exists |
| Metadata.MetadataManager.InitializationCommit | app/src/main/java/com/stevesoltys/seedvault/metadata/MetadataManager.kt:56-60 | initialising with a non-zero token commits the empty ledger for it; with token 0 the new ledger equals the sentinel, so the cache's ledger is committed (the empty one if the file is missing, an AssertionError if it cannot be decoded) |
| Metadata.MetadataManager.GetMetadataFromCache | app/src/main/java/com/stevesoltys/seedvault/metadata/MetadataManager.kt:198-210 | a missing file gives the sentinel; a SecurityException gives null; unreadable bytes an IOException; otherwise a fresh ledger equal to the stored one |
| Metadata.MetadataManager.LoadMetadata | app/src/main/java/com/stevesoltys/seedvault/metadata/MetadataManager.kt:34-46 | a ledger equal to the sentinel is replaced by the cache's and its time is posted; an unreadable cache (null or IOException) is an AssertionError that changes nothing; a missing cache leaves the sentinel |
| Metadata.MetadataManager.WriteMetadataToCache | app/src/main/java/com/stevesoltys/seedvault/metadata/MetadataManager.kt:215-219 | the cache holds the ledger, or an IOException is raised |
| Metadata.MetadataManager.Apply | app/src/main/java/com/stevesoltys/seedvault/metadata/MetadataManager.kt:109-122 | each mutation body leaves the ledger value `Mutate` prescribes; device initialisation installs a fresh object, and the others edit the current one in place |
| Metadata.MetadataManager.ModifyMetadata | app/src/main/java/com/stevesoltys/seedvault/metadata/MetadataManager.kt:150-163 | the committed ledger (`Committed`) is in the stream and the cache and its time is posted; an AssertionError from the getter at the write escapes without rollback; an IOException leaves the shallow rollback, posts nothing new but a re-hydration, and the stream holds at most the committed ledger |
| Metadata.MetadataManager.SnapshotAndApply | app/src/main/java/com/stevesoltys/seedvault/metadata/MetadataManager.kt:151-153 | the snapshot is a fresh object holding the shallow rollback; the ledger is the body's result; whether the getter at the write hydrates again, and what it then delivers, are `RehydratesAfter` and `Committed` of the state before |
| Metadata.MetadataManager.CommitOrRestore | app/src/main/java/com/stevesoltys/seedvault/metadata/MetadataManager.kt:154-162 | an unreadable cache at the getter is an AssertionError that changes nothing; success writes the delivered ledger to the stream and the cache and posts its time; an IOException restores the snapshot |
| Metadata.MetadataManager.OnDeviceInitialization | app/src/main/java/com/stevesoltys/seedvault/metadata/MetadataManager.kt:56-60 | an unreadable cache fails with AssertionError and touches nothing; a non-zero token makes the ledger, stream and cache the empty ledger for it; token 0 commits the cache file's ledger instead; an IOException leaves the loaded ledger |
| Metadata.MetadataManager.OnApkBackedUp | app/src/main/java/com/stevesoltys/seedvault/metadata/MetadataManager.kt:70-97 | the version guard refuses with IllegalStateException and changes nothing but the hydration; an accepted backup goes through `ModifyMetadata` with the stored APK entry, which commits `ApkBackedUp` in the ordinary case; a failed write restores token and time only |
| Metadata.MetadataManager.OnPackageBackedUp | app/src/main/java/com/stevesoltys/seedvault/metadata/MetadataManager.kt:107-123 | goes through `ModifyMetadata` with the data backup at `now`, which commits `PackageBackedUp` and posts `now` in the ordinary case; a failed write restores token and time only |
| Metadata.MetadataManager.OnPackageBackupError | app/src/main/java/com/stevesoltys/seedvault/metadata/MetadataManager.kt:133-147 | state ApkAndData is refused with IllegalStateException before the ledger is read; otherwise goes through `ModifyMetadata`, which commits `PackageBackupError` in the ordinary case |
| Metadata.MetadataManager.GetBackupToken | app/src/main/java/com/stevesoltys/seedvault/metadata/MetadataManager.kt:171 | the loaded ledger's token, after which the ledger is loaded; AssertionError for an unreadable cache |
| Metadata.MetadataManager.GetPackageMetadata | app/src/main/java/com/stevesoltys/seedvault/metadata/MetadataManager.kt:185-187 | the loaded ledger's entry for the name, or none |
| Metadata.MetadataManager.GetPackagesNumNotBackedUp | app/src/main/java/com/stevesoltys/seedvault/metadata/MetadataManager.kt:190-194 | the number of loaded entries that are neither system packages nor fully backed up |
| Metadata.InitializeThenReadToken | app/src/main/java/com/stevesoltys/seedvault/metadata/MetadataManager.kt:48-60 | after a successful device initialisation with a non-zero token the token read back is that token; with token 0 it is the token of the ledger the cache file held |
| Documents.FirstNamed | app/src/main/java/com/stevesoltys/seedvault/plugins/saf/DocumentsStorage.kt:164 | the index of the first document with the name: it has the name and none before it does; none when no document has it |
| Documents.FirstNamedAppend | app/src/main/java/com/stevesoltys/seedvault/plugins/saf/DocumentsStorage.kt:162-165 | appending a document keeps an earlier match, and otherwise finds the new document exactly when it has the name |
| Documents.FindFile | app/src/main/java/com/stevesoltys/seedvault/plugins/saf/DocumentsStorage.kt:164 | `findFile(name)`: the first child with that name (no earlier child has it); null exactly when no child has it |
| Documents.FindChild | app/src/main/java/com/stevesoltys/seedvault/plugins/saf/DocumentsStorage.kt:130 | `dir?.findFile(name)`: null for a null directory, otherwise `findFile` |
| Documents.FindFileAfterCreate | app/src/main/java/com/stevesoltys/seedvault/plugins/saf/DocumentsStorage.kt:162-165 | once a child with a new name is appended, looking the name up finds that child |
| Documents.CreateDocument | app/src/main/java/com/stevesoltys/seedvault/plugins/saf/DocumentsStorage.kt:164 | `createFile`: a fresh, empty document with the name and MIME type appended to the parent, or null and nothing changed |
| Documents.CreateOrGetFile | app/src/main/java/com/stevesoltys/seedvault/plugins/saf/DocumentsStorage.kt:162-165 | an existing child with the name is returned and nothing changes; otherwise a fresh empty document is appended; the provider's refusal is an IOException that changes nothing; the result is what `findFile` now finds |
| Documents.CreateOrGetDirectory | app/src/main/java/com/stevesoltys/seedvault/plugins/saf/DocumentsStorage.kt:167-170 | as `CreateOrGetFile`, with the directory MIME type |
| Documents.CreateOrGetDirectoryTwice | app/src/main/java/com/stevesoltys/seedvault/plugins/saf/DocumentsStorage.kt:167-170 | a second find-or-create returns the first one's directory, and the two calls add at most one child |
| Documents.Kept | app/src/main/java/com/stevesoltys/seedvault/plugins/saf/DocumentsStorage.kt:172-175 | every child whose deletion failed is kept, every kept document is such a child, and nothing is added |
| Documents.KeptAppend | app/src/main/java/com/stevesoltys/seedvault/plugins/saf/DocumentsStorage.kt:174 | one more listed child is kept exactly when its deletion failed |
| Documents.KeptExtremes | app/src/main/java/com/stevesoltys/seedvault/plugins/saf/DocumentsStorage.kt:172-175 | when every deletion succeeds the directory is empty; when none does it is unchanged |
| Documents.Delete | app/src/main/java/com/stevesoltys/seedvault/plugins/saf/DocumentsStorage.kt:174 | `delete()`: the child is removed from its place, or the call returns false and nothing changes |
| Documents.DeleteContents | app/src/main/java/com/stevesoltys/seedvault/plugins/saf/DocumentsStorage.kt:172-175 | one deletion attempt per child listed at the start, in order; the directory keeps exactly the children whose deletion failed |
| Documents.AssertRightFile | app/src/main/java/com/stevesoltys/seedvault/plugins/saf/DocumentsStorage.kt:177-179 | succeeds exactly when the document is named after the package, otherwise AssertionError |
| Documents.Handle | app/src/main/java/com/stevesoltys/seedvault/plugins/saf/DocumentsStorage.kt:218-230 | a listed row becomes a handle with its id and name; a tree handle exactly when the MIME type is the directory type |
| Documents.AwaitLoaded | app/src/main/java/com/stevesoltys/seedvault/plugins/saf/DocumentsStorage.kt:205-210 | the wait is a whole number of 50 ms sleeps and at most two minutes; exiting before the timeout means the observer fired; it fired at no earlier poll |
| Documents.ListedCursor | app/src/main/java/com/stevesoltys/seedvault/plugins/saf/DocumentsStorage.kt:193-217 | a null first answer is listed as a failure with no second query; a first answer that is not loading is listed; a loading one is replaced by the second answer |
| Documents.ListFilesBlocking | app/src/main/java/com/stevesoltys/seedvault/plugins/saf/DocumentsStorage.kt:186-233 | a second query happens exactly when the first was loading; a null cursor is an IOException; otherwise one handle per row of the cursor, in order |
| Documents.FindFileBlocking | app/src/main/java/com/stevesoltys/seedvault/plugins/saf/DocumentsStorage.kt:235-246 | the first listed child with the display name; null when listing failed or no row has the name |
| Documents.ResolveChildDir | app/src/main/java/com/stevesoltys/seedvault/plugins/saf/DocumentsStorage.kt:97-108 | the guarded `createOrGetDirectory` of the getters: an existing child is returned; a result is what `findFile` finds and was known or is fresh and empty; null only when no child has the name; only the parent gains children, after the ones it had |
| Documents.ResolveRootDir | app/src/main/java/com/stevesoltys/seedvault/plugins/saf/DocumentsStorage.kt:47-62 | a result is the parent's `.SeedVaultAndroidBackup` child and holds a `.nomedia` file; null only when that child or its `.nomedia` file is missing; only the parent and the result gain children |
| Documents.SettingsManager.GetAndResetIsStorageChanging | app/src/main/java/com/stevesoltys/seedvault/plugins/saf/DocumentsStorage.kt:111 | returns the flag and clears it |
| Documents.DocumentsStorage.constructor | app/src/main/java/com/stevesoltys/seedvault/plugins/saf/DocumentsStorage.kt:36-39 | every handle starts unresolved and the token at 0 |
| Documents.DocumentsStorage.GetStorage | app/src/main/java/com/stevesoltys/seedvault/plugins/saf/DocumentsStorage.kt:41-45 | the cached location, else the settings' location, now cached |
| Documents.DocumentsStorage.GetRootBackupDir | app/src/main/java/com/stevesoltys/seedvault/plugins/saf/DocumentsStorage.kt:47-62 | a cached root is returned and the tree is untouched; without storage null; a new root is the storage document's `.SeedVaultAndroidBackup` child holding `.nomedia`; null only without storage or when that child or its `.nomedia` is missing; only the storage document and the root gain children |
| Documents.DocumentsStorage.GetCurrentToken | app/src/main/java/com/stevesoltys/seedvault/plugins/saf/DocumentsStorage.kt:64-68 | a non-zero token is returned without reading the ledger; a 0 token is replaced by the ledger's token, or the ledger's AssertionError |
| Documents.DocumentsStorage.GetCurrentSetDir | app/src/main/java/com/stevesoltys/seedvault/plugins/saf/DocumentsStorage.kt:70-82 | a cached set directory is returned; with token 0 null and nothing created; otherwise the root's child named by the token; null only as `SetDirMissing` says; an AssertionError exactly when the token is 0 and the ledger cannot be read; only the layout directories gain children, and cached ones stay cached |
| Documents.DocumentsStorage.ResolveSetDir | app/src/main/java/com/stevesoltys/seedvault/plugins/saf/DocumentsStorage.kt:72-80 | the uncached branch: an AssertionError exactly when the token is 0 and the ledger cannot be read; token 0 gives null; otherwise the root's child named by the token, or null only as `SetDirMissing` says |
| Documents.DocumentsStorage.CreateSetDir | app/src/main/java/com/stevesoltys/seedvault/plugins/saf/DocumentsStorage.kt:74-79 | with a non-zero token, the root's child named by it, found or created, or null only as `SetDirMissing` says; only the storage document, the root and the set directory gain children |
| Documents.DocumentsStorage.GetCurrentKvBackupDir | app/src/main/java/com/stevesoltys/seedvault/plugins/saf/DocumentsStorage.kt:97-108 | a cached handle is returned and the tree untouched; otherwise the set directory's `kv` child found or created; null only without a set directory or when it has no `kv`; an AssertionError exactly when nothing is cached, the token is 0 and the ledger cannot be read; only the layout directories gain children |
| Documents.DocumentsStorage.GetCurrentFullBackupDir | app/src/main/java/com/stevesoltys/seedvault/plugins/saf/DocumentsStorage.kt:84-95 | as `GetCurrentKvBackupDir`, for `full` |
| Documents.DocumentsStorage.ResolveInSetDir | app/src/main/java/com/stevesoltys/seedvault/plugins/saf/DocumentsStorage.kt:84-108 | the uncached branch of both getters: the set directory's child with the name, found or created; null only without a set directory or when it has no such child; the same AssertionError condition |
| Documents.DocumentsStorage.IsInitialized | app/src/main/java/com/stevesoltys/seedvault/plugins/saf/DocumentsStorage.kt:110-115 | false, touching nothing, when the storage had changed (the flag is cleared); otherwise true exactly when both `kv` and `full` resolve and are empty; an AssertionError exactly when nothing is cached, the token is 0 and the ledger cannot be read; cached handles stay; only the layout directories gain children |
| Documents.DocumentsStorage.BothEmpty | app/src/main/java/com/stevesoltys/seedvault/plugins/saf/DocumentsStorage.kt:112-114 | resolves `kv`, then `full`: true exactly when both resolve and are empty; the same AssertionError condition; cached handles stay |
| Documents.DocumentsStorage.GetSetDir | app/src/main/java/com/stevesoltys/seedvault/plugins/saf/DocumentsStorage.kt:128-131 | the current set directory for the current token (null only as `SetDirMissing` says); for another token the root's child named by it, looked up only; an AssertionError exactly when the token is 0 and the ledger cannot be read |
| Documents.DocumentsStorage.LookUpSetDir | app/src/main/java/com/stevesoltys/seedvault/plugins/saf/DocumentsStorage.kt:130 | the root's child named by the token, looked up only; a cached root means an untouched tree |
| Documents.DocumentsStorage.GetKVBackupDir | app/src/main/java/com/stevesoltys/seedvault/plugins/saf/DocumentsStorage.kt:133-136 | the current `kv` handle for the current token; an IOException only when it is null because there is no set directory or it has no `kv`; for another token that set's `kv` child, looked up only; an AssertionError exactly when the token is 0 and the ledger cannot be read |
| Documents.DocumentsStorage.GetOrCreateKVBackupDir | app/src/main/java/com/stevesoltys/seedvault/plugins/saf/DocumentsStorage.kt:138-143 | the current `kv` handle, or an IOException only when there is no set directory or it has no `kv`; for another token that set must exist, and its `kv` child is found or created, an IOException only when it is still missing; an AssertionError exactly when the token is 0 and the ledger cannot be read |
| Documents.DocumentsStorage.CreateKvInOtherSet | app/src/main/java/com/stevesoltys/seedvault/plugins/saf/DocumentsStorage.kt:141-142 | the token's set directory's `kv` child, found or created; an IOException, and no other error, only when the set directory or its `kv` child is missing; only the layout directories and that set directory gain children |
| Documents.DocumentsStorage.GetFullBackupDir | app/src/main/java/com/stevesoltys/seedvault/plugins/saf/DocumentsStorage.kt:145-148 | as `GetKVBackupDir`, for `full` |
| Documents.DocumentsStorage.Reset | app/src/main/java/com/stevesoltys/seedvault/plugins/saf/DocumentsStorage.kt:117-124 | every handle is forgotten and the token is the new one |
| Documents.ResetThenResolveSetDir | app/src/main/java/com/stevesoltys/seedvault/plugins/saf/DocumentsStorage.kt:117-131 | after `reset(token)` with a non-zero token, the set directory resolves without a ledger read, to the root's child named by that token |

## Left out

- Android context, URIs and locking. `Context`, content URIs and
  `getAuthority()` are not modelled. Neither are `getInputStream` and
  `getOutputStream`, which only open streams through the content resolver.
  The `@Synchronized` locking is absent, because the model is sequential.
- `lastBackupTime` and `getLastBackupTime()`. The LiveData and the
  `distinctUntilChanged` view are left out. The values posted to it are kept
  as a ghost sequence `posted`.
- Clock and codec. The clock is the parameter `now`. `MetadataWriter` and
  `MetadataReader` are abstracted: the cache holds a ledger value, or bytes
  the reader rejects with a SecurityException or an IOException. Encoding and
  encryption are not modelled.
- Metadata.MetadataManager.LoadMetadata: the getter of `metadata` runs at
  every access. The model runs it at the first access of each operation and at
  the write in `modifyMetadata`, where a body that leaves a ledger equal to the
  sentinel is replaced by the cache's ledger. The accesses inside
  `writeMetadataToCache` and at the final `postValue` are not re-hydrated.
  They differ from the model only when the ledger still equals the sentinel
  there, that is, when the re-hydration at the write found no cache file.
- The wait in `listFilesBlocking` runs without threads. `Thread.sleep`, the
  observer thread and `closeQuietly` are replaced by the oracle `loadedAt`.
  The model does not capture a race between the flag and the loop.
- Display names in listings. `findFileBlocking` compares `DocumentFile.name`,
  which the platform queries separately. The model takes it from each row's
  display name.
- Names on creation. The provider is taken to create a document under exactly
  the requested name. A provider that renames on a clash, such as
  `kv (1)`, is not modelled.
- `findFile`, `listFiles()` and the provider's use of them. `isInitialized`
  and `deleteContents` use `listFiles()`, and the getters use `findFile`. Both
  are non-blocking queries of the provider, modelled as the directory's
  current children.
- The SettingsManager and `Storage` are collaborators. Only the chosen
  location, its document and the "storage changing" flag are modelled.
  `Storage.getDocumentFile(context)` is the `document` field.
- Default token arguments. `getSetDir()`, `getKVBackupDir()`,
  `getOrCreateKVBackupDir()` and `getFullBackupDir()` default their token to
  the `currentToken` getter. A caller using the default passes the value
  `GetCurrentToken` returns.
- Documents.DocumentsStorage.IsInitialized: does not state that a set
  directory created during the same call makes the result true. The freshly
  created `kv` and `full` directories are empty. The contract does not carry
  that emptiness through the getters.
- Documents.DocumentsStorage.GetOrCreateKVBackupDir: does not state that its
  result leaves the token settled for later reads, unlike the other getters.
- Assumed definitions. These come from outside the two files, and the model
  uses the platform's and the application's values:
  - `MAGIC_PACKAGE_MANAGER` = `@pm@`;
  - `ApplicationInfo.FLAG_SYSTEM` = bit 0, and `FLAG_UPDATED_SYSTEM_APP` = bit 7;
  - `DocumentsContract.Document.MIME_TYPE_DIR` = `vnd.android.document/directory`;
  - the states of `PackageState`;
  - the default `PackageMetadata()`: time 0, state UnknownError, not a system
    package, and no version or provenance.
- Entries as values. Package entries are stored as values in the shared map.
  `onPackageBackedUp` edits an entry object in place. The model replaces the
  entry instead. This is the same thing here, because entries are reachable
  only through the map.
