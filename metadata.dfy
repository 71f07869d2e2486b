/** The metadata ledger of MetadataManager.kt: per-package backup state, the rules
    by which the four mutations change it, and the manager that hydrates it lazily
    from a cache file and commits every mutation to a caller's sink and to that
    cache. */
module Metadata {
  import opened Wrappers
  import opened Decimal

  // ---------------------------------------------------------------------------
  // Package descriptors and the two flag predicates (MetadataManager.kt:223-231)
  // ---------------------------------------------------------------------------

  /** The package name under which the platform's package-manager metadata is backed up. */
  const MAGIC_PACKAGE_MANAGER: string := "@pm@"
  /** ApplicationInfo.FLAG_SYSTEM (bit 0). */
  const FLAG_SYSTEM: bv32 := 1
  /** ApplicationInfo.FLAG_UPDATED_SYSTEM_APP (bit 7). */
  const FLAG_UPDATED_SYSTEM_APP: bv32 := 0x80

  datatype ApplicationInfo = ApplicationInfo(flags: bv32)

  /** The part of an installed package's PackageInfo that the ledger reads. */
  datatype PackageInfo = PackageInfo(packageName: string, applicationInfo: Option<ApplicationInfo>)

  /** `PackageInfo.isSystemApp()`: the package-manager pseudo package and packages
      without application info count as system; otherwise bit 0 of the flags decides. */
  function IsSystemApp(info: PackageInfo): (r: bool)
    ensures info.packageName == MAGIC_PACKAGE_MANAGER ==> r
    ensures info.applicationInfo.None? ==> r
    ensures info.packageName != MAGIC_PACKAGE_MANAGER && info.applicationInfo.Some? ==>
              (r <==> info.applicationInfo.value.flags & FLAG_SYSTEM == FLAG_SYSTEM)
  {
    if info.packageName == MAGIC_PACKAGE_MANAGER || info.applicationInfo.None? then true
    else info.applicationInfo.value.flags & FLAG_SYSTEM != 0
  }

  /** `PackageInfo.isUpdatedSystemApp()`: never for the pseudo package or a package
      without application info; otherwise bit 7 of the flags decides. */
  function IsUpdatedSystemApp(info: PackageInfo): (r: bool)
    ensures r ==> info.packageName != MAGIC_PACKAGE_MANAGER && info.applicationInfo.Some?
    ensures info.packageName != MAGIC_PACKAGE_MANAGER && info.applicationInfo.Some? ==>
              (r <==> info.applicationInfo.value.flags & FLAG_UPDATED_SYSTEM_APP == FLAG_UPDATED_SYSTEM_APP)
  {
    if info.packageName == MAGIC_PACKAGE_MANAGER || info.applicationInfo.None? then false
    else info.applicationInfo.value.flags & FLAG_UPDATED_SYSTEM_APP != 0
  }

  /** The two tests read different bits of the same flags: setting or clearing
      FLAG_UPDATED_SYSTEM_APP never changes `isSystemApp`, setting or clearing
      FLAG_SYSTEM never changes `isUpdatedSystemApp`, and the pseudo package is a
      system app that is never an updated one, whatever its flags. */
  lemma FlagTestsIndependent(name: string, flags: bv32)
    ensures IsSystemApp(PackageInfo(name, Some(ApplicationInfo(flags | FLAG_UPDATED_SYSTEM_APP)))) ==
            IsSystemApp(PackageInfo(name, Some(ApplicationInfo(flags & !FLAG_UPDATED_SYSTEM_APP))))
    ensures IsUpdatedSystemApp(PackageInfo(name, Some(ApplicationInfo(flags | FLAG_SYSTEM)))) ==
            IsUpdatedSystemApp(PackageInfo(name, Some(ApplicationInfo(flags & !FLAG_SYSTEM))))
    ensures var pm := PackageInfo(MAGIC_PACKAGE_MANAGER, Some(ApplicationInfo(flags)));
              IsSystemApp(pm) && !IsUpdatedSystemApp(pm)
  {
  }

  // ---------------------------------------------------------------------------
  // Ledger values
  // ---------------------------------------------------------------------------

  /** Why a package is, or is not, fully backed up. ApkAndData is the only success. */
  datatype PackageState = ApkAndData | NoData | WasStopped | NotAllowed | QuotaExceeded | UnknownError

  /** The state of a `PackageMetadata()` built without arguments. */
  const DEFAULT_STATE: PackageState := UnknownError

  datatype PackageMetadata = PackageMetadata(
    time: Long,
    state: PackageState,
    system: bool,
    version: Option<Long>,
    installer: Option<string>,
    sha256: Option<string>,
    signatures: Option<seq<string>>)

  /** `PackageMetadata()`: never backed up, nothing known about its APK. */
  const DEFAULT_PACKAGE_METADATA: PackageMetadata :=
    PackageMetadata(0, DEFAULT_STATE, false, None, None, None, None)

  /** The observable content of a `BackupMetadata`: what a reader of the ledger sees
      and what the writer persists. */
  datatype Ledger = Ledger(token: Long, time: Long, packages: map<string, PackageMetadata>)

  function Lookup(l: Ledger, name: string): (r: Option<PackageMetadata>)
    ensures r.Some? <==> name in l.packages
    ensures r.Some? ==> r.value == l.packages[name]
  {
    if name in l.packages then Some(l.packages[name]) else None
  }

  /** The result of `l` after a change that touches at most the entry `name`. */
  ghost predicate OnlyEntryChanged(l: Ledger, r: Ledger, name: string) {
    && r.token == l.token
    && r.packages.Keys == l.packages.Keys + {name}
    && forall k :: k in l.packages && k != name ==> r.packages[k] == l.packages[k]
  }

  // ---------------------------------------------------------------------------
  // The mutations as functions on ledger values
  // ---------------------------------------------------------------------------

  /** The ledger `onDeviceInitialization(token, ..)` installs: `BackupMetadata(token = token)`. */
  function DeviceInitialized(token: Long): (r: Ledger)
    ensures r.token == token && r.time == 0 && |r.packages| == 0
  {
    Ledger(token, 0, map[])
  }

  /** The version guard of `onApkBackedUp`: a package already in the ledger must be
      given a non-null version strictly greater than any version stored for it. */
  predicate ApkVersionAccepted(stored: Option<PackageMetadata>, supplied: PackageMetadata)
    ensures stored.None? ==> ApkVersionAccepted(stored, supplied)
    ensures supplied.version.None? ==> (ApkVersionAccepted(stored, supplied) <==> stored.None?)
    ensures ApkVersionAccepted(stored, supplied) && stored.Some? && stored.value.version.Some? ==>
              supplied.version.Some? && stored.value.version.value < supplied.version.value
  {
    stored.Some? ==>
      && supplied.version.Some?
      && (stored.value.version.None? || stored.value.version.value < supplied.version.value)
  }

  /** The state `onApkBackedUp` stores: only a move into NotAllowed is adopted from
      the supplied metadata, otherwise the previous state is kept. */
  function ApkBackupState(supplied: PackageState, previous: PackageState): (s: PackageState)
    ensures s == NotAllowed <==> supplied == NotAllowed || previous == NotAllowed
    ensures s != previous ==> s == NotAllowed && supplied == NotAllowed
    ensures s == ApkAndData ==> previous == ApkAndData
  {
    if supplied == NotAllowed then supplied else previous
  }

  /** The entry `onApkBackedUp` stores: a copy of the stored entry (or of
      `PackageMetadata()`) that keeps only its time, takes the system flag from the
      package and version and provenance from the supplied metadata. */
  function ApkEntry(stored: Option<PackageMetadata>, info: PackageInfo, supplied: PackageMetadata): (e: PackageMetadata)
    ensures e.time == (if stored.Some? then stored.value.time else 0)
    ensures e.state == ApkBackupState(supplied.state, if stored.Some? then stored.value.state else DEFAULT_STATE)
    ensures e.system == IsSystemApp(info)
    ensures e.version == supplied.version && e.installer == supplied.installer
    ensures e.sha256 == supplied.sha256 && e.signatures == supplied.signatures
  {
    var previous := if stored.Some? then stored.value else DEFAULT_PACKAGE_METADATA;
    previous.(state := ApkBackupState(supplied.state, previous.state),
         system := IsSystemApp(info),
         version := supplied.version,
         installer := supplied.installer,
         sha256 := supplied.sha256,
         signatures := supplied.signatures)
  }

  /** The ledger after `onApkBackedUp` has passed its guard and committed. */
  function ApkBackedUp(l: Ledger, info: PackageInfo, supplied: PackageMetadata): (r: Ledger)
    ensures OnlyEntryChanged(l, r, info.packageName) && r.time == l.time
    ensures r.packages[info.packageName] == ApkEntry(Lookup(l, info.packageName), info, supplied)
  {
    Mutate(l, ApkStore(l, info, supplied))
  }

  /** The body `onApkBackedUp` hands to `modifyMetadata` for the ledger `l`. */
  function ApkStore(l: Ledger, info: PackageInfo, supplied: PackageMetadata): Mutation {
    StoreApk(info.packageName, ApkEntry(Lookup(l, info.packageName), info, supplied))
  }

  /** The entry `onPackageBackedUp` leaves: the stored entry with the new time and
      ApkAndData, or a new entry with only those and the package's system flag. */
  function BackedUpEntry(stored: Option<PackageMetadata>, info: PackageInfo, now: Long): (e: PackageMetadata)
    ensures e.time == now && e.state == ApkAndData
    ensures stored.Some? ==> e.system == stored.value.system && e.version == stored.value.version
    ensures stored.Some? ==> e.installer == stored.value.installer && e.sha256 == stored.value.sha256
    ensures stored.Some? ==> e.signatures == stored.value.signatures
    ensures stored.None? ==> e == DEFAULT_PACKAGE_METADATA.(time := now, state := ApkAndData, system := IsSystemApp(info))
  {
    if stored.Some? then stored.value.(time := now).(state := ApkAndData)
    else PackageMetadata(now, ApkAndData, IsSystemApp(info), None, None, None, None)
  }

  /** The ledger after `onPackageBackedUp` committed with clock reading `now`. */
  function PackageBackedUp(l: Ledger, info: PackageInfo, now: Long): (r: Ledger)
    ensures OnlyEntryChanged(l, r, info.packageName) && r.time == now
    ensures r.packages[info.packageName] == BackedUpEntry(Lookup(l, info.packageName), info, now)
  {
    Mutate(l, MarkBackedUp(info, now))
  }

  /** The entry `onPackageBackupError` leaves: only the state of a stored entry
      changes; a new entry has time 0, the state and the package's system flag. */
  function ErrorEntry(stored: Option<PackageMetadata>, info: PackageInfo, state: PackageState): (e: PackageMetadata)
    ensures e.state == state
    ensures stored.Some? ==> e == stored.value.(state := state)
    ensures stored.None? ==> e == DEFAULT_PACKAGE_METADATA.(state := state, system := IsSystemApp(info))
  {
    if stored.Some? then stored.value.(state := state)
    else PackageMetadata(0, state, IsSystemApp(info), None, None, None, None)
  }

  /** The ledger after `onPackageBackupError` passed its guard and committed. */
  function PackageBackupError(l: Ledger, info: PackageInfo, state: PackageState): (r: Ledger)
    ensures OnlyEntryChanged(l, r, info.packageName) && r.time == l.time
    ensures r.packages[info.packageName] == ErrorEntry(Lookup(l, info.packageName), info, state)
  {
    Mutate(l, MarkError(info, state))
  }

  /** The body handed to `modifyMetadata` by each of the four operations. */
  datatype Mutation =
    | InitializeDevice(token: Long)
    | StoreApk(packageName: string, entry: PackageMetadata)
    | MarkBackedUp(info: PackageInfo, now: Long)
    | MarkError(info: PackageInfo, state: PackageState)

  /** The ledger value the body `m` leaves: device initialisation installs
      `BackupMetadata(token = token)`; every other body changes the entry of its
      package only, and a data backup also sets the ledger's time. */
  function Mutate(l: Ledger, m: Mutation): (r: Ledger)
    ensures m.InitializeDevice? ==> r == DeviceInitialized(m.token)
    ensures m.StoreApk? ==>
              OnlyEntryChanged(l, r, m.packageName) && r.time == l.time && r.packages[m.packageName] == m.entry
    ensures m.MarkBackedUp? ==> OnlyEntryChanged(l, r, m.info.packageName) && r.time == m.now
    ensures m.MarkError? ==>
              OnlyEntryChanged(l, r, m.info.packageName) && r.time == l.time
              && r.packages[m.info.packageName].state == m.state
  {
    match m
    case InitializeDevice(token) => DeviceInitialized(token)
    case StoreApk(name, e) => l.(packages := l.packages[name := e])
    case MarkBackedUp(info, now) =>
      Ledger(l.token, now, l.packages[info.packageName := BackedUpEntry(Lookup(l, info.packageName), info, now)])
    case MarkError(info, state) =>
      l.(packages := l.packages[info.packageName := ErrorEntry(Lookup(l, info.packageName), info, state)])
  }

  /** What `modifyMetadata` leaves after a failed write. `metadata.copy()` is a
      shallow data-class copy: restoring it brings back the token and time of the
      snapshot, but the package map is the same object the mutation edited. Only
      device initialisation, which replaced the whole object, is undone entirely. */
  function ShallowRollback(l: Ledger, m: Mutation): (r: Ledger)
    ensures r.token == l.token && r.time == l.time
    ensures m.InitializeDevice? ==> r == l
    ensures !m.InitializeDevice? ==> r.packages == Mutate(l, m).packages
  {
    if m.InitializeDevice? then l else Ledger(l.token, l.time, Mutate(l, m).packages)
  }

  // ---------------------------------------------------------------------------
  // Properties of the mutations
  // ---------------------------------------------------------------------------

  /** The outcome of one `onApkBackedUp` call whose writes succeed. */
  function ApkBackupOutcome(l: Ledger, info: PackageInfo, supplied: PackageMetadata): (r: Result<Ledger>)
    ensures r.Err? <==> !ApkVersionAccepted(Lookup(l, info.packageName), supplied)
    ensures r.Err? ==> r.error == IllegalStateException
  {
    if ApkVersionAccepted(Lookup(l, info.packageName), supplied) then Ok(ApkBackedUp(l, info, supplied))
    else Err(IllegalStateException)
  }

  /** Successive `onApkBackedUp` calls for one package, stopping at the first that
      its guard rejects. */
  function ApkBackups(l: Ledger, info: PackageInfo, supplied: seq<PackageMetadata>): Result<Ledger>
    decreases |supplied|
  {
    if supplied == [] then Ok(l)
    else
      match ApkBackupOutcome(l, info, supplied[0])
      case Err(e) => Err(e)
      case Ok(l1) => ApkBackups(l1, info, supplied[1..])
  }

  /** Along a run of accepted APK backups of one package, every version after the
      first is present and strictly greater than the one before it, and the ledger
      ends up storing the last version supplied. */
  lemma {:induction false} ApkVersionsStrictlyIncrease(l: Ledger, info: PackageInfo, supplied: seq<PackageMetadata>)
    requires ApkBackups(l, info, supplied).Ok?
    requires |supplied| > 0
    decreases |supplied|
    ensures forall i :: 0 < i < |supplied| ==> supplied[i].version.Some?
    ensures forall i :: 0 < i < |supplied| ==>
              supplied[i - 1].version.None? || supplied[i - 1].version.value < supplied[i].version.value
    ensures var r := ApkBackups(l, info, supplied).value;
              info.packageName in r.packages && r.packages[info.packageName].version == supplied[|supplied| - 1].version
  {
    var name := info.packageName;
    var l1 := ApkBackedUp(l, info, supplied[0]);
    assert ApkBackupOutcome(l, info, supplied[0]) == Ok(l1);
    assert ApkBackups(l, info, supplied) == ApkBackups(l1, info, supplied[1..]);
    assert name in l1.packages && l1.packages[name].version == supplied[0].version;
    if |supplied| > 1 {
      var rest := supplied[1..];
      ApkVersionsStrictlyIncrease(l1, info, rest);
      var l2 := ApkBackedUp(l1, info, rest[0]);
      assert ApkBackupOutcome(l1, info, rest[0]) == Ok(l2);
      assert ApkVersionAccepted(Lookup(l1, name), rest[0]);
      forall i | 0 < i < |supplied|
        ensures supplied[i].version.Some?
        ensures supplied[i - 1].version.None? || supplied[i - 1].version.value < supplied[i].version.value
      {
        if i > 1 {
          assert supplied[i] == rest[i - 1] && supplied[i - 1] == rest[i - 2];
        }
      }
    }
  }

  /** A rejected APK backup is an IllegalStateException and changes nothing; an
      accepted one stores a version above the one stored before. Replays the
      scenario: version 3 is stored, 2 is refused, 5 is accepted. */
  lemma ApkVersionScenario(l: Ledger, info: PackageInfo, v3: PackageMetadata, v2: PackageMetadata, v5: PackageMetadata)
    requires v3.version == Some(3) && v2.version == Some(2) && v5.version == Some(5)
    ensures var r3 := ApkBackupOutcome(l, info, v3);
              r3.Ok? ==>
                && ApkBackupOutcome(r3.value, info, v2) == Err(IllegalStateException)
                && ApkBackupOutcome(r3.value, info, v5).Ok?
                && ApkBackupOutcome(r3.value, info, v5).value.packages[info.packageName].version == Some(5)
  {
  }

  /** An APK backup never claims success: the stored state is ApkAndData only if it
      already was, and NotAllowed whenever the supplied state was. */
  lemma ApkBackupStateRule(l: Ledger, info: PackageInfo, supplied: PackageMetadata)
    ensures var e := ApkBackedUp(l, info, supplied).packages[info.packageName];
              && (e.state == ApkAndData ==> info.packageName in l.packages && l.packages[info.packageName].state == ApkAndData)
              && (supplied.state == NotAllowed ==> e.state == NotAllowed)
              && (supplied.state != NotAllowed ==>
                    e.state == (if info.packageName in l.packages then l.packages[info.packageName].state else DEFAULT_STATE))
  {
  }

  /** The filter of `getPackagesNumNotBackedUp`: a package counts when it is not
      a system package and its last backup did not store both APK and data. */
  predicate NotBackedUp(p: PackageMetadata)
    ensures p.system ==> !NotBackedUp(p)
    ensures p.state == ApkAndData ==> !NotBackedUp(p)
    ensures !p.system && p.state != ApkAndData ==> NotBackedUp(p)
  {
    !p.system && p.state != ApkAndData
  }

  /** The packages `getPackagesNumNotBackedUp` counts. */
  function NotBackedUpKeys(packages: map<string, PackageMetadata>): (keys: set<string>)
    ensures forall k :: k in keys <==> k in packages && NotBackedUp(packages[k])
  {
    set k | k in packages && NotBackedUp(packages[k])
  }

  /** `getPackagesNumNotBackedUp`: the entries that are neither system packages nor
      fully backed up. */
  function NumNotBackedUp(packages: map<string, PackageMetadata>): (n: nat)
    ensures packages == map[] ==> n == 0
    ensures n > 0 ==> exists k :: k in packages && NotBackedUp(packages[k])
  {
    |NotBackedUpKeys(packages)|
  }

  lemma {:induction false} NumNotBackedUpBounded(packages: map<string, PackageMetadata>)
    ensures NumNotBackedUp(packages) <= |packages|
  {
    SubsetCardinality(NotBackedUpKeys(packages), packages.Keys);
  }

  lemma {:induction false} SubsetCardinality<T>(a: set<T>, b: set<T>)
    requires a <= b
    ensures |a| <= |b|
  {
    if a != {} {
      var x :| x in a;
      SubsetCardinality(a - {x}, b - {x});
    }
  }

  lemma NumNotBackedUpZero(packages: map<string, PackageMetadata>)
    ensures NumNotBackedUp(packages) == 0 <==> forall k :: k in packages ==> !NotBackedUp(packages[k])
  {
  }

  lemma NotBackedUpKeysUpdate(packages: map<string, PackageMetadata>, k: string, p: PackageMetadata)
    ensures NotBackedUpKeys(packages[k := p]) ==
              (NotBackedUpKeys(packages) - {k}) + (if NotBackedUp(p) then {k} else {})
  {
  }

  lemma RemoveAddCardinality(s: set<string>, k: string, added: bool)
    ensures |(s - {k}) + (if added then {k} else {})| == |s| - (if k in s then 1 else 0) + (if added then 1 else 0)
  {
  }

  /** Replacing or adding one entry changes the count by what that entry
      contributes before and after. */
  lemma NumNotBackedUpUpdate(packages: map<string, PackageMetadata>, k: string, p: PackageMetadata)
    ensures NumNotBackedUp(packages[k := p]) ==
              NumNotBackedUp(packages)
              - (if k in packages && NotBackedUp(packages[k]) then 1 else 0)
              + (if NotBackedUp(p) then 1 else 0)
  {
    NotBackedUpKeysUpdate(packages, k, p);
    RemoveAddCardinality(NotBackedUpKeys(packages), k, NotBackedUp(p));
  }

  /** Adding a system package never changes the count; adding a non-system package
      that is not fully backed up raises it by one. */
  lemma NumNotBackedUpAdd(packages: map<string, PackageMetadata>, k: string, p: PackageMetadata)
    requires k !in packages
    ensures p.system ==> NumNotBackedUp(packages[k := p]) == NumNotBackedUp(packages)
    ensures !p.system && p.state != ApkAndData ==> NumNotBackedUp(packages[k := p]) == NumNotBackedUp(packages) + 1
  {
    NumNotBackedUpUpdate(packages, k, p);
  }

  /** A data backup takes its package out of the count, if it was in it. */
  lemma BackedUpLeavesCount(l: Ledger, info: PackageInfo, now: Long)
    ensures var n := info.packageName;
              NumNotBackedUp(PackageBackedUp(l, info, now).packages) ==
                NumNotBackedUp(l.packages) - (if n in l.packages && NotBackedUp(l.packages[n]) then 1 else 0)
  {
    var n := info.packageName;
    NumNotBackedUpUpdate(l.packages, n, BackedUpEntry(Lookup(l, n), info, now));
  }

  /** A reported error keeps a known package's system flag and so counts it exactly
      when it is not a system package; a new non-system package joins the count. */
  lemma BackupErrorCount(l: Ledger, info: PackageInfo, state: PackageState)
    requires state != ApkAndData
    ensures var n := info.packageName;
              var r := PackageBackupError(l, info, state);
              && (n in l.packages ==> (NotBackedUp(r.packages[n]) <==> !l.packages[n].system))
              && (n !in l.packages && !IsSystemApp(info) ==> NumNotBackedUp(r.packages) == NumNotBackedUp(l.packages) + 1)
              && (n !in l.packages && IsSystemApp(info) ==> NumNotBackedUp(r.packages) == NumNotBackedUp(l.packages))
  {
    var n := info.packageName;
    NumNotBackedUpUpdate(l.packages, n, ErrorEntry(Lookup(l, n), info, state));
  }

  /** A failed commit of an error report for an unknown package still leaves that
      package in the ledger: the rollback restores the snapshot's token and time only. */
  lemma RollbackKeepsNewEntry(l: Ledger, info: PackageInfo, state: PackageState)
    requires info.packageName !in l.packages
    ensures var r := ShallowRollback(l, MarkError(info, state));
              info.packageName in r.packages && r != l
  {
  }

  // ---------------------------------------------------------------------------
  // Heap objects: the ledger object, its map, the cache file and the sinks
  // ---------------------------------------------------------------------------

  /** `PackageMetadataMap`, a mutable map shared by a `BackupMetadata` and its copies. */
  class PackageMetadataMap {
    var entries: map<string, PackageMetadata>

    constructor (entries: map<string, PackageMetadata>)
      ensures this.entries == entries
    {
      this.entries := entries;
    }
  }

  class BackupMetadata {
    const token: Long
    var time: Long
    const packageMetadataMap: PackageMetadataMap

    constructor (token: Long, time: Long, packageMetadataMap: PackageMetadataMap)
      ensures this.token == token && this.time == time && this.packageMetadataMap == packageMetadataMap
    {
      this.token := token;
      this.time := time;
      this.packageMetadataMap := packageMetadataMap;
    }

    function Value(): Ledger
      reads this, packageMetadataMap
    {
      Ledger(token, time, packageMetadataMap.entries)
    }

    /** The data-class `copy()`: a new object with the same token and time that
        shares this object's package map. */
    method Copy() returns (c: BackupMetadata)
      ensures fresh(c) && c.Value() == Value() && c.packageMetadataMap == packageMetadataMap
    {
      c := new BackupMetadata(token, time, packageMetadataMap);
    }
  }

  datatype DecodeFailure = SecurityFailure | IoFailure

  /** The private cache file `metadata.cache`: absent, holding an encoded ledger, or
      holding bytes the reader rejects (with a SecurityException or an IOException). */
  datatype CacheContent = Missing | Stored(ledger: Ledger) | Undecodable(failure: DecodeFailure)

  class CacheFile {
    var content: CacheContent

    constructor (content: CacheContent)
      ensures this.content == content
    {
      this.content := content;
    }
  }

  /** A caller-supplied output stream; `written` records every ledger written to it in full. */
  class OutputSink {
    ghost var written: seq<Ledger>

    constructor ()
      ensures written == []
    {
      written := [];
    }
  }

  /** `metadataWriter.write(metadata, stream)`: a foreign call that may fail with an
      IOException, in which case no complete ledger reaches the stream. */
  method WriteMetadata(m: BackupMetadata, sink: OutputSink) returns (r: Result<()>)
    modifies sink
    ensures r.Ok? ==> sink.written == old(sink.written) + [m.Value()]
    ensures r.Err? ==> r.error == IOException && sink.written == old(sink.written)
  {
    var ok: bool := *;
    if ok {
      sink.written := sink.written + [m.Value()];
      r := Ok(());
    } else {
      r := Err(IOException);
    }
  }

  // ---------------------------------------------------------------------------
  // The manager
  // ---------------------------------------------------------------------------

  /** The time the getter posts when it hydrates a sentinel ledger into `l`. */
  function HydrationPost(hydrated: bool, l: Ledger): seq<Long> {
    if hydrated then [l.time] else []
  }

  /** How the getter of `metadata` finds the ledger object: its value, whether it is
      the sentinel object itself, and whether it shares the sentinel's package map
      (as a shallow copy of the sentinel does). */
  datatype View = View(ledger: Ledger, isSentinel: bool, sharesMap: bool)

  /** A run of `modifyMetadata`: the view it starts from, the body, the ledger it
      commits and whether the getter at the write hydrates again. */
  datatype CommitPlan = CommitPlan(view: View, body: Mutation, committed: Result<Ledger>, rehydrates: bool)

  /** The posts, the sink's content and the cache file's content before an operation. */
  datatype Before = Before(posted: seq<Long>, written: seq<Ledger>, cache: CacheContent)

  class MetadataManager {
    const cache: CacheFile
    /** `BackupMetadata(token = 0L)`: the sentinel that stands for "not read yet". */
    const uninitializedMetadata: BackupMetadata
    var metadata: BackupMetadata
    /** Every value posted to the last-backup-time LiveData, in order. */
    ghost var posted: seq<Long>

    constructor (cache: CacheFile)
      ensures Valid() && Ordinary()
      ensures this.cache == cache && posted == []
      ensures fresh(uninitializedMetadata) && fresh(uninitializedMetadata.packageMetadataMap)
      ensures metadata == uninitializedMetadata && Contents() == Ledger(0, 0, map[])
    {
      this.cache := cache;
      var empty := new PackageMetadataMap(map[]);
      uninitializedMetadata := new BackupMetadata(0, 0, empty);
      metadata := uninitializedMetadata;
      posted := [];
    }

    /** The sentinel's token is 0, and a ledger object's token never changes. */
    predicate Valid() {
      uninitializedMetadata.token == 0
    }

    /** The objects the manager's operations read and may change. */
    ghost function Repr(): set<object>
      reads this
    {
      {this, metadata, metadata.packageMetadataMap, uninitializedMetadata, uninitializedMetadata.packageMetadataMap, cache}
    }

    function Contents(): Ledger
      reads this, metadata, metadata.packageMetadataMap
    {
      metadata.Value()
    }

    /** `field == uninitializedMetadata` in the getter: data-class equality, so any
        ledger with the sentinel's token, time and entries needs hydrating, and the
        sentinel object itself always does. */
    predicate IsUninitialized()
      reads this, metadata, metadata.packageMetadataMap, uninitializedMetadata, uninitializedMetadata.packageMetadataMap
      ensures metadata == uninitializedMetadata ==> IsUninitialized()
    {
      Contents() == uninitializedMetadata.Value()
    }

    /** The ledger the getter of `metadata` delivers from the current state: the
        field itself, or the cache's ledger when the field is still the sentinel
        (the sentinel again if the file is missing); an AssertionError when the
        cache cannot be decoded. */
    ghost function Loaded(): (r: Result<Ledger>)
      reads Repr()
      ensures !IsUninitialized() ==> r == Ok(Contents())
      ensures r.Err? <==> IsUninitialized() && cache.content.Undecodable?
      ensures r.Err? ==> r.error == AssertionError
    {
      if !IsUninitialized() then Ok(Contents())
      else
        match cache.content
        case Missing => Ok(uninitializedMetadata.Value())
        case Stored(l) => Ok(l)
        case Undecodable(_) => Err(AssertionError)
    }

    /** A read of the backup token would yield 0. */
    ghost predicate TokenReadsZero()
      reads Repr()
    {
      Loaded().Ok? && Loaded().value.token == 0
    }

    ghost function CurrentView(): (v: View)
      reads this, metadata, metadata.packageMetadataMap
      ensures v.ledger == Contents()
    {
      View(Contents(), metadata == uninitializedMetadata,
           metadata.packageMetadataMap == uninitializedMetadata.packageMetadataMap)
    }

    /** The view of the ledger once the getter has run: the current one, or the one
        it hydrates from the cache; an AssertionError when the cache cannot be decoded. */
    ghost function HydratedView(): (r: Result<View>)
      reads Repr()
      ensures r.Ok? <==> Loaded().Ok?
      ensures r.Ok? ==> r.value.ledger == Loaded().value
    {
      if !IsUninitialized() then Ok(CurrentView())
      else
        match cache.content
        case Missing => Ok(View(uninitializedMetadata.Value(), true, true))
        case Stored(l) => Ok(View(l, false, false))
        case Undecodable(_) => Err(AssertionError)
    }

    /** The sentinel still holds the empty ledger it was made with. A mutation body
        edits it in place when it is the current ledger object, which it becomes when
        the cache file is missing. */
    ghost predicate SentinelUntouched()
      reads uninitializedMetadata, uninitializedMetadata.packageMetadataMap
    {
      uninitializedMetadata.Value() == Ledger(0, 0, map[])
    }

    /** The usual situation: the sentinel is untouched, and the ledger the getter
        delivers does not share the sentinel's map unless the cache file is missing. */
    ghost predicate Ordinary()
      reads Repr()
    {
      SentinelUntouched() && (HydratedView().Ok? ==> !HydratedView().value.sharesMap || cache.content.Missing?)
    }

    /** The sentinel's value once the body `m` has run on a ledger seen as `v`: the
        body reaches the sentinel only through the objects the ledger shares with it. */
    ghost function SentinelAfter(v: View, m: Mutation): Ledger
      reads uninitializedMetadata, uninitializedMetadata.packageMetadataMap
    {
      var s := uninitializedMetadata;
      if m.InitializeDevice? then s.Value()
      else Ledger(s.token,
                  if v.isSentinel && m.MarkBackedUp? then m.now else s.time,
                  if v.sharesMap then Mutate(v.ledger, m).packages else s.packageMetadataMap.entries)
    }

    /** Whether the access to `metadata` at the write, after the body `m` has run on
        a ledger seen as `v`, finds a ledger equal to the sentinel and hydrates again. */
    ghost predicate RehydratesAfter(v: View, m: Mutation)
      reads uninitializedMetadata, uninitializedMetadata.packageMetadataMap
    {
      Mutate(v.ledger, m) == SentinelAfter(v, m)
    }

    /** The ledger `modifyMetadata` hands to the writer when the body `m` runs on a
        ledger seen as `v`: the body's result, unless the getter at the write hydrates
        again, which replaces it by the cache's ledger (or fails on an unreadable cache). */
    ghost function Committed(v: View, m: Mutation): (r: Result<Ledger>)
      reads uninitializedMetadata, uninitializedMetadata.packageMetadataMap, cache
      ensures r.Err? <==> RehydratesAfter(v, m) && cache.content.Undecodable?
      ensures r.Err? ==> r.error == AssertionError
      ensures r.Ok? && r.value != Mutate(v.ledger, m) ==> RehydratesAfter(v, m) && cache.content == Stored(r.value)
    {
      if !RehydratesAfter(v, m) then Ok(Mutate(v.ledger, m))
      else
        match cache.content
        case Missing => Ok(Mutate(v.ledger, m))
        case Stored(l) => Ok(l)
        case Undecodable(_) => Err(AssertionError)
    }

    /** The record `modifyMetadata` starts from once the getter has run. */
    ghost function Hydrated(sink: OutputSink): Before
      reads Repr(), sink
    {
      Before(posted + HydrationPost(IsUninitialized(), if Loaded().Ok? then Loaded().value else Contents()),
             sink.written, cache.content)
    }

    /** What `modifyMetadata` is set to do for the body `m` on a ledger seen as `v`. */
    ghost function PlanFor(v: View, m: Mutation): CommitPlan
      reads uninitializedMetadata, uninitializedMetadata.packageMetadataMap, cache
    {
      CommitPlan(v, m, Committed(v, m), RehydratesAfter(v, m))
    }

    /** The record of posts, sink and cache an operation starts from. */
    ghost function Snapshot(sink: OutputSink): Before
      reads this, cache, sink
    {
      Before(posted, sink.written, cache.content)
    }

    /** What `modifyMetadata` leaves after the plan `p`, starting from `b`. An
        unreadable cache at the write is an AssertionError that escapes without
        rollback. A successful commit writes the committed ledger to the sink and the
        cache and posts its time. An IOException rolls back shallowly; the sink may
        then hold the committed ledger. */
    ghost predicate CommitOutcome(p: CommitPlan, r: Result<()>, sink: OutputSink, b: Before)
      reads this, metadata, metadata.packageMetadataMap, cache, sink
    {
      var c := p.committed;
      && (c.Err? ==>
            && r == Err(AssertionError) && Contents() == Mutate(p.view.ledger, p.body) && posted == b.posted
            && sink.written == b.written && cache.content == b.cache)
      && (r.Ok? ==>
            && c == Ok(Contents()) && sink.written == b.written + [Contents()]
            && cache.content == Stored(Contents())
            && posted == b.posted + HydrationPost(p.rehydrates, Contents()) + [Contents().time])
      && (c.Ok? && r.Err? ==>
            && r.error == IOException && Contents() == ShallowRollback(p.view.ledger, p.body)
            && posted == b.posted + HydrationPost(p.rehydrates, c.value)
            && ((sink.written == b.written && cache.content == b.cache)
                || sink.written == b.written + [c.value]))
    }

    /** A body other than device initialisation commits its own result when the
        sentinel is untouched, unless the ledger shares the sentinel's map while the
        cache file holds something. */
    lemma CommitOwnResult(v: View, m: Mutation)
      requires !m.InitializeDevice? && SentinelUntouched()
      requires !v.sharesMap || cache.content.Missing?
      ensures Committed(v, m) == Ok(Mutate(v.ledger, m))
    {
      if !v.sharesMap {
        var name := match m
          case StoreApk(n, _) => n
          case MarkBackedUp(info, _) => info.packageName
          case MarkError(info, _) => info.packageName;
        assert name in Mutate(v.ledger, m).packages;
      }
    }

    /** Device initialisation with a token other than 0 commits the empty ledger for
        that token. With token 0 the new ledger equals an untouched sentinel, so the
        getter at the write hydrates again and the cache's ledger is committed. */
    lemma InitializationCommit(v: View, token: Long)
      requires Valid()
      ensures token != 0 ==>
                && !RehydratesAfter(v, InitializeDevice(token))
                && Committed(v, InitializeDevice(token)) == Ok(DeviceInitialized(token))
      ensures token == 0 && SentinelUntouched() ==>
                && RehydratesAfter(v, InitializeDevice(0))
                && Committed(v, InitializeDevice(0)) ==
                     match cache.content
                     case Missing => Ok(DeviceInitialized(0))
                     case Stored(l) => Ok(l)
                     case Undecodable(_) => Err(AssertionError)
    {
    }

    /** `getMetadataFromCache()`: the sentinel when the file is missing, null after a
        SecurityException, an IOException when the bytes cannot be read, and
        otherwise a freshly decoded ledger. */
    method GetMetadataFromCache() returns (r: Result<BackupMetadata?>)
      ensures cache.content.Missing? ==> r == Ok(uninitializedMetadata)
      ensures cache.content == Undecodable(SecurityFailure) ==> r == Ok(null)
      ensures cache.content == Undecodable(IoFailure) ==> r == Err(IOException)
      ensures r.Ok? && r.value != null <==> !cache.content.Undecodable?
      ensures cache.content.Stored? ==>
                && r.Ok? && r.value != null && fresh(r.value) && fresh(r.value.packageMetadataMap)
                && r.value.Value() == cache.content.ledger
    {
      match cache.content
      case Missing =>
        r := Ok(uninitializedMetadata);
      case Undecodable(SecurityFailure) =>
        r := Ok(null);
      case Undecodable(IoFailure) =>
        r := Err(IOException);
      case Stored(l) =>
        var entries := new PackageMetadataMap(l.packages);
        var decoded := new BackupMetadata(l.token, l.time, entries);
        r := Ok(decoded);
    }

    /** The getter of `metadata`: hydrates a sentinel ledger from the cache and posts
        its time; an unreadable cache becomes an AssertionError. A missing cache file
        leaves the sentinel in place, so the next access tries again. */
    method LoadMetadata() returns (r: Result<()>)
      modifies this
      ensures r.Ok? <==> old(Loaded()).Ok?
      ensures r.Err? ==> r.error == AssertionError && metadata == old(metadata) && posted == old(posted)
      ensures r.Ok? ==> Contents() == old(Loaded()).value && Loaded() == Ok(Contents())
      ensures r.Ok? ==> CurrentView() == old(HydratedView()).value
      ensures !old(IsUninitialized()) ==> metadata == old(metadata) && posted == old(posted)
      ensures old(IsUninitialized()) && r.Ok? ==> posted == old(posted) + [Contents().time]
      ensures old(IsUninitialized()) && old(cache.content).Missing? ==> metadata == uninitializedMetadata && IsUninitialized()
      ensures metadata == old(metadata) || metadata == uninitializedMetadata
              || (fresh(metadata) && fresh(metadata.packageMetadataMap))
    {
      if IsUninitialized() {
        var fromCache := GetMetadataFromCache();
        if fromCache.Err? || fromCache.value == null {
          return Err(AssertionError);
        }
        metadata := fromCache.value;
        posted := posted + [metadata.time];
      }
      r := Ok(());
    }

    /** `writeMetadataToCache()`: a foreign write that may fail with an IOException,
        after which the file's content is unknown. */
    method WriteMetadataToCache() returns (r: Result<()>)
      modifies cache
      ensures r.Ok? ==> cache.content == Stored(Contents())
      ensures r.Err? ==> r.error == IOException
    {
      var ok: bool := *;
      if ok {
        cache.content := Stored(metadata.Value());
        r := Ok(());
      } else {
        cache.content := *;
        r := Err(IOException);
      }
    }

    /** The body of a mutation, run inside `modifyMetadata`: the device
        initialisation replaces the ledger object; the other three edit the package
        map in place, and a data backup also sets the ledger's time. The sentinel
        is edited too when the ledger is the sentinel or shares its map. */
    method Apply(m: Mutation)
      modifies this, metadata, metadata.packageMetadataMap
      ensures Contents() == Mutate(old(Contents()), m)
      ensures uninitializedMetadata.Value() == old(SentinelAfter(CurrentView(), m))
      ensures m.InitializeDevice? ==> fresh(metadata) && fresh(metadata.packageMetadataMap)
      ensures m.InitializeDevice? ==> unchanged(old(metadata), old(metadata.packageMetadataMap))
      ensures !m.InitializeDevice? ==> metadata == old(metadata)
      ensures posted == old(posted)
    {
      match m
      case InitializeDevice(token) =>
        var entries := new PackageMetadataMap(map[]);
        metadata := new BackupMetadata(token, 0, entries);
      case StoreApk(name, e) =>
        var packages := metadata.packageMetadataMap;
        packages.entries := packages.entries[name := e];
      case MarkBackedUp(info, now) =>
        var name := info.packageName;
        var packages := metadata.packageMetadataMap;
        metadata.time := now;
        if name in packages.entries {
          packages.entries := packages.entries[name := packages.entries[name].(time := now)];
          packages.entries := packages.entries[name := packages.entries[name].(state := ApkAndData)];
        } else {
          packages.entries := packages.entries[name := PackageMetadata(now, ApkAndData, IsSystemApp(info), None, None, None, None)];
        }
      case MarkError(info, state) =>
        var name := info.packageName;
        var packages := metadata.packageMetadataMap;
        if name in packages.entries {
          packages.entries := packages.entries[name := packages.entries[name].(state := state)];
        } else {
          packages.entries := packages.entries[name := PackageMetadata(0, state, IsSystemApp(info), None, None, None, None)];
        }
    }

    /** `modifyMetadata`: snapshot (a shallow copy), run the body, then commit or
        restore the snapshot. Only a successful commit posts the new time. */
    method ModifyMetadata(sink: OutputSink, m: Mutation) returns (r: Result<()>)
      modifies this, metadata, metadata.packageMetadataMap, cache, sink
      ensures CommitOutcome(old(PlanFor(CurrentView(), m)), r, sink, old(Snapshot(sink)))
    {
      var oldMetadata := SnapshotAndApply(m);
      r := CommitOrRestore(sink, oldMetadata);
    }

    /** The first half of `modifyMetadata`: `metadata.copy()`, then the body. The
        copy shares the package map, so afterwards it holds the shallow rollback. */
    method SnapshotAndApply(m: Mutation) returns (snapshot: BackupMetadata)
      modifies this, metadata, metadata.packageMetadataMap
      ensures fresh(snapshot) && snapshot.Value() == ShallowRollback(old(Contents()), m)
      ensures Contents() == Mutate(old(Contents()), m) && posted == old(posted)
      ensures IsUninitialized() == old(RehydratesAfter(CurrentView(), m))
      ensures Loaded() == old(Committed(CurrentView(), m))
    {
      ghost var v := CurrentView();
      snapshot := metadata.Copy();
      Apply(m);
      assert IsUninitialized() == RehydratesAfter(v, m);
    }

    /** The rest of `modifyMetadata`: write the ledger to the sink (reading it
        through the getter, which hydrates a ledger equal to the sentinel again),
        then to the cache; on an IOException restore `snapshot` and fail with an
        IOException. */
    method CommitOrRestore(sink: OutputSink, snapshot: BackupMetadata) returns (r: Result<()>)
      modifies this, cache, sink
      ensures old(Loaded()).Err? ==>
                && r == Err(AssertionError) && metadata == old(metadata) && posted == old(posted)
                && sink.written == old(sink.written) && cache.content == old(cache.content)
      ensures r.Ok? ==>
                && old(Loaded()) == Ok(Contents()) && sink.written == old(sink.written) + [Contents()]
                && cache.content == Stored(Contents())
                && posted == old(posted) + HydrationPost(old(IsUninitialized()), Contents()) + [Contents().time]
      ensures old(Loaded()).Ok? && r.Err? ==>
                && r.error == IOException && metadata == snapshot
                && posted == old(posted) + HydrationPost(old(IsUninitialized()), old(Loaded()).value)
                && ((sink.written == old(sink.written) && cache.content == old(cache.content))
                    || sink.written == old(sink.written) + [old(Loaded()).value])
    {
      var loaded := LoadMetadata();
      if loaded.Err? {
        return Err(AssertionError);
      }
      var written := WriteMetadata(metadata, sink);
      if written.Ok? {
        written := WriteMetadataToCache();
      }
      if written.Err? {
        metadata := snapshot;
        return Err(IOException);
      }
      posted := posted + [metadata.time];
      r := Ok(());
    }

    /** `onDeviceInitialization(token, stream)`: replace the ledger by an empty one
        for `token` and commit it. An unreadable cache fails first, when the snapshot
        is taken. With token 0 the new ledger equals the sentinel, so the write
        commits the cache's ledger instead. */
    method OnDeviceInitialization(token: Long, sink: OutputSink) returns (r: Result<()>)
      requires Valid()
      modifies Repr(), sink
      ensures old(Loaded()).Err? ==>
                r == Err(AssertionError) && metadata == old(metadata) && posted == old(posted)
                && sink.written == old(sink.written) && cache.content == old(cache.content)
      ensures old(Loaded()).Ok? ==>
                CommitOutcome(old(PlanFor(HydratedView().value, InitializeDevice(token))), r, sink, old(Hydrated(sink)))
      ensures old(Loaded()).Ok? && token != 0 && r.Ok? ==>
                && Contents() == DeviceInitialized(token)
                && sink.written == old(sink.written) + [Contents()]
                && cache.content == Stored(Contents())
                && posted == old(posted) + HydrationPost(old(IsUninitialized()), old(Loaded()).value) + [0]
      ensures old(Loaded()).Ok? && token == 0 && r.Ok? && old(SentinelUntouched()) && old(cache.content).Stored? ==>
                && Contents() == old(cache.content).ledger
                && sink.written == old(sink.written) + [old(cache.content).ledger]
      ensures old(Loaded()).Ok? && r.Err? && r.error == IOException ==> Contents() == old(Loaded()).value
    {
      r := LoadMetadata();
      if r.Err? {
        return;
      }
      InitializationCommit(CurrentView(), token);
      r := ModifyMetadata(sink, InitializeDevice(token));
    }

    /** `onApkBackedUp(packageInfo, packageMetadata, stream)`: after the version
        guard, store the merged entry and commit it. */
    method OnApkBackedUp(info: PackageInfo, supplied: PackageMetadata, sink: OutputSink) returns (r: Result<()>)
      modifies Repr(), sink
      ensures old(Loaded()).Err? ==>
                r == Err(AssertionError) && metadata == old(metadata) && posted == old(posted)
                && sink.written == old(sink.written) && cache.content == old(cache.content)
      ensures old(Loaded()).Ok? && !ApkVersionAccepted(Lookup(old(Loaded()).value, info.packageName), supplied) ==>
                && r == Err(IllegalStateException) && Contents() == old(Loaded()).value
                && posted == old(posted) + HydrationPost(old(IsUninitialized()), old(Loaded()).value)
                && sink.written == old(sink.written) && cache.content == old(cache.content)
      ensures old(Loaded()).Ok? && ApkVersionAccepted(Lookup(old(Loaded()).value, info.packageName), supplied) ==>
                CommitOutcome(old(PlanFor(HydratedView().value, ApkStore(Loaded().value, info, supplied))), r, sink, old(Hydrated(sink)))
      ensures old(Loaded()).Ok? && old(Ordinary()) && r.Ok? ==>
                && Contents() == ApkBackedUp(old(Loaded()).value, info, supplied)
                && sink.written == old(sink.written) + [Contents()] && cache.content == Stored(Contents())
    {
      r := LoadMetadata();
      if r.Err? {
        return;
      }
      var name := info.packageName;
      var stored := Lookup(metadata.Value(), name);
      if !ApkVersionAccepted(stored, supplied) {
        return Err(IllegalStateException);
      }
      var m := StoreApk(name, ApkEntry(stored, info, supplied));
      if Ordinary() {
        CommitOwnResult(CurrentView(), m);
      }
      r := ModifyMetadata(sink, m);
    }

    /** `onPackageBackedUp(packageInfo, stream)` with the clock reading `now`: mark
        the package fully backed up at `now`, set the ledger's time, and commit. */
    method OnPackageBackedUp(info: PackageInfo, now: Long, sink: OutputSink) returns (r: Result<()>)
      modifies Repr(), sink
      ensures old(Loaded()).Err? ==>
                r == Err(AssertionError) && metadata == old(metadata) && posted == old(posted)
                && sink.written == old(sink.written) && cache.content == old(cache.content)
      ensures old(Loaded()).Ok? ==>
                CommitOutcome(old(PlanFor(HydratedView().value, MarkBackedUp(info, now))), r, sink, old(Hydrated(sink)))
      ensures old(Loaded()).Ok? && old(Ordinary()) && r.Ok? ==>
                && Contents() == PackageBackedUp(old(Loaded()).value, info, now)
                && sink.written == old(sink.written) + [Contents()] && cache.content == Stored(Contents())
    {
      r := LoadMetadata();
      if r.Err? {
        return;
      }
      if Ordinary() {
        CommitOwnResult(CurrentView(), MarkBackedUp(info, now));
      }
      r := ModifyMetadata(sink, MarkBackedUp(info, now));
    }

    /** `onPackageBackupError(packageInfo, packageState, stream)`: refuse the success
        state before touching the ledger; otherwise record the state and commit. */
    method OnPackageBackupError(info: PackageInfo, state: PackageState, sink: OutputSink) returns (r: Result<()>)
      modifies Repr(), sink
      ensures state == ApkAndData ==>
                r == Err(IllegalStateException) && metadata == old(metadata) && Contents() == old(Contents())
                && posted == old(posted) && sink.written == old(sink.written) && cache.content == old(cache.content)
      ensures state != ApkAndData && old(Loaded()).Err? ==>
                r == Err(AssertionError) && metadata == old(metadata) && posted == old(posted)
                && sink.written == old(sink.written) && cache.content == old(cache.content)
      ensures state != ApkAndData && old(Loaded()).Ok? ==>
                CommitOutcome(old(PlanFor(HydratedView().value, MarkError(info, state))), r, sink, old(Hydrated(sink)))
      ensures state != ApkAndData && old(Loaded()).Ok? && old(Ordinary()) && r.Ok? ==>
                && Contents() == PackageBackupError(old(Loaded()).value, info, state)
                && sink.written == old(sink.written) + [Contents()] && cache.content == Stored(Contents())
    {
      if state == ApkAndData {
        return Err(IllegalStateException);
      }
      r := LoadMetadata();
      if r.Err? {
        return;
      }
      if Ordinary() {
        CommitOwnResult(CurrentView(), MarkError(info, state));
      }
      r := ModifyMetadata(sink, MarkError(info, state));
    }

    /** `getBackupToken()`: the token of the (hydrated) ledger; 0 means "not initialised". */
    method GetBackupToken() returns (r: Result<Long>)
      modifies this
      ensures old(Loaded()).Err? ==> r == Err(AssertionError) && metadata == old(metadata)
      ensures old(Loaded()).Ok? ==>
                r == Ok(old(Loaded()).value.token) && Contents() == old(Loaded()).value && Loaded() == Ok(Contents())
      ensures metadata == old(metadata) || metadata == uninitializedMetadata
              || (fresh(metadata) && fresh(metadata.packageMetadataMap))
    {
      var loaded := LoadMetadata();
      if loaded.Err? {
        return Err(loaded.error);
      }
      r := Ok(metadata.token);
    }

    /** `getPackageMetadata(name)`: a copy of the package's entry, or null. */
    method GetPackageMetadata(name: string) returns (r: Result<Option<PackageMetadata>>)
      modifies this
      ensures old(Loaded()).Err? ==> r == Err(AssertionError)
      ensures old(Loaded()).Ok? ==> r == Ok(Lookup(old(Loaded()).value, name)) && Contents() == old(Loaded()).value
    {
      var loaded := LoadMetadata();
      if loaded.Err? {
        return Err(loaded.error);
      }
      r := Ok(Lookup(metadata.Value(), name));
    }

    /** `getPackagesNumNotBackedUp()`. */
    method GetPackagesNumNotBackedUp() returns (r: Result<nat>)
      modifies this
      ensures old(Loaded()).Err? ==> r == Err(AssertionError)
      ensures old(Loaded()).Ok? ==>
                r == Ok(NumNotBackedUp(old(Loaded()).value.packages)) && Contents() == old(Loaded()).value
    {
      var loaded := LoadMetadata();
      if loaded.Err? {
        return Err(loaded.error);
      }
      r := Ok(NumNotBackedUp(metadata.packageMetadataMap.entries));
    }
  }

  /** A caller's view of device initialisation: once `onDeviceInitialization(token, ..)`
      has succeeded with a token other than 0, `getBackupToken()` returns that token;
      with token 0 it returns the token of the ledger the cache file held. */
  method InitializeThenReadToken(manager: MetadataManager, token: Long, sink: OutputSink) returns (init: Result<()>, read: Result<Long>)
    requires manager.Valid()
    modifies manager.Repr(), sink
    ensures init.Ok? && token != 0 ==> read == Ok(token)
    ensures init.Ok? && token == 0 && old(manager.SentinelUntouched()) && old(manager.cache.content).Stored? ==>
              read == Ok(old(manager.cache.content).ledger.token)
  {
    init := manager.OnDeviceInitialization(token, sink);
    read := manager.GetBackupToken();
  }
}
