/** The storage layout of a backup location: a document tree reached through a
    storage access framework provider, with the backup root
    `.SeedVaultAndroidBackup`, one directory per backup set (named by its token)
    and the `full` and `kv` directories inside it. */
module Documents {
  import opened Wrappers
  import opened Decimal
  import Metadata

  const DIRECTORY_ROOT: string := ".SeedVaultAndroidBackup"
  const DIRECTORY_FULL_BACKUP: string := "full"
  const DIRECTORY_KEY_VALUE_BACKUP: string := "kv"
  const FILE_NO_MEDIA: string := ".nomedia"
  const MIME_TYPE: string := "application/octet-stream"
  /** `DocumentsContract.Document.MIME_TYPE_DIR`. */
  const MIME_TYPE_DIR: string := "vnd.android.document/directory"
  /** `MINUTES.toMillis(2)`: how long a listing waits for a loading provider. */
  const LOAD_TIMEOUT_MILLIS: nat := 120000
  /** The sleep between two looks at the `loaded` flag. */
  const POLL_MILLIS: nat := 50

  // ---------------------------------------------------------------------------
  // The document tree

  /** A document of the provider: its display name, its MIME type and, for a
      directory, its children in the order the provider lists them. */
  class Document {
    const name: string
    const mimeType: string
    var children: seq<Document>

    constructor (name: string, mimeType: string)
      ensures this.name == name && this.mimeType == mimeType && children == []
    {
      this.name := name;
      this.mimeType := mimeType;
      children := [];
    }
  }

  /** The documents provider behind the storage location. `nodes` holds every
      document it has handed out; the children of a node are nodes again, and
      no document is its own child. */
  class DocumentProvider {
    ghost var nodes: set<Document>

    ghost predicate Closed()
      reads this, nodes
    {
      forall d, i :: d in nodes && 0 <= i < |d.children| ==> d.children[i] in nodes && d.children[i] != d
    }
  }

  /** The index of the first document in `docs` named `name`. */
  function FirstNamed(docs: seq<Document>, name: string): (r: Option<nat>)
    ensures r.Some? ==> r.value < |docs| && docs[r.value].name == name
    ensures r.Some? ==> forall j :: 0 <= j < r.value ==> docs[j].name != name
    ensures r.None? ==> forall j :: 0 <= j < |docs| ==> docs[j].name != name
  {
    if |docs| == 0 then None
    else if docs[0].name == name then Some(0)
    else match FirstNamed(docs[1..], name)
      case None => None
      case Some(k) => Some(k + 1)
  }

  /** Appending a document leaves an earlier match in place, and otherwise the
      new document is the first match exactly when it has the name. */
  lemma {:induction false} FirstNamedAppend(docs: seq<Document>, d: Document, name: string)
    ensures FirstNamed(docs + [d], name) ==
              if FirstNamed(docs, name).Some? then FirstNamed(docs, name)
              else if d.name == name then Some(|docs|) else None
  {
    if |docs| > 0 {
      assert (docs + [d])[1..] == docs[1..] + [d];
      FirstNamedAppend(docs[1..], d, name);
    }
  }

  /** `DocumentFile.findFile(name)`: the first child whose display name is `name`. */
  function FindFile(dir: Document, name: string): (r: Document?)
    reads dir
    ensures r != null ==> r in dir.children && r.name == name
    ensures r != null ==>
              exists k :: 0 <= k < |dir.children| && dir.children[k] == r
                && forall j :: 0 <= j < k ==> dir.children[j].name != name
    ensures r == null <==> forall c :: c in dir.children ==> c.name != name
  {
    match FirstNamed(dir.children, name)
    case None => null
    case Some(k) => dir.children[k]
  }

  /** Kotlin's `dir?.findFile(name)`. */
  function FindChild(dir: Document?, name: string): (r: Document?)
    reads dir
    ensures r != null ==> dir != null && r == FindFile(dir, name)
    ensures dir != null ==> r == FindFile(dir, name)
  {
    if dir == null then null else FindFile(dir, name)
  }

  /** After a child named `name` has been appended to a directory that had none,
      looking the name up finds that child. */
  lemma FindFileAfterCreate(before: seq<Document>, d: Document, name: string)
    requires forall c :: c in before ==> c.name != name
    requires d.name == name
    ensures FirstNamed(before + [d], name) == Some(|before|)
  {
    assert FirstNamed(before, name).None?;
    FirstNamedAppend(before, d, name);
  }

  /** The provider creating a document (`DocumentFile.createFile`, and
      `createDirectory`, which is `createFile` with MIME_TYPE_DIR): the new
      document is appended to the parent's children, or the provider refuses
      and the call returns null. */
  method CreateDocument(provider: DocumentProvider, parent: Document, mimeType: string, name: string)
    returns (d: Document?)
    requires parent in provider.nodes && provider.Closed()
    modifies parent, provider
    ensures provider.Closed()
    ensures d == null ==> parent.children == old(parent.children) && provider.nodes == old(provider.nodes)
    ensures d != null ==>
              && fresh(d) && d.name == name && d.mimeType == mimeType && d.children == []
              && parent.children == old(parent.children) + [d]
              && provider.nodes == old(provider.nodes) + {d}
  {
    var created: bool := *;
    if created {
      d := new Document(name, mimeType);
      parent.children := parent.children + [d];
      provider.nodes := provider.nodes + {d};
    } else {
      d := null;
    }
  }

  /** `createOrGetFile(name, mimeType)`: the first child named `name` if there is
      one (and then nothing is created), else a newly created document; an
      IOException when the provider refuses to create it. */
  method CreateOrGetFile(provider: DocumentProvider, parent: Document, name: string, mimeType: string)
    returns (r: Result<Document>)
    requires parent in provider.nodes && provider.Closed()
    modifies parent, provider
    ensures provider.Closed() && old(provider.nodes) <= provider.nodes
    ensures old(FindFile(parent, name)) != null ==>
              r == Ok(old(FindFile(parent, name)))
              && parent.children == old(parent.children) && provider.nodes == old(provider.nodes)
    ensures old(FindFile(parent, name)) == null && r.Ok? ==>
              && fresh(r.value) && r.value.mimeType == mimeType && r.value.children == []
              && parent.children == old(parent.children) + [r.value]
    ensures r.Err? ==>
              r.error == IOException && parent.children == old(parent.children) && provider.nodes == old(provider.nodes)
    ensures r.Ok? ==> r.value in provider.nodes && r.value.name == name && FindFile(parent, name) == r.value
    ensures NodesGrown(provider)
  {
    var found := FindFile(parent, name);
    if found != null {
      return Ok(found);
    }
    var before := parent.children;
    var created := CreateDocument(provider, parent, mimeType, name);
    if created == null {
      return Err(IOException);
    }
    FindFileAfterCreate(before, created, name);
    r := Ok(created);
  }

  /** `createOrGetDirectory(name)`: as `createOrGetFile`, for a directory. */
  method CreateOrGetDirectory(provider: DocumentProvider, parent: Document, name: string)
    returns (r: Result<Document>)
    requires parent in provider.nodes && provider.Closed()
    modifies parent, provider
    ensures provider.Closed() && old(provider.nodes) <= provider.nodes
    ensures old(FindFile(parent, name)) != null ==>
              r == Ok(old(FindFile(parent, name)))
              && parent.children == old(parent.children) && provider.nodes == old(provider.nodes)
    ensures old(FindFile(parent, name)) == null && r.Ok? ==>
              && fresh(r.value) && r.value.mimeType == MIME_TYPE_DIR && r.value.children == []
              && parent.children == old(parent.children) + [r.value]
    ensures r.Err? ==>
              r.error == IOException && parent.children == old(parent.children) && provider.nodes == old(provider.nodes)
    ensures r.Ok? ==> r.value in provider.nodes && r.value.name == name && FindFile(parent, name) == r.value
    ensures NodesGrown(provider)
  {
    r := CreateOrGetFile(provider, parent, name, MIME_TYPE_DIR);
  }

  /** Find-or-create is idempotent: a second call returns the same child and
      adds no sibling. */
  method CreateOrGetDirectoryTwice(provider: DocumentProvider, parent: Document, name: string)
    returns (first: Result<Document>, second: Result<Document>)
    requires parent in provider.nodes && provider.Closed()
    modifies parent, provider
    ensures first.Ok? ==> second == first
    ensures first.Ok? ==> |parent.children| <= |old(parent.children)| + 1
  {
    first := CreateOrGetDirectory(provider, parent, name);
    second := CreateOrGetDirectory(provider, parent, name);
  }

  // ---------------------------------------------------------------------------
  // deleteContents and assertRightFile

  /** The children that are left once those flagged in `deleted` are gone. */
  function Kept(s: seq<Document>, deleted: seq<bool>): (r: seq<Document>)
    requires |s| == |deleted|
    ensures |r| <= |s|
    ensures forall j :: 0 <= j < |s| && !deleted[j] ==> s[j] in r
    ensures forall x :: x in r ==> exists j :: 0 <= j < |s| && !deleted[j] && s[j] == x
  {
    if |s| == 0 then []
    else
      var rest := Kept(s[1..], deleted[1..]);
      assert forall j :: 1 <= j < |s| && !deleted[j] ==> s[j] in rest by {
        forall j | 1 <= j < |s| && !deleted[j] ensures s[j] in rest {
          assert s[j] == s[1..][j - 1] && deleted[j] == deleted[1..][j - 1];
        }
      }
      assert forall x :: x in rest ==> exists j :: 0 <= j < |s| && !deleted[j] && s[j] == x by {
        forall x | x in rest ensures exists j :: 0 <= j < |s| && !deleted[j] && s[j] == x {
          var i :| 0 <= i < |s| - 1 && !deleted[1..][i] && s[1..][i] == x;
          assert s[i + 1] == x && !deleted[i + 1];
        }
      }
      (if deleted[0] then [] else [s[0]]) + rest
  }

  lemma {:induction false} KeptAppend(s: seq<Document>, deleted: seq<bool>, x: Document, gone: bool)
    requires |s| == |deleted|
    ensures Kept(s + [x], deleted + [gone]) == Kept(s, deleted) + (if gone then [] else [x])
  {
    if |s| > 0 {
      assert (s + [x])[1..] == s[1..] + [x];
      assert (deleted + [gone])[1..] == deleted[1..] + [gone];
      KeptAppend(s[1..], deleted[1..], x, gone);
    }
  }

  /** When every deletion succeeds the directory ends up empty; when none does it
      is left as it was. */
  lemma {:induction false} KeptExtremes(s: seq<Document>, deleted: seq<bool>)
    requires |s| == |deleted|
    ensures (forall j :: 0 <= j < |s| ==> deleted[j]) ==> Kept(s, deleted) == []
    ensures (forall j :: 0 <= j < |s| ==> !deleted[j]) ==> Kept(s, deleted) == s
  {
    if |s| > 0 {
      KeptExtremes(s[1..], deleted[1..]);
      assert [s[0]] + s[1..] == s;
    }
  }

  /** The provider deleting `file` (`DocumentFile.delete()`), the child of `dir`
      at index `k`, between the children `before` and `after`; it reports
      whether it did. */
  method Delete(dir: Document, file: Document, k: nat, ghost before: seq<Document>, ghost after: seq<Document>)
    returns (ok: bool)
    requires dir.children == before + [file] + after && k == |before|
    modifies dir
    ensures ok ==> dir.children == before + after
    ensures !ok ==> dir.children == old(dir.children)
  {
    ok := *;
    if ok {
      dir.children := dir.children[..k] + dir.children[k + 1..];
      assert dir.children == before + after;
    }
  }

  /** `deleteContents()`: asks the provider to delete every child listed at the
      start, ignoring refusals; `deleted` says which deletions succeeded. */
  method DeleteContents(dir: Document) returns (deleted: seq<bool>)
    modifies dir
    ensures |deleted| == |old(dir.children)|
    ensures dir.children == Kept(old(dir.children), deleted)
  {
    var files := dir.children;
    deleted := [];
    var k := 0;
    var i := 0;
    ghost var kept: seq<Document> := [];
    while i < |files|
      invariant 0 <= i <= |files| && |deleted| == i
      invariant kept == Kept(files[..i], deleted) && k == |kept|
      invariant dir.children == kept + files[i..]
    {
      assert files[i..] == [files[i]] + files[i + 1..];
      var ok := Delete(dir, files[i], k, kept, files[i + 1..]);
      assert files[..i + 1] == files[..i] + [files[i]];
      KeptAppend(files[..i], deleted, files[i], ok);
      if !ok {
        kept := kept + [files[i]];
        k := k + 1;
      }
      deleted := deleted + [ok];
      i := i + 1;
    }
    assert files[..|files|] == files;
  }

  /** `assertRightFile(packageInfo)`: an AssertionError unless the document is
      named after the package. */
  function AssertRightFile(file: Document, info: Metadata.PackageInfo): (r: Result<()>)
    ensures r.Ok? <==> file.name == info.packageName
    ensures r.Err? ==> r.error == AssertionError
  {
    if file.name != info.packageName then Err(AssertionError) else Ok(())
  }

  // ---------------------------------------------------------------------------
  // listFilesBlocking and findFileBlocking

  /** A row of the provider's answer to a children query: the child's document
      id, its display name and its MIME type. */
  datatype Row = Row(documentId: string, displayName: string, mimeType: string)

  /** A query's cursor: its rows, and the provider's EXTRA_LOADING flag. */
  datatype Cursor = Cursor(rows: seq<Row>, loading: bool)

  /** A listed handle: a tree document for a directory, a single document otherwise. */
  datatype ListedFile = ListedFile(documentId: string, name: string, isTree: bool)

  function Handle(row: Row): (f: ListedFile)
    ensures f.documentId == row.documentId && f.name == row.displayName
    ensures f.isTree <==> row.mimeType == MIME_TYPE_DIR
  {
    ListedFile(row.documentId, row.displayName, row.mimeType == MIME_TYPE_DIR)
  }

  /** `files` lists `rows` one for one, in the cursor's order. */
  predicate ListsRows(files: seq<ListedFile>, rows: seq<Row>) {
    |files| == |rows| && forall j :: 0 <= j < |rows| ==> files[j] == Handle(rows[j])
  }

  /** Whether the content observer has fired by `time` ms into the wait, when it
      fires `loadedAt` ms in (never, for None). */
  predicate LoadedBy(loadedAt: Option<nat>, time: nat) {
    loadedAt.Some? && loadedAt.value <= time
  }

  /** The wait loop of `listFilesBlocking`: look at `loaded`, sleep 50 ms, until
      it is set or two minutes have passed. `time` is the elapsed time it exits
      with and `polls` the number of sleeps. */
  method AwaitLoaded(loadedAt: Option<nat>) returns (time: nat, polls: nat)
    ensures time == polls * POLL_MILLIS && time <= LOAD_TIMEOUT_MILLIS
    ensures polls <= LOAD_TIMEOUT_MILLIS / POLL_MILLIS
    ensures time < LOAD_TIMEOUT_MILLIS ==> LoadedBy(loadedAt, time)
    ensures forall t :: 0 <= t < time && t % POLL_MILLIS == 0 ==> !LoadedBy(loadedAt, t)
  {
    time, polls := 0, 0;
    var loaded := LoadedBy(loadedAt, time);
    while !loaded && time < LOAD_TIMEOUT_MILLIS
      invariant time == polls * POLL_MILLIS && time <= LOAD_TIMEOUT_MILLIS
      invariant loaded == LoadedBy(loadedAt, time)
      invariant forall t :: 0 <= t < time && t % POLL_MILLIS == 0 ==> !LoadedBy(loadedAt, t)
      decreases LOAD_TIMEOUT_MILLIS - time
    {
      time, polls := time + POLL_MILLIS, polls + 1;
      loaded := LoadedBy(loadedAt, time);
    }
  }

  /** The cursor whose rows `listFilesBlocking` lists when the provider answers
      its `i`-th query with `answers(i)`: the first answer, or the second when
      the first was still loading; None when that answer was null. */
  function ListedCursor(answers: nat -> Option<Cursor>): (r: Option<Cursor>)
    ensures answers(0).None? ==> r.None?
    ensures answers(0).Some? && !answers(0).value.loading ==> r == answers(0)
    ensures answers(0).Some? && answers(0).value.loading ==> r == answers(1)
  {
    if answers(0).Some? && answers(0).value.loading then answers(1) else answers(0)
  }

  /** `listFilesBlocking()`: one children query, and a second one after waiting
      when the first came back still loading (whether or not the wait timed
      out); an IOException when a query returns null. */
  method ListFilesBlocking(answers: nat -> Option<Cursor>, loadedAt: Option<nat>)
    returns (r: Result<seq<ListedFile>>, queries: nat)
    ensures queries == if answers(0).Some? && answers(0).value.loading then 2 else 1
    ensures r.Err? <==> ListedCursor(answers).None?
    ensures r.Err? ==> r.error == IOException
    ensures r.Ok? ==> ListsRows(r.value, ListedCursor(answers).value.rows)
  {
    var cursor := answers(0);
    queries := 1;
    if cursor.None? {
      return Err(IOException), queries;
    }
    if cursor.value.loading {
      var waited, polls := AwaitLoaded(loadedAt);
      cursor := answers(1);
      queries := 2;
      if cursor.None? {
        return Err(IOException), queries;
      }
    }
    var rows := cursor.value.rows;
    var result: seq<ListedFile> := [];
    var i := 0;
    while i < |rows|
      invariant 0 <= i <= |rows|
      invariant |result| == i && forall j :: 0 <= j < i ==> result[j] == Handle(rows[j])
    {
      result := result + [Handle(rows[i])];
      i := i + 1;
    }
    r := Ok(result);
  }

  /** `findFileBlocking(displayName)`: the first listed child with that name;
      null when there is none or when listing failed. */
  method FindFileBlocking(answers: nat -> Option<Cursor>, loadedAt: Option<nat>, displayName: string)
    returns (r: Option<ListedFile>)
    ensures ListedCursor(answers).None? ==> r == None
    ensures r.None? && ListedCursor(answers).Some? ==>
              forall j :: 0 <= j < |ListedCursor(answers).value.rows| ==>
                ListedCursor(answers).value.rows[j].displayName != displayName
    ensures r.Some? ==>
              && ListedCursor(answers).Some?
              && exists k :: 0 <= k < |ListedCursor(answers).value.rows|
                   && r.value == Handle(ListedCursor(answers).value.rows[k])
                   && r.value.name == displayName
                   && forall j :: 0 <= j < k ==> ListedCursor(answers).value.rows[j].displayName != displayName
  {
    var files, queries := ListFilesBlocking(answers, loadedAt);
    if files.Err? {
      return None;
    }
    ghost var rows := ListedCursor(answers).value.rows;
    for i := 0 to |files.value|
      invariant forall j :: 0 <= j < i ==> rows[j].displayName != displayName
    {
      if files.value[i].name == displayName {
        return Some(files.value[i]);
      }
    }
    r := None;
  }

  /** The `try { parent.createOrGetDirectory(name) } catch (e: IOException) { null }`
      of the cached getters: the child found or created, or null. */
  method ResolveChildDir(provider: DocumentProvider, parent: Document, name: string) returns (r: Document?)
    requires parent in provider.nodes && provider.Closed()
    modifies parent, provider
    ensures provider.Closed() && TreeGrownAt(provider, {parent}) && NodesGrown(provider)
    ensures old(FindFile(parent, name)) != null ==> r == old(FindFile(parent, name))
    ensures r != null ==> r in provider.nodes && r.name == name && r == FindFile(parent, name)
    ensures r == null ==> FindFile(parent, name) == null
    ensures r != null ==> r in old(provider.nodes) || (fresh(r) && r.children == [])
  {
    var dir := CreateOrGetDirectory(provider, parent, name);
    r := if dir.Ok? then dir.value else null;
  }

  /** The resolution in the getter of `rootBackupDir`: `.SeedVaultAndroidBackup`
      under `parent`, found or created, and then `.nomedia` inside it, found
      or created; null when either step fails. */
  method ResolveRootDir(provider: DocumentProvider, parent: Document) returns (r: Document?)
    requires parent in provider.nodes && provider.Closed()
    modifies parent, provider, provider.nodes
    ensures provider.Closed() && NodesGrown(provider)
    ensures TreeGrownAt(provider, {parent} + AsSet(r))
    ensures r != null ==> r in provider.nodes && r.name == DIRECTORY_ROOT && (r in old(provider.nodes) || fresh(r))
    ensures r != null ==> r == FindFile(parent, DIRECTORY_ROOT) && FindFile(r, FILE_NO_MEDIA) != null
    ensures r == null ==> FindChild(FindFile(parent, DIRECTORY_ROOT), FILE_NO_MEDIA) == null
  {
    var dir := CreateOrGetDirectory(provider, parent, DIRECTORY_ROOT);
    if dir.Err? {
      return null;
    }
    var noMedia := CreateOrGetFile(provider, dir.value, FILE_NO_MEDIA, MIME_TYPE);
    r := if noMedia.Ok? then dir.value else null;
  }

  // ---------------------------------------------------------------------------
  // DocumentsStorage

  /** Across a call, the provider forgets no document, the documents in `changed`
      only gain children (after the ones they had), and no other document gains
      or loses a child. */
  twostate predicate TreeGrownAt(provider: DocumentProvider, new changed: set<Document>)
    reads provider, provider.nodes
  {
    && old(provider.nodes) <= provider.nodes
    && forall d :: d in old(provider.nodes) ==>
         if d in changed then old(d.children) <= d.children else d.children == old(d.children)
  }

  /** The document `d` as a set: empty for null. */
  function AsSet(d: Document?): (s: set<Document>)
    ensures d != null ==> s == {d}
    ensures d == null ==> s == {}
  {
    if d == null then {} else {d}
  }

  /** Across a call, the documents the provider knows are those it knew before
      and new ones. */
  twostate predicate NodesGrown(provider: DocumentProvider)
    reads provider
  {
    old(provider.nodes) <= provider.nodes
    && forall d :: d in provider.nodes && d !in old(provider.nodes) ==> fresh(d)
  }

  /** A configured storage location and the document it resolves to
      (`Storage.getDocumentFile(context)`). */
  datatype Storage = Storage(name: string, document: Document)

  /** The part of the settings the layout reads: the chosen storage location
      and the "storage is changing" flag. */
  class SettingsManager {
    var storage: Option<Storage>
    var storageChanging: bool

    constructor (storage: Option<Storage>, storageChanging: bool)
      ensures this.storage == storage && this.storageChanging == storageChanging
    {
      this.storage := storage;
      this.storageChanging := storageChanging;
    }

    /** `getAndResetIsStorageChanging()`: reads the flag and clears it. */
    method GetAndResetIsStorageChanging() returns (changing: bool)
      modifies this
      ensures changing == old(storageChanging) && !storageChanging && storage == old(storage)
    {
      changing := storageChanging;
      storageChanging := false;
    }
  }

  /** `DocumentsStorage`: the lazily resolved, cached handles of the backup
      layout. A null handle is resolved again at its next read. */
  class DocumentsStorage {
    const metadataManager: Metadata.MetadataManager
    const settingsManager: SettingsManager
    const provider: DocumentProvider
    var storage: Option<Storage>
    var rootBackupDir: Document?
    var currentToken: Long
    var currentSetDir: Document?
    var currentFullBackupDir: Document?
    var currentKvBackupDir: Document?

    /** The provider's tree is closed, and every cached handle is a document of
        the provider with the name it was resolved by, whose parent handle is
        cached too. */
    ghost predicate Valid()
      reads this, provider, provider.nodes, settingsManager
    {
      provider.Closed() && HandlesValid(provider.nodes)
    }

    /** The cached handles, measured against a set of documents. */
    ghost predicate HandlesValid(nodes: set<Document>)
      reads this, settingsManager
    {
      && (settingsManager.storage.Some? ==> settingsManager.storage.value.document in nodes)
      && (storage.Some? ==> storage.value.document in nodes)
      && (rootBackupDir != null ==>
            rootBackupDir in nodes && rootBackupDir.name == DIRECTORY_ROOT && storage.Some?)
      && (currentSetDir != null ==>
            && currentSetDir in nodes && rootBackupDir != null
            && currentToken != 0 && currentSetDir.name == LongToString(currentToken))
      && (currentKvBackupDir != null ==>
            && currentKvBackupDir in nodes && currentSetDir != null
            && currentKvBackupDir.name == DIRECTORY_KEY_VALUE_BACKUP)
      && (currentFullBackupDir != null ==>
            && currentFullBackupDir in nodes && currentSetDir != null
            && currentFullBackupDir.name == DIRECTORY_FULL_BACKUP)
    }

    /** The token a read of the metadata ledger yields. */
    static function LedgerToken(l: Result<Metadata.Ledger>): Result<Long>
    {
      if l.Ok? then Ok(l.value.token) else Err(AssertionError)
    }

    /** A further read of the token yields the cached one: it is not 0, or the
        metadata ledger's token is 0 too. */
    ghost predicate TokenSettled(token: Long)
      reads metadataManager, metadataManager.Repr()
    {
      token != 0 || metadataManager.TokenReadsZero()
    }

    constructor (metadataManager: Metadata.MetadataManager, settingsManager: SettingsManager, provider: DocumentProvider)
      requires provider.Closed()
      requires settingsManager.storage.Some? ==> settingsManager.storage.value.document in provider.nodes
      ensures Valid()
      ensures this.metadataManager == metadataManager && this.settingsManager == settingsManager && this.provider == provider
      ensures storage.None? && rootBackupDir == null && currentToken == 0
      ensures currentSetDir == null && currentFullBackupDir == null && currentKvBackupDir == null
    {
      this.metadataManager := metadataManager;
      this.settingsManager := settingsManager;
      this.provider := provider;
      storage := None;
      rootBackupDir := null;
      currentToken := 0;
      currentSetDir := null;
      currentFullBackupDir := null;
      currentKvBackupDir := null;
    }

    /** The getter of `storage`: the settings' location, read once and cached. */
    method GetStorage() returns (s: Option<Storage>)
      requires Valid()
      modifies this
      ensures Valid() && storage == s
      ensures s == if old(storage).Some? then old(storage) else settingsManager.storage
      ensures rootBackupDir == old(rootBackupDir) && currentToken == old(currentToken)
      ensures currentSetDir == old(currentSetDir)
      ensures currentFullBackupDir == old(currentFullBackupDir) && currentKvBackupDir == old(currentKvBackupDir)
    {
      if storage.None? {
        storage := settingsManager.storage;
      }
      s := storage;
    }

    /** The documents the getter of `rootBackupDir` adds children to: the
        storage document and the cached root. */
    ghost function RootDirs(): set<Document>
      reads this
    {
      (if storage.Some? then {storage.value.document} else {}) + AsSet(rootBackupDir)
    }

    /** The documents the getters add children to: those of `RootDirs` and the
        cached set directory. */
    ghost function LayoutDirs(): set<Document>
      reads this
    {
      RootDirs() + AsSet(currentSetDir)
    }

    /** Across a call, a cached storage, backup root or set directory stays cached. */
    twostate predicate LayoutKept()
      reads this
    {
      && (old(storage).Some? ==> storage == old(storage))
      && (old(rootBackupDir) != null ==> rootBackupDir == old(rootBackupDir))
      && (old(currentSetDir) != null ==> currentSetDir == old(currentSetDir))
    }

    /** The getter of `rootBackupDir`: `.SeedVaultAndroidBackup` under the storage
        document, found or created, with a `.nomedia` file found or created in it
        before it is cached; null without storage, and null (to be retried) when
        the provider fails. */
    method GetRootBackupDir() returns (r: Document?)
      requires Valid()
      modifies this, provider, provider.nodes
      ensures Valid() && rootBackupDir == r && NodesGrown(provider)
      ensures storage == if old(storage).Some? then old(storage) else settingsManager.storage
      ensures currentToken == old(currentToken) && currentSetDir == old(currentSetDir)
      ensures currentFullBackupDir == old(currentFullBackupDir) && currentKvBackupDir == old(currentKvBackupDir)
      ensures TreeGrownAt(provider, RootDirs()) && LayoutKept()
      ensures old(rootBackupDir) != null ==> r == old(rootBackupDir) && TreeGrownAt(provider, {})
      ensures storage.None? ==> r == null && TreeGrownAt(provider, {})
      ensures old(rootBackupDir) == null && r != null ==>
                && storage.Some? && r == FindFile(storage.value.document, DIRECTORY_ROOT)
                && FindFile(r, FILE_NO_MEDIA) != null
      ensures r == null ==>
                storage.None? || FindChild(FindFile(storage.value.document, DIRECTORY_ROOT), FILE_NO_MEDIA) == null
    {
      if rootBackupDir == null {
        var s := GetStorage();
        if s.None? {
          return null;
        }
        rootBackupDir := ResolveRootDir(provider, s.value.document);
      }
      r := rootBackupDir;
    }

    /** The getter of `currentToken`: the cached token, read again from the
        metadata ledger while it is 0; the ledger's AssertionError propagates. */
    method GetCurrentToken() returns (r: Result<Long>)
      requires Valid()
      modifies this, metadataManager
      ensures Valid()
      ensures storage == old(storage) && rootBackupDir == old(rootBackupDir) && currentSetDir == old(currentSetDir)
      ensures currentFullBackupDir == old(currentFullBackupDir) && currentKvBackupDir == old(currentKvBackupDir)
      ensures r.Ok? ==> currentToken == r.value && TokenSettled(currentToken)
      ensures r.Err? ==> r.error == AssertionError && old(currentToken) == 0 && currentToken == 0
      ensures old(currentToken) != 0 ==> r == Ok(old(currentToken)) && unchanged(metadataManager)
      ensures old(currentToken) == 0 ==> r == LedgerToken(old(metadataManager.Loaded()))
      ensures old(TokenSettled(currentToken)) ==> r == Ok(old(currentToken))
    {
      if currentToken == 0 {
        var t :- metadataManager.GetBackupToken();
        currentToken := t;
      }
      r := Ok(currentToken);
    }

    /** The getter of `currentSetDir`: null while the token is 0 (creating
        nothing), else the root's child named by the token, found or created;
        null (to be retried) when the root or the provider fails. */
    method GetCurrentSetDir() returns (r: Result<Document?>)
      requires Valid()
      modifies this, metadataManager, provider, provider.nodes
      ensures Valid()
      ensures currentFullBackupDir == old(currentFullBackupDir) && currentKvBackupDir == old(currentKvBackupDir)
      ensures r.Ok? ==> currentSetDir == r.value && TokenSettled(currentToken)
      ensures NodesGrown(provider) && TreeGrownAt(provider, LayoutDirs()) && LayoutKept()
      ensures r.Err? ==> r.error == AssertionError && currentSetDir == null && TreeGrownAt(provider, {})
      ensures r.Err? <==>
                old(currentSetDir) == null && old(currentToken) == 0 && old(metadataManager.Loaded()).Err?
      ensures old(TokenSettled(currentToken)) ==> currentToken == old(currentToken)
      ensures old(currentToken) != 0 ==> r.Ok? && unchanged(metadataManager)
      ensures old(currentSetDir) != null ==>
                && r == Ok(old(currentSetDir)) && storage == old(storage) && rootBackupDir == old(rootBackupDir)
                && TreeGrownAt(provider, {}) && unchanged(metadataManager)
      ensures r.Ok? && currentToken == 0 ==> r.value == null && TreeGrownAt(provider, {})
      ensures old(currentSetDir) == null && r.Ok? && r.value != null ==>
                rootBackupDir != null && r.value == FindFile(rootBackupDir, LongToString(currentToken))
      ensures currentSetDir == null ==> SetDirMissing()
      ensures old(rootBackupDir) != null ==> TreeGrownAt(provider, {old(rootBackupDir)})
    {
      if currentSetDir != null {
        return Ok(currentSetDir);
      }
      r := ResolveSetDir();
    }

    /** Why the set directory is not there: the token is 0, or the backup root is
        missing (no storage, or no root with a `.nomedia` file under the storage
        document), or the root has no child named by the token. */
    ghost predicate SetDirMissing()
      reads this, rootBackupDir, if storage.Some? then {storage.value.document} else {}
      reads if storage.Some? then AsSet(FindFile(storage.value.document, DIRECTORY_ROOT)) else {}
    {
      || currentToken == 0
      || (rootBackupDir == null
          && (storage.None? || FindChild(FindFile(storage.value.document, DIRECTORY_ROOT), FILE_NO_MEDIA) == null))
      || (rootBackupDir != null && FindFile(rootBackupDir, LongToString(currentToken)) == null)
    }

    /** The uncached branch of the getter of `currentSetDir`. */
    method ResolveSetDir() returns (r: Result<Document?>)
      requires Valid() && currentSetDir == null
      modifies this, metadataManager, provider, provider.nodes
      ensures Valid() && NodesGrown(provider) && TreeGrownAt(provider, LayoutDirs()) && LayoutKept()
      ensures currentFullBackupDir == old(currentFullBackupDir) && currentKvBackupDir == old(currentKvBackupDir)
      ensures r.Ok? ==> currentSetDir == r.value && TokenSettled(currentToken)
      ensures r.Err? ==> r.error == AssertionError && currentSetDir == null && TreeGrownAt(provider, {})
      ensures r.Err? <==> old(currentToken) == 0 && old(metadataManager.Loaded()).Err?
      ensures old(TokenSettled(currentToken)) ==> currentToken == old(currentToken)
      ensures old(currentToken) != 0 ==> r.Ok? && unchanged(metadataManager)
      ensures r.Ok? && currentToken == 0 ==> r.value == null && TreeGrownAt(provider, {})
      ensures r.Ok? && r.value != null ==>
                rootBackupDir != null && r.value == FindFile(rootBackupDir, LongToString(currentToken))
      ensures currentSetDir == null ==> SetDirMissing()
      ensures old(rootBackupDir) != null ==> TreeGrownAt(provider, {old(rootBackupDir)})
    {
      var token := GetCurrentToken();
      if token.Err? {
        r := Err(token.error);
      } else if token.value == 0 {
        r := Ok(null);
      } else {
        r := CreateSetDir();
      }
    }

    /** The getter of `currentSetDir` once the token is read and is not 0: the
        root's child named by the token, found or created. */
    method CreateSetDir() returns (r: Result<Document?>)
      requires Valid() && currentSetDir == null && currentToken != 0
      modifies this, provider, provider.nodes
      ensures Valid() && NodesGrown(provider) && TreeGrownAt(provider, LayoutDirs()) && LayoutKept()
      ensures currentToken == old(currentToken)
      ensures currentFullBackupDir == old(currentFullBackupDir) && currentKvBackupDir == old(currentKvBackupDir)
      ensures r == Ok(currentSetDir)
      ensures currentSetDir != null ==>
                rootBackupDir != null && currentSetDir == FindFile(rootBackupDir, LongToString(currentToken))
      ensures currentSetDir == null ==> SetDirMissing()
      ensures old(rootBackupDir) != null ==> TreeGrownAt(provider, {old(rootBackupDir)})
    {
      var root := GetRootBackupDir();
      if root != null {
        currentSetDir := ResolveChildDir(provider, root, LongToString(currentToken));
      }
      r := Ok(currentSetDir);
    }

    /** The getter of `currentKvBackupDir`: `kv` under the current set directory,
        found or created; null (to be retried) without a set directory or when
        the provider fails. */
    method GetCurrentKvBackupDir() returns (r: Result<Document?>)
      requires Valid()
      modifies this, metadataManager, provider, provider.nodes
      ensures Valid()
      ensures currentFullBackupDir == old(currentFullBackupDir)
      ensures NodesGrown(provider) && TreeGrownAt(provider, LayoutDirs()) && LayoutKept()
      ensures r.Ok? ==> currentKvBackupDir == r.value && TokenSettled(currentToken)
      ensures r.Err? ==> r.error == AssertionError && currentKvBackupDir == null
      ensures r.Err? <==>
                && old(currentKvBackupDir) == null && old(currentSetDir) == null
                && old(currentToken) == 0 && old(metadataManager.Loaded()).Err?
      ensures old(TokenSettled(currentToken)) ==> currentToken == old(currentToken)
      ensures old(currentKvBackupDir) != null ==>
                && r == Ok(old(currentKvBackupDir)) && currentSetDir == old(currentSetDir)
                && TreeGrownAt(provider, {}) && unchanged(metadataManager)
      ensures old(currentKvBackupDir) == null && r.Ok? && r.value != null ==>
                currentSetDir != null && r.value == FindFile(currentSetDir, DIRECTORY_KEY_VALUE_BACKUP)
      ensures r.Ok? && r.value == null ==>
                currentSetDir == null || FindFile(currentSetDir, DIRECTORY_KEY_VALUE_BACKUP) == null
      ensures old(currentSetDir) != null ==>
                currentSetDir == old(currentSetDir) && TreeGrownAt(provider, {old(currentSetDir)})
    {
      if currentKvBackupDir != null {
        return Ok(currentKvBackupDir);
      }
      r := ResolveInSetDir(DIRECTORY_KEY_VALUE_BACKUP);
      if r.Ok? {
        currentKvBackupDir := r.value;
      }
    }

    /** The getter of `currentFullBackupDir`: as `currentKvBackupDir`, for `full`. */
    method GetCurrentFullBackupDir() returns (r: Result<Document?>)
      requires Valid()
      modifies this, metadataManager, provider, provider.nodes
      ensures Valid()
      ensures currentKvBackupDir == old(currentKvBackupDir)
      ensures NodesGrown(provider) && TreeGrownAt(provider, LayoutDirs()) && LayoutKept()
      ensures r.Ok? ==> currentFullBackupDir == r.value && TokenSettled(currentToken)
      ensures r.Err? ==> r.error == AssertionError && currentFullBackupDir == null
      ensures r.Err? <==>
                && old(currentFullBackupDir) == null && old(currentSetDir) == null
                && old(currentToken) == 0 && old(metadataManager.Loaded()).Err?
      ensures old(TokenSettled(currentToken)) ==> currentToken == old(currentToken)
      ensures old(currentFullBackupDir) != null ==>
                && r == Ok(old(currentFullBackupDir)) && currentSetDir == old(currentSetDir)
                && TreeGrownAt(provider, {}) && unchanged(metadataManager)
      ensures old(currentFullBackupDir) == null && r.Ok? && r.value != null ==>
                currentSetDir != null && r.value == FindFile(currentSetDir, DIRECTORY_FULL_BACKUP)
      ensures r.Ok? && r.value == null ==>
                currentSetDir == null || FindFile(currentSetDir, DIRECTORY_FULL_BACKUP) == null
      ensures old(currentSetDir) != null ==>
                currentSetDir == old(currentSetDir) && TreeGrownAt(provider, {old(currentSetDir)})
    {
      if currentFullBackupDir != null {
        return Ok(currentFullBackupDir);
      }
      r := ResolveInSetDir(DIRECTORY_FULL_BACKUP);
      if r.Ok? {
        currentFullBackupDir := r.value;
      }
    }

    /** The uncached branch of the getters of `currentKvBackupDir` and
        `currentFullBackupDir`: `name` under the current set directory, found or
        created; null without a set directory or when the provider fails. */
    method ResolveInSetDir(name: string) returns (r: Result<Document?>)
      requires Valid() && (name == DIRECTORY_KEY_VALUE_BACKUP || name == DIRECTORY_FULL_BACKUP)
      modifies this, metadataManager, provider, provider.nodes
      ensures Valid() && NodesGrown(provider) && TreeGrownAt(provider, LayoutDirs()) && LayoutKept()
      ensures currentFullBackupDir == old(currentFullBackupDir) && currentKvBackupDir == old(currentKvBackupDir)
      ensures r.Ok? ==> TokenSettled(currentToken)
      ensures r.Err? ==> r.error == AssertionError
      ensures r.Err? <==>
                old(currentSetDir) == null && old(currentToken) == 0 && old(metadataManager.Loaded()).Err?
      ensures old(TokenSettled(currentToken)) ==> currentToken == old(currentToken)
      ensures r.Ok? && r.value != null ==>
                && currentSetDir != null && r.value in provider.nodes && r.value.name == name
                && r.value == FindFile(currentSetDir, name)
      ensures r.Ok? && r.value == null ==> currentSetDir == null || FindFile(currentSetDir, name) == null
      ensures old(currentSetDir) != null ==>
                currentSetDir == old(currentSetDir) && TreeGrownAt(provider, {old(currentSetDir)})
    {
      var setDir :- GetCurrentSetDir();
      if setDir == null {
        return Ok(null);
      }
      var dir := ResolveChildDir(provider, setDir, name);
      r := Ok(dir);
    }

    /** `isInitialized()`: false when the storage location has just changed
        (the flag is read and cleared, and no directory is touched); otherwise
        whether the `kv` and `full` directories of the current set both resolve
        (being created if need be) and have no children. Both are resolved even
        when the first is not empty. */
    method IsInitialized() returns (r: Result<bool>)
      requires Valid()
      modifies this, metadataManager, provider, provider.nodes, settingsManager
      ensures Valid() && TreeGrownAt(provider, LayoutDirs()) && LayoutKept()
      ensures !settingsManager.storageChanging && settingsManager.storage == old(settingsManager.storage)
      ensures old(settingsManager.storageChanging) ==>
                r == Ok(false) && unchanged(this) && unchanged(metadataManager) && TreeGrownAt(provider, {})
      ensures r.Err? ==> r.error == AssertionError
      ensures r.Err? <==>
                && !old(settingsManager.storageChanging)
                && old(currentKvBackupDir) == null && old(currentSetDir) == null
                && old(currentToken) == 0 && old(metadataManager.Loaded()).Err?
      ensures old(currentKvBackupDir) != null ==> currentKvBackupDir == old(currentKvBackupDir)
      ensures old(currentFullBackupDir) != null ==> currentFullBackupDir == old(currentFullBackupDir)
      ensures r == Ok(true) <==>
                && !old(settingsManager.storageChanging)
                && currentKvBackupDir != null && currentKvBackupDir.children == []
                && currentFullBackupDir != null && currentFullBackupDir.children == []
    {
      var changing := settingsManager.GetAndResetIsStorageChanging();
      if changing {
        r := Ok(false);
      } else {
        r := BothEmpty();
      }
    }

    /** The second part of `isInitialized()`: the `kv` and `full` directories
        are resolved, in that order, and both must have no children. */
    method BothEmpty() returns (r: Result<bool>)
      requires Valid()
      modifies this, metadataManager, provider, provider.nodes
      ensures Valid() && TreeGrownAt(provider, LayoutDirs()) && LayoutKept()
      ensures r.Err? ==> r.error == AssertionError
      ensures r.Err? <==>
                && old(currentKvBackupDir) == null && old(currentSetDir) == null
                && old(currentToken) == 0 && old(metadataManager.Loaded()).Err?
      ensures old(currentKvBackupDir) != null ==> currentKvBackupDir == old(currentKvBackupDir)
      ensures old(currentFullBackupDir) != null ==> currentFullBackupDir == old(currentFullBackupDir)
      ensures r == Ok(true) <==>
                && currentKvBackupDir != null && currentKvBackupDir.children == []
                && currentFullBackupDir != null && currentFullBackupDir.children == []
    {
      var kv := GetCurrentKvBackupDir();
      if kv.Err? {
        return Err(kv.error);
      }
      var kvEmpty := kv.value != null && |kv.value.children| == 0;
      ghost var kvChildren := if kv.value != null then kv.value.children else [];
      var full := GetCurrentFullBackupDir();
      if kv.value != null {
        assert kv.value.name != currentSetDir.name by {
          assert currentSetDir.name == LongToString(currentToken);
        }
        assert kv.value.children == kvChildren;
      }
      // The token is settled once `kv` resolved, so this getter does not fail.
      var fullEmpty := full.Ok? && full.value != null && |full.value.children| == 0;
      r := Ok(kvEmpty && fullEmpty);
    }

    /** `getSetDir(token)`: the current set directory for the current token;
        for another token, the root's child named by it, looked up only. */
    method GetSetDir(token: Long) returns (r: Result<Document?>)
      requires Valid()
      modifies this, metadataManager, provider, provider.nodes
      ensures Valid() && NodesGrown(provider) && TreeGrownAt(provider, LayoutDirs()) && LayoutKept()
      ensures currentFullBackupDir == old(currentFullBackupDir) && currentKvBackupDir == old(currentKvBackupDir)
      ensures old(TokenSettled(currentToken)) ==> currentToken == old(currentToken)
      ensures r.Ok? ==> TokenSettled(currentToken)
      ensures r.Err? ==> r.error == AssertionError
      ensures r.Err? <==> old(currentToken) == 0 && old(metadataManager.Loaded()).Err?
      ensures r.Ok? && r.value != null ==> r.value in provider.nodes
      ensures r.Ok? && token == currentToken ==> r.value == currentSetDir
      ensures r.Ok? && token == currentToken && r.value == null ==> SetDirMissing()
      ensures r.Ok? && token != currentToken ==>
                && r.value == FindChild(rootBackupDir, LongToString(token))
                && currentSetDir == old(currentSetDir)
      ensures r.Ok? && token != currentToken && old(rootBackupDir) != null ==>
                TreeGrownAt(provider, {})
    {
      var current := GetCurrentToken();
      if current.Err? {
        r := Err(current.error);
      } else if token == current.value {
        r := GetCurrentSetDir();
      } else {
        r := LookUpSetDir(token);
      }
    }

    /** The other-token branch of `getSetDir`: the root's child named by the
        token, looked up only. */
    method LookUpSetDir(token: Long) returns (r: Result<Document?>)
      requires Valid()
      modifies this, provider, provider.nodes
      ensures Valid() && NodesGrown(provider) && TreeGrownAt(provider, LayoutDirs()) && LayoutKept()
      ensures currentToken == old(currentToken) && currentSetDir == old(currentSetDir)
      ensures currentFullBackupDir == old(currentFullBackupDir) && currentKvBackupDir == old(currentKvBackupDir)
      ensures r.Ok? && r.value == FindChild(rootBackupDir, LongToString(token))
      ensures r.value != null ==> r.value in provider.nodes
      ensures old(rootBackupDir) != null ==> TreeGrownAt(provider, {})
    {
      var root := GetRootBackupDir();
      r := Ok(FindChild(root, LongToString(token)));
    }

    /** `getKVBackupDir(token)`: the current `kv` directory for the current
        token, an IOException when it cannot be had; for another token, `kv`
        under that token's set directory, looked up only. */
    method GetKVBackupDir(token: Long) returns (r: Result<Document?>)
      requires Valid()
      modifies this, metadataManager, provider, provider.nodes
      ensures Valid() && NodesGrown(provider) && TreeGrownAt(provider, LayoutDirs())
      ensures old(TokenSettled(currentToken)) ==> currentToken == old(currentToken)
      ensures r.Ok? ==> TokenSettled(currentToken)
      ensures r.Err? && r.error == AssertionError <==>
                old(currentToken) == 0 && old(metadataManager.Loaded()).Err?
      ensures r.Err? ==>
                || r.error == AssertionError
                || (&& r.error == IOException && token == currentToken && currentKvBackupDir == null
                    && (currentSetDir == null || FindFile(currentSetDir, DIRECTORY_KEY_VALUE_BACKUP) == null))
      ensures r.Ok? && token == currentToken ==> r.value != null && r.value == currentKvBackupDir
      ensures r.Ok? && token != currentToken ==>
                r.value == FindChild(FindChild(rootBackupDir, LongToString(token)), DIRECTORY_KEY_VALUE_BACKUP)
      ensures r.Ok? && token != currentToken && old(rootBackupDir) != null ==>
                TreeGrownAt(provider, {})
    {
      var current := GetCurrentToken();
      if current.Err? {
        r := Err(current.error);
      } else if token == current.value {
        var kv := GetCurrentKvBackupDir();
        // The token is settled, so the getter does not fail here.
        r := if kv.Ok? && kv.value != null then Ok(kv.value) else Err(IOException);
      } else {
        var setDir := GetSetDir(token);
        // The token is settled, so the lookup does not fail here.
        r := if setDir.Ok? then Ok(FindChild(setDir.value, DIRECTORY_KEY_VALUE_BACKUP)) else Err(AssertionError);
      }
    }

    /** `getOrCreateKVBackupDir(token)`: as `getKVBackupDir`, except that for
        another token a missing set directory is an IOException and its `kv`
        directory is found or created. */
    method GetOrCreateKVBackupDir(token: Long) returns (r: Result<Document>)
      requires Valid()
      modifies this, metadataManager, provider, provider.nodes
      ensures Valid() && NodesGrown(provider)
      ensures TreeGrownAt(provider, LayoutDirs() + AsSet(FindChild(rootBackupDir, LongToString(token))))
      ensures old(TokenSettled(currentToken)) ==> currentToken == old(currentToken)
      ensures r.Ok? ==> r.value in provider.nodes
      ensures r.Err? ==> r.error == AssertionError || r.error == IOException
      ensures r.Err? && r.error == AssertionError <==>
                old(currentToken) == 0 && old(metadataManager.Loaded()).Err?
      ensures r.Err? && r.error == IOException ==>
                || (&& token == currentToken && currentKvBackupDir == null
                    && (currentSetDir == null || FindFile(currentSetDir, DIRECTORY_KEY_VALUE_BACKUP) == null))
                || (token != currentToken && OtherKvMissing(token))
      ensures r.Ok? && token == currentToken ==> r.value == currentKvBackupDir
      ensures r.Ok? && token != currentToken ==>
                && rootBackupDir != null
                && FindFile(rootBackupDir, LongToString(token)) != null
                && r.value == FindFile(FindFile(rootBackupDir, LongToString(token)), DIRECTORY_KEY_VALUE_BACKUP)
    {
      var current := GetCurrentToken();
      if current.Err? {
        r := Err(current.error);
      } else if token == current.value {
        var kv := GetCurrentKvBackupDir();
        // The token is settled, so the getter does not fail here.
        r := if kv.Ok? && kv.value != null then Ok(kv.value) else Err(IOException);
      } else {
        r := CreateKvInOtherSet(token);
      }
    }

    /** Why another token's `kv` directory cannot be had: the backup root or the
        token's set directory under it is missing, or it has no `kv`. */
    ghost predicate OtherKvMissing(token: Long)
      reads this, rootBackupDir, AsSet(FindChild(rootBackupDir, LongToString(token)))
    {
      FindChild(FindChild(rootBackupDir, LongToString(token)), DIRECTORY_KEY_VALUE_BACKUP) == null
    }

    /** The other-token branch of `getOrCreateKVBackupDir`: the token's set
        directory, which must exist, and `kv` found or created in it. */
    method CreateKvInOtherSet(token: Long) returns (r: Result<Document>)
      requires Valid() && TokenSettled(currentToken) && token != currentToken
      modifies this, metadataManager, provider, provider.nodes
      ensures Valid() && NodesGrown(provider) && currentToken == old(currentToken)
      ensures TreeGrownAt(provider, LayoutDirs() + AsSet(FindChild(rootBackupDir, LongToString(token))))
      ensures r.Ok? ==> r.value in provider.nodes
      ensures r.Err? ==> r.error == IOException && OtherKvMissing(token)
      ensures r.Ok? ==>
                && rootBackupDir != null
                && FindFile(rootBackupDir, LongToString(token)) != null
                && r.value == FindFile(FindFile(rootBackupDir, LongToString(token)), DIRECTORY_KEY_VALUE_BACKUP)
    {
      var setDir := GetSetDir(token);
      // The token is settled, so the lookup does not fail here.
      if setDir.Err? || setDir.value == null {
        r := Err(IOException);
      } else {
        var root := rootBackupDir;
        ghost var rootChildren := root.children;
        assert root != setDir.value by {
          assert setDir.value.name == LongToString(token);
          assert root.name[0] == '.';
        }
        r := CreateOrGetDirectory(provider, setDir.value, DIRECTORY_KEY_VALUE_BACKUP);
        assert root.children == rootChildren;
      }
    }

    /** `getFullBackupDir(token)`: as `getKVBackupDir`, for `full`. */
    method GetFullBackupDir(token: Long) returns (r: Result<Document?>)
      requires Valid()
      modifies this, metadataManager, provider, provider.nodes
      ensures Valid() && NodesGrown(provider) && TreeGrownAt(provider, LayoutDirs())
      ensures old(TokenSettled(currentToken)) ==> currentToken == old(currentToken)
      ensures r.Ok? ==> TokenSettled(currentToken)
      ensures r.Err? && r.error == AssertionError <==>
                old(currentToken) == 0 && old(metadataManager.Loaded()).Err?
      ensures r.Err? ==>
                || r.error == AssertionError
                || (&& r.error == IOException && token == currentToken && currentFullBackupDir == null
                    && (currentSetDir == null || FindFile(currentSetDir, DIRECTORY_FULL_BACKUP) == null))
      ensures r.Ok? && token == currentToken ==> r.value != null && r.value == currentFullBackupDir
      ensures r.Ok? && token != currentToken ==>
                r.value == FindChild(FindChild(rootBackupDir, LongToString(token)), DIRECTORY_FULL_BACKUP)
      ensures r.Ok? && token != currentToken && old(rootBackupDir) != null ==>
                TreeGrownAt(provider, {})
    {
      var current := GetCurrentToken();
      if current.Err? {
        r := Err(current.error);
      } else if token == current.value {
        var full := GetCurrentFullBackupDir();
        // The token is settled, so the getter does not fail here.
        r := if full.Ok? && full.value != null then Ok(full.value) else Err(IOException);
      } else {
        var setDir := GetSetDir(token);
        // The token is settled, so the lookup does not fail here.
        r := if setDir.Ok? then Ok(FindChild(setDir.value, DIRECTORY_FULL_BACKUP)) else Err(AssertionError);
      }
    }

    /** `reset(newToken)`: forgets every cached handle and adopts `newToken`. */
    method Reset(newToken: Long)
      requires Valid()
      modifies this
      ensures Valid()
      ensures storage.None? && rootBackupDir == null && currentToken == newToken
      ensures currentSetDir == null && currentFullBackupDir == null && currentKvBackupDir == null
    {
      storage := None;
      currentToken := newToken;
      rootBackupDir := null;
      currentSetDir := null;
      currentKvBackupDir := null;
      currentFullBackupDir := null;
    }
  }

  /** After `reset(token)` with a token other than 0, the set directory resolves
      to the root's child named by that token, without consulting the metadata. */
  method ResetThenResolveSetDir(storage: DocumentsStorage, token: Long) returns (r: Result<Document?>)
    requires storage.Valid() && token != 0
    modifies storage, storage.metadataManager, storage.provider, storage.provider.nodes
    ensures r.Ok? && unchanged(storage.metadataManager)
    ensures r.value != null ==>
              && r.value.name == LongToString(token) && storage.rootBackupDir != null
              && r.value == FindFile(storage.rootBackupDir, LongToString(token))
  {
    storage.Reset(token);
    r := storage.GetCurrentSetDir();
  }
}
