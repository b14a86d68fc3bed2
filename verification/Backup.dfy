/**
 Offline backup and restore of the database and the artifact store
 (apps/server/src/storage-operations.ts:29-113).
 */
module Backup {
  import opened Common
  import opened ArtifactStore

  const MAX_SAFE_INTEGER: nat := 9007199254740991

  datatype Entry = Entry(name: string, sha256: string, size: nat)
  datatype Manifest = Manifest(database: Entry, artifacts: seq<Entry>)

  /** A published backup directory: the archive, the copied blobs and the manifest. */
  datatype Archive = Archive(database: Bytes, files: map<string, Bytes>, manifest: Manifest)

  /** A restored data directory. */
  datatype Storage = Storage(database: Bytes, artifacts: map<string, Bytes>)

  datatype Failure = DestinationExists | UnexpectedEntry | Corrupt | BadManifest | MissingFile | Mismatch | Unhealthy
  datatype Result<T> = Ok(value: T) | Err(error: Failure)

  const DATABASE := "database.tar.gz"

  function EntryOf(h: Hash, name: string, bytes: Bytes): Entry {
    Entry(name, h(bytes), |bytes|)
  }

  // ---------------------------------------------------------------- backup

  /** The blobs of a directory: everything but unfinished uploads. */
  function Blobs(files: map<string, Bytes>): map<string, Bytes> {
    map name | name in files && !IsUpload(name) :: files[name]
  }

  /** A listing of the directory, each entry once, as `readdir` gives it. */
  ghost predicate Lists(names: seq<string>, files: map<string, Bytes>) {
    && (forall i | 0 <= i < |names| :: names[i] in files)
    && (forall name | name in files :: name in names)
    && (forall i, j | 0 <= i < j < |names| :: names[i] != names[j])
  }

  /** The manifest describes exactly these files, each once. */
  ghost predicate Describes(h: Hash, entries: seq<Entry>, files: map<string, Bytes>) {
    && (forall i | 0 <= i < |entries| :: entries[i].name in files
          && entries[i] == EntryOf(h, entries[i].name, files[entries[i].name]))
    && (forall name | name in files :: exists i :: 0 <= i < |entries| && entries[i].name == name)
    && (forall i, j | 0 <= i < j < |entries| :: entries[i].name != entries[j].name)
  }

  ghost predicate CopiedSoFar(h: Hash, names: seq<string>, k: nat, files: map<string, Bytes>,
                              copied: map<string, Bytes>, entries: seq<Entry>)
    requires k <= |names| && forall i | 0 <= i < |names| :: names[i] in files
  {
    && (forall name :: name in copied <==> name in names[..k] && !IsUpload(name))
    && (forall name | name in copied :: name in files && copied[name] == files[name] && IsDigest(name)
          && h(files[name]) == name)
    && Describes(h, entries, copied)
  }

  lemma DescribesExtends(h: Hash, entries: seq<Entry>, copied: map<string, Bytes>, name: string, bytes: Bytes)
    requires Describes(h, entries, copied) && name !in copied
    ensures Describes(h, entries + [EntryOf(h, name, bytes)], copied[name := bytes])
  {
    var more := entries + [EntryOf(h, name, bytes)];
    assert more[|entries|].name == name && forall i | 0 <= i < |entries| :: more[i] == entries[i];
    forall n | n in copied ensures exists i :: 0 <= i < |more| && more[i].name == n {
      var i :| 0 <= i < |entries| && entries[i].name == n;
      assert more[i].name == n;
    }
  }

  lemma CopyExtends(h: Hash, names: seq<string>, k: nat, files: map<string, Bytes>, copied: map<string, Bytes>,
                    entries: seq<Entry>)
    requires k < |names| && Lists(names, files) && CopiedSoFar(h, names, k, files, copied, entries)
    requires var name := names[k]; !IsUpload(name) && IsDigest(name) && h(files[name]) == name
    ensures var name := names[k];
            CopiedSoFar(h, names, k + 1, files, copied[name := files[name]], entries + [EntryOf(h, name, files[name])])
  {
    assert names[..k + 1] == names[..k] + [names[k]];
    DescribesExtends(h, entries, copied, names[k], files[names[k]]);
  }

  lemma SkipExtends(h: Hash, names: seq<string>, k: nat, files: map<string, Bytes>, copied: map<string, Bytes>,
                    entries: seq<Entry>)
    requires k < |names| && Lists(names, files) && CopiedSoFar(h, names, k, files, copied, entries)
             && IsUpload(names[k])
    ensures CopiedSoFar(h, names, k + 1, files, copied, entries)
  {
    assert names[..k + 1] == names[..k] + [names[k]];
  }

  /** The copying loop of `writeBackup`: it ends well exactly on a clean directory. */
  method CopyBlobs(h: Hash, names: seq<string>, files: map<string, Bytes>)
    returns (r: Result<(map<string, Bytes>, seq<Entry>)>)
    requires Lists(names, files)
    ensures r.Ok? <==> Clean(h, files)
    ensures r.Ok? ==> r.value.0 == Blobs(files) && Describes(h, r.value.1, r.value.0)
  {
    var copied: map<string, Bytes>, entries: seq<Entry> := map[], [];
    var k := 0;
    while k < |names|
      invariant 0 <= k <= |names| && CopiedSoFar(h, names, k, files, copied, entries)
    {
      var name := names[k];
      if IsUpload(name) {
        SkipExtends(h, names, k, files, copied, entries);
      } else {
        if !IsDigest(name) { return Err(UnexpectedEntry); }
        var bytes := files[name];
        if h(bytes) != name { return Err(Corrupt); }
        CopyExtends(h, names, k, files, copied, entries);
        copied := copied[name := bytes];
        entries := entries + [Entry(name, name, |bytes|)];
      }
      k := k + 1;
    }
    assert names[..k] == names;
    assert copied == Blobs(files);
    return Ok((copied, entries));
  }

  method WriteBackup(h: Hash, database: Bytes, names: seq<string>, files: map<string, Bytes>, destinationExists: bool)
    returns (r: Result<Archive>)
    requires Lists(names, files)
    ensures r.Ok? <==> Clean(h, files) && !destinationExists
    ensures r.Ok? ==> IsBackup(h, r.value, database, files)
  {
    if destinationExists { return Err(DestinationExists); }
    var copied := CopyBlobs(h, names, files);
    if copied.Err? { return Err(copied.error); }
    return Ok(Archive(database, copied.value.0, Manifest(EntryOf(h, DATABASE, database), copied.value.1)));
  }

  /** What a backup of a database and a directory is. */
  ghost predicate IsBackup(h: Hash, a: Archive, database: Bytes, files: map<string, Bytes>) {
    && a.database == database && a.files == Blobs(files)
    && a.manifest.database == EntryOf(h, DATABASE, database)
    && Describes(h, a.manifest.artifacts, Blobs(files))
  }

  /** The checks of a backup never fail on a store that uploads can have produced. */
  lemma BackupOfReachableStoreNeverFails(h: Hash, active: set<RunId>, actions: seq<ArtifactStore.Action>)
    requires ArtifactStore.IsRun(h, ArtifactStore.Initial(active), actions)
    ensures var files := ArtifactStore.Run(h, ArtifactStore.Initial(active), actions).files;
            Clean(h, files) && forall name | name in Blobs(files) :: |Blobs(files)[name]| <= MAX_ARTIFACT_BYTES
  {
    ReachableStoreIsClean(h, active, actions);
  }

  // ---------------------------------------------------------------- restore

  predicate ValidEntry(e: Entry) {
    e.size <= MAX_SAFE_INTEGER && IsDigest(e.sha256)
  }

  predicate ValidArtifactEntries(entries: seq<Entry>) {
    && (forall i | 0 <= i < |entries| :: ValidEntry(entries[i]) && IsDigest(entries[i].name)
          && entries[i].sha256 == entries[i].name)
    && (forall i, j | 0 <= i < j < |entries| :: entries[i].name != entries[j].name)
  }

  predicate ValidManifest(m: Manifest) {
    m.database.name == DATABASE && ValidEntry(m.database) && ValidArtifactEntries(m.artifacts)
  }

  /** The check of a whole file. */
  predicate Verifies(h: Hash, bytes: Bytes, e: Entry) {
    |bytes| == e.size && h(bytes) == e.sha256
  }

  predicate ArtifactVerifies(h: Hash, files: map<string, Bytes>, e: Entry) {
    e.name in files && Verifies(h, files[e.name], e)
  }

  /** Everything a restore checks before it publishes. */
  predicate Intact(h: Hash, a: Archive) {
    && ValidManifest(a.manifest)
    && Verifies(h, a.database, a.manifest.database)
    && forall i | 0 <= i < |a.manifest.artifacts| :: ArtifactVerifies(h, a.files, a.manifest.artifacts[i])
  }

  function Concat(chunks: seq<Bytes>): Bytes
    decreases |chunks|
  {
    if chunks == [] then [] else Concat(chunks[..|chunks| - 1]) + chunks[|chunks| - 1]
  }

  lemma {:induction false} ConcatGrows(chunks: seq<Bytes>, k: nat)
    requires k <= |chunks|
    ensures |Concat(chunks[..k])| <= |Concat(chunks)|
    decreases |chunks|
  {
    if k == |chunks| {
      assert chunks[..k] == chunks;
    } else {
      var front := chunks[..|chunks| - 1];
      ConcatGrows(front, k);
      assert front[..k] == chunks[..k];
    }
  }

  /**
   `copyVerifiedArtifact`: however the stream cuts the file, it is accepted exactly when the whole-file check
   holds, and then what was written is the file.
   */
  method CopyVerified(h: Hash, chunks: seq<Bytes>, e: Entry) returns (ok: bool, written: Bytes)
    ensures ok <==> Verifies(h, Concat(chunks), e)
    ensures ok ==> written == Concat(chunks)
  {
    var size := 0;
    written := [];
    var k := 0;
    while k < |chunks|
      invariant 0 <= k <= |chunks| && written == Concat(chunks[..k]) && size == |written|
    {
      assert chunks[..k + 1][..k] == chunks[..k];
      size := size + |chunks[k]|;
      if size > e.size {
        ConcatGrows(chunks, k + 1);
        return false, written;
      }
      written := written + chunks[k];
      k := k + 1;
    }
    assert chunks[..k] == chunks;
    ok := size == e.size && h(written) == e.sha256;
  }

  ghost predicate RestoredSoFar(h: Hash, a: Archive, k: nat, artifacts: map<string, Bytes>)
    requires k <= |a.manifest.artifacts|
  {
    && (forall i | 0 <= i < k :: ArtifactVerifies(h, a.files, a.manifest.artifacts[i]))
    && (forall name :: name in artifacts <==> exists i :: 0 <= i < k && a.manifest.artifacts[i].name == name)
    && (forall name | name in artifacts :: name in a.files && artifacts[name] == a.files[name])
  }

  /** The staged copy of every listed artifact; `split` is how the stream cuts each file. */
  method RestoreArtifacts(h: Hash, a: Archive, split: Bytes -> seq<Bytes>) returns (r: Result<map<string, Bytes>>)
    requires forall b :: Concat(split(b)) == b
    ensures r.Ok? <==> forall i | 0 <= i < |a.manifest.artifacts| ::
            ArtifactVerifies(h, a.files, a.manifest.artifacts[i])
    ensures r.Ok? ==> RestoredSoFar(h, a, |a.manifest.artifacts|, r.value)
  {
    var artifacts: map<string, Bytes> := map[];
    var k := 0;
    while k < |a.manifest.artifacts|
      invariant 0 <= k <= |a.manifest.artifacts| && RestoredSoFar(h, a, k, artifacts)
    {
      var e := a.manifest.artifacts[k];
      if e.name !in a.files { return Err(MissingFile); }
      var ok, written := CopyVerified(h, split(a.files[e.name]), e);
      if !ok { return Err(Mismatch); }
      artifacts := artifacts[e.name := written];
      k := k + 1;
    }
    return Ok(artifacts);
  }

  /** The data directories beside each other; `healthy` is what opening a restored database finds. */
  class Disk {
    var directories: map<string, Storage>

    constructor ()
      ensures directories == map[]
    {
      directories := map[];
    }

    /**
     A restore publishes exactly when the destination is new, the archive intact, its database healthy and the
     destination still new at the end, and then what the manifest lists. In every other case it leaves nothing
     behind, staging included; `other` is what another process puts at the destination meanwhile.
     */
    method RestoreStorage(h: Hash, a: Archive, split: Bytes -> seq<Bytes>, healthy: Bytes -> bool,
                          destination: string, staging: string, other: Option<Storage>) returns (r: Result<()>)
      requires forall b :: Concat(split(b)) == b
      requires staging !in directories && staging != destination
      modifies this
      ensures r.Ok? <==> destination !in old(directories) && Intact(h, a) && healthy(a.database) && other.None?
      ensures r.Ok? ==> destination in directories && Restores(h, a, directories[destination])
                        && directories == old(directories)[destination := directories[destination]]
      ensures r.Err? ==> directories == old(directories) ||
                         (other.Some? && directories == old(directories)[destination := other.value])
    {
      if destination in directories { return Err(DestinationExists); }
      if !ValidManifest(a.manifest) { return Err(BadManifest); }
      directories := directories[staging := Storage([], map[])];
      r := FillStaging(h, a, split, healthy, staging);
      var staged := directories[staging];
      directories := directories - {staging};
      assert directories == old(directories);
      if r.Err? { return; }
      if other.Some? { directories := directories[destination := other.value]; }
      if destination in directories { return Err(DestinationExists); }
      directories := directories[destination := staged];
      assert directories == old(directories)[destination := staged];
    }

    /** The checks and copies of a restore, all inside the unpublished directory. */
    method FillStaging(h: Hash, a: Archive, split: Bytes -> seq<Bytes>, healthy: Bytes -> bool, staging: string)
      returns (r: Result<()>)
      requires forall b :: Concat(split(b)) == b
      requires staging in directories && ValidManifest(a.manifest)
      modifies this
      ensures staging in directories && directories - {staging} == old(directories) - {staging}
      ensures r.Ok? <==> Intact(h, a) && healthy(a.database)
      ensures r.Ok? ==> Restores(h, a, directories[staging])
    {
      if |a.database| != a.manifest.database.size { return Err(Mismatch); }
      if h(a.database) != a.manifest.database.sha256 { return Err(Mismatch); }
      directories := directories[staging := Storage(a.database, map[])];
      if !healthy(a.database) { return Err(Unhealthy); }
      var artifacts := RestoreArtifacts(h, a, split);
      if artifacts.Err? { return Err(artifacts.error); }
      directories := directories[staging := Storage(a.database, artifacts.value)];
      return Ok(());
    }
  }

  ghost predicate Restores(h: Hash, a: Archive, s: Storage) {
    s.database == a.database && RestoredSoFar(h, a, |a.manifest.artifacts|, s.artifacts)
  }

  /** What is backed up: every entry of the directory whose name does not end in `.upload`, under its own name. */
  lemma BacksUpExactly(files: map<string, Bytes>, name: string)
    ensures name in Blobs(files) <==>
              name in files && !(|name| >= 7 && name[|name| - 7..] == ".upload")
    ensures name in Blobs(files) ==> Blobs(files)[name] == files[name]
  {}

  predicate HexDigest(s: string) {
    |s| == 64 && forall i | 0 <= i < 64 :: s[i] in "0123456789abcdef"
  }

  /** A file is what its entry says: there, of that length and of that hash, both fit for a manifest. */
  ghost predicate FileIs(h: Hash, bytes: Bytes, e: Entry) {
    |bytes| == e.size && e.size <= 9007199254740991 && h(bytes) == e.sha256 && HexDigest(e.sha256)
  }

  lemma DigestsExactly(s: string)
    ensures IsDigest(s) <==> HexDigest(s)
  {
    forall c: char ensures IsHexDigit(c) <==> c in "0123456789abcdef" {}
  }

  /**
   An archive passes a restore exactly if the database file is what its entry under `database.tar.gz` says, and each
   listed artifact is in the archive, named by its hash and what its entry says, none of them twice.
   */
  lemma IntactExactly(h: Hash, a: Archive)
    ensures Intact(h, a) <==>
              && a.manifest.database.name == "database.tar.gz" && FileIs(h, a.database, a.manifest.database)
              && (forall i | 0 <= i < |a.manifest.artifacts| ::
                    var e := a.manifest.artifacts[i];
                    e.name in a.files && e.sha256 == e.name && FileIs(h, a.files[e.name], e))
              && (forall i, j | 0 <= i < j < |a.manifest.artifacts| ::
                    a.manifest.artifacts[i].name != a.manifest.artifacts[j].name)
  {
    DigestsExactly(a.manifest.database.sha256);
    forall i | 0 <= i < |a.manifest.artifacts|
      ensures IsDigest(a.manifest.artifacts[i].name) <==> HexDigest(a.manifest.artifacts[i].name)
      ensures IsDigest(a.manifest.artifacts[i].sha256) <==> HexDigest(a.manifest.artifacts[i].sha256)
    {
      DigestsExactly(a.manifest.artifacts[i].name);
      DigestsExactly(a.manifest.artifacts[i].sha256);
    }
  }

  // ---------------------------------------------------------------- main results

  /** Nothing corrupt is ever published: whatever the archive holds, a restored file has the hash it is named by. */
  lemma RestoredFilesAreSound(h: Hash, a: Archive, s: Storage)
    requires Intact(h, a) && Restores(h, a, s)
    ensures h(s.database) == a.manifest.database.sha256
    ensures forall name | name in s.artifacts :: h(s.artifacts[name]) == name
  {
    forall name | name in s.artifacts ensures h(s.artifacts[name]) == name {
      var i :| 0 <= i < |a.manifest.artifacts| && a.manifest.artifacts[i].name == name;
      assert ArtifactVerifies(h, a.files, a.manifest.artifacts[i]);
    }
  }

  /** A backup of a clean store is intact. */
  lemma BackupIsIntact(h: Hash, a: Archive, database: Bytes, files: map<string, Bytes>)
    requires IsBackup(h, a, database, files) && Clean(h, files) && |database| <= MAX_SAFE_INTEGER
    requires forall name | name in Blobs(files) :: |Blobs(files)[name]| <= MAX_SAFE_INTEGER
    ensures Intact(h, a)
  {
    forall i | 0 <= i < |a.manifest.artifacts|
      ensures ValidEntry(a.manifest.artifacts[i]) && IsDigest(a.manifest.artifacts[i].name)
              && a.manifest.artifacts[i].sha256 == a.manifest.artifacts[i].name
              && ArtifactVerifies(h, a.files, a.manifest.artifacts[i])
    {
      var e := a.manifest.artifacts[i];
      assert e.name in Blobs(files) && e == EntryOf(h, e.name, Blobs(files)[e.name]);
    }
  }

  /**
   Round trip: from any store that uploads and crashes can have produced, the backup succeeds and restoring it
   gives the same database bytes and exactly the stored blobs.
   */
  lemma BackupThenRestore(h: Hash, active: set<RunId>, actions: seq<ArtifactStore.Action>, database: Bytes,
                          a: Archive, s: Storage)
    requires ArtifactStore.IsRun(h, ArtifactStore.Initial(active), actions) && |database| <= MAX_SAFE_INTEGER
    requires IsBackup(h, a, database, ArtifactStore.Run(h, ArtifactStore.Initial(active), actions).files)
             && Restores(h, a, s)
    ensures Intact(h, a)
    ensures s == Storage(database, Blobs(ArtifactStore.Run(h, ArtifactStore.Initial(active), actions).files))
  {
    var files := ArtifactStore.Run(h, ArtifactStore.Initial(active), actions).files;
    BackupOfReachableStoreNeverFails(h, active, actions);
    BackupIsIntact(h, a, database, files);
    assert s.artifacts == Blobs(files);
  }

  /** Every artifact row of the original store finds its blob in the restored one. */
  lemma RowsSurvive(h: Hash, active: set<RunId>, actions: seq<ArtifactStore.Action>, database: Bytes,
                    a: Archive, s: Storage, i: nat)
    requires ArtifactStore.IsRun(h, ArtifactStore.Initial(active), actions) && |database| <= MAX_SAFE_INTEGER
    requires IsBackup(h, a, database, ArtifactStore.Run(h, ArtifactStore.Initial(active), actions).files)
             && Restores(h, a, s)
    requires i < |ArtifactStore.Run(h, ArtifactStore.Initial(active), actions).rows|
    ensures var row := ArtifactStore.Run(h, ArtifactStore.Initial(active), actions).rows[i];
            row.storageKey in s.artifacts && h(s.artifacts[row.storageKey]) == row.storageKey
  {
    BackupThenRestore(h, active, actions, database, a, s);
    RowsNameTheirBytes(h, active, actions, i);
    DigestIsNoUpload(ArtifactStore.Run(h, ArtifactStore.Initial(active), actions).rows[i].storageKey);
  }
}
