/**
 The content-addressed artifact store (apps/server/src/artifact-routes.ts:49-77): uploads that
 interleave at every await, on a directory whose only atomic operation is a rename, with a
 crash possible between any two steps. `h` is SHA-256 (section 6.2 of FIPS 180-4) as a hex
 digest; nothing here needs it to be free of collisions except where a lemma says so.
 */
module ArtifactStore {
  import opened Common

  type Byte = bv8
  type Bytes = seq<Byte>

  predicate IsHexDigit(c: char) {
    '0' <= c <= '9' || 'a' <= c <= 'f'
  }

  /** The name of a stored blob: 64 lower-case hex digits. */
  predicate IsDigest(s: string) {
    |s| == 64 && forall i | 0 <= i < 64 :: IsHexDigit(s[i])
  }

  type Digest = s: string | IsDigest(s) witness seq(64, _ => '0')
  type Hash = Bytes -> Digest

  const MAX_ARTIFACT_BYTES: nat := 10 * 1024 * 1024
  const SUFFIX := ".upload"

  predicate IsUpload(name: string) {
    |name| >= |SUFFIX| && name[|name| - |SUFFIX|..] == SUFFIX
  }

  /** A private staging name. */
  function StagingName(uuid: string): (name: string)
    ensures IsUpload(name)
  {
    var name := uuid + SUFFIX;
    assert name[|name| - |SUFFIX|..] == SUFFIX;
    name
  }

  lemma DigestIsNoUpload(name: string)
    requires IsDigest(name)
    ensures !IsUpload(name)
  {
    assert IsHexDigit(name[57]) && name[57..][0] == name[57];
  }

  datatype Kind = Kind(tag: nat)
  type RunId = nat
  type UploadId = nat

  datatype Row = Row(id: nat, run: RunId, kind: Kind, checksum: string, filename: string, size: nat, storageKey: Digest)

  datatype Request = Request(run: RunId, kind: Kind, filename: string, checksum: string, body: Bytes)

  /** Where an upload is: about to write its staging file, writing it, having written all of it, or published. */
  datatype Pc = Accepted | Writing | Written | Published
  datatype Upload = Upload(request: Request, uuid: string, pc: Pc)

  /** `content` remembers what was uploaded under each row. */
  datatype State = State(
    files: map<string, Bytes>, rows: seq<Row>, content: map<nat, Bytes>, active: set<RunId>,
    uploads: map<UploadId, Upload>, uuids: set<string>, received: set<Bytes>)

  function Initial(active: set<RunId>): State {
    State(map[], [], map[], active, map[], {}, {})
  }

  function Checksum(h: Hash, body: Bytes): string {
    "sha256:" + h(body)
  }

  /** `find` among the rows of the run: same checksum, filename and type. */
  predicate Matches(row: Row, run: RunId, checksum: string, filename: string, kind: Kind) {
    row.run == run && row.checksum == checksum && row.filename == filename && row.kind == kind
  }

  function FindRow(rows: seq<Row>, run: RunId, checksum: string, filename: string, kind: Kind): (i: nat)
    ensures i <= |rows| && (i < |rows| ==> Matches(rows[i], run, checksum, filename, kind))
    ensures forall j | 0 <= j < i :: !Matches(rows[j], run, checksum, filename, kind)
  {
    if rows == [] || Matches(rows[0], run, checksum, filename, kind) then 0
    else 1 + FindRow(rows[1..], run, checksum, filename, kind)
  }

  datatype Action =
    | Arrive(upload: UploadId, request: Request, uuid: string)
    | WritePart(upload: UploadId, written: nat)
    | WriteAll(upload: UploadId)
    | Fail(upload: UploadId, unlinked: bool)
    | Publish(upload: UploadId)
    | Insert(upload: UploadId, rowId: nat)
    | EndRun(run: RunId)
    | Crash

  predicate At(s: State, u: UploadId, pc: Pc) {
    u in s.uploads && s.uploads[u].pc == pc
  }

  predicate Possible(s: State, a: Action) {
    match a
    case Arrive(u, q, uuid) => u !in s.uploads && uuid !in s.uuids
    case WritePart(u, n) => (At(s, u, Accepted) || At(s, u, Writing)) && n <= |s.uploads[u].request.body|
    case WriteAll(u) => At(s, u, Accepted) || At(s, u, Writing)
    case Fail(u, _) => u in s.uploads
    case Publish(u) => At(s, u, Written)
    case Insert(u, id) => At(s, u, Published) && id !in s.content
    case EndRun(_) => true
    case Crash => true
  }

  /** The last segment of the path: not empty, at most 255 characters, no control character. */
  predicate ValidFilename(filename: string) {
    1 <= |filename| <= 255 && forall i | 0 <= i < |filename| :: filename[i] > '\U{1f}'
  }

  predicate Admits(h: Hash, s: State, q: Request) {
    && q.run in s.active && ValidFilename(q.filename)
    && |q.body| <= MAX_ARTIFACT_BYTES && q.checksum == Checksum(h, q.body)
  }

  function Advance(s: State, u: UploadId, pc: Pc, files: map<string, Bytes>): State
    requires u in s.uploads
  {
    s.(files := files, uploads := s.uploads[u := s.uploads[u].(pc := pc)])
  }

  /** The atomic publication: the staging entry goes, the digest entry takes its bytes. */
  function Renamed(files: map<string, Bytes>, from: string, to: string): map<string, Bytes> {
    if from in files then (files - {from})[to := files[from]] else files
  }

  function NewRow(h: Hash, q: Request, id: nat): Row {
    Row(id, q.run, q.kind, Checksum(h, q.body), q.filename, |q.body|, h(q.body))
  }

  /** The transaction at the end: refuse an ended run, return an equal row, or insert one. */
  function InsertRow(h: Hash, s: State, u: UploadId, id: nat): State
    requires u in s.uploads
  {
    var q := s.uploads[u].request;
    var t := s.(uploads := s.uploads - {u});
    if q.run !in s.active || FindRow(s.rows, q.run, Checksum(h, q.body), q.filename, q.kind) < |s.rows| then t
    else t.(rows := s.rows + [NewRow(h, q, id)], content := s.content[id := q.body])
  }

  function Apply(h: Hash, s: State, a: Action): State
    requires Possible(s, a)
  {
    match a
    case Arrive(u, q, uuid) =>
      if Admits(h, s, q)
      then s.(uploads := s.uploads[u := Upload(q, uuid, Accepted)], uuids := s.uuids + {uuid},
          received := s.received + {q.body})
      else s
    case WritePart(u, n) =>
      Advance(s, u, Writing, s.files[StagingName(s.uploads[u].uuid) := s.uploads[u].request.body[..n]])
    case WriteAll(u) => Advance(s, u, Written, s.files[StagingName(s.uploads[u].uuid) := s.uploads[u].request.body])
    case Fail(u, unlinked) =>
      s.(uploads := s.uploads - {u}, files := if unlinked then s.files - {StagingName(s.uploads[u].uuid)} else s.files)
    case Publish(u) =>
      Advance(s, u, Published, Renamed(s.files, StagingName(s.uploads[u].uuid), h(s.uploads[u].request.body)))
    case Insert(u, id) => InsertRow(h, s, u, id)
    case EndRun(run) => s.(active := s.active - {run})
    case Crash => s.(uploads := map[])
  }

  predicate IsRun(h: Hash, s: State, actions: seq<Action>)
    decreases actions
  {
    actions == [] || (Possible(s, actions[0]) && IsRun(h, Apply(h, s, actions[0]), actions[1..]))
  }

  function Run(h: Hash, s: State, actions: seq<Action>): State
    requires IsRun(h, s, actions)
    decreases actions
  {
    if actions == [] then s else Run(h, Apply(h, s, actions[0]), actions[1..])
  }

  // ---------------------------------------------------------------- invariant

  /** A file is a staging file, or a blob of the right hash that was received in full. */
  ghost predicate FileOk(h: Hash, s: State, name: string) {
    name in s.files ==>
      IsUpload(name) || (IsDigest(name) && h(s.files[name]) == name && s.files[name] in s.received)
  }

  ghost predicate RowOk(h: Hash, s: State, row: Row) {
    && row.storageKey in s.files && row.id in s.content
    && s.content[row.id] in s.received
    && h(s.content[row.id]) == row.storageKey
    && row.size == |s.content[row.id]| && row.checksum == Checksum(h, s.content[row.id])
  }

  ghost predicate UploadOk(h: Hash, s: State, u: UploadId) {
    u in s.uploads ==>
      && var q := s.uploads[u].request;
      && s.uploads[u].uuid in s.uuids && q.body in s.received && |q.body| <= MAX_ARTIFACT_BYTES
      && (s.uploads[u].pc == Written ==>
            StagingName(s.uploads[u].uuid) in s.files && s.files[StagingName(s.uploads[u].uuid)] == q.body)
      && (s.uploads[u].pc == Published ==> h(q.body) in s.files)
      && (forall v | v in s.uploads && s.uploads[v].uuid == s.uploads[u].uuid :: v == u)
  }

  predicate NoDuplicateRows(rows: seq<Row>) {
    forall i, j | 0 <= i < j < |rows| ::
        !Matches(rows[i], rows[j].run, rows[j].checksum, rows[j].filename, rows[j].kind)
  }

  ghost predicate Inv(h: Hash, s: State) {
    && (forall name: string :: FileOk(h, s, name))
    && (forall i | 0 <= i < |s.rows| :: RowOk(h, s, s.rows[i]))
    && (forall u: UploadId :: UploadOk(h, s, u))
    && NoDuplicateRows(s.rows)
    && (forall b | b in s.received :: |b| <= MAX_ARTIFACT_BYTES)
  }

  lemma StagingNamesDiffer(a: string, b: string)
    requires StagingName(a) == StagingName(b)
    ensures a == b
  {
    assert StagingName(a)[..|a|] == a && StagingName(b)[..|b|] == b;
  }

  /** No staging name is a digest. */
  lemma StagingIsNoDigest(uuid: string, d: Digest)
    ensures StagingName(uuid) != d
  {
    DigestIsNoUpload(d);
  }

  lemma ArriveKeepsInv(h: Hash, s: State, a: Action)
    requires Inv(h, s) && Possible(s, a) && a.Arrive?
    ensures Inv(h, Apply(h, s, a))
  {
    var t := Apply(h, s, a);
    forall name: string ensures FileOk(h, t, name) { assert FileOk(h, s, name); }
    forall i | 0 <= i < |t.rows| ensures RowOk(h, t, t.rows[i]) { assert RowOk(h, s, s.rows[i]); }
    forall u | u in s.uploads ensures s.uploads[u].uuid in s.uuids { assert UploadOk(h, s, u); }
    forall u: UploadId ensures UploadOk(h, t, u) { assert UploadOk(h, s, u); }
  }

  lemma StageKeepsUpload(h: Hash, s: State, u: UploadId, pc: Pc, bytes: Bytes, v: UploadId)
    requires UploadOk(h, s, u) && UploadOk(h, s, v) && u in s.uploads
    requires pc == Writing || (pc == Written && bytes == s.uploads[u].request.body)
    ensures UploadOk(h, Advance(s, u, pc, s.files[StagingName(s.uploads[u].uuid) := bytes]), v)
  {
    if v in s.uploads && v != u && StagingName(s.uploads[v].uuid) == StagingName(s.uploads[u].uuid) {
      StagingNamesDiffer(s.uploads[v].uuid, s.uploads[u].uuid);
    }
  }

  /** Writing under a staging name of one's own disturbs nobody. */
  lemma StageKeepsInv(h: Hash, s: State, u: UploadId, pc: Pc, bytes: Bytes)
    requires Inv(h, s) && u in s.uploads && (pc == Writing || (pc == Written && bytes == s.uploads[u].request.body))
    ensures Inv(h, Advance(s, u, pc, s.files[StagingName(s.uploads[u].uuid) := bytes]))
  {
    var mine := StagingName(s.uploads[u].uuid);
    var t := Advance(s, u, pc, s.files[mine := bytes]);
    forall name: string ensures FileOk(h, t, name) { assert FileOk(h, s, name); }
    forall i | 0 <= i < |t.rows| ensures RowOk(h, t, t.rows[i]) { assert RowOk(h, s, s.rows[i]); }
    forall v: UploadId ensures UploadOk(h, t, v) {
      assert UploadOk(h, s, u) && UploadOk(h, s, v);
      StageKeepsUpload(h, s, u, pc, bytes, v);
    }
  }

  lemma FailKeepsInv(h: Hash, s: State, a: Action)
    requires Inv(h, s) && Possible(s, a) && a.Fail?
    ensures Inv(h, Apply(h, s, a))
  {
    var t, u := Apply(h, s, a), a.upload;
    var mine := StagingName(s.uploads[u].uuid);
    assert UploadOk(h, s, u);
    forall name: string ensures FileOk(h, t, name) { assert FileOk(h, s, name); }
    forall i | 0 <= i < |t.rows| ensures RowOk(h, t, t.rows[i]) {
      assert RowOk(h, s, s.rows[i]);
      StagingIsNoDigest(s.uploads[u].uuid, s.rows[i].storageKey);
    }
    forall v: UploadId ensures UploadOk(h, t, v) {
      assert UploadOk(h, s, v);
      if v in s.uploads {
        StagingIsNoDigest(s.uploads[u].uuid, h(s.uploads[v].request.body));
        if StagingName(s.uploads[v].uuid) == mine { StagingNamesDiffer(s.uploads[v].uuid, s.uploads[u].uuid); }
      }
    }
  }

  lemma PublishKeepsInv(h: Hash, s: State, a: Action)
    requires Inv(h, s) && Possible(s, a) && a.Publish?
    ensures Inv(h, Apply(h, s, a))
  {
    var t, u := Apply(h, s, a), a.upload;
    var mine, body := StagingName(s.uploads[u].uuid), s.uploads[u].request.body;
    assert UploadOk(h, s, u);
    StagingIsNoDigest(s.uploads[u].uuid, h(body));
    forall name: string ensures FileOk(h, t, name) { assert FileOk(h, s, name); }
    forall i | 0 <= i < |t.rows| ensures RowOk(h, t, t.rows[i]) {
      assert RowOk(h, s, s.rows[i]);
      StagingIsNoDigest(s.uploads[u].uuid, s.rows[i].storageKey);
    }
    forall v: UploadId ensures UploadOk(h, t, v) {
      assert UploadOk(h, s, v);
      if v in s.uploads {
        StagingIsNoDigest(s.uploads[u].uuid, h(s.uploads[v].request.body));
        StagingIsNoDigest(s.uploads[v].uuid, h(body));
        if StagingName(s.uploads[v].uuid) == mine { StagingNamesDiffer(s.uploads[v].uuid, s.uploads[u].uuid); }
      }
    }
  }

  lemma InsertKeepsInv(h: Hash, s: State, a: Action)
    requires Inv(h, s) && Possible(s, a) && a.Insert?
    ensures Inv(h, Apply(h, s, a))
  {
    var t := Apply(h, s, a);
    assert UploadOk(h, s, a.upload);
    forall name: string ensures FileOk(h, t, name) { assert FileOk(h, s, name); }
    forall i | 0 <= i < |t.rows| ensures RowOk(h, t, t.rows[i]) { if i < |s.rows| { assert RowOk(h, s, s.rows[i]); } }
    forall v: UploadId ensures UploadOk(h, t, v) { assert UploadOk(h, s, v); }
  }

  lemma OtherStepsKeepInv(h: Hash, s: State, a: Action)
    requires Inv(h, s) && Possible(s, a) && (a.EndRun? || a.Crash?)
    ensures Inv(h, Apply(h, s, a))
  {
    var t := Apply(h, s, a);
    forall name: string ensures FileOk(h, t, name) { assert FileOk(h, s, name); }
    forall i | 0 <= i < |t.rows| ensures RowOk(h, t, t.rows[i]) { assert RowOk(h, s, s.rows[i]); }
    forall v: UploadId ensures UploadOk(h, t, v) { assert UploadOk(h, s, v); }
  }

  lemma StepKeepsInv(h: Hash, s: State, a: Action)
    requires Inv(h, s) && Possible(s, a)
    ensures Inv(h, Apply(h, s, a))
  {
    match a
    case Arrive(_, _, _) => ArriveKeepsInv(h, s, a);
    case WritePart(u, n) => StageKeepsInv(h, s, u, Writing, s.uploads[u].request.body[..n]);
    case WriteAll(u) => StageKeepsInv(h, s, u, Written, s.uploads[u].request.body);
    case Fail(_, _) => FailKeepsInv(h, s, a);
    case Publish(_) => PublishKeepsInv(h, s, a);
    case Insert(_, _) => InsertKeepsInv(h, s, a);
    case EndRun(_) => OtherStepsKeepInv(h, s, a);
    case Crash => OtherStepsKeepInv(h, s, a);
  }

  lemma {:induction false} RunKeepsInv(h: Hash, s: State, actions: seq<Action>)
    requires Inv(h, s) && IsRun(h, s, actions)
    ensures Inv(h, Run(h, s, actions))
    decreases actions
  {
    if actions != [] {
      StepKeepsInv(h, s, actions[0]);
      RunKeepsInv(h, Apply(h, s, actions[0]), actions[1..]);
    }
  }

  // ---------------------------------------------------------------- main results

  /**
   In every reachable store, crashes between any two steps included, each row's storage key names a file whose
   hash is that key, and the row's checksum and size are those of the bytes that were uploaded.
   */
  lemma RowsNameTheirBytes(h: Hash, active: set<RunId>, actions: seq<Action>, i: nat)
    requires IsRun(h, Initial(active), actions) && i < |Run(h, Initial(active), actions).rows|
    ensures var s := Run(h, Initial(active), actions); var row := s.rows[i];
            && row.storageKey in s.files && h(s.files[row.storageKey]) == row.storageKey
            && row.id in s.content && row.checksum == Checksum(h, s.content[row.id]) && row.size == |s.content[row.id]|
  {
    RunKeepsInv(h, Initial(active), actions);
    var s := Run(h, Initial(active), actions);
    assert RowOk(h, s, s.rows[i]) && FileOk(h, s, s.rows[i].storageKey);
    DigestIsNoUpload(s.rows[i].storageKey);
  }

  /** As long as no two bodies ever received share a hash, the file is exactly what was uploaded. */
  lemma RowsKeepTheirBytes(h: Hash, active: set<RunId>, actions: seq<Action>, i: nat)
    requires IsRun(h, Initial(active), actions) && i < |Run(h, Initial(active), actions).rows|
    requires var r := Run(h, Initial(active), actions).received;
             forall a, b | a in r && b in r && h(a) == h(b) :: a == b
    ensures var s := Run(h, Initial(active), actions); var row := s.rows[i];
            row.storageKey in s.files && row.id in s.content && s.files[row.storageKey] == s.content[row.id]
  {
    RunKeepsInv(h, Initial(active), actions);
    var s := Run(h, Initial(active), actions);
    assert RowOk(h, s, s.rows[i]) && FileOk(h, s, s.rows[i].storageKey);
    DigestIsNoUpload(s.rows[i].storageKey);
  }

  /** A directory in which every entry is a staging file or a blob under its own hash. */
  predicate Clean(h: Hash, files: map<string, Bytes>) {
    forall name | name in files :: IsUpload(name) || (IsDigest(name) && h(files[name]) == name)
  }

  /** Junk left by crashes is always recognisable, and no row is stored twice. */
  lemma ReachableStoreIsClean(h: Hash, active: set<RunId>, actions: seq<Action>)
    requires IsRun(h, Initial(active), actions)
    ensures var s := Run(h, Initial(active), actions);
            && Clean(h, s.files) && NoDuplicateRows(s.rows)
            && forall name | name in s.files && !IsUpload(name) :: |s.files[name]| <= MAX_ARTIFACT_BYTES
  {
    RunKeepsInv(h, Initial(active), actions);
    var s := Run(h, Initial(active), actions);
    forall name | name in s.files
      ensures IsUpload(name) || (IsDigest(name) && h(s.files[name]) == name && |s.files[name]| <= MAX_ARTIFACT_BYTES)
    {
      assert FileOk(h, s, name);
    }
  }

  /** Rows and the blobs they name are never taken away again. */
  lemma StepKeepsRows(h: Hash, s: State, a: Action, i: nat)
    requires Inv(h, s) && Possible(s, a) && i < |s.rows|
    ensures var t := Apply(h, s, a); i < |t.rows| && t.rows[i] == s.rows[i] && s.rows[i].storageKey in t.files
  {
    StepKeepsInv(h, s, a);
    assert RowOk(h, Apply(h, s, a), Apply(h, s, a).rows[i]);
  }

  // ---------------------------------------------------------------- the handler

  /** The directory and the table as the upload handler sees them. */
  class Store {
    var files: map<string, Bytes>
    var rows: seq<Row>

    constructor ()
      ensures files == map[] && rows == []
    {
      files, rows := map[], [];
    }

    /** Write the whole body to a staging file, publish it under its digest, and clean up. */
    method StoreBlob(h: Hash, uuid: string, body: Bytes)
      requires StagingName(uuid) !in files
      modifies this`files
      ensures files == Renamed(old(files)[StagingName(uuid) := body], StagingName(uuid), h(body))
      ensures h(body) in files && files[h(body)] == body && StagingName(uuid) !in files
    {
      StagingIsNoDigest(uuid, h(body));
      var staging := StagingName(uuid);
      files := files[staging := body];
      files := Renamed(files, staging, h(body));
    }

    /** The transaction: an equal row of the run is returned, otherwise one is inserted; an ended run is refused. */
    method InsertArtifact(h: Hash, q: Request, active: bool, id: nat) returns (row: Option<Row>)
      requires NoDuplicateRows(rows)
      modifies this`rows
      ensures NoDuplicateRows(rows)
      ensures row.Some? <==> active
      ensures !active ==> rows == old(rows)
      ensures active ==>
        && row.value in rows && Matches(row.value, q.run, Checksum(h, q.body), q.filename, q.kind)
        && rows == (if FindRow(old(rows), q.run, Checksum(h, q.body), q.filename, q.kind) < |old(rows)|
                    then old(rows) else old(rows) + [NewRow(h, q, id)])
      ensures active ==>
        && row.value.run == q.run && row.value.checksum == "sha256:" + h(q.body)
        && row.value.filename == q.filename && row.value.kind.tag == q.kind.tag
        && (rows == old(rows) || (rows == old(rows) + [row.value] && row.value.size == |q.body|
                                  && row.value.storageKey == h(q.body) && row.value.id == id))
    {
      if !active { return None; }
      var i := FindRow(rows, q.run, Checksum(h, q.body), q.filename, q.kind);
      if i < |rows| { return Some(rows[i]); }
      rows := rows + [NewRow(h, q, id)];
      return Some(rows[|rows| - 1]);
    }
  }
}
