/**
 What one upload comes to (apps/server/src/artifact-routes.ts:41-77), field by field: which requests are admitted,
 what is published, when a row is reused or inserted and what it then says, and that an upload nobody disturbs ends
 with its row and its bytes.
 */
module UploadOutcomes {
  import opened ArtifactStore

  /** The row is for this very upload: same run, digest, file name and type. */
  predicate SameUpload(h: Hash, row: Row, q: Request) {
    row.run == q.run && row.checksum == "sha256:" + h(q.body) && row.filename == q.filename
        && row.kind.tag == q.kind.tag
  }

  predicate HasRow(h: Hash, rows: seq<Row>, q: Request) {
    exists i :: 0 <= i < |rows| && SameUpload(h, rows[i], q)
  }

  /**
   A request is taken exactly if its run is active, its file name is fit, its body is at most 10 MiB and the checksum
   it came with is that of the body; a request that is not changes nothing.
   */
  lemma AdmitsExactly(h: Hash, s: State, u: UploadId, q: Request, uuid: string)
    requires Possible(s, Arrive(u, q, uuid))
    ensures var t := Apply(h, s, Arrive(u, q, uuid));
            && t.files == s.files && t.rows == s.rows
            && (if q.run in s.active && |q.body| <= 10_485_760 && q.checksum == "sha256:" + h(q.body)
                   && 1 <= |q.filename| <= 255 && forall i | 0 <= i < |q.filename| :: ' ' <= q.filename[i]
                then t.uploads == s.uploads[u := Upload(q, uuid, Accepted)]
                else t == s)
  {}

  /**
   Publishing puts exactly the uploaded bytes under their digest and takes the staging file away; nothing
   else moves.
   */
  lemma PublishesExactly(h: Hash, s: State, u: UploadId, name: string)
    requires Inv(h, s) && Possible(s, Publish(u))
    ensures var t, q := Apply(h, s, Publish(u)), s.uploads[u].request;
            var staging := StagingName(s.uploads[u].uuid);
            && h(q.body) in t.files && t.files[h(q.body)] == q.body && staging !in t.files && t.rows == s.rows
            && (name != h(q.body) && name != staging ==>
                  (name in t.files <==> name in s.files) && (name in s.files ==> t.files[name] == s.files[name]))
  {
    assert UploadOk(h, s, u);
    StagingIsNoDigest(s.uploads[u].uuid, h(s.uploads[u].request.body));
  }

  /**
   The transaction: nothing for a run that has ended, nothing if the run has a row of the same digest, file name and
   type, and otherwise one new row in the last place that says exactly what was uploaded.
   */
  lemma InsertsExactly(h: Hash, s: State, u: UploadId, id: nat)
    requires Possible(s, Insert(u, id))
    ensures var t, q := Apply(h, s, Insert(u, id)), s.uploads[u].request;
            && u !in t.uploads && t.files == s.files
            && (if q.run !in s.active || HasRow(h, s.rows, q) then t.rows == s.rows
                else
                  && |t.rows| == |s.rows| + 1 && t.rows[..|s.rows|] == s.rows
                  && var row := t.rows[|s.rows|];
                     SameUpload(h, row, q) && row.id == id && row.size == |q.body| && row.storageKey == h(q.body))
  {
    var q := s.uploads[u].request;
    var i := FindRow(s.rows, q.run, Checksum(h, q.body), q.filename, q.kind);
    if i < |s.rows| { assert SameUpload(h, s.rows[i], q); }
    if HasRow(h, s.rows, q) {
      var j :| 0 <= j < |s.rows| && SameUpload(h, s.rows[j], q);
      assert Matches(s.rows[j], q.run, Checksum(h, q.body), q.filename, q.kind);
    }
  }

  /** No run has two rows with the same digest, file name and type, in any reachable store. */
  lemma NoUploadHasTwoRows(h: Hash, active: set<RunId>, actions: seq<Action>, i: nat, j: nat)
    requires IsRun(h, Initial(active), actions) && i < j < |Run(h, Initial(active), actions).rows|
    ensures var rows := Run(h, Initial(active), actions).rows;
            || rows[i].run != rows[j].run || rows[i].checksum != rows[j].checksum
            || rows[i].filename != rows[j].filename || rows[i].kind.tag != rows[j].kind.tag
  {
    ReachableStoreIsClean(h, active, actions);
    var rows := Run(h, Initial(active), actions).rows;
    assert !Matches(rows[i], rows[j].run, rows[j].checksum, rows[j].filename, rows[j].kind);
  }

  lemma Follows(h: Hash, s: State, a: Action, rest: seq<Action>)
    requires Possible(s, a) && IsRun(h, Apply(h, s, a), rest)
    ensures IsRun(h, s, [a] + rest) && Run(h, s, [a] + rest) == Run(h, Apply(h, s, a), rest)
  {
    assert ([a] + rest)[1..] == rest;
  }

  /**
   From any reachable state an admitted upload of an active run, left alone, ends with its row and its
   bytes stored.
   */
  lemma UploadSucceeds(h: Hash, s: State, u: UploadId, id: nat)
    requires Inv(h, s) && At(s, u, Accepted) && s.uploads[u].request.run in s.active && id !in s.content
    ensures var actions, q := [WriteAll(u), Publish(u), Insert(u, id)], s.uploads[u].request;
            && IsRun(h, s, actions)
            && var t := Run(h, s, actions);
            HasRow(h, t.rows, q) && h(q.body) in t.files && t.files[h(q.body)] == q.body
  {
    var a, b, c := WriteAll(u), Publish(u), Insert(u, id);
    var written := Apply(h, s, a);
    var published := Apply(h, written, b);
    var q := s.uploads[u].request;
    StepKeepsInv(h, s, a);
    PublishesExactly(h, written, u, "");
    InsertsExactly(h, published, u, id);
    if !HasRow(h, published.rows, q) { assert SameUpload(h, Apply(h, published, c).rows[|published.rows|], q); }
    ThreeSteps(h, s, a, b, c);
  }

  lemma ThreeSteps(h: Hash, s: State, a: Action, b: Action, c: Action)
    requires Possible(s, a) && Possible(Apply(h, s, a), b) && Possible(Apply(h, Apply(h, s, a), b), c)
    ensures IsRun(h, s, [a, b, c]) && Run(h, s, [a, b, c]) == Apply(h, Apply(h, Apply(h, s, a), b), c)
  {
    Follows(h, Apply(h, Apply(h, s, a), b), c, []);
    Follows(h, Apply(h, s, a), b, [c]);
    Follows(h, s, a, [b, c]);
    assert [a] + [b, c] == [a, b, c] && [b] + [c] == [b, c] && [c] + [] == [c];
  }

  /** The end of a run forbids further rows, a crash forgets uploads; both keep every file and row. */
  lemma OtherStepsExactly(h: Hash, s: State, run: RunId)
    ensures Apply(h, s, EndRun(run)) == s.(active := s.active - {run})
    ensures Apply(h, s, Crash) == s.(uploads := map[])
  {}
}
