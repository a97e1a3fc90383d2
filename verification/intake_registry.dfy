/** The registry's tables, its transactions, and what every transaction keeps. */
module IntakeRegistry {
  import opened Wrappers

  type Sha = string

  datatype FailureCode =
    | UnsupportedExtension | BatchTooLarge | FileTooLarge | EmptyFile | IntegrityConflict | StorageUnavailable

  datatype BatchStatus = Receiving | Completed | Partial | Failed

  datatype BatchRow = BatchRow(
    projectId: string, idempotencyKey: string, fingerprint: string, status: BatchStatus,
    total: nat, registered: nat, failed: nat)

  datatype StoredBlob = StoredBlob(sha256: Sha, size: nat, createdNew: bool)

  /** `content` is the pair of the columns `sha256` and `size_bytes`, which are null together. */
  datatype Content = Content(sha256: Sha, size: nat)

  datatype FileRow = FileRow(
    batchId: nat, projectId: string, name: string, content: Option<Content>, failure: Option<FailureCode>,
    createdAt: int)
  {
    predicate Registered() {
      failure.None?
    }
  }

  datatype Tables = Tables(batches: map<nat, BatchRow>, blobs: map<Sha, nat>, files: map<nat, FileRow>)

  predicate HasContent(t: Tables, id: nat, sha: Sha) {
    id in t.files && t.files[id].content.Some? && t.files[id].content.value.sha256 == sha
  }

  predicate HasKey(t: Tables, id: nat, key: string) {
    id in t.batches && t.batches[id].idempotencyKey == key
  }

  /** Blob rows and registered file rows correspond one to one by hash, with equal sizes, and every
      file row belongs to a batch. */
  ghost predicate TablesOk(t: Tables) {
    && (forall id | id in t.files :: t.files[id].batchId in t.batches)
    && (forall id | id in t.files :: t.files[id].Registered() == t.files[id].content.Some?)
    && (forall id, sha | HasContent(t, id, sha) :: sha in t.blobs && t.blobs[sha] == t.files[id].content.value.size)
    && (forall sha | sha in t.blobs :: exists id :: HasContent(t, id, sha))
    && (forall sha, a, b | HasContent(t, a, sha) && HasContent(t, b, sha) :: a == b)
    && (forall key, a, b | HasKey(t, a, key) && HasKey(t, b, key) :: a == b)
  }

  /** The rows of one batch. */
  function FilesOf(t: Tables, batchId: nat): set<nat> {
    set id | id in t.files && t.files[id].batchId == batchId
  }

  ghost function FindBatch(t: Tables, key: string): (found: Option<nat>)
    ensures found.Some? ==> HasKey(t, found.value, key)
    ensures found.None? ==> forall id :: !HasKey(t, id, key)
  {
    if exists id :: HasKey(t, id, key) then
      var id :| HasKey(t, id, key);
      Some(id)
    else None
  }

  /** The registered row with this content; the unique index leaves at most one. */
  ghost function FindRegistered(t: Tables, sha: Sha): (found: Option<nat>)
    ensures found.Some? ==> HasContent(t, found.value, sha)
    ensures found.None? ==> forall id :: !HasContent(t, id, sha)
  {
    if exists id :: HasContent(t, id, sha) then
      var id :| HasContent(t, id, sha);
      Some(id)
    else None
  }

  // Each transaction gives the tables after its commit, or `None` when it raises and is rolled back.

  /** A taken primary key or idempotency key violates a unique constraint. */
  ghost function CreateBatch(t: Tables, id: nat, row: BatchRow): Option<Tables> {
    if id in t.batches || FindBatch(t, row.idempotencyKey).Some? then None
    else Some(t.(batches := t.batches[id := row]))
  }

  datatype Registration = Registration(tables: Tables, duplicate: Option<nat>)

  ghost function RegisterFile(t: Tables, id: nat, batchId: nat, projectId: string, name: string, blob: StoredBlob, now: int)
    : Option<Registration>
  {
    if blob.sha256 in t.blobs && t.blobs[blob.sha256] != blob.size then None else
    var blobs := if blob.sha256 in t.blobs then t.blobs else t.blobs[blob.sha256 := blob.size];
    var duplicate := FindRegistered(t, blob.sha256);
    if duplicate.Some? then Some(Registration(t.(blobs := blobs), duplicate))
    else if id in t.files || batchId !in t.batches then None
    else
      var row := FileRow(batchId, projectId, name, Some(Content(blob.sha256, blob.size)), None, now);
      Some(Registration(t.(blobs := blobs, files := t.files[id := row]), None))
  }

  function RecordFailedFile(t: Tables, id: nat, batchId: nat, projectId: string, name: string, code: FailureCode, now: int)
    : Option<Tables>
  {
    if id in t.files || batchId !in t.batches then None
    else Some(t.(files := t.files[id := FileRow(batchId, projectId, name, None, Some(code), now)]))
  }

  function CompleteBatch(t: Tables, id: nat, status: BatchStatus, registered: nat, failed: nat): Option<Tables> {
    if id !in t.batches then None
    else
      var row := t.batches[id].(status := status, registered := registered, failed := failed);
      Some(t.(batches := t.batches[id := row]))
  }

  function DeleteEmptyBatch(t: Tables, id: nat): Option<Tables> {
    if FilesOf(t, id) != {} then None
    else Some(t.(batches := t.batches - {id}))
  }

  lemma CreateBatchKeeps(t: Tables, id: nat, row: BatchRow)
    requires TablesOk(t)
    ensures var u := CreateBatch(t, id, row); u.Some? ==> TablesOk(u.value)
  {
    var u := CreateBatch(t, id, row);
    if u.Some? {
      assert forall b, key | HasKey(u.value, b, key) && b != id :: HasKey(t, b, key);
      assert forall f, sha | HasContent(u.value, f, sha) :: HasContent(t, f, sha);
      assert forall f, sha | HasContent(t, f, sha) :: HasContent(u.value, f, sha);
    }
  }

  /** A new blob row is committed only together with the file row that refers to it. */
  lemma RegisterFileKeeps(t: Tables, id: nat, batchId: nat, projectId: string, name: string, blob: StoredBlob, now: int)
    requires TablesOk(t)
    ensures var u := RegisterFile(t, id, batchId, projectId, name, blob, now);
            u.Some? ==>
              && TablesOk(u.value.tables)
              && blob.sha256 in u.value.tables.blobs && u.value.tables.blobs[blob.sha256] == blob.size
              && (u.value.duplicate.Some? ==> u.value.tables == t)
  {
    var u := RegisterFile(t, id, batchId, projectId, name, blob, now);
    if u.Some? && u.value.duplicate.None? {
      var v := u.value.tables;
      assert HasContent(v, id, blob.sha256);
      assert forall f, sha | HasContent(v, f, sha) && f != id :: HasContent(t, f, sha);
      assert forall f, sha | HasContent(t, f, sha) :: HasContent(v, f, sha);
      assert forall b, key | HasKey(v, b, key) :: HasKey(t, b, key);
    }
  }

  lemma RecordFailedFileKeeps(t: Tables, id: nat, batchId: nat, projectId: string, name: string, code: FailureCode, now: int)
    requires TablesOk(t)
    ensures var u := RecordFailedFile(t, id, batchId, projectId, name, code, now); u.Some? ==> TablesOk(u.value)
  {
    var u := RecordFailedFile(t, id, batchId, projectId, name, code, now);
    if u.Some? {
      assert forall f, sha | HasContent(u.value, f, sha) :: HasContent(t, f, sha);
      assert forall f, sha | HasContent(t, f, sha) :: HasContent(u.value, f, sha);
      assert forall b, key | HasKey(u.value, b, key) :: HasKey(t, b, key);
    }
  }

  lemma CompleteBatchKeeps(t: Tables, id: nat, status: BatchStatus, registered: nat, failed: nat)
    requires TablesOk(t)
    ensures var u := CompleteBatch(t, id, status, registered, failed);
            u.Some? ==>
              && TablesOk(u.value) && u.value.files == t.files && u.value.blobs == t.blobs
              && u.value.batches.Keys == t.batches.Keys
              && (forall other | other in t.batches && other != id :: u.value.batches[other] == t.batches[other])
              && u.value.batches[id].idempotencyKey == t.batches[id].idempotencyKey
  {
    var u := CompleteBatch(t, id, status, registered, failed);
    if u.Some? {
      assert forall f, sha | HasContent(u.value, f, sha) :: HasContent(t, f, sha);
      assert forall f, sha | HasContent(t, f, sha) :: HasContent(u.value, f, sha);
      assert forall b, key | HasKey(u.value, b, key) :: HasKey(t, b, key);
    }
  }

  lemma DeleteEmptyBatchKeeps(t: Tables, id: nat)
    requires TablesOk(t)
    ensures var u := DeleteEmptyBatch(t, id); u.Some? ==> TablesOk(u.value)
  {
    var u := DeleteEmptyBatch(t, id);
    if u.Some? {
      assert forall f | f in t.files :: t.files[f].batchId != id by {
        if f :| f in t.files && t.files[f].batchId == id {
          assert f in FilesOf(t, id);
        }
      }
      assert forall f, sha | HasContent(u.value, f, sha) :: HasContent(t, f, sha);
      assert forall f, sha | HasContent(t, f, sha) :: HasContent(u.value, f, sha);
      assert forall b, key | HasKey(u.value, b, key) :: HasKey(t, b, key);
    }
  }

  function RegisteredRows(t: Tables): set<nat> {
    set id | id in t.files && t.files[id].Registered()
  }

  /** The one-to-one correspondence, as a reader of the tables would count it. */
  lemma BlobsAreRegisteredRows(t: Tables)
    requires TablesOk(t)
    ensures |RegisteredRows(t)| == |t.blobs|
    ensures forall sha :: sha in t.blobs <==> FindRegistered(t, sha).Some?
    decreases |t.files|
  {
    if t.files == map[] {
      assert RegisteredRows(t) == {};
      assert t.blobs == map[] by {
        assert forall sha | sha in t.blobs :: exists id :: HasContent(t, id, sha);
      }
    } else {
      var id :| id in t.files;
      RemoveRow(t, id);
    }
    assert forall sha | sha in t.blobs :: exists id :: HasContent(t, id, sha);
  }

  lemma RemoveRow(t: Tables, id: nat)
    requires TablesOk(t) && id in t.files
    ensures |RegisteredRows(t)| == |t.blobs|
    decreases |t.files|, 0
  {
    hide TablesOk;
    WithoutKeeps(t, id);
    RowsWithout(t, id);
    hide Without, RegisteredRows;
    BlobsAreRegisteredRows(Without(t, id));
  }

  lemma RowsWithout(t: Tables, id: nat)
    requires id in t.files
    ensures |Without(t, id).files| < |t.files|
    ensures |RegisteredRows(t)| == |RegisteredRows(Without(t, id))| + if t.files[id].Registered() then 1 else 0
  {
    var u := Without(t, id);
    assert t.files.Keys == u.files.Keys + {id};
    assert |t.files| == |t.files.Keys| && |u.files| == |u.files.Keys|;
    if t.files[id].Registered() {
      assert RegisteredRows(t) == RegisteredRows(u) + {id};
    } else {
      assert RegisteredRows(t) == RegisteredRows(u);
    }
  }

  function Without(t: Tables, id: nat): Tables
    requires id in t.files
  {
    var content := t.files[id].content;
    t.(files := t.files - {id}, blobs := if content.Some? then t.blobs - {content.value.sha256} else t.blobs)
  }

  lemma WithoutKeeps(t: Tables, id: nat)
    requires TablesOk(t) && id in t.files
    ensures TablesOk(Without(t, id))
    ensures t.files[id].Registered() ==>
              t.files[id].content.Some? && |t.blobs| == |Without(t, id).blobs| + 1
    ensures !t.files[id].Registered() ==> t.files[id].content.None?
  {
    var u := Without(t, id);
    assert forall f, sha | HasContent(u, f, sha) :: HasContent(t, f, sha);
    assert forall f, sha | HasContent(t, f, sha) && f != id :: HasContent(u, f, sha);
    assert forall b, key | HasKey(u, b, key) :: HasKey(t, b, key);
    if t.files[id].Registered() {
      var sha := t.files[id].content.value.sha256;
      assert HasContent(t, id, sha);
      assert t.blobs == u.blobs[sha := t.blobs[sha]];
    }
  }

  /** Rows are listed by creation time, and those of one instant by id. */
  predicate Precedes(files: map<nat, FileRow>, a: nat, b: nat) {
    a in files && b in files &&
    (files[a].createdAt < files[b].createdAt || (files[a].createdAt == files[b].createdAt && a < b))
  }

  predicate InOrder(files: map<nat, FileRow>, rows: seq<nat>) {
    forall i, j | 0 <= i < j < |rows| :: Precedes(files, rows[i], rows[j])
  }

  function Elements(rows: seq<nat>): set<nat> {
    set f | f in rows
  }

  ghost predicate IsFirst(files: map<nat, FileRow>, rows: set<nat>, f: nat) {
    f in rows && forall g | g in rows && g != f :: Precedes(files, f, g)
  }

  lemma {:induction false} FirstExists(files: map<nat, FileRow>, rows: set<nat>)
    requires rows != {} && rows <= files.Keys
    ensures exists f :: IsFirst(files, rows, f)
  {
    var f :| f in rows;
    var rest := rows - {f};
    if rest == {} {
      assert rows == {f};
      assert IsFirst(files, rows, f);
    } else {
      FirstExists(files, rest);
      var h :| IsFirst(files, rest, h);
      if Precedes(files, f, h) {
        forall g | g in rows && g != f ensures Precedes(files, f, g) {
          assert g in rest && (g != h ==> Precedes(files, h, g));
        }
        assert IsFirst(files, rows, f);
      } else {
        assert Precedes(files, h, f);
        assert IsFirst(files, rows, h);
      }
    }
  }

  /** The registry over its database; a `fault` stands for any other exception of the transaction. */
  class FileRegistry {
    var batches: map<nat, BatchRow>
    var blobs: map<Sha, nat>
    var files: map<nat, FileRow>

    ghost function View(): Tables
      reads this
    {
      Tables(batches, blobs, files)
    }

    constructor ()
      ensures View() == Tables(map[], map[], map[]) && TablesOk(View())
    {
      batches, blobs, files := map[], map[], map[];
    }

    method GetBatchByIdempotencyKey(key: string) returns (found: Option<nat>)
      requires TablesOk(View())
      ensures found == FindBatch(View(), key)
    {
      if id :| id in batches && batches[id].idempotencyKey == key {
        assert HasKey(View(), id, key);
        found := Some(id);
      } else {
        found := None;
      }
    }

    /** The batch and its rows by creation time and id. */
    method GetBatchDetail(id: nat) returns (detail: Option<(BatchRow, seq<nat>)>)
      ensures detail.Some? <==> id in batches
      ensures detail.Some? ==>
                && detail.value.0 == batches[id]
                && Elements(detail.value.1) == FilesOf(View(), id)
                && (forall f :: f in detail.value.1 <==> f in files && files[f].batchId == id)
                && (forall i, j | 0 <= i < j < |detail.value.1| ::
                      var a, b := detail.value.1[i], detail.value.1[j];
                      a in files && b in files && files[a].createdAt <= files[b].createdAt &&
                      (files[a].createdAt == files[b].createdAt ==> a < b))
    {
      if id !in batches {
        return None;
      }
      var rest := set f | f in files && files[f].batchId == id;
      var rows: seq<nat> := [];
      while rest != {}
        invariant rest + Elements(rows) == FilesOf(View(), id) && InOrder(files, rows)
        invariant forall f, g | f in rows && g in rest :: Precedes(files, f, g)
        decreases rest
      {
        FirstExists(files, rest);
        ghost var first :| IsFirst(files, rest, first);
        assert first in rest;
        var f :| f in rest && forall g | g in rest && g != f :: Precedes(files, f, g);
        assert Elements(rows + [f]) == Elements(rows) + {f};
        rows, rest := rows + [f], rest - {f};
      }
      assert forall f :: f in rows <==> f in Elements(rows);
      return Some((batches[id], rows));
    }

    /** `conflict`: a unique constraint is violated. */
    method Create(id: nat, row: BatchRow, fault: bool) returns (ok: bool, conflict: bool)
      modifies this
      ensures var after := CreateBatch(old(View()), id, row);
              && conflict == after.None? && ok == (!fault && !conflict)
              && View() == if ok then after.value else old(View())
    {
      assert forall b :: HasKey(View(), b, row.idempotencyKey) <==>
                         b in batches && batches[b].idempotencyKey == row.idempotencyKey;
      conflict := id in batches || exists b :: b in batches && batches[b].idempotencyKey == row.idempotencyKey;
      ok := !fault && !conflict;
      if ok {
        batches := batches[id := row];
      }
    }

    /** `None` is the exception of a transaction that was rolled back. */
    method Register(id: nat, batchId: nat, projectId: string, name: string, blob: StoredBlob, now: int, fault: bool)
        returns (result: Option<Option<nat>>)
      requires TablesOk(View())
      modifies this
      ensures var after := RegisterFile(old(View()), id, batchId, projectId, name, blob, now);
              if fault || after.None? then result == None && View() == old(View())
              else result == Some(after.value.duplicate) && View() == after.value.tables
    {
      if fault {
        return None;
      }
      var newBlobs := blobs;
      if blob.sha256 !in blobs {
        newBlobs := blobs[blob.sha256 := blob.size];
      } else if blobs[blob.sha256] != blob.size {
        return None;
      }
      var same := set f | f in files && files[f].content.Some? && files[f].content.value.sha256 == blob.sha256;
      if same != {} {
        var duplicate :| duplicate in same;
        assert HasContent(View(), duplicate, blob.sha256);
        blobs := newBlobs;
        return Some(Some(duplicate));
      }
      assert forall f | HasContent(View(), f, blob.sha256) :: f in same;
      if id in files || batchId !in batches {
        return None;
      }
      blobs := newBlobs;
      files := files[id := FileRow(batchId, projectId, name, Some(Content(blob.sha256, blob.size)), None, now)];
      return Some(None);
    }

    method RecordFailed(id: nat, batchId: nat, projectId: string, name: string, code: FailureCode, now: int, fault: bool)
        returns (ok: bool)
      modifies this
      ensures var after := RecordFailedFile(old(View()), id, batchId, projectId, name, code, now);
              ok == (!fault && after.Some?) && View() == if ok then after.value else old(View())
    {
      if fault || id in files || batchId !in batches {
        return false;
      }
      files := files[id := FileRow(batchId, projectId, name, None, Some(code), now)];
      return true;
    }

    method Complete(id: nat, status: BatchStatus, registered: nat, failed: nat, fault: bool) returns (ok: bool)
      modifies this
      ensures var after := CompleteBatch(old(View()), id, status, registered, failed);
              ok == (!fault && after.Some?) && View() == if ok then after.value else old(View())
    {
      if fault || id !in batches {
        return false;
      }
      batches := batches[id := batches[id].(status := status, registered := registered, failed := failed)];
      return true;
    }

    method DeleteEmpty(id: nat, fault: bool) returns (ok: bool)
      modifies this
      ensures var after := DeleteEmptyBatch(old(View()), id);
              ok == (!fault && after.Some?) && View() == if ok then after.value else old(View())
    {
      var rows := set f | f in files && files[f].batchId == id;
      assert rows == FilesOf(View(), id);
      if fault || rows != {} {
        return false;
      }
      batches := batches - {id};
      return true;
    }
  }
}
