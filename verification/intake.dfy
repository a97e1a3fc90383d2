/** The intake orchestrator: one request from validation to its reply, on values and over the
    registry and the store. */
module IntakeOrchestration {
  import opened Wrappers
  import opened IntakeRegistry
  import opened OriginalFiles

  /** Hashing, fingerprinting and stripping are functions of their arguments and nothing more is assumed. */
  datatype Settings = Settings(
    digest: Bytes -> Sha, fingerprint: Header -> string, strip: string -> string,
    maxFileBytes: int, maxBatchBytes: int, maxFilesPerBatch: int, chunkBytes: int, allowedExtensions: set<string>)

  /** What the fingerprint is made of; it does not depend on the contents of the files. */
  datatype Header = Header(
    projectId: string, sourceKind: int, description: Option<string>, submittedBy: Option<string>, names: seq<string>)

  datatype IntakeFile = IntakeFile(name: string, extension: Option<string>, bytes: Bytes)

  datatype Command = Command(
    projectId: string, sourceKind: int, description: Option<string>, submittedBy: Option<string>,
    idempotencyKey: string, files: seq<IntakeFile>)

  /** What the environment does to one file of a request: ids, clock and faults. */
  datatype FileScript = FileScript(fileId: nat, now: int, fault: Fault, registerFault: bool, recordFault: bool)

  datatype Script = Script(batchId: nat, createFault: bool, files: seq<FileScript>, completeFault: bool, deleteFault: bool)

  /** The tables and the originals on disk. */
  datatype World = World(tables: Tables, originals: map<Sha, Bytes>)

  datatype Outcome = Accepted(size: nat) | Duplicate(size: nat, of: nat) | Rejected(code: FailureCode)

  datatype Tally = Tally(registered: nat, failed: nat, consumed: nat, duplicates: seq<nat>)
  {
    function Add(o: Outcome): Tally {
      match o
      case Accepted(size) => Tally(registered + 1, failed, consumed + size, duplicates)
      case Duplicate(size, of) => Tally(registered, failed + 1, consumed + size, duplicates + [of])
      case Rejected(_) => Tally(registered, failed + 1, consumed, duplicates)
    }
  }

  datatype Refusal =
    | MissingIdempotencyKey | InvalidRequest | TooManyFiles | IdempotencyConflict
    | Broken       // any other exception

  datatype Reply = Reply(batch: BatchRow, files: set<nat>, duplicates: seq<nat>)

  function HeaderOf(c: Command): Header {
    Header(c.projectId, c.sourceKind, c.description, c.submittedBy, seq(|c.files|, i requires 0 <= i < |c.files| => c.files[i].name))
  }

  function Validate(settings: Settings, c: Command): Option<Refusal> {
    if settings.strip(c.idempotencyKey) == "" then Some(MissingIdempotencyKey)
    else if settings.strip(c.projectId) == "" then Some(InvalidRequest)
    else if c.files == [] then Some(InvalidRequest)
    else if |c.files| > settings.maxFilesPerBatch then Some(TooManyFiles)
    else None
  }

  function Remaining(settings: Settings, consumed: nat): nat {
    if settings.maxBatchBytes > consumed then settings.maxBatchBytes - consumed else 0
  }

  function Min(a: int, b: int): int {
    if a <= b then a else b
  }

  function Received(settings: Settings, file: IntakeFile): Bytes {
    if settings.chunkBytes == 0 then [] else file.bytes
  }

  predicate Extended(settings: Settings, file: IntakeFile) {
    file.extension.Some? && file.extension.value in settings.allowedExtensions
  }

  /** A file too large for what the batch has left is reported as a batch too large. */
  function Reported(settings: Settings, code: FailureCode, remaining: nat): FailureCode {
    if code.FileTooLarge? && remaining < settings.maxFileBytes then BatchTooLarge else code
  }

  /** Checking and storing one file, before the registry sees it. */
  function Receive(settings: Settings, originals: map<Sha, Bytes>, file: IntakeFile, remaining: nat, fault: Fault): Storing {
    if !Extended(settings, file) then Storing(originals, Failure(UnsupportedExtension))
    else if remaining == 0 then Storing(originals, Failure(BatchTooLarge))
    else StoreOriginal(settings.digest, originals, Received(settings, file), Min(settings.maxFileBytes, remaining), fault)
  }

  /** The world after one file; `None` is an exception that leaves `_process_file`. */
  datatype Processed = Processed(world: World, outcome: Option<Outcome>)

  function Record(w: World, batchId: nat, projectId: string, name: string, code: FailureCode, script: FileScript): Processed {
    var after := RecordFailedFile(w.tables, script.fileId, batchId, projectId, name, code, script.now);
    if script.recordFault || after.None? then Processed(w, None)
    else Processed(w.(tables := after.value), Some(Rejected(code)))
  }

  ghost function ProcessFile(settings: Settings, w: World, batchId: nat, projectId: string, file: IntakeFile,
                             remaining: nat, script: FileScript): Processed
  {
    var stored := Receive(settings, w.originals, file, remaining, script.fault);
    var w := w.(originals := stored.originals);
    match stored.result
    case Failure(code) => Record(w, batchId, projectId, file.name, Reported(settings, code, remaining), script)
    case Success(blob) =>
      var after := RegisterFile(w.tables, script.fileId, batchId, projectId, file.name, blob, script.now);
      if script.registerFault || after.None? then
        Record(w, batchId, projectId, file.name, StorageUnavailable, script)
      else
        Processed(w.(tables := after.value.tables),
                  Some(if after.value.duplicate.Some? then Duplicate(blob.size, after.value.duplicate.value)
                       else Accepted(blob.size)))
  }

  datatype Progress = Progress(world: World, tally: Option<Tally>)

  /** The first `k` files of a request. */
  ghost function ProcessFiles(settings: Settings, w: World, batchId: nat, projectId: string, files: seq<IntakeFile>,
                              scripts: seq<FileScript>, k: nat): Progress
    requires k <= |files| == |scripts|
  {
    if k == 0 then Progress(w, Some(Tally(0, 0, 0, []))) else
    var before := ProcessFiles(settings, w, batchId, projectId, files, scripts, k - 1);
    if before.tally.None? then before else
    var tally := before.tally.value;
    var step := ProcessFile(settings, before.world, batchId, projectId, files[k - 1],
                            Remaining(settings, tally.consumed), scripts[k - 1]);
    Progress(step.world, if step.outcome.Some? then Some(tally.Add(step.outcome.value)) else None)
  }

  function StatusOf(registered: nat, total: nat): BatchStatus {
    if registered == total then Completed else if registered == 0 then Failed else Partial
  }

  datatype Executed = Executed(world: World, reply: Result<Reply, Refusal>)

  /** The end of a request whose files have all been processed. */
  function Finish(w: World, batchId: nat, total: nat, tally: Tally, script: Script): Executed {
    var completed := CompleteBatch(w.tables, batchId, StatusOf(tally.registered, total), tally.registered, tally.failed);
    if script.completeFault || completed.None? then Executed(w, Failure(Broken)) else
    var t := completed.value;
    var reply := Reply(t.batches[batchId], FilesOf(t, batchId), tally.duplicates);
    if tally.duplicates == [] || reply.files != {} then Executed(w.(tables := t), Success(reply))
    else if script.deleteFault then Executed(w.(tables := t), Failure(Broken))
    else Executed(w.(tables := DeleteEmptyBatch(t, batchId).value), Success(reply))
  }

  function NewBatch(settings: Settings, c: Command): BatchRow {
    BatchRow(settings.strip(c.projectId), c.idempotencyKey, settings.fingerprint(HeaderOf(c)), Receiving, |c.files|, 0, 0)
  }

  /** The world in which the files of a new request are processed. */
  function Started(settings: Settings, w: World, c: Command, batchId: nat): World {
    w.(tables := w.tables.(batches := w.tables.batches[batchId := NewBatch(settings, c)]))
  }

  ghost function RunFiles(settings: Settings, w: World, c: Command, script: Script): Progress
    requires |script.files| == |c.files|
  {
    ProcessFiles(settings, Started(settings, w, c, script.batchId), script.batchId, settings.strip(c.projectId), c.files,
                 script.files, |c.files|)
  }

  /** A request whose idempotency key is new. */
  ghost function ExecuteNew(settings: Settings, w: World, c: Command, script: Script): Executed
    requires |script.files| == |c.files|
  {
    if CreateBatch(w.tables, script.batchId, NewBatch(settings, c)).None? then Executed(w, Failure(IdempotencyConflict))
    else if script.createFault then Executed(w, Failure(Broken))
    else
      var run := RunFiles(settings, w, c, script);
      if run.tally.None? then Executed(run.world, Failure(Broken))
      else Finish(run.world, script.batchId, |c.files|, run.tally.value, script)
  }

  ghost function Execute(settings: Settings, w: World, c: Command, script: Script): Executed
    requires |script.files| == |c.files|
  {
    var refusal := Validate(settings, c);
    if refusal.Some? then Executed(w, Failure(refusal.value)) else
    var existing := FindBatch(w.tables, c.idempotencyKey);
    if existing.None? then ExecuteNew(settings, w, c, script)
    else if w.tables.batches[existing.value].fingerprint != settings.fingerprint(HeaderOf(c)) then
      Executed(w, Failure(IdempotencyConflict))
    else
      Executed(w, Success(Reply(w.tables.batches[existing.value], FilesOf(w.tables, existing.value), [])))
  }

  /** The tables are consistent, originals have the content that their names say, and every blob row's
      original is on disk with its size. */
  ghost predicate WorldOk(digest: Bytes -> Sha, w: World) {
    && TablesOk(w.tables)
    && OriginalsOk(digest, w.originals)
    && (forall sha | sha in w.tables.blobs :: sha in w.originals && |w.originals[sha]| == w.tables.blobs[sha])
  }

  /** Originals are never changed or removed. */
  ghost predicate OriginalsGrow(a: World, b: World) {
    forall sha | sha in a.originals :: sha in b.originals && b.originals[sha] == a.originals[sha]
  }

  lemma RecordKeeps(digest: Bytes -> Sha, w: World, batchId: nat, projectId: string, name: string, code: FailureCode,
                    script: FileScript)
    requires WorldOk(digest, w)
    ensures var p := Record(w, batchId, projectId, name, code, script);
            WorldOk(digest, p.world) && OriginalsGrow(w, p.world)
  {
    RecordFailedFileKeeps(w.tables, script.fileId, batchId, projectId, name, code, script.now);
  }

  lemma ProcessFileKeeps(settings: Settings, w: World, batchId: nat, projectId: string, file: IntakeFile,
                         remaining: nat, script: FileScript)
    requires WorldOk(settings.digest, w)
    ensures var p := ProcessFile(settings, w, batchId, projectId, file, remaining, script);
            WorldOk(settings.digest, p.world) && OriginalsGrow(w, p.world)
  {
    hide TablesOk;
    var stored := Receive(settings, w.originals, file, remaining, script.fault);
    StoreOriginalKeeps(settings.digest, w.originals, Received(settings, file), Min(settings.maxFileBytes, remaining), script.fault);
    var v := w.(originals := stored.originals);
    match stored.result {
      case Failure(code) =>
        RecordKeeps(settings.digest, v, batchId, projectId, file.name, Reported(settings, code, remaining), script);
      case Success(blob) =>
        RegisterFileKeeps(v.tables, script.fileId, batchId, projectId, file.name, blob, script.now);
        RecordKeeps(settings.digest, v, batchId, projectId, file.name, StorageUnavailable, script);
    }
  }

  function RegisteredOf(t: Tables, batchId: nat): set<nat> {
    set id | id in FilesOf(t, batchId) && t.files[id].Registered()
  }

  /** What one processed file adds to the rows of its batch, and that it touches nothing else. */
  ghost predicate Adds(settings: Settings, a: Tables, b: Tables, batchId: nat, id: nat, remaining: nat, o: Outcome) {
    && b.batches == a.batches
    && (forall f | f in a.files :: f in b.files && b.files[f] == a.files[f])
    && (forall f | f in b.files :: f in a.files || (f == id && b.files[f].batchId == batchId))
    && match o
       case Duplicate(size, of) =>
         b == a && of in a.files && a.files[of].Registered() && size <= remaining && size <= settings.maxFileBytes
       case Accepted(size) =>
         && id !in a.files && id in b.files && b.files[id].Registered()
         && size <= remaining && size <= settings.maxFileBytes
         && b.files[id].content.Some? && b.files[id].content.value.size == size
       case Rejected(code) =>
         id !in a.files && id in b.files && b.files[id].failure == Some(code) && b.files[id].content.None?
         && b.blobs == a.blobs
  }

  lemma ProcessFileAdds(settings: Settings, w: World, batchId: nat, projectId: string, file: IntakeFile,
                        remaining: nat, script: FileScript)
    requires WorldOk(settings.digest, w)
    ensures var p := ProcessFile(settings, w, batchId, projectId, file, remaining, script);
            if p.outcome.Some? then
              Adds(settings, w.tables, p.world.tables, batchId, script.fileId, remaining, p.outcome.value)
            else p.world.tables == w.tables
  {
    TablesOfWorld(settings.digest, w);
    hide WorldOk, TablesOk, RegisterFile, RecordFailedFile, Adds;
    var stored := Receive(settings, w.originals, file, remaining, script.fault);
    StoredSize(settings, w.originals, file, remaining, script.fault);
    match stored.result {
      case Failure(code) =>
        RecordAdds(settings, w.tables, script.fileId, batchId, projectId, file.name, Reported(settings, code, remaining),
                   script.now, remaining);
      case Success(blob) =>
        RegisterAdds(settings, w.tables, script.fileId, batchId, projectId, file.name, blob, script.now, remaining);
        RecordAdds(settings, w.tables, script.fileId, batchId, projectId, file.name, StorageUnavailable, script.now, remaining);
    }
  }

  lemma StoredSize(settings: Settings, originals: map<Sha, Bytes>, file: IntakeFile, remaining: nat, fault: Fault)
    ensures var stored := Receive(settings, originals, file, remaining, fault);
            stored.result.Success? ==>
              stored.result.value.size <= remaining && stored.result.value.size <= settings.maxFileBytes
  {
  }

  lemma RecordAdds(settings: Settings, t: Tables, id: nat, batchId: nat, projectId: string, name: string,
                   code: FailureCode, now: int, remaining: nat)
    ensures var after := RecordFailedFile(t, id, batchId, projectId, name, code, now);
            after.Some? ==> Adds(settings, t, after.value, batchId, id, remaining, Rejected(code))
  {
  }

  lemma RegisterAdds(settings: Settings, t: Tables, id: nat, batchId: nat, projectId: string, name: string,
                     blob: StoredBlob, now: int, remaining: nat)
    requires TablesOk(t) && blob.size <= remaining && blob.size <= settings.maxFileBytes
    ensures var after := RegisterFile(t, id, batchId, projectId, name, blob, now);
            after.Some? ==>
              Adds(settings, t, after.value.tables, batchId, id, remaining,
                   if after.value.duplicate.Some? then Duplicate(blob.size, after.value.duplicate.value) else Accepted(blob.size))
  {
    RegisterFileKeeps(t, id, batchId, projectId, name, blob, now);
  }

  function BytesOfRow(t: Tables, id: nat): nat {
    if id in t.files && t.files[id].content.Some? then t.files[id].content.value.size else 0
  }

  /** The bytes that the given rows refer to. */
  ghost function BytesOf(t: Tables, ids: set<nat>): nat {
    if ids == {} then 0 else
    var id :| id in ids;
    BytesOfRow(t, id) + BytesOf(t, ids - {id})
  }

  lemma {:induction false} BytesOfRemove(t: Tables, ids: set<nat>, id: nat)
    requires id in ids
    ensures BytesOf(t, ids) == BytesOfRow(t, id) + BytesOf(t, ids - {id})
    decreases |ids|
  {
    var first :| first in ids && BytesOf(t, ids) == BytesOfRow(t, first) + BytesOf(t, ids - {first});
    if first != id {
      BytesOfRemove(t, ids - {first}, id);
      BytesOfRemove(t, ids - {id}, first);
      assert ids - {first} - {id} == ids - {id} - {first};
    }
  }

  lemma {:induction false} BytesOfSame(a: Tables, b: Tables, ids: set<nat>)
    requires forall id | id in ids :: BytesOfRow(a, id) == BytesOfRow(b, id)
    ensures BytesOf(a, ids) == BytesOf(b, ids)
    decreases |ids|
  {
    if ids != {} {
      var id :| id in ids;
      BytesOfRemove(a, ids, id);
      BytesOfRemove(b, ids, id);
      BytesOfSame(a, b, ids - {id});
    }
  }

  /** The rows and counters of a batch after some of its files. */
  ghost predicate Accounted(settings: Settings, t: Tables, batchId: nat, tally: Tally, k: nat) {
    && tally.registered + tally.failed == k
    && |FilesOf(t, batchId)| + |tally.duplicates| == k
    && |RegisteredOf(t, batchId)| == tally.registered
    && BytesOf(t, FilesOf(t, batchId)) <= tally.consumed <= Remaining(settings, 0)
    && (forall id | id in FilesOf(t, batchId) && t.files[id].content.Some? ::
          t.files[id].content.value.size <= settings.maxFileBytes)
  }

  lemma AddsAccounted(settings: Settings, a: Tables, b: Tables, batchId: nat, id: nat, tally: Tally, o: Outcome, k: nat)
    requires Accounted(settings, a, batchId, tally, k)
    requires Adds(settings, a, b, batchId, id, Remaining(settings, tally.consumed), o)
    ensures Accounted(settings, b, batchId, tally.Add(o), k + 1)
  {
    if !o.Duplicate? {
      AddsRow(settings, a, b, batchId, id, Remaining(settings, tally.consumed), o);
      AddsBytes(settings, a, b, batchId, id, Remaining(settings, tally.consumed), o);
      AddsSizes(settings, a, b, batchId, id, Remaining(settings, tally.consumed), o);
      hide FilesOf, RegisteredOf, BytesOf, BytesOfRow, Adds;
    }
  }

  lemma AddsRow(settings: Settings, a: Tables, b: Tables, batchId: nat, id: nat, remaining: nat, o: Outcome)
    requires Adds(settings, a, b, batchId, id, remaining, o) && !o.Duplicate?
    ensures id !in FilesOf(a, batchId) && FilesOf(b, batchId) == FilesOf(a, batchId) + {id}
    ensures id !in RegisteredOf(a, batchId)
    ensures RegisteredOf(b, batchId) == RegisteredOf(a, batchId) + if o.Accepted? then {id} else {}
    ensures o.Accepted? ==> o.size <= remaining
  {
    assert b.files[id].batchId == batchId;
  }

  lemma AddsSizes(settings: Settings, a: Tables, b: Tables, batchId: nat, id: nat, remaining: nat, o: Outcome)
    requires Adds(settings, a, b, batchId, id, remaining, o) && !o.Duplicate?
    ensures forall f | f in FilesOf(b, batchId) && b.files[f].content.Some? ::
              || (f in FilesOf(a, batchId) && a.files[f] == b.files[f])
              || b.files[f].content.value.size <= settings.maxFileBytes
  {
  }

  lemma AddsBytes(settings: Settings, a: Tables, b: Tables, batchId: nat, id: nat, remaining: nat, o: Outcome)
    requires Adds(settings, a, b, batchId, id, remaining, o) && !o.Duplicate?
    ensures BytesOf(b, FilesOf(b, batchId)) == BytesOf(a, FilesOf(a, batchId)) + if o.Accepted? then o.size else 0
  {
    AddsRow(settings, a, b, batchId, id, remaining, o);
    BytesOfRemove(b, FilesOf(b, batchId), id);
    assert FilesOf(b, batchId) - {id} == FilesOf(a, batchId);
    BytesOfSame(a, b, FilesOf(a, batchId));
  }

  /** Processing keeps the world consistent, also when it is cut short, and counts every file. */
  lemma {:induction false} ProcessFilesAccounted(settings: Settings, w: World, batchId: nat, projectId: string,
                                                 files: seq<IntakeFile>, scripts: seq<FileScript>, k: nat)
    requires WorldOk(settings.digest, w) && FilesOf(w.tables, batchId) == {} && k <= |files| == |scripts|
    ensures var run := ProcessFiles(settings, w, batchId, projectId, files, scripts, k);
            && WorldOk(settings.digest, run.world) && OriginalsGrow(w, run.world)
            && run.world.tables.batches == w.tables.batches
            && (run.tally.Some? ==> Accounted(settings, run.world.tables, batchId, run.tally.value, k))
  {
    hide TablesOk, WorldOk, Accounted, ProcessFile, Adds;
    if k == 0 {
      NothingAccounted(settings, w.tables, batchId);
    } else {
      ProcessFilesAccounted(settings, w, batchId, projectId, files, scripts, k - 1);
      var before := ProcessFiles(settings, w, batchId, projectId, files, scripts, k - 1);
      if before.tally.Some? {
        var tally := before.tally.value;
        var remaining := Remaining(settings, tally.consumed);
        var step := ProcessFile(settings, before.world, batchId, projectId, files[k - 1], remaining, scripts[k - 1]);
        ProcessFileKeeps(settings, before.world, batchId, projectId, files[k - 1], remaining, scripts[k - 1]);
        ProcessFileAdds(settings, before.world, batchId, projectId, files[k - 1], remaining, scripts[k - 1]);
        if step.outcome.Some? {
          BatchesStay(settings, before.world.tables, step.world.tables, batchId, scripts[k - 1].fileId, remaining, step.outcome.value);
          AddsAccounted(settings, before.world.tables, step.world.tables, batchId, scripts[k - 1].fileId, tally,
                        step.outcome.value, k - 1);
        }
      }
    }
  }

  lemma BatchesStay(settings: Settings, a: Tables, b: Tables, batchId: nat, id: nat, remaining: nat, o: Outcome)
    requires Adds(settings, a, b, batchId, id, remaining, o)
    ensures a.batches == b.batches
  {
  }

  lemma NothingAccounted(settings: Settings, t: Tables, batchId: nat)
    requires FilesOf(t, batchId) == {}
    ensures Accounted(settings, t, batchId, Tally(0, 0, 0, []), 0)
  {
    assert RegisteredOf(t, batchId) == {};
    assert BytesOf(t, {}) == 0;
  }

  lemma FreshBatchIsEmpty(t: Tables, id: nat)
    requires TablesOk(t) && id !in t.batches
    ensures FilesOf(t, id) == {}
  {
    assert forall f | f in t.files :: t.files[f].batchId in t.batches;
  }

  lemma FinishKeeps(settings: Settings, w: World, batchId: nat, total: nat, tally: Tally, script: Script)
    requires WorldOk(settings.digest, w)
    ensures var done := Finish(w, batchId, total, tally, script);
            WorldOk(settings.digest, done.world) && OriginalsGrow(w, done.world)
  {
    var status := StatusOf(tally.registered, total);
    CompleteBatchKeeps(w.tables, batchId, status, tally.registered, tally.failed);
    var completed := CompleteBatch(w.tables, batchId, status, tally.registered, tally.failed);
    if completed.Some? {
      DeleteEmptyBatchKeeps(completed.value, batchId);
    }
  }

  /** A batch that can be created has no rows yet. */
  lemma StartedOk(settings: Settings, w: World, c: Command, batchId: nat)
    requires WorldOk(settings.digest, w) && CreateBatch(w.tables, batchId, NewBatch(settings, c)).Some?
    ensures WorldOk(settings.digest, Started(settings, w, c, batchId))
    ensures FilesOf(w.tables, batchId) == FilesOf(Started(settings, w, c, batchId).tables, batchId) == {}
    ensures batchId !in w.tables.batches
  {
    CreateBatchKeeps(w.tables, batchId, NewBatch(settings, c));
    FreshBatchIsEmpty(w.tables, batchId);
    assert FilesOf(Started(settings, w, c, batchId).tables, batchId) == FilesOf(w.tables, batchId);
  }

  lemma RunFilesAccounted(settings: Settings, w: World, c: Command, script: Script)
    requires WorldOk(settings.digest, w) && |script.files| == |c.files|
    requires CreateBatch(w.tables, script.batchId, NewBatch(settings, c)).Some?
    ensures var run := RunFiles(settings, w, c, script);
            && WorldOk(settings.digest, run.world) && OriginalsGrow(w, run.world)
            && run.world.tables.batches == w.tables.batches[script.batchId := NewBatch(settings, c)]
            && (run.tally.Some? ==> Accounted(settings, run.world.tables, script.batchId, run.tally.value, |c.files|))
  {
    hide TablesOk, ProcessFiles, Accounted;
    StartedOk(settings, w, c, script.batchId);
    ProcessFilesAccounted(settings, Started(settings, w, c, script.batchId), script.batchId, settings.strip(c.projectId), c.files,
                          script.files, |c.files|);
  }

  /** Whatever happens to a request, the world stays consistent and no original changes. */
  lemma ExecuteKeeps(settings: Settings, w: World, c: Command, script: Script)
    requires WorldOk(settings.digest, w) && |script.files| == |c.files|
    ensures var done := Execute(settings, w, c, script);
            WorldOk(settings.digest, done.world) && OriginalsGrow(w, done.world)
  {
    hide WorldOk, RunFiles, Finish, CreateBatch;
    if CreateBatch(w.tables, script.batchId, NewBatch(settings, c)).Some? {
      RunFilesAccounted(settings, w, c, script);
      var run := RunFiles(settings, w, c, script);
      if run.tally.Some? {
        FinishKeeps(settings, run.world, script.batchId, |c.files|, run.tally.value, script);
      }
    }
  }

  /** A new request that gets its reply: every file is counted once, and the batch stays exactly when
      it has a row. */
  ghost predicate FullyAccounted(settings: Settings, t: Tables, batchId: nat, total: nat, reply: Reply) {
    && reply.batch.registered + reply.batch.failed == total
    && |reply.files| + |reply.duplicates| == total
    && reply.batch.status == StatusOf(reply.batch.registered, total)
    && (batchId in t.batches <==> reply.files != {})
    && FilesOf(t, batchId) == reply.files
    && |RegisteredOf(t, batchId)| == reply.batch.registered
    && BytesOf(t, reply.files) <= Remaining(settings, 0)
    && (forall id | id in reply.files && t.files[id].content.Some? ::
          t.files[id].content.value.size <= settings.maxFileBytes)
  }

  lemma FinishAccounted(settings: Settings, w: World, batchId: nat, total: nat, tally: Tally, script: Script)
    requires Accounted(settings, w.tables, batchId, tally, total) && 0 < total
    ensures var done := Finish(w, batchId, total, tally, script);
            done.reply.Success? ==> FullyAccounted(settings, done.world.tables, batchId, total, done.reply.value)
  {
    var done := Finish(w, batchId, total, tally, script);
    if done.reply.Success? {
      assert FilesOf(done.world.tables, batchId) == FilesOf(w.tables, batchId);
      assert RegisteredOf(done.world.tables, batchId) == RegisteredOf(w.tables, batchId);
      BytesOfSame(done.world.tables, w.tables, FilesOf(w.tables, batchId));
    }
  }

  lemma EveryFileIsAccountedFor(settings: Settings, w: World, c: Command, script: Script)
    requires WorldOk(settings.digest, w) && |script.files| == |c.files|
    requires FindBatch(w.tables, c.idempotencyKey).None?
    ensures var done := Execute(settings, w, c, script);
            done.reply.Success? ==>
              FullyAccounted(settings, done.world.tables, script.batchId, |c.files|, done.reply.value)
  {
    hide WorldOk, RunFiles, Finish, FullyAccounted, CreateBatch, Accounted;
    if CreateBatch(w.tables, script.batchId, NewBatch(settings, c)).Some? && Validate(settings, c).None? {
      RunFilesAccounted(settings, w, c, script);
      var run := RunFiles(settings, w, c, script);
      if run.tally.Some? {
        FinishAccounted(settings, run.world, script.batchId, |c.files|, run.tally.value, script);
      }
    }
  }

  /** A request whose key is known changes nothing, whatever became of the first one with that key. */
  lemma ReplayChangesNothing(settings: Settings, w: World, c: Command, script: Script)
    requires FindBatch(w.tables, c.idempotencyKey).Some? && |script.files| == |c.files|
    ensures Execute(settings, w, c, script).world == w
  {
  }

  /** Only batch rows differ. */
  predicate SameFiles(a: World, b: World) {
    a.originals == b.originals && a.tables.files == b.tables.files && a.tables.blobs == b.tables.blobs
  }

  /** No fault strikes a file on its way into the store and the registry. */
  predicate Quiet(settings: Settings, file: IntakeFile, script: FileScript) {
    && !script.fault.LinkFault? && !script.fault.UnlinkFault? && !script.registerFault
    && (script.fault.ReadFault? ==> script.fault.at > |Received(settings, file)|)
  }

  /** A duplicate is recognized only when no fault strikes. */
  lemma DuplicateIsQuiet(settings: Settings, w: World, batchId: nat, projectId: string, file: IntakeFile,
                         remaining: nat, script: FileScript)
    ensures var o := ProcessFile(settings, w, batchId, projectId, file, remaining, script).outcome;
            o.Some? && o.value.Duplicate? ==> Quiet(settings, file, script)
  {
  }

  /** A duplicate leaves no trace, and is a duplicate again. */
  lemma DuplicateAgain(settings: Settings, w: World, batchId: nat, v: World, batchId': nat, projectId: string, file: IntakeFile,
                       remaining: nat, script: FileScript, script': FileScript)
    requires WorldOk(settings.digest, w) && SameFiles(w, v)
    ensures var p := ProcessFile(settings, w, batchId, projectId, file, remaining, script);
            p.outcome.Some? && p.outcome.value.Duplicate? ==>
              && p.world == w
              && (Quiet(settings, file, script') ==>
                    ProcessFile(settings, v, batchId', projectId, file, remaining, script') == Processed(v, p.outcome))
  {
    var p := ProcessFile(settings, w, batchId, projectId, file, remaining, script);
    if p.outcome.Some? && p.outcome.value.Duplicate? {
      var stored := Receive(settings, w.originals, file, remaining, script.fault);
      var blob := stored.result.value;
      RegisterFileKeeps(w.tables, script.fileId, batchId, projectId, file.name, blob, script.now);
      StoreOriginalKeeps(settings.digest, w.originals, Received(settings, file), Min(settings.maxFileBytes, remaining), script.fault);
      var of := FindRegistered(w.tables, blob.sha256);
      assert HasContent(w.tables, of.value, blob.sha256);
      StoringAgain(settings.digest, w.originals, Received(settings, file), Min(settings.maxFileBytes, remaining), script.fault);
      StoringAgain(settings.digest, v.originals, Received(settings, file), Min(settings.maxFileBytes, remaining), script'.fault);
      SameRegistered(w.tables, v.tables, blob.sha256);
    }
  }

  lemma SameRegistered(a: Tables, b: Tables, sha: Sha)
    requires TablesOk(a) && a.files == b.files
    ensures FindRegistered(a, sha) == FindRegistered(b, sha)
  {
    assert forall id :: HasContent(a, id, sha) <==> HasContent(b, id, sha);
  }

  lemma {:induction false} AllDuplicatesAgain(settings: Settings, w: World, batchId: nat, v: World, batchId': nat,
                                              projectId: string, files: seq<IntakeFile>, scripts: seq<FileScript>,
                                              scripts': seq<FileScript>, k: nat)
    requires WorldOk(settings.digest, w) && SameFiles(w, v) && FilesOf(w.tables, batchId) == {}
    requires k <= |files| == |scripts| == |scripts'|
    ensures var run := ProcessFiles(settings, w, batchId, projectId, files, scripts, k);
            run.tally.Some? && |run.tally.value.duplicates| == k ==>
              && run.world == w
              && ((forall i | 0 <= i < k :: Quiet(settings, files[i], scripts'[i])) ==>
                    ProcessFiles(settings, v, batchId', projectId, files, scripts', k) == Progress(v, run.tally))
  {
    hide TablesOk, WorldOk, ProcessFile, Accounted;
    if k > 0 {
      var before := ProcessFiles(settings, w, batchId, projectId, files, scripts, k - 1);
      AllDuplicatesAgain(settings, w, batchId, v, batchId', projectId, files, scripts, scripts', k - 1);
      ProcessFilesAccounted(settings, w, batchId, projectId, files, scripts, k - 1);
      if before.tally.Some? {
        var tally := before.tally.value;
        FewDuplicates(settings, before.world.tables, batchId, tally, k - 1);
        if before.world == w {
          DuplicateAgain(settings, w, batchId, v, batchId', projectId, files[k - 1], Remaining(settings, tally.consumed),
                         scripts[k - 1], scripts'[k - 1]);
        }
      }
    }
  }

  lemma FewDuplicates(settings: Settings, t: Tables, batchId: nat, tally: Tally, k: nat)
    requires Accounted(settings, t, batchId, tally, k)
    ensures |tally.duplicates| <= k
  {
  }

  /** A batch of duplicates only is deleted again, and nothing is left of it. */
  lemma DeletedBatchLeavesNothing(settings: Settings, w: World, c: Command, script: Script)
    requires WorldOk(settings.digest, w) && |script.files| == |c.files| && c.files != []
    requires CreateBatch(w.tables, script.batchId, NewBatch(settings, c)).Some?
    ensures var first := ExecuteNew(settings, w, c, script);
            first.reply.Success? && first.reply.value.files == {} ==>
              var run := RunFiles(settings, w, c, script);
              && first.world == w && run.tally.Some? && run.world == Started(settings, w, c, script.batchId)
              && first.reply.value.duplicates == run.tally.value.duplicates
              && |run.tally.value.duplicates| == |c.files|
  {
    hide WorldOk, TablesOk, ProcessFiles, CreateBatch;
    var first := ExecuteNew(settings, w, c, script);
    var start := Started(settings, w, c, script.batchId);
    if first.reply.Success? && first.reply.value.files == {} {
      var run := RunFiles(settings, w, c, script);
      RunFilesAccounted(settings, w, c, script);
      AllDuplicates(settings, run.world, script.batchId, |c.files|, run.tally.value, script);
      StartedOk(settings, w, c, script.batchId);
      AllDuplicatesAgain(settings, start, script.batchId, start, script.batchId, settings.strip(c.projectId), c.files,
                         script.files, script.files, |c.files|);
      FinishDeletes(start, script.batchId, |c.files|, run.tally.value, script);
      assert start.tables.batches - {script.batchId} == w.tables.batches;
    }
  }

  lemma AllDuplicates(settings: Settings, w: World, batchId: nat, total: nat, tally: Tally, script: Script)
    requires Accounted(settings, w.tables, batchId, tally, total)
    ensures var done := Finish(w, batchId, total, tally, script);
            done.reply.Success? && done.reply.value.files == {} ==>
              |tally.duplicates| == total && done.reply.value.duplicates == tally.duplicates
  {
    var done := Finish(w, batchId, total, tally, script);
    if done.reply.Success? {
      assert done.reply.value.files == FilesOf(w.tables, batchId);
    }
  }

  lemma FinishDeletes(w: World, batchId: nat, total: nat, tally: Tally, script: Script)
    requires tally.duplicates != [] && FilesOf(w.tables, batchId) == {} && batchId in w.tables.batches
    ensures var done := Finish(w, batchId, total, tally, script);
            && (!script.completeFault && !script.deleteFault ==>
                  done.reply.Success? && done.reply.value.duplicates == tally.duplicates && done.reply.value.files == {})
            && (done.reply.Success? ==>
                  done.world == w.(tables := w.tables.(batches := w.tables.batches - {batchId})))
  {
    var completed := CompleteBatch(w.tables, batchId, StatusOf(tally.registered, total), tally.registered, tally.failed);
    assert FilesOf(completed.value, batchId) == FilesOf(w.tables, batchId);
    assert completed.value.batches - {batchId} == w.tables.batches - {batchId};
  }

  lemma {:induction false} AllDuplicatesAreQuiet(settings: Settings, w: World, batchId: nat, projectId: string,
                                                 files: seq<IntakeFile>, scripts: seq<FileScript>, k: nat)
    requires WorldOk(settings.digest, w) && FilesOf(w.tables, batchId) == {} && k <= |files| == |scripts|
    ensures var run := ProcessFiles(settings, w, batchId, projectId, files, scripts, k);
            run.tally.Some? && |run.tally.value.duplicates| == k ==>
              forall i | 0 <= i < k :: Quiet(settings, files[i], scripts[i])
  {
    hide TablesOk, WorldOk, ProcessFile, Accounted, Quiet;
    if k > 0 {
      var before := ProcessFiles(settings, w, batchId, projectId, files, scripts, k - 1);
      AllDuplicatesAreQuiet(settings, w, batchId, projectId, files, scripts, k - 1);
      ProcessFilesAccounted(settings, w, batchId, projectId, files, scripts, k - 1);
      if before.tally.Some? {
        var tally := before.tally.value;
        FewDuplicates(settings, before.world.tables, batchId, tally, k - 1);
        DuplicateIsQuiet(settings, before.world, batchId, projectId, files[k - 1], Remaining(settings, tally.consumed),
                         scripts[k - 1]);
      }
    }
  }

  /** Building a batch of known duplicates leaves no trace: it is refused, or no fault strikes. */
  ghost predicate Vanishes(settings: Settings, t: Tables, c: Command, script: Script)
    requires |script.files| == |c.files|
  {
    || script.createFault || script.batchId in t.batches
    || (&& !script.completeFault && !script.deleteFault
        && forall i | 0 <= i < |c.files| :: Quiet(settings, c.files[i], script.files[i]))
  }

  /** Building a deleted batch again, with no fault, finds the same duplicates and deletes it again. */
  lemma DeletedBatchAgain(settings: Settings, w: World, c: Command, script: Script, script': Script)
    requires WorldOk(settings.digest, w) && |script.files| == |script'.files| == |c.files| && c.files != []
    requires CreateBatch(w.tables, script.batchId, NewBatch(settings, c)).Some? && Vanishes(settings, w.tables, c, script')
    ensures var first := ExecuteNew(settings, w, c, script);
            var second := ExecuteNew(settings, w, c, script');
            first.reply.Success? && first.reply.value.files == {} ==>
              && second.world == w
              && (second.reply.Success? <==> !script'.createFault && script'.batchId !in w.tables.batches)
              && (second.reply.Success? ==>
                    second.reply.value.files == {} && second.reply.value.duplicates == first.reply.value.duplicates)
  {
    hide WorldOk, TablesOk, ProcessFiles, FindBatch, Quiet;
    var first := ExecuteNew(settings, w, c, script);
    if first.reply.Success? && first.reply.value.files == {} && !script'.createFault && script'.batchId !in w.tables.batches {
      DeletedBatchLeavesNothing(settings, w, c, script);
      var start, start' := Started(settings, w, c, script.batchId), Started(settings, w, c, script'.batchId);
      StartedOk(settings, w, c, script.batchId);
      StartedOk(settings, w, c, script'.batchId);
      AllDuplicatesAgain(settings, start, script.batchId, start', script'.batchId, settings.strip(c.projectId), c.files,
                         script.files, script'.files, |c.files|);
      FinishDeletes(start', script'.batchId, |c.files|, RunFiles(settings, w, c, script).tally.value, script');
      assert start'.tables.batches - {script'.batchId} == w.tables.batches;
    }
  }

  /** A fault that strikes leaves a batch behind. */
  lemma FaultLeavesABatch(settings: Settings, w: World, c: Command, script: Script)
    requires WorldOk(settings.digest, w) && |script.files| == |c.files|
    requires FindBatch(w.tables, c.idempotencyKey).None? && !Vanishes(settings, w.tables, c, script)
    ensures script.batchId in ExecuteNew(settings, w, c, script).world.tables.batches
  {
    hide WorldOk, TablesOk, ProcessFiles, Quiet, FindBatch, Accounted;
    RunFilesAccounted(settings, w, c, script);
    var run := RunFiles(settings, w, c, script);
    if run.tally.Some? {
      var tally := run.tally.value;
      StartedOk(settings, w, c, script.batchId);
      AllDuplicatesAreQuiet(settings, Started(settings, w, c, script.batchId), script.batchId, settings.strip(c.projectId),
                            c.files, script.files, |c.files|);
      DeletedOnlyIfEmpty(settings, run.world, script.batchId, |c.files|, tally, script);
    }
  }

  lemma DeletedOnlyIfEmpty(settings: Settings, w: World, batchId: nat, total: nat, tally: Tally, script: Script)
    requires batchId in w.tables.batches && Accounted(settings, w.tables, batchId, tally, total)
    ensures batchId !in Finish(w, batchId, total, tally, script).world.tables.batches ==>
              |tally.duplicates| == total && !script.completeFault && !script.deleteFault
  {
    var completed := CompleteBatch(w.tables, batchId, StatusOf(tally.registered, total), tally.registered, tally.failed);
    assert FilesOf(completed.value, batchId) == FilesOf(w.tables, batchId);
  }

  /** A batch that stays is found by its key. */
  lemma KeptBatchIsFound(settings: Settings, w: World, c: Command, script: Script)
    requires WorldOk(settings.digest, w) && |script.files| == |c.files|
    requires CreateBatch(w.tables, script.batchId, NewBatch(settings, c)).Some?
    ensures var first := ExecuteNew(settings, w, c, script);
            first.reply.Success? && first.reply.value.files != {} ==>
              FindBatch(first.world.tables, c.idempotencyKey) == Some(script.batchId) &&
              first.world.tables.batches[script.batchId].fingerprint == settings.fingerprint(HeaderOf(c))
  {
    hide TablesOk, RunFiles, CreateBatch;
    var first := ExecuteNew(settings, w, c, script);
    if first.reply.Success? && first.reply.value.files != {} {
      RunFilesAccounted(settings, w, c, script);
      var run := RunFiles(settings, w, c, script);
      FinishKeeps(settings, run.world, script.batchId, |c.files|, run.tally.value, script);
      OneBatchPerKey(first.world.tables, script.batchId, c.idempotencyKey);
    }
  }

  lemma OneBatchPerKey(t: Tables, id: nat, key: string)
    requires TablesOk(t) && HasKey(t, id, key)
    ensures FindBatch(t, key) == Some(id)
  {
  }

  /** A new request that fails once its batch has been created leaves the batch. */
  lemma FailedBatchIsFound(settings: Settings, w: World, c: Command, script: Script)
    requires WorldOk(settings.digest, w) && |script.files| == |c.files| && !script.createFault
    requires CreateBatch(w.tables, script.batchId, NewBatch(settings, c)).Some?
    ensures var first := ExecuteNew(settings, w, c, script);
            first.reply.Failure? ==> FindBatch(first.world.tables, c.idempotencyKey) == Some(script.batchId)
  {
    hide TablesOk, RunFiles, CreateBatch;
    var first := ExecuteNew(settings, w, c, script);
    if first.reply.Failure? {
      RunFilesAccounted(settings, w, c, script);
      var run := RunFiles(settings, w, c, script);
      if run.tally.Some? {
        FinishKeeps(settings, run.world, script.batchId, |c.files|, run.tally.value, script);
      }
      OneBatchPerKey(first.world.tables, script.batchId, c.idempotencyKey);
    }
  }

  /** After any execution either the key is found, or the world is as it was. */
  lemma KeyIsFoundOrNothingChanged(settings: Settings, w: World, c: Command, script: Script)
    requires WorldOk(settings.digest, w) && |script.files| == |c.files|
    ensures var first := Execute(settings, w, c, script);
            FindBatch(first.world.tables, c.idempotencyKey).None? ==> first.world == w
  {
    hide WorldOk, TablesOk, RunFiles, Finish, FindBatch;
    if FindBatch(w.tables, c.idempotencyKey).None? && Validate(settings, c).None? &&
       CreateBatch(w.tables, script.batchId, NewBatch(settings, c)).Some? && !script.createFault {
      FailedBatchIsFound(settings, w, c, script);
      KeptBatchIsFound(settings, w, c, script);
      DeletedBatchLeavesNothing(settings, w, c, script);
    }
  }

  /** Executing a request a second time, whatever became of the first: when its batch is found by its key,
      nothing changes, whatever the environment does; otherwise the first left the world as it was.  A
      deleted batch is built again, and it vanishes again exactly when it is refused or no fault strikes. */
  lemma ExecuteTwice(settings: Settings, w: World, c: Command, script: Script, script': Script)
    requires WorldOk(settings.digest, w) && |script.files| == |script'.files| == |c.files|
    ensures var first := Execute(settings, w, c, script);
            var second := Execute(settings, first.world, c, script');
            var kept := FindBatch(first.world.tables, c.idempotencyKey).Some?;
            && (kept ==> second.world == first.world) && (!kept ==> first.world == w)
            && (first.reply.Success? ==>
                  && (second.world == first.world <==> kept || Vanishes(settings, first.world.tables, c, script'))
                  && (second.world.tables == first.world.tables <==> second.world == first.world)
                  && (kept ==> second.reply.Success? && second.reply.value.files == first.reply.value.files)
                  && (!kept && second.world == first.world && second.reply.Success? ==>
                        second.reply.value.files == first.reply.value.files == {} &&
                        second.reply.value.duplicates == first.reply.value.duplicates))
  {
    KeyIsFoundOrNothingChanged(settings, w, c, script);
    hide WorldOk, TablesOk, RunFiles, CreateBatch, Finish, FindBatch, Vanishes;
    if Execute(settings, w, c, script).reply.Success? {
      SuccessTwice(settings, w, c, script, script');
    }
  }

  lemma SuccessTwice(settings: Settings, w: World, c: Command, script: Script, script': Script)
    requires WorldOk(settings.digest, w) && |script.files| == |script'.files| == |c.files|
    requires Execute(settings, w, c, script).reply.Success?
    ensures var first := Execute(settings, w, c, script);
            var second := Execute(settings, first.world, c, script');
            var kept := FindBatch(first.world.tables, c.idempotencyKey).Some?;
            && (second.world == first.world <==> kept || Vanishes(settings, first.world.tables, c, script'))
            && (second.world.tables == first.world.tables <==> second.world == first.world)
            && (kept ==> second.reply.Success? && second.reply.value.files == first.reply.value.files)
            && (!kept && second.world == first.world && second.reply.Success? ==>
                  second.reply.value.files == first.reply.value.files == {} &&
                  second.reply.value.duplicates == first.reply.value.duplicates)
  {
    hide WorldOk, TablesOk, RunFiles, CreateBatch, Finish, FindBatch, Vanishes;
    if FindBatch(w.tables, c.idempotencyKey).None? {
      CreatedOnSuccess(settings, w, c, script);
      var first := ExecuteNew(settings, w, c, script);
      if first.reply.value.files == {} {
        DeletedBatchLeavesNothing(settings, w, c, script);
        if Vanishes(settings, w.tables, c, script') {
          DeletedBatchAgain(settings, w, c, script, script');
        } else {
          FaultLeavesABatch(settings, w, c, script');
          NewBatchIsNew(settings, w, c, script');
        }
      } else {
        KeptBatchIsFound(settings, w, c, script);
        EveryFileIsAccountedFor(settings, w, c, script);
      }
    }
  }

  lemma NewBatchIsNew(settings: Settings, w: World, c: Command, script: Script)
    requires |script.files| == |c.files| && !Vanishes(settings, w.tables, c, script)
    ensures script.batchId !in w.tables.batches
  {
  }

  lemma CreatedOnSuccess(settings: Settings, w: World, c: Command, script: Script)
    requires |script.files| == |c.files| && ExecuteNew(settings, w, c, script).reply.Success?
    ensures CreateBatch(w.tables, script.batchId, NewBatch(settings, c)).Some?
  {
  }

  /** What becomes of a file that no fault strikes, told from the file, the limits and the rows alone:
      a file too large for the rest of the batch, but not for a file, is blamed on the batch. */
  lemma QuietOutcome(settings: Settings, w: World, batchId: nat, projectId: string, file: IntakeFile, remaining: nat,
                     script: FileScript)
    requires WorldOk(settings.digest, w) && Quiet(settings, file, script) && !script.recordFault
    requires batchId in w.tables.batches && script.fileId !in w.tables.files
    ensures var o := ProcessFile(settings, w, batchId, projectId, file, remaining, script).outcome;
            var bytes := Received(settings, file);
            var size, sha := |bytes|, settings.digest(bytes);
            var fits := Extended(settings, file) && 0 < size <= settings.maxFileBytes && size <= remaining;
            var conflicts := sha in w.originals && |w.originals[sha]| != size;
            && o.Some?
            && (o.value == Accepted(size) <==> fits && !conflicts && FindRegistered(w.tables, sha).None?)
            && (o.value.Duplicate? <==> fits && !conflicts && FindRegistered(w.tables, sha).Some?)
            && (o.value == Rejected(UnsupportedExtension) <==> !Extended(settings, file))
            && (o.value == Rejected(FileTooLarge) <==>
                  Extended(settings, file) && 0 < remaining && 0 < size && settings.maxFileBytes < size &&
                  settings.maxFileBytes <= remaining)
            && (o.value == Rejected(BatchTooLarge) <==>
                  Extended(settings, file) &&
                  (remaining == 0 || (0 < size && Min(settings.maxFileBytes, remaining) < size && remaining < settings.maxFileBytes)))
            && (o.value == Rejected(EmptyFile) <==> Extended(settings, file) && 0 < remaining && size == 0)
            && (o.value == Rejected(IntegrityConflict) <==> fits && conflicts)
  {
    var bytes := Received(settings, file);
    var sha := settings.digest(bytes);
    StoreOriginalKeeps(settings.digest, w.originals, bytes, Min(settings.maxFileBytes, remaining), script.fault);
    var stored := Receive(settings, w.originals, file, remaining, script.fault);
    if stored.result.Success? {
      SizesAgree(settings.digest, w, sha, |bytes|);
    }
  }

  /** A stored blob never conflicts with the row of its hash. */
  lemma SizesAgree(digest: Bytes -> Sha, w: World, sha: Sha, size: nat)
    requires WorldOk(digest, w) && (sha in w.originals ==> |w.originals[sha]| == size)
    ensures sha in w.tables.blobs ==> w.tables.blobs[sha] == size
  {
  }

  /** The orchestrator over its registry and its store. */
  class IntakeOrchestrator {
    const settings: Settings
    const registry: FileRegistry
    const store: LocalOriginalFileStore

    ghost function View(): World
      reads registry, store
    {
      World(registry.View(), store.originals)
    }

    ghost predicate Valid()
      reads registry, store
    {
      store.digest == settings.digest && WorldOk(settings.digest, View())
    }

    constructor (settings: Settings)
      ensures Valid() && fresh(registry) && fresh(store) && this.settings == settings && store.staging == map[]
    {
      this.settings := settings;
      registry := new FileRegistry();
      store := new LocalOriginalFileStore(settings.digest);
    }

    /** `execute`: a refusal is the exception that reaches the caller. */
    method ExecuteRequest(c: Command, script: Script) returns (reply: Result<Reply, Refusal>)
      requires Valid() && store.staging == map[] && |script.files| == |c.files|
      modifies registry, store
      ensures Executed(View(), reply) == Execute(settings, old(View()), c, script)
      ensures Valid() && store.staging == map[]
    {
      hide WorldOk, ExecuteNew, FindBatch;
      ExecuteKeeps(settings, View(), c, script);
      TablesOfWorld(settings.digest, View());
      var refusal := Validate(settings, c);
      if refusal.Some? {
        return Failure(refusal.value);
      }
      var existing := registry.GetBatchByIdempotencyKey(c.idempotencyKey);
      if existing.None? {
        reply := ExecuteNewRequest(c, script);
        return;
      }
      var detail := registry.GetBatchDetail(existing.value);
      FoundIsThere(registry.View(), c.idempotencyKey);
      if detail.value.0.fingerprint != settings.fingerprint(HeaderOf(c)) {
        return Failure(IdempotencyConflict);
      }
      return Success(Reply(detail.value.0, Elements(detail.value.1), []));
    }

    method ExecuteNewRequest(c: Command, script: Script) returns (reply: Result<Reply, Refusal>)
      requires Valid() && store.staging == map[] && |script.files| == |c.files|
      modifies registry, store
      ensures Executed(View(), reply) == ExecuteNew(settings, old(View()), c, script)
      ensures store.staging == map[]
    {
      hide WorldOk, CreateBatch, ProcessFiles, Finish;
      var ok, conflict := registry.Create(script.batchId, NewBatch(settings, c), script.createFault);
      if !ok {
        return Failure(if conflict then IdempotencyConflict else Broken);
      }
      CreatedIsStarted(settings, old(View()), c, script.batchId);
      StartedOk(settings, old(View()), c, script.batchId);
      var tally := ProcessUploads(script.batchId, settings.strip(c.projectId), c.files, script.files);
      if tally.None? {
        return Failure(Broken);
      }
      reply := FinishRequest(script.batchId, |c.files|, tally.value, script);
    }

    /** The loop over the files of a request. */
    method ProcessUploads(batchId: nat, projectId: string, files: seq<IntakeFile>, scripts: seq<FileScript>)
        returns (tally: Option<Tally>)
      requires Valid() && store.staging == map[] && |files| == |scripts|
      requires FilesOf(View().tables, batchId) == {}
      modifies registry, store
      ensures Progress(View(), tally) ==
              ProcessFiles(settings, old(View()), batchId, projectId, files, scripts, |files|)
      ensures store.staging == map[]
    {
      hide WorldOk, ProcessFile, Accounted;
      var counts := Tally(0, 0, 0, []);
      for k := 0 to |files|
        invariant store.staging == map[] && Valid()
        invariant Progress(View(), Some(counts)) ==
                  ProcessFiles(settings, old(View()), batchId, projectId, files, scripts, k)
      {
        label Before:
        ProcessFilesAccounted(settings, old(View()), batchId, projectId, files, scripts, k + 1);
        var outcome := ProcessUpload(batchId, projectId, files[k], Remaining(settings, counts.consumed), scripts[k]);
        if outcome.None? {
          StoppedEarly(settings, old(View()), batchId, projectId, files, scripts, k + 1, |files|);
          return None;
        }
        counts := counts.Add(outcome.value);
      }
      return Some(counts);
    }

    /** `_process_file`: `None` is an exception of recording the failure. */
    method ProcessUpload(batchId: nat, projectId: string, file: IntakeFile, remaining: nat, script: FileScript)
        returns (outcome: Option<Outcome>)
      requires Valid() && store.staging == map[]
      modifies registry, store
      ensures Processed(View(), outcome) ==
              ProcessFile(settings, old(View()), batchId, projectId, file, remaining, script)
      ensures store.staging == map[]
    {
      hide WorldOk, RegisterFile, StoreOriginal, RecordFailedFile;
      TablesOfWorld(settings.digest, View());
      var stored: Result<StoredBlob, FailureCode>;
      if !Extended(settings, file) {
        stored := Failure(UnsupportedExtension);
      } else if remaining == 0 {
        stored := Failure(BatchTooLarge);
      } else {
        var limit := Min(settings.maxFileBytes, remaining);
        stored := store.Store(Upload(batchId, script.fileId), file.bytes, limit, settings.chunkBytes, script.fault);
      }
      var code: FailureCode;
      if stored.Success? {
        var result := registry.Register(script.fileId, batchId, projectId, file.name, stored.value, script.now,
                                        script.registerFault);
        if result.Some? {
          var size := stored.value.size;
          return Some(if result.value.Some? then Duplicate(size, result.value.value) else Accepted(size));
        }
        code := StorageUnavailable;
      } else {
        code := Reported(settings, stored.error, remaining);
      }
      var ok := registry.RecordFailed(script.fileId, batchId, projectId, file.name, code, script.now, script.recordFault);
      return if ok then Some(Rejected(code)) else None;
    }

    /** The end of `execute`, once every file has been processed. */
    method FinishRequest(batchId: nat, total: nat, tally: Tally, script: Script) returns (reply: Result<Reply, Refusal>)
      modifies registry
      ensures Executed(View(), reply) == Finish(old(View()), batchId, total, tally, script)
    {
      var status := StatusOf(tally.registered, total);
      var ok := registry.Complete(batchId, status, tally.registered, tally.failed, script.completeFault);
      if !ok {
        return Failure(Broken);
      }
      var detail := registry.GetBatchDetail(batchId);
      var row, files := detail.value.0, Elements(detail.value.1);
      if tally.duplicates != [] && files == {} {
        var deleted := registry.DeleteEmpty(batchId, script.deleteFault);
        if !deleted {
          return Failure(Broken);
        }
      }
      return Success(Reply(row, files, tally.duplicates));
    }
  }

  lemma TablesOfWorld(digest: Bytes -> Sha, w: World)
    requires WorldOk(digest, w)
    ensures TablesOk(w.tables)
  {
  }

  lemma FoundIsThere(t: Tables, key: string)
    requires FindBatch(t, key).Some?
    ensures FindBatch(t, key).value in t.batches
  {
    assert HasKey(t, FindBatch(t, key).value, key);
  }

  lemma CreatedIsStarted(settings: Settings, w: World, c: Command, batchId: nat)
    requires CreateBatch(w.tables, batchId, NewBatch(settings, c)).Some?
    ensures w.(tables := CreateBatch(w.tables, batchId, NewBatch(settings, c)).value) == Started(settings, w, c, batchId)
  {
  }

  /** An exception ends the loop. */
  lemma {:induction false} StoppedEarly(settings: Settings, w: World, batchId: nat, projectId: string,
                                        files: seq<IntakeFile>, scripts: seq<FileScript>, k: nat, n: nat)
    requires k <= n <= |files| == |scripts|
    requires ProcessFiles(settings, w, batchId, projectId, files, scripts, k).tally.None?
    ensures ProcessFiles(settings, w, batchId, projectId, files, scripts, n) ==
            ProcessFiles(settings, w, batchId, projectId, files, scripts, k)
  {
    if k < n {
      StoppedEarly(settings, w, batchId, projectId, files, scripts, k, n - 1);
    }
  }

  // ---------- A second execution that a fault disturbs ----------

  const ONE_ROW: Tables := Tables(
    map[0 := BatchRow("p", "k0", "", Completed, 1, 1, 0)],
    map["h" := 1],
    map[0 := FileRow(0, "p", "f.txt", Some(IntakeRegistry.Content("h", 1)), None, 0)])

  const ONE_ORIGINAL: World := World(ONE_ROW, map["h" := [7]])

  const SAME_FILE: Command := Command("p", 0, None, None, "k1", [IntakeFile("f.txt", Some("txt"), [7])])

  function DemoSettings(): Settings {
    Settings((b: Bytes) => "h", (h: Header) => "", (s: string) => s, 10, 10, 10, 1, {"txt"})
  }

  function DemoScript(fault: Fault): Script {
    Script(1, false, [FileScript(1, 0, fault, false, false)], false, false)
  }

  lemma OneRowIsOk()
    ensures TablesOk(ONE_ROW)
  {
    assert HasContent(ONE_ROW, 0, "h");
  }

  lemma OneOriginalIsOk()
    ensures WorldOk(DemoSettings().digest, ONE_ORIGINAL)
    ensures FindRegistered(ONE_ROW, "h") == Some(0) && FindBatch(ONE_ROW, "k1").None?
  {
    OneRowIsOk();
    hide TablesOk;
    assert HasContent(ONE_ROW, 0, "h");
    assert forall id | HasContent(ONE_ROW, id, "h") :: id == 0;
  }

  lemma KnownFileIsADuplicate()
    ensures RunFiles(DemoSettings(), ONE_ORIGINAL, SAME_FILE, DemoScript(NoFault)) ==
            Progress(Started(DemoSettings(), ONE_ORIGINAL, SAME_FILE, 1), Some(Tally(0, 1, 1, [0])))
  {
    OneRowIsOk();
    OneOriginalIsOk();
    var settings, script := DemoSettings(), DemoScript(NoFault);
    var start := Started(settings, ONE_ORIGINAL, SAME_FILE, 1);
    SameRegistered(ONE_ROW, start.tables, "h");
    hide TablesOk, WorldOk, FindRegistered, FindBatch;
    var none := ProcessFiles(settings, start, 1, "p", SAME_FILE.files, script.files, 0);
    assert none == Progress(start, Some(Tally(0, 0, 0, [])));
    var step := ProcessFile(settings, start, 1, "p", SAME_FILE.files[0], Remaining(settings, 0), script.files[0]);
    assert step == Processed(start, Some(Duplicate(1, 0)));
    assert Tally(0, 0, 0, []).Add(Duplicate(1, 0)) == Tally(0, 1, 1, [0]);
    assert ProcessFiles(settings, start, 1, "p", SAME_FILE.files, script.files, 1) == Progress(start, Some(Tally(0, 1, 1, [0])));
  }

  /** A request whose only file is known leaves nothing the first time, and something the second time
      when linking fails then. */
  lemma DisturbedSecondExecution()
    ensures var first := Execute(DemoSettings(), ONE_ORIGINAL, SAME_FILE, DemoScript(NoFault));
            var second := Execute(DemoSettings(), first.world, SAME_FILE, DemoScript(LinkFault));
            first.reply.Success? && first.world == ONE_ORIGINAL && second.world != first.world
  {
    OneRowIsOk();
    OneOriginalIsOk();
    KnownFileIsADuplicate();
    hide TablesOk, WorldOk, FindRegistered, FindBatch, RunFiles;
    var settings, quiet, disturbed := DemoSettings(), DemoScript(NoFault), DemoScript(LinkFault);
    var start := Started(settings, ONE_ORIGINAL, SAME_FILE, 1);
    FindNothing();
    StartedOk(settings, ONE_ORIGINAL, SAME_FILE, 1);
    FinishDeletes(start, 1, 1, Tally(0, 1, 1, [0]), quiet);
    DeletedBatchLeavesNothing(settings, ONE_ORIGINAL, SAME_FILE, quiet);
    assert !Quiet(settings, SAME_FILE.files[0], disturbed.files[0]);
    ExecuteTwice(settings, ONE_ORIGINAL, SAME_FILE, quiet, disturbed);
  }

  lemma FindNothing()
    ensures CreateBatch(ONE_ROW, 1, NewBatch(DemoSettings(), SAME_FILE)).Some?
  {
    OneOriginalIsOk();
  }
}
