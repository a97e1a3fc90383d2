/** Any number of intake requests at once, each of which may stop for good between any two of its steps. */
module IntakeRuns {
  import opened Wrappers
  import opened IntakeRegistry
  import opened OriginalFiles
  import opened IntakeOrchestration

  /** `receipts` are the results of completed `store` calls, with which `register_file` may be called. */
  datatype State = State(world: World, staging: map<Upload, Bytes>, receipts: set<Content>)

  /** One atomic step of some request.  A crashed request is one that takes no further steps, so its
      staged files and its unfinished batch stay. */
  datatype Step =
    | Open(upload: Upload)
    | Write(upload: Upload, chunk: Bytes)
    | Link(upload: Upload)
    | Unlink(upload: Upload)
    | Create(batchId: nat, row: BatchRow)
    | Register(fileId: nat, batchId: nat, projectId: string, name: string, blob: StoredBlob, now: int)
    | Record(fileId: nat, batchId: nat, projectId: string, name: string, code: FailureCode, now: int)
    | Complete(batchId: nat, status: BatchStatus, registered: nat, failed: nat)
    | DeleteEmpty(batchId: nat)

  predicate Enabled(s: State, step: Step) {
    match step
    case Open(u) => u !in s.staging
    case Write(u, _) => u in s.staging
    case Link(u) => u in s.staging && s.staging[u] != []
    case Unlink(u) => u in s.staging
    case Register(_, _, _, _, blob, _) => Content(blob.sha256, blob.size) in s.receipts
    case _ => true
  }

  function WithTables(s: State, t: Option<Tables>): State {
    if t.None? then s else s.(world := s.world.(tables := t.value))
  }

  /** A transaction that raises is rolled back and leaves the tables alone. */
  ghost function Next(digest: Bytes -> Sha, s: State, step: Step): State
    requires Enabled(s, step)
  {
    match step
    case Open(u) => s.(staging := s.staging[u := []])
    case Write(u, chunk) => s.(staging := s.staging[u := s.staging[u] + chunk])
    case Link(u) =>
      var bytes := s.staging[u];
      var linked := Promote(digest, s.world.originals, bytes, NoFault);
      s.(world := s.world.(originals := linked.originals),
         receipts := if linked.result.Success? then s.receipts + {Content(digest(bytes), |bytes|)} else s.receipts)
    case Unlink(u) => s.(staging := s.staging - {u})
    case Create(id, row) => WithTables(s, CreateBatch(s.world.tables, id, row))
    case Register(id, batchId, projectId, name, blob, now) =>
      var after := RegisterFile(s.world.tables, id, batchId, projectId, name, blob, now);
      WithTables(s, if after.Some? then Some(after.value.tables) else None)
    case Record(id, batchId, projectId, name, code, now) =>
      WithTables(s, RecordFailedFile(s.world.tables, id, batchId, projectId, name, code, now))
    case Complete(id, status, registered, failed) =>
      WithTables(s, CompleteBatch(s.world.tables, id, status, registered, failed))
    case DeleteEmpty(id) => WithTables(s, DeleteEmptyBatch(s.world.tables, id))
  }

  const INITIAL: State := State(World(Tables(map[], map[], map[]), map[]), map[], {})

  ghost predicate StepAt(digest: Bytes -> Sha, states: seq<State>, i: nat)
    requires i + 1 < |states|
  {
    exists step :: Enabled(states[i], step) && states[i + 1] == Next(digest, states[i], step)
  }

  ghost predicate Execution(digest: Bytes -> Sha, states: seq<State>) {
    && |states| > 0 && states[0] == INITIAL
    && forall i: nat {:trigger StepAt(digest, states, i)} | i + 1 < |states| :: StepAt(digest, states, i)
  }

  ghost predicate Inv(digest: Bytes -> Sha, s: State) {
    && WorldOk(digest, s.world)
    && (forall r | r in s.receipts :: r.sha256 in s.world.originals && |s.world.originals[r.sha256]| == r.size)
  }

  /** What no step undoes: originals, and the rows of files. */
  ghost predicate Grows(a: State, b: State) {
    && OriginalsGrow(a.world, b.world)
    && (forall id | id in a.world.tables.files ::
          id in b.world.tables.files && b.world.tables.files[id] == a.world.tables.files[id])
    && (forall sha | sha in a.world.tables.blobs ::
          sha in b.world.tables.blobs && b.world.tables.blobs[sha] == a.world.tables.blobs[sha])
  }

  lemma NextKeepsInv(digest: Bytes -> Sha, s: State, step: Step)
    requires Inv(digest, s) && Enabled(s, step)
    ensures Inv(digest, Next(digest, s, step)) && Grows(s, Next(digest, s, step))
  {
    hide TablesOk;
    var t := s.world.tables;
    match step {
      case Create(id, row) => CreateBatchKeeps(t, id, row);
      case Register(id, batchId, projectId, name, blob, now) =>
        RegisterFileKeeps(t, id, batchId, projectId, name, blob, now);
      case Record(id, batchId, projectId, name, code, now) =>
        RecordFailedFileKeeps(t, id, batchId, projectId, name, code, now);
      case Complete(id, status, registered, failed) => CompleteBatchKeeps(t, id, status, registered, failed);
      case DeleteEmpty(id) => DeleteEmptyBatchKeeps(t, id);
      case Link(u) => StoreOriginalKeeps(digest, s.world.originals, s.staging[u], |s.staging[u]|, NoFault);
      case _ =>
    }
  }

  lemma {:induction false} ExecutionKeepsInv(digest: Bytes -> Sha, states: seq<State>, i: nat)
    requires Execution(digest, states) && i < |states|
    ensures Inv(digest, states[i])
  {
    hide Inv;
    if i == 0 {
      InitialIsOk(digest);
    } else {
      ExecutionKeepsInv(digest, states, i - 1);
      assert StepAt(digest, states, i - 1);
      var step :| Enabled(states[i - 1], step) && states[i] == Next(digest, states[i - 1], step);
      NextKeepsInv(digest, states[i - 1], step);
    }
  }

  lemma InitialIsOk(digest: Bytes -> Sha)
    ensures Inv(digest, INITIAL)
  {
  }

  /** Wherever the requests stop: blob rows and registered rows are in bijection by hash with equal
      sizes, every registered row's original is on disk under the hash of its content, and every row's
      batch exists. */
  lemma ConsistentAtEveryStep(digest: Bytes -> Sha, states: seq<State>, i: nat)
    requires Execution(digest, states) && i < |states|
    ensures var w := states[i].world;
            && |RegisteredRows(w.tables)| == |w.tables.blobs|
            && (forall sha :: sha in w.tables.blobs <==> FindRegistered(w.tables, sha).Some?)
            && (forall a, b, sha | HasContent(w.tables, a, sha) && HasContent(w.tables, b, sha) :: a == b)
            && (forall id | id in w.tables.files :: w.tables.files[id].batchId in w.tables.batches)
            && forall id | id in w.tables.files && w.tables.files[id].Registered() ::
                 var content := w.tables.files[id].content;
                 && content.Some? && content.value.sha256 in w.originals && content.value.sha256 in w.tables.blobs
                 && digest(w.originals[content.value.sha256]) == content.value.sha256
                 && |w.originals[content.value.sha256]| == content.value.size == w.tables.blobs[content.value.sha256]
  {
    ExecutionKeepsInv(digest, states, i);
    var w := states[i].world;
    BlobsAreRegisteredRows(w.tables);
    forall id | id in w.tables.files && w.tables.files[id].Registered()
      ensures HasContent(w.tables, id, w.tables.files[id].content.value.sha256)
    {
    }
  }

  /** Originals and rows, once there, are there unchanged ever after. */
  lemma {:induction false} NothingIsUndone(digest: Bytes -> Sha, states: seq<State>, i: nat, j: nat)
    requires Execution(digest, states) && i <= j < |states|
    ensures Grows(states[i], states[j])
  {
    if i < j {
      NothingIsUndone(digest, states, i, j - 1);
      ExecutionKeepsInv(digest, states, j - 1);
      assert StepAt(digest, states, j - 1);
      var step :| Enabled(states[j - 1], step) && states[j] == Next(digest, states[j - 1], step);
      NextKeepsInv(digest, states[j - 1], step);
      GrowsTransitively(states[i], states[j - 1], states[j]);
    }
  }

  lemma GrowsTransitively(a: State, b: State, c: State)
    requires Grows(a, b) && Grows(b, c)
    ensures Grows(a, c)
  {
  }

  // ---------- The orchestrator takes these steps ----------

  ghost predicate Path(digest: Bytes -> Sha, states: seq<State>) {
    |states| > 0 &&
    forall i: nat {:trigger StepAt(digest, states, i)} | i + 1 < |states| :: StepAt(digest, states, i)
  }

  ghost predicate Reaches(digest: Bytes -> Sha, a: State, b: State) {
    exists states :: Path(digest, states) && states[0] == a && states[|states| - 1] == b
  }

  lemma StaysReached(digest: Bytes -> Sha, s: State)
    ensures Reaches(digest, s, s)
  {
    assert Path(digest, [s]);
  }

  lemma StepReaches(digest: Bytes -> Sha, a: State, s: State, step: Step)
    requires Reaches(digest, a, s) && Enabled(s, step)
    ensures Reaches(digest, a, Next(digest, s, step))
  {
    var states :| Path(digest, states) && states[0] == a && states[|states| - 1] == s;
    var longer := states + [Next(digest, s, step)];
    forall i: nat | i + 1 < |longer| ensures StepAt(digest, longer, i) {
      if i + 1 < |states| {
        assert StepAt(digest, states, i);
        assert longer[i] == states[i] && longer[i + 1] == states[i + 1];
      } else {
        assert longer[i] == s && longer[i + 1] == Next(digest, s, step);
      }
    }
    assert Path(digest, longer);
  }

  /** An execution goes on: what a reachable state reaches is reachable. */
  lemma {:induction false} ReachesExecutes(digest: Bytes -> Sha, states: seq<State>, t: State)
    requires Execution(digest, states) && Reaches(digest, states[|states| - 1], t)
    ensures exists longer :: Execution(digest, longer) && states <= longer && longer[|longer| - 1] == t
  {
    var rest :| Path(digest, rest) && rest[0] == states[|states| - 1] && rest[|rest| - 1] == t;
    var longer := states + rest[1..];
    forall i: nat | i + 1 < |longer| ensures StepAt(digest, longer, i) {
      if i + 1 < |states| {
        assert StepAt(digest, states, i);
        assert longer[i] == states[i] && longer[i + 1] == states[i + 1];
      } else {
        var k := i + 1 - |states|;
        assert StepAt(digest, rest, k);
        assert longer[i] == rest[k] && longer[i + 1] == rest[k + 1];
      }
    }
    assert Execution(digest, longer);
  }

  /** `b` is reached with this world, and with everything that `s` has staged and stored. */
  ghost predicate Follows(digest: Bytes -> Sha, a: State, s: State, world: World, b: State) {
    Reaches(digest, a, b) && b.world == world && b.staging == s.staging && s.receipts <= b.receipts
  }

  lemma StoreReaches(digest: Bytes -> Sha, a: State, s: State, u: Upload, bytes: Bytes, limit: int, fault: Fault) returns (t: State)
    requires Reaches(digest, a, s) && u !in s.staging
    ensures var stored := StoreOriginal(digest, s.world.originals, bytes, limit, fault);
            && Follows(digest, a, s, s.world.(originals := stored.originals), t)
            && (stored.result.Success? ==> Content(stored.result.value.sha256, stored.result.value.size) in t.receipts)
  {
    hide Reaches;
    StepReaches(digest, a, s, Open(u));
    t := Next(digest, s, Open(u));
    StepReaches(digest, a, t, Write(u, bytes));
    t := Next(digest, t, Write(u, bytes));
    assert t.staging[u] == bytes;
    var stored := StoreOriginal(digest, s.world.originals, bytes, limit, fault);
    if !FailsReading(bytes, limit, fault) && 0 < |bytes| <= limit && !fault.LinkFault? {
      StepReaches(digest, a, t, Link(u));
      t := Next(digest, t, Link(u));
    }
    StepReaches(digest, a, t, Unlink(u));
    t := Next(digest, t, Unlink(u));
    assert t.staging == s.staging;
  }

  /** A file is processed in these steps. */
  lemma ProcessFileReaches(settings: Settings, a: State, s: State, batchId: nat, projectId: string, file: IntakeFile,
                           remaining: nat, script: FileScript) returns (t: State)
    requires Reaches(settings.digest, a, s) && Upload(batchId, script.fileId) !in s.staging
    ensures Follows(settings.digest, a, s, ProcessFile(settings, s.world, batchId, projectId, file, remaining, script).world, t)
  {
    hide Reaches, RegisterFile, RecordFailedFile, StoreOriginal;
    var digest := settings.digest;
    var stored := Receive(settings, s.world.originals, file, remaining, script.fault);
    t := s;
    if Extended(settings, file) && remaining != 0 {
      t := StoreReaches(digest, a, s, Upload(batchId, script.fileId), Received(settings, file),
                        Min(settings.maxFileBytes, remaining), script.fault);
    }
    var registered := false;
    if stored.result.Success? && !script.registerFault {
      var step := Register(script.fileId, batchId, projectId, file.name, stored.result.value, script.now);
      registered := RegisterFile(t.world.tables, script.fileId, batchId, projectId, file.name, stored.result.value,
                                 script.now).Some?;
      StepReaches(digest, a, t, step);
      t := Next(digest, t, step);
    }
    if !registered && !script.recordFault {
      var code := if stored.result.Success? then StorageUnavailable else Reported(settings, stored.result.error, remaining);
      var step := Record(script.fileId, batchId, projectId, file.name, code, script.now);
      StepReaches(digest, a, t, step);
      t := Next(digest, t, step);
    }
  }

  lemma {:induction false} ProcessFilesReaches(settings: Settings, a: State, s: State, batchId: nat, projectId: string,
                                               files: seq<IntakeFile>, scripts: seq<FileScript>, k: nat) returns (t: State)
    requires Reaches(settings.digest, a, s) && s.staging == map[] && k <= |files| == |scripts|
    ensures Follows(settings.digest, a, s, ProcessFiles(settings, s.world, batchId, projectId, files, scripts, k).world, t)
  {
    hide Reaches, ProcessFile;
    t := s;
    if k > 0 {
      t := ProcessFilesReaches(settings, a, s, batchId, projectId, files, scripts, k - 1);
      var before := ProcessFiles(settings, s.world, batchId, projectId, files, scripts, k - 1);
      if before.tally.Some? {
        t := ProcessFileReaches(settings, a, t, batchId, projectId, files[k - 1],
                                Remaining(settings, before.tally.value.consumed), scripts[k - 1]);
      }
    }
  }

  lemma FinishReaches(digest: Bytes -> Sha, a: State, s: State, batchId: nat, total: nat, tally: Tally, script: Script)
      returns (t: State)
    requires Reaches(digest, a, s)
    ensures Follows(digest, a, s, Finish(s.world, batchId, total, tally, script).world, t)
  {
    hide Reaches;
    t := s;
    var status := StatusOf(tally.registered, total);
    var completed := CompleteBatch(s.world.tables, batchId, status, tally.registered, tally.failed);
    if completed.Some? && !script.completeFault {
      StepReaches(digest, a, t, Complete(batchId, status, tally.registered, tally.failed));
      t := Next(digest, t, Complete(batchId, status, tally.registered, tally.failed));
      if tally.duplicates != [] && FilesOf(completed.value, batchId) == {} && !script.deleteFault {
        StepReaches(digest, a, t, DeleteEmpty(batchId));
        t := Next(digest, t, DeleteEmpty(batchId));
      }
    }
  }

  /** Executing a request, whatever becomes of it, is a run of steps, so what holds at every step holds
      wherever a request is cut short. */
  lemma ExecuteReaches(settings: Settings, s: State, c: Command, script: Script) returns (t: State)
    requires s.staging == map[] && |script.files| == |c.files|
    ensures Reaches(settings.digest, s, t) && t.world == Execute(settings, s.world, c, script).world && t.staging == map[]
  {
    hide Reaches, ProcessFiles, Finish, CreateBatch;
    StaysReached(settings.digest, s);
    t := s;
    var row := NewBatch(settings, c);
    if Validate(settings, c).None? && FindBatch(s.world.tables, c.idempotencyKey).None? &&
       CreateBatch(s.world.tables, script.batchId, row).Some? && !script.createFault {
      StepReaches(settings.digest, s, t, Create(script.batchId, row));
      t := Next(settings.digest, t, Create(script.batchId, row));
      CreatedIsStarted(settings, s.world, c, script.batchId);
      var run := RunFiles(settings, s.world, c, script);
      t := ProcessFilesReaches(settings, s, t, script.batchId, settings.strip(c.projectId), c.files, script.files, |c.files|);
      if run.tally.Some? {
        t := FinishReaches(settings.digest, s, t, script.batchId, |c.files|, run.tally.value, script);
      }
    }
  }
}
