/** What a caller of the intake gets to see: when a request is refused, what a known key answers with, what
    becomes of each file, and how the counters of a reply arise. */
module IntakeReplies {
  import opened Wrappers
  import opened IntakeRegistry
  import opened OriginalFiles
  import opened IntakeOrchestration

  // ---------- Refusals and replays ----------

  /** An invalid request is refused, with the first of these reasons that applies, and changes nothing. */
  lemma InvalidRequests(settings: Settings, w: World, c: Command, script: Script)
    requires |script.files| == |c.files|
    ensures var done := Execute(settings, w, c, script);
            var noKey, noProject := settings.strip(c.idempotencyKey) == "", settings.strip(c.projectId) == "";
            var none, many := |c.files| == 0, |c.files| > settings.maxFilesPerBatch;
            && (noKey ==> done == Executed(w, Failure(MissingIdempotencyKey)))
            && (!noKey && (noProject || none) ==> done == Executed(w, Failure(InvalidRequest)))
            && (!noKey && !noProject && !none && many ==> done == Executed(w, Failure(TooManyFiles)))
            && (done.reply == Failure(MissingIdempotencyKey) ==> noKey)
            && (done.reply == Failure(InvalidRequest) ==> noProject || none)
            && (done.reply == Failure(TooManyFiles) ==> many)
  {
    hide ExecuteNew;
    NewRequestsAreValid(settings, w, c, script);
  }

  lemma NewRequestsAreValid(settings: Settings, w: World, c: Command, script: Script)
    requires |script.files| == |c.files|
    ensures var reply := ExecuteNew(settings, w, c, script).reply;
            reply.Failure? ==> reply.error == IdempotencyConflict || reply.error == Broken
  {
  }

  /** A valid request with a known key changes nothing.  It is answered with the batch of that key and its rows
      if it is the same request, as far as the fingerprint tells, and refused otherwise. */
  lemma KnownKey(settings: Settings, w: World, c: Command, script: Script, id: nat)
    requires WorldOk(settings.digest, w) && |script.files| == |c.files|
    requires settings.strip(c.idempotencyKey) != "" && settings.strip(c.projectId) != ""
    requires 0 < |c.files| <= settings.maxFilesPerBatch
    requires id in w.tables.batches && w.tables.batches[id].idempotencyKey == c.idempotencyKey
    ensures var names := seq(|c.files|, i requires 0 <= i < |c.files| => c.files[i].name);
            var header := Header(c.projectId, c.sourceKind, c.description, c.submittedBy, names);
            var rows := set f | f in w.tables.files && w.tables.files[f].batchId == id;
            Execute(settings, w, c, script) ==
            Executed(w, if w.tables.batches[id].fingerprint == settings.fingerprint(header)
                        then Success(Reply(w.tables.batches[id], rows, [])) else Failure(IdempotencyConflict))
  {
    assert HasKey(w.tables, id, c.idempotencyKey);
    TablesOfWorld(settings.digest, w);
    OneBatchPerKey(w.tables, id, c.idempotencyKey);
    hide FindBatch, ExecuteNew, WorldOk;
    assert HeaderOf(c) == Header(c.projectId, c.sourceKind, c.description, c.submittedBy,
                                 seq(|c.files|, i requires 0 <= i < |c.files| => c.files[i].name));
  }

  // ---------- One file ----------

  /** What one file leaves: an accepted one a row with its hash and size, and a blob row; a duplicate nothing,
      and it names a row with the same content; a rejected one a row with its code and without content. */
  lemma FileLeaves(settings: Settings, w: World, batchId: nat, projectId: string, file: IntakeFile,
                   remaining: nat, script: FileScript)
    requires WorldOk(settings.digest, w)
    ensures var p := ProcessFile(settings, w, batchId, projectId, file, remaining, script);
            var bytes := Received(settings, file);
            var sha := settings.digest(bytes);
            && (p.outcome.None? ==> p.world.tables == w.tables)
            && (p.outcome.Some? ==>
                  match p.outcome.value
                  case Accepted(size) =>
                    && size == |bytes|
                    && p.world.tables == Tables(
                         w.tables.batches, w.tables.blobs[sha := size],
                         w.tables.files[script.fileId :=
                           FileRow(batchId, projectId, file.name, Some(IntakeRegistry.Content(sha, size)), None, script.now)])
                  case Duplicate(size, of) =>
                    size == |bytes| && p.world.tables == w.tables && HasContent(w.tables, of, sha)
                  case Rejected(code) =>
                    p.world.tables == w.tables.(files := w.tables.files[script.fileId :=
                      FileRow(batchId, projectId, file.name, None, Some(code), script.now)]))
  {
    TablesOfWorld(settings.digest, w);
    var bytes := Received(settings, file);
    var stored := Receive(settings, w.originals, file, remaining, script.fault);
    Stores(settings, w.originals, file, remaining, script.fault);
    hide Receive, WorldOk;
    match stored.result {
      case Failure(_) =>
      case Success(blob) =>
        Registers(w.tables, script.fileId, batchId, projectId, file.name, blob, script.now);
    }
  }

  lemma Stores(settings: Settings, originals: map<Sha, Bytes>, file: IntakeFile, remaining: nat, fault: Fault)
    ensures var stored := Receive(settings, originals, file, remaining, fault);
            var bytes := Received(settings, file);
            stored.result.Success? ==>
              stored.result.value.sha256 == settings.digest(bytes) && stored.result.value.size == |bytes|
  {
  }

  lemma Registers(t: Tables, id: nat, batchId: nat, projectId: string, name: string, blob: StoredBlob, now: int)
    requires TablesOk(t)
    ensures var after := RegisterFile(t, id, batchId, projectId, name, blob, now);
            after.Some? ==>
              match after.value.duplicate
              case Some(of) => after.value.tables == t && HasContent(t, of, blob.sha256)
              case None =>
                after.value.tables == Tables(
                  t.batches, t.blobs[blob.sha256 := blob.size],
                  t.files[id := FileRow(batchId, projectId, name, Some(IntakeRegistry.Content(blob.sha256, blob.size)), None, now)])
  {
    var after := RegisterFile(t, id, batchId, projectId, name, blob, now);
    if after.Some? && after.value.duplicate.Some? {
      assert HasContent(t, after.value.duplicate.value, blob.sha256);
      assert blob.sha256 in t.blobs;
    }
  }

  /** A file whose extension is missing or not allowed is refused for that, whatever else is wrong with it, and
      no other file is; nothing of it is stored. */
  lemma OnlyAllowedExtensions(settings: Settings, w: World, batchId: nat, projectId: string, file: IntakeFile,
                              remaining: nat, script: FileScript)
    ensures var p := ProcessFile(settings, w, batchId, projectId, file, remaining, script);
            p.outcome.Some? ==>
              (p.outcome.value == Rejected(UnsupportedExtension) <==>
                 file.extension == None || file.extension.value !in settings.allowedExtensions)
              && (p.outcome.value == Rejected(UnsupportedExtension) ==> p.world.originals == w.originals)
  {
  }

  /** A file that an input or output error strikes is a storage failure, unless its size refused it before. */
  lemma StruckFile(settings: Settings, w: World, batchId: nat, projectId: string, file: IntakeFile, remaining: nat,
                   script: FileScript)
    requires Extended(settings, file) && remaining > 0
    requires batchId in w.tables.batches && script.fileId !in w.tables.files && !script.recordFault
    requires var size, limit := |Received(settings, file)|, Min(settings.maxFileBytes, remaining);
             || (script.fault.ReadFault? && script.fault.at <= size && (script.fault.at == 0 || script.fault.at <= limit))
             || (script.fault.LinkFault? && 0 < size <= limit)
             || (&& script.fault.UnlinkFault? && 0 < size <= limit
                 && var sha := settings.digest(Received(settings, file));
                    (sha in w.originals ==> |w.originals[sha]| == size))
    ensures ProcessFile(settings, w, batchId, projectId, file, remaining, script).outcome == Some(Rejected(StorageUnavailable))
  {
  }

  /** So is a stored one that the registry fails to register. */
  lemma UnregisteredFile(settings: Settings, w: World, batchId: nat, projectId: string, file: IntakeFile, remaining: nat,
                         script: FileScript)
    requires Receive(settings, w.originals, file, remaining, script.fault).result.Success? && script.registerFault
    requires batchId in w.tables.batches && script.fileId !in w.tables.files && !script.recordFault
    ensures ProcessFile(settings, w, batchId, projectId, file, remaining, script).outcome == Some(Rejected(StorageUnavailable))
  {
    hide Receive;
  }

  // ---------- The counters ----------

  /** What became of the first `k` files, one after the other. */
  ghost function OutcomesOf(settings: Settings, w: World, batchId: nat, projectId: string, files: seq<IntakeFile>,
                            scripts: seq<FileScript>, k: nat): seq<Outcome>
    requires k <= |files| == |scripts|
  {
    if k == 0 || ProcessFiles(settings, w, batchId, projectId, files, scripts, k).tally.None? then []
    else
      var before := ProcessFiles(settings, w, batchId, projectId, files, scripts, k - 1);
      OutcomesOf(settings, w, batchId, projectId, files, scripts, k - 1)
      + [ProcessFile(settings, before.world, batchId, projectId, files[k - 1],
                     Remaining(settings, before.tally.value.consumed), scripts[k - 1]).outcome.value]
  }

  function Count(outcomes: seq<Outcome>): nat {
    |set i | 0 <= i < |outcomes| && outcomes[i].Accepted?|
  }

  /** The bytes of files whose content was stored; duplicates use up the limit of the batch too. */
  function Sum(outcomes: seq<Outcome>): nat {
    if outcomes == [] then 0
    else
      var last := outcomes[|outcomes| - 1];
      Sum(outcomes[..|outcomes| - 1]) + if last.Rejected? then 0 else last.size
  }

  /** The rows that the duplicates among the files are duplicates of, in order. */
  function Originals(outcomes: seq<Outcome>): seq<nat> {
    if outcomes == [] then []
    else
      var last := outcomes[|outcomes| - 1];
      Originals(outcomes[..|outcomes| - 1]) + if last.Duplicate? then [last.of] else []
  }

  lemma CountGrows(outcomes: seq<Outcome>, o: Outcome)
    ensures Count(outcomes + [o]) == Count(outcomes) + if o.Accepted? then 1 else 0
  {
    var before := set i | 0 <= i < |outcomes| && outcomes[i].Accepted?;
    var after := set i | 0 <= i < |outcomes + [o]| && (outcomes + [o])[i].Accepted?;
    assert after == before + if o.Accepted? then {|outcomes|} else {};
  }

  /** Registered are the accepted files, failed all others, duplicates included; the bytes used up are those of
      the accepted and the duplicate ones. */
  lemma {:induction false} TallyMeans(settings: Settings, w: World, batchId: nat, projectId: string,
                                      files: seq<IntakeFile>, scripts: seq<FileScript>, k: nat)
    requires k <= |files| == |scripts|
    ensures var run := ProcessFiles(settings, w, batchId, projectId, files, scripts, k);
            var outcomes := OutcomesOf(settings, w, batchId, projectId, files, scripts, k);
            run.tally.Some? ==>
              && |outcomes| == k
              && run.tally.value.registered == Count(outcomes) && run.tally.value.failed + Count(outcomes) == k
              && run.tally.value.consumed == Sum(outcomes) && run.tally.value.duplicates == Originals(outcomes)
  {
    hide ProcessFile;
    var run := ProcessFiles(settings, w, batchId, projectId, files, scripts, k);
    if k > 0 && run.tally.Some? {
      TallyMeans(settings, w, batchId, projectId, files, scripts, k - 1);
      var before := OutcomesOf(settings, w, batchId, projectId, files, scripts, k - 1);
      var outcomes := OutcomesOf(settings, w, batchId, projectId, files, scripts, k);
      CountGrows(before, outcomes[k - 1]);
      assert outcomes[..k - 1] == before;
    }
  }

  /** Each file is processed with what the files before it have left of the limit of the batch. */
  lemma {:induction false} RestOfTheBatch(settings: Settings, w: World, batchId: nat, projectId: string,
                                          files: seq<IntakeFile>, scripts: seq<FileScript>, k: nat)
    requires k < |files| == |scripts|
    requires ProcessFiles(settings, w, batchId, projectId, files, scripts, k + 1).tally.Some?
    ensures var before := ProcessFiles(settings, w, batchId, projectId, files, scripts, k);
            var after := ProcessFiles(settings, w, batchId, projectId, files, scripts, k + 1);
            var used := Sum(OutcomesOf(settings, w, batchId, projectId, files, scripts, k));
            var step := ProcessFile(settings, before.world, batchId, projectId, files[k],
                                    if used <= settings.maxBatchBytes then settings.maxBatchBytes - used else 0, scripts[k]);
            && before.tally.Some? && step.outcome.Some? && after.world == step.world
            && OutcomesOf(settings, w, batchId, projectId, files, scripts, k + 1) ==
               OutcomesOf(settings, w, batchId, projectId, files, scripts, k) + [step.outcome.value]
  {
    hide ProcessFile;
    TallyMeans(settings, w, batchId, projectId, files, scripts, k);
  }

  // ---------- The reply ----------

  /** The reply to a new request is its batch: for the stripped project, under its key and fingerprint, with the
      counters of its files, and completed, partial or failed as all, some or none of them were accepted.
      Unless it is deleted, the batch is stored just so. */
  lemma NewReply(settings: Settings, w: World, c: Command, script: Script)
    requires WorldOk(settings.digest, w) && |script.files| == |c.files| && c.files != []
    requires CreateBatch(w.tables, script.batchId, NewBatch(settings, c)).Some?
    ensures var done := ExecuteNew(settings, w, c, script);
            var project := settings.strip(c.projectId);
            var start := Started(settings, w, c, script.batchId);
            var outcomes := OutcomesOf(settings, start, script.batchId, project, c.files, script.files, |c.files|);
            done.reply.Success? ==>
              var batch := done.reply.value.batch;
              && |outcomes| == |c.files|
              && batch.projectId == project && batch.idempotencyKey == c.idempotencyKey
              && batch.fingerprint == settings.fingerprint(HeaderOf(c)) && batch.total == |c.files|
              && batch.registered == Count(outcomes) && batch.failed == |c.files| - Count(outcomes)
              && done.reply.value.duplicates == Originals(outcomes)
              && (batch.status == Completed <==> forall i | 0 <= i < |outcomes| :: outcomes[i].Accepted?)
              && (batch.status == BatchStatus.Failed <==> forall i | 0 <= i < |outcomes| :: !outcomes[i].Accepted?)
              && batch.status != Receiving
              && (script.batchId in done.world.tables.batches ==> done.world.tables.batches[script.batchId] == batch)
  {
    var start := Started(settings, w, c, script.batchId);
    var project := settings.strip(c.projectId);
    var outcomes := OutcomesOf(settings, start, script.batchId, project, c.files, script.files, |c.files|);
    var run := RunFiles(settings, w, c, script);
    RunFilesAccounted(settings, w, c, script);
    TallyMeans(settings, start, script.batchId, project, c.files, script.files, |c.files|);
    if run.tally.Some? {
      AllOrNone(outcomes);
    }
    hide WorldOk, TablesOk, ProcessFiles, OutcomesOf, Accounted, CreateBatch, Count, FindBatch;
  }

  lemma AllOrNone(outcomes: seq<Outcome>)
    ensures Count(outcomes) <= |outcomes|
    ensures Count(outcomes) == |outcomes| <==> forall i | 0 <= i < |outcomes| :: outcomes[i].Accepted?
    ensures Count(outcomes) == 0 <==> forall i | 0 <= i < |outcomes| :: !outcomes[i].Accepted?
  {
    var accepted := set i | 0 <= i < |outcomes| && outcomes[i].Accepted?;
    var all := UpTo(|outcomes|);
    assert accepted <= all;
    SameSize(accepted, all);
    if |accepted| == |outcomes| {
      forall i | 0 <= i < |outcomes| ensures outcomes[i].Accepted? {
        assert i in all;
      }
    }
    if forall i | 0 <= i < |outcomes| :: outcomes[i].Accepted? {
      assert all <= accepted && accepted == all;
    }
    if forall i | 0 <= i < |outcomes| :: !outcomes[i].Accepted? {
      assert accepted == {};
    }
    assert |accepted| == 0 ==> accepted == {};
    if accepted == {} {
      forall i | 0 <= i < |outcomes| ensures !outcomes[i].Accepted? {
        assert i !in accepted;
      }
    }
  }

  lemma SameSize(a: set<int>, b: set<int>)
    requires a <= b
    ensures |a| <= |b| && (|a| == |b| ==> a == b)
  {
    assert |b - a| == |b| - |a|;
  }

  function UpTo(n: nat): (s: set<int>)
    ensures |s| == n && forall i :: i in s <==> 0 <= i < n
  {
    if n == 0 then {} else UpTo(n - 1) + {n - 1}
  }

  /** A new request fails exactly when its batch cannot be created, recording a failed file fails, or completing
      or deleting the batch fails. */
  lemma NewFails(settings: Settings, w: World, c: Command, script: Script)
    requires WorldOk(settings.digest, w) && |script.files| == |c.files|
    ensures var done := ExecuteNew(settings, w, c, script);
            var run := RunFiles(settings, w, c, script);
            var taken := script.batchId in w.tables.batches || exists id :: HasKey(w.tables, id, c.idempotencyKey);
            && (taken ==> done == Executed(w, Failure(IdempotencyConflict)))
            && (!taken && script.createFault ==> done == Executed(w, Failure(Broken)))
            && (!taken && !script.createFault ==>
                  (done.reply == Failure(Broken) <==>
                     || run.tally.None? || script.completeFault
                     || (run.tally.value.duplicates != [] && FilesOf(run.world.tables, script.batchId) == {} && script.deleteFault))
                  && (done.reply.Failure? ==> done.reply.error == Broken))
  {
    hide WorldOk, TablesOk, ProcessFiles, Accounted;
    if CreateBatch(w.tables, script.batchId, NewBatch(settings, c)).Some? {
      RunFilesAccounted(settings, w, c, script);
      var run := RunFiles(settings, w, c, script);
      if run.tally.Some? {
        RowsStay(run.world.tables, script.batchId, run.tally.value, |c.files|);
      }
    }
  }

  lemma RowsStay(t: Tables, batchId: nat, tally: Tally, total: nat)
    ensures var u := CompleteBatch(t, batchId, StatusOf(tally.registered, total), tally.registered, tally.failed);
            u.Some? ==> FilesOf(u.value, batchId) == FilesOf(t, batchId)
  {
  }
}
