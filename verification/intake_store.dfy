/** The content-addressed store of original files. */
module OriginalFiles {
  import opened Wrappers
  import opened IntakeRegistry

  type Bytes = seq<Byte>

  /** An input or output error while storing: while `at` bytes have been read (or before the first),
      on linking the staged file into place, or on unlinking it afterwards. */
  datatype Fault = NoFault | ReadFault(at: nat) | LinkFault | UnlinkFault

  datatype Storing = Storing(originals: map<Sha, Bytes>, result: Result<StoredBlob, FailureCode>)

  /** Every original has the content that its name says. */
  ghost predicate OriginalsOk(digest: Bytes -> Sha, originals: map<Sha, Bytes>) {
    forall sha | sha in originals :: digest(originals[sha]) == sha
  }

  predicate FailsReading(bytes: Bytes, limit: int, fault: Fault) {
    fault.ReadFault? && fault.at <= |bytes| && (fault.at == 0 || fault.at <= limit)
  }

  /** Link the staged file to its place, or accept what is already there. */
  function Promote(digest: Bytes -> Sha, originals: map<Sha, Bytes>, bytes: Bytes, fault: Fault): Storing {
    var sha := digest(bytes);
    if fault.LinkFault? then Storing(originals, Failure(StorageUnavailable))
    else if sha in originals && |originals[sha]| != |bytes| then Storing(originals, Failure(IntegrityConflict))
    else
      var after := if sha in originals then originals else originals[sha := bytes];
      if fault.UnlinkFault? then Storing(after, Failure(StorageUnavailable))
      else Storing(after, Success(StoredBlob(sha, |bytes|, sha !in originals)))
  }

  /** What storing does, as a function of the whole content: the cuts into chunks do not matter. */
  function StoreOriginal(digest: Bytes -> Sha, originals: map<Sha, Bytes>, bytes: Bytes, limit: int, fault: Fault): Storing {
    if FailsReading(bytes, limit, fault) then Storing(originals, Failure(StorageUnavailable))
    else if |bytes| > limit && |bytes| > 0 then Storing(originals, Failure(FileTooLarge))
    else if bytes == [] then Storing(originals, Failure(EmptyFile))
    else Promote(digest, originals, bytes, fault)
  }

  /** Originals are only ever added, under the hash of their content; a stored blob is on disk with its size. */
  lemma StoreOriginalKeeps(digest: Bytes -> Sha, originals: map<Sha, Bytes>, bytes: Bytes, limit: int, fault: Fault)
    requires OriginalsOk(digest, originals)
    ensures var s := StoreOriginal(digest, originals, bytes, limit, fault);
            && OriginalsOk(digest, s.originals)
            && (forall sha | sha in originals :: sha in s.originals && s.originals[sha] == originals[sha])
            && (s.result.Success? ==>
                  var blob := s.result.value;
                  && blob.sha256 == digest(bytes) && 0 < blob.size == |bytes| <= limit
                  && blob.sha256 in s.originals && |s.originals[blob.sha256]| == blob.size
                  && blob.createdNew == (blob.sha256 !in originals))
  {
  }

  /** Content that is already stored is stored again without effect. */
  lemma StoringAgain(digest: Bytes -> Sha, originals: map<Sha, Bytes>, bytes: Bytes, limit: int, fault: Fault)
    requires var sha := digest(bytes); sha in originals && |originals[sha]| == |bytes|
    requires 0 < |bytes| <= limit
    ensures var s := StoreOriginal(digest, originals, bytes, limit, fault);
            && s.originals == originals
            && (!fault.LinkFault? && !fault.UnlinkFault? && (fault.ReadFault? ==> fault.at > |bytes|) ==>
                  s.result == Success(StoredBlob(digest(bytes), |bytes|, false)))
  {
  }

  datatype Upload = Upload(batchId: nat, fileId: nat)

  class LocalOriginalFileStore {
    const digest: Bytes -> Sha
    var originals: map<Sha, Bytes>
    var staging: map<Upload, Bytes>

    constructor (digest: Bytes -> Sha)
      ensures this.digest == digest && originals == map[] && staging == map[]
    {
      this.digest := digest;
      originals, staging := map[], map[];
    }

    /** `store`: afterwards nothing is staged under this upload, whatever happened. */
    method Store(upload: Upload, bytes: Bytes, limit: int, chunkBytes: int, fault: Fault)
        returns (result: Result<StoredBlob, FailureCode>)
      modifies this
      ensures staging == old(staging) - {upload}
      ensures if upload in old(staging) then originals == old(originals) && result == Failure(StorageUnavailable)
              else Storing(originals, result) ==
                   StoreOriginal(digest, old(originals), if chunkBytes == 0 then [] else bytes, limit, fault)
    {
      if upload in staging {
        staging := staging - {upload};
        return Failure(StorageUnavailable);
      }
      staging := staging[upload := []];
      var failure := Receive(upload, bytes, limit, chunkBytes, fault);
      if failure.Some? {
        result := Failure(failure.value);
      } else if staging[upload] == [] {
        result := Failure(EmptyFile);
      } else {
        result := LinkOriginal(upload, fault);
      }
      staging := staging - {upload};
    }

    /** The chunk loop: each read gives some of what is left, at most `chunkBytes` when that is positive. */
    method Receive(upload: Upload, bytes: Bytes, limit: int, chunkBytes: int, fault: Fault)
        returns (failure: Option<FailureCode>)
      requires upload in staging && staging[upload] == []
      modifies this`staging
      ensures upload in staging && staging - {upload} == old(staging) - {upload}
      ensures var all := if chunkBytes == 0 then [] else bytes;
              && failure == (if FailsReading(all, limit, fault) then Some(StorageUnavailable)
                             else if |all| > limit && |all| > 0 then Some(FileTooLarge) else None)
              && (failure.None? ==> staging[upload] == all)
    {
      var all := if chunkBytes == 0 then [] else bytes;
      var size := 0;
      while true
        invariant 0 <= size <= |all| && (size > 0 ==> size <= limit)
        invariant fault.ReadFault? && fault.at <= |all| ==> size <= fault.at
        invariant upload in staging && staging[upload] == all[..size]
        invariant staging - {upload} == old(staging) - {upload}
        decreases |all| - size
      {
        if fault.ReadFault? && fault.at == size {
          return Some(StorageUnavailable);
        }
        if size == |all| {
          break;
        }
        var bound := if fault.ReadFault? && fault.at <= |all| then fault.at else |all|;
        var read: nat :| size < read <= bound && (chunkBytes > 0 ==> read - size <= chunkBytes);
        var chunk := all[size..read];
        size := size + |chunk|;
        if size > limit {
          return Some(FileTooLarge);
        }
        staging := staging[upload := staging[upload] + chunk];
      }
      return None;
    }

    /** `_promote` of a completely staged file. */
    method LinkOriginal(upload: Upload, fault: Fault) returns (result: Result<StoredBlob, FailureCode>)
      requires upload in staging
      modifies this`originals
      ensures Storing(originals, result) == Promote(digest, old(originals), staging[upload], fault)
    {
      var bytes := staging[upload];
      var sha := digest(bytes);
      if fault.LinkFault? {
        return Failure(StorageUnavailable);
      }
      var createdNew := sha !in originals;
      if createdNew {
        originals := originals[sha := bytes];
      } else if |originals[sha]| != |bytes| {
        return Failure(IntegrityConflict);
      }
      if fault.UnlinkFault? {
        return Failure(StorageUnavailable);
      }
      return Success(StoredBlob(sha, |bytes|, createdNew));
    }
  }
}
