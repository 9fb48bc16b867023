/**
 * The persisted checkpoint: the one record kept under the `videoUploadState`
 * key of localStorage, how a fresh upload names its job, how a re-selected
 * file is matched against the checkpoint, which identifier a cancellation
 * reports, and what the mount effects decide from a record found at start-up
 * (src/useUploaderLogic.js and src/api.js).
 *
 * A JavaScript `null`, `undefined` or empty string in an identifier field is
 * written "" here: all three are falsy. The hook tests them for truthiness or
 * compares them with `===` against an identifier that is present; its one
 * unguarded use, the `startsWith` of line 688, is not modelled (`Matches`
 * applies the guarded test of line 476 there too).
 */
module Checkpoint {
  import opened Wrappers
  import opened Chunking

  /**
   * The stored record, in the three shapes the hook can find under its key:
   * the one written while chunks are sent (lines 782-790 and 835-843), the one
   * written once the server has accepted the transfer (lines 900-909), and a
   * record whose `status` is neither 'uploading' nor 'processing'.
   */
  datatype Record =
    | UploadRecord(fileId: string, fileName: string, fileSize: int, lastChunkIndex: int, totalChunks: int, timestamp: int)
    | ProcessRecord(fileId: string, fileName: string, fileSize: int, jobId: string,
                    processingProgress: int, processingStatus: string, timestamp: int)
    | OtherStatusRecord(fileId: string)

  /** `record.jobId`: only a processing record carries one. */
  function JobIdOf(rec: Record): string
  {
    if rec.ProcessRecord? then rec.jobId else ""
  }

  /** The status is 'uploading' or 'processing' (line 201). */
  predicate InProgress(rec: Record)
  {
    rec.UploadRecord? || rec.ProcessRecord?
  }

  function DigitChar(d: nat): char
    requires d < 10
  {
    "0123456789"[d]
  }

  /** The decimal text of a non-negative integer, as a template literal renders it. */
  function Decimal(n: nat): (s: string)
    ensures |s| > 0
    ensures forall i :: 0 <= i < |s| ==> '0' <= s[i] <= '9'
  {
    if n < 10 then [DigitChar(n)] else Decimal(n / 10) + [DigitChar(n % 10)]
  }

  /** `s.startsWith(p)`. */
  predicate StartsWith(s: string, p: string)
  {
    |p| <= |s| && s[..|p|] == p
  }

  /** `${file.name}-${file.size}` (line 474). */
  function MatchKey(file: File): string
  {
    file.name + "-" + Decimal(|file.data|)
  }

  /** `${name}-${size}-${Date.now()}`: the identifier of a fresh upload (line 761). */
  function MintFileId(file: File, now: nat): (id: string)
    ensures StartsWith(id, MatchKey(file))
    ensures |id| > |MatchKey(file)|
  {
    var id := MatchKey(file) + "-" + Decimal(now);
    assert id[..|MatchKey(file)|] == MatchKey(file);
    id
  }

  /**
   * The resume test of lines 476 and 688: the checkpoint is an upload in
   * progress and its `fileId` merely STARTS WITH `${name}-${size}` of the
   * selected file. It does not compare the checkpoint's own name and size.
   */
  predicate Matches(resume: Option<Record>, file: File)
  {
    && resume.Some?
    && resume.value.UploadRecord?
    && resume.value.fileId != ""
    && StartsWith(resume.value.fileId, MatchKey(file))
  }

  /** Re-selecting the very file a fresh upload was started with always resumes that upload. */
  lemma MintedIdMatches(file: File, now: nat, lastChunkIndex: int, totalChunks: int, timestamp: int)
    ensures Matches(Some(UploadRecord(MintFileId(file, now), file.name, |file.data|, lastChunkIndex, totalChunks, timestamp)), file)
  {
  }

  /**
   * The prefix test admits a different file: a one-byte file named "a" is
   * taken for the ten-byte upload of "a", because "a-10-7" starts with "a-1".
   */
  lemma PrefixMatchAdmitsOtherSize()
    ensures var checkpoint := UploadRecord("a-10-7", "a", 10, 0, 1, 7);
            var picked := File("a", [0]);
            |picked.data| != checkpoint.fileSize && Matches(Some(checkpoint), picked)
  {
    assert Decimal(1) == "1";
    assert MatchKey(File("a", [0])) == "a-1";
    assert "a-10-7"[..3] == "a-1";
  }

  /** Which identifier `cancelJobOnServer` reports and with which `identifierType` (src/api.js). */
  datatype IdentifierType = JobIdType | FileIdType

  datatype CancelRequest = CancelRequest(jobIdentifier: string, identifierType: IdentifierType)

  /**
   * `resumeState?.jobId || resumeState?.fileId`, typed 'jobId' exactly when
   * a job id is present; nothing is sent when neither is (src/api.js line 64).
   */
  function CancelTarget(resume: Option<Record>): (r: Option<CancelRequest>)
    ensures r.Some? <==> resume.Some? && (JobIdOf(resume.value) != "" || resume.value.fileId != "")
    ensures r.Some? ==> r.value.jobIdentifier != ""
    ensures r.Some? ==> (r.value.identifierType == JobIdType <==> JobIdOf(resume.value) != "")
    ensures r.Some? && r.value.identifierType == JobIdType ==> r.value.jobIdentifier == JobIdOf(resume.value)
    ensures r.Some? && r.value.identifierType == FileIdType ==> r.value.jobIdentifier == resume.value.fileId
  {
    match resume
    case None => None
    case Some(rec) =>
      var id := if JobIdOf(rec) != "" then JobIdOf(rec) else rec.fileId;
      if id == "" then None
      else Some(CancelRequest(id, if JobIdOf(rec) != "" then JobIdType else FileIdType))
  }

  /** The blob store: IndexedDB entries keyed by `fileId`. */
  type BlobStore = map<string, seq<byte>>

  /** `if (fileId) await deleteFileFromDB(fileId)`: deleting an absent key is not an error. */
  function Without(blobs: BlobStore, fileId: string): (r: BlobStore)
    ensures fileId !in r || fileId == ""
    ensures forall k :: k in r <==> k in blobs && (k != fileId || fileId == "")
    ensures forall k :: k in r ==> r[k] == blobs[k]
  {
    if fileId == "" then blobs else blobs - {fileId}
  }

  /** `resumeState?.fileId`. */
  function FileIdOf(resume: Option<Record>): string
  {
    if resume.Some? then resume.value.fileId else ""
  }

  /** What the two mount effects make of the record found at start-up (lines 195-301). */
  datatype Reconciled =
    | NoJob                       // nothing stored: 'initial'
    | AwaitReselect(rec: Record)  // an upload to resume: 'pending_resume_select_file'
    | WatchJob(rec: Record)       // a job being processed: 'processing'
    | Discard(fileId: string)     // unusable: record removed, blob `fileId` deleted when named

  /**
   * The start-up decision. An upload survives only with a positive chunk
   * count and with its blob present (the blob check runs only when the
   * record names a `fileId`); a processing record survives only with a job
   * id; anything else is discarded together with its blob.
   */
  function Reconcile(saved: Option<Record>, blobs: BlobStore): (d: Reconciled)
    ensures d.NoJob? <==> saved.None?
    ensures d.AwaitReselect? <==>
              saved.Some? && saved.value.UploadRecord? && saved.value.fileSize > 0
              && (saved.value.fileId == "" || saved.value.fileId in blobs)
    ensures d.WatchJob? <==> saved.Some? && saved.value.ProcessRecord? && saved.value.jobId != ""
    ensures d.AwaitReselect? || d.WatchJob? ==> d.rec == saved.value
    ensures d.Discard? ==> saved.Some? && d.fileId == saved.value.fileId
  {
    match saved
    case None => NoJob
    case Some(rec) =>
      if !InProgress(rec) then Discard(rec.fileId)
      else if rec.UploadRecord? then
        CeilChunksOfSize(rec.fileSize);
        if CeilChunks(rec.fileSize) <= 0 then Discard(rec.fileId)
        else if rec.fileId != "" && rec.fileId !in blobs then Discard(rec.fileId)
        else AwaitReselect(rec)
      else if rec.jobId == "" then Discard(rec.fileId)
      else WatchJob(rec)
  }
}
