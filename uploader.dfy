/**
 * The `useUploaderLogic` hook as an object: its React state, its two refs
 * and the two browser stores it writes are fields, and each handler the
 * hook returns, each of its effects and each WebSocket callback is a method
 * that updates them step by step as src/useUploaderLogic.js does. Every
 * method ends in the state the matching function of `HookSpec` computes
 * from the state it started in, so what is proved there holds of these
 * methods.
 *
 * Answers from the server, the clock and the outcome of saving a blob are
 * parameters: `reply(k)` answers the request for chunk `k`, `completion`
 * is the job id returned by the completion request (`None` when it fails),
 * `now` stands for `Date.now()`.
 */
module UploaderHook {
  import opened Wrappers
  import opened Chunking
  import opened Checkpoint
  import opened HookSpec

  class Uploader {
    var uiState: UiState
    var selectedFile: Option<File>
    var fileSelectedButNotMatching: Option<File>
    var isUploading: bool
    var isCompletingUpload: bool
    var uploadedChunks: int
    var totalChunks: int
    var currentUploadFileId: string
    var jobId: string
    var videoProcessingProgress: int
    var videoProcessingStatus: string
    var resumeState: Option<Record>
    var showCancelConfirmModal: bool
    var showUploadNewConfirmModal: bool
    /** `websocketRef.current` holds an open socket. */
    var socketOpen: bool
    /** `isCancelledRef.current`. */
    var isCancelled: bool
    /** The localStorage entry `videoUploadState`. */
    var stored: Option<Record>
    /** The IndexedDB object store of file blobs. */
    var blobs: BlobStore

    function State(): HookState
      reads this
    {
      HookState(uiState, selectedFile, fileSelectedButNotMatching, isUploading, isCompletingUpload,
                uploadedChunks, totalChunks, currentUploadFileId, jobId, videoProcessingProgress,
                videoProcessingStatus, resumeState, showCancelConfirmModal, showUploadNewConfirmModal,
                socketOpen, isCancelled, stored, blobs)
    }

    predicate Valid()
      reads this
    {
      Consistent(State())
    }

    /** The hook's first render: initial values over whatever the browser stores hold. */
    constructor (saved: Option<Record>, store: BlobStore)
      ensures State() == Pristine(saved, store)
    {
      uiState := Initial;
      selectedFile := None;
      fileSelectedButNotMatching := None;
      isUploading := false;
      isCompletingUpload := false;
      uploadedChunks := 0;
      totalChunks := 0;
      currentUploadFileId := "";
      jobId := "";
      videoProcessingProgress := 0;
      videoProcessingStatus := "";
      resumeState := None;
      showCancelConfirmModal := false;
      showUploadNewConfirmModal := false;
      socketOpen := false;
      isCancelled := false;
      stored := saved;
      blobs := store;
    }

    /** `clearLocalJobState(fileIdToClear)` (lines 56-81). */
    method ClearLocalJobState(fileIdToClear: string)
      modifies this
      ensures Valid()
      ensures State() == ClearLocal(old(State()), fileIdToClear)
    {
      stored := None;
      if fileIdToClear != "" {
        blobs := blobs - {fileIdToClear};
      }
      DropSocket();
      ForgetJob();
    }

    /** `resetUploader` (lines 84-101). */
    method ResetUploader()
      modifies this
      ensures State() == Reset(old(State()))
    {
      SetSelection(None, None);
      SetTransferFlags(false, false);
      SetChunkCounts(0, 0);
      SetProcessingDisplay(0, "");
      uiState := Initial;
      isCancelled := false;
    }

    /** `setSelectedFile` and `setFileSelectedButNotMatching`. */
    method SetSelection(selected: Option<File>, mismatched: Option<File>)
      modifies this
      ensures State() == old(State()).(selectedFile := selected, fileSelectedButNotMatching := mismatched)
    {
      selectedFile := selected;
      fileSelectedButNotMatching := mismatched;
    }

    /** `setIsUploading` and `setIsCompletingUpload`. */
    method SetTransferFlags(uploading: bool, completing: bool)
      modifies this
      ensures State() == old(State()).(isUploading := uploading, isCompletingUpload := completing)
    {
      isUploading := uploading;
      isCompletingUpload := completing;
    }

    /** `setUploadedChunks` and `setTotalChunks`. */
    method SetChunkCounts(uploaded: int, total: int)
      modifies this
      ensures State() == old(State()).(uploadedChunks := uploaded, totalChunks := total)
    {
      uploadedChunks := uploaded;
      totalChunks := total;
    }

    /** `setVideoProcessingProgress` and `setVideoProcessingStatus`. */
    method SetProcessingDisplay(progress: int, status: string)
      modifies this
      ensures State() == old(State()).(videoProcessingProgress := progress, videoProcessingStatus := status)
    {
      videoProcessingProgress := progress;
      videoProcessingStatus := status;
    }

    /** The localStorage entry and its in-memory copy `resumeState`, written together. */
    method SaveCheckpoint(rec: Option<Record>)
      modifies this
      ensures State() == old(State()).(stored := rec, resumeState := rec)
    {
      stored := rec;
      resumeState := rec;
    }

    /** An open socket is dropped with the cancel flag raised first, so that its close handler knows (lines 66-70). */
    method DropSocket()
      modifies this
      ensures State() == old(State()).(isCancelled := old(isCancelled) || old(socketOpen), socketOpen := false)
    {
      if socketOpen {
        isCancelled := true;
        socketOpen := false;
      }
    }

    /** The job's ids and in-memory checkpoint are forgotten (lines 72-74). */
    method ForgetJob()
      modifies this
      ensures State() == old(State()).(currentUploadFileId := "", jobId := "", resumeState := None)
    {
      currentUploadFileId := "";
      jobId := "";
      resumeState := None;
    }

    /** The mount effect and the blob check it triggers (lines 195-301). */
    method Mount()
      requires State() == Pristine(stored, blobs)
      modifies this
      ensures Valid()
      ensures State() == Mounted(old(stored), old(blobs))
    {
      ghost var saved, store := stored, blobs;
      RestoreSaved();
      CheckResumeBlob();
      MountEffectsReconcile(saved, store);
    }

    /** The first mount effect (lines 195-260): restore the stored record, or clear it away when unusable. */
    method RestoreSaved()
      requires State() == Pristine(stored, blobs)
      modifies this
      ensures State() == Restored(old(stored), old(blobs))
    {
      match stored {
        case None =>
          uiState := Initial;
        case Some(state) =>
          if !InProgress(state) {
            DiscardSaved(state);
          } else if state.UploadRecord? {
            RestoreUpload(state);
          } else {
            RestoreJob(state);
          }
      }
    }

    /** A finished or unknown checkpoint is dropped with its blob, and the hook is reset (lines 248-258). */
    method DiscardSaved(state: Record)
      requires State() == Pristine(stored, blobs) && stored == Some(state) && !InProgress(state)
      modifies this
      ensures State() == Restored(old(stored), old(blobs))
    {
      stored := None;
      if state.fileId != "" {
        blobs := blobs - {state.fileId};
      }
      ResetUploader();
    }

    /** An upload checkpoint waits for its file to be picked again, unless its size gives no chunks (lines 201-226). */
    method RestoreUpload(state: Record)
      requires State() == Pristine(stored, blobs) && stored == Some(state) && state.UploadRecord?
      modifies this
      ensures State() == Restored(old(stored), old(blobs))
    {
      resumeState := stored;
      currentUploadFileId := state.fileId;
      var calculatedTotalChunks := CeilChunks(state.fileSize);
      if calculatedTotalChunks > 0 {
        SetChunkCounts(state.lastChunkIndex + 1, calculatedTotalChunks);
        uiState := PendingResumeSelectFile;
      } else {
        ClearLocalJobState(state.fileId);
        ResetUploader();
      }
    }

    /** A processing checkpoint shows its job again, unless it has no job id (lines 201-204, 227-245). */
    method RestoreJob(state: Record)
      requires State() == Pristine(stored, blobs) && stored == Some(state) && state.ProcessRecord?
      modifies this
      ensures State() == Restored(old(stored), old(blobs))
    {
      resumeState := stored;
      currentUploadFileId := state.fileId;
      if state.jobId != "" {
        ShowJob(state.jobId, state.processingProgress, state.processingStatus);
        uiState := Processing;
      } else {
        ClearLocalJobState(state.fileId);
        ResetUploader();
      }
    }

    /** The second mount effect (lines 262-301): an upload to resume whose blob is gone is cleared away. */
    method CheckResumeBlob()
      modifies this
      ensures State() == BlobChecked(old(State()))
    {
      if resumeState.Some? && resumeState.value.UploadRecord? && resumeState.value.fileId != "" {
        if resumeState.value.fileId !in blobs {
          ClearLocalJobState(resumeState.value.fileId);
          ResetUploader();
        }
      }
    }

    /** `isProcessing` over the current fields (line 962). */
    function Busy(): bool
      reads this
    {
      IsProcessing(isUploading, isCompletingUpload, uiState)
    }

    /** `handleFileChange`: `file` is the picked file, `None` when the dialog was dismissed (lines 439-542). */
    method FileChange(file: Option<File>)
      requires Valid()
      modifies this
      ensures Valid()
      ensures State() == Select(old(State()), file)
    {
      if file.None? {
        DismissPicker();
      } else {
        Pick(file.value);
      }
      SelectEffects(old(State()), file);
    }

    /** The dialog closed without a file (lines 441-456). */
    method DismissPicker()
      modifies this
      ensures State() == Dismissed(old(State()))
    {
      if uiState == PendingResumeSelectFile {
      } else if uiState == ResumeMismatchChoice {
        SetSelection(None, None);
      } else if uiState != Initial && uiState != Finished && !Busy() {
        selectedFile := None;
      }
    }

    /** A file was picked (lines 458-542). */
    method Pick(f: File)
      modifies this
      ensures State() == Picked(old(State()), f)
    {
      if Matches(resumeState, f) {
        SetSelection(Some(f), None);
        uiState := ReadyToResumeUpload;
        jobId := "";
        SetProcessingDisplay(0, "");
      } else if resumeState.Some? && InProgress(resumeState.value) {
        SetSelection(Some(f), Some(f));
        uiState := ResumeMismatchChoice;
      } else {
        SetSelection(Some(f), Some(f));
        SetTransferFlags(false, false);
        SetChunkCounts(0, 0);
        uiState := ReadyToUploadNew;
      }
    }

    /** `handleCancelUpload`: only raises the confirmation modal (lines 545-548). */
    method CancelUpload()
      modifies this
      ensures State() == old(State()).(showCancelConfirmModal := true)
    {
      showCancelConfirmModal := true;
    }

    /** `handleSelectOriginalFile` (lines 552-559). */
    method SelectOriginalFile()
      modifies this
      ensures State() == SelectOriginal(old(State()))
    {
      selectedFile := None;
      fileSelectedButNotMatching := None;
      uiState := PendingResumeSelectFile;
    }

    /** `dismissCancelModal` (lines 562-566). */
    method DismissCancelModal()
      modifies this
      ensures State() == old(State()).(showCancelConfirmModal := false)
    {
      showCancelConfirmModal := false;
    }

    /**
     * `confirmCancel` (lines 569-596). `notice` is what is sent to the
     * cancel endpoint, `None` when the checkpoint names no job.
     */
    method ConfirmCancel() returns (notice: Option<CancelRequest>)
      modifies this
      ensures Valid()
      ensures notice == CancelTarget(old(resumeState))
      ensures State() == Cancelled(old(State()))
    {
      showCancelConfirmModal := false;
      notice := CancelTarget(resumeState);
      ClearLocalJobState(FileIdOf(resumeState));
      ResetUploader();
    }

    /** `handleUploadNewAndCancelOld`: raises the confirmation modal, or resets when no file is selected (lines 600-612). */
    method UploadNewAndCancelOld()
      modifies this
      ensures old(selectedFile).None? ==> State() == Reset(old(State()))
      ensures old(selectedFile).Some? ==> State() == old(State()).(showUploadNewConfirmModal := true)
    {
      if selectedFile.None? {
        ResetUploader();
        return;
      }
      showUploadNewConfirmModal := true;
    }

    /** `dismissUploadNewModal` (lines 615-619). */
    method DismissUploadNewModal()
      modifies this
      ensures State() == old(State()).(showUploadNewConfirmModal := false)
    {
      showUploadNewConfirmModal := false;
    }

    /**
     * `confirmUploadNewAndCancelOld` (lines 622-680): the old job is
     * reported and cleared away, then the selected file is uploaded afresh.
     */
    method ConfirmUploadNewAndCancelOld(now: nat, blobSaveOk: bool, reply: int -> ChunkReply, completion: Option<string>)
        returns (notice: Option<CancelRequest>, sent: seq<ChunkRequest>, completeReq: Option<CompleteRequest>)
      requires Valid()
      modifies this
      ensures Valid()
      ensures old(selectedFile).None? ==>
                notice.None? && sent == [] && completeReq.None?
                && State() == Reset(old(State()).(showUploadNewConfirmModal := false))
      ensures old(selectedFile).Some? ==>
                var r := UploadSpec(ReplaceJob(old(State())), now, blobSaveOk, reply, completion);
                && notice == CancelTarget(old(resumeState))
                && State() == r.after.(fileSelectedButNotMatching := None)
                && sent == r.sent && completeReq == r.completeReq
    {
      DismissUploadNewModal();
      if selectedFile.None? {
        ResetUploader();
        notice, sent, completeReq := None, [], None;
        return;
      }
      ghost var replaced := ReplaceJob(old(State()));
      ghost var r := UploadSpec(replaced, now, blobSaveOk, reply, completion);
      ReplaceJobClosesModal(old(State()));
      notice := RetireOldJob();
      assert State() == replaced;
      sent, completeReq := Upload(now, blobSaveOk, reply, completion);
      assert State() == r.after;
      fileSelectedButNotMatching := None;
    }

    /**
     * The part of `confirmUploadNewAndCancelOld` between the modal closing
     * and the call of `handleUpload` (lines 637-664): the old job, if any, is
     * reported and cleared away, and the transfer counters are zeroed.
     */
    method RetireOldJob() returns (notice: Option<CancelRequest>)
      requires Valid() && !showUploadNewConfirmModal
      modifies this
      ensures Valid()
      ensures notice == CancelTarget(old(resumeState))
      ensures State() == ReplaceJob(old(State()))
    {
      notice := CancelTarget(resumeState);
      if notice.Some? {
        ClearLocalJobState(resumeState.value.fileId);
      }
      SetChunkCounts(0, 0);
      SetTransferFlags(false, false);
    }

    /** After chunk `chunkIndex` is acknowledged the checkpoint is rewritten to name it (lines 835-845). */
    method RecordAck(fileId: string, file: File, chunkIndex: int, total: int, now: nat)
      modifies this
      ensures var rec := Some(UploadRecord(fileId, file.name, |file.data|, chunkIndex, total, now));
              State() == old(State()).(stored := rec, resumeState := rec, uploadedChunks := chunkIndex + 1)
    {
      SaveCheckpoint(Some(UploadRecord(fileId, file.name, |file.data|, chunkIndex, total, now)));
      uploadedChunks := chunkIndex + 1;
    }

    /** An acknowledged chunk moves the checkpoint on by one; the cancel flag may be found raised after it. */
    method AckChunk(fileId: string, file: File, start: int, total: int, chunkIndex: int, now: nat, cancelRaised: bool,
                    ghost begun: HookState)
      requires start <= chunkIndex
      requires State() == AckedThrough(begun, fileId, file, start, total, chunkIndex - 1, now).(isCancelled := false)
      modifies this
      ensures State() == AckedThrough(begun, fileId, file, start, total, chunkIndex, now).(isCancelled := cancelRaised)
    {
      RecordAck(fileId, file, chunkIndex, total, now);
      AckedThroughNext(begun, fileId, file, start, total, chunkIndex, now, false);
      if cancelRaised {
        RaiseCancelFlag();
      }
    }

    /**
     * The chunk loop of `handleUpload` (lines 799-861): chunks `start`,
     * `start + 1`, ... are sent in order until all are sent, one is refused
     * or the cancel flag is found raised; after each acknowledgement the
     * checkpoint is rewritten to name that chunk.
     */
    method AckLoop(fileId: string, file: File, start: int, total: int, reply: int -> ChunkReply, now: nat)
        returns (sent: seq<ChunkRequest>, outcome: LoopEnd)
      requires !isCancelled
      modifies this
      ensures outcome == Transfer(start, total, reply)
      ensures sent == Requests(fileId, file.data, start, SentUpTo(start, total, outcome))
      ensures State() == AckedThrough(old(State()), fileId, file, start, total, LastAcked(start, total, outcome), now)
                           .(isCancelled := outcome.CancelledBefore?)
    {
      ghost var begun := State();
      var chunkIndex := start;
      sent := [];
      while chunkIndex < total && !isCancelled
        invariant start <= chunkIndex <= Max(start, total)
        invariant Transfer(start, total, reply) ==
                    if isCancelled then CancelledBefore(chunkIndex) else Transfer(chunkIndex, total, reply)
        invariant sent == Requests(fileId, file.data, start, chunkIndex)
        invariant State() == AckedThrough(begun, fileId, file, start, total, chunkIndex - 1, now).(isCancelled := isCancelled)
        decreases total - chunkIndex
      {
        RequestsSnoc(fileId, file.data, start, chunkIndex);
        TransferStep(start, chunkIndex, total, reply);
        sent := sent + [ChunkRequest(fileId, chunkIndex, ChunkOf(file.data, chunkIndex))];
        match reply(chunkIndex) {
          case Refused =>
            outcome := RefusedAt(chunkIndex);
            assert LastAcked(start, total, outcome) == chunkIndex - 1 && SentUpTo(start, total, outcome) == chunkIndex + 1;
            return;
          case Acked(cancelRaised) =>
            AckChunk(fileId, file, start, total, chunkIndex, now, cancelRaised, begun);
            chunkIndex := chunkIndex + 1;
        }
      }
      outcome := if isCancelled then CancelledBefore(chunkIndex) else AllSent;
      assert LastAcked(start, total, outcome) == chunkIndex - 1 && SentUpTo(start, total, outcome) == chunkIndex;
    }

    /**
     * The chunk loop and the lines after it (799-879): a refused chunk
     * leaves the upload ready to resume, a raised cancel flag just stops,
     * and a loop that sent every chunk moves on to the completion request.
     */
    method SendChunks(fileId: string, file: File, start: int, total: int, reply: int -> ChunkReply, now: nat)
        returns (sent: seq<ChunkRequest>, outcome: LoopEnd)
      requires Valid() && currentUploadFileId == fileId && !isCancelled
      modifies this
      ensures Valid()
      ensures outcome == Transfer(start, total, reply)
      ensures sent == Requests(fileId, file.data, start, SentUpTo(start, total, outcome))
      ensures State() == AfterLoop(old(State()), fileId, file, start, total, outcome, now)
    {
      ghost var begun := State();
      sent, outcome := AckLoop(fileId, file, start, total, reply, now);
      match outcome {
        case RefusedAt(_) =>
          HaltOnRefusal();
        case CancelledBefore(_) =>
          isUploading := false;
        case AllSent =>
          EnterCompleting();
      }
      AfterLoopConsistent(begun, fileId, file, start, total, outcome, now);
    }

    /**
     * The cancel flag raised from outside the loop while a chunk request was
     * in flight. Only closing an open socket raises it (lines 71 and 424).
     */
    method RaiseCancelFlag()
      modifies this
      ensures State() == old(State()).(isCancelled := true)
    {
      isCancelled := true;
    }

    /** A refused chunk ends the run, ready for "Resume upload" (lines 851-859). */
    method HaltOnRefusal()
      modifies this
      ensures State() == old(State()).(isUploading := false, uiState := ReadyToResumeUpload)
    {
      isUploading := false;
      uiState := ReadyToResumeUpload;
    }

    /** Every chunk is sent: the completion request is next (lines 871-875). */
    method EnterCompleting()
      modifies this
      ensures State() == old(State()).(isUploading := false, isCompletingUpload := true, uiState := Completing)
    {
      SetTransferFlags(false, true);
      uiState := Completing;
    }

    /** The answer to the completion request (lines 882-942). */
    method FinishTransfer(fileId: string, file: File, completion: Option<string>, now: nat)
      requires Valid() && currentUploadFileId == fileId
      modifies this
      ensures Valid()
      ensures State() == Completed(old(State()), fileId, file, completion, now)
    {
      CompletedConsistent(State(), fileId, file, completion, now);
      if completion.Some? && completion.value != "" {
        AcceptCompletion(fileId, file, completion.value, now);
      } else {
        isCompletingUpload := false;
        uiState := ReadyToUploadNew;
      }
    }

    /** The server accepted the transfer and named the processing job (lines 887-916, 939-940). */
    method AcceptCompletion(fileId: string, file: File, newJobId: string, now: nat)
      requires newJobId != ""
      modifies this
      ensures State() == Completed(old(State()), fileId, file, Some(newJobId), now)
    {
      blobs := blobs - {fileId};
      SaveCheckpoint(Some(ProcessRecord(fileId, file.name, |file.data|, newJobId, 0, "", now)));
      ShowJob(newJobId, 0, AwaitingProcessingStatus);
      uiState := Processing;
      isCompletingUpload := false;
    }

    /** `setJobId` with the job's progress and status on display. */
    method ShowJob(newJobId: string, progress: int, status: string)
      modifies this
      ensures State() == old(State()).(jobId := newJobId, videoProcessingProgress := progress, videoProcessingStatus := status)
    {
      jobId := newJobId;
      SetProcessingDisplay(progress, status);
    }

    /**
     * `handleUpload` (lines 685-943): resume the checkpoint the selected
     * file matches, or start afresh, send the chunks, and ask the server to
     * complete the transfer. `sent` are the chunk requests issued, in
     * order; `completeReq` the completion request, if one was made.
     */
    method Upload(now: nat, blobSaveOk: bool, reply: int -> ChunkReply, completion: Option<string>)
        returns (sent: seq<ChunkRequest>, completeReq: Option<CompleteRequest>)
      requires Valid()
      modifies this
      ensures Valid()
      ensures UploadOutcome(State(), sent, completeReq) == UploadSpec(old(State()), now, blobSaveOk, reply, completion)
    {
      sent, completeReq := [], None;
      if selectedFile.None? {
        ResetUploader();
        return;
      }
      var uploadFileId, fileToUpload, startingChunkIndex, calculatedTotalChunks, ready := BeginUpload(now, blobSaveOk);
      if !ready {
        return;
      }
      ghost var begun := State();
      var outcome;
      sent, outcome := SendChunks(uploadFileId, fileToUpload, startingChunkIndex, calculatedTotalChunks, reply, now);
      if outcome.AllSent? {
        completeReq := Some(CompleteRequest(uploadFileId, calculatedTotalChunks, fileToUpload.name));
        FinishTransfer(uploadFileId, fileToUpload, completion, now);
      }
      assert UploadOutcome(State(), sent, completeReq)
          == RunTransfer(begun, uploadFileId, fileToUpload, startingChunkIndex, calculatedTotalChunks, reply, completion, now);
    }

    /**
     * The part of `handleUpload` before the chunk loop (lines 700-793): the
     * selected file either resumes the checkpoint it matches, from the blob
     * kept for it, or starts afresh under a newly minted id with its blob
     * saved and a first checkpoint written. `ready` is false when the blob
     * to resume is missing; the cancel modal is then raised instead.
     */
    method BeginUpload(now: nat, blobSaveOk: bool)
        returns (uploadFileId: string, fileToUpload: File, startingChunkIndex: int, calculatedTotalChunks: int, ready: bool)
      requires Valid() && selectedFile.Some?
      modifies this
      ensures var p := PlanUpload(old(resumeState), old(selectedFile), old(blobs), now);
              && (ready <==> p.SendFrom?)
              && (p.SendFrom? ==>
                    && Valid() && !isCancelled && currentUploadFileId == uploadFileId
                    && uploadFileId == p.fileId && fileToUpload == p.file
                    && startingChunkIndex == p.start && calculatedTotalChunks == p.total
                    && State() == Begin(old(State()), p.fileId, p.file, p.start, p.total, p.isFresh, now, blobSaveOk))
              && (p.BlobMissing? ==> State() == Started(old(State()), p.fileId, p.start, p.total).(showCancelConfirmModal := true))
    {
      fileToUpload := selectedFile.value;
      ready := true;
      if Matches(resumeState, fileToUpload) {
        uploadFileId := resumeState.value.fileId;
        startingChunkIndex := resumeState.value.lastChunkIndex + 1;
        calculatedTotalChunks := CeilChunks(|fileToUpload.data|);
        MarkUploading(uploadFileId, startingChunkIndex, calculatedTotalChunks);
        if uploadFileId !in blobs {
          CancelUpload();
          ready := false;
          return;
        }
        fileToUpload := File(resumeState.value.fileName, blobs[uploadFileId]);
      } else {
        uploadFileId := MintFileId(fileToUpload, now);
        startingChunkIndex := 0;
        calculatedTotalChunks := CeilChunks(|fileToUpload.data|);
        MarkUploading(uploadFileId, startingChunkIndex, calculatedTotalChunks);
        SaveFirstCheckpoint(uploadFileId, fileToUpload, calculatedTotalChunks, now, blobSaveOk);
      }
    }

    /** The flags and counters `handleUpload` sets before it sends anything (lines 700-702, 711-723 and 761-768). */
    method MarkUploading(fileId: string, start: int, total: int)
      modifies this
      ensures State() == Started(old(State()), fileId, start, total)
    {
      SetTransferFlags(true, false);
      isCancelled := false;
      SetChunkCounts(start, total);
      currentUploadFileId := fileId;
      uiState := Uploading;
    }

    /** A fresh start saves the blob (when IndexedDB accepts it) and writes the first checkpoint, at chunk -1 (lines 771-792). */
    method SaveFirstCheckpoint(fileId: string, file: File, total: int, now: nat, blobSaveOk: bool)
      modifies this
      ensures State() == FreshCheckpoint(old(State()), fileId, file, total, now, blobSaveOk)
    {
      if blobSaveOk {
        blobs := blobs[fileId := file.data];
      }
      SaveCheckpoint(Some(UploadRecord(fileId, file.name, |file.data|, -1, total, now)));
    }

    /**
     * The WebSocket effect's connect step (lines 306-316): a socket is
     * opened for a known job while one is being completed or processed and
     * none is open; opening it lowers the cancel flag.
     */
    method OpenProgressChannel() returns (connected: bool)
      modifies this
      ensures connected <==> old(jobId) != "" && !old(socketOpen) && (old(uiState) == Processing || old(uiState) == Completing)
      ensures State() == if connected then old(State()).(socketOpen := true, isCancelled := false) else old(State())
    {
      connected := jobId != "" && !socketOpen && (uiState == Processing || uiState == Completing);
      if connected {
        isCancelled := false;
        socketOpen := true;
      }
    }

    /** `onopen`: subscribes to the job and shows it as processing (lines 318-332). */
    method OnOpen() returns (subscribedJobId: string)
      modifies this
      ensures subscribedJobId == old(jobId)
      ensures State() == old(State()).(uiState := Processing)
    {
      subscribedJobId := jobId;
      uiState := Processing;
    }

    /** `onmessage` (lines 334-389); `msg` is `None` when the message does not parse. */
    method OnMessage(msg: Option<ProgressEvent>, now: nat)
      requires Valid()
      modifies this
      ensures Valid()
      ensures State() == Receive(old(State()), msg, now)
    {
      if msg.None? {
        return;
      }
      var message := msg.value;
      if jobId != "" && message.jobId == jobId && message.kind == "progress"
         && currentUploadFileId == (if FileIdOf(resumeState) != "" then FileIdOf(resumeState) else currentUploadFileId)
      {
        var fileId := currentUploadFileId;
        ShowProgress(message, now);
        if message.status == "completed" || message.status == "failed" {
          FinishJob(fileId, message.status);
        }
      }
    }

    /** A relevant report is shown, and written into the checkpoint when that is this job's (lines 343-357). */
    method ShowProgress(message: ProgressEvent, now: nat)
      requires Valid() && Relevant(State(), message)
      modifies this
      ensures Valid()
      ensures State() == Shown(old(State()), message, now)
    {
      SetProcessingDisplay(message.progress, message.status);
      if stored.Some? && stored.value.fileId == currentUploadFileId && JobIdOf(stored.value) == jobId {
        SaveCheckpoint(Some(stored.value.(processingProgress := message.progress, processingStatus := message.status, timestamp := now)));
      }
    }

    /** A final report clears the job away and finishes (lines 361-372). */
    method FinishJob(fileId: string, status: string)
      requires Valid()
      modifies this
      ensures Valid()
      ensures State() == FinishedJob(old(State()), fileId, status)
    {
      ClearLocalJobState(fileId);
      videoProcessingStatus := status;
      uiState := Finished;
    }

    /** `onerror`: the job is still shown as processing (lines 391-397). */
    method OnError()
      modifies this
      ensures State() == old(State()).(uiState := Processing)
    {
      uiState := Processing;
    }

    /**
     * `onclose` (lines 399-418): the socket is gone; an abnormal close
     * keeps the job shown as processing. No reconnection is scheduled.
     */
    method OnClose(code: int)
      modifies this
      ensures State() == old(State()).(socketOpen := false,
                                       uiState := if AbnormalClose(old(isCancelled), code, old(videoProcessingStatus)) then Processing else old(uiState))
    {
      socketOpen := false;
      if !isCancelled && code != 1000 && code != 1001 && videoProcessingStatus != "completed" && videoProcessingStatus != "failed" {
        uiState := Processing;
      }
    }
  }
}
