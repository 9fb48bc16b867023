# Resumable chunked video upload: the `useUploaderLogic` hook

`src/useUploaderLogic.js` is a React hook that drives a resumable video upload.

- **Chunking.** A file is cut into 512 KiB chunks. The chunks are sent to the server one at a time, in ascending order.
- **Checkpoint.** After every acknowledged chunk, a checkpoint record is written to localStorage. The file itself is kept in IndexedDB under a minted `fileId`.
- **Restart.** After a page reload, the hook reconciles what it finds in both stores. The user must then pick the same file again to resume.
- **Completion and progress.** Once every chunk is acknowledged, a completion request turns the transfer into a processing job. The hook then follows that job over a WebSocket until a final `completed` or `failed` status.
- **Cancellation.** Cancelling, and "upload a new file instead", are two-phase actions: a modal first, then a confirmation. Confirming reports the old job to the server and clears everything kept locally.

The project models this hook in five modules.

- `Wrappers`: `Option`.
- `Chunking`: the chunk arithmetic (`CeilChunks`, `Blob.slice`, chunk boundaries) and the run of chunk requests a transfer sends.
  - Chunks tile the file.
  - A complete transfer delivers exactly the file's bytes, in order.
- `Checkpoint`: the three shapes of the stored record.
  - How a fresh upload mints its `fileId`.
  - The prefix test that matches a picked file against the checkpoint.
  - Which identifier a cancellation reports (`src/api.js`).
  - The start-up decision `Reconcile`.
- `HookSpec`: the hook's whole state as one value, `HookState`, with one function per handler giving the state it ends in, and lemmas that relate handlers to one another. The state holds:
  - the React state;
  - `isCancelledRef`;
  - whether a socket is open;
  - the localStorage record `stored`;
  - the IndexedDB store `blobs`.
- `UploaderHook`: the hook as a class `Uploader` whose fields are that state.
  - Each handler, effect and WebSocket callback is a method that updates the fields step by step, like the JavaScript.
  - The chunk loop is a `while` loop.
  - Each method's `ensures` gives its exact end state, in most cases as the matching `HookSpec` function, so every lemma about those functions holds of the methods. The socket callbacks `OnOpen`, `OnError` and `OnClose`, `OpenProgressChannel`, and the four modal handlers `CancelUpload`, `DismissCancelModal`, `UploadNewAndCancelOld` and `DismissUploadNewModal` state it directly, as an update of the state before the call.

Inputs from outside the hook are parameters:

| Parameter | Stands for |
|---|---|
| `reply(k)` | the server's answer to the request for chunk `k`. `Acked(cancelRaised)` also says whether the cancel flag was raised from outside the loop while that request was in flight. Only closing an open socket raises it (lines 71 and 424). |
| `completion` | the job id returned by the completion request; `None` when that request fails. |
| `blobSaveOk` | whether IndexedDB accepts the blob. |
| `now` | `Date.now()`. |

JavaScript `null`, `undefined` and `""` in identifier fields are all written `""`. The hook tests them for truthiness or compares them with `===` against an id that is present. The one unguarded use, at line 688, is listed under "## Left out".

Class invariant `Valid()`, which every handler that may break it is proved to keep:
- `resumeState` mirrors the stored record;
- that record belongs to `currentUploadFileId`;
- a stored processing record names its job.

Behaviours of the code that the model follows:
- A picked file matches the checkpoint when the checkpoint's `fileId` merely starts with `name-size` (lines 474-476). The checkpoint's own name and size are never compared, so a different file can be taken for the one being resumed (`PrefixMatchAdmitsOtherSize`). The comment at line 715 speaks of the name and size as matched; the code tests only the prefix.
- A fresh upload writes its first checkpoint at `lastChunkIndex = -1`, before any chunk is sent (lines 782-791).
- A failed or empty completion leaves the upload checkpoint in place and goes to `ready_to_upload_new`, not to an error state (lines 921-936). Retrying then sends no chunk and asks for completion again (`RetryAfterFailedCompletion`).
- The comment at line 933 says that picking another file after a failed completion clears that checkpoint. The code does not: a file that does not match goes to `resume_mismatch_choice` and the checkpoint stays (lines 504-520). Choosing the original again and re-picking it resumes against the same record (`PickedMismatch`, `MismatchKeepsCheckpoint`).
- On resume, the chunk count comes from the re-picked file (line 716), but the bytes come from the blob stored under the checkpoint's `fileId` (line 731).

## Model

| member | source | states |
|---|---|---|
| Chunking.CeilChunks | src/useUploaderLogic.js:764 | `Math.ceil(size / CHUNK_SIZE)` with CHUNK_SIZE = 524288 (line 11): the count `n` satisfies `(n-1)·C < size <= n·C` |
| Chunking.CeilChunksOfSize | src/useUploaderLogic.js:207-209 | a positive size gives a positive chunk count, a size of 0 gives none, a non-positive size never a positive count |
| Chunking.SliceOffset | src/useUploaderLogic.js:808 | a `Blob.slice` offset lies within the blob and is the offset itself when already in range |
| Chunking.Slice | src/useUploaderLogic.js:806-808 | `slice(start, end)` is exactly `data[start..end]` for an in-range `start <= end`, and never longer than the blob |
| Chunking.ChunkTiling | src/useUploaderLogic.js:805-808 | chunks `0 .. ceil(size/C)-1` are non-empty, at most C bytes, start at 0, each ends where the next begins, and the last ends at `size` |
| Chunking.ChunkOf | src/useUploaderLogic.js:806-808 | computes the payload of chunk `i`: `slice(i * C, min(i * C + C, size))` of the bytes sent |
| Chunking.Requests | src/useUploaderLogic.js:805-851 | computes the chunk requests for chunks `lo` .. `hi - 1`, in the order the loop sends them, each with the upload's `fileId`, its index and its payload |
| Chunking.RequestsElements | src/useUploaderLogic.js:805-851 | the loop's requests from chunk `lo` below `hi` number `hi-lo`, and the `j`-th is for chunk `lo+j`, carrying that chunk's bytes under the same `fileId` |
| Chunking.RequestsSnoc | src/useUploaderLogic.js:805-851 | one more turn of the loop appends exactly the request for the next chunk index |
| Chunking.RequestsReassemble | src/useUploaderLogic.js:800-851 | sending every chunk from `from` on delivers the file's bytes from chunk `from` on, in order, with no gap or repetition (from 0: the whole file) |
| Checkpoint.Decimal | src/useUploaderLogic.js:761 | a number rendered in a template literal is a non-empty string of digits |
| Checkpoint.MatchKey | src/useUploaderLogic.js:474 | computes `name-size` of a file, the prefix a checkpoint's `fileId` is tested against |
| Checkpoint.MintFileId | src/useUploaderLogic.js:761 | a fresh `fileId` `name-size-timestamp` starts with the match key `name-size` and is longer than it |
| Checkpoint.MintedIdMatches | src/useUploaderLogic.js:474-476 | re-picking the file a fresh upload started with always matches that upload's checkpoint |
| Checkpoint.Matches | src/useUploaderLogic.js:474-476 | computes the resume test: the checkpoint is an upload in progress whose non-empty `fileId` starts with `name-size` of the picked file; its own name and size are not compared |
| Checkpoint.PrefixMatchAdmitsOtherSize | src/useUploaderLogic.js:474-476 | the prefix test matches a one-byte file "a" against the ten-byte upload "a-10-7": a file of another size is taken for the checkpoint's |
| Checkpoint.CancelTarget | src/api.js:62-76 | a cancellation is sent iff the checkpoint has a job id or a file id; it reports the job id, typed 'jobId', when there is one, else the file id, typed 'fileId' |
| Checkpoint.Without | src/useUploaderLogic.js:59-66 | deleting blob `fileId` removes exactly that key (nothing when `fileId` is empty) and keeps every other blob unchanged |
| Checkpoint.Reconcile | src/useUploaderLogic.js:195-301 | no record gives nothing to do; an upload record is kept iff its chunk count is positive and its blob is present (when it names one); a processing record is kept iff it names a job; everything else is discarded with its `fileId` |
| HookSpec.IsProcessing | src/useUploaderLogic.js:962 | computes `isProcessing`: chunks being sent, the transfer being completed, or `uiState` `processing` |
| HookSpec.ShowUploadNewButton | src/useUploaderLogic.js:947 | computes the flag: `uiState` is `initial` or `ready_to_upload_new` |
| HookSpec.ShowResumeUploadButton | src/useUploaderLogic.js:949 | computes the flag: `uiState` is `ready_to_resume_upload` |
| HookSpec.ShowUploadNewAndCancelOldButton | src/useUploaderLogic.js:951 | computes the flag: `uiState` is `resume_mismatch_choice` |
| HookSpec.ShowSelectOriginalButton | src/useUploaderLogic.js:953 | computes the flag: `uiState` is `resume_mismatch_choice` |
| HookSpec.ShowCancelButton | src/useUploaderLogic.js:955 | computes the flag: `uiState` is neither `initial` nor `finished` |
| HookSpec.FileToDisplayInLabel | src/useUploaderLogic.js:959 | computes the file the label names: the mismatched file during the mismatch choice, the selected file otherwise |
| HookSpec.LabelShowsPickedFile | src/useUploaderLogic.js:458-559 | after any pick the label names the picked file, whether it resumes, is a mismatch or is new; after "choose the original file again" it names none |
| HookSpec.ButtonsExclusive | src/useUploaderLogic.js:947-955 | start, resume and the mismatch choice are never offered together; the two mismatch buttons come together; resume or the mismatch choice always comes with Cancel |
| HookSpec.Consistent | src/useUploaderLogic.js:782-792 | computes the invariant every handler keeps: `resumeState` mirrors the stored record, the record belongs to `currentUploadFileId`, and a stored processing record names its job |
| HookSpec.Pristine | src/useUploaderLogic.js:17-49 | the first render holds the reset values over whatever the two stores contain |
| HookSpec.Reset | src/useUploaderLogic.js:84-101 | `resetUploader` sets selection, flags, counters, processing display, `uiState` `initial` and the cancel flag to their initial values, and changes nothing else |
| HookSpec.ClearLocal | src/useUploaderLogic.js:56-81 | `clearLocalJobState` removes the record, deletes the named blob, closes an open socket with the cancel flag raised first, forgets the job's ids and in-memory checkpoint, and leaves the UI alone |
| HookSpec.Mounted | src/useUploaderLogic.js:195-301 | after both mount effects, `uiState` is `pending_resume_select_file` iff `Reconcile` keeps an upload, `processing` iff it keeps a job, else `initial`; a kept record stays with the blobs untouched, a discarded one is removed with its blob; the counters and job id are restored from it |
| HookSpec.Restored | src/useUploaderLogic.js:195-272 | computes the first mount effect: no record leaves `initial`; a record that is not uploading or processing is removed with its blob and the hook reset; an upload with a positive chunk count waits for its file with the counters restored; a job with an id is watched again; any other in-progress record is cleared away |
| HookSpec.BlobChecked | src/useUploaderLogic.js:275-301 | computes the blob check: an upload checkpoint naming a `fileId` whose blob is absent is cleared away and the hook reset; anything else is left as it is |
| HookSpec.MountEffectsReconcile | src/useUploaderLogic.js:195-301 | the two effects run one after the other, first the restore then the blob check, end exactly in `Mounted` |
| HookSpec.SelectEffects | src/useUploaderLogic.js:439-542 | a file-input change never touches the checkpoint, the blobs, the file id or the socket. A picked file becomes the selection. It is ready to resume iff it matches; it is a mismatch choice iff it does not match while an upload or job is pending; otherwise it is a new upload with counters zeroed. A dismissed dialog keeps `uiState` |
| HookSpec.Select | src/useUploaderLogic.js:439-542 | computes `handleFileChange`: a dismissed dialog is `Dismissed`, a picked file `Picked` |
| HookSpec.Dismissed | src/useUploaderLogic.js:443-456 | computes the dismissed dialog: nothing while waiting for the original file, both picked files dropped during the mismatch choice, the selection dropped in any other idle state but `initial` and `finished` |
| HookSpec.Picked | src/useUploaderLogic.js:458-542 | computes a pick: a matching file is ready to resume with the job display cleared; another file while an upload or job is pending is held for the mismatch choice; otherwise it is a new upload with the counters and flags zeroed |
| HookSpec.DismissedEffects | src/useUploaderLogic.js:443-456 | a dismissed dialog changes at most the selection; it clears the mismatched file only in the mismatch choice, and changes nothing while waiting for the original file |
| HookSpec.PickedEffects | src/useUploaderLogic.js:458-542 | the three outcomes of a pick, with the checkpoint, the blobs, the file id and the socket unchanged |
| HookSpec.PickedMatching | src/useUploaderLogic.js:479-502 | a matching pick clears the mismatched file, selects the file, goes to `ready_to_resume_upload` and clears the job display, and changes nothing else |
| HookSpec.PickedMismatch | src/useUploaderLogic.js:504-520 | a non-matching pick while an upload or job is pending holds the file in both fields and goes to `resume_mismatch_choice`, and changes nothing else |
| HookSpec.PickedNew | src/useUploaderLogic.js:504-534 | a pick with nothing pending holds the file in both fields, zeroes the counters and flags and goes to `ready_to_upload_new`, and changes nothing else |
| HookSpec.SelectOriginal | src/useUploaderLogic.js:552-559 | choosing the original file again drops both picked files and waits for a pick, keeping the checkpoint and the blobs |
| HookSpec.MismatchKeepsCheckpoint | src/useUploaderLogic.js:458-559 | a mismatched pick, then "choose the original file", then the matching pick ends ready to resume against the same record and blobs |
| HookSpec.Cancelled | src/useUploaderLogic.js:569-596 | after `confirmCancel` the modal is closed, no record is stored, the blobs are `Without` the checkpoint's blob, so every other blob is kept with its bytes, the job ids are cleared, the socket closed and the UI reset |
| HookSpec.CancelLowersFlag | src/useUploaderLogic.js:69-74 | the cancel flag is raised while an open socket is closed, but lowered again by the reset that follows |
| HookSpec.CancelMidTransferRestoresCheckpoint | src/useUploaderLogic.js:835-845 | after a cancellation no record is stored and the cancel flag is down, yet an acknowledgement of chunk `k` by a loop still running writes back the checkpoint for chunk `k` |
| HookSpec.CancelledCloseIsAbnormal | src/useUploaderLogic.js:399-408 | after a cancellation, the close event of the socket it closed counts as abnormal exactly when its code is neither 1000 nor 1001 |
| HookSpec.TransferStep | src/useUploaderLogic.js:805-865 | one turn of the chunk loop: a refusal ends the transfer at that chunk; an acknowledgement ends it there when the cancel flag was raised, else hands it on to the next chunk |
| HookSpec.Transfer | src/useUploaderLogic.js:799-865 | computes how the chunk loop ends: at the first refused chunk, just after an acknowledgement that found the cancel flag raised, or once every chunk from `start` below `total` is sent |
| HookSpec.TransferEnds | src/useUploaderLogic.js:805-873 | every chunk before the one that ends the loop was acknowledged with the flag down; a loop ends at a refused chunk in range, just after the acknowledgement that found the flag raised, or after all chunks |
| HookSpec.PlanUpload | src/useUploaderLogic.js:687-793 | a matching pick resumes the checkpoint's `fileId` from `lastChunkIndex+1`, with the chunk count of the picked file and the bytes of the stored blob, or stops when that blob is missing; any other pick starts at chunk 0 under a newly minted id |
| HookSpec.Begin | src/useUploaderLogic.js:686-792 | computes the state the chunk loop starts from: `Started`, followed by `FreshCheckpoint` on a fresh start |
| HookSpec.Started | src/useUploaderLogic.js:700-769 | computes the fields set before any chunk is sent: uploading, not completing, flag down, the counters at `start` of `total`, the run's `fileId`, `uiState` `uploading` |
| HookSpec.FreshCheckpoint | src/useUploaderLogic.js:771-792 | computes a fresh start's first checkpoint: the blob kept under the new id when saving succeeds, and a record at chunk -1 of `total`, stored and mirrored in `resumeState` |
| HookSpec.AckedThrough | src/useUploaderLogic.js:835-846 | computes the state once chunks `start` .. `last` are acknowledged: the checkpoint names `last`, stored and mirrored, and `last + 1` chunks counted; nothing when `last < start` |
| HookSpec.AckedThroughNext | src/useUploaderLogic.js:835-846 | acknowledging chunk `k` rewrites the checkpoint from chunk `k-1` to chunk `k` with the same `fileId`, name, size and total, and sets `uploadedChunks` to `k+1` |
| HookSpec.AfterLoop | src/useUploaderLogic.js:853-879 | computes the state when the loop is over: acknowledged through the last acked chunk, then ready to resume after a refusal, flag raised after a cancellation, completing after all chunks went out |
| HookSpec.FailedBlobSaveClearedByRecheck | src/useUploaderLogic.js:275-301 | when saving a fresh upload's blob failed, the blob check re-run after the first checkpoint or after any acknowledgement clears the record and the in-memory checkpoint and resets the hook to `initial` mid-run, the blobs unchanged |
| HookSpec.AfterLoopConsistent | src/useUploaderLogic.js:799-879 | the loop keeps the stored record and `resumeState` equal and under the upload's `fileId` |
| HookSpec.CompletedConsistent | src/useUploaderLogic.js:882-942 | the completion answer keeps the record and the hook's ids in step, and a processing record names its job |
| HookSpec.Completed | src/useUploaderLogic.js:882-942 | computes the answer to the completion request: a non-empty job id deletes the blob, stores a processing record for that job at progress 0 and goes to `processing`; otherwise the checkpoint stays and the hook goes to `ready_to_upload_new`; the completing flag is lowered either way |
| HookSpec.RunTransfer | src/useUploaderLogic.js:686-942 | computes one run from the loop's start state: what the loop sends, the completion request when every chunk went out, and the state `RunAfter` leaves |
| HookSpec.RunAfter | src/useUploaderLogic.js:853-942 | computes the state a run leaves: `AfterLoop`, followed by `Completed` when every chunk went out |
| HookSpec.RunTransferEffects | src/useUploaderLogic.js:799-942 | completion is requested iff every chunk was acknowledged, for `fileId`, the total and the file name; it then ends in `processing` iff the server named a job, else `ready_to_upload_new`; the requests sent are those from `start` up to where the loop stopped |
| HookSpec.RunAfterEffects | src/useUploaderLogic.js:853-942 | a run keeps the selected file and ends with `isUploading` false; after a complete transfer it is in `processing` exactly when a non-empty job id came back, else `ready_to_upload_new` |
| HookSpec.UploadSpec | src/useUploaderLogic.js:685-943 | `handleUpload` keeps the selection; with no file it resets and sends nothing; with the blob to resume missing it sends nothing, raises the cancel modal and leaves the stores alone |
| HookSpec.FreshUploadDeliversFile | src/useUploaderLogic.js:749-885 | a fresh upload whose chunks are all acknowledged sends exactly the picked file's bytes, in order, and asks to complete the minted id with its chunk count and name; before any chunk the checkpoint under that id is written at chunk -1 |
| HookSpec.ResumeRunsFromCheckpoint | src/useUploaderLogic.js:711-731 | a matched pick with its blob present runs the loop over that blob, under the checkpoint's id, from the chunk after the last acknowledged one |
| HookSpec.ResumeContinuesFromCheckpoint | src/useUploaderLogic.js:711-851 | a resumed upload sends chunk `lastChunkIndex+1` first, then each next index in turn, each cut from the stored blob |
| HookSpec.ResumeKeepsFileId | src/useUploaderLogic.js:711-845 | every checkpoint a resumed upload writes keeps the resumed `fileId` |
| HookSpec.RunTransferKeepsFileId | src/useUploaderLogic.js:835-911 | a run writes checkpoints under its own `fileId` only |
| HookSpec.RefusalKeepsLastAck | src/useUploaderLogic.js:853-864 | a refused chunk stops the loop: that chunk is the last request, no completion is requested, `uiState` is `ready_to_resume_upload`, and the checkpoint names the chunk before it (or stays as the run began) |
| HookSpec.FailedCompletionKeepsCheckpoint | src/useUploaderLogic.js:926-941 | a failed or empty completion leaves the checkpoint at the last chunk with the blobs kept, and goes to `ready_to_upload_new` with both transfer flags down |
| HookSpec.FailedRunAwaitsRetry | src/useUploaderLogic.js:921-941 | after a failed completion the hook is ready for a new upload with the same file still selected, and the request made was for the planned transfer |
| HookSpec.FailedRunIsResumable | src/useUploaderLogic.js:782-845 | after a failed completion the checkpoint still names that transfer, past its last chunk, and the selected file matches it with its blob in place |
| HookSpec.FailedFreshRunIsResumable | src/useUploaderLogic.js:761-845 | for a fresh run: the checkpoint is the minted id's at the last chunk, and the blob is saved |
| HookSpec.FailedResumedRunIsResumable | src/useUploaderLogic.js:711-845 | for a resumed run: the checkpoint keeps its id and name and names the last chunk (or is unchanged when no chunk was due), and the blobs are unchanged |
| HookSpec.RetryAfterFailedCompletion | src/useUploaderLogic.js:714-936 | retrying after a failed completion resumes at `lastChunkIndex+1 = totalChunks`, sends no chunk, and asks to complete the same transfer again |
| HookSpec.Shown | src/useUploaderLogic.js:343-357 | computes a relevant report shown: its progress and status on display and, when `PersistsProgress`, written into the stored record with the current time |
| HookSpec.ShownEffects | src/useUploaderLogic.js:343-357 | a shown report is on display; the stored record changes only when it is this job's, and then only its progress, status and timestamp; the UI state, ids, blobs and socket stay; the invariant is kept |
| HookSpec.FinishedJob | src/useUploaderLogic.js:361-372 | computes a final report: the job cleared away as `ClearLocal` does, the final status left on display and `uiState` `finished` |
| HookSpec.ReceiveEffects | src/useUploaderLogic.js:334-389 | an unparseable or irrelevant message changes nothing; a relevant one shows its progress and persists it as above; a final `completed`/`failed` clears the record, the blob, the socket and the job and ends in `finished` with that status shown |
| HookSpec.Receive | src/useUploaderLogic.js:334-389 | computes `onmessage`: an unparseable or irrelevant message changes nothing; a relevant one is `Shown`, and a final one then clears the job and finishes |
| HookSpec.Relevant | src/useUploaderLogic.js:342 | computes the filter: there is a job, the message is for it, its type is `progress`, and the file ids agree |
| HookSpec.PersistsProgress | src/useUploaderLogic.js:349-350 | computes when a report is written into the stored record: the record's `fileId` is the current one and its job id the current job |
| HookSpec.AbnormalClose | src/useUploaderLogic.js:404 | computes the abnormal close: not cancelled by the client, code neither 1000 nor 1001 (section 7.4.1 of RFC 6455), no final status shown |
| HookSpec.ForeignMessagesIgnored | src/useUploaderLogic.js:342-383 | any run of messages that are not this job's progress reports leaves the hook exactly as it was |
| HookSpec.FinishedIsFinal | src/useUploaderLogic.js:361-372 | after a final report the hook is `finished`, and no later message changes it |
| HookSpec.ReplaceJob | src/useUploaderLogic.js:625-670 | the upload-new confirmation closes its modal, clears the old job with its blob when there is one to report, zeroes the counters, keeps the selection, and leaves no checkpoint any file could match |
| HookSpec.ReplaceJobClosesModal | src/useUploaderLogic.js:625 | closing the modal beforehand makes no difference to the confirmation |
| HookSpec.ReplaceStartsFresh | src/useUploaderLogic.js:637-675 | "upload the new file" always starts the selected file afresh from chunk 0 under a newly minted id |
| UploaderHook.Uploader.constructor | src/useUploaderLogic.js:17-49 | the first render: the initial values over the stores' contents |
| UploaderHook.Uploader.ClearLocalJobState | src/useUploaderLogic.js:56-81 | ends in `ClearLocal` of the old state and keeps the invariant |
| UploaderHook.Uploader.DropSocket | src/useUploaderLogic.js:69-74 | an open socket is closed with the cancel flag raised; nothing else changes |
| UploaderHook.Uploader.ForgetJob | src/useUploaderLogic.js:76-78 | forgets the file id, job id and in-memory checkpoint; nothing else changes |
| UploaderHook.Uploader.ResetUploader | src/useUploaderLogic.js:84-101 | ends in `Reset` of the old state |
| UploaderHook.Uploader.SetSelection | src/useUploaderLogic.js:89-90 | sets `selectedFile` and `fileSelectedButNotMatching`; nothing else changes |
| UploaderHook.Uploader.SetTransferFlags | src/useUploaderLogic.js:92-93 | sets `isUploading` and `isCompletingUpload`; nothing else changes |
| UploaderHook.Uploader.SetChunkCounts | src/useUploaderLogic.js:94-95 | sets `uploadedChunks` and `totalChunks`; nothing else changes |
| UploaderHook.Uploader.SetProcessingDisplay | src/useUploaderLogic.js:96-97 | sets the processing progress and status on display; nothing else changes |
| UploaderHook.Uploader.SaveCheckpoint | src/useUploaderLogic.js:844-845 | writes the localStorage record and `resumeState` together, to the same value; nothing else changes |
| UploaderHook.Uploader.Mount | src/useUploaderLogic.js:195-301 | from the first render, both mount effects end in `Mounted` of the stores found and establish the invariant |
| UploaderHook.Uploader.RestoreSaved | src/useUploaderLogic.js:195-272 | the first mount effect ends in `Restored` |
| UploaderHook.Uploader.DiscardSaved | src/useUploaderLogic.js:248-258 | a record neither uploading nor processing is removed with its blob and the hook reset |
| UploaderHook.Uploader.RestoreUpload | src/useUploaderLogic.js:201-226 | an upload record is restored with its counters, or cleared away when its size gives no chunks |
| UploaderHook.Uploader.RestoreJob | src/useUploaderLogic.js:227-245 | a processing record restores its job and progress, or is cleared away without a job id |
| UploaderHook.Uploader.CheckResumeBlob | src/useUploaderLogic.js:275-301 | ends in `BlobChecked`: an upload to resume whose blob is gone is cleared away |
| UploaderHook.Uploader.Busy | src/useUploaderLogic.js:962 | computes `isProcessing` over the current fields |
| UploaderHook.Uploader.FileChange | src/useUploaderLogic.js:439-542 | ends in `Select` of the old state and keeps the invariant |
| UploaderHook.Uploader.DismissPicker | src/useUploaderLogic.js:443-456 | ends in `Dismissed` |
| UploaderHook.Uploader.Pick | src/useUploaderLogic.js:458-542 | ends in `Picked` |
| UploaderHook.Uploader.CancelUpload | src/useUploaderLogic.js:545-548 | only raises the cancel modal |
| UploaderHook.Uploader.SelectOriginalFile | src/useUploaderLogic.js:552-559 | ends in `SelectOriginal` |
| UploaderHook.Uploader.DismissCancelModal | src/useUploaderLogic.js:562-566 | only lowers the cancel modal |
| UploaderHook.Uploader.ConfirmCancel | src/useUploaderLogic.js:569-596 | reports `CancelTarget` of the checkpoint, ends in `Cancelled`, keeps the invariant |
| UploaderHook.Uploader.UploadNewAndCancelOld | src/useUploaderLogic.js:600-612 | with no file selected resets, otherwise only raises the upload-new modal |
| UploaderHook.Uploader.DismissUploadNewModal | src/useUploaderLogic.js:615-619 | only lowers the upload-new modal |
| UploaderHook.Uploader.ConfirmUploadNewAndCancelOld | src/useUploaderLogic.js:622-680 | with no file selected closes the modal and resets; otherwise reports the old job's `CancelTarget`, then uploads as `UploadSpec` of `ReplaceJob` of the old state and clears the mismatched file |
| UploaderHook.Uploader.RetireOldJob | src/useUploaderLogic.js:637-670 | reports the old job's `CancelTarget` and ends in `ReplaceJob` |
| UploaderHook.Uploader.RecordAck | src/useUploaderLogic.js:835-846 | after chunk `k` is acknowledged the stored record and `resumeState` name chunk `k` and `uploadedChunks` is `k+1`; nothing else changes |
| UploaderHook.Uploader.AckChunk | src/useUploaderLogic.js:835-851 | an acknowledgement advances the checkpoint from `AckedThrough … k-1` to `AckedThrough … k`, the cancel flag being as the reply found it |
| UploaderHook.Uploader.AckLoop | src/useUploaderLogic.js:799-865 | the `while` loop ends as `Transfer` says, has sent exactly the requests from `start` up to where it stopped, and leaves the checkpoint at the last acknowledged chunk |
| UploaderHook.Uploader.SendChunks | src/useUploaderLogic.js:799-879 | the loop and the lines after it end in `AfterLoop` and keep the invariant |
| UploaderHook.Uploader.RaiseCancelFlag | src/useUploaderLogic.js:805 | the cancel flag the loop tests goes up, raised from outside the loop; nothing else changes |
| UploaderHook.Uploader.HaltOnRefusal | src/useUploaderLogic.js:853-864 | a refused chunk lowers `isUploading` and goes to `ready_to_resume_upload` |
| UploaderHook.Uploader.EnterCompleting | src/useUploaderLogic.js:875-879 | every chunk sent: `isUploading` down, `isCompletingUpload` up, `uiState` `completing` |
| UploaderHook.Uploader.FinishTransfer | src/useUploaderLogic.js:882-942 | ends in `Completed` and keeps the invariant |
| UploaderHook.Uploader.AcceptCompletion | src/useUploaderLogic.js:889-920 | a non-empty job id deletes the blob, writes a processing record for that job at progress 0, shows the job and goes to `processing` |
| UploaderHook.Uploader.ShowJob | src/useUploaderLogic.js:913-918 | sets the job id with its progress and status on display; nothing else changes |
| UploaderHook.Uploader.Upload | src/useUploaderLogic.js:685-943 | `handleUpload` ends in the state `UploadSpec` computes and issues exactly its chunk and completion requests, keeping the invariant |
| UploaderHook.Uploader.BeginUpload | src/useUploaderLogic.js:686-793 | follows `PlanUpload`: ready iff it plans a send, then in `Begin`'s state with the planned id, file, start and total; with the blob missing the cancel modal is raised |
| UploaderHook.Uploader.MarkUploading | src/useUploaderLogic.js:700-769 | ends in `Started`: uploading, cancel flag down, counters and file id of the run, `uiState` `uploading` |
| UploaderHook.Uploader.SaveFirstCheckpoint | src/useUploaderLogic.js:771-792 | ends in `FreshCheckpoint`: the blob is saved when IndexedDB accepts it, and the record is written at chunk -1 |
| UploaderHook.Uploader.OpenProgressChannel | src/useUploaderLogic.js:306-316 | a socket is opened iff there is a job, none is open, and the hook is `processing` or `completing`; opening lowers the cancel flag |
| UploaderHook.Uploader.OnOpen | src/useUploaderLogic.js:318-332 | subscribes to the current job and shows `processing` |
| UploaderHook.Uploader.OnMessage | src/useUploaderLogic.js:334-389 | ends in `Receive` and keeps the invariant |
| UploaderHook.Uploader.ShowProgress | src/useUploaderLogic.js:343-357 | ends in `Shown` and keeps the invariant |
| UploaderHook.Uploader.FinishJob | src/useUploaderLogic.js:361-372 | ends in `FinishedJob` and keeps the invariant |
| UploaderHook.Uploader.OnError | src/useUploaderLogic.js:391-397 | keeps the job shown as `processing` |
| UploaderHook.Uploader.OnClose | src/useUploaderLogic.js:399-418 | the socket is gone; `uiState` becomes `processing` exactly on an abnormal close (not client-cancelled, code not 1000/1001, no final status); no reconnection is scheduled |

## Left out

- Status messages, upload percentages (`Math.round`, the 99 % cap, MB formatting) and `uploadProgress`: display only, never read back by the logic.
- Timing and interleaving of React effects, `setState` batching and stale closures. Each handler acts on one current snapshot of the fields. The flag raised from outside the chunk loop is the `Acked(true)` reply.
- A cancellation confirmed while the chunk loop awaits a reply is not interleaved with the loop. In the source it does not stop the loop, because the reset lowers the flag again (line 100), and the next acknowledgement writes back the checkpoint the cancellation removed (lines 835-845). `CancelMidTransferRestoresCheckpoint` states the two facts this rests on. Likewise, the close event of the socket a cancellation closes counts as abnormal for any code but 1000 and 1001 (`CancelledCloseIsAbnormal`), so it can put `uiState` back to `processing` after the reset. Whether that happens depends on the code the browser reports. The same holds for "upload the new file": `clearLocalJobState` closes the old job's socket with the flag raised (line 648), `handleUpload`, called at line 674, lowers the flag again at line 702, and a close code other than 1000 and 1001 then puts `uiState` to `processing` in the middle of the new upload.
- The WebSocket effect's cleanup (lines 420-427), and `onmessage` reading the `jobId` captured when the socket was opened. The effect depends on `uiState`, `videoProcessingStatus` and `clearLocalJobState`, which is a new function on every render (lines 56 and 433). So the source closes the socket (raising the flag) and opens it again after every re-render while one is open. The model keeps one socket open until `clearLocalJobState` or a close event. It reads the current `jobId`, and a report is relevant only while there is one.
- An uploading record without a `fileId` survives the mount (`Reconcile` keeps it). The source's `handleUpload` then calls `startsWith` on the missing id without a guard (line 688) and throws. The model applies the guarded test of line 476 there too (`Matches`), so it starts a fresh upload instead.
- The blob check (lines 275-301) depends on `resumeState` (line 301), so it runs again after every checkpoint write (lines 792 and 845), not only at mount as `Mount` models it. With the blob present this changes nothing. When saving the blob of a fresh upload failed (`blobSaveOk` false), the source clears the upload away in the middle of the run; `FailedBlobSaveClearedByRecheck` states that step.
- RefusalKeepsLastAck, FreshUploadDeliversFile and the other lemmas about the state after a run: they do not capture those mid-run re-checks. With `blobSaveOk` false, the checkpoint they describe is one the source has already cleared.
- A stored record or a WebSocket message that is not valid JSON. A message that does not parse is `None` and changes nothing, as in the source. A record that does not parse is not modelled.
- A non-numeric `fileSize`, which makes `Math.ceil` NaN. Sizes are integers here, so only the `<= 0` half of the test at line 209 is reachable.
- Errors thrown by IndexedDB reads and deletes. Only whether saving the blob succeeds is a parameter (`blobSaveOk`). Every delete is taken to succeed.
- `performCancellation` and `performUploadNewAndCancelOldLogic` (lines 104-189): unreferenced duplicates of the confirm handlers.
- `src/VideoUploader.jsx`, `src/App.js`, `src/HlsVideoPlayer.jsx`: presentation and a media player, not part of this model.
- `uploadChunk` in `src/api.js`: it is not used by the hook, which inlines its own `fetch`.
- The network, the clock and IndexedDB's transactions. These are the parameters `reply`, `completion`, `now` and `blobSaveOk`, and the map `blobs`.
- The timestamps the handlers store, which are taken to be `now`. The hook calls `Date.now()` several times per run; each call is modelled as the same `now`.
- Chunking.Slice: its contract states only the in-range case the loop relies on. The clamping of other offsets is in its body, and MIME types are not modelled.
