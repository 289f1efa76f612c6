# Notez AI upload pipeline — a verified model

Notez AI turns an uploaded MP4 into three things:
- an MP3 that can be downloaded,
- a transcript,
- a summary with action items.

This project models the three places in the repository where that flow makes decisions:

- **The `POST /upload` route** (`node_modules/backend/src/routes/upload.ts`).
  - Multer names the stored file `<timestamp>-<originalname>`.
  - The handler runs the stages in order: intake, audio extraction, transcription, summarisation.
  - It returns early with 400 or 500.
  - It builds `audioUrl` from the public base URL and the audio file's base name.
  - It replaces empty completion content with `No summary available`.

  The ffmpeg run, the speech-to-text call and the chat completion are foreign calls. Each one is an abstract settled outcome passed in as a parameter (`Outcome<T>`: `Resolved(value)` or `Rejected(reason)`).
  - `UploadRoute.Handle` is the handler as a function of those outcomes. It returns the status, the body and the sequence of external calls made, so "no later stage runs" can be stated.
  - `UploadRoute.Post` writes the same reply step by step into an Express-like `ServerResponse` object, and is proved equal to `Handle`.
- **The audio extractor** (`apps/backend/src/services/ffmpeg.ts`).
  - The output path is `inputPath.replace(/\.[^/.]+$/, '.mp3')`. `Ffmpeg.ExtensionAt` states when the pattern matches; `Ffmpeg.OutputPath` performs the replacement.
  - The promise resolves with that path on the tool's `end` event and rejects with the tool's error on `error`.
- **The client upload section** (`apps/frontend/src/sections/FileUpload.tsx`).
  - The component's state fields belong to a class, `FileUploadSection.FileUploadState`.
  - `resetAll`, `onDrop` and `handleUpload` are methods that assign those fields.
  - `handleUpload` is split at its `await`: `BeginUpload` runs the gates and sets `isUploading`; `FinishUpload` runs the response check, the `catch` and the `finally`. This makes "`isUploading` is true while the call is in flight" visible.
  - React setters are modelled as assignments applied in program order. That is the state React settles on once a handler's batched updates are applied.

The module `EndToEnd` composes this route with the client. Its main result is that no reply of this route passes the client's response check. The route never sends `durationSec`, and the client requires it to be a positive number. So after every successful upload through this route the component shows no result, no file and no error (see Findings).

## Model

| member | source | states |
|---|---|---|
| `Text.LastSegment` | apps/frontend/src/sections/FileUpload.tsx:113 | the last `/`-separated segment of a string contains no `/` and is no longer than the string |
| `Text.LastSegmentSplit` | apps/frontend/src/sections/FileUpload.tsx:113 | the string is a prefix (empty or ending in `/`) followed by the segment, so the segment is exactly the text after the last `/` |
| `Text.LastSegmentAfterSlash` | node_modules/backend/src/routes/upload.ts:53 | after appending `/` and a segment without `/`, the last segment is that segment |
| `Text.TrimTrailingSlashes` | node_modules/backend/src/routes/upload.ts:50 | the result is a prefix of the path with no trailing `/`, and everything cut off was `/` |
| `Text.Basename` | node_modules/backend/src/routes/upload.ts:50 | `path.basename` contains no `/`, and it is empty exactly when the path consists only of `/` (or is empty) |
| `Text.BasenameAfterDirectory` | node_modules/backend/src/routes/upload.ts:50 | the base name of `dir/name` is `name` for a non-empty name without `/` |
| `Text.Decimal` | node_modules/backend/src/routes/upload.ts:22 | a timestamp is rendered as a non-empty string of decimal digits (so it contains no `-`) |
| `Text.DecimalRoundTrip` | node_modules/backend/src/routes/upload.ts:22 | reading the rendered digits back gives the timestamp |
| `Text.DecimalInjective` | node_modules/backend/src/routes/upload.ts:22 | two timestamps render equally exactly when they are equal |
| `UploadRoute.StoredName` | node_modules/backend/src/routes/upload.ts:21-23 | the stored name is the decimal timestamp, then `-`, then the original name; the timestamp part holds no `-`, so the first `-` ends it |
| `UploadRoute.StoredNameInjective` | node_modules/backend/src/routes/upload.ts:21-23 | two stored names `<timestamp>-<originalname>` are equal exactly when the timestamps and the original names are equal: distinct pairs never collide, equal pairs always do |
| `UploadRoute.UserPrompt` | node_modules/backend/src/routes/upload.ts:77 | the user message is the fixed prefix, then the transcript unchecked (possibly empty), then the fixed suffix |
| `UploadRoute.UserPromptInjective` | node_modules/backend/src/routes/upload.ts:77 | different transcripts give different user messages |
| `UploadRoute.SummaryText` | node_modules/backend/src/routes/upload.ts:83 | the summary is never empty: it is the content when that is a non-empty string, otherwise `No summary available` |
| `UploadRoute.FilePresent` | node_modules/backend/src/routes/upload.ts:34-35 | defines `!uploadedFilePath` being false: multer reported a path and it is not the empty string |
| `UploadRoute.Handle` | node_modules/backend/src/routes/upload.ts:29-101 | status is 200, 400 or 500; 200 exactly when the body is a success body; 400 exactly when no file path is present; 200 exactly when the path is present, extraction resolves with a non-empty path and both service calls resolve; the calls made are always a prefix of extract, transcribe, summarise |
| `UploadRoute.NoFileRunsNoStage` | node_modules/backend/src/routes/upload.ts:34-39 | a missing or empty upload path gives 400 `{error: 'No file uploaded'}` and no extraction, transcription or summarisation |
| `UploadRoute.EmptyAudioPathStopsPipeline` | node_modules/backend/src/routes/upload.ts:43-48 | an empty extracted path gives 500 `Audio conversion failed`, with only the extraction call made |
| `UploadRoute.StageRejectionIsGeneric` | node_modules/backend/src/routes/upload.ts:98-101 | a rejection at extraction, transcription or summarisation gives 500 with the one generic message and no result field, and no later stage runs |
| `UploadRoute.SuccessPayload` | node_modules/backend/src/routes/upload.ts:50-97 | on success the body is exactly `audioUrl = PRODUCTION_URL + "/uploads/" + basename(audioPath)`, the transcript verbatim (even empty) and a non-empty summary, after the three calls in order, with the summariser given the transcript |
| `UploadRoute.ServerResponse.Status` | node_modules/backend/src/routes/upload.ts:37 | `res.status(code)` sets the status code and leaves the sent body alone (also used at lines 46, 93 and 100) |
| `UploadRoute.ServerResponse.Json` | node_modules/backend/src/routes/upload.ts:37 | `res.json(body)` sends the body and leaves the status code alone (also used at lines 46, 93 and 100) |
| `UploadRoute.RespondStageFailure` | node_modules/backend/src/routes/upload.ts:98-101 | the `catch` block answers 500 with the generic message |
| `UploadRoute.Post` | node_modules/backend/src/routes/upload.ts:29-101 | the imperative handler leaves in the response exactly the status and body `Handle` gives, and returns the calls `Handle` lists |
| `Ffmpeg.ExtensionAt` | apps/backend/src/services/ffmpeg.ts:8 | defines where `\.[^/.]+$` matches: a `.` followed by one or more characters other than `/` and `.` up to the end of the path |
| `Ffmpeg.ExtensionAtUnique` | apps/backend/src/services/ffmpeg.ts:8 | the pattern `\.[^/.]+$` matches in at most one place |
| `Ffmpeg.ExtensionScan` | apps/backend/src/services/ffmpeg.ts:8 | the scan finds a position exactly when the pattern matches there, and finds none exactly when it matches nowhere |
| `Ffmpeg.OutputPath` | apps/backend/src/services/ffmpeg.ts:8 | the output path is non-empty exactly when the input path is |
| `Ffmpeg.OutputPathReplacesExtension` | apps/backend/src/services/ffmpeg.ts:8 | when the text after the last `.` is non-empty and has no `/`, that extension becomes `.mp3` and everything before the `.` is kept |
| `Ffmpeg.OnlyFinalExtensionReplaced` | apps/backend/src/services/ffmpeg.ts:8 | `a.b.mp4` becomes `a.b.mp3` |
| `Ffmpeg.OutputPathUnchangedWithoutDot` | apps/backend/src/services/ffmpeg.ts:8 | a path without `.` is returned unchanged |
| `Ffmpeg.OutputPathUnchangedTrailingDot` | apps/backend/src/services/ffmpeg.ts:8 | a path ending in `.` is returned unchanged |
| `Ffmpeg.OutputPathUnchangedSlashAfterDot` | apps/backend/src/services/ffmpeg.ts:8 | a path whose last `.` is followed by a `/` is returned unchanged |
| `Ffmpeg.OutputPathIdempotent` | apps/backend/src/services/ffmpeg.ts:8 | deriving the output path of an output path changes nothing |
| `Ffmpeg.DifferentExtensionsShareOutput` | apps/backend/src/services/ffmpeg.ts:8 | inputs that differ only in their final extension get the same output path |
| `Ffmpeg.ExtractAudio` | apps/backend/src/services/ffmpeg.ts:6-20 | the promise resolves exactly on `end`, with the derived path, which is non-empty exactly when the input is; on `error` it rejects with the tool's error |
| `FileUploadSection.ResultAccepted` | apps/frontend/src/sections/FileUpload.tsx:75-81 | defines the response check: `audioUrl`, `transcription` and `summary` truthy and `durationSec` a number greater than 0 |
| `FileUploadSection.OverQuota` | apps/frontend/src/sections/FileUpload.tsx:63 | defines the quota gate: a free user with at least `FREE_MAX_CONVERSIONS` (3) conversions |
| `FileUploadSection.FailureMessage` | apps/frontend/src/sections/FileUpload.tsx:97 | the message the `catch` sets is never empty: the missing-fields message for a failed check, the error's own message when it is non-empty, and `Upload failed. Please try again.` when it is empty |
| `FileUploadSection.DownloadName` | apps/frontend/src/sections/FileUpload.tsx:113 | the download name is non-empty with no `/`; it is `audio.mp3` when the URL is empty or ends in `/`, and otherwise the text after the URL's last `/` |
| `FileUploadSection.FileUploadState.constructor` | apps/frontend/src/sections/FileUpload.tsx:23-30 | every state field starts null (`isUploading` false), and the state invariant holds |
| `FileUploadSection.FileUploadState.ResetAll` | apps/frontend/src/sections/FileUpload.tsx:34-41 | clears `file`, `error` and the four result fields, and leaves `isUploading` alone |
| `FileUploadSection.FileUploadState.OnDrop` | apps/frontend/src/sections/FileUpload.tsx:43-55 | an empty drop changes nothing; otherwise all fields are cleared and only the first file is looked at: an MP4 becomes `file` with no error, anything else leaves `file` null with `Only MP4 files are accepted.`; the invariant "a selected file is an MP4, results all-or-nothing" is kept |
| `FileUploadSection.FileUploadState.BeginUpload` | apps/frontend/src/sections/FileUpload.tsx:57-69 | without a file only `error` changes, to `Please select a file first.`; a free user with at least 3 conversions only gets the quota error; otherwise the upload starts with `isUploading` true and `error` null |
| `FileUploadSection.FileUploadState.TryApplyResult` | apps/frontend/src/sections/FileUpload.tsx:72-95 | the `try` block after the `await`: it throws exactly when the call rejected or the result fails the check, and then changes nothing; otherwise it sets the four result fields from the result |
| `FileUploadSection.FileUploadState.FinishUpload` | apps/frontend/src/sections/FileUpload.tsx:71-102 | a result with truthy `audioUrl`, `transcription`, `summary` and a numeric `durationSec > 0` sets those four fields; any rejection or failed check ends with `file`, `error` and all results null (the message is lost); `isUploading` ends false on both paths |
| `FileUploadSection.FileUploadState.FinishUploadKeepingError` | apps/frontend/src/sections/FileUpload.tsx:97-99 | with the reset before the message, a failure ends with the `catch` block's message in `error` |
| `FileUploadSection.FileUploadState.HandleUpload` | apps/frontend/src/sections/FileUpload.tsx:57-103 | composes the gates and the continuation: gate errors change only `error`; a started upload ends with `isUploading` false, and with the four results set on success or with every field null on failure |
| `FileUploadSection.MockUserWithinQuota` | apps/frontend/src/sections/FileUpload.tsx:15-20 | the hard-coded user (free, 0 conversions) never reaches the quota gate |
| `EndToEnd.ClientView` | node_modules/backend/src/routes/upload.ts:93-97 | what the client reads from a route body: the three strings of a success body and never a `durationSec` |
| `EndToEnd.EveryReplyRejectedByClient` | apps/frontend/src/sections/FileUpload.tsx:75-83 | no body this route can send passes the client's response check |
| `EndToEnd.UploadThroughRoute` | apps/frontend/src/sections/FileUpload.tsx:71-102 | after a 200 from this route, the component ends with no file, no error, no result and `isUploading` false |
| `EndToEnd.ClientViewWithDuration` | node_modules/backend/src/routes/upload.ts:93-97 | the success body extended with a `durationSec`, as the client reads it |
| `EndToEnd.SuccessWithDurationAccepted` | apps/frontend/src/sections/FileUpload.tsx:75-83 | with a positive `durationSec` added, the client accepts a route success exactly when its transcript is non-empty |
| `EndToEnd.ConversionFailedUnreachable` | node_modules/backend/src/routes/upload.ts:44-48 | when extraction is `extractAudio` on the non-empty stored path, the `Audio conversion failed` reply cannot occur |
| `EndToEnd.DownloadNameOfAudioUrl` | apps/frontend/src/sections/FileUpload.tsx:113 | for an `audioUrl` built by the route, the offered download name is the audio file's base name, or `audio.mp3` when that is empty |
| `EndToEnd.AudioFileNameOfStoredUpload` | node_modules/backend/src/routes/upload.ts:21-23 | an upload stored as `uploads/<timestamp>-<stem>.<ext>` is served back as `<timestamp>-<stem>.mp3` |

## Left out

- The OpenAI SDK calls (upload.ts:57-61, 68-81), the ffmpeg subprocess (ffmpeg.ts:10-18), multer's disk writes and `fs.createReadStream` are foreign calls. Each becomes a settled outcome passed in. The model name, `response_format`, `temperature` and the codec options are not modelled.
- `Date.now()` is a parameter. Every timestamp is rendered in plain decimal. JavaScript switches to exponent notation from 10^21 on, which is not modelled.
- `path.resolve('uploads', …)` depends on the working directory. The model records the transcription call by the audio file's base name only.
- The server entry point (apps/backend/src/index.ts:5,29) mounts `./routes/upload`, i.e. apps/backend/src/routes/upload.ts, which is not part of this model. The route modelled is the copy at node_modules/backend/src/routes/upload.ts. The claims about the client's reaction to the route hold for that copy; they carry over to the mounted route only if the two are the same.
- That route imports `../services/ffmpeg`, i.e. node_modules/backend/src/services/ffmpeg.ts, which is not part of this model. `Ffmpeg` models apps/backend/src/services/ffmpeg.ts, and `EndToEnd.ConversionFailedUnreachable` and `EndToEnd.AudioFileNameOfStoredUpload` assume the two copies are identical.
- Multer's `path.join` normalisation is not modelled. The handler takes the upload path as given; a missing or empty path is the falsy case.
- `path.basename` is modelled for POSIX paths only. Windows separators are out of scope.
- `console.log` and `console.error` are not modelled.
- Express app setup, CORS, environment loading and static serving (apps/backend/src/index.ts) are plumbing with no decisions in them.
- apps/frontend/src/services/api.ts (the fetch client) is not part of this model. `EndToEnd.ClientView` hands the route's body to the component directly. For an empty transcript, api.ts throws before the component's check runs, which ends in the same cleared state.
- The `fetch`, blob and DOM work of `handleDownload` and the clipboard and timer of `handleCopy` (FileUpload.tsx:105-127) are browser I/O; only the file-name rule at line 113 is kept. The `copied` state and the result element reference serve only those and rendering.
- Rendering and JSX are left out. So are the Header, Footer, PricingSection, PdfExporter, CopyButton, DropzoneWrapper and App components, and the two unmounted `components/FileUpload.tsx` variants.
- `durationSec` is a `real`: JavaScript numbers are floats, and JSON cannot carry `NaN`. A `durationSec` of any non-number type is the missing case.
- Interleavings are not modelled. A drop that arrives while an upload is in flight can run between `BeginUpload` and `FinishUpload`, and `HandleUpload` does not compose that case.
- The outcome of `uploadFile(file)` is a parameter, so which file is sent is not modelled.

## Findings

| source | as written | input that shows it | evidently intended | confidence | as-written member | corrected member |
|---|---|---|---|---|---|---|
| apps/frontend/src/sections/FileUpload.tsx:97-99 | `setError(msg)` is followed by `resetAll()`, which sets `error` back to null, so a failed upload shows no message | any started upload whose call rejects, e.g. with `File upload failed: …` | the failure message stays visible after the reset | high; not executed | `FileUploadSection.FileUploadState.FinishUpload` | `FileUploadSection.FileUploadState.FinishUploadKeepingError` |
| node_modules/backend/src/routes/upload.ts:93-97 | the success body has no `durationSec`, but the client (FileUpload.tsx:75-80) requires a number greater than 0, so every successful upload through this route is rejected and then cleared | any upload where all three stages of this route succeed | the success body carries a positive `durationSec` that the client accepts | high; not executed | `EndToEnd.EveryReplyRejectedByClient` | `EndToEnd.SuccessWithDurationAccepted` |
