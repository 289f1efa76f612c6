/** The upload section of the web client (apps/frontend/src/sections/FileUpload.tsx):
    the component's state fields and the handlers that assign them. React's
    setters are modelled as field assignments applied in program order, which
    is the state React settles on once the batched updates are applied. */
module FileUploadSection {
  import opened Outcomes
  import opened Text

  const Mp4Type := "video/mp4"
  const FreeMaxConversions := 3
  const OnlyMp4Message := "Only MP4 files are accepted."
  const SelectFileMessage := "Please select a file first."
  const QuotaMessage := "Free users can convert max 3 files."
  const MissingFieldsMessage := "Missing audioUrl, transcription, summary, or durationSec in response"
  const UploadFailedMessage := "Upload failed. Please try again."
  const DefaultDownloadName := "audio.mp3"

  datatype Role = Free | User | Pro

  /** The signed-in user as the component sees it. */
  datatype Account = Account(role: Role, conversionsUsed: int)

  /** The hard-coded user of the component: a free user with no conversions. */
  const MockUser := Account(Free, 0)

  /** A file handed over by the drop zone: its name and declared MIME type. */
  datatype DroppedFile = DroppedFile(name: string, mimeType: string)

  /** The fields the component destructures from what `uploadFile` resolves
      with. `None` is an absent or null field; for `durationSec` it is also
      any value whose `typeof` is not `'number'`. */
  datatype UploadResult = UploadResult(audioUrl: Option<string>, transcription: Option<string>,
                                       summary: Option<string>, durationSec: Option<real>)

  /** A JavaScript string that is neither missing nor empty. */
  predicate Truthy(s: Option<string>)
  {
    s.Some? && s.value != ""
  }

  /** The response check of `handleUpload`: the three strings are truthy and
      `durationSec` is a number greater than zero. */
  predicate ResultAccepted(r: UploadResult)
  {
    Truthy(r.audioUrl) && Truthy(r.transcription) && Truthy(r.summary) &&
    r.durationSec.Some? && r.durationSec.value > 0.0
  }

  /** The upload call settled and its result passed the response check. */
  predicate Succeeds(outcome: Outcome<UploadResult>)
  {
    outcome.Resolved? && ResultAccepted(outcome.value)
  }

  predicate OverQuota(user: Account)
  {
    user.role == Free && user.conversionsUsed >= FreeMaxConversions
  }

  /** The message the `catch` block of `handleUpload` sets: the error's
      message, or a fixed text when that message is empty. */
  function FailureMessage(outcome: Outcome<UploadResult>): (m: string)
    requires !Succeeds(outcome)
    ensures m != ""
    ensures outcome.Resolved? ==> m == MissingFieldsMessage
    ensures outcome.Rejected? && outcome.reason != "" ==> m == outcome.reason
    ensures outcome.Rejected? && outcome.reason == "" ==> m == UploadFailedMessage
  {
    match outcome
    case Rejected(reason) => if reason != "" then reason else UploadFailedMessage
    case Resolved(_) => MissingFieldsMessage
  }

  /** `url.split('/').pop() || 'audio.mp3'`: the file name offered when the
      audio is downloaded. */
  function DownloadName(url: string): (r: string)
    ensures r != [] && forall k | 0 <= k < |r| :: r[k] != '/'
    ensures url == [] || url[|url| - 1] == '/' ==> r == DefaultDownloadName
    ensures url != [] && url[|url| - 1] != '/' ==>
              |r| <= |url| && url == url[..|url| - |r|] + r &&
              (|r| < |url| ==> url[|url| - |r| - 1] == '/')
  {
    LastSegmentSplit(url);
    var last := LastSegment(url);
    if last == "" then DefaultDownloadName else last
  }

  /** The component's state. `copied` and the result element reference are
      left out: they only serve copying to the clipboard and rendering. */
  class FileUploadState {
    var file: Option<DroppedFile>
    var error: Option<string>
    var isUploading: bool
    var audioUrl: Option<string>
    var transcription: Option<string>
    var summary: Option<string>
    var durationSec: Option<real>

    /** A selected file is always an MP4, and the results are present all
        together or not at all, as truthy strings with a positive duration. */
    ghost predicate Valid()
      reads this
    {
      (file.Some? ==> file.value.mimeType == Mp4Type) &&
      (audioUrl.Some? == transcription.Some?) &&
      (audioUrl.Some? == summary.Some?) &&
      (audioUrl.Some? == durationSec.Some?) &&
      (audioUrl.Some? ==> Truthy(audioUrl) && Truthy(transcription) && Truthy(summary) &&
                          durationSec.value > 0.0)
    }

    predicate NoResults()
      reads this
    {
      audioUrl.None? && transcription.None? && summary.None? && durationSec.None?
    }

    /** The initial state of every `useState` hook. */
    constructor ()
      ensures Valid()
      ensures file.None? && error.None? && !isUploading && NoResults()
    {
      file, error, isUploading := None, None, false;
      audioUrl, transcription, summary, durationSec := None, None, None, None;
    }

    /** `resetAll`: clears the file, the error and every result; `isUploading`
        is not touched. */
    method ResetAll()
      modifies this
      ensures Valid()
      ensures file.None? && error.None? && NoResults()
      ensures isUploading == old(isUploading)
    {
      file := None;
      error := None;
      audioUrl := None;
      transcription := None;
      summary := None;
      durationSec := None;
    }

    /** `onDrop`: an empty drop changes nothing; otherwise everything is
        cleared and only the first file is considered, kept when it is an MP4
        and refused with an error otherwise. */
    method OnDrop(acceptedFiles: seq<DroppedFile>)
      requires Valid()
      modifies this
      ensures Valid()
      ensures |acceptedFiles| == 0 ==> unchanged(this)
      ensures |acceptedFiles| > 0 ==>
                NoResults() && isUploading == old(isUploading) &&
                (acceptedFiles[0].mimeType == Mp4Type ==> file == Some(acceptedFiles[0]) && error.None?) &&
                (acceptedFiles[0].mimeType != Mp4Type ==> file.None? && error == Some(OnlyMp4Message))
    {
      if |acceptedFiles| == 0 {
        return;
      }
      ResetAll();
      var newFile := acceptedFiles[0];
      if newFile.mimeType != Mp4Type {
        error := Some(OnlyMp4Message);
        return;
      }
      file := Some(newFile);
    }

    /** `handleUpload` up to its `await`: the missing-file gate, the quota
        gate, then `isUploading` set and the error cleared. `started` says
        whether the upload call is made. A gate only sets the error. */
    method BeginUpload(user: Account) returns (started: bool)
      requires Valid()
      modifies this
      ensures Valid()
      ensures started <==> old(file).Some? && !OverQuota(user)
      ensures file == old(file)
      ensures audioUrl == old(audioUrl) && transcription == old(transcription)
      ensures summary == old(summary) && durationSec == old(durationSec)
      ensures old(file).None? ==> error == Some(SelectFileMessage) && isUploading == old(isUploading)
      ensures old(file).Some? && OverQuota(user) ==>
                error == Some(QuotaMessage) && isUploading == old(isUploading)
      ensures started ==> isUploading && error.None?
    {
      if file.None? {
        error := Some(SelectFileMessage);
        return false;
      }
      if user.role == Free && user.conversionsUsed >= FreeMaxConversions {
        error := Some(QuotaMessage);
        return false;
      }
      isUploading := true;
      error := None;
      started := true;
    }

    /** The `try` block of `handleUpload` after its `await`: a result that
        passes the check sets the four result fields; a rejection, or a result
        that fails the check, throws and changes nothing. */
    method TryApplyResult(outcome: Outcome<UploadResult>) returns (thrown: bool)
      requires Valid()
      modifies this
      ensures Valid()
      ensures thrown <==> !Succeeds(outcome)
      ensures thrown ==> unchanged(this)
      ensures !thrown ==>
                audioUrl == outcome.value.audioUrl && transcription == outcome.value.transcription &&
                summary == outcome.value.summary && durationSec == outcome.value.durationSec &&
                file == old(file) && error == old(error) && isUploading == old(isUploading)
    {
      match outcome {
        case Rejected(_) =>
          thrown := true;
        case Resolved(result) =>
          if !ResultAccepted(result) {
            thrown := true;
          } else {
            audioUrl := result.audioUrl;
            transcription := result.transcription;
            summary := result.summary;
            durationSec := result.durationSec;
            thrown := false;
          }
      }
    }

    /** `handleUpload` after its `await`, given how the upload call settled:
        an accepted result sets the four result fields; a rejection or a
        result that fails the check sets the error and then calls `resetAll`,
        which clears that error again; `isUploading` ends false either way. */
    method FinishUpload(outcome: Outcome<UploadResult>)
      requires Valid()
      modifies this
      ensures Valid()
      ensures !isUploading
      ensures Succeeds(outcome) ==>
                audioUrl == outcome.value.audioUrl && transcription == outcome.value.transcription &&
                summary == outcome.value.summary && durationSec == outcome.value.durationSec &&
                file == old(file) && error == old(error)
      ensures !Succeeds(outcome) ==> file.None? && error.None? && NoResults()
    {
      var thrown := TryApplyResult(outcome);
      if thrown {
        error := Some(FailureMessage(outcome));
        ResetAll();
      }
      isUploading := false;
    }

    /** The same continuation with the two statements of the `catch` block
        in the other order, so that the message survives the reset. */
    method FinishUploadKeepingError(outcome: Outcome<UploadResult>)
      requires Valid()
      modifies this
      ensures Valid()
      ensures !isUploading
      ensures Succeeds(outcome) ==>
                audioUrl == outcome.value.audioUrl && transcription == outcome.value.transcription &&
                summary == outcome.value.summary && durationSec == outcome.value.durationSec &&
                file == old(file) && error == old(error)
      ensures !Succeeds(outcome) ==> file.None? && NoResults() && error == Some(FailureMessage(outcome))
    {
      var thrown := TryApplyResult(outcome);
      if thrown {
        ResetAll();
        error := Some(FailureMessage(outcome));
      }
      isUploading := false;
    }

    /** `handleUpload` as a whole, the upload call settling with `outcome`.
        After a failure every field is null again, the error message included. */
    method HandleUpload(user: Account, outcome: Outcome<UploadResult>)
      requires Valid()
      modifies this
      ensures Valid()
      ensures old(file).None? ==>
                error == Some(SelectFileMessage) && file.None? && isUploading == old(isUploading) &&
                audioUrl == old(audioUrl) && transcription == old(transcription) &&
                summary == old(summary) && durationSec == old(durationSec)
      ensures old(file).Some? && OverQuota(user) ==>
                error == Some(QuotaMessage) && file == old(file) && isUploading == old(isUploading) &&
                audioUrl == old(audioUrl) && transcription == old(transcription) &&
                summary == old(summary) && durationSec == old(durationSec)
      ensures old(file).Some? && !OverQuota(user) ==> !isUploading
      ensures old(file).Some? && !OverQuota(user) && Succeeds(outcome) ==>
                file == old(file) && error.None? &&
                audioUrl == outcome.value.audioUrl && transcription == outcome.value.transcription &&
                summary == outcome.value.summary && durationSec == outcome.value.durationSec
      ensures old(file).Some? && !OverQuota(user) && !Succeeds(outcome) ==>
                file.None? && error.None? && NoResults()
    {
      var started := BeginUpload(user);
      if started {
        FinishUpload(outcome);
      }
    }
  }

  /** With the hard-coded user the quota gate never closes. */
  lemma MockUserWithinQuota()
    ensures !OverQuota(MockUser)
  {
  }
}
