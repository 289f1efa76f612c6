/** The server route and the web client composed: what the client makes of
    the replies the route can send, and how file names flow from the stored
    upload to the offered download. */
module EndToEnd {
  import opened Outcomes
  import opened Text
  import Ffmpeg
  import opened UploadRoute
  import opened FileUploadSection

  /** The fields the client reads from a body the route sends. No body of the
      route has a `durationSec` key. */
  function ClientView(body: Body): (r: UploadResult)
    ensures r.durationSec.None?
    ensures body.SuccessBody? ==>
              r.audioUrl == Some(body.audioUrl) && r.transcription == Some(body.transcription) &&
              r.summary == Some(body.summary)
    ensures body.ErrorBody? ==> r.audioUrl.None? && r.transcription.None? && r.summary.None?
  {
    match body
    case SuccessBody(audioUrl, transcription, summary) =>
      UploadResult(Some(audioUrl), Some(transcription), Some(summary), None)
    case ErrorBody(_) => UploadResult(None, None, None, None)
  }

  /** No reply of the route, successful or not, passes the client's check. */
  lemma EveryReplyRejectedByClient(production: string, uploadedPath: Option<string>,
                                   extracted: Outcome<string>, transcribed: Outcome<string>,
                                   completion: Outcome<Option<string>>)
    ensures !ResultAccepted(ClientView(Handle(production, uploadedPath, extracted, transcribed, completion).body))
  {
  }

  /** A successful round trip through this route, as the client handles it: the route
      answers 200, and the component ends with no file, no error and no
      result, with nothing shown to the user. */
  method UploadThroughRoute(ui: FileUploadState, user: Account, production: string,
                            uploadedPath: Option<string>, extracted: Outcome<string>,
                            transcribed: Outcome<string>, completion: Outcome<Option<string>>)
    requires ui.Valid() && ui.file.Some? && !OverQuota(user)
    requires Handle(production, uploadedPath, extracted, transcribed, completion).status == 200
    modifies ui
    ensures ui.Valid()
    ensures ui.file.None? && ui.error.None? && ui.NoResults() && !ui.isUploading
  {
    var reply := Handle(production, uploadedPath, extracted, transcribed, completion);
    ui.HandleUpload(user, Resolved(ClientView(reply.body)));
  }

  /** The success body as it would be with the `durationSec` the client needs. */
  function ClientViewWithDuration(body: Body, durationSec: real): (r: UploadResult)
    requires body.SuccessBody?
    ensures r.durationSec == Some(durationSec)
    ensures r.audioUrl == Some(body.audioUrl) && r.transcription == Some(body.transcription)
    ensures r.summary == Some(body.summary)
  {
    UploadResult(Some(body.audioUrl), Some(body.transcription), Some(body.summary), Some(durationSec))
  }

  /** With a positive duration added to the success body, the client accepts
      every success of the route except one whose transcript is empty. */
  lemma SuccessWithDurationAccepted(production: string, path: string, audioPath: string,
                                    text: string, content: Option<string>, durationSec: real)
    requires path != "" && audioPath != "" && durationSec > 0.0
    ensures var r := Handle(production, Some(path), Resolved(audioPath), Resolved(text), Resolved(content));
            ResultAccepted(ClientViewWithDuration(r.body, durationSec)) <==> text != ""
  {
  }

  /** When the route is given what `extractAudio` settles with for a non-empty
      upload path, its `Audio conversion failed` branch cannot be taken. */
  lemma ConversionFailedUnreachable(production: string, path: string, signal: Ffmpeg.ToolSignal,
                                    transcribed: Outcome<string>, completion: Outcome<Option<string>>)
    requires path != ""
    ensures Handle(production, Some(path), Ffmpeg.ExtractAudio(path, signal), transcribed, completion).body
         != ErrorBody(ConversionFailedMessage)
  {
  }

  /** The download name the client offers for an `audioUrl` built by the
      route is the audio file's base name, or `audio.mp3` when that is empty. */
  lemma DownloadNameOfAudioUrl(production: string, audioPath: string)
    ensures DownloadName(production + UploadsRoute + Basename(audioPath))
         == if Basename(audioPath) == "" then DefaultDownloadName else Basename(audioPath)
  {
    var name := Basename(audioPath);
    assert production + UploadsRoute + name == (production + "/uploads") + "/" + name;
    LastSegmentAfterSlash(production + "/uploads", name);
  }

  /** An upload stored by multer as `uploads/<timestamp>-<stem>.<ext>` is
      transcoded to a file whose base name is `<timestamp>-<stem>.mp3`. */
  lemma AudioFileNameOfStoredUpload(timestamp: nat, stem: string, ext: string)
    requires forall k | 0 <= k < |stem| :: stem[k] != '/'
    requires ext != [] && forall k | 0 <= k < |ext| :: ext[k] != '/' && ext[k] != '.'
    ensures Basename(Ffmpeg.OutputPath("uploads/" + StoredName(timestamp, stem + "." + ext)))
         == StoredName(timestamp, stem) + ".mp3"
  {
    var stored := "uploads/" + StoredName(timestamp, stem + "." + ext);
    var base := StoredName(timestamp, stem);
    var dot := |"uploads/" + base|;
    assert stored == "uploads/" + base + "." + ext;
    assert Ffmpeg.ExtensionAt(stored, dot);
    Ffmpeg.OutputPathReplacesExtension(stored, dot);
    assert stored[..dot] == "uploads/" + base;
    var name := base + ".mp3";
    assert forall k | 0 <= k < |Decimal(timestamp)| :: name[k] == Decimal(timestamp)[k];
    assert "uploads/" + base + ".mp3" == "uploads" + "/" + name;
    BasenameAfterDirectory("uploads", name);
  }
}
