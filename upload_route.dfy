/** The `POST /upload` route of node_modules/backend/src/routes/upload.ts.
    Every external effect is an abstract outcome passed in: whether multer
    stored a file (and where), how audio extraction settled, how the speech-to-
    text call settled, and how the chat completion settled. */
module UploadRoute {
  import opened Outcomes
  import opened Text

  const NoFileMessage := "No file uploaded"
  const ConversionFailedMessage := "Audio conversion failed"
  const StageFailureMessage := "Conversion, transcription, or summarization failed"
  const NoSummary := "No summary available"
  const SystemPrompt := "You are an assistant that summarizes meetings and extracts clear action items."
  const PromptPrefix := "Here is a meeting transcript:\n\n"
  const PromptSuffix := "\n\nPlease provide a concise summary and a list of action items."
  /** Path under the public base URL where the audio files are served. */
  const UploadsRoute := "/uploads/"

  /** The name multer's `filename` callback gives a stored upload:
      the millisecond timestamp, a `-`, then the client's file name. */
  function StoredName(timestamp: nat, originalName: string): (r: string)
    ensures |r| == |Decimal(timestamp)| + 1 + |originalName|
    ensures r[..|Decimal(timestamp)|] == Decimal(timestamp)
    ensures forall k | 0 <= k < |Decimal(timestamp)| :: r[k] != '-'
    ensures r[|Decimal(timestamp)|] == '-'
    ensures r[|Decimal(timestamp)| + 1..] == originalName
  {
    Decimal(timestamp) + "-" + originalName
  }

  /** Two uploads get the same stored name exactly when they have the same
      timestamp and the same original name: the timestamp has no `-`, so the
      first `-` of a stored name separates the two parts. */
  lemma StoredNameInjective(t1: nat, n1: string, t2: nat, n2: string)
    ensures StoredName(t1, n1) == StoredName(t2, n2) <==> t1 == t2 && n1 == n2
  {
    if StoredName(t1, n1) == StoredName(t2, n2) {
      var s := StoredName(t1, n1);
      var d1, d2 := Decimal(t1), Decimal(t2);
      assert s[|d1|] == '-' && s[|d2|] == '-';
      assert forall k | 0 <= k < |d1| :: s[k] == d1[k];
      assert forall k | 0 <= k < |d2| :: s[k] == d2[k];
      assert |d1| == |d2|;
      assert d1 == s[..|d1|] == d2;
      DecimalInjective(t1, t2);
      assert n1 == s[|d1| + 1..] == n2;
    }
  }

  /** The user message sent for summarisation: the transcript, unchecked and
      possibly empty, between a fixed prefix and a fixed suffix. */
  function UserPrompt(transcript: string): (r: string)
    ensures |r| == |PromptPrefix| + |transcript| + |PromptSuffix|
    ensures r[..|PromptPrefix|] == PromptPrefix
    ensures r[|PromptPrefix|..|r| - |PromptSuffix|] == transcript
    ensures r[|r| - |PromptSuffix|..] == PromptSuffix
  {
    PromptPrefix + transcript + PromptSuffix
  }

  /** Different transcripts give different prompts. */
  lemma UserPromptInjective(t1: string, t2: string)
    ensures UserPrompt(t1) == UserPrompt(t2) <==> t1 == t2
  {
  }

  /** `choices[0]?.message?.content || 'No summary available'`: the content
      when it is a non-empty string, the sentinel when it is missing or empty. */
  function SummaryText(content: Option<string>): (s: string)
    ensures s != ""
    ensures content.Some? && content.value != "" ==> s == content.value
    ensures content.None? || content.value == "" ==> s == NoSummary
  {
    if content.Some? && content.value != "" then content.value else NoSummary
  }

  /** A JSON body the route sends. A success body has exactly the keys
      `audioUrl`, `transcription` and `summary`; an error body only `error`. */
  datatype Body =
    | ErrorBody(error: string)
    | SuccessBody(audioUrl: string, transcription: string, summary: string)

  /** An external call the route makes, in the order it makes them. */
  datatype Call =
    | Extract(inputPath: string)
    | Transcribe(audioFileName: string)
    | Summarize(systemContent: string, userContent: string)

  /** Extraction, then transcription, then summarisation, each at most once:
      the calls made are a prefix of that sequence. */
  predicate StagesInOrder(calls: seq<Call>)
  {
    |calls| <= 3 &&
    (|calls| > 0 ==> calls[0].Extract?) &&
    (|calls| > 1 ==> calls[1].Transcribe?) &&
    (|calls| > 2 ==> calls[2].Summarize?)
  }

  /** `!uploadedFilePath` is false: multer stored a file at a non-empty path. */
  predicate FilePresent(uploadedPath: Option<string>)
  {
    uploadedPath.Some? && uploadedPath.value != ""
  }

  /** What the handler ends with: the status, the body and the calls made. */
  datatype Reply = Reply(status: int, body: Body, calls: seq<Call>)

  /** The handler as a function of the stage outcomes. A stage's outcome is
      only consulted when the handler reaches that stage. */
  function Handle(production: string, uploadedPath: Option<string>, extracted: Outcome<string>,
                  transcribed: Outcome<string>, completion: Outcome<Option<string>>): (r: Reply)
    ensures r.status == 200 || r.status == 400 || r.status == 500
    ensures r.status == 200 <==> r.body.SuccessBody?
    ensures r.status == 400 <==> !FilePresent(uploadedPath)
    ensures r.status == 200 <==>
              FilePresent(uploadedPath) && extracted.Resolved? && extracted.value != "" &&
              transcribed.Resolved? && completion.Resolved?
    ensures StagesInOrder(r.calls)
  {
    if !FilePresent(uploadedPath) then Reply(400, ErrorBody(NoFileMessage), [])
    else
      var extract := Extract(uploadedPath.value);
      match extracted
      case Rejected(_) => Reply(500, ErrorBody(StageFailureMessage), [extract])
      case Resolved(audioPath) =>
        if audioPath == "" then Reply(500, ErrorBody(ConversionFailedMessage), [extract])
        else
          var audioFileName := Basename(audioPath);
          var audioUrl := production + UploadsRoute + audioFileName;
          var transcribe := Transcribe(audioFileName);
          match transcribed
          case Rejected(_) => Reply(500, ErrorBody(StageFailureMessage), [extract, transcribe])
          case Resolved(text) =>
            var summarize := Summarize(SystemPrompt, UserPrompt(text));
            match completion
            case Rejected(_) => Reply(500, ErrorBody(StageFailureMessage), [extract, transcribe, summarize])
            case Resolved(content) =>
              Reply(200, SuccessBody(audioUrl, text, SummaryText(content)), [extract, transcribe, summarize])
  }

  /** Without a stored file the reply is 400 and no stage runs. */
  lemma NoFileRunsNoStage(production: string, uploadedPath: Option<string>, extracted: Outcome<string>,
                          transcribed: Outcome<string>, completion: Outcome<Option<string>>)
    requires !FilePresent(uploadedPath)
    ensures Handle(production, uploadedPath, extracted, transcribed, completion)
         == Reply(400, ErrorBody(NoFileMessage), [])
  {
  }

  /** When extraction resolves with an empty path the reply is 500
      `Audio conversion failed` and neither transcription nor summarisation runs. */
  lemma EmptyAudioPathStopsPipeline(production: string, path: string,
                                    transcribed: Outcome<string>, completion: Outcome<Option<string>>)
    requires path != ""
    ensures Handle(production, Some(path), Resolved(""), transcribed, completion)
         == Reply(500, ErrorBody(ConversionFailedMessage), [Extract(path)])
  {
  }

  /** A rejection at any stage gives 500 with the one generic message and no
      result field, and no later stage runs. */
  lemma StageRejectionIsGeneric(production: string, uploadedPath: Option<string>, extracted: Outcome<string>,
                                transcribed: Outcome<string>, completion: Outcome<Option<string>>)
    requires FilePresent(uploadedPath)
    requires extracted.Rejected?
          || (extracted.value != "" && transcribed.Rejected?)
          || (extracted.value != "" && transcribed.Resolved? && completion.Rejected?)
    ensures var r := Handle(production, uploadedPath, extracted, transcribed, completion);
            r.status == 500 && r.body == ErrorBody(StageFailureMessage) &&
            |r.calls| == (if extracted.Rejected? then 1 else if transcribed.Rejected? then 2 else 3)
  {
  }

  /** When every stage succeeds the reply is 200 with the public audio URL,
      the transcript verbatim (even when empty) and the summary, after exactly
      the three calls in order, the summariser being given the transcript. */
  lemma SuccessPayload(production: string, path: string, audioPath: string,
                       text: string, content: Option<string>)
    requires path != "" && audioPath != ""
    ensures var r := Handle(production, Some(path), Resolved(audioPath), Resolved(text), Resolved(content));
            r.status == 200 &&
            r.body == SuccessBody(production + UploadsRoute + Basename(audioPath), text, SummaryText(content)) &&
            r.body.summary != "" &&
            r.calls == [Extract(path), Transcribe(Basename(audioPath)), Summarize(SystemPrompt, UserPrompt(text))]
  {
  }

  /** The Express response object, as far as the handler uses it. */
  class ServerResponse {
    var statusCode: int
    var sent: Option<Body>

    /** A response that has not been answered yet; Express starts at 200. */
    constructor ()
      ensures statusCode == 200 && sent == None
    {
      statusCode := 200;
      sent := None;
    }

    /** `res.status(code)` */
    method Status(code: int)
      modifies this
      ensures statusCode == code && sent == old(sent)
    {
      statusCode := code;
    }

    /** `res.json(body)` */
    method Json(body: Body)
      modifies this
      ensures sent == Some(body) && statusCode == old(statusCode)
    {
      sent := Some(body);
    }
  }

  /** The `catch` block: one generic 500 whatever failed. */
  method RespondStageFailure(res: ServerResponse)
    modifies res
    ensures res.statusCode == 500 && res.sent == Some(ErrorBody(StageFailureMessage))
  {
    res.Status(500);
    res.Json(ErrorBody(StageFailureMessage));
  }

  /** The route handler, step by step with its early returns. It writes the
      reply that `Handle` describes and returns the external calls it made. */
  method Post(res: ServerResponse, production: string, uploadedPath: Option<string>,
              extracted: Outcome<string>, transcribed: Outcome<string>,
              completion: Outcome<Option<string>>) returns (calls: seq<Call>)
    modifies res
    ensures var r := Handle(production, uploadedPath, extracted, transcribed, completion);
            res.statusCode == r.status && res.sent == Some(r.body) && calls == r.calls
  {
    calls := [];
    if uploadedPath.None? || uploadedPath.value == "" {
      res.Status(400);
      res.Json(ErrorBody(NoFileMessage));
      return;
    }
    var uploadedFilePath := uploadedPath.value;

    calls := calls + [Extract(uploadedFilePath)];
    if extracted.Rejected? {
      RespondStageFailure(res);
      return;
    }
    var audioPath := extracted.value;
    if audioPath == "" {
      res.Status(500);
      res.Json(ErrorBody(ConversionFailedMessage));
      return;
    }

    var audioFileName := Basename(audioPath);
    var audioUrl := production + UploadsRoute + audioFileName;

    calls := calls + [Transcribe(audioFileName)];
    if transcribed.Rejected? {
      RespondStageFailure(res);
      return;
    }
    var transcriptionText := transcribed.value;

    calls := calls + [Summarize(SystemPrompt, UserPrompt(transcriptionText))];
    if completion.Rejected? {
      RespondStageFailure(res);
      return;
    }
    var gptOutput := SummaryText(completion.value);

    res.Status(200);
    res.Json(SuccessBody(audioUrl, transcriptionText, gptOutput));
  }
}
