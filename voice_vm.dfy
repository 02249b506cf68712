/**
  `SpeechInputViewModel`: records speech into a transcript and ingests it. The audio
  session, engine and recognizer are reduced to the points where setup can throw and
  to whether a recognition request and task are held. `ingest` is split at its
  suspension point like the text ingest; the file name's timestamp is a parameter.
 */
module VoiceIngest {
  import opened Wrappers
  import opened Text
  import opened ApiError
  import opened Gateway
  import opened Endpoints
  import opened TextIngest

  /** How far audio setup got: the session configuration threw, the engine start
      threw, or everything started. */
  datatype AudioSetup = SessionFailed(error: Failure) | EngineFailed(error: Failure) | Started

  const NoTranscriptError: string := "No transcript to ingest"

  /** The file name a voice transcript is sent under. */
  function VoiceFilename(timestamp: string): string
  {
    "voice_recording_" + timestamp + ".txt"
  }

  class SpeechInputViewModel {
    var transcript: string
    var isRecording: bool
    var isLoading: bool
    var errorMessage: Option<string>
    var successMessage: Option<string>
    var documentId: Option<string>
    var chunksStored: Option<int>
    /** Whether a recognition request and a recognition task are held. */
    var hasRequest: bool
    var hasTask: bool

    constructor ()
      ensures transcript == "" && !isRecording && !isLoading && !hasRequest && !hasTask
      ensures errorMessage == None && successMessage == None && documentId == None && chunksStored == None
    {
      transcript := "";
      isRecording := false;
      isLoading := false;
      errorMessage := None;
      successMessage := None;
      documentId := None;
      chunksStored := None;
      hasRequest := false;
      hasTask := false;
    }

    /** `startRecording()`: the transcript is cleared and recording marked before any
        step that can throw, so both stay set when setup fails. A task is held only
        when a recognizer exists. */
    method StartRecording(setup: AudioSetup, recognizerAvailable: bool) returns (thrown: Option<Failure>)
      modifies this
      ensures transcript == "" && isRecording
      ensures setup.SessionFailed? ==> thrown == Some(setup.error) && hasRequest == old(hasRequest) && hasTask == old(hasTask)
      ensures setup.EngineFailed? ==> thrown == Some(setup.error) && hasRequest && hasTask == old(hasTask)
      ensures setup.Started? ==> thrown.None? && hasRequest && hasTask == recognizerAvailable
      ensures isLoading == old(isLoading) && errorMessage == old(errorMessage) && successMessage == old(successMessage)
      ensures documentId == old(documentId) && chunksStored == old(chunksStored)
    {
      transcript := "";
      isRecording := true;
      if setup.SessionFailed? {
        return Some(setup.error);
      }
      hasRequest := true;
      if setup.EngineFailed? {
        return Some(setup.error);
      }
      hasTask := recognizerAvailable;
      return None;
    }

    /** The recognizer's callback with a result: the transcript becomes its text. */
    method Recognized(text: string)
      modifies this
      ensures transcript == text
      ensures isRecording == old(isRecording) && hasRequest == old(hasRequest) && hasTask == old(hasTask)
      ensures isLoading == old(isLoading) && errorMessage == old(errorMessage) && successMessage == old(successMessage)
      ensures documentId == old(documentId) && chunksStored == old(chunksStored)
    {
      transcript := text;
    }

    /** `stopRecording()`: recording ends and the request and task are dropped; the
        transcript is kept. */
    method StopRecording()
      modifies this
      ensures !isRecording && !hasRequest && !hasTask
      ensures transcript == old(transcript) && isLoading == old(isLoading) && errorMessage == old(errorMessage)
      ensures successMessage == old(successMessage) && documentId == old(documentId) && chunksStored == old(chunksStored)
    {
      isRecording := false;
      hasRequest := false;
      hasTask := false;
    }

    /** `ingest()` up to the call: a blank transcript only sets the error; otherwise
        loading starts, both messages are cleared and the transcript is sent untrimmed
        under a timestamped file name. */
    method BeginIngest(timestamp: string) returns (call: Option<Call>)
      modifies this
      ensures transcript == old(transcript) && isRecording == old(isRecording)
      ensures hasRequest == old(hasRequest) && hasTask == old(hasTask)
      ensures documentId == old(documentId) && chunksStored == old(chunksStored)
      ensures IsBlank(old(transcript)) ==> call.None? && errorMessage == Some(NoTranscriptError)
      ensures IsBlank(old(transcript)) ==> isLoading == old(isLoading) && successMessage == old(successMessage)
      ensures !IsBlank(old(transcript)) ==> call == Some(IngestTextCall(old(transcript), Some(VoiceFilename(timestamp))))
      ensures !IsBlank(old(transcript)) ==> isLoading && errorMessage == None && successMessage == None
    {
      // trimming leaves nothing exactly when the text is blank (`Trim`'s contract)
      if IsBlank(transcript) {
        errorMessage := Some(NoTranscriptError);
        return None;
      }
      isLoading := true;
      errorMessage := None;
      successMessage := None;
      call := Some(IngestTextCall(transcript, Some(VoiceFilename(timestamp))));
    }

    /** `ingest()` after the call: success records the document and the chunk count and
        clears the transcript; failure sets only the error and keeps the transcript. */
    method FinishIngest(outcome: Result<IngestResponse, Failure>)
      modifies this
      ensures !isLoading && isRecording == old(isRecording)
      ensures hasRequest == old(hasRequest) && hasTask == old(hasTask)
      ensures outcome.Ok? ==> documentId == Some(outcome.value.data.documentId)
      ensures outcome.Ok? ==> chunksStored == Some(outcome.value.data.chunksStored)
      ensures outcome.Ok? ==> successMessage == Some(IngestedText(outcome.value.data.chunksStored))
      ensures outcome.Ok? ==> transcript == "" && errorMessage == old(errorMessage)
      ensures outcome.Err? ==> errorMessage == Some(LocalizedDescription(outcome.error))
      ensures outcome.Err? ==> successMessage == old(successMessage)
      ensures outcome.Err? ==> transcript == old(transcript) && documentId == old(documentId) && chunksStored == old(chunksStored)
    {
      match outcome {
        case Ok(response) =>
          documentId := Some(response.data.documentId);
          chunksStored := Some(response.data.chunksStored);
          successMessage := Some(IngestedText(response.data.chunksStored));
          transcript := "";
        case Err(f) =>
          errorMessage := Some(LocalizedDescription(f));
      }
      isLoading := false;
    }
  }

  /** The voice file name is never empty (it is sent as is, not through the text
      ingest's empty-name rule), and the timestamp can be read back from it. */
  lemma VoiceFilenameHoldsTimestamp(timestamp: string)
    ensures var f := VoiceFilename(timestamp);
      && |f| > 0 && f[..16] == "voice_recording_" && f[|f| - 4..] == ".txt"
      && f[16..|f| - 4] == timestamp
  {
  }
}
