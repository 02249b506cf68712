/**
  `TextViewModel`: ingests pasted text. `ingest` is split at its suspension point:
  `BeginIngest` yields the call to make (or none), `FinishIngest` applies its outcome.
 */
module TextIngest {
  import opened Wrappers
  import opened Text
  import opened ApiError
  import opened Gateway
  import opened Endpoints

  datatype IngestData = IngestData(documentId: string, chunksStored: int)
  datatype IngestResponse = IngestResponse(success: bool, data: IngestData)

  const EmptyTextError: string := "Text cannot be empty"

  /** The success text shown after an ingest. */
  function IngestedText(chunks: int): string
  {
    "Ingested successfully (" + IntToString(chunks) + " chunks)"
  }

  /** An empty file name is sent as no file name. */
  function OptionalFilename(filename: string): (r: Option<string>)
    ensures r.None? <==> filename == ""
    ensures r.Some? ==> r.value == filename
  {
    if filename == "" then None else Some(filename)
  }

  /** The success text tells the chunk count: different counts give different texts. */
  lemma IngestedTextShowsCount(a: int, b: int)
    requires IngestedText(a) == IngestedText(b)
    ensures a == b
  {
    var p := "Ingested successfully (";
    var s := " chunks)";
    assert IngestedText(a) == p + (IntToString(a) + s);
    assert IngestedText(b) == p + (IntToString(b) + s);
    assert IntToString(a) + s == (p + (IntToString(a) + s))[|p|..];
    assert IntToString(b) + s == (p + (IntToString(b) + s))[|p|..];
    assert |IntToString(a)| == |IntToString(b)|;
    assert IntToString(a) == (IntToString(a) + s)[..|IntToString(a)|];
    assert IntToString(b) == (IntToString(b) + s)[..|IntToString(b)|];
    IntToStringInjective(a, b);
  }

  class TextViewModel {
    var text: string
    var filename: string
    var isLoading: bool
    var errorMessage: Option<string>
    var successMessage: Option<string>
    var documentId: Option<string>
    var chunksStored: Option<int>

    constructor ()
      ensures text == "" && filename == "" && !isLoading
      ensures errorMessage == None && successMessage == None && documentId == None && chunksStored == None
    {
      text := "";
      filename := "";
      isLoading := false;
      errorMessage := None;
      successMessage := None;
      documentId := None;
      chunksStored := None;
    }

    /** `ingest()` up to the call: blank text only sets the error; otherwise loading
        starts, both messages are cleared, and the text is sent untrimmed. */
    method BeginIngest() returns (call: Option<Call>)
      modifies this
      ensures text == old(text) && filename == old(filename)
      ensures documentId == old(documentId) && chunksStored == old(chunksStored)
      ensures IsBlank(old(text)) ==> call.None? && errorMessage == Some(EmptyTextError)
      ensures IsBlank(old(text)) ==> isLoading == old(isLoading) && successMessage == old(successMessage)
      ensures !IsBlank(old(text)) ==> call == Some(IngestTextCall(old(text), OptionalFilename(old(filename))))
      ensures !IsBlank(old(text)) ==> isLoading && errorMessage == None && successMessage == None
    {
      // trimming leaves nothing exactly when the text is blank (`Trim`'s contract)
      if IsBlank(text) {
        errorMessage := Some(EmptyTextError);
        return None;
      }
      isLoading := true;
      errorMessage := None;
      successMessage := None;
      call := Some(IngestTextCall(text, OptionalFilename(filename)));
    }

    /** `ingest()` after the call: success records the document and the chunk count,
        shows the count and clears the text; failure sets only the error. */
    method FinishIngest(outcome: Result<IngestResponse, Failure>)
      modifies this
      ensures !isLoading && filename == old(filename)
      ensures outcome.Ok? ==> documentId == Some(outcome.value.data.documentId)
      ensures outcome.Ok? ==> chunksStored == Some(outcome.value.data.chunksStored)
      ensures outcome.Ok? ==> successMessage == Some(IngestedText(outcome.value.data.chunksStored))
      ensures outcome.Ok? ==> text == "" && errorMessage == old(errorMessage)
      ensures outcome.Err? ==> errorMessage == Some(LocalizedDescription(outcome.error))
      ensures outcome.Err? ==> successMessage == old(successMessage)
      ensures outcome.Err? ==> text == old(text) && documentId == old(documentId) && chunksStored == old(chunksStored)
    {
      match outcome {
        case Ok(response) =>
          documentId := Some(response.data.documentId);
          chunksStored := Some(response.data.chunksStored);
          successMessage := Some(IngestedText(response.data.chunksStored));
          text := "";
        case Err(f) =>
          errorMessage := Some(LocalizedDescription(f));
      }
      isLoading := false;
    }
  }
}
