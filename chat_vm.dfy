/**
  `ChatViewModel`: the conversation shown on screen and the conversation id the
  backend assigned. `sendMessage` is split at its suspension point: `BeginSend` runs
  before the reply is awaited and yields the call to make, `FinishSend` applies the
  reply. Message ids (`UUID()`) are parameters.
 */
module ChatView {
  import opened Wrappers
  import opened Text
  import opened ApiError
  import opened Gateway
  import opened Endpoints

  datatype RetrievedChunk = RetrievedChunk(chunkId: string, documentId: string, score: real)
  datatype ChatData = ChatData(chatId: string, response: string, retrievedChunks: seq<RetrievedChunk>)
  datatype ChatResponse = ChatResponse(success: bool, data: ChatData)
  datatype ChatMessage = ChatMessage(id: string, text: string, isUser: bool)

  class ChatViewModel {
    var messages: seq<ChatMessage>
    var inputText: string
    var isLoading: bool
    var errorMessage: Option<string>
    var chatId: Option<string>

    constructor ()
      ensures messages == [] && inputText == "" && !isLoading && errorMessage == None && chatId == None
    {
      messages := [];
      inputText := "";
      isLoading := false;
      errorMessage := None;
      chatId := None;
    }

    /** `sendMessage(useRAG:)` up to the call: blank input changes nothing; otherwise the
        trimmed text is appended as the user's message and sent, the input is cleared,
        loading starts and the error is cleared. */
    method BeginSend(useRAG: bool, messageId: string) returns (call: Option<Call>)
      modifies this
      ensures IsBlank(old(inputText)) ==> call.None?
      ensures IsBlank(old(inputText)) ==> messages == old(messages) && inputText == old(inputText)
      ensures IsBlank(old(inputText)) ==>
        isLoading == old(isLoading) && errorMessage == old(errorMessage) && chatId == old(chatId)
      ensures !IsBlank(old(inputText)) ==> call == Some(SendMessageCall(Trim(old(inputText)), old(chatId), useRAG))
      ensures !IsBlank(old(inputText)) ==> messages == old(messages) + [ChatMessage(messageId, Trim(old(inputText)), true)]
      ensures !IsBlank(old(inputText)) ==> inputText == "" && isLoading && errorMessage == None && chatId == old(chatId)
    {
      // trimming leaves nothing exactly when the input is blank (`Trim`'s contract)
      if IsBlank(inputText) {
        return None;
      }
      var trimmed := Trim(inputText);
      call := Submit(trimmed, useRAG, messageId);
    }

    /** The non-blank branch of `sendMessage(useRAG:)` up to the call, given the trimmed text. */
    method Submit(trimmed: string, useRAG: bool, messageId: string) returns (call: Option<Call>)
      modifies this
      ensures call == Some(SendMessageCall(trimmed, old(chatId), useRAG))
      ensures messages == old(messages) + [ChatMessage(messageId, trimmed, true)]
      ensures inputText == "" && isLoading && errorMessage == None && chatId == old(chatId)
    {
      messages := messages + [ChatMessage(messageId, trimmed, true)];
      var messageToSend := trimmed;
      inputText := "";
      isLoading := true;
      errorMessage := None;
      call := Some(SendMessageCall(messageToSend, chatId, useRAG));
    }

    /** `sendMessage(useRAG:)` after the call: the reply is appended as a non-user
        message and its conversation id kept; a failure sets only the error text. */
    method FinishSend(outcome: Result<ChatResponse, Failure>, replyId: string)
      modifies this
      ensures !isLoading && inputText == old(inputText)
      ensures outcome.Ok? ==> chatId == Some(outcome.value.data.chatId) && errorMessage == old(errorMessage)
      ensures outcome.Ok? ==> messages == old(messages) + [ChatMessage(replyId, outcome.value.data.response, false)]
      ensures outcome.Err? ==> errorMessage == Some(LocalizedDescription(outcome.error))
      ensures outcome.Err? ==> messages == old(messages) && chatId == old(chatId)
    {
      match outcome {
        case Ok(response) =>
          chatId := Some(response.data.chatId);
          messages := messages + [ChatMessage(replyId, response.data.response, false)];
        case Err(f) =>
          errorMessage := Some(LocalizedDescription(f));
      }
      isLoading := false;
    }

    /** `startNewChat()`: forgets the conversation id and the messages only. */
    method StartNewChat()
      modifies this
      ensures chatId == None && messages == []
      ensures inputText == old(inputText) && isLoading == old(isLoading) && errorMessage == old(errorMessage)
    {
      chatId := None;
      messages := [];
    }
  }
}
