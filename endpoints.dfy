/** The endpoint wrappers of `APIService`: which call each one issues. */
module Endpoints {
  import opened Wrappers
  import opened Constants
  import opened Gateway

  /** `sendMessage`: POST /api/chat with auth; the body carries only the message
      (the conversation id and the retrieval flag are not forwarded). */
  function SendMessageCall(message: string, chatId: Option<string>, useRAG: bool): Call {
    Call(ChatPath, "POST", Some(ChatBody(message)), true)
  }

  /** `getDocument`: GET /api/documents/<id> with auth and no body. */
  function GetDocumentCall(documentId: string): Call {
    Call(DocumentsPath + documentId, "GET", None, true)
  }

  /** `ingestText`: POST /api/ingest/text with auth; the text and the optional file name. */
  function IngestTextCall(text: string, filename: Option<string>): Call {
    Call(IngestTextPath, "POST", Some(IngestBody(text, filename)), true)
  }

  /** The conversation id and the retrieval flag make no difference to what is sent. */
  lemma SendMessageIgnoresContext(message: string, c1: Option<string>, r1: bool, c2: Option<string>, r2: bool)
    ensures SendMessageCall(message, c1, r1) == SendMessageCall(message, c2, r2)
    ensures SendMessageCall(message, c1, r1).body == Some(ChatBody(message))
  {
  }

  /** Every wrapper requires auth, so with no stored token none of them is sent. */
  lemma WrappersNeedToken(message: string, chatId: Option<string>, useRAG: bool, documentId: string,
                          text: string, filename: Option<string>, env: Environment)
    ensures !Sends(SendMessageCall(message, chatId, useRAG), None, env)
    ensures !Sends(GetDocumentCall(documentId), None, env)
    ensures !Sends(IngestTextCall(text, filename), None, env)
  {
  }

  /** The document id is appended to the path as it is, so it can be read back from the path. */
  lemma DocumentIdInPath(documentId: string)
    ensures var e := GetDocumentCall(documentId).endpoint;
      |e| == |DocumentsPath| + |documentId| && e[|DocumentsPath|..] == documentId
  {
  }
}
