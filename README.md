# dory-swift core, modelled in Dafny

This project models the client side of dory, an iOS app that sends text, voice transcripts and PDFs to a backend for ingestion. It then chats over the ingested documents and lists the calendar events detected in them. The model covers:

- **The gateway client (`APIService`).**
  - The URL and credential guards of `request`.
  - The status classifier.
  - The rule that wraps errors.
  - The error texts.
  - The Google login exchange.
  - The `multipart/form-data` PDF upload. It follows section 5.1.1 of RFC 2046 and section 4.2 of RFC 7578. The body is built by appending to a byte buffer.
  - The `Authorization: Bearer` header of section 2.1 of RFC 6750.
  - The endpoint wrappers.
  - The date-decoding chain. It parses RFC 3339 section 5.6 date-times with and without fractional seconds, then a fixed six-digit pattern. All decodes share one formatter whose options change in place.
- **The PDF ingest job machine (`PDFIngestViewModel`).** The state moves idle → uploading → processing(id) → completed(id) or failed(message). The model includes:
  - the polling tasks the view model starts and cancels;
  - the poll loop with silent retry;
  - cancellation that is noticed only at the loop head.
- **The view models for chat, text ingest, voice ingest, detected-event selection and authentication.** Each `async` action is split at its await into a `Begin…` step and a `Finish…` step. The `Begin…` step runs before the await; for the network view models it yields the call to make. The `Finish…` step applies the outcome. In the authentication view model, the awaited `AuthService` call runs to completion inside `Finish…`.
- **Session persistence.**
  - `KeychainService` works over a keychain modelled as a map from account to bytes, plus whether the keychain can be reached.
  - `AuthService` adds the `UserDefaults` slot that holds the signed-in user.
- **Pure helpers.**
  - `User.displayName`.
  - The detected-events endpoint and the decoding of its payload.
  - The UTF-8 conversions, whitespace trimming, decimal rendering and `components(separatedBy:)` that the core relies on. These are written out in the modules `Utf8` and `Text`.

The platform is turned into inputs:

- **`Environment`** stands for:
  - whether `URL(string:)` succeeds;
  - the JSON encoder;
  - the decoder of the `{success, error}` envelope;
  - the network.
- **Function-typed parameters** stand for:
  - the response decoders;
  - the date parsers.
- **Plain inputs** stand for:
  - Google Sign-In and the window lookup;
  - the audio setup;
  - UUIDs;
  - the clock.

## Model

The `token: Option<string>` parameter of `Gateway.Prepare`, `Gateway.Request`, `Upload.PrepareUpload`, `Upload.IngestPdf` and `DetectedEvents.FetchDetectedEvents` is the value of `KeychainService.load()` at the moment the request is built. The parameter `fractional` of the events decoder is the shared ISO formatter's current option set: true while it still includes fractional seconds.

| member | source | states |
|---|---|---|
| ApiError.DescriptionInjective | dory/Services/APIService.swift:18-33 | Distinct errors get distinct `errorDescription` texts, so the text shown identifies the error (status and message included) |
| ApiError.HttpDescriptionDetermines | dory/Services/APIService.swift:24-25 | "Error s: m" determines both the status code and the message |
| Gateway.BearerCredential | dory/Services/APIService.swift:92 | The Authorization value is "Bearer " followed by the stored token verbatim |
| Gateway.Classify | dory/Services/APIService.swift:108-137 | Accepted iff 2xx and the body decodes, giving the decoded value untouched; undecodable iff 2xx and decoding fails; rejected iff not 2xx. A rejection is unauthorized exactly for 401; otherwise it is an HTTP error with the envelope's `error` text, or "Unknown error" |
| Gateway.Receive | dory/Services/APIService.swift:161-220 | Classification without `request`'s catch clauses. A transport error escapes as is. A non-HTTP reply is invalidResponse. The result is a value iff the reply is 2xx HTTP and its body decodes, and then it is the decoded value. A 2xx decode failure is the raw decoder error when the caller rethrows it (`ingestPDF`), else decodingError. 401 is unauthorized. Any other status is an HTTP error with the status and the envelope's `error` text, or "Unknown error" |
| Gateway.Wrap | dory/Services/APIService.swift:140-144 | An APIError is rethrown unchanged; any other error becomes networkError carrying its description |
| Gateway.Dispatch | dory/Services/APIService.swift:99-144 | Every failure of `request` after sending is an APIError. A transport error becomes networkError; a non-HTTP reply is invalidResponse. The result is a value iff the reply is 2xx HTTP and its body decodes; a 2xx decode failure is decodingError. 401 is unauthorized; any other status is an HTTP error with the status and the envelope's text or "Unknown error" |
| Gateway.Prepare | dory/Services/APIService.swift:80-97 | URL guard first (invalidURL before the token is consulted), then the credential guard (unauthorized with no token when auth is required), then body encoding, whose error escapes unwrapped. It succeeds iff all three pass, and then the request has the JSON content type, a bearer credential exactly when auth is required, and the encoded body exactly when one is given |
| Gateway.Request | dory/Services/APIService.swift:73-145 | Nothing is sent unless the guards pass and the body encodes; what is sent is the prepared request, and the outcome is its reply dispatched. Without a send the outcome is an error: invalidURL, unauthorized, or the encoder's own error as is. That encoding failure is the only non-APIError failure |
| Gateway.LoginWithGoogle | dory/Services/APIService.swift:147-221 | POST of the ID token without credentials. invalidURL comes first, then an encoder error escaping unwrapped. The reply is classified with a 2xx decode failure as decodingError and transport errors unwrapped. The outcome equals the `LoginOutcome` specification |
| Utf8.DecodeEncode | dory/Services/KeychainService.swift:13-45 | The UTF-8 bytes of any string decode back to that string (what `save` stores, `load` reads back) |
| Utf8.EncodeAppend | dory/Services/APIService.swift:302-308 | The UTF-8 bytes of a concatenation are the concatenation of the bytes, so appending strings one by one builds the bytes of the whole |
| Utf8.EncodeAscii | dory/Services/APIService.swift:337-342 | An ASCII string's UTF-8 encoding has one byte per character |
| Upload.ByteBuffer.AppendString | dory/Services/APIService.swift:302-308 | `Data.append(String)` appends exactly the string's UTF-8 bytes |
| Upload.MultipartBody | dory/Services/APIService.swift:332-342 | The six appends build exactly: the opening delimiter line, the disposition line with the unescaped file name, the part's type line and blank line, the file bytes, CRLF, the closing delimiter line |
| Upload.LayoutFramesFile | dory/Services/APIService.swift:337-342 | The body is the encoded part head, the file bytes verbatim, and the encoded closing delimiter; the file is recovered by slicing between them |
| Upload.DelimitersFrameBody | dory/Services/APIService.swift:326-342 | With an ASCII boundary, the body starts with "--" and the boundary byte for byte, and the closing delimiter takes the boundary's length plus 8 bytes |
| Upload.PrepareUpload | dory/Services/APIService.swift:313-335 | Nothing is prepared unless the URL forms, a token is stored and the file reads. The three failures come in that order: `invalidURL`, `unauthorized`, then the read error as is. A prepared request is a POST with the multipart content type and the bearer credential |
| Upload.IngestPdf | dory/Services/APIService.swift:313-369 | URL guard, then the stored token, then the file read, whose error escapes as is. The request sent is exactly a POST with the multipart content type and the bearer credential, whose body is the multipart layout. The reply is classified with transport and 2xx decode errors unwrapped |
| Endpoints.SendMessageIgnoresContext | dory/Services/APIService.swift:229-245 | `sendMessage` sends the message alone: the conversation id and the retrieval flag do not change the call |
| Endpoints.WrappersNeedToken | dory/Services/APIService.swift:238-256 | `sendMessage`, `getDocument` and `ingestText` all require auth, so none is sent without a stored token |
| Endpoints.DocumentIdInPath | dory/Services/APIService.swift:251-256 | The document path is "/api/documents/" with the id appended verbatim |
| DateDecoding.ChainFirstSuccess | dory/Services/APIService.swift:45-69 | The first of the three parsers that succeeds gives the date, and the decode fails only if all three fail. The shared options survive exactly when the first attempt succeeds |
| DateDecoding.SharedFormatter.DecodeDate | dory/Services/APIService.swift:43-69 | One decode through the shared formatter: its result and the options it leaves behind, as the chain defines them |
| DateDecoding.ReducedOptionsPersist | dory/Services/APIService.swift:43-56 | Decoding strings in order, the options stay with fractional seconds only if every string was accepted at the first attempt; once reduced, they stay reduced |
| DateDecoding.SharedAgreesWhileFractional | dory/Services/APIService.swift:41-69 | The shared formatter gives the intended result for a string as long as every earlier string parsed at its first attempt |
| DateDecoding.SharedFormatterRejectsLaterFractionalDate | dory/Services/APIService.swift:53 | As written: a whole-seconds timestamp followed by a fractional one makes the second decode fail, although alone it decodes |
| DateDecoding.DecodeFresh | dory/Services/APIService.swift:41-69 | As intended: a string the fractional-seconds parser accepts decodes to that parser's value, whatever came before; failure iff all three parsers fail |
| Text.Trim | dory/ViewModels/ChatViewModel.swift:61 | The trimmed text is an infix of the input with only whitespace and newlines cut off before and after it; it has no whitespace or newline at either end, and it is empty iff the input is blank |
| Text.IntToStringInjective | dory/ViewModels/TextViewModel.swift:59 | Distinct integers are rendered as distinct decimal texts |
| Text.IntToStringRoundTrip | dory/ViewModels/TextViewModel.swift:59 | The decimal rendering of an integer parses back to it |
| Text.JoinComponents | dory/Models/User.swift:17 | Splitting on a separator and joining with it restores the string, so the first piece is the text before the first separator |
| Models.DisplayNamePrefersName | dory/Models/User.swift:16-18 | A present name is the display name verbatim, even when empty |
| Models.DisplayNameFromEmail | dory/Models/User.swift:17 | Without a name, the display name is the email's prefix before the first "@" (the whole email when it has none), never contains "@", and the "User" fallback is never taken |
| DetectedEvents.DecodeOptionalDate | dory/Services/APIService.swift:45-69 | An absent date field decodes to no date and leaves the shared options alone. A present one fails iff all three parsers reject it under the current options; a fractional parse under fractional options gives that date, else the whole-seconds parse is used. The options survive iff they were fractional and the date parsed with fractional seconds (or was absent) |
| DetectedEvents.DecodeEvent | dory/Models/DetectedEvents.swift:10-18 | Fields decode in declared order, with `endTime` seeing the options `startTime` left. An event decodes iff id, title and confidence are present and both dates parse in that order. The decoded event carries id, title, confidence, recurrence and source text as given, and each date as parsed (absent stays absent). The options survive iff they were fractional and either decoding stopped before the dates or every present date parsed with fractional seconds |
| DetectedEvents.DecodeEvents | dory/Models/DetectedEvents.swift:25-28 | Events decode in order through the shared options, and the first failing event fails the list. A decoded list has one event per element with every required field as sent and each date present iff sent. The options are never restored: a completed decode keeps them iff they were fractional and every date parsed with fractional seconds |
| DetectedEvents.DecodeResponse | dory/Models/DetectedEvents.swift:20-28 | The response decodes iff `success`, the events and `count` are present and the events decode; it then carries `success`, `count` and the decoded events as given. Options reduced by the events stay reduced even when decoding fails afterwards |
| DetectedEvents.DecodesEachAloneWhileOptionsHold | dory/Models/DetectedEvents.swift:25-28 | While the options cannot change (already reduced, or every date fractional), the list decodes iff every event decodes on its own, each to its own result |
| DetectedEvents.EarlierWholeSecondsRejectsLaterEvent | dory/Services/APIService.swift:53 | As written, order matters: an event whose start is in whole seconds makes a later event with a fractional, offset start fail, and the whole list with it, although each event decodes alone and the reversed list decodes |
| DetectedEvents.MissingRequiredFieldRejectsAll | dory/Models/DetectedEvents.swift:10-18 | One event lacking a required field makes the whole response undecodable, whatever the shared options |
| DetectedEvents.CountIsNotChecked | dory/Models/DetectedEvents.swift:25-28 | The decoded `count` is kept as sent, whatever the number of events |
| DetectedEvents.EventsPathIsDocumentPath | dory/Models/DetectedEvents.swift:33-36 | The id is not escaped, so the events request for `id` goes to the same endpoint as the document request for `id + "/events"` |
| DetectedEvents.FetchDetectedEvents | dory/Models/DetectedEvents.swift:31-39 | GET of the events path with auth, sent iff the URL forms and a token is stored; otherwise invalidURL or unauthorized. Once sent, the outcome is `request`'s dispatch of the reply with `data` taken out. It is a value iff the reply is 2xx HTTP and the payload decodes, and then it is the decoded `data` unchanged. A 2xx payload that fails to decode gives decodingError, and 401 gives unauthorized. Every failure is an APIError. The shared options are read by the decode and passed on: they can change only when a 2xx HTTP reply is decoded, and never back to fractional seconds |
| DetectedEventsView.DetectedEventsViewModel.BeginLoad | dory/ViewModels/DetectedEventsViewModel.swift:18-20 | Loading starts and the error is cleared; events and selection untouched |
| DetectedEventsView.DetectedEventsViewModel.FinishLoad | dory/ViewModels/DetectedEventsViewModel.swift:22-39 | Success replaces the events and selects exactly their ids, so `selectedEvents` is then the whole list in order; failure keeps both and sets the error text; loading ends either way |
| DetectedEventsView.DetectedEventsViewModel.Toggle | dory/ViewModels/DetectedEventsViewModel.swift:42-48 | The selection becomes its toggle at the event's id; nothing else changes |
| DetectedEventsView.Toggled | dory/ViewModels/DetectedEventsViewModel.swift:42-48 | Membership of exactly the toggled id flips; every other id keeps its membership |
| DetectedEventsView.ToggleInvolution | dory/ViewModels/DetectedEventsViewModel.swift:42-48 | Toggling the same event twice restores the selection |
| DetectedEventsView.SelectedOf | dory/ViewModels/DetectedEventsViewModel.swift:50-52 | An event is in the result iff it is in the list and its id is selected; the result is no longer than the list |
| DetectedEventsView.SelectedOfAppend | dory/ViewModels/DetectedEventsViewModel.swift:50-52 | The filter distributes over concatenation, so it keeps list order |
| DetectedEventsView.SelectedOfIgnoresUnknownIds | dory/ViewModels/DetectedEventsViewModel.swift:50-52 | Selected ids with no matching event contribute nothing |
| DetectedEventsView.LoadSelectsAll | dory/ViewModels/DetectedEventsViewModel.swift:27-28 | Right after a successful load, the selected events are all events in order |
| DetectedEventsView.FetchErrorText | dory/ViewModels/DetectedEventsViewModel.swift:30-37 | An APIError shows its own description; any other error is prefixed "Failed to load events: " |
| ChatView.ChatViewModel.BeginSend | dory/ViewModels/ChatViewModel.swift:60-69 | Blank input changes nothing and sends nothing. Otherwise the trimmed text is appended as a user message and sent with the current conversation id; the input is cleared, loading starts and the error is cleared |
| ChatView.ChatViewModel.FinishSend | dory/ViewModels/ChatViewModel.swift:71-97 | Success adopts the reply's conversation id and appends one non-user message with the reply; failure sets only the error text; loading ends either way |
| ChatView.ChatViewModel.StartNewChat | dory/ViewModels/ChatViewModel.swift:102-105 | Conversation id and messages are cleared; input, loading and error are untouched |
| TextIngest.OptionalFilename | dory/ViewModels/TextViewModel.swift:54 | An empty file name is sent as none, any other as is |
| TextIngest.IngestedTextShowsCount | dory/ViewModels/TextViewModel.swift:59 | The success text determines the chunk count |
| TextIngest.TextViewModel.BeginIngest | dory/ViewModels/TextViewModel.swift:41-55 | Blank text sets only "Text cannot be empty" and sends nothing; otherwise loading starts, both messages are cleared, and the untrimmed text is sent with the optional file name |
| TextIngest.TextViewModel.FinishIngest | dory/ViewModels/TextViewModel.swift:57-70 | Success records the document id and the chunk count, shows the count, and clears the text but not the file name; failure sets only the error; loading ends either way |
| VoiceIngest.SpeechInputViewModel.StartRecording | dory/ViewModels/VoiceInputViewModel.swift:48-75 | The transcript is cleared and recording flagged before setup can throw, so both stay set on failure; a request is held once the session is set up, and a task only when a recognizer exists |
| VoiceIngest.SpeechInputViewModel.Recognized | dory/ViewModels/VoiceInputViewModel.swift:70-74 | A recognition result replaces the transcript |
| VoiceIngest.SpeechInputViewModel.StopRecording | dory/ViewModels/VoiceInputViewModel.swift:77-86 | Recording ends and the request and task are dropped; the transcript is kept |
| VoiceIngest.SpeechInputViewModel.BeginIngest | dory/ViewModels/VoiceInputViewModel.swift:88-102 | A blank transcript sets only "No transcript to ingest"; otherwise the untrimmed transcript is sent under the timestamped file name |
| VoiceIngest.SpeechInputViewModel.FinishIngest | dory/ViewModels/VoiceInputViewModel.swift:104-118 | Success records the document and the chunk count and clears the transcript; failure sets only the error and keeps the transcript; loading ends either way |
| VoiceIngest.VoiceFilenameHoldsTimestamp | dory/ViewModels/VoiceInputViewModel.swift:101 | The voice file name is never empty: "voice_recording_", the timestamp, ".txt", so the timestamp can be read back from it |
| Keychain.KeychainStore.Save | dory/Services/KeychainService.swift:12-25 | Add-only store of the token's UTF-8 bytes; true iff the add succeeds (reachable, no existing item) |
| Keychain.KeychainStore.Load | dory/Services/KeychainService.swift:28-46 | The token iff the item is found and its bytes are valid UTF-8 |
| Keychain.KeychainStore.Delete | dory/Services/KeychainService.swift:48-57 | True on success or item-not-found; the item is removed |
| Keychain.KeychainStore.ClearAll | dory/Services/KeychainService.swift:60-63 | Deletes exactly the token and the user id entries, ignoring the results |
| Keychain.SaveThenLoad | dory/Services/KeychainService.swift:12-46 | A save succeeds iff the keychain is reachable and holds no item for the account; after it, loading gives the token back |
| Keychain.SaveDoesNotReplace | dory/Services/KeychainService.swift:23-25 | A second save under the same account fails, and the first token is what loads |
| Keychain.DeleteForgets | dory/Services/KeychainService.swift:48-57 | Delete reports success iff the keychain is reachable; afterwards nothing loads for that account and other accounts are untouched |
| Keychain.ClearAllForgetsCredentials | dory/Services/KeychainService.swift:60-63 | After clearing, neither entry loads and every other item remains |
| AuthServiceModel.LoadUser | dory/Services/AuthService.swift:84-90 | A user comes back iff the slot holds data that decodes as a user |
| AuthServiceModel.AuthService.SignInWithGoogle | dory/Services/AuthService.swift:16-51 | No window: code -1. A Google error propagates. No ID token: code -2, before the backend. With both, the result is exactly the backend login's outcome, failures unchanged. Any failure leaves both stores as they were. On success the response's token is saved add-only (the save's result is ignored), the response's user stored, and the response returned |
| AuthServiceModel.AuthService.CheckAuthStatus | dory/Services/AuthService.swift:54-71 | With no token, the stored user is cleared and none is returned. With a token, the stored user is returned when it decodes, and the token is kept either way |
| AuthServiceModel.AuthService.SignOut | dory/Services/AuthService.swift:97-107 | The keychain's token and user id are deleted and the stored user removed |
| AuthServiceModel.RestoredIff | dory/Services/AuthService.swift:54-71 | A session is restored iff a token is found and the stored user decodes, and it is that user |
| AuthServiceModel.SignInIsRestored | dory/Services/AuthService.swift:40-66 | After signing in on a reachable keychain without a token, the next session check restores the signed-in user |
| AuthServiceModel.SignedOutIsNotRestored | dory/Services/AuthService.swift:97-107 | After sign-out on a reachable keychain, nothing is restored |
| AuthServiceModel.SignInOverStaleToken | dory/Services/AuthService.swift:40-45 | A sign-in while an earlier token remains stored (the session check reported no user but kept it) succeeds, yet the earlier token is what loads |
| AuthView.AuthViewModel.constructor | dory/ViewModels/AuthViewModel.swift:14-24 | `init` returns with no user, not authenticated, not loading and no error; the session check is only spawned and runs later as `BeginCheck` then `FinishCheck` |
| AuthView.AuthViewModel.BeginCheck | dory/ViewModels/AuthViewModel.swift:26-29 | Before the await, loading is on and nothing else changes |
| AuthView.AuthViewModel.FinishCheck | dory/ViewModels/AuthViewModel.swift:29-42 | The service's restore runs: with no token found, its stored user is cleared, and otherwise kept. The view model's user is exactly what is restored; authenticated iff there is a user; loading ends; the error is untouched |
| AuthView.AuthViewModel.BeginSignIn | dory/ViewModels/AuthViewModel.swift:44-49 | Before the await, loading is on and the error is cleared; the user is untouched |
| AuthView.AuthViewModel.FinishSignIn | dory/ViewModels/AuthViewModel.swift:49-62 | The result is the backend login's outcome once a window and an ID token are there. Success signs in the response's user, and the service stores that user and saves the response's token add-only. Failure changes only the error text and leaves both stores as they were. Loading ends either way; authenticated iff there is a user |
| AuthView.AuthViewModel.SignOut | dory/ViewModels/AuthViewModel.swift:66-73 | The service clears its stores; user none and not authenticated |
| PdfIngest.PdfIngestViewModel.UploadPdf | dory/ViewModels/PdfIngestViewModel.swift:38-39 | The state becomes uploading; a running poll is not cancelled |
| PdfIngest.PdfIngestViewModel.UploadFinished | dory/ViewModels/PdfIngestViewModel.swift:41-52 | Success: processing of the returned id, polling it (the previous task cancelled). Failure: failed with the error's description, tasks untouched |
| PdfIngest.PdfIngestViewModel.StartPolling | dory/ViewModels/PdfIngestViewModel.swift:55-58 | The referenced task is cancelled and a new running task for the document, waiting at its first loop head, is started and referenced; at most one uncancelled loop runs, and it is the referenced one |
| PdfIngest.PdfIngestViewModel.CancelPolling | dory/ViewModels/PdfIngestViewModel.swift:81-83 | The referenced task is marked cancelled; no loop stays active; the state is untouched |
| PdfIngest.PdfIngestViewModel.LoopEntered | dory/ViewModels/PdfIngestViewModel.swift:59-61 | Only a running task that has not been cancelled and waits at its loop head passes it; it then sleeps and fetches; the state is untouched |
| PdfIngest.PdfIngestViewModel.LoopHeadCancelled | dory/ViewModels/PdfIngestViewModel.swift:59 | Only a running task that waits at its loop head and has been cancelled exits there, without fetching; the state is untouched |
| PdfIngest.PdfIngestViewModel.PollReturned | dory/ViewModels/PdfIngestViewModel.swift:59-77 | Only a task past its loop head has a fetch return. The state follows the poll ("ready": completed; "failed": failed with "PDF processing failed"; anything else: unchanged) even when the task was cancelled during its sleep; the loop exits on a terminal status or, if cancelled, at the next head; otherwise it passes that head at once |
| PdfIngest.PdfIngestViewModel.RunPolling | dory/ViewModels/PdfIngestViewModel.swift:55-83 | The loop of a freshly started task, run through the event steps, with `cancelPolling()` landing before a chosen loop head. It stops at the first terminal status, at that head, or when the script runs out, and the state is what the fetches it made define. Afterwards the task is finished exactly when the loop returned or exited at the cancelled head, so polling is no longer active and the task cannot fetch again. The task is cancelled exactly when the cancel landed, and no other task changes. The run is a legal trace of the per-task event machine that ends in the same state and task record, with one fetch per returned status |
| PdfIngest.PolledWithoutTerminal | dory/ViewModels/PdfIngestViewModel.swift:74-76 | Non-terminal statuses and fetch errors leave the state unchanged, with no cap on retries |
| PdfIngest.PolledUntilTerminal | dory/ViewModels/PdfIngestViewModel.swift:65-73 | The first terminal status decides the state; nothing after it is fetched |
| PdfIngest.ProcessingThenReady | dory/ViewModels/PdfIngestViewModel.swift:59-73 | Three "processing" polls then "ready" complete the document after four fetches |
| PdfIngest.ErrorsThenReady | dory/ViewModels/PdfIngestViewModel.swift:74-76 | Two fetch errors then "ready" complete the document |
| PdfIngest.ReplaysSnoc | dory/ViewModels/PdfIngestViewModel.swift:59-77 | Extending a legal run of a task by one enabled event gives a legal run, whose state, task record and fetch count move by exactly that event |
| PdfIngest.PollIgnoresCurrentState | dory/ViewModels/PdfIngestViewModel.swift:34-68 | A "ready" poll completes the document even after the state was reset to idle |
| PdfIngest.FinishedIsInert | dory/ViewModels/PdfIngestViewModel.swift:59-73 | A task whose loop has exited never fetches again and never changes the state, whatever cancellations follow |
| PdfIngest.CancelledBeforeHeadIsInert | dory/ViewModels/PdfIngestViewModel.swift:55-59 | A task cancelled before its loop head checks (as after `startPolling` then `cancelPolling`) never fetches and never changes the state |
| PdfIngest.CancelledInSleepFetchesOnce | dory/ViewModels/PdfIngestViewModel.swift:59-83 | A task cancelled after passing its loop head fetches at most once more, and that fetch can still complete its document, overwriting whatever state a newer document set |

## Left out

- Network transport, `HTTPURLResponse` casting, URL parsing and JSON encoding and decoding are inputs (the `Environment` record and decoder functions). Only what the client does with their results is modelled.
- The ISO 8601 and fixed-pattern date parsers are function inputs; calendar arithmetic is not modelled.
- Concurrency is not modelled:
  - `Task` spawning, `@MainActor` and the 4-second sleep become discrete events (`LoopEntered`, `LoopHeadCancelled`, `PollReturned`) and the scripted `RunPolling`.
  - Concurrent access to the shared date formatter is not modelled.
- Floating point is not modelled: event `confidence` and chunk `score` are carried as `real` and never computed with. A decoded `Date` is an integer count of seconds rather than Foundation's floating-point `Date`; dates are only ever parser outputs, so nothing depends on the sub-second part.
- Randomness and time are parameters:
  - the UUID multipart boundary;
  - the `ChatMessage` ids;
  - the `Date().timeIntervalSince1970` text in the voice file name.
- Google Sign-In, the window lookup and `GIDSignIn.signOut()` are inputs or omitted. The SDK's sign-out has no effect on the modelled stores.
- Audio session, engine, taps and recognizer callbacks are reduced to the setup stage that throws and to whether a request and a task are held. `requestPermission` is not modelled.
- Logging (`print`) is not modelled, and neither are the decoding diagnostics of `loginWithGoogle`.
- `Upload.ByteBuffer.AppendString` does not model the no-op branch when UTF-8 conversion fails: every Dafny string is a sequence of Unicode scalar values, so the conversion cannot fail.
- AuthServiceModel.AuthService.SaveUser does not model a JSON encoding failure of `User`. Encoding a `User` cannot fail, and the default decoder reads it back, so the slot holds a decodable user.
- Keychain.KeychainStore models every `OSStatus` other than success, duplicate and not-found as one "unreachable" condition. Apart from that, items are plain account-to-bytes entries.
- PdfIngest.PdfIngestViewModel.RunPolling runs the loop only as long as the scripted polls last. An endless loop (never ready, never cancelled) is represented by a script that runs out.
- The source does not compile as written in three places, so the model follows the evident intent:
  - `IngestRequest` carries `text` and `filename` (the source passes `content:`);
  - the chat request carries the message only (the source calls a one-argument initializer of a three-field struct);
  - the signed-in user is `AuthResponse.user` (the source reads `response.data.user`);
  - `Constants.UserDefaultsKeys.currentUser` is not defined in dory/Utils/Constants.swift, so the key is modelled as the constant "currentUser".
- The code differs from the design in four ways; the model follows the code:
  - Cancelling polling may still let the fetch under way change the state (`PollReturned`, `CancelledInSleepFetchesOnce`). This happens when the status reply has already arrived as the cancel lands. A fetch started in a cancelled task usually fails on the cancellation instead; that error is retried silently and the loop exits at its head. The model allows both, because the transport is an input.
  - Session restore trusts the locally stored user without asking the backend, and nothing clears the token on `unauthorized`.
  - Polling retries without bound and without backoff.
  - The upload does not cancel a running poll.
- The SwiftUI views, components, the app entry, `EventKitService` and `LoopingVideoBackgroundView` are not part of this model.

## Findings

| source | as written | input that shows it | evidently intended | confidence | as-written member | corrected member |
|---|---|---|---|---|---|---|
| dory/Services/APIService.swift:53 | The date closure sets the one shared formatter's options to whole seconds whenever its first attempt fails, and never restores them | Decode "2026-01-08T10:00:00Z", then "2026-01-08T10:00:00.123+01:00": the second decode's first two attempts both use whole-second options and fail, and the fixed pattern, whose zone is the literal 'Z', cannot match a numeric offset, so the second decode fails | Each decode tries fractional seconds first, so a fractional timestamp decodes wherever it comes | medium (assumes the platform ISO formatter rejects fractional seconds under whole-second options), not executed | DateDecoding.SharedFormatterRejectsLaterFractionalDate | DateDecoding.DecodeFresh |

The events decoder (`DetectedEvents.DecodeEvents` and `DetectedEvents.FetchDetectedEvents`) keeps the shared options as written, so a fetch shows the discrepancy above (`DetectedEvents.EarlierWholeSecondsRejectsLaterEvent`). `DateDecoding.DecodeFresh` is the intended date decode; under it every date is decoded from fractional options, which is the case `DetectedEvents.DecodesEachAloneWhileOptionsHold` covers.
