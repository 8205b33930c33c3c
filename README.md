# Service-center AI console: a Dafny model of its core

The console is a React front end for an automotive service center. It hands
three jobs to a hosted Gemini model:

- booking conversations (`ChatBooking`),
- diagnosis of a photographed fault (`VisualDiagnosis`),
- sentiment analysis of a batch of customer reviews (`FeedbackInsight`).

All three go through one service module (`geminiService`).

This project models that core.

- `Types` holds the shared records of `types.ts`. Message timestamps are dropped.
- `GeminiService` holds the rest of the service module:
  - the API-key check;
  - the projection of chat history into the SDK's `{role, parts}` shape;
  - the chat request, with its fixed persona text;
  - the image request (inline image first, fixed prompt second);
  - the review prompt (a fixed prefix, then the reviews joined by `"\n---\n"`);
  - the two response schemas, as data;
  - the "No response from AI" check that runs before any parse.
- `ChatBooking`, `VisualDiagnosis` and `FeedbackInsight` model the three views.
  - Each view's state is a class whose fields are the component's `useState` variables.
  - Each asynchronous handler is split at its `await` into a start method and a
    completion method, so the gap becomes one step after another.
  - Every method is proved against a step function on a state value. The lemmas
    (guards, append-only history, result superseded or kept, loading always
    cleared, whole-session transcripts) are stated about those step functions.
- `JsStrings` models the JavaScript built-ins the core relies on:
  - the whitespace set of `trim`;
  - `join`;
  - `split` with a non-empty separator;
  - truthiness of a possibly-undefined string.
- `Wrappers` holds `Option` and `Result`.

The SDK calls are function parameters, from the request the service builds to
the reply the SDK delivers. A reply is text that may be undefined, or a failed
call. So the contracts can say which request reaches the model, and that a
missing key or an empty reply decides the outcome whatever the model would
have answered. `JSON.parse(text) as T` is a parameter too.

## Behaviour worth noting

- **Role names.** Messages from the model carry the role `model`.
- **No schema validation.** The structured replies are not validated
  client-side. The source casts the parsed JSON without checking fields,
  types or enum values. The schemas only go to the model as part of the request.
- **Empty review batch.** An empty batch is not rejected. Its prompt is the
  prefix alone (`GeminiService.AnalyzeCustomerFeedback`).
- **Chat failures.** A failed chat turn appends the fixed connection message
  `系统连接异常，请稍后再试。`. An empty reply appends a different fixed text,
  `抱歉，我现在无法回答。`.

## Model

| member | source | states |
|---|---|---|
| JsStrings.TrimEmptyIff | components/ChatBooking.tsx:23 | `!s.trim()` holds exactly when every character of `s` is ECMAScript whitespace or a line terminator |
| JsStrings.SplitJoin | services/geminiService.ts:80 | splitting a `join` at the separator gives back exactly the parts, in order, when no part contains the separator's first character |
| JsStrings.Trim | components/ChatBooking.tsx:23 | `s.trim()`, built from `TrimStart` and `TrimEnd`; its emptiness is characterised in `JsStrings.TrimEmptyIff` |
| JsStrings.Join | services/geminiService.ts:80 | `parts.join(sep)`; `JsStrings.SplitJoin` proves `Split` inverts it |
| JsStrings.Split | components/VisualDiagnosis.tsx:20 | `s.split(sep)` for a non-empty separator: always at least one field; its fields are characterised in `JsStrings.SplitJoin` and `JsStrings.SplitFieldsIff` |
| JsStrings.SplitFieldsIff | components/VisualDiagnosis.tsx:20 | `s.split(c)` has a second field exactly when `c` occurs in `s` |
| Types.RoleNameRoundTrip | types.ts:10 | the wire names `user`/`model` identify the role exactly |
| GeminiService.GetClient | services/geminiService.ts:4-10 | a client exists exactly when the key is defined and non-empty, and carries that key; otherwise the call fails with "API Key is missing" |
| GeminiService.ProjectHistory | services/geminiService.ts:25-28 | the projection keeps the length; entry i keeps its role, and its text becomes the single text part |
| GeminiService.HistoryRoundTrip | services/geminiService.ts:25-28 | every entry, role, text and the turn order can be read back from the projected history |
| GeminiService.HistoryOfProjects | services/geminiService.ts:25-28 | conversely, SDK history of single text parts is the projection of what it reads back to |
| GeminiService.ChatRequestFor | services/geminiService.ts:13-31 | the chat request uses the fixed model and persona text, carries the given history with nothing lost or reordered, and sends the new utterance on its own |
| GeminiService.GenerateChatResponse | services/geminiService.ts:12-33 | a missing key fails before any request; otherwise the reply text (possibly undefined) of the built request is returned, or the SDK's failure is propagated |
| GeminiService.MissingKeyNeverCalls | services/geminiService.ts:4-13 | with a missing key the outcome is the same whatever the model would reply: no request is sent |
| GeminiService.DiagnosisSchemaShape | services/geminiService.ts:38-48 | the required list is exactly the five declared properties, in order; `severity` is a string property whose enum is the four severity names |
| GeminiService.SeverityNamesExact | services/geminiService.ts:42 | a string is in the severity enum exactly when it names one of the four `AnalysisResult` severities |
| GeminiService.FeedbackSchemaShape | services/geminiService.ts:82-99 | all four properties are required; `keyTopics` and `actionItems` are arrays of plain strings with no length bound |
| GeminiService.DiagnosisRequest | services/geminiService.ts:50-70 | the image part comes first, with data and MIME type unchanged; it is the only image; the fixed prompt is the only text; JSON under the diagnosis schema is requested |
| GeminiService.FeedbackPrompt | services/geminiService.ts:103 | the prompt starts with the fixed prefix |
| GeminiService.FeedbackPromptRoundTrip | services/geminiService.ts:80-103 | the body after the prefix splits at the separators into exactly the reviews, in order (n reviews, n-1 separators), when no review contains a line break |
| GeminiService.FeedbackRequest | services/geminiService.ts:101-108 | text-only contents holding the review prompt, with JSON under the feedback schema requested |
| GeminiService.ReadStructured | services/geminiService.ts:72-74 | an SDK failure propagates; an undefined or empty text fails with "No response from AI"; only non-empty text is parsed |
| GeminiService.EmptyResponseNeverParsed | services/geminiService.ts:110-111 | an empty or undefined response fails the same way whatever the parser would do: nothing is parsed |
| GeminiService.AnalyzeVehicleImage | services/geminiService.ts:35-75 | a missing key fails before any request; otherwise the outcome is the structured read of the reply to the diagnosis request |
| GeminiService.AnalyzeCustomerFeedback | services/geminiService.ts:77-113 | a missing key fails before any request; otherwise the outcome is the structured read of the reply to the feedback request; an empty batch is not rejected |
| ChatBooking.ToHistory | components/ChatBooking.tsx:32 | the `{role, text}` history keeps one entry per message; it is inverted by `MessagesOf` in `ChatBooking.ToHistoryRoundTrip` |
| ChatBooking.ToHistoryRoundTrip | components/ChatBooking.tsx:32 | the history handed to the gateway determines the message list exactly: same length, order, roles and texts |
| ChatBooking.ReplyText | components/ChatBooking.tsx:38-44 | the appended model text is the reply when it has text, the empty-reply fallback when it is empty or undefined, the connection fallback on failure; never empty |
| ChatBooking.SendDisabled | components/ChatBooking.tsx:23 | the send guard, also the button's `disabled` (components/ChatBooking.tsx:99); step predicate, its meaning is in `ChatBooking.SendGuard` |
| ChatBooking.SetInput | components/ChatBooking.tsx:92 | step function; its properties are in `ChatBooking.DisciplinePreserved` and `ChatBooking.ChatBookingView.OnInputChange` |
| ChatBooking.Send | components/ChatBooking.tsx:22-34 | step function; its properties are in `ChatBooking.SendGuard` and `ChatBooking.SendAccepted` |
| ChatBooking.Receive | components/ChatBooking.tsx:36-45 | step function; its properties are in `ChatBooking.ReceiveAppendsReply` |
| ChatBooking.SendGuard | components/ChatBooking.tsx:23 | a send is rejected exactly when the input is blank or a reply is pending, and a rejected send changes nothing |
| ChatBooking.SendAccepted | components/ChatBooking.tsx:25-34 | an accepted send appends one user message with the untrimmed input, clears the input, sets loading, and hands the gateway the messages as they were before the append |
| ChatBooking.ReceiveAppendsReply | components/ChatBooking.tsx:37-45 | settling appends exactly one non-empty model message, keeps all earlier messages and the input, and clears loading |
| ChatBooking.TurnThroughGateway | components/ChatBooking.tsx:22-47 | one accepted turn through `generateChatResponse` adds the user message and then the reply, or the empty-reply fallback, or the connection fallback (missing key or failed call); loading ends false |
| ChatBooking.InitialIsDisciplined | components/ChatBooking.tsx:7-11 | a fresh session holds exactly the model greeting, with nothing pending |
| ChatBooking.DisciplinePreserved | components/ChatBooking.tsx:22-47 | typing, sending and settling keep the greeting first, user/model messages strictly alternating, and loading true exactly when a user message awaits its reply |
| ChatBooking.AppendKeepsDiscipline | components/ChatBooking.tsx:25-44 | appending a message of the role whose turn it is, and flipping the pending flag, keeps the discipline |
| ChatBooking.TranscriptPrefix | components/ChatBooking.tsx:26-44 | the transcript of the first k turns is the first 2k+1 messages of the whole transcript: messages are only appended |
| ChatBooking.PlayTurnAppends | components/ChatBooking.tsx:22-47 | from an idle state with an empty input, a non-blank utterance and its settled reply are appended, in that order, and the session is idle again |
| ChatBooking.PlayFollowsTranscript | components/ChatBooking.tsx:22-47 | after any script of non-blank turns the session is idle, with an empty input and exactly one user and one model message per turn, in order |
| ChatBooking.HistoryOnTurn | components/ChatBooking.tsx:31-34 | on turn k+1 the gateway receives exactly the 2k+1 previously committed messages, in original order, and the new utterance separately |
| ChatBooking.ChatBookingView.constructor | components/ChatBooking.tsx:7-11 | the view starts with the greeting alone, an empty input and nothing pending |
| ChatBooking.ChatBookingView.OnInputChange | components/ChatBooking.tsx:92 | typing replaces the input and changes nothing else |
| ChatBooking.ChatBookingView.HandleSend | components/ChatBooking.tsx:22-35 | the new state and the gateway arguments are those of the `Send` step |
| ChatBooking.ChatBookingView.Complete | components/ChatBooking.tsx:36-46 | the new state is that of the `Receive` step |
| VisualDiagnosis.DataUrlPayload | components/VisualDiagnosis.tsx:20 | the payload is undefined exactly when the data URL has no comma |
| VisualDiagnosis.DataUrlPayloadOfEncoding | components/VisualDiagnosis.tsx:18-21 | for a data URL `header,payload` the payload comes back unchanged |
| VisualDiagnosis.SeverityColor | components/VisualDiagnosis.tsx:45-53 | the gray default is returned exactly for strings other than the four severity names |
| VisualDiagnosis.SeverityColorsDistinct | components/VisualDiagnosis.tsx:45-53 | each severity gets its own class string, none of them the gray default |
| VisualDiagnosis.Upload | components/VisualDiagnosis.tsx:13-28 | step function; its properties are in `VisualDiagnosis.UploadResets` |
| VisualDiagnosis.StartAnalysis | components/VisualDiagnosis.tsx:30-33 | step function; its properties are in `VisualDiagnosis.StartAnalysisGuard` |
| VisualDiagnosis.FinishAnalysis | components/VisualDiagnosis.tsx:34-42 | step function; its properties are in `VisualDiagnosis.FinishAnalysisOutcome` |
| VisualDiagnosis.AnalyzeDisabled | components/VisualDiagnosis.tsx:91 | step predicate; its meaning is in `VisualDiagnosis.ButtonMatchesGuard` |
| VisualDiagnosis.UploadResets | components/VisualDiagnosis.tsx:13-28 | without a file nothing changes; with one the payload and type are recorded, result and error cleared, loading untouched |
| VisualDiagnosis.StartAnalysisGuard | components/VisualDiagnosis.tsx:30-35 | nothing happens without a non-empty image; otherwise loading is set, the error cleared, the result kept, and the image and type go to the gateway unchanged |
| VisualDiagnosis.FinishAnalysisOutcome | components/VisualDiagnosis.tsx:34-42 | loading ends false; success replaces the result; failure keeps the result and sets the fixed error text |
| VisualDiagnosis.ButtonMatchesGuard | components/VisualDiagnosis.tsx:91 | the button is enabled exactly when an analysis would start and none is loading |
| VisualDiagnosis.UploadThenAnalyze | components/VisualDiagnosis.tsx:20-35 | uploading `header,payload` then analysing sends exactly that payload and file type as the first part of the diagnosis request |
| VisualDiagnosis.AnalysisThroughGateway | components/VisualDiagnosis.tsx:30-43 | through `analyzeVehicleImage`, a missing key, a failed call or an empty reply keeps the result and sets the error; a parsed reply replaces the result |
| VisualDiagnosis.DiagnosisView.constructor | components/VisualDiagnosis.tsx:7-11 | no image, empty type, no result, not loading, no error |
| VisualDiagnosis.DiagnosisView.HandleImageUpload | components/VisualDiagnosis.tsx:13-28 | the new state is that of the `Upload` step |
| VisualDiagnosis.DiagnosisView.BeginAnalysis | components/VisualDiagnosis.tsx:30-35 | the new state and the gateway arguments are those of the `StartAnalysis` step |
| VisualDiagnosis.DiagnosisView.CompleteAnalysis | components/VisualDiagnosis.tsx:36-42 | the new state is that of the `FinishAnalysis` step |
| FeedbackInsight.MockReviews | components/FeedbackInsight.tsx:6-12 | the five fixed reviews; their shape is in `FeedbackInsight.MockBatch` |
| FeedbackInsight.ReviewTexts | components/FeedbackInsight.tsx:21 | same length as the reviews, each review's content in its place |
| FeedbackInsight.MockContentsSingleLine | components/FeedbackInsight.tsx:6-12 | no mock review text contains a line break |
| FeedbackInsight.MockBatch | components/FeedbackInsight.tsx:6-12 | the batch is five reviews rated 1 to 5, and its prompt body splits back into exactly their texts, in order |
| FeedbackInsight.StartRun | components/FeedbackInsight.tsx:18-22 | step function; its properties are in `FeedbackInsight.StartRunSendsBatch` |
| FeedbackInsight.FinishRun | components/FeedbackInsight.tsx:23-29 | step function; its properties are in `FeedbackInsight.FinishRunOutcome` |
| FeedbackInsight.RunDisabled | components/FeedbackInsight.tsx:43 | step predicate; it holds while a run is loading, as `FeedbackInsight.StartRunSendsBatch` and `FeedbackInsight.FinishRunOutcome` state |
| FeedbackInsight.StartRunSendsBatch | components/FeedbackInsight.tsx:18-22 | a run sets loading (disabling the button), keeps the analysis, and sends the content of every mock review in list order |
| FeedbackInsight.FinishRunOutcome | components/FeedbackInsight.tsx:23-29 | loading ends false; success replaces the analysis with no alert; failure keeps the analysis and raises the fixed alert |
| FeedbackInsight.RunThroughGateway | components/FeedbackInsight.tsx:18-29 | through `analyzeCustomerFeedback`, a missing key, a failed call or an empty reply keeps the analysis and raises the alert; a parsed reply replaces it |
| FeedbackInsight.Fills | components/FeedbackInsight.tsx:63-64 | there are n stars, and star i is filled exactly when i < rating |
| FeedbackInsight.FilledCount | components/FeedbackInsight.tsx:63-64 | of n stars, the number filled is the rating cut to the range 0..n |
| FeedbackInsight.StarFillsRating | components/FeedbackInsight.tsx:63-64 | a rating r in 0..5 shows exactly r filled stars, the first r |
| FeedbackInsight.SentimentClass | components/FeedbackInsight.tsx:88 | green exactly when the sentiment is exactly `正面`, orange otherwise |
| FeedbackInsight.FeedbackView.constructor | components/FeedbackInsight.tsx:15-16 | no analysis, not loading |
| FeedbackInsight.FeedbackView.BeginRun | components/FeedbackInsight.tsx:18-22 | the new state and the batch are those of the `StartRun` step |
| FeedbackInsight.FeedbackView.CompleteRun | components/FeedbackInsight.tsx:23-29 | the new state and the alert are those of the `FinishRun` step |

## Left out

- The Gemini SDK (`ai.chats.create`, `chat.sendMessage`, `ai.models.generateContent`) is a network library. It is a function parameter from request to reply, so its behaviour is whatever the caller supplies.
- `JSON.parse(text) as T` is a parameter. The source does no field, type or enum checking of the parsed value, so the model invents none. The parameter is typed: it takes the cast at its word, relying on the server-side schema. So a successful parse always yields a complete record with one of the four severities. `null`, a partial object or another severity string are not modelled. `VisualDiagnosis.SeverityColor` still handles an unknown severity string, as `getSeverityColor` does.
- `temperature: 0.4` in the image request is a floating-point setting and is not part of `GeminiService.GenerateConfig`.
- Schema descriptions are kept as strings. SDK schema fields the source does not set are absent, apart from `minItems`/`maxItems`, which are kept as `None` to state that the arrays have no bound.
- Timestamps (`new Date()`) and the 600 ms `setTimeout` are left out. Completion of a chat turn is one sequential step.
- Async interleavings are left out: typing or uploading while a request is pending, and a second analysis started through the handler while one is loading. Each handler is modelled as its start step followed, later, by its completion step. `handleSend` reads the `messages` of the render it closes over; the model takes that to be the current list, which the pending guard makes it in sequential runs.
- `FileReader`, `scrollIntoView`, `console.error`, `alert` and the rendering are I/O. Upload is modelled at the reader callback, with the data URL as input; the reader's null result is not modelled. The `alert` text is returned as a value.
- Review ratings are integers; a fractional rating is not modelled.
- The navigation shell (`App.tsx`, `Sidebar.tsx`), the dashboard cards and the presentation script are static view glue, with no behaviour beyond routing and copy.
