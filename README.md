# PWC Davao chat widget: the chat-turn contract in Dafny

This project models the chat-turn contract of a college website's support
chat widget. The browser widget keeps a conversation and a busy flag and
sends one question at a time to a server route. The route validates the
question, frames it in a prompt template and passes it to a hosted language
model together with a fixed institution context. It answers with a
`{ reply }` body and an HTTP status. A small session context lets other
parts of the page open the chat with a seeded question.

Modules:

- `Text` (`text.dfy`): `trim()` over an explicit whitespace set, with what
  it guarantees. The result has no whitespace at either end. It is empty
  exactly for blank input. It is a slice of the input with only whitespace
  cut away. Trimming twice is trimming once.
- `Relay` (`relay.dfy`): the route's `POST` handler as a total function
  `Post(policy, body, generate)`. The body is `Unparsable`, `Null` or
  `Parsed(field)`. `generate` says how the model would answer a given call.
  The result records the model call made, if any, and the response.
- `Session` (`session.dfy`): the `ChatProvider` state as a class with
  `isOpen` and `initialMessage`, and the `useChatContext` provider guard.
- `Widget` (`widget.dfy`): the chat component as the class `ChatWidget`.
  The async `handleSendMessage` is split into `Submit`, which runs before
  the request, and `Complete`, which runs when the request settles. The
  class invariant `WellFormed` ties the conversation to the requests sent:
  - the greeting comes first, then user and assistant turns alternate;
  - the widget is busy exactly when the last turn is a user turn;
  - the requests are the user turns' contents, in order, all trimmed;
  - no turn is empty.
- `Flow` (`flow.dfy`): one turn end to end. Any message the widget accepts
  passes the relay's validation. The model then gets exactly the trimmed
  text. The user reads the model's text, a fallback for an empty text, or
  the relay's service-unavailable reply.

Where the code and the written design differ, the model follows the code:

- The relay also rejects `message: ""` as "Invalid message.".
- A body that parses to `null` gets the 500 reply, because destructuring it
  throws inside the outer `try`.
- The widget never looks at the response status. The relay's 400 and 500
  replies are shown as assistant turns verbatim.
- `handleSend` clears a non-blank input even when the widget is busy and
  nothing is sent. In the UI the input box is disabled while busy.
- The seeded message is taken at most once per mount. A whitespace-only
  seed sets the one-shot flag and clears the session's message, but sends
  nothing.
- A non-empty seed that arrives while a request is outstanding is consumed
  the same way: the flag is set and the session's message is cleared, but
  the busy guard of `handleSendMessage` refuses it, so it is never sent.

## Model

| member | source | states |
|---|---|---|
| `Text.Trim` | components/chatComponent.tsx:59-61 | the trimmed text has no whitespace at either end, and it is empty exactly when the input is blank (the send guard) |
| `Text.TrimIsInnerSlice` | components/chatComponent.tsx:61 | trimming removes only whitespace, and only at the two ends: the input is blank + trimmed text + blank |
| `Text.TrimmedIsFixed` | components/chatComponent.tsx:61 | a string with no whitespace at either end trims to itself |
| `Text.TrimIdempotent` | components/chatComponent.tsx:61 | trimming twice is trimming once, so the text sent is already in trimmed form |
| `Relay.PromptEmbedsMessage` | app/api/chat/route.ts:158 | the prompt is the `Student question: "` framing, the raw message verbatim, then `"` and the instruction line |
| `Relay.PromptInjective` | app/api/chat/route.ts:158 | distinct messages give distinct prompts |
| `Relay.Post` | app/api/chat/route.ts:138-171 | an unparsable body gives 400 "Invalid JSON body."; a missing, empty or non-string message gives 400 "Invalid message."; the model is called exactly for a valid message, with model name, the context as system instruction and the templated prompt; 200 exactly when the model produced text, which is returned verbatim; 500 with the fixed apology exactly for a `null` body or a failed model call; the status is always 200, 400 or 500 |
| `Relay.RejectedRequestIgnoresModel` | app/api/chat/route.ts:141-150 | a request that fails validation gets the same response whatever the model would do, and never a 200 |
| `Relay.FailureCauseHidden` | app/api/chat/route.ts:164-169 | two model failures with different causes give the same response |
| `Relay.EndpointExamples` | app/api/chat/route.ts:138-171 | the endpoint's documented request/response pairs: bad JSON, `{}`, empty message, `null`, and a stubbed answer echoed with 200 |
| `Session.ChatSession.constructor` | components/chatContext.tsx:15-17 | a provider starts closed with an empty seeded message |
| `Session.ChatSession.SetIsOpen` | components/chatContext.tsx:16 | sets the open flag and leaves the seeded message unchanged |
| `Session.ChatSession.SetInitialMessage` | components/chatContext.tsx:17 | sets the seeded message and leaves the open flag unchanged |
| `Session.ChatSession.OpenChatWithMessage` | components/chatContext.tsx:19-22 | seeds the message and opens the chat |
| `Session.UseChatContext` | components/chatContext.tsx:31-36 | throws "useChatContext must be used within ChatProvider" exactly when no provider encloses the caller, and otherwise returns the provider's session |
| `Widget.AssistantContent` | components/chatComponent.tsx:73-83 | the assistant turn is never empty: a non-empty reply verbatim, "Sorry, I could not process that." for a missing or empty reply, "Sorry, something went wrong. Please try again." for a transport failure |
| `Widget.SubmitKeepsWellFormed` | components/chatComponent.tsx:59-64 | appending a trimmed non-empty user turn while idle keeps the conversation shape and makes a request pending |
| `Widget.CompleteKeepsWellFormed` | components/chatComponent.tsx:75-85 | appending a non-empty assistant turn while a request is pending keeps the conversation shape and clears the busy state |
| `Widget.AlternatingCounts` | components/chatComponent.tsx:63-82 | in an alternating conversation opened by the assistant, user turns equal requests, and assistant turns lead by one until a user turn ends it |
| `Widget.TurnCounts` | components/chatComponent.tsx:58-87 | user turns equal requests sent; assistant turns equal one greeting plus one per settled request |
| `Widget.PendingRequestIsLastTurn` | components/chatComponent.tsx:59-70 | while busy, the last turn is the user turn whose content is the last request sent |
| `Widget.WithField` | components/chatComponent.tsx:269-323 | editing one settings input replaces that value and keeps the other four |
| `Widget.ChatWidget.constructor` | components/chatComponent.tsx:13-40 | a fresh widget holds only the greeting, is idle with an empty input, has settings closed, all five live and draft values at their defaults, and the one-shot flag unset |
| `Widget.ChatWidget.TypeInput` | components/chatComponent.tsx:211 | typing sets the input and nothing else |
| `Widget.ChatWidget.Submit` | components/chatComponent.tsx:58-70 | blank text or a busy widget changes nothing and sends nothing; otherwise exactly one user turn with the trimmed text is appended, the widget turns busy and the trimmed text is sent as `message`; the conversation invariant holds |
| `Widget.ChatWidget.Complete` | components/chatComponent.tsx:73-86 | exactly one assistant turn is appended after the earlier turns, its content fixed by the outcome, and the widget is idle again |
| `Widget.ChatWidget.Send` | components/chatComponent.tsx:89-94 | a non-blank input is passed to submit and cleared; a blank input is left as it is and nothing is sent |
| `Widget.ChatWidget.KeyPress` | components/chatComponent.tsx:96-101 | Enter without Shift behaves as send: a non-blank input is submitted and cleared, and a refused press (blank input or busy widget) adds no turn, sends nothing and leaves the busy flag; any other key changes nothing |
| `Widget.ChatWidget.InitialMessageEffect` | components/chatComponent.tsx:50-56 | a non-empty seeded message is taken only while the one-shot flag is unset: the flag is set, the message goes through submit and the session's message becomes ""; otherwise nothing changes; the flag is never reset |
| `Widget.ChatWidget.OpenSettings` | components/chatComponent.tsx:137 | the settings form opens |
| `Widget.ChatWidget.EditDraft` | components/chatComponent.tsx:269-323 | the drafts change in the edited field only |
| `Widget.ChatWidget.SaveSettings` | components/chatComponent.tsx:103-110 | all five live values take their drafts together, the drafts stay, the form closes |
| `Widget.ChatWidget.CancelSettings` | components/chatComponent.tsx:112-119 | all five drafts are reset to the live values, the live values are unchanged, the form closes |
| `Flow.AcceptedMessageReachesModel` | components/chatComponent.tsx:66-83 | a message the widget accepts passes the relay's validation: the model is called once with the trimmed text in the prompt, the status is never 400, and the assistant turn shows the model's text, the empty-reply fallback or the relay's apology |
| `Flow.HandleSendMessage` | components/chatComponent.tsx:58-87 | the whole handler: an accepted message adds exactly one user turn and one assistant turn and leaves the widget idle; a refused one changes nothing and calls no model |

## Left out

- Rendering, styling, animations, scrolling to the newest turn, the `maxLength` of the icon inputs and the disabled state of the input and button are presentation. They are not modelled.
- The network is not modelled. The widget's `fetch` and `response.json()` become a `Delivery`, either a reply or a transport failure.
- The model SDK (`getGenerativeModel`, `generateContent`, `response.text()`) is replaced by the function parameter `generate`. Its result is either `Generated(text)` or `Threw(cause)`.
- The institution context `PWC_CONTEXT` is prose for the model. It is the opaque `policy` parameter of `Relay.Post`.
- The `GEMINI_API_KEY` environment read and the `console.error` logging are left out.
- React scheduling is not modelled. Batched updates, stale closures and effect timing are out. Each handler is one atomic step on the current state, and a late response after unmount is not modelled.
- `Text.Trim`: JavaScript's `trim()` strips every Unicode space separator and line terminator. The model uses a fixed set of ten whitespace characters.
- `Widget.AssistantContent`: a `reply` that is a non-string truthy value would be displayed by the widget. The model treats it as missing, which it cannot be when the reply comes from this relay.
- `Widget.ChatWidget.Complete` requires a pending request. A late response after unmount is not modelled.
- `app/icon.tsx` generates an image from a remote URL. `components/homeLayout.tsx` only composes components. Neither is part of this model.
