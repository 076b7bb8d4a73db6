# useStreamChat: a verified model of `streamMessage`

This project models the `useStreamChat` hook of a desktop chat and app-builder
client. The hook's `streamMessage` handles one outgoing chat request:

- It drops a request that is blank or has no chat id.
- It splits the attachments into "rag-document" ones and the others.
- It inlines every readable RAG document into the prompt. A document whose
  reported size is over 200 000 is cut to its first 200 000 characters.
- It marks the chat as streaming and calls the streaming transport.
- It reacts to the transport's `onUpdate`, `onEnd` and `onError` callbacks,
  and to a throw while the call is issued, by updating per-chat state kept in
  maps keyed by chat id.

The hook also returns accessors for the current chat's streaming flag and
error.

Files and modules:

- `wrappers.dfy` (`Wrappers`): `Option`, standing for `undefined`/`null`.
- `js_string.dfy` (`JsString`): `String.prototype.trim`, limited to the code
  points it strips (WhiteSpace and LineTerminator in ECMA-262).
- `rag_documents.dfy` (`RagDocuments`): the attachment partition, the
  per-document block format and truncation, and the joined text sent to the
  transport. These are pure functions, except for the `for` loop that
  collects the other attachments, which is a method with a loop.
- `chat_state.dfy` (`ChatState`): every atom the hook writes, as one
  `Snapshot` value. The hook's calls into code outside this model
  (transport, refreshes, toast, token count) are recorded in order in an
  effect log. Each step of an invocation is a function on the snapshot whose
  contract states what the step does, and the properties of whole
  invocations are proved as lemmas about those functions.
- `chat_atoms.dfy` (`StreamChat`): the class `ChatAtoms`. Its fields are the
  atoms, and each setter replaces a map with a copy that has one key set.
  There is one method per callback, plus `ReceiveUpdates`, which runs the
  `onUpdate` calls in a loop with the `hasIncrementedStreamCount` latch as a
  local, and `StreamMessage`, which calls them in order. Each method is proved to produce exactly the state that the
  matching `ChatState` function computes.

Inputs that the source gets from I/O are parameters of the model:

- `File.text` stands for what `file.text()` resolves to; `None` means the
  read rejected.
- `File.size` is present only when the size is a number.
- `Transport` says what the transport does: either it throws, or it sends
  some updates and then one `End` or one `Error`.
- `autoFixProblems` stands for `settings?.enableAutoFixProblems`.

Behaviours of the code worth noting:

- Truncation depends on the file's reported `size`, not on the length of the
  text.
- The hook also writes `streamCountById` and `recentStreamChatIds`, besides
  the messages, streaming and error maps.
- `onEnd` clears no error. The error of a chat whose stream ends normally is
  the `null` set when the stream started.
- `onEnd` refetches the budget before clearing the streaming flag, and only
  then refreshes chats, app and versions.
- Every `extraFiles` value that is present shows a toast, an empty array
  included: an empty array is truthy in JavaScript.
- `streamMessage` treats a chat id of `0` as missing (`!chatId`). The
  accessors and setters test only `chatId !== undefined`, so for them `0` is
  an ordinary id.

## Model

| member | source | states |
|---|---|---|
| JsString.KeptFrom | src/hooks/useStreamChat.ts:81 | scanning forward, the leading run `trim` drops is exactly the trimmable code points before the first one it keeps |
| JsString.KeptUntil | src/hooks/useStreamChat.ts:81 | scanning back, the trailing run `trim` drops is exactly the trimmable code points after the last one it keeps |
| JsString.Trim | src/hooks/useStreamChat.ts:81 | `trim()` is a slice `s[k..k + n]` of its input. Everything before and after the slice is trimmable, and a non-empty result neither starts nor ends with a trimmable code point |
| JsString.TrimEmptyIffBlank | src/hooks/useStreamChat.ts:81 | `prompt.trim()` is empty exactly when every code point of the prompt is trimmable |
| ChatState.IsBlankSubmission | src/hooks/useStreamChat.ts:80-85 | `!prompt.trim() && (!attachments || attachments.length === 0)` holds exactly when every code point of the prompt is trimmable and nothing is attached |
| ChatState.Accepts | src/hooks/useStreamChat.ts:80-85 | a request passes the early return exactly when its prompt has a non-trimmable code point or it has attachments, and its chat id is not 0 |
| RagDocuments.RagAttachments | src/hooks/useStreamChat.ts:91-93 | the RAG list is never longer than the attachment list |
| RagDocuments.OtherAttachments | src/hooks/useStreamChat.ts:94-96 | the forwarded list is never longer than the attachment list |
| RagDocuments.PartitionMembership | src/hooks/useStreamChat.ts:91-96 | an attachment is in the RAG list exactly when it is attached and tagged "rag-document", and in the other list exactly when it is attached and tagged otherwise |
| RagDocuments.PartitionAppend | src/hooks/useStreamChat.ts:91-96 | both lists distribute over concatenation, so each keeps the relative order of the attachments it selects |
| RagDocuments.RagAppend | src/hooks/useStreamChat.ts:91-93 | the RAG filter of `a + b` is the filter of `a` followed by the filter of `b` |
| RagDocuments.OtherAppend | src/hooks/useStreamChat.ts:94-96 | the same for the non-RAG filter |
| RagDocuments.PartitionComplete | src/hooks/useStreamChat.ts:91-96 | the two lists together hold every attachment exactly as many times as the input does |
| RagDocuments.CollectOtherAttachments | src/hooks/useStreamChat.ts:88-96 | the `for` loop pushing onto `otherAttachments` returns exactly the non-RAG attachments in input order |
| RagDocuments.DocumentBlock | src/hooks/useStreamChat.ts:101-114 | a document contributes "" exactly when its read fails, and an oversized one contributes at most its header, 200000 characters and the footer |
| RagDocuments.DocumentBlockFormat | src/hooks/useStreamChat.ts:99-114 | a failed read contributes "" and a successful one never does. A successful block parses back: its header names the file; its footer says "(truncated)" exactly when the size is over 200000; its body is a prefix of the text that is min(200000, length) long when truncated and the whole text otherwise |
| RagDocuments.Join | src/hooks/useStreamChat.ts:117 | `join("")` is empty exactly when every part is, and no part is longer than the joined text |
| RagDocuments.JoinAppend | src/hooks/useStreamChat.ts:117 | `join("")` of `a + b` is the join of `a` followed by the join of `b` |
| RagDocuments.DocumentBlocks | src/hooks/useStreamChat.ts:100-116 | one block per RAG document, block `i` being document `i`'s (the index order `Promise.all` keeps) |
| RagDocuments.RagContent | src/hooks/useStreamChat.ts:100-117 | `ragContent` is empty exactly when every RAG document's read fails |
| RagDocuments.RagContentAppend | src/hooks/useStreamChat.ts:100-117 | the joined content of `a + b` is that of `a` followed by that of `b` |
| RagDocuments.RagContentAt | src/hooks/useStreamChat.ts:100-117 | document `i`'s block sits between the blocks of the documents before it and those after it |
| RagDocuments.ReadFailureIsolated | src/hooks/useStreamChat.ts:110-117 | a document whose read fails changes nothing: the content equals that of the list with that document removed |
| RagDocuments.SendText | src/hooks/useStreamChat.ts:87-140 | the sent text ends with the prompt, and it is the prompt alone when there are no attachments or no RAG documents |
| ChatState.StartStream | src/hooks/useStreamChat.ts:121-136 | before the call the chat is in `recentStreamChatIds`, has a null error and is streaming. No other key of any map changes, and neither do the messages, counts, preview or log |
| ChatState.IssueRequest | src/hooks/useStreamChat.ts:121-144 | the same, and the log gains exactly the one transport call with `ragContent + prompt` and the other attachments |
| ChatState.ApplyUpdate | src/hooks/useStreamChat.ts:145-159 | one `onUpdate` raises the count (default 0) by one exactly when the latch is still open, sets the chat's messages to the update, and changes nothing else |
| ChatState.UpdatesLatch | src/hooks/useStreamChat.ts:138-159 | over any run of updates (`ApplyUpdates`) the count rises by exactly 1 if there was at least one and by 0 otherwise; the messages are the last update's; nothing else changes |
| ChatState.EndEffectsShape | src/hooks/useStreamChat.ts:161-189 | `onEnd`'s calls (`EndEffects`) end with refreshChats, refreshApp, refreshVersions, countTokens(chatId, ""). The iframe is refreshed exactly once if files were updated and never otherwise. The problem check runs once if files were updated and auto-fix is on, and never otherwise |
| ChatState.EndEffectsNoCall | src/hooks/useStreamChat.ts:161-189 | `onEnd` never calls the transport |
| ChatState.ApplyEnd | src/hooks/useStreamChat.ts:161-190 | `onEnd` clears the streaming flag, leaves the errors alone, opens the preview exactly when files were updated, appends exactly `EndEffects`, and changes no other chat |
| ChatState.ApplyError | src/hooks/useStreamChat.ts:191-209 | `onError` clears the streaming flag, records its message, appends exactly the refresh tail `onEnd` also ends with, and changes no other chat |
| ChatState.HandlerEffects | src/hooks/useStreamChat.ts:161-209 | whichever handler finishes the stream, its calls end with refreshChats, refreshApp, refreshVersions, countTokens(chatId, ""), and none is a transport call |
| ChatState.DeliverStreamOutcome | src/hooks/useStreamChat.ts:145-209 | after the updates and the terminal callback (`Deliver`) the chat is not streaming. Messages and count follow the latch. The error is the `onError` message, or unchanged after `onEnd`. The log is the old log followed by exactly the finishing handler's calls |
| ChatState.StreamedFinishes | src/hooks/useStreamChat.ts:121-209 | for an accepted request that streams: the chat is recent and not streaming; its error is the `onError` message, or null after `onEnd`; the preview opened only for an `onEnd` with updated files |
| ChatState.StreamedLatch | src/hooks/useStreamChat.ts:138-159 | for an accepted request the chat's messages are the last update's (unchanged when none came), and its stream count is one higher exactly when some update came |
| ChatState.StreamedLog | src/hooks/useStreamChat.ts:140-209 | the whole log of an invocation (`Streamed`) that streams is the old log, then the transport call, then exactly what `onEnd` or `onError` calls |
| ChatState.StreamedOnlyItsChat | src/hooks/useStreamChat.ts:121-226 | no invocation, whatever the transport does, changes another chat's entry in any map |
| ChatState.ApplyThrow | src/hooks/useStreamChat.ts:211-226 | the `catch` changes nothing for a falsy chat id. Otherwise the chat stops streaming with the thrown message as its error, and the messages, counts, preview, log and other chats stay as they were |
| ChatState.StreamedThrowOutcome | src/hooks/useStreamChat.ts:211-226 | a throw while issuing the call leaves the chat not streaming, with the thrown message as its error and no change to messages, counts or preview; the log holds only the call |
| ChatState.GuardIsNoOp | src/hooks/useStreamChat.ts:80-85 | a blank prompt with no attachments, or a falsy chat id, leaves the state exactly as it was: no map, set or log change and no transport call. Every other request changes the state, logs its call right after the old log, and makes no other transport call |
| StreamChat.PrepareRequest | src/hooks/useStreamChat.ts:87-119 | the text it builds is `ragContent + prompt` and the attachments are the non-RAG ones (none without attachments) |
| StreamChat.ChatAtoms.MarkStreaming | src/hooks/useStreamChat.ts:121-136 | the three setters produce the state `StartStream` describes |
| StreamChat.ChatAtoms.OnUpdate | src/hooks/useStreamChat.ts:145-160 | the `onUpdate` handler produces `ApplyUpdate`'s state and closes the latch |
| StreamChat.ChatAtoms.ReceiveUpdates | src/hooks/useStreamChat.ts:138-160 | the updates handled one by one with a latch starting false produce `ApplyUpdates`'s state |
| StreamChat.ChatAtoms.OnEnd | src/hooks/useStreamChat.ts:161-190 | the `onEnd` handler produces `ApplyEnd`'s state and log |
| StreamChat.ChatAtoms.OnError | src/hooks/useStreamChat.ts:191-209 | the `onError` handler produces `ApplyError`'s state and log |
| StreamChat.ChatAtoms.OnSetupError | src/hooks/useStreamChat.ts:211-226 | the `catch` block produces `ApplyThrow`'s state |
| StreamChat.ChatAtoms.StreamMessage | src/hooks/useStreamChat.ts:66-228 | a whole invocation leaves the atoms exactly as `Streamed` says, so every `Streamed` lemma holds of it |
| StreamChat.ChatAtoms.IsStreaming | src/hooks/useStreamChat.ts:242-245 | `isStreaming` is true exactly when the hook has a chat id and that chat's flag is present and true |
| StreamChat.ChatAtoms.CurrentError | src/hooks/useStreamChat.ts:246-249 | `error` is non-null exactly when the hook has a chat id and that chat's error is a non-null string, and then it is that string |
| StreamChat.ChatAtoms.SetError | src/hooks/useStreamChat.ts:250-255 | only the hook's chat's error changes, nothing changes without a chat id, and `error` then reads the value set |
| StreamChat.ChatAtoms.SetIsStreaming | src/hooks/useStreamChat.ts:256-261 | only the hook's chat's flag changes, nothing changes without a chat id, and `isStreaming` then reads the value set |

## Left out

- `getRandomNumberId` (src/hooks/useStreamChat.ts:32-34), because it is
  floating-point arithmetic on `Math.random`.
- src/hooks/usePrompts.ts, because every operation there is a direct
  pass-through to the IPC client plus a query-cache invalidation.
- The Ollama model-listing tests, because the code they test is not part of
  this model and the two test files contradict each other on the endpoint and
  on the error message.
- The Playwright UI script, because it is a UI test, not logic.
- React hooks, jotai atoms, the IPC client, posthog, toast rendering, the
  iframe refresh, and the budget and token services. Each appears only as an
  opaque tag in the effect log, or as a parameter.
- `console.warn` and `console.error` logging, because logging has no
  observable effect on state.
- How the hook gets its chat id from the route (lines 58-63). The accessors
  take `hasChatId` and the resulting chat id as parameters.
- The concurrency of `Promise.all` and the async scheduling of `file.text()`.
  Reads are modelled in order, because the results are joined in index order.
- Whether the transport calls back synchronously, calls back and then throws,
  calls back after the terminal callback, or never finishes. `Transport`
  admits only a throw, or updates followed by one `End` or one `Error`.
  Only intermediate states, after some updates, are covered for an
  unfinished stream (`UpdatesLatch`).
- Interleaving between invocations and other writers. The callbacks run
  after `streamMessage` has returned. In that gap, other invocations, the
  returned `setError` and `setIsStreaming`, and other instances of the hook
  can write the same shared atoms. `Streamed` and `ChatAtoms.StreamMessage`
  run one invocation's steps back to back. So `StreamedFinishes` (the error
  is null after `onEnd`), `StreamedLatch` and `UpdatesLatch` (the count rises
  by one) hold only for an invocation running alone: two overlapping
  invocations on one chat raise its count by two. Each per-callback function
  (`ApplyUpdate`, `ApplyEnd`, `ApplyError`, `ApplyThrow`) states its effect
  on whatever state it is applied to, so under any interleaving those
  contracts hold step by step.
- Converting a caught error to text (`error.message` or `String(error)`),
  because `Throw` already carries the resulting message.
- `DocumentBlockFormat`: the link between bytes and characters is not modelled.
  `size` is the file's byte count while `slice` counts UTF-16 code units. The
  model treats the two as independent inputs and counts Dafny characters
  (Unicode scalar values). A text with characters outside the Basic
  Multilingual Plane would be cut at a different place by the source.
- A NaN chat id, because chat ids are integers here. Only `0` is falsy.
- The contents of `Message`, `ComponentSelection` and `ChatResponseEnd`
  beyond the three fields `onEnd` reads. Their type definitions are not part
  of this model, and the hook passes them through without looking inside.
