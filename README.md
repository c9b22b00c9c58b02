# Tool-call mediator and transcript accumulator of a live-chat front-end

This project models, in Dafny, the two event handlers of a browser front-end
that talks to a remote multimodal model through a live session client:

- **Altair** (`altair.dfy`, module `Altair`): the component declares one tool,
  `render_altair`, with a single required string parameter `json_graph`.
  On a batch of tool calls it finds the first call named `render_altair`.
  It stores that call's `json_graph` argument in the "current graph" slot.
  For a non-empty batch it schedules one response batch holding a fixed
  success entry (`{output: {sucess: true}}`, the component's own spelling)
  for every call, each carrying its call's id.
  A separate effect renders the slot when the anchor element exists and the
  slot is truthy. That covers a non-empty string, and also a non-string
  argument such as `true`, a non-zero number, an array or an object, which the
  code then hands to `JSON.parse`.
- **ChatBubble** (`chat_bubble.dfy`, module `ChatBubble`): the component keeps
  an append-only transcript of `{text, isUser}` entries.
  `handleSend` ignores blank input. Otherwise it appends a user entry, sends
  the raw input as one text part and clears the input.
  `handleContent` ignores events that are not model turns. For a model turn it
  joins the texts of the parts that have text, with no separator, and appends
  one model entry when the result is non-empty.
  `toggleChat` flips the panel and connects with the plain-chat configuration
  when the client is disconnected.

Each component is a class whose fields are the component's state (`jsonString`,
`messages`, `inputText`, `isExpanded`). The calls it makes on the session client
and on the renderer are recorded in an `outbox` field, in order. The selection,
response-building, trimming and text-extraction logic are pure functions. The
lemmas beside them state first-match selection, id coverage, the blank-input
test and the order of extracted text.

`wrappers.dfy` holds the `Option` type. `None` stands for JavaScript's
`undefined`.

Three behaviours of the code a reader might not expect:

- A matching call without a `json_graph` argument sets the slot to `undefined`
  (`None`); it does not leave the slot unchanged
  (src/components/altair/Altair.tsx:249-252).
- `handleSend` never issues a connect; only `toggleChat` does
  (src/components/chat/ChatBubble.tsx:43-72).
- The scheduled response is not cancelled on unmount; the cleanup only removes
  the listener (src/components/altair/Altair.tsx:268-271).

## Model

| member | source | states |
|---|---|---|
| Altair.DeclaredFunctions | src/components/altair/Altair.tsx:236-239 | a declaration is in the result exactly when some function-declarations tool of the list carries it |
| Altair.CatalogDeclaresRenderAltair | src/components/altair/Altair.tsx:22-36 | the tool list declares exactly one function, named `render_altair`, with an object schema whose only property `json_graph` is a STRING and is the one required parameter |
| Altair.JsonGraphArg | src/components/altair/Altair.tsx:250 | the argument read is absent (`undefined`) exactly when the call has no `json_graph` key, and otherwise is that key's value |
| Altair.FindFirst | src/components/altair/Altair.tsx:246-248 | the result is the index of a call with the given name and no earlier call has that name; it is absent exactly when no call has the name |
| Altair.NextSlot | src/components/altair/Altair.tsx:246-252 | after a batch the slot holds the `json_graph` argument (or `undefined`) of the first `render_altair` call; when no call matches the slot is unchanged |
| Altair.LaterMatchesIgnored | src/components/altair/Altair.tsx:246-252 | once a batch holds a matching call, calls after it and the slot's old value do not affect the new slot |
| Altair.EmptyBatchKeepsSlot | src/components/altair/Altair.tsx:246-252 | an empty batch leaves the slot unchanged |
| Altair.BuildResponses | src/components/altair/Altair.tsx:259-262 | one response per call, the i-th carrying the i-th call's id and the constant success body `{output:{sucess:true}}` |
| Altair.ResponsesCoverEveryId | src/components/altair/Altair.tsx:259-262 | the response ids are the call ids in the same order, so every id is covered as often as it occurs |
| Altair.ResponsesIgnoreNamesAndArgs | src/components/altair/Altair.tsx:255-262 | the response batch depends only on the calls' ids: whether a call matched or had its argument does not change it |
| Altair.Truthy | src/components/altair/Altair.tsx:277 | JavaScript truthiness of the slot: false exactly for `undefined`, `null`, `false`, `0` and the empty string |
| Altair.ShouldRender | src/components/altair/Altair.tsx:277 | the guard `embedRef.current && jsonString` holds exactly when the anchor exists and the slot is defined and not one of the falsy values |
| Altair.StringSlotRenderGuard | src/components/altair/Altair.tsx:276-280 | a string slot is rendered exactly when the anchor exists and the string is non-empty; an `undefined` slot is never rendered |
| Altair.AltairComponent.constructor | src/components/altair/Altair.tsx:39 | the slot starts as the empty string and nothing has been sent |
| Altair.AltairComponent.OnToolCall | src/components/altair/Altair.tsx:244-267 | the new slot is `NextSlot` of the old slot and the batch; exactly one response batch is scheduled for a non-empty batch and none for an empty one |
| Altair.AltairComponent.RenderEffect | src/components/altair/Altair.tsx:276-280 | the slot's value is handed to the renderer exactly when the render guard holds; nothing else is recorded |
| ChatBubble.TrimStart | src/components/chat/ChatBubble.tsx:44 | the result is a suffix of the input, the prefix it removes is all whitespace, it does not start with whitespace, and it is empty exactly for blank input |
| ChatBubble.TrimEnd | src/components/chat/ChatBubble.tsx:44 | the result is a prefix of the input, the suffix it removes is all whitespace, it does not end with whitespace, and it is empty exactly for blank input |
| ChatBubble.Trim | src/components/chat/ChatBubble.tsx:44 | `trim()` yields the empty string exactly when every character is whitespace |
| ChatBubble.TrimIsInnerSlice | src/components/chat/ChatBubble.tsx:44 | the trimmed string is a contiguous slice of the input, what is cut off on each side is all whitespace, and its first and last characters are not whitespace |
| ChatBubble.HasText | src/components/chat/ChatBubble.tsx:79 | the filter `part => part.text` drops a part whose text is `undefined` or empty and keeps one whose text has at least one character |
| ChatBubble.PartTexts | src/components/chat/ChatBubble.tsx:78-80 | the filtered texts are all non-empty, no more than the parts, and none exactly when no part has text |
| ChatBubble.Join | src/components/chat/ChatBubble.tsx:81 | joining with no separator gives the empty string exactly when every piece is empty |
| ChatBubble.ExtractText | src/components/chat/ChatBubble.tsx:78-81 | a model turn's text is empty exactly when no part carries a non-empty text |
| ChatBubble.ExtractTextIsConcatenation | src/components/chat/ChatBubble.tsx:78-81 | the extracted text equals the in-order concatenation of every present part text, with no separator |
| ChatBubble.ExtractTextAppend | src/components/chat/ChatBubble.tsx:78-81 | extraction preserves order: the text of `p + q` is the text of `p` followed by the text of `q` |
| ChatBubble.ContentEntries | src/components/chat/ChatBubble.tsx:76-87 | a content event yields at most one entry; it yields one exactly for a model turn with some non-empty text, and that entry is a model entry holding the concatenated text |
| ChatBubble.SendDisabled | src/components/chat/ChatBubble.tsx:146 | the Send button is disabled exactly when the client is disconnected or the input is blank |
| ChatBubble.ChatBubbleComponent.constructor | src/components/chat/ChatBubble.tsx:9-11 | the panel starts collapsed with an empty transcript, an empty input and nothing sent |
| ChatBubble.ChatBubbleComponent.SetInputText | src/components/chat/ChatBubble.tsx:136 | the input field takes the typed value |
| ChatBubble.ChatBubbleComponent.HandleSend | src/components/chat/ChatBubble.tsx:43-54 | blank input changes nothing; otherwise exactly one user entry with the untrimmed input is appended after the unchanged earlier entries, exactly one single-part send of the untrimmed input is recorded, and the input becomes empty |
| ChatBubble.ChatBubbleComponent.OnKeyPress | src/components/chat/ChatBubble.tsx:138-142 | Enter performs `handleSend` whatever the connection state; any other key changes nothing |
| ChatBubble.ChatBubbleComponent.ToggleChat | src/components/chat/ChatBubble.tsx:56-72 | the panel state is negated; exactly one connect with the plain-chat text configuration is recorded iff the client is disconnected |
| ChatBubble.ChatBubbleComponent.HandleContent | src/components/chat/ChatBubble.tsx:76-87 | the transcript grows by the event's entries at its end; earlier entries are never changed or merged |

## Left out

- The long system instruction, model name and voice settings of the Altair session configuration (src/components/altair/Altair.tsx:43-235): configuration data; only the `tools` list is modelled.
- `JSON.parse` and `vegaEmbed`: parsing and the foreign renderer are not modelled. A render is recorded as an `Embed` entry holding the slot value, so a parse error thrown at render time is not modelled.
- The 200 ms `setTimeout` delay: a response batch is recorded as scheduled when the handler runs. When the timer fires is not modelled.
- React's effect scheduling: `RenderEffect` models one run of the effect body. Which state changes make React re-run the effect is not modelled.
- Subscription plumbing (`client.on` / `client.off`) and the transport behind `send`, `connect` and `sendToolResponse`: external I/O, recorded only as outbox entries.
- The connection state is owned by the session client. `ToggleChat` takes it as a parameter, and the outcome of a connect request is not modelled.
- `isModelTurn` and the server-content types come from `multimodal-live-types`, which is not part of this model. `ServerContent` is a datatype whose `ModelTurn` variant is what `isModelTurn` recognises.
- Argument values are modelled as JSON values with JavaScript truthiness. Numbers are reals, so NaN is not modelled.
- Scrolling, outside-click closing, the backdrop, JSX rendering, `console.log` and `memo`: presentation only.
