# Strategic chat client: conversation state, request framing and rendering

This project models the deterministic core of a single-page chat client. The
user types a question. The page keeps the conversation and sends it to a
language-model backend through a small completion service. The answer comes back
with cited web sources, and each answer is rendered line by line.

There are three parts:

- **The conversation state machine** of the page (`App.tsx`). Class
  `App.ChatApp` holds the page's state cells: `messages`, `isLoading`, `error`,
  `input` and `isStarted`.
  - `handleSend` is split at its one `await` into two methods. `BeginSend` is the
    guard, the user message and the outbound call. `FinishSend` is the success or
    failure transition.
  - `HandleSend` composes the two with the service. `Reset` is `handleReset`.
  - The outbound history filters and maps the messages. It is the pure function
    `App.History`, which maps each message that is not a system message with
    `App.ToContent`.
- **The completion service** (`services/geminiService.ts`). It is the pure
  function `GeminiService.GenerateResponse`, which covers:
  - the API-key check;
  - the request's `contents` and configuration;
  - the fallback answer text;
  - extracting grounding sources from a response whose fields are optional at
    every level.

  `GeminiService.ChunksOf` follows the optional chain to the grounding chunks.
  `GeminiService.ExtractSources` is the map then filter: `ToSource` makes each
  chunk a source, and `KeepWithUri` keeps those whose uri is not empty.
  `GeminiService.HandleOutcome` turns a completed backend call into the reply
  (`AnswerText` and the extracted sources) or passes on the thrown error.

  The backend call is the parameter `outcome`. `Responded(response)` stands for a
  response value. `Threw(error)` stands for an exception.
- **Message rendering** (`renderMessageContent` in `App.tsx`). It is the pure
  function `Render.RenderMessageContent`, which works in four steps:
  - it splits on line feeds;
  - it rewrites each non-greedy `**x**` to a strong tag, as the regular expression
    `/\*\*(.*?)\*\*/g` does (`Render.Bold`, with `Render.FindClose` for the lazy
    group). Its `.` matches no line feed, carriage return, line separator or
    paragraph separator;
  - it classifies each line as a list item, a spacer or a paragraph
    (`Render.RenderLine`);
  - a list item drops the first two characters of the trimmed, rewritten line.

Module `Text` models the JavaScript string operations the code relies on:
- `trim`, with the ECMAScript set of whitespace and line-terminator characters;
- `startsWith`;
- `split('\n')`, with its inverse `Join`;
- `substring(n)`.

Module `Types` holds the data types of `types.ts`. Module `Wrappers` holds
`Option` and `Result`.

The model follows the code in these places:
- Sources are not de-duplicated. Two chunks with the same uri give two sources
  (`GeminiService.RepeatedUriSurvives`).
- The user message holds the text as typed, not trimmed. Only the guard trims.
- A reply that arrives after a reset is still appended, to the fresh
  conversation, and clears `isLoading` (`App.ReplyAfterReset`).
- Errors are not classified by kind. Every failure shows
  `Strategic Engine Error: ` followed by the error's message.

## Model

| member | source | states |
|---|---|---|
| Types.RoleValueInjective | types.ts:2-6 | distinct roles have distinct string values |
| Text.TrimStartSpec | App.tsx:36 | leading trim gives the suffix that starts at the first non-whitespace character; everything removed is whitespace |
| Text.TrimEndSpec | App.tsx:106 | trailing trim gives the prefix that ends at the last non-whitespace character; everything removed is whitespace |
| Text.TrimEmptyIff | App.tsx:36 | `!s.trim()` holds exactly when every character of `s` is ECMAScript whitespace or a line terminator |
| Text.Drop | App.tsx:108 | `substring(n)` keeps the characters after the first `n` and is empty when `n` passes the end |
| Text.Split | App.tsx:100 | `split('\n')` has one piece more than there are line feeds, and no piece contains a line feed |
| Text.JoinSplit | App.tsx:100 | joining the pieces of a split with line feeds gives back the string |
| Text.SplitJoin | App.tsx:100 | splitting a join of pieces without line feeds gives back the pieces |
| GeminiService.GenerateResponse | services/geminiService.ts:12-50 | no request is made exactly when the key is absent or empty, and then the result is the missing-key error; a request has the model name, the system instruction with search and thinking budget 0, and `contents` equal to the history followed by the user entry; an exception from the backend is passed on unchanged; with a key, a response gives the success reply made of its answer text and the sources extracted from its grounding chunks; a success came from a response, its text is non-empty, and every source has a non-empty uri |
| GeminiService.Contents | services/geminiService.ts:22-25 | `contents` has length of the history plus one, starts with the history unchanged, and ends with `{role: 'user', parts: [{text: prompt}]}` |
| GeminiService.AnswerText | services/geminiService.ts:34 | the answer text is the response's text when that is present and non-empty, and otherwise `I'm sorry, I couldn't generate a response.`; it is never empty |
| GeminiService.ChunksOf | services/geminiService.ts:37 | when the candidates, the first candidate, its grounding metadata and its chunks are all present, the result is those chunks; a non-empty result always comes from there, so any missing level gives the empty list |
| GeminiService.SourcesHaveUri | services/geminiService.ts:41-43 | every extracted source has a title and a non-empty uri |
| GeminiService.ToSourceFields | services/geminiService.ts:39-43 | a missing or empty web title becomes `Source` and any other title is copied; a non-empty uri is copied; a source is filtered out exactly when its chunk has no non-empty uri |
| GeminiService.ExtractAppend | services/geminiService.ts:38-43 | extraction distributes over concatenation, so sources keep the relative order of their chunks |
| GeminiService.ExtractOne | services/geminiService.ts:38-43 | one chunk gives its source when it has a uri and nothing otherwise |
| GeminiService.ExtractCount | services/geminiService.ts:38-43 | the number of sources equals the number of chunks with a non-empty uri, so it is at most the number of chunks |
| GeminiService.ExtractMembership | services/geminiService.ts:38-43 | a source is extracted exactly when some chunk with a uri maps to it |
| GeminiService.RepeatedUriSurvives | services/geminiService.ts:38-43 | no de-duplication: a repeated chunk gives its source twice |
| GeminiService.NoGroundingNoSources | services/geminiService.ts:37 | missing candidates, first candidate, grounding metadata or chunks give a successful reply with no sources |
| GeminiService.CitationExample | services/geminiService.ts:38-43 | of four chunks, the one with an empty uri is dropped, a missing title becomes `Source`, and both chunks with the same uri are kept |
| App.History | App.tsx:57-62 | the outbound history has no more entries than messages, no entry has role `system`, and each entry has one part |
| App.HistoryAppend | App.tsx:57-62 | the history of concatenated messages is the concatenation of their histories, so entries keep the order of their messages |
| App.HistoryKeepsAll | App.tsx:57-62 | without system messages, entry `i` is message `i` as `{role, parts: [{text: content}]}` |
| App.HistoryIgnoresSystem | App.tsx:57-62 | inserting a system message anywhere leaves the history unchanged |
| App.ErrorText | App.tsx:84 | the error text is `Strategic Engine Error: ` followed by the error's message, or by `Failed to process the request.` when that message is missing or empty |
| App.ErrorTextDistinguishes | App.tsx:84 | errors with different non-empty messages show different texts |
| App.ChatApp.constructor | App.tsx:8-14 | the page starts with no messages, not loading, no error, empty input and not started |
| App.ChatApp.SetInput | App.tsx:157 | the input field's `onChange` sets `input` and nothing else |
| App.ChatApp.BeginSend | App.tsx:34-53 | the text is the override when it is non-empty, else `input`; a blank text or a request in flight changes nothing and calls nothing; otherwise one user message with the untrimmed text is appended after the unchanged earlier messages, loading is set, the error is cleared, the input is emptied, the page is started, and the call carries the text and the history of the messages before the append |
| App.ChatApp.FinishSend | App.tsx:64-86 | loading ends; a success appends exactly one model message with the reply's text and sources and keeps the error; a failure appends nothing and sets the prefixed error text |
| App.ChatApp.HandleSend | App.tsx:34-87 | the whole send: nothing happens on a blank text or while loading; otherwise the user message is appended, the service is called with the text and the history before it, and the state ends with the model message or the error text for the service's result |
| App.ChatApp.Reset | App.tsx:89-97 | from any state: no messages, not loading, no error, empty input, not started |
| App.ValidHistoryKeepsAll | App.tsx:57-62 | in every state the page reaches, building the history drops no message |
| Render.FindCloseFirst | App.tsx:103 | the lazy group ends at the first `**` after the opening one, if no line terminator comes before it; there is no match exactly when every later `**` has a line terminator before it |
| Render.RenderMessageContent | App.tsx:99-116 | one element per line-feed-separated line, each element being that line's rendering |
| Render.RenderLines | App.tsx:99-116 | rendering the join of lines without line feeds gives one element per line, in order |
| Render.BoldIdentity | App.tsx:103 | a line with no `**` is left unchanged by the rewrite |
| Render.BoldPlainPrefix | App.tsx:103 | text without `*` before the rest of a line passes through the rewrite unchanged |
| Render.BoldWraps | App.tsx:103 | `**x**` with plain single-line `x` becomes `x` between the strong tags, and the rewrite goes on after it |
| Render.BoldUnclosed | App.tsx:103 | a `**` with no closing `**` later on its line is kept literally, and the rewrite goes on with the text after it |
| Render.BoldSingleLineOnly | App.tsx:103 | the pattern does not match across a line terminator such as a carriage return |
| Render.BoldKeepsText | App.tsx:103 | a line rewritten from a line with visible text still has visible text |
| Render.ListItemDropsMarker | App.tsx:106-108 | a line whose trimmed form starts with `* ` or `- ` renders as a list item; the trimmed, rewritten line is that same marker followed by the item's markup |
| Render.BlankLineIsSpacer | App.tsx:113 | a line of whitespace only renders as a spacer |
| Render.TextLineIsParagraph | App.tsx:113-114 | any other line that is not a list item renders as a paragraph of the rewritten, untrimmed line |
| Render.BoldParagraph | App.tsx:103-114 | a line `**x**rest` with plain `x` and `rest` renders as one paragraph with `x` in bold |
| Render.BoldReplyExample | App.tsx:99-114 | the reply `**Top idea:** X` renders as one paragraph with `Top idea:` in bold |

Two client methods check the model rather than model a source function:
- `App.RetryAfterFailure`: after a failed send, sending the same text again is
  accepted and appends a second user message.
- `App.ReplyAfterReset`: a reply that arrives after a reset is appended to the
  fresh conversation and ends the loading state.

## Left out

- JSX, CSS classes, SVG markup and the HTML meaning of the inserted markup are not modelled. Rendering stops at the element kind and its markup text.
- The scroll and focus effects (`App.tsx:18-32`) are DOM side effects and are not modelled.
- constants.tsx is not part of this model. The system instruction is the parameter `systemInstruction`, an opaque string.
- `Date.now()` identifiers and `new Date()` timestamps are clock reads. They are parameters (`id`, `timestamp`) of BeginSend and FinishSend.
- The SDK client and the network call are foreign code. Their result is the parameter `outcome`, and the API key is a parameter too.
- `temperature: 0.4` is a floating-point setting and is not part of the modelled configuration. The thinking budget is kept as the integer 0.
- async/await interleaving and React's batched `setState` are not modelled. A send is two sequential transitions. Any state change between them is whatever method the caller runs in between, as in ReplyAfterReset.
- `console.error` logging is output only and is left out.
- The fixed suggestion list is static UI data and is left out. A suggestion click is `BeginSend` with an override.
- A grounding chunk that is itself `null` makes the JavaScript `map` throw a TypeError. The model has no null chunks.
- The `Message.isThinking` field is carried but never set, as in the code.
- App.ChatApp.Valid: the invariant records only that the page adds no system messages and that exactly the model messages carry sources. It does not record that user messages are non-blank.
