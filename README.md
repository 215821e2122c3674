# Chat screen send orchestration

A model of the one screen of the `aichat` mobile app (`app/index.tsx`): a chat
thread in which the user's text is sent to a generative-language endpoint and
the answer is shown as a reply. The model covers the screen's state — the
ordered message list, the draft in the input bar, and the loading flag — and
the transitions on it:

- **mount** seeds the list with a single welcome record;
- **begin-send** (the part of `sendMessage` before its `await`) is ignored when
  the draft is blank after trimming or a request is outstanding; otherwise it
  appends the user record (the draft exactly as typed) and a "thinking"
  placeholder, clears the draft, sets the loading flag and hands the untrimmed
  draft to the fetcher;
- **settle** (the part after the `await`) filters out every placeholder,
  appends one reply record (the answer, or a fixed error text when the call
  threw) and clears the loading flag;
- the **answer mapping** of `geminiAPI` turns the outcome of the HTTP call into
  the answer text: a connection string on any failure, the model's text when it
  is present and non-empty, a fixed "no answer" string otherwise.

Files:

- `Wrappers.dfy` — `Option` (an optional-chain value) and `Result` (a value or a
  thrown exception).
- `Blank.dfy` — `String.prototype.trim` over ECMAScript white space and line
  terminators, and the blank test `!s.trim()`.
- `Gemini.dfy` — the abstract HTTP outcome and the answer mapping.
- `Conversation.dfy` — the `Message` record, the record builders, the
  placeholder filter and the placeholder invariant, as functions and lemmas.
- `ChatScreen.dfy` — the `Screen` class with the three state fields, its
  transitions as methods, the enable predicates of the input bar, and three
  scenario methods (a blank send; an answered send; a second send ignored
  while the first is outstanding).

The screen's invariant (`Screen.Valid`) is: while idle the list holds no
placeholder; while loading it holds exactly one, as its last record. The
constructor establishes it; `Settle` and every accepted or refused `BeginSend`
keep it; `ChangeText` does not touch it; `Mount`, which runs only while idle
(the mount effect runs once, on the first render, before any send), establishes
it. So it holds in every state the methods of `Screen` can reach.

The fetcher is called with the draft as typed (app/index.tsx:118); only the
blank test trims it (app/index.tsx:94). The prompt is the draft as read when the
send began, since the `inputText` the `sendMessage` closure sees is not changed
by `setInputText('')`.

## Model

| member | source | states |
|---|---|---|
| `Blank.TrimStartRemovesLeadingSpace` | app/index.tsx:94 | trimming the front removes exactly a run of white space: the result is a suffix, everything cut was white space, and the result is empty or starts with a non-space |
| `Blank.TrimEndRemovesTrailingSpace` | app/index.tsx:94 | trimming the back removes exactly a run of white space: the result is a prefix, everything cut was white space, and the result is empty or ends with a non-space |
| `Blank.TrimEmptyIffAllWhitespace` | app/index.tsx:94 | `s.trim()` is the empty string exactly when every character of `s` is white space, in both directions |
| `Blank.IsBlank` | app/index.tsx:94 | the guard `!inputText.trim()` holds exactly when the draft is all white space (the empty draft included) |
| `Gemini.Attempt` | app/index.tsx:27-54 | the `try` block throws exactly on a transport failure, a status outside 200-299, a body that does not parse, or a body that parses to `null` (whose `data.candidates` throws); when it returns, the text is never empty |
| `Gemini.Answer` | app/index.tsx:47-57 | the mapping never throws and never yields an empty string; every failure (including a `null` body) yields 'Şu anda bağlantı Kurulamıyor.'; a readable OK response yields its text when present and non-empty, else 'Cvap veriliyor...' |
| `Gemini.AnswerIsTextOrCanned` | app/index.tsx:52-54 | the answer is one of the two canned strings or the text the OK response carried; a missing text and an empty text both give the fallback |
| `Gemini.StatusDecidesBeforeBody` | app/index.tsx:47-49 | a non-OK status gives the connection string whatever the body holds |
| `Conversation.Welcome` | app/index.tsx:69-74 | the welcome record has id 'welcome', the fixed greeting, and is neither a user record nor a placeholder |
| `Conversation.UserMessage` | app/index.tsx:96-101 | the user record is marked as the user's, is no placeholder, and holds the draft unchanged |
| `Conversation.ThinkingMessage` | app/index.tsx:107-113 | the placeholder is not the user's, is marked thinking, and has id 'thinking-' followed by the clock reading |
| `Conversation.AnswerMessage` | app/index.tsx:120-125 | the answer record is neither the user's nor a placeholder and holds the answer text |
| `Conversation.ErrorMessage` | app/index.tsx:130-135 | the error record is neither the user's nor a placeholder, holds 'Şu anda cevap verilemiyor.' and has id 'error-' followed by the clock reading |
| `Conversation.WithoutThinking` | app/index.tsx:127 | the filter keeps exactly the records that are not placeholders, and its length drops by the number of placeholders |
| `Conversation.ThinkingCountZero` | app/index.tsx:127 | a list has zero placeholders exactly when no record of it is marked thinking |
| `Conversation.WithoutThinkingAppend` | app/index.tsx:127 | the filter distributes over concatenation, so kept records keep their relative order |
| `Conversation.WithoutThinkingIdentity` | app/index.tsx:127 | the filter leaves a list without placeholders unchanged |
| `Conversation.PlaceholderInvariantCount` | app/index.tsx:94-115 | under the invariant there is exactly one placeholder while loading and none while idle |
| `Conversation.AcceptedSendKeepsInvariant` | app/index.tsx:103-115 | appending a user record and then a placeholder to an idle list gives a list that satisfies the loading invariant |
| `Conversation.SettleRestoresInvariant` | app/index.tsx:127-139 | filtering placeholders and appending one non-placeholder gives a list that satisfies the idle invariant, from any list |
| `Conversation.SendThenSettle` | app/index.tsx:103-127 | from an idle list, send then settle leaves the old list, the user record and the reply, in that order |
| `ChatScreen.Reply` | app/index.tsx:118-137 | the appended record is never the user's nor a placeholder; on a returned value it holds the mapped answer (never empty), on a thrown call the fixed error text |
| `ChatScreen.Screen.InputEditable` | app/index.tsx:209 | the input is editable exactly when no request is outstanding; on a valid screen, exactly when no placeholder is in the list |
| `ChatScreen.Screen.SendEnabled` | app/index.tsx:209-218 | the send button is enabled exactly when the draft has a non-space character and no request is outstanding; then the input is editable too |
| `ChatScreen.Screen.constructor` | app/index.tsx:62-64 | the screen starts with no messages, an empty draft, not loading, and satisfies the invariant |
| `ChatScreen.Screen.Mount` | app/index.tsx:68-83 | requires the screen idle, as on the first render; the list becomes exactly one welcome record (whose time is the mount-time clock reading) whatever it held; the draft is untouched, the flag stays false, and the invariant holds |
| `ChatScreen.Screen.ChangeText` | app/index.tsx:203-204 | the draft becomes the typed text and nothing else changes |
| `ChatScreen.Screen.BeginSend` | app/index.tsx:93-118 | accepted exactly when the send button is enabled; if refused, list, draft and flag are unchanged; if accepted, the list gains the user record with the untrimmed draft and then the placeholder, the draft is cleared, loading is set, the prompt returned is the old draft, and the invariant is kept |
| `ChatScreen.Screen.Settle` | app/index.tsx:117-140 | the list becomes the old list without any placeholder plus one reply record at the end; loading is false on both paths; the draft is unchanged; the idle invariant holds |
| `ChatScreen.Screen.SendMessage` | app/index.tsx:93-141 | a whole send from a valid screen: refused sends change nothing; an accepted one leaves the old list, the user record and the reply, an empty draft and loading false |

## Left out

- The HTTP request itself (endpoint URL, API key read from the environment, JSON request body, generation parameters, `response.json()`): foreign I/O. Its outcome is the abstract `Gemini.Response`.
- `Gemini.Body`: the nested `text` field is taken to be a string or absent; a truthy non-string value (a number, an object) would be returned by the source as is, which a string-typed model cannot express.
- The `async`/`await` suspension and React's batched functional state updates: `BeginSend` and `Settle` are atomic steps. Between them the model lets any method of `Screen` run: `ChangeText` (which the source's read-only input prevents), and a `BeginSend` (refused, since loading is set). `Mount` requires the screen idle, so it cannot run there.
- Unmounting while a request is outstanding: the screen is never torn down in the model.
- `Date.now()` ids and `toLocaleTimeString()` times: nondeterministic clock readings, passed in as `Stamp` parameters.
- `ChatScreen.Screen.ChangeText`: sets the draft whatever the flag; the gate `editable={!isLoading}` (the `InputEditable` predicate) is applied by the platform widget, not by this code.
- `ChatScreen.Screen.SendMessage`: requires the invariant, which holds in every state the methods of `Screen` can reach from the constructor.
- The defensive `catch` of `sendMessage` is modelled as the `Threw` settlement, although `Gemini.Answer` is total and never throws, so it is never reached.
- Rendering (`renderMessage`, `renderHeader`, `FlatList`), the fade-in animation, `scrollToBottom`, keyboard handling and the style sheet: presentation only.
- `maxLength={1000}` and `multiline` on the text input: enforced by the platform widget.
