# Crypto table and chat panel: a Dafny model

This project models the two pieces of logic in the crypto market front end
that are not rendering or network plumbing:

- **The chat panel** (`src/pages/Chat/index.tsx`). It is a single-writer state
  machine. Its state is the connection status, the stored socket (absent, or
  present with its `readyState` OPEN or not), the message log, the input text,
  the username, and the payloads handed to `socket.send` (the *outbox*).
  Four transport events (`onopen`, `onmessage`, `onclose`, `onerror`) and the
  user's `sendMessage` drive it. `sendMessage` carries two kinds of input over
  one field: the `/name <token>` command and ordinary chat text.
  Module `Chat` (file `chat.dfy`) gives each transition as a pure function on
  a `Session` value: `Opened`, `Received`, `Closed`, `Errored`, `Sent`,
  `Edited`, `ReadinessChanged`, with `Step` and `Run` over event sequences.
  Class `Chat.ChatSession` holds the same state in fields. Each handler is a
  method proved to perform exactly its transition. The lemmas state what
  each transition does and what every run preserves.
- **The table's record mapping** (`transformData` in
  `src/pages/Table/functions.ts`). It maps each API record
  (`ResponseDataType`) to a table row (`CryptoDataType`), keeping the index.
  Module `Table` (file `table.dfy`) declares both record shapes from
  `src/pages/Table/types.ts` and defines the mapping as a pure function.
  The lemmas cover each column.

Module `Text` (file `text.dfy`) writes out the JavaScript string operations the
two pieces use: `trim`, `startsWith`, `split(" ")` (with `join` as its
inverse), `toUpperCase` and `Number.prototype.toString` on an index.
Module `Wrappers` (file `wrappers.dfy`) holds `Option`.

Parameters stand for the outside world:

- `JSON.parse` is an abstract `ParseResult` (a parsed message, or a failure).
- `JSON.stringify` followed by `socket.send` appends a structured `Payload` to the outbox.
- `new Date().toISOString()` is an opaque `Timestamp` argument.
- The number formatters `toFixed(2)` and `toLocaleString()` are a `Formatters` argument.

Notes on what the code in `src/pages/Chat/index.tsx` does:

- `sendMessage` is gated on the socket's `readyState` (line 66), not on the connection status.
- Chat text rejected because no name is set does NOT clear the input (lines 79-81): that branch returns before `setInputText("")`.
- Inbound messages are appended exactly as parsed (line 33), with no local timestamp.
- There is no retry, backoff, retry ceiling or manual reconnect anywhere in the file.

## Model

| member | source | states |
|---|---|---|
| Chat.ChatSession.constructor | src/pages/Chat/index.tsx:14-18 | starts with no socket, status disconnected, empty log, input, username and outbox |
| Chat.ChatSession.AddSystemMessage | src/pages/Chat/index.tsx:58-63 | appends exactly one message with no username and the given timestamp; touches nothing but the log |
| Chat.ChatSession.OnOpen | src/pages/Chat/index.tsx:23-28 | the new state is `Opened` of the old one, and the state stays well formed |
| Chat.ChatSession.OnMessage | src/pages/Chat/index.tsx:30-38 | the new state is `Received` of the old one and the parse result, and the state stays well formed |
| Chat.ChatSession.OnClose | src/pages/Chat/index.tsx:40-45 | the new state is `Closed` of the old one, and the state stays well formed |
| Chat.ChatSession.OnError | src/pages/Chat/index.tsx:47-51 | the new state is `Errored` of the old one, and the state stays well formed |
| Chat.ChatSession.SetInputText | src/pages/Chat/index.tsx:128 | only the input text changes, to the edited value |
| Chat.ChatSession.SetReadiness | src/pages/Chat/index.tsx:66 | a stored socket takes the transport's new readiness; with no socket nothing changes |
| Chat.ChatSession.SendMessage | src/pages/Chat/index.tsx:65-92 | the new state is `Sent` of the old one, and the state stays well formed |
| Chat.Initial | src/pages/Chat/index.tsx:14-18 | the state at mount: no socket, disconnected, everything else empty |
| Chat.WithSystemMessage | src/pages/Chat/index.tsx:58-63 | `addSystemMessage`: the log gains one system message and nothing else changes |
| Chat.Opened | src/pages/Chat/index.tsx:23-28 | `onopen`: an open socket stored, status connected, the connection notice logged |
| Chat.Received | src/pages/Chat/index.tsx:30-38 | `onmessage`: the parsed value appended, or the format notice logged on a parse failure |
| Chat.Closed | src/pages/Chat/index.tsx:40-45 | `onclose`: the socket dropped, status disconnected, the closure notice logged |
| Chat.Errored | src/pages/Chat/index.tsx:47-51 | `onerror`: status error, socket kept, the error notice logged |
| Chat.Edited | src/pages/Chat/index.tsx:128 | the input's `onChange`: only the input text changes |
| Chat.ReadinessChanged | src/pages/Chat/index.tsx:66 | the transport moves a stored socket's ready state; with no socket nothing changes |
| Chat.Sent | src/pages/Chat/index.tsx:65-92 | `sendMessage`: the three guards, the `/name` branch with and without a token, the name-required rejection and the chat send, in the source's order |
| Chat.Step | src/pages/Chat/index.tsx:23-92 | dispatches one event to its transition |
| Chat.Run | src/pages/Chat/index.tsx:23-92 | the events handled one after another in delivery order |
| Chat.EntryOf | src/pages/Chat/index.tsx:23-51 | the one log entry a transport event adds: the parsed message, or a system message with that event's time |
| Chat.SystemMessage | src/pages/Chat/index.tsx:58-63 | a system message has no username and always has a timestamp |
| Chat.NameToken | src/pages/Chat/index.tsx:69 | the second space-separated field of a `/name ` command is the first field of the text after the prefix, and holds no space |
| Chat.SendIgnored | src/pages/Chat/index.tsx:66 | with no socket, a socket not open, or blank input, sending leaves the whole state unchanged |
| Chat.SendNameCommand | src/pages/Chat/index.tsx:68-76 | `/name ` plus a non-empty token sets the username to it, sends one `set_username` payload, logs one confirmation and clears the input, and changes nothing else |
| Chat.SendNameCommandWithoutToken | src/pages/Chat/index.tsx:69-70 | `/name ` followed by nothing or by another space only clears the input |
| Chat.SendNeedsName | src/pages/Chat/index.tsx:79-81 | chat text with no username logs one notice, sends nothing and keeps the input |
| Chat.SendChat | src/pages/Chat/index.tsx:83-91 | chat text with a username sends one `message` payload with the untrimmed text, the username and the time, clears the input and leaves the log as it was |
| Chat.NameAliceExample | src/pages/Chat/index.tsx:68-76 | `/name alice` with no name yet sets `alice`, sends only the `set_username` payload and logs the confirmation |
| Chat.LeadingSpaceIsChatText | src/pages/Chat/index.tsx:68 | the prefix is tested on the untrimmed input, so ` /name bob` is sent as chat text |
| Chat.ReceivedEffect | src/pages/Chat/index.tsx:30-37 | a parsed frame is appended exactly and a malformed one adds one system message; status, socket, input, username and outbox are kept |
| Chat.LifecycleEffects | src/pages/Chat/index.tsx:23-51 | open, close and error each log one system message; open sets connected and stores an open socket, close sets disconnected and drops it, error sets error and keeps it |
| Chat.StepAppends | src/pages/Chat/index.tsx:33 | every event extends the log by at most one entry, which is the parsed inbound message or a system message stamped with that event's time |
| Chat.StepUsername | src/pages/Chat/index.tsx:71 | the username changes only through a `/name` command on an open socket, to its non-empty token |
| Chat.StepWellFormed | src/pages/Chat/index.tsx:65-92 | every event keeps the username free of spaces and every sent payload well formed |
| Chat.SentWellFormed | src/pages/Chat/index.tsx:69-89 | sending adds only payloads with a non-empty username, and chat payloads only with non-blank text |
| Chat.RunAppendOnly | src/pages/Chat/index.tsx:59 | over any sequence of events the old log is a prefix of the new one |
| Chat.RunKeepsUsername | src/pages/Chat/index.tsx:71 | once a username is set it stays set over any sequence of events |
| Chat.RunWellFormed | src/pages/Chat/index.tsx:65-92 | well-formedness holds after any sequence of events |
| Chat.ReachableWellFormed | src/pages/Chat/index.tsx:14-18 | every state reachable from mount is well formed |
| Chat.TransportRunEntries | src/pages/Chat/index.tsx:23-51 | N transport events add exactly their N entries, each event's own entry in arrival order, and send nothing |
| Table.FormatOrZero | src/pages/Table/functions.ts:10-13 | the template `${n ? format(n) : 0}`: the formatter's output for a truthy number, the literal `0` otherwise |
| Table.TransformItem | src/pages/Table/functions.ts:5-16 | the object literal built for one record at one index |
| Table.TransformData | src/pages/Table/functions.ts:4-17 | one row per record |
| Table.RowIsLocal | src/pages/Table/functions.ts:5 | row i depends only on record i and the index i |
| Table.KeyAt | src/pages/Table/functions.ts:6 | the key is the id when non-empty, otherwise the index in canonical decimal (no leading zero), which reads back as the index; it is never empty |
| Table.KeysDistinct | src/pages/Table/functions.ts:6 | keys are pairwise distinct when the ids present are distinct and none is all digits |
| Table.CopiedFieldsAt | src/pages/Table/functions.ts:7-15 | name, logo and the 7-day change are copied from the record |
| Table.SymbolAt | src/pages/Table/functions.ts:9 | the symbol is `ToUpper` of the record's symbol: same length, no lower-case letter, unchanged if already upper case |
| Table.SparklineAt | src/pages/Table/functions.ts:14 | the sparkline is always present: the 7-day prices if given, else empty |
| Table.FiguresAt | src/pages/Table/functions.ts:10-13 | falsy price, market cap and volume give `$0` and a falsy 24h change gives `0%`; other values give the formatter's output with the sign |
| Text.SkipLeading | src/pages/Chat/index.tsx:66 | finds the first non-whitespace position: everything skipped is whitespace |
| Text.SkipTrailing | src/pages/Chat/index.tsx:66 | finds the end of the last non-whitespace character: everything after it is whitespace |
| Text.Trim | src/pages/Chat/index.tsx:66 | the result is the slice of the input between a blank prefix and a blank suffix, with no whitespace at either end, and it is empty exactly when the input is blank |
| Text.TrimIdempotent | src/pages/Chat/index.tsx:66 | trimming twice is trimming once |
| Text.StartsWith | src/pages/Chat/index.tsx:68 | `startsWith`: the string's first characters are the prefix |
| Text.Join | src/pages/Chat/index.tsx:69 | `join`: the parts with one separator between neighbours, the reference inverse of `Split` |
| Text.Split | src/pages/Chat/index.tsx:69 | at least one field, no field holds the separator, and joining the fields gives back the input |
| Text.SplitJoin | src/pages/Chat/index.tsx:69 | splitting a join of separator-free parts gives back the parts |
| Text.SplitNoSeparator | src/pages/Chat/index.tsx:69 | a string without the separator is one field |
| Text.SplitAfterField | src/pages/Chat/index.tsx:69 | a separator-free prefix followed by the separator becomes the first field |
| Text.FirstFieldEmpty | src/pages/Chat/index.tsx:69-70 | the first field is empty exactly when the string is empty or starts with the separator |
| Text.ToUpper | src/pages/Table/functions.ts:9 | same length, no lower-case letter left, lower-case letters raised and other characters kept |
| Text.ToUpperIdempotent | src/pages/Table/functions.ts:9 | an upper-case string is unchanged, so upper-casing is idempotent |
| Text.DigitChar | src/pages/Table/functions.ts:6 | a digit below ten becomes a decimal digit character |
| Text.DecimalString | src/pages/Table/functions.ts:6 | a non-empty string of digits with no leading zero (`"0"` is the only string starting with `0`) |
| Text.DecimalRoundTrip | src/pages/Table/functions.ts:6 | reading the decimal string back gives the number |
| Text.DecimalInjective | src/pages/Table/functions.ts:6 | distinct indices have distinct decimal strings |

## Left out

- The WebSocket transport is not modelled. This covers its construction, the endpoint URL, `close()` in the effect cleanup (`src/pages/Chat/index.tsx:53-55`) and `console` logging. Only the readiness flag and the four events remain. The transport's own changes of `readyState` are the `ReadinessChanged` event.
- `JSON.parse`, `JSON.stringify` and `Date.prototype.toISOString` are abstract. A parsed inbound value is assumed to be a `Message`. The source appends whatever `JSON.parse` returns, whatever its shape.
- React's scheduling of state updates is not modelled: the model assumes a re-render between any two events. The log updates are functional (`setMessages(prev => …)`), so the four transport handlers do not depend on this. `sendMessage`, however, reads `socket`, `inputText` and `username` as of the render that created it (the `useCallback` dependencies at `src/pages/Chat/index.tsx:92`). If `onopen` fires and the user presses Enter before React re-renders, the source runs the stale `sendMessage`, sees `socket == null` and does nothing. The model's `Run(s, [Open(t), Send(t')])` sends in that case.
- `handleKeyPress`, the JSX markup, the placeholder and the disabled-button logic are rendering, not state logic.
- `fetchData` is an HTTP call to an external API.
- `src/pages/Table/index.tsx`, `src/components/SparklineChart.tsx`, `src/components/Navbar/index.tsx` and `src/App.tsx` are declarative UI and routing.
- Number formatting is not defined here: `toFixed(2)` and `toLocaleString()` are the `Formatters` parameter. `parseFloat` occurs only in the table page (`src/pages/Table/index.tsx:74`), which is not modelled.
- `Table.Number` does not model `null` or `undefined` in the required numeric fields. The declared record type `number` excludes them. Infinities and NaN are modelled. NaN cannot come from JSON, and an infinity only from an overflowing literal such as `1e400`.
- Text.ToUpper: maps only the ASCII letters. JavaScript's `toUpperCase` also maps other scripts and can lengthen a string (`ß` becomes `SS`).
- Table.SymbolAt: its "same length" and "no lower-case letter" hold for the model's ASCII-only `ToUpper`. They do not hold for JavaScript's `toUpperCase` on every non-ASCII symbol.
- Text.IsWhitespace: follows the ECMAScript WhiteSpace and LineTerminator sets as they stand. A host's Unicode version may add Zs characters.
