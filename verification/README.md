# Chat transcript bookkeeping of the AiPlusCourse tutoring UI

This project models the logic inside the tutoring UI's chat component
(`src/components/ChatArea.tsx`) in Dafny and proves properties about it. The
model covers:

- **The transcript.** This is an ordered list of `Message` records: id, role,
  content, an optional `thought` and an optional `loading` flag. The
  component changes it only through functional `setMessages(prev => …)`
  updates. In the model each update is a pure function on
  `seq<Message>`:
  - starting a reply appends an empty assistant placeholder;
  - a text chunk, a thought chunk or a stream error rewrites every entry
    that carries the reply's id;
  - sending a question appends a user entry, but only when the send guard
    lets it through.
- **The stream.** It is an abstract sequence of events: `Chunk`, `Thought`,
  `Done`, `StreamError`, `SessionIdReceived`, and `Rejected` (the stream call
  itself fails). Events are applied one at a time, in arrival order.
- **The markdown `code` renderer.** Which elements become highlighted
  blocks, the language read from `language-(\w+)` in the class name, the
  single trailing newline that is stripped, and the run button, which only
  Python blocks get.
- **The Python console's bookkeeping.** What starting a run resets, how
  captured output is logged, and how a failure is classified: an error whose
  message contains `fatally failed` counts as an interpreter crash.
- **`userLevel`.** The stored profile's `level` when it is truthy, and 1
  otherwise.

Modules: `Wrappers` (Option), `Text` (the whitespace set that `trim`
removes, `trim`, `includes`), `Messages` (the record), `Updates` (list
updates and the per-entry reference description of a reply), `Session`
(component state, the send and stop handlers, event stepping), `CodeRender`,
`Runner` and `Profile`.

Three behaviours of the code shape the model:

- `src/services/chat.ts:25-31` forwards each decoded read to `onChunk`
  unparsed. There is no line decoder, no `type` dispatch and no session-id
  header. The model therefore takes the callbacks the component defines
  (ChatArea.tsx:690-727) and treats the stream as an abstract event
  sequence, with the session id arriving as an event.
- Stopping only clears `isStreaming`. No callback reads it, so later
  events still rewrite the reply (`Session.StopKeepsUpdating`).
- Nothing clears `loading` on `Done`. A reply whose last list-changing event
  was a thought stays loading, and so does a reply that received no event
  at all. `Session.ConversationTurn` states this through `LoadingAfter`.

## Model

| member | source | states |
|---|---|---|
| Text.Trim | src/components/ChatArea.tsx:735 | `trim` yields a contiguous piece of the input with only whitespace around it. The piece neither starts nor ends with whitespace, and it is empty exactly when every character is ECMAScript whitespace or a line terminator. |
| Text.Includes | src/components/ChatArea.tsx:288 | `includes` is true exactly when the pattern occurs at some offset of the string. |
| Updates.AppendPlaceholder | src/components/ChatArea.tsx:684-687 | Starting a reply appends exactly one entry and keeps every earlier entry in order. The new entry is an assistant entry with the new id, content "", thought "" and loading true. |
| Updates.MapTarget | src/components/ChatArea.tsx:696-702 | The id-matched map keeps the list's length and order. It rewrites every entry with the target id and leaves every other entry unchanged. |
| Updates.ApplyChunk | src/components/ChatArea.tsx:695-703 | A text chunk appends the chunk to the content of every entry with the target id and sets its loading to false. Id, role and thought are kept, and all other entries and the list length are unchanged. |
| Updates.ApplyThought | src/components/ChatArea.tsx:705-713 | A thought chunk sets the target's thought to its old thought (absent counts as "") followed by the chunk, and sets loading to true. Content is untouched and other entries are unchanged. |
| Updates.ApplyError | src/components/ChatArea.tsx:715-725 | A stream error appends the fixed interruption notice to the target's content and sets loading to false. Other entries are unchanged. |
| Updates.EvolveOther | src/components/ChatArea.tsx:696-724 | No run of events changes an entry whose id differs from the reply's id. |
| Updates.EvolveTarget | src/components/ChatArea.tsx:695-725 | After a run of events, the reply's content is the old content followed by every chunk and error notice in arrival order. Its thought is the old thought followed by every thought chunk, and its loading is the value set by the last chunk, thought or error. Id and role are kept. |
| Updates.ApplyEventsPointwise | src/components/ChatArea.tsx:695-725 | Applying a run of events to the list keeps its length and order, and each entry ends up exactly as it would if evolved on its own. |
| Updates.ApplyEventsKeepsIds | src/components/ChatArea.tsx:696-724 | A run of events keeps every entry's id and role in place, so later events find the same entries. |
| Updates.ReplyAfterEvents | src/components/ChatArea.tsx:684-725 | A reply that starts as the placeholder reads, after any run of events, as exactly its accumulated content, its accumulated thought and the last loading value set. |
| Updates.ChunksConcatenate | src/components/ChatArea.tsx:695-703 | A reply fed only text chunks has content equal to the chunks' concatenation in arrival order and thought "". It has stopped loading once any chunk arrived. |
| Session.InitialState | src/components/ChatArea.tsx:613-625 | On mount the transcript holds one settled assistant greeting with id "1", non-empty content and no thought. Nothing is typed, nothing streams, there is no session id, and the learner level is the one read at mount. |
| Session.GreetingIdIsNoReplyId | src/components/ChatArea.tsx:613-681 | No reply id, whatever its time stamp, equals the greeting's id "1". |
| Session.GreetingSurvivesFirstTurn | src/components/ChatArea.tsx:613-744 | After the first accepted send and any stream events, the transcript has three entries and the greeting is still the first, unchanged. |
| Session.UserAndReplyIdsDiffer | src/components/ChatArea.tsx:681-737 | A question's id and a reply's id never coincide, whatever the time stamps, so reply events never touch the question. |
| Session.Send | src/components/ChatArea.tsx:734-742 | Send does nothing exactly when the input is all whitespace or a reply is streaming. Otherwise it appends exactly one entry, a user entry with the `-user` id, the untrimmed input as content and no thought or loading flag. It keeps earlier entries, clears the input, and leaves the streaming flag, session id and learner level alone. |
| Session.StartResponse | src/components/ChatArea.tsx:679-687 | Starting a reply sets the streaming flag and appends the placeholder. The input and session id are left alone. |
| Session.HandleSend | src/components/ChatArea.tsx:734-744 | The full send either does nothing (blank input or streaming) or appends the question and then the placeholder, clears the input and starts streaming. The session id and learner level are left alone, and the stream is asked for the untrimmed question with them. |
| Session.HandleStop | src/components/ChatArea.tsx:745-748 | Stop clears the streaming flag and touches no entry, the input or the session id. |
| Session.Step | src/components/ChatArea.tsx:690-731 | One event changes the list as that event's update says. Done, an error or a rejected call clear the streaming flag, a received session id replaces the held one, and the input is untouched. |
| Session.RunEffect | src/components/ChatArea.tsx:690-731 | A run of events changes the list exactly as the list updates do. The stream stops streaming exactly when some event ends it, the last session id received is kept, and the input is untouched. |
| Session.StopKeepsUpdating | src/components/ChatArea.tsx:695-747 | After a stop, the same events leave the transcript exactly as they would have without it, and the flag stays cleared. |
| Session.ConversationTurn | src/components/ChatArea.tsx:679-744 | An accepted send followed by any run of events adds exactly two entries: the question, which the stream never touches, and the reply with accumulated content, thought and last loading value. When the reply id is new, every older entry is unchanged; streaming continues unless an event ended it; the input is cleared; the session id is the last one received (the one the next request carries) and the learner level is kept. |
| CodeRender.WordRun | src/components/ChatArea.tsx:664 | The greedy `\w+` run is a piece of the string at that offset made only of word characters, and the character after it is not a word character. |
| CodeRender.FirstMatch | src/components/ChatArea.tsx:664 | The scan finds the leftmost offset where `language-` is followed by a word character, or reports that there is none. |
| CodeRender.Language | src/components/ChatArea.tsx:664 | A language is found exactly when the pattern matches somewhere in the class. It is then the non-empty word run after the leftmost match. |
| CodeRender.LanguageOfClass | src/components/ChatArea.tsx:664 | The class `language-` + w, followed by anything that does not continue the word, reads back as w. |
| CodeRender.StripFinalNewline | src/components/ChatArea.tsx:665 | A code text ending in a newline loses exactly that newline; any other text is unchanged. |
| CodeRender.StripUndoesNewline | src/components/ChatArea.tsx:665 | Stripping undoes appending one newline, and a text ending in two newlines keeps one. |
| CodeRender.RenderCode | src/components/ChatArea.tsx:663-674 | A highlighted block is produced exactly when the element is not inline and its class (absent counts as "") names a language. The block carries that language and the code with one final newline stripped, and has a run button exactly when the language is `python`. Any other element passes through unchanged. |
| Runner.BeginRun | src/components/ChatArea.tsx:194-199 | A run starts with empty logs, no plot, no crash flag, the start status and loading on. |
| Runner.AppendOutput | src/components/ChatArea.tsx:252-254 | A batch of standard output becomes one more log line at the end, and nothing else changes. |
| Runner.FinishRun | src/components/ChatArea.tsx:277-298 | A completed run shows the drawn plot as a PNG data URL when there is one, reports completion and stops loading. Logs and the crash flag are kept. |
| Runner.FailRun | src/components/ChatArea.tsx:284-298 | A failed run is marked crashed when the message contains `fatally failed` and otherwise keeps the earlier flag. A crash appends the crash notice and anything else appends "Error: " + message. Loading stops and the plot is kept. |
| Runner.OutputsLogged | src/components/ChatArea.tsx:252-254 | Output batches are logged in order after the existing lines, and nothing else changes. |
| Runner.FinishedRunLog | src/components/ChatArea.tsx:194-298 | A run that prints some lines and completes logs exactly those lines and shows exactly the plot it drew (none otherwise). It is neither crashed nor loading and reports completion, so an earlier crash or plot does not carry over. |
| Runner.FailedRunLog | src/components/ChatArea.tsx:194-298 | A run that prints some lines and then fails logs exactly those lines and one failure line. It is marked crashed exactly when the message carries the fatal marker, so an earlier crash does not carry over. |
| Profile.UserLevel | src/components/ChatArea.tsx:635-643 | The learner level is always truthy. It is the stored `level` exactly when that level exists and is truthy, and 1 otherwise: no profile, an empty one, one that fails to parse, or one without a truthy level. |

## Left out

- The network read loop of `src/services/chat.ts` (fetch, `ReadableStream`, `TextDecoder`) is I/O. The stream is an abstract event sequence instead.
- The model does not reproduce how the shipped `streamChat` fails. Its positional parameters (src/services/chat.ts:2-7) do not match the object-style call, so `onChunk`, `onDone` and `onError` are `undefined`. The first read throws, the catch at src/services/chat.ts:33-34 throws again, and the call rejects. The only event sequence the shipped code produces is `[Rejected]`, which leaves the placeholder loading for good. The modelled event sequences are a superset covering the callbacks the component defines.
- Strings are sequences of Unicode code points, not UTF-16 code units. No modelled operation depends on the difference: the whitespace set, `includes`, the `\w` class and the newline strip all work on code points in the BMP or on single characters.
- Loading the Python interpreter, loading packages, running code and extracting the plot are foreign calls into a CDN-loaded WASM runtime. Their outcomes (output lines, an optional base64 plot, an error message) are parameters. The intermediate status texts set between those calls are not modelled.
- Turning a thrown value into a message (`err.message` or `String(err)`) is a foreign call. The message is a parameter.
- `JSON.parse` and browser storage are foreign. The stored profile string is a parameter, and the parser is a parameter that returns None when it throws.
- `Date.now()` is a clock. Ids are built from time-stamp parameters with the same `-user` and `-ai` suffixes.
- React state batching and asynchrony are left out. Each event's update is applied in sequence.
- Clipboard copying, scrolling, hover state, toast messages, removing the stored session id on mount, and all JSX, styling and markdown rendering (the spinner and copy-button conditions, the thought panel) are UI plumbing.
- The login mock, route guard, router, layout, dashboard, business page, chat page, request interceptors and build configuration are wiring with no behaviour in this core.
