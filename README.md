# CHIRON dashboard core, in Dafny

CHIRON is a single-page dashboard, `app.js`. The page is locked behind a breathing
metronome: the user must complete six held breaths to unlock it. After that the user can:

- keep a text journal with comma-separated tags;
- log somatic sensations;
- record audio;
- draw a Jungian archetype card;
- see a "constellation" of journal tags;
- chat with one of two personas through a remote language model.

The model covers the logic behind these features. Their storage, DOM, canvas, timer and
network effects are not modelled.

- `wrappers.dfy` (module `Wrappers`) is the `Option` type.
- `jsstring.dfy` (module `JsString`) holds the JavaScript string operations the handlers rely on:
  - `trim`, with the ECMAScript whitespace set;
  - `split(',')` and its inverse `join`;
  - `substring(0, n)`;
  - the decimal rendering of a number.
- `journal.dfy` (module `Journal`) holds the stored collections and the handlers that add to them:
  - the entry types;
  - tag parsing;
  - class `Vault`, one field per storage key. Its save handlers put the new entry in front
    (`unshift`) and leave everything else alone;
  - class `Recorder`, the audio chunk buffer.
- `tarot.dfy` (module `Tarot`) holds the eight archetype cards, the draw handler and the restore
  on page load, which accepts only one of the eight names.
- `constellation.dfy` (module `Constellation`) holds `updateConstellation`:
  - the tag-frequency loop, proved against a reference count;
  - one node per distinct non-empty tag;
  - the `i < j` edge loops;
  - the radius clamp;
  - the canvas size fallback.
- `personas.dfy` (module `Personas`) holds the persona registry.
- `context.dfy` (module `Context`) holds the system instruction sent with every chat turn:
  - the persona prompt;
  - then the clause for the drawn card;
  - then the clause for the newest journal entry.
- `chat.dfy` (module `Chat`) holds class `ChatSession`:
  - the message history with its loading placeholder;
  - the input lock;
  - the agent switch;
  - the settings handler that stores the API key;
  - the send handler, split at its first `await` into `BeginTurn` and `CompleteTurn`. The remote
    reply is an input to `CompleteTurn`.
- `metronome.dfy` (module `Metronome`) holds the breathing state machine:
  - a pure step function with lemmas about runs of gestures;
  - class `Breather`, whose handlers follow that step function.

Clocks, randomness and stored values are parameters:

- `Date.now()` becomes `id` or `stamp`;
- `toLocaleString()` becomes `date`;
- the random card index becomes `index`;
- the stored API key, the stored journal and the session card are fields of the objects passed in;
- the HTTP outcome becomes a `Reply` value.

## Model

| member | source | states |
|---|---|---|
| JsString.Trim | app.js:226-228 | `trim` leaves no whitespace at either end and never lengthens its input |
| JsString.TrimSlice | app.js:38 | what `trim` keeps is one contiguous slice of the input, and all it drops on both sides is whitespace |
| JsString.BlankIffAllWhitespace | app.js:230 | a field is rejected as blank (`!field.trim()`) exactly when every character is whitespace |
| JsString.TrimOfTrimmed | app.js:237 | trimming a string with no whitespace at its ends returns it unchanged |
| JsString.TrimIdempotent | app.js:237 | trimming twice is trimming once, so the tags trimmed again after the field was trimmed are stable |
| JsString.Split | app.js:237 | `split(',')` always returns at least one part (`"".split(',')` is `[""]`) |
| JsString.SplitNoSeparator | app.js:237 | no part of a split contains the separator |
| JsString.SplitLength | app.js:237 | a split has exactly one part more than the string has separators |
| JsString.JoinSplit | app.js:237 | joining the parts of a split with the separator gives back the original string |
| JsString.SplitJoin | app.js:237 | splitting a join of separator-free parts gives back the parts |
| JsString.CountCons | app.js:237 | an element put in front adds one occurrence of itself and none of anything else; used for the commas of a tags field (`SplitLength`) and the newlines of a reply (`BreakLinesLength`) |
| JsString.Prefix | app.js:661 | `substring(0, n)` is a prefix of the string of length `min(n, length)` |
| JsString.Decimal | app.js:636 | a number renders as a non-empty string of decimal digits |
| JsString.DecimalRoundTrip | app.js:636 | reading the rendered digits back gives the number, so the rendering loses nothing |
| Journal.ParseTags | app.js:237 | the tags of an entry are never an empty list, and every tag is trimmed |
| Journal.TrimAll | app.js:237 | `map(t => t.trim())` keeps the length and trims each element in place |
| Journal.ParseTagsShape | app.js:228-237 | there is one tag more than there are commas in the trimmed field, and no tag contains a comma |
| Journal.TrimNoSeparator | app.js:237 | trimming cannot introduce a comma |
| Journal.TrimAllNoSeparator | app.js:237 | trimming every part keeps every part comma-free |
| Journal.BlankTagsField | app.js:228-237 | a blank tags field parses to the single empty tag `[""]` |
| Journal.SingleTagField | app.js:228-237 | a field without commas parses to the one trimmed tag it holds |
| Journal.Vault.constructor | app.js:241 | a store never written reads as empty lists and as no key |
| Journal.Vault.SaveJournal | app.js:225-251 | saves exactly when the trimmed title and body are both non-empty; the new entry, carrying the trimmed fields and the parsed tags, goes in front of the unchanged old list; a refused save and the other collections leave the store unchanged; every stored entry stays well formed |
| Journal.Vault.LogSomatic | app.js:202-222 | refused while no body region is selected; otherwise the entry with the unvalidated intensity goes in front of the unchanged old list, and nothing else changes |
| Journal.Vault.SaveRecording | app.js:309-317 | the recording goes in front of the unchanged audio list, and nothing else changes |
| Journal.Vault.SaveApiKey | app.js:37-45 | stores the trimmed key exactly when it is not blank, so a blank key is never stored and a stored key is always trimmed and non-blank |
| Journal.Concat | app.js:305 | the blob's length is the total length of its chunks |
| Journal.Recorder.constructor | app.js:280 | recording starts with an empty chunk buffer |
| Journal.Recorder.OnData | app.js:300-302 | each chunk is appended at the end of the buffer |
| Journal.Recorder.OnStop | app.js:304-320 | the chunks, concatenated in order, become one recording saved in front of the audio vault; the buffer is reset |
| Tarot.Find | app.js:160 | `find` returns the first card of the list with the given name (every card before it has another name), and returns none exactly when no card has that name |
| Tarot.Restore | app.js:157-167 | a null or empty saved name restores nothing; otherwise a card is restored exactly when the name is one of the eight, and it is the card of that name |
| Tarot.FindOwnName | app.js:160 | with distinct names, looking up a card's own name finds that very card |
| Tarot.ArchetypeNamesDistinct | app.js:132-141 | the eight archetype names are pairwise distinct |
| Tarot.RestoreDrawn | app.js:154-160 | a drawn card's saved name restores that same card |
| Tarot.SessionScratch.constructor | app.js:158 | a new session has no saved card |
| Tarot.SessionScratch.Draw | app.js:143-155 | the drawn card is the one at the random index, its name is saved for the session, and restoring the saved name gives back the card |
| Constellation.OccurrencesPrepend | app.js:393-398 | a newly saved entry adds exactly its own tag occurrences to every count |
| Constellation.BlankTagsAddNothing | app.js:396 | an entry saved with a blank tags field changes no count of a non-empty tag |
| Constellation.CountTags | app.js:393-398 | every non-empty tag that occurs is a key, no other string is (not even the empty tag), and each key maps to the number of its occurrences across all entries |
| Constellation.TagSetAppend | app.js:411-418 | pushing a node adds exactly its tag to the set of node tags |
| Constellation.BuildNodes | app.js:400-418 | one node per key of the counts, with pairwise distinct tags covering exactly the keys, each node weighted by its key's count |
| Constellation.Radius | app.js:435 | the radius lies in [10, 40]; it is `5 * weight` when that lies in range, 10 for weights up to 2 and 40 from weight 8 on |
| Constellation.RadiusMonotone | app.js:435 | a heavier tag is never drawn smaller |
| Constellation.EdgePairs | app.js:423-430 | the loops produce each pair `i < j < n` exactly once, in lexicographic order, `n * (n - 1) / 2` edges, and no self-edge |
| Constellation.OrderedEdgesDistinct | app.js:423-430 | lexicographically ordered edges are pairwise distinct, so no line is drawn twice |
| Constellation.Render | app.js:388-448 | the placeholder is shown exactly when no non-empty tag occurs; otherwise the nodes are exactly the occurring non-empty tags with their counts, every pair of nodes is joined once, and every node gets the radius of its weight |
| Constellation.SurfaceSize | app.js:380-385 | the canvas takes the container's width, and its height unless that is 0, when it is 400 |
| Personas.Lookup | app.js:454-599 | the Chiron and Bridge personas carry the names CHIRON and BRIDGE and their own instruction texts |
| Personas.LookupNamesDistinct | app.js:454-599 | distinct agents have distinct display names |
| Context.AssembleInstruction | app.js:650-662 | the instruction built with `+=` is the persona prompt, then the card clause, then the journal clause |
| Context.StartsWithBase | app.js:650 | the instruction always begins with the active persona's prompt, verbatim |
| Context.NoContext | app.js:650-662 | without a card and without journal entries the prompt is sent unchanged |
| Context.ArchetypeClausePresence | app.js:653-656 | the card clause is present if and only if a non-empty card name is saved |
| Context.JournalClausePresence | app.js:658-662 | the journal clause is present if and only if the journal is non-empty |
| Context.ArchetypeOnly | app.js:654-655 | a card alone appends exactly its clause naming the card |
| Context.EndsWithBodyQuote | app.js:659-661 | with entries, the instruction ends with the first `min(100, length)` characters of the newest entry's body, then `..."."` |
| Context.ClauseOrder | app.js:654-662 | with both, the journal clause comes after the card clause |
| Chat.AddedIds | app.js:713-728 | appending a message adds its id to the history's element ids exactly when the id is present and non-empty (`if (id) msgDiv.id = id`), and adds none otherwise |
| Chat.IdsConcat | app.js:728 | appending messages appends their element ids |
| Chat.RemoveById | app.js:708-711 | removing an id no element has changes nothing; otherwise exactly one message is removed |
| Chat.RemovePlaceholder | app.js:708-711 | removing the placeholder by its id takes out exactly the placeholder, whatever was added after it |
| Chat.BreakLinesConcat | app.js:748-754 | the line-break rendering works character by character, so it distributes over concatenation |
| Chat.BreakLinesLength | app.js:750-751 | each newline grows by three characters, and no other character changes length |
| Chat.BreakLinesNoNewline | app.js:750-751 | no raw newline survives the rendering |
| Chat.BreakLinesIdentity | app.js:748-754 | text without newlines is shown as it is |
| Chat.Reveal | app.js:746-761 | the typed HTML is the text with each newline replaced by `<br>` and every other character copied |
| Chat.ReplyText | app.js:688 | the reply text is the first candidate's text, or the fallback literal when that is missing or empty; it is never empty |
| Chat.HttpErrorDetail | app.js:683 | a non-ok response is never reported with an empty detail: it is the body's error message when that is non-empty, and the status line otherwise |
| Chat.HttpErrorNamesStatus | app.js:683 | without an error message in the body, the detail is `HTTP error! status: ` followed by the decimal digits of the status, from which the status reads back unchanged |
| Chat.TurnMessage | app.js:640-699 | a missing key gives the key notice; the agent speaks exactly when there is a key and the response is ok, with the rendered reply text; a failed call gives the system message `Error establishing link: ` followed by the thrown message, and a non-ok response gives that prefix followed by the line 683 detail; no outcome carries an element id |
| Chat.LoadingIdInjective | app.js:636 | placeholders of turns started at different times have different ids |
| Chat.TurnNetEffect | app.js:632-699 | a whole turn leaves the old history, the user's message, and the one message that replaced the placeholder |
| Chat.ChatSession.constructor | app.js:609 | the chat starts empty and enabled, with Chiron active and no turn in flight |
| Chat.ChatSession.AddMessage | app.js:713-731 | the message is appended at the end with its element id, and nothing else changes |
| Chat.ChatSession.RemoveMessage | app.js:708-711 | the history becomes the one with that id removed, and nothing else changes |
| Chat.ChatSession.SetInput | app.js:629-633 | the user can edit the input box only while it is enabled |
| Chat.ChatSession.SwitchAgent | app.js:612-621 | the chosen agent becomes active and one system message names it; a turn in flight is untouched |
| Chat.ChatSession.SaveApiKey | app.js:37-45 | a non-blank key is stored trimmed and announced by one system message; a blank key changes neither the store nor the history |
| Chat.ChatSession.BeginTurn | app.js:624-637 | blank input changes nothing; otherwise input is locked and cleared, the trimmed text is shown, then a placeholder with id `loading-<stamp>` is shown |
| Chat.ChatSession.CompleteTurn | app.js:639-706 | no request is made exactly when the key is missing; otherwise the request carries the key, the user text, the assembled instruction, temperature 0.7 and 800 output tokens; the placeholder is replaced by the turn's one message; input is re-enabled on every path |
| Chat.PlaceholderGone | app.js:686-699 | when the placeholder is the only element with an id, replacing it leaves the history's length unchanged and no id behind |
| Chat.PlaceholderIndex | app.js:709 | the one element with the id is found at some position in the history |
| Metronome.Step | app.js:60-105 | a gesture keeps the count at most six; once six breaths are done nothing changes; the count moves only by one, only on a release ending a breath in progress; breathing starts only on a press; the unlock is scheduled exactly on the release that makes the count six |
| Metronome.RunReachable | app.js:60-98 | no sequence of gestures counts more than six breaths |
| Metronome.RunMonotone | app.js:86 | the count never goes down |
| Metronome.DoneIsFinal | app.js:60-76 | once six breaths are done every gesture is ignored and no further unlock is scheduled |
| Metronome.UnlockOnce | app.js:86-93 | from any reachable state short of six, the unlock is scheduled once if the gestures reach six breaths and never otherwise |
| Metronome.UnlockFromStart | app.js:56-98 | a fresh metronome schedules the unlock at most once, and exactly when the sixth breath is released |
| Metronome.Breather.constructor | app.js:57-58 | a new metronome has counted no breath and none is in progress |
| Metronome.Breather.Press | app.js:60-72 | the `mousedown` handler makes the step a press makes |
| Metronome.Breather.Release | app.js:75-98 | the `mouseup` handler makes the step a release makes, returning whether it scheduled the unlock |
| Metronome.Breather.Leave | app.js:101-105 | leaving the circle while breathing acts as a release, and otherwise does nothing |

## Left out

- DOM, CSS classes, canvas drawing, scrolling, `alert`, `confirm` and tab switching are UI effects and are not modelled.
- Storage and remote calls are not modelled:
  - `localforage` and `sessionStorage` become fields of `Vault` and `SessionScratch`;
  - the `fetch` call and `response.json()` become the `Reply` input of `CompleteTurn`.
- A body that parses as JSON `null` makes the property reads throw. It is folded into `Reply.Failed`, like any other thrown error.
- `MediaRecorder`, `getUserMedia` and `Blob` are not modelled. A recording is its chunks' bytes, concatenated.
- Timers are not modelled:
  - the metronome's instruction-text timers;
  - the 1.5-second unlock delay;
  - the typing delay.
- The unlock is the `unlock` value a release returns.
- Random values and clocks are parameters: the card index, `Date.now()` and the locale date string.
- Random node coordinates are floating point and are not modelled.
- The markdown regular expressions at app.js:724, app.js:725 and app.js:744 are not modelled:
  - messages carry their text as passed to `addMessageToUI`;
  - the typed text is not stripped by the line 744 replacement.
- JavaScript object-prototype quirks of the `tagCounts` object, such as the key `__proto__`, are not modelled. Neither is the key order of `Object.keys`:
  - the counts are a map;
  - the nodes come in an unspecified key order.
- The persona prompt texts at app.js:458-597 are long fixed strings. They enter the model as the fields of a `Registry` value.
- Strings are sequences of Unicode scalar values (code points), not UTF-16 code units. `substring(0, 100)` takes 100 code units, while `Prefix(body, 100)` takes 100 code points. A body with characters outside the Basic Multilingual Plane, such as emoji, is therefore quoted shorter in the source than in the model, and the source can cut it inside a surrogate pair. The "characters" of `Context.EndsWithBodyQuote` and `JsString.Prefix` are code points.
- `loadJournalEntries`, `loadAudioEntries` and the catharsis burner only display or animate. They are not part of this model.
- The metronome re-lock at app.js:765-771 is modelled as a fresh `Breather`. The listeners of the earlier metronome stay attached to the circle; they are inert once that metronome reached six breaths, which it must have done to unlock the page.
- Chat.ChatSession.CompleteTurn: is one atomic step. It reads the key, the drawn card, the journal and the active agent together, and makes the request and shows the reply at the same moment. The source reads the key at app.js:640 and then awaits the journal read, the `fetch` and `response.json()` (app.js:658, app.js:673, app.js:679). An event that adds a chat message or changes what the turn reads during those awaits cannot be placed between the request and the reply in the model. Two such events are an agent switch and a key save:
  - A key save in that window shows "Neural Link Established…" (app.js:42) before the reply, while the request already went out with the old key. In the model, `SaveApiKey` before `CompleteTurn` sends the new key, and `SaveApiKey` after it shows the notice after the reply. Neither ordering matches the source.
  - For the agent, the model reads the active agent once, at completion, for both the persona prompt and the reply's sender. The source reads the prompt at app.js:650 and the sender at app.js:691. In between it awaits the journal read, the `fetch` and `response.json()` (app.js:658, app.js:673, app.js:679). An agent switch made during those awaits makes the source send one persona's prompt and show the reply under the other persona, after the switch notice; the model cannot represent that interleaving. A switch during the typing itself is represented: `typeMessageToUI` fixes the sender and appends its element before its first delay, so the switch notice follows the reply, as `CompleteTurn` followed by `SwitchAgent`.
- Journal.Vault.SaveJournal, Journal.Vault.LogSomatic, Journal.Vault.SaveRecording: each save is one atomic step in the model. In the source, the read, the `unshift` and the write of the stored list are separated by awaits (app.js:241-243, app.js:217-219, app.js:315-317), and the save buttons are never disabled. Two overlapping saves to the same key both read the old list, and the later write wins: the list then grows by one entry, not two. "Every save adds exactly one entry in front" holds in the model only for saves that do not overlap.
- Chat.ChatSession.BeginTurn: the source disables the send button while a turn is in flight. The model requires the input to be enabled instead of modelling a click on a disabled button.
- Journal.Vault.LogSomatic: the intensity is stored as the raw slider string. The source enforces no 0-10 range, so none is claimed.
