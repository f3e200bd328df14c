# A verified model of the tae chat client core

tae is a browser-extension chat client written in TypeScript. A user chats with an
OpenAI-compatible endpoint and can pick saved prompts with `{variable}` placeholders. This
project models the client's core in Dafny and proves properties of that model:

- **The streaming request** (`AIService`, `StreamDecoder`, `Reassembler`):
  - the endpoint, and the request body with system messages first and contents and the
    model name trimmed;
  - the read loop. It splits decoded text on LF, carries the unterminated tail
    between reads and keeps only `data: ` lines. It skips `[DONE]` and drops payloads that
    do not parse;
  - the content reassembler. It holds `contentBuffer`, `isFirstChunk` and
    `lastLineWasEmpty`. It left-trims the first delta, collapses blank-line runs,
    flushes on colons and on list or heading prefixes, and flushes at the end of the
    stream;
  - how failures become thrown errors.

  `makeStreamRequest` is written as the loops the source runs: the read loop, the line
  loop and the segment loop. It is proved equal to a pure reference, `StreamResult`.
- **The three store slices** (`ChatSlice`, `PromptSlice`, `ModelSlice`). Each slice is a
  class whose methods update its fields in place, as the reducers do. Each method's new
  state is tied to pure functions on the old state, and the properties are proved as
  lemmas about those functions.
- **The pure helpers**:
  - `PromptService.sortPrompts` and `searchPrompts`;
  - `SessionService.generateSessionTitle`;
  - `getSortedPrompts` of the chat window;
  - `getFilteredAndSortedPrompts` of the prompt manager.
- **`handleSend` of the chat window** (`ChatWindow`). It covers:
  - the outgoing message list;
  - the two messages stored in the active session;
  - the streamed text;
  - the settling update for success, abort and error;
  - the use count of the selected prompt;
  - the component state afterwards.

  The whole send is tied to one reference function, `AfterSend`.

Strings are `seq<char>`, and a `char` is one Unicode scalar value. Every character is one unit of length, so the model covers text without surrogate pairs, where a JavaScript length counts the same. `trim`, `trimStart`
and `\s` use the exact ECMAScript whitespace set (`Text.IsWs`). `Array.prototype.sort`
with the source's comparators is a stable insertion sort on a rank pair
(`StableSort`). The language has required `sort` to be stable since ECMAScript 2019.

The model's inputs stand in for things it does not compute:

- `Date.now()` is the parameter `now`.
- The ids drawn by `crypto.randomUUID()` are `MessageIds`.
- `JSON.parse(data).choices[0]?.delta?.content` is the parameter `parse`.
- What the network delivers is a `Transport` value: a rejected `fetch`, or a response
  with its status, its error message and its decoded body chunks, ending with `done` or
  a rejected read.
- The persistence calls (`saveSessions`, `savePrompts`, `clearPrompts`) are recorded in a
  ghost field `saved`.

Where the code and its evident intent disagree, the main model follows the code as
written. A corrected member stands beside it (see "## Findings").

## Model

| member | source | states |
|---|---|---|
| AIService.GetEndpoint | src/services/aiService.ts:10-17 | in development the endpoint is `/api/chat/completions` and the configuration is not read; otherwise it is the base URL followed by `/chat/completions` |
| AIService.SystemFirst | src/services/aiService.ts:27-32 | the reordered list has exactly one entry per input message |
| AIService.SystemFirstSpec | src/services/aiService.ts:27-32 | the reorder is a permutation; every system message precedes every other message; each group keeps its input order; no pair is out of order under the comparator |
| AIService.CompareInconsistentOnSystem | src/services/aiService.ts:28-32 | two system messages each compare as smaller than the other, so the comparator orders them only when there is at most one |
| AIService.BuildRequest | src/services/aiService.ts:24-53 | one wire message per chat message, the configured endpoint, `Bearer ` followed by the API key, the trimmed model name, temperature 0.7, 2000 tokens and streaming on |
| AIService.ToWire | src/services/aiService.ts:44-47 | a wire message keeps the role; its content is the message's content with a whitespace prefix and suffix removed, and has no whitespace at either end |
| AIService.RequestShape | src/services/aiService.ts:24-53 | the body's messages are the system messages in conversation order followed by the other messages in conversation order, each as its wire form; every content and the model name are trimmed; the list is a permutation of the wire forms of the input |
| AIService.HttpFailure | src/services/aiService.ts:55-65 | a non-ok response throws a plain `Error` carrying the body's non-empty `error.message`, else `HTTP error! status: N` |
| AIService.Rethrow | src/services/aiService.ts:158-177 | an `AbortError`, and any error without `response`, is rethrown unchanged; an error that changes becomes a plain `Error` with no response carrying one of the three fixed messages |
| AIService.RethrowSpec | src/services/aiService.ts:158-177 | the mapped errors carry no `response`, so applying the `catch` twice equals applying it once |
| AIService.CatchRethrowsUnchanged | src/services/aiService.ts:158-177 | each of the four ways the request can fail reaches the `catch` with no `response`: a rejected fetch, a non-ok status, a null body, a rejected read; each is thrown exactly as raised, so the written 400/401/429 mapping never applies |
| AIService.UnauthorizedNotMapped | src/services/aiService.ts:170-172 | a 401 response with no error message rejects with `HTTP error! status: 401`, not with the 401 message |
| AIService.ClassifyHttpFailure | src/services/aiService.ts:167-176 | the intended mapping: 400, 401 and 429 get their fixed messages, any other status the error of lines 55-65 |
| AIService.IntendedDiffersOnlyInMapping | src/services/aiService.ts:158-177 | the corrected outcome equals the written one except for a rejected 400, 401 or 429 response, and a 401 then gets the 401 message |
| AIService.StreamResult | src/services/aiService.ts:55-96 | the request resolves only for an ok response with a body whose reads end with `done`; nothing is emitted when `fetch` rejects, the status is not ok or the body is null; no emitted text is empty |
| AIService.CompletedEmitsAll | src/services/aiService.ts:67-91 | a request resolves only for an ok response whose body exists and whose reads end with `done`; then `onMessage` receives every character of the normalised deltas exactly once, in order, and never an empty string |
| AIService.ChunkingIrrelevant | src/services/aiService.ts:86-96 | cutting the same decoded text into reads differently changes neither the outcome nor the `onMessage` calls |
| AIService.MakeStreamRequest | src/services/aiService.ts:19-178 | the method builds the request of lines 24-53, and its outcome and `onMessage` calls are those of the reference `StreamResult` |
| AIService.ReadBody | src/services/aiService.ts:86-96 | the read loop up to `done` leaves the reassembler in the state the complete lines of all chunks lead to |
| AIService.SplitLines | src/services/aiService.ts:93-96 | one read: the carried tail plus the chunk is split on LF; every part but the last is processed and the last is carried |
| AIService.ProcessLines | src/services/aiService.ts:98-153 | the line loop feeds the reassembler exactly the deltas of the lines, in order |
| AIService.ReadStep | src/services/aiService.ts:93-98 | after one more read, the lines seen are the earlier ones followed by those completed by the carried tail and the new chunk |
| AIService.LineStep | src/services/aiService.ts:98-107 | one more line feeds its delta, if it has one, and otherwise leaves the state alone |
| AIService.FeedContent | src/services/aiService.ts:107-147 | the handling of one non-empty delta, including `flushBuffer`, is one reassembler step |
| AIService.CollapseLines | src/services/aiService.ts:116-135 | the segment loop appends the collapsed text of the segments and leaves the flag it computes |
| AIService.CollapseSegment | src/services/aiService.ts:119-134 | one segment appends a lone LF (blank after non-blank), nothing (blank after blank), the bare segment (after blank or at index 0), or LF and the segment; the flag becomes whether the segment is blank |
| StreamDecoder.CompleteLines | src/services/aiService.ts:95-96 | the lines processed are the parts of the LF split but the last, and none holds an LF |
| StreamDecoder.Carry | src/services/aiService.ts:96 | the carried tail holds no LF |
| StreamDecoder.LinesAndCarryMakeText | src/services/aiService.ts:93-96 | joining the complete lines and the tail with LF gives the buffer back, so the split loses nothing |
| StreamDecoder.ReadLoop | src/services/aiService.ts:86-96 | after any number of reads neither the carried tail nor any processed line holds an LF, and each read keeps the lines already processed as a prefix and only adds lines after them |
| StreamDecoder.ChunkBoundary | src/services/aiService.ts:93-96 | two successive reads see the complete lines of their concatenation and carry its tail |
| StreamDecoder.ChunkBoundaryInvariance | src/services/aiService.ts:86-96 | however the text is cut into reads, the loop processes exactly the complete lines of the whole text, in order, and carries its unterminated tail |
| StreamDecoder.SameTextSameLines | src/services/aiService.ts:86-96 | two cuttings of the same text give the same lines and the same tail |
| StreamDecoder.LineDelta | src/services/aiService.ts:99-107 | a line has a delta only if it starts with `data: `, its payload is not `[DONE]`, parses and has a non-empty content; conversely, a `data: ` line other than `[DONE]` whose payload parses to a non-empty content `c` yields exactly `c` |
| StreamDecoder.Deltas | src/services/aiService.ts:98-107 | the deltas of a list of lines are at most one per line and never empty |
| StreamDecoder.DeltasAppend | src/services/aiService.ts:98-153 | the deltas of two batches are the deltas of each, in order |
| StreamDecoder.SkippedLineKeepsRest | src/services/aiService.ts:149-151 | a line with no delta (a malformed frame among them) is skipped and the lines after it are still decoded |
| StreamDecoder.DoneLineSkipped | src/services/aiService.ts:101 | the `[DONE]` line is skipped and does not end the stream |
| Reassembler.Appended | src/services/aiService.ts:116-138 | a delta without LF is appended verbatim and leaves the blank-line flag unchanged |
| Reassembler.LeadingDigits | src/services/aiService.ts:144 | the count of leading ASCII digits: all of them are digits and the next character is not |
| Reassembler.NumberedItemIsRegex | src/services/aiService.ts:144 | `StartsWithNumberedItem` holds exactly when the text starts with at least one digit followed by a dot (`/^\d+\./`) |
| Reassembler.ShouldFlush | src/services/aiService.ts:141-145 | the flush test holds exactly when the raw delta holds a full-width or ASCII colon somewhere, starts with one or more ASCII digits followed by `.`, or starts with `-`, `*` or `#` |
| Reassembler.SegmentStep | src/services/aiService.ts:118-135 | one iteration of the segment loop only appends to the text (a blank segment at most one LF) and leaves the flag saying whether the segment was blank |
| Reassembler.Flush | src/services/aiService.ts:78-83 | `flushBuffer` empties the buffer; the emitted text followed by the buffer is unchanged; the flags are kept; earlier emissions are kept and at most one is added; no empty string is emitted |
| Reassembler.FirstDelta | src/services/aiService.ts:109-113 | the first delta sets the buffer to its `trimStart` and never flushes, whatever it contains |
| Reassembler.FeedDelta | src/services/aiService.ts:109-147 | handling one delta clears `isFirstChunk`, keeps the invariant, never retracts an earlier `onMessage` call and adds at most one; the first delta emits nothing |
| Reassembler.FlushIff | src/services/aiService.ts:140-147 | after a non-first delta the buffer is flushed exactly when the raw delta passes the flush test, and `onMessage` is called exactly when that buffer is non-empty |
| Reassembler.FeedDeltasAppend | src/services/aiService.ts:98-153 | feeding two batches of deltas in turn equals feeding their concatenation |
| Reassembler.ModesAgree | src/services/aiService.ts:109-138 | however the buffer is flushed, the two flags after a sequence of deltas are those of the flag-only fold `ModeAfter` that defines the normalised text |
| Reassembler.Conservation | src/services/aiService.ts:78-147 | at every step, everything emitted followed by the buffer is everything appended so far; nothing is buffered before the first delta; no empty string is emitted |
| Reassembler.StepConservation | src/services/aiService.ts:107-147 | one delta keeps that invariant and adds exactly its own piece |
| Reassembler.StreamConservation | src/services/aiService.ts:86-91 | at `done`, every appended character has been emitted exactly once, in order; the buffer is empty; no emitted string is empty |
| Reassembler.NormalizedStart | src/services/aiService.ts:109-113 | the normalised text is the left-trimmed first delta followed by the collapsed rest |
| Reassembler.SegmentStepShape | src/services/aiService.ts:118-135 | one segment iteration appends a fixed piece, and the flag after it says whether the segment was blank |
| Reassembler.CollapseKeepsText | src/services/aiService.ts:116-135 | collapsing removes only LFs and blank segments: with LFs removed, the text is the non-blank segments joined |
| Reassembler.CollapseNoBlankLine | src/services/aiService.ts:116-135 | collapsed text never holds two consecutive LFs, ends in LF exactly when the flag is set, and starts with no LF after a blank line |
| Reassembler.FlagAfterNewlineDelta | src/services/aiService.ts:116-135 | after a delta with an LF, the flag says whether its last segment is blank |
| Reassembler.BlankRunCollapses | src/services/aiService.ts:118-126 | a run of blank segments adds one LF, or nothing when the previous line was already blank |
| Reassembler.AppendedNewline | src/services/aiService.ts:116-135 | a lone LF delta adds one LF, or nothing after a blank line, and sets the flag |
| Reassembler.NewlineNoFlush | src/services/aiService.ts:141-145 | a lone LF never flushes |
| Reassembler.KeepStep | src/services/aiService.ts:136-147 | a later delta that does not pass the flush test only appends its collapsed text |
| Reassembler.NewlineLoss | src/services/aiService.ts:116-138 | a plain delta between two LF deltas leaves the flag set, so the second LF is dropped |
| ChatSlice.GenerateSessionTitle | src/store/slices/chatSlice.ts:10-14 | the title is the first 20 characters of the trimmed content, plus `...` exactly when the untrimmed content is longer than 20; it has at most 23 characters |
| ChatSlice.EllipsisWithoutTruncation | src/store/slices/chatSlice.ts:13 | 22 spaces followed by `ab` get the title `ab...`, although nothing was cut |
| ChatSlice.IntendedSessionTitle | src/store/slices/chatSlice.ts:10-14 | the corrected title: `...` appears exactly when the trimmed content was cut, and the title is longer than 20 exactly then |
| ChatSlice.TitlesAgreeOnTrimmed | src/store/slices/chatSlice.ts:10-14 | the written and corrected titles agree on every content with no surrounding whitespace |
| ChatSlice.MergeSession | src/store/slices/chatSlice.ts:33 | `Object.assign` of a partial session: every field the update does not give is kept |
| ChatSlice.MergeMessage | src/store/slices/chatSlice.ts:69 | `Object.assign` of a partial message: every field the update does not give is kept |
| ChatSlice.MergeMessageLaws | src/store/slices/chatSlice.ts:69 | `Object.assign` of a message: every field the update gives is taken; the empty update changes nothing, two updates act as their field-wise combination, and one update is idempotent |
| ChatSlice.MergeSessionLaws | src/store/slices/chatSlice.ts:33 | the same for a session: every field the update gives is taken, the empty update changes nothing and one update is idempotent |
| ChatSlice.WithMessage | src/store/slices/chatSlice.ts:50-56 | the message goes last and `updatedAt` is stamped; the title can change only when this is the session's first message and the user sent it, and then it is the generated title |
| ChatSlice.WithMergedMessage | src/store/slices/chatSlice.ts:67-71 | the first message with the id takes the updates and the session is stamped; nothing else changes, and a missing id changes nothing |
| ChatSlice.WithAppendedContent | src/store/slices/chatSlice.ts:82-86 | the first message with the id gets the delta after its content and the session is stamped; nothing else changes, and a missing id changes nothing |
| ChatSlice.AppendedContentTwice | src/store/slices/chatSlice.ts:84 | appending twice equals appending the concatenation once, stamped with the later time |
| ChatSlice.AddMessageTo | src/store/slices/chatSlice.ts:48-59 | only the first session with the id changes, as `WithMessage` says; a missing id leaves the list as it is |
| ChatSlice.MergeMessageIn | src/store/slices/chatSlice.ts:60-74 | only the first session with the id changes, as `WithMergedMessage` says; a missing id leaves the list as it is |
| ChatSlice.AppendContent | src/store/slices/chatSlice.ts:75-89 | only the first session with the id changes, as `WithAppendedContent` says; a missing id leaves the list as it is |
| ChatSlice.AppendEach | src/store/slices/chatSlice.ts:75-89 | one `appendMessageContent` per delta keeps the number of sessions |
| ChatSlice.AppendAll | src/store/slices/chatSlice.ts:75-89 | appending a non-empty list of deltas one by one equals appending their concatenation once |
| ChatSlice.AppendContentTwice | src/store/slices/chatSlice.ts:75-89 | in the session list, two appends equal the append of the concatenation |
| ChatSlice.WithoutSession | src/store/slices/chatSlice.ts:38 | the result is the sessions with another id, in order, and no others |
| ChatSlice.RemoveAfterAdd | src/store/slices/chatSlice.ts:25-43 | removing a just-added session whose id is fresh gives the list back |
| Seqs.FirstKeyOrNull | src/store/slices/chatSlice.ts:40 | the fallback active id of `removeSession` and `removeModel` (modelSlice.ts line 37 too): the first id, unless the list is empty or that id is the empty string |
| ChatSlice.ChatStore.constructor | src/store/slices/chatSlice.ts:16-19 | no sessions and no active session |
| ChatSlice.ChatStore.Session | src/store/slices/chatSlice.ts:31 | the session `find` picks: the first with the id, if any |
| ChatSlice.ChatStore.AddSession | src/store/slices/chatSlice.ts:25-29 | the session goes first, the others keep their order, it becomes active, and the list is saved |
| ChatSlice.ChatStore.UpdateSession | src/store/slices/chatSlice.ts:30-36 | the first session with the id takes the updates and the list is saved; a missing id changes and saves nothing |
| ChatSlice.ChatStore.RemoveSession | src/store/slices/chatSlice.ts:37-43 | every session with the id goes; the active id falls back to the first remaining id, or null, exactly when it was removed |
| ChatSlice.ChatStore.SetActiveSession | src/store/slices/chatSlice.ts:44-47 | the id becomes active, the sessions are unchanged and saved |
| ChatSlice.ChatStore.AddMessage | src/store/slices/chatSlice.ts:48-59 | the sessions become `AddMessageTo` of the old ones; they are saved only when the session exists |
| ChatSlice.ChatStore.UpdateMessage | src/store/slices/chatSlice.ts:60-74 | the sessions become `MergeMessageIn` of the old ones; they are saved only when both the session and the message exist |
| ChatSlice.ChatStore.AppendMessageContent | src/store/slices/chatSlice.ts:75-89 | the sessions become `AppendContent` of the old ones; they are saved only when both the session and the message exist |
| ChatSlice.ChatStore.LoadSessions | src/store/slices/chatSlice.ts:90-95 | the list is replaced without saving; the first session becomes active exactly when the active id is null or empty and the list is non-empty |
| PromptSlice.Toggled | src/store/slices/promptSlice.ts:66-68 | the favourite flag flips and `updateTime` is stamped; nothing else changes |
| PromptSlice.ToggleTwice | src/store/slices/promptSlice.ts:64-71 | toggling twice restores the flag and leaves only the later stamp |
| PromptSlice.Used | src/store/slices/promptSlice.ts:74-76 | the use count goes up by exactly one and `updateTime` is stamped; nothing else changes |
| PromptSlice.Stamped | src/store/slices/promptSlice.ts:47-50 | the payload with `updateTime` set to now |
| PromptSlice.ReplacedAt | src/store/slices/promptSlice.ts:45-47 | the length is kept, only the first match is replaced, and a missing id changes nothing |
| PromptSlice.IncrementedIn | src/store/slices/promptSlice.ts:72-79 | the length is kept; the first match's use count goes up by exactly one and it is stamped; no other prompt changes; a missing id changes nothing |
| PromptSlice.WithoutPrompt | src/store/slices/promptSlice.ts:55 | the result is the prompts with another id, in order, and no others |
| PromptSlice.RemoveAfterAdd | src/store/slices/promptSlice.ts:40-60 | removing a just-added prompt whose id is fresh gives the list back |
| PromptSlice.UpdateTwice | src/store/slices/promptSlice.ts:44-53 | a second update of the same id replaces the first one |
| PromptSlice.PromptStore.constructor | src/store/slices/promptSlice.ts:15-23 | the initial state: no prompts and no selection, category `all`, empty query, sorted by `updateTime`, not loading, no error |
| PromptSlice.PromptStore.SetLoading | src/store/slices/promptSlice.ts:29-31 | only the loading flag changes |
| PromptSlice.PromptStore.SetError | src/store/slices/promptSlice.ts:32-34 | only the error changes |
| PromptSlice.PromptStore.LoadPrompts | src/store/slices/promptSlice.ts:35-39 | the list is replaced, the error cleared and the list saved; the other fields are kept |
| PromptSlice.PromptStore.AddPrompt | src/store/slices/promptSlice.ts:40-43 | the prompt goes first, the rest keep their order, the list is saved, and the settings are kept |
| PromptSlice.PromptStore.UpdatePrompt | src/store/slices/promptSlice.ts:44-53 | only the first match is replaced by the stamped payload, and it is saved; a missing id changes and saves nothing |
| PromptSlice.PromptStore.RemovePrompt | src/store/slices/promptSlice.ts:54-60 | every prompt with the id goes; the selection is cleared exactly when it was that id; the list is saved |
| PromptSlice.PromptStore.SelectPrompt | src/store/slices/promptSlice.ts:61-63 | only the selection changes |
| PromptSlice.PromptStore.ToggleFavorite | src/store/slices/promptSlice.ts:64-71 | the first match is toggled and the list saved; a missing id changes and saves nothing |
| PromptSlice.PromptStore.IncrementUseCount | src/store/slices/promptSlice.ts:72-79 | the prompts become `IncrementedIn` of the old ones; they are saved only when the id is found |
| PromptSlice.PromptStore.SelectCategory | src/store/slices/promptSlice.ts:80-82 | only the category changes |
| PromptSlice.PromptStore.SetSearchQuery | src/store/slices/promptSlice.ts:83-85 | only the query changes |
| PromptSlice.PromptStore.SetSortBy | src/store/slices/promptSlice.ts:86-88 | only the sort order changes |
| PromptSlice.PromptStore.ClearPrompts | src/store/slices/promptSlice.ts:89-94 | no prompts, no selection, no error, and the stored list removed; the other fields are kept |
| ModelSlice.MarkActive | src/store/slices/modelSlice.ts:45-48 | the length is kept and each model's flag becomes whether its id is the given one; nothing else changes |
| ModelSlice.MarkFirstActive | src/store/slices/modelSlice.ts:63-66 | the length is kept and only the first model is flagged; nothing else changes |
| ModelSlice.WithoutModel | src/store/slices/modelSlice.ts:35 | the result is the models with another id, in order, and no others |
| ModelSlice.FirstActive | src/store/slices/modelSlice.ts:55 | the index of the first flagged model, and none exactly when no model is flagged |
| ModelSlice.MarkActiveLaws | src/store/slices/modelSlice.ts:40-49 | after marking, a model is flagged exactly when its id is the active one; a later marking wins; ids are kept |
| ModelSlice.FirstActiveAfterLoad | src/store/slices/modelSlice.ts:60-66 | for a non-empty load with no flagged model, the first model becomes the only flagged one; when no other model shares its id, the flags agree with it as the active id |
| ModelSlice.AgreementPreserved | src/store/slices/modelSlice.ts:26-39 | removing a model that is not active, or replacing a model by one whose flag agrees, keeps the flags in agreement with the active id |
| ModelSlice.ModelStore.constructor | src/store/slices/modelSlice.ts:9-12 | no models and no active model |
| ModelSlice.ModelStore.AddModel | src/store/slices/modelSlice.ts:18-25 | the model goes last; it becomes active exactly when it is the only model |
| ModelSlice.ModelStore.UpdateModel | src/store/slices/modelSlice.ts:26-32 | the entry at the first matching index is replaced; a missing id changes nothing; the active id is kept |
| ModelSlice.ModelStore.RemoveModel | src/store/slices/modelSlice.ts:33-39 | every model with the id goes; the active id falls back to the first remaining id, or null, exactly when it was removed |
| ModelSlice.ModelStore.SetActiveModel | src/store/slices/modelSlice.ts:40-49 | the id becomes active and every flag agrees with it; the order and the other fields are kept |
| ModelSlice.ModelStore.LoadModels | src/store/slices/modelSlice.ts:50-70 | the active id is the first flagged model's; with none flagged the first becomes the only one flagged and active; an empty list leaves none active |
| PromptService.SortPrompts | src/services/promptService.ts:61-74 | the sorted copy is a permutation of the input |
| PromptService.SortPromptsSpec | src/services/promptService.ts:61-74 | the sorted copy does not increase in the chosen key, and prompts with equal keys keep their input order |
| PromptService.SearchPrompts | src/services/promptService.ts:48-59 | a blank query returns the input itself; any result is a subsequence of the input |
| PromptService.SearchPromptsIff | src/services/promptService.ts:53-58 | for a non-blank query, a prompt is kept exactly when the lower-cased, untrimmed query occurs in its lower-cased title, content or some tag |
| SessionService.GenerateSessionTitle | src/services/sessionService.ts:48-62 | a blank message gets `新对话`; any title is non-empty and has at most 23 characters |
| SessionService.TitleShape | src/services/sessionService.ts:51-59 | for a non-blank message: the trimmed, collapsed text has no surrounding whitespace and only single spaces; it is the title when it has at most 20 characters, else its first 20 followed by `...` |
| SessionService.TitleKeepsWords | src/services/sessionService.ts:51-54 | trimming and collapsing keep every non-whitespace character, in order |
| SessionService.TitleCollapsesRun | src/services/sessionService.ts:51-54 | inside a message, a whitespace run between two words becomes exactly one space of the trimmed, collapsed title text |
| SessionService.CleanShortTitleFixed | src/services/sessionService.ts:51-61 | a clean title of 1 to 20 characters is its own title |
| SessionService.ShortTitleIdempotent | src/services/sessionService.ts:48-62 | a title that was not cut is a fixed point of title generation |
| PromptManager.GetFilteredAndSortedPrompts | src/components/PromptManager/index.tsx:66-80 | the result holds only prompts of the list, each no more often; with category `all` and an empty query it is a permutation of the whole list |
| PromptManager.FilteredAndSorted | src/components/PromptManager/index.tsx:66-80 | the result is the sort of exactly the prompts kept by category and query, in input order, and a permutation of them |
| PromptManager.ResultMembers | src/components/PromptManager/index.tsx:66-80 | a prompt is in the result exactly when it is in the list, is in the category (or the category is `all`) and, for a non-empty query (spaces included), matches it |
| ChatWindow.GetSortedPrompts | src/components/ChatWindow/index.tsx:500-507 | the sorted copy is a permutation of the prompts |
| ChatWindow.SortedPromptsOrder | src/components/ChatWindow/index.tsx:501-506 | no prompt that is not a favourite precedes a favourite, and use counts do not increase within each group |
| ChatWindow.SortedPromptsStable | src/components/ChatWindow/index.tsx:500-507 | prompts that tie on both keys keep their input order |
| ChatWindow.Replacement | src/components/ChatWindow/index.tsx:369 | the replacement is the trimmed input, else the default value, else the empty string |
| ChatWindow.SubstitutedAppend | src/components/ChatWindow/index.tsx:367-370 | the variables apply in order: substituting a list is substituting its front, then its back |
| ChatWindow.Substituted | src/components/ChatWindow/index.tsx:366-371 | the variables apply in order, each replacing the first occurrence of its placeholder; a text holding none of the placeholders comes back unchanged |
| ChatWindow.SubstituteVariables | src/components/ChatWindow/index.tsx:366-371 | the `forEach` replaces, for each variable in order, the first `{name}` left by the earlier ones |
| ChatWindow.CurrentMessages | src/components/ChatWindow/index.tsx:205-206 | the messages of the first session with the active id, or none when there is no active id or no such session |
| ChatWindow.FoundPrompt | src/components/ChatWindow/index.tsx:360-361 | a prompt is found exactly when the selection is truthy and some prompt has that id, and then it is the first such prompt |
| ChatWindow.UserMessage | src/components/ChatWindow/index.tsx:384-390 | the user's message has the fresh id, the user role, success status and the time; its text is the trimmed input when that is not blank, and empty exactly when the input is blank and no prompt was found |
| ChatWindow.AssistantMessage | src/components/ChatWindow/index.tsx:425-431 | the placeholder is an empty assistant message with the reply's id and streaming status |
| ChatWindow.UserTextCases | src/components/ChatWindow/index.tsx:388 | the user's text is the trimmed input when it is not blank; otherwise `执行提示词：` and the prompt's title, or the empty string when no prompt was found |
| ChatWindow.Outgoing | src/components/ChatWindow/index.tsx:356-422 | the outgoing list is the session's messages, then the prompt's system message if one was found, the user's message, and the page's system message if there is a page |
| ChatWindow.Settled | src/components/ChatWindow/index.tsx:393-484 | the store calls of one send keep the number of sessions |
| ChatWindow.AddedBoth | src/components/ChatWindow/index.tsx:393-436 | after both `addMessage` calls the session ends with the user's message and then the assistant's; the assistant's is the first message with its id; no other session changes |
| ChatWindow.StreamedInto | src/components/ChatWindow/index.tsx:441-447 | the deltas of a reply end up, concatenated, in the assistant message |
| ChatWindow.AbortedContent | src/components/ChatWindow/index.tsx:472 | the aborted content always ends with the note `\n\n[已终止输出]`, is the content of the first snapshot message with the id followed by the note, and is `undefined` followed by the note when the snapshot holds no message with the id |
| ChatWindow.SettleUpdates | src/components/ChatWindow/index.tsx:452-484 | the settling update sets only the status, and the content exactly on abort: success for a completed reply or an abort, error otherwise; an abort writes `AbortedContent` |
| ChatWindow.SettledShape | src/components/ChatWindow/index.tsx:393-484 | a send into an existing session, under fresh ids, changes no other session and adds exactly the user's message and the assistant's message; the assistant's holds the streamed text and then takes the settling update |
| ChatWindow.SettledReply | src/components/ChatWindow/index.tsx:450-484 | a completed reply keeps the streamed text and succeeds; another error keeps it and fails; an abort succeeds with `undefined` and the note in place of the text |
| ChatWindow.AfterSendStores | src/components/ChatWindow/index.tsx:351-484 | the full send stores exactly two messages after the session's own: the user's message, and the streamed assistant message with its settling update; the system messages are sent but never stored |
| ChatWindow.IntendedReplyKept | src/components/ChatWindow/index.tsx:466-474 | with the corrected abort branch, the assistant message keeps the streamed text; an abort adds the note after it; the statuses are as before |
| ChatWindow.AfterSend | src/components/ChatWindow/index.tsx:351-484 | the outcome is the request's; the session and prompt counts are kept; nothing changes without an active session; the prompts change only after success with a truthy selection; the outgoing list starts with the session's messages and contains the user's message |
| ChatWindow.ActiveModel | src/components/ChatWindow/index.tsx:204 | a model is found exactly when there is an active id and some model has it, and then it is the first such model |
| ChatWindow.ActiveModelChanged | src/components/ChatWindow/index.tsx:210-214 | a service for the active model when one exists, otherwise the previous service is kept; nothing else in the state changes |
| ChatWindow.PromptSelected | src/components/ChatWindow/index.tsx:314-316 | the selection becomes the id, truthy exactly when the id is non-empty; nothing else changes |
| ChatWindow.Stream | src/components/ChatWindow/index.tsx:441-447 | one `appendMessageContent` per `onMessage` call, in order |
| ChatWindow.PromptMessage | src/components/ChatWindow/index.tsx:359-382 | the prompt found for a truthy selection, and its system message, with variables substituted, added after the snapshot |
| ChatWindow.Settle | src/components/ChatWindow/index.tsx:450-484 | the settling `updateMessage` for success, abort or error; the use count goes up only on success with a truthy selection; the prompt store's settings are kept |
| ChatWindow.Post | src/components/ChatWindow/index.tsx:351-436 | the snapshot, the user's message, the outgoing list, and the two messages added to the active session |
| ChatWindow.Receive | src/components/ChatWindow/index.tsx:438-484 | the outcome is the request's; the session gets the streamed deltas and then the settling update; the prompts change only as `Settle` says |
| ChatWindow.Send | src/components/ChatWindow/index.tsx:351-484 | the outgoing list, the outcome, and the sessions and prompts afterwards are those of the reference `AfterSend`; the active session and prompt settings are kept |
| ChatWindow.HandleSend | src/components/ChatWindow/index.tsx:346-489 | something is sent exactly when the input is not blank or a prompt is selected, and a service exists; if nothing is sent, nothing changes; otherwise the stores end as `AfterSend` says, success clears the input and the selection, and loading ends cleared |
| Text.NatToString | src/services/aiService.ts:57 | the status is rendered as decimal digits without a leading zero that read back as the status |
| Text.Trim | src/services/sessionService.ts:51 | the result of `trim` has no whitespace at either end, and it is empty exactly when the text is all whitespace |
| Text.TrimInfix | src/services/sessionService.ts:51 | `trim` removes exactly a whitespace prefix and a whitespace suffix: the result is the part of the text between them |
| Text.TrimStart | src/services/aiService.ts:110 | `trimStart` removes exactly the leading whitespace |
| Text.Split | src/services/aiService.ts:95 | `split` on one character gives at least one part; no part holds the separator; joining gives the text back |
| Text.ReplaceFirst | src/components/ChatWindow/index.tsx:369 | `replace` with a string pattern changes only the first occurrence, and leaves a text without the pattern alone |
| Text.Lower | src/services/promptService.ts:53-57 | `toLowerCase` keeps the length and maps each ASCII capital to its small letter, leaving every other character as it is |
| Text.CollapseWs | src/services/sessionService.ts:54 | `replace(/\s+/g, ' ')` leaves only single spaces as whitespace and keeps whether the text starts or ends with whitespace |
| Text.CollapseRun | src/services/sessionService.ts:54 | a whitespace run between two words becomes exactly one space: collapsing the whole is collapsing each side joined by `' '` |
| Text.CollapseKeepsWords | src/services/sessionService.ts:54 | collapsing keeps every non-whitespace character, in order |
| Text.CollapseFixed | src/services/sessionService.ts:54 | collapsing a text that is already collapsed changes nothing |
| StableSort.SortDescending | src/services/promptService.ts:62 | the sort puts no element after one with a lower rank |
| StableSort.SortStable | src/services/promptService.ts:62 | elements of equal rank keep their input order |
| StableSort.Sort | src/services/promptService.ts:62 | the sort keeps the length and is a permutation of its input |

## Left out

- Surrogate pairs: a Dafny `char` cannot be half of a pair, so a character outside the Basic Multilingual Plane has length 1 here where JavaScript counts 2. Lengths and the 20-character cuts of `chatSlice.ts` line 12 and `sessionService.ts` line 58 are modelled only for text without such characters; a cut through a pair is not modelled.
- The network, `TextDecoder` and `reader.releaseLock` are not modelled. A `Transport` value gives the decoded text of each read and how the reads end. A character split across reads by `decode` without `{stream: true}` is not modelled; chunk invariance is stated on decoded text.
- `JSON.parse` and `choices[0]?.delta?.content` are the parameter `parse`. A JSON parser is a foreign call.
- The body of a non-ok response is not parsed; its `error.message`, if any, is part of the `Transport` value.
- `handleStop`, the `AbortController` and the unmount cleanup are not modelled. An abort appears as an `AbortError` that rejects `fetch` or a read. Concurrency between the stop button and the send is not modelled.
- `ChatWindow.Receive`: the `onMessage` dispatches are replayed after the request settles; the source interleaves them with the reads. No reducer call in between differs, so the final state is the same.
- One `now` stands for every `Date.now()` call of one operation. The ids that `crypto.randomUUID()` draws are the `MessageIds` parameter.
- `getPageContext` uses the Chrome tab and scripting APIs and the DOM. The page's system message content, already rendered, is the parameter `pageContext`; the text template of lines 406-417 is not modelled.
- `ChatWindow.HandleSend`: `antMessage` notices, `console` logging and scrolling are left out. `isLoading` is set at the start and read by nothing here, so only its final value is stated.
- `ChatWindow.WindowState`: React component state is a value that the handlers return, not fields changed in place.
- `String.prototype.replace` with a string pattern expands `$` patterns in the replacement; the model takes the replacement literally.
- `toLowerCase` is ASCII-only (`Text.Lower`). Letters outside ASCII are left as they are, and the search lemmas hold for that mapping.
- `ChatSlice.MergeSession`, `ChatSlice.MergeMessage`: `Object.assign` also copies an update field that is present but `undefined`, clearing the field; with an `Option` per field the model cannot say that. No caller in this model passes such a field.
- `AIService.SystemFirst`: it is a stable partition. For two or more system messages the source's comparator is inconsistent (`AIService.CompareInconsistentOnSystem`), so the engine may order them differently. With binary insertion, as Chrome's engine sorts, `[prompt system, user, page system]` comes out as `[page system, prompt system, user]`. So when a prompt is selected and there is a page context, the real request puts the page's system message first, while `BuildRequest` and `RequestShape` put the prompt's system message first.
- The static `AIService.sendMessage` (axios, non-streaming, reads the global store), `updateConfig`, and the instance `sendMessage`, which only rethrows, are not modelled.
- The persistence calls are recorded in the ghost field `saved`. localStorage, chrome.storage and the load/save/clear methods of the services are foreign I/O.
- Rendering, markdown, copy-to-clipboard, the settings slice, the form and manager components, startup and the background script are UI or I/O.
- `ChatWindow.Send`: with no active session, `activeSessionId!` passes null and the reducers find nothing; the model leaves the sessions unchanged in that case.

## Findings

| source | as written | input that shows it | evidently intended | confidence | as-written member | corrected member |
|---|---|---|---|---|---|---|
| src/store/slices/chatSlice.ts:13 | `...` is appended when the untrimmed content is longer than 20 | 22 spaces followed by `ab` give the title `ab...`, though nothing was cut | `...` only when the trimmed content was cut | not executed; medium | ChatSlice.EllipsisWithoutTruncation | ChatSlice.IntendedSessionTitle |
| src/services/aiService.ts:167-176 | the fixed messages for 400, 401 and 429 are chosen by `error.response?.status`, a field that no error thrown by `fetch` or by the code itself has | a 401 response with no error message rejects with `HTTP error! status: 401` | a rejected 400, 401 or 429 response gets its fixed message | not executed; high | AIService.UnauthorizedNotMapped | AIService.ClassifyHttpFailure |
| src/components/ChatWindow/index.tsx:472 | the aborted content is read from the snapshot taken before the send, which never holds the assistant message | aborting a reply that streamed `Hi` stores `undefined\n\n[已终止输出]` | the streamed text followed by the note | not executed; high | ChatWindow.SettledReply | ChatWindow.IntendedReplyKept |
