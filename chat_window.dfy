/** The chat window component: the order of its prompt picker, the substitution of a
    selected prompt's variables, and `handleSend`, which puts the user's message and an
    empty assistant message into the active session, streams the reply into the
    assistant message and then settles its status. The component's own state
    (`inputValue`, `selectedPromptId`, `isLoading` and the service built from the active
    model) is the value `WindowState`; the stores are the slice classes. */
module ChatWindow {
  import opened Wrappers
  import opened Seqs
  import opened Text
  import opened Types
  import opened StableSort
  import opened StreamDecoder
  import opened AIService
  import opened ChatSlice
  import PromptSlice

  // ---------------------------------------------------------------------------------
  // getSortedPrompts (lines 500-507)

  /** The comparator of lines 501-506: favourites first, then by use count, highest
      first. */
  function FavoriteRank(p: Prompt): Rank
  {
    Rank(if p.isFavorite then 1 else 0, p.useCount)
  }

  function GetSortedPrompts(prompts: seq<Prompt>): (r: seq<Prompt>)
    ensures |r| == |prompts| && multiset(r) == multiset(prompts)
  {
    Sort(prompts, FavoriteRank)
  }

  /** No prompt that is not a favourite comes before a favourite, and within each group
      the use counts do not increase. */
  lemma SortedPromptsOrder(prompts: seq<Prompt>)
    ensures var r := GetSortedPrompts(prompts);
      && (forall i, j :: 0 <= i < j < |r| && r[j].isFavorite ==> r[i].isFavorite)
      && (forall i, j :: 0 <= i < j < |r| && r[i].isFavorite == r[j].isFavorite ==>
            r[i].useCount >= r[j].useCount)
  {
    var r := GetSortedPrompts(prompts);
    SortDescending(prompts, FavoriteRank);
    forall i, j | 0 <= i < j < |r|
      ensures !Above(FavoriteRank(r[j]), FavoriteRank(r[i]))
    {
    }
  }

  /** Prompts that tie (same favourite flag, same use count) keep their order. */
  lemma SortedPromptsStable(prompts: seq<Prompt>, favorite: bool, useCount: int)
    ensures var v := Rank(if favorite then 1 else 0, useCount);
      OfRank(GetSortedPrompts(prompts), FavoriteRank, v) == OfRank(prompts, FavoriteRank, v)
  {
    SortStable(prompts, FavoriteRank, Rank(if favorite then 1 else 0, useCount));
  }

  // ---------------------------------------------------------------------------------
  // The variables of a selected prompt (lines 363-371)

  function Placeholder(name: string): string
  {
    "{" + name + "}"
  }

  /** `inputValue.trim() || variable.defaultValue || ''`. */
  function Replacement(input: string, v: PromptVariable): (r: string)
    ensures Trim(input) != "" ==> r == Trim(input)
    ensures Trim(input) == "" ==> r == v.defaultValue.GetOr("")
  {
    if Trim(input) != "" then Trim(input)
    else if v.defaultValue.Some? && v.defaultValue.value != "" then v.defaultValue.value
    else ""
  }

  /** The variables taken in order, each replacing the first occurrence of its
      placeholder in the text the earlier ones left. */
  function Substituted(content: string, variables: seq<PromptVariable>, input: string): (r: string)
    ensures (forall k :: 0 <= k < |variables| ==> !Contains(content, Placeholder(variables[k].name))) ==> r == content
    decreases |variables|
  {
    if variables == [] then content
    else
      var v := variables[0];
      assert forall k :: 0 <= k < |variables[1..]| ==> variables[1..][k] == variables[k + 1];
      Substituted(ReplaceFirst(content, Placeholder(v.name), Replacement(input, v)), variables[1..], input)
  }

  /** Substituting a list of variables is substituting its front, then its back. */
  lemma {:induction false} SubstitutedAppend(content: string, a: seq<PromptVariable>,
                                              b: seq<PromptVariable>, input: string)
    ensures Substituted(content, a + b, input) == Substituted(Substituted(content, a, input), b, input)
    decreases |a|
  {
    if a == [] {
      assert a + b == b;
    } else {
      var v := a[0];
      assert (a + b)[0] == v && (a + b)[1..] == a[1..] + b;
      SubstitutedAppend(ReplaceFirst(content, Placeholder(v.name), Replacement(input, v)), a[1..], b, input);
    }
  }

  /** The `forEach` of lines 367-370. */
  method SubstituteVariables(content: string, variables: seq<PromptVariable>, input: string)
    returns (promptContent: string)
    ensures promptContent == Substituted(content, variables, input)
  {
    promptContent := content;
    assert variables[0..] == variables;
    for k := 0 to |variables|
      invariant Substituted(promptContent, variables[k..], input) == Substituted(content, variables, input)
    {
      var placeholder := Placeholder(variables[k].name);
      assert variables[k..][0] == variables[k] && variables[k..][1..] == variables[k + 1..];
      promptContent := ReplaceFirst(promptContent, placeholder, Replacement(input, variables[k]));
    }
    assert variables[|variables|..] == [];
  }

  /** The system message's text: the content with its variables substituted when the
      prompt declares some. */
  function PromptText(p: Prompt, input: string): string
  {
    if p.variables.Some? && |p.variables.value| > 0 then Substituted(p.content, p.variables.value, input)
    else p.content
  }

  // ---------------------------------------------------------------------------------
  // handleSend (lines 346-489)

  const AbortNote: string := "\n\n[已终止输出]"
  /** What `undefined` turns into when a string is added to it. */
  const Undefined: string := "undefined"
  const PromptRunPrefix: string := "执行提示词："

  /** `sessions.find(s => s.id === activeSessionId)?.messages || []`. */
  function CurrentMessages(sessions: seq<ChatSession>, activeSessionId: Option<string>): (r: seq<ChatMessage>)
    ensures activeSessionId.Some? && FirstIndex(sessions, SessionKey, activeSessionId.value).Some? ==>
      r == sessions[FirstIndex(sessions, SessionKey, activeSessionId.value).value].messages
    ensures (activeSessionId.None? || forall k :: 0 <= k < |sessions| ==> sessions[k].id != activeSessionId.value) ==>
      r == []
  {
    if activeSessionId.None? then []
    else match FirstIndex(sessions, SessionKey, activeSessionId.value)
      case None => []
      case Some(i) => sessions[i].messages
  }

  /** `prompts.find(p => p.id === selectedPromptId)`, looked up only when the selection
      is truthy. */
  function FoundPrompt(prompts: seq<Prompt>, selectedPromptId: Option<string>): (r: Option<Prompt>)
    ensures r.Some? ==> !IsFalsy(selectedPromptId) && r.value in prompts && r.value.id == selectedPromptId.value
    ensures r.Some? <==> !IsFalsy(selectedPromptId) && exists k :: 0 <= k < |prompts| && prompts[k].id == selectedPromptId.value
    ensures r.Some? ==> exists j :: (0 <= j < |prompts| && prompts[j] == r.value
      && forall k :: 0 <= k < j ==> prompts[k].id != selectedPromptId.value)
  {
    if IsFalsy(selectedPromptId) then None
    else match FirstIndex(prompts, PromptKey, selectedPromptId.value)
      case None => None
      case Some(i) => Some(prompts[i])
  }

  /** The user message's text (line 388): the trimmed input, or, when it is blank, a
      note naming the prompt found. */
  function UserText(input: string, found: Option<Prompt>): string
  {
    if Trim(input) != "" then Trim(input)
    else if found.Some? then PromptRunPrefix + found.value.title
    else ""
  }

  /** The user's text is the trimmed input unless the input is blank; a blank input
      falls back to the note naming the prompt, or to the empty string. */
  lemma UserTextCases(input: string, found: Option<Prompt>)
    ensures !AllWs(input) ==> UserText(input, found) == Trim(input) && UserText(input, found) != ""
    ensures AllWs(input) && found.Some? ==> UserText(input, found) == PromptRunPrefix + found.value.title
    ensures AllWs(input) && found.None? ==> UserText(input, found) == ""
  {
  }

  /** The user's message of lines 384-390. Its text is empty exactly when the input is
      blank and no prompt was found, the case the send guard of line 347 rules out. */
  function UserMessage(id: string, input: string, found: Option<Prompt>, now: int): (r: ChatMessage)
    ensures r.id == id && r.role == User && r.timestamp == now && r.status == Some(Success) && r.metadata.None?
    ensures r.content == "" <==> AllWs(input) && found.None?
    ensures !AllWs(input) ==> r.content == Trim(input)
  {
    ChatMessage(id, User, UserText(input, found), now, Some(Success), None)
  }

  /** The placeholder of lines 425-431 that the streamed text is appended to: an empty,
      streaming assistant message with the fresh id. */
  function AssistantMessage(id: string, now: int): (r: ChatMessage)
    ensures r.id == id && r.role == Assistant && r.timestamp == now && r.metadata.None?
    ensures r.content == "" && r.status == Some(Streaming)
  {
    ChatMessage(id, Assistant, "", now, Some(Streaming), None)
  }

  /** The messages handed to the service: the session's messages, the prompt's system
      message, the user's message and the page's system message, in that order. */
  function Outgoing(messages: seq<ChatMessage>, found: Option<Prompt>, promptMessageId: string,
                    user: ChatMessage, pageContext: Option<string>, contextMessageId: string,
                    input: string, now: int): (r: seq<ChatMessage>)
    ensures var u := |messages| + (if found.Some? then 1 else 0);
      && |r| == u + 1 + (if pageContext.Some? then 1 else 0)
      && r[..|messages|] == messages
      && (found.Some? ==> r[|messages|] == ChatMessage(promptMessageId, System, PromptText(found.value, input), now, Some(Success), None))
      && r[u] == user
      && (pageContext.Some? ==> r[u + 1] == ChatMessage(contextMessageId, System, pageContext.value, now, Some(Success), None))
  {
    var withPrompt := if found.Some? then
        messages + [ChatMessage(promptMessageId, System, PromptText(found.value, input), now, Some(Success), None)]
      else messages;
    var withUser := withPrompt + [user];
    var r := if pageContext.Some? then
      withUser + [ChatMessage(contextMessageId, System, pageContext.value, now, Some(Success), None)]
    else withUser;
    assert r[..|withPrompt| + 1] == withUser;
    assert r[..|messages|] == withPrompt[..|messages|];
    r
  }

  /** The content the abort branch writes (line 472): the content the message had in
      the snapshot `messages` taken before the send, or `undefined`, followed by the
      note. */
  function AbortedContent(messages: seq<ChatMessage>, messageId: string): (r: string)
    ensures |AbortNote| <= |r| && r[|r| - |AbortNote|..] == AbortNote
    ensures (forall k :: 0 <= k < |messages| ==> messages[k].id != messageId) ==> r == Undefined + AbortNote
    ensures forall j :: (0 <= j < |messages| && messages[j].id == messageId
      && (forall k :: 0 <= k < j ==> messages[k].id != messageId)) ==> r == messages[j].content + AbortNote
  {
    match FirstIndex(messages, MessageKey, messageId)
    case None => Undefined + AbortNote
    case Some(j) => messages[j].content + AbortNote
  }

  function StatusUpdate(status: MessageStatus): MessageUpdates
  {
    NoMessageUpdates.(status := Some(status))
  }

  /** The `updateMessage` that settles the assistant message, as written: success, an
      abort, or any other error. */
  function SettleUpdates(outcome: StreamOutcome, messages: seq<ChatMessage>, messageId: string): (r: MessageUpdates)
    ensures r.id.None? && r.role.None? && r.timestamp.None? && r.metadata.None?
    ensures var aborted := outcome.Failed? && outcome.error.name == AbortErrorName;
      && r.status == Some(if outcome.Completed? || aborted then Success else Error)
      && (r.content.Some? <==> aborted)
      && (aborted ==> r.content == Some(AbortedContent(messages, messageId)))
  {
    match outcome
    case Completed => StatusUpdate(Success)
    case Failed(e) =>
      if e.name == AbortErrorName then StatusUpdate(Success).(content := Some(AbortedContent(messages, messageId)))
      else StatusUpdate(Error)
  }

  /** The sessions after a send into `sessionId`: the user message, then the assistant
      message, then each streamed delta, then the settling update. */
  function Settled(sessions: seq<ChatSession>, sessionId: string, user: ChatMessage, messageId: string,
                   emitted: seq<string>, settle: MessageUpdates, now: int): (r: seq<ChatSession>)
    ensures |r| == |sessions|
  {
    var added := AddMessageTo(AddMessageTo(sessions, sessionId, user, now), sessionId, AssistantMessage(messageId, now), now);
    MergeMessageIn(AppendEach(added, sessionId, messageId, emitted, now), sessionId, messageId, settle, now)
  }

  /** The ids `crypto.randomUUID()` draws for one send: the assistant's message, the
      prompt's system message, the user's message and the page's system message. */
  datatype MessageIds = MessageIds(assistant: string, prompt: string, user: string, context: string)

  /** What a send does: the messages handed to the service, how the request ended, and
      the sessions and the prompts afterwards. */
  datatype SendEffect = SendEffect(outgoing: seq<ChatMessage>, outcome: StreamOutcome,
                                   sessions: seq<ChatSession>, prompts: seq<Prompt>)

  /** The send of lines 351-484, from the stores' sessions, active session and prompts,
      and the component's input and selection. */
  function AfterSend(sessions: seq<ChatSession>, activeSessionId: Option<string>, prompts: seq<Prompt>,
                   input: string, selectedPromptId: Option<string>, ids: MessageIds, now: int,
                   pageContext: Option<string>, transport: Transport, parse: string -> Payload): (r: SendEffect)
    ensures r.outcome == StreamResult(transport, parse).0
    ensures |r.sessions| == |sessions| && |r.prompts| == |prompts|
    ensures activeSessionId.None? ==> r.sessions == sessions
    ensures !(r.outcome.Completed? && !IsFalsy(selectedPromptId)) ==> r.prompts == prompts
    ensures |r.outgoing| >= |CurrentMessages(sessions, activeSessionId)| + 1
    ensures r.outgoing[..|CurrentMessages(sessions, activeSessionId)|] == CurrentMessages(sessions, activeSessionId)
    ensures UserMessage(ids.user, input, FoundPrompt(prompts, selectedPromptId), now) in r.outgoing
  {
    var messages := CurrentMessages(sessions, activeSessionId);
    var found := FoundPrompt(prompts, selectedPromptId);
    var user := UserMessage(ids.user, input, found, now);
    var reply := StreamResult(transport, parse);
    SendEffect(Outgoing(messages, found, ids.prompt, user, pageContext, ids.context, input, now),
               reply.0,
               if activeSessionId.None? then sessions
               else Settled(sessions, activeSessionId.value, user, ids.assistant, reply.1,
                            SettleUpdates(reply.0, messages, ids.assistant), now),
               if reply.0.Completed? && !IsFalsy(selectedPromptId)
               then PromptSlice.IncrementedIn(prompts, selectedPromptId.value, now)
               else prompts)
  }

  /** Adding a message keeps the session the first one with its id. */
  lemma AddKeepsSession(sessions: seq<ChatSession>, sessionId: string, m: ChatMessage, now: int)
    requires FirstIndex(sessions, SessionKey, sessionId).Some?
    ensures FirstIndex(AddMessageTo(sessions, sessionId, m, now), SessionKey, sessionId)
         == FirstIndex(sessions, SessionKey, sessionId)
  {
    var i := FirstIndex(sessions, SessionKey, sessionId).value;
    FirstIndexReplace(sessions, SessionKey, sessionId, WithMessage(sessions[i], m, now));
  }

  /** A message appended under an id no earlier message has is the first with it. */
  lemma FirstIndexFresh(messages: seq<ChatMessage>, m: ChatMessage)
    requires forall k :: 0 <= k < |messages| ==> messages[k].id != m.id
    ensures FirstIndex(messages + [m], MessageKey, m.id) == Some(|messages|)
  {
    var t := messages + [m];
    assert MessageKey(t[|messages|]) == m.id;
    assert forall k :: 0 <= k < |messages| ==> MessageKey(t[k]) != m.id;
  }

  /** After both `addMessage` calls the session holds the two new messages last, and the
      assistant message is the first with its id. */
  lemma {:induction false} AddedBoth(sessions: seq<ChatSession>, sessionId: string, user: ChatMessage,
                                     messageId: string, now: int)
    requires FirstIndex(sessions, SessionKey, sessionId).Some?
    requires user.id != messageId
    requires var s := sessions[FirstIndex(sessions, SessionKey, sessionId).value];
      forall k :: 0 <= k < |s.messages| ==> s.messages[k].id != messageId
    ensures var i := FirstIndex(sessions, SessionKey, sessionId).value;
      var added := AddMessageTo(AddMessageTo(sessions, sessionId, user, now), sessionId, AssistantMessage(messageId, now), now);
      && FirstIndex(added, SessionKey, sessionId) == Some(i)
      && |added| == |sessions|
      && (forall k :: 0 <= k < |sessions| && k != i ==> added[k] == sessions[k])
      && added[i] == WithMessage(WithMessage(sessions[i], user, now), AssistantMessage(messageId, now), now)
      && FirstIndex(added[i].messages, MessageKey, messageId) == Some(|sessions[i].messages| + 1)
      && added[i].updatedAt == now
  {
    var i := FirstIndex(sessions, SessionKey, sessionId).value;
    var a := AssistantMessage(messageId, now);
    var once := AddMessageTo(sessions, sessionId, user, now);
    AddKeepsSession(sessions, sessionId, user, now);
    AddKeepsSession(once, sessionId, a, now);
    var ms := sessions[i].messages + [user];
    assert forall k :: 0 <= k < |ms| ==> ms[k].id != messageId by {
      forall k | 0 <= k < |ms| ensures ms[k].id != messageId {
        if k < |sessions[i].messages| { assert ms[k] == sessions[i].messages[k]; }
      }
    }
    FirstIndexFresh(ms, a);
    assert once[i].messages + [a] == sessions[i].messages + [user, a];
  }

  /** Appending nothing to a message of a session already stamped `now` changes
      nothing. */
  lemma AppendNothing(sessions: seq<ChatSession>, sessionId: string, messageId: string, now: int)
    requires FirstIndex(sessions, SessionKey, sessionId).Some?
    requires var s := sessions[FirstIndex(sessions, SessionKey, sessionId).value];
      s.updatedAt == now && FirstIndex(s.messages, MessageKey, messageId).Some?
    ensures AppendContent(sessions, sessionId, messageId, "", now) == sessions
  {
    var i := FirstIndex(sessions, SessionKey, sessionId).value;
    var s := sessions[i];
    var j := FirstIndex(s.messages, MessageKey, messageId).value;
    assert s.messages[j].content + "" == s.messages[j].content;
    assert s.messages[j := s.messages[j]] == s.messages;
  }

  /** The deltas of one reply end up, concatenated, in the assistant message. */
  lemma StreamedInto(sessions: seq<ChatSession>, sessionId: string, messageId: string,
                     emitted: seq<string>, now: int)
    requires FirstIndex(sessions, SessionKey, sessionId).Some?
    requires var s := sessions[FirstIndex(sessions, SessionKey, sessionId).value];
      s.updatedAt == now && FirstIndex(s.messages, MessageKey, messageId).Some?
    ensures AppendEach(sessions, sessionId, messageId, emitted, now)
         == AppendContent(sessions, sessionId, messageId, Flatten(emitted), now)
  {
    if emitted == [] {
      AppendNothing(sessions, sessionId, messageId, now);
    } else {
      AppendAll(sessions, sessionId, messageId, emitted, now);
    }
  }

  /** Appending, then merging, the same message of a session. */
  lemma AppendThenMerge(s: ChatSession, messageId: string, text: string, u: MessageUpdates, now: int)
    requires FirstIndex(s.messages, MessageKey, messageId).Some?
    ensures var j := FirstIndex(s.messages, MessageKey, messageId).value;
      var m := s.messages[j];
      WithMergedMessage(WithAppendedContent(s, messageId, text, now), messageId, u, now)
        == s.(messages := s.messages[j := MergeMessage(m.(content := m.content + text), u)], updatedAt := now)
  {
    var j := FirstIndex(s.messages, MessageKey, messageId).value;
    var m := s.messages[j];
    FirstIndexReplace(s.messages, MessageKey, messageId, m.(content := m.content + text));
  }

  /** Appending, then merging, in the session list. */
  lemma AppendThenMergeIn(sessions: seq<ChatSession>, sessionId: string, messageId: string,
                          text: string, u: MessageUpdates, now: int)
    requires FirstIndex(sessions, SessionKey, sessionId).Some?
    ensures var i := FirstIndex(sessions, SessionKey, sessionId).value;
      MergeMessageIn(AppendContent(sessions, sessionId, messageId, text, now), sessionId, messageId, u, now)
        == sessions[i := WithMergedMessage(WithAppendedContent(sessions[i], messageId, text, now), messageId, u, now)]
  {
    var i := FirstIndex(sessions, SessionKey, sessionId).value;
    FirstIndexReplace(sessions, SessionKey, sessionId, WithAppendedContent(sessions[i], messageId, text, now));
  }

  /** A send into an existing session, under message ids the session does not hold,
      leaves every other session alone and ends the session with the user's message
      and the assistant's message, which holds the streamed text and then takes the
      settling update. */
  lemma {:induction false} SettledShape(sessions: seq<ChatSession>, sessionId: string, user: ChatMessage,
                                        messageId: string, emitted: seq<string>, settle: MessageUpdates, now: int)
    requires FirstIndex(sessions, SessionKey, sessionId).Some?
    requires user.id != messageId
    requires var s := sessions[FirstIndex(sessions, SessionKey, sessionId).value];
      forall k :: 0 <= k < |s.messages| ==> s.messages[k].id != messageId
    ensures var i := FirstIndex(sessions, SessionKey, sessionId).value;
      var r := Settled(sessions, sessionId, user, messageId, emitted, settle, now);
      var s := sessions[i];
      && |r| == |sessions|
      && (forall k :: 0 <= k < |sessions| && k != i ==> r[k] == sessions[k])
      && r[i].id == s.id && r[i].createdAt == s.createdAt && r[i].updatedAt == now
      && r[i].title == WithMessage(s, user, now).title
      && r[i].messages == s.messages + [user, MergeMessage(AssistantMessage(messageId, now).(content := Flatten(emitted)), settle)]
  {
    var i := FirstIndex(sessions, SessionKey, sessionId).value;
    var a := AssistantMessage(messageId, now);
    var added := AddMessageTo(AddMessageTo(sessions, sessionId, user, now), sessionId, a, now);
    AddedBoth(sessions, sessionId, user, messageId, now);
    var text := Flatten(emitted);
    StreamedInto(added, sessionId, messageId, emitted, now);
    AppendThenMergeIn(added, sessionId, messageId, text, settle, now);
    var merged := WithMergedMessage(WithAppendedContent(added[i], messageId, text, now), messageId, settle, now);
    assert Settled(sessions, sessionId, user, messageId, emitted, settle, now) == added[i := merged];
    SessionSettled(sessions[i], user, messageId, text, settle, now);
  }

  /** The session-level step of `SettledShape`. */
  lemma SessionSettled(s: ChatSession, user: ChatMessage, messageId: string, text: string,
                       settle: MessageUpdates, now: int)
    requires var s2 := WithMessage(WithMessage(s, user, now), AssistantMessage(messageId, now), now);
      FirstIndex(s2.messages, MessageKey, messageId) == Some(|s.messages| + 1)
    ensures var s2 := WithMessage(WithMessage(s, user, now), AssistantMessage(messageId, now), now);
      var r := WithMergedMessage(WithAppendedContent(s2, messageId, text, now), messageId, settle, now);
      && r.id == s.id && r.createdAt == s.createdAt && r.updatedAt == now
      && r.title == WithMessage(s, user, now).title
      && r.messages == s.messages + [user, MergeMessage(AssistantMessage(messageId, now).(content := text), settle)]
  {
    var a := AssistantMessage(messageId, now);
    var s1 := WithMessage(s, user, now);
    var s2 := WithMessage(s1, a, now);
    var ms := s2.messages;
    assert s1.messages == s.messages + [user];
    assert ms == s.messages + [user, a];
    var j := |s.messages| + 1;
    assert ms[j] == a;
    assert a.content + text == text;
    assert ms[j].(content := ms[j].content + text) == a.(content := text);
    var x := MergeMessage(a.(content := text), settle);
    AppendThenMerge(s2, messageId, text, settle, now);
    assert ms[j := x] == s.messages + [user, x];
  }

  /** How the assistant message of a send into an existing session ends, under fresh
      ids: a completed reply keeps the streamed text and succeeds; any other error
      keeps it and fails; an abort succeeds with `undefined` and the note in place of
      the streamed text, because the snapshot it reads predates the message. */
  lemma {:induction false} SettledReply(sessions: seq<ChatSession>, sessionId: string, user: ChatMessage,
                                        messageId: string, outcome: StreamOutcome, emitted: seq<string>, now: int)
    requires FirstIndex(sessions, SessionKey, sessionId).Some?
    requires user.id != messageId
    requires var s := sessions[FirstIndex(sessions, SessionKey, sessionId).value];
      forall k :: 0 <= k < |s.messages| ==> s.messages[k].id != messageId
    ensures var i := FirstIndex(sessions, SessionKey, sessionId).value;
      var n := |sessions[i].messages|;
      var settle := SettleUpdates(outcome, CurrentMessages(sessions, Some(sessionId)), messageId);
      var r := Settled(sessions, sessionId, user, messageId, emitted, settle, now)[i].messages;
      && |r| == n + 2 && r[n] == user && r[n + 1].id == messageId && r[n + 1].role == Assistant
      && (outcome.Completed? ==> r[n + 1].content == Flatten(emitted) && r[n + 1].status == Some(Success))
      && (outcome.Failed? && outcome.error.name == AbortErrorName ==>
            r[n + 1].content == Undefined + AbortNote && r[n + 1].status == Some(Success))
      && (outcome.Failed? && outcome.error.name != AbortErrorName ==>
            r[n + 1].content == Flatten(emitted) && r[n + 1].status == Some(Error))
  {
    var i := FirstIndex(sessions, SessionKey, sessionId).value;
    var messages := sessions[i].messages;
    assert CurrentMessages(sessions, Some(sessionId)) == messages;
    assert FirstIndex(messages, MessageKey, messageId).None?;
    var settle := SettleUpdates(outcome, messages, messageId);
    SettledShape(sessions, sessionId, user, messageId, emitted, settle, now);
  }

  /** A send into an active session that exists, under ids the session does not hold,
      leaves the other sessions alone and stores exactly two messages after the
      session's own: the user's message, and the assistant's message holding the
      streamed text and then the settling update (whose outcomes `SettledReply`
      spells out). The system messages are sent but never stored. */
  lemma {:induction false} AfterSendStores(sessions: seq<ChatSession>, sessionId: string, prompts: seq<Prompt>,
                                           input: string, selectedPromptId: Option<string>, ids: MessageIds,
                                           now: int, pageContext: Option<string>, transport: Transport,
                                           parse: string -> Payload)
    requires FirstIndex(sessions, SessionKey, sessionId).Some?
    requires ids.user != ids.assistant
    requires var s := sessions[FirstIndex(sessions, SessionKey, sessionId).value];
      forall k :: 0 <= k < |s.messages| ==> s.messages[k].id != ids.assistant
    ensures var e := AfterSend(sessions, Some(sessionId), prompts, input, selectedPromptId, ids, now,
                               pageContext, transport, parse);
      var i := FirstIndex(sessions, SessionKey, sessionId).value;
      var messages := sessions[i].messages;
      var streamed := AssistantMessage(ids.assistant, now).(content := Flatten(StreamResult(transport, parse).1));
      && |e.sessions| == |sessions|
      && (forall k :: 0 <= k < |sessions| && k != i ==> e.sessions[k] == sessions[k])
      && e.sessions[i].messages == messages + [UserMessage(ids.user, input, FoundPrompt(prompts, selectedPromptId), now),
                                               MergeMessage(streamed, SettleUpdates(e.outcome, messages, ids.assistant))]
  {
    var user := UserMessage(ids.user, input, FoundPrompt(prompts, selectedPromptId), now);
    var reply := StreamResult(transport, parse);
    var i := FirstIndex(sessions, SessionKey, sessionId).value;
    assert CurrentMessages(sessions, Some(sessionId)) == sessions[i].messages;
    var settle := SettleUpdates(reply.0, sessions[i].messages, ids.assistant);
    SettledShape(sessions, sessionId, user, ids.assistant, reply.1, settle, now);
  }

  /** The evidently intended abort branch: the note follows the text streamed so far. */
  function IntendedSettleUpdates(outcome: StreamOutcome, streamed: string): MessageUpdates
  {
    match outcome
    case Completed => StatusUpdate(Success)
    case Failed(e) =>
      if e.name == AbortErrorName then StatusUpdate(Success).(content := Some(streamed + AbortNote))
      else StatusUpdate(Error)
  }

  /** With the intended abort branch the assistant message always starts with the
      streamed text; an abort adds the note after it, and the status is as before. */
  lemma {:induction false} IntendedReplyKept(sessions: seq<ChatSession>, sessionId: string, user: ChatMessage,
                                             messageId: string, outcome: StreamOutcome, emitted: seq<string>, now: int)
    requires FirstIndex(sessions, SessionKey, sessionId).Some?
    requires user.id != messageId
    requires var s := sessions[FirstIndex(sessions, SessionKey, sessionId).value];
      forall k :: 0 <= k < |s.messages| ==> s.messages[k].id != messageId
    ensures var i := FirstIndex(sessions, SessionKey, sessionId).value;
      var n := |sessions[i].messages|;
      var settle := IntendedSettleUpdates(outcome, Flatten(emitted));
      var r := Settled(sessions, sessionId, user, messageId, emitted, settle, now)[i].messages;
      && |r| == n + 2 && r[n] == user
      && r[n + 1].content == Flatten(emitted) + (if outcome.Failed? && outcome.error.name == AbortErrorName then AbortNote else "")
      && r[n + 1].status == Some(if outcome.Failed? && outcome.error.name != AbortErrorName then Error else Success)
  {
    var settle := IntendedSettleUpdates(outcome, Flatten(emitted));
    SettledShape(sessions, sessionId, user, messageId, emitted, settle, now);
    assert Flatten(emitted) + "" == Flatten(emitted);
  }

  /** `models.find(m => m.id === activeModelId)`. */
  function ActiveModel(models: seq<ModelConfig>, activeModelId: Option<string>): (r: Option<ModelConfig>)
    ensures r.Some? ==> r.value in models && Some(r.value.id) == activeModelId
    ensures r.Some? <==> activeModelId.Some? && exists k :: 0 <= k < |models| && models[k].id == activeModelId.value
    ensures r.Some? ==> exists j :: (0 <= j < |models| && models[j] == r.value
      && forall k :: 0 <= k < j ==> models[k].id != activeModelId.value)
  {
    if activeModelId.None? then None
    else match FirstIndex(models, ModelKey, activeModelId.value)
      case None => None
      case Some(i) => Some(models[i])
  }

  /** The component's own state: the input box, the selected prompt, the loading flag
      and the configuration of `aiServiceRef.current`, if a service was built. React
      replaces this state through its setters; it is not changed in place. */
  datatype WindowState = WindowState(inputValue: string, selectedPromptId: Option<string>,
                                     isLoading: bool, service: Option<ModelConfig>)

  /** Lines 191-193 and 208. */
  const InitialWindow: WindowState := WindowState("", None, false, None)

  /** The effect of lines 210-214: a service for the active model, when there is one;
      otherwise the last one is kept. */
  function ActiveModelChanged(w: WindowState, models: seq<ModelConfig>, activeModelId: Option<string>): (r: WindowState)
    ensures ActiveModel(models, activeModelId).Some? ==> r.service == ActiveModel(models, activeModelId)
    ensures ActiveModel(models, activeModelId).None? ==> r == w
    ensures r.(service := w.service) == w
  {
    var activeModel := ActiveModel(models, activeModelId);
    if activeModel.Some? then w.(service := activeModel) else w
  }

  /** `handlePromptSelect` (lines 314-316). */
  function PromptSelected(w: WindowState, promptId: string): (r: WindowState)
    ensures r.selectedPromptId == Some(promptId) && !IsFalsy(r.selectedPromptId) == (promptId != "")
    ensures r.(selectedPromptId := w.selectedPromptId) == w
  {
    w.(selectedPromptId := Some(promptId))
  }

  /** Streams the deltas into the message, one `appendMessageContent` per `onMessage`
      call (lines 441-447). */
  method Stream(chat: ChatStore, sessionId: string, messageId: string, emitted: seq<string>, now: int)
    modifies chat
    ensures chat.sessions == AppendEach(old(chat.sessions), sessionId, messageId, emitted, now)
    ensures chat.activeSessionId == old(chat.activeSessionId)
  {
    var start := chat.sessions;
    for k := 0 to |emitted|
      invariant chat.sessions == AppendEach(start, sessionId, messageId, emitted[..k], now)
      invariant chat.activeSessionId == old(chat.activeSessionId)
    {
      chat.AppendMessageContent(sessionId, messageId, emitted[k], now);
      assert emitted[..k + 1][..k] == emitted[..k];
    }
    assert emitted[..|emitted|] == emitted;
  }

  /** The prompt's system message (lines 359-382): when the selection is truthy and
      names a prompt, its text with the variables substituted. */
  method PromptMessage(messages: seq<ChatMessage>, prompts: seq<Prompt>, selectedPromptId: Option<string>,
                              input: string, promptMessageId: string, now: int)
    returns (selectedPrompt: Option<Prompt>, currentMessages: seq<ChatMessage>)
    ensures selectedPrompt == FoundPrompt(prompts, selectedPromptId)
    ensures currentMessages == if selectedPrompt.None? then messages
      else messages + [ChatMessage(promptMessageId, System, PromptText(selectedPrompt.value, input), now, Some(Success), None)]
  {
    currentMessages := messages;
    selectedPrompt := None;
    if !IsFalsy(selectedPromptId) {
      var index := FirstIndex(prompts, PromptKey, selectedPromptId.value);
      if index.Some? {
        var p := prompts[index.value];
        selectedPrompt := Some(p);
        var promptContent := p.content;
        if p.variables.Some? && |p.variables.value| > 0 {
          promptContent := SubstituteVariables(p.content, p.variables.value, input);
        }
        currentMessages := currentMessages + [ChatMessage(promptMessageId, System, promptContent, now, Some(Success), None)];
      }
    }
  }

  /** The branches after the request settles (lines 450-484): the settling update of
      the assistant message, and the use count of a truthy selection on success. */
  method Settle(chat: ChatStore, promptStore: PromptSlice.PromptStore, sessionId: Option<string>,
                       messageId: string, selectedPromptId: Option<string>, outcome: StreamOutcome,
                       messages: seq<ChatMessage>, now: int)
    requires chat != promptStore as object
    modifies chat, promptStore
    ensures chat.sessions == if sessionId.None? then old(chat.sessions)
      else MergeMessageIn(old(chat.sessions), sessionId.value, messageId, SettleUpdates(outcome, messages, messageId), now)
    ensures chat.activeSessionId == old(chat.activeSessionId)
    ensures promptStore.prompts == if outcome.Completed? && !IsFalsy(selectedPromptId)
      then PromptSlice.IncrementedIn(old(promptStore.prompts), selectedPromptId.value, now)
      else old(promptStore.prompts)
    ensures promptStore.KeepsSettings()
  {
    match outcome {
      case Completed =>
        if sessionId.Some? {
          chat.UpdateMessage(sessionId.value, messageId, StatusUpdate(Success), now);
        }
        if !IsFalsy(selectedPromptId) {
          promptStore.IncrementUseCount(selectedPromptId.value, now);
        }
      case Failed(e) =>
        if e.name == AbortErrorName {
          if sessionId.Some? {
            chat.UpdateMessage(sessionId.value, messageId,
                               StatusUpdate(Success).(content := Some(AbortedContent(messages, messageId))), now);
          }
        } else if sessionId.Some? {
          chat.UpdateMessage(sessionId.value, messageId, StatusUpdate(Error), now);
        }
    }
  }

  /** The first half of the send (lines 351-432): the prompt's and the user's
      messages, the outgoing list, and the user and assistant messages added to the
      active session. */
  method Post(chat: ChatStore, prompts: seq<Prompt>, inputValue: string, selectedPromptId: Option<string>,
                     ids: MessageIds, now: int, pageContext: Option<string>)
    returns (outgoing: seq<ChatMessage>, userMessage: ChatMessage, messages: seq<ChatMessage>)
    modifies chat
    ensures messages == CurrentMessages(old(chat.sessions), old(chat.activeSessionId))
    ensures userMessage == UserMessage(ids.user, inputValue, FoundPrompt(prompts, selectedPromptId), now)
    ensures outgoing == Outgoing(messages, FoundPrompt(prompts, selectedPromptId), ids.prompt, userMessage,
                                 pageContext, ids.context, inputValue, now)
    ensures chat.sessions == if old(chat.activeSessionId).None? then old(chat.sessions)
      else AddMessageTo(AddMessageTo(old(chat.sessions), old(chat.activeSessionId).value, userMessage, now),
                        old(chat.activeSessionId).value, AssistantMessage(ids.assistant, now), now)
    ensures chat.activeSessionId == old(chat.activeSessionId)
  {
    var sessionId := chat.activeSessionId;
    messages := CurrentMessages(chat.sessions, sessionId);
    var selectedPrompt, currentMessages := PromptMessage(messages, prompts, selectedPromptId,
                                                         inputValue, ids.prompt, now);
    userMessage := UserMessage(ids.user, inputValue, selectedPrompt, now);
    if sessionId.Some? {
      chat.AddMessage(sessionId.value, userMessage, now);
    }
    currentMessages := currentMessages + [userMessage];
    if pageContext.Some? {
      currentMessages := currentMessages + [ChatMessage(ids.context, System, pageContext.value, now, Some(Success), None)];
    }
    outgoing := currentMessages;
    var assistantMessage := ChatMessage(ids.assistant, Assistant, "", now, Some(Streaming), None);
    if sessionId.Some? {
      chat.AddMessage(sessionId.value, assistantMessage, now);
    }
  }

  /** The second half of the send (lines 434-484): the request, the streamed deltas
      and the settling branches. `messages` is the snapshot taken before the send. */
  method Receive(chat: ChatStore, promptStore: PromptSlice.PromptStore, config: ModelConfig,
                        outgoing: seq<ChatMessage>, messages: seq<ChatMessage>, messageId: string,
                        selectedPromptId: Option<string>, now: int, isDevelopment: bool,
                        transport: Transport, parse: string -> Payload)
    returns (outcome: StreamOutcome)
    requires chat != promptStore as object
    modifies chat, promptStore
    ensures outcome == StreamResult(transport, parse).0
    ensures chat.sessions == if chat.activeSessionId.None? then old(chat.sessions)
      else MergeMessageIn(AppendEach(old(chat.sessions), chat.activeSessionId.value, messageId,
                                     StreamResult(transport, parse).1, now),
                          chat.activeSessionId.value, messageId, SettleUpdates(outcome, messages, messageId), now)
    ensures chat.activeSessionId == old(chat.activeSessionId)
    ensures promptStore.prompts == (if outcome.Completed? && !IsFalsy(selectedPromptId)
      then PromptSlice.IncrementedIn(old(promptStore.prompts), selectedPromptId.value, now)
      else old(promptStore.prompts))
    ensures promptStore.KeepsSettings()
  {
    var sessionId := chat.activeSessionId;
    var request, emitted;
    request, outcome, emitted := MakeStreamRequest(config, outgoing, isDevelopment, transport, parse);
    if sessionId.Some? {
      Stream(chat, sessionId.value, messageId, emitted, now);
    }
    Settle(chat, promptStore, sessionId, messageId, selectedPromptId, outcome, messages, now);
  }

  /** The part of `handleSend` past its two early returns (lines 351-484), for the
      component state it reads at the start. When the active session is missing the
      store's reducers find nothing, so its calls change nothing. */
  method Send(chat: ChatStore, promptStore: PromptSlice.PromptStore, config: ModelConfig,
                     inputValue: string, selectedPromptId: Option<string>, ids: MessageIds,
                     now: int, pageContext: Option<string>, isDevelopment: bool,
                     transport: Transport, parse: string -> Payload)
    returns (outgoing: seq<ChatMessage>, outcome: StreamOutcome)
    requires chat != promptStore as object
    modifies chat, promptStore
    ensures SendEffect(outgoing, outcome, chat.sessions, promptStore.prompts)
         == AfterSend(old(chat.sessions), old(chat.activeSessionId), old(promptStore.prompts),
                    inputValue, selectedPromptId, ids, now, pageContext, transport, parse)
    ensures chat.activeSessionId == old(chat.activeSessionId)
    ensures promptStore.KeepsSettings()
  {
    var userMessage, messages;
    outgoing, userMessage, messages := Post(chat, promptStore.prompts, inputValue, selectedPromptId, ids, now, pageContext);
    outcome := Receive(chat, promptStore, config, outgoing, messages, ids.assistant, selectedPromptId, now,
                       isDevelopment, transport, parse);
  }

  /** `handleSend`. Nothing is sent, and nothing changes, when the input is blank and no
      prompt is selected, or when there is no service. Otherwise the service gets the
      outgoing messages; the session gets the user's message, the assistant message,
      the streamed text and the settling update; on success the prompt's use count goes
      up and the input and selection are cleared; the loading flag ends cleared. The
      ids that `crypto.randomUUID()` draws, the time, the rendered page context and the
      transport are parameters. */
  method HandleSend(chat: ChatStore, promptStore: PromptSlice.PromptStore, w: WindowState, ids: MessageIds,
                    now: int, pageContext: Option<string>, isDevelopment: bool, transport: Transport,
                    parse: string -> Payload)
    returns (sent: Option<seq<ChatMessage>>, next: WindowState)
    requires chat != promptStore as object
    modifies chat, promptStore
    ensures sent.Some? <==> !(AllWs(w.inputValue) && IsFalsy(w.selectedPromptId)) && w.service.Some?
    ensures sent.None? ==> next == w && unchanged(chat, promptStore)
    ensures sent.Some? ==>
      var e := AfterSend(old(chat.sessions), old(chat.activeSessionId), old(promptStore.prompts),
                         w.inputValue, w.selectedPromptId, ids, now, pageContext, transport, parse);
      && sent.value == e.outgoing && chat.sessions == e.sessions && promptStore.prompts == e.prompts
      && next == if e.outcome.Completed? then w.(inputValue := "", selectedPromptId := None, isLoading := false)
                 else w.(isLoading := false)
    ensures sent.Some? ==> chat.activeSessionId == old(chat.activeSessionId) && promptStore.KeepsSettings()
  {
    if AllWs(w.inputValue) && IsFalsy(w.selectedPromptId) {
      return None, w;
    }
    if w.service.None? {
      return None, w;
    }
    next := w.(isLoading := true);
    var outgoing, outcome := Send(chat, promptStore, next.service.value, next.inputValue, next.selectedPromptId,
                                  ids, now, pageContext, isDevelopment, transport, parse);
    sent := Some(outgoing);
    if outcome.Completed? {
      next := next.(inputValue := "", selectedPromptId := None);
    }
    next := next.(isLoading := false);
  }
}
