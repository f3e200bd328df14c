/** The chat slice of the store: the list of sessions with their message logs and the
    id of the active session, updated in place by its reducers. `Date.now()` is the
    parameter `now`; `SessionService.saveSessions` is recorded as the ghost snapshot
    `saved`. */
module ChatSlice {
  import opened Wrappers
  import opened Seqs
  import opened Text
  import opened Types

  const TitleLength: nat := 20
  const Ellipsis: string := "..."

  function Min(a: nat, b: nat): nat { if a <= b then a else b }

  /** `generateSessionTitle` of lines 10-14 as written: the first 20 characters of the
      trimmed content, and `...` when the content before trimming is longer than 20. */
  function GenerateSessionTitle(content: string): (r: string)
    ensures |r| <= TitleLength + |Ellipsis|
    ensures |content| <= TitleLength ==> r == Trim(content)
    ensures |content| > TitleLength ==>
      var t := Trim(content);
      r == t[..Min(TitleLength, |t|)] + Ellipsis
  {
    var title := Trim(content)[..Min(TitleLength, |Trim(content)|)];
    title + (if |content| > TitleLength then Ellipsis else "")
  }

  /** Leading whitespace counts towards the length test, so a short message padded
      with spaces gets `...` although nothing was cut from it. */
  lemma EllipsisWithoutTruncation(pad: string)
    requires AllWs(pad) && |pad| == 22
    ensures Trim(pad + "ab") == "ab"
    ensures GenerateSessionTitle(pad + "ab") == "ab..."
  {
    TrimPadded(pad, "ab");
  }

  /** The evidently intended title: `...` is appended exactly when the trimmed content
      was cut, so the title is longer than 20 characters exactly then. */
  function IntendedSessionTitle(content: string): (r: string)
    ensures |r| <= TitleLength + |Ellipsis|
    ensures |r| > TitleLength <==> |Trim(content)| > TitleLength
    ensures |Trim(content)| <= TitleLength ==> r == Trim(content)
    ensures |Trim(content)| > TitleLength ==> r[..TitleLength] == Trim(content)[..TitleLength]
  {
    var t := Trim(content);
    if |t| > TitleLength then t[..TitleLength] + Ellipsis else t
  }

  /** The two agree on every message that has no leading or trailing whitespace. */
  lemma TitlesAgreeOnTrimmed(content: string)
    requires content == [] || (!IsWs(content[0]) && !IsWs(content[|content| - 1]))
    ensures GenerateSessionTitle(content) == IntendedSessionTitle(content)
  {
    TrimmedIsTrim(content);
    var t := Trim(content);
    var g, h := GenerateSessionTitle(content), IntendedSessionTitle(content);
    if |content| <= TitleLength {
      assert g == t && h == t;
    } else {
      assert g == t[..TitleLength] + Ellipsis;
      assert h == t[..TitleLength] + Ellipsis;
    }
  }

  // ---------------------------------------------------------------------------------
  // Partial updates (`Object.assign` of a `Partial<...>`)

  datatype SessionUpdates = SessionUpdates(
    id: Option<string>, title: Option<string>, messages: Option<seq<ChatMessage>>,
    createdAt: Option<int>, updatedAt: Option<int>)

  datatype MessageUpdates = MessageUpdates(
    id: Option<string>, role: Option<Role>, content: Option<string>, timestamp: Option<int>,
    status: Option<MessageStatus>, metadata: Option<MessageMetadata>)

  /** The session with each field that `u` gives replaced and every other kept. */
  function MergeSession(s: ChatSession, u: SessionUpdates): (r: ChatSession)
    ensures u.id.None? ==> r.id == s.id
    ensures u.title.None? ==> r.title == s.title
    ensures u.messages.None? ==> r.messages == s.messages
    ensures u.createdAt.None? ==> r.createdAt == s.createdAt
    ensures u.updatedAt.None? ==> r.updatedAt == s.updatedAt
  {
    ChatSession(u.id.GetOr(s.id), u.title.GetOr(s.title), u.messages.GetOr(s.messages),
                u.createdAt.GetOr(s.createdAt), u.updatedAt.GetOr(s.updatedAt))
  }

  /** The message with each field that `u` gives replaced and every other kept. */
  function MergeMessage(m: ChatMessage, u: MessageUpdates): (r: ChatMessage)
    ensures u.id.None? ==> r.id == m.id
    ensures u.role.None? ==> r.role == m.role
    ensures u.content.None? ==> r.content == m.content
    ensures u.timestamp.None? ==> r.timestamp == m.timestamp
    ensures u.status.None? ==> r.status == m.status
    ensures u.metadata.None? ==> r.metadata == m.metadata
  {
    ChatMessage(u.id.GetOr(m.id), u.role.GetOr(m.role), u.content.GetOr(m.content),
                u.timestamp.GetOr(m.timestamp),
                if u.status.Some? then u.status else m.status,
                if u.metadata.Some? then u.metadata else m.metadata)
  }

  /** `Object.assign(x, u)` then `Object.assign(x, v)`: the later update wins field by
      field. */
  function ThenMessage(u: MessageUpdates, v: MessageUpdates): MessageUpdates
  {
    MessageUpdates(if v.id.Some? then v.id else u.id, if v.role.Some? then v.role else u.role,
                   if v.content.Some? then v.content else u.content,
                   if v.timestamp.Some? then v.timestamp else u.timestamp,
                   if v.status.Some? then v.status else u.status,
                   if v.metadata.Some? then v.metadata else u.metadata)
  }

  const NoMessageUpdates := MessageUpdates(None, None, None, None, None, None)
  const NoSessionUpdates := SessionUpdates(None, None, None, None, None)

  /** Merging is a monoid action: every field the update gives is taken, the empty
      update changes nothing, two merges are one merge of the combined update, and
      merging the same update twice is merging it once. */
  lemma MergeMessageLaws(m: ChatMessage, u: MessageUpdates, v: MessageUpdates)
    ensures var r := MergeMessage(m, u);
      && (u.id.Some? ==> r.id == u.id.value) && (u.role.Some? ==> r.role == u.role.value)
      && (u.content.Some? ==> r.content == u.content.value)
      && (u.timestamp.Some? ==> r.timestamp == u.timestamp.value)
      && (u.status.Some? ==> r.status == u.status) && (u.metadata.Some? ==> r.metadata == u.metadata)
    ensures MergeMessage(m, NoMessageUpdates) == m
    ensures MergeMessage(MergeMessage(m, u), v) == MergeMessage(m, ThenMessage(u, v))
    ensures MergeMessage(MergeMessage(m, u), u) == MergeMessage(m, u)
  {
  }

  /** The same for a session: every field the update gives is taken. */
  lemma MergeSessionLaws(s: ChatSession, u: SessionUpdates)
    ensures var r := MergeSession(s, u);
      && (u.id.Some? ==> r.id == u.id.value) && (u.title.Some? ==> r.title == u.title.value)
      && (u.messages.Some? ==> r.messages == u.messages.value)
      && (u.createdAt.Some? ==> r.createdAt == u.createdAt.value)
      && (u.updatedAt.Some? ==> r.updatedAt == u.updatedAt.value)
    ensures MergeSession(s, NoSessionUpdates) == s
    ensures MergeSession(MergeSession(s, u), u) == MergeSession(s, u)
  {
  }

  // ---------------------------------------------------------------------------------
  // The changes the reducers make to one session

  /** `addMessage` on the session found (lines 50-56): the message is pushed, the title
      is replaced by the generated one exactly when the session had no message and the
      new one is the user's, and `updatedAt` is stamped. */
  function WithMessage(s: ChatSession, m: ChatMessage, now: int): (r: ChatSession)
    ensures r.id == s.id && r.createdAt == s.createdAt && r.updatedAt == now
    ensures r.messages == s.messages + [m]
    ensures r.title != s.title ==> s.messages == [] && m.role == User
    ensures s.messages == [] && m.role == User ==> r.title == GenerateSessionTitle(m.content)
  {
    var messages := s.messages + [m];
    var title := if |messages| == 1 && m.role == User then GenerateSessionTitle(m.content) else s.title;
    s.(messages := messages, title := title, updatedAt := now)
  }

  /** `updateMessage` on the session found (lines 67-71): the first message with the id
      takes the updates and the session is stamped; nothing happens when there is no
      such message. */
  function WithMergedMessage(s: ChatSession, messageId: string, u: MessageUpdates, now: int): (r: ChatSession)
    ensures FirstIndex(s.messages, MessageKey, messageId).None? ==> r == s
    ensures FirstIndex(s.messages, MessageKey, messageId).Some? ==>
      var j := FirstIndex(s.messages, MessageKey, messageId).value;
      && r.id == s.id && r.title == s.title && r.createdAt == s.createdAt && r.updatedAt == now
      && |r.messages| == |s.messages| && r.messages[j] == MergeMessage(s.messages[j], u)
      && forall k :: 0 <= k < |s.messages| && k != j ==> r.messages[k] == s.messages[k]
  {
    match FirstIndex(s.messages, MessageKey, messageId)
    case None => s
    case Some(j) => s.(messages := s.messages[j := MergeMessage(s.messages[j], u)], updatedAt := now)
  }

  /** `appendMessageContent` on the session found (lines 82-85): the first message with
      the id gets `delta` appended to its content and the session is stamped; nothing
      happens when there is no such message. */
  function WithAppendedContent(s: ChatSession, messageId: string, delta: string, now: int): (r: ChatSession)
    ensures FirstIndex(s.messages, MessageKey, messageId).None? ==> r == s
    ensures FirstIndex(s.messages, MessageKey, messageId).Some? ==>
      var j := FirstIndex(s.messages, MessageKey, messageId).value;
      && r.id == s.id && r.title == s.title && r.createdAt == s.createdAt && r.updatedAt == now
      && |r.messages| == |s.messages|
      && r.messages[j] == s.messages[j].(content := s.messages[j].content + delta)
      && forall k :: 0 <= k < |s.messages| && k != j ==> r.messages[k] == s.messages[k]
  {
    match FirstIndex(s.messages, MessageKey, messageId)
    case None => s
    case Some(j) =>
      var m := s.messages[j];
      s.(messages := s.messages[j := m.(content := m.content + delta)], updatedAt := now)
  }

  /** Appending twice is appending the concatenation once, stamped with the later time. */
  lemma AppendedContentTwice(s: ChatSession, messageId: string, a: string, b: string, t1: int, t2: int)
    ensures WithAppendedContent(WithAppendedContent(s, messageId, a, t1), messageId, b, t2)
         == WithAppendedContent(s, messageId, a + b, t2)
  {
    match FirstIndex(s.messages, MessageKey, messageId)
    case None =>
    case Some(j) =>
      var m := s.messages[j];
      var m1 := m.(content := m.content + a);
      FirstIndexReplace(s.messages, MessageKey, messageId, m1);
      var once := s.(messages := s.messages[j := m1], updatedAt := t1);
      assert WithAppendedContent(s, messageId, a, t1) == once;
      assert s.messages[j := m1][j := m1.(content := m1.content + b)]
          == s.messages[j := m.(content := m.content + (a + b))] by {
        assert m.content + a + b == m.content + (a + b);
      }
  }

  /** The sessions after `addMessage`. */
  function AddMessageTo(sessions: seq<ChatSession>, sessionId: string, message: ChatMessage,
                        now: int): (r: seq<ChatSession>)
    ensures |r| == |sessions|
    ensures FirstIndex(sessions, SessionKey, sessionId).None? ==> r == sessions
    ensures FirstIndex(sessions, SessionKey, sessionId).Some? ==>
      var i := FirstIndex(sessions, SessionKey, sessionId).value;
      && r[i] == WithMessage(sessions[i], message, now)
      && forall k :: 0 <= k < |sessions| && k != i ==> r[k] == sessions[k]
  {
    match FirstIndex(sessions, SessionKey, sessionId)
    case None => sessions
    case Some(i) => sessions[i := WithMessage(sessions[i], message, now)]
  }

  /** The sessions after `updateMessage`. */
  function MergeMessageIn(sessions: seq<ChatSession>, sessionId: string, messageId: string,
                          u: MessageUpdates, now: int): (r: seq<ChatSession>)
    ensures |r| == |sessions|
    ensures FirstIndex(sessions, SessionKey, sessionId).None? ==> r == sessions
    ensures FirstIndex(sessions, SessionKey, sessionId).Some? ==>
      var i := FirstIndex(sessions, SessionKey, sessionId).value;
      && r[i] == WithMergedMessage(sessions[i], messageId, u, now)
      && forall k :: 0 <= k < |sessions| && k != i ==> r[k] == sessions[k]
  {
    match FirstIndex(sessions, SessionKey, sessionId)
    case None => sessions
    case Some(i) => sessions[i := WithMergedMessage(sessions[i], messageId, u, now)]
  }

  /** The sessions after `appendMessageContent`. */
  function AppendContent(sessions: seq<ChatSession>, sessionId: string, messageId: string,
                         delta: string, now: int): (r: seq<ChatSession>)
    ensures |r| == |sessions|
    ensures FirstIndex(sessions, SessionKey, sessionId).None? ==> r == sessions
    ensures FirstIndex(sessions, SessionKey, sessionId).Some? ==>
      var i := FirstIndex(sessions, SessionKey, sessionId).value;
      && r[i] == WithAppendedContent(sessions[i], messageId, delta, now)
      && forall k :: 0 <= k < |sessions| && k != i ==> r[k] == sessions[k]
  {
    match FirstIndex(sessions, SessionKey, sessionId)
    case None => sessions
    case Some(i) => sessions[i := WithAppendedContent(sessions[i], messageId, delta, now)]
  }

  /** The `onMessage` calls of one reply, appended one by one, put their concatenation
      after the message's content. */
  lemma {:induction false} AppendAll(sessions: seq<ChatSession>, sessionId: string, messageId: string,
                                     deltas: seq<string>, now: int)
    requires deltas != []
    ensures AppendEach(sessions, sessionId, messageId, deltas, now)
         == AppendContent(sessions, sessionId, messageId, Flatten(deltas), now)
    decreases |deltas|
  {
    if |deltas| == 1 {
      FlattenSingle(deltas[0]);
    } else {
      var front, last := deltas[..|deltas| - 1], deltas[|deltas| - 1];
      assert deltas == front + [last];
      AppendAll(sessions, sessionId, messageId, front, now);
      FlattenAppend(front, [last]);
      FlattenSingle(last);
      AppendContentTwice(sessions, sessionId, messageId, Flatten(front), last, now, now);
    }
  }

  /** `appendMessageContent` once per delta, in order. */
  function AppendEach(sessions: seq<ChatSession>, sessionId: string, messageId: string,
                      deltas: seq<string>, now: int): (r: seq<ChatSession>)
    ensures |r| == |sessions|
    decreases |deltas|
  {
    if deltas == [] then sessions
    else AppendContent(AppendEach(sessions, sessionId, messageId, deltas[..|deltas| - 1], now),
                       sessionId, messageId, deltas[|deltas| - 1], now)
  }

  lemma AppendContentTwice(sessions: seq<ChatSession>, sessionId: string, messageId: string,
                           a: string, b: string, t1: int, t2: int)
    ensures AppendContent(AppendContent(sessions, sessionId, messageId, a, t1), sessionId, messageId, b, t2)
         == AppendContent(sessions, sessionId, messageId, a + b, t2)
  {
    match FirstIndex(sessions, SessionKey, sessionId)
    case None =>
    case Some(i) =>
      var once := WithAppendedContent(sessions[i], messageId, a, t1);
      FirstIndexReplace(sessions, SessionKey, sessionId, once);
      AppendedContentTwice(sessions[i], messageId, a, b, t1, t2);
  }

  /** `sessions.filter(s => s.id !== id)`: every session with another id, in order. */
  function WithoutSession(sessions: seq<ChatSession>, id: string): (r: seq<ChatSession>)
    ensures forall k :: 0 <= k < |r| ==> r[k].id != id && r[k] in sessions
    ensures forall s :: s in sessions && s.id != id ==> s in r
    ensures IsSubsequence(r, sessions)
  {
    var r := Filter(sessions, (s: ChatSession) => s.id != id);
    FilterSpec(sessions, (s: ChatSession) => s.id != id);
    r
  }

  /** Removing a session that was just added, under an id no other session has, gives
      the list back. */
  lemma RemoveAfterAdd(sessions: seq<ChatSession>, s: ChatSession)
    requires forall k :: 0 <= k < |sessions| ==> sessions[k].id != s.id
    ensures WithoutSession([s] + sessions, s.id) == sessions
  {
    var p := (x: ChatSession) => x.id != s.id;
    FilterKeepsAll(sessions, p);
    assert ([s] + sessions)[1..] == sessions;
  }

  /** The first session with `sessionId` exists and holds a message with `messageId`. */
  predicate HasMessage(sessions: seq<ChatSession>, sessionId: string, messageId: string)
  {
    match FirstIndex(sessions, SessionKey, sessionId)
    case None => false
    case Some(i) => FirstIndex(sessions[i].messages, MessageKey, messageId).Some?
  }

  /** `!state.activeSessionId`: no id, or the empty one. */
  predicate IsFalsy(id: Option<string>)
  {
    id.None? || id.value == ""
  }

  // ---------------------------------------------------------------------------------
  // The store

  class ChatStore {
    var sessions: seq<ChatSession>
    var activeSessionId: Option<string>
    /** The list `SessionService.saveSessions` was last given; `None` before any save. */
    ghost var saved: Option<seq<ChatSession>>

    constructor ()
      ensures sessions == [] && activeSessionId == None && saved == None
    {
      sessions, activeSessionId, saved := [], None, None;
    }

    /** The session the id picks (`find`). */
    function Session(id: string): (r: Option<ChatSession>)
      reads this
      ensures r.Some? <==> FirstIndex(sessions, SessionKey, id).Some?
      ensures r.Some? ==> r.value == sessions[FirstIndex(sessions, SessionKey, id).value]
    {
      match FirstIndex(sessions, SessionKey, id)
      case None => None
      case Some(i) => Some(sessions[i])
    }

    /** Lines 25-29: the new session goes first and becomes active. */
    method AddSession(session: ChatSession)
      modifies this
      ensures sessions == [session] + old(sessions)
      ensures activeSessionId == Some(session.id)
      ensures saved == Some(sessions)
    {
      sessions := [session] + sessions;
      activeSessionId := Some(session.id);
      saved := Some(sessions);
    }

    /** Lines 30-36: the first session with the id takes the updates; a missing id
        changes nothing and saves nothing. */
    method UpdateSession(id: string, updates: SessionUpdates)
      modifies this
      ensures match FirstIndex(old(sessions), SessionKey, id)
        case None => sessions == old(sessions) && saved == old(saved)
        case Some(i) => sessions == old(sessions)[i := MergeSession(old(sessions)[i], updates)]
                        && saved == Some(sessions)
      ensures activeSessionId == old(activeSessionId)
    {
      var i := FirstIndex(sessions, SessionKey, id);
      if i.Some? {
        sessions := sessions[i.value := MergeSession(sessions[i.value], updates)];
        saved := Some(sessions);
      }
    }

    /** Lines 37-43: every session with the id goes; if it was the active one, the
        first remaining session becomes active, or none. */
    method RemoveSession(id: string)
      modifies this
      ensures sessions == WithoutSession(old(sessions), id)
      ensures activeSessionId == if old(activeSessionId) == Some(id) then FirstKeyOrNull(sessions, SessionKey)
                                 else old(activeSessionId)
      ensures saved == Some(sessions)
    {
      sessions := WithoutSession(sessions, id);
      if activeSessionId == Some(id) {
        activeSessionId := FirstKeyOrNull(sessions, SessionKey);
      }
      saved := Some(sessions);
    }

    /** Lines 44-47. */
    method SetActiveSession(id: string)
      modifies this
      ensures activeSessionId == Some(id)
      ensures sessions == old(sessions) && saved == Some(sessions)
    {
      activeSessionId := Some(id);
      saved := Some(sessions);
    }

    /** Lines 48-59: the message is pushed onto the first session with the id; a missing
        id changes nothing and saves nothing. */
    method AddMessage(sessionId: string, message: ChatMessage, now: int)
      modifies this
      ensures sessions == AddMessageTo(old(sessions), sessionId, message, now)
      ensures saved == if FirstIndex(old(sessions), SessionKey, sessionId).Some? then Some(sessions) else old(saved)
      ensures activeSessionId == old(activeSessionId)
    {
      var i := FirstIndex(sessions, SessionKey, sessionId);
      if i.Some? {
        sessions := sessions[i.value := WithMessage(sessions[i.value], message, now)];
        saved := Some(sessions);
      }
    }

    /** Lines 60-74: the first message with `messageId` in the first session with
        `sessionId` takes the updates; when either is missing nothing changes. */
    method UpdateMessage(sessionId: string, messageId: string, updates: MessageUpdates, now: int)
      modifies this
      ensures sessions == MergeMessageIn(old(sessions), sessionId, messageId, updates, now)
      ensures saved == if HasMessage(old(sessions), sessionId, messageId) then Some(sessions) else old(saved)
      ensures activeSessionId == old(activeSessionId)
    {
      var i := FirstIndex(sessions, SessionKey, sessionId);
      if i.Some? {
        var session := sessions[i.value];
        var j := FirstIndex(session.messages, MessageKey, messageId);
        if j.Some? {
          var merged := MergeMessage(session.messages[j.value], updates);
          sessions := sessions[i.value := session.(messages := session.messages[j.value := merged], updatedAt := now)];
          saved := Some(sessions);
        }
      }
    }

    /** Lines 75-89: `delta` is appended to the content of the message; when the session
        or the message is missing nothing changes. */
    method AppendMessageContent(sessionId: string, messageId: string, delta: string, now: int)
      modifies this
      ensures sessions == AppendContent(old(sessions), sessionId, messageId, delta, now)
      ensures saved == if HasMessage(old(sessions), sessionId, messageId) then Some(sessions) else old(saved)
      ensures activeSessionId == old(activeSessionId)
    {
      var i := FirstIndex(sessions, SessionKey, sessionId);
      if i.Some? {
        var session := sessions[i.value];
        var j := FirstIndex(session.messages, MessageKey, messageId);
        if j.Some? {
          var message := session.messages[j.value];
          var appended := message.(content := message.content + delta);
          sessions := sessions[i.value := session.(messages := session.messages[j.value := appended], updatedAt := now)];
          saved := Some(sessions);
        }
      }
    }

    /** Lines 90-95: the list is replaced; the first session becomes active only when no
        session is active. Nothing is saved. */
    method LoadSessions(list: seq<ChatSession>)
      modifies this
      ensures sessions == list && saved == old(saved)
      ensures activeSessionId == if IsFalsy(old(activeSessionId)) && list != [] then Some(list[0].id)
                                 else old(activeSessionId)
    {
      sessions := list;
      if IsFalsy(activeSessionId) && |list| > 0 {
        activeSessionId := Some(list[0].id);
      }
    }
  }
}
