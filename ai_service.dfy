/** `AIService` of src/services/aiService.ts: the endpoint, the shape of the outgoing
    request (system messages first, contents and model name trimmed), the mapping of
    failures to thrown errors, and `makeStreamRequest` itself: the read loop over decoded
    chunks, the line loop over complete lines and the content reassembler, written as the
    loops the source runs and proved against the pure model of StreamDecoder and
    Reassembler. The network is a parameter: what `fetch` and the reader deliver. */
module AIService {
  import opened Wrappers
  import opened Seqs
  import opened Text
  import opened Types
  import opened StreamDecoder
  import opened Reassembler

  // ---------------------------------------------------------------------------------
  // Endpoint and request

  const DevEndpoint: string := "/api/chat/completions"
  const CompletionsPath: string := "/chat/completions"

  /** `getEndpoint` (lines 10-17): the development proxy path, or the configured base URL
      followed by the completions path. Either way the request goes to a
      `/chat/completions` path, and in development the configuration is not consulted. */
  function GetEndpoint(config: ModelConfig, isDevelopment: bool): (r: string)
    ensures |r| >= |CompletionsPath| && r[|r| - |CompletionsPath|..] == CompletionsPath
    ensures isDevelopment ==> r == DevEndpoint
    ensures !isDevelopment ==> r[..|r| - |CompletionsPath|] == config.baseUrl
  {
    if isDevelopment then DevEndpoint else config.baseUrl + CompletionsPath
  }

  predicate IsSystem(m: ChatMessage) { m.role == System }
  predicate NotSystem(m: ChatMessage) { m.role != System }

  /** The reorder of lines 27-32, as a stable partition: the system messages in their
      order, then the others in theirs. */
  function SystemFirst(messages: seq<ChatMessage>): (r: seq<ChatMessage>)
    ensures |r| == |messages|
  {
    FilterPartition(messages, IsSystem, NotSystem);
    Filter(messages, IsSystem) + Filter(messages, NotSystem)
  }

  /** The comparator of lines 28-32. */
  function Compare(a: ChatMessage, b: ChatMessage): int
  {
    if a.role == System then -1 else if b.role == System then 1 else 0
  }

  /** The reorder is a permutation that puts every system message before every other
      message, keeps the order within each group, and is ordered by the comparator:
      it never places `b` after `a` when `Compare(a, b) > 0`. */
  lemma SystemFirstSpec(messages: seq<ChatMessage>)
    ensures var r := SystemFirst(messages);
      && multiset(r) == multiset(messages)
      && (forall i, j :: 0 <= i < j < |r| && r[j].role == System ==> r[i].role == System)
      && Filter(r, IsSystem) == Filter(messages, IsSystem)
      && Filter(r, NotSystem) == Filter(messages, NotSystem)
      && (forall i, j :: 0 <= i < j < |r| ==> Compare(r[i], r[j]) <= 0)
  {
    var sys, rest := Filter(messages, IsSystem), Filter(messages, NotSystem);
    var r := sys + rest;
    FilterPartition(messages, IsSystem, NotSystem);
    forall k | 0 <= k < |sys| ensures IsSystem(sys[k]) { FilterAll(messages, IsSystem, k); }
    forall k | 0 <= k < |rest| ensures NotSystem(rest[k]) { FilterAll(messages, NotSystem, k); }
    assert forall i :: 0 <= i < |r| ==> (r[i].role == System <==> i < |sys|);
    FilterAppend(sys, rest, IsSystem);
    FilterAppend(sys, rest, NotSystem);
    FilterKeepsAll(sys, IsSystem);
    FilterKeepsAll(rest, NotSystem);
    FilterNone(sys, NotSystem);
    FilterNone(rest, IsSystem);
  }

  /** A filter that no element passes leaves nothing. */
  lemma {:induction false} FilterNone<T>(s: seq<T>, p: T -> bool)
    requires forall k :: 0 <= k < |s| ==> !p(s[k])
    ensures Filter(s, p) == []
  {
    if s != [] {
      FilterNone(s[1..], p);
    }
  }

  /** The comparator does not define an order on system messages: each of two system
      messages compares as smaller than the other, so which one `sort` puts first is
      up to the engine. With at most one system message it is a consistent order and
      the stable partition is what a stable sort yields. */
  lemma CompareInconsistentOnSystem(a: ChatMessage, b: ChatMessage)
    requires a.role == System && b.role == System
    ensures Compare(a, b) < 0 && Compare(b, a) < 0
  {
  }

  /** One message on the wire: its role and trimmed content (lines 45-48). */
  datatype WireMessage = WireMessage(role: Role, content: string)

  /** The wire form keeps the role; its content is the message's content with a
      whitespace prefix and suffix removed, and has no whitespace left at either end. */
  function ToWire(m: ChatMessage): (r: WireMessage)
    ensures r.role == m.role
    ensures Trim(r.content) == r.content
    ensures exists a, b :: (0 <= a <= b <= |m.content| && r.content == m.content[a..b]
      && AllWs(m.content[..a]) && AllWs(m.content[b..]))
  {
    TrimIdempotent(m.content);
    TrimInfix(m.content);
    WireMessage(m.role, Trim(m.content))
  }

  /** The request of lines 35-52. Headers other than the authorization one are the
      constants `application/json` and `text/event-stream`. */
  datatype ChatRequest = ChatRequest(
    endpoint: string,
    authorization: string,
    model: string,
    messages: seq<WireMessage>,
    temperature: real,
    maxTokens: int,
    stream: bool)

  /** The request of lines 24-53. */
  function BuildRequest(config: ModelConfig, messages: seq<ChatMessage>, isDevelopment: bool): (r: ChatRequest)
    ensures |r.messages| == |messages|
    ensures r.endpoint == GetEndpoint(config, isDevelopment)
    ensures r.authorization == "Bearer " + config.apiKey
    ensures r.model == Trim(config.model)
    ensures r.temperature == 0.7 && r.maxTokens == 2000 && r.stream
  {
    ChatRequest(GetEndpoint(config, isDevelopment), "Bearer " + config.apiKey, Trim(config.model),
      Map(SystemFirst(messages), ToWire), 0.7, 2000, true)
  }

  /** What the request sends: one wire message per chat message, the system messages
      first and then the others, each group in conversation order, every content and
      the model name free of surrounding whitespace. */
  lemma RequestShape(config: ModelConfig, messages: seq<ChatMessage>, isDevelopment: bool)
    ensures var r := BuildRequest(config, messages, isDevelopment);
      && |r.messages| == |messages|
      && (forall i, j :: 0 <= i < j < |r.messages| && r.messages[j].role == System ==> r.messages[i].role == System)
      && (forall i :: 0 <= i < |r.messages| ==> Trim(r.messages[i].content) == r.messages[i].content)
      && Trim(r.model) == r.model
      && multiset(r.messages) == multiset(Map(messages, ToWire))
      && r.messages == Map(Filter(messages, IsSystem), ToWire) + Map(Filter(messages, NotSystem), ToWire)
  {
    var sys, rest := Filter(messages, IsSystem), Filter(messages, NotSystem);
    assert SystemFirst(messages) == sys + rest;
    SystemFirstSpec(messages);
    TrimIdempotent(config.model);
    MapAppend(sys, rest, ToWire);
    assert BuildRequest(config, messages, isDevelopment).messages == Map(sys, ToWire) + Map(rest, ToWire);
    MapFilterPartition(messages, IsSystem, NotSystem, ToWire);
    var r := BuildRequest(config, messages, isDevelopment);
    forall i | 0 <= i < |r.messages| ensures Trim(r.messages[i].content) == r.messages[i].content {
      assert r.messages[i] == ToWire(SystemFirst(messages)[i]);
    }
  }

  /** Mapping the two halves of a partition gives the two halves of the mapped
      sequence. */
  lemma {:induction false} MapFilterPartition<T, U>(s: seq<T>, p: T -> bool, q: T -> bool, f: T -> U)
    requires forall x :: q(x) == !p(x)
    ensures multiset(Map(Filter(s, p), f)) + multiset(Map(Filter(s, q), f)) == multiset(Map(s, f))
  {
    if s != [] {
      var x, rest := s[0], s[1..];
      assert s == [x] + rest;
      MapFilterPartition(rest, p, q, f);
      assert q(x) == !p(x);
      MapCons(x, rest, f);
      var a, b := Map(Filter(rest, p), f), Map(Filter(rest, q), f);
      if p(x) {
        FilterConsKeep(x, rest, p);
        FilterConsDrop(x, rest, q);
        MapCons(x, Filter(rest, p), f);
        MultisetCons(f(x), a, b, Map(rest, f));
      } else {
        FilterConsKeep(x, rest, q);
        FilterConsDrop(x, rest, p);
        MapCons(x, Filter(rest, q), f);
        MultisetCons(f(x), b, a, Map(rest, f));
      }
    }
  }

  lemma MultisetCons<U>(y: U, a: seq<U>, b: seq<U>, m: seq<U>)
    requires multiset(a) + multiset(b) == multiset(m)
    ensures multiset([y] + a) + multiset(b) == multiset([y] + m)
  {
  }

  lemma MapCons<T, U>(x: T, rest: seq<T>, f: T -> U)
    ensures Map([x] + rest, f) == [f(x)] + Map(rest, f)
  {
    assert ([x] + rest)[1..] == rest;
  }

  lemma FilterConsKeep<T>(x: T, rest: seq<T>, p: T -> bool)
    requires p(x)
    ensures Filter([x] + rest, p) == [x] + Filter(rest, p)
  {
    assert ([x] + rest)[1..] == rest;
  }

  lemma FilterConsDrop<T>(x: T, rest: seq<T>, p: T -> bool)
    requires !p(x)
    ensures Filter([x] + rest, p) == Filter(rest, p)
  {
    assert ([x] + rest)[1..] == rest;
  }

  lemma {:induction false} MapAppend<T, U>(a: seq<T>, b: seq<T>, f: T -> U)
    ensures Map(a + b, f) == Map(a, f) + Map(b, f)
  {
  }

  // ---------------------------------------------------------------------------------
  // Failures

  /** A thrown JavaScript error: its `name`, its `message`, and `response.status` when the
      object has a `response` (an axios-style error). */
  datatype JsError = JsError(name: string, message: string, responseStatus: Option<int>)

  const AbortErrorName: string := "AbortError"
  const BadRequestMessage: string := "请求参数错误，请检查模型配置"
  const UnauthorizedMessage: string := "API密钥无效或已过期"
  const RateLimitedMessage: string := "请求过于频繁，请稍后再试"
  const NoBodyMessage: string := "Response body is null"

  /** `new Error(message)`. */
  function PlainError(message: string): JsError
  {
    JsError("Error", message, None)
  }

  /** The error a non-ok response throws (lines 55-65): the body's `error.message` when it
      is a non-empty string, otherwise `HTTP error! status: N`. */
  function HttpFailure(status: nat, bodyMessage: Option<string>): (r: JsError)
    ensures r.name == "Error" && r.responseStatus.None?
    ensures bodyMessage.Some? && bodyMessage.value != "" ==> r.message == bodyMessage.value
    ensures bodyMessage.None? || bodyMessage.value == "" ==>
      r.message == "HTTP error! status: " + NatToString(status)
  {
    var message := if bodyMessage.Some? && bodyMessage.value != "" then bodyMessage.value
      else "HTTP error! status: " + NatToString(status);
    PlainError(message)
  }

  /** The `catch` block of lines 158-177: an `AbortError` is rethrown as it is; an error
      whose `response.status` is 400, 401 or 429 becomes a new error with a fixed message;
      any other error is rethrown as it is. */
  function Rethrow(e: JsError): (r: JsError)
    ensures e.name == AbortErrorName || e.responseStatus.None? ==> r == e
    ensures r != e ==>
      && r.responseStatus.None? && r.name == "Error"
      && r.message in {BadRequestMessage, UnauthorizedMessage, RateLimitedMessage}
  {
    if e.name == AbortErrorName then e
    else if e.responseStatus == Some(400) then PlainError(BadRequestMessage)
    else if e.responseStatus == Some(401) then PlainError(UnauthorizedMessage)
    else if e.responseStatus == Some(429) then PlainError(RateLimitedMessage)
    else e
  }

  /** The mapped errors carry no response, so passing an error through the `catch` twice
      is passing it once. */
  lemma RethrowSpec(e: JsError)
    ensures Rethrow(Rethrow(e)) == Rethrow(e)
  {
  }

  // ---------------------------------------------------------------------------------
  // Transport and outcome

  /** An error `fetch` or `reader.read()` rejects with: a `TypeError` for a network
      failure or an `AbortError` for a cancelled signal. Neither has a `response`. */
  datatype TransportError = TransportError(name: string, message: string)

  function FromTransport(e: TransportError): JsError
  {
    JsError(e.name, e.message, None)
  }

  /** How the reads of the body end: `done`, or a rejected read. */
  datatype ReadEnd = EndOfStream | ReadRejected(error: TransportError)

  /** The body as the loop sees it: the text `decoder.decode(value)` yields for each read,
      in order, and how the reads end. */
  datatype Body = Body(chunks: seq<string>, end: ReadEnd)

  /** What the network does with the request: `fetch` rejects, or a response arrives with
      its status, the `error.message` of its JSON body if any (read only when the status
      is not ok), and its body stream unless it is null. */
  datatype Transport =
    | FetchRejected(error: TransportError)
    | Responded(status: nat, errorMessage: Option<string>, body: Option<Body>)

  /** `response.ok`. */
  predicate IsOk(status: nat) { 200 <= status <= 299 }

  /** How `makeStreamRequest` settles: it resolves, or it rejects with an error. */
  datatype StreamOutcome = Completed | Failed(error: JsError)

  /** The reassembler's state after the body's complete lines. */
  function AfterLines(chunks: seq<string>, parse: string -> Payload): Reasm
  {
    FeedDeltas(Initial, Deltas(CompleteLines(Flatten(chunks)), parse))
  }

  /** The outcome and the `onMessage` calls of `makeStreamRequest` for a given transport:
      the reference the method is proved against. The tail that no LF terminates is never
      examined; the buffer is flushed at `done` and not when a read is rejected. */
  function StreamResult(transport: Transport, parse: string -> Payload): (r: (StreamOutcome, seq<string>))
    ensures r.0 == Completed ==>
      && transport.Responded? && IsOk(transport.status) && transport.body.Some?
      && transport.body.value.end == EndOfStream
    ensures !(transport.Responded? && IsOk(transport.status) && transport.body.Some?) ==> r.1 == []
    ensures forall k :: 0 <= k < |r.1| ==> r.1[k] != ""
  {
    match transport
    case FetchRejected(e) => (Failed(Rethrow(FromTransport(e))), [])
    case Responded(status, errorMessage, body) =>
      if !IsOk(status) then (Failed(Rethrow(HttpFailure(status, errorMessage))), [])
      else if body.None? then (Failed(Rethrow(PlainError(NoBodyMessage))), [])
      else
        var st := AfterLines(body.value.chunks, parse);
        Conservation(Initial, Deltas(CompleteLines(Flatten(body.value.chunks)), parse));
        match body.value.end
        case EndOfStream => (Completed, Finish(st).emitted)
        case ReadRejected(e) => (Failed(Rethrow(FromTransport(e))), st.emitted)
  }

  /** A request that resolves has had an ok response with a body whose reads ended with
      `done`; every character of the normalised deltas is then passed to `onMessage`
      exactly once, in order, and never as an empty string. */
  lemma CompletedEmitsAll(transport: Transport, parse: string -> Payload)
    requires StreamResult(transport, parse).0 == Completed
    ensures transport.Responded? && IsOk(transport.status) && transport.body.Some?
    ensures transport.body.value.end == EndOfStream
    ensures var emitted := StreamResult(transport, parse).1;
      && Flatten(emitted) == Normalized(StartMode, Deltas(CompleteLines(Flatten(transport.body.value.chunks)), parse))
      && forall k :: 0 <= k < |emitted| ==> emitted[k] != ""
  {
    StreamConservation(Deltas(CompleteLines(Flatten(transport.body.value.chunks)), parse));
  }

  /** How the decoded text is cut into reads changes neither the outcome nor the
      `onMessage` calls. */
  lemma ChunkingIrrelevant(status: nat, errorMessage: Option<string>, a: Body, b: Body,
                           parse: string -> Payload)
    requires Flatten(a.chunks) == Flatten(b.chunks) && a.end == b.end
    ensures StreamResult(Responded(status, errorMessage, Some(a)), parse)
         == StreamResult(Responded(status, errorMessage, Some(b)), parse)
  {
  }

  /** Every error that reaches the `catch` is a plain `Error` or a transport error, none
      with a `response`, so the `catch` rethrows every error exactly as it was thrown. */
  lemma CatchRethrowsUnchanged(transport: Transport, parse: string -> Payload)
    ensures transport.FetchRejected? ==>
      StreamResult(transport, parse).0 == Failed(FromTransport(transport.error))
    ensures transport.Responded? && !IsOk(transport.status) ==>
      StreamResult(transport, parse).0 == Failed(HttpFailure(transport.status, transport.errorMessage))
    ensures transport.Responded? && IsOk(transport.status) && transport.body.None? ==>
      StreamResult(transport, parse).0 == Failed(PlainError(NoBodyMessage))
    ensures (transport.Responded? && IsOk(transport.status) && transport.body.Some?
             && transport.body.value.end.ReadRejected?) ==>
      StreamResult(transport, parse).0 == Failed(FromTransport(transport.body.value.end.error))
  {
  }


  /** A 401 response with no `error.message` in its body rejects with
      `HTTP error! status: 401`, not with the message lines 170-172 assign to 401. */
  lemma UnauthorizedNotMapped(parse: string -> Payload)
    ensures StreamResult(Responded(401, None, None), parse).0 == Failed(PlainError("HTTP error! status: 401"))
    ensures StreamResult(Responded(401, None, None), parse).0 != Failed(PlainError(UnauthorizedMessage))
  {
    assert NatToString(401) == "401" by {
      assert NatToString(4) == "4";
      assert NatToString(40) == "40";
    }
    CatchRethrowsUnchanged(Responded(401, None, None), parse);
  }

  /** The mapping lines 167-176 evidently intend for a non-ok response: 400, 401 and 429
      reject with their fixed messages, any other status as lines 55-65 say. */
  function ClassifyHttpFailure(status: nat, bodyMessage: Option<string>): (r: JsError)
    ensures r.name == "Error" && r.responseStatus.None?
    ensures status == 400 ==> r.message == BadRequestMessage
    ensures status == 401 ==> r.message == UnauthorizedMessage
    ensures status == 429 ==> r.message == RateLimitedMessage
    ensures status !in {400, 401, 429} ==> r == HttpFailure(status, bodyMessage)
  {
    if status == 400 then PlainError(BadRequestMessage)
    else if status == 401 then PlainError(UnauthorizedMessage)
    else if status == 429 then PlainError(RateLimitedMessage)
    else HttpFailure(status, bodyMessage)
  }

  /** `StreamResult` with the intended mapping of non-ok statuses. */
  function IntendedStreamResult(transport: Transport, parse: string -> Payload): (StreamOutcome, seq<string>)
  {
    if transport.Responded? && !IsOk(transport.status) then
      (Failed(ClassifyHttpFailure(transport.status, transport.errorMessage)), [])
    else StreamResult(transport, parse)
  }

  /** The intended result differs from the written one only in the message of a
      rejected 400, 401 or 429 response. */
  lemma IntendedDiffersOnlyInMapping(transport: Transport, parse: string -> Payload)
    ensures !(transport.Responded? && transport.status in {400, 401, 429}) ==>
      IntendedStreamResult(transport, parse) == StreamResult(transport, parse)
    ensures transport.Responded? && transport.status == 401 ==>
      IntendedStreamResult(transport, parse) == (Failed(PlainError(UnauthorizedMessage)), [])
  {
    CatchRethrowsUnchanged(transport, parse);
  }

  // ---------------------------------------------------------------------------------
  // makeStreamRequest

  /** `makeStreamRequest` (lines 19-178): builds the request, then settles as the
      transport dictates, calling `onMessage` with the reassembled content of the body. */
  method MakeStreamRequest(config: ModelConfig, messages: seq<ChatMessage>, isDevelopment: bool,
                           transport: Transport, parse: string -> Payload)
    returns (request: ChatRequest, outcome: StreamOutcome, emitted: seq<string>)
    ensures request == BuildRequest(config, messages, isDevelopment)
    ensures (outcome, emitted) == StreamResult(transport, parse)
  {
    request := BuildRequest(config, messages, isDevelopment);
    emitted := [];
    match transport {
      case FetchRejected(e) =>
        outcome := Failed(Rethrow(FromTransport(e)));
      case Responded(status, errorMessage, body) =>
        if !IsOk(status) {
          outcome := Failed(Rethrow(HttpFailure(status, errorMessage)));
        } else if body.None? {
          outcome := Failed(Rethrow(PlainError(NoBodyMessage)));
        } else {
          var contentBuffer, isFirstChunk, lastLineWasEmpty;
          contentBuffer, isFirstChunk, lastLineWasEmpty, emitted := ReadBody(body.value.chunks, parse);
          match body.value.end {
            case EndOfStream =>
              if contentBuffer != "" {
                emitted := emitted + [contentBuffer];
                contentBuffer := "";
              }
              outcome := Completed;
            case ReadRejected(e) =>
              outcome := Failed(Rethrow(FromTransport(e)));
          }
        }
    }
  }

  /** The `while (true)` read loop of lines 86-154 up to `done`: append each decoded chunk
      to `buffer`, split it on LF, keep the last part and process the complete lines. */
  method ReadBody(chunks: seq<string>, parse: string -> Payload)
    returns (contentBuffer: string, isFirstChunk: bool, lastLineWasEmpty: bool, emitted: seq<string>)
    ensures Reasm(contentBuffer, isFirstChunk, lastLineWasEmpty, emitted) == AfterLines(chunks, parse)
  {
    var buffer := "";
    contentBuffer, isFirstChunk, lastLineWasEmpty, emitted := "", true, false, [];
    ReadStart(chunks, parse);
    for r := 0 to |chunks|
      invariant buffer == Carry(Flatten(chunks[..r]))
      invariant Reasm(contentBuffer, isFirstChunk, lastLineWasEmpty, emitted) == AfterLines(chunks[..r], parse)
    {
      var lines;
      lines, buffer := SplitLines(buffer, chunks[r]);
      ReadStep(chunks, r, parse);
      contentBuffer, isFirstChunk, lastLineWasEmpty, emitted :=
        ProcessLines(contentBuffer, isFirstChunk, lastLineWasEmpty, emitted, lines, parse);
    }
    assert chunks[..|chunks|] == chunks;
  }

  /** Lines 93-95: the carried tail plus the new chunk, cut at LF; the last piece is
      carried to the next read. */
  method SplitLines(buffer: string, chunk: string) returns (lines: seq<string>, buffer': string)
    ensures var all := Split(buffer + chunk, '\n');
      lines == all[..|all| - 1] && buffer' == all[|all| - 1]
  {
    buffer' := buffer + chunk;
    var all := Split(buffer', '\n');
    buffer' := all[|all| - 1];
    lines := all[..|all| - 1];
  }

  /** The `for (const line of lines)` loop of lines 98-153 over the complete lines of one
      read. */
  method ProcessLines(contentBuffer: string, isFirstChunk: bool, lastLineWasEmpty: bool,
                      emitted: seq<string>, lines: seq<string>, parse: string -> Payload)
    returns (contentBuffer': string, isFirstChunk': bool, lastLineWasEmpty': bool, emitted': seq<string>)
    ensures Reasm(contentBuffer', isFirstChunk', lastLineWasEmpty', emitted')
      == FeedDeltas(Reasm(contentBuffer, isFirstChunk, lastLineWasEmpty, emitted), Deltas(lines, parse))
  {
    ghost var before := Reasm(contentBuffer, isFirstChunk, lastLineWasEmpty, emitted);
    contentBuffer', isFirstChunk', lastLineWasEmpty', emitted' := contentBuffer, isFirstChunk, lastLineWasEmpty, emitted;
    var i := 0;
    while i < |lines|
      invariant 0 <= i <= |lines|
      invariant Reasm(contentBuffer', isFirstChunk', lastLineWasEmpty', emitted')
        == FeedDeltas(before, Deltas(lines[..i], parse))
    {
      var line := lines[i];
      if StartsWith(line, DataPrefix) {
        var data := line[|DataPrefix|..];
        if data != DoneSentinel {
          match parse(data) {
            case Parsed(Some(content)) =>
              if content != "" {
                contentBuffer', isFirstChunk', lastLineWasEmpty', emitted' :=
                  FeedContent(contentBuffer', isFirstChunk', lastLineWasEmpty', emitted', content);
              }
            case _ =>
          }
        }
      }
      LineStep(before, lines, i, parse);
      i := i + 1;
    }
    assert lines[..i] == lines;
  }

  /** Before the first read nothing is carried and the reassembler is in its initial
      state. */
  lemma ReadStart(chunks: seq<string>, parse: string -> Payload)
    ensures Carry(Flatten(chunks[..0])) == ""
    ensures AfterLines(chunks[..0], parse) == Reasm("", true, false, [])
  {
    assert chunks[..0] == [];
    assert Split("", '\n') == [""];
    assert CompleteLines("") == [];
  }

  /** One more line in the line loop: the reassembler takes that line's delta, if any. */
  lemma LineStep(before: Reasm, lines: seq<string>, i: nat, parse: string -> Payload)
    requires i < |lines|
    ensures var st := FeedDeltas(before, Deltas(lines[..i], parse));
      FeedDeltas(before, Deltas(lines[..i + 1], parse))
        == match LineDelta(lines[i], parse)
           case None => st
           case Some(d) => FeedDelta(st, d)
  {
    assert lines[..i + 1][..i] == lines[..i];
    assert lines[..i + 1][i] == lines[i];
    match LineDelta(lines[i], parse)
    case None =>
    case Some(d) => FeedDeltasSnoc(before, Deltas(lines[..i], parse), d);
  }

  /** One more read: the lines of the first `r + 1` chunks are those of the first `r`,
      then those completed by the carried tail and the new chunk. */
  lemma ReadStep(chunks: seq<string>, r: nat, parse: string -> Payload)
    requires r < |chunks|
    ensures var text := Carry(Flatten(chunks[..r])) + chunks[r];
      var lines := Split(text, '\n');
      && Carry(Flatten(chunks[..r + 1])) == lines[|lines| - 1]
      && AfterLines(chunks[..r + 1], parse)
         == FeedDeltas(AfterLines(chunks[..r], parse), Deltas(lines[..|lines| - 1], parse))
  {
    var prefix := Flatten(chunks[..r]);
    TakeSnoc(chunks, r + 1);
    assert Flatten(chunks[..r + 1]) == prefix + chunks[r];
    ChunkBoundary(prefix, chunks[r]);
    var text := Carry(prefix) + chunks[r];
    DeltasAppend(CompleteLines(prefix), CompleteLines(text), parse);
    FeedDeltasAppend(Initial, Deltas(CompleteLines(prefix), parse), Deltas(CompleteLines(text), parse));
  }

  /** The handling of one non-empty content delta (lines 109-147) and `flushBuffer`. */
  method FeedContent(contentBuffer: string, isFirstChunk: bool, lastLineWasEmpty: bool,
                     emitted: seq<string>, content: string)
    returns (contentBuffer': string, isFirstChunk': bool, lastLineWasEmpty': bool, emitted': seq<string>)
    ensures Reasm(contentBuffer', isFirstChunk', lastLineWasEmpty', emitted')
      == FeedDelta(Reasm(contentBuffer, isFirstChunk, lastLineWasEmpty, emitted), content)
  {
    contentBuffer', isFirstChunk', lastLineWasEmpty', emitted' := contentBuffer, isFirstChunk, lastLineWasEmpty, emitted;
    if isFirstChunk {
      contentBuffer' := TrimStart(content);
      isFirstChunk' := false;
      return;
    }
    if '\n' in content {
      var lines := Split(content, '\n');
      contentBuffer', lastLineWasEmpty' := CollapseLines(contentBuffer, lastLineWasEmpty, lines);
    } else {
      contentBuffer' := contentBuffer' + content;
    }
    if ShouldFlush(content) {
      if contentBuffer' != "" {
        emitted' := emitted' + [contentBuffer'];
        contentBuffer' := "";
      }
    }
  }

  /** The blank-line loop of lines 118-135 over the LF-separated segments of a delta. */
  method CollapseLines(contentBuffer: string, lastLineWasEmpty: bool, lines: seq<string>)
    returns (contentBuffer': string, lastLineWasEmpty': bool)
    ensures contentBuffer' == contentBuffer + CollapsePrefix(lines, |lines|, lastLineWasEmpty).text
    ensures lastLineWasEmpty' == CollapsePrefix(lines, |lines|, lastLineWasEmpty).lastLineWasEmpty
  {
    contentBuffer', lastLineWasEmpty' := contentBuffer, lastLineWasEmpty;
    AppendNothing(contentBuffer);
    assert CollapsePrefix(lines, 0, lastLineWasEmpty) == Collapsed("", lastLineWasEmpty);
    for i := 0 to |lines|
      invariant contentBuffer' == contentBuffer + CollapsePrefix(lines, i, lastLineWasEmpty).text
      invariant lastLineWasEmpty' == CollapsePrefix(lines, i, lastLineWasEmpty).lastLineWasEmpty
    {
      ghost var acc := CollapsePrefix(lines, i, lastLineWasEmpty);
      contentBuffer', lastLineWasEmpty' := CollapseSegment(contentBuffer', lastLineWasEmpty', lines[i], i);
      SegmentAppend(contentBuffer, acc, lines[i], i);
      CollapsePrefixStep(lines, i, lastLineWasEmpty);
    }
  }

  /** The body of that loop for segment `line` at index `i`. */
  method CollapseSegment(contentBuffer: string, lastLineWasEmpty: bool, line: string, i: nat)
    returns (contentBuffer': string, lastLineWasEmpty': bool)
    ensures contentBuffer' == contentBuffer + SegmentExtra(lastLineWasEmpty, IsEmptyLine(line), line, i)
    ensures lastLineWasEmpty' == IsEmptyLine(line)
  {
    contentBuffer', lastLineWasEmpty' := contentBuffer, lastLineWasEmpty;
    var isEmptyLine := Trim(line) == "";
    if isEmptyLine {
      if !lastLineWasEmpty {
        contentBuffer' := contentBuffer' + "\n";
        lastLineWasEmpty' := true;
      } else {
        AppendNothing(contentBuffer);
      }
    } else {
      if lastLineWasEmpty {
        contentBuffer' := contentBuffer' + line;
        lastLineWasEmpty' := false;
      } else {
        var sep: string := if i > 0 then "\n" else "";
        contentBuffer' := contentBuffer' + (sep + line);
        if i == 0 { assert sep + line == line; }
      }
    }
  }

  lemma CollapsePrefixStep(segs: seq<string>, i: nat, flag: bool)
    requires i < |segs|
    ensures CollapsePrefix(segs, i + 1, flag) == SegmentStep(CollapsePrefix(segs, i, flag), segs[i], i)
  {
  }

  /** Appending one segment's text to a buffer that holds `base` followed by the text
      collapsed so far. */
  lemma SegmentAppend(base: string, acc: Collapsed, seg: string, i: nat)
    ensures var r := SegmentStep(acc, seg, i);
      base + r.text == (base + acc.text) + SegmentExtra(acc.lastLineWasEmpty, IsEmptyLine(seg), seg, i)
      && r.lastLineWasEmpty == IsEmptyLine(seg)
  {
    SegmentStepShape(acc, seg, i);
    Associative(base, acc.text, SegmentExtra(acc.lastLineWasEmpty, IsEmptyLine(seg), seg, i));
  }
}
