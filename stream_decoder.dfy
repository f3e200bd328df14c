/** The line decoder of the streaming reply (src/services/aiService.ts, the read loop of
    `makeStreamRequest`): a simplified server-sent-events reader. Decoded text is
    appended to a carry-over buffer, the buffer is split on LF, every complete line is
    examined and the unterminated last part is carried to the next read. Only lines that
    start with exactly `data: ` matter; the `[DONE]` payload is skipped (it does not stop
    the loop) and payloads that fail to parse are dropped. */
module StreamDecoder {
  import opened Wrappers
  import opened Seqs
  import opened Text

  /** What `JSON.parse(data)` followed by `parsed.choices[0]?.delta?.content` yields for a
      payload: `Unparsable` when either step throws (malformed JSON, no `choices`),
      otherwise the content field if there is one. JSON itself is not modelled. */
  datatype Payload = Unparsable | Parsed(content: Option<string>)

  const DataPrefix: string := "data: "
  const DoneSentinel: string := "[DONE]"

  /** The complete lines of a buffer: every part of its split on LF but the last. */
  function CompleteLines(text: string): (r: seq<string>)
    ensures forall k :: 0 <= k < |r| ==> '\n' !in r[k]
  {
    var parts := Split(text, '\n');
    parts[..|parts| - 1]
  }

  /** The unterminated tail that is carried over to the next read (`lines.pop()`). */
  function Carry(text: string): (r: string)
    ensures '\n' !in r
  {
    var parts := Split(text, '\n');
    parts[|parts| - 1]
  }

  /** Nothing is lost between the complete lines and the carried tail: joined back with
      LF they are the buffer. */
  lemma LinesAndCarryMakeText(text: string)
    ensures Join(CompleteLines(text) + [Carry(text)], '\n') == text
  {
    var parts := Split(text, '\n');
    var lines, tail := CompleteLines(text), Carry(text);
    assert lines == parts[..|parts| - 1] && tail == parts[|parts| - 1];
    assert lines + [tail] == parts;
    assert Join(parts, '\n') == text;
  }

  /** Two successive reads see the lines of their concatenation: the lines completed by
      `x`, then those completed by `x`'s tail followed by `y`; the tail carried after
      both is the tail of the whole. */
  lemma ChunkBoundary(x: string, y: string)
    ensures CompleteLines(x + y) == CompleteLines(x) + CompleteLines(Carry(x) + y)
    ensures Carry(x + y) == Carry(Carry(x) + y)
  {
    SplitAppend(x, y, '\n');
    var px := Split(x, '\n');
    var py := Split(Carry(x) + y, '\n');
    var pxy := Split(x + y, '\n');
    assert pxy == px[..|px| - 1] + py;
    assert pxy[..|pxy| - 1] == px[..|px| - 1] + py[..|py| - 1];
  }

  /** The read loop's view of the stream: after each read, the lines it processed so far
      and the text it carries (`buffer += chunk; lines = buffer.split('\n');
      buffer = lines.pop() || ''`). */
  function ReadLoop(chunks: seq<string>): (r: (string, seq<string>))
    ensures '\n' !in r.0
    ensures forall k :: 0 <= k < |r.1| ==> '\n' !in r.1[k]
    ensures chunks != [] ==> ReadLoop(chunks[..|chunks| - 1]).1 <= r.1
  {
    if chunks == [] then ("", [])
    else
      var (carry, seen) := ReadLoop(chunks[..|chunks| - 1]);
      var buffer := carry + chunks[|chunks| - 1];
      var lines := Split(buffer, '\n');
      (lines[|lines| - 1], seen + lines[..|lines| - 1])
  }

  /** Chunk-boundary invariance: however the decoded text is cut into reads, the loop
      processes exactly the complete lines of the whole text, in order, and carries its
      unterminated tail. */
  lemma {:induction false} ChunkBoundaryInvariance(chunks: seq<string>)
    ensures ReadLoop(chunks) == (Carry(Flatten(chunks)), CompleteLines(Flatten(chunks)))
  {
    if chunks == [] {
      assert Split("", '\n') == [""];
    } else {
      var front := chunks[..|chunks| - 1];
      var last := chunks[|chunks| - 1];
      ChunkBoundaryInvariance(front);
      assert Flatten(chunks) == Flatten(front) + last;
      ChunkBoundary(Flatten(front), last);
    }
  }

  /** Two ways of cutting the same text into reads lead to the same lines and tail. */
  lemma SameTextSameLines(a: seq<string>, b: seq<string>)
    requires Flatten(a) == Flatten(b)
    ensures ReadLoop(a) == ReadLoop(b)
  {
    ChunkBoundaryInvariance(a);
    ChunkBoundaryInvariance(b);
  }

  /** The content delta a complete line carries, if any (lines 99-107): it must start
      with `data: `, its payload must not be `[DONE]`, must parse, and its content must be
      a non-empty string. */
  function LineDelta(line: string, parse: string -> Payload): (r: Option<string>)
    ensures !StartsWith(line, DataPrefix) ==> r.None?
    ensures StartsWith(line, DataPrefix) && line[|DataPrefix|..] == DoneSentinel ==> r.None?
    ensures StartsWith(line, DataPrefix) && parse(line[|DataPrefix|..]).Unparsable? ==> r.None?
    ensures r.Some? ==> r.value != "" && parse(line[|DataPrefix|..]) == Parsed(Some(r.value))
    ensures forall c ::
      (StartsWith(line, DataPrefix) && line[|DataPrefix|..] != DoneSentinel
       && parse(line[|DataPrefix|..]) == Parsed(Some(c)) && c != "") ==> r == Some(c)
  {
    if !StartsWith(line, DataPrefix) then None
    else
      var data := line[|DataPrefix|..];
      if data == DoneSentinel then None
      else match parse(data)
        case Parsed(Some(content)) => if content != "" then Some(content) else None
        case _ => None
  }

  /** The deltas of a sequence of complete lines, in order. */
  function Deltas(lines: seq<string>, parse: string -> Payload): (r: seq<string>)
    ensures |r| <= |lines|
    ensures forall k :: 0 <= k < |r| ==> r[k] != ""
  {
    if lines == [] then []
    else
      var front := Deltas(lines[..|lines| - 1], parse);
      match LineDelta(lines[|lines| - 1], parse)
      case None => front
      case Some(d) => front + [d]
  }

  lemma {:induction false} DeltasAppend(a: seq<string>, b: seq<string>, parse: string -> Payload)
    ensures Deltas(a + b, parse) == Deltas(a, parse) + Deltas(b, parse)
    decreases |b|
  {
    if b == [] {
      assert a + b == a;
    } else {
      var b' := b[..|b| - 1];
      assert (a + b)[..|a + b| - 1] == a + b';
      assert (a + b)[|a + b| - 1] == b[|b| - 1];
      DeltasAppend(a, b', parse);
    }
  }

  /** A line that carries no delta (not a `data: ` line, `[DONE]`, a malformed payload, an
      empty content) is skipped and decoding goes on with the lines after it: in
      particular `[DONE]` does not end the stream and a bad frame does not abort it. */
  lemma SkippedLineKeepsRest(a: seq<string>, line: string, b: seq<string>, parse: string -> Payload)
    requires LineDelta(line, parse).None?
    ensures Deltas(a + [line] + b, parse) == Deltas(a, parse) + Deltas(b, parse)
  {
    DeltasAppend(a + [line], b, parse);
    DeltasAppend(a, [line], parse);
    assert [line][..0] == [];
  }

  /** The `[DONE]` sentinel line, in particular, is skipped. */
  lemma DoneLineSkipped(a: seq<string>, b: seq<string>, parse: string -> Payload)
    ensures Deltas(a + [DataPrefix + DoneSentinel] + b, parse) == Deltas(a, parse) + Deltas(b, parse)
  {
    var line := DataPrefix + DoneSentinel;
    assert StartsWith(line, DataPrefix) && line[|DataPrefix|..] == DoneSentinel;
    SkippedLineKeepsRest(a, line, b, parse);
  }
}
