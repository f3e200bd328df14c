/** The content reassembler of the streaming reply (src/services/aiService.ts,
    lines 70-147): three variables carried across deltas (`contentBuffer`, `isFirstChunk`,
    `lastLineWasEmpty`) and the list of texts handed to `onMessage`. The first delta is
    left-trimmed and never flushes; later deltas with a newline have their runs of blank
    lines collapsed; a colon or a list/heading prefix in the raw delta flushes the buffer;
    the end of the stream flushes whatever is left. */
module Reassembler {
  import opened Seqs
  import opened Text

  /** The reassembler's variables, plus `emitted`: every argument `onMessage` received,
      in call order. */
  datatype Reasm = Reasm(
    contentBuffer: string,
    isFirstChunk: bool,
    lastLineWasEmpty: bool,
    emitted: seq<string>)

  /** The values at the start of a stream (lines 70-72). */
  const Initial: Reasm := Reasm("", true, false, [])

  /** The reassembler's own invariant: nothing is buffered before the first delta, and
      `onMessage` never received an empty string. */
  predicate Valid(st: Reasm)
  {
    && (st.isFirstChunk ==> st.contentBuffer == "")
    && forall k :: 0 <= k < |st.emitted| ==> st.emitted[k] != ""
  }

  /** `!line.trim()`. */
  predicate IsEmptyLine(line: string)
  {
    Trim(line) == ""
  }

  /** Text produced by blank-line collapsing, and the flag after it. */
  datatype Collapsed = Collapsed(text: string, lastLineWasEmpty: bool)

  /** One iteration of the `for` loop of lines 118-135, for segment `seg` at index `i`. */
  function SegmentStep(acc: Collapsed, seg: string, i: nat): (r: Collapsed)
    ensures r.lastLineWasEmpty == IsEmptyLine(seg)
    ensures |acc.text| <= |r.text| && r.text[..|acc.text|] == acc.text
    ensures IsEmptyLine(seg) ==> |r.text| <= |acc.text| + 1
  {
    if IsEmptyLine(seg) then
      if !acc.lastLineWasEmpty then Collapsed(acc.text + "\n", true) else acc
    else if acc.lastLineWasEmpty then Collapsed(acc.text + seg, false)
    else Collapsed(acc.text + (if i > 0 then "\n" else "") + seg, false)
  }

  /** The first `n` iterations of that loop, starting from the carried flag. */
  function CollapsePrefix(segs: seq<string>, n: nat, flag: bool): Collapsed
    requires n <= |segs|
  {
    if n == 0 then Collapsed("", flag)
    else SegmentStep(CollapsePrefix(segs, n - 1, flag), segs[n - 1], n - 1)
  }

  /** What a non-first delta appends to the buffer, and the flag after it (lines 116-138):
      a delta with a newline is split and collapsed, one without is appended verbatim. */
  function Appended(flag: bool, delta: string): (r: Collapsed)
    ensures '\n' !in delta ==> r == Collapsed(delta, flag)
  {
    if '\n' in delta then
      var segs := Split(delta, '\n');
      CollapsePrefix(segs, |segs|, flag)
    else Collapsed(delta, flag)
  }

  /** Number of leading ASCII digits (`\d` without the `u` flag). */
  function LeadingDigits(s: string): (n: nat)
    ensures n <= |s|
    ensures forall k :: 0 <= k < n ==> '0' <= s[k] <= '9'
    ensures n < |s| ==> !('0' <= s[n] <= '9')
  {
    if |s| > 0 && '0' <= s[0] <= '9' then 1 + LeadingDigits(s[1..]) else 0
  }

  /** The regular expression `/^\d+\./`. */
  predicate StartsWithNumberedItem(s: string)
  {
    var n := LeadingDigits(s);
    0 < n < |s| && s[n] == '.'
  }

  /** `StartsWithNumberedItem` is the regular expression: some non-empty run of digits at
      the start is followed by a dot. */
  lemma NumberedItemIsRegex(s: string)
    ensures StartsWithNumberedItem(s) <==>
      exists k :: 1 <= k < |s| && (forall j :: 0 <= j < k ==> '0' <= s[j] <= '9') && s[k] == '.'
  {
    var n := LeadingDigits(s);
    if exists k :: 1 <= k < |s| && (forall j :: 0 <= j < k ==> '0' <= s[j] <= '9') && s[k] == '.' {
      var k :| 1 <= k < |s| && (forall j :: 0 <= j < k ==> '0' <= s[j] <= '9') && s[k] == '.';
      assert n >= k by {
        if n < k { assert false; }
      }
      assert n <= k by {
        if n > k { assert false; }
      }
    }
  }

  /** The flush test of lines 141-145 on the raw delta: a full-width or ASCII colon
      anywhere, or a numbered-list, bullet or heading prefix. */
  predicate ShouldFlush(delta: string)
    ensures ShouldFlush(delta) <==>
      || (exists k :: 0 <= k < |delta| && (delta[k] == '：' || delta[k] == ':'))
      || (exists k :: 1 <= k < |delta| && (forall j :: 0 <= j < k ==> '0' <= delta[j] <= '9') && delta[k] == '.')
      || (|delta| > 0 && (delta[0] == '-' || delta[0] == '*' || delta[0] == '#'))
  {
    NumberedItemIsRegex(delta);
    || '：' in delta
    || ':' in delta
    || StartsWithNumberedItem(delta)
    || (|delta| > 0 && (delta[0] == '-' || delta[0] == '*' || delta[0] == '#'))
  }

  /** `flushBuffer` (lines 78-83): hand a non-empty buffer to `onMessage` and clear it. */
  function Flush(st: Reasm): (r: Reasm)
    ensures r.contentBuffer == ""
    ensures Flatten(r.emitted) == Flatten(st.emitted) + st.contentBuffer
    ensures r.isFirstChunk == st.isFirstChunk && r.lastLineWasEmpty == st.lastLineWasEmpty
    ensures Valid(st) ==> Valid(r)
    ensures |st.emitted| <= |r.emitted| <= |st.emitted| + 1 && r.emitted[..|st.emitted|] == st.emitted
  {
    if st.contentBuffer != "" then
      var r := st.(emitted := st.emitted + [st.contentBuffer], contentBuffer := "");
      assert forall k :: 0 <= k < |st.emitted| ==> r.emitted[k] == st.emitted[k];
      FlattenAppend(st.emitted, [st.contentBuffer]);
      FlattenSingle(st.contentBuffer);
      r
    else st
  }

  /** One content delta, lines 109-147. */
  function FeedDelta(st: Reasm, delta: string): (r: Reasm)
    ensures !r.isFirstChunk
    ensures Valid(st) ==> Valid(r)
    ensures |st.emitted| <= |r.emitted| <= |st.emitted| + 1 && r.emitted[..|st.emitted|] == st.emitted
    ensures st.isFirstChunk ==> r.emitted == st.emitted
  {
    if st.isFirstChunk then
      st.(contentBuffer := TrimStart(delta), isFirstChunk := false)
    else
      var a := Appended(st.lastLineWasEmpty, delta);
      var st1 := st.(contentBuffer := st.contentBuffer + a.text, lastLineWasEmpty := a.lastLineWasEmpty);
      if ShouldFlush(delta) then Flush(st1) else st1
  }

  /** A sequence of deltas, in order. */
  function FeedDeltas(st: Reasm, deltas: seq<string>): Reasm
  {
    if deltas == [] then st
    else FeedDelta(FeedDeltas(st, deltas[..|deltas| - 1]), deltas[|deltas| - 1])
  }

  /** The two flags that decide how a delta is normalised. */
  datatype Mode = Mode(isFirstChunk: bool, lastLineWasEmpty: bool)

  /** The flags at the start of a stream (lines 71-72). */
  const StartMode: Mode := Mode(true, false)

  function ModeOf(st: Reasm): Mode
  {
    Mode(st.isFirstChunk, st.lastLineWasEmpty)
  }

  /** How one delta moves the flags: the first one only clears `isFirstChunk` (line 111);
      a later one leaves the flag its collapsing computes (lines 118-135). */
  function NextMode(m: Mode, delta: string): Mode
  {
    if m.isFirstChunk then Mode(false, m.lastLineWasEmpty)
    else Mode(false, Appended(m.lastLineWasEmpty, delta).lastLineWasEmpty)
  }

  /** The flags after a sequence of deltas. */
  function ModeAfter(m: Mode, deltas: seq<string>): Mode
  {
    if deltas == [] then m else NextMode(ModeAfter(m, deltas[..|deltas| - 1]), deltas[|deltas| - 1])
  }

  /** What one delta appends to the buffer before any flush. */
  function Piece(m: Mode, delta: string): string
  {
    if m.isFirstChunk then TrimStart(delta) else Appended(m.lastLineWasEmpty, delta).text
  }

  /** The normalised text of a sequence of deltas: what they append to the buffer, the
      first one left-trimmed and the others blank-line collapsed. It is defined from the
      flags alone, so flushing plays no part in it. */
  function Normalized(m: Mode, deltas: seq<string>): string
  {
    if deltas == [] then ""
    else
      var front := deltas[..|deltas| - 1];
      Normalized(m, front) + Piece(ModeAfter(m, front), deltas[|deltas| - 1])
  }

  /** The reassembler moves its flags as `ModeAfter` does, whatever it flushes. */
  lemma {:induction false} ModesAgree(st: Reasm, deltas: seq<string>)
    ensures ModeOf(FeedDeltas(st, deltas)) == ModeAfter(ModeOf(st), deltas)
  {
    if deltas != [] {
      ModesAgree(st, deltas[..|deltas| - 1]);
    }
  }

  /** The end of the stream (line 89). */
  function Finish(st: Reasm): Reasm
  {
    Flush(st)
  }

  /** The first delta sets the buffer to its left-trimmed text and never flushes, whatever
      it contains (the `continue` of line 112). */
  lemma FirstDelta(st: Reasm, delta: string)
    requires st.isFirstChunk
    ensures var r := FeedDelta(st, delta);
      && r.contentBuffer == TrimStart(delta) && r.emitted == st.emitted
      && !r.isFirstChunk && r.lastLineWasEmpty == st.lastLineWasEmpty
  {
  }

  /** After a non-first delta the buffer is flushed exactly when the raw delta passes the
      flush test; `onMessage` is then called once if the buffer is non-empty. Otherwise the
      collapsed delta is appended to the buffer and nothing is emitted. */
  lemma FlushIff(st: Reasm, delta: string)
    requires !st.isFirstChunk
    ensures var r := FeedDelta(st, delta);
      var text := st.contentBuffer + Appended(st.lastLineWasEmpty, delta).text;
      && (ShouldFlush(delta) ==> r.contentBuffer == "" && Flatten(r.emitted) == Flatten(st.emitted) + text)
      && (!ShouldFlush(delta) ==> r.contentBuffer == text && r.emitted == st.emitted)
      && (|r.emitted| == |st.emitted| + 1 <==> ShouldFlush(delta) && text != "")
      && (|r.emitted| == |st.emitted| <==> !(ShouldFlush(delta) && text != ""))
  {
  }

  /** Feeding two batches of deltas one after the other is feeding their concatenation. */
  lemma {:induction false} FeedDeltasAppend(st: Reasm, a: seq<string>, b: seq<string>)
    ensures FeedDeltas(st, a + b) == FeedDeltas(FeedDeltas(st, a), b)
    decreases |b|
  {
    if b == [] {
      assert a + b == a;
    } else {
      var b' := b[..|b| - 1];
      assert (a + b)[..|a + b| - 1] == a + b';
      assert (a + b)[|a + b| - 1] == b[|b| - 1];
      FeedDeltasAppend(st, a, b');
    }
  }

  /** The flags after two batches of deltas are the flags after the second batch, fed
      from those after the first. */
  lemma {:induction false} ModeAfterAppend(m: Mode, a: seq<string>, b: seq<string>)
    ensures ModeAfter(m, a + b) == ModeAfter(ModeAfter(m, a), b)
    decreases |b|
  {
    if b == [] {
      assert a + b == a;
    } else {
      var b' := b[..|b| - 1];
      assert (a + b)[..|a + b| - 1] == a + b';
      assert (a + b)[|a + b| - 1] == b[|b| - 1];
      ModeAfterAppend(m, a, b');
    }
  }

  lemma {:induction false} NormalizedAppend(m: Mode, a: seq<string>, b: seq<string>)
    ensures Normalized(m, a + b) == Normalized(m, a) + Normalized(ModeAfter(m, a), b)
    decreases |b|
  {
    if b == [] {
      assert a + b == a;
    } else {
      var b' := b[..|b| - 1];
      var last := b[|b| - 1];
      NormalizedAppend(m, a, b');
      ModeAfterAppend(m, a, b');
      NormalizedSnoc(m, a + b', last);
      NormalizedSnoc(ModeAfter(m, a), b', last);
      SnocSplit(a, b);
      var x, y, z := Normalized(m, a), Normalized(ModeAfter(m, a), b'), Piece(ModeAfter(m, a + b'), last);
      Associative(x, y, z);
    }
  }

  lemma SnocSplit<T>(a: seq<T>, b: seq<T>)
    requires b != []
    ensures a + b == (a + b[..|b| - 1]) + [b[|b| - 1]]
    ensures b == b[..|b| - 1] + [b[|b| - 1]]
  {
  }

  lemma Associative(x: string, y: string, z: string)
    ensures (x + y) + z == x + (y + z)
  {
  }

  /** `Normalized` of a sequence ending in `last`. */
  lemma NormalizedSnoc(m: Mode, ds: seq<string>, last: string)
    ensures Normalized(m, ds + [last]) == Normalized(m, ds) + Piece(ModeAfter(m, ds), last)
  {
    assert (ds + [last])[..|ds|] == ds;
  }

  /** `FeedDeltas` of a sequence ending in `last`. */
  lemma FeedDeltasSnoc(st: Reasm, ds: seq<string>, last: string)
    ensures FeedDeltas(st, ds + [last]) == FeedDelta(FeedDeltas(st, ds), last)
  {
    assert (ds + [last])[..|ds|] == ds;
  }

  /** Conservation: at every step, everything handed to `onMessage` followed by the buffer
      is everything appended so far, and the invariant holds. */
  lemma {:induction false} Conservation(st: Reasm, deltas: seq<string>)
    requires Valid(st)
    ensures var r := FeedDeltas(st, deltas);
      && Valid(r)
      && Flatten(r.emitted) + r.contentBuffer
         == Flatten(st.emitted) + st.contentBuffer + Normalized(ModeOf(st), deltas)
  {
    if deltas == [] {
      assert Flatten(st.emitted) + st.contentBuffer + "" == Flatten(st.emitted) + st.contentBuffer;
    } else {
      var front, last := deltas[..|deltas| - 1], deltas[|deltas| - 1];
      Conservation(st, front);
      ModesAgree(st, front);
      var before := FeedDeltas(st, front);
      var piece := Piece(ModeOf(before), last);
      StepConservation(before, last);
      // Flatten(r.emitted) + r.contentBuffer == (Flatten(before.emitted) + before.contentBuffer) + piece
      var x, y := Flatten(st.emitted) + st.contentBuffer, Normalized(ModeOf(st), front);
      Associative(x, y, piece);
    }
  }

  /** One delta keeps the invariant and appends its piece to what was emitted or buffered. */
  lemma StepConservation(before: Reasm, delta: string)
    requires Valid(before)
    ensures var r := FeedDelta(before, delta);
      && Valid(r)
      && Flatten(r.emitted) + r.contentBuffer
         == (Flatten(before.emitted) + before.contentBuffer) + Piece(ModeOf(before), delta)
  {
    if !before.isFirstChunk {
      var a := Appended(before.lastLineWasEmpty, delta);
      var st1 := before.(contentBuffer := before.contentBuffer + a.text, lastLineWasEmpty := a.lastLineWasEmpty);
      Associative(Flatten(before.emitted), before.contentBuffer, a.text);
      assert Valid(st1);
    }
  }

  /** At the end of a stream every appended character has been handed to `onMessage`
      exactly once, in order, and never as an empty string. */
  lemma StreamConservation(deltas: seq<string>)
    ensures var r := Finish(FeedDeltas(Initial, deltas));
      && Flatten(r.emitted) == Normalized(StartMode, deltas)
      && r.contentBuffer == ""
      && forall k :: 0 <= k < |r.emitted| ==> r.emitted[k] != ""
  {
    Conservation(Initial, deltas);
    var f := FeedDeltas(Initial, deltas);
    assert ModeOf(Initial) == StartMode;
    assert Flatten(Initial.emitted) + Initial.contentBuffer == "";
    assert "" + Normalized(StartMode, deltas) == Normalized(StartMode, deltas);
  }

  /** The normalised text starts with the left-trimmed first delta and continues with the
      rest collapsed as after a non-blank line. */
  lemma NormalizedStart(d: string, rest: seq<string>)
    ensures Normalized(StartMode, [d] + rest)
      == TrimStart(d) + Normalized(Mode(false, false), rest)
  {
    NormalizedAppend(StartMode, [d], rest);
    SingleDelta(StartMode, d);
  }

  /** A single delta: its piece, and the flags after it. */
  lemma SingleDelta(m: Mode, d: string)
    ensures Normalized(m, [d]) == Piece(m, d)
    ensures ModeAfter(m, [d]) == NextMode(m, d)
  {
    assert [d][..0] == [];
    assert Normalized(m, []) == "";
    assert "" + Piece(m, d) == Piece(m, d);
  }

  /** What one iteration of the segment loop appends to the text, given the flag before
      it and whether the segment is blank. */
  function SegmentExtra(flag: bool, blank: bool, seg: string, i: nat): string
  {
    if blank then (if flag then "" else "\n")
    else if !flag && i > 0 then "\n" + seg
    else seg
  }

  /** One iteration of the segment loop appends `SegmentExtra`, and the flag after a
      segment always says whether that segment was blank. */
  lemma SegmentStepShape(acc: Collapsed, seg: string, i: nat)
    ensures var r := SegmentStep(acc, seg, i);
      && r.lastLineWasEmpty == IsEmptyLine(seg)
      && r.text == acc.text + SegmentExtra(acc.lastLineWasEmpty, IsEmptyLine(seg), seg, i)
  {
    if IsEmptyLine(seg) {
      if acc.lastLineWasEmpty {
        AppendNothing(acc.text);
      }
    } else if !acc.lastLineWasEmpty {
      if i > 0 {
        Associative(acc.text, "\n", seg);
      } else {
        AppendNothing(acc.text);
      }
    }
  }

  /** Blank-line collapsing keeps the text of every non-blank line and drops only
      newlines and blank lines: with newlines removed, the collapsed text is the
      concatenation of the non-blank segments. */
  lemma {:induction false} CollapseKeepsText(segs: seq<string>, n: nat, flag: bool)
    requires n <= |segs|
    requires forall k :: 0 <= k < |segs| ==> '\n' !in segs[k]
    ensures Filter(CollapsePrefix(segs, n, flag).text, NotNewline)
         == Flatten(Filter(segs[..n], NotEmptyLine))
  {
    if n == 0 {
      assert segs[..0] == [];
    } else {
      CollapseKeepsText(segs, n - 1, flag);
      TakeSnoc(segs, n);
      KeepsTextStep(CollapsePrefix(segs, n - 1, flag), segs[n - 1], n - 1, segs[..n - 1]);
    }
  }

  /** One iteration of the segment loop keeps the text of a non-blank segment. */
  lemma KeepsTextStep(acc: Collapsed, seg: string, i: nat, front: seq<string>)
    requires '\n' !in seg
    requires Filter(acc.text, NotNewline) == Flatten(Filter(front, NotEmptyLine))
    ensures Filter(SegmentStep(acc, seg, i).text, NotNewline)
         == Flatten(Filter(front + [seg], NotEmptyLine))
  {
    FilterAppend(front, [seg], NotEmptyLine);
    FlattenAppend(Filter(front, NotEmptyLine), Filter([seg], NotEmptyLine));
    SegmentStepShape(acc, seg, i);
    var extra := SegmentExtra(acc.lastLineWasEmpty, IsEmptyLine(seg), seg, i);
    FilterAppend(acc.text, extra, NotNewline);
    ExtraKeepsText(acc.lastLineWasEmpty, IsEmptyLine(seg), seg, i);
    FilterSingle(seg, NotEmptyLine);
  }

  /** The text one segment appends, with newlines removed, is the segment if it is
      non-blank and nothing otherwise. */
  lemma ExtraKeepsText(flag: bool, blank: bool, seg: string, i: nat)
    requires '\n' !in seg
    ensures Filter(SegmentExtra(flag, blank, seg, i), NotNewline) == if blank then "" else seg
  {
    forall k | 0 <= k < |seg| ensures NotNewline(seg[k]) {
      assert seg[k] in seg;
    }
    FilterKeepsAll(seg, NotNewline);
    assert Filter("\n", NotNewline) == [];
    if !blank && !flag && i > 0 {
      FilterAppend("\n", seg, NotNewline);
    }
  }

  predicate NotNewline(c: char) { c != '\n' }

  predicate NotEmptyLine(s: string) { !IsEmptyLine(s) }

  /** No two consecutive newlines. */
  predicate NoBlankLine(t: string)
  {
    forall i :: 0 <= i < |t| - 1 ==> !(t[i] == '\n' && t[i + 1] == '\n')
  }

  /** Gluing two texts without a blank line gives none, unless a newline meets a newline. */
  lemma GlueNoBlankLine(a: string, b: string)
    requires NoBlankLine(a) && NoBlankLine(b)
    requires a != [] && b != [] ==> !(a[|a| - 1] == '\n' && b[0] == '\n')
    ensures NoBlankLine(a + b)
  {
    forall i | 0 <= i < |a + b| - 1
      ensures !((a + b)[i] == '\n' && (a + b)[i + 1] == '\n')
    {
      if i + 1 < |a| {
        assert (a + b)[i] == a[i] && (a + b)[i + 1] == a[i + 1];
      } else if i >= |a| {
        assert (a + b)[i] == b[i - |a|] && (a + b)[i + 1] == b[i + 1 - |a|];
      }
    }
  }

  /** A non-blank segment is non-empty and, having no newline, neither starts nor ends
      with one. */
  lemma NonBlankSegment(seg: string)
    requires '\n' !in seg && !IsEmptyLine(seg)
    ensures seg != [] && seg[0] != '\n' && seg[|seg| - 1] != '\n' && NoBlankLine(seg)
  {
    assert seg != [];
    assert seg[0] in seg;
    assert seg[|seg| - 1] in seg;
    forall i | 0 <= i < |seg| - 1 ensures seg[i] != '\n' {
      assert seg[i] in seg;
    }
  }

  /** What the segment loop keeps true of the collapsed text: no two consecutive
      newlines; a trailing newline exactly when the flag is set; and, when the previous
      line was blank (`flag`), no leading newline and the flag still set while nothing has
      been appended. */
  predicate CollapseInvariant(c: Collapsed, flag: bool)
  {
    && NoBlankLine(c.text)
    && (c.text != "" ==> (c.text[|c.text| - 1] == '\n' <==> c.lastLineWasEmpty))
    && (flag && c.text == "" ==> c.lastLineWasEmpty)
    && (flag && c.text != "" ==> c.text[0] != '\n')
  }

  /** Blank-line collapsing never yields two consecutive newlines; the flag says whether
      the collapsed text ends in a newline and whether the last segment was blank; and if
      the previous line was blank the text does not start with a newline. */
  lemma {:induction false} CollapseNoBlankLine(segs: seq<string>, n: nat, flag: bool)
    requires n <= |segs|
    requires forall k :: 0 <= k < |segs| ==> '\n' !in segs[k]
    ensures CollapseInvariant(CollapsePrefix(segs, n, flag), flag)
    ensures n > 0 ==> CollapsePrefix(segs, n, flag).lastLineWasEmpty == IsEmptyLine(segs[n - 1])
  {
    if n > 0 {
      CollapseNoBlankLine(segs, n - 1, flag);
      NoBlankStep(CollapsePrefix(segs, n - 1, flag), segs[n - 1], n - 1, flag);
    }
  }

  /** One iteration of the segment loop keeps `CollapseInvariant`. */
  lemma NoBlankStep(acc: Collapsed, seg: string, i: nat, flag: bool)
    requires '\n' !in seg
    requires CollapseInvariant(acc, flag)
    ensures CollapseInvariant(SegmentStep(acc, seg, i), flag)
    ensures SegmentStep(acc, seg, i).lastLineWasEmpty == IsEmptyLine(seg)
  {
    SegmentStepShape(acc, seg, i);
    var blank := IsEmptyLine(seg);
    var extra := SegmentExtra(acc.lastLineWasEmpty, blank, seg, i);
    ExtraShape(acc.lastLineWasEmpty, blank, seg, i);
    GlueNoBlankLine(acc.text, extra);
    GlueEnds(acc.text, extra);
  }

  /** The shape of what one segment appends: no blank line; a trailing newline exactly
      for a blank segment; a leading newline only when the flag is clear. */
  lemma ExtraShape(flag: bool, blank: bool, seg: string, i: nat)
    requires '\n' !in seg && (!blank ==> !IsEmptyLine(seg))
    ensures var extra := SegmentExtra(flag, blank, seg, i);
      && NoBlankLine(extra)
      && (extra != "" ==> (extra[|extra| - 1] == '\n' <==> blank))
      && (extra == "" ==> blank && flag)
      && (extra != "" && extra[0] == '\n' ==> !flag)
  {
    if !blank {
      NonBlankSegment(seg);
      if !flag && i > 0 {
        GlueNoBlankLine("\n", seg);
      }
    }
  }

  /** The first and last characters of a concatenation. */
  lemma GlueEnds(a: string, b: string)
    ensures a != "" ==> (a + b)[0] == a[0]
    ensures a == "" && b != "" ==> (a + b)[0] == b[0]
    ensures b != "" ==> (a + b)[|a + b| - 1] == b[|b| - 1]
    ensures b == "" && a != "" ==> (a + b)[|a + b| - 1] == a[|a| - 1]
    ensures a + b == "" <==> a == "" && b == ""
  {
  }

  /** A delta with a newline leaves the flag saying whether its last segment is blank. */
  lemma FlagAfterNewlineDelta(flag: bool, delta: string)
    requires '\n' in delta
    ensures var segs := Split(delta, '\n');
      Appended(flag, delta).lastLineWasEmpty == IsEmptyLine(segs[|segs| - 1])
  {
    var segs := Split(delta, '\n');
    AppendedSplits(flag, delta);
    LastFlag(segs, |segs|, flag);
  }

  /** A delta with a newline goes through the segment loop over its split. */
  lemma AppendedSplits(flag: bool, delta: string)
    requires '\n' in delta
    ensures var segs := Split(delta, '\n');
      Appended(flag, delta) == CollapsePrefix(segs, |segs|, flag)
  {
  }

  /** After at least one iteration of the segment loop, the flag says whether the last
      segment seen was blank. */
  lemma LastFlag(segs: seq<string>, n: nat, flag: bool)
    requires 0 < n <= |segs|
    ensures CollapsePrefix(segs, n, flag).lastLineWasEmpty == IsEmptyLine(segs[n - 1])
  {
    SegmentStepShape(CollapsePrefix(segs, n - 1, flag), segs[n - 1], n - 1);
  }

  /** The empty line is blank. */
  lemma EmptyIsBlank()
    ensures IsEmptyLine("")
  {
  }

  /** A run of blank segments collapses to one newline, or to nothing when the previous
      line was already blank. */
  lemma {:induction false} BlankRunCollapses(segs: seq<string>, n: nat, flag: bool)
    requires 0 < n <= |segs|
    requires forall k :: 0 <= k < n ==> IsEmptyLine(segs[k])
    ensures CollapsePrefix(segs, n, flag) == Collapsed(if flag then "" else "\n", true)
  {
    if n > 1 {
      BlankRunCollapses(segs, n - 1, flag);
    }
    assert IsEmptyLine(segs[n - 1]);
  }

  /** A plain delta between two newline deltas loses the second newline: the first
      `"\n"` sets the blank-line flag, the plain delta `w` leaves it set, and the next
      `"\n"` is then dropped as a repeated blank line, so `"Hello"`, `"\n"`, `"World"`,
      `"\n"`, `"Foo"` reassemble to `"Hello\nWorldFoo"`. */
  lemma NewlineLoss(st: Reasm, w: string)
    requires !st.isFirstChunk && !st.lastLineWasEmpty
    requires '\n' !in w && !ShouldFlush(w)
    ensures var r := FeedDelta(FeedDelta(FeedDelta(st, "\n"), w), "\n");
      && r.contentBuffer == st.contentBuffer + "\n" + w
      && r.emitted == st.emitted
      && r.lastLineWasEmpty
  {
    NewlineNoFlush();
    var s1 := FeedDelta(st, "\n");
    KeepStep(st, "\n");
    AppendedNewline(false);
    assert s1 == st.(contentBuffer := st.contentBuffer + "\n", lastLineWasEmpty := true);
    var s2 := FeedDelta(s1, w);
    KeepStep(s1, w);
    assert s2 == s1.(contentBuffer := s1.contentBuffer + w);
    KeepStep(s2, "\n");
    AppendedNewline(true);
    AppendNothing(s2.contentBuffer);
  }

  lemma AppendNothing(x: string)
    ensures x + "" == x
  {
  }

  /** A later delta that does not flush only appends its collapsed text to the buffer. */
  lemma KeepStep(st: Reasm, d: string)
    requires !st.isFirstChunk && !ShouldFlush(d)
    ensures var a := Appended(st.lastLineWasEmpty, d);
      FeedDelta(st, d) == st.(contentBuffer := st.contentBuffer + a.text, lastLineWasEmpty := a.lastLineWasEmpty)
  {
  }

  /** A lone newline never flushes. */
  lemma NewlineNoFlush()
    ensures !ShouldFlush("\n")
  {
    assert LeadingDigits("\n") == 0;
  }

  /** A lone newline is one blank line. */
  lemma AppendedNewline(flag: bool)
    ensures Appended(flag, "\n") == Collapsed(if flag then "" else "\n", true)
  {
    var segs: seq<string> := ["", ""];
    SplitJoin(segs, '\n');
    JoinTwoEmpty();
    AppendedSplits(flag, "\n");
    EmptyIsBlank();
    BlankRunCollapses(segs, 2, flag);
  }

  lemma JoinTwoEmpty()
    ensures Join(["", ""], '\n') == "\n"
  {
    assert ["", ""][1..] == [""];
  }
}
