/** Strings as JavaScript sees them, restricted to what the core uses:
    `trim`/`trimStart`, the `\s` class, `split` on one character, `startsWith`,
    `indexOf`/`includes`, `replace` with a string pattern, `toLowerCase`, and the
    decimal rendering of a number. A `char` is one Unicode scalar value, so lengths
    agree with JavaScript's only for text without surrogate pairs. */
module Text {
  import opened Wrappers
  import Seqs

  /** ECMAScript WhiteSpace and LineTerminator code points: exactly what
      `String.prototype.trim` strips and what the regular-expression class `\s` matches. */
  predicate IsWs(c: char)
  {
    || c == '\t' || c == '\n' || c == '\U{000B}' || c == '\U{000C}' || c == '\r' || c == ' '
    || c == '\U{00A0}' || c == '\U{1680}' || ('\U{2000}' <= c <= '\U{200A}')
    || c == '\U{2028}' || c == '\U{2029}' || c == '\U{202F}' || c == '\U{205F}'
    || c == '\U{3000}' || c == '\U{FEFF}'
  }

  predicate AllWs(s: string)
  {
    forall i :: 0 <= i < |s| ==> IsWs(s[i])
  }

  /** `s.trimStart()`: the suffix of `s` left after its leading whitespace. */
  function TrimStart(s: string): (r: string)
    ensures |r| <= |s| && r == s[|s| - |r|..]
    ensures forall i :: 0 <= i < |s| - |r| ==> IsWs(s[i])
    ensures r == [] || !IsWs(r[0])
  {
    if |s| > 0 && IsWs(s[0]) then TrimStart(s[1..]) else s
  }

  /** `s.trimEnd()`: the prefix of `s` left after its trailing whitespace. */
  function TrimEnd(s: string): (r: string)
    ensures |r| <= |s| && r == s[..|r|]
    ensures forall i :: |r| <= i < |s| ==> IsWs(s[i])
    ensures r == [] || !IsWs(r[|r| - 1])
  {
    if |s| > 0 && IsWs(s[|s| - 1]) then TrimEnd(s[..|s| - 1]) else s
  }

  /** `s.trim()`. */
  function Trim(s: string): (r: string)
    ensures |r| <= |s|
    ensures r == [] <==> AllWs(s)
    ensures r == [] || (!IsWs(r[0]) && !IsWs(r[|r| - 1]))
  {
    var t := TrimStart(s);
    assert AllWs(s) ==> t == [];
    TrimEnd(t)
  }

  /** `trim` removes exactly the leading and trailing whitespace: the result is the part
      of `s` between a whitespace prefix and a whitespace suffix. */
  lemma TrimInfix(s: string)
    ensures exists a, b :: 0 <= a <= b <= |s| && Trim(s) == s[a..b] && AllWs(s[..a]) && AllWs(s[b..])
  {
    var a, b := TrimBounds(s);
    assert Trim(s) == TrimEnd(TrimStart(s));
  }

  /** Where `trimStart` and then `trimEnd` cut `s`. */
  lemma TrimBounds(s: string) returns (a: nat, b: nat)
    ensures a <= b <= |s|
    ensures TrimEnd(TrimStart(s)) == s[a..b]
    ensures AllWs(s[..a]) && AllWs(s[b..])
  {
    var t := TrimStart(s);
    var r := TrimEnd(t);
    a, b := |s| - |t|, |s| - |t| + |r|;
    assert r == s[a..b] && AllWs(s[..a]) && AllWs(s[b..]) by {
      CutsCompose(s, t, r);
    }
  }

  /** A suffix `t` of `s` after whitespace, cut to a prefix `r` before whitespace, is a
      slice of `s` between a whitespace prefix and a whitespace suffix. */
  lemma CutsCompose(s: string, t: string, r: string)
    requires |t| <= |s| && t == s[|s| - |t|..] && forall i :: 0 <= i < |s| - |t| ==> IsWs(s[i])
    requires |r| <= |t| && r == t[..|r|] && forall i :: |r| <= i < |t| ==> IsWs(t[i])
    ensures var a := |s| - |t|;
      r == s[a..a + |r|] && AllWs(s[..a]) && AllWs(s[a + |r|..])
  {
    var a := |s| - |t|;
    var u := s[a + |r|..];
    forall i | 0 <= i < |u| ensures IsWs(u[i]) {
      assert u[i] == t[|r| + i];
    }
  }

  /** Text after a non-blank prefix plays no part in `trimStart`. */
  lemma {:induction false} TrimStartAppend(x: string, y: string)
    requires !AllWs(x)
    ensures TrimStart(x + y) == TrimStart(x) + y
  {
    if IsWs(x[0]) {
      assert (x + y)[1..] == x[1..] + y;
      TrimStartAppend(x[1..], y);
    }
  }

  /** Text before a non-blank suffix plays no part in `trimEnd`. */
  lemma {:induction false} TrimEndPrepend(x: string, y: string)
    requires !AllWs(y)
    ensures TrimEnd(x + y) == x + TrimEnd(y)
  {
    if IsWs(y[|y| - 1]) {
      assert (x + y)[..|x + y| - 1] == x + y[..|y| - 1];
      TrimEndPrepend(x, y[..|y| - 1]);
    }
  }

  /** Trimming twice is trimming once. */
  lemma TrimIdempotent(s: string)
    ensures Trim(Trim(s)) == Trim(s)
  {
    var r := Trim(s);
    if r != [] {
      assert TrimStart(r) == r;
      assert TrimEnd(r) == r;
    }
  }

  /** `s.startsWith(p)`. */
  predicate StartsWith(s: string, p: string)
  {
    |p| <= |s| && s[..|p|] == p
  }

  /** `t` occurs in `s` at position `i`. */
  predicate OccursAt(s: string, t: string, i: nat)
  {
    i + |t| <= |s| && s[i..i + |t|] == t
  }

  /** `s.indexOf(t)`: the first position where `t` occurs, if any. */
  function IndexOf(s: string, t: string): (r: Option<nat>)
    ensures r.Some? ==> OccursAt(s, t, r.value) && forall j :: 0 <= j < r.value ==> !OccursAt(s, t, j)
    ensures r.None? ==> forall j: nat :: !OccursAt(s, t, j)
  {
    IndexFrom(s, t, 0)
  }

  function IndexFrom(s: string, t: string, k: nat): (r: Option<nat>)
    requires k <= |s|
    ensures r.Some? ==> k <= r.value && OccursAt(s, t, r.value)
    ensures r.Some? ==> forall j :: k <= j < r.value ==> !OccursAt(s, t, j)
    ensures r.None? ==> forall j: nat :: k <= j ==> !OccursAt(s, t, j)
    decreases |s| - k
  {
    if OccursAt(s, t, k) then Some(k)
    else if k + |t| >= |s| then
      assert forall j: nat :: k <= j ==> !OccursAt(s, t, j) by {
        forall j: nat | k < j ensures !OccursAt(s, t, j) {}
      }
      None
    else IndexFrom(s, t, k + 1)
  }

  /** `s.includes(t)`. */
  predicate Contains(s: string, t: string)
  {
    IndexOf(s, t).Some?
  }

  /** `s.replace(pat, rep)` with a string pattern: only the first occurrence is
      replaced; the replacement is taken literally (it holds no `$` pattern). */
  function ReplaceFirst(s: string, pat: string, rep: string): (r: string)
    ensures (forall j: nat :: !OccursAt(s, pat, j)) ==> r == s
    ensures forall i: nat :: OccursAt(s, pat, i) && (forall j :: 0 <= j < i ==> !OccursAt(s, pat, j)) ==>
      r == s[..i] + rep + s[i + |pat|..]
  {
    match IndexOf(s, pat)
    case None => s
    case Some(i) => s[..i] + rep + s[i + |pat|..]
  }

  /** ASCII `toLowerCase`. */
  function LowerChar(c: char): (r: char)
    ensures 'A' <= c <= 'Z' ==> 'a' <= r <= 'z' && r as int == c as int + 32
    ensures !('A' <= c <= 'Z') ==> r == c
  {
    if 'A' <= c <= 'Z' then (c as int + 32) as char else c
  }

  function Lower(s: string): (r: string)
    ensures |r| == |s|
    ensures forall i :: 0 <= i < |s| ==> r[i] == LowerChar(s[i])
  {
    seq(|s|, i requires 0 <= i < |s| => LowerChar(s[i]))
  }

  /** `s.split(sep)` for a one-character separator: at least one part, no part holds
      the separator, and joining the parts with it gives `s` back. */
  function Split(s: string, sep: char): (r: seq<string>)
    ensures |r| >= 1
    ensures forall k :: 0 <= k < |r| ==> sep !in r[k]
    ensures Join(r, sep) == s
  {
    if s == [] then [""]
    else if s[0] == sep then
      var t := Split(s[1..], sep);
      assert s == [sep] + s[1..];
      [""] + t
    else
      var t := Split(s[1..], sep);
      var r := [[s[0]] + t[0]] + t[1..];
      assert s == [s[0]] + s[1..];
      assert |t| > 1 ==> Join(r, sep) == [s[0]] + t[0] + [sep] + Join(t[1..], sep);
      r
  }

  /** `parts.join(sep)`. */
  function Join(parts: seq<string>, sep: char): string
  {
    if |parts| == 0 then ""
    else if |parts| == 1 then parts[0]
    else parts[0] + [sep] + Join(parts[1..], sep)
  }

  /** The other direction of the round trip: splitting a join of separator-free parts
      gives the parts back. */
  lemma {:induction false} SplitJoin(parts: seq<string>, sep: char)
    requires |parts| >= 1
    requires forall k :: 0 <= k < |parts| ==> sep !in parts[k]
    ensures Split(Join(parts, sep), sep) == parts
    decreases |parts|, |parts[0]|
  {
    var p := parts[0];
    if p == [] {
      if |parts| > 1 {
        var rest := Join(parts[1..], sep);
        assert Join(parts, sep) == [sep] + rest;
        SplitCons(sep, rest, sep);
        SplitJoin(parts[1..], sep);
        assert parts == [""] + parts[1..];
      }
    } else {
      var parts' := [p[1..]] + parts[1..];
      assert forall k :: 0 <= k < |parts'| ==> sep !in parts'[k] by {
        assert forall c :: c in p[1..] ==> c in p;
      }
      SplitJoin(parts', sep);
      assert p[0] != sep by { assert p[0] in p; }
      JoinHead(parts, sep);
      SplitCons(p[0], Join(parts', sep), sep);
      assert [p[0]] + p[1..] == p;
      assert parts == [p] + parts'[1..];
    }
  }

  /** Splitting a string by its first character. */
  lemma SplitCons(c: char, rest: string, sep: char)
    ensures var t := Split(rest, sep);
      Split([c] + rest, sep) == if c == sep then [""] + t else [[c] + t[0]] + t[1..]
  {
    assert ([c] + rest)[1..] == rest;
  }

  /** Joining parts whose first part is non-empty starts with that part's first character. */
  lemma JoinHead(parts: seq<string>, sep: char)
    requires |parts| >= 1 && parts[0] != []
    ensures Join(parts, sep) == [parts[0][0]] + Join([parts[0][1..]] + parts[1..], sep)
  {
    var p := parts[0];
    var parts' := [p[1..]] + parts[1..];
    assert parts'[1..] == parts[1..];
    if |parts| > 1 {
      assert Join(parts', sep) == p[1..] + [sep] + Join(parts[1..], sep);
      assert p == [p[0]] + p[1..];
      assert Join(parts, sep) == ([p[0]] + p[1..]) + [sep] + Join(parts[1..], sep);
    } else {
      assert p == [p[0]] + p[1..];
    }
  }

  /** Splitting a concatenation: the complete parts of `x`, then the split of `x`'s last
      (unterminated) part followed by `y`. This is why reading a stream in pieces and
      splitting each time, carrying the last part over, sees the same lines as splitting
      the whole text once. */
  lemma {:induction false} SplitAppend(x: string, y: string, sep: char)
    ensures var px := Split(x, sep);
      Split(x + y, sep) == px[..|px| - 1] + Split(px[|px| - 1] + y, sep)
  {
    var px := Split(x, sep);
    if x == [] {
      assert x + y == y;
      assert px[|px| - 1] + y == y;
    } else {
      var c, x' := x[0], x[1..];
      assert x == [c] + x';
      assert x + y == [c] + (x' + y);
      SplitAppend(x', y, sep);
      SplitCons(c, x', sep);
      SplitCons(c, x' + y, sep);
      var pt := Split(x', sep);
      var tail := Split(pt[|pt| - 1] + y, sep);
      if c == sep {
        assert px[..|px| - 1] == [""] + pt[..|pt| - 1];
        assert px[|px| - 1] == pt[|pt| - 1];
        Seqs.ConcatAssoc([""], pt[..|pt| - 1], tail);
      } else if |pt| == 1 {
        assert pt[0] == x';
        assert px == [x];
        assert px[..0] == [];
        assert [] + Split(x + y, sep) == Split(x + y, sep);
      } else {
        SplitAppendStep(c, pt, tail);
      }
    }
  }

  /** The list bookkeeping of the inductive step of `SplitAppend`, for a first character
      that is not the separator and a tail with several parts. */
  lemma SplitAppendStep(c: char, pt: seq<string>, tail: seq<string>)
    requires |pt| > 1
    ensures var t := pt[..|pt| - 1] + tail;
      var px := [[c] + pt[0]] + pt[1..];
      [[c] + t[0]] + t[1..] == px[..|px| - 1] + tail
  {
    var t := pt[..|pt| - 1] + tail;
    assert t[0] == pt[0];
    assert t[1..] == pt[1..|pt| - 1] + tail;
    var px := [[c] + pt[0]] + pt[1..];
    assert px[..|px| - 1] == [[c] + pt[0]] + pt[1..|pt| - 1];
  }

  /** Decimal rendering of a non-negative number (`${n}`): digits only, no leading
      zero, and they read back as `n`. */
  function NatToString(n: nat): (r: string)
    ensures |r| >= 1
    ensures forall k :: 0 <= k < |r| ==> '0' <= r[k] <= '9'
    ensures |r| > 1 ==> r[0] != '0'
    ensures DecimalValue(r) == n
  {
    if n < 10 then [DigitChar(n)]
    else
      var front := NatToString(n / 10);
      var r := front + [DigitChar(n % 10)];
      assert r[..|r| - 1] == front;
      r
  }

  /** The number a string of decimal digits denotes, most significant digit first. */
  function DecimalValue(s: string): nat
    requires forall k :: 0 <= k < |s| ==> '0' <= s[k] <= '9'
  {
    if s == [] then 0 else DecimalValue(s[..|s| - 1]) * 10 + (s[|s| - 1] as int - '0' as int)
  }

  function DigitChar(d: nat): (c: char)
    requires d < 10
    ensures '0' <= c <= '9'
  {
    ('0' as int + d) as char
  }

  /** A string with whitespace neither at its start nor at its end is its own trim. */
  lemma TrimmedIsTrim(s: string)
    requires s == [] || (!IsWs(s[0]) && !IsWs(s[|s| - 1]))
    ensures Trim(s) == s
  {
    assert TrimStart(s) == s;
    assert TrimEnd(s) == s;
  }

  /** Leading whitespace before a trimmed word is all that `trim` removes. */
  lemma {:induction false} TrimPadded(pad: string, w: string)
    requires AllWs(pad) && w != [] && !IsWs(w[0]) && !IsWs(w[|w| - 1])
    ensures Trim(pad + w) == w
  {
    TrimStartPadded(pad, w);
    assert TrimEnd(w) == w;
  }

  lemma {:induction false} TrimStartPadded(pad: string, w: string)
    requires AllWs(pad) && w != [] && !IsWs(w[0])
    ensures TrimStart(pad + w) == w
  {
    if pad != [] {
      assert (pad + w)[1..] == pad[1..] + w;
      TrimStartPadded(pad[1..], w);
    } else {
      assert pad + w == w;
    }
  }

  /** `s.replace(/\s+/g, ' ')`: every maximal run of whitespace becomes one space. The
      result keeps whether the string starts and ends with whitespace, holds no
      whitespace other than a space, and no two whitespace characters in a row. */
  function CollapseWs(s: string): (r: string)
    ensures |r| <= |s|
    ensures r == [] <==> s == []
    ensures r != [] ==> (IsWs(r[0]) <==> IsWs(s[0])) && (IsWs(r[|r| - 1]) <==> IsWs(s[|s| - 1]))
    ensures forall i :: 0 <= i < |r| && IsWs(r[i]) ==> r[i] == ' '
    ensures forall i :: 0 <= i < |r| - 1 ==> !(IsWs(r[i]) && IsWs(r[i + 1]))
    decreases |s|
  {
    if s == [] then []
    else if IsWs(s[0]) then
      var t := TrimStart(s[1..]);
      assert t != [] ==> t[|t| - 1] == s[|s| - 1];
      [' '] + CollapseWs(t)
    else
      [s[0]] + CollapseWs(s[1..])
  }

  /** A whitespace run between two words becomes exactly one space: collapsing the
      whole is collapsing each side and joining them with `' '`. */
  lemma CollapseRun(u: string, w: string, v: string)
    requires u != [] && !IsWs(u[|u| - 1])
    requires w != [] && AllWs(w)
    requires v != [] && !IsWs(v[0])
    ensures CollapseWs(u + w + v) == CollapseWs(u) + " " + CollapseWs(v)
  {
    Seqs.ConcatAssoc(u, w, v);
    CollapseAppend(u, w + v);
    CollapseSpaces(w, v);
    Seqs.ConcatAssoc(CollapseWs(u), " ", CollapseWs(v));
  }

  /** Collapsing splits at a word character: the text after it is collapsed on its own. */
  lemma {:induction false} CollapseAppend(x: string, y: string)
    requires x != [] && !IsWs(x[|x| - 1])
    ensures CollapseWs(x + y) == CollapseWs(x) + CollapseWs(y)
    decreases |x|
  {
    HeadTail(x);
    if !IsWs(x[0]) {
      if |x| == 1 {
        CollapseWord(x[0], []);
        CollapseWord(x[0], y);
      } else {
        CollapseAppend(x[1..], y);
        AppendWord(x[0], x[1..], y);
      }
    } else {
      var t := TrimStart(x[1..]);
      TrimStartLast(x[1..]);
      CollapseAppend(t, y);
      AppendSpace(x, y);
    }
  }

  lemma HeadTail<T>(x: seq<T>)
    requires x != []
    ensures x == [x[0]] + x[1..]
    ensures |x| > 1 ==> x[1..][|x| - 2] == x[|x| - 1]
  {
  }

  /** The step of `CollapseAppend` at a leading word character. */
  lemma AppendWord(c: char, z: string, y: string)
    requires !IsWs(c)
    requires CollapseWs(z + y) == CollapseWs(z) + CollapseWs(y)
    ensures CollapseWs([c] + z + y) == CollapseWs([c] + z) + CollapseWs(y)
  {
    Seqs.ConcatAssoc([c], z, y);
    CollapseWord(c, z);
    CollapseWord(c, z + y);
    Seqs.ConcatAssoc([c], CollapseWs(z), CollapseWs(y));
  }

  /** The step of `CollapseAppend` at a leading whitespace run. */
  lemma AppendSpace(x: string, y: string)
    requires |x| > 1 && IsWs(x[0]) && !IsWs(x[|x| - 1])
    requires var t := TrimStart(x[1..]); CollapseWs(t + y) == CollapseWs(t) + CollapseWs(y)
    ensures CollapseWs(x + y) == CollapseWs(x) + CollapseWs(y)
  {
    LeadingRun(x, y);
    CollapseWsHead(x);
    var t := TrimStart(x[1..]);
    Seqs.ConcatAssoc([' '], CollapseWs(t), CollapseWs(y));
  }

  /** Collapsing a string that starts with a non-whitespace character. */
  lemma CollapseWord(c: char, x: string)
    requires !IsWs(c)
    ensures CollapseWs([c] + x) == [c] + CollapseWs(x)
  {
    assert ([c] + x)[1..] == x;
  }

  /** A whitespace run in front of a word becomes one space. */
  lemma CollapseSpaces(w: string, v: string)
    requires w != [] && AllWs(w) && v != [] && !IsWs(v[0])
    ensures CollapseWs(w + v) == [' '] + CollapseWs(v)
  {
    assert (w + v)[1..] == w[1..] + v;
    TrimStartPadded(w[1..], v);
  }

  /** A string that starts with whitespace and holds a word collapses its leading run to
      one space, whatever follows. */
  lemma LeadingRun(u: string, y: string)
    requires |u| > 1 && IsWs(u[0]) && !IsWs(u[|u| - 1])
    ensures CollapseWs(u + y) == [' '] + CollapseWs(TrimStart(u[1..]) + y)
  {
    var x := u[1..];
    assert !IsWs(x[|x| - 1]);
    TrimStartAppend(x, y);
    CollapseWsHeadAppend(u, y);
  }

  lemma CollapseWsHeadAppend(u: string, y: string)
    requires |u| > 1 && IsWs(u[0])
    ensures CollapseWs(u + y) == [' '] + CollapseWs(TrimStart(u[1..] + y))
  {
    var s := u + y;
    assert s[0] == u[0] && s[1..] == u[1..] + y;
    CollapseWsHead(s);
  }

  /** `trimStart` keeps a final non-whitespace character. */
  lemma TrimStartLast(x: string)
    requires x != [] && !IsWs(x[|x| - 1])
    ensures var t := TrimStart(x); t != [] && t[|t| - 1] == x[|x| - 1] && |t| <= |x|
  {
  }

  /** One unfolding of `CollapseWs` at a leading whitespace character. */
  lemma CollapseWsHead(s: string)
    requires s != [] && IsWs(s[0])
    ensures CollapseWs(s) == [' '] + CollapseWs(TrimStart(s[1..]))
  {
  }

  predicate NotWs(c: char) { !IsWs(c) }

  /** Collapsing keeps every non-whitespace character, in order. */
  lemma {:induction false} CollapseKeepsWords(s: string)
    ensures Seqs.Filter(CollapseWs(s), NotWs) == Seqs.Filter(s, NotWs)
    decreases |s|
  {
    if s != [] {
      var r := CollapseWs(s);
      if IsWs(s[0]) {
        var t := TrimStart(s[1..]);
        CollapseKeepsWords(t);
        TrimStartKeepsWords(s[1..]);
        assert r[1..] == CollapseWs(t);
      } else {
        CollapseKeepsWords(s[1..]);
        assert r[1..] == CollapseWs(s[1..]);
      }
    }
  }

  lemma {:induction false} TrimStartKeepsWords(s: string)
    ensures Seqs.Filter(TrimStart(s), NotWs) == Seqs.Filter(s, NotWs)
  {
    if |s| > 0 && IsWs(s[0]) {
      TrimStartKeepsWords(s[1..]);
    }
  }

  /** Whitespace is already collapsed: only spaces, never two in a row. */
  predicate IsCollapsed(s: string)
  {
    && (forall i :: 0 <= i < |s| && IsWs(s[i]) ==> s[i] == ' ')
    && (forall i :: 0 <= i < |s| - 1 ==> !(IsWs(s[i]) && IsWs(s[i + 1])))
  }

  /** The tail of a collapsed string is collapsed, and a leading space is not followed
      by whitespace. */
  lemma CollapsedTail(s: string)
    requires s != [] && IsCollapsed(s)
    ensures IsCollapsed(s[1..])
    ensures IsWs(s[0]) ==> s[0] == ' ' && (s[1..] == [] || !IsWs(s[1..][0]))
  {
    var t := s[1..];
    forall i | 0 <= i < |t| - 1
      ensures !(IsWs(t[i]) && IsWs(t[i + 1]))
    {
      assert t[i] == s[i + 1] && t[i + 1] == s[i + 2];
    }
    if IsWs(s[0]) && t != [] {
      assert t[0] == s[1];
    }
  }

  /** Collapsing an already collapsed string changes nothing. */
  lemma {:induction false} CollapseFixed(s: string)
    requires IsCollapsed(s)
    ensures CollapseWs(s) == s
    decreases |s|
  {
    if s != [] {
      CollapsedTail(s);
      CollapseFixed(s[1..]);
      assert s == [s[0]] + s[1..];
    }
  }
}
