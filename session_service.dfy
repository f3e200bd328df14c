/** `SessionService.generateSessionTitle`: the title derived from a session's first
    message. The storage methods of the service are not part of this model. */
module SessionService {
  import opened Text

  const MaxTitleLength: nat := 20
  const TitleEllipsis: string := "..."
  const DefaultTitle: string := "新对话"

  /** Trim, collapse every whitespace run to one space, cut to 20 characters with `...`
      appended when longer, and fall back to the default title when nothing is left. */
  function GenerateSessionTitle(firstMessage: string): (r: string)
    ensures AllWs(firstMessage) ==> r == DefaultTitle
    ensures |r| <= MaxTitleLength + |TitleEllipsis|
    ensures r != []
  {
    var title := CollapseWs(Trim(firstMessage));
    var title := if |title| > MaxTitleLength then title[..MaxTitleLength] + TitleEllipsis else title;
    if title == "" then DefaultTitle else title
  }

  /** A title is collapsed and trimmed: no whitespace at either end, only single spaces
      inside. */
  predicate IsCleanTitle(t: string)
  {
    && IsCollapsed(t)
    && (t == [] || (!IsWs(t[0]) && !IsWs(t[|t| - 1])))
  }

  /** For a message that is not blank, the title is its trimmed and collapsed text when
      that has at most 20 characters, and otherwise the first 20 of them followed by
      `...`. */
  lemma TitleShape(firstMessage: string)
    requires !AllWs(firstMessage)
    ensures var c := CollapseWs(Trim(firstMessage));
      && c != [] && IsCleanTitle(c)
      && (|c| <= MaxTitleLength ==> GenerateSessionTitle(firstMessage) == c)
      && (|c| > MaxTitleLength ==> GenerateSessionTitle(firstMessage) == c[..MaxTitleLength] + TitleEllipsis)
  {
  }

  /** Inside a message, a whitespace run between two words becomes exactly one space of
      the title text: the text of `u + w + v` is the text of `u`, a space, and the text
      of `v`. */
  lemma TitleCollapsesRun(u: string, w: string, v: string)
    requires u != [] && !IsWs(u[|u| - 1])
    requires w != [] && AllWs(w)
    requires v != [] && !IsWs(v[0])
    ensures CollapseWs(Trim(u + w + v)) == CollapseWs(Trim(u)) + " " + CollapseWs(Trim(v))
  {
    var u' := TrimStart(u);
    var v' := TrimEnd(v);
    assert !AllWs(u) && !AllWs(v);
    TrimStartAppend(u, w + v);
    Seqs.ConcatAssoc(u, w, v);
    Seqs.ConcatAssoc(u', w, v);
    TrimEndPrepend(u' + w, v);
    assert u' != [] && u'[|u'| - 1] == u[|u| - 1];
    assert TrimEnd(u') == u';
    assert Trim(u) == u';
    assert v' != [] && v'[0] == v[0];
    assert TrimStart(v) == v;
    assert Trim(v) == v';
    assert Trim(u + w + v) == u' + w + v';
    CollapseRun(u', w, v');
  }

  /** The trimmed and collapsed text keeps every non-whitespace character of the
      message, in order. */
  lemma TitleKeepsWords(firstMessage: string)
    ensures Seqs.Filter(CollapseWs(Trim(firstMessage)), NotWs) == Seqs.Filter(firstMessage, NotWs)
  {
    CollapseKeepsWords(Trim(firstMessage));
    TrimKeepsWords(firstMessage);
  }

  lemma TrimKeepsWords(s: string)
    ensures Seqs.Filter(Trim(s), NotWs) == Seqs.Filter(s, NotWs)
  {
    var t := TrimStart(s);
    TrimStartKeepsWords(s);
    TrimEndKeepsWords(t);
  }

  lemma {:induction false} TrimEndKeepsWords(s: string)
    ensures Seqs.Filter(TrimEnd(s), NotWs) == Seqs.Filter(s, NotWs)
    decreases |s|
  {
    if |s| > 0 && IsWs(s[|s| - 1]) {
      var front := s[..|s| - 1];
      TrimEndKeepsWords(front);
      assert s == front + [s[|s| - 1]];
      Seqs.FilterAppend(front, [s[|s| - 1]], NotWs);
      assert Seqs.Filter([s[|s| - 1]], NotWs) == [];
    }
  }

  /** A clean title of at most 20 characters is its own title, so a short generated
      title is a fixed point. */
  lemma CleanShortTitleFixed(t: string)
    requires IsCleanTitle(t) && 0 < |t| <= MaxTitleLength
    ensures GenerateSessionTitle(t) == t
  {
    TrimmedIsTrim(t);
    CollapseFixed(t);
  }

  lemma ShortTitleIdempotent(firstMessage: string)
    requires !AllWs(firstMessage) && |CollapseWs(Trim(firstMessage))| <= MaxTitleLength
    ensures GenerateSessionTitle(GenerateSessionTitle(firstMessage)) == GenerateSessionTitle(firstMessage)
  {
    TitleShape(firstMessage);
    CleanShortTitleFixed(GenerateSessionTitle(firstMessage));
  }
}
