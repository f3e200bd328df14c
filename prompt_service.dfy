/** `PromptService.sortPrompts` and `searchPrompts`. The storage methods of the
    service are not part of this model. */
module PromptService {
  import opened Seqs
  import opened Text
  import opened Types
  import opened StableSort

  /** The field the comparator `b.key - a.key` of lines 62-73 subtracts. */
  function SortKey(p: Prompt, sortBy: SortBy): int
  {
    match sortBy
    case UseCount => p.useCount
    case CreateTime => p.createTime
    case UpdateTime => p.updateTime
  }

  function SortRank(sortBy: SortBy): Prompt -> Rank
  {
    (p: Prompt) => Rank(SortKey(p, sortBy), 0)
  }

  /** Lines 61-74: a sorted copy, largest key first. */
  function SortPrompts(prompts: seq<Prompt>, sortBy: SortBy): (r: seq<Prompt>)
    ensures |r| == |prompts| && multiset(r) == multiset(prompts)
  {
    Sort(prompts, SortRank(sortBy))
  }

  /** Non-increasing by the chosen key, with equal keys in input order. */
  lemma SortPromptsSpec(prompts: seq<Prompt>, sortBy: SortBy, key: int)
    ensures var r := SortPrompts(prompts, sortBy);
      && (forall i, j :: 0 <= i < j < |r| ==> SortKey(r[i], sortBy) >= SortKey(r[j], sortBy))
      && OfRank(r, SortRank(sortBy), Rank(key, 0)) == OfRank(prompts, SortRank(sortBy), Rank(key, 0))
  {
    var r := SortPrompts(prompts, sortBy);
    SortDescending(prompts, SortRank(sortBy));
    SortStable(prompts, SortRank(sortBy), Rank(key, 0));
    forall i, j | 0 <= i < j < |r|
      ensures SortKey(r[i], sortBy) >= SortKey(r[j], sortBy)
    {
      assert !Above(SortRank(sortBy)(r[j]), SortRank(sortBy)(r[i]));
    }
  }

  /** `s.toLowerCase().includes(q)`. */
  predicate LowerContains(s: string, q: string)
  {
    Contains(Lower(s), q)
  }

  /** `tags.some(tag => tag.toLowerCase().includes(q))`. */
  predicate SomeTagContains(tags: seq<string>, q: string)
  {
    exists k :: 0 <= k < |tags| && LowerContains(tags[k], q)
  }

  /** The search of lines 55-57 for an already lower-cased query `q`. */
  predicate MatchesQuery(p: Prompt, q: string)
  {
    LowerContains(p.title, q) || LowerContains(p.content, q) || SomeTagContains(p.tags, q)
  }

  /** Lines 48-59: a blank query returns the list itself; otherwise the prompts whose
      title, content or a tag contains the lower-cased query (not trimmed), in order. */
  function SearchPrompts(prompts: seq<Prompt>, query: string): (r: seq<Prompt>)
    ensures AllWs(query) ==> r == prompts
    ensures IsSubsequence(r, prompts)
  {
    if Trim(query) == "" then
      SubsequenceRefl(prompts);
      prompts
    else
      var q := Lower(query);
      FilterSpec(prompts, (p: Prompt) => MatchesQuery(p, q));
      Filter(prompts, (p: Prompt) => MatchesQuery(p, q))
  }

  /** For a query that is not blank, a prompt is found exactly when it matches. */
  lemma SearchPromptsIff(prompts: seq<Prompt>, query: string, p: Prompt)
    requires !AllWs(query)
    ensures p in SearchPrompts(prompts, query) <==> p in prompts && MatchesQuery(p, Lower(query))
  {
    var q := Lower(query);
    FilterSpec(prompts, (x: Prompt) => MatchesQuery(x, q));
  }
}
