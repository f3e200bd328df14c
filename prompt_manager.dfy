/** `getFilteredAndSortedPrompts` of the prompt manager: the prompt list narrowed by
    the selected category and the search text, then sorted. */
module PromptManager {
  import opened Seqs
  import opened Text
  import opened Types
  import opened PromptSlice
  import opened PromptService

  predicate InCategory(p: Prompt, category: CategoryFilter)
  {
    category.AllCategories? || p.category == category.category
  }

  /** The prompts that survive both filters of lines 67-77: the query is applied only
      when it is not the empty string, so a query of spaces still filters. */
  predicate Kept(p: Prompt, category: CategoryFilter, searchQuery: string)
  {
    InCategory(p, category) && (searchQuery == "" || MatchesQuery(p, Lower(searchQuery)))
  }

  /** Lines 66-80. */
  function GetFilteredAndSortedPrompts(prompts: seq<Prompt>, category: CategoryFilter,
                                       searchQuery: string, sortBy: SortBy): (r: seq<Prompt>)
    ensures multiset(r) <= multiset(prompts)
    ensures category.AllCategories? && searchQuery == "" ==> multiset(r) == multiset(prompts)
  {
    var byCategory := if category.AllCategories? then prompts
      else Filter(prompts, (p: Prompt) => p.category == category.category);
    var filtered := if searchQuery != "" then
        Filter(byCategory, (p: Prompt) => MatchesQuery(p, Lower(searchQuery)))
      else byCategory;
    assert multiset(byCategory) <= multiset(prompts) by {
      if !category.AllCategories? {
        FilterMultiset(prompts, (p: Prompt) => p.category == category.category);
      }
    }
    FilterMultiset(byCategory, (p: Prompt) => MatchesQuery(p, Lower(searchQuery)));
    SortPrompts(filtered, sortBy)
  }

  /** The prompts kept, in input order. */
  function KeptInOrder(prompts: seq<Prompt>, category: CategoryFilter, searchQuery: string): seq<Prompt>
  {
    Filter(prompts, (p: Prompt) => Kept(p, category, searchQuery))
  }

  /** The result is a sorted rearrangement of exactly the prompts kept. */
  lemma {:induction false} FilteredAndSorted(prompts: seq<Prompt>, category: CategoryFilter,
                                            searchQuery: string, sortBy: SortBy)
    ensures var r := GetFilteredAndSortedPrompts(prompts, category, searchQuery, sortBy);
      && multiset(r) == multiset(KeptInOrder(prompts, category, searchQuery))
      && r == SortPrompts(KeptInOrder(prompts, category, searchQuery), sortBy)
  {
    var byCategory := if category.AllCategories? then prompts
      else Filter(prompts, (p: Prompt) => p.category == category.category);
    var inCategory := (p: Prompt) => InCategory(p, category);
    assert byCategory == Filter(prompts, inCategory) by {
      if category.AllCategories? {
        FilterKeepsAll(prompts, inCategory);
      } else {
        FilterSame(prompts, (p: Prompt) => p.category == category.category, inCategory);
      }
    }
    var matches := (p: Prompt) => searchQuery == "" || MatchesQuery(p, Lower(searchQuery));
    var filtered := if searchQuery != "" then
        Filter(byCategory, (p: Prompt) => MatchesQuery(p, Lower(searchQuery)))
      else byCategory;
    assert filtered == Filter(byCategory, matches) by {
      if searchQuery == "" {
        FilterKeepsAll(byCategory, matches);
      } else {
        FilterSame(byCategory, (p: Prompt) => MatchesQuery(p, Lower(searchQuery)), matches);
      }
    }
    FilterFilter(prompts, inCategory, matches, (p: Prompt) => Kept(p, category, searchQuery));
  }

  /** Every prompt of the result is one of the prompts, and a prompt is in the result
      exactly when it is kept. */
  lemma ResultMembers(prompts: seq<Prompt>, category: CategoryFilter, searchQuery: string,
                      sortBy: SortBy, p: Prompt)
    ensures p in GetFilteredAndSortedPrompts(prompts, category, searchQuery, sortBy)
        <==> p in prompts && Kept(p, category, searchQuery)
  {
    var kept := KeptInOrder(prompts, category, searchQuery);
    FilteredAndSorted(prompts, category, searchQuery, sortBy);
    FilterSpec(prompts, (x: Prompt) => Kept(x, category, searchQuery));
    assert p in multiset(kept) <==> p in kept;
  }
}
