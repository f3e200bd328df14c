/** The prompt slice of the store: the saved prompts, the selection, the list filters
    and the loading flags, updated in place by its reducers. `Date.now()` is the
    parameter `now`; `PromptService.savePrompts` and `clearPrompts` are recorded in the
    ghost snapshot `saved` (`None` once the stored list is removed). */
module PromptSlice {
  import opened Wrappers
  import opened Seqs
  import opened Types

  /** `PromptCategory | 'all'`. */
  datatype CategoryFilter = AllCategories | Only(category: PromptCategory)

  /** `toggleFavorite` on the prompt found (lines 66-68). */
  function Toggled(p: Prompt, now: int): (r: Prompt)
    ensures r.isFavorite == !p.isFavorite && r.updateTime == now
    ensures r.(isFavorite := p.isFavorite, updateTime := p.updateTime) == p
  {
    p.(isFavorite := !p.isFavorite, updateTime := now)
  }

  /** Toggling twice restores the favourite flag and leaves only the later stamp. */
  lemma ToggleTwice(p: Prompt, t1: int, t2: int)
    ensures Toggled(Toggled(p, t1), t2) == p.(updateTime := t2)
  {
  }

  /** `incrementUseCount` on the prompt found (lines 74-76). */
  function Used(p: Prompt, now: int): (r: Prompt)
    ensures r.useCount == p.useCount + 1 && r.updateTime == now
    ensures r.(useCount := p.useCount, updateTime := p.updateTime) == p
  {
    p.(useCount := p.useCount + 1, updateTime := now)
  }

  /** `{ ...payload, updateTime: now }` (lines 47-50). */
  function Stamped(p: Prompt, now: int): (r: Prompt)
    ensures r.updateTime == now && r.(updateTime := p.updateTime) == p
  {
    p.(updateTime := now)
  }

  /** The element at `findIndex`, changed: the list is otherwise the same. */
  function ReplacedAt(prompts: seq<Prompt>, id: string, x: Prompt): (r: seq<Prompt>)
    ensures |r| == |prompts|
    ensures FirstIndex(prompts, PromptKey, id).None? ==> r == prompts
    ensures FirstIndex(prompts, PromptKey, id).Some? ==>
      var i := FirstIndex(prompts, PromptKey, id).value;
      r[i] == x && forall k :: 0 <= k < |prompts| && k != i ==> r[k] == prompts[k]
  {
    match FirstIndex(prompts, PromptKey, id)
    case None => prompts
    case Some(i) => prompts[i := x]
  }

  /** The prompts after `incrementUseCount`: the first prompt with the id is used once
      more and stamped; no other prompt changes. */
  function IncrementedIn(prompts: seq<Prompt>, id: string, now: int): (r: seq<Prompt>)
    ensures |r| == |prompts|
    ensures FirstIndex(prompts, PromptKey, id).None? ==> r == prompts
    ensures FirstIndex(prompts, PromptKey, id).Some? ==>
      var i := FirstIndex(prompts, PromptKey, id).value;
      && r[i].useCount == prompts[i].useCount + 1
      && r[i] == prompts[i].(useCount := prompts[i].useCount + 1, updateTime := now)
      && forall k :: 0 <= k < |prompts| && k != i ==> r[k] == prompts[k]
  {
    match FirstIndex(prompts, PromptKey, id)
    case None => prompts
    case Some(i) => prompts[i := Used(prompts[i], now)]
  }

  /** `prompts.filter(p => p.id !== id)`. */
  function WithoutPrompt(prompts: seq<Prompt>, id: string): (r: seq<Prompt>)
    ensures forall k :: 0 <= k < |r| ==> r[k].id != id && r[k] in prompts
    ensures forall p :: p in prompts && p.id != id ==> p in r
    ensures IsSubsequence(r, prompts)
  {
    var r := Filter(prompts, (p: Prompt) => p.id != id);
    FilterSpec(prompts, (p: Prompt) => p.id != id);
    r
  }

  /** Removing a prompt that was just added, under an id no other prompt has, gives
      the list back. */
  lemma RemoveAfterAdd(prompts: seq<Prompt>, p: Prompt)
    requires forall k :: 0 <= k < |prompts| ==> prompts[k].id != p.id
    ensures WithoutPrompt([p] + prompts, p.id) == prompts
  {
    FilterKeepsAll(prompts, (x: Prompt) => x.id != p.id);
    assert ([p] + prompts)[1..] == prompts;
  }

  /** An update keeps the list's ids, so a second update of the same id finds the same
      prompt and replaces the first one. */
  lemma UpdateTwice(prompts: seq<Prompt>, x: Prompt, y: Prompt)
    requires x.id == y.id
    ensures ReplacedAt(ReplacedAt(prompts, x.id, x), y.id, y) == ReplacedAt(prompts, y.id, y)
  {
    if FirstIndex(prompts, PromptKey, x.id).Some? {
      FirstIndexReplace(prompts, PromptKey, x.id, x);
    }
  }

  class PromptStore {
    var prompts: seq<Prompt>
    var selectedPromptId: Option<string>
    var selectedCategory: CategoryFilter
    var searchQuery: string
    var sortBy: SortBy
    var isLoading: bool
    var error: Option<string>
    /** What the prompt storage holds after this store's last write. */
    ghost var saved: Option<seq<Prompt>>

    /** Lines 15-23. */
    constructor ()
      ensures prompts == [] && selectedPromptId == None && selectedCategory == AllCategories
      ensures searchQuery == "" && sortBy == UpdateTime && !isLoading && error == None
      ensures saved == None
    {
      prompts, selectedPromptId, selectedCategory := [], None, AllCategories;
      searchQuery, sortBy, isLoading, error := "", UpdateTime, false, None;
      saved := None;
    }

    /** Every field but the prompt list and the snapshot is as before. */
    twostate predicate KeepsSettings()
      reads this
    {
      && selectedPromptId == old(selectedPromptId) && selectedCategory == old(selectedCategory)
      && searchQuery == old(searchQuery) && sortBy == old(sortBy)
      && isLoading == old(isLoading) && error == old(error)
    }

    /** Lines 29-31. */
    method SetLoading(value: bool)
      modifies this
      ensures isLoading == value
      ensures prompts == old(prompts) && saved == old(saved) && selectedPromptId == old(selectedPromptId)
      ensures selectedCategory == old(selectedCategory) && searchQuery == old(searchQuery)
      ensures sortBy == old(sortBy) && error == old(error)
    {
      isLoading := value;
    }

    /** Lines 32-34. */
    method SetError(value: Option<string>)
      modifies this
      ensures error == value
      ensures prompts == old(prompts) && saved == old(saved) && selectedPromptId == old(selectedPromptId)
      ensures selectedCategory == old(selectedCategory) && searchQuery == old(searchQuery)
      ensures sortBy == old(sortBy) && isLoading == old(isLoading)
    {
      error := value;
    }

    /** Lines 35-39: the list is replaced, the error cleared and the list saved. */
    method LoadPrompts(list: seq<Prompt>)
      modifies this
      ensures prompts == list && error == None && saved == Some(list)
      ensures selectedPromptId == old(selectedPromptId) && selectedCategory == old(selectedCategory)
      ensures searchQuery == old(searchQuery) && sortBy == old(sortBy) && isLoading == old(isLoading)
    {
      prompts := list;
      error := None;
      saved := Some(list);
    }

    /** Lines 40-43: the new prompt goes first. */
    method AddPrompt(prompt: Prompt)
      modifies this
      ensures prompts == [prompt] + old(prompts) && saved == Some(prompts)
      ensures KeepsSettings()
    {
      prompts := [prompt] + prompts;
      saved := Some(prompts);
    }

    /** Lines 44-53: the first prompt with the payload's id is replaced by the payload,
        stamped; a missing id changes nothing and saves nothing. */
    method UpdatePrompt(prompt: Prompt, now: int)
      modifies this
      ensures prompts == ReplacedAt(old(prompts), prompt.id, Stamped(prompt, now))
      ensures saved == if FirstIndex(old(prompts), PromptKey, prompt.id).Some? then Some(prompts) else old(saved)
      ensures KeepsSettings()
    {
      var index := FirstIndex(prompts, PromptKey, prompt.id);
      if index.Some? {
        prompts := prompts[index.value := Stamped(prompt, now)];
        saved := Some(prompts);
      }
    }

    /** Lines 54-60: every prompt with the id goes; the selection is cleared exactly
        when it was that id. */
    method RemovePrompt(id: string)
      modifies this
      ensures prompts == WithoutPrompt(old(prompts), id) && saved == Some(prompts)
      ensures selectedPromptId == if old(selectedPromptId) == Some(id) then None else old(selectedPromptId)
      ensures selectedCategory == old(selectedCategory) && searchQuery == old(searchQuery)
      ensures sortBy == old(sortBy) && isLoading == old(isLoading) && error == old(error)
    {
      prompts := WithoutPrompt(prompts, id);
      if selectedPromptId == Some(id) {
        selectedPromptId := None;
      }
      saved := Some(prompts);
    }

    /** Lines 61-63. */
    method SelectPrompt(id: Option<string>)
      modifies this
      ensures selectedPromptId == id
      ensures prompts == old(prompts) && saved == old(saved)
      ensures selectedCategory == old(selectedCategory) && searchQuery == old(searchQuery)
      ensures sortBy == old(sortBy) && isLoading == old(isLoading) && error == old(error)
    {
      selectedPromptId := id;
    }

    /** Lines 64-71. */
    method ToggleFavorite(id: string, now: int)
      modifies this
      ensures match FirstIndex(old(prompts), PromptKey, id)
        case None => prompts == old(prompts) && saved == old(saved)
        case Some(i) => prompts == old(prompts)[i := Toggled(old(prompts)[i], now)] && saved == Some(prompts)
      ensures KeepsSettings()
    {
      var index := FirstIndex(prompts, PromptKey, id);
      if index.Some? {
        prompts := prompts[index.value := Toggled(prompts[index.value], now)];
        saved := Some(prompts);
      }
    }

    /** Lines 72-79. */
    method IncrementUseCount(id: string, now: int)
      modifies this
      ensures prompts == IncrementedIn(old(prompts), id, now)
      ensures saved == if FirstIndex(old(prompts), PromptKey, id).Some? then Some(prompts) else old(saved)
      ensures KeepsSettings()
    {
      var index := FirstIndex(prompts, PromptKey, id);
      if index.Some? {
        prompts := prompts[index.value := Used(prompts[index.value], now)];
        saved := Some(prompts);
      }
    }

    /** Lines 80-82. */
    method SelectCategory(category: CategoryFilter)
      modifies this
      ensures selectedCategory == category
      ensures prompts == old(prompts) && saved == old(saved) && selectedPromptId == old(selectedPromptId)
      ensures searchQuery == old(searchQuery) && sortBy == old(sortBy)
      ensures isLoading == old(isLoading) && error == old(error)
    {
      selectedCategory := category;
    }

    /** Lines 83-85. */
    method SetSearchQuery(query: string)
      modifies this
      ensures searchQuery == query
      ensures prompts == old(prompts) && saved == old(saved) && selectedPromptId == old(selectedPromptId)
      ensures selectedCategory == old(selectedCategory) && sortBy == old(sortBy)
      ensures isLoading == old(isLoading) && error == old(error)
    {
      searchQuery := query;
    }

    /** Lines 86-88. */
    method SetSortBy(order: SortBy)
      modifies this
      ensures sortBy == order
      ensures prompts == old(prompts) && saved == old(saved) && selectedPromptId == old(selectedPromptId)
      ensures selectedCategory == old(selectedCategory) && searchQuery == old(searchQuery)
      ensures isLoading == old(isLoading) && error == old(error)
    {
      sortBy := order;
    }

    /** Lines 89-94: no prompts, no selection, no error, and the stored list removed. */
    method ClearPrompts()
      modifies this
      ensures prompts == [] && selectedPromptId == None && error == None && saved == None
      ensures selectedCategory == old(selectedCategory) && searchQuery == old(searchQuery)
      ensures sortBy == old(sortBy) && isLoading == old(isLoading)
    {
      prompts, selectedPromptId, error := [], None, None;
      saved := None;
    }
  }
}
