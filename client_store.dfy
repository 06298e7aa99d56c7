/** The web client's memory-list store: the cached list of memories, its
    total, the current page, the search text, the selected tags, a loading
    flag and an error. Every action overwrites some of these fields and
    leaves the others as they were. */
module ClientStore {
  import opened Common

  /** A snapshot of all the store's fields. */
  datatype StoreState = StoreState(
    memories: seq<Memory>,
    totalMemories: int,
    currentPage: int,
    searchQuery: string,
    selectedTags: seq<string>,
    isLoading: bool,
    error: Option<string>)

  const InitialState := StoreState([], 0, 1, "", [], false, None)

  /** Entries with the id get the updates merged over them; the others, and
      the length and order of the list, stay as they were. */
  function UpdateById(ms: seq<Memory>, id: string, updates: MemoryPatch): (r: seq<Memory>)
    ensures |r| == |ms|
    ensures forall i :: 0 <= i < |ms| && ms[i].id == id ==> r[i] == Patch(ms[i], updates)
    ensures forall i :: 0 <= i < |ms| && ms[i].id != id ==> r[i] == ms[i]
  {
    if ms == [] then []
    else [if ms[0].id == id then Patch(ms[0], updates) else ms[0]] + UpdateById(ms[1..], id, updates)
  }

  /** Every entry with the id is dropped; the rest keep their order. */
  function RemoveById(ms: seq<Memory>, id: string): (r: seq<Memory>)
    ensures forall m :: m in r ==> m in ms && m.id != id
    ensures forall m :: m in ms && m.id != id ==> m in r
    ensures IsSubsequence(r, ms)
    ensures forall m :: multiset(r)[m] == if m.id != id then multiset(ms)[m] else 0
  {
    var keep := (m: Memory) => m.id != id;
    FilterIsSubsequence(keep, ms);
    FilterMultiset(keep, ms);
    Filter(keep, ms)
  }

  /** Removing the id of a memory just added in front of a list that did not
      hold that id gives the list back. */
  lemma {:induction false} AddThenRemove(m: Memory, ms: seq<Memory>)
    requires forall x :: x in ms ==> x.id != m.id
    ensures RemoveById([m] + ms, m.id) == ms
  {
    var keep := (x: Memory) => x.id != m.id;
    assert ([m] + ms)[1..] == ms;
    FilterKeepsAll(keep, ms);
  }

  class MemoryStore {
    var memories: seq<Memory>
    var totalMemories: int
    var currentPage: int
    var searchQuery: string
    var selectedTags: seq<string>
    var isLoading: bool
    var error: Option<string>

    function State(): StoreState
      reads this
    {
      StoreState(memories, totalMemories, currentPage, searchQuery, selectedTags, isLoading, error)
    }

    constructor ()
      ensures State() == InitialState
    {
      memories, totalMemories, currentPage := [], 0, 1;
      searchQuery, selectedTags := "", [];
      isLoading, error := false, None;
    }

    method SetMemories(ms: seq<Memory>)
      modifies this
      ensures State() == old(State()).(memories := ms)
    {
      memories := ms;
    }

    /** The new memory goes first and the total grows by one. */
    method AddMemory(m: Memory)
      modifies this
      ensures |memories| == |old(memories)| + 1 && memories[0] == m && memories[1..] == old(memories)
      ensures State() == old(State()).(memories := [m] + old(memories), totalMemories := old(totalMemories) + 1)
    {
      memories := [m] + memories;
      totalMemories := totalMemories + 1;
    }

    /** Only the list changes; the total stays. */
    method UpdateMemory(id: string, updates: MemoryPatch)
      modifies this
      ensures State() == old(State()).(memories := UpdateById(old(memories), id, updates))
    {
      memories := UpdateById(memories, id, updates);
    }

    /** The total drops by exactly one even when no entry had the id. */
    method RemoveMemory(id: string)
      modifies this
      ensures State() == old(State()).(memories := RemoveById(old(memories), id), totalMemories := old(totalMemories) - 1)
    {
      memories := RemoveById(memories, id);
      totalMemories := totalMemories - 1;
    }

    method SetSearchQuery(query: string)
      modifies this
      ensures State() == old(State()).(searchQuery := query, currentPage := 1)
    {
      searchQuery, currentPage := query, 1;
    }

    method SetSelectedTags(tags: seq<string>)
      modifies this
      ensures State() == old(State()).(selectedTags := tags, currentPage := 1)
    {
      selectedTags, currentPage := tags, 1;
    }

    method SetCurrentPage(page: int)
      modifies this
      ensures State() == old(State()).(currentPage := page)
    {
      currentPage := page;
    }

    method SetLoading(loading: bool)
      modifies this
      ensures State() == old(State()).(isLoading := loading)
    {
      isLoading := loading;
    }

    method SetError(e: Option<string>)
      modifies this
      ensures State() == old(State()).(error := e)
    {
      error := e;
    }

    /** Back to the initial state, whatever the state was; so resetting
        twice is the same as resetting once. */
    method Reset()
      modifies this
      ensures State() == InitialState
    {
      memories, totalMemories, currentPage := [], 0, 1;
      searchQuery, selectedTags := "", [];
      isLoading, error := false, None;
    }
  }

  /** Adding a memory whose id the list does not hold and then removing that
      id restores the list and the total. */
  method AddThenRemoveRestores(store: MemoryStore, m: Memory)
    requires forall x :: x in store.memories ==> x.id != m.id
    modifies store
    ensures store.State() == old(store.State())
  {
    store.AddMemory(m);
    store.RemoveMemory(m.id);
    AddThenRemove(m, old(store.memories));
  }

  /** A second reset leaves the state the first one produced. */
  method ResetIdempotent(store: MemoryStore)
    modifies store
    ensures store.State() == InitialState
  {
    store.Reset();
    var once := store.State();
    store.Reset();
    assert store.State() == once;
  }
}
