/** The backend memory service: the record store with its create, update,
    delete and filtered listing, and the retrieval engine that joins
    vector-index matches to stored records, ranks them and renders the
    context block handed to the language model.

    The embedding service and the vector index are external: they appear as
    the function-valued fields of `Gateways`, each returning a success value
    or a failure tag. Methods that write also return the gateway calls they
    issued, in order, so that which calls happen is part of their contract. */
module Memories {
  import opened Common
  import opened Sorting

  /** An embedding; its values are only carried from one gateway to the next. */
  type Vector = seq<real>

  /** One vector-index hit. The score may be absent. */
  datatype Match = Match(id: string, score: Option<real>)

  /** The metadata stored beside a memory's vector in the index. */
  datatype Metadata = Metadata(
    userId: string,
    title: string,
    content: string,
    tags: seq<string>,
    createdAt: Timestamp)

  /** The external capabilities: embed(text), query(vector, topK, owner filter),
      upsert(id, vector, metadata) and delete(id). */
  datatype Gateways = Gateways(
    embed: string -> Outcome<Vector>,
    query: (Vector, nat, string) -> Outcome<seq<Match>>,
    upsert: (string, Vector, Metadata) -> Status,
    deleteVector: string -> Status)

  /** A write issued to the embedding service or the vector index. */
  datatype GatewayCall =
    | Embed(text: string)
    | Upsert(id: string, metadata: Metadata)
    | DeleteVector(id: string)

  /** The fields a caller supplies to create a memory. */
  datatype NewMemory = NewMemory(
    title: string,
    content: string,
    url: Option<string>,
    tags: Option<seq<string>>)

  /** Options of a listing; each may be absent. */
  datatype ListOptions = ListOptions(
    limit: Option<nat>,
    offset: Option<nat>,
    tags: Option<seq<string>>,
    search: Option<string>)

  /** The database filter a listing builds: the owner, and optionally
      "has some of these tags" and "title or content contains this text". */
  datatype Where = Where(userId: string, hasSome: Option<seq<string>>, search: Option<string>)

  /** One page of a listing and the number of records matching in all. */
  datatype Page = Page(memories: seq<Memory>, total: nat)

  datatype ScoredMemory = ScoredMemory(memory: Memory, score: real)

  /** Ranked memories and the context text rendered from them. */
  datatype Retrieval = Retrieval(memories: seq<ScoredMemory>, context: string)

  /** `MemoryNotFound` is the service's own "Memory not found"; `RecordNotFound`
      is the database's refusal to update a row that no filter matches. */
  datatype StoreError = MemoryNotFound | RecordNotFound

  const DefaultPageSize: nat := 20
  const ContextSize: nat := 5
  const FallbackScore: real := 0.5
  const MetadataContentLimit: nat := 1000
  const BlockSeparator := "\n---\n"

  // --------------------------------------------------------------- records

  /** The rows of the table in storage order. */
  function Rows(records: map<string, Memory>, order: seq<string>): seq<Memory> {
    if order == [] then []
    else (if order[0] in records then [records[order[0]]] else []) + Rows(records, order[1..])
  }

  /** `tags || []`. */
  function TagsOrEmpty(tags: Option<seq<string>>): seq<string> {
    if tags.Some? then tags.value else []
  }

  /** `content.substring(0, 1000)`. */
  function Truncate(s: string): (r: string)
    ensures |r| == Min(|s|, MetadataContentLimit)
    ensures r == s[..|r|]
  {
    if |s| <= MetadataContentLimit then s else s[..MetadataContentLimit]
  }

  function IndexMetadata(m: Memory, userId: string): Metadata {
    Metadata(userId, m.title, Truncate(m.content), m.tags, m.createdAt)
  }

  /** The text a memory is embedded from: title, a space, content. */
  function EmbeddingText(m: Memory): string {
    m.title + " " + m.content
  }

  /** The calls made to (re-)index a memory: an embedding, then, only if it
      succeeded, an upsert of the vector under the memory's id. */
  function IndexCalls(m: Memory, userId: string, gw: Gateways): (calls: seq<GatewayCall>)
    ensures 1 <= |calls| <= 2 && calls[0] == Embed(EmbeddingText(m))
    ensures |calls| == 2 <==> gw.embed(EmbeddingText(m)).Success?
    ensures |calls| == 2 ==> calls[1] == Upsert(m.id, IndexMetadata(m, userId))
  {
    match gw.embed(EmbeddingText(m))
    case Failure => [Embed(EmbeddingText(m))]
    case Success(_) => [Embed(EmbeddingText(m)), Upsert(m.id, IndexMetadata(m, userId))]
  }

  /** Both the embedding and the upsert succeeded. */
  predicate Indexed(m: Memory, userId: string, gw: Gateways) {
    var e := gw.embed(EmbeddingText(m));
    e.Success? && gw.upsert(m.id, e.value, IndexMetadata(m, userId)) == Succeeded
  }

  function WithoutId(order: seq<string>, id: string): (r: seq<string>)
    ensures id !in r
  {
    Filter((x: string) => x != id, order)
  }

  // --------------------------------------------------------------- listing

  /** What a listing promises of each record it returns, stated directly on
      the options: owned by the caller; if tags were asked for, sharing one;
      if a search text was given, containing it (ignoring case) in the title
      or the content. */
  predicate Listed(m: Memory, userId: string, options: ListOptions) {
    && m.userId == userId
    && (options.tags.Some? && options.tags.value != [] ==> SharesTag(m.tags, options.tags.value))
    && (Truthy(options.search) ==>
          ContainsInsensitive(m.title, options.search.value) || ContainsInsensitive(m.content, options.search.value))
  }

  predicate SharesTag(a: seq<string>, b: seq<string>) {
    exists t :: t in a && t in b
  }

  predicate Satisfies(m: Memory, w: Where) {
    && m.userId == w.userId
    && (w.hasSome.Some? ==> SharesTag(m.tags, w.hasSome.value))
    && (w.search.Some? ==>
          ContainsInsensitive(m.title, w.search.value) || ContainsInsensitive(m.content, w.search.value))
  }

  /** Starts from the owner and adds the tag and search conditions only when
      the options carry a non-empty tag list or a non-empty search text. */
  function BuildWhere(userId: string, options: ListOptions): (w: Where)
    ensures forall m :: Satisfies(m, w) <==> Listed(m, userId, options)
  {
    var w := Where(userId, None, None);
    var w := if options.tags.Some? && |options.tags.value| > 0 then w.(hasSome := options.tags) else w;
    var w := if Truthy(options.search) then w.(search := options.search) else w;
    w
  }

  function Matching(rows: seq<Memory>, w: Where): seq<Memory> {
    Filter((m: Memory) => Satisfies(m, w), rows)
  }

  /** The rows a listing counts are exactly the listed ones. */
  lemma MatchingListed(rows: seq<Memory>, userId: string, options: ListOptions)
    ensures forall m :: m in Matching(rows, BuildWhere(userId, options)) <==> m in rows && Listed(m, userId, options)
  {
  }

  /** `limit || 20`: an absent or zero limit means 20. */
  function PageSize(options: ListOptions): nat {
    if options.limit.Some? && options.limit.value != 0 then options.limit.value else DefaultPageSize
  }

  /** `offset || 0`. */
  function Offset(options: ListOptions): nat {
    if options.offset.Some? then options.offset.value else 0
  }

  /** `skip` then `take`. */
  function Paginate<T>(s: seq<T>, skip: nat, take: nat): (r: seq<T>)
    ensures |r| <= take
    ensures forall i :: 0 <= i < |r| ==> skip + i < |s| && r[i] == s[skip + i]
    ensures skip == 0 && |s| <= take ==> r == s
    ensures skip < |s| ==> |r| == Min(take, |s| - skip)
  {
    if skip >= |s| then []
    else if |s| - skip <= take then s[skip..]
    else s[skip..skip + take]
  }

  function CreatedKey(m: Memory): real {
    m.createdAt as real
  }

  lemma PaginateSorted<T>(s: seq<T>, skip: nat, take: nat, key: T -> real)
    requires SortedDesc(s, key)
    ensures SortedDesc(Paginate(s, skip, take), key)
  {
    var r := Paginate(s, skip, take);
    forall i, j | 0 <= i < j < |r| ensures key(r[i]) >= key(r[j]) {
      assert r[i] == s[skip + i] && r[j] == s[skip + j];
    }
  }

  /** A page of the newest-first order holds only elements of the input, in
      that order. It is as full as the input allows after skipping `skip`.
      A first page is empty only for an empty input, holds the newest
      elements (none left off is newer than one on it), and is a permutation
      of the input when the input fits in it. */
  lemma NewestFirstPage(s: seq<Memory>, skip: nat, take: nat)
    ensures var p := Paginate(SortDesc(s, CreatedKey), skip, take);
      && (forall m :: m in p ==> m in s)
      && SortedDesc(p, CreatedKey)
      && |p| == (if skip < |s| then Min(take, |s| - skip) else 0)
      && (forall i :: 0 <= i < |p| ==> skip + i < |s| && p[i] == SortDesc(s, CreatedKey)[skip + i])
      && (skip == 0 ==> (p == [] <==> s == [] || take == 0))
      && (skip == 0 ==> forall q, m :: q in p && m in s && m !in p ==> m.createdAt <= q.createdAt)
      && (skip == 0 && |s| <= take ==> multiset(p) == multiset(s))
  {
    var sorted := SortDesc(s, CreatedKey);
    assert |sorted| == |s| by {
      assert |multiset(sorted)| == |multiset(s)|;
    }
    PaginateSorted(sorted, skip, take, CreatedKey);
    var p := Paginate(sorted, skip, take);
    forall m | m in p ensures m in s {
      var i :| 0 <= i < |p| && p[i] == m;
      assert sorted[skip + i] == m;
      assert m in multiset(sorted);
    }
    if skip == 0 {
      FirstPageNewest(sorted, take, CreatedKey);
      forall m | m in s ensures m in sorted {
        assert m in multiset(s);
      }
    }
  }

  /** No element of a sorted sequence left off its first page has a greater
      key than an element on it. */
  lemma FirstPageNewest<T>(s: seq<T>, take: nat, key: T -> real)
    requires SortedDesc(s, key)
    ensures var p := Paginate(s, 0, take);
      forall q, m :: q in p && m in s && m !in p ==> key(m) <= key(q)
  {
    var p := Paginate(s, 0, take);
    forall q, m | q in p && m in s && m !in p ensures key(m) <= key(q) {
      var k :| 0 <= k < |s| && s[k] == m;
      var i :| 0 <= i < |p| && p[i] == q;
      assert forall j :: 0 <= j < |p| ==> p[j] == s[j];
      assert k >= |p|;
      assert s[i] == q;
    }
  }

  // ------------------------------------------------------------- retrieval

  function MatchIds(matches: seq<Match>): (ids: seq<string>)
    ensures |ids| == |matches|
    ensures forall i :: 0 <= i < |matches| ==> ids[i] == matches[i].id
  {
    seq(|matches|, i requires 0 <= i < |matches| => matches[i].id)
  }

  /** The store lookup `id in ids`: rows keep their storage order. */
  function FindByIds(rows: seq<Memory>, ids: seq<string>): seq<Memory> {
    Filter((m: Memory) => m.id in ids, rows)
  }

  predicate NoEarlierMatch(matches: seq<Match>, id: string, i: int)
    requires 0 <= i <= |matches|
  {
    forall j :: 0 <= j < i ==> matches[j].id != id
  }

  /** `matches.find(m => m.id === id)?.score || 0`. */
  function MatchScore(matches: seq<Match>, id: string): (r: real)
    ensures NoEarlierMatch(matches, id, |matches|) ==> r == 0.0
    ensures forall i :: 0 <= i < |matches| && matches[i].id == id && NoEarlierMatch(matches, id, i) ==>
              r == (if matches[i].score.Some? then matches[i].score.value else 0.0)
  {
    if matches == [] then 0.0
    else if matches[0].id == id then (if matches[0].score.Some? then matches[0].score.value else 0.0)
    else
      var r := MatchScore(matches[1..], id);
      assert forall i :: 1 <= i <= |matches| && NoEarlierMatch(matches, id, i) ==> NoEarlierMatch(matches[1..], id, i - 1);
      r
  }

  function ScoreOf(s: ScoredMemory): real {
    s.score
  }

  function Attach(rows: seq<Memory>, matches: seq<Match>): (r: seq<ScoredMemory>)
    ensures |r| == |rows|
    ensures forall i :: 0 <= i < |rows| ==> r[i] == ScoredMemory(rows[i], MatchScore(matches, rows[i].id))
  {
    seq(|rows|, i requires 0 <= i < |rows| => ScoredMemory(rows[i], MatchScore(matches, rows[i].id)))
  }

  function WithScore(ms: seq<Memory>, score: real): (r: seq<ScoredMemory>)
    ensures |r| == |ms|
    ensures forall i :: 0 <= i < |ms| ==> r[i] == ScoredMemory(ms[i], score)
  {
    seq(|ms|, i requires 0 <= i < |ms| => ScoredMemory(ms[i], score))
  }

  function Unscored(s: seq<ScoredMemory>): (r: seq<Memory>)
    ensures |r| == |s|
    ensures forall i :: 0 <= i < |s| ==> r[i] == s[i].memory
  {
    seq(|s|, i requires 0 <= i < |s| => s[i].memory)
  }

  /** `Title: t\nContent: c\nTags: a, b\n`: three labelled lines, the last
      one listing the tags joined by a comma and a space. */
  function Block(m: Memory): (r: string)
    ensures Contains(r, m.title) && Contains(r, m.content)
    ensures OccursAt(r, "Title: " + m.title + "\n", 0)
    ensures Contains(r, "\nContent: " + m.content + "\n")
    ensures var tags := "\nTags: " + Join(", ", m.tags) + "\n";
      |tags| <= |r| && OccursAt(r, tags, |r| - |tags|)
  {
    var r := "Title: " + m.title + "\nContent: " + m.content + "\nTags: " + Join(", ", m.tags) + "\n";
    var c := 7 + |m.title|;
    var t := c + 10 + |m.content|;
    assert OccursAt(r, m.title, 7);
    assert OccursAt(r, m.content, c + 10);
    assert OccursAt(r, "Title: " + m.title + "\n", 0);
    assert OccursAt(r, "\nContent: " + m.content + "\n", c);
    assert OccursAt(r, "\nTags: " + Join(", ", m.tags) + "\n", t);
    r
  }

  /** Blocks joined by a `---` line: every memory's block occurs in it. */
  function Blocks(ms: seq<Memory>): (r: string)
    ensures r == "" <==> ms == []
    ensures forall i :: 0 <= i < |ms| ==> Contains(r, Block(ms[i]))
  {
    var parts := seq(|ms|, i requires 0 <= i < |ms| => Block(ms[i]));
    JoinEmptyIff(BlockSeparator, parts);
    assert forall i :: 0 <= i < |ms| ==> Contains(Join(BlockSeparator, parts), Block(ms[i])) by {
      forall i | 0 <= i < |ms| ensures Contains(Join(BlockSeparator, parts), Block(ms[i])) {
        JoinContainsPart(BlockSeparator, parts, i);
        assert parts[i] == Block(ms[i]);
      }
    }
    Join(BlockSeparator, parts)
  }

  /** The keyword fallback's context: one `title: content` line per memory. */
  function FallbackContext(ms: seq<Memory>): (r: string)
    ensures r == "" <==> ms == []
    ensures forall i :: 0 <= i < |ms| ==> Contains(r, ms[i].title + ": " + ms[i].content)
  {
    var parts := seq(|ms|, i requires 0 <= i < |ms| => ms[i].title + ": " + ms[i].content);
    JoinEmptyIff("\n", parts);
    assert forall i :: 0 <= i < |ms| ==> Contains(Join("\n", parts), ms[i].title + ": " + ms[i].content) by {
      forall i | 0 <= i < |ms| ensures Contains(Join("\n", parts), ms[i].title + ": " + ms[i].content) {
        JoinContainsPart("\n", parts, i);
        assert parts[i] == ms[i].title + ": " + ms[i].content;
      }
    }
    Join("\n", parts)
  }

  /** The primary path: attach each found record's score, sort by score
      (stable) and render the five best as the context. */
  function Ranked(found: seq<Memory>, matches: seq<Match>): (r: Retrieval)
    ensures SortedDesc(r.memories, ScoreOf)
    ensures |r.memories| == |found|
    ensures forall s :: s in r.memories ==> s.memory in found && s.score == MatchScore(matches, s.memory.id)
    ensures forall m :: m in found ==> ScoredMemory(m, MatchScore(matches, m.id)) in r.memories
    ensures forall k :: WithKey(r.memories, ScoreOf, k) == WithKey(Attach(found, matches), ScoreOf, k)
    ensures r.context == Blocks(Unscored(Take(r.memories, ContextSize)))
    ensures r.context == "" <==> r.memories == []
  {
    var sorted := SortDesc(Attach(found, matches), ScoreOf);
    RankedFacts(found, matches);
    Retrieval(sorted, Blocks(Unscored(Take(sorted, ContextSize))))
  }

  lemma RankedFacts(found: seq<Memory>, matches: seq<Match>)
    ensures var a := Attach(found, matches);
            var sorted := SortDesc(a, ScoreOf);
            && |sorted| == |found|
            && (forall s :: s in sorted ==> s.memory in found && s.score == MatchScore(matches, s.memory.id))
            && (forall m :: m in found ==> ScoredMemory(m, MatchScore(matches, m.id)) in sorted)
            && (forall k :: WithKey(sorted, ScoreOf, k) == WithKey(a, ScoreOf, k))
  {
    var a := Attach(found, matches);
    var sorted := SortDesc(a, ScoreOf);
    assert |multiset(sorted)| == |multiset(a)|;
    forall s | s in sorted ensures s.memory in found && s.score == MatchScore(matches, s.memory.id) {
      assert s in multiset(a);
      var i :| 0 <= i < |a| && a[i] == s;
    }
    forall m | m in found ensures ScoredMemory(m, MatchScore(matches, m.id)) in sorted {
      var i :| 0 <= i < |found| && found[i] == m;
      assert a[i] in multiset(sorted);
    }
    forall k {
      SortDescStable(a, ScoreOf, k);
    }
  }

  /** The keyword fallback: every record scores 0.5. */
  function Fallback(listed: seq<Memory>): (r: Retrieval)
    ensures Unscored(r.memories) == listed
    ensures forall s :: s in r.memories ==> s.score == FallbackScore
    ensures r.context == FallbackContext(listed)
    ensures r.context == "" <==> r.memories == []
  {
    Retrieval(WithScore(listed, FallbackScore), FallbackContext(listed))
  }

  /** The index matches of the primary path, or None when the embedding or
      the index query failed. The query asks for `limit` neighbours among
      the vectors whose metadata names the caller. */
  function IndexMatches(userId: string, query: string, limit: nat, gw: Gateways): Option<seq<Match>> {
    match gw.embed(query)
    case Failure => None
    case Success(v) =>
      match gw.query(v, limit, userId)
      case Failure => None
      case Success(ms) => Some(ms)
  }

  // ----------------------------------------------------------- the service

  class MemoryService {
    /** The memory table, keyed by id. */
    var records: map<string, Memory>
    /** The order in which a lookup without `orderBy` returns the rows. The
        database promises no such order; the model fixes it as insertion
        order, which updates leave as it is. */
    var order: seq<string>

    ghost predicate Valid()
      reads this
    {
      && Distinct(order)
      && (forall id :: id in records <==> id in order)
      && (forall id :: id in records ==> records[id].id == id)
    }

    constructor ()
      ensures Valid() && records == map[] && order == []
    {
      records := map[];
      order := [];
    }

    function Table(): seq<Memory>
      reads this
    {
      Rows(records, order)
    }

    /** A record with this id exists and belongs to this user. */
    predicate Owns(id: string, userId: string)
      reads this
    {
      id in records && records[id].userId == userId
    }

    /** Stores the record with `tags || []`, then embeds `title content` and
        upserts the vector; only when both succeed is `embeddingId` set on the
        stored row. Either failure is swallowed. The record returned is the
        one first created, without an `embeddingId`. The database's fresh id
        and clock are the parameters `newId` and `now`. */
    method CreateMemory(userId: string, data: NewMemory, newId: string, now: Timestamp, gw: Gateways)
      returns (memory: Memory, calls: seq<GatewayCall>)
      requires Valid() && newId !in records
      modifies this
      ensures Valid()
      ensures memory == Memory(newId, data.title, data.content, data.url, TagsOrEmpty(data.tags), userId, now, now, None)
      ensures calls == IndexCalls(memory, userId, gw)
      ensures order == old(order) + [newId]
      ensures records == old(records)[newId := if Indexed(memory, userId, gw) then memory.(embeddingId := Some(newId)) else memory]
    {
      memory := Memory(newId, data.title, data.content, data.url, TagsOrEmpty(data.tags), userId, now, now, None);
      records := records[newId := memory];
      order := order + [newId];
      var text := EmbeddingText(memory);
      calls := [Embed(text)];
      var embedding := gw.embed(text);
      if embedding.Success? {
        var metadata := IndexMetadata(memory, userId);
        calls := calls + [Upsert(newId, metadata)];
        var status := gw.upsert(newId, embedding.value, metadata);
        if status == Succeeded {
          // pineconeService.upsertVector answers with the id it was given
          records := records[newId := memory.(embeddingId := Some(newId))];
        }
      }
    }

    /** Applies the patch to the caller's record; a missing or foreign record
        is refused by the database. Re-embeds from the updated record only
        when the patch carries a non-empty title or content; embedding and
        upsert failures are swallowed and do not change the result. */
    method UpdateMemory(id: string, userId: string, data: MemoryPatch, gw: Gateways)
      returns (result: Result<Memory, StoreError>, calls: seq<GatewayCall>)
      requires Valid()
      requires data.id.None? || data.id == Some(id)
      modifies this
      ensures Valid() && order == old(order)
      ensures !old(Owns(id, userId)) ==> result == Err(RecordNotFound) && records == old(records) && calls == []
      ensures old(Owns(id, userId)) ==>
                var updated := Patch(old(records)[id], data);
                && result == Ok(updated)
                && records == old(records)[id := updated]
                && calls == (if Truthy(data.title) || Truthy(data.content) then IndexCalls(updated, userId, gw) else [])
    {
      if !Owns(id, userId) {
        return Err(RecordNotFound), [];
      }
      var memory := Patch(records[id], data);
      records := records[id := memory];
      calls := [];
      if Truthy(data.title) || Truthy(data.content) {
        var text := EmbeddingText(memory);
        calls := [Embed(text)];
        var embedding := gw.embed(text);
        if embedding.Success? {
          var metadata := IndexMetadata(memory, userId);
          calls := calls + [Upsert(memory.id, metadata)];
          var _ := gw.upsert(memory.id, embedding.value, metadata);
        }
      }
      result := Ok(memory);
    }

    /** Refuses with "Memory not found" unless the caller owns the record;
        otherwise deletes its vector when it has a non-empty `embeddingId`,
        whatever that delete answers, and then deletes the record. */
    method DeleteMemory(id: string, userId: string, gw: Gateways)
      returns (result: Result<(), StoreError>, calls: seq<GatewayCall>)
      requires Valid()
      modifies this
      ensures Valid()
      ensures !old(Owns(id, userId)) ==>
                result == Err(MemoryNotFound) && records == old(records) && order == old(order) && calls == []
      ensures old(Owns(id, userId)) ==>
                && result == Ok(())
                && records == old(records) - {id}
                && order == WithoutId(old(order), id)
                && calls == (if Truthy(old(records)[id].embeddingId) then [DeleteVector(id)] else [])
    {
      if !Owns(id, userId) {
        return Err(MemoryNotFound), [];
      }
      var memory := records[id];
      calls := [];
      if Truthy(memory.embeddingId) {
        calls := [DeleteVector(memory.id)];
        // a failed vector delete is only logged
        var _ := gw.deleteVector(memory.id);
      }
      FilterDistinct(x => x != id, order);
      records := records - {id};
      order := WithoutId(order, id);
      result := Ok(());
    }

    /** The caller's records that pass the tag and search filters, newest
        first, one page of them, with the count of all that pass. */
    function GetMemories(userId: string, options: ListOptions): (page: Page)
      reads this
      ensures forall m :: m in page.memories ==> m in Table() && Listed(m, userId, options)
      ensures SortedDesc(page.memories, CreatedKey)
      ensures |page.memories| == if Offset(options) < page.total then Min(PageSize(options), page.total - Offset(options)) else 0
      ensures forall i :: 0 <= i < |page.memories| ==>
                Offset(options) + i < |Matching(Table(), BuildWhere(userId, options))| &&
                page.memories[i] == SortDesc(Matching(Table(), BuildWhere(userId, options)), CreatedKey)[Offset(options) + i]
      ensures Offset(options) == 0 ==>
                forall p, m :: p in page.memories && m in Matching(Table(), BuildWhere(userId, options)) && m !in page.memories
                  ==> m.createdAt <= p.createdAt
      ensures page.total == |Matching(Table(), BuildWhere(userId, options))|
      ensures forall m :: m in Table() && Listed(m, userId, options) ==> m in Matching(Table(), BuildWhere(userId, options))
      ensures Offset(options) == 0 ==> (page.memories == [] <==> page.total == 0)
      ensures Offset(options) == 0 && page.total <= PageSize(options) ==>
                multiset(page.memories) == multiset(Matching(Table(), BuildWhere(userId, options)))
    {
      var matching := Matching(Table(), BuildWhere(userId, options));
      MatchingListed(Table(), userId, options);
      NewestFirstPage(matching, Offset(options), PageSize(options));
      Page(Paginate(SortDesc(matching, CreatedKey), Offset(options), PageSize(options)), |matching|)
    }

    /** Semantic search with its keyword fallback. On the primary path the
        result is every stored record whose id the index returned, each with
        the score of its first match (0 when that score is absent), sorted by
        score with ties in storage order; the context renders the first five.
        When the embedding or the index query fails, the result is the
        keyword listing for `query` with `limit`, all scored 0.5. */
    function SemanticSearch(userId: string, query: string, limit: nat, gw: Gateways): (r: Retrieval)
      reads this
      ensures r.context == "" <==> r.memories == []
      ensures IndexMatches(userId, query, limit, gw).Some? ==>
                var matches := IndexMatches(userId, query, limit, gw).value;
                var found := FindByIds(Table(), MatchIds(matches));
                && SortedDesc(r.memories, ScoreOf)
                && |r.memories| == |found|
                && (forall s :: s in r.memories ==>
                      s.memory in Table() && s.memory.id in MatchIds(matches) && s.score == MatchScore(matches, s.memory.id))
                && (forall m :: m in Table() && m.id in MatchIds(matches) ==>
                      ScoredMemory(m, MatchScore(matches, m.id)) in r.memories)
                && (forall k :: WithKey(r.memories, ScoreOf, k) == WithKey(Attach(found, matches), ScoreOf, k))
                && r.context == Blocks(Unscored(Take(r.memories, ContextSize)))
      ensures IndexMatches(userId, query, limit, gw).None? ==>
                var listed := GetMemories(userId, ListOptions(Some(limit), None, None, Some(query))).memories;
                && Unscored(r.memories) == listed
                && (forall s :: s in r.memories ==> s.score == FallbackScore)
                && r.context == FallbackContext(listed)
    {
      match IndexMatches(userId, query, limit, gw)
      case Some(matches) => Ranked(FindByIds(Table(), MatchIds(matches)), matches)
      case None => Fallback(GetMemories(userId, ListOptions(Some(limit), None, None, Some(query))).memories)
    }
  }
}
