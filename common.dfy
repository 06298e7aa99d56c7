/** Values shared by the backend services and the client store: the memory
    record, the partial update applied to it, and the small sequence and
    string operations (filter, join, substring) the services are built from. */
module Common {

  datatype Option<T> = None | Some(value: T)

  /** Outcome of a call to an external service: a value or a failure tag. */
  datatype Outcome<T> = Success(value: T) | Failure

  /** Outcome of an external call that returns nothing. */
  datatype Status = Succeeded | Failed

  datatype Result<T, E> = Ok(value: T) | Err(error: E)

  /** Milliseconds since the epoch. */
  type Timestamp = int

  /** A user-owned note, with the fields the database row carries. */
  datatype Memory = Memory(
    id: string,
    title: string,
    content: string,
    url: Option<string>,
    tags: seq<string>,
    userId: string,
    createdAt: Timestamp,
    updatedAt: Timestamp,
    embeddingId: Option<string>)

  /** A `Partial<Memory>`: every field that is present overrides the record's. */
  datatype MemoryPatch = MemoryPatch(
    id: Option<string>,
    title: Option<string>,
    content: Option<string>,
    url: Option<Option<string>>,
    tags: Option<seq<string>>,
    userId: Option<string>,
    createdAt: Option<Timestamp>,
    updatedAt: Option<Timestamp>,
    embeddingId: Option<Option<string>>)

  const EmptyPatch := MemoryPatch(None, None, None, None, None, None, None, None, None)

  function Override<T>(field: Option<T>, current: T): T {
    if field.Some? then field.value else current
  }

  /** `{ ...memory, ...updates }`: the fields present in the patch win. */
  function Patch(m: Memory, p: MemoryPatch): (r: Memory)
    ensures p == EmptyPatch ==> r == m
    ensures (p.id.None? ==> r.id == m.id) && (p.id.Some? ==> r.id == p.id.value)
    ensures (p.title.None? ==> r.title == m.title) && (p.title.Some? ==> r.title == p.title.value)
    ensures (p.content.None? ==> r.content == m.content) && (p.content.Some? ==> r.content == p.content.value)
    ensures (p.url.None? ==> r.url == m.url) && (p.url.Some? ==> r.url == p.url.value)
    ensures (p.tags.None? ==> r.tags == m.tags) && (p.tags.Some? ==> r.tags == p.tags.value)
    ensures (p.userId.None? ==> r.userId == m.userId) && (p.userId.Some? ==> r.userId == p.userId.value)
    ensures (p.createdAt.None? ==> r.createdAt == m.createdAt) && (p.createdAt.Some? ==> r.createdAt == p.createdAt.value)
    ensures (p.updatedAt.None? ==> r.updatedAt == m.updatedAt) && (p.updatedAt.Some? ==> r.updatedAt == p.updatedAt.value)
    ensures (p.embeddingId.None? ==> r.embeddingId == m.embeddingId) && (p.embeddingId.Some? ==> r.embeddingId == p.embeddingId.value)
  {
    Memory(
      Override(p.id, m.id),
      Override(p.title, m.title),
      Override(p.content, m.content),
      Override(p.url, m.url),
      Override(p.tags, m.tags),
      Override(p.userId, m.userId),
      Override(p.createdAt, m.createdAt),
      Override(p.updatedAt, m.updatedAt),
      Override(p.embeddingId, m.embeddingId))
  }

  /** JavaScript truthiness of an optional string: present and non-empty. */
  predicate Truthy(s: Option<string>) {
    s.Some? && s.value != ""
  }

  function Min(a: int, b: int): int {
    if a <= b then a else b
  }

  /** The first `n` elements, or all of them when there are fewer (`slice(0, n)`). */
  function Take<T>(s: seq<T>, n: nat): (r: seq<T>)
    ensures |r| == Min(n, |s|)
    ensures forall i :: 0 <= i < |r| ==> r[i] == s[i]
  {
    if n <= |s| then s[..n] else s
  }

  // ---------------------------------------------------------------- filter

  /** `Array.prototype.filter`. */
  function Filter<T>(p: T -> bool, s: seq<T>): (r: seq<T>)
    ensures |r| <= |s|
    ensures forall x :: x in r ==> x in s && p(x)
    ensures forall x :: x in s && p(x) ==> x in r
  {
    if s == [] then []
    else (if p(s[0]) then [s[0]] else []) + Filter(p, s[1..])
  }

  /** `a` is `b` with some elements left out, the rest kept in order. */
  ghost predicate IsSubsequence<T>(a: seq<T>, b: seq<T>)
    decreases |b|
  {
    a == [] || (b != [] && ((a[0] == b[0] && IsSubsequence(a[1..], b[1..])) || IsSubsequence(a, b[1..])))
  }

  lemma {:induction false} FilterIsSubsequence<T>(p: T -> bool, s: seq<T>)
    ensures IsSubsequence(Filter(p, s), s)
  {
    if s != [] {
      FilterIsSubsequence(p, s[1..]);
      var r := Filter(p, s);
      if p(s[0]) {
        assert r[0] == s[0] && r[1..] == Filter(p, s[1..]);
      } else {
        assert r == Filter(p, s[1..]);
      }
    }
  }

  /** Every element that passes keeps all its copies; every other one loses them all. */
  lemma {:induction false} FilterMultiset<T>(p: T -> bool, s: seq<T>)
    ensures forall x :: multiset(Filter(p, s))[x] == if p(x) then multiset(s)[x] else 0
  {
    if s != [] {
      FilterMultiset(p, s[1..]);
      assert s == [s[0]] + s[1..];
      assert Filter(p, s) == (if p(s[0]) then [s[0]] else []) + Filter(p, s[1..]);
    }
  }

  /** Filtering with a predicate that every element meets changes nothing. */
  lemma {:induction false} FilterKeepsAll<T>(p: T -> bool, s: seq<T>)
    requires forall x :: x in s ==> p(x)
    ensures Filter(p, s) == s
  {
    if s != [] {
      FilterKeepsAll(p, s[1..]);
      assert s == [s[0]] + s[1..];
    }
  }

  ghost predicate Distinct<T>(s: seq<T>) {
    forall i, j :: 0 <= i < j < |s| ==> s[i] != s[j]
  }

  lemma {:induction false} FilterDistinct<T>(p: T -> bool, s: seq<T>)
    requires Distinct(s)
    ensures Distinct(Filter(p, s))
  {
    if s != [] {
      FilterDistinct(p, s[1..]);
      var tail := Filter(p, s[1..]);
      if p(s[0]) {
        assert s[0] !in s[1..];
        assert s[0] !in tail;
        var r := Filter(p, s);
        assert r == [s[0]] + tail;
        forall i, j | 0 <= i < j < |r| ensures r[i] != r[j] {
          if i == 0 {
            assert r[j] == tail[j - 1];
          } else {
            assert r[i] == tail[i - 1] && r[j] == tail[j - 1];
          }
        }
      }
    }
  }

  // ------------------------------------------------------------------ join

  /** `Array.prototype.join(sep)`: no parts give "", one part gives itself. */
  function Join(sep: string, parts: seq<string>): (r: string)
    ensures parts == [] ==> r == ""
    ensures parts != [] ==> |parts[0]| <= |r| && r[..|parts[0]|] == parts[0]
  {
    if parts == [] then ""
    else if |parts| == 1 then parts[0]
    else parts[0] + sep + Join(sep, parts[1..])
  }

  /** When every part is non-empty, the joined text is empty exactly when there are no parts. */
  lemma JoinEmptyIff(sep: string, parts: seq<string>)
    requires forall i :: 0 <= i < |parts| ==> parts[i] != ""
    ensures Join(sep, parts) == "" <==> parts == []
  {
    if parts != [] {
      assert parts[0] != "";
    }
  }

  // ------------------------------------------------------------- substring

  predicate OccursAt(hay: string, needle: string, i: int) {
    0 <= i && i + |needle| <= |hay| && hay[i..i + |needle|] == needle
  }

  predicate Contains(hay: string, needle: string) {
    exists i | 0 <= i <= |hay| :: OccursAt(hay, needle, i)
  }

  /** Every part occurs in the joined text. */
  lemma {:induction false} JoinContainsPart(sep: string, parts: seq<string>, k: nat)
    requires k < |parts|
    ensures Contains(Join(sep, parts), parts[k])
  {
    var r := Join(sep, parts);
    if k == 0 {
      assert OccursAt(r, parts[0], 0);
    } else {
      JoinContainsPart(sep, parts[1..], k - 1);
      var rest := Join(sep, parts[1..]);
      var i :| 0 <= i <= |rest| && OccursAt(rest, parts[k], i);
      var off := |parts[0]| + |sep|;
      assert r == parts[0] + sep + rest;
      assert r[off + i..off + i + |parts[k]|] == rest[i..i + |parts[k]|];
      assert OccursAt(r, parts[k], off + i);
    }
  }

  lemma ContainsTransitive(a: string, b: string, c: string)
    requires Contains(a, b) && Contains(b, c)
    ensures Contains(a, c)
  {
    var i :| 0 <= i <= |a| && OccursAt(a, b, i);
    var j :| 0 <= j <= |b| && OccursAt(b, c, j);
    assert a[i..i + |b|] == b;
    forall k | 0 <= k < |c| ensures a[i + j + k] == c[k] {
      assert a[i + j + k] == a[i..i + |b|][j + k] == b[j + k];
    }
    assert a[i + j..i + j + |c|] == c;
    assert OccursAt(a, c, i + j);
  }

  function LowerChar(c: char): char {
    if 'A' <= c <= 'Z' then (c as int + 32) as char else c
  }

  /** ASCII lower-casing; the database's Unicode case folding is not modelled. */
  function Lower(s: string): (r: string)
    ensures |r| == |s|
  {
    seq(|s|, i requires 0 <= i < |s| => LowerChar(s[i]))
  }

  /** `contains` with `mode: 'insensitive'`. */
  predicate ContainsInsensitive(hay: string, needle: string) {
    Contains(Lower(hay), Lower(needle))
  }
}
