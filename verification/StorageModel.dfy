/**
 * What the chunk store is: a set of pinned chunks, a set of cached chunks, and the cached
 * keys from least to most recently used.  Sizes are summed, not counted; `Storage` proves
 * that the counters, the flags and the deque of src/filesystem/storage.rs refine this.
 */
module StorageModel {
  import opened Domain

  datatype Store = Store(
    pinned: map<ChunkHash, Bytes>,
    cached: map<ChunkHash, Bytes>,
    recency: seq<ChunkHash>,
    maxPinned: nat,
    maxCached: nat)

  /** Total size of the chunks in `m`. */
  ghost function Total(m: map<ChunkHash, Bytes>): nat {
    if m == map[] then 0
    else
      var h :| h in m;
      |m[h]| + Total(m - {h})
  }

  lemma {:induction false} TotalRemove(m: map<ChunkHash, Bytes>, h: ChunkHash)
    requires h in m
    ensures Total(m) == |m[h]| + Total(m - {h})
    decreases |m|
  {
    var p :| p in m && Total(m) == |m[p]| + Total(m - {p});
    if p != h {
      TotalRemove(m - {p}, h);
      TotalRemove(m - {h}, p);
      assert m - {p} - {h} == m - {h} - {p};
    }
  }

  lemma TotalAdd(m: map<ChunkHash, Bytes>, h: ChunkHash, data: Bytes)
    requires h !in m
    ensures Total(m[h := data]) == Total(m) + |data|
  {
    TotalRemove(m[h := data], h);
    assert m[h := data] - {h} == m;
  }

  lemma {:induction false} TotalUnion(m: map<ChunkHash, Bytes>, n: map<ChunkHash, Bytes>)
    requires m.Keys !! n.Keys
    ensures Total(m + n) == Total(m) + Total(n)
    decreases |n|
  {
    if n.Keys == {} {
      MapUnionNothing(m, n);
    } else {
      var h :| h in n;
      TotalUnionStep(m, n, h);
      TotalUnion(m, n - {h});
    }
  }

  lemma TotalUnionStep(m: map<ChunkHash, Bytes>, n: map<ChunkHash, Bytes>, h: ChunkHash)
    requires m.Keys !! n.Keys && h in n
    ensures Total(m + n) == Total(m + (n - {h})) + |n[h]|
    ensures Total(n) == Total(n - {h}) + |n[h]|
  {
    assert (m + n) - {h} == m + (n - {h});
    TotalRemove(n, h);
    TotalRemove(m + n, h);
  }

  lemma TotalSplit(m: map<ChunkHash, Bytes>, s: set<ChunkHash>)
    ensures Total(m) == Total(m - s) + Total(map h | h in m && h in s :: m[h])
  {
    var n := map h | h in m && h in s :: m[h];
    TotalUnion(m - s, n);
    assert m == (m - s) + n;
  }

  function Without(s: seq<ChunkHash>, gone: set<ChunkHash>): (r: seq<ChunkHash>)
    ensures forall h :: h in r <==> h in s && h !in gone
  {
    if s == [] then []
    else if s[0] in gone then Without(s[1..], gone)
    else [s[0]] + Without(s[1..], gone)
  }

  lemma {:induction false} WithoutKeepsDistinct(s: seq<ChunkHash>, gone: set<ChunkHash>)
    requires NoDuplicates(s)
    ensures NoDuplicates(Without(s, gone))
  {
    if s != [] {
      WithoutKeepsDistinct(s[1..], gone);
      assert s[0] !in s[1..];
    }
  }

  lemma {:induction false} WithoutConcat(a: seq<ChunkHash>, b: seq<ChunkHash>, gone: set<ChunkHash>)
    ensures Without(a + b, gone) == Without(a, gone) + Without(b, gone)
  {
    if a == [] {
      assert a + b == b;
    } else {
      var tail := Without(a[1..], gone);
      WithoutConcat(a[1..], b, gone);
      assert a + b == [a[0]] + (a[1..] + b);
      assert ([a[0]] + tail) + Without(b, gone) == [a[0]] + (tail + Without(b, gone));
    }
  }

  lemma {:induction false} WithoutTwice(s: seq<ChunkHash>, a: set<ChunkHash>, b: set<ChunkHash>)
    ensures Without(Without(s, a), b) == Without(s, a + b)
  {
    if s != [] {
      WithoutTwice(s[1..], a, b);
    }
  }

  lemma {:induction false} WithoutNothing(s: seq<ChunkHash>, gone: set<ChunkHash>)
    requires forall h :: h in s ==> h !in gone
    ensures Without(s, gone) == s
  {
    if s != [] {
      WithoutNothing(s[1..], gone);
    }
  }

  ghost predicate WellFormed(s: Store) {
    && s.pinned.Keys !! s.cached.Keys
    && NoDuplicates(s.recency) && ToSet(s.recency) == s.cached.Keys
    && Total(s.pinned) <= s.maxPinned
    && Total(s.cached) <= s.maxCached
  }

  /** Every key is the digest of its data. */
  ghost predicate Addressed(sha: Sha, s: Store) {
    && (forall h :: h in s.pinned ==> sha(s.pinned[h]) == h)
    && (forall h :: h in s.cached ==> sha(s.cached[h]) == h)
  }

  predicate Contains(s: Store, h: ChunkHash) { h in s.pinned || h in s.cached }

  function Lookup(s: Store, h: ChunkHash): Option<Bytes> {
    if h in s.pinned then Some(s.pinned[h])
    else if h in s.cached then Some(s.cached[h])
    else None
  }

  // ---------------------------------------------------------------- try_pin

  /** The data of the first chunk of the batch with each digest. */
  function FirstOf(sha: Sha, batch: seq<Bytes>): (m: map<ChunkHash, Bytes>)
    ensures forall h :: h in m ==> sha(m[h]) == h
  {
    if batch == [] then map[]
    else
      var m, last := FirstOf(sha, batch[..|batch| - 1]), batch[|batch| - 1];
      if sha(last) in m then m else m[sha(last) := last]
  }

  lemma {:induction false} FirstOfMembers(sha: Sha, batch: seq<Bytes>)
    ensures FirstOf(sha, batch).Keys == set d | d in batch :: sha(d)
    ensures FirstOf(sha, batch).Values <= ToSet(batch)
  {
    if batch != [] {
      var front, last := batch[..|batch| - 1], batch[|batch| - 1];
      assert batch == front + [last];
      FirstOfMembers(sha, front);
      assert (set d | d in batch :: sha(d)) == (set d | d in front :: sha(d)) + {sha(last)};
      assert ToSet(batch) == ToSet(front) + {last};
    }
  }

  /** What a batch adds to the pinned chunks: a cached chunk keeps the bytes it has. */
  function Pinnable(sha: Sha, s: Store, batch: seq<Bytes>): (m: map<ChunkHash, Bytes>)
  {
    var first := FirstOf(sha, batch);
    map h | h in first && h !in s.pinned :: if h in s.cached then s.cached[h] else first[h]
  }

  lemma PinnableStep(sha: Sha, s: Store, batch: seq<Bytes>, last: Bytes)
    ensures var h, before := sha(last), Pinnable(sha, s, batch);
            && FirstOf(sha, batch + [last]).Keys == FirstOf(sha, batch).Keys + {h}
            && (h in before ==> h in FirstOf(sha, batch))
            && Pinnable(sha, s, batch + [last]) ==
                 if h in FirstOf(sha, batch) || h in s.pinned then before
                 else before[h := if h in s.cached then s.cached[h] else last]
  {
    var longer := batch + [last];
    assert longer[..|batch|] == batch && longer[|batch|] == last;
    var first, before := FirstOf(sha, batch), Pinnable(sha, s, batch);
    assert FirstOf(sha, longer) == if sha(last) in first then first else first[sha(last) := last];
  }

  /** `try_pin`: all of the batch or nothing. */
  ghost function TryPin(sha: Sha, s: Store, batch: seq<Bytes>): Option<Store> {
    var added := Pinnable(sha, s, batch);
    if Total(s.pinned) + Total(added) > s.maxPinned then None
    else Some(s.(pinned := s.pinned + added,
                 cached := s.cached - added.Keys,
                 recency := Without(s.recency, added.Keys)))
  }

  // The two loops that follow a successful survey.

  ghost predicate DistinctDigests(sha: Sha, chunks: seq<Bytes>) {
    forall i, j :: 0 <= i < j < |chunks| ==> sha(chunks[i]) != sha(chunks[j])
  }

  lemma FirstOfStep(sha: Sha, chunks: seq<Bytes>, j: nat)
    requires DistinctDigests(sha, chunks) && j < |chunks|
    ensures sha(chunks[j]) !in FirstOf(sha, chunks[..j])
    ensures FirstOf(sha, chunks[..j + 1]) == FirstOf(sha, chunks[..j])[sha(chunks[j]) := chunks[j]]
  {
    FirstOfMembers(sha, chunks[..j]);
    assert chunks[..j + 1][..j] == chunks[..j];
  }

  /** The store once the cached chunks in `moved` have become pinned. */
  ghost function PinSet(s: Store, moved: set<ChunkHash>): Store {
    s.(pinned := s.pinned + map h | h in s.cached && h in moved :: s.cached[h],
       cached := s.cached - moved,
       recency := Without(s.recency, moved))
  }

  lemma PinSetStep(s: Store, moved: set<ChunkHash>, h: ChunkHash)
    requires h in s.cached && h !in moved
    ensures var t := PinSet(s, moved);
            h in t.cached && PinSet(s, moved + {h}) ==
              t.(pinned := t.pinned[h := t.cached[h]], cached := t.cached - {h}, recency := Without(t.recency, {h}))
  {
    WithoutTwice(s.recency, moved, {h});
    MapRemoveTwice(s.cached, moved, {h});
    var before := map x | x in s.cached && x in moved :: s.cached[x];
    assert (map x | x in s.cached && x in moved + {h} :: s.cached[x]) == before[h := s.cached[h]];
    MapUnionInsert(s.pinned, before, h, s.cached[h]);
  }

  /** How the survey sorts the chunks to pin: those to store and those to promote. */
  ghost predicate Surveyed(sha: Sha, s: Store, added: map<ChunkHash, Bytes>, newChunks: seq<Bytes>,
                           cachedHashes: seq<ChunkHash>)
  {
    && DistinctDigests(sha, newChunks) && NoDuplicates(cachedHashes)
    && FirstOf(sha, newChunks) == added - s.cached.Keys
    && ToSet(cachedHashes) == added.Keys * s.cached.Keys
  }

  lemma SurveyExtends(sha: Sha, s: Store, batch: seq<Bytes>, last: Bytes, newChunks: seq<Bytes>,
                      cachedHashes: seq<ChunkHash>)
    requires Surveyed(sha, s, Pinnable(sha, s, batch), newChunks, cachedHashes)
    requires sha(last) !in FirstOf(sha, batch) && sha(last) !in s.pinned
    ensures var added := Pinnable(sha, s, batch + [last]);
            if sha(last) in s.cached then Surveyed(sha, s, added, newChunks, cachedHashes + [sha(last)])
            else Surveyed(sha, s, added, newChunks + [last], cachedHashes)
  {
    hide Pinnable, Surveyed;
    PinnableStep(sha, s, batch, last);
    PinnableIsFirst(sha, s, batch);
    if sha(last) in s.cached {
      SurveyPromotes(sha, s, Pinnable(sha, s, batch), last, newChunks, cachedHashes);
    } else {
      SurveyStores(sha, s, Pinnable(sha, s, batch), last, newChunks, cachedHashes);
    }
  }

  lemma PinnableIsFirst(sha: Sha, s: Store, batch: seq<Bytes>)
    ensures Pinnable(sha, s, batch).Keys <= FirstOf(sha, batch).Keys
  {
  }

  lemma SurveyPromotes(sha: Sha, s: Store, added: map<ChunkHash, Bytes>, last: Bytes, newChunks: seq<Bytes>,
                       cachedHashes: seq<ChunkHash>)
    requires Surveyed(sha, s, added, newChunks, cachedHashes) && sha(last) !in added && sha(last) in s.cached
    ensures Surveyed(sha, s, added[sha(last) := s.cached[sha(last)]], newChunks, cachedHashes + [sha(last)])
  {
    var h := sha(last);
    assert h !in ToSet(cachedHashes);
    assert ToSet(cachedHashes + [h]) == ToSet(cachedHashes) + {h};
    InsertThenRemove(added, h, s.cached[h], s.cached.Keys);
  }

  lemma SurveyStores(sha: Sha, s: Store, added: map<ChunkHash, Bytes>, last: Bytes, newChunks: seq<Bytes>,
                     cachedHashes: seq<ChunkHash>)
    requires Surveyed(sha, s, added, newChunks, cachedHashes) && sha(last) !in added && sha(last) !in s.cached
    ensures Surveyed(sha, s, added[sha(last) := last], newChunks + [last], cachedHashes)
  {
    InsertThenRemove(added, sha(last), last, s.cached.Keys);
    NewDigestIsFresh(sha, newChunks, last);
  }

  lemma InsertThenRemove(m: map<ChunkHash, Bytes>, h: ChunkHash, data: Bytes, gone: set<ChunkHash>)
    ensures m[h := data] - gone == if h in gone then m - gone else (m - gone)[h := data]
  {
  }

  lemma NewDigestIsFresh(sha: Sha, chunks: seq<Bytes>, last: Bytes)
    requires DistinctDigests(sha, chunks) && sha(last) !in FirstOf(sha, chunks)
    ensures DistinctDigests(sha, chunks + [last])
    ensures FirstOf(sha, chunks + [last]) == FirstOf(sha, chunks)[sha(last) := last]
  {
    FirstOfMembers(sha, chunks);
    assert forall i :: 0 <= i < |chunks| ==> chunks[i] in chunks;
    var longer := chunks + [last];
    assert longer[..|chunks|] == chunks && longer[|chunks|] == last;
  }

  lemma SurveyedGivesTryPin(sha: Sha, s: Store, batch: seq<Bytes>, newChunks: seq<Bytes>, cachedHashes: seq<ChunkHash>)
    requires WellFormed(s) && Surveyed(sha, s, Pinnable(sha, s, batch), newChunks, cachedHashes)
    requires TryPin(sha, s, batch).Some?
    ensures TryPin(sha, s, batch).value ==
            PinSet(s.(pinned := s.pinned + FirstOf(sha, newChunks)), ToSet(cachedHashes))
  {
    PinSetGivesUnion(s, Pinnable(sha, s, batch), FirstOf(sha, newChunks), ToSet(cachedHashes));
  }

  /** Storing the new chunks and then promoting the cached ones pins their union. */
  lemma PinSetGivesUnion(s: Store, added: map<ChunkHash, Bytes>, first: map<ChunkHash, Bytes>, moved: set<ChunkHash>)
    requires ToSet(s.recency) == s.cached.Keys
    requires first == added - s.cached.Keys && moved == added.Keys * s.cached.Keys
    requires forall h :: h in moved ==> added[h] == s.cached[h]
    ensures PinSet(s.(pinned := s.pinned + first), moved) ==
            s.(pinned := s.pinned + added, cached := s.cached - added.Keys, recency := Without(s.recency, added.Keys))
  {
    assert forall h :: h in s.recency ==> h in ToSet(s.recency);
    WithoutDependsOnMembers(s.recency, moved, added.Keys);
    RemoveIntersection(s.cached, added.Keys);
    var promoted := map h | h in s.cached && h in moved :: s.cached[h];
    SplitByKeys(added, s.cached, promoted);
    MapUnionAssociative(s.pinned, first, promoted);
  }

  lemma RemoveIntersection(m: map<ChunkHash, Bytes>, keys: set<ChunkHash>)
    ensures m - (keys * m.Keys) == m - keys
  {
  }

  lemma SplitByKeys(m: map<ChunkHash, Bytes>, n: map<ChunkHash, Bytes>, common: map<ChunkHash, Bytes>)
    requires common.Keys == m.Keys * n.Keys && forall h :: h in common ==> common[h] == m[h]
    ensures m == (m - n.Keys) + common
  {
  }

  lemma {:induction false} WithoutDependsOnMembers(s: seq<ChunkHash>, a: set<ChunkHash>, b: set<ChunkHash>)
    requires forall h :: h in s ==> (h in a <==> h in b)
    ensures Without(s, a) == Without(s, b)
  {
    if s != [] {
      WithoutDependsOnMembers(s[1..], a, b);
    }
  }

  lemma TryPinKeepsWellFormed(sha: Sha, s: Store, batch: seq<Bytes>)
    requires WellFormed(s) && TryPin(sha, s, batch).Some?
    ensures WellFormed(TryPin(sha, s, batch).value)
  {
    var added := Pinnable(sha, s, batch);
    TotalUnion(s.pinned, added);
    TotalSplit(s.cached, added.Keys);
    WithoutKeepsDistinct(s.recency, added.Keys);
    assert ToSet(Without(s.recency, added.Keys)) == s.cached.Keys - added.Keys;
  }

  /**
   * `try_pin` is atomic and exact: it fails exactly when the pinned bytes and the distinct
   * not yet pinned bytes of the batch exceed the limit; on success the pinned digests are the
   * old ones and those of the batch, nothing readable is lost and no stored bytes change.
   */
  lemma TryPinIsExact(sha: Sha, s: Store, batch: seq<Bytes>)
    ensures TryPin(sha, s, batch).None? <==> Total(s.pinned) + Total(Pinnable(sha, s, batch)) > s.maxPinned
    ensures Pinnable(sha, s, batch).Keys == (set d | d in batch :: sha(d)) - s.pinned.Keys
    ensures TryPin(sha, s, batch).Some? ==>
              var t := TryPin(sha, s, batch).value;
              && t.pinned.Keys == s.pinned.Keys + (set d | d in batch :: sha(d))
              && (forall h :: Contains(s, h) ==> Lookup(t, h) == Lookup(s, h))
              && (forall h :: Contains(t, h) && !Contains(s, h) ==> Lookup(t, h).value in batch)
  {
    FirstOfMembers(sha, batch);
    var first, added := FirstOf(sha, batch), Pinnable(sha, s, batch);
    forall h | h in added && !Contains(s, h) ensures added[h] in batch {
      assert first[h] in first.Values;
    }
  }

  // ---------------------------------------------------------------- cache

  ghost function Oldest(s: Store, k: nat): set<ChunkHash>
    requires k <= |s.recency|
  {
    ToSet(s.recency[..k])
  }

  /** Dropping the `k` least recently used chunks leaves room for `size` more bytes. */
  ghost predicate Fits(s: Store, size: nat, k: nat)
    requires k <= |s.recency|
  {
    Total(s.cached - Oldest(s, k)) + size <= s.maxCached
  }

  /** The shortest least recently used prefix that makes room. */
  ghost function DropCount(s: Store, size: nat, from: nat): (k: nat)
    requires WellFormed(s) && size <= s.maxCached && from <= |s.recency|
    requires forall j :: 0 <= j < from ==> !Fits(s, size, j)
    ensures k <= |s.recency| && Fits(s, size, k)
    ensures forall j :: 0 <= j < k ==> !Fits(s, size, j)
    decreases |s.recency| - from
  {
    if Fits(s, size, from) then from
    else
      assert from < |s.recency| by {
        assert s.recency[..|s.recency|] == s.recency;
        assert s.cached - Oldest(s, |s.recency|) == map[];
      }
      DropCount(s, size, from + 1)
  }

  /** The store without its `k` least recently used chunks. */
  ghost function Dropped(s: Store, k: nat): Store
    requires k <= |s.recency|
  {
    s.(cached := s.cached - Oldest(s, k), recency := s.recency[k..])
  }

  ghost function CacheChunk(sha: Sha, s: Store, data: Bytes): Store
    requires WellFormed(s)
  {
    var h := sha(data);
    if Contains(s, h) || |data| > s.maxCached then s
    else
      var room := Dropped(s, DropCount(s, |data|, 0));
      room.(cached := room.cached[h := data], recency := room.recency + [h])
  }

  lemma DistinctHalves(s: seq<ChunkHash>, k: nat)
    requires NoDuplicates(s) && k <= |s|
    ensures NoDuplicates(s[k..])
    ensures ToSet(s[k..]) == ToSet(s) - ToSet(s[..k])
  {
    forall i, j | 0 <= i < j < |s| - k
      ensures s[k..][i] != s[k..][j]
    {
      assert s[k + i] != s[k + j];
    }
    assert s == s[..k] + s[k..];
    forall x ensures x in s[k..] <==> x in s && x !in s[..k] {
      if x in s[k..] {
        var j :| 0 <= j < |s| - k && s[k..][j] == x;
        forall i | 0 <= i < k ensures s[..k][i] != x { assert s[i] != s[k + j]; }
      }
    }
  }

  lemma CacheChunkKeepsWellFormed(sha: Sha, s: Store, data: Bytes)
    requires WellFormed(s)
    ensures WellFormed(CacheChunk(sha, s, data))
  {
    hide DropCount, Total;
    var h := sha(data);
    if !Contains(s, h) && |data| <= s.maxCached {
      var k := DropCount(s, |data|, 0);
      var kept := s.cached - Oldest(s, k);
      TotalAdd(kept, h, data);
      DistinctHalves(s.recency, k);
      var r := s.recency[k..];
      assert ToSet(r) == kept.Keys;
      assert h !in r;
      assert ToSet(r + [h]) == ToSet(r) + {h} == kept[h := data].Keys;
    }
  }

  /**
   * `cache` never touches a pinned chunk.  When it stores a new chunk it removes a prefix of
   * the deque that makes room within the limit, and one chunk fewer would not have done.
   */
  lemma CacheDropsShortestOldestPrefix(sha: Sha, s: Store, data: Bytes) returns (k: nat)
    requires WellFormed(s)
    ensures CacheChunk(sha, s, data).pinned == s.pinned
    ensures Contains(s, sha(data)) || |data| > s.maxCached ==> CacheChunk(sha, s, data) == s
    ensures !Contains(s, sha(data)) && |data| <= s.maxCached ==>
              var h, t := sha(data), CacheChunk(sha, s, data);
              && k <= |s.recency|
              && t.recency == s.recency[k..] + [h]
              && t.cached == (s.cached - ToSet(s.recency[..k]))[h := data]
              && Total(s.cached - ToSet(s.recency[..k])) + |data| <= s.maxCached
              && forall j :: 0 <= j < k ==> Total(s.cached - ToSet(s.recency[..j])) + |data| > s.maxCached
    ensures !Contains(s, sha(data)) && |data| <= s.maxCached ==>
              Lookup(CacheChunk(sha, s, data), sha(data)) == Some(data)
  {
    hide ToSet, Total;
    k := 0;
    if !Contains(s, sha(data)) && |data| <= s.maxCached {
      k := DropCount(s, |data|, 0);
      assert Fits(s, |data|, k);
      forall j | 0 <= j < k ensures Total(s.cached - ToSet(s.recency[..j])) + |data| > s.maxCached {
        assert !Fits(s, |data|, j);
      }
    }
  }

  // ---------------------------------------------------------------- get, promote, evict

  /** `get` moves a cached chunk to the most recently used end. */
  function Touch(s: Store, h: ChunkHash): Store {
    if h in s.cached then s.(recency := Without(s.recency, {h}) + [h]) else s
  }

  ghost predicate CanPromote(s: Store, h: ChunkHash) {
    h in s.pinned || (h in s.cached && Total(s.pinned) + |s.cached[h]| <= s.maxPinned)
  }

  ghost function Promote(s: Store, h: ChunkHash): Store {
    if h in s.cached && h !in s.pinned && CanPromote(s, h) then
      s.(pinned := s.pinned[h := s.cached[h]], cached := s.cached - {h}, recency := Without(s.recency, {h}))
    else s
  }

  function Evict(s: Store, h: ChunkHash): Store {
    s.(pinned := s.pinned - {h}, cached := s.cached - {h}, recency := Without(s.recency, {h}))
  }

  lemma TouchKeepsWellFormed(s: Store, h: ChunkHash)
    requires WellFormed(s)
    ensures WellFormed(Touch(s, h))
  {
    WithoutKeepsDistinct(s.recency, {h});
    forall x ensures h in s.cached ==> (x in Touch(s, h).recency <==> x in s.recency) {}
  }

  lemma PromoteKeepsWellFormed(s: Store, h: ChunkHash)
    requires WellFormed(s)
    ensures WellFormed(Promote(s, h))
  {
    if h in s.cached && CanPromote(s, h) {
      TotalAdd(s.pinned, h, s.cached[h]);
      TotalRemove(s.cached, h);
      WithoutKeepsDistinct(s.recency, {h});
    }
  }

  lemma EvictKeepsWellFormed(s: Store, h: ChunkHash)
    requires WellFormed(s)
    ensures WellFormed(Evict(s, h))
  {
    WithoutKeepsDistinct(s.recency, {h});
    if h in s.pinned { TotalRemove(s.pinned, h); } else { assert s.pinned - {h} == s.pinned; }
    if h in s.cached { TotalRemove(s.cached, h); } else { assert s.cached - {h} == s.cached; }
  }

  /** What the chunk is stored as: pinned, cached, or not at all. */
  ghost predicate SameChunk(s: Store, t: Store, h: ChunkHash) {
    && (h in s.pinned <==> h in t.pinned) && (h in s.cached <==> h in t.cached)
    && (h in s.pinned ==> t.pinned[h] == s.pinned[h]) && (h in s.cached ==> t.cached[h] == s.cached[h])
  }

  /**
   * `promote_to_pinned` pins a cached chunk exactly when its bytes still fit the pin limit,
   * with the bytes it has, and does nothing to any other chunk.
   */
  lemma PromoteIsExact(s: Store, h: ChunkHash, x: ChunkHash)
    requires WellFormed(s)
    ensures h in s.cached ==>
              (h in Promote(s, h).pinned <==> Total(s.pinned) + |s.cached[h]| <= s.maxPinned)
              && Lookup(Promote(s, h), h) == Some(s.cached[h])
    ensures h in s.cached && Total(s.pinned) + |s.cached[h]| > s.maxPinned ==> Promote(s, h) == s
    ensures h !in s.cached ==> Promote(s, h) == s
    ensures CanPromote(s, h) <==> h in Promote(s, h).pinned
    ensures x != h ==> SameChunk(s, Promote(s, h), x)
  {
  }

  /** `evict` removes the chunk, however it is stored, and nothing else. */
  lemma EvictIsExact(s: Store, h: ChunkHash, x: ChunkHash)
    requires WellFormed(s)
    ensures !Contains(Evict(s, h), h) && h !in Evict(s, h).recency
    ensures x != h ==> SameChunk(s, Evict(s, h), x) && (x in s.recency ==> x in Evict(s, h).recency)
  {
  }

  /** `get` changes no chunk, and puts a cached one at the most recently used end. */
  lemma GetIsExact(s: Store, h: ChunkHash, x: ChunkHash)
    ensures SameChunk(s, Touch(s, h), x)
    ensures h in s.cached ==> Touch(s, h).recency != [] && Touch(s, h).recency[|Touch(s, h).recency| - 1] == h
    ensures h !in s.cached ==> Touch(s, h) == s
  {
  }

  // ---------------------------------------------------------------- whole runs

  datatype Op =
    | OpPin(batch: seq<Bytes>)
    | OpCache(data: Bytes)
    | OpGet(hash: ChunkHash)
    | OpPromote(hash: ChunkHash)
    | OpEvict(hash: ChunkHash)

  ghost function Apply(sha: Sha, s: Store, op: Op): Store
    requires WellFormed(s)
  {
    match op
    case OpPin(batch) => if TryPin(sha, s, batch).Some? then TryPin(sha, s, batch).value else s
    case OpCache(data) => CacheChunk(sha, s, data)
    case OpGet(h) => Touch(s, h)
    case OpPromote(h) => Promote(s, h)
    case OpEvict(h) => Evict(s, h)
  }

  lemma ApplyKeepsInvariant(sha: Sha, s: Store, op: Op)
    requires WellFormed(s)
    ensures WellFormed(Apply(sha, s, op))
    ensures Addressed(sha, s) ==> Addressed(sha, Apply(sha, s, op))
    ensures forall h :: h in s.pinned && op != OpEvict(h) ==> h in Apply(sha, s, op).pinned
  {
    match op
    case OpPin(batch) => if TryPin(sha, s, batch).Some? { TryPinKeepsWellFormed(sha, s, batch); }
    case OpCache(data) => CacheChunkKeepsWellFormed(sha, s, data);
    case OpGet(h) => TouchKeepsWellFormed(s, h);
    case OpPromote(h) => PromoteKeepsWellFormed(s, h);
    case OpEvict(h) => EvictKeepsWellFormed(s, h);
  }

  function Empty(maxPinned: nat, maxCached: nat): Store {
    Store(map[], map[], [], maxPinned, maxCached)
  }

  ghost function Run(sha: Sha, start: Store, ops: seq<Op>): (s: Store)
    requires WellFormed(start)
    ensures WellFormed(s)
  {
    if ops == [] then start
    else
      var before := Run(sha, start, ops[..|ops| - 1]);
      ApplyKeepsInvariant(sha, before, ops[|ops| - 1]);
      Apply(sha, before, ops[|ops| - 1])
  }

  /** The operation uses `h`: it caches it, or reads it while it is cached. */
  ghost predicate Uses(sha: Sha, s: Store, op: Op, h: ChunkHash)
    requires WellFormed(s)
  {
    match op
    case OpCache(data) => sha(data) == h && !Contains(s, h) && |data| <= s.maxCached
    case OpGet(x) => x == h && h in s.cached
    case _ => false
  }

  /** 1 + the position in the history of the last use of `h`; 0 when there was none. */
  ghost function LastUse(sha: Sha, start: Store, ops: seq<Op>, h: ChunkHash): (t: nat)
    requires WellFormed(start)
    ensures t <= |ops|
  {
    if ops == [] then 0
    else if Uses(sha, Run(sha, start, ops[..|ops| - 1]), ops[|ops| - 1], h) then |ops|
    else LastUse(sha, start, ops[..|ops| - 1], h)
  }

  ghost predicate InLastUseOrder(sha: Sha, start: Store, ops: seq<Op>, recency: seq<ChunkHash>)
    requires WellFormed(start)
  {
    Increasing(recency, h => LastUse(sha, start, ops, h))
  }

  /** `rank` increases strictly along `s`. */
  ghost predicate Increasing(s: seq<ChunkHash>, rank: ChunkHash -> int) {
    forall i, j :: 0 <= i < j < |s| ==> rank(s[i]) < rank(s[j])
  }

  lemma {:induction false} WithoutKeepsIncreasing(s: seq<ChunkHash>, gone: set<ChunkHash>, rank: ChunkHash -> int)
    requires Increasing(s, rank)
    ensures Increasing(Without(s, gone), rank)
  {
    if s != [] {
      var tail, r := s[1..], Without(s, gone);
      forall i, j | 0 <= i < j < |tail| ensures rank(tail[i]) < rank(tail[j]) { assert tail[i] == s[i + 1]; }
      WithoutKeepsIncreasing(tail, gone, rank);
      if s[0] !in gone {
        var rest := Without(tail, gone);
        forall j | 0 <= j < |rest|
          ensures rank(s[0]) < rank(rest[j])
        {
          assert rest[j] in tail;
          var i :| 0 <= i < |tail| && tail[i] == rest[j];
          assert tail[i] == s[i + 1];
        }
        assert r == [s[0]] + rest;
      }
    }
  }

  /**
   * Whatever is done to an empty store, its deque lists the unpinned chunks, once each, in
   * the exact order of their last use, the sizes respect the limits and no key is stale.
   */
  lemma {:induction false} RecencyIsLastUseOrder(sha: Sha, maxPinned: nat, maxCached: nat, ops: seq<Op>)
    ensures var start := Empty(maxPinned, maxCached); var s := Run(sha, start, ops);
            WellFormed(s) && Addressed(sha, s) && InLastUseOrder(sha, start, ops, s.recency)
  {
    var start := Empty(maxPinned, maxCached);
    if ops != [] {
      var front, op := ops[..|ops| - 1], ops[|ops| - 1];
      RecencyIsLastUseOrder(sha, maxPinned, maxCached, front);
      var before := Run(sha, start, front);
      ApplyKeepsInvariant(sha, before, op);
      StepKeepsLastUseOrder(sha, start, ops);
    }
  }

  lemma StepKeepsLastUseOrder(sha: Sha, start: Store, ops: seq<Op>)
    requires WellFormed(start) && ops != []
    requires InLastUseOrder(sha, start, ops[..|ops| - 1], Run(sha, start, ops[..|ops| - 1]).recency)
    ensures InLastUseOrder(sha, start, ops, Run(sha, start, ops).recency)
  {
    var front, op := ops[..|ops| - 1], ops[|ops| - 1];
    var before := Run(sha, start, front);
    var rank, rank' := (h: ChunkHash) => LastUse(sha, start, front, h), (h: ChunkHash) => LastUse(sha, start, ops, h);
    assert Increasing(before.recency, rank);
    forall h ensures rank'(h) == if Uses(sha, before, op, h) then |ops| else rank(h) {
      LastUseStep(sha, start, ops, h);
    }
    StepOrder(sha, before, op, rank, rank', |ops|);
    assert Run(sha, start, ops) == Apply(sha, before, op);
  }

  lemma LastUseStep(sha: Sha, start: Store, ops: seq<Op>, h: ChunkHash)
    requires WellFormed(start) && ops != []
    ensures LastUse(sha, start, ops, h) ==
            if Uses(sha, Run(sha, start, ops[..|ops| - 1]), ops[|ops| - 1], h) then |ops|
            else LastUse(sha, start, ops[..|ops| - 1], h)
  {
  }

  /** The deque after an operation: what is left keeps its order, what was used goes last. */
  lemma StepOrder(sha: Sha, s: Store, op: Op, rank: ChunkHash -> int, rank': ChunkHash -> int, now: int)
    requires WellFormed(s) && Increasing(s.recency, rank)
    requires forall h :: rank'(h) == if Uses(sha, s, op, h) then now else rank(h)
    requires forall h :: rank(h) < now
    ensures Increasing(Apply(sha, s, op).recency, rank')
  {
    var t := Apply(sha, s, op);
    if h :| Uses(sha, s, op, h) {
      var kept := UsedChunk(sha, s, op, h, rank);
      UsedGoesLast(kept, h, rank, rank');
    } else {
      UnusedOnlyRemoves(sha, s, op, rank);
      assert forall i :: 0 <= i < |t.recency| ==> rank'(t.recency[i]) == rank(t.recency[i]);
    }
  }

  lemma UsedChunk(sha: Sha, s: Store, op: Op, h: ChunkHash, rank: ChunkHash -> int) returns (kept: seq<ChunkHash>)
    requires WellFormed(s) && Increasing(s.recency, rank) && Uses(sha, s, op, h)
    ensures Apply(sha, s, op).recency == kept + [h] && h !in kept && Increasing(kept, rank)
  {
    if op.OpCache? {
      var k := DropCount(s, |op.data|, 0);
      kept := s.recency[k..];
      SuffixKeepsIncreasing(s.recency, k, rank);
      assert h !in ToSet(s.recency);
    } else {
      kept := Without(s.recency, {h});
      WithoutKeepsIncreasing(s.recency, {h}, rank);
    }
  }

  lemma SuffixKeepsIncreasing(s: seq<ChunkHash>, k: nat, rank: ChunkHash -> int)
    requires Increasing(s, rank) && k <= |s|
    ensures Increasing(s[k..], rank)
    ensures forall h :: h in s[k..] ==> h in s
  {
    var kept := s[k..];
    forall i, j | 0 <= i < j < |kept| ensures rank(kept[i]) < rank(kept[j]) {
      assert kept[i] == s[k + i] && kept[j] == s[k + j];
    }
  }

  lemma UnusedOnlyRemoves(sha: Sha, s: Store, op: Op, rank: ChunkHash -> int)
    requires WellFormed(s) && Increasing(s.recency, rank)
    requires forall h :: !Uses(sha, s, op, h)
    ensures Increasing(Apply(sha, s, op).recency, rank)
  {
    match op
    case OpPin(batch) =>
      if TryPin(sha, s, batch).Some? { WithoutKeepsIncreasing(s.recency, Pinnable(sha, s, batch).Keys, rank); }
    case OpCache(data) => assert !Uses(sha, s, op, sha(data));
    case OpGet(h) => assert !Uses(sha, s, op, h);
    case OpPromote(h) => WithoutKeepsIncreasing(s.recency, {h}, rank);
    case OpEvict(h) => WithoutKeepsIncreasing(s.recency, {h}, rank);
  }

  lemma UsedGoesLast(s: seq<ChunkHash>, h: ChunkHash, rank: ChunkHash -> int, rank': ChunkHash -> int)
    requires Increasing(s, rank) && h !in s
    requires forall x :: x != h ==> rank'(x) == rank(x) < rank'(h)
    ensures Increasing(s + [h], rank')
  {
    var r := s + [h];
    forall i, j | 0 <= i < j < |r| ensures rank'(r[i]) < rank'(r[j]) {
      assert r[i] == s[i];
    }
  }
}
