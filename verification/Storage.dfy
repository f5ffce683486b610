/**
 * The chunk store with its flags, deque and running byte counters
 * (src/filesystem/storage.rs), proved to refine `StorageModel`.
 */
module Storage {
  import opened Domain
  import opened StorageModel

  datatype ChunkEntry = ChunkEntry(data: Bytes, pinned: bool)

  const FASTCDC_MAX_CHUNK_SIZE: nat := 1024 * 1024
  const MAX_CACHED_BYTES: nat := FASTCDC_MAX_CHUNK_SIZE * 16

  class ChunkStorage {
    const sha: Sha
    const maxPinnedBytes: nat
    const maxCachedBytes: nat
    var chunks: map<ChunkHash, ChunkEntry>
    var cacheLru: seq<ChunkHash>
    var pinnedBytes: nat
    var cachedBytes: nat

    /** The store these fields stand for. */
    ghost var view: Store

    /** The flags split the entries as the view does, and the counters are its sums. */
    ghost predicate Accounted()
      reads this
    {
      && view.maxPinned == maxPinnedBytes && view.maxCached == maxCachedBytes
      && view.recency == cacheLru
      && Splits(chunks, view)
      && pinnedBytes == Total(view.pinned) && cachedBytes == Total(view.cached)
    }

    ghost predicate Valid()
      reads this
    {
      WellFormed(view) && Addressed(sha, view) && Accounted()
    }

    constructor (sha: Sha, maxPinnedBytes: nat)
      ensures Valid() && view == Empty(maxPinnedBytes, MAX_CACHED_BYTES) && this.sha == sha
    {
      this.sha := sha;
      this.maxPinnedBytes := maxPinnedBytes;
      this.maxCachedBytes := MAX_CACHED_BYTES;
      chunks, cacheLru, pinnedBytes, cachedBytes := map[], [], 0, 0;
      view := Empty(maxPinnedBytes, MAX_CACHED_BYTES);
    }

    method FreeBytes() returns (free: nat)
      requires Valid()
      ensures free + Total(view.pinned) == maxPinnedBytes
    {
      free := maxPinnedBytes - pinnedBytes;
    }

    method TryPin(batch: seq<Bytes>) returns (ok: bool)
      requires Valid()
      modifies this
      ensures Valid()
      ensures ok == StorageModel.TryPin(sha, old(view), batch).Some?
      ensures view == if ok then StorageModel.TryPin(sha, old(view), batch).value else old(view)
    {
      hide Surveyed, PinSet, FirstOf, Pinnable, Without, Total, WellFormed, DistinctDigests, Splits, Addressed;
      var required, newChunks, cachedHashes := Survey(batch);
      if pinnedBytes + required > maxPinnedBytes {
        return false;
      }
      SurveyAllows(view, batch, newChunks, cachedHashes);
      PinSurveyed(newChunks, cachedHashes);
      return true;
    }

    /** The two loops that follow. */
    method PinSurveyed(newChunks: seq<Bytes>, cachedHashes: seq<ChunkHash>)
      requires Accounted() && DistinctDigests(sha, newChunks) && NoDuplicates(cachedHashes)
      requires forall k :: 0 <= k < |newChunks| ==> !Contains(view, sha(newChunks[k]))
      requires forall h :: h in cachedHashes ==> h in view.cached
      modifies this
      ensures Accounted()
      ensures view == PinSet(old(view).(pinned := old(view).pinned + FirstOf(sha, newChunks)), ToSet(cachedHashes))
    {
      PinNewChunks(newChunks);
      PinCachedHashes(cachedHashes);
    }

    /** What the survey of a batch that fits gives to these loops, and what they make of the store. */
    lemma SurveyAllows(s: Store, batch: seq<Bytes>, newChunks: seq<Bytes>, cachedHashes: seq<ChunkHash>)
      requires WellFormed(s) && Addressed(sha, s)
      requires Surveyed(sha, s, Pinnable(sha, s, batch), newChunks, cachedHashes)
      requires StorageModel.TryPin(sha, s, batch).Some?
      ensures DistinctDigests(sha, newChunks) && NoDuplicates(cachedHashes)
      ensures forall k :: 0 <= k < |newChunks| ==> !Contains(s, sha(newChunks[k]))
      ensures forall h :: h in cachedHashes ==> h in s.cached
      ensures var t := StorageModel.TryPin(sha, s, batch).value;
              && WellFormed(t) && Addressed(sha, t)
              && t == PinSet(s.(pinned := s.pinned + FirstOf(sha, newChunks)), ToSet(cachedHashes))
    {
      hide StorageModel.TryPin, PinSet, FirstOf, Pinnable, Without, Total;
      ApplyKeepsInvariant(sha, s, OpPin(batch));
      SurveyedGivesTryPin(sha, s, batch, newChunks, cachedHashes);
      SurveyIsFresh(s, batch, newChunks, cachedHashes);
    }

    /** The first loop: skips repeated digests, adds up what is missing, sorts it by kind. */
    method Survey(batch: seq<Bytes>) returns (required: nat, newChunks: seq<Bytes>, cachedHashes: seq<ChunkHash>)
      requires Valid()
      ensures required == Total(Pinnable(sha, view, batch))
      ensures Surveyed(sha, view, Pinnable(sha, view, batch), newChunks, cachedHashes)
    {
      hide Surveyed, Pinnable, FirstOf, Total;
      var seen: set<ChunkHash> := {};
      NothingSurveyed();
      required, newChunks, cachedHashes := 0, [], [];
      for i := 0 to |batch|
        invariant required == Total(Pinnable(sha, view, batch[..i]))
        invariant seen == FirstOf(sha, batch[..i]).Keys
        invariant Surveyed(sha, view, Pinnable(sha, view, batch[..i]), newChunks, cachedHashes)
      {
        var r, n, c := SurveyOne(batch[..i], seen, batch[i], required, newChunks, cachedHashes);
        PinnableStep(sha, view, batch[..i], batch[i]);
        assert batch[..i + 1] == batch[..i] + [batch[i]];
        seen := seen + {sha(batch[i])};
        required, newChunks, cachedHashes := r, n, c;
      }
      assert batch[..|batch|] == batch;
    }

    lemma NothingSurveyed()
      ensures Total(Pinnable(sha, view, [])) == 0 && FirstOf(sha, []).Keys == {}
      ensures Surveyed(sha, view, Pinnable(sha, view, []), [], [])
    {
    }

    /** One round of that loop. */
    method SurveyOne(ghost done: seq<Bytes>, seen: set<ChunkHash>, chunk: Bytes,
                     required: nat, newChunks: seq<Bytes>, cachedHashes: seq<ChunkHash>)
      returns (required': nat, newChunks': seq<Bytes>, cachedHashes': seq<ChunkHash>)
      requires Valid() && seen == FirstOf(sha, done).Keys && required == Total(Pinnable(sha, view, done))
      requires Surveyed(sha, view, Pinnable(sha, view, done), newChunks, cachedHashes)
      ensures required' == Total(Pinnable(sha, view, done + [chunk]))
      ensures Surveyed(sha, view, Pinnable(sha, view, done + [chunk]), newChunks', cachedHashes')
    {
      required', newChunks', cachedHashes' := required, newChunks, cachedHashes;
      var hash := sha(chunk);
      PinnableStep(sha, view, done, chunk);
      if hash in seen {
        return;
      }
      if hash !in chunks {
        SurveyExtends(sha, view, done, chunk, newChunks, cachedHashes);
        TotalAdd(Pinnable(sha, view, done), hash, chunk);
        required' := required + |chunk|;
        newChunks' := newChunks + [chunk];
      } else if !chunks[hash].pinned {
        SurveyExtends(sha, view, done, chunk, newChunks, cachedHashes);
        TotalAdd(Pinnable(sha, view, done), hash, chunks[hash].data);
        required' := required + |chunks[hash].data|;
        cachedHashes' := cachedHashes + [hash];
      }
    }

    lemma SurveyIsFresh(s: Store, batch: seq<Bytes>, newChunks: seq<Bytes>, cachedHashes: seq<ChunkHash>)
      requires Surveyed(sha, s, Pinnable(sha, s, batch), newChunks, cachedHashes)
      ensures forall k :: 0 <= k < |newChunks| ==> !Contains(s, sha(newChunks[k]))
      ensures forall h :: h in cachedHashes ==> h in s.cached
    {
      FirstOfMembers(sha, newChunks);
      forall k | 0 <= k < |newChunks| ensures !Contains(s, sha(newChunks[k])) {
        assert newChunks[k] in newChunks;
        assert sha(newChunks[k]) in FirstOf(sha, newChunks);
      }
      assert forall h :: h in cachedHashes ==> h in ToSet(cachedHashes);
    }

    method PinNewChunks(newChunks: seq<Bytes>)
      requires Accounted() && DistinctDigests(sha, newChunks)
      requires forall k :: 0 <= k < |newChunks| ==> !Contains(view, sha(newChunks[k]))
      modifies this
      ensures Accounted()
      ensures view == old(view).(pinned := old(view).pinned + FirstOf(sha, newChunks))
    {
      ghost var start := view;
      for j := 0 to |newChunks|
        invariant Accounted()
        invariant view == start.(pinned := start.pinned + FirstOf(sha, newChunks[..j]))
      {
        FirstOfStep(sha, newChunks, j);
        MapUnionInsert(start.pinned, FirstOf(sha, newChunks[..j]), sha(newChunks[j]), newChunks[j]);
        InsertPinned(sha(newChunks[j]), newChunks[j]);
      }
      assert newChunks[..|newChunks|] == newChunks;
    }

    method PinCachedHashes(cachedHashes: seq<ChunkHash>)
      requires Accounted() && NoDuplicates(cachedHashes)
      requires forall h :: h in cachedHashes ==> h in view.cached
      modifies this
      ensures Accounted()
      ensures view == PinSet(old(view), ToSet(cachedHashes))
    {
      ghost var start, moved := view, {};
      WithoutNothing(start.recency, {});
      assert PinSet(start, {}) == start;
      for j := 0 to |cachedHashes|
        invariant Accounted() && view == PinSet(start, moved)
        invariant moved == ToSet(cachedHashes[..j])
      {
        var hash := cachedHashes[j];
        assert hash in cachedHashes && hash !in moved;
        PinSetStep(start, moved, hash);
        TakeOneMore(cachedHashes, j);
        PinCached(hash);
        moved := moved + {hash};
      }
      assert cachedHashes[..|cachedHashes|] == cachedHashes;
    }

    method InsertPinned(hash: ChunkHash, data: Bytes)
      requires Accounted() && hash !in chunks
      modifies this
      ensures Accounted()
      ensures view == old(view).(pinned := old(view).pinned[hash := data])
    {
      TotalAdd(view.pinned, hash, data);
      pinnedBytes := pinnedBytes + |data|;
      chunks := chunks[hash := ChunkEntry(data, true)];
      view := view.(pinned := view.pinned[hash := data]);
    }

    /** The cached entry becomes a pinned one and leaves the deque. */
    method PinCached(hash: ChunkHash)
      requires Accounted() && hash in view.cached
      modifies this
      ensures Accounted()
      ensures view == old(view).(pinned := old(view).pinned[hash := old(view).cached[hash]],
                                     cached := old(view).cached - {hash},
                                     recency := Without(old(view).recency, {hash}))
    {
      ghost var before := view;
      var entry := chunks[hash];
      TotalAdd(before.pinned, hash, entry.data);
      TotalRemove(before.cached, hash);
      chunks := chunks[hash := entry.(pinned := true)];
      pinnedBytes := pinnedBytes + |entry.data|;
      cachedBytes := cachedBytes - |entry.data|;
      cacheLru := Without(cacheLru, {hash});
      view := Store(before.pinned[hash := entry.data], before.cached - {hash}, cacheLru, maxPinnedBytes,
                    maxCachedBytes);
    }

    method Cache(data: Bytes)
      requires Valid()
      modifies this
      ensures Valid() && view == CacheChunk(sha, old(view), data)
    {
      var hash := sha(data);
      CacheChunkKeepsWellFormed(sha, view, data);
      if hash in chunks || |data| > maxCachedBytes {
        return;
      }
      MakeRoom(|data|);
      PushCached(hash, data);
    }

    method PushCached(hash: ChunkHash, data: Bytes)
      requires Accounted() && !Contains(view, hash)
      modifies this
      ensures Accounted()
      ensures view == old(view).(cached := old(view).cached[hash := data], recency := old(view).recency + [hash])
    {
      TotalAdd(view.cached, hash, data);
      cacheLru := cacheLru + [hash];
      chunks := chunks[hash := ChunkEntry(data, false)];
      cachedBytes := cachedBytes + |data|;
      view := view.(cached := view.cached[hash := data], recency := cacheLru);
    }

    /** The eviction loop of `cache`. */
    method MakeRoom(size: nat)
      requires Valid() && size <= maxCachedBytes
      modifies this
      ensures Accounted()
      ensures view == Dropped(old(view), DropCount(old(view), size, 0))
    {
      ghost var start := view;
      ghost var k, last := 0, DropCount(start, size, 0);
      assert start.cached - Oldest(start, 0) == start.cached;
      while cachedBytes + size > maxCachedBytes
        invariant k <= last && Accounted()
        invariant view == Dropped(start, k)
        decreases last - k
      {
        StopsAtDropCount(start, size, k);
        NextToDrop(start, k);
        if cacheLru == [] {
          assert false;
        }
        DropFront();
        k := k + 1;
      }
      StopsAtDropCount(start, size, k);
    }

    /** One round of that loop: the front of the deque and its entry go. */
    method DropFront()
      requires Accounted() && cacheLru != [] && cacheLru[0] in view.cached
      modifies this
      ensures Accounted()
      ensures view == old(view).(cached := old(view).cached - {old(cacheLru)[0]}, recency := old(cacheLru)[1..])
    {
      var hash := cacheLru[0];
      cacheLru := cacheLru[1..];
      if hash in chunks {
        TotalRemove(view.cached, hash);
        cachedBytes := cachedBytes - |chunks[hash].data|;
        chunks := chunks - {hash};
      }
      view := view.(cached := view.cached - {hash}, recency := cacheLru);
    }

    method Get(hash: ChunkHash) returns (data: Option<Bytes>)
      requires Valid()
      modifies `cacheLru, `view
      ensures Valid()
      ensures data == Lookup(old(view), hash)
      ensures view == Touch(old(view), hash)
    {
      TouchKeepsWellFormed(view, hash);
      if hash !in chunks {
        return None;
      }
      if !chunks[hash].pinned {
        cacheLru := Without(cacheLru, {hash}) + [hash];
        view := view.(recency := cacheLru);
      }
      return Some(chunks[hash].data);
    }

    method IsPinned(hash: ChunkHash) returns (pinned: bool)
      requires Valid()
      ensures pinned <==> hash in view.pinned
    {
      pinned := hash in chunks && chunks[hash].pinned;
    }

    method IsCached(hash: ChunkHash) returns (cached: bool)
      requires Valid()
      ensures cached <==> hash in view.cached
    {
      cached := hash in chunks && !chunks[hash].pinned;
    }

    method PinnedHashes() returns (hashes: set<ChunkHash>)
      requires Valid()
      ensures hashes == view.pinned.Keys
    {
      hashes := set h | h in chunks && chunks[h].pinned;
    }

    method PromoteToPinned(hash: ChunkHash) returns (ok: bool)
      requires Valid()
      modifies this
      ensures Valid()
      ensures ok == CanPromote(old(view), hash)
      ensures view == Promote(old(view), hash)
    {
      PromoteKeepsWellFormed(view, hash);
      if hash !in chunks {
        return false;
      }
      if chunks[hash].pinned {
        return true;
      }
      if pinnedBytes + |chunks[hash].data| > maxPinnedBytes {
        return false;
      }
      PinCached(hash);
      return true;
    }

    method EvictChunk(hash: ChunkHash) returns (removed: bool)
      requires Valid()
      modifies this
      ensures Valid()
      ensures removed == Contains(old(view), hash)
      ensures view == Evict(old(view), hash)
    {
      ghost var before := view;
      EvictKeepsWellFormed(before, hash);
      if hash !in chunks {
        NotInDeque(before, hash);
        MapRemoveAbsent(before.pinned, hash);
        MapRemoveAbsent(before.cached, hash);
        return false;
      }
      var entry := chunks[hash];
      chunks := chunks - {hash};
      view := Evict(before, hash);
      if entry.pinned {
        TotalRemove(before.pinned, hash);
        pinnedBytes := pinnedBytes - |entry.data|;
        NotInDeque(before, hash);
        MapRemoveAbsent(before.cached, hash);
      } else {
        TotalRemove(before.cached, hash);
        cachedBytes := cachedBytes - |entry.data|;
        cacheLru := Without(cacheLru, {hash});
        MapRemoveAbsent(before.pinned, hash);
      }
      return true;
    }
  }

  /** `s` holds exactly these entries, pinned and cached ones apart. */
  ghost predicate Splits(chunks: map<ChunkHash, ChunkEntry>, s: Store) {
    && (forall h :: h in s.pinned <==> h in chunks && chunks[h].pinned)
    && (forall h :: h in s.cached <==> h in chunks && !chunks[h].pinned)
    && (forall h :: h in s.pinned ==> s.pinned[h] == chunks[h].data)
    && (forall h :: h in s.cached ==> s.cached[h] == chunks[h].data)
  }

  lemma NotInDeque(s: Store, h: ChunkHash)
    requires WellFormed(s) && h !in s.cached
    ensures Without(s.recency, {h}) == s.recency
  {
    assert h !in ToSet(s.recency);
    WithoutNothing(s.recency, {h});
  }

  /** The loop of `cache` stops exactly at the least sufficient count. */
  lemma StopsAtDropCount(s: Store, size: nat, k: nat)
    requires WellFormed(s) && size <= s.maxCached && k <= DropCount(s, size, 0)
    ensures Fits(s, size, k) <==> k == DropCount(s, size, 0)
  {
    var d := DropCount(s, size, 0);
    assert forall j :: 0 <= j < d ==> !Fits(s, size, j);
  }

  /** Before that the deque has a front, and its entry is a cached one. */
  lemma NextToDrop(s: Store, k: nat)
    requires WellFormed(s) && k < |s.recency|
    ensures s.recency[k..] != [] && s.recency[k..][0] == s.recency[k]
    ensures s.recency[k..][1..] == s.recency[k + 1..]
    ensures s.recency[k] in Dropped(s, k).cached
    ensures Dropped(s, k + 1).cached == Dropped(s, k).cached - {s.recency[k]}
  {
    var oldest := s.recency[k];
    DistinctHalves(s.recency, k);
    assert oldest in s.recency[k..];
    assert oldest in ToSet(s.recency) && oldest !in ToSet(s.recency[..k]);
    TakeOneMore(s.recency, k);
    MapRemoveTwice(s.cached, Oldest(s, k), {oldest});
  }
}
