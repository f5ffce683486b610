/**
 * The paths that join an open handle to the file system: `fetch_missing_chunks`
 * (src/fuse/gateway.rs) and the commit on release (src/fuse/mod.rs).
 */
module Fuse {
  import opened Domain
  import opened Tree
  import opened Namespace
  import opened NodeTrees
  import opened StorageModel
  import opened Storage
  import opened Content
  import opened FileSystems
  import opened FileSystemRuns
  import OpenFiles

  // ---------------------------------------------------------------- the caching loop

  ghost function CacheAll(sha: Sha, s: Store, fetched: seq<Option<Bytes>>): (t: Store)
    requires WellFormed(s)
    ensures WellFormed(t)
  {
    if fetched == [] then s
    else
      var before := CacheAll(sha, s, fetched[..|fetched| - 1]);
      match fetched[|fetched| - 1]
      case None => before
      case Some(data) =>
        CacheChunkKeepsWellFormed(sha, before, data);
        CacheChunk(sha, before, data)
  }

  method CacheFetched(storage: ChunkStorage, fetched: seq<Option<Bytes>>) returns (allFetched: bool)
    requires storage.Valid()
    modifies storage
    ensures storage.Valid() && storage.view == CacheAll(storage.sha, old(storage.view), fetched)
    ensures allFetched <==> forall i :: 0 <= i < |fetched| ==> fetched[i].Some?
  {
    allFetched := true;
    for i := 0 to |fetched|
      invariant storage.Valid() && storage.view == CacheAll(storage.sha, old(storage.view), fetched[..i])
      invariant allFetched <==> forall j :: 0 <= j < i ==> fetched[j].Some?
    {
      assert fetched[..i + 1][..i] == fetched[..i] && fetched[..i + 1][i] == fetched[i];
      match fetched[i]
      case Some(data) => storage.Cache(data);
      case None => allFetched := false;
    }
    assert fetched[..|fetched|] == fetched;
  }

  // ---------------------------------------------------------------- when a pass succeeds

  /** How many chunks at the front of the deque are none of the consulted ones. */
  function Spared(recency: seq<ChunkHash>, consulted: seq<ChunkHash>): (p: nat)
    ensures p <= |recency|
    ensures forall j :: 0 <= j < p ==> recency[j] !in consulted
    ensures p < |recency| ==> recency[p] in consulted
  {
    if recency == [] || recency[0] in consulted then 0 else 1 + Spared(recency[1..], consulted)
  }

  /** The bytes a pass brought, when it fetched everything. */
  function Values(fetched: seq<Option<Bytes>>): seq<Bytes>
    requires AllFetched(fetched)
  {
    seq(|fetched|, i requires 0 <= i < |fetched| => fetched[i].value)
  }

  predicate AllFetched(fetched: seq<Option<Bytes>>) {
    forall i :: 0 <= i < |fetched| ==> fetched[i].Some?
  }

  /** The pass fetched each missing chunk, and one digest always brought the same bytes. */
  ghost predicate Fetches(sha: Sha, missing: seq<ChunkHash>, fetched: seq<Option<Bytes>>) {
    && |fetched| == |missing| && AllFetched(fetched)
    && (forall i :: 0 <= i < |fetched| ==> sha(fetched[i].value) == missing[i])
    && (forall i, j :: 0 <= i < |missing| && 0 <= j < |missing| && missing[i] == missing[j] ==>
        fetched[i] == fetched[j])
  }

  /** What each missing digest brought. */
  ghost predicate Brought(sha: Sha, fetched: seq<Option<Bytes>>, all: map<ChunkHash, Bytes>) {
    forall i :: 0 <= i < |fetched| ==>
      fetched[i].Some? && sha(fetched[i].value) in all && all[sha(fetched[i].value)] == fetched[i].value
  }

  lemma DistinctFetched(sha: Sha, missing: seq<ChunkHash>, fetched: seq<Option<Bytes>>)
    requires Fetches(sha, missing, fetched)
    ensures FirstOf(sha, Values(fetched)).Keys == ToSet(missing)
    ensures Brought(sha, fetched, FirstOf(sha, Values(fetched)))
  {
    var data := Values(fetched);
    var all := FirstOf(sha, data);
    FirstOfMembers(sha, data);
    forall i | 0 <= i < |fetched| ensures missing[i] in all && all[missing[i]] == fetched[i].value {
      assert data[i] in data;
      assert all[missing[i]] in all.Values;
      var j :| 0 <= j < |data| && data[j] == all[missing[i]];
      assert missing[j] == missing[i];
    }
    forall h | h in all ensures h in ToSet(missing) {
      var d :| d in data && sha(d) == h;
      var j :| 0 <= j < |data| && data[j] == d;
      assert missing[j] == h;
    }
  }

  /**
   * A store during a pass: the deque is a rest of the old one followed by fetched chunks,
   * and every cached chunk has its old bytes or those that were fetched.
   */
  ghost predicate During(s: Store, all: map<ChunkHash, Bytes>, t: Store, k: nat, more: seq<ChunkHash>) {
    && WellFormed(t) && t.pinned == s.pinned && t.maxCached == s.maxCached
    && k <= |s.recency| && t.recency == s.recency[k..] + more
    && (forall h :: h in more ==> h in all)
    && (forall h :: h in t.cached ==>
        if h in all then t.cached[h] == all[h] else h in s.cached && t.cached[h] == s.cached[h])
  }

  lemma DropDuring(s: Store, all: map<ChunkHash, Bytes>, t: Store, k: nat, more: seq<ChunkHash>, j: nat)
    returns (k': nat, more': seq<ChunkHash>)
    requires During(s, all, t, k, more) && j <= |t.recency|
    ensures k' <= |s.recency| && t.recency[j..] == s.recency[k'..] + more' && forall h :: h in more' ==> h in more
    ensures k + j <= |s.recency| ==> k' == k + j && more' == more
  {
    if k + j <= |s.recency| {
      k', more' := k + j, more;
      assert s.recency[k..][j..] == s.recency[k + j..];
    } else {
      k', more' := |s.recency|, more[k + j - |s.recency|..];
    }
  }

  lemma CacheDuring(sha: Sha, s: Store, all: map<ChunkHash, Bytes>, t: Store, k: nat, more: seq<ChunkHash>, data: Bytes)
    returns (k': nat, more': seq<ChunkHash>)
    requires During(s, all, t, k, more) && sha(data) in all && all[sha(data)] == data
    ensures During(s, all, CacheChunk(sha, t, data), k', more')
    ensures Contains(t, sha(data)) ==> k' == k && more' == more
    ensures !Contains(t, sha(data)) && |data| <= t.maxCached && k + DropCount(t, |data|, 0) <= |s.recency| ==>
              k' == k + DropCount(t, |data|, 0) && more' == more + [sha(data)]
  {
    k', more' := k, more;
    if !Contains(t, sha(data)) && |data| <= t.maxCached {
      var j := DropCount(t, |data|, 0);
      k', more' := DropDuring(s, all, t, k, more, j);
      CacheChunkKeepsWellFormed(sha, t, data);
      AppendAssociative(s.recency[k'..], more', [sha(data)]);
      more' := more' + [sha(data)];
    }
  }

  lemma {:induction false} PassDuring(sha: Sha, s: Store, all: map<ChunkHash, Bytes>, fetched: seq<Option<Bytes>>)
    returns (k: nat, more: seq<ChunkHash>)
    requires WellFormed(s) && Brought(sha, fetched, all) && forall h :: h in all ==> h !in s.cached
    ensures During(s, all, CacheAll(sha, s, fetched), k, more)
  {
    hide During, CacheChunk, WellFormed;
    if fetched == [] {
      k, more := 0, [];
      PassStarts(s, all);
    } else {
      var n := |fetched| - 1;
      BroughtBefore(sha, fetched, all);
      k, more := PassDuring(sha, s, all, fetched[..n]);
      k, more := CacheDuring(sha, s, all, CacheAll(sha, s, fetched[..n]), k, more, fetched[n].value);
    }
  }

  lemma TotalGrows(m: map<ChunkHash, Bytes>, n: map<ChunkHash, Bytes>)
    requires m.Keys <= n.Keys && forall h :: h in m ==> m[h] == n[h]
    ensures Total(m) <= Total(n)
  {
    TotalSplit(n, m.Keys);
    assert (map h | h in n && h in m.Keys :: n[h]) == m;
  }

  /** If the pass left nothing missing, what it had to keep and what it fetched fit together. */
  lemma SuccessFits(sha: Sha, s: Store, consulted: seq<ChunkHash>, all: map<ChunkHash, Bytes>,
                    t: Store, k: nat, more: seq<ChunkHash>)
    requires WellFormed(s) && During(s, all, t, k, more)
    requires forall h :: h in all ==> !Contains(s, h)
    requires forall h :: h in consulted ==> Contains(t, h)
    requires forall h :: h in all ==> h in consulted
    ensures Total(s.cached - Oldest(s, Spared(s.recency, consulted))) + Total(all) <= s.maxCached
  {
    var p := Spared(s.recency, consulted);
    var kept := s.cached - Oldest(s, p);
    if p < |s.recency| { SparedIsKept(s, consulted, all, t, k, more); }
    forall h | h in kept ensures h in t.cached && t.cached[h] == s.cached[h] { StillCached(s, all, t, k, more, p, h); }
    forall h | h in all ensures h in t.cached && t.cached[h] == all[h] && h !in kept {
      assert h in consulted;
    }
    hide During, WellFormed, Spared, Oldest;
    BothAreCached(kept, all, t.cached);
    WithinLimit(s, all, t, k, more);
  }

  lemma BothAreCached(kept: map<ChunkHash, Bytes>, all: map<ChunkHash, Bytes>, cached: map<ChunkHash, Bytes>)
    requires forall h :: h in kept ==> h in cached && cached[h] == kept[h]
    requires forall h :: h in all ==> h in cached && cached[h] == all[h] && h !in kept
    ensures Total(kept) + Total(all) <= Total(cached)
  {
    TotalUnion(kept, all);
    TotalGrows(kept + all, cached);
  }

  lemma WithinLimit(s: Store, all: map<ChunkHash, Bytes>, t: Store, k: nat, more: seq<ChunkHash>)
    requires During(s, all, t, k, more)
    ensures Total(t.cached) <= s.maxCached
  {
  }

  lemma StillCached(s: Store, all: map<ChunkHash, Bytes>, t: Store, k: nat, more: seq<ChunkHash>, p: nat, h: ChunkHash)
    requires WellFormed(s) && During(s, all, t, k, more) && k <= p <= |s.recency|
    requires h in s.cached && h !in Oldest(s, p) && forall x :: x in all ==> !Contains(s, x)
    ensures h in t.cached && t.cached[h] == s.cached[h]
  {
    KeptFromOld(s, k, p, h);
    assert h in t.recency;
    assert h in ToSet(t.recency);
  }

  /** The first consulted chunk of the deque has not been dropped, as nothing brings it back. */
  lemma SparedIsKept(s: Store, consulted: seq<ChunkHash>, all: map<ChunkHash, Bytes>, t: Store, k: nat,
                     more: seq<ChunkHash>)
    requires WellFormed(s) && During(s, all, t, k, more)
    requires forall h :: h in all ==> !Contains(s, h)
    requires forall h :: h in consulted ==> Contains(t, h)
    requires Spared(s.recency, consulted) < |s.recency|
    ensures k <= Spared(s.recency, consulted)
  {
    var p := Spared(s.recency, consulted);
    var h := s.recency[p];
    assert h in ToSet(s.recency) && Contains(t, h);
    assert h in ToSet(t.recency);
    assert h in s.recency[k..] || h in more;
    var i :| 0 <= i < |s.recency| - k && s.recency[k..][i] == h;
    assert s.recency[k + i] == s.recency[p];
  }

  lemma KeptFromOld(s: Store, k: nat, p: nat, h: ChunkHash)
    requires WellFormed(s) && k <= p <= |s.recency| && h in s.cached && h !in Oldest(s, p)
    ensures h in s.recency[k..]
  {
    assert h in ToSet(s.recency);
    var i :| 0 <= i < |s.recency| && s.recency[i] == h;
    forall j | 0 <= j < p ensures s.recency[j] != h { assert s.recency[..p][j] in Oldest(s, p); }
    assert s.recency[k..][i - k] == h;
  }

  /** Room for the old chunks from `p` on and for `all` is kept through the pass. */
  ghost predicate Roomy(s: Store, all: map<ChunkHash, Bytes>, p: nat)
    requires p <= |s.recency|
  {
    Total(s.cached - Oldest(s, p)) + Total(all) <= s.maxCached
  }

  /** With that room, caching a fetched chunk drops none of them. */
  lemma RoomySpares(sha: Sha, s: Store, all: map<ChunkHash, Bytes>, p: nat,
                    t: Store, k: nat, more: seq<ChunkHash>, data: Bytes)
    requires WellFormed(s) && During(s, all, t, k, more) && k <= p <= |s.recency| && Roomy(s, all, p)
    requires forall h :: h in all ==> !Contains(s, h)
    requires sha(data) in all && all[sha(data)] == data && !Contains(t, sha(data))
    ensures |data| <= t.maxCached && k + DropCount(t, |data|, 0) <= p
  {
    var kept := t.cached - Oldest(t, p - k);
    var old' := s.cached - Oldest(s, p);
    TotalUnion(old', all);
    assert Oldest(t, p - k) == ToSet(s.recency[k..p]) by { assert t.recency[..p - k] == s.recency[k..p]; }
    forall h | h in kept[sha(data) := data]
      ensures h in old' + all && (old' + all)[h] == kept[sha(data) := data][h]
    {
      if h != sha(data) && h !in all { OldIsBehind(s, all, t, k, more, p, h); }
    }
    TotalAdd(kept, sha(data), data);
    TotalGrows(kept[sha(data) := data], old' + all);
    assert Fits(t, |data|, p - k);
  }

  lemma OldIsBehind(s: Store, all: map<ChunkHash, Bytes>, t: Store, k: nat, more: seq<ChunkHash>, p: nat, h: ChunkHash)
    requires WellFormed(s) && During(s, all, t, k, more) && k <= p <= |s.recency|
    requires h in t.cached && h !in all && h !in ToSet(s.recency[k..p])
    ensures h !in Oldest(s, p)
  {
    assert h in ToSet(t.recency);
    assert h in s.recency[k..];
    var i :| 0 <= i < |s.recency| - k && s.recency[k..][i] == h;
    forall j | k <= j < p ensures s.recency[j] != h { assert s.recency[k..p][j - k] in ToSet(s.recency[k..p]); }
    forall j | 0 <= j < p ensures s.recency[j] != h { assert s.recency[k + i] == h; }
  }

  lemma {:induction false} RoomyPass(sha: Sha, s: Store, all: map<ChunkHash, Bytes>, p: nat,
                                     fetched: seq<Option<Bytes>>)
    returns (k: nat, more: seq<ChunkHash>)
    requires WellFormed(s) && Brought(sha, fetched, all) && p <= |s.recency| && Roomy(s, all, p)
    requires forall h :: h in all ==> !Contains(s, h)
    ensures During(s, all, CacheAll(sha, s, fetched), k, more) && k <= p
    ensures forall i :: 0 <= i < |fetched| ==> sha(fetched[i].value) in more
  {
    hide During, Roomy, CacheChunk, WellFormed;
    if fetched == [] {
      k, more := 0, [];
      PassStarts(s, all);
    } else {
      var n := |fetched| - 1;
      BroughtBefore(sha, fetched, all);
      var k', before := RoomyPass(sha, s, all, p, fetched[..n]);
      k, more := RoomyStep(sha, s, all, p, CacheAll(sha, s, fetched[..n]), k', before, fetched[n].value);
      assert forall i :: 0 <= i < n ==> sha(fetched[..n][i].value) in before;
    }
  }

  lemma PassStarts(s: Store, all: map<ChunkHash, Bytes>)
    requires WellFormed(s) && forall h :: h in all ==> h !in s.cached
    ensures During(s, all, s, 0, [])
  {
    assert s.recency[0..] + [] == s.recency;
  }

  lemma BroughtBefore(sha: Sha, fetched: seq<Option<Bytes>>, all: map<ChunkHash, Bytes>)
    requires Brought(sha, fetched, all) && fetched != []
    ensures var last := fetched[|fetched| - 1];
            && Brought(sha, fetched[..|fetched| - 1], all)
            && last.Some? && sha(last.value) in all && all[sha(last.value)] == last.value
  {
  }

  lemma RoomyStep(sha: Sha, s: Store, all: map<ChunkHash, Bytes>, p: nat,
                  t: Store, k: nat, more: seq<ChunkHash>, data: Bytes)
    returns (k': nat, more': seq<ChunkHash>)
    requires WellFormed(s) && During(s, all, t, k, more) && k <= p <= |s.recency| && Roomy(s, all, p)
    requires forall h :: h in all ==> !Contains(s, h)
    requires sha(data) in all && all[sha(data)] == data
    ensures During(s, all, CacheChunk(sha, t, data), k', more') && k' <= p
    ensures sha(data) in more' && forall h :: h in more ==> h in more'
  {
    hide Roomy, CacheChunk;
    if Contains(t, sha(data)) {
      FetchedIsInMore(s, all, t, k, more, sha(data));
    } else {
      RoomySpares(sha, s, all, p, t, k, more, data);
    }
    k', more' := CacheDuring(sha, s, all, t, k, more, data);
  }

  lemma FetchedIsInMore(s: Store, all: map<ChunkHash, Bytes>, t: Store, k: nat, more: seq<ChunkHash>, h: ChunkHash)
    requires WellFormed(s) && During(s, all, t, k, more) && h in all && !Contains(s, h) && Contains(t, h)
    ensures h in more
  {
    assert h in ToSet(t.recency);
    assert h !in ToSet(s.recency);
    assert h in s.recency[k..] ==> h in s.recency;
  }

  /**
   * Exactly when a pass that fetched everything leaves nothing missing: when the cached
   * chunks from the first consulted one of the deque on, and the distinct fetched chunks,
   * fit the cache together.
   */
  lemma FetchPassSucceedsIff(sha: Sha, s: Store, refs: seq<ChunkRef>, offset: nat, readEnd: nat,
                             fetched: seq<Option<Bytes>>)
    requires WellFormed(s) && offset < readEnd
    requires Fetches(sha, Missing(s, refs, 0, offset, readEnd), fetched)
    ensures var p := Spared(s.recency, Consulted(refs, 0, offset, readEnd));
            Missing(CacheAll(sha, s, fetched), refs, 0, offset, readEnd) == [] <==>
              Total(s.cached - Oldest(s, p)) + Total(FirstOf(sha, Values(fetched))) <= s.maxCached
  {
    var consulted, missing := Consulted(refs, 0, offset, readEnd), Missing(s, refs, 0, offset, readEnd);
    var all, t, p := FirstOf(sha, Values(fetched)), CacheAll(sha, s, fetched), Spared(s.recency, consulted);
    MissingIsAbsentConsulted(s, refs, 0, offset, readEnd);
    MissingIsAbsentConsulted(t, refs, 0, offset, readEnd);
    AbsentMeaning(s, consulted);
    DistinctFetched(sha, missing, fetched);
    assert forall h :: h in all <==> h in missing;
    if Missing(t, refs, 0, offset, readEnd) == [] {
      AbsentMeaning(t, consulted);
      var k, more := PassDuring(sha, s, all, fetched);
      SuccessFits(sha, s, consulted, all, t, k, more);
    }
    if Roomy(s, all, p) {
      var k, more := RoomyPass(sha, s, all, p, fetched);
      RoomyPassSucceeds(sha, s, consulted, all, t, k, more, missing, fetched);
      NothingAbsent(t, consulted);
    }
  }

  lemma RoomyPassSucceeds(sha: Sha, s: Store, consulted: seq<ChunkHash>, all: map<ChunkHash, Bytes>, t: Store,
                          k: nat, more: seq<ChunkHash>, missing: seq<ChunkHash>, fetched: seq<Option<Bytes>>)
    requires WellFormed(s) && During(s, all, t, k, more) && k <= Spared(s.recency, consulted)
    requires Fetches(sha, missing, fetched) && forall i :: 0 <= i < |fetched| ==> sha(fetched[i].value) in more
    requires forall h :: h in consulted && !Contains(s, h) ==> h in missing
    ensures forall h :: h in consulted ==> Contains(t, h)
  {
    forall h | h in consulted ensures Contains(t, h) {
      if h in s.cached {
        assert h in ToSet(s.recency);
        var i :| 0 <= i < |s.recency| && s.recency[i] == h;
        assert s.recency[k..][i - k] == h;
        assert h in t.recency && h in ToSet(t.recency);
      } else if h !in s.pinned {
        var i :| 0 <= i < |missing| && missing[i] == h;
        assert h in t.recency && h in ToSet(t.recency);
      }
    }
  }

  function Weight(fetched: seq<Option<Bytes>>): nat {
    if fetched == [] then 0
    else Weight(fetched[..|fetched| - 1]) + match fetched[|fetched| - 1] case Some(data) => |data| case None => 0
  }

  /** When there is room, caching one more chunk evicts nothing. */
  lemma CacheWithRoomKeepsAll(sha: Sha, s: Store, data: Bytes)
    requires WellFormed(s) && Total(s.cached) + |data| <= s.maxCached
    ensures var t := CacheChunk(sha, s, data);
            && Contains(t, sha(data))
            && (forall h :: Contains(s, h) ==> Lookup(t, h) == Lookup(s, h))
            && Total(t.cached) <= Total(s.cached) + |data|
  {
    if !Contains(s, sha(data)) {
      assert s.cached - Oldest(s, 0) == s.cached;
      assert Fits(s, |data|, 0);
      assert DropCount(s, |data|, 0) == 0;
      TotalAdd(s.cached, sha(data), data);
    }
  }

  /** When everything fits, a fetch pass keeps what was there and adds what it fetched. */
  lemma {:induction false} FetchPassKeepsAll(sha: Sha, s: Store, fetched: seq<Option<Bytes>>)
    requires WellFormed(s) && Total(s.cached) + Weight(fetched) <= s.maxCached
    ensures var t := CacheAll(sha, s, fetched);
            && (forall h :: Contains(s, h) ==> Lookup(t, h) == Lookup(s, h))
            && (forall i :: 0 <= i < |fetched| && fetched[i].Some? ==> Contains(t, sha(fetched[i].value)))
            && Total(t.cached) <= Total(s.cached) + Weight(fetched)
            && t.maxCached == s.maxCached
  {
    if fetched != [] {
      var front := fetched[..|fetched| - 1];
      FetchPassKeepsAll(sha, s, front);
      var before := CacheAll(sha, s, front);
      if fetched[|fetched| - 1].Some? {
        CacheWithRoomKeepsAll(sha, before, fetched[|fetched| - 1].value);
      }
      assert forall i :: 0 <= i < |front| ==> fetched[i] == front[i];
    }
  }

  /**
   * A condition that needs no look at the deque, and allows one digest to bring different
   * bytes: a pass that fits beside all that is cached leaves nothing missing, so the read
   * that follows uses stored chunks only and does not depend on the zero filler.
   */
  lemma FetchPassLeavesNothingMissing(sha: Sha, s: Store, refs: seq<ChunkRef>, offset: nat, readEnd: nat,
                                      fetched: seq<Option<Bytes>>)
    requires WellFormed(s) && offset < readEnd
    requires var missing := Missing(s, refs, 0, offset, readEnd);
             && |fetched| == |missing|
             && forall i :: 0 <= i < |fetched| && fetched[i].Some? ==> sha(fetched[i].value) == missing[i]
    requires Total(s.cached) + Weight(fetched) <= s.maxCached
    requires AllFetched(fetched)
    ensures var t := CacheAll(sha, s, fetched);
            && Missing(t, refs, 0, offset, readEnd) == []
            && forall h :: h in Consulted(refs, 0, offset, readEnd) ==> Contains(t, h)
  {
    var t := CacheAll(sha, s, fetched);
    var consulted := Consulted(refs, 0, offset, readEnd);
    FetchPassKeepsAll(sha, s, fetched);
    MissingIsAbsentConsulted(s, refs, 0, offset, readEnd);
    MissingIsAbsentConsulted(t, refs, 0, offset, readEnd);
    AbsentMeaning(s, consulted);
    forall h | h in consulted ensures Contains(t, h) {
      if !Contains(s, h) {
        assert h in Missing(s, refs, 0, offset, readEnd);
        var i :| 0 <= i < |fetched| && Missing(s, refs, 0, offset, readEnd)[i] == h;
        assert sha(fetched[i].value) == h;
      }
    }
    NothingAbsent(t, consulted);
  }

  /**
   * A pass that returns true may fail: two chunks that fit the cache one by one but not together.  The
   * pass fetches both and returns true, and the first is gone again.
   */
  lemma FetchPassMayOverflow(sha: Sha, a: Bytes, b: Bytes, maxCached: nat)
    requires sha(a) != sha(b) && |a| <= maxCached && |b| <= maxCached < |a| + |b|
    ensures !Contains(CacheAll(sha, Empty(0, maxCached), [Some(a), Some(b)]), sha(a))
  {
    var s0, fetched := Empty(0, maxCached), [Some(a), Some(b)];
    assert fetched[..1][..0] == [] && fetched[..1][0] == Some(a) && fetched[1] == Some(b);
    CacheChunkKeepsWellFormed(sha, s0, a);
    var s1 := CacheChunk(sha, s0, a);
    assert CacheAll(sha, s0, fetched[..1]) == s1;
    OnlyChunk(sha, a, maxCached);
    SecondReplacesFirst(sha, s1, a, b);
  }

  lemma OnlyChunk(sha: Sha, a: Bytes, maxCached: nat)
    requires |a| <= maxCached
    ensures var s1 := CacheChunk(sha, Empty(0, maxCached), a);
            s1 == Store(map[], map[sha(a) := a], [sha(a)], 0, maxCached)
  {
    var s0 := Empty(0, maxCached);
    assert s0.cached - Oldest(s0, 0) == map[];
  }

  lemma SecondReplacesFirst(sha: Sha, s: Store, a: Bytes, b: Bytes)
    requires WellFormed(s) && s.pinned == map[] && s.cached == map[sha(a) := a] && s.recency == [sha(a)]
    requires sha(a) != sha(b) && |b| <= s.maxCached < |a| + |b|
    ensures !Contains(CacheChunk(sha, s, b), sha(a))
  {
    TotalAdd(map[], sha(a), a);
    assert s.cached - Oldest(s, 0) == s.cached;
    assert !Fits(s, |b|, 0);
    assert DropCount(s, |b|, 0) == 1 && s.recency[..1] == [sha(a)];
  }

  // ---------------------------------------------------------------- open, write, release

  /**
   * One handle, written to and released: whatever has become of the file and of the store
   * since the handle was loaded, the released buffer is what was loaded overlaid by the
   * writes, and once it is committed a full read returns exactly that.
   */
  lemma ReleaseCommitsOverlay(sha: Sha, self: PeerId, st: State, n: NodeId, now: nat, pieces: seq<Bytes>,
                              t: OpenFiles.Table, fh: OpenFiles.FileHandle, ops: seq<OpenFiles.TableOp>)
    requires Inv(sha, st) && CanStamp(st.replica.clock, now) && RewriteRefused(Replay(st.replica.log), n).None?
    requires OpenFiles.Writable(t, fh)
    requires forall i :: 0 <= i < |ops| && ops[i].fh == fh ==> ops[i].Write?
    requires OpenFiles.PatchesOf(fh, ops) != []
    requires var buffer := OpenFiles.Overlay(t[fh].buffer.value, OpenFiles.PatchesOf(fh, ops));
             IsSplit(buffer, pieces) && |buffer| <= U64_MAX
    requires CollisionFree(sha, st.store, pieces) && TryPin(sha, st.store, pieces).Some?
    ensures var base, patches := t[fh].buffer.value, OpenFiles.PatchesOf(fh, ops);
            var released := OpenFiles.Released(OpenFiles.Run(t, ops), fh);
            && released.Some? && |released.value| == OpenFiles.Extent(base, patches)
            && (forall i :: 0 <= i < |released.value| ==> released.value[i] == OpenFiles.ByteAt(base, patches, i))
            && var after := Written(sha, self, st, n, released.value, pieces, now);
               ReadResult(Replay(after.replica.log), after.store, n, 0, |released.value|) == Ok(released.value)
  {
    var base, patches := t[fh].buffer.value, OpenFiles.PatchesOf(fh, ops);
    OpenFiles.ReleasedIsOverlay(t, fh, ops);
    OpenFiles.OverlayMeaning(base, patches);
    WriteThenRead(sha, self, st, n, OpenFiles.Overlay(base, patches), pieces, now);
  }

  /**
   * The same over a run, from the opening of the handle: opened, loaded in one state with
   * the content the file has there, written to, and released in a later state, with local,
   * remote and store events in between and other handles in use throughout.  The full read
   * after the commit is the content at the time of loading overlaid by the writes.
   */
  lemma LoadWriteRelease(sha: Sha, self: PeerId, states: seq<State>, events: seq<Event>, loaded: nat, released: nat,
                         n: NodeId, now: nat, pieces: seq<Bytes>, t: OpenFiles.Table, fh: OpenFiles.FileHandle,
                         meta: NodeMeta, between: seq<OpenFiles.TableOp>, ops: seq<OpenFiles.TableOp>)
    requires IsRun(sha, self, states, events) && loaded <= released < |states|
    requires RewriteRefused(Replay(states[loaded].replica.log), n).None?
    requires OpenFiles.LeaveAlone(fh, between) && OpenFiles.OnlyWriteTo(fh, ops) && OpenFiles.PatchesOf(fh, ops) != []
    requires var st := states[released];
             CanStamp(st.replica.clock, now) && RewriteRefused(Replay(st.replica.log), n).None?
    requires var buffer := OpenFiles.Overlay(FullRead(states[loaded], n), OpenFiles.PatchesOf(fh, ops));
             && IsSplit(buffer, pieces) && |buffer| <= U64_MAX
             && CollisionFree(sha, states[released].store, pieces) && TryPin(sha, states[released].store, pieces).Some?
    ensures var base, patches := FullRead(states[loaded], n), OpenFiles.PatchesOf(fh, ops);
            var openedTable := OpenFiles.Run(OpenFiles.Apply(t, OpenFiles.TableOp.Open(fh, meta)), between);
            var last := OpenFiles.Run(OpenFiles.Apply(openedTable, OpenFiles.SetBuffer(fh, base)), ops);
            var buffer := OpenFiles.Released(last, fh);
            && buffer.Some?
            && var after := Written(sha, self, states[released], n, buffer.value, pieces, now);
               var read := ReadResult(Replay(after.replica.log), after.store, n, 0, OpenFiles.Extent(base, patches));
               && read.Ok? && |read.value| == OpenFiles.Extent(base, patches)
               && forall i :: 0 <= i < |read.value| ==> read.value[i] == OpenFiles.ByteAt(base, patches, i)
  {
    var base := FullRead(states[loaded], n);
    var openedTable := OpenFiles.Run(OpenFiles.Apply(t, OpenFiles.TableOp.Open(fh, meta)), between);
    RunKeepsInv(sha, self, states, events, released);
    OpenFiles.LoadedHandleLife(t, fh, meta, between, base, ops);
    OpenFiles.OthersLeaveAlone(OpenFiles.Apply(t, OpenFiles.TableOp.Open(fh, meta)), fh, between);
    ReleaseCommitsOverlay(sha, self, states[released], n, now, pieces,
                          OpenFiles.Apply(openedTable, OpenFiles.SetBuffer(fh, base)), fh, ops);
  }

  /** `read_file_all`: what the handle is loaded with. */
  function FullRead(st: State, n: NodeId): Bytes
    requires RewriteRefused(Replay(st.replica.log), n).None?
  {
    var tree := Replay(st.replica.log);
    ReadResult(tree, st.store, n, 0, tree[n].meta.size).value
  }
}
