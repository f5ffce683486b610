/**
 * What one node does for replication (src/network/handlers/replication.rs), on values: the
 * sweep that takes up duties, the probes, the confirmations and the eviction.
 */
module ReplicationModel {
  import opened Domain
  import opened Rendezvous
  import opened StorageModel
  import FetchModel

  type RequestId = FetchModel.RequestId
  type Confirmations = map<ChunkHash, set<PeerId>>

  const REPLICAS: nat := 2
  const MAX_HASHES_PER_PROBE: nat := 256
  const MAX_FETCHES_PER_REBALANCE: nat := 64

  /** What a node knows: its store, who confirmed what, and which probes are under way. */
  datatype Keeper = Keeper(store: Store, confirmed: Confirmations, pending: map<RequestId, PeerId>,
                           nextRequest: RequestId)

  /** The two peers that should pin a chunk, as a set; `view` is the connected peers and the node itself. */
  ghost function Designated(score: Score, h: ChunkHash, view: set<PeerId>): set<PeerId> {
    Holders(score, h, view, REPLICAS)
  }

  // ---------------------------------------------------------------- confirmations and eviction

  function ConfirmedBy(confirmed: Confirmations, h: ChunkHash): set<PeerId> {
    if h in confirmed then confirmed[h] else {}
  }

  /** The peer confirms each of the hashes. */
  function Confirm(confirmed: Confirmations, hashes: seq<ChunkHash>, peer: PeerId): (r: Confirmations)
    ensures r.Keys == confirmed.Keys + ToSet(hashes)
    ensures forall h :: ConfirmedBy(r, h) == ConfirmedBy(confirmed, h) + if h in hashes then {peer} else {}
  {
    if hashes == [] then confirmed
    else
      var before, h := Confirm(confirmed, hashes[..|hashes| - 1], peer), hashes[|hashes| - 1];
      assert hashes == hashes[..|hashes| - 1] + [h];
      before[h := ConfirmedBy(before, h) + {peer}]
  }

  /** The chunks that every designated holder has confirmed. */
  ghost function Completed(score: Score, view: set<PeerId>, live: set<ChunkHash>,
                           confirmed: Confirmations): set<ChunkHash>
  {
    set h | h in confirmed && h in live && Designated(score, h, view) <= confirmed[h]
  }

  ghost function EvictConfirmed(score: Score, view: set<PeerId>, live: set<ChunkHash>, k: Keeper): Keeper {
    var gone := Completed(score, view, live, k.confirmed);
    k.(store := k.store.(pinned := k.store.pinned - gone), confirmed := k.confirmed - gone)
  }

  ghost function OnHeld(score: Score, view: set<PeerId>, live: set<ChunkHash>, k: Keeper, id: RequestId,
                        hashes: seq<ChunkHash>): Keeper
  {
    if id !in k.pending then k
    else
      EvictConfirmed(score, view, live,
                     k.(pending := k.pending - {id}, confirmed := Confirm(k.confirmed, hashes, k.pending[id])))
  }

  function Forget(k: Keeper, id: RequestId): Keeper {
    k.(pending := k.pending - {id})
  }

  /** The answer to a probe: the asked hashes that are pinned. */
  function Held(s: Store, hashes: seq<ChunkHash>): (r: seq<ChunkHash>)
    ensures forall h :: h in r <==> h in hashes && h in s.pinned
  {
    if hashes == [] then []
    else (if hashes[0] in s.pinned then [hashes[0]] else []) + Held(s, hashes[1..])
  }

  /** The answer keeps order and repetitions. */
  lemma {:induction false} HeldAppend(s: Store, hashes: seq<ChunkHash>, h: ChunkHash)
    ensures Held(s, []) == []
    ensures Held(s, hashes + [h]) == Held(s, hashes) + if h in s.pinned then [h] else []
  {
    if hashes == [] {
      assert hashes + [h] == [h];
    } else {
      assert (hashes + [h])[1..] == hashes[1..] + [h];
      HeldAppend(s, hashes[1..], h);
    }
  }

  // ---------------------------------------------------------------- probes

  datatype Batch = Batch(peer: PeerId, hashes: seq<ChunkHash>)

  datatype Question = Question(peer: PeerId, hash: ChunkHash)

  function Questions(peer: PeerId, hashes: seq<ChunkHash>): seq<Question> {
    seq(|hashes|, i requires 0 <= i < |hashes| => Question(peer, hashes[i]))
  }

  /** Everything the batches ask, in order. */
  function Asked(batches: seq<Batch>): seq<Question> {
    if batches == [] then []
    else Asked(batches[..|batches| - 1]) + Questions(batches[|batches| - 1].peer, batches[|batches| - 1].hashes)
  }

  /** Pinned, reachable chunks that the node need not hold. */
  ghost function Candidates(score: Score, self: PeerId, view: set<PeerId>, live: set<ChunkHash>,
                            s: Store): set<ChunkHash>
  {
    set h | h in s.pinned && h in live && self !in Designated(score, h, view)
  }

  /** Holders of candidates that have not confirmed yet. */
  ghost function Open(score: Score, view: set<PeerId>, candidates: set<ChunkHash>,
                      confirmed: Confirmations): set<Question>
  {
    set h, p | h in candidates && p in Designated(score, h, view) && p !in ConfirmedBy(confirmed, h) :: Question(p, h)
  }

  /** The probes sent in one round: every open question once, in batches of limited size. */
  ghost predicate IsProbeRound(score: Score, self: PeerId, view: set<PeerId>, live: set<ChunkHash>, k: Keeper,
                               batches: seq<Batch>)
  {
    && (forall b :: b in batches ==> 1 <= |b.hashes| <= MAX_HASHES_PER_PROBE)
    && NoDuplicates(Asked(batches))
    && ToSet(Asked(batches)) == Open(score, view, Candidates(score, self, view, live, k.store), k.confirmed)
  }

  function Retain(confirmed: Confirmations, keep: set<ChunkHash>): Confirmations {
    map h | h in confirmed && h in keep :: confirmed[h]
  }

  function Peers(batches: seq<Batch>): seq<PeerId> {
    seq(|batches|, i requires 0 <= i < |batches| => batches[i].peer)
  }

  ghost function Probe(score: Score, self: PeerId, view: set<PeerId>, live: set<ChunkHash>, k: Keeper,
                       batches: seq<Batch>): Keeper
  {
    k.(confirmed := Retain(k.confirmed, Candidates(score, self, view, live, k.store)),
       pending := k.pending + FetchModel.Numbered(k.nextRequest, Peers(batches)),
       nextRequest := k.nextRequest + |batches|)
  }

  lemma AskedAppend(batches: seq<Batch>, b: Batch)
    ensures Asked(batches + [b]) == Asked(batches) + Questions(b.peer, b.hashes)
  {
    assert (batches + [b])[..|batches|] == batches;
  }

  /** What a batch asks is one of the questions of the round. */
  lemma {:induction false} AskedInBatch(batches: seq<Batch>, i: nat, h: ChunkHash)
    requires i < |batches| && h in batches[i].hashes
    ensures Question(batches[i].peer, h) in Asked(batches)
  {
    var n := |batches| - 1;
    if i == n {
      var j :| 0 <= j < |batches[n].hashes| && batches[n].hashes[j] == h;
      assert Questions(batches[n].peer, batches[n].hashes)[j] == Question(batches[n].peer, h);
    } else {
      AskedInBatch(batches[..n], i, h);
    }
  }

  /** A probe goes to a designated holder of a candidate, never to the node itself. */
  lemma ProbesGoToHolders(score: Score, self: PeerId, view: set<PeerId>, live: set<ChunkHash>, k: Keeper,
                          batches: seq<Batch>, i: nat)
    requires IsProbeRound(score, self, view, live, k, batches) && i < |batches|
    ensures batches[i].peer != self
    ensures forall h :: h in batches[i].hashes ==> batches[i].peer in Designated(score, h, view)
  {
    forall h | h in batches[i].hashes
      ensures batches[i].peer in Designated(score, h, view) && batches[i].peer != self
    {
      AskedInBatch(batches, i, h);
      assert Question(batches[i].peer, h) in ToSet(Asked(batches));
    }
    assert batches[i] in batches;
    assert batches[i].hashes[0] in batches[i].hashes;
  }

  lemma NewProbes(from: RequestId, batches: seq<Batch>)
    ensures var m := FetchModel.Numbered(from, Peers(batches));
            forall i :: 0 <= i < |batches| ==> from + i in m && m[from + i] == batches[i].peer
  {
  }

  /**
   * A round asks a peer about a chunk exactly if the chunk is pinned and reachable, the node
   * need not hold it, and the peer has to hold it and has not confirmed it.  It keeps the
   * confirmations of these chunks and drops all others.
   */
  lemma RoundMeaning(score: Score, self: PeerId, view: set<PeerId>, live: set<ChunkHash>, k: Keeper,
                     batches: seq<Batch>, p: PeerId, h: ChunkHash)
    requires IsProbeRound(score, self, view, live, k, batches)
    ensures var surplus := h in k.store.pinned && h in live && self !in Holders(score, h, view, 2);
            var k' := Probe(score, self, view, live, k, batches);
            && (Question(p, h) in Asked(batches) <==>
                  surplus && p in Holders(score, h, view, 2) && !(h in k.confirmed && p in k.confirmed[h]))
            && ConfirmedBy(k'.confirmed, h) == (if surplus then ConfirmedBy(k.confirmed, h) else {})
            && k'.store == k.store && k'.nextRequest == k.nextRequest + |batches|
            && (forall i :: 0 <= i < |batches| ==>
                  k.nextRequest + i in k'.pending && k'.pending[k.nextRequest + i] == batches[i].peer)
  {
    NewProbes(k.nextRequest, batches);
    assert Question(p, h) in Asked(batches) <==> Question(p, h) in ToSet(Asked(batches));
  }

  // ---------------------------------------------------------------- the sweep

  /** What a sweep works on; `commands` are the fetches it asks for, with pinning. */
  datatype Duty = Duty(store: Store, blockedUntil: map<ChunkHash, nat>, commands: seq<ChunkHash>)

  /** Parameters of a sweep; for the hashes in `full` the command channel has no room. */
  datatype Sweep = Sweep(score: Score, self: PeerId, members: seq<PeerId>, now: nat, full: set<ChunkHash>)

  predicate IsDuty(w: Sweep, h: ChunkHash) {
    w.self in TopPeers(w.score, h, w.members, REPLICAS)
  }

  predicate IsBlocked(d: Duty, h: ChunkHash, now: nat) {
    h in d.blockedUntil && d.blockedUntil[h] > now
  }

  /** The node has to pin `h`, does not, and is not backing off. */
  predicate NeedsWork(w: Sweep, d: Duty, h: ChunkHash) {
    IsDuty(w, h) && h !in d.store.pinned && !IsBlocked(d, h, w.now)
  }

  /** The loop is left at a chunk to fetch when enough fetches have been issued. */
  predicate Stops(w: Sweep, d: Duty, h: ChunkHash, limit: nat) {
    NeedsWork(w, d, h) && h !in d.store.cached && |d.commands| >= limit
  }

  ghost function Take(w: Sweep, d: Duty, h: ChunkHash): Duty {
    if !NeedsWork(w, d, h) then d
    else if h in d.store.cached then
      if CanPromote(d.store, h) then d.(store := Promote(d.store, h))
      else d.(blockedUntil := d.blockedUntil[h := w.now + FetchModel.CHUNK_FETCH_BACKOFF])
    else if h in w.full then d
    else d.(commands := d.commands + [h])
  }

  /** The sweep over the reachable chunks in some order, until there are `limit` commands. */
  ghost function Swept(w: Sweep, d: Duty, order: seq<ChunkHash>, limit: nat): Duty
    decreases |order|
  {
    if order == [] || Stops(w, d, order[0], limit) then d
    else Swept(w, Take(w, d, order[0]), order[1..], limit)
  }

  ghost function Rebalanced(w: Sweep, d: Duty, order: seq<ChunkHash>): Duty {
    Swept(w, d, order, |d.commands| + MAX_FETCHES_PER_REBALANCE)
  }

  /** No bytes are lost or changed, and chunks only move from the cache to the pinned ones, among `hashes`. */
  ghost predicate OnlyPromotes(w: Sweep, s: Store, t: Store, hashes: seq<ChunkHash>) {
    && WellFormed(t)
    && (forall h :: Lookup(t, h) == Lookup(s, h))
    && s.pinned.Keys <= t.pinned.Keys && t.cached.Keys <= s.cached.Keys
    && (forall h :: h in t.pinned && h !in s.pinned ==> h in hashes && IsDuty(w, h) && h in s.cached)
  }

  /** The new commands ask for chunks, among `hashes`, that the node has to hold and lacks. */
  ghost predicate OnlyAsksForDuties(w: Sweep, d: Duty, e: Duty, hashes: seq<ChunkHash>) {
    && d.commands <= e.commands
    && forall i :: |d.commands| <= i < |e.commands| ==>
         e.commands[i] in hashes && IsDuty(w, e.commands[i]) && !Contains(d.store, e.commands[i])
  }

  lemma TakePromotes(w: Sweep, d: Duty, h: ChunkHash)
    requires WellFormed(d.store)
    ensures OnlyPromotes(w, d.store, Take(w, d, h).store, [h])
  {
    PromoteKeepsWellFormed(d.store, h);
  }

  lemma TakeAsks(w: Sweep, d: Duty, h: ChunkHash)
    ensures OnlyAsksForDuties(w, d, Take(w, d, h), [h])
    ensures |Take(w, d, h).commands| <= |d.commands| + 1
  {
  }

  lemma PromotesCompose(w: Sweep, s: Store, t: Store, u: Store, hashes: seq<ChunkHash>)
    requires hashes != [] && OnlyPromotes(w, s, t, [hashes[0]]) && OnlyPromotes(w, t, u, hashes[1..])
    ensures OnlyPromotes(w, s, u, hashes)
  {
  }

  lemma AsksCompose(w: Sweep, d: Duty, e: Duty, f: Duty, hashes: seq<ChunkHash>)
    requires hashes != [] && OnlyPromotes(w, d.store, e.store, [hashes[0]])
    requires OnlyAsksForDuties(w, d, e, [hashes[0]]) && OnlyAsksForDuties(w, e, f, hashes[1..])
    ensures OnlyAsksForDuties(w, d, f, hashes)
  {
    forall i | |d.commands| <= i < |f.commands|
      ensures f.commands[i] in hashes && IsDuty(w, f.commands[i]) && !Contains(d.store, f.commands[i])
    {
      var h := f.commands[i];
      if i < |e.commands| {
        assert h == e.commands[i];
      } else {
        assert Lookup(e.store, h) == Lookup(d.store, h);
      }
    }
  }

  lemma {:induction false} SweptPromotes(w: Sweep, d: Duty, order: seq<ChunkHash>, limit: nat)
    requires WellFormed(d.store)
    ensures OnlyPromotes(w, d.store, Swept(w, d, order, limit).store, order)
    ensures OnlyAsksForDuties(w, d, Swept(w, d, order, limit), order)
    decreases |order|
  {
    if order != [] && !Stops(w, d, order[0], limit) {
      var e := Take(w, d, order[0]);
      TakePromotes(w, d, order[0]);
      TakeAsks(w, d, order[0]);
      StaysWellFormed(w, d.store, e.store, [order[0]]);
      hide OnlyPromotes, OnlyAsksForDuties, Stops, Take, WellFormed;
      SweptPromotes(w, e, order[1..], limit);
      PromotesCompose(w, d.store, e.store, Swept(w, d, order, limit).store, order);
      AsksCompose(w, d, e, Swept(w, d, order, limit), order);
    }
  }

  lemma {:induction false} SweptStaysBelow(w: Sweep, d: Duty, order: seq<ChunkHash>, limit: nat)
    requires |d.commands| <= limit
    ensures |Swept(w, d, order, limit).commands| <= limit
    decreases |order|
  {
    if order != [] && !Stops(w, d, order[0], limit) {
      SweptStaysBelow(w, Take(w, d, order[0]), order[1..], limit);
    }
  }

  /**
   * A sweep loses and overwrites nothing, pins only chunks that the node has to hold and
   * already stores, and asks at most 64 times, only for chunks that it has to hold and lacks.
   */
  lemma SweepTakesOnlyDuties(w: Sweep, d: Duty, order: seq<ChunkHash>)
    requires WellFormed(d.store)
    ensures OnlyPromotes(w, d.store, Rebalanced(w, d, order).store, order)
    ensures OnlyAsksForDuties(w, d, Rebalanced(w, d, order), order)
    ensures |Rebalanced(w, d, order).commands| <= |d.commands| + MAX_FETCHES_PER_REBALANCE
  {
    SweptPromotes(w, d, order, |d.commands| + MAX_FETCHES_PER_REBALANCE);
    SweptStaysBelow(w, d, order, |d.commands| + MAX_FETCHES_PER_REBALANCE);
  }

  lemma StaysWellFormed(w: Sweep, s: Store, t: Store, hashes: seq<ChunkHash>)
    requires OnlyPromotes(w, s, t, hashes)
    ensures WellFormed(t)
  {
  }

  function BackoffOf(d: Duty, h: ChunkHash): Option<nat> {
    if h in d.blockedUntil then Some(d.blockedUntil[h]) else None
  }

  /** A chunk that backs off is left alone; a back-off starts only for a cached chunk that does not fit. */
  ghost predicate RespectsBackoffs(w: Sweep, d: Duty, e: Duty, h: ChunkHash) {
    var blocked := h in d.blockedUntil && d.blockedUntil[h] > w.now;
    && d.commands <= e.commands && Total(d.store.pinned) <= Total(e.store.pinned)
    && (h in e.store.pinned && h !in d.store.pinned ==> !blocked)
    && (h in e.commands[|d.commands|..] ==> !blocked && h !in w.full)
    && (BackoffOf(e, h) != BackoffOf(d, h) ==>
          && !blocked && w.self in TopPeers(w.score, h, w.members, 2)
          && h in e.store.cached && BackoffOf(e, h) == Some(w.now + FetchModel.CHUNK_FETCH_BACKOFF)
          && Total(e.store.pinned) + |e.store.cached[h]| > e.store.maxPinned)
  }

  lemma TakeRespectsBackoffs(w: Sweep, d: Duty, x: ChunkHash, h: ChunkHash)
    requires WellFormed(d.store)
    ensures RespectsBackoffs(w, d, Take(w, d, x), h) && Take(w, d, x).store.maxPinned == d.store.maxPinned
  {
    hide TopPeers;
    if x in d.store.cached { TotalAdd(d.store.pinned, x, d.store.cached[x]); }
  }

  lemma BackoffsCompose(w: Sweep, d: Duty, t: Duty, e: Duty, h: ChunkHash)
    requires RespectsBackoffs(w, d, t, h) && RespectsBackoffs(w, t, e, h)
    requires t.store.maxPinned == e.store.maxPinned && d.store.pinned.Keys <= t.store.pinned.Keys
    requires WellFormed(t.store) && WellFormed(e.store) && Lookup(e.store, h) == Lookup(t.store, h)
    ensures RespectsBackoffs(w, d, e, h)
  {
    hide TopPeers, Total;
    assert e.commands[|d.commands|..] == t.commands[|d.commands|..] + e.commands[|t.commands|..];
  }

  lemma {:induction false} SweptRespectsBackoffs(w: Sweep, d: Duty, order: seq<ChunkHash>, limit: nat, h: ChunkHash)
    requires WellFormed(d.store)
    ensures RespectsBackoffs(w, d, Swept(w, d, order, limit), h)
    ensures Swept(w, d, order, limit).store.maxPinned == d.store.maxPinned
    decreases |order|
  {
    if order != [] && !Stops(w, d, order[0], limit) {
      var t := Take(w, d, order[0]);
      TakeRespectsBackoffs(w, d, order[0], h);
      TakePromotes(w, d, order[0]);
      hide Stops, Take, WellFormed, Lookup, RespectsBackoffs;
      SweptRespectsBackoffs(w, t, order[1..], limit, h);
      SweptPromotes(w, t, order[1..], limit);
      BackoffsCompose(w, d, t, Swept(w, d, order, limit), h);
    }
  }

  /**
   * A sweep neither pins nor asks for a chunk that backs off, and asks for none whose command
   * finds the channel full.  A back-off starts only for a cached chunk the node has to hold
   * whose bytes do not fit the pin limit.
   */
  lemma SweepRespectsBackoffs(w: Sweep, d: Duty, order: seq<ChunkHash>, h: ChunkHash)
    requires WellFormed(d.store)
    ensures RespectsBackoffs(w, d, Rebalanced(w, d, order), h)
  {
    SweptRespectsBackoffs(w, d, order, |d.commands| + MAX_FETCHES_PER_REBALANCE, h);
  }

  /** What is left to do for the chunks in `hashes` was asked for, or found the channel full. */
  ghost predicate Settled(w: Sweep, e: Duty, hashes: seq<ChunkHash>) {
    forall h :: h in hashes && NeedsWork(w, e, h) ==> h in w.full || h in e.commands
  }

  /** Work is only taken off, and commands are only added. */
  ghost predicate LessWork(w: Sweep, d: Duty, e: Duty) {
    && (forall h :: NeedsWork(w, e, h) ==> NeedsWork(w, d, h))
    && forall c :: c in d.commands ==> c in e.commands
  }

  lemma TakeSettles(w: Sweep, d: Duty, h: ChunkHash)
    ensures LessWork(w, d, Take(w, d, h)) && Settled(w, Take(w, d, h), [h])
  {
    var e := Take(w, d, h);
    hide CanPromote, IsDuty;
    forall x | NeedsWork(w, e, x) ensures NeedsWork(w, d, x) {
      assert x in d.store.pinned ==> x in e.store.pinned;
      assert IsBlocked(d, x, w.now) ==> IsBlocked(e, x, w.now);
    }
  }

  lemma SettledStays(w: Sweep, d: Duty, e: Duty, f: Duty, hashes: seq<ChunkHash>)
    requires hashes != [] && LessWork(w, d, e) && Settled(w, e, [hashes[0]])
    requires LessWork(w, e, f) && Settled(w, f, hashes[1..])
    ensures LessWork(w, d, f) && Settled(w, f, hashes)
  {
  }

  lemma {:induction false} SweptSettles(w: Sweep, d: Duty, order: seq<ChunkHash>, limit: nat)
    requires WellFormed(d.store) && |Swept(w, d, order, limit).commands| < limit
    ensures LessWork(w, d, Swept(w, d, order, limit)) && Settled(w, Swept(w, d, order, limit), order)
    decreases |order|
  {
    if order == [] {
      assert LessWork(w, d, d) && Settled(w, d, []);
    } else {
      var e := Take(w, d, order[0]);
      TakeSettles(w, d, order[0]);
      TakePromotes(w, d, order[0]);
      StaysWellFormed(w, d.store, e.store, [order[0]]);
      hide OnlyPromotes, Take, LessWork, Settled, WellFormed;
      SweptSettles(w, e, order[1..], limit);
      SettledStays(w, d, e, Swept(w, d, order, limit), order);
    }
  }

  /**
   * A sweep that was not cut short at 64 fetches leaves nothing undone: each reachable chunk
   * the node has to hold is pinned, backing off, asked for, or found the channel full.
   */
  lemma SweepLeavesNothingUndone(w: Sweep, d: Duty, order: seq<ChunkHash>)
    requires WellFormed(d.store) && |Rebalanced(w, d, order).commands| < |d.commands| + MAX_FETCHES_PER_REBALANCE
    ensures var e := Rebalanced(w, d, order);
            && LessWork(w, d, e)
            && forall h :: h in order && w.self in TopPeers(w.score, h, w.members, 2) ==>
                 || h in e.store.pinned
                 || (h in e.blockedUntil && e.blockedUntil[h] > w.now)
                 || h in w.full
                 || h in e.commands
  {
    SweptSettles(w, d, order, |d.commands| + MAX_FETCHES_PER_REBALANCE);
  }

  // ---------------------------------------------------------------- what an eviction rests on

  lemma EvictKeepsStore(s: Store, gone: set<ChunkHash>)
    requires WellFormed(s)
    ensures WellFormed(s.(pinned := s.pinned - gone))
  {
    TotalSplit(s.pinned, gone);
  }

  /**
   * A reply makes a node drop a pinned chunk exactly when the chunk is reachable and with
   * this reply every holder designated in the current view has confirmed it.
   */
  lemma EvictsExactlyWhenAllConfirm(score: Score, view: set<PeerId>, live: set<ChunkHash>, k: Keeper, id: RequestId,
                                    hashes: seq<ChunkHash>, h: ChunkHash)
    requires id in k.pending && h in k.store.pinned
    requires view != {}
    ensures h !in OnHeld(score, view, live, k, id, hashes).store.pinned <==>
              && h in live
              && Designated(score, h, view) <=
                   ConfirmedBy(k.confirmed, h) + if h in hashes then {k.pending[id]} else {}
  {
    DesignatedCount(score, h, view);
    var confirmed, holders := Confirm(k.confirmed, hashes, k.pending[id]), Designated(score, h, view);
    assert ConfirmedBy(confirmed, h) == ConfirmedBy(k.confirmed, h) + if h in hashes then {k.pending[id]} else {};
    if h !in confirmed {
      assert |view| > 0 && holders != {};
      var p :| p in holders;
      assert p !in ConfirmedBy(confirmed, h);
    }
  }

  /**
   * A reply adds its peer to the confirmations of the chunks it lists; then the reachable
   * chunks that all their holders have confirmed are dropped, with their confirmations, and
   * nothing else changes.  A reply to an unknown probe has no effect.
   */
  lemma ReplyIsExact(score: Score, view: set<PeerId>, live: set<ChunkHash>, k: Keeper, id: RequestId,
                     hashes: seq<ChunkHash>, h: ChunkHash)
    requires view != {}
    ensures var k' := OnHeld(score, view, live, k, id, hashes);
            && (id !in k.pending ==> k' == k)
            && (id in k.pending ==>
                  var all := ConfirmedBy(k.confirmed, h) + if h in hashes then {k.pending[id]} else {};
                  var gone := h in live && Holders(score, h, view, 2) <= all;
                  && ConfirmedBy(k'.confirmed, h) == (if gone then {} else all)
                  && (h in k'.store.pinned <==> h in k.store.pinned && !gone)
                  && (h in k'.store.pinned ==> k'.store.pinned[h] == k.store.pinned[h])
                  && k'.store == k.store.(pinned := k'.store.pinned)
                  && k'.pending == k.pending - {id} && k'.nextRequest == k.nextRequest)
  {
    DesignatedCount(score, h, view);
    if id in k.pending {
      var confirmed := Confirm(k.confirmed, hashes, k.pending[id]);
      assert h !in confirmed ==> ConfirmedBy(confirmed, h) == {};
    }
  }

  /** A node that is not designated in its own view sees two designated peers, both ranked above it. */
  lemma DesignatedOutrankOthers(score: Score, h: ChunkHash, view: set<PeerId>, self: PeerId)
    requires self in view && self !in Designated(score, h, view)
    ensures |Designated(score, h, view)| == 2 && self !in Designated(score, h, view)
    ensures forall p :: p in Designated(score, h, view) ==> Outranks(score, h, p, self)
  {
    DesignatedCount(score, h, view);
    var above := Above(score, h, view, self);
    SubsetCardinality(above + {self}, view);
    RankIsStrictTotalOrder(score, h, self, self, self);
    forall p | p in Designated(score, h, view) ensures Outranks(score, h, p, self) {
      RankIsStrictTotalOrder(score, h, p, self, self);
      if Outranks(score, h, self, p) { AboveIsStrict(score, h, view, self, p); }
    }
  }

  lemma DesignatedCount(score: Score, h: ChunkHash, view: set<PeerId>)
    ensures |Designated(score, h, view)| == Min(REPLICAS, |view|)
  {
    var members := Listed(view);
    TopPeersAreTheHolders(score, h, members, REPLICAS);
    DistinctCardinality(members);
  }

  ghost function Listed(view: set<PeerId>): (members: seq<PeerId>)
    ensures NoDuplicates(members) && ToSet(members) == view
  {
    if view == {} then []
    else
      var p :| p in view;
      var rest := Listed(view - {p});
      assert p !in ToSet(rest);
      assert ToSet([p] + rest) == {p} + ToSet(rest);
      [p] + rest
  }
}
