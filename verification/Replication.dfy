/**
 * `ReplicationHandler` of src/network/handlers/replication.rs in the form of the code: three
 * tables changed in place by loops.  Every method is proved against `ReplicationModel`, whose
 * functions are the steps of the cluster protocol.
 */
module Replication {
  import opened Domain
  import opened Rendezvous
  import opened StorageModel
  import opened Storage
  import opened ReplicationModel
  import opened FileSystems
  import FetchModel
  import Namespace

  // ---------------------------------------------------------------- grouping the questions

  type Groups = map<PeerId, seq<ChunkHash>>

  predicate InGroup(groups: Groups, p: PeerId, h: ChunkHash) {
    p in groups && h in groups[p]
  }

  ghost predicate Tidy(groups: Groups) {
    forall p :: p in groups ==> groups[p] != [] && NoDuplicates(groups[p])
  }

  function Added(groups: Groups, p: PeerId, h: ChunkHash): Groups {
    groups[p := (if p in groups then groups[p] else []) + [h]]
  }

  lemma AddedMeaning(groups: Groups, p: PeerId, h: ChunkHash)
    requires Tidy(groups) && !InGroup(groups, p, h)
    ensures Tidy(Added(groups, p, h))
    ensures forall q, x :: InGroup(Added(groups, p, h), q, x) <==> InGroup(groups, q, x) || (q == p && x == h)
  {
  }

  lemma QuestionsAppend(p: PeerId, a: seq<ChunkHash>, b: seq<ChunkHash>)
    ensures Questions(p, a + b) == Questions(p, a) + Questions(p, b)
  {
  }

  lemma DistinctQuestions(asked: seq<Question>, p: PeerId, hashes: seq<ChunkHash>)
    requires NoDuplicates(asked) && NoDuplicates(hashes)
    requires forall q :: q in asked ==> q.peer != p
    ensures NoDuplicates(asked + Questions(p, hashes))
    ensures forall q :: q in asked + Questions(p, hashes) <==> q in asked || (q.peer == p && q.hash in hashes)
  {
    var qs := Questions(p, hashes);
    forall i, j | 0 <= i < j < |asked + qs| ensures (asked + qs)[i] != (asked + qs)[j] {
      if i < |asked| <= j {
        assert asked[i] in asked;
      } else if i >= |asked| {
        assert hashes[i - |asked|] != hashes[j - |asked|];
      }
    }
    forall q: Question ensures q in qs <==> q.peer == p && q.hash in hashes {
      if q.peer == p && q.hash in hashes {
        var i :| 0 <= i < |hashes| && q.hash == hashes[i];
        assert qs[i] == q;
      }
    }
  }

  class ReplicationHandler {
    const local: PeerId
    const score: Score
    const fs: FileSystem

    var blockedUntil: map<ChunkHash, nat>
    var confirmedHolders: Confirmations
    var pendingProbes: map<RequestId, PeerId>

    // The swarm's request counter, the probes it was given, and the fetch commands issued.
    var nextRequest: RequestId
    var probes: seq<Batch>
    var commands: seq<ChunkHash>

    ghost predicate Valid()
      reads this, fs, fs.tree, fs.storage
    {
      fs.Valid()
    }

    ghost function View(): Keeper
      reads this, fs.storage
    {
      Keeper(fs.storage.view, confirmedHolders, pendingProbes, nextRequest)
    }

    ghost function Duties(): Duty
      reads this, fs.storage
    {
      Duty(fs.storage.view, blockedUntil, commands)
    }

    /** The reachable chunks of this replica's tree. */
    ghost predicate IsLive(live: set<ChunkHash>)
      reads fs.tree
    {
      forall h :: h in live <==> Namespace.IsReachable(fs.tree.tree, h)
    }

    constructor (local: PeerId, score: Score, fs: FileSystem)
      requires fs.Valid()
      ensures Valid() && this.local == local && this.score == score && this.fs == fs
      ensures View() == Keeper(fs.storage.view, map[], map[], 0) && Duties() == Duty(fs.storage.view, map[], [])
    {
      this.local := local;
      this.score := score;
      this.fs := fs;
      blockedUntil, confirmedHolders, pendingProbes := map[], map[], map[];
      nextRequest, probes, commands := 0, [], [];
    }

    /** `current_members`: the connected peers and the node itself. */
    function Members(connected: seq<PeerId>): seq<PeerId> {
      connected + [local]
    }

    lemma MembersAreDistinct(connected: seq<PeerId>)
      requires NoDuplicates(connected) && local !in connected
      ensures NoDuplicates(Members(connected)) && ToSet(Members(connected)) == ToSet(connected) + {local}
      ensures forall h ::
              ToSet(TopPeers(score, h, Members(connected), REPLICAS)) == Designated(score, h, ToSet(Members(connected)))
      ensures forall h :: NoDuplicates(TopPeers(score, h, Members(connected), REPLICAS))
    {
      forall h
        ensures ToSet(TopPeers(score, h, Members(connected), REPLICAS)) ==
                Designated(score, h, ToSet(Members(connected)))
        ensures NoDuplicates(TopPeers(score, h, Members(connected), REPLICAS))
      {
        TopPeersAreTheHolders(score, h, Members(connected), REPLICAS);
        RankingHasNoDuplicates(score, h, Members(connected));
      }
    }

    // -------------------------------------------------------------- rebalance

    /** `full` are the chunks for which `try_send` finds the command channel full. */
    method Rebalance(connected: seq<PeerId>, now: nat, full: set<ChunkHash>) returns (ghost order: seq<ChunkHash>)
      requires Valid()
      modifies `blockedUntil, `commands, fs.storage
      ensures Valid() && IsLive(ToSet(order)) && NoDuplicates(order)
      ensures Duties() == if connected == [] then old(Duties())
                          else Rebalanced(Sweep(score, local, Members(connected), now, full), old(Duties()), order)
    {
      var members := Members(connected);
      var live := fs.ReachableChunkHashes();
      var hashes := Iterate(live);
      order := hashes;
      if |members| == 1 {
        return;
      }
      TakeAll(hashes, members, now, full);
    }

    method TakeAll(order: seq<ChunkHash>, members: seq<PeerId>, now: nat, full: set<ChunkHash>)
      requires Valid()
      modifies `blockedUntil, `commands, fs.storage
      ensures Valid()
      ensures Duties() == Rebalanced(Sweep(score, local, members, now, full), old(Duties()), order)
    {
      hide Take, Stops;
      ghost var w := Sweep(score, local, members, now, full);
      ghost var start, limit := Duties(), |commands| + MAX_FETCHES_PER_REBALANCE;
      var issued: nat, rest := 0, order;
      while rest != []
        invariant Valid() && Swept(w, Duties(), rest, limit) == Swept(w, start, order, limit)
        invariant |commands| + MAX_FETCHES_PER_REBALANCE == limit + issued
        decreases |rest|
      {
        var stop;
        stop, issued := TakeOne(rest[0], members, now, full, issued, limit);
        if stop {
          break;
        }
        rest := rest[1..];
      }
    }

    /** One round of that loop. */
    method TakeOne(hash: ChunkHash, members: seq<PeerId>, now: nat, full: set<ChunkHash>, issued: nat, ghost limit: nat)
      returns (stop: bool, issued': nat)
      requires Valid() && |commands| + MAX_FETCHES_PER_REBALANCE == limit + issued
      modifies `blockedUntil, `commands, fs.storage
      ensures Valid() && |commands| + MAX_FETCHES_PER_REBALANCE == limit + issued'
      ensures var w := Sweep(score, local, members, now, full);
              && stop == Stops(w, old(Duties()), hash, limit)
              && Duties() == if stop then old(Duties()) else Take(w, old(Duties()), hash)
    {
      hide IsDuty, IsBlocked, CanPromote;
      stop, issued' := false, issued;
      var needed := IsNeeded(hash, members, now, full);
      if !needed {
        return;
      }
      var cached := fs.storage.IsCached(hash);
      if cached {
        PromoteOrBlock(hash, now);
      } else if issued >= MAX_FETCHES_PER_REBALANCE {
        stop := true;
      } else if hash !in full {
        commands := commands + [hash];
        issued' := issued + 1;
      }
    }

    method IsNeeded(hash: ChunkHash, members: seq<PeerId>, now: nat, ghost full: set<ChunkHash>) returns (needed: bool)
      requires Valid()
      ensures needed == NeedsWork(Sweep(score, local, members, now, full), Duties(), hash)
    {
      if local !in TopPeers(score, hash, members, REPLICAS) {
        return false;
      }
      var pinned := fs.storage.IsPinned(hash);
      if pinned {
        return false;
      }
      needed := !(hash in blockedUntil && blockedUntil[hash] > now);
    }

    method PromoteOrBlock(hash: ChunkHash, now: nat)
      requires Valid()
      modifies `blockedUntil, fs.storage
      ensures Valid() && fs.storage.view == Promote(old(fs.storage.view), hash)
      ensures blockedUntil == if CanPromote(old(fs.storage.view), hash) then old(blockedUntil)
                              else old(blockedUntil)[hash := now + FetchModel.CHUNK_FETCH_BACKOFF]
    {
      var promoted := fs.storage.PromoteToPinned(hash);
      if !promoted {
        blockedUntil := blockedUntil[hash := now + FetchModel.CHUNK_FETCH_BACKOFF];
      }
    }

    // -------------------------------------------------------------- probing

    method ProbeEvictionCandidates(connected: seq<PeerId>) returns (ghost live: set<ChunkHash>, ghost sent: seq<Batch>)
      requires Valid() && NoDuplicates(connected) && local !in connected
      modifies `confirmedHolders, `pendingProbes, `nextRequest, `probes
      ensures Valid() && IsLive(live)
      ensures var view := ToSet(Members(connected));
              && IsProbeRound(score, local, view, live, old(View()), sent)
              && View() == Probe(score, local, view, live, old(View()), sent)
      ensures probes == old(probes) + sent
    {
      var members := Members(connected);
      MembersAreDistinct(connected);
      ghost var view := ToSet(members);
      var candidates;
      candidates, live := EvictionCandidates(members);
      ghost var before := confirmedHolders;
      RetainNothing(before, candidates);
      sent := [];
      if candidates == {} {
        confirmedHolders := map[];
        NothingIsOpen(view, before);
        return;
      }
      confirmedHolders := Retain(confirmedHolders, candidates);
      var byHolder := GroupByHolder(candidates, members);
      sent := SendProbes(byHolder);
      QuestionsAreOpen(byHolder, candidates, members, before);
      SameQuestions(sent, Open(score, view, candidates, before));
    }

    lemma SameQuestions(sent: seq<Batch>, open: set<Question>)
      requires forall q :: q in Asked(sent) <==> q in open
      ensures ToSet(Asked(sent)) == open
    {
    }

    lemma NothingIsOpen(view: set<PeerId>, confirmed: Confirmations)
      ensures Open(score, view, {}, confirmed) == {} && Asked([]) == [] && ToSet<Question>([]) == {}
    {
    }

    method EvictionCandidates(members: seq<PeerId>) returns (candidates: set<ChunkHash>, ghost live: set<ChunkHash>)
      requires Valid() && NoDuplicates(members)
      ensures IsLive(live) && candidates == Candidates(score, local, ToSet(members), live, fs.storage.view)
    {
      var reachable := fs.ReachableChunkHashes();
      var pinned := fs.storage.PinnedHashes();
      live := reachable;
      candidates := set h | h in pinned && h in reachable && local !in TopPeers(score, h, members, REPLICAS);
      CandidatesAgree(members, candidates, live);
    }

    lemma CandidatesAgree(members: seq<PeerId>, candidates: set<ChunkHash>, live: set<ChunkHash>)
      requires NoDuplicates(members)
      requires forall h :: h in candidates <==>
                 h in fs.storage.view.pinned && h in live && local !in TopPeers(score, h, members, REPLICAS)
      ensures candidates == Candidates(score, local, ToSet(members), live, fs.storage.view)
    {
      forall h ensures local in TopPeers(score, h, members, REPLICAS) <==>
               local in Designated(score, h, ToSet(members)) {
        TopPeersAreTheHolders(score, h, members, REPLICAS);
        assert local in TopPeers(score, h, members, REPLICAS) <==>
                 local in ToSet(TopPeers(score, h, members, REPLICAS));
      }
    }

    lemma RetainNothing(confirmed: Confirmations, keep: set<ChunkHash>)
      ensures keep == {} ==> Retain(confirmed, keep) == map[]
    {
    }

    method GroupByHolder(candidates: set<ChunkHash>, members: seq<PeerId>) returns (groups: Groups)
      requires NoDuplicates(members)
      ensures Tidy(groups)
      ensures forall p, h :: InGroup(groups, p, h) <==>
                h in candidates && p in TopPeers(score, h, members, REPLICAS) && p !in ConfirmedBy(confirmedHolders, h)
    {
      groups := map[];
      var order := Iterate(candidates);
      for i := 0 to |order|
        invariant Tidy(groups)
        invariant forall p, h :: InGroup(groups, p, h) <==>
                    h in order[..i] && p in TopPeers(score, h, members, REPLICAS)
                      && p !in ConfirmedBy(confirmedHolders, h)
      {
        RankingHasNoDuplicates(score, order[i], members);
        assert order[..i + 1] == order[..i] + [order[i]] && order[i] !in order[..i];
        groups := AddHolders(groups, order[i], TopPeers(score, order[i], members, REPLICAS));
      }
      assert order[..|order|] == order;
    }

    method AddHolders(before: Groups, hash: ChunkHash, holders: seq<PeerId>) returns (groups: Groups)
      requires Tidy(before) && NoDuplicates(holders) && forall p :: !InGroup(before, p, hash)
      ensures Tidy(groups)
      ensures forall p, h :: InGroup(groups, p, h) <==>
                InGroup(before, p, h) || (h == hash && p in holders && p !in ConfirmedBy(confirmedHolders, hash))
    {
      hide Tidy, InGroup, Added;
      groups := before;
      for j := 0 to |holders|
        invariant Tidy(groups)
        invariant forall p, h :: InGroup(groups, p, h) <==>
                    InGroup(before, p, h)
                      || (h == hash && p in holders[..j] && p !in ConfirmedBy(confirmedHolders, hash))
      {
        var p := holders[j];
        assert holders[..j + 1] == holders[..j] + [p] && p !in holders[..j];
        if p !in ConfirmedBy(confirmedHolders, hash) {
          AddedMeaning(groups, p, hash);
          groups := Added(groups, p, hash);
        }
      }
      assert holders[..|holders|] == holders;
    }

    /** The probes sent since `start`, and what is on record of them. */
    ghost predicate Recorded(start: Keeper, sent: seq<Batch>)
      reads this
    {
      && nextRequest == start.nextRequest + |sent|
      && pendingProbes == start.pending + FetchModel.Numbered(start.nextRequest, Peers(sent))
      && forall b :: b in sent ==> 1 <= |b.hashes| <= MAX_HASHES_PER_PROBE
    }

    method SendProbes(groups: Groups) returns (ghost sent: seq<Batch>)
      requires Tidy(groups)
      modifies `pendingProbes, `nextRequest, `probes
      ensures Recorded(old(View()), sent) && probes == old(probes) + sent
      ensures NoDuplicates(Asked(sent))
      ensures forall q :: q in Asked(sent) <==> InGroup(groups, q.peer, q.hash)
    {
      ghost var start := View();
      sent := [];
      assert start.pending + map[] == start.pending;
      var order := Iterate(groups.Keys);
      for i := 0 to |order|
        invariant Recorded(start, sent) && probes == old(probes) + sent
        invariant NoDuplicates(Asked(sent))
        invariant forall q :: q in Asked(sent) <==> q.peer in order[..i] && InGroup(groups, q.peer, q.hash)
      {
        var p := order[i];
        assert p in ToSet(order) && p !in order[..i] && order[..i + 1] == order[..i] + [p];
        ghost var more := SendBatches(start, sent, p, groups[p]);
        DistinctQuestions(Asked(sent), p, groups[p]);
        AppendAssociative(old(probes), sent, more);
        sent := sent + more;
      }
      assert order[..|order|] == order;
      assert forall p :: p in groups ==> p in ToSet(order);
    }

    /** The batches of one peer: consecutive pieces of its list. */
    method SendBatches(ghost start: Keeper, ghost before: seq<Batch>, p: PeerId, hashes: seq<ChunkHash>)
      returns (ghost sent: seq<Batch>)
      requires Recorded(start, before)
      modifies `pendingProbes, `nextRequest, `probes
      ensures Recorded(start, before + sent) && probes == old(probes) + sent
      ensures Asked(before + sent) == Asked(before) + Questions(p, hashes)
    {
      hide Asked, Questions, Peers, FetchModel.Numbered;
      var rest := hashes;
      sent := [];
      assert before + [] == before;
      while rest != []
        invariant Recorded(start, before + sent) && probes == old(probes) + sent
        invariant Asked(before + sent) + Questions(p, rest) == Asked(before) + Questions(p, hashes)
        decreases |rest|
      {
        var n := Min(MAX_HASHES_PER_PROBE, |rest|);
        ghost var b := Batch(p, rest[..n]);
        assert rest == rest[..n] + rest[n..];
        BatchAsked(before + sent, b, rest[n..]);
        BatchPending(start, before + sent, b);
        AppendAssociative(before, sent, [b]);
        SendProbe(p, rest[..n]);
        sent := sent + [b];
        rest := rest[n..];
      }
      NoQuestions(p);
    }

    lemma NoQuestions(p: PeerId)
      ensures Questions(p, []) == []
    {
    }

    lemma BatchAsked(sent: seq<Batch>, b: Batch, rest: seq<ChunkHash>)
      ensures Asked(sent) + Questions(b.peer, b.hashes + rest) == Asked(sent + [b]) + Questions(b.peer, rest)
    {
      hide Asked, Questions;
      AskedAppend(sent, b);
      QuestionsAppend(b.peer, b.hashes, rest);
      AppendAssociative(Asked(sent), Questions(b.peer, b.hashes), Questions(b.peer, rest));
    }

    lemma BatchPending(start: Keeper, sent: seq<Batch>, b: Batch)
      ensures start.pending + FetchModel.Numbered(start.nextRequest, Peers(sent + [b])) ==
              (start.pending + FetchModel.Numbered(start.nextRequest, Peers(sent)))
              [start.nextRequest + |sent| := b.peer]
    {
      hide Peers, FetchModel.Numbered;
      BatchNumbered(start.nextRequest, sent, b);
      MapUnionInsert(start.pending, FetchModel.Numbered(start.nextRequest, Peers(sent)), start.nextRequest + |sent|,
                     b.peer);
    }

    lemma BatchNumbered(from: RequestId, sent: seq<Batch>, b: Batch)
      ensures FetchModel.Numbered(from, Peers(sent + [b])) ==
              FetchModel.Numbered(from, Peers(sent))[from + |sent| := b.peer]
    {
      assert Peers(sent + [b]) == Peers(sent) + [b.peer];
      FetchModel.NumberedAppend(from, Peers(sent), b.peer);
    }

    /** The swarm's `send_request`: ids are never used twice. */
    method SendProbe(peer: PeerId, hashes: seq<ChunkHash>)
      modifies `pendingProbes, `nextRequest, `probes
      ensures pendingProbes == old(pendingProbes)[old(nextRequest) := peer]
      ensures nextRequest == old(nextRequest) + 1 && probes == old(probes) + [Batch(peer, hashes)]
    {
      var id := nextRequest;
      nextRequest, probes := nextRequest + 1, probes + [Batch(peer, hashes)];
      pendingProbes := pendingProbes[id := peer];
    }

    // -------------------------------------------------------------- answering and evicting

    /** The answer to `CheckChunks`. */
    method OnCheckChunks(hashes: seq<ChunkHash>) returns (held: seq<ChunkHash>)
      requires Valid()
      ensures held == Held(fs.storage.view, hashes)
    {
      held := [];
      var rest := hashes;
      while rest != []
        invariant held + Held(fs.storage.view, rest) == Held(fs.storage.view, hashes)
        decreases |rest|
      {
        var pinned := fs.storage.IsPinned(rest[0]);
        if pinned {
          AppendAssociative(held, [rest[0]], Held(fs.storage.view, rest[1..]));
          held := held + [rest[0]];
        }
        rest := rest[1..];
      }
    }

    method OnHeldChunks(id: RequestId, hashes: seq<ChunkHash>, connected: seq<PeerId>)
      returns (ghost live: set<ChunkHash>)
      requires Valid() && NoDuplicates(connected) && local !in connected
      modifies `confirmedHolders, `pendingProbes, fs.storage
      ensures Valid() && IsLive(live)
      ensures View() == OnHeld(score, ToSet(Members(connected)), live, old(View()), id, hashes)
    {
      if id !in pendingProbes {
        live := fs.ReachableChunkHashes();
        return;
      }
      var peer := pendingProbes[id];
      pendingProbes := pendingProbes - {id};
      ConfirmAll(hashes, peer);
      live := EvictConfirmed(connected);
    }

    method ConfirmAll(hashes: seq<ChunkHash>, peer: PeerId)
      modifies `confirmedHolders
      ensures confirmedHolders == Confirm(old(confirmedHolders), hashes, peer)
    {
      for i := 0 to |hashes|
        invariant confirmedHolders == Confirm(old(confirmedHolders), hashes[..i], peer)
      {
        assert hashes[..i + 1][..i] == hashes[..i];
        confirmedHolders := confirmedHolders[hashes[i] := ConfirmedBy(confirmedHolders, hashes[i]) + {peer}];
      }
      assert hashes[..|hashes|] == hashes;
    }

    method EvictConfirmed(connected: seq<PeerId>) returns (ghost live: set<ChunkHash>)
      requires Valid() && NoDuplicates(connected) && local !in connected
      modifies `confirmedHolders, fs.storage
      ensures Valid() && IsLive(live)
      ensures View() == ReplicationModel.EvictConfirmed(score, ToSet(Members(connected)), live, old(View()))
    {
      var members := Members(connected);
      MembersAreDistinct(connected);
      var reachable := fs.ReachableChunkHashes();
      live := reachable;
      var completed := CompletedHashes(members, reachable);
      DropAll(completed);
    }

    method DropAll(completed: set<ChunkHash>)
      requires Valid()
      modifies `confirmedHolders, fs.storage
      ensures Valid()
      ensures var k := old(View());
              View() ==
              k.(store := k.store.(pinned := k.store.pinned - completed), confirmed := k.confirmed - completed)
    {
      ghost var start, done := View(), {};
      assert start.store.pinned - {} == start.store.pinned && start.confirmed - {} == start.confirmed;
      var rest := completed;
      while rest != {}
        invariant Valid() && done + rest == completed && done !! rest
        invariant View() == start.(store := start.store.(pinned := start.store.pinned - done),
                                   confirmed := start.confirmed - done)
        decreases |rest|
      {
        var hash :| hash in rest;
        DropOne(start, done, hash);
        EvictOne(hash);
        rest, done := rest - {hash}, done + {hash};
      }
      assert done == completed;
    }

    method CompletedHashes(members: seq<PeerId>, live: set<ChunkHash>) returns (completed: set<ChunkHash>)
      requires forall h :: ToSet(TopPeers(score, h, members, REPLICAS)) == Designated(score, h, ToSet(members))
      ensures completed == Completed(score, ToSet(members), live, confirmedHolders)
    {
      completed := {};
      var order := Iterate(confirmedHolders.Keys);
      for i := 0 to |order|
        invariant completed == set h | h in order[..i] && h in Completed(score, ToSet(members), live, confirmedHolders)
      {
        var hash := order[i];
        assert hash in ToSet(order) && order[..i + 1] == order[..i] + [hash];
        var holders := TopPeers(score, hash, members, REPLICAS);
        assert (forall p :: p in holders ==> p in confirmedHolders[hash]) <==> ToSet(holders) <= confirmedHolders[hash];
        if hash in live && forall p | p in holders :: p in confirmedHolders[hash] {
          completed := completed + {hash};
        }
      }
      assert order[..|order|] == order;
      assert forall h :: h in confirmedHolders ==> h in ToSet(order);
    }

    method EvictOne(hash: ChunkHash)
      requires Valid()
      modifies this`confirmedHolders, fs.storage
      ensures Valid() && confirmedHolders == old(confirmedHolders) - {hash}
      ensures fs.storage.view == old(fs.storage.view).(pinned := old(fs.storage.view).pinned - {hash})
    {
      var pinned := fs.storage.IsPinned(hash);
      EvictPinned(fs.storage.view, hash);
      if pinned {
        var _ := fs.storage.EvictChunk(hash);
      }
      confirmedHolders := confirmedHolders - {hash};
    }

    lemma DropOne(start: Keeper, done: set<ChunkHash>, hash: ChunkHash)
      ensures start.store.pinned - done - {hash} == start.store.pinned - (done + {hash})
      ensures start.confirmed - done - {hash} == start.confirmed - (done + {hash})
    {
      MapRemoveTwice(start.store.pinned, done, {hash});
      MapRemoveTwice(start.confirmed, done, {hash});
    }

    method OnOutboundFailure(id: RequestId)
      modifies `pendingProbes
      ensures View() == Forget(old(View()), id) && pendingProbes == old(pendingProbes) - {id}
    {
      pendingProbes := pendingProbes - {id};
    }

    lemma QuestionsAreOpen(groups: Groups, candidates: set<ChunkHash>, members: seq<PeerId>, before: Confirmations)
      requires forall h :: ToSet(TopPeers(score, h, members, REPLICAS)) == Designated(score, h, ToSet(members))
      requires forall p, h :: InGroup(groups, p, h) <==>
                 h in candidates && p in TopPeers(score, h, members, REPLICAS)
                   && p !in ConfirmedBy(Retain(before, candidates), h)
      ensures forall q: Question :: InGroup(groups, q.peer, q.hash) <==>
                q in Open(score, ToSet(members), candidates, before)
    {
      forall q: Question ensures InGroup(groups, q.peer, q.hash) <==>
               q in Open(score, ToSet(members), candidates, before) {
        assert q.hash in candidates ==> ConfirmedBy(Retain(before, candidates), q.hash) == ConfirmedBy(before, q.hash);
        assert q.peer in TopPeers(score, q.hash, members, REPLICAS) <==>
                 q.peer in ToSet(TopPeers(score, q.hash, members, REPLICAS));
        assert q == Question(q.peer, q.hash);
      }
    }
  }

  /** Evicting a pinned chunk touches neither the cache nor its order. */
  lemma EvictPinned(s: Store, h: ChunkHash)
    requires WellFormed(s)
    ensures h in s.pinned ==> Evict(s, h) == s.(pinned := s.pinned - {h})
    ensures h !in s.pinned ==> s.pinned - {h} == s.pinned
  {
    if h in s.pinned {
      NotInDeque(s, h);
      assert s.cached - {h} == s.cached;
    }
  }
}
