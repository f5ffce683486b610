/** Replication while the members stay the same: exact safety and convergence. */
module FixedMembers {
  import opened Domain
  import opened Rendezvous
  import opened StorageModel
  import opened ReplicationModel
  import opened Clusters

  /** The acting node sees all the nodes and no others, and none crashes. */
  ghost predicate SeesAll(c: Cluster, s: Step) {
    match s
    case Rebalance(_, w, _, _) => ToSet(w.members) == c.nodes.Keys
    case SendProbes(_, view, _, _) => view == c.nodes.Keys
    case Deliver(_, view, _) => view == c.nodes.Keys
    case Crash(_) => false
    case _ => true
  }

  ghost predicate IsFixedRun(env: Env, states: seq<Cluster>, steps: seq<Step>) {
    IsRun(env, states, steps) && forall i :: 0 <= i < |steps| ==> SeesAll(states[i], steps[i])
  }

  /** Where the chunk belongs. */
  ghost function Home(env: Env, c: Cluster, h: ChunkHash): set<PeerId> {
    Designated(env.score, h, c.nodes.Keys)
  }

  ghost predicate PinnedAt(c: Cluster, n: PeerId, h: ChunkHash) {
    n in c.nodes && h in c.nodes[n].keeper.store.pinned
  }

  /** The peer has to hold the chunk, and does. */
  ghost predicate HeldAtHome(env: Env, c: Cluster, p: PeerId, h: ChunkHash) {
    p in Home(env, c, h) && PinnedAt(c, p, h)
  }

  // ---------------------------------------------------------------- the stronger invariant

  ghost predicate HomeMessage(env: Env, c: Cluster, m: Message) {
    forall h :: h in m.hashes ==>
      if m.CheckChunks? then m.to in Home(env, c, h) else HeldAtHome(env, c, m.from, h)
  }

  ghost predicate HomeBook(env: Env, c: Cluster, k: Keeper) {
    forall h, p :: p in ConfirmedBy(k.confirmed, h) ==> HeldAtHome(env, c, p, h)
  }

  ghost predicate HomeWants(env: Env, c: Cluster, n: PeerId, wanted: set<ChunkHash>) {
    forall h :: h in wanted ==> n in Home(env, c, h)
  }

  /** Every confirmation, in a book or under way, names a designated holder that still pins the chunk. */
  ghost predicate FixedInv(env: Env, c: Cluster) {
    && Inv(env, c)
    && (forall m :: m in c.network ==> HomeMessage(env, c, m))
    && (forall n :: n in c.nodes ==> HomeBook(env, c, c.nodes[n].keeper) && HomeWants(env, c, n, c.nodes[n].wanted))
  }

  /** A designated holder that pins a chunk keeps it. */
  lemma HomeIsKept(env: Env, c: Cluster, s: Step, p: PeerId, h: ChunkHash)
    requires Inv(env, c) && Enabled(env, c, s) && SeesAll(c, s) && HeldAtHome(env, c, p, h)
    ensures HeldAtHome(env, Next(env, c, s), p, h)
  {
    StepGrows(env, c, s);
    if Evicts(c, s, Next(env, c, s), p, h) {
      EvictionIsVouchedFor(env, c, s, p, h);
    }
  }

  lemma StepKeepsHomes(env: Env, c: Cluster, s: Step)
    requires Inv(env, c) && Enabled(env, c, s) && SeesAll(c, s)
    ensures Next(env, c, s).nodes.Keys == c.nodes.Keys
    ensures forall h :: Home(env, Next(env, c, s), h) == Home(env, c, h)
    ensures forall p, h :: HeldAtHome(env, c, p, h) ==> HeldAtHome(env, Next(env, c, s), p, h)
  {
    StepGrows(env, c, s);
    forall p, h | HeldAtHome(env, c, p, h) ensures HeldAtHome(env, Next(env, c, s), p, h) {
      HomeIsKept(env, c, s, p, h);
    }
  }

  lemma BooksStayHome(env: Env, c: Cluster, d: Cluster, k: Keeper)
    requires forall p, h :: HeldAtHome(env, c, p, h) ==> HeldAtHome(env, d, p, h)
    requires HomeBook(env, c, k)
    ensures HomeBook(env, d, k)
  {
    forall h, p | p in ConfirmedBy(k.confirmed, h) ensures HeldAtHome(env, d, p, h) {
      assert HeldAtHome(env, c, p, h);
    }
  }

  lemma MessagesStayHome(env: Env, c: Cluster, d: Cluster, m: Message)
    requires forall p, h :: HeldAtHome(env, c, p, h) ==> HeldAtHome(env, d, p, h)
    requires forall h :: Home(env, d, h) == Home(env, c, h)
    requires HomeMessage(env, c, m)
    ensures HomeMessage(env, d, m)
  {
    forall h | h in m.hashes
      ensures if m.CheckChunks? then m.to in Home(env, d, h) else HeldAtHome(env, d, m.from, h)
    {
      assert if m.CheckChunks? then m.to in Home(env, c, h) else HeldAtHome(env, c, m.from, h);
    }
  }

  lemma WantsStayHome(env: Env, c: Cluster, d: Cluster, n: PeerId, wanted: set<ChunkHash>)
    requires forall h :: Home(env, d, h) == Home(env, c, h)
    requires HomeWants(env, c, n, wanted)
    ensures HomeWants(env, d, n, wanted)
  {
  }

  lemma ActorKeepsHomeBook(env: Env, c: Cluster, s: Step)
    requires FixedInv(env, c) && Enabled(env, c, s) && SeesAll(c, s) && Actor(s).Some?
    ensures HomeBook(env, c, NodeNext(env, c, s).keeper)
  {
    assert HomeBook(env, c, c.nodes[Actor(s).value].keeper);
    if IsStoreStep(s) {
      StoreStep(env, c, s);
    } else if s.SendProbes? {
      ProbeKeepsHomeBook(env, c, s);
    } else if s.Deliver? {
      assert SoundMessage(c, s.held) && HomeMessage(env, c, s.held);
      DeliverKeepsHomeBook(env, c, s.held, s.view, s.live);
    }
  }

  lemma ProbeKeepsHomeBook(env: Env, c: Cluster, s: Step)
    requires s.SendProbes? && Enabled(env, c, s) && HomeBook(env, c, c.nodes[s.at].keeper)
    ensures HomeBook(env, c, Probe(env.score, s.at, s.view, s.live, c.nodes[s.at].keeper, s.batches))
  {
    var k := c.nodes[s.at].keeper;
    var k' := Probe(env.score, s.at, s.view, s.live, k, s.batches);
    forall h, p | p in ConfirmedBy(k'.confirmed, h) ensures HeldAtHome(env, c, p, h) {
      assert p in ConfirmedBy(k.confirmed, h);
    }
  }

  lemma DeliverKeepsHomeBook(env: Env, c: Cluster, held: Message, view: set<PeerId>, live: set<ChunkHash>)
    requires held.HeldChunks? && SoundMessage(c, held) && HomeMessage(env, c, held)
    requires held.to in c.nodes && HomeBook(env, c, c.nodes[held.to].keeper)
    ensures HomeBook(env, c, OnHeld(env.score, view, live, c.nodes[held.to].keeper, held.id, held.hashes))
  {
    var k := c.nodes[held.to].keeper;
    if held.id in k.pending {
      var confirmed := Confirm(k.confirmed, held.hashes, k.pending[held.id]);
      var gone := Completed(env.score, view, live, confirmed);
      forall h, p | p in ConfirmedBy(confirmed - gone, h) ensures HeldAtHome(env, c, p, h) {
        assert p in ConfirmedBy(confirmed, h);
        assert p in ConfirmedBy(k.confirmed, h) || (h in held.hashes && p == held.from);
      }
    }
  }

  lemma SweepWantsDuties(env: Env, c: Cluster, s: Step)
    requires Enabled(env, c, s) && SeesAll(c, s) && s.Rebalance? && WellFormed(c.nodes[s.at].keeper.store)
    ensures var store := c.nodes[s.at].keeper.store; var d := Rebalanced(s.w, Duty(store, s.blockedUntil, []), s.order);
            && (forall h :: h in d.commands ==> s.at in Home(env, c, h))
            && (forall h :: h in d.store.pinned && h !in store.pinned ==> s.at in Home(env, c, h))
  {
    var store := c.nodes[s.at].keeper.store;
    var d := Rebalanced(s.w, Duty(store, s.blockedUntil, []), s.order);
    SweepTakesOnlyDuties(s.w, Duty(store, s.blockedUntil, []), s.order);
    forall h | IsDuty(s.w, h) ensures s.at in Home(env, c, h) {
      DutyIsHome(env, c, s.w, h);
    }
  }

  lemma ActorWantsDuties(env: Env, c: Cluster, s: Step)
    requires FixedInv(env, c) && Enabled(env, c, s) && SeesAll(c, s) && Actor(s).Some?
    ensures HomeWants(env, c, Actor(s).value, NodeNext(env, c, s).wanted)
  {
    assert HomeWants(env, c, Actor(s).value, c.nodes[Actor(s).value].wanted);
    if s.Rebalance? {
      assert SoundNode(c.nodes[s.at]);
      SweepWantsDuties(env, c, s);
      var d := Rebalanced(s.w, Duty(c.nodes[s.at].keeper.store, s.blockedUntil, []), s.order);
      assert NodeNext(env, c, s).wanted == c.nodes[s.at].wanted + ToSet(d.commands);
    }
  }

  lemma SentStayHome(env: Env, c: Cluster, s: Step, m: Message)
    requires FixedInv(env, c) && Enabled(env, c, s) && SeesAll(c, s) && Actor(s).Some? && m in Sent(c, s)
    ensures HomeMessage(env, c, m)
  {
    if s.SendProbes? {
      var k := c.nodes[s.at].keeper;
      var i :| 0 <= i < |s.batches|
          && m == CheckChunks(k.nextRequest + i, s.at, s.batches[i].peer, s.batches[i].hashes);
      ProbesGoToHolders(env.score, s.at, s.view, s.live, k, s.batches, i);
    } else if s.Answer? {
      assert HomeMessage(env, c, s.check);
      assert m.hashes == Held(c.nodes[s.check.to].keeper.store, s.check.hashes);
      forall h | h in m.hashes ensures HeldAtHome(env, c, m.from, h) {
        assert h in s.check.hashes;
      }
    }
  }

  lemma NodesStayHome(env: Env, c: Cluster, s: Step)
    requires FixedInv(env, c) && Enabled(env, c, s) && SeesAll(c, s)
    ensures var d := Next(env, c, s);
            forall n :: n in d.nodes ==> HomeBook(env, d, d.nodes[n].keeper) && HomeWants(env, d, n, d.nodes[n].wanted)
  {
    var d := Next(env, c, s);
    StepKeepsHomes(env, c, s);
    if Actor(s).Some? {
      ActorKeepsHomeBook(env, c, s);
      ActorWantsDuties(env, c, s);
    }
    hide Inv, HomeBook, HomeMessage, HeldAtHome, NodeNext, Sent, Enabled, Home, HomeWants, SeesAll;
    forall n | n in d.nodes ensures HomeBook(env, d, d.nodes[n].keeper) && HomeWants(env, d, n, d.nodes[n].wanted) {
      BooksStayHome(env, c, d, d.nodes[n].keeper);
      WantsStayHome(env, c, d, n, d.nodes[n].wanted);
    }
  }

  lemma NetworkStaysHome(env: Env, c: Cluster, s: Step)
    requires FixedInv(env, c) && Enabled(env, c, s) && SeesAll(c, s)
    ensures forall m :: m in Next(env, c, s).network ==> HomeMessage(env, Next(env, c, s), m)
  {
    var d := Next(env, c, s);
    StepKeepsHomes(env, c, s);
    hide Inv, HomeBook, HomeMessage, HeldAtHome, NodeNext, Sent, Enabled, Home, HomeWants, SeesAll;
    forall m | m in d.network ensures HomeMessage(env, d, m) {
      if m !in c.network { SentStayHome(env, c, s, m); }
      MessagesStayHome(env, c, d, m);
    }
  }

  /** Every step of the fixed set of members keeps the stronger invariant. */
  lemma StepKeepsFixedInv(env: Env, c: Cluster, s: Step)
    requires FixedInv(env, c) && Enabled(env, c, s) && SeesAll(c, s)
    ensures FixedInv(env, Next(env, c, s))
  {
    hide Next, Inv, HomeBook, HomeMessage, HomeWants, Enabled;
    StepKeepsInv(env, c, s);
    NodesStayHome(env, c, s);
    NetworkStaysHome(env, c, s);
  }

  lemma {:induction false} FixedRunKeepsInv(env: Env, states: seq<Cluster>, steps: seq<Step>, i: nat)
    requires IsFixedRun(env, states, steps) && i < |states|
    ensures FixedInv(env, states[i])
  {
    hide FixedInv, Enabled, Next, Initial, Inv;
    if i == 0 {
      RunKeepsInv(env, states, steps, 0);
      InitialIsHome(env, states[0]);
    } else {
      FixedRunKeepsInv(env, states, steps, i - 1);
      assert IsStep(env, states[i - 1], steps[i - 1], states[i - 1 + 1]) && SeesAll(states[i - 1], steps[i - 1]);
      StepKeepsFixedInv(env, states[i - 1], steps[i - 1]);
    }
  }

  lemma InitialIsHome(env: Env, c: Cluster)
    requires Initial(c) && Inv(env, c)
    ensures FixedInv(env, c)
  {
  }

  // ---------------------------------------------------------------- safety

  /**
   * With fixed members a node evicts a chunk only while both designated holders, neither of
   * them itself, pin it, and they go on pinning it.
   */
  lemma EvictionsAreSafe(env: Env, states: seq<Cluster>, steps: seq<Step>, i: nat, n: PeerId, h: ChunkHash)
    requires IsFixedRun(env, states, steps) && i < |steps| && Evicts(states[i], steps[i], states[i + 1], n, h)
    ensures n !in Home(env, states[i], h) && |Home(env, states[i], h)| == REPLICAS
    ensures forall p :: p in Home(env, states[i], h) ==> PinnedAt(states[i], p, h) && PinnedAt(states[i + 1], p, h)
  {
    FixedRunKeepsInv(env, states, steps, i);
    assert IsStep(env, states[i], steps[i], states[i + 1]) && SeesAll(states[i], steps[i]);
    EvictionFindsBothHolders(env, states[i], steps[i], n, h);
    StepKeepsHomes(env, states[i], steps[i]);
  }

  lemma EvictionFindsBothHolders(env: Env, c: Cluster, s: Step, n: PeerId, h: ChunkHash)
    requires FixedInv(env, c) && Enabled(env, c, s) && SeesAll(c, s) && Evicts(c, s, Next(env, c, s), n, h)
    ensures n !in Home(env, c, h) && |Home(env, c, h)| == REPLICAS
    ensures forall p :: p in Home(env, c, h) ==> HeldAtHome(env, c, p, h)
  {
    EvictionIsVouchedFor(env, c, s, n, h);
    assert HomeBook(env, c, c.nodes[n].keeper) && HomeMessage(env, c, s.held);
  }

  // ---------------------------------------------------------------- convergence

  type Place = (PeerId, ChunkHash)

  /** Designated holders that do not pin a chunk of `chunks`, and others that do. */
  ghost function Misplaced(env: Env, c: Cluster, chunks: set<ChunkHash>): set<Place> {
    set n, h | n in c.nodes && h in chunks && (n in Home(env, c, h)) != PinnedAt(c, n, h) :: (n, h)
  }

  /** Where a step pins or evicts. */
  ghost function Moved(c: Cluster, d: Cluster, chunks: set<ChunkHash>): set<Place> {
    set n, h | n in c.nodes && h in chunks && PinnedAt(c, n, h) != PinnedAt(d, n, h) :: (n, h)
  }

  /** Whatever is newly pinned without a write is pinned where it belongs. */
  lemma PinsAreDuties(env: Env, c: Cluster, s: Step, n: PeerId, h: ChunkHash)
    requires FixedInv(env, c) && Enabled(env, c, s) && SeesAll(c, s) && !s.Write?
    requires PinnedAt(Next(env, c, s), n, h) && !PinnedAt(c, n, h)
    ensures n in Home(env, c, h)
  {
    assert SoundNode(c.nodes[n]) && Actor(s) == Some(n);
    if s.Rebalance? {
      SweepWantsDuties(env, c, s);
    } else if s.FetchedToPin? {
      PinOrCacheMeaning(env, c.nodes[n].keeper.store, s.data);
      assert HomeWants(env, c, n, c.nodes[n].wanted);
    } else {
      OtherStepsPinNothing(env, c, s, h);
    }
  }

  lemma OtherStepsPinNothing(env: Env, c: Cluster, s: Step, h: ChunkHash)
    requires Enabled(env, c, s) && !s.Write? && !s.Rebalance? && !s.FetchedToPin? && Actor(s).Some?
    requires WellFormed(c.nodes[Actor(s).value].keeper.store)
    ensures h in NodeNext(env, c, s).keeper.store.pinned ==> h in c.nodes[Actor(s).value].keeper.store.pinned
  {
  }

  /** Without new writes every pin and every eviction repairs one misplaced chunk and creates none. */
  lemma StepRepairs(env: Env, c: Cluster, s: Step, chunks: set<ChunkHash>)
    requires FixedInv(env, c) && Enabled(env, c, s) && SeesAll(c, s) && !s.Write?
    ensures var d := Next(env, c, s);
            && Moved(c, d, chunks) <= Misplaced(env, c, chunks)
            && Misplaced(env, d, chunks) == Misplaced(env, c, chunks) - Moved(c, d, chunks)
  {
    var d := Next(env, c, s);
    StepKeepsHomes(env, c, s);
    forall n, h | n in c.nodes && PinnedAt(c, n, h) != PinnedAt(d, n, h)
      ensures (n in Home(env, c, h)) != PinnedAt(c, n, h)
    {
      if PinnedAt(c, n, h) {
        assert Evicts(c, s, d, n, h);
        EvictionFindsBothHolders(env, c, s, n, h);
      } else {
        PinsAreDuties(env, c, s, n, h);
      }
    }
    hide Enabled, Next, FixedInv, PinnedAt, Home;
    RepairsAddUp(env, c, d, chunks);
  }

  lemma RepairsAddUp(env: Env, c: Cluster, d: Cluster, chunks: set<ChunkHash>)
    requires d.nodes.Keys == c.nodes.Keys && forall h :: Home(env, d, h) == Home(env, c, h)
    requires forall n, h :: n in c.nodes && PinnedAt(c, n, h) != PinnedAt(d, n, h) ==>
               (n in Home(env, c, h)) != PinnedAt(c, n, h)
    ensures Moved(c, d, chunks) <= Misplaced(env, c, chunks)
    ensures Misplaced(env, d, chunks) == Misplaced(env, c, chunks) - Moved(c, d, chunks)
  {
    hide PinnedAt, Home;
    forall n, h ensures (n, h) in Misplaced(env, d, chunks) <==>
             (n, h) in Misplaced(env, c, chunks) - Moved(c, d, chunks) {
    }
  }

  /** The pins and evictions of the steps `i` to `j - 1`. */
  ghost function Moves(states: seq<Cluster>, chunks: set<ChunkHash>, i: nat, j: nat): nat
    requires i <= j < |states|
    decreases j
  {
    if i == j then 0 else Moves(states, chunks, i, j - 1) + |Moved(states[j - 1], states[j], chunks)|
  }

  ghost predicate NoWrites(steps: seq<Step>, i: nat, j: nat) {
    j <= |steps| && forall k :: i <= k < j ==> !steps[k].Write?
  }

  /** Without new writes nothing ever becomes misplaced. */
  lemma {:induction false} NothingBecomesMisplaced(env: Env, states: seq<Cluster>, steps: seq<Step>,
                                                   chunks: set<ChunkHash>, i: nat, j: nat)
    requires IsFixedRun(env, states, steps) && i <= j < |states| && NoWrites(steps, i, j)
    ensures Misplaced(env, states[j], chunks) <= Misplaced(env, states[i], chunks)
    decreases j
  {
    hide Misplaced, Moved, IsFixedRun, NoWrites;
    RunShape(env, states, steps);
    if i < j {
      NoWritesBefore(steps, i, j);
      NothingBecomesMisplaced(env, states, steps, chunks, i, j - 1);
      RunRepairs(env, states, steps, chunks, j - 1);
    }
  }

  /**
   * Replication converges: from any state on, without new writes, the moves made and the
   * chunks still misplaced add up to the chunks misplaced at the start, so there are at most
   * that many moves.
   */
  lemma {:induction false} ReplicationConverges(env: Env, states: seq<Cluster>, steps: seq<Step>,
                                                chunks: set<ChunkHash>, i: nat, j: nat)
    requires IsFixedRun(env, states, steps) && i <= j < |states| && NoWrites(steps, i, j)
    ensures Moves(states, chunks, i, j) + |Misplaced(env, states[j], chunks)| == |Misplaced(env, states[i], chunks)|
    decreases j
  {
    hide Misplaced, Moved, IsFixedRun, NoWrites, Moves;
    RunShape(env, states, steps);
    MovesStep(states, chunks, i, j);
    if i < j {
      NoWritesBefore(steps, i, j);
      ReplicationConverges(env, states, steps, chunks, i, j - 1);
      RunRepairs(env, states, steps, chunks, j - 1);
    }
  }

  lemma MovesStep(states: seq<Cluster>, chunks: set<ChunkHash>, i: nat, j: nat)
    requires i <= j < |states|
    ensures i == j ==> Moves(states, chunks, i, j) == 0
    ensures i < j ==>
              Moves(states, chunks, i, j) == Moves(states, chunks, i, j - 1) + |Moved(states[j - 1], states[j], chunks)|
  {
  }

  lemma RunShape(env: Env, states: seq<Cluster>, steps: seq<Step>)
    requires IsFixedRun(env, states, steps)
    ensures |states| == |steps| + 1
  {
  }

  lemma NoWritesBefore(steps: seq<Step>, i: nat, j: nat)
    requires NoWrites(steps, i, j) && i < j
    ensures NoWrites(steps, i, j - 1) && j <= |steps| && !steps[j - 1].Write?
  {
  }

  lemma RunRepairs(env: Env, states: seq<Cluster>, steps: seq<Step>, chunks: set<ChunkHash>, i: nat)
    requires IsFixedRun(env, states, steps) && i < |steps| && !steps[i].Write?
    ensures Misplaced(env, states[i + 1], chunks) <= Misplaced(env, states[i], chunks)
    ensures |Moved(states[i], states[i + 1], chunks)| + |Misplaced(env, states[i + 1], chunks)| ==
            |Misplaced(env, states[i], chunks)|
  {
    FixedRunKeepsInv(env, states, steps, i);
    assert IsStep(env, states[i], steps[i], states[i + 1]) && SeesAll(states[i], steps[i]);
    hide FixedInv, Next, Misplaced, Moved;
    StepRepairs(env, states[i], steps[i], chunks);
    RemovedCount(Misplaced(env, states[i], chunks), Moved(states[i], states[i + 1], chunks));
  }

  lemma RemovedCount<T>(a: set<T>, b: set<T>)
    requires b <= a
    ensures |a - b| + |b| == |a|
  {
    assert a == (a - b) + b;
  }

  // ---------------------------------------------------------------- at rest

  /** All a sweep of `n` would do is nothing: no promotion, no back-off, no fetch. */
  ghost predicate NothingToTake(env: Env, c: Cluster, n: PeerId, order: seq<ChunkHash>)
    requires n in c.nodes
  {
    exists w: Sweep ::
      && w.score == env.score && w.self == n && w.full == {} && NoDuplicates(w.members)
      && ToSet(w.members) == c.nodes.Keys
      && var d := Duty(c.nodes[n].keeper.store, map[], []); Rebalanced(w, d, order) == d
  }

  /**
   * When no node has anything to take or a candidate to evict, and all nodes see the same
   * reachable chunks, every one of them is pinned exactly at its two designated holders.
   */
  lemma AtRestMeansPlaced(env: Env, c: Cluster, live: set<ChunkHash>, order: seq<ChunkHash>)
    requires StoresWellFormed(c) && |c.nodes.Keys| >= REPLICAS && ToSet(order) == live
    requires forall n :: n in c.nodes ==> NothingToTake(env, c, n, order)
    requires forall n :: n in c.nodes ==> Candidates(env.score, n, c.nodes.Keys, live, c.nodes[n].keeper.store) == {}
    ensures forall h :: h in live ==> PinnedBy(c, h) == Home(env, c, h) && |PinnedBy(c, h)| == REPLICAS
    ensures Misplaced(env, c, live) == {}
  {
    forall h | h in live
      ensures PinnedBy(c, h) == Home(env, c, h) && |PinnedBy(c, h)| == REPLICAS
      ensures forall n :: n in c.nodes ==> (n in Home(env, c, h)) == PinnedAt(c, n, h)
    {
      RestingChunkIsHome(env, c, live, order, h);
    }
    hide PinnedAt, Home;
    assert forall n, h :: (n, h) !in Misplaced(env, c, live);
  }

  lemma RestingChunkIsHome(env: Env, c: Cluster, live: set<ChunkHash>, order: seq<ChunkHash>, h: ChunkHash)
    requires StoresWellFormed(c) && |c.nodes.Keys| >= REPLICAS && h in order && h in live
    requires forall n :: n in c.nodes ==> NothingToTake(env, c, n, order)
    requires forall n :: n in c.nodes ==> Candidates(env.score, n, c.nodes.Keys, live, c.nodes[n].keeper.store) == {}
    ensures PinnedBy(c, h) == Home(env, c, h) && |PinnedBy(c, h)| == REPLICAS
    ensures forall n :: n in c.nodes ==> (n in Home(env, c, h)) == PinnedAt(c, n, h)
  {
    DesignatedCount(env.score, h, c.nodes.Keys);
    forall n | n in c.nodes ensures (n in Home(env, c, h)) == PinnedAt(c, n, h) {
      if PinnedAt(c, n, h) {
        assert h !in Candidates(env.score, n, c.nodes.Keys, live, c.nodes[n].keeper.store);
      } else if n in Home(env, c, h) {
        RestingNodePins(env, c, n, order, h);
      }
    }
    PinnedByIsHome(env, c, h);
  }

  lemma PinnedByIsHome(env: Env, c: Cluster, h: ChunkHash)
    requires forall n :: n in c.nodes ==> (n in Home(env, c, h)) == PinnedAt(c, n, h)
    ensures PinnedBy(c, h) == Home(env, c, h)
  {
    assert Home(env, c, h) <= c.nodes.Keys;
    forall n ensures n in PinnedBy(c, h) <==> n in Home(env, c, h) {
      assert n in PinnedBy(c, h) <==> PinnedAt(c, n, h);
    }
  }

  lemma RestingNodePins(env: Env, c: Cluster, n: PeerId, order: seq<ChunkHash>, h: ChunkHash)
    requires n in c.nodes && WellFormed(c.nodes[n].keeper.store)
    requires NothingToTake(env, c, n, order) && h in order && n in Home(env, c, h)
    ensures h in c.nodes[n].keeper.store.pinned
  {
    var d := Duty(c.nodes[n].keeper.store, map[], []);
    var w: Sweep :| w.score == env.score && w.self == n && w.full == {} && NoDuplicates(w.members)
        && ToSet(w.members) == c.nodes.Keys
                    && Rebalanced(w, d, order) == d;
    DutyIsHome(env, c, w, h);
    IdleSweepHasNoWork(w, d, order, h);
  }

  lemma DutyIsHome(env: Env, c: Cluster, w: Sweep, h: ChunkHash)
    requires w.score == env.score && NoDuplicates(w.members) && ToSet(w.members) == c.nodes.Keys
    ensures IsDuty(w, h) <==> w.self in Home(env, c, h)
  {
    TopPeersAreTheHolders(env.score, h, w.members, REPLICAS);
    var top := TopPeers(env.score, h, w.members, REPLICAS);
    assert w.self in top <==> w.self in ToSet(top);
  }

  lemma IdleSweepHasNoWork(w: Sweep, d: Duty, order: seq<ChunkHash>, h: ChunkHash)
    requires WellFormed(d.store) && d.blockedUntil == map[] && d.commands == [] && w.full == {}
    requires Rebalanced(w, d, order) == d && h in order && IsDuty(w, h)
    ensures h in d.store.pinned
  {
    SweepLeavesNothingUndone(w, d, order);
  }
}
