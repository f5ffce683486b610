/**
 * Replication as a protocol: nodes and messages, one atomic step for each dispatcher event of
 * src/network/handlers/replication.rs and for each way a chunk store changes.  Every step
 * carries the acting node's current view of the members and of the reachable chunks, so
 * membership and trees may change arbitrarily between steps.
 */
module Clusters {
  import opened Domain
  import opened Rendezvous
  import opened StorageModel
  import opened ReplicationModel
  import FetchModel

  type Env = FetchModel.Env

  /**
   * `wanted` are the chunks fetched with pinning.  For the proof, `ever` are the chunks the
   * node has ever pinned and `vouched` those it has ever reported as pinned, and `crashed`
   * says whether it has ever lost its memory.
   */
  datatype Node = Node(
    keeper: Keeper,
    wanted: set<ChunkHash>,
    ever: set<ChunkHash>,
    vouched: set<ChunkHash>,
    crashed: bool)

  datatype Message =
    | CheckChunks(id: RequestId, from: PeerId, to: PeerId, hashes: seq<ChunkHash>)
    | HeldChunks(id: RequestId, from: PeerId, to: PeerId, hashes: seq<ChunkHash>)

  datatype Cluster = Cluster(nodes: map<PeerId, Node>, network: set<Message>)

  datatype Step =
    | Write(at: PeerId, batch: seq<Bytes>)
    | Cache(at: PeerId, data: Bytes)
    | Read(at: PeerId, hash: ChunkHash)
    | FetchedToPin(at: PeerId, data: Bytes)
    | Rebalance(at: PeerId, w: Sweep, blockedUntil: map<ChunkHash, nat>, order: seq<ChunkHash>)
    | SendProbes(at: PeerId, view: set<PeerId>, live: set<ChunkHash>, batches: seq<Batch>)
    | Answer(check: Message)
    | Deliver(held: Message, view: set<PeerId>, live: set<ChunkHash>)
    | Fail(at: PeerId, id: RequestId)
    | Crash(at: PeerId)
    | Lose(msg: Message)

  ghost predicate Enabled(env: Env, c: Cluster, s: Step) {
    match s
    case Write(at, _) => at in c.nodes
    case Cache(at, _) => at in c.nodes
    case Read(at, _) => at in c.nodes
    case FetchedToPin(at, data) => at in c.nodes && env.sha(data) in c.nodes[at].wanted
    case Rebalance(at, w, _, _) =>
      && at in c.nodes && w.score == env.score && w.self == at
      && NoDuplicates(w.members) && at in w.members && |w.members| > 1
    case SendProbes(at, view, live, batches) =>
      at in c.nodes && at in view && IsProbeRound(env.score, at, view, live, c.nodes[at].keeper, batches)
    case Answer(check) => check in c.network && check.CheckChunks? && check.to in c.nodes
    case Deliver(held, view, _) => held in c.network && held.HeldChunks? && held.to in c.nodes && held.to in view
    case Fail(at, _) => at in c.nodes
    case Crash(at) => at in c.nodes
    case Lose(_) => true
  }

  function WithStore(node: Node, s: Store): Node {
    node.(keeper := node.keeper.(store := s), ever := node.ever + s.pinned.Keys)
  }

  /** A fetched chunk that cannot be pinned is cached. */
  ghost function PinOrCache(env: Env, s: Store, data: Bytes): Store
    requires WellFormed(s)
  {
    if TryPin(env.sha, s, [data]).Some? then TryPin(env.sha, s, [data]).value else CacheChunk(env.sha, s, data)
  }

  /** Everything is in memory, so a crash empties the store and the books; the node may come back. */
  function Wiped(node: Node): Node {
    var store := Empty(node.keeper.store.maxPinned, node.keeper.store.maxCached);
    node.(keeper := Keeper(store, map[], map[], node.keeper.nextRequest), wanted := {}, crashed := true)
  }

  /** The node that acts, if it is a node that acts. */
  function Actor(s: Step): Option<PeerId> {
    match s
    case Answer(check) => Some(check.to)
    case Deliver(held, _, _) => Some(held.to)
    case Lose(_) => None
    case _ => Some(s.at)
  }

  /** What the step does to the acting node. */
  ghost function NodeNext(env: Env, c: Cluster, s: Step): Node
    requires Enabled(env, c, s) && Actor(s).Some? && WellFormed(c.nodes[Actor(s).value].keeper.store)
  {
    var node := c.nodes[Actor(s).value];
    var k := node.keeper;
    match s
    case Write(_, batch) => WithStore(node, Apply(env.sha, k.store, OpPin(batch)))
    case Cache(_, data) => WithStore(node, CacheChunk(env.sha, k.store, data))
    case Read(_, h) => WithStore(node, Touch(k.store, h))
    case FetchedToPin(_, data) => WithStore(node, PinOrCache(env, k.store, data))
    case Rebalance(_, w, blocked, order) =>
      var d := Rebalanced(w, Duty(k.store, blocked, []), order);
      WithStore(node, d.store).(wanted := node.wanted + ToSet(d.commands))
    case SendProbes(at, view, live, batches) => node.(keeper := Probe(env.score, at, view, live, k, batches))
    case Answer(check) => node.(vouched := node.vouched + ToSet(Held(k.store, check.hashes)))
    case Deliver(held, view, live) => node.(keeper := OnHeld(env.score, view, live, k, held.id, held.hashes))
    case Fail(_, id) => node.(keeper := Forget(k, id))
    case Crash(_) => Wiped(node)
  }

  /** The messages it sends. */
  ghost function Sent(c: Cluster, s: Step): set<Message>
    requires Actor(s).Some? && Actor(s).value in c.nodes
  {
    var k := c.nodes[Actor(s).value].keeper;
    match s
    case SendProbes(at, _, _, batches) =>
      set i | 0 <= i < |batches| :: CheckChunks(k.nextRequest + i, at, batches[i].peer, batches[i].hashes)
    case Answer(check) => {HeldChunks(check.id, check.to, check.from, Held(k.store, check.hashes))}
    case _ => {}
  }

  ghost predicate StoresWellFormed(c: Cluster) {
    forall n :: n in c.nodes ==> WellFormed(c.nodes[n].keeper.store)
  }

  /** Messages stay until they are lost, so a reply may be late and may come more than once. */
  ghost function Next(env: Env, c: Cluster, s: Step): Cluster
    requires StoresWellFormed(c) && Enabled(env, c, s)
  {
    match Actor(s)
    case None => c.(network := c.network - {s.msg})
    case Some(n) => Cluster(c.nodes[n := NodeNext(env, c, s)], c.network + Sent(c, s))
  }

  ghost predicate Initial(c: Cluster) {
    c.network == {} &&
    forall n :: n in c.nodes ==>
      && c.nodes[n].wanted == c.nodes[n].ever == c.nodes[n].vouched == {} && !c.nodes[n].crashed
      && var k := c.nodes[n].keeper;
         k.confirmed == map[] && k.pending == map[] && k.store == Empty(k.store.maxPinned, k.store.maxCached)
  }

  // ---------------------------------------------------------------- the invariant

  /** The nodes that have ever pinned `h`, and those that pin it now. */
  ghost function Ever(c: Cluster, h: ChunkHash): set<PeerId> {
    set n | n in c.nodes && h in c.nodes[n].ever
  }

  ghost function PinnedBy(c: Cluster, h: ChunkHash): set<PeerId> {
    set n | n in c.nodes && h in c.nodes[n].keeper.store.pinned
  }

  ghost function Crashed(c: Cluster): set<PeerId> {
    set n | n in c.nodes && c.nodes[n].crashed
  }

  predicate Vouches(c: Cluster, p: PeerId, h: ChunkHash) {
    p in c.nodes && h in c.nodes[p].vouched
  }

  ghost predicate SoundNode(node: Node) {
    && WellFormed(node.keeper.store)
    && node.keeper.store.pinned.Keys <= node.ever && node.vouched <= node.ever
    && (forall id :: id in node.keeper.pending ==> id < node.keeper.nextRequest)
  }

  /** The node asks and trusts only others, and each confirmation it has was given. */
  ghost predicate SoundBook(c: Cluster, n: PeerId, k: Keeper) {
    && (forall id :: id in k.pending ==> k.pending[id] != n)
    && (forall h, p :: p in ConfirmedBy(k.confirmed, h) ==> p != n && Vouches(c, p, h))
  }

  /** The id of a message stands for its probe, and a reply reports what was pinned. */
  ghost predicate SoundMessage(c: Cluster, m: Message) {
    var asker, asked := if m.CheckChunks? then m.from else m.to, if m.CheckChunks? then m.to else m.from;
    && asker in c.nodes && m.id < c.nodes[asker].keeper.nextRequest
    && (m.id in c.nodes[asker].keeper.pending ==> c.nodes[asker].keeper.pending[m.id] == asked)
    && (m.HeldChunks? ==> forall h :: h in m.hashes ==> Vouches(c, m.from, h))
  }

  /** Of all nodes that ever pinned a chunk, the two ranked highest pin it, unless they crashed. */
  ghost predicate TopTwoPin(env: Env, c: Cluster) {
    forall h :: Holders(env.score, h, Ever(c, h), REPLICAS) - Crashed(c) <= PinnedBy(c, h)
  }

  ghost predicate Inv(env: Env, c: Cluster) {
    && (forall n :: n in c.nodes ==> SoundNode(c.nodes[n]))
    && (forall n :: n in c.nodes ==> SoundBook(c, n, c.nodes[n].keeper))
    && (forall m :: m in c.network ==> SoundMessage(c, m))
    && TopTwoPin(env, c)
  }

  // ---------------------------------------------------------------- what a step does to a node

  /** What a node has pinned, reported or asked is never forgotten, and ids are not reused. */
  ghost predicate Ages(a: Node, b: Node) {
    && a.ever <= b.ever && a.vouched <= b.vouched && (a.crashed ==> b.crashed)
    && a.keeper.nextRequest <= b.keeper.nextRequest
    && (forall id :: id in b.keeper.pending && id < a.keeper.nextRequest ==>
        id in a.keeper.pending && b.keeper.pending[id] == a.keeper.pending[id])
  }

  lemma PinOrCacheMeaning(env: Env, s: Store, data: Bytes)
    requires WellFormed(s)
    ensures WellFormed(PinOrCache(env, s, data))
    ensures s.pinned.Keys <= PinOrCache(env, s, data).pinned.Keys <= s.pinned.Keys + {env.sha(data)}
  {
    TryPinIsExact(env.sha, s, [data]);
    assert (set d | d in [data] :: env.sha(d)) == {env.sha(data)};
    ApplyKeepsInvariant(env.sha, s, OpPin([data]));
    CacheChunkKeepsWellFormed(env.sha, s, data);
  }

  /** Steps that change the store and nothing else; none of them loses a pinned chunk. */
  predicate IsStoreStep(s: Step) {
    s.Write? || s.Cache? || s.Read? || s.FetchedToPin? || s.Rebalance?
  }

  lemma StoreStep(env: Env, c: Cluster, s: Step)
    requires Enabled(env, c, s) && IsStoreStep(s) && WellFormed(c.nodes[s.at].keeper.store)
    ensures var a, b := c.nodes[s.at], NodeNext(env, c, s);
            && WellFormed(b.keeper.store) && b == WithStore(a, b.keeper.store).(wanted := b.wanted)
            && a.keeper.store.pinned.Keys <= b.keeper.store.pinned.Keys
  {
    var store := c.nodes[s.at].keeper.store;
    match s
    case Write(_, batch) => ApplyKeepsInvariant(env.sha, store, OpPin(batch));
    case Cache(_, data) => ApplyKeepsInvariant(env.sha, store, OpCache(data));
    case Read(_, h) => ApplyKeepsInvariant(env.sha, store, OpGet(h));
    case FetchedToPin(_, data) => PinOrCacheMeaning(env, store, data);
    case Rebalance(_, w, blocked, order) => SweepTakesOnlyDuties(w, Duty(store, blocked, []), order);
    case _ =>
  }

  lemma NodeStaysSound(env: Env, c: Cluster, s: Step)
    requires Enabled(env, c, s) && Actor(s).Some? && SoundNode(c.nodes[Actor(s).value])
    ensures SoundNode(NodeNext(env, c, s)) && Ages(c.nodes[Actor(s).value], NodeNext(env, c, s))
  {
    if IsStoreStep(s) {
      StoreStep(env, c, s);
    } else if s.Deliver? {
      var k := c.nodes[s.held.to].keeper;
      if s.held.id in k.pending {
        var confirmed := Confirm(k.confirmed, s.held.hashes, k.pending[s.held.id]);
        EvictKeepsStore(k.store, Completed(env.score, s.view, s.live, confirmed));
      }
    }
  }

  // ---------------------------------------------------------------- what a step does to the rest

  ghost predicate Grows(c: Cluster, d: Cluster) {
    d.nodes.Keys == c.nodes.Keys && forall n :: n in c.nodes ==> Ages(c.nodes[n], d.nodes[n])
  }

  lemma StepGrows(env: Env, c: Cluster, s: Step)
    requires Inv(env, c) && Enabled(env, c, s)
    ensures Grows(c, Next(env, c, s))
  {
    if Actor(s).Some? {
      NodeStaysSound(env, c, s);
      OneNodeAges(c, Actor(s).value, NodeNext(env, c, s), Next(env, c, s));
    }
  }

  lemma OneNodeAges(c: Cluster, n: PeerId, node: Node, d: Cluster)
    requires n in c.nodes && d.nodes == c.nodes[n := node] && Ages(c.nodes[n], node)
    ensures Grows(c, d)
  {
  }

  lemma GrowthKeepsBooks(c: Cluster, d: Cluster, n: PeerId, k: Keeper)
    requires Grows(c, d) && SoundBook(c, n, k)
    ensures SoundBook(d, n, k)
  {
    forall h, p | p in ConfirmedBy(k.confirmed, h) ensures Vouches(d, p, h) {
      assert Vouches(c, p, h);
    }
  }

  lemma GrowthKeepsMessages(c: Cluster, d: Cluster, m: Message)
    requires Grows(c, d) && SoundMessage(c, m)
    ensures SoundMessage(d, m)
  {
    if m.HeldChunks? {
      forall h | h in m.hashes ensures Vouches(d, m.from, h) { assert Vouches(c, m.from, h); }
    }
  }

  lemma ActorKeepsBook(env: Env, c: Cluster, s: Step)
    requires Inv(env, c) && Enabled(env, c, s) && Actor(s).Some?
    ensures SoundBook(c, Actor(s).value, NodeNext(env, c, s).keeper)
  {
    var n := Actor(s).value;
    assert SoundBook(c, n, c.nodes[n].keeper);
    if IsStoreStep(s) {
      StoreStep(env, c, s);
    } else if s.SendProbes? {
      ProbeKeepsBook(env, c, s);
    } else if s.Deliver? {
      assert SoundMessage(c, s.held);
      DeliverKeepsBook(env, c, s.held, s.view, s.live);
    }
  }

  lemma ProbeKeepsBook(env: Env, c: Cluster, s: Step)
    requires s.SendProbes? && Enabled(env, c, s) && SoundBook(c, s.at, c.nodes[s.at].keeper)
    ensures SoundBook(c, s.at, Probe(env.score, s.at, s.view, s.live, c.nodes[s.at].keeper, s.batches))
  {
    var k := c.nodes[s.at].keeper;
    var k' := Probe(env.score, s.at, s.view, s.live, k, s.batches);
    forall i | 0 <= i < |s.batches| ensures s.batches[i].peer != s.at {
      ProbesGoToHolders(env.score, s.at, s.view, s.live, k, s.batches, i);
    }
    forall h, p | p in ConfirmedBy(k'.confirmed, h) ensures p != s.at && Vouches(c, p, h) {
      assert p in ConfirmedBy(k.confirmed, h);
    }
  }

  lemma DeliverKeepsBook(env: Env, c: Cluster, held: Message, view: set<PeerId>, live: set<ChunkHash>)
    requires held.HeldChunks? && SoundMessage(c, held) && held.to in c.nodes
             && SoundBook(c, held.to, c.nodes[held.to].keeper)
    ensures SoundBook(c, held.to, OnHeld(env.score, view, live, c.nodes[held.to].keeper, held.id, held.hashes))
  {
    var k := c.nodes[held.to].keeper;
    if held.id in k.pending {
      var confirmed := Confirm(k.confirmed, held.hashes, k.pending[held.id]);
      var gone := Completed(env.score, view, live, confirmed);
      forall h, p | p in ConfirmedBy(confirmed - gone, h) ensures p != held.to && Vouches(c, p, h) {
        assert p in ConfirmedBy(confirmed, h);
        assert p in ConfirmedBy(k.confirmed, h) || (h in held.hashes && p == held.from);
      }
    }
  }

  lemma SentAreSound(env: Env, c: Cluster, s: Step, m: Message)
    requires Inv(env, c) && Enabled(env, c, s) && Actor(s).Some? && m in Sent(c, s)
    ensures SoundMessage(Next(env, c, s), m)
  {
    if s.SendProbes? {
      var i :| 0 <= i < |s.batches|
          && m == CheckChunks(c.nodes[s.at].keeper.nextRequest + i, s.at, s.batches[i].peer, s.batches[i].hashes);
      SentProbeIsSound(env, c, s, i);
    } else if s.Answer? {
      assert SoundMessage(c, s.check);
      SentAnswerIsSound(env, c, s);
    }
  }

  lemma SentProbeIsSound(env: Env, c: Cluster, s: Step, i: nat)
    requires StoresWellFormed(c) && Enabled(env, c, s) && s.SendProbes? && i < |s.batches|
    requires SoundNode(c.nodes[s.at])
    ensures var id := c.nodes[s.at].keeper.nextRequest + i;
            SoundMessage(Next(env, c, s), CheckChunks(id, s.at, s.batches[i].peer, s.batches[i].hashes))
  {
    hide Retain, Candidates, Asked, Sent;
    var d := Next(env, c, s);
    assert Peers(s.batches)[i] == s.batches[i].peer;
    assert d.nodes[s.at].keeper == Probe(env.score, s.at, s.view, s.live, c.nodes[s.at].keeper, s.batches);
  }

  lemma SentAnswerIsSound(env: Env, c: Cluster, s: Step)
    requires StoresWellFormed(c) && Enabled(env, c, s) && s.Answer? && SoundMessage(c, s.check)
    ensures forall m :: m in Sent(c, s) ==> SoundMessage(Next(env, c, s), m)
  {
    var held := Held(c.nodes[s.check.to].keeper.store, s.check.hashes);
    var d := Next(env, c, s);
    assert forall h :: h in held ==> h in ToSet(held);
    assert d.nodes[s.check.to].vouched == c.nodes[s.check.to].vouched + ToSet(held);
    assert d.nodes[s.check.from].keeper == c.nodes[s.check.from].keeper;
  }

  // ---------------------------------------------------------------- evictions

  /** The step makes `n` drop the pinned chunk `h`, and not because it crashes. */
  ghost predicate Evicts(c: Cluster, s: Step, d: Cluster, n: PeerId, h: ChunkHash) {
    s != Crash(n) && n in c.nodes && n in d.nodes && h in c.nodes[n].keeper.store.pinned
      && h !in d.nodes[n].keeper.store.pinned
  }

  /**
   * But for a crash, a node drops a chunk only on a reply, when it is not itself designated in
   * its current view, and the two peers that are have each reported that they pin the chunk.
   */
  lemma EvictionIsVouchedFor(env: Env, c: Cluster, s: Step, n: PeerId, h: ChunkHash)
    requires Inv(env, c) && Enabled(env, c, s) && Evicts(c, s, Next(env, c, s), n, h)
    ensures s.Deliver? && s.held.to == n && h in s.live
    ensures var holders := Designated(env.score, h, s.view);
            && n !in holders && |holders| == REPLICAS
            && forall p :: p in holders ==> Outranks(env.score, h, p, n) && (Vouches(c, p, h))
    ensures s.held.id in c.nodes[n].keeper.pending
    ensures Designated(env.score, h, s.view) <=
            ConfirmedBy(c.nodes[n].keeper.confirmed, h) + if h in s.held.hashes then {s.held.from} else {}
  {
    if IsStoreStep(s) { StoreStep(env, c, s); }
    assert s.Deliver? && s.held.to == n;
    assert SoundMessage(c, s.held);
    DeliverEvicts(env, c, s.held, s.view, s.live, h);
  }

  lemma DeliverEvicts(env: Env, c: Cluster, held: Message, view: set<PeerId>, live: set<ChunkHash>, h: ChunkHash)
    requires held.HeldChunks? && SoundMessage(c, held) && held.to in c.nodes
             && SoundBook(c, held.to, c.nodes[held.to].keeper)
    requires held.to in view && h in c.nodes[held.to].keeper.store.pinned
    requires h !in OnHeld(env.score, view, live, c.nodes[held.to].keeper, held.id, held.hashes).store.pinned
    ensures held.id in c.nodes[held.to].keeper.pending && h in live
    ensures var holders := Designated(env.score, h, view);
            && held.to !in holders && |holders| == REPLICAS
            && (forall p :: p in holders ==> Outranks(env.score, h, p, held.to) && Vouches(c, p, h))
            && holders <=
                 ConfirmedBy(c.nodes[held.to].keeper.confirmed, h) + if h in held.hashes then {held.from} else {}
  {
    var k := c.nodes[held.to].keeper;
    var confirmed := Confirm(k.confirmed, held.hashes, k.pending[held.id]);
    var holders := Designated(env.score, h, view);
    assert h in Completed(env.score, view, live, confirmed);
    assert holders <= ConfirmedBy(confirmed, h);
    forall p | p in ConfirmedBy(confirmed, h) ensures p != held.to && Vouches(c, p, h) {
      assert p in ConfirmedBy(k.confirmed, h) || (h in held.hashes && p == held.from);
    }
    DesignatedOutrankOthers(env.score, h, view, held.to);
  }

  // ---------------------------------------------------------------- the two top-ranked nodes keep it

  /** Who ever pinned only grows, so who is in the top two for the larger set was for the smaller. */
  lemma TopOfMoreIsTopOfFewer(score: Score, h: ChunkHash, few: set<PeerId>, many: set<PeerId>, p: PeerId)
    requires few <= many && p in few && p in Holders(score, h, many, REPLICAS)
    ensures p in Holders(score, h, few, REPLICAS)
  {
    SubsetCardinality(Above(score, h, few, p), Above(score, h, many, p));
  }

  lemma EvictorIsNotInTopTwo(env: Env, c: Cluster, s: Step, n: PeerId, h: ChunkHash)
    requires Inv(env, c) && Enabled(env, c, s) && Evicts(c, s, Next(env, c, s), n, h)
    ensures n !in Holders(env.score, h, Ever(c, h), REPLICAS)
  {
    EvictionIsVouchedFor(env, c, s, n, h);
    var holders := Designated(env.score, h, s.view);
    forall p | p in holders ensures p in Above(env.score, h, Ever(c, h), n) {
      assert Vouches(c, p, h) && SoundNode(c.nodes[p]);
    }
    SubsetCardinality(holders, Above(env.score, h, Ever(c, h), n));
  }

  lemma StepKeepsTopTwo(env: Env, c: Cluster, s: Step)
    requires Inv(env, c) && Enabled(env, c, s)
    ensures TopTwoPin(env, Next(env, c, s))
  {
    var d := Next(env, c, s);
    StepGrows(env, c, s);
    forall h, n | n in Holders(env.score, h, Ever(d, h), REPLICAS) - Crashed(d) ensures n in PinnedBy(d, h) {
      EverStep(env, c, s, h);
      if n in Ever(c, h) {
        TopOfMoreIsTopOfFewer(env.score, h, Ever(c, h), Ever(d, h), n);
        CrashedOnlyGrows(c, d);
        assert n in PinnedBy(c, h);
        if Evicts(c, s, d, n, h) { EvictorIsNotInTopTwo(env, c, s, n, h); }
      } else {
        NewPinsAreRecorded(env, c, s, n, h);
      }
    }
  }

  lemma CrashedOnlyGrows(c: Cluster, d: Cluster)
    requires Grows(c, d)
    ensures Crashed(c) <= Crashed(d)
  {
    forall n | n in Crashed(c) ensures n in Crashed(d) {
      assert n in d.nodes.Keys && Ages(c.nodes[n], d.nodes[n]);
    }
  }

  lemma NewPinsAreRecorded(env: Env, c: Cluster, s: Step, n: PeerId, h: ChunkHash)
    requires Inv(env, c) && Enabled(env, c, s)
    requires n in c.nodes && h !in c.nodes[n].ever && h in Next(env, c, s).nodes[n].ever
    ensures h in Next(env, c, s).nodes[n].keeper.store.pinned
  {
    if IsStoreStep(s) { StoreStep(env, c, s); }
  }

  /** Every step, with whatever views, keeps the invariant. */
  lemma StepKeepsInv(env: Env, c: Cluster, s: Step)
    requires Inv(env, c) && Enabled(env, c, s)
    ensures Inv(env, Next(env, c, s))
  {
    hide Next, SoundNode, SoundBook, SoundMessage, TopTwoPin;
    StepKeepsTopTwo(env, c, s);
    NodesStaySound(env, c, s);
    NetworkStaysSound(env, c, s);
  }

  lemma NodesStaySound(env: Env, c: Cluster, s: Step)
    requires Inv(env, c) && Enabled(env, c, s)
    ensures var d := Next(env, c, s);
            forall n :: n in d.nodes ==> SoundNode(d.nodes[n]) && SoundBook(d, n, d.nodes[n].keeper)
  {
    hide SoundBook, SoundMessage, TopTwoPin, Grows, NodeNext, Sent, Vouches;
    var d := Next(env, c, s);
    StepGrows(env, c, s);
    if Actor(s).Some? {
      NodeStaysSound(env, c, s);
      ActorKeepsBook(env, c, s);
    }
    forall n | n in d.nodes ensures SoundNode(d.nodes[n]) && SoundBook(d, n, d.nodes[n].keeper) {
      GrowthKeepsBooks(c, d, n, d.nodes[n].keeper);
    }
  }

  lemma NetworkStaysSound(env: Env, c: Cluster, s: Step)
    requires Inv(env, c) && Enabled(env, c, s)
    ensures var d := Next(env, c, s); forall m :: m in d.network ==> SoundMessage(d, m)
  {
    hide SoundBook, SoundMessage, TopTwoPin, Grows, NodeNext, Sent, Vouches;
    var d := Next(env, c, s);
    StepGrows(env, c, s);
    forall m | m in d.network ensures SoundMessage(d, m) {
      if m in c.network { GrowthKeepsMessages(c, d, m); } else { SentAreSound(env, c, s, m); }
    }
  }

  // ---------------------------------------------------------------- whole runs

  ghost predicate IsStep(env: Env, c: Cluster, s: Step, d: Cluster) {
    StoresWellFormed(c) && Enabled(env, c, s) && d == Next(env, c, s)
  }

  ghost predicate IsRun(env: Env, states: seq<Cluster>, steps: seq<Step>) {
    && |states| == |steps| + 1 && Initial(states[0])
    && forall i :: 0 <= i < |steps| ==> IsStep(env, states[i], steps[i], states[i + 1])
  }

  lemma InitialInv(env: Env, c: Cluster)
    requires Initial(c)
    ensures Inv(env, c)
  {
    forall h ensures Ever(c, h) == {} {}
  }

  lemma {:induction false} RunKeepsInv(env: Env, states: seq<Cluster>, steps: seq<Step>, i: nat)
    requires IsRun(env, states, steps) && i < |states|
    ensures Inv(env, states[i])
  {
    hide Inv, Enabled, Next, Initial;
    if i == 0 {
      InitialInv(env, states[0]);
    } else {
      RunKeepsInv(env, states, steps, i - 1);
      assert IsStep(env, states[i - 1], steps[i - 1], states[i - 1 + 1]);
      StepKeepsInv(env, states[i - 1], steps[i - 1]);
    }
  }

  /**
   * However views change, and however messages are delayed, repeated or lost: of all nodes
   * that have ever pinned a chunk, the two ranked highest pin it unless they have crashed.
   * So once `n` nodes have pinned it, min(2, n) nodes pin it for ever, less the crashed ones.
   */
  lemma CopiesSurviveChurn(env: Env, states: seq<Cluster>, steps: seq<Step>, i: nat, h: ChunkHash)
    requires IsRun(env, states, steps) && i < |states|
    ensures Holders(env.score, h, Ever(states[i], h), REPLICAS) - Crashed(states[i]) <= PinnedBy(states[i], h)
    ensures |PinnedBy(states[i], h)| + |Crashed(states[i])| >= Min(REPLICAS, |Ever(states[i], h)|)
  {
    var c := states[i];
    RunKeepsInv(env, states, steps, i);
    DesignatedCount(env.score, h, Ever(c, h));
    SubsetCardinality(Holders(env.score, h, Ever(c, h), REPLICAS), PinnedBy(c, h) + Crashed(c));
    UnionSize(PinnedBy(c, h), Crashed(c));
  }

  lemma UnionSize<T>(a: set<T>, b: set<T>)
    ensures |a + b| <= |a| + |b|
  {
    assert a + b == a + (b - a);
    SubsetCardinality(b - a, b);
  }

  /**
   * A chunk that two nodes have pinned survives the crash of any one node, at any time and
   * for ever after, also if that node comes back.
   */
  lemma OneCrashLosesNothing(env: Env, states: seq<Cluster>, steps: seq<Step>, i: nat, j: nat, h: ChunkHash, n: PeerId)
    requires IsRun(env, states, steps) && i <= j < |states|
    requires |Ever(states[i], h)| >= REPLICAS && Crashed(states[j]) <= {n}
    ensures PinnedBy(states[j], h) != {}
  {
    EverOnlyGrows(env, states, steps, i, j, h);
    CopiesSurviveChurn(env, states, steps, j, h);
    SubsetCardinality(Ever(states[i], h), Ever(states[j], h));
    SubsetCardinality(Crashed(states[j]), {n});
  }

  /** Once two nodes have pinned a chunk, while none has crashed no node is the only one that pins it. */
  lemma NoNodeIsIndispensable(env: Env, states: seq<Cluster>, steps: seq<Step>, i: nat, h: ChunkHash, n: PeerId)
    requires IsRun(env, states, steps) && i < |states| && |Ever(states[i], h)| >= REPLICAS && Crashed(states[i]) == {}
    ensures PinnedBy(states[i], h) - {n} != {}
  {
    CopiesSurviveChurn(env, states, steps, i, h);
    var holders := PinnedBy(states[i], h);
    SubsetCardinality(holders, (holders - {n}) + {n});
    assert |(holders - {n}) + {n}| == |holders - {n}| + 1;
  }

  /** Who has pinned a chunk stays on record, so the bound above never falls. */
  lemma {:induction false} EverOnlyGrows(env: Env, states: seq<Cluster>, steps: seq<Step>, i: nat, j: nat, h: ChunkHash)
    requires IsRun(env, states, steps) && i <= j < |states|
    ensures PinnedBy(states[i], h) <= Ever(states[i], h) <= Ever(states[j], h)
    decreases j
  {
    hide Inv, Next, IsRun;
    RunShape(env, states, steps);
    RunKeepsInv(env, states, steps, i);
    PinnedWasEver(env, states[i], h);
    if i < j {
      EverOnlyGrows(env, states, steps, i, j - 1, h);
      RunEverStep(env, states, steps, j - 1, h);
    }
  }

  lemma RunEverStep(env: Env, states: seq<Cluster>, steps: seq<Step>, i: nat, h: ChunkHash)
    requires IsRun(env, states, steps) && i < |steps|
    ensures Ever(states[i], h) <= Ever(states[i + 1], h)
  {
    hide Inv, Next, Ever;
    RunKeepsInv(env, states, steps, i);
    assert IsStep(env, states[i], steps[i], states[i + 1]);
    EverStep(env, states[i], steps[i], h);
  }

  lemma PinnedWasEver(env: Env, c: Cluster, h: ChunkHash)
    requires Inv(env, c)
    ensures PinnedBy(c, h) <= Ever(c, h)
  {
    assert forall n :: n in c.nodes ==> SoundNode(c.nodes[n]);
  }

  lemma EverStep(env: Env, c: Cluster, s: Step, h: ChunkHash)
    requires Inv(env, c) && Enabled(env, c, s)
    ensures Ever(c, h) <= Ever(Next(env, c, s), h)
  {
    hide Next, Enabled;
    StepGrows(env, c, s);
    var d := Next(env, c, s);
    assert forall m :: m in c.nodes ==> Ages(c.nodes[m], d.nodes[m]);
  }

  /**
   * A chunk pinned somewhere is pinned somewhere ever after, and two copies stay at least
   * two, but for crashes: each crashed node can cost one copy.
   */
  lemma PinnedStaysPinned(env: Env, states: seq<Cluster>, steps: seq<Step>, i: nat, j: nat, h: ChunkHash)
    requires IsRun(env, states, steps) && i <= j < |states|
    ensures |PinnedBy(states[j], h)| + |Crashed(states[j])| >= Min(REPLICAS, |PinnedBy(states[i], h)|)
  {
    EverOnlyGrows(env, states, steps, i, j, h);
    CopiesSurviveChurn(env, states, steps, j, h);
    SubsetCardinality(PinnedBy(states[i], h), Ever(states[j], h));
  }

  /** In step `j` node `p` answers a probe that it pins `h`, which it then does. */
  ghost predicate ReportsIn(states: seq<Cluster>, steps: seq<Step>, j: nat, p: PeerId, h: ChunkHash) {
    && j < |steps| && j < |states| && steps[j].Answer? && steps[j].check.CheckChunks? && steps[j].check.to == p
    && p in states[j].nodes && h in steps[j].check.hashes && h in states[j].nodes[p].keeper.store.pinned
  }

  lemma {:induction false} VouchedWasReported(env: Env, states: seq<Cluster>, steps: seq<Step>, i: nat, p: PeerId,
                                              h: ChunkHash) returns (j: nat)
    requires IsRun(env, states, steps) && i < |states| && Vouches(states[i], p, h)
    ensures j < i && ReportsIn(states, steps, j, p, h)
  {
    hide IsRun, Vouches, ReportsIn;
    RunShape(env, states, steps);
    NobodyVouchesAtFirst(env, states, steps, p, h);
    if Vouches(states[i - 1], p, h) {
      j := VouchedWasReported(env, states, steps, i - 1, p, h);
    } else {
      NewVouchWasReported(env, states, steps, i - 1, p, h);
      j := i - 1;
    }
  }

  lemma RunShape(env: Env, states: seq<Cluster>, steps: seq<Step>)
    requires IsRun(env, states, steps)
    ensures |states| == |steps| + 1
  {
  }

  lemma NobodyVouchesAtFirst(env: Env, states: seq<Cluster>, steps: seq<Step>, p: PeerId, h: ChunkHash)
    requires IsRun(env, states, steps)
    ensures |states| > 0 && !Vouches(states[0], p, h)
  {
  }

  lemma NewVouchWasReported(env: Env, states: seq<Cluster>, steps: seq<Step>, i: nat, p: PeerId, h: ChunkHash)
    requires IsRun(env, states, steps) && i < |steps| && Vouches(states[i + 1], p, h) && !Vouches(states[i], p, h)
    ensures ReportsIn(states, steps, i, p, h)
  {
    RunKeepsInv(env, states, steps, i);
    assert IsStep(env, states[i], steps[i], states[i + 1]);
    hide Inv, Next, Vouches;
    NewVouchIsAReport(env, states[i], steps[i], p, h);
  }

  lemma NewVouchIsAReport(env: Env, c: Cluster, s: Step, p: PeerId, h: ChunkHash)
    requires Inv(env, c) && Enabled(env, c, s) && Vouches(Next(env, c, s), p, h) && !Vouches(c, p, h)
    ensures s.Answer? && s.check.CheckChunks? && s.check.to == p && p in c.nodes
    ensures h in s.check.hashes && h in c.nodes[p].keeper.store.pinned
  {
    if IsStoreStep(s) { StoreStep(env, c, s); }
  }

  /**
   * Over whole runs with changing views: when a node evicts a chunk it is not designated in
   * its own view, and exactly two other nodes are, each of which has answered earlier in the
   * run that it pins the chunk.
   */
  lemma EvictionsRestOnReports(env: Env, states: seq<Cluster>, steps: seq<Step>, i: nat, n: PeerId, h: ChunkHash)
    requires IsRun(env, states, steps) && i < |steps| && Evicts(states[i], steps[i], states[i + 1], n, h)
    ensures steps[i].Deliver? && steps[i].held.to == n
    ensures var holders := Designated(env.score, h, steps[i].view);
            && n !in holders && |holders| == REPLICAS
            && forall p :: p in holders ==> p != n && exists j: nat :: j < i && ReportsIn(states, steps, j, p, h)
  {
    RunKeepsInv(env, states, steps, i);
    assert IsStep(env, states[i], steps[i], states[i + 1]);
    EvictionIsVouchedFor(env, states[i], steps[i], n, h);
    forall p | p in Designated(env.score, h, steps[i].view)
      ensures exists j: nat :: j < i && ReportsIn(states, steps, j, p, h) {
      var _ := VouchedWasReported(env, states, steps, i, p, h);
    }
  }
}
