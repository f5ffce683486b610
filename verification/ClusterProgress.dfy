/** With fixed members a misplaced chunk can be moved: a probe round evicts, a sweep and a fetch pin. */
module Progress {
  import opened Domain
  import opened Rendezvous
  import opened StorageModel
  import opened ReplicationModel
  import opened Clusters
  import opened FixedMembers
  import FetchModel
  import FetchSafety

  /** The steps can be taken one after the other and lead from `c` to `d`. */
  ghost predicate Leads(env: Env, c: Cluster, steps: seq<Step>, d: Cluster)
    decreases |steps|
  {
    if steps == [] then d == c
    else StoresWellFormed(c) && Enabled(env, c, steps[0]) && Leads(env, Next(env, c, steps[0]), steps[1..], d)
  }

  // ---------------------------------------------------------------- a probe round

  function CheckOf(c: Cluster, n: PeerId, batches: seq<Batch>, i: nat): Message
    requires n in c.nodes && i < |batches|
  {
    CheckChunks(c.nodes[n].keeper.nextRequest + i, n, batches[i].peer, batches[i].hashes)
  }

  function HeldOf(c: Cluster, n: PeerId, batches: seq<Batch>, i: nat): Message
    requires n in c.nodes && i < |batches| && batches[i].peer in c.nodes
  {
    HeldChunks(c.nodes[n].keeper.nextRequest + i, batches[i].peer, n,
               Held(c.nodes[batches[i].peer].keeper.store, batches[i].hashes))
  }

  ghost predicate PeersExist(c: Cluster, batches: seq<Batch>) {
    forall b :: b in batches ==> b.peer in c.nodes
  }

  /** From the `i`th probe on, each is answered and its answer arrives; `seen` is reachable then. */
  ghost function Replies(c: Cluster, n: PeerId, seen: set<ChunkHash>, batches: seq<Batch>, i: nat): seq<Step>
    requires n in c.nodes && PeersExist(c, batches) && i <= |batches|
    decreases |batches| - i
  {
    if i == |batches| then []
    else
      [Answer(CheckOf(c, n, batches, i)), Deliver(HeldOf(c, n, batches, i), c.nodes.Keys, seen)]
      + Replies(c, n, seen, batches, i + 1)
  }

  ghost function RoundSteps(c: Cluster, n: PeerId, live: set<ChunkHash>, seen: set<ChunkHash>,
                            batches: seq<Batch>): seq<Step>
    requires n in c.nodes && PeersExist(c, batches)
  {
    [SendProbes(n, c.nodes.Keys, live, batches)] + Replies(c, n, seen, batches, 0)
  }

  predicate AsksAbout(b: Batch, p: PeerId, h: ChunkHash) {
    b.peer == p && h in b.hashes
  }

  /** Somebody asked `p` about `h` in one of the batches from `i` on. */
  ghost predicate StillAsked(batches: seq<Batch>, i: nat, p: PeerId, h: ChunkHash) {
    exists j :: i <= j < |batches| && AsksAbout(batches[j], p, h)
  }

  /** The probes from `i` on are under way, and nobody but `n` has changed what it keeps. */
  ghost predicate UnderWay(c: Cluster, n: PeerId, batches: seq<Batch>, i: nat, e: Cluster) {
    && n in c.nodes && e.nodes.Keys == c.nodes.Keys && n in e.nodes
    && (forall p :: p in c.nodes && p != n ==> e.nodes[p].keeper == c.nodes[p].keeper)
    && forall j: nat :: i <= j < |batches| ==> ProbeUnderWay(c, n, batches, j, e)
  }

  ghost predicate ProbeUnderWay(c: Cluster, n: PeerId, batches: seq<Batch>, j: nat, e: Cluster)
    requires n in c.nodes && n in e.nodes && j < |batches|
  {
    var id, pending := c.nodes[n].keeper.nextRequest + j, e.nodes[n].keeper.pending;
    CheckOf(c, n, batches, j) in e.network && id in pending && pending[id] == batches[j].peer
  }

  /** How far the confirmations of `h` have come after `i` replies. */
  ghost predicate Confirming(home: set<PeerId>, seen: set<ChunkHash>, batches: seq<Batch>, i: nat, k: Keeper,
                             h: ChunkHash)
  {
    && (h !in seen ==> h in k.store.pinned)
    && (i == 0 ==> h in k.store.pinned)
    && (h in k.store.pinned ==> forall p :: p in home ==>
        p in ConfirmedBy(k.confirmed, h) || StillAsked(batches, i, p, h))
    && (i > 0 && h in seen && h in k.store.pinned ==> !(home <= ConfirmedBy(k.confirmed, h)))
  }

  /** Every question of a round is in one of its batches. */
  lemma {:induction false} AskedComesFromBatch(batches: seq<Batch>, q: Question)
    requires q in Asked(batches)
    ensures StillAsked(batches, 0, q.peer, q.hash)
  {
    var n := |batches| - 1;
    var front := Asked(batches[..n]);
    if q in front {
      AskedComesFromBatch(batches[..n], q);
      var j :| 0 <= j < n && AsksAbout(batches[..n][j], q.peer, q.hash);
      assert AsksAbout(batches[j], q.peer, q.hash);
    } else {
      var qs := Questions(batches[n].peer, batches[n].hashes);
      assert q in qs;
      var j :| 0 <= j < |qs| && qs[j] == q;
      assert AsksAbout(batches[n], q.peer, q.hash);
    }
  }

  lemma RoundPeersExist(env: Env, c: Cluster, n: PeerId, live: set<ChunkHash>, batches: seq<Batch>)
    requires n in c.nodes && IsProbeRound(env.score, n, c.nodes.Keys, live, c.nodes[n].keeper, batches)
    ensures PeersExist(c, batches) && forall b :: b in batches ==> b.peer != n
  {
    forall b | b in batches ensures b.peer in c.nodes && b.peer != n {
      var i :| 0 <= i < |batches| && batches[i] == b;
      ProbesGoToHolders(env.score, n, c.nodes.Keys, live, c.nodes[n].keeper, batches, i);
      assert b.hashes[0] in b.hashes;
      assert b.peer in Designated(env.score, b.hashes[0], c.nodes.Keys);
    }
  }

  /** Sending the probes puts them under way and covers every holder that has not confirmed. */
  lemma RoundStarts(env: Env, c: Cluster, n: PeerId, live: set<ChunkHash>, seen: set<ChunkHash>, batches: seq<Batch>,
                    h: ChunkHash)
    requires Inv(env, c) && n in c.nodes
    requires IsProbeRound(env.score, n, c.nodes.Keys, live, c.nodes[n].keeper, batches)
    requires h in Candidates(env.score, n, c.nodes.Keys, live, c.nodes[n].keeper.store)
    ensures var s := SendProbes(n, c.nodes.Keys, live, batches);
            && Enabled(env, c, s) && UnderWay(c, n, batches, 0, Next(env, c, s))
            && Confirming(Home(env, c, h), seen, batches, 0, Next(env, c, s).nodes[n].keeper, h)
  {
    var s := SendProbes(n, c.nodes.Keys, live, batches);
    var e, k := Next(env, c, s), c.nodes[n].keeper;
    ProbesUnderWay(env, c, s);
    var k' := e.nodes[n].keeper;
    assert k' == Probe(env.score, n, c.nodes.Keys, live, k, batches);
    assert ConfirmedBy(k'.confirmed, h) == ConfirmedBy(k.confirmed, h);
    forall p | p in Home(env, c, h) ensures p in ConfirmedBy(k'.confirmed, h) || StillAsked(batches, 0, p, h) {
      if p !in ConfirmedBy(k.confirmed, h) {
        assert Question(p, h) in ToSet(Asked(batches));
        AskedComesFromBatch(batches, Question(p, h));
      }
    }
  }

  lemma ProbesUnderWay(env: Env, c: Cluster, s: Step)
    requires StoresWellFormed(c) && Enabled(env, c, s) && s.SendProbes?
    ensures UnderWay(c, s.at, s.batches, 0, Next(env, c, s))
  {
    hide StoresWellFormed, Sent, NodeNext;
    var e := Next(env, c, s);
    OnlyActorChanges(env, c, s);
    forall j: nat | j < |s.batches| ensures ProbeUnderWay(c, s.at, s.batches, j, e) {
      ProbeIsPending(env, c, s, j);
      ProbeIsSent(env, c, s, j);
    }
  }

  lemma OnlyActorChanges(env: Env, c: Cluster, s: Step)
    requires StoresWellFormed(c) && Enabled(env, c, s) && Actor(s).Some?
    ensures var d := Next(env, c, s);
            && d.nodes.Keys == c.nodes.Keys && c.network <= d.network
            && forall p :: p in c.nodes && Some(p) != Actor(s) ==> d.nodes[p] == c.nodes[p]
  {
    hide NodeNext, Sent;
  }

  lemma ProbeIsPending(env: Env, c: Cluster, s: Step, j: nat)
    requires StoresWellFormed(c) && Enabled(env, c, s) && s.SendProbes? && j < |s.batches|
    ensures var k, k' := c.nodes[s.at].keeper, Next(env, c, s).nodes[s.at].keeper;
            k.nextRequest + j in k'.pending && k'.pending[k.nextRequest + j] == s.batches[j].peer
  {
    hide IsProbeRound, Retain, Candidates, Sent;
    var k := c.nodes[s.at].keeper;
    assert Next(env, c, s).nodes[s.at].keeper == Probe(env.score, s.at, s.view, s.live, k, s.batches);
    assert Peers(s.batches)[j] == s.batches[j].peer;
  }

  lemma ProbeIsSent(env: Env, c: Cluster, s: Step, j: nat)
    requires StoresWellFormed(c) && Enabled(env, c, s) && s.SendProbes? && j < |s.batches|
    ensures CheckOf(c, s.at, s.batches, j) in Next(env, c, s).network
  {
    hide IsProbeRound, NodeNext;
    assert CheckOf(c, s.at, s.batches, j) in Sent(c, s);
  }

  /** The effect of one reply on the node that asked. */
  lemma ReplyConfirms(score: Score, view: set<PeerId>, seen: set<ChunkHash>, k: Keeper, id: RequestId,
                      hashes: seq<ChunkHash>, batches: seq<Batch>, i: nat, h: ChunkHash)
    requires i < |batches| && id in k.pending && k.pending[id] == batches[i].peer
    requires Confirming(Designated(score, h, view), seen, batches, i, k, h)
    requires h in batches[i].hashes ==> h in hashes
    requires view != {}
    ensures Confirming(Designated(score, h, view), seen, batches, i + 1, OnHeld(score, view, seen, k, id, hashes), h)
  {
    var home, confirmed := Designated(score, h, view), Confirm(k.confirmed, hashes, k.pending[id]);
    var gone := Completed(score, view, seen, confirmed);
    DesignatedCount(score, h, view);
    assert ConfirmedBy(confirmed, h) == ConfirmedBy(k.confirmed, h) + if h in hashes then {k.pending[id]} else {};
    if h in k.store.pinned && h !in gone {
      assert ConfirmedBy(confirmed - gone, h) == ConfirmedBy(confirmed, h);
      forall p | p in home ensures p in ConfirmedBy(confirmed, h) || StillAsked(batches, i + 1, p, h) {
        if p !in ConfirmedBy(k.confirmed, h) {
          var j :| i <= j < |batches| && AsksAbout(batches[j], p, h);
          assert j == i ==> p in ConfirmedBy(confirmed, h);
        }
      }
      AllConfirmedIsGone(score, view, seen, confirmed, h);
    }
  }

  lemma AllConfirmedIsGone(score: Score, view: set<PeerId>, seen: set<ChunkHash>, confirmed: Confirmations,
                           h: ChunkHash)
    requires view != {}
    ensures h in seen && Designated(score, h, view) <= ConfirmedBy(confirmed, h) ==>
              h in Completed(score, view, seen, confirmed)
  {
    DesignatedCount(score, h, view);
    if h in seen && Designated(score, h, view) <= ConfirmedBy(confirmed, h) {
      var p :| p in Designated(score, h, view);
      assert p in ConfirmedBy(confirmed, h);
    }
  }

  lemma ProbeIsAnswered(env: Env, c: Cluster, n: PeerId, batches: seq<Batch>, i: nat, e: Cluster)
    requires StoresWellFormed(e) && UnderWay(c, n, batches, i, e) && i < |batches| && PeersExist(c, batches)
    requires batches[i].peer != n
    ensures var s := Answer(CheckOf(c, n, batches, i));
            && Enabled(env, e, s)
            && UnderWay(c, n, batches, i, Next(env, e, s)) && Next(env, e, s).nodes[n] == e.nodes[n]
            && HeldOf(c, n, batches, i) in Next(env, e, s).network
  {
    var s := Answer(CheckOf(c, n, batches, i));
    assert ProbeUnderWay(c, n, batches, i, e);
    assert batches[i] in batches;
    OnlyActorChanges(env, e, s);
    assert NodeNext(env, e, s).keeper == e.nodes[batches[i].peer].keeper;
    assert HeldOf(c, n, batches, i) in Sent(e, s);
    UnderWayStays(c, n, batches, i, e, i, Next(env, e, s));
  }

  lemma UnderWayStays(c: Cluster, n: PeerId, batches: seq<Batch>, i: nat, e: Cluster, i': nat, e': Cluster)
    requires UnderWay(c, n, batches, i, e) && i <= i'
    requires e'.nodes.Keys == e.nodes.Keys && e.network <= e'.network
    requires forall p :: p in e.nodes && p != n ==> e'.nodes[p].keeper == e.nodes[p].keeper
    requires forall id :: id in e.nodes[n].keeper.pending && id >= c.nodes[n].keeper.nextRequest + i' ==>
               id in e'.nodes[n].keeper.pending && e'.nodes[n].keeper.pending[id] == e.nodes[n].keeper.pending[id]
    ensures UnderWay(c, n, batches, i', e')
  {
    assert n in e'.nodes.Keys;
    forall j: nat | i' <= j < |batches| ensures ProbeUnderWay(c, n, batches, j, e') {
      assert ProbeUnderWay(c, n, batches, j, e);
    }
    forall p | p in c.nodes && p != n ensures e'.nodes[p].keeper == c.nodes[p].keeper {
      assert p in e.nodes.Keys;
    }
  }

  lemma ReplyArrives(env: Env, c: Cluster, n: PeerId, seen: set<ChunkHash>, batches: seq<Batch>, i: nat, e: Cluster)
    requires StoresWellFormed(e) && UnderWay(c, n, batches, i, e) && i < |batches| && PeersExist(c, batches)
    requires HeldOf(c, n, batches, i) in e.network
    ensures var s := Deliver(HeldOf(c, n, batches, i), c.nodes.Keys, seen); var held := HeldOf(c, n, batches, i);
            && Enabled(env, e, s) && UnderWay(c, n, batches, i + 1, Next(env, e, s))
            && Next(env, e, s).nodes[n].keeper ==
                 OnHeld(env.score, c.nodes.Keys, seen, e.nodes[n].keeper, held.id, held.hashes)
  {
    var s := Deliver(HeldOf(c, n, batches, i), c.nodes.Keys, seen);
    OnlyActorChanges(env, e, s);
    PendingShrinks(env.score, c.nodes.Keys, seen, e.nodes[n].keeper, s.held.id, s.held.hashes);
    hide OnHeld;
    UnderWayStays(c, n, batches, i, e, i + 1, Next(env, e, s));
  }

  lemma PendingShrinks(score: Score, view: set<PeerId>, live: set<ChunkHash>, k: Keeper, id: RequestId,
                       hashes: seq<ChunkHash>)
    ensures OnHeld(score, view, live, k, id, hashes).pending == k.pending - {id}
  {
    if id !in k.pending { MapRemoveAbsent(k.pending, id); }
  }

  /** What a round needs: a node, a round of probes of its own, and both homes holding the chunk. */
  ghost predicate CanAsk(env: Env, c: Cluster, n: PeerId, live: set<ChunkHash>, batches: seq<Batch>, h: ChunkHash) {
    && Inv(env, c) && n in c.nodes
    && IsProbeRound(env.score, n, c.nodes.Keys, live, c.nodes[n].keeper, batches)
    && h in Candidates(env.score, n, c.nodes.Keys, live, c.nodes[n].keeper.store)
    && forall p :: p in Home(env, c, h) ==> PinnedAt(c, p, h)
  }

  lemma AskedPeersHold(env: Env, c: Cluster, n: PeerId, live: set<ChunkHash>, batches: seq<Batch>, h: ChunkHash, i: nat)
    requires CanAsk(env, c, n, live, batches, h) && i < |batches| && h in batches[i].hashes
    ensures batches[i].peer in c.nodes && h in Held(c.nodes[batches[i].peer].keeper.store, batches[i].hashes)
  {
    ProbesGoToHolders(env.score, n, c.nodes.Keys, live, c.nodes[n].keeper, batches, i);
    assert PinnedAt(c, batches[i].peer, h);
  }

  lemma ReplyStep(env: Env, c: Cluster, n: PeerId, live: set<ChunkHash>, seen: set<ChunkHash>, batches: seq<Batch>,
                  h: ChunkHash, i: nat, e: Cluster)
    returns (e1: Cluster, e2: Cluster)
    requires CanAsk(env, c, n, live, batches, h) && PeersExist(c, batches) && i < |batches|
    requires Inv(env, e) && UnderWay(c, n, batches, i, e)
    requires Confirming(Home(env, c, h), seen, batches, i, e.nodes[n].keeper, h)
    ensures var answer := Answer(CheckOf(c, n, batches, i));
            var deliver := Deliver(HeldOf(c, n, batches, i), c.nodes.Keys, seen);
            && StoresWellFormed(e) && Enabled(env, e, answer) && e1 == Next(env, e, answer)
            && StoresWellFormed(e1) && Enabled(env, e1, deliver) && e2 == Next(env, e1, deliver)
    ensures Inv(env, e2) && UnderWay(c, n, batches, i + 1, e2)
    ensures Confirming(Home(env, c, h), seen, batches, i + 1, e2.nodes[n].keeper, h)
  {
    hide UnderWay, Enabled, Next, Confirming, CanAsk, Home;
    InvGivesStores(env, e);
    ReplyFacts(env, c, n, live, batches, h, i, e);
    ProbeIsAnswered(env, c, n, batches, i, e);
    e1 := Next(env, e, Answer(CheckOf(c, n, batches, i)));
    StepKeepsInv(env, e, Answer(CheckOf(c, n, batches, i)));
    InvGivesStores(env, e1);
    ReplyArrives(env, c, n, seen, batches, i, e1);
    e2 := Next(env, e1, Deliver(HeldOf(c, n, batches, i), c.nodes.Keys, seen));
    StepKeepsInv(env, e1, Deliver(HeldOf(c, n, batches, i), c.nodes.Keys, seen));
    HomeIsDesignated(env, c, h);
    var held := HeldOf(c, n, batches, i);
    ReplyConfirms(env.score, c.nodes.Keys, seen, e.nodes[n].keeper, held.id, held.hashes, batches, i, h);
  }

  lemma InvGivesStores(env: Env, c: Cluster)
    requires Inv(env, c)
    ensures StoresWellFormed(c)
  {
    assert forall n :: n in c.nodes ==> SoundNode(c.nodes[n]);
  }

  lemma HomeIsDesignated(env: Env, c: Cluster, h: ChunkHash)
    ensures Home(env, c, h) == Designated(env.score, h, c.nodes.Keys)
  {
  }

  lemma ReplyFacts(env: Env, c: Cluster, n: PeerId, live: set<ChunkHash>, batches: seq<Batch>, h: ChunkHash, i: nat,
                   e: Cluster)
    requires CanAsk(env, c, n, live, batches, h) && PeersExist(c, batches) && i < |batches|
             && UnderWay(c, n, batches, i, e)
    ensures n in c.nodes && n in e.nodes && batches[i].peer in c.nodes && batches[i].peer != n
    ensures var held := HeldOf(c, n, batches, i);
            && held.id in e.nodes[n].keeper.pending && e.nodes[n].keeper.pending[held.id] == batches[i].peer
            && (h in batches[i].hashes ==> h in held.hashes)
  {
    hide Inv, IsProbeRound, Candidates, Home, PinnedAt, UnderWay;
    RoundPeersExist(env, c, n, live, batches);
    ProbeFacts(c, n, batches, i, e);
    if h in batches[i].hashes { AskedPeersHold(env, c, n, live, batches, h, i); }
  }

  lemma ProbeFacts(c: Cluster, n: PeerId, batches: seq<Batch>, i: nat, e: Cluster)
    requires UnderWay(c, n, batches, i, e) && i < |batches|
    ensures n in c.nodes && n in e.nodes && batches[i] in batches && ProbeUnderWay(c, n, batches, i, e)
  {
  }

  lemma {:induction false} RepliesLead(env: Env, c: Cluster, n: PeerId, live: set<ChunkHash>, seen: set<ChunkHash>,
                                       batches: seq<Batch>, h: ChunkHash, i: nat, e: Cluster) returns (d: Cluster)
    requires CanAsk(env, c, n, live, batches, h) && PeersExist(c, batches) && i <= |batches|
    requires Inv(env, e) && UnderWay(c, n, batches, i, e)
    requires Confirming(Home(env, c, h), seen, batches, i, e.nodes[n].keeper, h)
    ensures n in c.nodes && Leads(env, e, Replies(c, n, seen, batches, i), d)
    ensures Inv(env, d) && d.nodes.Keys == c.nodes.Keys
    ensures Confirming(Home(env, c, h), seen, batches, |batches|, d.nodes[n].keeper, h)
    decreases |batches| - i
  {
    hide Confirming, Home, Inv, Enabled, Next, UnderWay, CanAsk, Replies, Leads;
    NodesAreThere(c, n, batches, i, e);
    RepliesUnfold(c, n, seen, batches, i);
    if i == |batches| {
      d := e;
      LeadsNowhere(env, e);
    } else {
      var e1, e2 := ReplyStep(env, c, n, live, seen, batches, h, i, e);
      d := RepliesLead(env, c, n, live, seen, batches, h, i + 1, e2);
      LeadsTwoMore(env, e, Answer(CheckOf(c, n, batches, i)), e1, Deliver(HeldOf(c, n, batches, i), c.nodes.Keys, seen),
                   e2, Replies(c, n, seen, batches, i + 1), d);
    }
  }

  lemma NodesAreThere(c: Cluster, n: PeerId, batches: seq<Batch>, i: nat, e: Cluster)
    requires UnderWay(c, n, batches, i, e) && PeersExist(c, batches)
    ensures n in c.nodes && e.nodes.Keys == c.nodes.Keys && (i < |batches| ==> batches[i].peer in c.nodes)
  {
    if i < |batches| { assert batches[i] in batches; }
  }

  lemma RepliesUnfold(c: Cluster, n: PeerId, seen: set<ChunkHash>, batches: seq<Batch>, i: nat)
    requires n in c.nodes && PeersExist(c, batches) && i <= |batches|
    ensures i == |batches| ==> Replies(c, n, seen, batches, i) == []
    ensures i < |batches| ==>
              Replies(c, n, seen, batches, i) ==
                [Answer(CheckOf(c, n, batches, i)), Deliver(HeldOf(c, n, batches, i), c.nodes.Keys, seen)]
                + Replies(c, n, seen, batches, i + 1)
  {
  }

  lemma LeadsNowhere(env: Env, c: Cluster)
    ensures Leads(env, c, [], c)
  {
  }

  lemma LeadsOneMore(env: Env, c: Cluster, s: Step, c1: Cluster, rest: seq<Step>, d: Cluster)
    requires StoresWellFormed(c) && Enabled(env, c, s) && c1 == Next(env, c, s) && Leads(env, c1, rest, d)
    ensures Leads(env, c, [s] + rest, d)
  {
    assert ([s] + rest)[1..] == rest;
  }

  lemma LeadsTwoMore(env: Env, c: Cluster, s: Step, c1: Cluster, s1: Step, c2: Cluster, rest: seq<Step>, d: Cluster)
    requires StoresWellFormed(c) && Enabled(env, c, s) && c1 == Next(env, c, s)
    requires StoresWellFormed(c1) && Enabled(env, c1, s1) && c2 == Next(env, c1, s1) && Leads(env, c2, rest, d)
    ensures Leads(env, c, [s, s1] + rest, d)
  {
    hide Leads, Enabled, Next;
    LeadsOneMore(env, c1, s1, c2, rest, d);
    LeadsOneMore(env, c, s, c1, [s1] + rest, d);
    assert [s] + ([s1] + rest) == [s, s1] + rest;
  }

  /**
   * A probe round for a chunk that both its homes pin: probes, answers and replies can all be
   * delivered, and then the node has evicted the chunk exactly if the round had a probe to
   * send and the chunk was reachable when the replies came.
   */
  lemma ProbeRoundEvicts(env: Env, c: Cluster, n: PeerId, live: set<ChunkHash>, seen: set<ChunkHash>,
                         batches: seq<Batch>, h: ChunkHash)
    returns (d: Cluster)
    requires CanAsk(env, c, n, live, batches, h)
    ensures n in c.nodes && PeersExist(c, batches) && Leads(env, c, RoundSteps(c, n, live, seen, batches), d)
    ensures Inv(env, d) && d.nodes.Keys == c.nodes.Keys
    ensures !PinnedAt(d, n, h) <==> batches != [] && h in seen
    ensures PinnedAt(d, n, h) ==> Home(env, c, h) <= ConfirmedBy(d.nodes[n].keeper.confirmed, h)
  {
    RoundPeersExist(env, c, n, live, batches);
    RoundStarts(env, c, n, live, seen, batches, h);
    InvGivesStores(env, c);
    var s := SendProbes(n, c.nodes.Keys, live, batches);
    StepKeepsInv(env, c, s);
    var e := Next(env, c, s);
    d := RepliesLead(env, c, n, live, seen, batches, h, 0, e);
    LeadsOneMore(env, c, s, e, Replies(c, n, seen, batches, 0), d);
    RoundEnds(Home(env, c, h), seen, batches, d.nodes[n].keeper, h);
  }

  lemma RoundEnds(home: set<PeerId>, seen: set<ChunkHash>, batches: seq<Batch>, k: Keeper, h: ChunkHash)
    requires Confirming(home, seen, batches, |batches|, k, h)
    ensures h !in k.store.pinned <==> batches != [] && h in seen
    ensures h in k.store.pinned ==> home <= ConfirmedBy(k.confirmed, h)
  {
    assert forall p :: !StillAsked(batches, |batches|, p, h);
  }

  /**
   * A round asks nothing about a candidate that all its homes have confirmed.  So when the
   * replies of a round come while the chunk is out of reach, the chunk stays pinned, and
   * later rounds do not ask about it: only a reply about another chunk gets it evicted.
   */
  lemma ConfirmedCandidateIsNotAskedAbout(env: Env, n: PeerId, view: set<PeerId>, live: set<ChunkHash>, k: Keeper,
                                          batches: seq<Batch>, h: ChunkHash, i: nat)
    requires IsProbeRound(env.score, n, view, live, k, batches) && i < |batches|
    requires Designated(env.score, h, view) <= ConfirmedBy(k.confirmed, h)
    ensures h !in batches[i].hashes
  {
    var open := Open(env.score, view, Candidates(env.score, n, view, live, k.store), k.confirmed);
    assert forall p :: Question(p, h) !in open;
    assert forall p :: Question(p, h) in Asked(batches) ==> Question(p, h) in ToSet(Asked(batches));
    if h in batches[i].hashes {
      AskedInBatch(batches, i, h);
    }
  }

  /**
   * What that means for a run: replies that come while the chunk is out of reach leave it
   * pinned, and the next round, however the tree has changed again, asks nobody about it.
   */
  lemma MissedEvictionIsNotRetried(env: Env, c: Cluster, n: PeerId, live: set<ChunkHash>, seen: set<ChunkHash>,
                                   batches: seq<Batch>, h: ChunkHash) returns (d: Cluster)
    requires CanAsk(env, c, n, live, batches, h) && h !in seen
    ensures n in c.nodes && PeersExist(c, batches) && Leads(env, c, RoundSteps(c, n, live, seen, batches), d)
    ensures PinnedAt(d, n, h)
    ensures forall live': set<ChunkHash>, next: seq<Batch>, i: nat ::
              IsProbeRound(env.score, n, c.nodes.Keys, live', d.nodes[n].keeper, next) && i < |next| ==>
                  h !in next[i].hashes
  {
    d := ProbeRoundEvicts(env, c, n, live, seen, batches, h);
    forall live': set<ChunkHash>, next: seq<Batch>, i: nat |
      IsProbeRound(env.score, n, c.nodes.Keys, live', d.nodes[n].keeper, next) && i < |next|
      ensures h !in next[i].hashes
    {
      ConfirmedCandidateIsNotAskedAbout(env, n, c.nodes.Keys, live', d.nodes[n].keeper, next, h, i);
    }
  }

  // ---------------------------------------------------------------- a sweep and a fetch

  /** All that is stored could be pinned, with `spare` bytes to go. */
  ghost predicate HasRoom(s: Store, spare: nat) {
    Total(s.pinned) + Total(s.cached) + spare <= s.maxPinned
  }

  /** With room, a sweep never backs off and uses up no room. */
  lemma TakeWithRoom(w: Sweep, d: Duty, h: ChunkHash, spare: nat)
    requires WellFormed(d.store) && HasRoom(d.store, spare)
    ensures var e := Take(w, d, h);
            WellFormed(e.store) && HasRoom(e.store, spare) && e.blockedUntil == d.blockedUntil
  {
    PromoteKeepsWellFormed(d.store, h);
    if h in d.store.cached {
      TotalRemove(d.store.cached, h);
      TotalAdd(d.store.pinned, h, d.store.cached[h]);
    }
  }

  lemma {:induction false} SweptWithRoom(w: Sweep, d: Duty, order: seq<ChunkHash>, limit: nat, spare: nat)
    requires WellFormed(d.store) && HasRoom(d.store, spare)
    ensures var e := Swept(w, d, order, limit);
            WellFormed(e.store) && HasRoom(e.store, spare) && e.blockedUntil == d.blockedUntil
    decreases |order|
  {
    hide Take, Stops, WellFormed, HasRoom;
    if order != [] && !Stops(w, d, order[0], limit) {
      TakeWithRoom(w, d, order[0], spare);
      SweptWithRoom(w, Take(w, d, order[0]), order[1..], limit, spare);
    }
  }

  /** A chunk to pin and not backing off is pinned or asked for by a sweep that has room. */
  lemma SweepTakesUpDuty(w: Sweep, d: Duty, order: seq<ChunkHash>, h: ChunkHash, spare: nat)
    requires WellFormed(d.store) && HasRoom(d.store, spare) && w.full == {}
    requires h in order && IsDuty(w, h) && !IsBlocked(d, h, w.now)
    requires |Rebalanced(w, d, order).commands| < |d.commands| + MAX_FETCHES_PER_REBALANCE
    ensures var e := Rebalanced(w, d, order);
            && WellFormed(e.store) && HasRoom(e.store, spare)
            && (h in e.store.pinned || h in e.commands)
  {
    SweepLeavesNothingUndone(w, d, order);
    SweptWithRoom(w, d, order, |d.commands| + MAX_FETCHES_PER_REBALANCE, spare);
  }

  lemma PinsWithRoom(env: Env, s: Store, data: Bytes)
    requires WellFormed(s) && HasRoom(s, |data|)
    ensures env.sha(data) in PinOrCache(env, s, data).pinned
  {
    var h, added := env.sha(data), Pinnable(env.sha, s, [data]);
    TryPinIsExact(env.sha, s, [data]);
    assert (set d | d in [data] :: env.sha(d)) == {h};
    assert [data][..0] == [] && FirstOf(env.sha, [data]) == map[h := data];
    if h in s.cached { TotalRemove(s.cached, h); }
    assert Total(added) <= Total(s.cached) + |data| by {
      if h in added {
        TotalRemove(added, h);
        assert added - {h} == map[];
      } else {
        assert added == map[];
      }
    }
    assert TryPin(env.sha, s, [data]).Some?;
    assert h in TryPin(env.sha, s, [data]).value.pinned.Keys;
  }

  /** What the fetcher does to the store on good bytes is what the steps of a cluster do. */
  lemma FetcherStores(env: Env, w: FetchModel.World, id: RequestId, data: Bytes, connected: seq<PeerId>, now: nat)
    requires FetchSafety.Inv(env, w) && id in w.requests && env.sha(data) == w.requests[id]
    ensures w.requests[id] in w.sessions
    ensures FetchModel.HandleResponse(env, w, id, data, connected, now).store ==
            if w.sessions[w.requests[id]].pin then PinOrCache(env, w.store, data)
            else CacheChunk(env.sha, w.store, data)
  {
    hide FetchSafety.OneFate, FetchSafety.Outstanding, TryPin, CacheChunk;
    FetchSafety.RecordedSession(w, id);
  }

  lemma FetchPins(env: Env, c: Cluster, n: PeerId, h: ChunkHash, data: Bytes)
    requires StoresWellFormed(c) && n in c.nodes && h in c.nodes[n].wanted
    requires env.sha(data) == h && HasRoom(c.nodes[n].keeper.store, |data|)
    ensures Enabled(env, c, FetchedToPin(n, data)) && PinnedAt(Next(env, c, FetchedToPin(n, data)), n, h)
  {
    var store := c.nodes[n].keeper.store;
    PinsWithRoom(env, store, data);
    assert NodeNext(env, c, FetchedToPin(n, data)).keeper.store == PinOrCache(env, store, data);
    OnlyActorChanges(env, c, FetchedToPin(n, data));
  }

  /**
   * A chunk that a node has to hold gets pinned there: by one sweep that is not cut short, or
   * by that sweep and the arrival of the fetch it asks for, if there is room.
   */
  lemma DutyGetsPinned(env: Env, c: Cluster, s: Step, h: ChunkHash, data: Bytes) returns (steps: seq<Step>, d: Cluster)
    requires Inv(env, c) && Enabled(env, c, s) && SeesAll(c, s) && s.Rebalance?
    requires h in s.order && s.at in Home(env, c, h) && env.sha(data) == h
    requires var store := c.nodes[s.at].keeper.store; var duty := Duty(store, s.blockedUntil, []);
             && HasRoom(store, |data|) && s.w.full == {} && !IsBlocked(duty, h, s.w.now)
             && |Rebalanced(s.w, duty, s.order).commands| < MAX_FETCHES_PER_REBALANCE
    ensures steps == [s] || steps == [s, FetchedToPin(s.at, data)]
    ensures Leads(env, c, steps, d) && PinnedAt(d, s.at, h)
  {
    hide Rebalanced, HasRoom, Home, Leads, Inv;
    InvGivesStores(env, c);
    var duty := Duty(c.nodes[s.at].keeper.store, s.blockedUntil, []);
    DutyIsHome(env, c, s.w, h);
    SweepTakesUpDuty(s.w, duty, s.order, h, |data|);
    var e := Next(env, c, s);
    StepKeepsInv(env, c, s);
    InvGivesStores(env, e);
    assert e.nodes[s.at].keeper.store == Rebalanced(s.w, duty, s.order).store;
    LeadsNowhere(env, e);
    if PinnedAt(e, s.at, h) {
      steps, d := [s], e;
      LeadsOneMore(env, c, s, e, [], e);
      assert [s] + [] == steps;
    } else {
      assert h in ToSet(Rebalanced(s.w, duty, s.order).commands);
      FetchPins(env, e, s.at, h, data);
      steps, d := [s, FetchedToPin(s.at, data)], Next(env, e, FetchedToPin(s.at, data));
      LeadsNowhere(env, d);
      LeadsTwoMore(env, c, s, e, FetchedToPin(s.at, data), d, [], d);
      assert [s, FetchedToPin(s.at, data)] + [] == steps;
    }
  }
}
