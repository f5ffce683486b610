/**
 * How replicas exchange operations: gossip of fresh ones (src/network/handlers/gossip.rs) and
 * the pull of missing ones (src/network/handlers/tree_sync.rs), as a protocol of atomic steps
 * over any number of replicas and a network that delays, reorders, repeats and loses messages.
 */
module AntiEntropy {
  import opened Domain
  import opened Clock
  import opened Tree
  import opened Namespace
  import opened NodeTrees

  datatype Message =
    | Gossip(ops: seq<Op>)
    | Pull(from: PeerId, to: PeerId, knownIds: set<OpId>)
      // `asOf` is the responder's log at the time of the reply; only the proof looks at it.
    | MissingOperations(to: PeerId, ops: seq<Op>, asOf: set<Op>)

  datatype Cluster = Cluster(replicas: map<PeerId, Replica>, network: set<Message>)

  datatype Step =
    | Mutate(at: PeerId, m: Move, now: nat)
    | AskForMissing(at: PeerId, from: PeerId)
    | AnswerPull(pull: Message)
    | Deliver(msg: Message, at: PeerId, nows: seq<nat>)
    | Lose(msg: Message)

  function OpsOf(msg: Message): seq<Op> {
    match msg
    case Gossip(ops) => ops
    case MissingOperations(_, ops, _) => ops
    case Pull(_, _, _) => []
  }

  /** A gossip message reaches anybody, a reply only who asked. */
  predicate Addressee(msg: Message, at: PeerId) {
    match msg
    case Gossip(_) => true
    case MissingOperations(to, _, _) => at == to
    case Pull(_, _, _) => false
  }

  ghost predicate Enabled(c: Cluster, s: Step) {
    match s
    case Mutate(at, m, now) => at in c.replicas && CanStamp(c.replicas[at].clock, now)
    case AskForMissing(at, from) => at in c.replicas && from in c.replicas
    case AnswerPull(pull) => pull in c.network && pull.Pull? && pull.to in c.replicas
    case Deliver(msg, at, nows) =>
      && msg in c.network && at in c.replicas && Addressee(msg, at)
      && |nows| == |OpsOf(msg)| && forall now :: now in nows ==> now < PHYSICAL_RANGE
    case Lose(msg) => true
  }

  /** Messages stay in the network until they are lost, so each may arrive any number of times. */
  function Next(c: Cluster, s: Step): Cluster
    requires Enabled(c, s)
  {
    match s
    case Mutate(at, m, now) =>
      var r := c.replicas[at];
      Cluster(c.replicas[at := Local(r, at, m, now)], c.network + {Gossip([StampedOp(r, at, m, now)])})
    case AskForMissing(at, from) =>
      c.(network := c.network + {Pull(at, from, set op | op in c.replicas[at].log :: IdOf(op))})
    case AnswerPull(pull) =>
      var log := c.replicas[pull.to].log;
      c.(network := c.network + {MissingOperations(pull.from, MissingFrom(log, pull.knownIds), ToSet(log))})
    case Deliver(msg, at, nows) =>
      c.(replicas := c.replicas[at := Remote(c.replicas[at], OpsOf(msg), nows)])
    case Lose(msg) => c.(network := c.network - {msg})
  }

  ghost predicate Initial(c: Cluster) {
    c.network == {} && forall p :: p in c.replicas ==> c.replicas[p] == Replica([], Hlc(0, 0))
  }

  // ---------------------------------------------------------------- the invariant

  /** The operation has been stamped by a member and is in the log of the member that did. */
  predicate Issued(c: Cluster, op: Op) {
    op.actor in c.replicas && op in c.replicas[op.actor].log
  }

  /** What a message may say; logs only grow, so once true it stays true. */
  ghost predicate Truthful(c: Cluster, msg: Message) {
    && (forall op :: op in OpsOf(msg) ==> Issued(c, op) && op.counter <= U64_MAX)
    && (msg.Pull? ==> msg.from in c.replicas && msg.knownIds <= Ids(c.replicas[msg.from].log))
    && (msg.MissingOperations? ==>
          && msg.to in c.replicas
          && forall op :: op in msg.asOf ==>
               Issued(c, op) && (op in msg.ops || IdOf(op) in Ids(c.replicas[msg.to].log)))
  }

  ghost predicate Inv(c: Cluster) {
    && (forall p :: p in c.replicas ==> Healthy(c.replicas[p]))
    && (forall p, op :: p in c.replicas && op in c.replicas[p].log ==> Issued(c, op) && op.counter <= U64_MAX)
    && (forall msg :: msg in c.network ==> Truthful(c, msg))
  }

  /** The members stay, and each log only grows. */
  ghost predicate Grows(c: Cluster, d: Cluster) {
    d.replicas.Keys == c.replicas.Keys &&
    forall p :: p in c.replicas ==> ToSet(c.replicas[p].log) <= ToSet(d.replicas[p].log)
  }

  lemma GrowthKeepsFacts(c: Cluster, d: Cluster)
    requires Grows(c, d)
    ensures forall op :: Issued(c, op) ==> Issued(d, op)
    ensures forall msg :: Truthful(c, msg) ==> Truthful(d, msg)
  {
    forall op | Issued(c, op) ensures Issued(d, op) {
      assert op in ToSet(c.replicas[op.actor].log);
    }
    forall p | p in c.replicas ensures Ids(c.replicas[p].log) <= Ids(d.replicas[p].log) {
      forall id | id in Ids(c.replicas[p].log) ensures id in Ids(d.replicas[p].log) {
        var op :| op in c.replicas[p].log && IdOf(op) == id;
        assert op in ToSet(c.replicas[p].log);
      }
    }
  }

  /** Two issued operations with one id are one operation: an actor's log holds an id once. */
  lemma IdsAreUnique(c: Cluster, a: Op, b: Op)
    requires Inv(c) && Issued(c, a) && Issued(c, b) && IdOf(a) == IdOf(b)
    ensures a == b
  {
    var log := c.replicas[a.actor].log;
    var i :| 0 <= i < |log| && log[i] == a;
    var j :| 0 <= j < |log| && log[j] == b;
    StampTotal(a, b);
    StampTotal(b, a);
  }

  lemma NextGrows(c: Cluster, s: Step)
    requires Inv(c) && Enabled(c, s)
    ensures Grows(c, Next(c, s))
  {
    match s
    case Mutate(at, m, now) => LocalTakesEffect(c.replicas[at], at, m, now);
    case Deliver(msg, at, nows) => RemoteKeepsHealthy(c.replicas[at], OpsOf(msg), nows);
    case _ =>
  }

  lemma MutateKeepsInv(c: Cluster, s: Step)
    requires Inv(c) && Enabled(c, s) && s.Mutate?
    ensures Inv(Next(c, s))
  {
    var d, r, op := Next(c, s), c.replicas[s.at], StampedOp(c.replicas[s.at], s.at, s.m, s.now);
    LocalTakesEffect(r, s.at, s.m, s.now);
    NextGrows(c, s);
    GrowthKeepsFacts(c, d);
    assert d.replicas[s.at].log == r.log + [op];
    assert Issued(d, op) by { assert op in r.log + [op]; }
    forall p, o | p in d.replicas && o in d.replicas[p].log ensures Issued(d, o) && o.counter <= U64_MAX {
      assert p != s.at || o == op || o in r.log;
    }
    assert Truthful(d, Gossip([op]));
  }

  lemma AskKeepsInv(c: Cluster, s: Step)
    requires Inv(c) && Enabled(c, s) && s.AskForMissing?
    ensures Inv(Next(c, s))
  {
    var d := Next(c, s);
    forall msg | msg in d.network ensures Truthful(d, msg) {
      assert msg in c.network ==> Truthful(c, msg);
    }
  }

  lemma AnswerKeepsInv(c: Cluster, s: Step)
    requires Inv(c) && Enabled(c, s) && s.AnswerPull?
    ensures Inv(Next(c, s))
  {
    var d, pull := Next(c, s), s.pull;
    var log := c.replicas[pull.to].log;
    assert Truthful(c, pull);
    MissingFromMeaning(log, pull.knownIds);
    var reply := MissingOperations(pull.from, MissingFrom(log, pull.knownIds), ToSet(log));
    forall op | op in reply.asOf
      ensures Issued(d, op) && (op in reply.ops || IdOf(op) in Ids(d.replicas[reply.to].log))
    {
      assert op in log;
    }
    assert Truthful(d, reply);
    forall msg | msg in d.network ensures Truthful(d, msg) {
      assert msg in c.network ==> Truthful(c, msg);
    }
  }

  lemma DeliverKeepsInv(c: Cluster, s: Step)
    requires Inv(c) && Enabled(c, s) && s.Deliver?
    ensures Inv(Next(c, s))
  {
    var d, r, ops := Next(c, s), c.replicas[s.at], OpsOf(s.msg);
    assert Truthful(c, s.msg);
    RemoteKeepsHealthy(r, ops, s.nows);
    NextGrows(c, s);
    GrowthKeepsFacts(c, d);
    forall p, o | p in d.replicas && o in d.replicas[p].log ensures Issued(d, o) && o.counter <= U64_MAX {
      if p == s.at {
        assert o in ToSet(d.replicas[p].log);
        assert o in ToSet(r.log) || o in ToSet(ops);
      }
    }
  }

  lemma StepKeepsInv(c: Cluster, s: Step)
    requires Inv(c) && Enabled(c, s)
    ensures Inv(Next(c, s)) && Grows(c, Next(c, s))
  {
    NextGrows(c, s);
    match s
    case Mutate(_, _, _) => MutateKeepsInv(c, s);
    case AskForMissing(_, _) => AskKeepsInv(c, s);
    case AnswerPull(_) => AnswerKeepsInv(c, s);
    case Deliver(_, _, _) => DeliverKeepsInv(c, s);
    case Lose(_) =>
  }

  // ---------------------------------------------------------------- whole runs

  ghost predicate IsStep(c: Cluster, s: Step, d: Cluster) {
    Enabled(c, s) && d == Next(c, s)
  }

  ghost predicate IsRun(states: seq<Cluster>, steps: seq<Step>) {
    && |states| == |steps| + 1 && Initial(states[0])
    && forall i :: 0 <= i < |steps| ==> IsStep(states[i], steps[i], states[i + 1])
  }

  lemma {:induction false} RunKeepsInv(states: seq<Cluster>, steps: seq<Step>, i: nat)
    requires IsRun(states, steps) && i < |states|
    ensures Inv(states[i])
  {
    if i > 0 {
      RunKeepsInv(states, steps, i - 1);
      assert IsStep(states[i - 1], steps[i - 1], states[i - 1 + 1]);
      StepKeepsInv(states[i - 1], steps[i - 1]);
    }
  }

  lemma {:induction false} LogsOnlyGrow(states: seq<Cluster>, steps: seq<Step>, i: nat, j: nat)
    requires IsRun(states, steps) && i <= j < |states|
    ensures Grows(states[i], states[j])
    decreases j
  {
    if i < j {
      LogsOnlyGrow(states, steps, i, j - 1);
      RunKeepsInv(states, steps, j - 1);
      assert IsStep(states[j - 1], steps[j - 1], states[j - 1 + 1]);
      StepKeepsInv(states[j - 1], steps[j - 1]);
    }
  }

  /** In every run, over all logs and all messages, an id stands for one operation. */
  lemma IdsAreUniqueClusterWide(states: seq<Cluster>, steps: seq<Step>, i: nat, p: PeerId, q: PeerId, a: Op, b: Op)
    requires IsRun(states, steps) && i < |states|
    requires p in states[i].replicas && a in states[i].replicas[p].log
    requires (q in states[i].replicas && b in states[i].replicas[q].log) ||
             (exists msg :: msg in states[i].network && b in OpsOf(msg))
    requires IdOf(a) == IdOf(b)
    ensures a == b
  {
    RunKeepsInv(states, steps, i);
    IdsAreUnique(states[i], a, b);
  }

  /**
   * Whenever a reply is delivered, the requester's log afterwards contains the whole log the
   * responder had when it replied, however stale the ids it was computed from have become.
   */
  lemma PullIsComplete(states: seq<Cluster>, steps: seq<Step>, asked: nat, replied: nat, arrived: nat, nows: seq<nat>)
    requires IsRun(states, steps) && asked < replied < arrived < |steps|
    requires steps[asked].AskForMissing?
    requires var q, r := steps[asked].at, steps[asked].from;
             && q in states[asked].replicas
             && steps[replied] == AnswerPull(Pull(q, r, set op | op in states[asked].replicas[q].log :: IdOf(op)))
             && r in states[replied].replicas
             && var log := states[replied].replicas[r].log;
                steps[arrived] ==
                  Deliver(MissingOperations(q, MissingFrom(log, steps[replied].pull.knownIds), ToSet(log)), q, nows)
    ensures var q, r := steps[asked].at, steps[asked].from;
            q in states[arrived + 1].replicas
            && ToSet(states[replied].replicas[r].log) <= ToSet(states[arrived + 1].replicas[q].log)
  {
    var msg, q := steps[arrived].msg, steps[asked].at;
    var c, d := states[arrived], states[arrived + 1];
    RunKeepsInv(states, steps, arrived);
    RunKeepsInv(states, steps, arrived + 1);
    assert IsStep(c, steps[arrived], d);
    StepKeepsInv(c, steps[arrived]);
    DeliveredReplyCompletes(c, msg, nows);
  }

  lemma DeliveredReplyCompletes(c: Cluster, msg: Message, nows: seq<nat>)
    requires Inv(c) && msg.MissingOperations? && Enabled(c, Deliver(msg, msg.to, nows))
    ensures msg.asOf <= ToSet(Next(c, Deliver(msg, msg.to, nows)).replicas[msg.to].log)
  {
    var d := Next(c, Deliver(msg, msg.to, nows));
    assert Truthful(c, msg);
    StepKeepsInv(c, Deliver(msg, msg.to, nows));
    RemoteKeepsHealthy(c.replicas[msg.to], msg.ops, nows);
    GrowthKeepsFacts(c, d);
    var log := d.replicas[msg.to].log;
    forall op | op in msg.asOf ensures op in log {
      assert op in msg.ops ==> IdOf(op) in Ids(msg.ops);
      assert IdOf(op) in Ids(log);
      var o :| o in log && IdOf(o) == IdOf(op);
      IdsAreUnique(d, o, op);
    }
  }

  /** Replicas with equal id sets have equal trees, whatever happened on the way. */
  lemma EqualIdsEqualTrees(states: seq<Cluster>, steps: seq<Step>, i: nat, p: PeerId, q: PeerId)
    requires IsRun(states, steps) && i < |states|
    requires p in states[i].replicas && q in states[i].replicas
    requires Ids(states[i].replicas[p].log) == Ids(states[i].replicas[q].log)
    ensures states[i].replicas[p].log == states[i].replicas[q].log
    ensures Replay(states[i].replicas[p].log) == Replay(states[i].replicas[q].log)
  {
    var c := states[i];
    RunKeepsInv(states, steps, i);
    var a, b := c.replicas[p].log, c.replicas[q].log;
    forall x, y | x in ToSet(a) + ToSet(b) && y in ToSet(a) + ToSet(b) && IdOf(x) == IdOf(y)
      ensures x == y
    {
      IdsAreUnique(c, x, y);
    }
    SameIdsSameTree(a, b);
  }

  // ---------------------------------------------------------------- quiescence

  ghost predicate NoMutations(steps: seq<Step>, i: nat, j: nat) {
    j <= |steps| && forall k :: i <= k < j ==> !steps[k].Mutate?
  }

  /** `q` asks `p`, `p` answers, and the answer arrives, all from step `i` on and before step `j`. */
  ghost predicate CompletesPull(states: seq<Cluster>, steps: seq<Step>, q: PeerId, p: PeerId, i: nat, j: nat) {
    exists asked: nat, replied: nat, arrived: nat, nows: seq<nat> ::
      i <= asked < replied < arrived < j && IsPull(states, steps, q, p, asked, replied, arrived, nows)
  }

  ghost predicate IsPull(states: seq<Cluster>, steps: seq<Step>, q: PeerId, p: PeerId,
                         asked: nat, replied: nat, arrived: nat, nows: seq<nat>) {
    && asked < replied < arrived < |steps| && |states| == |steps| + 1
    && steps[asked] == AskForMissing(q, p) && q in states[asked].replicas && p in states[replied].replicas
    && steps[replied] == AnswerPull(Pull(q, p, set op | op in states[asked].replicas[q].log :: IdOf(op)))
    && var log := states[replied].replicas[p].log;
       steps[arrived] ==
         Deliver(MissingOperations(q, MissingFrom(log, steps[replied].pull.knownIds), ToSet(log)), q, nows)
  }

  lemma StepIssuesOnlyMutations(c: Cluster, s: Step, op: Op)
    requires Inv(c) && Enabled(c, s) && !s.Mutate? && Issued(Next(c, s), op)
    ensures Issued(c, op)
  {
    if s.Deliver? {
      var r := c.replicas[s.at];
      assert Truthful(c, s.msg);
      RemoteKeepsHealthy(r, OpsOf(s.msg), s.nows);
      assert op.actor == s.at ==> op in ToSet(Remote(r, OpsOf(s.msg), s.nows).log);
    }
  }

  lemma {:induction false} NoNewOperations(states: seq<Cluster>, steps: seq<Step>, i: nat, j: nat, op: Op)
    requires IsRun(states, steps) && i <= j < |states| && NoMutations(steps, i, j) && Issued(states[j], op)
    ensures Issued(states[i], op)
    decreases j
  {
    hide Inv, Next, Issued;
    if i < j {
      RunKeepsInv(states, steps, j - 1);
      assert IsStep(states[j - 1], steps[j - 1], states[j - 1 + 1]) && !steps[j - 1].Mutate?;
      StepIssuesOnlyMutations(states[j - 1], steps[j - 1], op);
      NoNewOperations(states, steps, i, j - 1, op);
    }
  }

  /** After its pull from `p`, `q` has all that `p` had at the start. */
  lemma PullBringsOldLog(states: seq<Cluster>, steps: seq<Step>, q: PeerId, p: PeerId, i: nat, j: nat)
    requires IsRun(states, steps) && i <= j < |states| && p in states[i].replicas && q in states[j].replicas
    requires CompletesPull(states, steps, q, p, i, j)
    ensures ToSet(states[i].replicas[p].log) <= ToSet(states[j].replicas[q].log)
  {
    var asked: nat, replied: nat, arrived: nat, nows: seq<nat> :|
      i <= asked < replied < arrived < j && IsPull(states, steps, q, p, asked, replied, arrived, nows);
    PullIsComplete(states, steps, asked, replied, arrived, nows);
    LogsOnlyGrow(states, steps, i, replied);
    LogsOnlyGrow(states, steps, arrived + 1, j);
  }

  /**
   * When nobody mutates any more and every replica has pulled from every other one since,
   * all replicas have the same log and the same tree.
   */
  lemma QuiescenceConverges(states: seq<Cluster>, steps: seq<Step>, i: nat, j: nat, a: PeerId, b: PeerId)
    requires IsRun(states, steps) && i <= j < |states| && NoMutations(steps, i, j)
    requires forall p, q :: p in states[i].replicas && q in states[i].replicas && p != q ==>
               CompletesPull(states, steps, q, p, i, j)
    requires a in states[i].replicas && b in states[i].replicas
    ensures a in states[j].replicas && b in states[j].replicas
    ensures states[j].replicas[a].log == states[j].replicas[b].log
    ensures Replay(states[j].replicas[a].log) == Replay(states[j].replicas[b].log)
  {
    LogsOnlyGrow(states, steps, i, j);
    EveryoneHasAll(states, steps, i, j, a);
    EveryoneHasAll(states, steps, i, j, b);
    SameOpsSameIds(states[j].replicas[a].log, states[j].replicas[b].log);
    EqualIdsEqualTrees(states, steps, j, a, b);
  }

  lemma SameOpsSameIds(a: seq<Op>, b: seq<Op>)
    requires forall op :: op in a <==> op in b
    ensures Ids(a) == Ids(b)
  {
  }

  /** Then a log holds exactly the operations that had been issued when mutations ended. */
  lemma EveryoneHasAll(states: seq<Cluster>, steps: seq<Step>, i: nat, j: nat, q: PeerId)
    requires IsRun(states, steps) && i <= j < |states| && NoMutations(steps, i, j)
    requires forall p :: p in states[i].replicas && p != q ==> CompletesPull(states, steps, q, p, i, j)
    requires q in states[i].replicas
    ensures q in states[j].replicas && forall op :: op in states[j].replicas[q].log <==> Issued(states[i], op)
  {
    LogsOnlyGrow(states, steps, i, j);
    RunKeepsInv(states, steps, j);
    var log := states[j].replicas[q].log;
    forall op | op in log ensures Issued(states[i], op) {
      NoNewOperations(states, steps, i, j, op);
    }
    forall op | Issued(states[i], op) ensures op in log {
      if op.actor != q { PullBringsOldLog(states, steps, q, op.actor, i, j); }
      assert op in ToSet(states[i].replicas[op.actor].log);
      assert op in ToSet(log);
    }
  }

  // ---------------------------------------------------------------- names without coordination

  /** No step of the run is a rename. */
  ghost predicate RenameFree(id: NameToId, states: seq<Cluster>, steps: seq<Step>) {
    forall i :: 0 <= i < |steps| && i < |states| ==> IsRenameFreeStep(id, states[i], steps[i])
  }

  ghost predicate IsRenameFreeStep(id: NameToId, c: Cluster, s: Step) {
    s.Mutate? && s.at in c.replicas ==>
      var t := Replay(c.replicas[s.at].log);
      CreateMove(id, t, s.m) || RewriteMove(t, s.m) || DeleteMove(t, s.m)
  }

  ghost predicate AllNamed(id: NameToId, c: Cluster) {
    forall p, op :: p in c.replicas && op in c.replicas[p].log ==> NamedOp(id, op)
  }

  lemma {:induction false} RenameFreeRunsIssueNamedOps(id: NameToId, states: seq<Cluster>, steps: seq<Step>, i: nat)
    requires IsRun(states, steps) && RenameFree(id, states, steps) && i < |states|
    ensures AllNamed(id, states[i])
  {
    if i > 0 {
      RenameFreeRunsIssueNamedOps(id, states, steps, i - 1);
      RunKeepsInv(states, steps, i - 1);
      RunKeepsInv(states, steps, i);
      var c, s, d := states[i - 1], steps[i - 1], states[i - 1 + 1];
      assert IsStep(c, s, d) && IsRenameFreeStep(id, c, s);
      if s.Mutate? {
        NamedOpsGiveNamedTree(id, c.replicas[s.at].log);
        MutationsStampNamedOps(id, Replay(c.replicas[s.at].log), s.m, Pack(Advanced(c.replicas[s.at].clock, s.now)),
                               s.at);
        LocalTakesEffect(c.replicas[s.at], s.at, s.m, s.now);
      } else if s.Deliver? {
        assert Truthful(c, s.msg);
        RemoteKeepsHealthy(c.replicas[s.at], OpsOf(s.msg), s.nows);
        forall op | op in d.replicas[s.at].log ensures NamedOp(id, op) {
          assert op in ToSet(d.replicas[s.at].log);
          assert op in ToSet(c.replicas[s.at].log) || op in ToSet(OpsOf(s.msg));
        }
      }
    }
  }

  /**
   * In a run without renames, on every replica and in whatever order operations arrived, a
   * node outside the trash is where its id says, so no two siblings share a name.
   */
  lemma NamesNeedNoCoordination(id: NameToId, states: seq<Cluster>, steps: seq<Step>, i: nat, p: PeerId)
    requires IsRun(states, steps) && RenameFree(id, states, steps) && i < |states| && p in states[i].replicas
    ensures NamedTree(id, Replay(states[i].replicas[p].log)) && UniqueNames(Replay(states[i].replicas[p].log))
  {
    RenameFreeRunsIssueNamedOps(id, states, steps, i);
    NamedOpsGiveNamedTree(id, states[i].replicas[p].log);
    NamedTreeHasUniqueNames(id, Replay(states[i].replicas[p].log));
  }
}
