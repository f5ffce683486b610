/** The stamped, replicated tree of one node (src/filesystem/tree/mod.rs). */
module NodeTrees {
  import opened Domain
  import opened Clock
  import opened Tree
  import opened Namespace

  /** The state of a replica's tree: its log and its clock. */
  datatype Replica = Replica(log: seq<Op>, clock: Hlc)

  /** The operation a local mutation stamps at system time `now`. */
  function StampedOp(r: Replica, self: PeerId, m: Move, now: nat): Op {
    Op(Pack(Advanced(r.clock, now)), self, m.parent, m.meta, m.child)
  }

  function Local(r: Replica, self: PeerId, m: Move, now: nat): Replica {
    Replica(Insert(r.log, StampedOp(r, self, m, now)), Advanced(r.clock, now))
  }

  /** `apply_operations`: every stamp is observed, each at its own system time. */
  function ObserveAll(c: Hlc, ops: seq<Op>, nows: seq<nat>): Hlc
    requires |nows| == |ops|
    decreases |ops|
  {
    if ops == [] then c else ObserveAll(Observed(c, ops[0].counter, nows[0]), ops[1..], nows[1..])
  }

  function Remote(r: Replica, ops: seq<Op>, nows: seq<nat>): Replica
    requires |nows| == |ops|
  {
    Replica(InsertAll(r.log, ops), ObserveAll(r.clock, ops, nows))
  }

  /** The clock is in range and no stamp in the log is ahead of it. */
  ghost predicate Dominates(c: Hlc, ops: set<Op>) {
    forall op :: op in ops ==> op.counter <= Pack(c)
  }

  ghost predicate Healthy(r: Replica) {
    Sorted(r.log) && InRange(r.clock) && Dominates(r.clock, ToSet(r.log))
  }

  /** The guard of a local mutation: the next stamp fits into 48 and 16 bits. */
  predicate CanStamp(c: Hlc, now: nat) { InRange(Advanced(c, now)) }

  /** Under the guard the new operation is the latest, so it is applied to the current tree. */
  lemma LocalTakesEffect(r: Replica, self: PeerId, m: Move, now: nat)
    requires Healthy(r) && CanStamp(r.clock, now)
    ensures Healthy(Local(r, self, m, now))
    ensures Local(r, self, m, now).log == r.log + [StampedOp(r, self, m, now)]
    ensures StampedOp(r, self, m, now) !in r.log
    ensures Replay(Local(r, self, m, now).log) == Moved(Replay(r.log), m, Pack(Advanced(r.clock, now)), self)
  {
    var op := StampedOp(r, self, m, now);
    PackPreservesOrder(r.clock, Advanced(r.clock, now));
    forall o | o in r.log ensures StampLess(o, op) { assert o in ToSet(r.log); }
    InsertLatest(r.log, op);
    InsertMeaning(r.log, op);
  }

  lemma ObservedDominates(c: Hlc, remote: nat, now: nat)
    requires InRange(c) && remote <= U64_MAX && now < PHYSICAL_RANGE
    ensures InRange(Observed(c, remote, now))
    ensures remote <= Pack(Observed(c, remote, now)) && Pack(c) <= Pack(Observed(c, remote, now))
  {
    UnpackPack(remote);
    PackPreservesOrder(Unpack(remote), Observed(c, remote, now));
    PackPreservesOrder(c, Observed(c, remote, now));
  }

  /** Observing a batch never puts the clock further ahead than it has to be. */
  lemma {:induction false} ObserveAllIsLeast(c: Hlc, ops: seq<Op>, nows: seq<nat>, x: Hlc)
    requires |nows| == |ops| && NotAfter(c, x)
    requires forall i :: 0 <= i < |ops| ==> NotAfter(Unpack(ops[i].counter), x) && NotAfter(Hlc(nows[i], 0), x)
    ensures NotAfter(ObserveAll(c, ops, nows), x)
    decreases |ops|
  {
    if ops != [] {
      ObservedIsLeast(c, ops[0].counter, nows[0], x);
      forall i | 0 <= i < |ops| - 1
        ensures NotAfter(Unpack(ops[1..][i].counter), x) && NotAfter(Hlc(nows[1..][i], 0), x)
      {
        assert ops[1..][i] == ops[i + 1] && nows[1..][i] == nows[i + 1];
      }
      ObserveAllIsLeast(Observed(c, ops[0].counter, nows[0]), ops[1..], nows[1..], x);
    }
  }

  lemma {:induction false} ObserveAllDominates(c: Hlc, ops: seq<Op>, nows: seq<nat>)
    requires InRange(c) && |nows| == |ops|
    requires forall op :: op in ops ==> op.counter <= U64_MAX
    requires forall now :: now in nows ==> now < PHYSICAL_RANGE
    ensures InRange(ObserveAll(c, ops, nows)) && Pack(c) <= Pack(ObserveAll(c, ops, nows))
    ensures Dominates(ObserveAll(c, ops, nows), ToSet(ops))
    decreases |ops|
  {
    if ops != [] {
      assert ops[0] in ops && nows[0] in nows;
      ObservedDominates(c, ops[0].counter, nows[0]);
      assert forall now :: now in nows[1..] ==> now in nows;
      ObserveAllDominates(Observed(c, ops[0].counter, nows[0]), ops[1..], nows[1..]);
      assert ToSet(ops) == {ops[0]} + ToSet(ops[1..]);
    }
  }

  lemma RemoteKeepsHealthy(r: Replica, ops: seq<Op>, nows: seq<nat>)
    requires Healthy(r) && |nows| == |ops|
    requires forall op :: op in ops ==> op.counter <= U64_MAX
    requires forall now :: now in nows ==> now < PHYSICAL_RANGE
    ensures Healthy(Remote(r, ops, nows))
    ensures ToSet(r.log) <= ToSet(Remote(r, ops, nows).log) <= ToSet(r.log) + ToSet(ops)
    ensures Ids(Remote(r, ops, nows).log) == Ids(r.log) + Ids(ops)
  {
    ObserveAllDominates(r.clock, ops, nows);
    InsertAllMeaning(r.log, ops);
    var after := Remote(r, ops, nows);
    forall op | op in after.log ensures op.counter <= Pack(after.clock) {
      assert op in ToSet(after.log);
      assert op in ToSet(r.log) || op in ToSet(ops);
    }
  }

  class NodeTree {
    const peerId: PeerId
    const clock: HybridLogicalClock
    var log: seq<Op>
    var tree: Forest

    ghost predicate Valid()
      reads this
    {
      Sorted(log) && tree == Replay(log)
    }

    function View(): Replica
      reads this, clock
    {
      Replica(log, clock.Value())
    }

    constructor (peerId: PeerId)
      ensures Valid() && fresh(clock) && View() == Replica([], Hlc(0, 0)) && this.peerId == peerId
    {
      this.peerId := peerId;
      clock := new HybridLogicalClock();
      log, tree := [], map[];
    }

    /** The library's `apply_op`, by contract. */
    method ApplyOp(op: Op)
      requires Valid()
      modifies this
      ensures Valid() && log == Insert(old(log), op)
    {
      InsertMeaning(log, op);
      log := Insert(log, op);
      tree := Replay(log);
    }

    method MoveOperation(m: Move, now: nat) returns (op: Op)
      modifies clock
      ensures op == StampedOp(old(View()), peerId, m, now)
      ensures clock.Value() == Advanced(old(clock.Value()), now)
    {
      var stamp := clock.Next(now);
      op := Op(stamp, peerId, m.parent, m.meta, m.child);
    }

    /** `create_node` applies whatever it is given; the callers have checked the name. */
    method CreateNode(m: Move, now: nat) returns (op: Op)
      requires Valid()
      modifies this, clock
      ensures Valid() && op == StampedOp(old(View()), peerId, m, now)
      ensures View() == Local(old(View()), peerId, m, now)
    {
      op := MoveOperation(m, now);
      ApplyOp(op);
    }

    method MoveNode(m: Move, now: nat) returns (op: Option<Op>)
      requires Valid()
      modifies this, clock
      ensures Valid() && (op.None? <==> m.child !in old(tree))
      ensures op.Some? ==> op.value == StampedOp(old(View()), peerId, m, now)
      ensures View() == if op.Some? then Local(old(View()), peerId, m, now) else old(View())
    {
      if m.child !in tree {
        return None;
      }
      var moved := MoveOperation(m, now);
      ApplyOp(moved);
      return Some(moved);
    }

    method ApplyOperations(ops: seq<Op>, nows: seq<nat>)
      requires Valid() && |nows| == |ops|
      modifies this, clock
      ensures Valid() && View() == Remote(old(View()), ops, nows)
    {
      ghost var start := clock.Value();
      for i := 0 to |ops|
        invariant ObserveAll(clock.Value(), ops[i..], nows[i..]) == ObserveAll(start, ops, nows)
        invariant log == old(log) && Valid()
      {
        assert ops[i..][1..] == ops[i + 1..] && nows[i..][1..] == nows[i + 1..];
        clock.Observe(ops[i].counter, nows[i]);
      }
      assert ops[|ops|..] == [] && nows[|ops|..] == [];
      ghost var before := log;
      for i := 0 to |ops|
        invariant Valid() && InsertAll(log, ops[i..]) == InsertAll(before, ops)
        invariant clock.Value() == ObserveAll(start, ops, nows)
      {
        assert ops[i..][1..] == ops[i + 1..];
        ApplyOp(ops[i]);
      }
      assert ops[|ops|..] == [];
    }

    method OperationIds() returns (ids: seq<OpId>)
      requires Valid()
      ensures ToSet(ids) == Ids(log)
    {
      ids := seq(|log|, i requires 0 <= i < |log| reads this => IdOf(log[i]));
      forall op | op in log ensures IdOf(op) in ids {
        var i :| 0 <= i < |log| && log[i] == op;
        assert ids[i] == IdOf(op);
      }
    }

    method OperationsMissingFrom(known: set<OpId>) returns (ops: seq<Op>)
      requires Valid()
      ensures forall op :: op in ops <==> op in log && IdOf(op) !in known
      ensures Sorted(ops) && ops == MissingFrom(log, known)
    {
      ops := [];
      for i := 0 to |log|
        invariant ops + MissingFrom(log[i..], known) == MissingFrom(log, known)
      {
        assert log[i..][1..] == log[i + 1..];
        if IdOf(log[i]) !in known {
          AppendAssociative(ops, [log[i]], MissingFrom(log[i + 1..], known));
          ops := ops + [log[i]];
        }
      }
      assert log[|log|..] == [] && ops + [] == ops;
      MissingFromMeaning(log, known);
      MissingFromIsSorted(log, known);
    }
  }
}
