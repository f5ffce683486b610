/**
 * The replicated tree (src/filesystem/tree/mod.rs).
 *
 * The tree itself comes from a library and appears here by its contract only: the log holds
 * the operations once each in the order of their timestamps, a duplicate is ignored, and the
 * tree is the replay of the log in which a move that would close a cycle is skipped.
 */
module Tree {
  import opened Domain

  /** A stamped move: `child` goes under `parent` with new metadata. */
  datatype Op = Op(counter: nat, actor: PeerId, parent: NodeId, meta: NodeMeta, child: NodeId)

  datatype OpId = OpId(actor: PeerId, counter: nat)

  function IdOf(op: Op): OpId { OpId(op.actor, op.counter) }

  datatype Node = Node(parent: NodeId, meta: NodeMeta)

  type Forest = map<NodeId, Node>

  // ---------------------------------------------------------------- ancestors

  /** The node `k` steps up from `x`; the last node of a chain need not be in the tree. */
  ghost function Up(t: Forest, x: NodeId, k: nat): Option<NodeId>
    decreases k
  {
    if k == 0 then Some(x)
    else if x in t then Up(t, t[x].parent, k - 1)
    else None
  }

  ghost predicate IsAncestor(t: Forest, x: NodeId, a: NodeId) {
    exists k: nat :: k > 0 && Up(t, x, k) == Some(a)
  }

  ghost predicate Acyclic(t: Forest) {
    forall x :: !IsAncestor(t, x, x)
  }

  /** Walks up from `x`; `seen` only makes the walk end on a tree with a cycle. */
  predicate Climbs(t: Forest, x: NodeId, a: NodeId, seen: set<NodeId>)
    decreases |t.Keys - seen|
  {
    x in t && x !in seen &&
    (SubsetCardinality(t.Keys - (seen + {x}), t.Keys - seen);
     t[x].parent == a || Climbs(t, t[x].parent, a, seen + {x}))
  }

  lemma {:induction false} UpConcat(t: Forest, x: NodeId, i: nat, j: nat)
    requires Up(t, x, i).Some?
    ensures Up(t, x, i + j) == Up(t, Up(t, x, i).value, j)
    decreases i
  {
    if i > 0 {
      UpConcat(t, t[x].parent, i - 1, j);
    }
  }

  lemma {:induction false} ClimbsIsSound(t: Forest, x: NodeId, a: NodeId, seen: set<NodeId>)
    requires Climbs(t, x, a, seen)
    ensures IsAncestor(t, x, a)
    decreases |t.Keys - seen|
  {
    if t[x].parent == a {
      assert Up(t, x, 1) == Some(a);
    } else {
      SubsetCardinality(t.Keys - (seen + {x}), t.Keys - seen);
      ClimbsIsSound(t, t[x].parent, a, seen + {x});
      var k: nat :| k > 0 && Up(t, t[x].parent, k) == Some(a);
      assert Up(t, x, k + 1) == Some(a);
    }
  }

  lemma {:induction false} ClimbsIsComplete(t: Forest, x: NodeId, a: NodeId, seen: set<NodeId>, k: nat)
    requires Acyclic(t) && k > 0 && Up(t, x, k) == Some(a)
    requires forall s :: s in seen ==> IsAncestor(t, s, x)
    ensures Climbs(t, x, a, seen)
    decreases k
  {
    assert !IsAncestor(t, x, x);
    var p := t[x].parent;
    if p != a {
      forall s | s in seen + {x} ensures IsAncestor(t, s, p) {
        if s == x {
          assert Up(t, x, 1) == Some(p);
        } else {
          var i: nat :| i > 0 && Up(t, s, i) == Some(x);
          UpConcat(t, s, i, 1);
          assert Up(t, x, 1) == Some(p);
          assert Up(t, s, i + 1) == Some(p);
        }
      }
      ClimbsIsComplete(t, p, a, seen + {x}, k - 1);
    }
  }

  /** On an acyclic tree the walk decides ancestry. */
  lemma ClimbsDecidesAncestry(t: Forest, x: NodeId, a: NodeId)
    requires Acyclic(t)
    ensures Climbs(t, x, a, {}) <==> IsAncestor(t, x, a)
  {
    if Climbs(t, x, a, {}) {
      ClimbsIsSound(t, x, a, {});
    }
    if IsAncestor(t, x, a) {
      var k: nat :| k > 0 && Up(t, x, k) == Some(a);
      ClimbsIsComplete(t, x, a, {}, k);
    }
  }

  // ---------------------------------------------------------------- applying one move

  predicate ClosesCycle(t: Forest, op: Op) {
    op.child == op.parent || Climbs(t, op.parent, op.child, {})
  }

  function ApplyMove(t: Forest, op: Op): Forest {
    if ClosesCycle(t, op) then t else t[op.child := Node(op.parent, op.meta)]
  }

  /** Above the new parent nothing changes, because the moved node is not there. */
  lemma {:induction false} UpAvoidsMovedNode(t: Forest, op: Op, x: NodeId, k: nat)
    requires x != op.child && !IsAncestor(t, x, op.child)
    ensures Up(ApplyMove(t, op), x, k) == Up(t, x, k)
    decreases k
  {
    if k > 0 && x in t {
      var p := t[x].parent;
      assert Up(t, x, 1) == Some(p);
      if IsAncestor(t, p, op.child) {
        var j: nat :| j > 0 && Up(t, p, j) == Some(op.child);
        assert Up(t, x, j + 1) == Some(op.child);
      }
      UpAvoidsMovedNode(t, op, p, k - 1);
    }
  }

  /** A walk in the new tree that is not a walk in the old one goes through the moved node. */
  lemma {:induction false} UpMeetsMovedNode(t: Forest, op: Op, x: NodeId, k: nat) returns (i: nat)
    requires Up(ApplyMove(t, op), x, k) != Up(t, x, k)
    ensures i < k && Up(ApplyMove(t, op), x, i) == Some(op.child)
    decreases k
  {
    if x == op.child {
      i := 0;
    } else {
      i := UpMeetsMovedNode(t, op, t[x].parent, k - 1);
      i := i + 1;
    }
  }

  lemma MoveKeepsAcyclic(t: Forest, op: Op)
    requires Acyclic(t)
    ensures Acyclic(ApplyMove(t, op))
  {
    var u := ApplyMove(t, op);
    if !ClosesCycle(t, op) {
      var c, p := op.child, op.parent;
      ClimbsDecidesAncestry(t, p, c);
      forall x ensures !IsAncestor(u, x, x) {
        if IsAncestor(u, x, x) {
          var k: nat :| k > 0 && Up(u, x, k) == Some(x);
          assert !IsAncestor(t, x, x);
          var i := UpMeetsMovedNode(t, op, x, k);
          UpConcat(u, x, k, i);
          UpConcat(u, x, i, k);
          assert Up(u, c, k) == Some(c);
          assert Up(u, p, k - 1) == Some(c);
          UpAvoidsMovedNode(t, op, p, k - 1);
          assert false;
        }
      }
    }
  }

  // ---------------------------------------------------------------- the log

  /** Timestamps are ordered by counter, then by actor. */
  predicate StampLess(a: Op, b: Op) {
    a.counter < b.counter || (a.counter == b.counter && LexLess(a.actor.bytes, b.actor.bytes))
  }

  lemma StampTotal(a: Op, b: Op)
    ensures StampLess(a, b) || StampLess(b, a) || IdOf(a) == IdOf(b)
    ensures !(StampLess(a, b) && StampLess(b, a))
    ensures StampLess(a, b) ==> IdOf(a) != IdOf(b)
  {
    LexTotal(a.actor.bytes, b.actor.bytes);
    LexTotal(a.actor.bytes, a.actor.bytes);
  }

  lemma StampTransitive(a: Op, b: Op, c: Op)
    requires StampLess(a, b) && StampLess(b, c)
    ensures StampLess(a, c)
  {
    if LexLess(a.actor.bytes, b.actor.bytes) && LexLess(b.actor.bytes, c.actor.bytes) {
      LexTransitive(a.actor.bytes, b.actor.bytes, c.actor.bytes);
    }
  }

  ghost predicate Sorted(log: seq<Op>) {
    forall i, j :: 0 <= i < j < |log| ==> StampLess(log[i], log[j])
  }

  /** `apply_op` on the log: a timestamp that is already there is ignored. */
  function Insert(log: seq<Op>, op: Op): seq<Op> {
    if log == [] then [op]
    else
      var last := log[|log| - 1];
      if IdOf(op) == IdOf(last) then log
      else if StampLess(last, op) then log + [op]
      else Insert(log[..|log| - 1], op) + [last]
  }

  function InsertAll(log: seq<Op>, ops: seq<Op>): seq<Op>
    decreases |ops|
  {
    if ops == [] then log else InsertAll(Insert(log, ops[0]), ops[1..])
  }

  function Replay(log: seq<Op>): Forest {
    if log == [] then map[] else ApplyMove(Replay(log[..|log| - 1]), log[|log| - 1])
  }

  ghost function Ids(log: seq<Op>): set<OpId> {
    set op | op in log :: IdOf(op)
  }

  lemma {:induction false} ReplayIsAcyclic(log: seq<Op>)
    ensures Acyclic(Replay(log))
  {
    if log == [] {
      forall x ensures !IsAncestor(Replay(log), x, x) {
        assert forall k: nat :: k > 0 ==> Up(Replay(log), x, k) == None;
      }
    } else {
      ReplayIsAcyclic(log[..|log| - 1]);
      MoveKeepsAcyclic(Replay(log[..|log| - 1]), log[|log| - 1]);
    }
  }

  lemma {:induction false} InsertMembers(log: seq<Op>, op: Op)
    ensures forall o :: o in log ==> o in Insert(log, op)
    ensures forall o :: o in Insert(log, op) ==> o in log || o == op
    ensures IdOf(op) in Ids(Insert(log, op))
  {
    if log != [] {
      var front, last := log[..|log| - 1], log[|log| - 1];
      assert log == front + [last];
      InsertMembers(front, op);
      var rest := Insert(front, op);
      assert last in log && last in rest + [last];
      assert op in log + [op];
      assert forall o :: o in rest ==> o in rest + [last];
    }
  }

  lemma {:induction false} InsertKeepsSorted(log: seq<Op>, op: Op)
    requires Sorted(log)
    ensures Sorted(Insert(log, op))
    ensures IdOf(op) in Ids(log) ==> Insert(log, op) == log
  {
    if log != [] {
      var front, last := log[..|log| - 1], log[|log| - 1];
      assert log == front + [last];
      StampTotal(last, op);
      if StampLess(last, op) {
        LaterThanAll(log, op);
      } else if IdOf(op) != IdOf(last) {
        InsertKeepsSorted(front, op);
        InsertMembers(front, op);
        var rest := Insert(front, op);
        forall i | 0 <= i < |rest| ensures StampLess(rest[i], last) {
          assert rest[i] in rest;
          if rest[i] != op {
            var j :| 0 <= j < |front| && front[j] == rest[i];
            assert log[j] == rest[i];
          }
        }
      }
    }
  }

  lemma InsertMeaning(log: seq<Op>, op: Op)
    requires Sorted(log)
    ensures var r := Insert(log, op);
            && Sorted(r)
            && ToSet(log) <= ToSet(r) <= ToSet(log) + {op}
            && (IdOf(op) in Ids(log) ==> r == log)
            && Ids(r) == Ids(log) + {IdOf(op)}
  {
    InsertKeepsSorted(log, op);
    InsertMembers(log, op);
  }

  lemma LaterThanAll(log: seq<Op>, op: Op)
    requires Sorted(log) && log != [] && StampLess(log[|log| - 1], op)
    ensures forall o :: o in log ==> StampLess(o, op)
    ensures IdOf(op) !in Ids(log)
  {
    forall o | o in log ensures StampLess(o, op) && IdOf(o) != IdOf(op) {
      var i :| 0 <= i < |log| && log[i] == o;
      if i < |log| - 1 { StampTransitive(o, log[|log| - 1], op); }
      StampTotal(o, op);
    }
  }

  /** An operation stamped after the whole log is simply applied last. */
  lemma InsertLatest(log: seq<Op>, op: Op)
    requires forall o :: o in log ==> StampLess(o, op)
    ensures Insert(log, op) == log + [op]
    ensures Replay(log + [op]) == ApplyMove(Replay(log), op)
  {
    if log != [] {
      StampTotal(log[|log| - 1], op);
    }
    assert (log + [op])[..|log|] == log;
  }

  lemma {:induction false} InsertAllMeaning(log: seq<Op>, ops: seq<Op>)
    requires Sorted(log)
    ensures var r := InsertAll(log, ops);
            && Sorted(r)
            && ToSet(log) <= ToSet(r) <= ToSet(log) + ToSet(ops)
            && Ids(r) == Ids(log) + Ids(ops)
    decreases |ops|
  {
    if ops != [] {
      InsertMeaning(log, ops[0]);
      InsertAllMeaning(Insert(log, ops[0]), ops[1..]);
      assert ops == [ops[0]] + ops[1..];
      assert Ids(ops) == {IdOf(ops[0])} + Ids(ops[1..]);
      assert ToSet(ops) == {ops[0]} + ToSet(ops[1..]);
    }
  }

  /** Two operations with one id are the same operation. */
  ghost predicate UniqueIds(ops: set<Op>) {
    forall a, b :: a in ops && b in ops && IdOf(a) == IdOf(b) ==> a == b
  }

  lemma {:induction false} SortedIsUnique(a: seq<Op>, b: seq<Op>)
    requires Sorted(a) && Sorted(b) && ToSet(a) == ToSet(b)
    ensures a == b
    decreases |a|
  {
    if a == [] {
      assert forall i :: 0 <= i < |b| ==> b[i] in ToSet(b);
      assert |b| == 0;
    } else {
      var x := a[|a| - 1];
      assert x in ToSet(b);
      var y := b[|b| - 1];
      assert y in ToSet(a);
      var i :| 0 <= i < |a| && a[i] == y;
      var j :| 0 <= j < |b| && b[j] == x;
      StampTotal(x, y);
      assert x == y;
      DropLast(a);
      DropLast(b);
      SortedIsUnique(a[..|a| - 1], b[..|b| - 1]);
      assert a == a[..|a| - 1] + [x] && b == b[..|b| - 1] + [y];
    }
  }

  lemma DropLast(a: seq<Op>)
    requires Sorted(a) && a != []
    ensures ToSet(a[..|a| - 1]) == ToSet(a) - {a[|a| - 1]}
  {
    var front, last := a[..|a| - 1], a[|a| - 1];
    assert a == front + [last];
    forall i | 0 <= i < |front| ensures front[i] != last {
      StampTotal(front[i], last);
    }
  }

  lemma SameIdsSubset(a: seq<Op>, b: seq<Op>)
    requires Ids(a) <= Ids(b) && UniqueIds(ToSet(a) + ToSet(b))
    ensures ToSet(a) <= ToSet(b)
  {
    forall op | op in a ensures op in b {
      assert IdOf(op) in Ids(b);
      var o :| o in b && IdOf(o) == IdOf(op);
      assert o in ToSet(b) && op in ToSet(a);
    }
  }

  /**
   * Replicas that hold the same ids hold the same log and the same tree, however the
   * operations arrived, as long as an id never stands for two operations.
   */
  lemma SameIdsSameTree(a: seq<Op>, b: seq<Op>)
    requires Sorted(a) && Sorted(b) && Ids(a) == Ids(b)
    requires UniqueIds(ToSet(a) + ToSet(b))
    ensures a == b && Replay(a) == Replay(b)
  {
    SameIdsSubset(a, b);
    SameIdsSubset(b, a);
    SortedIsUnique(a, b);
  }

  /** In particular neither the order of arrival nor repetition matters. */
  lemma ArrivalOrderDoesNotMatter(log: seq<Op>, first: seq<Op>, second: seq<Op>)
    requires Sorted(log) && Ids(first) == Ids(second)
    requires UniqueIds(ToSet(log) + ToSet(first) + ToSet(second))
    ensures InsertAll(log, first) == InsertAll(log, second)
    ensures Replay(InsertAll(log, first)) == Replay(InsertAll(log, second))
  {
    InsertAllMeaning(log, first);
    InsertAllMeaning(log, second);
    SameIdsSameTree(InsertAll(log, first), InsertAll(log, second));
  }

  // ---------------------------------------------------------------- anti-entropy pieces

  /** `operations_missing_from`. */
  function MissingFrom(log: seq<Op>, known: set<OpId>): seq<Op> {
    if log == [] then []
    else if IdOf(log[0]) in known then MissingFrom(log[1..], known)
    else [log[0]] + MissingFrom(log[1..], known)
  }

  lemma {:induction false} MissingFromMeaning(log: seq<Op>, known: set<OpId>)
    ensures forall op :: op in MissingFrom(log, known) <==> op in log && IdOf(op) !in known
  {
    if log != [] {
      MissingFromMeaning(log[1..], known);
    }
  }

  /** Leaving operations out keeps the order of the rest. */
  lemma {:induction false} MissingFromIsSorted(log: seq<Op>, known: set<OpId>)
    requires Sorted(log)
    ensures Sorted(MissingFrom(log, known))
  {
    if log != [] {
      var rest := MissingFrom(log[1..], known);
      assert forall i :: 0 <= i < |log[1..]| ==> log[1..][i] == log[i + 1];
      MissingFromIsSorted(log[1..], known);
      MissingFromMeaning(log[1..], known);
      forall j | 0 <= j < |rest| ensures StampLess(log[0], rest[j]) {
        assert rest[j] in log[1..];
        var i :| 0 <= i < |log[1..]| && log[1..][i] == rest[j];
        assert log[i + 1] == rest[j];
      }
    }
  }
}
