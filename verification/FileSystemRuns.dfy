/**
 * What holds in every state a node can reach by interleaving local mutations, operations from
 * other replicas and changes of its chunk store.
 */
module FileSystemRuns {
  import opened Domain
  import opened Clock
  import opened Tree
  import opened Namespace
  import opened NodeTrees
  import opened StorageModel
  import opened Content
  import opened FileSystems

  datatype State = State(replica: Replica, store: Store)

  datatype Event =
    | LocalMove(m: Move, at: nat)
    | RemoteOperations(ops: seq<Tree.Op>, nows: seq<nat>)
    | StoreChange(op: StorageModel.Op)

  /** Stamps fit their 64 bits and the system clock its 48. */
  ghost predicate Guarded(st: State, e: Event) {
    match e
    case LocalMove(_, at) => CanStamp(st.replica.clock, at)
    case RemoteOperations(ops, nows) =>
      |nows| == |ops| && (forall op :: op in ops ==> op.counter <= U64_MAX)
        && (forall now :: now in nows ==> now < PHYSICAL_RANGE)
    case StoreChange(_) => true
  }

  ghost predicate Inv(sha: Sha, st: State) {
    Healthy(st.replica) && WellFormed(st.store) && Addressed(sha, st.store)
  }

  ghost function Step(sha: Sha, self: PeerId, st: State, e: Event): State
    requires Inv(sha, st) && Guarded(st, e)
  {
    match e
    case LocalMove(m, at) => st.(replica := Local(st.replica, self, m, at))
    case RemoteOperations(ops, nows) => st.(replica := Remote(st.replica, ops, nows))
    case StoreChange(op) => st.(store := Apply(sha, st.store, op))
  }

  lemma StepKeepsInv(sha: Sha, self: PeerId, st: State, e: Event)
    requires Inv(sha, st) && Guarded(st, e)
    ensures Inv(sha, Step(sha, self, st, e))
  {
    match e
    case LocalMove(m, at) => LocalTakesEffect(st.replica, self, m, at);
    case RemoteOperations(ops, nows) => RemoteKeepsHealthy(st.replica, ops, nows);
    case StoreChange(op) => ApplyKeepsInvariant(sha, st.store, op);
  }

  function Start(maxPinned: nat, maxCached: nat): State {
    State(Replica([], Hlc(0, 0)), Empty(maxPinned, maxCached))
  }

  /** `states` is a run: it starts empty and each event leads from one state to the next. */
  ghost predicate IsRun(sha: Sha, self: PeerId, states: seq<State>, events: seq<Event>) {
    && |states| == |events| + 1
    && (exists p: nat, c: nat :: states[0] == Start(p, c))
    && forall i :: 0 <= i < |events| ==> IsStep(sha, self, states[i], events[i], states[i + 1])
  }

  ghost predicate IsStep(sha: Sha, self: PeerId, st: State, e: Event, st': State) {
    Inv(sha, st) ==> Guarded(st, e) && st' == Step(sha, self, st, e)
  }

  lemma {:induction false} RunKeepsInv(sha: Sha, self: PeerId, states: seq<State>, events: seq<Event>, i: nat)
    requires IsRun(sha, self, states, events) && i < |states|
    ensures Inv(sha, states[i])
  {
    if i > 0 {
      RunKeepsInv(sha, self, states, events, i - 1);
      assert IsStep(sha, self, states[i - 1], events[i - 1], states[i - 1 + 1]);
      StepKeepsInv(sha, self, states[i - 1], events[i - 1]);
    }
  }

  // ---------------------------------------------------------------- write, then read

  /** Among the stored chunks and the new pieces, no digest stands for two byte strings. */
  ghost predicate CollisionFree(sha: Sha, s: Store, pieces: seq<Bytes>) {
    && (forall p :: p in pieces && Contains(s, sha(p)) ==> Lookup(s, sha(p)) == Some(p))
    && (forall p, q :: p in pieces && q in pieces && sha(p) == sha(q) ==> p == q)
  }

  /** The state `write_file` leaves when it succeeds. */
  ghost function Written(sha: Sha, self: PeerId, st: State, n: NodeId, data: Bytes, pieces: seq<Bytes>, now: nat): State
    requires n in Replay(st.replica.log) && TryPin(sha, st.store, pieces).Some?
  {
    State(Local(st.replica, self, WrittenMove(sha, Replay(st.replica.log), n, |data|, pieces), now),
          TryPin(sha, st.store, pieces).value)
  }

  /** A node that stays where it is never closes a cycle. */
  lemma StayingIsNoCycle(t: Forest, op: Tree.Op)
    requires Acyclic(t) && op.child in t && t[op.child].parent == op.parent
    ensures !ClosesCycle(t, op)
  {
    var n, p := op.child, op.parent;
    assert !IsAncestor(t, n, n);
    assert Up(t, n, 1) == Some(p);
    forall k: nat ensures Up(t, p, k) != Some(n) {
      assert Up(t, n, k + 1) == Up(t, p, k);
    }
    if Climbs(t, p, n, {}) {
      ClimbsIsSound(t, p, n, {});
      assert false;
    }
  }

  /** A rewrite in place takes effect at once, because its stamp exceeds every stamp in the log. */
  lemma RewriteTakesEffect(self: PeerId, r: Replica, m: Move, now: nat)
    requires Healthy(r) && CanStamp(r.clock, now)
    requires m.child in Replay(r.log) && Replay(r.log)[m.child].parent == m.parent
    ensures Healthy(Local(r, self, m, now))
    ensures Replay(Local(r, self, m, now).log) == Replay(r.log)[m.child := Node(m.parent, m.meta)]
  {
    LocalTakesEffect(r, self, m, now);
    ReplayIsAcyclic(r.log);
    StayingIsNoCycle(Replay(r.log), StampedOp(r, self, m, now));
  }

  lemma PiecesAreStored(sha: Sha, s: Store, pieces: seq<Bytes>)
    requires TryPin(sha, s, pieces).Some? && CollisionFree(sha, s, pieces)
    ensures var t := TryPin(sha, s, pieces).value;
            forall p :: p in pieces ==> sha(p) in t.pinned && Lookup(t, sha(p)) == Some(p)
  {
    TryPinIsExact(sha, s, pieces);
    var t := TryPin(sha, s, pieces).value;
    forall p | p in pieces ensures sha(p) in t.pinned && Lookup(t, sha(p)) == Some(p) {
      if !Contains(s, sha(p)) {
        assert t.pinned[sha(p)] == FirstOf(sha, pieces)[sha(p)];
      }
    }
  }

  lemma {:induction false} ReferencesGiveData(sha: Sha, t: Store, pieces: seq<Bytes>)
    requires forall p :: p in pieces ==> Lookup(t, sha(p)) == Some(p)
    ensures var refs := References(sha, pieces);
            Covers(t, refs) && Concat(t, refs) == Joined(pieces) && Sum(refs) == |Joined(pieces)|
  {
    var refs := References(sha, pieces);
    assert forall i :: 0 <= i < |pieces| ==> pieces[i] in pieces;
    if pieces != [] {
      assert pieces == [pieces[0]] + pieces[1..];
      ReferencesGiveData(sha, t, pieces[1..]);
      assert refs[1..] == References(sha, pieces[1..]);
    }
  }

  /**
   * After `write_file(n, data)` succeeds, `read_file_all(n)` returns exactly `data`: all its
   * chunks are pinned and the new operation is the latest in the log.
   */
  lemma WriteThenRead(sha: Sha, self: PeerId, st: State, n: NodeId, data: Bytes, pieces: seq<Bytes>, now: nat)
    requires Inv(sha, st) && CanStamp(st.replica.clock, now)
    requires RewriteRefused(Replay(st.replica.log), n).None?
    requires IsSplit(data, pieces) && |data| <= U64_MAX && CollisionFree(sha, st.store, pieces)
    requires TryPin(sha, st.store, pieces).Some?
    ensures var after := Written(sha, self, st, n, data, pieces, now);
            var t := Replay(after.replica.log);
            && Inv(sha, after)
            && Metadata(t, n).Some? && Metadata(t, n).value.RegularFile? && Metadata(t, n).value.size == |data|
            && (forall p :: p in pieces ==> sha(p) in after.store.pinned)
            && ReadResult(t, after.store, n, 0, |data|) == Ok(data)
  {
    var before := Replay(st.replica.log);
    var m := WrittenMove(sha, before, n, |data|, pieces);
    var after := Written(sha, self, st, n, data, pieces, now);
    RewriteTakesEffect(self, st.replica, m, now);
    TryPinKeepsWellFormed(sha, st.store, pieces);
    ApplyKeepsInvariant(sha, st.store, OpPin(pieces));
    PiecesAreStored(sha, st.store, pieces);
    ReferencesGiveData(sha, after.store, pieces);
    ReadAllIsPrefix(after.store, References(sha, pieces), |data|);
    assert data[..|data|] == data;
  }

  /** The same in whatever state a run has reached. */
  lemma WriteThenReadInEveryReachableState(sha: Sha, self: PeerId, states: seq<State>, events: seq<Event>, i: nat,
                                           n: NodeId, data: Bytes, pieces: seq<Bytes>, now: nat)
    requires IsRun(sha, self, states, events) && i < |states|
    requires CanStamp(states[i].replica.clock, now) && RewriteRefused(Replay(states[i].replica.log), n).None?
    requires IsSplit(data, pieces) && |data| <= U64_MAX && CollisionFree(sha, states[i].store, pieces)
    requires TryPin(sha, states[i].store, pieces).Some?
    ensures var after := Written(sha, self, states[i], n, data, pieces, now);
            ReadResult(Replay(after.replica.log), after.store, n, 0, |data|) == Ok(data)
  {
    RunKeepsInv(sha, self, states, events, i);
    WriteThenRead(sha, self, states[i], n, data, pieces, now);
  }

  /**
   * Truncating a file and reading it back gives the old content cut at the new size; when
   * the file grows, the read is shorter than the size the metadata now reports.
   */
  lemma TruncateThenRead(sha: Sha, self: PeerId, st: State, n: NodeId, newSize: nat, now: nat)
    requires Inv(sha, st) && CanStamp(st.replica.clock, now) && newSize <= U64_MAX
    requires RewriteRefused(Replay(st.replica.log), n).None?
    requires Covers(st.store, Replay(st.replica.log)[n].meta.chunkRefs)
    ensures var refs := Replay(st.replica.log)[n].meta.chunkRefs;
            var after := Replay(Local(st.replica, self, TruncatedMove(Replay(st.replica.log), n, newSize), now).log);
            && Metadata(after, n).Some? && Metadata(after, n).value.size == newSize
            && |Concat(st.store, refs)| == Sum(refs)
            && ReadResult(after, st.store, n, 0, newSize) == Ok(Concat(st.store, refs)[..Min(newSize, Sum(refs))])
  {
    var t := Replay(st.replica.log);
    RewriteTakesEffect(self, st.replica, TruncatedMove(t, n, newSize), now);
    ReadAfterTruncate(st.store, t[n].meta.chunkRefs, newSize);
  }

  // ---------------------------------------------------------------- create, rename, delete

  /** A move that closes no cycle puts its node there and changes nothing else. */
  lemma MoveTakesEffect(self: PeerId, r: Replica, m: Move, now: nat)
    requires Healthy(r) && CanStamp(r.clock, now)
    requires m.child != m.parent && !IsAncestor(Replay(r.log), m.parent, m.child)
    ensures Healthy(Local(r, self, m, now))
    ensures Replay(Local(r, self, m, now).log) == Replay(r.log)[m.child := Node(m.parent, m.meta)]
  {
    LocalTakesEffect(r, self, m, now);
    ReplayIsAcyclic(r.log);
    ClimbsDecidesAncestry(Replay(r.log), m.parent, m.child);
  }

  /** `rename` closes a cycle exactly if it would put the node under itself: then nothing happens. */
  lemma CycleHasNoEffect(self: PeerId, r: Replica, m: Move, now: nat)
    requires Healthy(r) && CanStamp(r.clock, now)
    requires m.child == m.parent || IsAncestor(Replay(r.log), m.parent, m.child)
    ensures Replay(Local(r, self, m, now).log) == Replay(r.log)
  {
    LocalTakesEffect(r, self, m, now);
    ReplayIsAcyclic(r.log);
    ClimbsDecidesAncestry(Replay(r.log), m.parent, m.child);
  }

  /** A created node is found under its name, in the directory if that exists, as what was asked for. */
  lemma CreateThenFind(id: NameToId, self: PeerId, r: Replica, m: Move, now: nat)
    requires Healthy(r) && CanStamp(r.clock, now) && CreateMove(id, Replay(r.log), m)
    requires m.child != m.parent && !IsAncestor(Replay(r.log), m.parent, m.child)
    ensures var t, t' := Replay(r.log), Replay(Local(r, self, m, now).log);
            && m.child in t' && t'[m.child].parent == m.parent && t'[m.child].meta == m.meta
            && (HasChildren(t, m.parent) ==> ChildNamed(t', m.parent, m.meta.name, m.child))
            && (HasChildren(t, m.parent) ==> forall n :: ChildNamed(t', m.parent, m.meta.name, n) ==> n == m.child)
            && forall n :: n != m.child ==> (n in t' <==> n in t) && (n in t ==> t'[n] == t[n])
  {
    MoveTakesEffect(self, r, m, now);
    var t, t' := Replay(r.log), Replay(Local(r, self, m, now).log);
    forall n | HasChildren(t, m.parent) && ChildNamed(t', m.parent, m.meta.name, n) && n != m.child ensures false {
      assert ChildNamed(t, m.parent, m.meta.name, n);
    }
  }

  /** A deleted node is hidden, no longer found anywhere, and nothing else has changed. */
  lemma DeleteThenGone(self: PeerId, r: Replica, n: NodeId, now: nat)
    requires Healthy(r) && CanStamp(r.clock, now)
    requires n in Replay(r.log) && n != ROOT && n != TRASH && !IsAncestor(Replay(r.log), TRASH, n)
    ensures var t := Replay(r.log); var t' := Replay(Local(r, self, Move(TRASH, t[n].meta, n), now).log);
            && Metadata(t', n).None? && RewriteRefused(t', n) == Some(NotFound)
            && (forall parent, name :: parent != TRASH ==> !ChildNamed(t', parent, name, n))
            && forall x :: x != n ==> (x in t' <==> x in t) && (x in t ==> t'[x] == t[x])
  {
    MoveTakesEffect(self, r, Move(TRASH, Replay(r.log)[n].meta, n), now);
  }

  /**
   * A rename that closes no cycle changes the place and the name of the node and nothing
   * more: a file keeps its size and its references, so every read gives what it gave before,
   * a link its target, and no other node changes.  Only in the trash is it no longer read.
   */
  lemma RenameThenRead(self: PeerId, r: Replica, n: NodeId, newParent: NodeId, newName: string, now: nat)
    requires Healthy(r) && CanStamp(r.clock, now)
    requires n in Replay(r.log) && n != ROOT && Replay(r.log)[n].parent != TRASH
    requires n != newParent && !IsAncestor(Replay(r.log), newParent, n)
    ensures var t := Replay(r.log);
            var t' := Replay(Local(r, self, Move(newParent, Renamed(Metadata(t, n).value, newName), n), now).log);
            && n in t' && t'[n].parent == newParent && t'[n].meta.name == newName
            && (t[n].meta.Directory? <==> t'[n].meta.Directory?)
            && (t[n].meta.Symlink? ==> t'[n].meta.Symlink? && t'[n].meta.target == t[n].meta.target)
            && (t[n].meta.RegularFile? ==>
                  && t'[n].meta.RegularFile?
                  && t'[n].meta.size == t[n].meta.size && t'[n].meta.chunkRefs == t[n].meta.chunkRefs)
            && (forall s, offset, length: nat ::
                  ReadResult(t', s, n, offset, length) ==
                    if newParent == TRASH then Err(NotFound) else ReadResult(t, s, n, offset, length))
            && forall x :: x != n ==> (x in t' <==> x in t) && (x in t ==> t'[x] == t[x])
  {
    MoveTakesEffect(self, r, Move(newParent, Renamed(Metadata(Replay(r.log), n).value, newName), n), now);
  }

  // ---------------------------------------------------------------- written chunks are reachable

  /** Rewriting a file moves no directory. */
  lemma {:induction false} RewriteKeepsDirectories(t: Forest, n: NodeId, node: Node, x: NodeId, k: nat)
    requires n in t && t[n].meta.RegularFile? && LiveDirectoryAt(t, x, k)
    ensures LiveDirectoryAt(t[n := node], x, k)
    decreases k
  {
    if k > 0 {
      RewriteKeepsDirectories(t, n, node, t[x].parent, k - 1);
    }
  }

  /** After a successful write to a file below the root, each of its chunks is reachable. */
  lemma WrittenChunksAreReachable(sha: Sha, self: PeerId, st: State, n: NodeId, data: Bytes, pieces: seq<Bytes>,
                                  now: nat, p: Bytes)
    requires Inv(sha, st) && CanStamp(st.replica.clock, now)
    requires RewriteRefused(Replay(st.replica.log), n).None? && LiveFile(Replay(st.replica.log), n)
    requires TryPin(sha, st.store, pieces).Some? && p in pieces
    ensures IsReachable(Replay(Written(sha, self, st, n, data, pieces, now).replica.log), sha(p))
  {
    var t := Replay(st.replica.log);
    var m := WrittenMove(sha, t, n, |data|, pieces);
    RewriteTakesEffect(self, st.replica, m, now);
    var t' := t[n := Node(m.parent, m.meta)];
    var k: nat :| LiveDirectoryAt(t, t[n].parent, k);
    RewriteKeepsDirectories(t, n, t'[n], t[n].parent, k);
    assert LiveFile(t', n);
    var i :| 0 <= i < |pieces| && pieces[i] == p;
    assert References(sha, pieces)[i].hash == sha(p);
  }

  /** Every chunk that a read of a file below the root looks up is reachable. */
  lemma ConsultedAreReachable(t: Forest, n: NodeId, offset: nat, readEnd: nat, h: ChunkHash)
    requires LiveFile(t, n) && h in Consulted(t[n].meta.chunkRefs, 0, offset, readEnd)
    ensures IsReachable(t, h)
  {
    var refs := t[n].meta.chunkRefs;
    ConsultedIsOverlap(refs, 0, offset, readEnd, h);
    var i: nat :| i < |refs| && Overlaps(refs, i, 0, offset, readEnd) && refs[i].hash == h;
    LiveFileIsBelowRoot(t, n);
    var k: nat :| FileBelowRoot(t, n, k);
    assert ReferencedBelowRoot(t, h, n, k, i);
    ReachableMeaning(t, h);
  }

  // ---------------------------------------------------------------- names on one replica

  ghost predicate IsMutation(id: NameToId, t: Forest, m: Move) {
    HasChildren(t, m.parent) && (CreateMove(id, t, m) || RewriteMove(t, m) || DeleteMove(t, m) || RenameMove(t, m))
  }

  /** Local mutations only, each into a directory that exists when it happens. */
  ghost predicate IsLocalRun(id: NameToId, self: PeerId, replicas: seq<Replica>, moves: seq<Move>, nows: seq<nat>) {
    && |replicas| == |moves| + 1 && |nows| == |moves|
    && replicas[0] == Replica([], Hlc(0, 0))
    && forall i :: 0 <= i < |moves| ==>
         && IsMutation(id, Replay(replicas[i].log), moves[i]) && CanStamp(replicas[i].clock, nows[i])
         && replicas[i + 1] == Local(replicas[i], self, moves[i], nows[i])
  }

  /** On one replica, renames included, siblings outside the trash never share a name. */
  lemma {:induction false} LocalRunKeepsUniqueNames(id: NameToId, self: PeerId, replicas: seq<Replica>,
                                                    moves: seq<Move>, nows: seq<nat>, i: nat)
    requires IsLocalRun(id, self, replicas, moves, nows) && i < |replicas|
    ensures Healthy(replicas[i]) && UniqueNames(Replay(replicas[i].log))
  {
    if i > 0 {
      LocalRunKeepsUniqueNames(id, self, replicas, moves, nows, i - 1);
      var r, m := replicas[i - 1], moves[i - 1];
      LocalTakesEffect(r, self, m, nows[i - 1]);
      MutationKeepsUniqueNames(id, Replay(r.log), m, Pack(Advanced(r.clock, nows[i - 1])), self);
    }
  }
}
