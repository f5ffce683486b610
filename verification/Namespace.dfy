/**
 * Names and reachability on a replica's tree: the lookups of src/filesystem/mod.rs, what its
 * mutations stamp, and what holds of every tree they lead to.
 */
module Namespace {
  import opened Domain
  import opened Tree

  /** UUIDv5 of a parent id and a name (section 5.5 of RFC 9562), left uninterpreted. */
  type NameToId = (NodeId, string) -> NodeId

  function NameOf(meta: NodeMeta): string { meta.name }

  function Renamed(meta: NodeMeta, name: string): NodeMeta {
    match meta
    case Directory(_) => Directory(name)
    case RegularFile(_, size, refs) => RegularFile(name, size, refs)
    case Symlink(_, target) => Symlink(name, target)
  }

  predicate IsTrashed(t: Forest, n: NodeId) { n in t && t[n].parent == TRASH }

  /** `metadata`: the root is always a directory, trashed nodes are hidden. */
  function Metadata(t: Forest, n: NodeId): Option<NodeMeta> {
    if n == ROOT then Some(Directory(""))
    else if IsTrashed(t, n) || n !in t then None
    else Some(t[n].meta)
  }

  /** `children` refuses ids that are neither reserved nor in the tree. */
  predicate HasChildren(t: Forest, parent: NodeId) { parent == ROOT || parent == TRASH || parent in t }

  function Children(t: Forest, parent: NodeId): set<NodeId> {
    set n | n in t && t[n].parent == parent
  }

  predicate ChildNamed(t: Forest, parent: NodeId, name: string, n: NodeId) {
    HasChildren(t, parent) && n in t && t[n].parent == parent && NameOf(t[n].meta) == name
  }

  /** `child_id` finds some child with the name, or none. */
  ghost predicate NoChildNamed(t: Forest, parent: NodeId, name: string) {
    forall n :: !ChildNamed(t, parent, name, n)
  }

  // ---------------------------------------------------------------- what each mutation stamps

  /** The arguments of a stamped move. */
  datatype Move = Move(parent: NodeId, meta: NodeMeta, child: NodeId)

  ghost predicate CreateMove(id: NameToId, t: Forest, m: Move) {
    && NoChildNamed(t, m.parent, NameOf(m.meta))
    && m.child == id(m.parent, NameOf(m.meta))
  }

  /** `write_file` and `truncate_file`: same place, same name, new content. */
  ghost predicate RewriteMove(t: Forest, m: Move) {
    && m.child in t && t[m.child].parent == m.parent && m.parent != TRASH
    && t[m.child].meta.RegularFile? && m.meta.RegularFile? && m.meta.name == t[m.child].meta.name
  }

  ghost predicate DeleteMove(t: Forest, m: Move) {
    m.child in t && m.parent == TRASH && m.meta == t[m.child].meta
  }

  /** `rename`: nobody else has the new name, and only place and name change. */
  ghost predicate RenameMove(t: Forest, m: Move) {
    && m.child in t && t[m.child].parent != TRASH
    && m.meta == Renamed(t[m.child].meta, m.meta.name)
    && forall n :: ChildNamed(t, m.parent, m.meta.name, n) ==> n == m.child
  }

  function Moved(t: Forest, m: Move, counter: nat, actor: PeerId): Forest {
    ApplyMove(t, Op(counter, actor, m.parent, m.meta, m.child))
  }

  // ---------------------------------------------------------------- names without coordination

  /** A rename-free operation puts a node at the id of its parent and name, or in the trash. */
  ghost predicate NamedOp(id: NameToId, op: Op) {
    op.parent == TRASH || op.child == id(op.parent, NameOf(op.meta))
  }

  ghost predicate NamedTree(id: NameToId, t: Forest) {
    forall n :: n in t && t[n].parent != TRASH ==> n == id(t[n].parent, NameOf(t[n].meta))
  }

  lemma {:induction false} NamedOpsGiveNamedTree(id: NameToId, log: seq<Op>)
    requires forall op :: op in log ==> NamedOp(id, op)
    ensures NamedTree(id, Replay(log))
  {
    if log != [] {
      var front, last := log[..|log| - 1], log[|log| - 1];
      assert forall op :: op in front ==> op in log;
      NamedOpsGiveNamedTree(id, front);
      assert last in log;
    }
  }

  /** Every mutation but `rename` stamps a rename-free operation on a rename-free tree. */
  lemma MutationsStampNamedOps(id: NameToId, t: Forest, m: Move, counter: nat, actor: PeerId)
    requires NamedTree(id, t)
    requires CreateMove(id, t, m) || RewriteMove(t, m) || DeleteMove(t, m)
    ensures NamedOp(id, Op(counter, actor, m.parent, m.meta, m.child))
  {
  }

  predicate Namesakes(t: Forest, a: NodeId, b: NodeId) {
    a in t && b in t && t[a].parent == t[b].parent && NameOf(t[a].meta) == NameOf(t[b].meta)
  }

  /** Sibling names are unique everywhere but in the trash. */
  ghost predicate UniqueNames(t: Forest) {
    forall a, b :: Namesakes(t, a, b) && t[a].parent != TRASH ==> a == b
  }

  lemma NamedTreeHasUniqueNames(id: NameToId, t: Forest)
    requires NamedTree(id, t)
    ensures UniqueNames(t)
  {
    forall a, b | Namesakes(t, a, b) && t[a].parent != TRASH
      ensures a == b
    {
      assert a == id(t[a].parent, NameOf(t[a].meta));
    }
  }

  /**
   * One replica, renames included: as long as the target directory exists, no mutation gives
   * two siblings one name.
   */
  lemma MutationKeepsUniqueNames(id: NameToId, t: Forest, m: Move, counter: nat, actor: PeerId)
    requires UniqueNames(t) && HasChildren(t, m.parent)
    requires CreateMove(id, t, m) || RewriteMove(t, m) || DeleteMove(t, m) || RenameMove(t, m)
    ensures UniqueNames(Moved(t, m, counter, actor))
  {
    var u := Moved(t, m, counter, actor);
    if u != t {
      forall n | n in u && n != m.child && u[n].parent == m.parent && m.parent != TRASH
        ensures NameOf(u[n].meta) != NameOf(m.meta)
      {
        assert RewriteMove(t, m) ==> !Namesakes(t, n, m.child);
        assert !ChildNamed(t, m.parent, NameOf(m.meta), n);
      }
      forall a, b | Namesakes(u, a, b) && u[a].parent != TRASH
        ensures a == b
      {
        assert a != m.child && b != m.child ==> Namesakes(t, a, b);
      }
    }
  }

  /** Some other node already lies there under the new name. */
  ghost predicate NameTaken(t: Forest, m: Move) {
    exists n :: n in t && n != m.child && t[n].parent == m.parent && NameOf(t[n].meta) == NameOf(m.meta)
  }

  /**
   * Exactly when a mutation that passed its checks keeps sibling names unique: when it puts
   * the node under itself, which has no effect, or into the trash, or goes to a directory
   * that exists, or meets no namesake in one that does not.
   */
  lemma UniqueNamesKeptIff(id: NameToId, t: Forest, m: Move, counter: nat, actor: PeerId)
    requires UniqueNames(t)
    requires CreateMove(id, t, m) || RewriteMove(t, m) || DeleteMove(t, m) || RenameMove(t, m)
    ensures UniqueNames(Moved(t, m, counter, actor)) <==>
              m.child == m.parent || m.parent == TRASH || HasChildren(t, m.parent) || !NameTaken(t, m)
  {
    var u := Moved(t, m, counter, actor);
    if HasChildren(t, m.parent) {
      MutationKeepsUniqueNames(id, t, m, counter, actor);
    } else if m.child != m.parent && m.parent != TRASH {
      assert u == t[m.child := Node(m.parent, m.meta)];
      if NameTaken(t, m) {
        var n :| n in t && n != m.child && t[n].parent == m.parent && NameOf(t[n].meta) == NameOf(m.meta);
        assert Namesakes(u, n, m.child);
      } else {
        forall a, b | Namesakes(u, a, b) && u[a].parent != TRASH ensures a == b {
          assert a != m.child && b != m.child ==> Namesakes(t, a, b);
        }
      }
    }
  }

  /**
   * The failing case, on a replica that got two creations, one of them under a directory it
   * never heard of: `rename` into that directory does not look for the name there, so it
   * succeeds next to a sibling that already has it.
   */
  lemma RenameIntoMissingDirectoryCollides(dir: NodeId, a: NodeId, b: NodeId, name: string, actor: PeerId)
    requires a != b && ROOT !in {dir, a, b} && TRASH !in {dir, a, b} && dir !in {a, b}
    ensures var log := [Op(1, actor, dir, Directory(name), a), Op(2, actor, ROOT, Directory("x"), b)];
            var t, m := Replay(log), Move(dir, Directory(name), b);
            && Sorted(log) && UniqueNames(t) && RenameMove(t, m) && !HasChildren(t, dir)
            && !UniqueNames(Moved(t, m, 3, actor))
  {
    var first, second := Op(1, actor, dir, Directory(name), a), Op(2, actor, ROOT, Directory("x"), b);
    var log := [first, second];
    assert log[..1] == [first] && [first][..0] == [];
    assert Replay([first]) == map[a := Node(dir, Directory(name))];
    var t := Replay(log);
    assert t == map[a := Node(dir, Directory(name)), b := Node(ROOT, Directory("x"))];
    var u := Moved(t, Move(dir, Directory(name), b), 3, actor);
    assert u[a] == Node(dir, Directory(name)) && u[b] == Node(dir, Directory(name));
    assert Namesakes(u, a, b);
  }

  // ---------------------------------------------------------------- reachability

  /** A directory `k` levels below the root, no level of which is the trash. */
  ghost predicate LiveDirectoryAt(t: Forest, n: NodeId, k: nat)
    decreases k
  {
    if k == 0 then n == ROOT
    else n in t && n != ROOT && n != TRASH && t[n].meta.Directory? && LiveDirectoryAt(t, t[n].parent, k - 1)
  }

  ghost predicate LiveDirectory(t: Forest, n: NodeId) {
    exists k: nat :: LiveDirectoryAt(t, n, k)
  }

  ghost predicate LiveFile(t: Forest, n: NodeId) {
    n in t && n != ROOT && n != TRASH && t[n].meta.RegularFile? && LiveDirectory(t, t[n].parent)
  }

  function Hashes(refs: seq<ChunkRef>): set<ChunkHash> {
    set i | 0 <= i < |refs| :: refs[i].hash
  }

  /** The chunks of the regular files joined to the root by directories outside the trash. */
  ghost predicate IsReachable(t: Forest, h: ChunkHash) {
    exists n :: LiveFile(t, n) && h in Hashes(t[n].meta.chunkRefs)
  }

  /** What the breadth-first search knows when every node in `queue` is still to be expanded. */
  ghost predicate Explored(t: Forest, visited: set<NodeId>, queue: set<NodeId>, reachable: set<ChunkHash>) {
    && ROOT in visited && queue <= visited
    && (forall n :: n in queue ==> LiveDirectory(t, n))
    && (forall n :: n in visited && n != ROOT ==> n in t && n != TRASH && LiveDirectory(t, t[n].parent))
    && (forall h :: h in reachable ==> exists n :: n in visited && LiveFile(t, n) && h in Hashes(t[n].meta.chunkRefs))
    && (forall n :: n in visited && LiveFile(t, n) ==> Hashes(t[n].meta.chunkRefs) <= reachable)
    && (forall n, c :: n in visited && n !in queue && LiveDirectory(t, n) && c in Children(t, n) && c != TRASH ==>
        c in visited)
  }

  lemma {:induction false} LiveDirectoriesVisited(t: Forest, visited: set<NodeId>, reachable: set<ChunkHash>,
                                                  n: NodeId, k: nat)
    requires Explored(t, visited, {}, reachable) && LiveDirectoryAt(t, n, k)
    ensures n in visited
    decreases k
  {
    if k > 0 {
      LiveDirectoriesVisited(t, visited, reachable, t[n].parent, k - 1);
      assert LiveDirectory(t, t[n].parent) && n in Children(t, t[n].parent);
    }
  }

  lemma ExploredIsExact(t: Forest, visited: set<NodeId>, reachable: set<ChunkHash>)
    requires Explored(t, visited, {}, reachable)
    ensures forall h :: h in reachable <==> IsReachable(t, h)
  {
    forall h | IsReachable(t, h)
      ensures h in reachable
    {
      var n :| LiveFile(t, n) && h in Hashes(t[n].meta.chunkRefs);
      var k: nat :| LiveDirectoryAt(t, t[n].parent, k);
      LiveDirectoriesVisited(t, visited, reachable, t[n].parent, k);
      assert n in Children(t, t[n].parent) && n in visited;
    }
  }

  lemma LiveBelow(t: Forest, n: NodeId)
    requires n in t && n != ROOT && n != TRASH && t[n].meta.Directory? && LiveDirectory(t, t[n].parent)
    ensures LiveDirectory(t, n)
  {
    var k: nat :| LiveDirectoryAt(t, t[n].parent, k);
    assert LiveDirectoryAt(t, n, k + 1);
  }

  /** A directory on the way to the root: in the tree, neither reserved nor anything but a directory. */
  predicate IsStep(t: Forest, x: Option<NodeId>) {
    x.Some? && x.value in t && x.value != ROOT && x.value != TRASH && t[x.value].meta.Directory?
  }

  ghost predicate StepsUp(t: Forest, n: NodeId, from: nat, k: nat) {
    forall j: nat :: from <= j < k ==> IsStep(t, Up(t, n, j))
  }

  /** `k` steps up from the regular file lies the root, and all between are directories outside the trash. */
  ghost predicate FileBelowRoot(t: Forest, n: NodeId, k: nat) {
    && n in t && n != ROOT && n != TRASH && t[n].meta.RegularFile?
    && k > 0 && Up(t, n, k) == Some(ROOT) && StepsUp(t, n, 1, k)
  }

  lemma StepsFromParent(t: Forest, n: NodeId, k: nat)
    requires n in t
    ensures StepsUp(t, n, 1, k + 1) <==> StepsUp(t, t[n].parent, 0, k)
  {
    var p := t[n].parent;
    forall j: nat ensures Up(t, n, j + 1) == Up(t, p, j) {}
    if StepsUp(t, n, 1, k + 1) {
      forall j: nat | j < k ensures IsStep(t, Up(t, p, j)) { assert IsStep(t, Up(t, n, j + 1)); }
    }
    if StepsUp(t, p, 0, k) {
      forall j: nat | 1 <= j < k + 1 ensures IsStep(t, Up(t, n, j)) { assert IsStep(t, Up(t, p, j - 1)); }
    }
  }

  lemma {:induction false} LiveDirectoryIsAChain(t: Forest, n: NodeId, k: nat)
    ensures LiveDirectoryAt(t, n, k) <==> Up(t, n, k) == Some(ROOT) && StepsUp(t, n, 0, k)
    decreases k
  {
    if k > 0 {
      assert Up(t, n, 0) == Some(n);
      assert StepsUp(t, n, 0, k) <==> IsStep(t, Up(t, n, 0)) && StepsUp(t, n, 1, k);
      if n in t {
        LiveDirectoryIsAChain(t, t[n].parent, k - 1);
        StepsFromParent(t, n, k - 1);
      }
    }
  }

  lemma LiveFileIsBelowRoot(t: Forest, n: NodeId)
    ensures LiveFile(t, n) <==> exists k: nat :: FileBelowRoot(t, n, k)
  {
    if LiveFile(t, n) {
      var k: nat :| LiveDirectoryAt(t, t[n].parent, k);
      LiveDirectoryIsAChain(t, t[n].parent, k);
      StepsFromParent(t, n, k);
      assert FileBelowRoot(t, n, k + 1);
    }
    if k: nat :| FileBelowRoot(t, n, k) {
      LiveDirectoryIsAChain(t, t[n].parent, k - 1);
      StepsFromParent(t, n, k - 1);
    }
  }

  /** `h` is the digest of the `i`th reference of a regular file `k` levels below the root. */
  ghost predicate ReferencedBelowRoot(t: Forest, h: ChunkHash, n: NodeId, k: nat, i: nat) {
    FileBelowRoot(t, n, k) && i < |t[n].meta.chunkRefs| && t[n].meta.chunkRefs[i].hash == h
  }

  /** The reachable chunks are all those that some file below the root refers to, and no others. */
  lemma ReachableMeaning(t: Forest, h: ChunkHash)
    ensures IsReachable(t, h) <==> exists n, k: nat, i: nat :: ReferencedBelowRoot(t, h, n, k, i)
  {
    if IsReachable(t, h) {
      var n :| LiveFile(t, n) && h in Hashes(t[n].meta.chunkRefs);
      LiveFileIsBelowRoot(t, n);
      var k: nat :| FileBelowRoot(t, n, k);
      var i :| 0 <= i < |t[n].meta.chunkRefs| && t[n].meta.chunkRefs[i].hash == h;
      assert ReferencedBelowRoot(t, h, n, k, i);
    }
    if n, k: nat, i: nat :| ReferencedBelowRoot(t, h, n, k, i) {
      LiveFileIsBelowRoot(t, n);
      assert h in Hashes(t[n].meta.chunkRefs);
    }
  }
}
