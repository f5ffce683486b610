/** The file system of one node (src/filesystem/mod.rs): a replicated tree and a chunk store. */
module FileSystems {
  import opened Domain
  import opened Clock
  import opened Tree
  import opened Namespace
  import opened NodeTrees
  import opened StorageModel
  import opened Storage
  import opened Content

  datatype FsError =
    | NotFound | ReservedNode | StorageFull | NotADirectory | IsADirectory | DirectoryNotEmpty | AlreadyExists

  datatype Result<+T> = Ok(value: T) | Err(error: FsError)

  /** FastCDC cuts data into consecutive non-empty slices; nothing else is known of it. */
  ghost predicate IsSplit(data: Bytes, pieces: seq<Bytes>) {
    Joined(pieces) == data && forall i :: 0 <= i < |pieces| ==> pieces[i] != []
  }

  function Joined(pieces: seq<Bytes>): Bytes {
    if pieces == [] then [] else pieces[0] + Joined(pieces[1..])
  }

  function References(sha: Sha, pieces: seq<Bytes>): seq<ChunkRef> {
    seq(|pieces|, i requires 0 <= i < |pieces| => ChunkRef(sha(pieces[i]), |pieces[i]|))
  }

  /** `write_file` and `truncate_file` refuse what is missing, trashed or not a regular file. */
  function RewriteRefused(t: Forest, n: NodeId): (e: Option<FsError>)
    ensures e == Some(NotFound) <==> n != ROOT && (n !in t || t[n].parent == TRASH)
    ensures e == Some(IsADirectory) <==> n == ROOT || (n in t && t[n].parent != TRASH && !t[n].meta.RegularFile?)
    ensures e.None? <==> n != ROOT && n in t && t[n].parent != TRASH && t[n].meta.RegularFile?
  {
    match Metadata(t, n)
    case None => Some(NotFound)
    case Some(meta) => if meta.RegularFile? then None else Some(IsADirectory)
  }

  /** `delete_node` refuses what is reserved or missing. */
  function DeleteNodeRefused(t: Forest, n: NodeId): (e: Option<FsError>)
    ensures e == Some(ReservedNode) <==> n == ROOT || n == TRASH
    ensures e == Some(NotFound) <==> n != ROOT && n != TRASH && n !in t
    ensures e.Some? ==> e.value in {ReservedNode, NotFound}
  {
    if n == ROOT || n == TRASH then Some(ReservedNode)
    else if n !in t then Some(NotFound)
    else None
  }

  /** Why `delete_file` refuses the child it found. */
  function DeleteFileRefused(t: Forest, n: NodeId): (e: Option<FsError>)
    requires n in t
    ensures e == Some(NotFound) <==> n != ROOT && t[n].parent == TRASH
    ensures e == Some(IsADirectory) <==> n == ROOT || (t[n].parent != TRASH && t[n].meta.Directory?)
    ensures e == Some(ReservedNode) <==> n == TRASH && t[n].parent != TRASH && !t[n].meta.Directory?
    ensures e.None? <==> n != ROOT && n != TRASH && t[n].parent != TRASH && !t[n].meta.Directory?
  {
    match Metadata(t, n)
    case None => Some(NotFound)
    case Some(meta) => if meta.Directory? then Some(IsADirectory) else DeleteNodeRefused(t, n)
  }

  /** Why `delete_directory` refuses the child it found. */
  function DeleteDirectoryRefused(t: Forest, n: NodeId): (e: Option<FsError>)
    requires n in t
    ensures var visible := n == ROOT || t[n].parent != TRASH; var directory := n == ROOT || t[n].meta.Directory?;
            && (e == Some(NotFound) <==> !visible)
            && (e == Some(NotADirectory) <==> visible && !directory)
            && (e == Some(DirectoryNotEmpty) <==> visible && directory && exists x :: x in t && t[x].parent == n)
            && (e == Some(ReservedNode) <==>
                 visible && directory && (forall x :: x in t ==> t[x].parent != n) && (n == ROOT || n == TRASH))
            && (e.None? <==>
                 visible && directory && (forall x :: x in t ==> t[x].parent != n) && n != ROOT && n != TRASH)
  {
    assert Children(t, n) != {} ==> exists x :: x in Children(t, n);
    assert forall x :: x in Children(t, n) <==> x in t && t[x].parent == n;
    match Metadata(t, n)
    case None => Some(NotFound)
    case Some(meta) =>
      if !meta.Directory? then Some(NotADirectory)
      else if Children(t, n) != {} then Some(DirectoryNotEmpty)
      else DeleteNodeRefused(t, n)
  }

  function Outcome(refused: Option<FsError>, n: NodeId): Result<NodeId> {
    match refused
    case Some(error) => Err(error)
    case None => Ok(n)
  }

  /** The node is the only child with the name. */
  ghost predicate OnlyChildNamed(t: Forest, parent: NodeId, name: string, n: NodeId) {
    ChildNamed(t, parent, name, n) && forall m :: ChildNamed(t, parent, name, m) ==> m == n
  }

  function WrittenMove(sha: Sha, t: Forest, n: NodeId, size: nat, pieces: seq<Bytes>): Move
    requires n in t
  {
    Move(t[n].parent, RegularFile(NameOf(t[n].meta), size, References(sha, pieces)), n)
  }

  function TruncatedMove(t: Forest, n: NodeId, newSize: nat): Move
    requires n in t && t[n].meta.RegularFile?
  {
    Move(t[n].parent, RegularFile(NameOf(t[n].meta), newSize, Truncate(t[n].meta.chunkRefs, newSize)), n)
  }

  /** Both rewrites keep place and name, so what is proved of such mutations holds of them. */
  lemma RewritesKeepPlaceAndName(sha: Sha, t: Forest, n: NodeId, size: nat, pieces: seq<Bytes>, newSize: nat)
    requires RewriteRefused(t, n).None?
    ensures RewriteMove(t, WrittenMove(sha, t, n, size, pieces)) && RewriteMove(t, TruncatedMove(t, n, newSize))
  {
    assert n in t && t[n].parent != TRASH;
  }

  function ReadResult(t: Forest, s: Store, n: NodeId, offset: nat, length: nat): Result<Bytes> {
    match RewriteRefused(t, n)
    case Some(error) => Err(error)
    case None => assert n in t; Ok(ReadBytes(s, t[n].meta.chunkRefs, t[n].meta.size, offset, length))
  }

  function MissingResult(t: Forest, s: Store, n: NodeId, offset: nat, length: nat): Result<seq<ChunkHash>> {
    match RewriteRefused(t, n)
    case Some(error) => Err(error)
    case None =>
      assert n in t;
      Ok(Missing(s, t[n].meta.chunkRefs, 0, offset, ReadEnd(offset, length, t[n].meta.size)))
  }

  class FileSystem {
    const tree: NodeTree
    const storage: ChunkStorage
    const nameToId: NameToId

    ghost predicate Valid()
      reads this, tree, storage
    {
      tree.Valid() && storage.Valid()
    }

    constructor (tree: NodeTree, storage: ChunkStorage, nameToId: NameToId)
      requires tree.Valid() && storage.Valid()
      ensures Valid() && this.tree == tree && this.storage == storage && this.nameToId == nameToId
    {
      this.tree := tree;
      this.storage := storage;
      this.nameToId := nameToId;
    }

    method ChildId(parent: NodeId, name: string) returns (r: Result<NodeId>)
      requires Valid()
      ensures r.Err? <==> NoChildNamed(tree.tree, parent, name)
      ensures r.Err? ==> r.error == NotFound
      ensures r.Ok? ==> ChildNamed(tree.tree, parent, name, r.value)
      ensures r.Ok? ==>
                r.value in tree.tree && tree.tree[r.value].parent == parent && tree.tree[r.value].meta.name == name
      ensures r.Err? <==>
                || (parent != ROOT && parent != TRASH && parent !in tree.tree)
                || forall n :: n in tree.tree ==> !(tree.tree[n].parent == parent && tree.tree[n].meta.name == name)
    {
      if !HasChildren(tree.tree, parent) {
        return Err(NotFound);
      }
      var t := tree.tree;
      var found := set n | n in t && t[n].parent == parent && NameOf(t[n].meta) == name;
      if found == {} {
        forall n | n in t ensures !(t[n].parent == parent && t[n].meta.name == name) { assert n !in found; }
        return Err(NotFound);
      }
      var n :| n in found;
      assert ChildNamed(t, parent, name, n);
      return Ok(n);
    }

    /** `create_directory`, `create_file` and `create_symlink` differ only in the metadata. */
    method CreateNode(parent: NodeId, name: string, meta: NodeMeta, now: nat) returns (r: Result<NodeId>)
      requires Valid() && NameOf(meta) == name
      modifies tree, tree.clock
      ensures Valid()
      ensures r.Ok? <==> NoChildNamed(old(tree.tree), parent, name)
      ensures r.Ok? <==>
                || (parent != ROOT && parent != TRASH && parent !in old(tree.tree))
                || forall n :: n in old(tree.tree) ==>
                     !(old(tree.tree)[n].parent == parent && old(tree.tree)[n].meta.name == name)
      ensures r.Err? ==> r.error == AlreadyExists && tree.View() == old(tree.View())
      ensures r.Ok? ==>
                && CreateMove(nameToId, old(tree.tree), Move(parent, meta, r.value))
                && tree.View() == Local(old(tree.View()), tree.peerId, Move(parent, meta, r.value), now)
    {
      var existing := ChildId(parent, name);
      if existing.Ok? {
        return Err(AlreadyExists);
      }
      var n := nameToId(parent, name);
      var _ := tree.CreateNode(Move(parent, meta, n), now);
      return Ok(n);
    }

    /** The result is decided by the child found; when no other child has the name, by the arguments. */
    method DeleteFile(parent: NodeId, name: string, now: nat) returns (r: Result<NodeId>)
      requires Valid()
      modifies tree, tree.clock
      ensures Valid()
      ensures NoChildNamed(old(tree.tree), parent, name) ==> r == Err(NotFound)
      ensures !NoChildNamed(old(tree.tree), parent, name) ==>
                exists n :: ChildNamed(old(tree.tree), parent, name, n)
                  && r == Outcome(DeleteFileRefused(old(tree.tree), n), n)
      ensures forall n :: OnlyChildNamed(old(tree.tree), parent, name, n) ==>
                r == Outcome(DeleteFileRefused(old(tree.tree), n), n)
      ensures r.Err? ==> tree.View() == old(tree.View())
      ensures r.Ok? ==>
                && ChildNamed(old(tree.tree), parent, name, r.value)
                && var m := Move(TRASH, old(tree.tree)[r.value].meta, r.value);
                   DeleteMove(old(tree.tree), m) && tree.View() == Local(old(tree.View()), tree.peerId, m, now)
    {
      var child := ChildId(parent, name);
      if child.Err? {
        return Err(NotFound);
      }
      ghost var before := tree.tree;
      assert ChildNamed(before, parent, name, child.value);
      var meta := Metadata(tree.tree, child.value);
      if meta.None? {
        return Err(NotFound);
      }
      if meta.value.Directory? {
        return Err(IsADirectory);
      }
      r := DeleteNode(child.value, now);
      assert r == Outcome(DeleteFileRefused(before, child.value), child.value);
    }

    method DeleteDirectory(parent: NodeId, name: string, now: nat) returns (r: Result<NodeId>)
      requires Valid()
      modifies tree, tree.clock
      ensures Valid()
      ensures NoChildNamed(old(tree.tree), parent, name) ==> r == Err(NotFound)
      ensures !NoChildNamed(old(tree.tree), parent, name) ==>
                exists n :: ChildNamed(old(tree.tree), parent, name, n)
                  && r == Outcome(DeleteDirectoryRefused(old(tree.tree), n), n)
      ensures forall n :: OnlyChildNamed(old(tree.tree), parent, name, n) ==>
                r == Outcome(DeleteDirectoryRefused(old(tree.tree), n), n)
      ensures r.Ok? ==> forall x :: x in old(tree.tree) ==> old(tree.tree)[x].parent != r.value
      ensures r.Err? ==> tree.View() == old(tree.View())
      ensures r.Ok? ==>
                && ChildNamed(old(tree.tree), parent, name, r.value)
                && var m := Move(TRASH, old(tree.tree)[r.value].meta, r.value);
                   DeleteMove(old(tree.tree), m) && tree.View() == Local(old(tree.View()), tree.peerId, m, now)
    {
      var child := ChildId(parent, name);
      if child.Err? {
        return Err(NotFound);
      }
      ghost var before := tree.tree;
      assert ChildNamed(before, parent, name, child.value);
      var meta := Metadata(tree.tree, child.value);
      if meta.None? {
        return Err(NotFound);
      }
      if !meta.value.Directory? {
        return Err(NotADirectory);
      }
      if Children(tree.tree, child.value) != {} {
        return Err(DirectoryNotEmpty);
      }
      r := DeleteNode(child.value, now);
      assert r == Outcome(DeleteDirectoryRefused(before, child.value), child.value);
    }

    /** `NodeTree::delete_node`. */
    method DeleteNode(n: NodeId, now: nat) returns (r: Result<NodeId>)
      requires Valid()
      modifies tree, tree.clock
      ensures Valid()
      ensures r == Outcome(DeleteNodeRefused(old(tree.tree), n), n)
      ensures r.Ok? ==> tree.View() == Local(old(tree.View()), tree.peerId, Move(TRASH, old(tree.tree)[n].meta, n), now)
      ensures r.Err? ==> tree.View() == old(tree.View())
    {
      if n == ROOT || n == TRASH {
        return Err(ReservedNode);
      }
      if n !in tree.tree {
        return Err(NotFound);
      }
      var _ := tree.CreateNode(Move(TRASH, tree.tree[n].meta, n), now);
      return Ok(n);
    }

    /** `None` is a rename to the same place and name, which stamps nothing. */
    method Rename(parent: NodeId, name: string, newParent: NodeId, newName: string, now: nat)
      returns (r: Result<Option<NodeId>>)
      requires Valid()
      modifies tree, tree.clock
      ensures Valid()
      ensures r == Ok(None) <==> !NoChildNamed(old(tree.tree), parent, name) && newParent == parent && newName == name
      ensures r == Err(AlreadyExists) <==>
                && !NoChildNamed(old(tree.tree), parent, name) && !(newParent == parent && newName == name)
                && !NoChildNamed(old(tree.tree), newParent, newName)
      ensures r.Err? ==> r.error in {NotFound, AlreadyExists}
      ensures NoChildNamed(old(tree.tree), parent, name) ==> r == Err(NotFound)
      ensures !NoChildNamed(old(tree.tree), parent, name) && NoChildNamed(old(tree.tree), newParent, newName) ==>
                exists n ::
                  && ChildNamed(old(tree.tree), parent, name, n)
                  && r == if n != ROOT && parent == TRASH then Err(NotFound) else Ok(Some(n))
      ensures r.Err? || r.value.None? ==> tree.View() == old(tree.View())
      ensures r.Ok? && r.value.Some? ==>
                var n, t := r.value.value, old(tree.tree);
                && ChildNamed(t, parent, name, n) && Metadata(t, n).Some?
                && var m := Move(newParent, Renamed(Metadata(t, n).value, newName), n);
                   && tree.View() == Local(old(tree.View()), tree.peerId, m, now)
                   && (n != ROOT ==> RenameMove(t, m))
    {
      var child := ChildId(parent, name);
      if child.Err? {
        return Err(NotFound);
      }
      ghost var before := tree.tree;
      assert ChildNamed(before, parent, name, child.value);
      var existing := ExistingChild(child.value, parent, name, newParent, newName);
      if existing.Ok? && existing.value != child.value {
        return Err(AlreadyExists);
      }
      if newParent == parent && newName == name {
        return Ok(None);
      }
      var meta := Metadata(tree.tree, child.value);
      if meta.None? {
        return Err(NotFound);
      }
      var _ := tree.MoveNode(Move(newParent, Renamed(meta.value, newName), child.value), now);
      return Ok(Some(child.value));
    }

    /** The second lookup of `rename`; repeating the first one finds the same child again. */
    method ExistingChild(child: NodeId, parent: NodeId, name: string, newParent: NodeId, newName: string)
      returns (r: Result<NodeId>)
      requires Valid() && ChildNamed(tree.tree, parent, name, child)
      ensures newParent == parent && newName == name ==> r == Ok(child)
      ensures r.Err? <==> NoChildNamed(tree.tree, newParent, newName)
      ensures r.Ok? ==> ChildNamed(tree.tree, newParent, newName, r.value)
    {
      if newParent == parent && newName == name {
        return Ok(child);
      }
      r := ChildId(newParent, newName);
    }

    method WriteFile(n: NodeId, data: Bytes, pieces: seq<Bytes>, now: nat) returns (r: Result<()>)
      requires Valid() && IsSplit(data, pieces)
      modifies tree, tree.clock, storage
      ensures Valid()
      ensures var t, s := old(tree.tree), old(storage.view); var sha := storage.sha;
              if RewriteRefused(t, n).Some? then
                r == Err(RewriteRefused(t, n).value) && tree.View() == old(tree.View()) && storage.view == s
              else if StorageModel.TryPin(sha, s, pieces).None? then
                r == Err(StorageFull) && tree.View() == old(tree.View()) && storage.view == s
              else
                r == Ok(()) && storage.view == StorageModel.TryPin(sha, s, pieces).value
                && tree.View() == Local(old(tree.View()), tree.peerId, WrittenMove(sha, t, n, |data|, pieces), now)
    {
      var refused := RewriteRefused(tree.tree, n);
      if refused.Some? {
        return Err(refused.value);
      }
      var refs := References(storage.sha, pieces);
      var pinned := storage.TryPin(pieces);
      if !pinned {
        return Err(StorageFull);
      }
      var node := tree.tree[n];
      var _ := tree.MoveNode(Move(node.parent, RegularFile(NameOf(node.meta), |data|, refs), n), now);
      return Ok(());
    }

    method TruncateFile(n: NodeId, newSize: nat, now: nat) returns (r: Result<()>)
      requires Valid()
      modifies tree, tree.clock
      ensures Valid()
      ensures var t := old(tree.tree);
              if RewriteRefused(t, n).Some? then
                r == Err(RewriteRefused(t, n).value) && tree.View() == old(tree.View())
              else
                r == Ok(()) && tree.View() == Local(old(tree.View()), tree.peerId, TruncatedMove(t, n, newSize), now)
    {
      var refused := RewriteRefused(tree.tree, n);
      if refused.Some? {
        return Err(refused.value);
      }
      var node := tree.tree[n];
      var refs := TruncateRefs(node.meta.chunkRefs, newSize);
      var _ := tree.MoveNode(Move(node.parent, RegularFile(NameOf(node.meta), newSize, refs), n), now);
      return Ok(());
    }

    method ReadFile(n: NodeId, offset: nat, length: nat) returns (r: Result<Bytes>)
      requires Valid()
      modifies storage
      ensures Valid()
      ensures r == ReadResult(tree.tree, old(storage.view), n, offset, length)
      ensures r.Err? ==> storage.view == old(storage.view)
      ensures r.Ok? ==>
                var node := tree.tree[n]; var readEnd := ReadEnd(offset, length, node.meta.size);
                storage.view == if offset >= readEnd then old(storage.view)
                                else TouchAll(old(storage.view), Consulted(node.meta.chunkRefs, 0, offset, readEnd))
    {
      var refused := RewriteRefused(tree.tree, n);
      if refused.Some? {
        return Err(refused.value);
      }
      var meta := tree.tree[n].meta;
      var readEnd := ReadEnd(offset, length, meta.size);
      if offset >= readEnd {
        return Ok([]);
      }
      var output := ReadLoop(meta.chunkRefs, offset, readEnd);
      return Ok(output);
    }

    method ReadLoop(refs: seq<ChunkRef>, offset: nat, readEnd: nat) returns (output: Bytes)
      requires Valid() && offset < readEnd
      modifies storage
      ensures Valid()
      ensures output == ReadFrom(old(storage.view), refs, 0, offset, readEnd)
      ensures storage.view == TouchAll(old(storage.view), Consulted(refs, 0, offset, readEnd))
    {
      hide Touch, Part, ChunkData;
      ghost var start := storage.view;
      output := [];
      var chunkStart: nat, rest := 0, refs;
      while rest != []
        invariant Valid() && SameData(start, storage.view)
        invariant output + ReadFrom(start, rest, chunkStart, offset, readEnd) ==
                  ReadFrom(start, refs, 0, offset, readEnd)
        invariant TouchAll(storage.view, Consulted(rest, chunkStart, offset, readEnd))
                  == TouchAll(start, Consulted(refs, 0, offset, readEnd))
        decreases |rest|
      {
        var ref := rest[0];
        var chunkEnd := chunkStart + ref.size;
        if chunkEnd <= offset {
          SkipStep(start, rest, chunkStart, offset, readEnd);
        } else if chunkStart >= readEnd {
          return;
        } else {
          ConsultStep(start, storage.view, rest, chunkStart, offset, readEnd, output);
          var data := ReadChunk(ref);
          output := output + Part(data, ref.size, chunkStart, offset, readEnd);
        }
        chunkStart, rest := chunkEnd, rest[1..];
      }
    }

    /** An absent chunk reads as zeros. */
    method ReadChunk(ref: ChunkRef) returns (data: Bytes)
      requires Valid()
      modifies storage
      ensures Valid() && data == ChunkData(old(storage.view), ref)
      ensures storage.view == Touch(old(storage.view), ref.hash) && SameData(old(storage.view), storage.view)
    {
      var stored := storage.Get(ref.hash);
      data := if stored.Some? then stored.value else Zeros(ref.size);
    }

    method MissingChunkHashesFor(n: NodeId, offset: nat, length: nat) returns (r: Result<seq<ChunkHash>>)
      requires Valid()
      ensures r == MissingResult(tree.tree, storage.view, n, offset, length)
    {
      var refused := RewriteRefused(tree.tree, n);
      if refused.Some? {
        return Err(refused.value);
      }
      var refs := tree.tree[n].meta.chunkRefs;
      var readEnd := ReadEnd(offset, length, tree.tree[n].meta.size);
      var missing, chunkStart: nat, rest := [], 0, refs;
      while rest != []
        invariant missing + Missing(storage.view, rest, chunkStart, offset, readEnd)
                  == Missing(storage.view, refs, 0, offset, readEnd)
        decreases |rest|
      {
        MissingStep(storage.view, rest, chunkStart, offset, readEnd, missing);
        var chunkEnd := chunkStart + rest[0].size;
        if chunkStart < readEnd && chunkEnd > offset && rest[0].hash !in storage.chunks {
          missing := missing + [rest[0].hash];
        }
        chunkStart, rest := chunkEnd, rest[1..];
        if chunkStart >= readEnd {
          return Ok(missing);
        }
      }
      assert missing + Missing(storage.view, [], chunkStart, offset, readEnd) == missing;
      return Ok(missing);
    }

    method ReachableChunkHashes() returns (reachable: set<ChunkHash>)
      requires Valid()
      ensures forall h :: h in reachable <==> IsReachable(tree.tree, h)
      ensures forall h :: h in reachable <==> exists n, k: nat, i: nat :: ReferencedBelowRoot(tree.tree, h, n, k, i)
    {
      var t := tree.tree;
      reachable := {};
      var visited, queue := {ROOT}, [ROOT];
      assert LiveDirectoryAt(t, ROOT, 0);
      while queue != []
        invariant Explored(t, visited, ToSet(queue), reachable)
        invariant NoDuplicates(queue)
        decreases |t.Keys - visited|, |queue|
      {
        var n := queue[0];
        assert queue == [n] + queue[1..];
        ghost var before := visited;
        reachable, visited, queue := Expand(t, n, reachable, visited, queue[1..]);
        FewerToVisit(t, before, visited);
      }
      ExploredIsExact(t, visited, reachable);
      forall h ensures IsReachable(t, h) <==> exists n, k: nat, i: nat :: ReferencedBelowRoot(t, h, n, k, i) {
        ReachableMeaning(t, h);
      }
    }

    /** Expands one directory: its children that were not visited are recorded or queued. */
    method Expand(t: Forest, n: NodeId, reachable: set<ChunkHash>, visited: set<NodeId>, queue: seq<NodeId>)
      returns (reachable': set<ChunkHash>, visited': set<NodeId>, queue': seq<NodeId>)
      requires Explored(t, visited, ToSet(queue) + {n}, reachable)
      requires NoDuplicates(queue) && n !in queue
      ensures Explored(t, visited', ToSet(queue'), reachable') && NoDuplicates(queue')
      ensures visited < visited' <= visited + t.Keys || (visited' == visited && queue' == queue)
    {
      reachable', visited', queue' := reachable, visited, queue;
      var todo := if HasChildren(t, n) then Children(t, n) else {};
      while todo != {}
        invariant todo <= Children(t, n)
        invariant NoDuplicates(queue') && n !in queue' && n in visited'
        invariant visited < visited' <= visited + t.Keys || (visited' == visited && queue' == queue)
        invariant Explored(t, visited', ToSet(queue') + {n}, reachable')
        invariant forall c :: c in Children(t, n) && c != TRASH ==> c in visited' || c in todo
        decreases todo
      {
        var child :| child in todo;
        todo := todo - {child};
        if child != TRASH && child !in visited' {
          reachable', visited', queue' := Visit(t, n, child, reachable', visited', queue');
        }
      }
    }

    method Visit(t: Forest, n: NodeId, child: NodeId, reachable: set<ChunkHash>, visited: set<NodeId>,
                 queue: seq<NodeId>)
      returns (reachable': set<ChunkHash>, visited': set<NodeId>, queue': seq<NodeId>)
      requires Explored(t, visited, ToSet(queue) + {n}, reachable)
      requires NoDuplicates(queue) && n !in queue && child in Children(t, n) && child != TRASH && child !in visited
      ensures Explored(t, visited', ToSet(queue') + {n}, reachable')
      ensures NoDuplicates(queue') && n !in queue' && visited' == visited + {child}
    {
      reachable', visited', queue' := reachable, visited + {child}, queue;
      match t[child].meta
      case RegularFile(_, _, refs) =>
        reachable' := reachable + Hashes(refs);
        assert LiveFile(t, child);
      case Directory(_) =>
        LiveBelow(t, child);
        queue' := queue + [child];
        assert ToSet(queue') == ToSet(queue) + {child};
      case Symlink(_, _) =>
    }
  }

  lemma FewerToVisit(t: Forest, before: set<NodeId>, after: set<NodeId>)
    requires before <= after <= before + t.Keys
    ensures before < after ==> |t.Keys - after| < |t.Keys - before|
  {
    SubsetCardinality(t.Keys - after, t.Keys - before);
    if before < after {
      assert !(after <= before);
      var x :| x in after && x !in before;
      assert x in (t.Keys - before) - (t.Keys - after);
    }
  }
}
