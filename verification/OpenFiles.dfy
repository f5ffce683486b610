/** Buffers of open file handles (src/fuse/open_file.rs). */
module OpenFiles {
  import opened Domain

  type FileHandle = nat

  datatype OpenFile = OpenFile(meta: NodeMeta, buffer: Option<Bytes>, dirty: bool)

  type Table = map<FileHandle, OpenFile>

  datatype WriteResult = Written(count: nat) | BadHandle | TooBig

  /** `resize` with zeros up to the end of the write, then copy the data in. */
  function WriteAt(buffer: Bytes, offset: nat, data: Bytes): Bytes {
    var end := offset + |data|;
    var padded := if end > |buffer| then buffer + Zeros(end - |buffer|) else buffer;
    padded[..offset] + data + padded[end..]
  }

  function GrownMeta(meta: NodeMeta, end: nat): NodeMeta {
    if meta.RegularFile? then meta.(size := Max(meta.size, end)) else meta
  }

  datatype TableOp =
    | Create(fh: FileHandle, meta: NodeMeta)
    | Open(fh: FileHandle, meta: NodeMeta)
    | SetBuffer(fh: FileHandle, data: Bytes)
    | Write(fh: FileHandle, offset: nat, data: Bytes)
    | Release(fh: FileHandle)

  predicate Writable(t: Table, fh: FileHandle) { fh in t && t[fh].buffer.Some? }

  function Apply(t: Table, op: TableOp): Table {
    match op
    case Create(fh, meta) => t[fh := OpenFile(meta, Some([]), false)]
    case Open(fh, meta) => t[fh := OpenFile(meta, None, false)]
    case SetBuffer(fh, data) => if fh in t then t[fh := t[fh].(buffer := Some(data))] else t
    case Write(fh, offset, data) =>
      if Writable(t, fh) && offset + |data| <= U64_MAX then
        t[fh := OpenFile(GrownMeta(t[fh].meta, offset + |data|), Some(WriteAt(t[fh].buffer.value, offset, data)), true)]
      else t
    case Release(fh) => t - {fh}
  }

  /** What `release_file` hands back: the buffer of a handle that was written to. */
  function Released(t: Table, fh: FileHandle): Option<Bytes> {
    if fh in t && t[fh].dirty then t[fh].buffer else None
  }

  class OpenFileManager {
    var files: Table

    constructor ()
      ensures files == map[]
    {
      files := map[];
    }

    method CreateFile(fh: FileHandle, meta: NodeMeta)
      modifies this
      ensures files == Apply(old(files), TableOp.Create(fh, meta))
    {
      files := files[fh := OpenFile(meta, Some([]), false)];
    }

    method OpenHandle(fh: FileHandle, meta: NodeMeta)
      modifies this
      ensures files == Apply(old(files), TableOp.Open(fh, meta))
    {
      files := files[fh := OpenFile(meta, None, false)];
    }

    method ReleaseFile(fh: FileHandle) returns (r: Option<Bytes>)
      modifies this
      ensures files == Apply(old(files), TableOp.Release(fh))
      ensures r == Released(old(files), fh)
    {
      if fh !in files {
        assert files - {fh} == files;
        return None;
      }
      var session := files[fh];
      files := files - {fh};
      if !session.dirty {
        return None;
      }
      return session.buffer;
    }

    method Read(fh: FileHandle, offset: nat, length: nat) returns (r: Option<Bytes>)
      requires offset <= U64_MAX
      ensures r.None? <==> !Writable(files, fh)
      ensures r.Some? ==>
                var buffer := files[fh].buffer.value; var end := Min(SaturatingAdd(offset, length), |buffer|);
                r.value == if offset < end then buffer[offset..end] else []
    {
      if fh !in files || files[fh].buffer.None? {
        return None;
      }
      var buffer := files[fh].buffer.value;
      if offset >= |buffer| {
        return Some([]);
      }
      var end := Min(SaturatingAdd(offset, length), |buffer|);
      return Some(buffer[offset..end]);
    }

    method WriteBytes(fh: FileHandle, offset: nat, data: Bytes) returns (r: WriteResult)
      modifies this
      ensures files == Apply(old(files), TableOp.Write(fh, offset, data))
      ensures r == if !Writable(old(files), fh) then BadHandle
                   else if offset + |data| > U64_MAX then TooBig
                   else Written(|data|)
    {
      if fh !in files || files[fh].buffer.None? {
        return BadHandle;
      }
      var end := offset + |data|;
      if end > U64_MAX {
        return TooBig;
      }
      var buffer := files[fh].buffer.value;
      if end > |buffer| {
        buffer := buffer + Zeros(end - |buffer|);
      }
      buffer := buffer[..offset] + data + buffer[end..];
      files := files[fh := OpenFile(GrownMeta(files[fh].meta, end), Some(buffer), true)];
      return Written(|data|);
    }

    method Metadata(fh: FileHandle) returns (r: Option<NodeMeta>)
      ensures r == if fh in files then Some(files[fh].meta) else None
    {
      if fh !in files {
        return None;
      }
      return Some(files[fh].meta);
    }

    /** Whether a buffer has to be loaded first; `None` is a bad handle. */
    method NeedsBuffer(fh: FileHandle) returns (r: Option<bool>)
      ensures r == if fh !in files then None else Some(!Writable(files, fh))
    {
      if fh !in files {
        return None;
      }
      return Some(files[fh].buffer.None?);
    }

    method SetBufferOf(fh: FileHandle, data: Bytes)
      modifies this
      ensures files == Apply(old(files), TableOp.SetBuffer(fh, data))
    {
      if fh in files {
        files := files[fh := files[fh].(buffer := Some(data))];
      }
    }
  }

  // ---------------------------------------------------------------- what a buffer means

  datatype Patch = Patch(offset: nat, data: Bytes)

  function End(p: Patch): nat { p.offset + |p.data| }

  function Overlay(base: Bytes, patches: seq<Patch>): Bytes {
    if patches == [] then base
    else
      var p := patches[|patches| - 1];
      WriteAt(Overlay(base, patches[..|patches| - 1]), p.offset, p.data)
  }

  predicate Covered(p: Patch, i: nat) { p.offset <= i < End(p) }

  /** The byte the latest covering write put there, else the base, else zero. */
  function ByteAt(base: Bytes, patches: seq<Patch>, i: nat): Byte {
    if patches == [] then (if i < |base| then base[i] else 0)
    else
      var p := patches[|patches| - 1];
      if Covered(p, i) then p.data[i - p.offset] else ByteAt(base, patches[..|patches| - 1], i)
  }

  function Extent(base: Bytes, patches: seq<Patch>): nat {
    if patches == [] then |base| else Max(Extent(base, patches[..|patches| - 1]), End(patches[|patches| - 1]))
  }

  lemma {:induction false} ZeroBeyondExtent(base: Bytes, patches: seq<Patch>, i: nat)
    requires i >= Extent(base, patches)
    ensures ByteAt(base, patches, i) == 0
  {
    if patches != [] {
      ZeroBeyondExtent(base, patches[..|patches| - 1], i);
    }
  }

  /**
   * A buffer is its base overlaid by the writes in order: it ends where the last byte does,
   * every byte is the latest one written there, and gaps read as zero.
   */
  lemma {:induction false} OverlayMeaning(base: Bytes, patches: seq<Patch>)
    ensures |Overlay(base, patches)| == Extent(base, patches)
    ensures forall i :: 0 <= i < Extent(base, patches) ==> Overlay(base, patches)[i] == ByteAt(base, patches, i)
  {
    if patches != [] {
      var front, p := patches[..|patches| - 1], patches[|patches| - 1];
      OverlayMeaning(base, front);
      var before, after := Overlay(base, front), Overlay(base, patches);
      assert |after| == Max(|before|, End(p));
      forall i | 0 <= i < |after|
        ensures after[i] == ByteAt(base, patches, i)
      {
        if !Covered(p, i) && i >= |before| {
          ZeroBeyondExtent(base, front, i);
        }
      }
    }
  }

  // ---------------------------------------------------------------- serial use of one handle

  function Run(t: Table, ops: seq<TableOp>): Table {
    if ops == [] then t else Apply(Run(t, ops[..|ops| - 1]), ops[|ops| - 1])
  }

  /** The writes to one handle, in order; one that would pass 2^64 is refused and has no effect. */
  function PatchesOf(fh: FileHandle, ops: seq<TableOp>): seq<Patch> {
    if ops == [] then []
    else
      var rest, op := PatchesOf(fh, ops[..|ops| - 1]), ops[|ops| - 1];
      if op.Write? && op.fh == fh && op.offset + |op.data| <= U64_MAX then rest + [Patch(op.offset, op.data)] else rest
  }

  /**
   * Whatever happens to the other handles, the buffer released from a handle is the one it
   * was given overlaid by the writes made through that handle.
   */
  lemma {:induction false} ReleasedIsOverlay(t: Table, fh: FileHandle, ops: seq<TableOp>)
    requires Writable(t, fh)
    requires forall i :: 0 <= i < |ops| && ops[i].fh == fh ==> ops[i].Write?
    ensures Writable(Run(t, ops), fh)
    ensures Run(t, ops)[fh].buffer.value == Overlay(t[fh].buffer.value, PatchesOf(fh, ops))
    ensures Run(t, ops)[fh].dirty <==> t[fh].dirty || PatchesOf(fh, ops) != []
    ensures PatchesOf(fh, ops) != [] ==>
              Released(Run(t, ops), fh) == Some(Overlay(t[fh].buffer.value, PatchesOf(fh, ops)))
  {
    if ops != [] {
      var front, op := ops[..|ops| - 1], ops[|ops| - 1];
      ReleasedIsOverlay(t, fh, front);
      var before := PatchesOf(fh, front);
      if PatchesOf(fh, ops) != before {
        assert PatchesOf(fh, ops)[..|before|] == before;
      }
    }
  }

  // ---------------------------------------------------------------- the life of a handle

  ghost predicate LeaveAlone(fh: FileHandle, ops: seq<TableOp>) {
    forall i :: 0 <= i < |ops| ==> ops[i].fh != fh
  }

  ghost predicate OnlyWriteTo(fh: FileHandle, ops: seq<TableOp>) {
    forall i :: 0 <= i < |ops| && ops[i].fh == fh ==> ops[i].Write?
  }

  lemma {:induction false} OthersLeaveAlone(t: Table, fh: FileHandle, ops: seq<TableOp>)
    requires LeaveAlone(fh, ops)
    ensures (fh in Run(t, ops) <==> fh in t) && (fh in t ==> Run(t, ops)[fh] == t[fh])
  {
    if ops != [] {
      OthersLeaveAlone(t, fh, ops[..|ops| - 1]);
    }
  }

  /** What `release_file` returns for base `b` and the given writes: nothing if there were none. */
  ghost predicate HandsBack(r: Option<Bytes>, b: Bytes, patches: seq<Patch>) {
    && (r.Some? <==> patches != [])
    && (r.Some? ==>
          && |r.value| == Extent(b, patches)
          && forall i :: 0 <= i < |r.value| ==> r.value[i] == ByteAt(b, patches, i))
  }

  /**
   * A handle that is opened and then loaded with `b`: until it is released it is writable,
   * its release hands back `b` overlaid by its writes, or nothing if there were none, and
   * closes it.  Operations on other handles may come at any point.
   */
  lemma LoadedHandleLife(t: Table, fh: FileHandle, meta: NodeMeta, between: seq<TableOp>, b: Bytes, ops: seq<TableOp>)
    requires LeaveAlone(fh, between) && OnlyWriteTo(fh, ops)
    ensures var loaded := Apply(Run(Apply(t, Open(fh, meta)), between), SetBuffer(fh, b));
            var last := Run(loaded, ops);
            && Writable(last, fh) && HandsBack(Released(last, fh), b, PatchesOf(fh, ops))
            && fh !in Apply(last, Release(fh))
  {
    var loaded := Apply(Run(Apply(t, Open(fh, meta)), between), SetBuffer(fh, b));
    OthersLeaveAlone(Apply(t, Open(fh, meta)), fh, between);
    ReleasedIsOverlay(loaded, fh, ops);
    OverlayMeaning(b, PatchesOf(fh, ops));
  }

  /** A created handle is loaded from the start, with nothing. */
  lemma CreatedHandleLife(t: Table, fh: FileHandle, meta: NodeMeta, ops: seq<TableOp>)
    requires OnlyWriteTo(fh, ops)
    ensures var last := Run(Apply(t, Create(fh, meta)), ops);
            && Writable(last, fh) && HandsBack(Released(last, fh), [], PatchesOf(fh, ops))
            && fh !in Apply(last, Release(fh))
  {
    ReleasedIsOverlay(Apply(t, Create(fh, meta)), fh, ops);
    OverlayMeaning([], PatchesOf(fh, ops));
  }

  /** A handle that is never loaded takes no writes and hands nothing back. */
  lemma {:induction false} UnloadedHandleLife(t: Table, fh: FileHandle, meta: NodeMeta, ops: seq<TableOp>)
    requires OnlyWriteTo(fh, ops)
    ensures var last := Run(Apply(t, Open(fh, meta)), ops);
            fh in last && !Writable(last, fh) && last[fh].meta == meta && Released(last, fh) == None
  {
    if ops != [] {
      UnloadedHandleLife(t, fh, meta, ops[..|ops| - 1]);
    }
  }

  lemma ReportStep(t: Table, fh: FileHandle, op: TableOp)
    requires Writable(t, fh) && (op.fh == fh ==> op.Write?)
    ensures fh in Apply(t, op)
    ensures Apply(t, op)[fh].meta ==
            if op.fh == fh && op.offset + |op.data| <= U64_MAX then GrownMeta(t[fh].meta, op.offset + |op.data|)
            else t[fh].meta
  {
  }

  lemma NothingReported(t: Table, fh: FileHandle)
    ensures Run(t, []) == t
    ensures forall base :: Extent(base, PatchesOf(fh, [])) == |base|
  {
  }

  lemma LastReported(t: Table, fh: FileHandle, ops: seq<TableOp>)
    requires ops != [] && (ops[|ops| - 1].fh == fh ==> ops[|ops| - 1].Write?)
    ensures var front, last := ops[..|ops| - 1], ops[|ops| - 1];
            && Run(t, ops) == Apply(Run(t, front), last)
            && forall base :: Extent(base, PatchesOf(fh, ops)) ==
                 if last.fh == fh && last.offset + |last.data| <= U64_MAX
                 then Max(Extent(base, PatchesOf(fh, front)), last.offset + |last.data|)
                 else Extent(base, PatchesOf(fh, front))
  {
    var before := PatchesOf(fh, ops[..|ops| - 1]);
    if PatchesOf(fh, ops) != before {
      assert PatchesOf(fh, ops)[..|before|] == before;
    }
  }

  /** The size a handle reports grows with its writes as a file of that size would; nothing else changes. */
  lemma {:induction false} ReportedSizeGrows(t: Table, fh: FileHandle, ops: seq<TableOp>)
    requires Writable(t, fh) && OnlyWriteTo(fh, ops)
    ensures fh in Run(t, ops)
    ensures var before, after := t[fh].meta, Run(t, ops)[fh].meta;
            if before.RegularFile?
            then after == RegularFile(before.name, Extent(Zeros(before.size), PatchesOf(fh, ops)), before.chunkRefs)
            else after == before
  {
    hide Run, PatchesOf, Extent, Apply, Released, ByteAt;
    if ops == [] {
      NothingReported(t, fh);
    } else {
      var front, last := ops[..|ops| - 1], ops[|ops| - 1];
      ReportedSizeGrows(t, fh, front);
      ReleasedIsOverlay(t, fh, front);
      LastReported(t, fh, ops);
      ReportStep(Run(t, front), fh, last);
    }
  }
}
