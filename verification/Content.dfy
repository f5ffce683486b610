/**
 * File content as a list of chunk references: `truncate` of src/filesystem/chunk.rs and the
 * offset arithmetic of `read_file` and `missing_chunk_hashes_for` in src/filesystem/mod.rs.
 */
module Content {
  import opened Domain
  import opened StorageModel

  function Sum(refs: seq<ChunkRef>): nat {
    if refs == [] then 0 else refs[0].size + Sum(refs[1..])
  }

  /** The stored bytes of a chunk, or the zero filler `read_file` substitutes. */
  function ChunkData(s: Store, ref: ChunkRef): Bytes {
    match Lookup(s, ref.hash)
    case Some(data) => data
    case None => Zeros(ref.size)
  }

  /** Stored bytes are at least as long as the reference says; a cut reference uses fewer. */
  ghost predicate Covers(s: Store, refs: seq<ChunkRef>) {
    forall i :: 0 <= i < |refs| ==> |ChunkData(s, refs[i])| >= refs[i].size
  }

  /** The content of a file: each reference contributes its first `size` bytes. */
  function Concat(s: Store, refs: seq<ChunkRef>): Bytes {
    if refs == [] then []
    else
      var data := ChunkData(s, refs[0]);
      data[..Min(refs[0].size, |data|)] + Concat(s, refs[1..])
  }

  lemma {:induction false} ConcatLength(s: Store, refs: seq<ChunkRef>)
    requires Covers(s, refs)
    ensures |Concat(s, refs)| == Sum(refs)
  {
    if refs != [] {
      CoversTail(s, refs);
      ConcatLength(s, refs[1..]);
    }
  }

  lemma CoversTail(s: Store, refs: seq<ChunkRef>)
    requires Covers(s, refs) && refs != []
    ensures Covers(s, refs[1..]) && |ChunkData(s, refs[0])| >= refs[0].size
  {
    assert forall i :: 0 <= i < |refs| - 1 ==> refs[1..][i] == refs[i + 1];
  }

  lemma ConcatStep(s: Store, refs: seq<ChunkRef>)
    requires refs != [] && |ChunkData(s, refs[0])| >= refs[0].size
    ensures Concat(s, refs) == ChunkData(s, refs[0])[..refs[0].size] + Concat(s, refs[1..])
  {
  }

  // ---------------------------------------------------------------- truncate

  function Truncate(refs: seq<ChunkRef>, newSize: nat): seq<ChunkRef> {
    if refs == [] || newSize == 0 then []
    else if refs[0].size <= newSize then [refs[0]] + Truncate(refs[1..], newSize - refs[0].size)
    else [ChunkRef(refs[0].hash, newSize)]
  }

  method TruncateRefs(refs: seq<ChunkRef>, newSize: nat) returns (result: seq<ChunkRef>)
    ensures result == Truncate(refs, newSize)
  {
    result := [];
    var remaining: nat := newSize;
    var i := 0;
    while i < |refs|
      invariant 0 <= i <= |refs|
      invariant result + Truncate(refs[i..], remaining) == Truncate(refs, newSize)
    {
      if remaining == 0 {
        return;
      }
      assert refs[i..][0] == refs[i] && refs[i..][1..] == refs[i + 1..];
      if refs[i].size <= remaining {
        result := result + [refs[i]];
        remaining := remaining - refs[i].size;
      } else {
        return result + [ChunkRef(refs[i].hash, remaining)];
      }
      i := i + 1;
    }
  }

  /** Truncation keeps exactly the first `n` bytes and never invents any. */
  lemma {:induction false} TruncateKeepsPrefix(s: Store, refs: seq<ChunkRef>, n: nat)
    requires Covers(s, refs)
    ensures Covers(s, Truncate(refs, n))
    ensures Sum(Truncate(refs, n)) == Min(n, Sum(refs))
    ensures |Concat(s, refs)| == Sum(refs)
    ensures Concat(s, Truncate(refs, n)) == Concat(s, refs)[..Min(n, Sum(refs))]
    decreases |refs|
  {
    ConcatLength(s, refs);
    if refs != [] && n != 0 {
      CoversTail(s, refs);
      var first := ChunkData(s, refs[0])[..refs[0].size];
      var rest := Concat(s, refs[1..]);
      PrefixOfConcat(first, rest, Min(n, Sum(refs)));
      if refs[0].size <= n {
        var cut := Truncate(refs[1..], n - refs[0].size);
        TruncateKeepsPrefix(s, refs[1..], n - refs[0].size);
        ConsRef(s, refs[0], cut);
      } else {
        CutReference(s, refs[0], n);
      }
    }
  }

  /** A cut keeps the digests of a first part of the references, and makes no reference empty. */
  lemma {:induction false} TruncateKeepsFirstReferences(refs: seq<ChunkRef>, n: nat)
    ensures var cut := Truncate(refs, n);
            && |cut| <= |refs|
            && (forall i :: 0 <= i < |cut| ==> cut[i].hash == refs[i].hash && cut[i].size <= refs[i].size)
            && ((forall i :: 0 <= i < |refs| ==> refs[i].size > 0) ==> forall i :: 0 <= i < |cut| ==> cut[i].size > 0)
    decreases |refs|
  {
    if refs != [] && n != 0 && refs[0].size <= n {
      TruncateKeepsFirstReferences(refs[1..], n - refs[0].size);
      assert forall i :: 0 <= i < |refs| - 1 ==> refs[1..][i] == refs[i + 1];
    }
  }

  lemma ConsRef(s: Store, ref: ChunkRef, refs: seq<ChunkRef>)
    requires |ChunkData(s, ref)| >= ref.size
    ensures Covers(s, refs) ==> Covers(s, [ref] + refs)
    ensures Sum([ref] + refs) == ref.size + Sum(refs)
    ensures Concat(s, [ref] + refs) == ChunkData(s, ref)[..ref.size] + Concat(s, refs)
  {
    assert ([ref] + refs)[1..] == refs;
  }

  /** The cut reference keeps the digest of the full chunk and uses its first `n` bytes. */
  lemma CutReference(s: Store, ref: ChunkRef, n: nat)
    requires n < ref.size <= |ChunkData(s, ref)|
    ensures var cut := [ChunkRef(ref.hash, n)];
            Covers(s, cut) && Sum(cut) == n && Concat(s, cut) == ChunkData(s, ref)[..ref.size][..n]
  {
    var cut := ChunkRef(ref.hash, n);
    if Lookup(s, ref.hash).None? {
      assert Zeros(n) == Zeros(ref.size)[..n];
    }
    assert Concat(s, [cut]) == ChunkData(s, cut)[..n] + Concat(s, []);
  }

  lemma PrefixOfConcat(a: Bytes, b: Bytes, n: nat)
    requires n <= |a + b|
    ensures (a + b)[..n] == if n <= |a| then a[..n] else a + b[..n - |a|]
  {
  }

  /** Cutting twice is cutting once, at the smaller size. */
  lemma {:induction false} TruncateComposes(refs: seq<ChunkRef>, a: nat, b: nat)
    ensures Truncate(Truncate(refs, a), b) == Truncate(refs, Min(a, b))
    decreases |refs|
  {
    if refs != [] && a != 0 && b != 0 {
      if refs[0].size <= a {
        var cut := Truncate(refs[1..], a - refs[0].size);
        assert Truncate(refs, a)[1..] == cut;
        if refs[0].size <= b {
          TruncateComposes(refs[1..], a - refs[0].size, b - refs[0].size);
        }
      }
    }
  }

  // ---------------------------------------------------------------- read_file

  /** The end of the range that is read: saturating, and never beyond the file size. */
  function ReadEnd(offset: nat, length: nat, size: nat): nat {
    Min(SaturatingAdd(offset, length), size)
  }

  /** The bytes one chunk contributes to a read of `[offset, readEnd)`. */
  function Part(data: Bytes, size: nat, chunkStart: nat, offset: nat, readEnd: nat): Bytes
    requires chunkStart < readEnd
  {
    var from := Max(offset - chunkStart, 0);
    var to := Min(Min(readEnd - chunkStart, size), |data|);
    if from < to then data[from..to] else []
  }

  /** What the loop of `read_file` appends for the references still to come. */
  function ReadFrom(s: Store, refs: seq<ChunkRef>, chunkStart: nat, offset: nat, readEnd: nat): Bytes {
    if refs == [] then []
    else
      var chunkEnd := chunkStart + refs[0].size;
      if chunkEnd <= offset then ReadFrom(s, refs[1..], chunkEnd, offset, readEnd)
      else if chunkStart >= readEnd then []
      else Part(ChunkData(s, refs[0]), refs[0].size, chunkStart, offset, readEnd)
           + ReadFrom(s, refs[1..], chunkEnd, offset, readEnd)
  }

  /** The chunks that loop looks up, in order. */
  function Consulted(refs: seq<ChunkRef>, chunkStart: nat, offset: nat, readEnd: nat): seq<ChunkHash> {
    if refs == [] then []
    else
      var chunkEnd := chunkStart + refs[0].size;
      if chunkEnd <= offset then Consulted(refs[1..], chunkEnd, offset, readEnd)
      else if chunkStart >= readEnd then []
      else [refs[0].hash] + Consulted(refs[1..], chunkEnd, offset, readEnd)
  }

  /** The result of `read_file` on a regular file. */
  function ReadBytes(s: Store, refs: seq<ChunkRef>, size: nat, offset: nat, length: nat): Bytes {
    var readEnd := ReadEnd(offset, length, size);
    if offset >= readEnd then [] else ReadFrom(s, refs, 0, offset, readEnd)
  }

  function Clip(n: int, bound: nat): (c: nat)
    ensures c <= bound
  {
    Min(Max(n, 0), bound)
  }

  /** The part of `bytes`, which starts at `start`, that lies in `[offset, readEnd)`. */
  function Window(bytes: Bytes, start: nat, offset: nat, readEnd: nat): Bytes {
    var from := Clip(offset - start, |bytes|);
    bytes[from..Max(from, Clip(readEnd - start, |bytes|))]
  }

  lemma SliceConcat(a: Bytes, b: Bytes, from: nat, to: nat)
    requires from <= to <= |a| + |b|
    ensures (a + b)[from..to] == a[Min(from, |a|)..Min(to, |a|)] + b[Max(from - |a|, 0)..Max(to - |a|, 0)]
  {
    if to <= |a| {
      assert (a + b)[from..to] == a[from..to];
    } else if from >= |a| {
      assert (a + b)[|a|..] == b;
      assert (a + b)[from..to] == (a + b)[|a|..][from - |a|..to - |a|];
    } else {
      assert (a + b)[from..to] == a[from..] + b[..to - |a|];
    }
  }

  lemma WindowConcat(a: Bytes, b: Bytes, start: nat, offset: nat, readEnd: nat)
    ensures Window(a + b, start, offset, readEnd)
            == Window(a, start, offset, readEnd) + Window(b, start + |a|, offset, readEnd)
  {
    var from := Clip(offset - start, |a + b|);
    SliceConcat(a, b, from, Max(from, Clip(readEnd - start, |a + b|)));
  }

  lemma WindowPastEnd(bytes: Bytes, start: nat, offset: nat, readEnd: nat)
    ensures start >= readEnd ==> Window(bytes, start, offset, readEnd) == []
  {
  }

  lemma PartIsWindow(data: Bytes, size: nat, chunkStart: nat, offset: nat, readEnd: nat)
    requires |data| >= size
    ensures Window(data[..size], chunkStart, offset, readEnd) ==
            if chunkStart + size <= offset || chunkStart >= readEnd then []
            else Part(data, size, chunkStart, offset, readEnd)
  {
    var from := Clip(offset - chunkStart, size);
    var to := Max(from, Clip(readEnd - chunkStart, size));
    assert data[..size][from..to] == data[from..to];
  }

  lemma {:induction false} ReadFromIsWindow(s: Store, refs: seq<ChunkRef>, chunkStart: nat, offset: nat, readEnd: nat)
    requires Covers(s, refs)
    ensures ReadFrom(s, refs, chunkStart, offset, readEnd) == Window(Concat(s, refs), chunkStart, offset, readEnd)
    decreases |refs|
  {
    hide ReadFrom, Window, Part, Concat;
    if refs == [] {
      NothingToRead(s, chunkStart, offset, readEnd);
    } else {
      CoversTail(s, refs);
      ConcatStep(s, refs);
      var data, rest, chunkEnd := ChunkData(s, refs[0]), Concat(s, refs[1..]), chunkStart + refs[0].size;
      ReadFromIsWindow(s, refs[1..], chunkEnd, offset, readEnd);
      WindowConcat(data[..refs[0].size], rest, chunkStart, offset, readEnd);
      PartIsWindow(data, refs[0].size, chunkStart, offset, readEnd);
      WindowPastEnd(rest, chunkEnd, offset, readEnd);
      ReadFromStep(s, refs, chunkStart, offset, readEnd, Window(rest, chunkEnd, offset, readEnd));
    }
  }

  lemma NothingToRead(s: Store, chunkStart: nat, offset: nat, readEnd: nat)
    ensures ReadFrom(s, [], chunkStart, offset, readEnd) == Window(Concat(s, []), chunkStart, offset, readEnd)
  {
  }

  lemma ReadFromStep(s: Store, refs: seq<ChunkRef>, chunkStart: nat, offset: nat, readEnd: nat, more: Bytes)
    requires refs != [] && more == ReadFrom(s, refs[1..], chunkStart + refs[0].size, offset, readEnd)
    requires chunkStart >= readEnd ==> more == []
    ensures ReadFrom(s, refs, chunkStart, offset, readEnd) ==
            (if chunkStart + refs[0].size <= offset || chunkStart >= readEnd then []
             else Part(ChunkData(s, refs[0]), refs[0].size, chunkStart, offset, readEnd)) + more
  {
  }

  /** The bytes of `[offset, end)` that exist. */
  function Slice(content: Bytes, offset: nat, end: nat): Bytes {
    if offset < Min(end, |content|) then content[offset..Min(end, |content|)] else []
  }

  lemma SlicesJoin(content: Bytes, from: nat, middle: nat, to: nat, size: nat)
    requires from <= middle <= to
    ensures Slice(content, from, Min(middle, size)) + Slice(content, middle, Min(to, size)) ==
            Slice(content, from, Min(to, size))
  {
    if middle < Min(Min(to, size), |content|) {
      assert content[from..middle] + content[middle..Min(Min(to, size), |content|)] ==
             content[from..Min(Min(to, size), |content|)];
    }
  }

  /** `read_file` is exactly a slice of the content. */
  lemma ReadIsSlice(s: Store, refs: seq<ChunkRef>, size: nat, offset: nat, length: nat)
    requires Covers(s, refs)
    ensures ReadBytes(s, refs, size, offset, length) == Slice(Concat(s, refs), offset, ReadEnd(offset, length, size))
    ensures ReadEnd(offset, length, size) == Min(Min(offset + length, 0xFFFF_FFFF_FFFF_FFFF), size)
  {
    ReadFromIsWindow(s, refs, 0, offset, ReadEnd(offset, length, size));
  }

  /** Adjacent reads compose. */
  lemma AdjacentReadsCompose(s: Store, refs: seq<ChunkRef>, size: nat, offset: nat, a: nat, b: nat)
    requires Covers(s, refs) && offset + a + b <= U64_MAX
    ensures ReadBytes(s, refs, size, offset, a) + ReadBytes(s, refs, size, offset + a, b)
            == ReadBytes(s, refs, size, offset, a + b)
  {
    hide ReadBytes;
    ReadIsSlice(s, refs, size, offset, a);
    ReadIsSlice(s, refs, size, offset + a, b);
    ReadIsSlice(s, refs, size, offset, a + b);
    SlicesJoin(Concat(s, refs), offset, offset + a, offset + a + b, size);
  }

  /**
   * Reading a whole file gives its first `size` bytes.  Growing a file by truncation does
   * not pad it: the read is as long as the file says exactly when the references cover it.
   */
  lemma ReadAllIsPrefix(s: Store, refs: seq<ChunkRef>, size: nat)
    requires Covers(s, refs) && size <= U64_MAX
    ensures var all := ReadBytes(s, refs, size, 0, size);
            |Concat(s, refs)| == Sum(refs) && all == Concat(s, refs)[..Min(size, Sum(refs))]
            && (|all| == size <==> size <= Sum(refs))
  {
    ConcatLength(s, refs);
    ReadIsSlice(s, refs, size, 0, size);
  }

  /** After `truncate_file` a full read returns the old content cut at the new size. */
  lemma ReadAfterTruncate(s: Store, refs: seq<ChunkRef>, newSize: nat)
    requires Covers(s, refs) && newSize <= U64_MAX
    ensures |Concat(s, refs)| == Sum(refs)
    ensures ReadBytes(s, Truncate(refs, newSize), newSize, 0, newSize) == Concat(s, refs)[..Min(newSize, Sum(refs))]
  {
    TruncateKeepsPrefix(s, refs, newSize);
    ReadAllIsPrefix(s, Truncate(refs, newSize), newSize);
  }

  // ---------------------------------------------------------------- missing chunks

  /** What the loop of `missing_chunk_hashes_for` reports for the references still to come. */
  function Missing(s: Store, refs: seq<ChunkRef>, chunkStart: nat, offset: nat, readEnd: nat): seq<ChunkHash> {
    if refs == [] then []
    else
      var chunkEnd := chunkStart + refs[0].size;
      (if chunkStart < readEnd && chunkEnd > offset && !Contains(s, refs[0].hash) then [refs[0].hash] else [])
      + if chunkEnd >= readEnd then [] else Missing(s, refs[1..], chunkEnd, offset, readEnd)
  }

  function Absent(s: Store, hashes: seq<ChunkHash>): seq<ChunkHash> {
    if hashes == [] then []
    else (if Contains(s, hashes[0]) then [] else [hashes[0]]) + Absent(s, hashes[1..])
  }

  /** Where the `i`th chunk lies: it overlaps the range when it starts before its end and ends after its start. */
  predicate Overlaps(refs: seq<ChunkRef>, i: nat, chunkStart: nat, offset: nat, readEnd: nat)
    requires i < |refs|
  {
    chunkStart + Sum(refs[..i]) < readEnd && chunkStart + Sum(refs[..i]) + refs[i].size > offset
  }

  lemma {:induction false} SumOfTail(refs: seq<ChunkRef>, i: nat)
    requires refs != [] && i < |refs|
    ensures Sum(refs[..i + 1]) == refs[0].size + Sum(refs[1..][..i])
  {
    assert refs[..i + 1][1..] == refs[1..][..i];
  }

  /** A read looks up exactly the chunks that overlap its range. */
  lemma {:induction false} ConsultedIsOverlap(refs: seq<ChunkRef>, chunkStart: nat, offset: nat, readEnd: nat,
                                              h: ChunkHash)
    ensures h in Consulted(refs, chunkStart, offset, readEnd) <==>
              exists i: nat :: i < |refs| && Overlaps(refs, i, chunkStart, offset, readEnd) && refs[i].hash == h
    decreases |refs|
  {
    if refs != [] {
      var tail, chunkEnd := refs[1..], chunkStart + refs[0].size;
      ConsultedIsOverlap(tail, chunkEnd, offset, readEnd, h);
      assert refs[..0] == [];
      forall i: nat | i < |tail|
        ensures Overlaps(tail, i, chunkEnd, offset, readEnd) <==> Overlaps(refs, i + 1, chunkStart, offset, readEnd)
      {
        SumOfTail(refs, i);
      }
      OverlapStep(refs, chunkStart, offset, readEnd, h);
    }
  }

  lemma OverlapStep(refs: seq<ChunkRef>, chunkStart: nat, offset: nat, readEnd: nat, h: ChunkHash)
    requires refs != []
    requires var chunkEnd := chunkStart + refs[0].size;
             && (h in Consulted(refs[1..], chunkEnd, offset, readEnd) <==>
                  exists i: nat :: i < |refs| - 1 && Overlaps(refs[1..], i, chunkEnd, offset, readEnd)
                    && refs[1..][i].hash == h)
             && forall i: nat :: i < |refs| - 1 ==>
                  (Overlaps(refs[1..], i, chunkEnd, offset, readEnd) <==>
                   Overlaps(refs, i + 1, chunkStart, offset, readEnd))
    ensures h in Consulted(refs, chunkStart, offset, readEnd) <==>
              exists i: nat :: i < |refs| && Overlaps(refs, i, chunkStart, offset, readEnd) && refs[i].hash == h
  {
    var tail, chunkEnd := refs[1..], chunkStart + refs[0].size;
    assert refs[..0] == [];
    assert Overlaps(refs, 0, chunkStart, offset, readEnd) <==> chunkStart < readEnd && chunkEnd > offset;
    if h in Consulted(refs, chunkStart, offset, readEnd) {
      if !(Overlaps(refs, 0, chunkStart, offset, readEnd) && refs[0].hash == h) {
        var i: nat :| i < |tail| && Overlaps(tail, i, chunkEnd, offset, readEnd) && tail[i].hash == h;
        assert Overlaps(refs, i + 1, chunkStart, offset, readEnd) && refs[i + 1].hash == h;
      }
    }
    if i: nat :| i < |refs| && Overlaps(refs, i, chunkStart, offset, readEnd) && refs[i].hash == h {
      if i > 0 {
        assert Overlaps(tail, i - 1, chunkEnd, offset, readEnd) && tail[i - 1].hash == h;
      }
    }
  }

  /** For a non-empty range, the missing chunks are the absent ones among those a read consults. */
  lemma {:induction false} MissingIsAbsentConsulted(s: Store, refs: seq<ChunkRef>, chunkStart: nat, offset: nat,
                                                    readEnd: nat)
    requires offset < readEnd
    ensures Missing(s, refs, chunkStart, offset, readEnd) == Absent(s, Consulted(refs, chunkStart, offset, readEnd))
    decreases |refs|
  {
    if refs != [] {
      var chunkEnd := chunkStart + refs[0].size;
      MissingIsAbsentConsulted(s, refs[1..], chunkEnd, offset, readEnd);
      assert chunkEnd >= readEnd ==> Consulted(refs[1..], chunkEnd, offset, readEnd) == [];
      if chunkEnd > offset && chunkStart < readEnd {
        var more := Consulted(refs[1..], chunkEnd, offset, readEnd);
        assert ([refs[0].hash] + more)[1..] == more;
      }
    }
  }

  lemma {:induction false} AbsentMeaning(s: Store, hashes: seq<ChunkHash>)
    ensures forall h :: h in Absent(s, hashes) <==> h in hashes && !Contains(s, h)
  {
    if hashes != [] {
      AbsentMeaning(s, hashes[1..]);
    }
  }

  lemma {:induction false} NothingAbsent(s: Store, hashes: seq<ChunkHash>)
    requires forall h :: h in hashes ==> Contains(s, h)
    ensures Absent(s, hashes) == []
  {
    if hashes != [] {
      assert hashes[0] in hashes;
      NothingAbsent(s, hashes[1..]);
    }
  }

  /** A read depends only on the chunks it consults. */
  lemma {:induction false} ReadDependsOnConsulted(s: Store, t: Store, refs: seq<ChunkRef>, chunkStart: nat,
                                                  offset: nat, readEnd: nat)
    requires forall h :: h in Consulted(refs, chunkStart, offset, readEnd) ==> Lookup(s, h) == Lookup(t, h)
    ensures ReadFrom(s, refs, chunkStart, offset, readEnd) == ReadFrom(t, refs, chunkStart, offset, readEnd)
    decreases |refs|
  {
    if refs != [] {
      var chunkEnd := chunkStart + refs[0].size;
      if chunkEnd <= offset || chunkStart < readEnd {
        ReadDependsOnConsulted(s, t, refs[1..], chunkEnd, offset, readEnd);
      }
    }
  }

  /** Reading a consulted chunk only moves it in the cache order. */
  function TouchAll(s: Store, hashes: seq<ChunkHash>): Store
    decreases |hashes|
  {
    if hashes == [] then s else TouchAll(Touch(s, hashes[0]), hashes[1..])
  }

  /** Both stores answer every lookup alike. */
  ghost predicate SameData(s: Store, t: Store) {
    s.pinned == t.pinned && s.cached == t.cached
  }

  // One round of the two loops, seen from the references still to come.

  lemma SkipStep(s: Store, refs: seq<ChunkRef>, chunkStart: nat, offset: nat, readEnd: nat)
    requires refs != [] && chunkStart + refs[0].size <= offset
    ensures var chunkEnd := chunkStart + refs[0].size;
            && ReadFrom(s, refs, chunkStart, offset, readEnd) == ReadFrom(s, refs[1..], chunkEnd, offset, readEnd)
            && Consulted(refs, chunkStart, offset, readEnd) == Consulted(refs[1..], chunkEnd, offset, readEnd)
  {
  }

  lemma ConsultStep(s: Store, t: Store, refs: seq<ChunkRef>, chunkStart: nat, offset: nat, readEnd: nat, output: Bytes)
    requires refs != [] && chunkStart < readEnd && chunkStart + refs[0].size > offset && SameData(s, t)
    ensures var ref := refs[0]; var chunkEnd := chunkStart + ref.size;
            && output + ReadFrom(s, refs, chunkStart, offset, readEnd)
               == output + Part(ChunkData(t, ref), ref.size, chunkStart, offset, readEnd)
                  + ReadFrom(s, refs[1..], chunkEnd, offset, readEnd)
            && TouchAll(t, Consulted(refs, chunkStart, offset, readEnd))
               == TouchAll(Touch(t, ref.hash), Consulted(refs[1..], chunkEnd, offset, readEnd))
  {
    var more := Consulted(refs[1..], chunkStart + refs[0].size, offset, readEnd);
    assert ([refs[0].hash] + more)[1..] == more;
    assert ChunkData(s, refs[0]) == ChunkData(t, refs[0]);
  }

  lemma MissingStep(s: Store, refs: seq<ChunkRef>, chunkStart: nat, offset: nat, readEnd: nat, missing: seq<ChunkHash>)
    requires refs != []
    ensures var chunkEnd := chunkStart + refs[0].size;
            var now := if chunkStart < readEnd && chunkEnd > offset && !Contains(s, refs[0].hash)
                       then missing + [refs[0].hash] else missing;
            missing + Missing(s, refs, chunkStart, offset, readEnd)
            == if chunkEnd >= readEnd then now else now + Missing(s, refs[1..], chunkEnd, offset, readEnd)
  {
    var chunkEnd := chunkStart + refs[0].size;
    var here := if chunkStart < readEnd && chunkEnd > offset && !Contains(s, refs[0].hash) then [refs[0].hash] else [];
    var more := if chunkEnd >= readEnd then [] else Missing(s, refs[1..], chunkEnd, offset, readEnd);
    assert Missing(s, refs, chunkStart, offset, readEnd) == here + more;
    assert missing + (here + more) == (missing + here) + more;
  }
}
