/** Values shared by every layer (src/domain.rs). */
module Domain {

  newtype Byte = b: int | 0 <= b < 256

  type Bytes = seq<Byte>

  datatype Option<+T> = None | Some(value: T)

  /** SHA-256 digest of a chunk's bytes. */
  datatype ChunkHash = ChunkHash(digest: Bytes)

  /** SHA-256 is left uninterpreted: every result holds for any function of the bytes. */
  type Sha = Bytes -> ChunkHash

  /** A peer is identified by its byte encoding, so the encoding is injective. */
  datatype PeerId = PeerId(bytes: Bytes)

  datatype ChunkRef = ChunkRef(hash: ChunkHash, size: nat)

  datatype NodeId = NodeId(uuid: nat)

  datatype NodeMeta =
    | Directory(name: string)
    | RegularFile(name: string, size: nat, chunkRefs: seq<ChunkRef>)
    | Symlink(name: string, target: string)

  const ROOT: NodeId := NodeId(0)
  const TRASH: NodeId := NodeId(0xFFFF_FFFF_FFFF_FFFF_FFFF_FFFF_FFFF_FFFF)

  const U64_MAX: nat := 0xFFFF_FFFF_FFFF_FFFF

  function Min(a: int, b: int): int { if a <= b then a else b }

  function Max(a: int, b: int): int { if a <= b then b else a }

  /** `u64::saturating_add`. */
  function SaturatingAdd(a: nat, b: nat): nat { Min(a + b, U64_MAX) }

  function Zeros(n: nat): (z: Bytes)
    ensures |z| == n && forall i :: 0 <= i < n ==> z[i] == 0
  {
    seq(n, _ => 0)
  }

  function ToSet<T>(s: seq<T>): set<T> { set x | x in s }

  ghost predicate NoDuplicates<T>(s: seq<T>) {
    forall i, j :: 0 <= i < j < |s| ==> s[i] != s[j]
  }

  lemma {:induction false} DistinctCardinality<T>(s: seq<T>)
    requires NoDuplicates(s)
    ensures |ToSet(s)| == |s|
  {
    if s != [] {
      var front, last := s[..|s| - 1], s[|s| - 1];
      DistinctCardinality(front);
      assert s == front + [last];
      assert ToSet(s) == ToSet(front) + {last};
      assert last !in front;
    }
  }

  lemma SubsetCardinality<T>(a: set<T>, b: set<T>)
    requires a <= b
    ensures |a| <= |b|
    ensures |a| == |b| ==> a == b
  {
    assert b == a + (b - a);
    if |a| == |b| { assert b - a == {}; }
  }

  lemma TakeOneMore<T>(s: seq<T>, j: nat)
    requires j < |s|
    ensures s[..j + 1] == s[..j] + [s[j]]
    ensures ToSet(s[..j + 1]) == ToSet(s[..j]) + {s[j]}
  {
  }

  lemma AppendAssociative<T>(a: seq<T>, b: seq<T>, c: seq<T>)
    ensures (a + b) + c == a + (b + c)
  {
  }

  lemma MapUnionInsert<K, V>(a: map<K, V>, b: map<K, V>, k: K, v: V)
    ensures (a + b)[k := v] == a + b[k := v]
  {
  }

  lemma MapUnionAssociative<K, V>(a: map<K, V>, b: map<K, V>, c: map<K, V>)
    ensures (a + b) + c == a + (b + c)
  {
  }

  lemma MapRemoveAbsent<K, V>(a: map<K, V>, k: K)
    requires k !in a
    ensures a - {k} == a
  {
  }

  lemma MapUnionNothing<K, V>(a: map<K, V>, b: map<K, V>)
    requires b.Keys == {}
    ensures a + b == a && b == map[]
  {
  }

  lemma MapRemoveTwice<K, V>(a: map<K, V>, s: set<K>, t: set<K>)
    ensures (a - s) - t == a - (s + t)
  {
  }

  /** The elements of a set in some order, as a loop over a hash set meets them. */
  method Iterate<T(==)>(s: set<T>) returns (order: seq<T>)
    ensures NoDuplicates(order) && ToSet(order) == s
  {
    order := [];
    var todo := s;
    while todo != {}
      invariant todo <= s && NoDuplicates(order) && ToSet(order) == s - todo
      decreases |todo|
    {
      var x :| x in todo;
      assert x !in ToSet(order);
      assert ToSet(order + [x]) == ToSet(order) + {x};
      order, todo := order + [x], todo - {x};
    }
  }

  /** Lexicographic order on byte strings. */
  predicate LexLess(a: Bytes, b: Bytes)
    decreases |a|
  {
    b != [] && (a == [] || a[0] < b[0] || (a[0] == b[0] && LexLess(a[1..], b[1..])))
  }

  lemma {:induction false} LexTotal(a: Bytes, b: Bytes)
    ensures a == b || LexLess(a, b) || LexLess(b, a)
    ensures !(LexLess(a, b) && LexLess(b, a))
    ensures !LexLess(a, a)
    decreases |a|
  {
    if a != [] {
      LexTotal(a[1..], a[1..]);
      if b != [] && a[0] == b[0] {
        LexTotal(a[1..], b[1..]);
        assert a == [a[0]] + a[1..] && b == [b[0]] + b[1..];
      }
    }
  }

  lemma {:induction false} LexTransitive(a: Bytes, b: Bytes, c: Bytes)
    requires LexLess(a, b) && LexLess(b, c)
    ensures LexLess(a, c)
    decreases |a|
  {
    if a != [] && a[0] == b[0] && b[0] == c[0] {
      LexTransitive(a[1..], b[1..], c[1..]);
    }
  }

  predicate DifferAt(a: Bytes, b: Bytes, i: nat) {
    i < |a| && i < |b| && a[i] != b[i] && a[..i] == b[..i]
  }

  lemma DifferInTail(a: Bytes, b: Bytes, i: nat)
    requires a != [] && b != [] && a[0] == b[0]
    ensures DifferAt(a, b, i + 1) <==> DifferAt(a[1..], b[1..], i)
  {
    if i < |a[1..]| && i < |b[1..]| {
      assert a[..i + 1] == [a[0]] + a[1..][..i] && b[..i + 1] == [b[0]] + b[1..][..i];
      assert a[1..][..i] == a[..i + 1][1..] && b[1..][..i] == b[..i + 1][1..];
    }
  }

  /** One string is less when it is a proper prefix or has the smaller byte where they first differ. */
  lemma {:induction false} LexLessMeaning(a: Bytes, b: Bytes)
    ensures LexLess(a, b) <==> a < b || exists i: nat :: DifferAt(a, b, i) && a[i] < b[i]
    decreases |a|
  {
    if a == [] || b == [] {
      assert forall i: nat :: !DifferAt(a, b, i);
    } else if a[0] == b[0] {
      LexLessMeaning(a[1..], b[1..]);
      PrefixOfTail(a, b);
      forall i: nat ensures DifferAt(a, b, i + 1) <==> DifferAt(a[1..], b[1..], i) { DifferInTail(a, b, i); }
      LexLessStep(a, b);
    } else {
      assert a[..0] == b[..0] && DifferAt(a, b, 0);
      forall i: nat | 0 < i < |a| && i < |b| ensures a[..i] != b[..i] {
        assert a[..i][0] == a[0] && b[..i][0] == b[0];
      }
    }
  }

  lemma PrefixOfTail(a: Bytes, b: Bytes)
    requires a != [] && b != [] && a[0] == b[0]
    ensures a < b <==> a[1..] < b[1..]
  {
    if a[1..] < b[1..] {
      assert a == [a[0]] + a[1..] && b == [b[0]] + b[1..];
    }
  }

  lemma LexLessStep(a: Bytes, b: Bytes)
    requires a != [] && b != [] && a[0] == b[0]
    requires forall i: nat :: DifferAt(a, b, i + 1) <==> DifferAt(a[1..], b[1..], i)
    ensures (exists i: nat :: DifferAt(a, b, i) && a[i] < b[i]) <==>
            (exists i: nat :: DifferAt(a[1..], b[1..], i) && a[1..][i] < b[1..][i])
  {
    if i: nat :| DifferAt(a[1..], b[1..], i) && a[1..][i] < b[1..][i] {
      assert DifferAt(a, b, i + 1) && a[i + 1] < b[i + 1];
    }
    if i: nat :| DifferAt(a, b, i) && a[i] < b[i] {
      assert DifferAt(a, b, i - 1 + 1) && DifferAt(a[1..], b[1..], i - 1);
    }
  }
}
