/**
 * Rendezvous hashing (src/network/hrw.rs).
 *
 * The score of a peer for a chunk is an arbitrary function, so nothing below depends on
 * SHA-256.  `Ranking` is what `top_peers` computes before it truncates; `Holders` says, on
 * plain sets, who must come out of it.
 */
module Rendezvous {
  import opened Domain

  type Score = (ChunkHash, PeerId) -> nat

  /** The comparator of `sort_by`: higher score first, then the greater byte encoding. */
  predicate Outranks(score: Score, hash: ChunkHash, p: PeerId, q: PeerId) {
    score(hash, p) > score(hash, q) ||
    (score(hash, p) == score(hash, q) && LexLess(q.bytes, p.bytes))
  }

  lemma RankIsStrictTotalOrder(score: Score, hash: ChunkHash, p: PeerId, q: PeerId, r: PeerId)
    ensures !Outranks(score, hash, p, p)
    ensures p == q || Outranks(score, hash, p, q) || Outranks(score, hash, q, p)
    ensures !(Outranks(score, hash, p, q) && Outranks(score, hash, q, p))
    ensures Outranks(score, hash, p, q) && Outranks(score, hash, q, r) ==> Outranks(score, hash, p, r)
  {
    LexTotal(p.bytes, q.bytes);
    LexTotal(p.bytes, p.bytes);
    if LexLess(r.bytes, q.bytes) && LexLess(q.bytes, p.bytes) {
      LexTransitive(r.bytes, q.bytes, p.bytes);
    }
  }

  // ---------------------------------------------------------------- the code's pipeline

  function InsertByRank(score: Score, hash: ChunkHash, p: PeerId, ps: seq<PeerId>): (r: seq<PeerId>)
    ensures multiset(r) == multiset(ps) + multiset{p}
  {
    if ps == [] then [p]
    else if Outranks(score, hash, p, ps[0]) then [p] + ps
    else
      assert ps == [ps[0]] + ps[1..];
      [ps[0]] + InsertByRank(score, hash, p, ps[1..])
  }

  /** The scored list after `sort_by`, without the scores. */
  function Ranking(score: Score, hash: ChunkHash, members: seq<PeerId>): (r: seq<PeerId>)
    ensures multiset(r) == multiset(members)
    ensures |r| == |members|
  {
    if members == [] then []
    else
      assert members == [members[0]] + members[1..];
      var r := InsertByRank(score, hash, members[0], Ranking(score, hash, members[1..]));
      assert |multiset(r)| == |multiset(members)|;
      r
  }

  function TopPeers(score: Score, hash: ChunkHash, members: seq<PeerId>, n: nat): seq<PeerId> {
    Ranking(score, hash, members)[..Min(n, |members|)]
  }

  /** No peer is outranked by a later one. */
  ghost predicate Ranked(score: Score, hash: ChunkHash, ps: seq<PeerId>) {
    forall i, j :: 0 <= i < j < |ps| ==> !Outranks(score, hash, ps[j], ps[i])
  }

  lemma {:induction false} InsertKeepsRanked(score: Score, hash: ChunkHash, p: PeerId, ps: seq<PeerId>)
    requires Ranked(score, hash, ps)
    ensures Ranked(score, hash, InsertByRank(score, hash, p, ps))
  {
    var r := InsertByRank(score, hash, p, ps);
    if ps != [] {
      if Outranks(score, hash, p, ps[0]) {
        forall j | 0 <= j < |ps|
          ensures !Outranks(score, hash, ps[j], p)
        {
          RankIsStrictTotalOrder(score, hash, ps[j], p, ps[0]);
          RankIsStrictTotalOrder(score, hash, p, ps[0], ps[j]);
        }
      } else {
        InsertKeepsRanked(score, hash, p, ps[1..]);
        var rest := InsertByRank(score, hash, p, ps[1..]);
        forall j | 0 <= j < |rest|
          ensures !Outranks(score, hash, rest[j], ps[0])
        {
          assert rest[j] in multiset(rest);
          assert rest[j] == p || rest[j] in ps[1..];
        }
      }
    }
  }

  lemma {:induction false} RankingIsRanked(score: Score, hash: ChunkHash, members: seq<PeerId>)
    ensures Ranked(score, hash, Ranking(score, hash, members))
  {
    if members != [] {
      RankingIsRanked(score, hash, members[1..]);
      InsertKeepsRanked(score, hash, members[0], Ranking(score, hash, members[1..]));
    }
  }

  lemma {:induction false} RankedIsUnique(score: Score, hash: ChunkHash, a: seq<PeerId>, b: seq<PeerId>)
    requires Ranked(score, hash, a) && Ranked(score, hash, b)
    requires multiset(a) == multiset(b)
    ensures a == b
  {
    assert |multiset(a)| == |a| && |multiset(b)| == |b|;
    if a != [] {
      SameFirst(score, hash, a, b);
      assert a == [a[0]] + a[1..] && b == [b[0]] + b[1..];
      assert multiset(a[1..]) == multiset(a) - multiset{a[0]};
      assert multiset(b[1..]) == multiset(b) - multiset{b[0]};
      RankedIsUnique(score, hash, a[1..], b[1..]);
    }
  }

  lemma SameFirst(score: Score, hash: ChunkHash, a: seq<PeerId>, b: seq<PeerId>)
    requires Ranked(score, hash, a) && Ranked(score, hash, b)
    requires multiset(a) == multiset(b) && a != [] && b != []
    ensures a[0] == b[0]
  {
    assert a[0] in multiset(a) && b[0] in multiset(b);
    var i :| 0 <= i < |a| && a[i] == b[0];
    var j :| 0 <= j < |b| && b[j] == a[0];
    RankIsStrictTotalOrder(score, hash, a[0], b[0], b[0]);
  }

  /** Placement is a function of the members, not of the order in which they are listed. */
  lemma PlacementIgnoresListOrder(score: Score, hash: ChunkHash, a: seq<PeerId>, b: seq<PeerId>, n: nat)
    requires multiset(a) == multiset(b)
    ensures TopPeers(score, hash, a, n) == TopPeers(score, hash, b, n)
  {
    RankingIsRanked(score, hash, a);
    RankingIsRanked(score, hash, b);
    RankedIsUnique(score, hash, Ranking(score, hash, a), Ranking(score, hash, b));
    assert |multiset(a)| == |multiset(b)|;
  }

  // ---------------------------------------------------------------- the set it picks

  ghost function Above(score: Score, hash: ChunkHash, members: set<PeerId>, p: PeerId): set<PeerId> {
    set q | q in members && Outranks(score, hash, q, p)
  }

  /** A peer is a holder when fewer than `n` members outrank it. */
  ghost function Holders(score: Score, hash: ChunkHash, members: set<PeerId>, n: nat): set<PeerId> {
    set p | p in members && |Above(score, hash, members, p)| < n
  }

  lemma RankingHasNoDuplicates(score: Score, hash: ChunkHash, members: seq<PeerId>)
    requires NoDuplicates(members)
    ensures NoDuplicates(Ranking(score, hash, members))
    ensures ToSet(Ranking(score, hash, members)) == ToSet(members)
  {
    var r := Ranking(score, hash, members);
    SameMultisetSameSet(r, members);
    forall i, j | 0 <= i < j < |r|
      ensures r[i] != r[j]
    {
      AtMostOnce(members, r[i]);
      assert r == r[..j] + r[j..];
      assert r[..j][i] in multiset(r[..j]) && r[j..][0] in multiset(r[j..]);
    }
  }

  lemma SameMultisetSameSet(a: seq<PeerId>, b: seq<PeerId>)
    requires multiset(a) == multiset(b)
    ensures ToSet(a) == ToSet(b)
  {
    forall x ensures x in a <==> x in b {
      assert x in a <==> x in multiset(a);
      assert x in b <==> x in multiset(b);
    }
  }

  lemma {:induction false} AtMostOnce(s: seq<PeerId>, p: PeerId)
    requires NoDuplicates(s)
    ensures multiset(s)[p] <= 1
  {
    if s != [] {
      AtMostOnce(s[1..], p);
      assert s == [s[0]] + s[1..];
      assert s[0] !in s[1..];
    }
  }

  /** In a ranking of distinct members, the peers above an entry are those before it. */
  lemma AbovePrefix(score: Score, hash: ChunkHash, members: seq<PeerId>, i: nat)
    requires NoDuplicates(members) && i < |members|
    ensures var r := Ranking(score, hash, members);
            Above(score, hash, ToSet(members), r[i]) == ToSet(r[..i]) && |ToSet(r[..i])| == i
  {
    var r := Ranking(score, hash, members);
    RankingHasNoDuplicates(score, hash, members);
    RankingIsRanked(score, hash, members);
    forall q
      ensures q in Above(score, hash, ToSet(members), r[i]) <==> q in r[..i]
    {
      if q in members {
        assert q in ToSet(r);
        var j :| 0 <= j < |r| && r[j] == q;
        RankIsStrictTotalOrder(score, hash, q, r[i], r[i]);
        if j < i { assert r[..i][j] == q; }
      } else {
        assert q !in ToSet(r);
      }
    }
    DistinctCardinality(r[..i]);
  }

  /** `top_peers` picks a member exactly when fewer than `n` members outrank it. */
  lemma TopPeersAreTheHolders(score: Score, hash: ChunkHash, members: seq<PeerId>, n: nat)
    requires NoDuplicates(members)
    ensures ToSet(TopPeers(score, hash, members, n)) == Holders(score, hash, ToSet(members), n)
    ensures |Holders(score, hash, ToSet(members), n)| == Min(n, |members|)
  {
    var r := Ranking(score, hash, members);
    var top := TopPeers(score, hash, members, n);
    RankingHasNoDuplicates(score, hash, members);
    forall p
      ensures p in top <==> p in Holders(score, hash, ToSet(members), n)
    {
      if p in members {
        assert p in ToSet(r);
        var i :| 0 <= i < |r| && r[i] == p;
        AbovePrefix(score, hash, members, i);
        if i < |top| { assert top[i] == p; }
      } else {
        assert p !in ToSet(r);
      }
    }
    DistinctCardinality(top);
  }

  // ---------------------------------------------------------------- what the order means

  /** The better place: the higher score, and the greater bytes where scores are equal. */
  lemma RankedPairMeaning(score: Score, hash: ChunkHash, ps: seq<PeerId>, i: nat, j: nat)
    requires Ranked(score, hash, ps) && i < j < |ps| && ps[i] != ps[j]
    ensures score(hash, ps[i]) > score(hash, ps[j]) ||
            (score(hash, ps[i]) == score(hash, ps[j]) && LexLess(ps[j].bytes, ps[i].bytes))
  {
    LexTotal(ps[i].bytes, ps[j].bytes);
  }

  /** `top_peers` lists the best first. */
  lemma BestFirst(score: Score, hash: ChunkHash, members: seq<PeerId>, n: nat, i: nat, j: nat)
    requires i < j < |TopPeers(score, hash, members, n)|
    requires TopPeers(score, hash, members, n)[i] != TopPeers(score, hash, members, n)[j]
    ensures var p, q := TopPeers(score, hash, members, n)[i], TopPeers(score, hash, members, n)[j];
            score(hash, p) > score(hash, q) || (score(hash, p) == score(hash, q) && LexLess(q.bytes, p.bytes))
  {
    RankingIsRanked(score, hash, members);
    RankedPairMeaning(score, hash, Ranking(score, hash, members), i, j);
  }

  /** Whoever is chosen has the higher score than a member who is not, or the greater bytes on a tie. */
  lemma ChosenOutscoreTheRest(score: Score, hash: ChunkHash, members: seq<PeerId>, n: nat, p: PeerId, q: PeerId)
    requires p in TopPeers(score, hash, members, n) && q in members && q !in TopPeers(score, hash, members, n)
    ensures score(hash, p) > score(hash, q) || (score(hash, p) == score(hash, q) && LexLess(q.bytes, p.bytes))
  {
    var r, top := Ranking(score, hash, members), TopPeers(score, hash, members, n);
    RankingIsRanked(score, hash, members);
    SameMultisetSameSet(r, members);
    assert q in ToSet(members) && q in ToSet(r);
    var i :| 0 <= i < |top| && top[i] == p;
    var j :| 0 <= j < |r| && r[j] == q;
    forall k | 0 <= k < |top| ensures r[k] != q { assert top[k] == r[k] && top[k] in top; }
    RankedPairMeaning(score, hash, r, i, j);
  }

  // ---------------------------------------------------------------- stability under churn

  /** Of two distinct members, the lower one has strictly more members above it. */
  lemma AboveIsStrict(score: Score, hash: ChunkHash, members: set<PeerId>, p: PeerId, q: PeerId)
    requires p in members && Outranks(score, hash, p, q)
    ensures |Above(score, hash, members, p)| < |Above(score, hash, members, q)|
  {
    var ap, aq := Above(score, hash, members, p), Above(score, hash, members, q);
    forall x | x in ap
      ensures x in aq
    {
      RankIsStrictTotalOrder(score, hash, x, p, q);
    }
    RankIsStrictTotalOrder(score, hash, p, p, p);
    SubsetCardinality(ap + {p}, aq);
  }

  /**
   * A joining peer displaces at most one holder and nobody but itself becomes one.  Read from
   * right to left: a leaving peer lets at most one new holder in and no other holder moves.
   */
  lemma MembershipChangeMovesAtMostOneHolder(score: Score, hash: ChunkHash, members: set<PeerId>, p: PeerId, n: nat)
    requires p !in members
    ensures var before, after := Holders(score, hash, members, n), Holders(score, hash, members + {p}, n);
            after <= before + {p} && |before - after| <= 1 && (p !in after ==> after == before)
  {
    var before, after := Holders(score, hash, members, n), Holders(score, hash, members + {p}, n);
    forall q | q in members
      ensures q in after ==> q in before
      ensures q in before - after ==> Outranks(score, hash, p, q) && |Above(score, hash, members, q)| == n - 1
    {
      AboveAfterJoin(score, hash, members, p, q);
    }
    forall q, r | q in before - after && r in before - after
      ensures q == r
    {
      SameHeight(score, hash, members, q, r);
    }
    if q :| q in before - after {
      assert before - after == {q};
      AboveIsStrict(score, hash, members + {p}, p, q);
      AboveAfterJoin(score, hash, members, p, q);
    } else {
      assert before - after == {};
    }
  }

  lemma AboveAfterJoin(score: Score, hash: ChunkHash, members: set<PeerId>, p: PeerId, q: PeerId)
    requires p !in members
    ensures |Above(score, hash, members + {p}, q)| ==
            |Above(score, hash, members, q)| + if Outranks(score, hash, p, q) then 1 else 0
  {
    var above := Above(score, hash, members, q);
    assert p !in above;
    assert Above(score, hash, members + {p}, q) == above + if Outranks(score, hash, p, q) then {p} else {};
  }

  lemma SameHeight(score: Score, hash: ChunkHash, members: set<PeerId>, q: PeerId, r: PeerId)
    requires q in members && r in members
    requires |Above(score, hash, members, q)| == |Above(score, hash, members, r)|
    ensures q == r
  {
    RankIsStrictTotalOrder(score, hash, q, r, r);
    if Outranks(score, hash, q, r) {
      AboveIsStrict(score, hash, members, q, r);
    } else if Outranks(score, hash, r, q) {
      AboveIsStrict(score, hash, members, r, q);
    }
  }
}
