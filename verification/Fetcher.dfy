/**
 * `ChunkFetcher` of src/network/handlers/chunk.rs in the form of the code: two tables and a
 * back-off table changed in place by loops.  Every method is proved against `FetchModel`.
 */
module Fetcher {
  import opened Domain
  import opened Rendezvous
  import opened StorageModel
  import opened Storage
  import opened FetchModel

  // ---------------------------------------------------------------- one round of each loop

  lemma LaunchNothing(w: World, hash: ChunkHash)
    requires hash in w.sessions
    ensures Launch(w, hash, []) == w
  {
    var session := w.sessions[hash];
    assert ToSet<PeerId>([]) == {};
    assert session.attempts + map[] == session.attempts && session.tried + {} == session.tried;
    assert w.requests + Filed(map[], hash) == w.requests;
    assert w.asks + Round(w.nextRequest, [], hash) == w.asks;
    assert w.sessions[hash := session] == w.sessions;
  }

  /** The session after one more request of a round. */
  lemma LaunchSession(w: World, hash: ChunkHash, targets: seq<PeerId>, peer: PeerId)
    requires hash in w.sessions
    ensures var s := Launch(w, hash, targets).sessions[hash]; var id := w.nextRequest + |targets|;
            Launch(w, hash, targets + [peer]).sessions[hash] ==
              s.(attempts := s.attempts[id := peer], tried := s.tried + {peer})
  {
    hide Numbered, ToSet, Round, Filed;
    NumberedAppend(w.nextRequest, targets, peer);
    MapUnionInsert(w.sessions[hash].attempts, Numbered(w.nextRequest, targets), w.nextRequest + |targets|, peer);
    TriedAppend(w.sessions[hash].tried, targets, peer);
  }

  lemma TriedAppend(tried: set<PeerId>, targets: seq<PeerId>, peer: PeerId)
    ensures tried + ToSet(targets + [peer]) == (tried + ToSet(targets)) + {peer}
  {
  }

  lemma LaunchRequests(w: World, hash: ChunkHash, targets: seq<PeerId>, peer: PeerId)
    requires hash in w.sessions
    ensures Launch(w, hash, targets + [peer]).requests ==
            Launch(w, hash, targets).requests[w.nextRequest + |targets| := hash]
  {
    hide Numbered, Filed;
    var id, more := w.nextRequest + |targets|, Numbered(w.nextRequest, targets);
    NumberedAppend(w.nextRequest, targets, peer);
    FiledInsert(more, id, peer, hash);
    MapUnionInsert(w.requests, Filed(more, hash), id, hash);
  }

  lemma FiledInsert(attempts: map<RequestId, PeerId>, id: RequestId, peer: PeerId, hash: ChunkHash)
    ensures Filed(attempts[id := peer], hash) == Filed(attempts, hash)[id := hash]
  {
  }

  lemma LaunchAsks(w: World, hash: ChunkHash, targets: seq<PeerId>, peer: PeerId)
    requires hash in w.sessions
    ensures Launch(w, hash, targets + [peer]).asks ==
            Launch(w, hash, targets).asks + [Ask(w.nextRequest + |targets|, peer, hash)]
  {
    var ask := Ask(w.nextRequest + |targets|, peer, hash);
    assert Round(w.nextRequest, targets + [peer], hash) == Round(w.nextRequest, targets, hash) + [ask];
    AppendAssociative(w.asks, Round(w.nextRequest, targets, hash), [ask]);
  }

  /** A round asks its targets one after the other. */
  lemma LaunchOneMore(w: World, hash: ChunkHash, targets: seq<PeerId>, peer: PeerId)
    requires hash in w.sessions
    ensures var before := Launch(w, hash, targets); var s := before.sessions[hash]; var id := before.nextRequest;
            Launch(w, hash, targets + [peer]) ==
              before.(sessions := before.sessions[hash := s.(attempts := s.attempts[id := peer],
                                                             tried := s.tried + {peer})],
                      requests := before.requests[id := hash],
                      nextRequest := id + 1,
                      asks := before.asks + [Ask(id, peer, hash)])
  {
    LaunchSession(w, hash, targets, peer);
    LaunchRequests(w, hash, targets, peer);
    LaunchAsks(w, hash, targets, peer);
    var after, before := Launch(w, hash, targets + [peer]), Launch(w, hash, targets);
    PutTwice(w.sessions, hash, before.sessions[hash], after.sessions[hash]);
  }

  lemma PutTwice(m: map<ChunkHash, Session>, h: ChunkHash, a: Session, b: Session)
    ensures m[h := a][h := b] == m[h := b]
  {
  }

  class ChunkFetcher {
    const env: Env
    const storage: ChunkStorage

    var sessions: map<ChunkHash, Session>
    var requests: map<RequestId, ChunkHash>
    var blockedUntil: map<ChunkHash, nat>

    // The swarm's request counter and, as logs, what went to the swarm and to the callers.
    var nextRequest: RequestId
    var asks: seq<Ask>
    var replies: seq<Reply>
    ghost var issued: map<Waiter, ChunkHash>

    ghost predicate Valid()
      reads storage
    {
      storage.Valid() && storage.sha == env.sha
    }

    ghost function View(): World
      reads this, storage
    {
      World(sessions, requests, blockedUntil, nextRequest, storage.view, replies, asks, issued)
    }

    constructor (env: Env, storage: ChunkStorage)
      requires storage.Valid() && storage.sha == env.sha
      ensures Valid() && this.env == env && this.storage == storage
      ensures View() == World(map[], map[], map[], 0, storage.view, [], [], map[])
    {
      this.env := env;
      this.storage := storage;
      sessions, requests, blockedUntil := map[], map[], map[];
      nextRequest, asks, replies, issued := 0, [], [], map[];
    }

    /** The swarm's `send_request`: ids are never used twice. */
    method SendRequest(peer: PeerId, hash: ChunkHash) returns (id: RequestId)
      modifies `nextRequest, `asks
      ensures id == old(nextRequest) && nextRequest == id + 1 && asks == old(asks) + [Ask(id, peer, hash)]
    {
      id := nextRequest;
      nextRequest := nextRequest + 1;
      asks := asks + [Ask(id, peer, hash)];
    }

    method SendAll(waiters: seq<Waiter>, answer: Option<Bytes>)
      modifies `replies
      ensures replies == old(replies) + Answers(waiters, answer)
    {
      assert replies + Answers([], answer) == replies;
      for j := 0 to |waiters|
        invariant replies == old(replies) + Answers(waiters[..j], answer)
      {
        assert Answers(waiters[..j + 1], answer) == Answers(waiters[..j], answer) + [Reply(waiters[j], answer)];
        replies := replies + [Reply(waiters[j], answer)];
      }
      assert waiters[..|waiters|] == waiters;
    }

    method FetchChunk(hash: ChunkHash, reply: Option<Waiter>, pin: bool, connected: seq<PeerId>, now: nat)
      requires Valid()
      modifies this
      ensures Valid() && View() == FetchModel.FetchChunk(env, old(View()), hash, reply, pin, connected, now)
    {
      if reply.Some? {
        issued := issued[reply.value := hash];
      }
      if hash in sessions {
        var session := sessions[hash];
        if reply.Some? {
          session := session.(waiters := session.waiters + [reply.value]);
        }
        session := session.(pin := session.pin || pin);
        sessions := sessions[hash := session];
        assert session.waiters == old(sessions)[hash].waiters + AsSeq(reply);
        return;
      }
      if !pin && hash in blockedUntil && blockedUntil[hash] > now {
        if reply.Some? {
          SendAll([reply.value], None);
        }
        assert replies == old(replies) + Answers(AsSeq(reply), None);
        return;
      }
      sessions := sessions[hash := Session(AsSeq(reply), map[], {}, pin)];
      WalkDown(hash, connected, now);
    }

    method WalkDown(hash: ChunkHash, connected: seq<PeerId>, now: nat)
      requires Valid()
      modifies this
      ensures Valid() && View() == FetchModel.WalkDown(env, old(View()), hash, connected, now)
    {
      if hash !in sessions {
        return;
      }
      var targets := NextTargets(env.score, hash, connected, sessions[hash].tried, MAX_FETCH_TARGETS);
      if targets == [] {
        var session := sessions[hash];
        sessions := sessions - {hash};
        SendAll(session.waiters, None);
        if session.pin {
          blockedUntil := blockedUntil[hash := now + CHUNK_FETCH_BACKOFF];
        }
        return;
      }
      AskTargets(hash, targets);
    }

    method AskTargets(hash: ChunkHash, targets: seq<PeerId>)
      requires Valid() && hash in sessions
      modifies this
      ensures Valid() && View() == Launch(old(View()), hash, targets)
    {
      ghost var start := View();
      LaunchNothing(start, hash);
      for j := 0 to |targets|
        invariant View() == Launch(start, hash, targets[..j])
      {
        LaunchOneMore(start, hash, targets[..j], targets[j]);
        assert targets[..j + 1] == targets[..j] + [targets[j]];
        AskOne(hash, targets[j]);
      }
      assert targets[..|targets|] == targets;
    }

    method AskOne(hash: ChunkHash, peer: PeerId)
      requires hash in sessions
      modifies this
      ensures View() == var w := old(View()); var s := w.sessions[hash]; var id := w.nextRequest;
              w.(sessions := w.sessions[hash := s.(attempts := s.attempts[id := peer], tried := s.tried + {peer})],
                 requests := w.requests[id := hash],
                 nextRequest := id + 1,
                 asks := w.asks + [Ask(id, peer, hash)])
    {
      var id := SendRequest(peer, hash);
      if hash in sessions {
        var session := sessions[hash];
        sessions := sessions[hash := session.(attempts := session.attempts[id := peer],
                                              tried := session.tried + {peer})];
      }
      requests := requests[id := hash];
    }

    method HandleResponse(id: RequestId, data: Bytes, connected: seq<PeerId>, now: nat)
      requires Valid()
      modifies this, storage
      ensures Valid() && View() == FetchModel.HandleResponse(env, old(View()), id, data, connected, now)
    {
      if id !in requests {
        return;
      }
      var hash := requests[id];
      requests := requests - {id};
      if env.sha(data) != hash {
        OnAttemptFailed(hash, id, connected, now);
        return;
      }
      if hash !in sessions {
        return;
      }
      var session := sessions[hash];
      sessions := sessions - {hash};
      Forget(session.attempts.Keys);
      Keep(hash, session.pin, data, now);
      SendAll(session.waiters, Some(data));
    }

    method Forget(ids: set<RequestId>)
      modifies `requests
      ensures requests == old(requests) - ids
    {
      var left := ids;
      ghost var gone := {};
      while left != {}
        invariant left + gone == ids && requests == old(requests) - gone
        decreases |left|
      {
        var id :| id in left;
        MapRemoveTwice(old(requests), gone, {id});
        requests := requests - {id};
        left, gone := left - {id}, gone + {id};
      }
      assert gone == ids;
    }

    method Keep(hash: ChunkHash, pin: bool, data: Bytes, now: nat)
      requires Valid()
      modifies `blockedUntil, storage
      ensures Valid() && View() == FetchModel.Keep(env, old(View()), hash, pin, data, now)
    {
      if pin {
        var pinned := storage.TryPin([data]);
        if !pinned {
          storage.Cache(data);
          blockedUntil := blockedUntil[hash := now + CHUNK_FETCH_BACKOFF];
        }
      } else {
        storage.Cache(data);
      }
    }

    method HandleFailure(id: RequestId, connected: seq<PeerId>, now: nat)
      requires Valid()
      modifies this
      ensures Valid() && View() == FetchModel.HandleFailure(env, old(View()), id, connected, now)
    {
      if id !in requests {
        return;
      }
      var hash := requests[id];
      requests := requests - {id};
      OnAttemptFailed(hash, id, connected, now);
    }

    method OnAttemptFailed(hash: ChunkHash, id: RequestId, connected: seq<PeerId>, now: nat)
      requires Valid()
      modifies this
      ensures Valid() && View() == FetchModel.OnAttemptFailed(env, old(View()), hash, id, connected, now)
    {
      if hash !in sessions {
        return;
      }
      var session := sessions[hash];
      session := session.(attempts := session.attempts - {id});
      sessions := sessions[hash := session];
      if session.attempts != map[] {
        return;
      }
      WalkDown(hash, connected, now);
    }
  }
}
