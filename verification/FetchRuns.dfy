/** Runs of the chunk fetch state machine: answers, asked peers, termination, completeness. */
module FetchRuns {
  import opened Domain
  import opened Rendezvous
  import opened StorageModel
  import opened FetchModel
  import opened FetchSafety

  // ---------------------------------------------------------------- one session, one event

  /** The peers that were asked for `h`, in order. */
  function AskedFor(asks: seq<Ask>, h: ChunkHash): seq<PeerId> {
    if asks == [] then []
    else AskedFor(asks[..|asks| - 1], h) + if asks[|asks| - 1].hash == h then [asks[|asks| - 1].peer] else []
  }

  lemma {:induction false} AskedInRound(asks: seq<Ask>, from: RequestId, targets: seq<PeerId>, hash: ChunkHash,
                                        h: ChunkHash)
    ensures AskedFor(asks + Round(from, targets, hash), h) == AskedFor(asks, h) + if h == hash then targets else []
  {
    if targets == [] {
      assert asks + Round(from, targets, hash) == asks;
    } else {
      var front, ask := targets[..|targets| - 1], Ask(from + |targets| - 1, targets[|targets| - 1], hash);
      var own := if h == hash then front else [];
      RoundStep(from, targets, hash);
      hide AskedFor, Round;
      AskedInRound(asks, from, front, hash, h);
      AppendAssociative(asks, Round(from, front, hash), [ask]);
      AskedStep(asks + Round(from, front, hash), ask, h);
      AppendAssociative(AskedFor(asks, h), own, if hash == h then [ask.peer] else []);
    }
  }

  lemma RoundStep(from: RequestId, targets: seq<PeerId>, hash: ChunkHash)
    requires targets != []
    ensures var n := |targets| - 1;
            && Round(from, targets, hash) == Round(from, targets[..n], hash) + [Ask(from + n, targets[n], hash)]
            && targets == targets[..n] + [targets[n]]
  {
  }

  lemma AskedStep(asks: seq<Ask>, ask: Ask, h: ChunkHash)
    ensures AskedFor(asks + [ask], h) == AskedFor(asks, h) + if ask.hash == h then [ask.peer] else []
  {
    assert (asks + [ask])[..|asks|] == asks;
  }

  function TriedIn(w: World, h: ChunkHash): set<PeerId> {
    if h in w.sessions then w.sessions[h].tried else {}
  }

  function PendingIn(w: World, h: ChunkHash): nat {
    if h in w.sessions then |w.sessions[h].attempts| else 0
  }

  /** From `w` to `w'`, `outcomes` attempts for `h` ended and then `targets` were asked. */
  ghost predicate Moves(env: Env, w: World, w': World, h: ChunkHash, connected: seq<PeerId>, outcomes: nat,
                        targets: seq<PeerId>)
  {
    && AskedFor(w'.asks, h) == AskedFor(w.asks, h) + targets
    && TriedIn(w', h) == TriedIn(w, h) + ToSet(targets)
    && PendingIn(w', h) + outcomes == PendingIn(w, h) + |targets|
    && (targets == [] || targets == NextTargets(env.score, h, connected, TriedIn(w, h), MAX_FETCH_TARGETS))
  }

  /** Nothing about the session of `h` changed but for `outcomes` attempts that ended. */
  ghost predicate Idle(w: World, w': World, h: ChunkHash, outcomes: nat) {
    w'.asks == w.asks && TriedIn(w', h) == TriedIn(w, h) && PendingIn(w', h) + outcomes == PendingIn(w, h)
  }

  lemma IdleThenMoves(env: Env, w: World, w1: World, w': World, h: ChunkHash, connected: seq<PeerId>, outcomes: nat,
                      targets: seq<PeerId>)
    requires Idle(w, w1, h, outcomes) && Moves(env, w1, w', h, connected, 0, targets)
    ensures Moves(env, w, w', h, connected, outcomes, targets)
  {
  }

  lemma IdleMoves(env: Env, w: World, w': World, h: ChunkHash, connected: seq<PeerId>, outcomes: nat)
    requires Idle(w, w', h, outcomes)
    ensures Moves(env, w, w', h, connected, outcomes, [])
  {
    assert ToSet<PeerId>([]) == {};
    assert AskedFor(w.asks, h) + [] == AskedFor(w.asks, h);
  }

  lemma WalkDownMoves(env: Env, w: World, hash: ChunkHash, connected: seq<PeerId>, now: nat, h: ChunkHash)
    returns (targets: seq<PeerId>)
    requires hash in w.sessions && w.sessions[hash].attempts == map[] && NoDuplicates(connected)
    ensures var w' := WalkDown(env, w, hash, connected, now);
            && (h in w'.sessions ==> h in w.sessions && Moves(env, w, w', h, connected, 0, targets))
            && (hash !in w'.sessions <==> ToSet(connected) <= w.sessions[hash].tried)
  {
    var w' := WalkDown(env, w, hash, connected, now);
    var next := NextTargets(env.score, hash, connected, w.sessions[hash].tried, MAX_FETCH_TARGETS);
    TargetsMeaning(env.score, hash, connected, w.sessions[hash].tried, MAX_FETCH_TARGETS);
    if next == [] {
      targets := [];
      if h in w'.sessions { IdleMoves(env, w, w', h, connected, 0); }
    } else {
      hide Moves, Launch;
      targets := if h == hash then next else [];
      if h == hash {
        LaunchMovesOwn(env, w, hash, next, connected);
      } else {
        LaunchSparesOthers(env, w, hash, next, connected, h);
      }
      LaunchKeepsSessions(w, hash, next);
    }
  }

  lemma LaunchMovesOwn(env: Env, w: World, hash: ChunkHash, next: seq<PeerId>, connected: seq<PeerId>)
    requires hash in w.sessions && w.sessions[hash].attempts == map[]
    requires next == NextTargets(env.score, hash, connected, w.sessions[hash].tried, MAX_FETCH_TARGETS)
    ensures Moves(env, w, Launch(w, hash, next), hash, connected, 0, next)
  {
    hide Numbered, NextTargets;
    AskedInRound(w.asks, w.nextRequest, next, hash, hash);
    LaunchCounts(w, hash, next);
  }

  lemma LaunchSparesOthers(env: Env, w: World, hash: ChunkHash, next: seq<PeerId>, connected: seq<PeerId>, h: ChunkHash)
    requires hash in w.sessions && h != hash
    ensures h in Launch(w, hash, next).sessions ==>
              h in w.sessions && Moves(env, w, Launch(w, hash, next), h, connected, 0, [])
  {
    hide Numbered, NextTargets;
    AskedInRound(w.asks, w.nextRequest, next, hash, h);
    assert ToSet<PeerId>([]) == {};
  }

  lemma LaunchKeepsSessions(w: World, hash: ChunkHash, next: seq<PeerId>)
    requires hash in w.sessions
    ensures Launch(w, hash, next).sessions.Keys == w.sessions.Keys
  {
  }

  lemma LaunchCounts(w: World, hash: ChunkHash, next: seq<PeerId>)
    requires hash in w.sessions && w.sessions[hash].attempts == map[]
    ensures PendingIn(Launch(w, hash, next), hash) == |next|
  {
    hide Numbered;
    NumberedSize(w.nextRequest, next);
    EmptyUnion(Numbered(w.nextRequest, next));
  }

  /** The chunk whose attempt a response or a failure ends. */
  function OutcomeOf(w: World, e: Event): Option<ChunkHash> {
    match e
    case Response(id, _, _, _) => if id in w.requests then Some(w.requests[id]) else None
    case Failure(id, _, _) => if id in w.requests then Some(w.requests[id]) else None
    case _ => None
  }

  function Connected(e: Event): seq<PeerId> {
    if e.Elsewhere? then [] else e.connected
  }

  function Count(b: bool): nat { if b then 1 else 0 }

  lemma FetchMoves(env: Env, w: World, e: Event, h: ChunkHash) returns (targets: seq<PeerId>)
    requires Enabled(env, w, e) && e.Fetch?
    ensures var w' := FetchChunk(env, w, e.hash, e.reply, e.pin, e.connected, e.now);
            h in w'.sessions ==> Moves(env, w, w', h, e.connected, 0, targets)
  {
    hide WalkDown, Moves;
    var hash := e.hash;
    var w' := FetchChunk(env, w, hash, e.reply, e.pin, e.connected, e.now);
    if hash in w.sessions || (!e.pin && hash in w.blockedUntil && w.blockedUntil[hash] > e.now) {
      targets := [];
      IdleMoves(env, w, w', h, e.connected, 0);
    } else {
      var started := Issue(w, hash, e.reply).(
        sessions := w.sessions[hash := Session(AsSeq(e.reply), map[], {}, e.pin)]);
      targets := WalkDownMoves(env, started, hash, e.connected, e.now, h);
      if h in w'.sessions { IdleThenMoves(env, w, started, w', h, e.connected, 0, targets); }
    }
  }

  lemma FailureMoves(env: Env, w: World, id: RequestId, connected: seq<PeerId>, now: nat, h: ChunkHash)
    returns (targets: seq<PeerId>)
    requires InvBut(env, w, None) && NoDuplicates(connected)
    ensures var w' := HandleFailure(env, w, id, connected, now);
            h in w'.sessions ==>
                Moves(env, w, w', h, connected, Count(id in w.requests && w.requests[id] == h), targets)
    ensures id in w.requests ==>
              var hash := w.requests[id];
              && hash in w.sessions
              && (hash !in HandleFailure(env, w, id, connected, now).sessions <==>
                    |w.sessions[hash].attempts| == 1 && ToSet(connected) <= w.sessions[hash].tried)
  {
    hide WalkDown, Moves, Records, OneFate;
    var w' := HandleFailure(env, w, id, connected, now);
    if id !in w.requests {
      targets := [];
      IdleMoves(env, w, w', h, connected, 0);
    } else {
      var hash := w.requests[id];
      RecordedSession(w, id);
      FailedAttemptKeepsInv(env, w, id);
      var left := AfterFailedAttempt(w, id);
      if left.sessions[hash].attempts == map[] {
        targets := WalkDownMoves(env, left, hash, connected, now, h);
        if h in w'.sessions { IdleThenMoves(env, w, left, w', h, connected, Count(hash == h), targets); }
      } else {
        targets := [];
        if h in w'.sessions { IdleMoves(env, w, w', h, connected, Count(hash == h)); }
      }
    }
  }

  /**
   * One event, seen from one session that is live after it: at most one attempt ended, and
   * whoever was asked since are the next best connected peers that had not been tried.
   */
  lemma SessionProgress(env: Env, w: World, e: Event, h: ChunkHash) returns (targets: seq<PeerId>)
    requires Inv(env, w) && Enabled(env, w, e) && h in Next(env, w, e).sessions
    ensures Moves(env, w, Next(env, w, e), h, Connected(e), Count(OutcomeOf(w, e) == Some(h)), targets)
  {
    hide FetchChunk, HandleFailure, Moves, InvBut;
    match e
    case Fetch(hash, reply, pin, connected, now) =>
      targets := FetchMoves(env, w, e, h);
    case Failure(id, connected, now) =>
      targets := FailureMoves(env, w, id, connected, now, h);
    case Elsewhere(_) =>
      targets := [];
      IdleMoves(env, w, Next(env, w, e), h, [], 0);
    case Response(id, data, connected, now) =>
      if id in w.requests && env.sha(data) == w.requests[id] {
        targets := [];
        SuccessIsIdle(env, w, id, data, connected, now, h);
        IdleMoves(env, w, Next(env, w, e), h, connected, 0);
      } else {
        BadResponseIsAFailure(env, w, id, data, connected, now);
        targets := FailureMoves(env, w, id, connected, now, h);
      }
  }

  lemma SuccessIsIdle(env: Env, w: World, id: RequestId, data: Bytes, connected: seq<PeerId>, now: nat, h: ChunkHash)
    requires Inv(env, w) && id in w.requests && env.sha(data) == w.requests[id]
    requires h in HandleResponse(env, w, id, data, connected, now).sessions
    ensures h != w.requests[id] && Idle(w, HandleResponse(env, w, id, data, connected, now), h, 0)
  {
    hide Records, OneFate, Outstanding, CacheChunk, TryPin;
    RecordedSession(w, id);
  }

  lemma KeptChunkIsReadable(env: Env, w: World, hash: ChunkHash, pin: bool, data: Bytes, now: nat)
    requires WellFormed(w.store) && env.sha(data) == hash
    ensures var w' := Keep(env, w, hash, pin, data, now);
            && (pin ==>
                  hash in w'.store.pinned
                  || (hash in w'.blockedUntil && w'.blockedUntil[hash] == now + CHUNK_FETCH_BACKOFF))
            && (|data| <= w.store.maxCached ==> Contains(w'.store, hash))
  {
    TryPinIsExact(env.sha, w.store, [data]);
    var _ := CacheDropsShortestOldestPrefix(env.sha, w.store, data);
    assert data in [data];
  }

  /**
   * Good bytes end the session: all its callers get them, none of its requests is left, and
   * the chunk can be read from then on if it fits the cache.  A chunk to pin is pinned, or
   * it backs off.
   */
  lemma SuccessServesEveryCaller(env: Env, w: World, id: RequestId, data: Bytes, connected: seq<PeerId>, now: nat)
    requires Inv(env, w) && id in w.requests && env.sha(data) == w.requests[id]
    ensures var hash := w.requests[id]; var w' := HandleResponse(env, w, id, data, connected, now);
            && hash in w.sessions && hash !in w'.sessions
            && w'.replies == w.replies + Answers(w.sessions[hash].waiters, Some(data))
            && (forall r :: r in w'.requests <==> r in w.requests && w.requests[r] != hash)
            && (w.sessions[hash].pin ==>
                  hash in w'.store.pinned
                  || (hash in w'.blockedUntil && w'.blockedUntil[hash] == now + CHUNK_FETCH_BACKOFF))
            && (|data| <= w.store.maxCached ==> Contains(w'.store, hash))
  {
    hide OneFate, Outstanding, CacheChunk, TryPin;
    var hash := w.requests[id];
    var session := w.sessions[hash];
    var closed := w.(requests := w.requests - {id} - session.attempts.Keys, sessions := w.sessions - {hash});
    KeptChunkIsReadable(env, closed, hash, session.pin, data, now);
  }

  lemma PinsOrBacksOff(env: Env, w: World, hash: ChunkHash, pin: bool, data: Bytes, now: nat)
    requires WellFormed(w.store) && env.sha(data) == hash
    ensures var s, w' := w.store, Keep(env, w, hash, pin, data, now);
            var more := if hash in s.pinned then 0 else if hash in s.cached then |s.cached[hash]| else |data|;
            var pins := pin && Total(s.pinned) + more <= s.maxPinned;
            && (pins ==>
                  && w'.blockedUntil == w.blockedUntil && w'.store.pinned.Keys == s.pinned.Keys + {hash}
                  && forall x :: Contains(s, x) ==> Lookup(w'.store, x) == Lookup(s, x))
            && (!pins ==>
                  && w'.store == CacheChunk(env.sha, s, data) && w'.store.pinned == s.pinned
                  && w'.blockedUntil == if pin then w.blockedUntil[hash := now + CHUNK_FETCH_BACKOFF]
                                        else w.blockedUntil)
            && (pin && !pins ==> hash !in s.pinned)
  {
    hide CacheChunk, TryPin, Pinnable, Total, FirstOf;
    TryPinIsExact(env.sha, w.store, [data]);
    OneChunkPinnable(env.sha, w.store, data);
    var _ := CacheDropsShortestOldestPrefix(env.sha, w.store, data);
    assert (set d | d in [data] :: env.sha(d)) == {hash};
  }

  /** What one chunk adds to the pinned bytes: nothing, its cached bytes, or the new bytes. */
  lemma OneChunkPinnable(sha: Sha, s: Store, data: Bytes)
    ensures var h := sha(data);
            Total(Pinnable(sha, s, [data])) ==
              if h in s.pinned then 0 else if h in s.cached then |s.cached[h]| else |data|
  {
    var h, m := sha(data), Pinnable(sha, s, [data]);
    assert [data][..0] == [] && FirstOf(sha, [data]) == map[h := data];
    if h in s.pinned {
      assert m == map[];
    } else {
      TotalRemove(m, h);
      assert m - {h} == map[];
    }
  }

  /**
   * Good bytes for a session that pins are pinned, without a back-off, exactly when they fit
   * the pin limit; nothing is lost then.  If they do not fit, they are cached and the chunk
   * backs off.  Bytes for a plain read are cached, and change neither pins nor back-offs.
   */
  lemma PinResponseIsExact(env: Env, w: World, id: RequestId, data: Bytes, connected: seq<PeerId>, now: nat)
    requires Inv(env, w) && id in w.requests && env.sha(data) == w.requests[id]
    ensures var hash := w.requests[id]; var s, w' := w.store, HandleResponse(env, w, id, data, connected, now);
            var more := if hash in s.pinned then 0 else if hash in s.cached then |s.cached[hash]| else |data|;
            && hash in w.sessions
            && (w.sessions[hash].pin ==>
                  && (Total(s.pinned) + more <= s.maxPinned <==>
                        hash in w'.store.pinned && w'.blockedUntil == w.blockedUntil)
                  && (Total(s.pinned) + more <= s.maxPinned ==>
                        && w'.store.pinned.Keys == s.pinned.Keys + {hash}
                        && forall x :: Contains(s, x) ==> Lookup(w'.store, x) == Lookup(s, x))
                  && (Total(s.pinned) + more > s.maxPinned ==>
                        && w'.store == CacheChunk(env.sha, s, data) && w'.store.pinned == s.pinned
                        && w'.blockedUntil == w.blockedUntil[hash := now + CHUNK_FETCH_BACKOFF]))
            && (!w.sessions[hash].pin ==>
                  && w'.store == CacheChunk(env.sha, s, data) && w'.store.pinned == s.pinned
                  && w'.blockedUntil == w.blockedUntil)
  {
    hide OneFate, Outstanding, CacheChunk, TryPin;
    var hash := w.requests[id];
    RecordedSession(w, id);
    var session := w.sessions[hash];
    var closed := w.(requests := w.requests - {id} - session.attempts.Keys, sessions := w.sessions - {hash});
    PinsOrBacksOff(env, closed, hash, session.pin, data, now);
  }

  /** When a failed pin stops backing off, if it does at all. */
  function BackoffOf(w: World, h: ChunkHash): Option<nat> {
    if h in w.blockedUntil then Some(w.blockedUntil[h]) else None
  }

  predicate SameSession(s: Session, t: Session) {
    s.waiters == t.waiters && s.pin == t.pin
  }

  lemma WalkDownEnds(env: Env, w: World, hash: ChunkHash, connected: seq<PeerId>, now: nat, h: ChunkHash)
    requires hash in w.sessions
    ensures var w' := WalkDown(env, w, hash, connected, now);
            && (h in w'.sessions ==> h in w.sessions && SameSession(w'.sessions[h], w.sessions[h]))
            && (h in w.sessions && h !in w'.sessions ==> h == hash)
            && BackoffOf(w', h) == if h == hash && w.sessions[h].pin && h !in w'.sessions
                                   then Some(now + CHUNK_FETCH_BACKOFF) else BackoffOf(w, h)
  {
    hide Numbered, NextTargets, ToSet, Round, Filed;
  }

  lemma AttemptEnds(env: Env, w: World, id: RequestId, connected: seq<PeerId>, now: nat, h: ChunkHash)
    requires InvBut(env, w, None)
    ensures var w' := HandleFailure(env, w, id, connected, now);
            && (h in w'.sessions ==> h in w.sessions && SameSession(w'.sessions[h], w.sessions[h]))
            && BackoffOf(w', h) == if h in w.sessions && w.sessions[h].pin && h !in w'.sessions
                                   then Some(now + CHUNK_FETCH_BACKOFF) else BackoffOf(w, h)
  {
    hide WalkDown, OneFate, Outstanding, Records;
    if id in w.requests {
      RecordedSession(w, id);
      WalkDownEnds(env, AfterFailedAttempt(w, id), w.requests[id], connected, now, h);
    }
  }

  /** What a fetch makes of the sessions and the back-offs. */
  lemma FetchEnds(env: Env, w: World, e: Event, h: ChunkHash)
    requires e.Fetch?
    ensures var w' := FetchChunk(env, w, e.hash, e.reply, e.pin, e.connected, e.now);
            var pins := (h in w.sessions && w.sessions[h].pin) || (e.hash == h && e.pin);
            && (h in w'.sessions ==>
                  && w'.sessions[h].pin == pins
                  && w'.sessions[h].waiters == (if h in w.sessions then w.sessions[h].waiters else [])
                       + (if e.hash == h && e.reply.Some? then [e.reply.value] else []))
            && BackoffOf(w', h) == if pins && h !in w'.sessions then Some(e.now + CHUNK_FETCH_BACKOFF)
                                   else BackoffOf(w, h)
  {
    hide WalkDown;
    if e.hash !in w.sessions && !Blocked(w, e) {
      var started := Issue(w, e.hash, e.reply).(
        sessions := w.sessions[e.hash := Session(AsSeq(e.reply), map[], {}, e.pin)]);
      WalkDownEnds(env, started, e.hash, e.connected, e.now, h);
    }
  }

  lemma SuccessKeepsSessions(env: Env, w: World, id: RequestId, data: Bytes, connected: seq<PeerId>, now: nat,
                             h: ChunkHash)
    requires WellFormed(w.store) && id in w.requests && env.sha(data) == w.requests[id]
    ensures var w' := HandleResponse(env, w, id, data, connected, now);
            h in w'.sessions ==> h in w.sessions && SameSession(w'.sessions[h], w.sessions[h])
  {
    hide TryPin, CacheChunk;
  }

  /** The waiters and the pin of a session come from the fetches that opened and joined it. */
  lemma SessionCollectsFetches(env: Env, w: World, e: Event, h: ChunkHash)
    requires Inv(env, w) && Enabled(env, w, e) && h in Next(env, w, e).sessions
    ensures var session := Next(env, w, e).sessions[h]; var joins := e.Fetch? && e.hash == h;
            && (session.pin <==> (h in w.sessions && w.sessions[h].pin) || (joins && e.pin))
            && session.waiters == (if h in w.sessions then w.sessions[h].waiters else [])
                 + (if joins && e.reply.Some? then [e.reply.value] else [])
  {
    hide FetchChunk, HandleFailure, HandleResponse, Records, Outstanding, OneFate;
    match e
    case Fetch(_, _, _, _, _) => FetchEnds(env, w, e, h);
    case Failure(id, connected, now) => AttemptEnds(env, w, id, connected, now, h);
    case Elsewhere(_) =>
    case Response(id, data, connected, now) =>
      if id in w.requests && env.sha(data) == w.requests[id] {
        SuccessKeepsSessions(env, w, id, data, connected, now, h);
      } else {
        BadResponseIsAFailure(env, w, id, data, connected, now);
        AttemptEnds(env, w, id, connected, now, h);
      }
  }

  /**
   * But for the good responses above, a back-off starts exactly when a session that pins ends,
   * no other back-off changes, and the store stays as it is.
   */
  lemma BackoffIsExact(env: Env, w: World, e: Event, h: ChunkHash)
    requires Inv(env, w) && Enabled(env, w, e)
    requires e.Response? && e.id in w.requests ==> env.sha(e.data) != w.requests[e.id]
    ensures var w' := Next(env, w, e);
            var pins := (h in w.sessions && w.sessions[h].pin) || (e.Fetch? && e.hash == h && e.pin);
            if pins && h !in w'.sessions
            then !e.Elsewhere? && BackoffOf(w', h) == Some(e.now + CHUNK_FETCH_BACKOFF)
            else BackoffOf(w', h) == BackoffOf(w, h)
    ensures !e.Elsewhere? ==> Next(env, w, e).store == w.store
  {
    hide FetchChunk, HandleFailure, HandleResponse, Records, Outstanding, OneFate;
    match e
    case Fetch(_, _, _, _, _) =>
      FetchEnds(env, w, e, h);
      FetchKeepsStore(env, w, e);
    case Failure(id, connected, now) =>
      AttemptEnds(env, w, id, connected, now, h);
      FailureKeepsStore(env, w, id, connected, now);
    case Elsewhere(_) =>
    case Response(id, data, connected, now) =>
      BadResponseIsAFailure(env, w, id, data, connected, now);
      AttemptEnds(env, w, id, connected, now, h);
      FailureKeepsStore(env, w, id, connected, now);
  }

  lemma FirstTargets(score: Score, h: ChunkHash, connected: seq<PeerId>)
    ensures NextTargets(score, h, connected, {}, MAX_FETCH_TARGETS) == TopPeers(score, h, connected, 3)
    ensures TopPeers(score, h, connected, 3) == [] <==> connected == []
  {
    AllUntried(Ranking(score, h, connected), {});
    WholeRanking(score, h, connected);
  }

  lemma FirstRound(env: Env, w: World, h: ChunkHash, connected: seq<PeerId>, now: nat)
    requires h in w.sessions && w.sessions[h].tried == {}
    ensures var w' := WalkDown(env, w, h, connected, now);
            && (h in w'.sessions <==> connected != [])
            && AskedFor(w'.asks, h) == AskedFor(w.asks, h) + TopPeers(env.score, h, connected, 3)
            && w'.replies == if connected == [] then w.replies + Answers(w.sessions[h].waiters, None) else w.replies
  {
    hide AskedFor, TopPeers, NextTargets, Numbered, Round, Filed;
    FirstTargets(env.score, h, connected);
    var targets := TopPeers(env.score, h, connected, 3);
    AskedInRound(w.asks, w.nextRequest, targets, h, h);
    assert AskedFor(w.asks, h) + [] == AskedFor(w.asks, h);
  }

  /**
   * A fetch without a session opens one, with the three best-ranked connected peers asked at
   * once, unless nobody is connected or it is a plain read of a chunk that backs off; such a
   * read asks nobody and is answered `None` at once.
   */
  lemma FetchOpensUnlessBlocked(env: Env, w: World, e: Event)
    requires Inv(env, w) && Enabled(env, w, e) && e.Fetch? && e.hash !in w.sessions
    ensures var w' := Next(env, w, e); var h := e.hash;
            var refused := !e.pin && h in w.blockedUntil && w.blockedUntil[h] > e.now;
            && (h in w'.sessions <==> e.connected != [] && !refused)
            && AskedFor(w'.asks, h) ==
                 AskedFor(w.asks, h) + (if refused then [] else TopPeers(env.score, h, e.connected, 3))
            && w'.replies == w.replies
                 + (if h !in w'.sessions && e.reply.Some? then [Reply(e.reply.value, None)] else [])
  {
    hide WalkDown, AskedFor, TopPeers;
    var h := e.hash;
    assert AskedFor(w.asks, h) + [] == AskedFor(w.asks, h);
    if !Blocked(w, e) {
      var started := Issue(w, h, e.reply).(sessions := w.sessions[h := Session(AsSeq(e.reply), map[], {}, e.pin)]);
      FirstRound(env, started, h, e.connected, e.now);
    }
  }

  // ---------------------------------------------------------------- runs

  ghost predicate Initial(env: Env, w: World) {
    && w.sessions == map[] && w.requests == map[] && w.replies == [] && w.issued == map[]
    && Stored(env, w.store)
  }

  ghost predicate IsStep(env: Env, w: World, e: Event, w': World) {
    WellFormed(w.store) && Enabled(env, w, e) && w' == Next(env, w, e)
  }

  ghost predicate IsRun(env: Env, worlds: seq<World>, events: seq<Event>) {
    && |worlds| == |events| + 1 && Initial(env, worlds[0])
    && forall i :: 0 <= i < |events| ==> IsStep(env, worlds[i], events[i], worlds[i + 1])
  }

  lemma InitialInv(env: Env, w: World)
    requires Initial(env, w)
    ensures Inv(env, w)
  {
  }

  lemma {:induction false} RunKeepsInv(env: Env, worlds: seq<World>, events: seq<Event>, i: nat)
    requires IsRun(env, worlds, events) && i < |worlds|
    ensures Inv(env, worlds[i])
  {
    hide Next, Enabled, Inv;
    if i == 0 {
      InitialInv(env, worlds[0]);
    } else {
      RunKeepsInv(env, worlds, events, i - 1);
      assert IsStep(env, worlds[i - 1], events[i - 1], worlds[i - 1 + 1]);
      EventKeepsInv(env, worlds[i - 1], events[i - 1]);
    }
  }

  /** `sessions` and `requests` stay inverse to each other, with one to three attempts a session. */
  lemma RequestsAreAttempts(env: Env, worlds: seq<World>, events: seq<Event>, i: nat)
    requires IsRun(env, worlds, events) && i < |worlds|
    ensures var w := worlds[i];
            && (forall id, h :: id in w.requests && w.requests[id] == h <==>
                h in w.sessions && id in w.sessions[h].attempts)
            && (forall h :: h in w.sessions ==> 1 <= |w.sessions[h].attempts| <= MAX_FETCH_TARGETS)
  {
    hide OneFate, Stored;
    RunKeepsInv(env, worlds, events, i);
    PairedIsInverse(worlds[i].sessions, worlds[i].requests);
  }

  lemma PairedIsInverse(sessions: Sessions, requests: map<RequestId, ChunkHash>)
    requires Paired(sessions, requests)
    ensures forall id, h :: id in requests && requests[id] == h <==> h in sessions && id in sessions[h].attempts
  {
  }

  predicate AnsweredAt(w: World, x: Waiter, k: nat) {
    k < |w.replies| && w.replies[k].to == x
  }

  /**
   * Every caller is waiting in exactly one place or has been answered exactly once, and with
   * bytes only if they have the digest that was asked for.
   */
  lemma EveryCallerHasOneFate(env: Env, worlds: seq<World>, events: seq<Event>, i: nat, x: Waiter)
    requires IsRun(env, worlds, events) && i < |worlds| && x in worlds[i].issued
    ensures var w := worlds[i]; var hash := w.issued[x];
            && ((exists k: nat :: AnsweredAt(w, x, k)) <==> !(hash in w.sessions && x in w.sessions[hash].waiters))
            && (forall k: nat, l: nat :: AnsweredAt(w, x, k) && AnsweredAt(w, x, l) ==> k == l)
            && (forall k: nat :: AnsweredAt(w, x, k) && w.replies[k].answer.Some? ==>
                env.sha(w.replies[k].answer.value) == hash)
            && (forall h :: h in w.sessions && x in w.sessions[h].waiters ==>
                h == hash && NoDuplicates(w.sessions[h].waiters))
  {
    RunKeepsInv(env, worlds, events, i);
    FateOf(env, worlds[i], x);
  }

  lemma FateOf(env: Env, w: World, x: Waiter)
    requires OneFate(env.sha, w.sessions, w.replies, w.issued) && x in w.issued
    ensures (exists k: nat :: AnsweredAt(w, x, k)) <==> !IsWaiting(w.sessions, w.issued, x)
    ensures forall k: nat, l: nat :: AnsweredAt(w, x, k) && AnsweredAt(w, x, l) ==> k == l
  {
    if x in Answered(w.replies) {
      var k :| 0 <= k < |w.replies| && w.replies[k].to == x;
      assert AnsweredAt(w, x, k);
    }
    assert forall k: nat :: AnsweredAt(w, x, k) ==> x in Answered(w.replies);
  }

  // ---------------------------------------------------------------- over the life of a session

  /** `h` has a session after each of the events `i` to `j - 1`. */
  ghost predicate Live(worlds: seq<World>, h: ChunkHash, i: nat, j: nat) {
    i <= j < |worlds| && forall k :: i < k <= j ==> h in worlds[k].sessions
  }

  lemma LastProgress(env: Env, worlds: seq<World>, events: seq<Event>, h: ChunkHash, i: nat, j: nat)
    returns (targets: seq<PeerId>)
    requires IsRun(env, worlds, events) && Live(worlds, h, i, j) && i < j
    ensures Live(worlds, h, i, j - 1)
    ensures Moves(env, worlds[j - 1], worlds[j], h, Connected(events[j - 1]),
                  Count(OutcomeOf(worlds[j - 1], events[j - 1]) == Some(h)), targets)
    ensures NoDuplicates(targets) && ToSet(targets) <= ToSet(Connected(events[j - 1])) - TriedIn(worlds[j - 1], h)
    ensures j <= |events| && (events[j - 1].Elsewhere? ==> targets == [])
  {
    hide Next, Inv, Moves;
    var w, e := worlds[j - 1], events[j - 1];
    RunKeepsInv(env, worlds, events, j - 1);
    assert IsStep(env, w, e, worlds[j - 1 + 1]);
    targets := SessionProgress(env, w, e, h);
    MovesMeaning(env, w, e, worlds[j], h, Count(OutcomeOf(w, e) == Some(h)), targets);
  }

  lemma MovesMeaning(env: Env, w: World, e: Event, w': World, h: ChunkHash, outcomes: nat, targets: seq<PeerId>)
    requires Enabled(env, w, e) && Moves(env, w, w', h, Connected(e), outcomes, targets)
    ensures NoDuplicates(targets) && ToSet(targets) <= ToSet(Connected(e)) - TriedIn(w, h)
    ensures e.Elsewhere? ==> targets == []
  {
    if targets != [] { assert targets[0] in ToSet(targets); }
    TargetsMeaning(env.score, h, Connected(e), TriedIn(w, h), MAX_FETCH_TARGETS);
  }

  lemma JoinDistinct(a: seq<PeerId>, b: seq<PeerId>)
    requires NoDuplicates(a) && NoDuplicates(b) && ToSet(a) !! ToSet(b)
    ensures NoDuplicates(a + b) && ToSet(a + b) == ToSet(a) + ToSet(b)
  {
    forall i, j | 0 <= i < |a| && 0 <= j < |b| ensures a[i] != b[j] {
      assert a[i] in ToSet(a) && b[j] in ToSet(b);
    }
  }

  /** As long as it lives, a session never asks a peer twice. */
  lemma {:induction false} SessionNeverAsksTwice(env: Env, worlds: seq<World>, events: seq<Event>, h: ChunkHash,
                                                 i: nat, j: nat) returns (asked: seq<PeerId>)
    requires IsRun(env, worlds, events) && Live(worlds, h, i, j)
    ensures AskedFor(worlds[j].asks, h) == AskedFor(worlds[i].asks, h) + asked
    ensures NoDuplicates(asked) && ToSet(asked) !! TriedIn(worlds[i], h)
    ensures TriedIn(worlds[j], h) == TriedIn(worlds[i], h) + ToSet(asked)
    decreases j
  {
    hide IsRun, TriedIn, Moves;
    asked := [];
    if i == j {
      assert AskedFor(worlds[i].asks, h) + [] == AskedFor(worlds[i].asks, h);
    } else {
      var targets := LastProgress(env, worlds, events, h, i, j);
      var before := SessionNeverAsksTwice(env, worlds, events, h, i, j - 1);
      asked := before + targets;
      var e := events[j - 1];
      AsksAddUp(env, worlds[i], worlds[j - 1], worlds[j], h, Connected(e),
                Count(OutcomeOf(worlds[j - 1], e) == Some(h)), before, targets);
    }
  }

  lemma AsksAddUp(env: Env, u: World, v: World, w: World, h: ChunkHash, connected: seq<PeerId>, outcomes: nat,
                  a: seq<PeerId>, b: seq<PeerId>)
    requires AskedFor(v.asks, h) == AskedFor(u.asks, h) + a && TriedIn(v, h) == TriedIn(u, h) + ToSet(a)
    requires Moves(env, v, w, h, connected, outcomes, b)
    requires NoDuplicates(a) && NoDuplicates(b) && ToSet(a) !! TriedIn(u, h) && ToSet(b) !! TriedIn(v, h)
    ensures AskedFor(w.asks, h) == AskedFor(u.asks, h) + (a + b) && TriedIn(w, h) == TriedIn(u, h) + ToSet(a + b)
    ensures NoDuplicates(a + b) && ToSet(a + b) !! TriedIn(u, h)
  {
    hide TriedIn, ToSet, AskedFor, NextTargets, NoDuplicates;
    JoinDistinct(a, b);
    AppendAssociative(AskedFor(u.asks, h), a, b);
  }

  /** How many attempts for `h` ended during the events `i` to `j - 1`. */
  ghost function Outcomes(worlds: seq<World>, events: seq<Event>, h: ChunkHash, i: nat, j: nat): nat
    requires i <= j <= |events| < |worlds|
    decreases j
  {
    if i == j then 0
    else Outcomes(worlds, events, h, i, j - 1) + Count(OutcomeOf(worlds[j - 1], events[j - 1]) == Some(h))
  }

  /** The peers still to be tried and the attempts still to end. */
  function Measure(universe: set<PeerId>, w: World, h: ChunkHash): nat {
    |universe - TriedIn(w, h)| + PendingIn(w, h)
  }

  lemma TryingLowersMeasure(universe: set<PeerId>, tried: set<PeerId>, targets: seq<PeerId>)
    requires NoDuplicates(targets) && ToSet(targets) <= universe - tried
    ensures |universe - (tried + ToSet(targets))| + |targets| == |universe - tried|
  {
    DistinctCardinality(targets);
    assert universe - tried == (universe - (tried + ToSet(targets))) + ToSet(targets);
  }

  /** Each outcome takes one off the measure, and nothing else changes it. */
  lemma {:induction false} OutcomesDrainMeasure(env: Env, worlds: seq<World>, events: seq<Event>,
                                                universe: set<PeerId>, h: ChunkHash, i: nat, j: nat)
    requires IsRun(env, worlds, events) && Live(worlds, h, i, j)
    requires forall k :: i <= k < j ==> ToSet(Connected(events[k])) <= universe
    ensures Outcomes(worlds, events, h, i, j) + Measure(universe, worlds[j], h) == Measure(universe, worlds[i], h)
    decreases j
  {
    hide IsRun, TriedIn, PendingIn;
    if i < j {
      var targets := LastProgress(env, worlds, events, h, i, j);
      OutcomesDrainMeasure(env, worlds, events, universe, h, i, j - 1);
      TryingLowersMeasure(universe, TriedIn(worlds[j - 1], h), targets);
    }
  }

  /**
   * A session that opens after event `i` and is still live sees fewer outcomes than there
   * are peers: it ends with the outcome of the last of them at the latest.
   */
  lemma SessionEndsWithinOneOutcomePerPeer(env: Env, worlds: seq<World>, events: seq<Event>, universe: set<PeerId>,
                                           h: ChunkHash, i: nat, j: nat)
    requires IsRun(env, worlds, events) && Live(worlds, h, i, j) && i < j && h !in worlds[i].sessions
    requires forall k :: i <= k < j ==> ToSet(Connected(events[k])) <= universe
    ensures Outcomes(worlds, events, h, i, j) + Measure(universe, worlds[j], h) == |universe|
    ensures Outcomes(worlds, events, h, i, j) < |universe|
  {
    OutcomesDrainMeasure(env, worlds, events, universe, h, i, j);
    assert universe - {} == universe;
    RequestsAreAttempts(env, worlds, events, j);
  }

  // ---------------------------------------------------------------- completeness

  /** A failed attempt ends the session exactly when it was the last and nobody is left to ask. */
  lemma FailureEndsSessionIffExhausted(env: Env, w: World, id: RequestId, connected: seq<PeerId>, now: nat)
    requires Inv(env, w) && NoDuplicates(connected) && id in w.requests
    ensures var h := w.requests[id];
            && h in w.sessions
            && (h !in HandleFailure(env, w, id, connected, now).sessions <==>
                  w.sessions[h].attempts.Keys == {id} && ToSet(connected) <= w.sessions[h].tried)
  {
    var h := w.requests[id];
    RecordedSession(w, id);
    var _ := FailureMoves(env, w, id, connected, now, h);
    var keys := w.sessions[h].attempts.Keys;
    SubsetCardinality({id}, keys);
    assert |keys| == |w.sessions[h].attempts|;
  }

  lemma WalkDownAnswers(env: Env, w: World, hash: ChunkHash, connected: seq<PeerId>, now: nat)
    requires hash in w.sessions && NoDuplicates(connected)
    ensures var w' := WalkDown(env, w, hash, connected, now);
            && (ToSet(connected) <= w.sessions[hash].tried || w'.replies == w.replies)
            && w'.replies[..|w.replies|] == w.replies
            && forall k :: |w.replies| <= k < |w'.replies| ==> w'.replies[k].to in w.sessions[hash].waiters
  {
    TargetsMeaning(env.score, hash, connected, w.sessions[hash].tried, MAX_FETCH_TARGETS);
  }

  /** `hash` has no session, the read does not pin, and a failed pin still backs off. */
  predicate Blocked(w: World, e: Event) {
    e.Fetch? && e.hash !in w.sessions && !e.pin && e.hash in w.blockedUntil && w.blockedUntil[e.hash] > e.now
  }

  /**
   * Nobody is told `None` while a connected peer has not been tried, but for a plain read
   * that meets the back-off of a failed pin.
   */
  lemma NoneMeansEveryPeerWasTried(env: Env, w: World, e: Event, k: nat)
    requires Inv(env, w) && Enabled(env, w, e)
    requires |w.replies| <= k < |Next(env, w, e).replies| && Next(env, w, e).replies[k].answer == None
    ensures var w' := Next(env, w, e); var x := w'.replies[k].to;
            || (Blocked(w, e) && e.reply == Some(x))
            || (x in w'.issued && ToSet(Connected(e)) <= TriedIn(w, w'.issued[x]))
  {
    hide FetchChunk, HandleFailure, HandleResponse, Records, Outstanding, OneFate;
    match e
    case Fetch(_, _, _, _, _) => FetchAnswers(env, w, e, k);
    case Failure(id, connected, now) => FailureAnswers(env, w, id, connected, now, k);
    case Elsewhere(_) =>
    case Response(id, data, connected, now) =>
      if id in w.requests && env.sha(data) == w.requests[id] {
        SuccessAnswers(env, w, id, data, connected, now, k);
      } else {
        BadResponseIsAFailure(env, w, id, data, connected, now);
        FailureAnswers(env, w, id, connected, now, k);
      }
  }

  lemma SuccessAnswers(env: Env, w: World, id: RequestId, data: Bytes, connected: seq<PeerId>, now: nat, k: nat)
    requires Inv(env, w) && id in w.requests && env.sha(data) == w.requests[id]
    requires |w.replies| <= k < |HandleResponse(env, w, id, data, connected, now).replies|
    ensures HandleResponse(env, w, id, data, connected, now).replies[k].answer == Some(data)
  {
    hide Records, Outstanding, OneFate, TryPin, CacheChunk;
    RecordedSession(w, id);
  }

  lemma FetchAnswers(env: Env, w: World, e: Event, k: nat)
    requires Enabled(env, w, e) && e.Fetch?
    requires |w.replies| <= k < |FetchChunk(env, w, e.hash, e.reply, e.pin, e.connected, e.now).replies|
    ensures var w' := FetchChunk(env, w, e.hash, e.reply, e.pin, e.connected, e.now); var x := w'.replies[k].to;
            || (Blocked(w, e) && e.reply == Some(x))
            || (x in w'.issued && ToSet(e.connected) <= TriedIn(w, w'.issued[x]))
  {
    hide WalkDown;
    if e.hash !in w.sessions && !Blocked(w, e) {
      var started := Issue(w, e.hash, e.reply).(
        sessions := w.sessions[e.hash := Session(AsSeq(e.reply), map[], {}, e.pin)]);
      WalkDownAnswers(env, started, e.hash, e.connected, e.now);
      WalkDownFrame(env, started, e.hash, e.connected, e.now);
    }
  }

  lemma FailureAnswers(env: Env, w: World, id: RequestId, connected: seq<PeerId>, now: nat, k: nat)
    requires Inv(env, w) && NoDuplicates(connected)
    requires |w.replies| <= k < |HandleFailure(env, w, id, connected, now).replies|
    ensures var w' := HandleFailure(env, w, id, connected, now); var x := w'.replies[k].to;
            x in w'.issued && ToSet(connected) <= TriedIn(w, w'.issued[x])
  {
    hide WalkDown, Records, Outstanding;
    if id in w.requests {
      RecordedSession(w, id);
      var left, hash := AfterFailedAttempt(w, id), w.requests[id];
      WalkDownAnswers(env, left, hash, connected, now);
      WalkDownFrame(env, left, hash, connected, now);
    }
  }

  // ---------------------------------------------------------------- down the ranking

  /** After a prefix of a ranking, the untried peers are the rest of it. */
  lemma {:induction false} UntriedAfterPrefix(ps: seq<PeerId>, k: nat)
    requires NoDuplicates(ps) && k <= |ps|
    ensures Untried(ps, ToSet(ps[..k])) == ps[k..]
  {
    assert ps == ps[..k] + ps[k..];
    UntriedSplit(ps[..k], ps[k..], ToSet(ps[..k]));
    NoneUntried(ps[..k], ToSet(ps[..k]));
    forall i | 0 <= i < |ps[k..]| ensures ps[k..][i] !in ToSet(ps[..k]) {
      assert forall j :: 0 <= j < k ==> ps[..k][j] == ps[j] != ps[k + i];
    }
    AllUntried(ps[k..], ToSet(ps[..k]));
  }

  lemma {:induction false} UntriedSplit(a: seq<PeerId>, b: seq<PeerId>, tried: set<PeerId>)
    ensures Untried(a + b, tried) == Untried(a, tried) + Untried(b, tried)
  {
    if a == [] {
      assert a + b == b;
    } else {
      assert (a + b)[1..] == a[1..] + b;
      UntriedSplit(a[1..], b, tried);
    }
  }

  lemma {:induction false} NoneUntried(ps: seq<PeerId>, tried: set<PeerId>)
    requires forall p :: p in ps ==> p in tried
    ensures Untried(ps, tried) == []
  {
    if ps != [] { NoneUntried(ps[1..], tried); }
  }

  lemma {:induction false} AllUntried(ps: seq<PeerId>, tried: set<PeerId>)
    requires forall i :: 0 <= i < |ps| ==> ps[i] !in tried
    ensures Untried(ps, tried) == ps
  {
    if ps != [] {
      assert forall i :: 0 <= i < |ps[1..]| ==> ps[1..][i] == ps[i + 1];
      AllUntried(ps[1..], tried);
    }
  }

  /** The session of `h` has tried exactly the first `k` peers of the ranking. */
  ghost predicate TriedPrefix(env: Env, w: World, h: ChunkHash, connected: seq<PeerId>, k: nat) {
    k <= |connected| && TriedIn(w, h) == ToSet(Ranking(env.score, h, connected)[..k])
  }

  ghost predicate SameConnected(events: seq<Event>, connected: seq<PeerId>, i: nat, j: nat) {
    j <= |events| && forall n :: i <= n < j ==> events[n].Elsewhere? || Connected(events[n]) == connected
  }

  /** While the connected peers stay the same, a session walks down their ranking. */
  lemma {:induction false} TriedIsAPrefixOfTheRanking(env: Env, worlds: seq<World>, events: seq<Event>,
                                                      connected: seq<PeerId>, h: ChunkHash, i: nat, j: nat)
    returns (k: nat)
    requires IsRun(env, worlds, events) && Live(worlds, h, i, j) && h !in worlds[i].sessions
    requires NoDuplicates(connected) && SameConnected(events, connected, i, j)
    ensures TriedPrefix(env, worlds[j], h, connected, k)
    decreases j
  {
    hide IsRun, TriedIn, Moves, TriedPrefix, SameConnected;
    if i == j {
      k := 0;
      NothingTried(env, worlds[i], h, connected);
    } else {
      SameConnectedBefore(events, connected, i, j);
      var targets := LastProgress(env, worlds, events, h, i, j);
      k := TriedIsAPrefixOfTheRanking(env, worlds, events, connected, h, i, j - 1);
      var e := events[j - 1];
      PrefixGrows(env, worlds[j - 1], e, worlds[j], h, connected, Count(OutcomeOf(worlds[j - 1], e) == Some(h)),
                  targets, k);
      k := k + |targets|;
    }
  }

  lemma SameConnectedBefore(events: seq<Event>, connected: seq<PeerId>, i: nat, j: nat)
    requires SameConnected(events, connected, i, j) && i < j
    ensures SameConnected(events, connected, i, j - 1) && j <= |events|
    ensures events[j - 1].Elsewhere? || Connected(events[j - 1]) == connected
  {
  }

  lemma NothingTried(env: Env, w: World, h: ChunkHash, connected: seq<PeerId>)
    requires h !in w.sessions
    ensures TriedPrefix(env, w, h, connected, 0)
  {
    assert ToSet<PeerId>([]) == {};
  }

  lemma PrefixGrows(env: Env, w: World, e: Event, w': World, h: ChunkHash, connected: seq<PeerId>, outcomes: nat,
                    targets: seq<PeerId>, k: nat)
    requires NoDuplicates(connected) && TriedPrefix(env, w, h, connected, k)
    requires Moves(env, w, w', h, Connected(e), outcomes, targets)
    requires (e.Elsewhere? && targets == []) || Connected(e) == connected
    ensures TriedPrefix(env, w', h, connected, k + |targets|)
  {
    assert ToSet<PeerId>([]) == {};
    if targets != [] {
      RankingPrefixGrows(env.score, h, connected, targets, k);
    }
  }

  lemma RankingPrefixGrows(score: Score, h: ChunkHash, connected: seq<PeerId>, targets: seq<PeerId>, k: nat)
    requires NoDuplicates(connected) && k <= |connected|
    requires targets == NextTargets(score, h, connected, ToSet(Ranking(score, h, connected)[..k]), MAX_FETCH_TARGETS)
    ensures k + |targets| <= |connected|
    ensures ToSet(Ranking(score, h, connected)[..k]) + ToSet(targets) ==
            ToSet(Ranking(score, h, connected)[..k + |targets|])
  {
    hide NextTargets, Ranking, ToSet;
    NextAfterPrefix(score, h, connected, k);
    LongerPrefix(Ranking(score, h, connected), k, |targets|);
  }

  lemma LongerPrefix(ps: seq<PeerId>, k: nat, n: nat)
    requires k + n <= |ps|
    ensures ToSet(ps[..k + n]) == ToSet(ps[..k]) + ToSet(ps[k..k + n])
  {
    assert ps[..k + n] == ps[..k] + ps[k..k + n];
  }

  lemma FirstOfRest(ps: seq<PeerId>, k: nat, n: nat)
    requires k + n <= |ps|
    ensures ps[k..][..n] == ps[k..k + n]
  {
  }

  lemma WholeRanking(score: Score, h: ChunkHash, connected: seq<PeerId>)
    ensures TopPeers(score, h, connected, |connected|) == Ranking(score, h, connected)
  {
  }

  lemma NextAfterPrefix(score: Score, h: ChunkHash, connected: seq<PeerId>, k: nat)
    requires NoDuplicates(connected) && k <= |connected|
    ensures var ranking := Ranking(score, h, connected);
            var targets := NextTargets(score, h, connected, ToSet(ranking[..k]), MAX_FETCH_TARGETS);
            k + |targets| <= |connected| && targets == ranking[k..k + |targets|]
  {
    hide Ranking, TopPeers, Untried, ToSet, NoDuplicates;
    var ranking := Ranking(score, h, connected);
    RankingHasNoDuplicates(score, h, connected);
    WholeRanking(score, h, connected);
    UntriedAfterPrefix(ranking, k);
    FirstOfRest(ranking, k, Min(MAX_FETCH_TARGETS, |ranking| - k));
  }
}
