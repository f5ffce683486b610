/** What the chunk fetch state machine keeps over whole runs. */
module FetchSafety {
  import opened Domain
  import opened Rendezvous
  import opened StorageModel
  import opened FetchModel

  // ---------------------------------------------------------------- choosing targets

  lemma {:induction false} UntriedMeaning(ps: seq<PeerId>, tried: set<PeerId>)
    requires NoDuplicates(ps)
    ensures NoDuplicates(Untried(ps, tried))
    ensures ToSet(Untried(ps, tried)) == ToSet(ps) - tried
  {
    if ps != [] {
      var rest := Untried(ps[1..], tried);
      UntriedMeaning(ps[1..], tried);
      assert ps == [ps[0]] + ps[1..];
      assert ToSet(ps) == {ps[0]} + ToSet(ps[1..]);
      assert ps[0] !in ToSet(ps[1..]);
      assert ps[0] !in ToSet(rest);
      assert ToSet([ps[0]] + rest) == {ps[0]} + ToSet(rest);
    }
  }

  /**
   * The targets are distinct connected peers that were not tried: `limit` of them, or all if
   * there are fewer; there is none exactly when every connected peer has been tried.
   */
  lemma TargetsMeaning(score: Score, hash: ChunkHash, connected: seq<PeerId>, tried: set<PeerId>, limit: nat)
    requires NoDuplicates(connected) && limit > 0
    ensures var targets := NextTargets(score, hash, connected, tried, limit);
            && NoDuplicates(targets) && |targets| == Min(limit, |ToSet(connected) - tried|) <= limit
            && ToSet(targets) <= ToSet(connected) - tried
            && (targets == [] <==> ToSet(connected) <= tried)
  {
    RankingHasNoDuplicates(score, hash, connected);
    var ranking := Ranking(score, hash, connected);
    assert TopPeers(score, hash, connected, |connected|) == ranking;
    UntriedMeaning(ranking, tried);
    var all, none := ToSet(connected), ToSet(connected) - tried;
    assert all <= tried ==> none == {};
    assert none == {} ==> forall p :: p in all ==> p !in none;
    TakeSome(Untried(ranking, tried), limit);
    DistinctCardinality(Untried(ranking, tried));
  }

  lemma TakeSome(ps: seq<PeerId>, limit: nat)
    requires NoDuplicates(ps) && limit > 0
    ensures var some := ps[..Min(limit, |ps|)];
            NoDuplicates(some) && ToSet(some) <= ToSet(ps) && (some == [] <==> ToSet(ps) == {})
  {
    assert ps != [] ==> ps[0] in ToSet(ps);
  }

  // ---------------------------------------------------------------- the invariant

  type Sessions = map<ChunkHash, Session>

  /** A request is on record exactly as an attempt of the session of its chunk. */
  ghost predicate Paired(sessions: Sessions, requests: map<RequestId, ChunkHash>) {
    && (forall id :: id in requests ==> requests[id] in sessions && id in sessions[requests[id]].attempts)
    && (forall h, id :: h in sessions && id in sessions[h].attempts ==> id in requests && requests[id] == h)
  }

  /** Attempts of one session went to distinct peers, all of them recorded as tried. */
  ghost predicate SoundSession(session: Session) {
    && (forall id :: id in session.attempts ==> session.attempts[id] in session.tried)
    && (forall i, j :: i in session.attempts && j in session.attempts && session.attempts[i] == session.attempts[j] ==>
        i == j)
  }

  function Answered(replies: seq<Reply>): set<Waiter> {
    set i | 0 <= i < |replies| :: replies[i].to
  }

  predicate IsWaiting(sessions: Sessions, issued: map<Waiter, ChunkHash>, x: Waiter) {
    x in issued && issued[x] in sessions && x in sessions[issued[x]].waiters
  }

  /**
   * Every reply channel has one fate: it waits, once, in the session of the chunk it was
   * issued for, or it has been answered, once, and with bytes only if they have the digest.
   */
  ghost predicate OneFate(sha: Sha, sessions: Sessions, replies: seq<Reply>, issued: map<Waiter, ChunkHash>) {
    && (forall i, j :: 0 <= i < j < |replies| ==> replies[i].to != replies[j].to)
    && (forall i :: 0 <= i < |replies| && replies[i].answer.Some? ==>
          replies[i].to in issued && sha(replies[i].answer.value) == issued[replies[i].to])
    && (forall h :: h in sessions ==> NoDuplicates(sessions[h].waiters))
    && (forall h, x :: h in sessions && x in sessions[h].waiters ==> x in issued && issued[x] == h)
    && Answered(replies) <= issued.Keys
    && (forall x :: x in issued ==> (IsWaiting(sessions, issued, x) <==> x !in Answered(replies)))
  }

  /** Requests and attempts agree, ids are old, and every session is sound. */
  ghost predicate Records(sessions: Sessions, requests: map<RequestId, ChunkHash>, nextRequest: RequestId) {
    && Paired(sessions, requests)
    && (forall id :: id in requests ==> id < nextRequest)
    && (forall h :: h in sessions ==> SoundSession(sessions[h]))
  }

  /** Every session has one to three outstanding attempts, but for one that may have none. */
  ghost predicate Outstanding(sessions: Sessions, exempt: Option<ChunkHash>) {
    forall h :: h in sessions && exempt != Some(h) ==> 1 <= |sessions[h].attempts| <= MAX_FETCH_TARGETS
  }

  ghost predicate Fates(env: Env, w: World) {
    OneFate(env.sha, w.sessions, w.replies, w.issued)
  }

  ghost predicate InvBut(env: Env, w: World, exempt: Option<ChunkHash>) {
    Records(w.sessions, w.requests, w.nextRequest) && Outstanding(w.sessions, exempt) && Fates(env, w)
  }

  ghost predicate Inv(env: Env, w: World) {
    InvBut(env, w, None) && Stored(env, w.store)
  }

  // ---------------------------------------------------------------- the two halves

  lemma AnsweredAppend(replies: seq<Reply>, waiters: seq<Waiter>, answer: Option<Bytes>)
    ensures Answered(replies + Answers(waiters, answer)) == Answered(replies) + ToSet(waiters)
  {
    var more := Answers(waiters, answer);
    var all := replies + more;
    forall x ensures x in Answered(all) <==> x in Answered(replies) || x in waiters {
      if x in Answered(replies) {
        var i :| 0 <= i < |replies| && replies[i].to == x;
        assert all[i].to == x;
      }
      if x in waiters {
        var i :| 0 <= i < |waiters| && waiters[i] == x;
        assert all[|replies| + i].to == x;
      }
      if x in Answered(all) {
        var i :| 0 <= i < |all| && all[i].to == x;
        if i >= |replies| { assert all[i] == more[i - |replies|]; }
      }
    }
  }

  lemma CloseFate(sha: Sha, sessions: Sessions, replies: seq<Reply>, issued: map<Waiter, ChunkHash>, hash: ChunkHash,
                  answer: Option<Bytes>)
    requires OneFate(sha, sessions, replies, issued) && hash in sessions
    requires answer.Some? ==> sha(answer.value) == hash
    ensures OneFate(sha, sessions - {hash}, replies + Answers(sessions[hash].waiters, answer), issued)
  {
    var waiters := sessions[hash].waiters;
    var more := Answers(waiters, answer);
    AnsweredAppend(replies, waiters, answer);
    forall x | x in waiters ensures x in issued && issued[x] == hash && x !in Answered(replies) {
      assert IsWaiting(sessions, issued, x);
    }
    DistinctAnswers(replies, waiters, answer);
    assert forall j :: 0 <= j < |more| ==> more[j].to in waiters;
    forall x | x in issued
      ensures IsWaiting(sessions - {hash}, issued, x) <==> x !in Answered(replies + more)
    {
      assert IsWaiting(sessions, issued, x) <==> x !in Answered(replies);
    }
  }

  /** What a session has tried is nobody's fate. */
  lemma FateIgnoresAttempts(sha: Sha, sessions: Sessions, replies: seq<Reply>, issued: map<Waiter, ChunkHash>,
                            hash: ChunkHash, session: Session)
    requires OneFate(sha, sessions, replies, issued) && hash in sessions && session.waiters == sessions[hash].waiters
    ensures OneFate(sha, sessions[hash := session], replies, issued)
  {
    forall x | x in issued
      ensures IsWaiting(sessions[hash := session], issued, x) <==> x !in Answered(replies)
    {
      assert IsWaiting(sessions, issued, x) <==> x !in Answered(replies);
    }
  }

  lemma DistinctAnswers(replies: seq<Reply>, waiters: seq<Waiter>, answer: Option<Bytes>)
    requires forall i, j :: 0 <= i < j < |replies| ==> replies[i].to != replies[j].to
    requires NoDuplicates(waiters) && Answered(replies) !! ToSet(waiters)
    ensures var all := replies + Answers(waiters, answer);
            forall i, j :: 0 <= i < j < |all| ==> all[i].to != all[j].to
  {
    var all := replies + Answers(waiters, answer);
    forall i, j | 0 <= i < j < |all| ensures all[i].to != all[j].to {
      if i < |replies| <= j {
        assert all[i].to in Answered(replies);
        assert all[j].to == waiters[j - |replies|] && waiters[j - |replies|] in ToSet(waiters);
      } else if i >= |replies| {
        assert waiters[i - |replies|] != waiters[j - |replies|];
      }
    }
  }

  lemma JoinFate(sha: Sha, sessions: Sessions, replies: seq<Reply>, issued: map<Waiter, ChunkHash>,
                 hash: ChunkHash, reply: Option<Waiter>, session: Session)
    requires OneFate(sha, sessions, replies, issued) && (reply.Some? ==> reply.value !in issued)
    requires session.waiters == (if hash in sessions then sessions[hash].waiters else []) + AsSeq(reply)
    ensures OneFate(sha, sessions[hash := session], replies,
                    if reply.Some? then issued[reply.value := hash] else issued)
  {
    var idle := session.(waiters := if hash in sessions then sessions[hash].waiters else []);
    if hash in sessions {
      FateIgnoresAttempts(sha, sessions, replies, issued, hash, idle);
    } else {
      OpenFate(sha, sessions, replies, issued, hash, idle);
    }
    match reply
    case None => assert session.waiters == idle.waiters;
    case Some(x) =>
      WaitFate(sha, sessions[hash := idle], replies, issued, hash, x, session);
      assert sessions[hash := idle][hash := session] == sessions[hash := session];
  }

  lemma OpenFate(sha: Sha, sessions: Sessions, replies: seq<Reply>, issued: map<Waiter, ChunkHash>, hash: ChunkHash,
                 session: Session)
    requires OneFate(sha, sessions, replies, issued) && hash !in sessions && session.waiters == []
    ensures OneFate(sha, sessions[hash := session], replies, issued)
  {
    forall x | x in issued
      ensures IsWaiting(sessions[hash := session], issued, x) <==> x !in Answered(replies)
    {
      assert IsWaiting(sessions, issued, x) <==> x !in Answered(replies);
    }
  }

  lemma WaitFate(sha: Sha, sessions: Sessions, replies: seq<Reply>, issued: map<Waiter, ChunkHash>, hash: ChunkHash,
                 x: Waiter, session: Session)
    requires OneFate(sha, sessions, replies, issued) && x !in issued
    requires hash in sessions && session.waiters == sessions[hash].waiters + [x]
    ensures OneFate(sha, sessions[hash := session], replies, issued[x := hash])
  {
    var sessions', issued' := sessions[hash := session], issued[x := hash];
    assert x !in sessions[hash].waiters;
    forall y | y in issued' ensures IsWaiting(sessions', issued', y) <==> y !in Answered(replies) {
      if y == x {
        assert session.waiters[|sessions[hash].waiters|] == x;
      } else {
        assert IsWaiting(sessions, issued, y) <==> y !in Answered(replies);
      }
    }
  }

  lemma RefuseFate(sha: Sha, sessions: Sessions, replies: seq<Reply>, issued: map<Waiter, ChunkHash>, hash: ChunkHash,
                   reply: Option<Waiter>)
    requires OneFate(sha, sessions, replies, issued) && (reply.Some? ==> reply.value !in issued) && hash !in sessions
    ensures OneFate(sha, sessions, replies + Answers(AsSeq(reply), None),
                    if reply.Some? then issued[reply.value := hash] else issued)
  {
    var issued' := if reply.Some? then issued[reply.value := hash] else issued;
    var session := Session(AsSeq(reply), map[], {}, false);
    assert [] + AsSeq(reply) == AsSeq(reply);
    JoinFate(sha, sessions, replies, issued, hash, reply, session);
    CloseFate(sha, sessions[hash := session], replies, issued', hash, None);
    assert sessions[hash := session] - {hash} == sessions;
  }

  lemma NumberedSize(from: RequestId, targets: seq<PeerId>)
    ensures |Numbered(from, targets)| == |targets|
  {
    if targets != [] {
      NumberedSize(from, targets[..|targets| - 1]);
    }
  }

  lemma EmptyUnion(m: map<RequestId, PeerId>)
    ensures map[] + m == m
  {
  }

  lemma RecordsClose(sessions: Sessions, requests: map<RequestId, ChunkHash>, nextRequest: RequestId, hash: ChunkHash)
    requires Records(sessions, requests, nextRequest) && hash in sessions
    ensures Records(sessions - {hash}, requests - sessions[hash].attempts.Keys, nextRequest)
  {
  }

  lemma RecordsCloseIdle(sessions: Sessions, requests: map<RequestId, ChunkHash>, nextRequest: RequestId,
                         hash: ChunkHash)
    requires Records(sessions, requests, nextRequest) && hash in sessions && sessions[hash].attempts == map[]
    ensures Records(sessions - {hash}, requests, nextRequest)
  {
  }

  lemma RecordsLaunch(w: World, hash: ChunkHash, targets: seq<PeerId>)
    requires Records(w.sessions, w.requests, w.nextRequest) && hash in w.sessions && w.sessions[hash].attempts == map[]
    requires NoDuplicates(targets)
    ensures var w' := Launch(w, hash, targets); Records(w'.sessions, w'.requests, w'.nextRequest)
  {
    var w' := Launch(w, hash, targets);
    var session, more := w'.sessions[hash], Numbered(w.nextRequest, targets);
    EmptyUnion(more);
    LaunchedSessionIsSound(session, w.nextRequest, targets);
    PairedLaunch(w.sessions, w.requests, hash, session);
  }

  lemma LaunchedSessionIsSound(session: Session, from: RequestId, targets: seq<PeerId>)
    requires NoDuplicates(targets) && session.attempts == Numbered(from, targets) && ToSet(targets) <= session.tried
    ensures SoundSession(session)
  {
    var more := session.attempts;
    forall id | id in more ensures more[id] in session.tried {
      assert targets[id - from] in ToSet(targets);
    }
    forall i, j | i in more && j in more && more[i] == more[j] ensures i == j {
      assert targets[i - from] == targets[j - from];
    }
  }

  lemma PairedLaunch(sessions: Sessions, requests: map<RequestId, ChunkHash>, hash: ChunkHash, session: Session)
    requires Paired(sessions, requests) && hash in sessions && sessions[hash].attempts == map[]
    requires session.attempts.Keys !! requests.Keys
    ensures Paired(sessions[hash := session], requests + Filed(session.attempts, hash))
  {
  }

  lemma RecordsDrop(sessions: Sessions, requests: map<RequestId, ChunkHash>, nextRequest: RequestId, id: RequestId,
                    left: Session)
    requires Records(sessions, requests, nextRequest) && id in requests && requests[id] in sessions
    requires left == sessions[requests[id]].(attempts := sessions[requests[id]].attempts - {id})
    ensures Records(sessions[requests[id] := left], requests - {id}, nextRequest)
  {
    assert SoundSession(left);
  }

  lemma RecordsJoin(sessions: Sessions, requests: map<RequestId, ChunkHash>, nextRequest: RequestId, hash: ChunkHash,
                    session: Session)
    requires Records(sessions, requests, nextRequest)
    requires if hash in sessions then session.attempts == sessions[hash].attempts
             && session.tried == sessions[hash].tried
             else session.attempts == map[]
    ensures Records(sessions[hash := session], requests, nextRequest)
  {
    assert SoundSession(session);
  }

  lemma OutstandingClose(sessions: Sessions, hash: ChunkHash)
    requires Outstanding(sessions, Some(hash)) || Outstanding(sessions, None)
    ensures Outstanding(sessions - {hash}, None)
  {
  }

  lemma OutstandingPut(sessions: Sessions, hash: ChunkHash, session: Session)
    requires Outstanding(sessions, Some(hash)) && 1 <= |session.attempts| <= MAX_FETCH_TARGETS
    ensures Outstanding(sessions[hash := session], None)
  {
  }

  // ---------------------------------------------------------------- one event at a time

  lemma GiveUpKeepsInv(env: Env, w: World, hash: ChunkHash, now: nat)
    requires InvBut(env, w, Some(hash)) && hash in w.sessions && w.sessions[hash].attempts == map[]
    ensures InvBut(env, GiveUp(w, hash, now), None)
  {
    hide Records, OneFate, Outstanding;
    CloseFate(env.sha, w.sessions, w.replies, w.issued, hash, None);
    RecordsCloseIdle(w.sessions, w.requests, w.nextRequest, hash);
    OutstandingClose(w.sessions, hash);
  }

  lemma LaunchKeepsInv(env: Env, w: World, hash: ChunkHash, targets: seq<PeerId>)
    requires InvBut(env, w, Some(hash)) && hash in w.sessions && w.sessions[hash].attempts == map[]
    requires NoDuplicates(targets) && 1 <= |targets| <= MAX_FETCH_TARGETS
    ensures InvBut(env, Launch(w, hash, targets), None)
  {
    hide Records, OneFate, Outstanding, Numbered;
    var session := Launch(w, hash, targets).sessions[hash];
    NumberedSize(w.nextRequest, targets);
    EmptyUnion(Numbered(w.nextRequest, targets));
    FateIgnoresAttempts(env.sha, w.sessions, w.replies, w.issued, hash, session);
    RecordsLaunch(w, hash, targets);
    OutstandingPut(w.sessions, hash, session);
  }

  lemma WalkDownKeepsInv(env: Env, w: World, hash: ChunkHash, connected: seq<PeerId>, now: nat)
    requires InvBut(env, w, Some(hash)) && NoDuplicates(connected)
    requires hash in w.sessions && w.sessions[hash].attempts == map[]
    ensures InvBut(env, WalkDown(env, w, hash, connected, now), None)
  {
    var targets := NextTargets(env.score, hash, connected, w.sessions[hash].tried, MAX_FETCH_TARGETS);
    TargetsMeaning(env.score, hash, connected, w.sessions[hash].tried, MAX_FETCH_TARGETS);
    if targets == [] { GiveUpKeepsInv(env, w, hash, now); } else { LaunchKeepsInv(env, w, hash, targets); }
  }

  lemma JoinKeepsInv(env: Env, w: World, hash: ChunkHash, reply: Option<Waiter>, session: Session)
    requires InvBut(env, w, None) && (reply.Some? ==> reply.value !in w.issued)
    requires session.waiters == (if hash in w.sessions then w.sessions[hash].waiters else []) + AsSeq(reply)
    requires if hash in w.sessions then session.attempts == w.sessions[hash].attempts
             && session.tried == w.sessions[hash].tried
             else session.attempts == map[]
    ensures var w' := Issue(w, hash, reply).(sessions := w.sessions[hash := session]);
            InvBut(env, w', if hash in w.sessions then None else Some(hash))
  {
    hide Records, OneFate;
    JoinFate(env.sha, w.sessions, w.replies, w.issued, hash, reply, session);
    RecordsJoin(w.sessions, w.requests, w.nextRequest, hash, session);
  }

  lemma FetchKeepsInv(env: Env, w: World, e: Event)
    requires InvBut(env, w, None) && Enabled(env, w, e) && e.Fetch?
    ensures InvBut(env, FetchChunk(env, w, e.hash, e.reply, e.pin, e.connected, e.now), None)
  {
    var hash := e.hash;
    if hash in w.sessions {
      var session := w.sessions[hash];
      JoinKeepsInv(env, w, hash, e.reply,
                   session.(waiters := session.waiters + AsSeq(e.reply), pin := session.pin || e.pin));
    } else if !e.pin && hash in w.blockedUntil && w.blockedUntil[hash] > e.now {
      RefuseFate(env.sha, w.sessions, w.replies, w.issued, hash, e.reply);
    } else {
      var session := Session(AsSeq(e.reply), map[], {}, e.pin);
      assert [] + AsSeq(e.reply) == AsSeq(e.reply);
      JoinKeepsInv(env, w, hash, e.reply, session);
      WalkDownKeepsInv(env, Issue(w, hash, e.reply).(sessions := w.sessions[hash := session]), hash, e.connected,
                       e.now);
    }
  }

  lemma RecordedSession(w: World, id: RequestId)
    requires Records(w.sessions, w.requests, w.nextRequest) && id in w.requests
    ensures w.requests[id] in w.sessions && id in w.sessions[w.requests[id]].attempts
  {
  }

  /** The attempt and its record are removed together. */
  function AfterFailedAttempt(w: World, id: RequestId): World
    requires id in w.requests && w.requests[id] in w.sessions
  {
    var hash := w.requests[id];
    var session := w.sessions[hash];
    w.(requests := w.requests - {id}, sessions := w.sessions[hash := session.(attempts := session.attempts - {id})])
  }

  lemma FailedAttemptKeepsInv(env: Env, w: World, id: RequestId)
    requires InvBut(env, w, None) && id in w.requests && w.requests[id] in w.sessions
             && id in w.sessions[w.requests[id]].attempts
    ensures var w' := AfterFailedAttempt(w, id); var hash := w.requests[id];
            && |w'.sessions[hash].attempts| == |w.sessions[hash].attempts| - 1
            && InvBut(env, w', if w'.sessions[hash].attempts == map[] then Some(hash) else None)
  {
    hide Records, OneFate;
    var hash := w.requests[id];
    var left := AfterFailedAttempt(w, id).sessions[hash];
    FateIgnoresAttempts(env.sha, w.sessions, w.replies, w.issued, hash, left);
    RecordsDrop(w.sessions, w.requests, w.nextRequest, id, left);
    assert left.attempts.Keys == w.sessions[hash].attempts.Keys - {id};
    assert |left.attempts.Keys| == |w.sessions[hash].attempts| - 1;
    assert left.attempts != map[] ==> |left.attempts| > 0;
  }

  lemma FailureKeepsInv(env: Env, w: World, id: RequestId, connected: seq<PeerId>, now: nat)
    requires InvBut(env, w, None) && NoDuplicates(connected)
    ensures InvBut(env, HandleFailure(env, w, id, connected, now), None)
  {
    if id in w.requests {
      RecordedSession(w, id);
      FailedAttemptKeepsInv(env, w, id);
      var w' := AfterFailedAttempt(w, id);
      if w'.sessions[w.requests[id]].attempts == map[] {
        WalkDownKeepsInv(env, w', w.requests[id], connected, now);
      }
    }
  }

  lemma KeepMeaning(env: Env, w: World, hash: ChunkHash, pin: bool, data: Bytes, now: nat)
    requires Stored(env, w.store)
    ensures var w' := Keep(env, w, hash, pin, data, now);
            && Stored(env, w'.store) && w' == w.(store := w'.store, blockedUntil := w'.blockedUntil)
            && w.store.pinned.Keys <= w'.store.pinned.Keys <=
               w.store.pinned.Keys + (if pin then {env.sha(data)} else {})
  {
    ApplyKeepsInvariant(env.sha, w.store, OpPin([data]));
    ApplyKeepsInvariant(env.sha, w.store, OpCache(data));
    TryPinIsExact(env.sha, w.store, [data]);
    assert (set d | d in [data] :: env.sha(d)) == {env.sha(data)};
  }

  lemma SuccessKeepsInv(env: Env, w: World, id: RequestId, data: Bytes, connected: seq<PeerId>, now: nat)
    requires Inv(env, w) && id in w.requests && env.sha(data) == w.requests[id]
    ensures Inv(env, HandleResponse(env, w, id, data, connected, now))
  {
    hide Records, OneFate;
    var hash := w.requests[id];
    RecordedSession(w, id);
    var session := w.sessions[hash];
    OutstandingClose(w.sessions, hash);
    CloseFate(env.sha, w.sessions, w.replies, w.issued, hash, Some(data));
    RecordsClose(w.sessions, w.requests, w.nextRequest, hash);
    assert w.requests - {id} - session.attempts.Keys == w.requests - session.attempts.Keys;
    KeepMeaning(env, w.(sessions := w.sessions - {hash}, requests := w.requests - session.attempts.Keys), hash,
                session.pin, data, now);
  }

  lemma WalkDownFrame(env: Env, w: World, hash: ChunkHash, connected: seq<PeerId>, now: nat)
    ensures var w' := WalkDown(env, w, hash, connected, now);
            && w'.store == w.store && w'.issued == w.issued
  {
  }

  lemma FetchKeepsStore(env: Env, w: World, e: Event)
    requires e.Fetch?
    ensures FetchChunk(env, w, e.hash, e.reply, e.pin, e.connected, e.now).store == w.store
  {
    hide WalkDown;
    var started := Issue(w, e.hash, e.reply).(
      sessions := w.sessions[e.hash := Session(AsSeq(e.reply), map[], {}, e.pin)]);
    WalkDownFrame(env, started, e.hash, e.connected, e.now);
  }

  lemma FailureKeepsStore(env: Env, w: World, id: RequestId, connected: seq<PeerId>, now: nat)
    ensures HandleFailure(env, w, id, connected, now).store == w.store
  {
  }

  /** A response with other bytes, or to an unknown request, is handled like a failure. */
  lemma BadResponseIsAFailure(env: Env, w: World, id: RequestId, data: Bytes, connected: seq<PeerId>, now: nat)
    requires WellFormed(w.store) && (id in w.requests ==> env.sha(data) != w.requests[id])
    ensures HandleResponse(env, w, id, data, connected, now) == HandleFailure(env, w, id, connected, now)
  {
  }

  /** Every event keeps the two tables inverse, the sessions sound and each caller's single fate. */
  lemma EventKeepsInv(env: Env, w: World, e: Event)
    requires Inv(env, w) && Enabled(env, w, e)
    ensures Inv(env, Next(env, w, e))
  {
    hide Records, OneFate, Outstanding, FetchChunk, HandleFailure;
    match e
    case Fetch(hash, reply, pin, connected, now) =>
      FetchKeepsInv(env, w, e);
      FetchKeepsStore(env, w, e);
    case Elsewhere(_) =>
    case Failure(id, connected, now) =>
      FailureKeepsInv(env, w, id, connected, now);
      FailureKeepsStore(env, w, id, connected, now);
    case Response(id, data, connected, now) =>
      if id in w.requests && env.sha(data) == w.requests[id] {
        SuccessKeepsInv(env, w, id, data, connected, now);
      } else {
        BadResponseIsAFailure(env, w, id, data, connected, now);
        FailureKeepsInv(env, w, id, connected, now);
        FailureKeepsStore(env, w, id, connected, now);
      }
  }
}
