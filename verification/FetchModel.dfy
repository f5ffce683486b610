/**
 * The chunk fetch state machine of src/network/handlers/chunk.rs, one function per event.
 *
 * Reply channels are numbered.  `issued`, `replies` and `asks` record, for the proofs, which
 * channel waits for which chunk, what was sent into each, and which requests went out.
 */
module FetchModel {
  import opened Domain
  import opened Rendezvous
  import opened StorageModel

  type RequestId = nat
  type Waiter = nat

  const MAX_FETCH_TARGETS: nat := 3
  const CHUNK_FETCH_BACKOFF: nat := 5000

  datatype Session = Session(waiters: seq<Waiter>, attempts: map<RequestId, PeerId>, tried: set<PeerId>, pin: bool)

  datatype Reply = Reply(to: Waiter, answer: Option<Bytes>)

  datatype Ask = Ask(id: RequestId, peer: PeerId, hash: ChunkHash)

  datatype World = World(
    sessions: map<ChunkHash, Session>,
    requests: map<RequestId, ChunkHash>,
    blockedUntil: map<ChunkHash, nat>,
    nextRequest: RequestId,
    store: Store,
    replies: seq<Reply>,
    asks: seq<Ask>,
    issued: map<Waiter, ChunkHash>)

  /** The parameters of the machine: the digest and the peer score. */
  datatype Env = Env(sha: Sha, score: Score)

  function Untried(ps: seq<PeerId>, tried: set<PeerId>): seq<PeerId> {
    if ps == [] then []
    else (if ps[0] in tried then [] else [ps[0]]) + Untried(ps[1..], tried)
  }

  /** `next_targets`: the best-ranked connected peers that were not tried. */
  function NextTargets(score: Score, hash: ChunkHash, connected: seq<PeerId>, tried: set<PeerId>,
                       limit: nat): seq<PeerId>
  {
    var untried := Untried(TopPeers(score, hash, connected, |connected|), tried);
    untried[..Min(limit, |untried|)]
  }

  function Answers(waiters: seq<Waiter>, answer: Option<Bytes>): seq<Reply> {
    seq(|waiters|, i requires 0 <= i < |waiters| => Reply(waiters[i], answer))
  }

  /** The requests of one round get consecutive fresh ids. */
  function Numbered(from: RequestId, targets: seq<PeerId>): (m: map<RequestId, PeerId>)
    ensures forall id :: id in m <==> from <= id < from + |targets|
    ensures forall id :: id in m ==> m[id] == targets[id - from]
  {
    if targets == [] then map[]
    else Numbered(from, targets[..|targets| - 1])[from + |targets| - 1 := targets[|targets| - 1]]
  }

  lemma NumberedAppend(from: RequestId, targets: seq<PeerId>, peer: PeerId)
    ensures Numbered(from, targets + [peer]) == Numbered(from, targets)[from + |targets| := peer]
  {
    assert (targets + [peer])[..|targets|] == targets;
  }

  function Round(from: RequestId, targets: seq<PeerId>, hash: ChunkHash): seq<Ask> {
    seq(|targets|, i requires 0 <= i < |targets| => Ask(from + i, targets[i], hash))
  }

  /** The requests of a round are all on record for one chunk. */
  function Filed(attempts: map<RequestId, PeerId>, hash: ChunkHash): map<RequestId, ChunkHash> {
    map id | id in attempts :: hash
  }

  function Launch(w: World, hash: ChunkHash, targets: seq<PeerId>): World
    requires hash in w.sessions
  {
    var session := w.sessions[hash];
    var attempts := Numbered(w.nextRequest, targets);
    w.(sessions := w.sessions[hash := session.(attempts := session.attempts + attempts,
                                               tried := session.tried + ToSet(targets))],
       requests := w.requests + Filed(attempts, hash),
       nextRequest := w.nextRequest + |targets|,
       asks := w.asks + Round(w.nextRequest, targets, hash))
  }

  /** No peer is left: every waiter gets `None`; a failed pin backs off. */
  function GiveUp(w: World, hash: ChunkHash, now: nat): World
    requires hash in w.sessions
  {
    var session := w.sessions[hash];
    w.(sessions := w.sessions - {hash},
       replies := w.replies + Answers(session.waiters, None),
       blockedUntil := if session.pin then w.blockedUntil[hash := now + CHUNK_FETCH_BACKOFF] else w.blockedUntil)
  }

  function WalkDown(env: Env, w: World, hash: ChunkHash, connected: seq<PeerId>, now: nat): World {
    if hash !in w.sessions then w
    else
      var targets := NextTargets(env.score, hash, connected, w.sessions[hash].tried, MAX_FETCH_TARGETS);
      if targets == [] then GiveUp(w, hash, now) else Launch(w, hash, targets)
  }

  function AsSeq(reply: Option<Waiter>): seq<Waiter> {
    match reply case Some(x) => [x] case None => []
  }

  function Issue(w: World, hash: ChunkHash, reply: Option<Waiter>): World {
    if reply.Some? then w.(issued := w.issued[reply.value := hash]) else w
  }

  function FetchChunk(env: Env, w0: World, hash: ChunkHash, reply: Option<Waiter>, pin: bool, connected: seq<PeerId>,
                      now: nat): World
  {
    var w := Issue(w0, hash, reply);
    if hash in w.sessions then
      var session := w.sessions[hash];
      w.(sessions := w.sessions[hash := session.(waiters := session.waiters + AsSeq(reply), pin := session.pin || pin)])
    else if !pin && hash in w.blockedUntil && w.blockedUntil[hash] > now then
      w.(replies := w.replies + Answers(AsSeq(reply), None))
    else
      WalkDown(env, w.(sessions := w.sessions[hash := Session(AsSeq(reply), map[], {}, pin)]), hash, connected, now)
  }

  function OnAttemptFailed(env: Env, w: World, hash: ChunkHash, id: RequestId, connected: seq<PeerId>, now: nat): World
  {
    if hash !in w.sessions then w
    else
      var session := w.sessions[hash];
      var left := session.(attempts := session.attempts - {id});
      var w' := w.(sessions := w.sessions[hash := left]);
      if left.attempts != map[] then w' else WalkDown(env, w', hash, connected, now)
  }

  /** A chunk that cannot be pinned is cached instead and the pin backs off. */
  ghost function Keep(env: Env, w: World, hash: ChunkHash, pin: bool, data: Bytes, now: nat): World
    requires WellFormed(w.store)
  {
    if pin && TryPin(env.sha, w.store, [data]).Some? then w.(store := TryPin(env.sha, w.store, [data]).value)
    else
      var cached := w.(store := CacheChunk(env.sha, w.store, data));
      if pin then cached.(blockedUntil := w.blockedUntil[hash := now + CHUNK_FETCH_BACKOFF]) else cached
  }

  ghost function HandleResponse(env: Env, w: World, id: RequestId, data: Bytes, connected: seq<PeerId>, now: nat): World
    requires WellFormed(w.store)
  {
    if id !in w.requests then w
    else
      var hash := w.requests[id];
      var w1 := w.(requests := w.requests - {id});
      if env.sha(data) != hash then OnAttemptFailed(env, w1, hash, id, connected, now)
      else if hash !in w1.sessions then w1
      else
        var session := w1.sessions[hash];
        var w2 := w1.(sessions := w1.sessions - {hash}, requests := w1.requests - session.attempts.Keys);
        var w3 := Keep(env, w2, hash, session.pin, data, now);
        w3.(replies := w3.replies + Answers(session.waiters, Some(data)))
  }

  function HandleFailure(env: Env, w: World, id: RequestId, connected: seq<PeerId>, now: nat): World {
    if id !in w.requests then w
    else OnAttemptFailed(env, w.(requests := w.requests - {id}), w.requests[id], id, connected, now)
  }

  /** `Elsewhere` is any change that other parts of the program make to the shared store. */
  datatype Event =
    | Fetch(hash: ChunkHash, reply: Option<Waiter>, pin: bool, connected: seq<PeerId>, now: nat)
    | Response(id: RequestId, data: Bytes, connected: seq<PeerId>, now: nat)
    | Failure(id: RequestId, connected: seq<PeerId>, now: nat)
    | Elsewhere(store: Store)

  ghost predicate Stored(env: Env, s: Store) {
    WellFormed(s) && Addressed(env.sha, s)
  }

  /** Connected peers are distinct, and a reply channel is used for one command. */
  ghost predicate Enabled(env: Env, w: World, e: Event) {
    match e
    case Fetch(_, reply, _, connected, _) => NoDuplicates(connected) && (reply.Some? ==> reply.value !in w.issued)
    case Response(_, _, connected, _) => NoDuplicates(connected)
    case Failure(_, connected, _) => NoDuplicates(connected)
    case Elsewhere(store) => Stored(env, store)
  }

  ghost function Next(env: Env, w: World, e: Event): World
    requires WellFormed(w.store)
  {
    match e
    case Fetch(hash, reply, pin, connected, now) => FetchChunk(env, w, hash, reply, pin, connected, now)
    case Response(id, data, connected, now) => HandleResponse(env, w, id, data, connected, now)
    case Failure(id, connected, now) => HandleFailure(env, w, id, connected, now)
    case Elsewhere(store) => w.(store := store)
  }
}
