/**
 * `SyncHandler` of src/network/handlers/tree_sync.rs in the form of the code.  Its methods do
 * what the steps `AskForMissing`, `AnswerPull` and `Deliver` of `AntiEntropy` do.
 */
module Sync {
  import opened Domain
  import opened Tree
  import opened NodeTrees

  const SYNC_INTERVAL: nat := 15000

  datatype PullRequest = PullRequest(to: PeerId, knownIds: seq<OpId>)

  class SyncHandler {
    const tree: NodeTree
    var lastSync: nat

    /** The requests handed to the swarm. */
    var pulls: seq<PullRequest>

    constructor (tree: NodeTree, now: nat)
      ensures this.tree == tree && lastSync == now && pulls == []
    {
      this.tree := tree;
      lastSync, pulls := now, [];
    }

    method SynchronizeWith(peer: PeerId)
      requires tree.Valid()
      modifies `pulls
      ensures |pulls| == |old(pulls)| + 1 && old(pulls) <= pulls
      ensures pulls[|old(pulls)|].to == peer && ToSet(pulls[|old(pulls)|].knownIds) == Ids(tree.log)
    {
      var ids := tree.OperationIds();
      pulls := pulls + [PullRequest(peer, ids)];
    }

    /** `choice` is the random index; at most one peer is asked, and only when the interval is over. */
    method Tick(now: nat, connected: seq<PeerId>, choice: nat)
      requires tree.Valid() && (connected != [] ==> choice < |connected|)
      modifies this
      ensures lastSync == if now - old(lastSync) >= SYNC_INTERVAL then now else old(lastSync)
      ensures now - old(lastSync) < SYNC_INTERVAL || connected == [] ==> pulls == old(pulls)
      ensures now - old(lastSync) >= SYNC_INTERVAL && connected != [] ==>
                && |pulls| == |old(pulls)| + 1 && old(pulls) <= pulls
                && pulls[|old(pulls)|].to == connected[choice] && ToSet(pulls[|old(pulls)|].knownIds) == Ids(tree.log)
    {
      if now - lastSync >= SYNC_INTERVAL {
        lastSync := now;
        if connected != [] {
          SynchronizeWith(connected[choice]);
        }
      }
    }

    /** Only the first connection to a peer starts an exchange. */
    method OnConnectionEstablished(peer: PeerId, established: nat)
      requires tree.Valid()
      modifies `pulls
      ensures established != 1 ==> pulls == old(pulls)
      ensures established == 1 ==>
                && |pulls| == |old(pulls)| + 1 && old(pulls) <= pulls
                && pulls[|old(pulls)|].to == peer && ToSet(pulls[|old(pulls)|].knownIds) == Ids(tree.log)
    {
      if established == 1 {
        SynchronizeWith(peer);
      }
    }

    method OnPullMissingOperations(knownIds: seq<OpId>) returns (ops: seq<Op>)
      requires tree.Valid()
      ensures ops == MissingFrom(tree.log, ToSet(knownIds))
    {
      ops := tree.OperationsMissingFrom(ToSet(knownIds));
    }

    method OnMissingOperations(ops: seq<Op>, nows: seq<nat>)
      requires tree.Valid() && |nows| == |ops|
      modifies tree, tree.clock
      ensures tree.Valid() && tree.View() == Remote(old(tree.View()), ops, nows)
    {
      if ops != [] {
        tree.ApplyOperations(ops, nows);
      }
    }
  }
}
