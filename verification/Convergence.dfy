/**
 Anti-entropy between the nodes of a run: any two nodes, at any moment of any run of the
 protocol (src/distsys/replication/anti_entropy.py).
 */
module Convergence {
  import opened Outcomes
  import opened Causal
  import opened Storage
  import opened AntiEntropy
  import P = Protocol

  /** No key has one CRDT type here and another there. */
  predicate TypesAgree(local: Entries, remote: Entries, keys: seq<Key>) {
    forall k | k in keys && k in local && k in remote :: local[k].Type() == remote[k].Type()
  }

  /** The two copies of a key at nodes of a run are good together. */
  lemma ReachablePair(steps: seq<P.Step>, m: NodeId, n: NodeId, k: Key)
    requires m in P.Run(steps).nodes && n in P.Run(steps).nodes
    requires var local, remote := P.Run(steps).nodes[m].store, P.Run(steps).nodes[n].store;
             (k in local || k in remote) && (k in local && k in remote ==> local[k].Type() == remote[k].Type())
    ensures GoodPair(P.Run(steps).log, At(P.Run(steps).nodes[m].store, k), At(P.Run(steps).nodes[n].store, k))
  {
    P.RunKeeps(steps);
  }

  lemma ReachableFiled(steps: seq<P.Step>, n: NodeId)
    requires n in P.Run(steps).nodes
    ensures Filed(P.Run(steps).nodes[n].store)
  {
    P.RunKeeps(steps);
  }

  /**
   One uninterrupted round with complete digests gives both nodes the joined state and version
   of every key; a second makes the entries equal, contexts included; a third transfers nothing.
   */
  lemma ReachableNodesConverge(steps: seq<P.Step>, m: NodeId, n: NodeId, keys: seq<Key>, listed: seq<Key>, shown: seq<Key>)
    requires m in P.Run(steps).nodes && n in P.Run(steps).nodes
    requires var local, remote := P.Run(steps).nodes[m].store, P.Run(steps).nodes[n].store;
             && Complete(local, remote, keys, listed, shown) && TypesAgree(local, remote, keys)
             && forall k | k in keys :: k in local || k in remote
    ensures var local, remote := P.Run(steps).nodes[m].store, P.Run(steps).nodes[n].store;
            var first := RoundOf(local, remote, keys, listed, shown);
            && first.error.None? && (forall k | k in keys :: Settled(first, local, remote, k))
            && (forall k | k in keys :: k in first.local && k in first.remote)
            && var second := RoundOf(first.local, first.remote, keys, keys, keys);
               && second.error.None?
               && (forall k | k in keys :: Joined(local, remote, second, k))
               && RoundOf(second.local, second.remote, keys, keys, keys) == Progress(second.local, second.remote, 0, None)
  {
    var local, remote := P.Run(steps).nodes[m].store, P.Run(steps).nodes[n].store;
    forall k | k in keys ensures GoodPair(P.Run(steps).log, At(local, k), At(remote, k)) {
      ReachablePair(steps, m, n, k);
    }
    ReachableFiled(steps, m);
    ReachableFiled(steps, n);
    StoresConverge(P.Run(steps).log, local, remote, keys, listed, shown);
  }
}
