/**
 Causal metadata: actors, dots and version vectors (src/distsys/causal).

 A version vector keeps no zero counters, so it is modelled as a map into the positive
 integers; two vectors are then equal exactly when they are equal in the source's sorted,
 zero-free normal form. A grow-only counter has the same shape and the same merge.
 */
module Causal {

  type NodeId = s: string | s != "" witness "n"
  type Positive = n: nat | n > 0 witness 1

  datatype Actor = Actor(nodeId: NodeId, incarnation: nat)
  datatype Dot = Dot(actor: Actor, counter: Positive)

  type Counts = map<Actor, Positive>
  type VersionVector = Counts

  function Max(a: nat, b: nat): nat {
    if a < b then b else a
  }

  function Get(v: Counts, a: Actor): nat {
    if a in v then v[a] else 0
  }

  /** Pointwise maximum: VersionVector.merge and GCounter.merge. */
  function Merge(u: Counts, v: Counts): (w: Counts)
    ensures forall a :: Get(w, a) == Max(Get(u, a), Get(v, a))
  {
    map a | a in u.Keys + v.Keys :: Max(Get(u, a), Get(v, a))
  }

  function WithDot(v: VersionVector, d: Dot): (w: VersionVector)
    ensures forall a :: Get(w, a) == if a == d.actor then Max(Get(v, a), d.counter) else Get(v, a)
  {
    v[d.actor := Max(Get(v, d.actor), d.counter)]
  }

  predicate Dominates(u: Counts, v: Counts) {
    forall a | a in v :: v[a] <= Get(u, a)
  }

  predicate Covers(v: VersionVector, d: Dot) {
    d.counter <= Get(v, d.actor)
  }

  datatype Relation = Before | After | Equal | Concurrent

  /** What compare means: which of the two vectors dominates the other. */
  function Relate(u: VersionVector, v: VersionVector): Relation {
    if Dominates(u, v) then
      if Dominates(v, u) then Equal else After
    else
      if Dominates(v, u) then Before else Concurrent
  }

  /** VersionVector.compare: one pass over the actors of both vectors, leaving early on a conflict. */
  method Compare(u: VersionVector, v: VersionVector) returns (r: Relation)
    ensures r == Relate(u, v)
    ensures r == Equal <==> u == v
  {
    DominatesAntisymmetric(u, v);
    var actors := u.Keys + v.Keys;
    var less, greater := false, false;
    while actors != {}
      invariant actors <= u.Keys + v.Keys
      invariant less <==> exists a :: a in (u.Keys + v.Keys) - actors && Get(u, a) < Get(v, a)
      invariant greater <==> exists a :: a in (u.Keys + v.Keys) - actors && Get(u, a) > Get(v, a)
      invariant !(less && greater)
    {
      var a :| a in actors;
      ghost var seen := (u.Keys + v.Keys) - actors;
      actors := actors - {a};
      assert (u.Keys + v.Keys) - actors == seen + {a};
      if Get(u, a) < Get(v, a) {
        less := true;
      } else if Get(u, a) > Get(v, a) {
        greater := true;
      }
      if less && greater {
        return Concurrent;
      }
    }
    if less {
      return Before;
    }
    if greater {
      return After;
    }
    return Equal;
  }

  // ---- Domination is a partial order and Merge its least upper bound ----

  lemma DominatesGet(u: Counts, v: Counts)
    ensures Dominates(u, v) <==> forall a :: Get(v, a) <= Get(u, a)
  {
  }

  lemma DominatesTransitive(u: Counts, v: Counts, w: Counts)
    requires Dominates(u, v) && Dominates(v, w)
    ensures Dominates(u, w)
  {
  }

  /** Equality of normal forms is mutual domination: no counter is ever stored as zero. */
  lemma DominatesAntisymmetric(u: Counts, v: Counts)
    ensures Dominates(u, v) && Dominates(v, u) <==> u == v
  {
  }

  lemma GetExtensional(u: Counts, v: Counts)
    requires forall a :: Get(u, a) == Get(v, a)
    ensures u == v
  {
    DominatesAntisymmetric(u, v);
  }

  lemma MergeIsJoin(u: Counts, v: Counts, w: Counts)
    ensures Dominates(Merge(u, v), u) && Dominates(Merge(u, v), v)
    ensures Dominates(w, Merge(u, v)) <==> Dominates(w, u) && Dominates(w, v)
  {
  }

  lemma MergeLaws(u: Counts, v: Counts, w: Counts)
    ensures Merge(u, v) == Merge(v, u)
    ensures Merge(Merge(u, v), w) == Merge(u, Merge(v, w))
    ensures Merge(u, u) == u
  {
    GetExtensional(Merge(u, v), Merge(v, u));
    GetExtensional(Merge(Merge(u, v), w), Merge(u, Merge(v, w)));
    GetExtensional(Merge(u, u), u);
  }

  lemma MergeAbsorbs(u: Counts, v: Counts)
    ensures Dominates(u, v) <==> Merge(u, v) == u
  {
  }
}
