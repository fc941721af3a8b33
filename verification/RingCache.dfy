/**
 The ring kept by the cluster service, keyed by the membership version
 (src/distsys/cluster/service.py, sync_ring).

 A sync reads the version, may be suspended while it waits for the table's lock, and then
 takes a snapshot, rebuilds the ring and records the version it had read. Any number of syncs
 may be under way while the table changes. The ring is represented by the living members it
 was last built from; they determine every candidate list.
 */
module RingCache {
  import opened Causal
  import opened Membership
  import opened Ring
  import MembershipRuns

  datatype Cache = Cache(table: Table, ringVersion: int, ring: set<Member>, syncs: map<nat, nat>)

  datatype Step =
    | Merge(records: seq<Member>, readings: seq<real>)
    | Mark(n: NodeId, now: real)
    | Sweep(now: real)
    | SyncRead(id: nat)
    | SyncFinish(id: nat)

  function LivingIn(members: Members): set<Member> {
    set n | n in members && members[n].status.Alive? :: members[n]
  }

  function Do(s: Cache, step: Step): (r: Cache)
    requires Valid(s.table)
    ensures Valid(r.table)
  {
    match step
    case Merge(records, readings) =>
      if |records| == |readings| then s.(table := Merged(s.table, records, readings)) else s
    case Mark(n, now) => s.(table := Marked(s.table, n, now))
    case Sweep(now) => MembershipRuns.AdvancedValid(s.table, now); s.(table := Advanced(s.table, now))
    case SyncRead(id) =>
      if s.table.version == s.ringVersion then s else s.(syncs := s.syncs[id := s.table.version])
    case SyncFinish(id) =>
      if id !in s.syncs then s
      else s.(ringVersion := s.syncs[id], ring := LivingIn(s.table.members), syncs := s.syncs - {id})
  }

  /** The service starts with an empty ring and no version recorded. */
  function Start(t: Table): Cache {
    Cache(t, -1, {}, map[])
  }

  function Run(t: Table, steps: seq<Step>): (s: Cache)
    requires Valid(t)
    ensures Valid(s.table)
  {
    if steps == [] then Start(t) else Do(Run(t, steps[..|steps| - 1]), steps[|steps| - 1])
  }

  /** The version never goes back, and stands still only while the members do. */
  lemma VersionTracksContent(s: Cache, step: Step)
    requires Valid(s.table)
    ensures Do(s, step).table.version >= s.table.version
    ensures Do(s, step).table.members != s.table.members ==> Do(s, step).table.version > s.table.version
  {
  }

  predicate Coherent(s: Cache) {
    && s.ringVersion <= s.table.version
    && (forall id | id in s.syncs :: s.syncs[id] <= s.table.version)
    && (s.ringVersion == s.table.version ==> s.ring == LivingIn(s.table.members))
  }

  lemma StepCoherent(s: Cache, step: Step)
    requires Valid(s.table) && Coherent(s)
    ensures Coherent(Do(s, step))
  {
  }

  lemma {:induction false} RunCoherent(t: Table, steps: seq<Step>)
    requires Valid(t)
    ensures Coherent(Run(t, steps))
  {
    if steps != [] {
      RunCoherent(t, steps[..|steps| - 1]);
      StepCoherent(Run(t, steps[..|steps| - 1]), steps[|steps| - 1]);
    }
  }

  lemma LivingDistinct(t: Table)
    requires Valid(t)
    ensures DistinctIds(LivingIn(t.members))
  {
  }

  /**
   In every interleaving, whenever the recorded version is the table's, the ring routes every
   key exactly as a ring freshly built from the current members would.
   */
  lemma RoutesAsFresh(t: Table, steps: seq<Step>, hash: Hash, replicas: Positive, k: nat, c: seq<Member>, d: seq<Member>)
    requires Valid(t) && Run(t, steps).ringVersion == Run(t, steps).table.version
    requires IsCandidates(hash, replicas, Run(t, steps).ring, k, c)
    requires IsCandidates(hash, replicas, LivingIn(Run(t, steps).table.members), k, d)
    ensures c == d
  {
    RunCoherent(t, steps);
    CandidatesUnique(hash, replicas, LivingIn(Run(t, steps).table.members), k, c, d);
  }

  /** A sync during which the table does not change leaves the recorded version current. */
  lemma QuietSyncIsCurrent(t: Table, steps: seq<Step>, id: nat)
    requires Valid(t)
    ensures var s := Do(Do(Run(t, steps), SyncRead(id)), SyncFinish(id));
            id !in Run(t, steps).syncs ==> s.ringVersion == s.table.version && s.ring == LivingIn(s.table.members)
  {
    RunCoherent(t, steps);
  }
}
