/**
 One node: its store, its causal clock and, when it is durable, its database.

 The functions say what each operation does to these values; the classes perform them in
 the order of src/distsys/causal/clock.py, src/distsys/persistence/durable_store.py,
 src/distsys/persistence/sqlite_repository.py and src/distsys/recovery/restore.py.
 */
module Node {
  import opened Outcomes
  import opened Causal
  import opened Crdt
  import opened Storage
  import opened History

  // ---- Allocating dots ----

  function NextDot(clock: VersionVector, actor: Actor, observed: VersionVector): Dot {
    Dot(actor, Get(Merge(clock, observed), actor) + 1)
  }

  function NextFrontier(clock: VersionVector, actor: Actor, observed: VersionVector): VersionVector {
    WithDot(Merge(clock, observed), NextDot(clock, actor, observed))
  }

  /** An allocated dot is above anything its clock or the request has seen, and the frontier includes both. */
  lemma AllocationAdvances(clock: VersionVector, actor: Actor, observed: VersionVector)
    ensures var d, f := NextDot(clock, actor, observed), NextFrontier(clock, actor, observed);
            && !Covers(clock, d) && !Covers(observed, d)
            && Covers(f, d) && Dominates(f, clock) && Dominates(f, observed)
  {
  }

  class CausalClock {
    const actor: Actor
    var frontier: VersionVector
    var locked: bool

    constructor (actor: Actor)
      ensures this.actor == actor && frontier == map[] && !locked
    {
      this.actor := actor;
      frontier, locked := map[], false;
    }

    /** Enter staged_allocation: take the lock and compute, but publish nothing yet. */
    method StageAllocation(observed: VersionVector) returns (dot: Dot, staged: VersionVector)
      requires !locked
      modifies this`locked
      ensures locked
      ensures dot == NextDot(frontier, actor, observed) && staged == NextFrontier(frontier, actor, observed)
    {
      locked := true;
      var base := Merge(frontier, observed);
      dot := Dot(actor, Get(base, actor) + 1);
      staged := WithDot(base, dot);
    }

    method StageObservation(version: VersionVector) returns (staged: VersionVector)
      requires !locked
      modifies this`locked
      ensures locked && staged == Merge(frontier, version)
    {
      locked := true;
      staged := Merge(frontier, version);
    }

    /** Leave either context manager; an uncommitted stage is forgotten. */
    method Release(staged: VersionVector, committed: bool)
      requires locked
      modifies this
      ensures !locked
      ensures frontier == if committed then staged else old(frontier)
    {
      if committed {
        frontier := staged;
      }
      locked := false;
    }

    method Observe(version: VersionVector)
      requires !locked
      modifies this
      ensures !locked && frontier == Merge(old(frontier), version)
    {
      var staged := StageObservation(version);
      Release(staged, true);
    }

    method Restore(version: VersionVector)
      requires !locked
      modifies this
      ensures !locked && frontier == version
    {
      frontier := version;
    }
  }

  // ---- What an operation is going to store ----

  /** An entry about to be stored and the clock frontier that goes with it. */
  datatype Plan = Plan(entry: Entry, frontier: VersionVector)

  function VersionOf(store: Entries, key: Key): VersionVector {
    if key in store then store[key].version else map[]
  }

  function ContextOf(store: Entries, key: Key): VersionVector {
    if key in store then store[key].context else map[]
  }

  function StateOf(store: Entries, key: Key, ty: CrdtType): State {
    if key in store then store[key].state else Empty(ty)
  }

  /** The body of mutate under the key lock and the clock lock. */
  function PlanMutation(store: Entries, clock: VersionVector, actor: Actor, key: Key, op: Op, token: VersionVector)
    : (p: Result<Plan>)
    ensures p.Ok? ==> p.value.entry.key == key && p.value.entry.Type() == op.Type()
  {
    if key in store && store[key].Type() != op.Type() then Err(TypeMismatch)
    else
      var observed := Merge(ContextOf(store, key), token);
      var dot := NextDot(clock, actor, observed);
      var frontier := NextFrontier(clock, actor, observed);
      Ok(Plan(Entry(key, Apply(StateOf(store, key, op.Type()), op, dot),
                    WithDot(VersionOf(store, key), dot),
                    WithDot(Merge(observed, frontier), dot)),
              frontier))
  }

  /** The new entry has seen the old context, the request's token and the clock, which only moves forward. */
  lemma MutationContext(store: Entries, clock: VersionVector, actor: Actor, key: Key, op: Op, token: VersionVector)
    requires PlanMutation(store, clock, actor, key, op, token).Ok?
    ensures var p := PlanMutation(store, clock, actor, key, op, token).value;
            && Dominates(p.entry.context, ContextOf(store, key))
            && Dominates(p.entry.context, token)
            && Dominates(p.entry.context, clock)
            && Dominates(p.frontier, clock)
  {
    var p := PlanMutation(store, clock, actor, key, op, token).value;
    var previous := ContextOf(store, key);
    var observed := Merge(previous, token);
    AllocationAdvances(clock, actor, observed);
    MergeIsJoin(previous, token, observed);
    MergeIsJoin(observed, p.frontier, observed);
    WithDotGrows(Merge(observed, p.frontier), NextDot(clock, actor, observed));
    DominatesTransitive(p.entry.context, Merge(observed, p.frontier), observed);
    DominatesTransitive(p.entry.context, observed, previous);
    DominatesTransitive(p.entry.context, observed, token);
    MutationContextIsFrontier(store, clock, actor, key, op, token);
  }

  /**
   Counter by counter: the node's own is one above the largest of the old context's, the
   token's and the clock's, every other is that largest. The new context and the new clock
   are the same vector.
   */
  lemma MutationContextIsFrontier(store: Entries, clock: VersionVector, actor: Actor, key: Key, op: Op, token: VersionVector)
    requires PlanMutation(store, clock, actor, key, op, token).Ok?
    ensures var p := PlanMutation(store, clock, actor, key, op, token).value;
            && p.entry.context == p.frontier
            && forall a :: Get(p.entry.context, a) == Largest(ContextOf(store, key), token, clock, a) + if a == actor then 1 else 0
  {
    var observed := Merge(ContextOf(store, key), token);
    forall a ensures Get(NextFrontier(clock, actor, observed), a)
                     == Largest(ContextOf(store, key), token, clock, a) + if a == actor then 1 else 0 {
      AllocatedCounter(ContextOf(store, key), token, clock, actor, a);
    }
    AllocatedContext(clock, actor, observed);
  }

  lemma AllocatedCounter(previous: VersionVector, token: VersionVector, clock: VersionVector, actor: Actor, a: Actor)
    ensures Get(NextFrontier(clock, actor, Merge(previous, token)), a)
            == Largest(previous, token, clock, a) + if a == actor then 1 else 0
  {
  }

  lemma AllocatedContext(clock: VersionVector, actor: Actor, observed: VersionVector)
    ensures var frontier := NextFrontier(clock, actor, observed);
            WithDot(Merge(observed, frontier), NextDot(clock, actor, observed)) == frontier
  {
    var d, frontier := NextDot(clock, actor, observed), NextFrontier(clock, actor, observed);
    AllocationAdvances(clock, actor, observed);
    MergeAbsorbs(frontier, observed);
    MergeLaws(observed, frontier, frontier);
    GetExtensional(WithDot(frontier, d), frontier);
  }

  /** The largest of three counters of an actor. */
  function Largest(u: VersionVector, v: VersionVector, w: VersionVector, a: Actor): nat {
    Max(Get(u, a), Max(Get(v, a), Get(w, a)))
  }

  lemma WithDotGrows(v: VersionVector, d: Dot)
    ensures Dominates(WithDot(v, d), v) && Covers(WithDot(v, d), d)
  {
  }

  /** The log record of that mutation: what it did, under which dot, having seen which version. */
  function Recorded(store: Entries, clock: VersionVector, actor: Actor, key: Key, op: Op, token: VersionVector): Mutation {
    Mutation(key, op, NextDot(clock, actor, Merge(ContextOf(store, key), token)), VersionOf(store, key))
  }

  /** DurableCrdtStore.merge_entry: the merged entry, and its context observed. */
  function PlanMerge(store: Entries, clock: VersionVector, incoming: Entry): Result<Plan> {
    match MergeInto(store, incoming)
    case Ok(m) => Ok(Plan(m, Merge(clock, m.context)))
    case Err(e) => Err(e)
  }

  /** DurableCrdtStore.merge_metadata. */
  function PlanMetadata(store: Entries, clock: VersionVector, key: Key, context: VersionVector): Option<Plan> {
    if key !in store then None
    else
      var updated := store[key].(context := Merge(store[key].context, context));
      Some(Plan(updated, Merge(clock, updated.context)))
  }

  /** A merge observes: the clock that is committed with it is the join of clock, stored and incoming context. */
  lemma MergeObserves(store: Entries, clock: VersionVector, incoming: Entry)
    requires PlanMerge(store, clock, incoming).Ok?
    ensures var p := PlanMerge(store, clock, incoming).value;
            && p.entry.key == incoming.key
            && (forall a :: Get(p.frontier, a) == Largest(clock, ContextOf(store, incoming.key), incoming.context, a))
            && (forall a :: Get(p.entry.context, a) == Max(Get(ContextOf(store, incoming.key), a), Get(incoming.context, a)))
            && Dominates(p.frontier, p.entry.context) && Dominates(p.frontier, clock)
  {
    var p := PlanMerge(store, clock, incoming).value;
    MergeIsJoin(clock, p.entry.context, clock);
  }

  /** So does raising a context, which leaves state and version alone. */
  lemma MetadataObserves(store: Entries, clock: VersionVector, key: Key, context: VersionVector)
    requires key in store
    ensures var p := PlanMetadata(store, clock, key, context);
            && p.Some? && p.value.entry == store[key].(context := p.value.entry.context)
            && (forall a :: Get(p.value.frontier, a) == Largest(clock, store[key].context, context, a))
            && (forall a :: Get(p.value.entry.context, a) == Max(Get(store[key].context, a), Get(context, a)))
            && Dominates(p.value.frontier, p.value.entry.context) && Dominates(p.value.frontier, clock)
  {
    var p := PlanMetadata(store, clock, key, context).value;
    MergeIsJoin(clock, p.entry.context, clock);
  }

  // ---- Durable storage ----

  /** The two tables written by one transaction. */
  datatype Database = Database(clock: VersionVector, rows: Entries)

  /** One transaction writes the entry's row and the clock row together. */
  function Persist(db: Database, p: Plan): Database {
    Database(p.frontier, db.rows[p.entry.key := p.entry])
  }

  class Repository {
    var db: Database

    constructor (db: Database)
      ensures this.db == db
    {
      this.db := db;
    }

    /** _commit_entry_and_clock; SQLite either applies the whole transaction or raises. */
    method Commit(p: Plan, available: bool) returns (r: Result<Plan>)
      modifies this
      ensures r == if available then Ok(p) else Err(Unavailable)
      ensures db == if available then Persist(old(db), p) else old(db)
    {
      if !available {
        return Err(Unavailable);
      }
      db := Database(p.frontier, db.rows[p.entry.key := p.entry]);
      return Ok(p);
    }
  }

  /**
   Persist-before-memory: the database is written first, then the memory store, then the
   clock. When the database refuses, or the CRDT types disagree, nothing has changed.
   */
  class DurableCrdtStore {
    const memory: CrdtStore
    const repository: Repository
    const clock: CausalClock

    ghost predicate Valid()
      reads this, memory, clock
    {
      memory.Valid() && !clock.locked
    }

    constructor (memory: CrdtStore, repository: Repository, clock: CausalClock)
      requires memory.Valid() && !clock.locked
      ensures this.memory == memory && this.repository == repository && this.clock == clock
      ensures Valid()
    {
      this.memory, this.repository, this.clock := memory, repository, clock;
    }

    /** The state after the plan has gone through the database into memory and the clock. */
    twostate predicate Done(new r: Result<Plan>)
      reads this, memory, repository, clock
    {
      match r
      case Ok(p) =>
        && repository.db == Persist(old(repository.db), p)
        && memory.entries == old(memory.entries)[p.entry.key := p.entry]
        && clock.frontier == p.frontier
      case Err(_) =>
        && repository.db == old(repository.db)
        && memory.entries == old(memory.entries)
        && clock.frontier == old(clock.frontier)
    }

    /** The tail shared by the three operations, entered with the clock already staged. */
    method CommitStaged(p: Plan, available: bool) returns (r: Result<Plan>)
      requires memory.Valid() && clock.locked
      requires p.entry.key in memory.entries ==> memory.entries[p.entry.key].Type() == p.entry.Type()
      modifies memory, repository, clock
      ensures Valid()
      ensures r == if available then Ok(p) else Err(Unavailable)
      ensures Done(r)
    {
      r := repository.Commit(p, available);
      if r.Ok? {
        var stored := memory.Replace(p.entry, Some(p.entry.Type()));
      }
      clock.Release(p.frontier, r.Ok?);
    }

    /** mutate with this store's commit_local: allocate, validate and apply, commit, advance. */
    method Mutate(key: Key, request: Request, token: VersionVector, available: bool) returns (r: Result<Plan>)
      requires Valid()
      modifies memory, repository, clock
      ensures Valid() && Done(r)
      ensures Validate(request).Err? ==> r.Err?
      ensures var op := Validate(request);
              op.Ok? ==>
                var plan := PlanMutation(old(memory.entries), old(clock.frontier), clock.actor, key, op.value, token);
                r == if plan.Ok? && !available then Err(Unavailable) else plan
    {
      if key in memory.entries && memory.entries[key].Type() != request.crdtType {
        return Err(TypeMismatch);
      }
      var previousVersion := VersionOf(memory.entries, key);
      var previousContext := ContextOf(memory.entries, key);
      var observed := Merge(previousContext, token);
      var dot, frontier := clock.StageAllocation(observed);
      var op := Validate(request);
      if op.Err? {
        clock.Release(frontier, false);
        return Err(op.error);
      }
      var state := Apply(StateOf(memory.entries, key, request.crdtType), op.value, dot);
      var context := WithDot(Merge(observed, frontier), dot);
      var next := Entry(key, state, WithDot(previousVersion, dot), context);
      r := CommitStaged(Plan(next, frontier), available);
    }

    method MergeEntry(incoming: Entry, available: bool) returns (r: Result<Plan>)
      requires Valid()
      modifies memory, repository, clock
      ensures Valid() && Done(r)
      ensures var plan := PlanMerge(old(memory.entries), old(clock.frontier), incoming);
              r == if plan.Ok? && !available then Err(Unavailable) else plan
    {
      var merged := MergeInto(memory.entries, incoming);
      if merged.Err? {
        return Err(merged.error);
      }
      var frontier := clock.StageObservation(merged.value.context);
      r := CommitStaged(Plan(merged.value, frontier), available);
    }

    method MergeMetadata(key: Key, context: VersionVector, available: bool) returns (r: Option<Result<Plan>>)
      requires Valid()
      modifies memory, repository, clock
      ensures Valid()
      ensures var plan := PlanMetadata(old(memory.entries), old(clock.frontier), key, context);
              r == if plan.None? then None else Some(if available then Ok(plan.value) else Err(Unavailable))
      ensures Done(if r.None? then Err(KeyNotFound) else r.value)
    {
      if key !in memory.entries {
        return None;
      }
      var existing := memory.entries[key];
      var updated := existing.(context := Merge(existing.context, context));
      var frontier := clock.StageObservation(updated.context);
      var done := CommitStaged(Plan(updated, frontier), available);
      return Some(done);
    }
  }

  // ---- Recovery ----

  /** v is the least frontier that dominates the saved clock and every saved context. */
  ghost predicate IsRestored(db: Database, v: VersionVector) {
    && Dominates(v, db.clock)
    && (forall k | k in db.rows :: Dominates(v, db.rows[k].context))
    && Vouched(db, v)
  }

  /** Each counter of v stands somewhere in the database. */
  ghost predicate Vouched(db: Database, v: VersionVector) {
    forall a | a in v ::
      v[a] <= Get(db.clock, a) || exists k :: k in db.rows && v[a] <= Get(db.rows[k].context, a)
  }

  lemma VouchedDominated(db: Database, v: VersionVector, w: VersionVector)
    requires IsRestored(db, w) && Vouched(db, v)
    ensures Dominates(w, v)
  {
  }

  lemma VouchedGrows(db: Database, db': Database, v: VersionVector)
    requires Vouched(db, v) && Dominates(db'.clock, db.clock)
    requires forall k | k in db.rows :: k in db'.rows && Dominates(db'.rows[k].context, db.rows[k].context)
    ensures Vouched(db', v)
  {
  }

  /** Nothing in the plan falls behind what the database already holds. */
  ghost predicate Advances(db: Database, p: Plan) {
    Dominates(p.frontier, db.clock) && (p.entry.key in db.rows ==> Dominates(p.entry.context, db.rows[p.entry.key].context))
  }

  /**
   What recovery needs of a transaction: whichever of the two states a crash leaves, before it
   or after it, the restored frontier has not fallen back, and after it the frontier has seen
   the new clock and the new entry, which is there to be restored with every other row.
   */
  lemma PersistRecovers(db: Database, p: Plan, v: VersionVector, w: VersionVector)
    requires Advances(db, p) && IsRestored(db, v) && IsRestored(Persist(db, p), w)
    ensures Dominates(w, v) && Dominates(w, p.frontier) && Dominates(w, p.entry.context)
    ensures p.entry.key in Persist(db, p).rows && Persist(db, p).rows[p.entry.key] == p.entry
    ensures forall k | k in db.rows && k != p.entry.key :: k in Persist(db, p).rows && Persist(db, p).rows[k] == db.rows[k]
  {
    var next := Persist(db, p);
    assert p.entry.key in next.rows;
    VouchedGrows(db, next, v);
    VouchedDominated(next, v, w);
  }

  lemma RestoredUnique(db: Database, v: VersionVector, w: VersionVector)
    requires IsRestored(db, v) && IsRestored(db, w)
    ensures v == w
  {
    VouchedDominated(db, v, w);
    VouchedDominated(db, w, v);
    DominatesAntisymmetric(v, w);
  }

  /** The loop of restore that joins the saved clock with every saved context. */
  method MergeSavedContexts(db: Database, keys: seq<Key>) returns (merged: VersionVector)
    requires forall k :: k in keys <==> k in db.rows
    ensures IsRestored(db, merged)
  {
    merged := db.clock;
    for i := 0 to |keys|
      invariant Dominates(merged, db.clock)
      invariant forall j | 0 <= j < i :: Dominates(merged, db.rows[keys[j]].context)
      invariant Vouched(db, merged)
    {
      var context := db.rows[keys[i]].context;
      var next := Merge(merged, context);
      MergeIsJoin(merged, context, next);
      DominatesTransitive(next, merged, db.clock);
      forall j | 0 <= j < i ensures Dominates(next, db.rows[keys[j]].context) {
        DominatesTransitive(next, merged, db.rows[keys[j]].context);
      }
      VouchedJoin(db, merged, keys[i]);
      merged := next;
    }
  }

  /** The loop of restore that replaces every saved row into an empty store. */
  method Refill(rows: Entries, keys: seq<Key>) returns (memory: CrdtStore)
    requires Filed(rows)
    requires forall k :: k in keys <==> k in rows
    ensures fresh(memory) && memory.Valid() && memory.entries == rows
  {
    memory := new CrdtStore();
    for i := 0 to |keys|
      invariant fresh(memory) && memory.Valid()
      invariant forall k :: k in memory.entries ==> k in rows && memory.entries[k] == rows[k]
      invariant forall j | 0 <= j < i :: keys[j] in memory.entries
    {
      var stored := memory.Replace(rows[keys[i]], Some(rows[keys[i]].Type()));
    }
    assert memory.entries == rows;
  }

  /**
   RestoreService.restore: rebuild the frontier from the clock row and every entry's
   context, save it back, and refill the store. The rows come in key order.
   */
  method Restore(repository: Repository, actor: Actor, keys: seq<Key>) returns (memory: CrdtStore, clock: CausalClock)
    requires Filed(repository.db.rows)
    requires forall k :: k in keys <==> k in repository.db.rows
    modifies repository
    ensures fresh(memory) && fresh(clock)
    ensures IsRestored(old(repository.db), clock.frontier)
    ensures clock.actor == actor && !clock.locked
    ensures memory.Valid() && memory.entries == old(repository.db.rows)
    ensures repository.db == Database(clock.frontier, old(repository.db.rows))
  {
    var db := repository.db;
    var merged := MergeSavedContexts(db, keys);
    if merged != db.clock {
      repository.db := Database(merged, db.rows);
    }
    memory := Refill(db.rows, keys);
    clock := new CausalClock(actor);
    clock.Restore(merged);
  }

  lemma VouchedJoin(db: Database, v: VersionVector, k: Key)
    requires Vouched(db, v) && k in db.rows
    ensures Vouched(db, Merge(v, db.rows[k].context))
  {
  }
}
