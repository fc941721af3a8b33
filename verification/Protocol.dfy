/**
 The replication protocol as a system of nodes that exchange entries, for every
 interleaving, message loss, duplication and reordering, and every crash.

 A step is the code between two suspension points. A durable commit is two steps: the
 transaction (Mutate, Receive or RaiseContext) and the update of memory and clock
 (Finish); a crash may come in between. The key lock and the clock lock keep other commits
 of the node out of that window. The network holds every entry ever sent, so Receive
 covers fast replication, causal repair and anti-entropy. Fast replication sends what its
 outbox slot holds, which may be older than the store. Client tokens are arbitrary.
 */
module Protocol {
  import opened Outcomes
  import opened Causal
  import opened Crdt
  import opened Storage
  import opened History
  import opened Replica
  import opened Node

  datatype NodeState = NodeState(
    actor: Actor,
    durable: bool,
    up: bool,
    store: Entries,
    clock: VersionVector,
    db: Database,
    staged: Option<Entry>,      // written to the database, not yet to memory
    held: set<Entry>,           // read from the store by requests still to be answered
    slots: map<(NodeId, Key), Entry>, // the outbox: the newest entry for a peer and key
    issued: set<VersionVector>) // every token and frontier ever sent out, across crashes

  datatype System = System(log: Log, nodes: map<NodeId, NodeState>, net: set<Entry>, born: set<Actor>)

  datatype Step =
    | Boot(n: NodeId, durable: bool, incarnation: nat)
    | Mutate(n: NodeId, key: Key, op: Op, token: VersionVector)
    | Receive(n: NodeId, entry: Entry)
    | RaiseContext(n: NodeId, key: Key, context: VersionVector)
    | Finish(n: NodeId)
    | Send(n: NodeId, key: Key)
    | Hold(n: NodeId, key: Key)
    | Publish(n: NodeId, peer: NodeId, entry: Entry)
    | Ship(n: NodeId, peer: NodeId, key: Key)
    | Observe(n: NodeId, entry: Entry)
    | Respond(n: NodeId, entry: Entry)
    | Reveal(n: NodeId)
    | Crash(n: NodeId)
    | Restart(n: NodeId, incarnation: nat)

  predicate Idle(nd: NodeState) {
    nd.up && nd.staged.None?
  }

  /** A commit: durable nodes write the database first, the others go straight to memory. */
  function Commit(nd: NodeState, p: Plan): NodeState {
    if nd.durable then nd.(db := Persist(nd.db, p), staged := Some(p.entry))
    else nd.(store := nd.store[p.entry.key := p.entry], clock := p.frontier, held := nd.held + {p.entry})
  }

  /** Only the durable store observes the context of what it merges. */
  function Observed(nd: NodeState, p: Plan): Plan {
    if nd.durable then p else p.(frontier := nd.clock)
  }

  function FinishNode(nd: NodeState): NodeState {
    match nd.staged
    case None => nd
    case Some(e) =>
      nd.(store := nd.store[e.key := e], clock := nd.db.clock, staged := None, held := nd.held + {e})
  }

  /** _success, first part: the clock observes the entry's context. */
  function ObserveNode(nd: NodeState, e: Entry): NodeState {
    nd.(clock := Merge(nd.clock, e.context))
  }

  /** The token that goes out with an entry. */
  function ReplyToken(nd: NodeState, e: Entry): VersionVector {
    Merge(nd.clock, e.context)
  }

  /** _success, second part: read the frontier again and answer with it, merged with the context. */
  function RespondNode(nd: NodeState, e: Entry): NodeState {
    nd.(issued := nd.issued + {ReplyToken(nd, e)})
  }

  function CrashNode(nd: NodeState): NodeState {
    nd.(up := false, store := map[], clock := map[], staged := None, held := {}, slots := map[])
  }

  ghost function RestartNode(nd: NodeState, incarnation: nat): NodeState {
    if nd.durable then
      RestoredExists(nd.db);
      var frontier: VersionVector :| IsRestored(nd.db, frontier);
      nd.(up := true, store := nd.db.rows, clock := frontier, db := nd.db.(clock := frontier))
    else
      nd.(up := true, actor := nd.actor.(incarnation := incarnation))
  }

  // Each of the following is one step; a step that is not enabled changes nothing.

  predicate Up(s: System, n: NodeId) {
    n in s.nodes && s.nodes[n].up
  }

  predicate MayCommit(s: System, n: NodeId) {
    n in s.nodes && Idle(s.nodes[n])
  }

  function DoBoot(s: System, n: NodeId, durable: bool, incarnation: nat): System {
    var actor := Actor(n, incarnation);
    if n in s.nodes || actor in s.born then s
    else
      var nd := NodeState(actor, durable, true, map[], map[], Database(map[], map[]), None, {}, map[], {});
      s.(nodes := s.nodes[n := nd], born := s.born + {actor})
  }

  function DoMutate(s: System, n: NodeId, key: Key, op: Op, token: VersionVector): System {
    if !MayCommit(s, n) then s
    else
      var nd := s.nodes[n];
      match PlanMutation(nd.store, nd.clock, nd.actor, key, op, token)
      case Err(_) => s
      case Ok(p) => s.(log := s.log + [Recorded(nd.store, nd.clock, nd.actor, key, op, token)],
                       nodes := s.nodes[n := Commit(nd, p)])
  }

  function DoReceive(s: System, n: NodeId, entry: Entry): System {
    if !MayCommit(s, n) || entry !in s.net then s
    else
      match PlanMerge(s.nodes[n].store, s.nodes[n].clock, entry)
      case Err(_) => s
      case Ok(p) => s.(nodes := s.nodes[n := Commit(s.nodes[n], Observed(s.nodes[n], p))])
  }

  function DoRaiseContext(s: System, n: NodeId, key: Key, context: VersionVector): System {
    if !MayCommit(s, n) then s
    else
      match PlanMetadata(s.nodes[n].store, s.nodes[n].clock, key, context)
      case None => s
      case Some(p) => s.(nodes := s.nodes[n := Commit(s.nodes[n], Observed(s.nodes[n], p))])
  }

  function DoFinish(s: System, n: NodeId): System {
    if !Up(s, n) then s else s.(nodes := s.nodes[n := FinishNode(s.nodes[n])])
  }

  function DoSend(s: System, n: NodeId, key: Key): System {
    if Up(s, n) && key in s.nodes[n].store then s.(net := s.net + {s.nodes[n].store[key]}) else s
  }

  function HoldNode(nd: NodeState, key: Key): NodeState {
    if key in nd.store then nd.(held := nd.held + {nd.store[key]}) else nd
  }

  function DoHold(s: System, n: NodeId, key: Key): System {
    if !Up(s, n) then s else s.(nodes := s.nodes[n := HoldNode(s.nodes[n], key)])
  }

  /** publish_write: the entry replaces what its slot held. */
  function DoPublish(s: System, n: NodeId, peer: NodeId, e: Entry): System {
    if Up(s, n) && e in s.nodes[n].held
    then s.(nodes := s.nodes[n := s.nodes[n].(slots := s.nodes[n].slots[(peer, e.key) := e])]) else s
  }

  /** A replication worker sends a slot's entry and empties the slot. */
  function DoShip(s: System, n: NodeId, peer: NodeId, key: Key): System {
    if Up(s, n) && (peer, key) in s.nodes[n].slots
    then s.(net := s.net + {s.nodes[n].slots[(peer, key)]},
            nodes := s.nodes[n := s.nodes[n].(slots := s.nodes[n].slots - {(peer, key)})]) else s
  }

  function DoObserve(s: System, n: NodeId, e: Entry): System {
    if MayCommit(s, n) && e in s.nodes[n].held then s.(nodes := s.nodes[n := ObserveNode(s.nodes[n], e)]) else s
  }

  /** A response goes out once the clock has observed the entry's context. */
  predicate MayRespond(s: System, n: NodeId, e: Entry) {
    MayCommit(s, n) && e in s.nodes[n].held && Dominates(s.nodes[n].clock, e.context)
  }

  function DoRespond(s: System, n: NodeId, e: Entry): System {
    if MayRespond(s, n, e) then s.(nodes := s.nodes[n := RespondNode(s.nodes[n], e)]) else s
  }

  /** Error and empty-fetch responses carry the frontier alone. */
  function DoReveal(s: System, n: NodeId): System {
    if !MayCommit(s, n) then s
    else s.(nodes := s.nodes[n := s.nodes[n].(issued := s.nodes[n].issued + {s.nodes[n].clock})])
  }

  function DoCrash(s: System, n: NodeId): System {
    if !Up(s, n) then s else s.(nodes := s.nodes[n := CrashNode(s.nodes[n])])
  }

  ghost function DoRestart(s: System, n: NodeId, incarnation: nat): System {
    if n !in s.nodes || s.nodes[n].up then s
    else
      var nd := s.nodes[n];
      var actor := nd.actor.(incarnation := incarnation);
      if nd.durable then s.(nodes := s.nodes[n := RestartNode(nd, incarnation)])
      else if actor in s.born then s
      else s.(nodes := s.nodes[n := RestartNode(nd, incarnation)], born := s.born + {actor})
  }

  ghost function Do(s: System, step: Step): System {
    match step
    case Boot(n, durable, incarnation) => DoBoot(s, n, durable, incarnation)
    case Mutate(n, key, op, token) => DoMutate(s, n, key, op, token)
    case Receive(n, entry) => DoReceive(s, n, entry)
    case RaiseContext(n, key, context) => DoRaiseContext(s, n, key, context)
    case Finish(n) => DoFinish(s, n)
    case Send(n, key) => DoSend(s, n, key)
    case Hold(n, key) => DoHold(s, n, key)
    case Publish(n, peer, entry) => DoPublish(s, n, peer, entry)
    case Ship(n, peer, key) => DoShip(s, n, peer, key)
    case Observe(n, entry) => DoObserve(s, n, entry)
    case Respond(n, entry) => DoRespond(s, n, entry)
    case Reveal(n) => DoReveal(s, n)
    case Crash(n) => DoCrash(s, n)
    case Restart(n, incarnation) => DoRestart(s, n, incarnation)
  }

  const Initial := System([], map[], {}, {})

  ghost function Run(steps: seq<Step>): System {
    if steps == [] then Initial else Do(Run(steps[..|steps| - 1]), steps[|steps| - 1])
  }

  // ---- What holds in every reachable state ----

  ghost predicate StoreOk(log: Log, entries: Entries) {
    Filed(entries) && forall k | k in entries :: EntryOk(log, entries[k])
  }

  /** Everything the actor committed is in these entries. */
  ghost predicate OwnCovered(log: Log, a: Actor, entries: Entries) {
    forall m | m in log && m.dot.actor == a ::
      && m.key in entries && entries[m.key].Type() == m.op.Type()
      && Covers(entries[m.key].version, m.dot)
  }

  ghost predicate HeldOk(log: Log, nd: NodeState) {
    forall e | e in nd.held ::
      EntryOk(log, e) && e.key in nd.store && Dominates(nd.store[e.key].context, e.context)
  }

  ghost predicate SlotsOk(log: Log, nd: NodeState) {
    forall p | p in nd.slots :: EntryOk(log, nd.slots[p])
  }

  /** How memory and database of a running durable node relate, inside and outside a commit. */
  ghost predicate MemoryOk(nd: NodeState) {
    && Vouched(nd.db, nd.clock)
    && match nd.staged
       case None => nd.store == nd.db.rows && Dominates(nd.clock, nd.db.clock)
       case Some(e) =>
         && nd.db.rows == nd.store[e.key := e] && Dominates(nd.db.clock, nd.clock)
         && (e.key in nd.store ==> Dominates(e.context, nd.store[e.key].context))
  }

  ghost predicate DurableOk(log: Log, nd: NodeState) {
    && StoreOk(log, nd.db.rows)
    && OwnCovered(log, nd.actor, nd.db.rows)
    && Top(log, nd.actor) <= Get(nd.db.clock, nd.actor)
    && (forall t | t in nd.issued :: Vouched(nd.db, t))
    && (nd.up ==> MemoryOk(nd))
  }

  ghost predicate VolatileOk(log: Log, nd: NodeState) {
    && nd.staged.None?
    && (nd.up ==> OwnCovered(log, nd.actor, nd.store) && Top(log, nd.actor) <= Get(nd.clock, nd.actor))
  }

  ghost predicate NodeOk(log: Log, nd: NodeState) {
    && StoreOk(log, nd.store)
    && HeldOk(log, nd)
    && SlotsOk(log, nd)
    && (!nd.up ==> nd.store == map[] && nd.staged.None?)
    && (if nd.durable then DurableOk(log, nd) else VolatileOk(log, nd))
  }

  ghost predicate NetOk(log: Log, net: set<Entry>) {
    forall e | e in net :: EntryOk(log, e)
  }

  /** A node's identity: it acts under its own name, with an actor nobody else ever had. */
  predicate Named(s: System, n: NodeId)
    requires n in s.nodes
  {
    s.nodes[n].actor.nodeId == n && s.nodes[n].actor in s.born
  }

  ghost predicate Inv(s: System) {
    && LogOk(s.log)
    && NetOk(s.log, s.net)
    && (forall n | n in s.nodes :: Named(s, n) && NodeOk(s.log, s.nodes[n]))
    && (forall m | m in s.log :: m.dot.actor in s.born)
  }

  // ---- Committing ----

  lemma OwnCoveredStore(log: Log, nd: NodeState)
    requires NodeOk(log, nd) && Idle(nd)
    ensures OwnCovered(log, nd.actor, nd.store) && Top(log, nd.actor) <= Get(nd.clock, nd.actor)
  {
  }

  /** The dot of a planned mutation is new, and the planned entry is what the grown log says. */
  lemma PlanMutationOk(log: Log, store: Entries, clock: VersionVector, actor: Actor, key: Key, op: Op, token: VersionVector)
    requires LogOk(log) && StoreOk(log, store) && OwnCovered(log, actor, store)
    requires Top(log, actor) <= Get(clock, actor)
    requires PlanMutation(store, clock, actor, key, op, token).Ok?
    ensures var p := PlanMutation(store, clock, actor, key, op, token).value;
            var m := Recorded(store, clock, actor, key, op, token);
            && Fresh(log, m) && LogOk(log + [m])
            && EntryOk(log + [m], p.entry)
  {
    var p := PlanMutation(store, clock, actor, key, op, token).value;
    var m := Recorded(store, clock, actor, key, op, token);
    AllocationAdvances(clock, actor, Merge(ContextOf(store, key), token));
    assert Bounded(log, m.observed);
    LogSnoc(log, m);
    if key !in store {
      InterpEmpty(log, key, op.Type());
    }
    assert StateOf(store, key, op.Type()) == Interp(log, key, op.Type(), m.observed);
    InterpApply(log, m, p.entry.version);
    MutationBounded(log, m);
    MutationClosed(log, m);
    MutationContextCoversVersion(store, clock, actor, key, op, token);
  }

  lemma MutationBounded(log: Log, m: Mutation)
    requires Bounded(log, m.observed)
    ensures Bounded(log + [m], WithDot(m.observed, m.dot))
  {
  }

  lemma MutationClosed(log: Log, m: Mutation)
    requires LogOk(log) && Fresh(log, m) && Bounded(log, m.observed)
    requires Closed(log, m.key, m.op.Type(), m.observed)
    requires forall x | x in log && On(x, m.key, m.op.Type()) && x.dot.actor == m.dot.actor ::
               Covers(m.observed, x.dot)
    ensures Closed(log + [m], m.key, m.op.Type(), WithDot(m.observed, m.dot))
  {
  }

  lemma MutationContextCoversVersion(store: Entries, clock: VersionVector, actor: Actor, key: Key, op: Op, token: VersionVector)
    requires PlanMutation(store, clock, actor, key, op, token).Ok?
    requires key in store ==> Dominates(store[key].context, store[key].version)
    ensures var p := PlanMutation(store, clock, actor, key, op, token).value;
            Dominates(p.entry.context, p.entry.version)
  {
    var p := PlanMutation(store, clock, actor, key, op, token).value;
    var v := VersionOf(store, key);
    MutationContext(store, clock, actor, key, op, token);
    DominatesTransitive(p.entry.context, ContextOf(store, key), v);
    var d := NextDot(clock, actor, Merge(ContextOf(store, key), token));
    assert Covers(p.entry.context, d);
    WithDotLeast(p.entry.context, v, d);
  }

  lemma WithDotLeast(w: VersionVector, v: VersionVector, d: Dot)
    requires Dominates(w, v) && Covers(w, d)
    ensures Dominates(w, WithDot(v, d))
  {
  }

  /** What a plan must satisfy for the node to stay good when it is committed. */
  ghost predicate PlanOk(log: Log, nd: NodeState, p: Plan) {
    && EntryOk(log, p.entry)
    && OwnCovered(log, nd.actor, nd.store[p.entry.key := p.entry])
    && Top(log, nd.actor) <= Get(p.frontier, nd.actor)
    && Dominates(p.frontier, nd.clock)
    && Dominates(p.entry.context, ContextOf(nd.store, p.entry.key))
  }

  lemma CommitDurable(log: Log, nd: NodeState, p: Plan)
    requires nd.durable && Idle(nd) && MemoryOk(nd)
    requires StoreOk(log, nd.store) && PlanOk(log, nd, p)
    requires forall t | t in nd.issued :: Vouched(nd.db, t)
    ensures DurableOk(log, Commit(nd, p))
  {
    var nd' := Commit(nd, p);
    DominatesTransitive(p.frontier, nd.clock, nd.db.clock);
    forall k | k in nd.db.rows ensures Dominates(nd'.db.rows[k].context, nd.db.rows[k].context) {
    }
    forall t | t in nd.issued ensures Vouched(nd'.db, t) {
      VouchedGrows(nd.db, nd'.db, t);
    }
    VouchedGrows(nd.db, nd'.db, nd.clock);
  }

  lemma CommitOk(log: Log, nd: NodeState, p: Plan)
    requires Idle(nd) && StoreOk(log, nd.store) && HeldOk(log, nd) && SlotsOk(log, nd) && PlanOk(log, nd, p)
    requires nd.durable ==> MemoryOk(nd) && forall t | t in nd.issued :: Vouched(nd.db, t)
    ensures NodeOk(log, Commit(nd, p))
  {
    var nd' := Commit(nd, p);
    if nd.durable {
      CommitDurable(log, nd, p);
    } else {
      forall e | e in nd'.held ensures EntryOk(log, e) && e.key in nd'.store && Dominates(nd'.store[e.key].context, e.context) {
        if e in nd.held && e.key == p.entry.key {
          DominatesTransitive(p.entry.context, nd.store[e.key].context, e.context);
        }
      }
    }
  }

  lemma StoreFrame(log: Log, m: Mutation, entries: Entries)
    requires LogOk(log) && Fresh(log, m) && StoreOk(log, entries)
    ensures StoreOk(log + [m], entries)
  {
    forall k | k in entries ensures EntryOk(log + [m], entries[k]) {
      EntryFrame(log, m, entries[k]);
    }
  }

  lemma HeldFrame(log: Log, m: Mutation, nd: NodeState)
    requires LogOk(log) && Fresh(log, m) && HeldOk(log, nd)
    ensures HeldOk(log + [m], nd)
  {
    forall e | e in nd.held ensures EntryOk(log + [m], e) {
      EntryFrame(log, m, e);
    }
  }

  lemma SlotsFrame(log: Log, m: Mutation, nd: NodeState)
    requires LogOk(log) && Fresh(log, m) && SlotsOk(log, nd)
    ensures SlotsOk(log + [m], nd)
  {
    forall p | p in nd.slots ensures EntryOk(log + [m], nd.slots[p]) {
      EntryFrame(log, m, nd.slots[p]);
    }
  }

  /** Somebody else's mutation leaves a node as good as it was. */
  lemma NodeFrame(log: Log, m: Mutation, nd: NodeState)
    requires LogOk(log) && Fresh(log, m) && NodeOk(log, nd) && nd.actor != m.dot.actor
    ensures NodeOk(log + [m], nd)
  {
    StoreFrame(log, m, nd.store);
    HeldFrame(log, m, nd);
    SlotsFrame(log, m, nd);
    TopSnoc(log, m, nd.actor);
    if nd.durable {
      StoreFrame(log, m, nd.db.rows);
    }
  }

  // ---- Each step keeps the invariant ----

  /** The part of the invariant that concerns nodes, with one node replaced. */
  lemma Replaced(s: System, n: NodeId, nd: NodeState)
    requires Inv(s) && n in s.nodes
    requires nd.actor == s.nodes[n].actor && NodeOk(s.log, nd)
    ensures Inv(s.(nodes := s.nodes[n := nd]))
  {
  }

  lemma OthersKeep(s: System, n: NodeId, m: Mutation)
    requires Inv(s) && n in s.nodes && Fresh(s.log, m) && m.dot.actor == s.nodes[n].actor
    ensures NetOk(s.log + [m], s.net)
    ensures forall k | k in s.nodes && k != n :: NodeOk(s.log + [m], s.nodes[k])
  {
    forall e | e in s.net ensures EntryOk(s.log + [m], e) {
      EntryFrame(s.log, m, e);
    }
    forall k | k in s.nodes && k != n ensures NodeOk(s.log + [m], s.nodes[k]) {
      NodeFrame(s.log, m, s.nodes[k]);
    }
  }

  /** The invariant, put together again after one node has logged a mutation. */
  lemma Logged(s: System, n: NodeId, m: Mutation, nd: NodeState)
    requires n in s.nodes && m.dot.actor == nd.actor && nd.actor.nodeId == n && nd.actor in s.born
    requires forall k | k in s.nodes :: Named(s, k)
    requires forall x | x in s.log :: x.dot.actor in s.born
    requires LogOk(s.log + [m]) && NetOk(s.log + [m], s.net)
    requires NodeOk(s.log + [m], nd)
    requires forall k | k in s.nodes && k != n :: NodeOk(s.log + [m], s.nodes[k])
    ensures Inv(s.(log := s.log + [m], nodes := s.nodes[n := nd]))
  {
  }

  lemma MutateKeeps(s: System, n: NodeId, key: Key, op: Op, token: VersionVector)
    requires Inv(s)
    ensures Inv(DoMutate(s, n, key, op, token))
  {
    if MayCommit(s, n) {
      var nd := s.nodes[n];
      var p := PlanMutation(nd.store, nd.clock, nd.actor, key, op, token);
      if p.Ok? {
        var m := Recorded(nd.store, nd.clock, nd.actor, key, op, token);
        assert Named(s, n);
        MutatedNode(s.log, nd, key, op, token);
        OthersKeep(s, n, m);
        Logged(s, n, m, Commit(nd, p.value));
      }
    }
  }

  lemma MutatedNode(log: Log, nd: NodeState, key: Key, op: Op, token: VersionVector)
    requires LogOk(log) && NodeOk(log, nd) && Idle(nd)
    requires PlanMutation(nd.store, nd.clock, nd.actor, key, op, token).Ok?
    ensures var p := PlanMutation(nd.store, nd.clock, nd.actor, key, op, token).value;
            var m := Recorded(nd.store, nd.clock, nd.actor, key, op, token);
            Fresh(log, m) && LogOk(log + [m]) && NodeOk(log + [m], Commit(nd, p))
  {
    var p := PlanMutation(nd.store, nd.clock, nd.actor, key, op, token).value;
    var m := Recorded(nd.store, nd.clock, nd.actor, key, op, token);
    OwnCoveredStore(log, nd);
    PlanMutationOk(log, nd.store, nd.clock, nd.actor, key, op, token);
    StoreFrame(log, m, nd.store);
    HeldFrame(log, m, nd);
    SlotsFrame(log, m, nd);
    MutationContext(nd.store, nd.clock, nd.actor, key, op, token);
    AllocationAdvances(nd.clock, nd.actor, Merge(ContextOf(nd.store, key), token));
    TopSnoc(log, m, nd.actor);
    DominatesGet(p.frontier, nd.clock);
    OwnAfterMutation(log, nd, p, m);
    CommitOk(log + [m], nd, p);
  }

  lemma OwnAfterMutation(log: Log, nd: NodeState, p: Plan, m: Mutation)
    requires OwnCovered(log, nd.actor, nd.store) && Filed(nd.store)
    requires m.dot.actor == nd.actor && m.key == p.entry.key && m.op.Type() == p.entry.Type()
    requires p.entry.version == WithDot(VersionOf(nd.store, p.entry.key), m.dot)
    requires p.entry.key in nd.store ==> nd.store[p.entry.key].Type() == p.entry.Type()
    ensures OwnCovered(log + [m], nd.actor, nd.store[p.entry.key := p.entry])
  {
  }

  /** A node that stores a good entry growing out of the one it had stays good. */
  lemma StoredNode(log: Log, nd: NodeState, p: Plan)
    requires NodeOk(log, nd) && Idle(nd) && EntryOk(log, p.entry)
    requires p.entry.key in nd.store ==> nd.store[p.entry.key].Type() == p.entry.Type()
    requires Dominates(p.entry.version, VersionOf(nd.store, p.entry.key))
    requires Dominates(p.entry.context, ContextOf(nd.store, p.entry.key))
    requires Dominates(p.frontier, nd.clock)
    ensures NodeOk(log, Commit(nd, p))
  {
    OwnCoveredStore(log, nd);
    DominatesGet(p.frontier, nd.clock);
    DominatesGet(p.entry.version, VersionOf(nd.store, p.entry.key));
    CommitOk(log, nd, p);
  }

  /** The merged entry is good and grows out of the stored one, and the clock out of the clock. */
  lemma ReceivedPlan(log: Log, nd: NodeState, entry: Entry)
    requires NodeOk(log, nd) && EntryOk(log, entry) && PlanMerge(nd.store, nd.clock, entry).Ok?
    ensures var p := PlanMerge(nd.store, nd.clock, entry).value;
            && EntryOk(log, p.entry)
            && (p.entry.key in nd.store ==> nd.store[p.entry.key].Type() == p.entry.Type())
            && Dominates(p.entry.version, VersionOf(nd.store, p.entry.key))
            && Dominates(p.entry.context, ContextOf(nd.store, p.entry.key))
            && Dominates(p.frontier, nd.clock)
  {
    var p := PlanMerge(nd.store, nd.clock, entry).value;
    MergeIsJoin(nd.clock, p.entry.context, nd.clock);
    if entry.key in nd.store {
      MergeOk(log, nd.store[entry.key], entry);
      MergeIsJoin(nd.store[entry.key].version, entry.version, entry.version);
      MergeIsJoin(nd.store[entry.key].context, entry.context, entry.context);
    }
  }

  lemma ReceiveKeeps(s: System, n: NodeId, entry: Entry)
    requires Inv(s)
    ensures Inv(DoReceive(s, n, entry))
  {
    if DoReceive(s, n, entry) != s {
      var nd := s.nodes[n];
      var p := PlanMerge(nd.store, nd.clock, entry).value;
      ReceivedPlan(s.log, nd, entry);
      StoredNode(s.log, nd, Observed(nd, p));
      Replaced(s, n, Commit(nd, Observed(nd, p)));
    }
  }

  lemma RaiseContextKeeps(s: System, n: NodeId, key: Key, context: VersionVector)
    requires Inv(s)
    ensures Inv(DoRaiseContext(s, n, key, context))
  {
    if DoRaiseContext(s, n, key, context) != s {
      var nd := s.nodes[n];
      var p := PlanMetadata(nd.store, nd.clock, key, context).value;
      MergeIsJoin(nd.clock, p.entry.context, nd.clock);
      MergeIsJoin(nd.store[key].context, context, context);
      ContextFree(s.log, nd.store[key], p.entry.context);
      StoredNode(s.log, nd, Observed(nd, p));
      Replaced(s, n, Commit(nd, Observed(nd, p)));
    }
  }

  lemma FinishKeeps(s: System, n: NodeId)
    requires Inv(s)
    ensures Inv(DoFinish(s, n))
  {
    if Up(s, n) {
      FinishedNode(s.log, s.nodes[n]);
      Replaced(s, n, FinishNode(s.nodes[n]));
    }
  }

  lemma FinishedNode(log: Log, nd: NodeState)
    requires NodeOk(log, nd) && nd.up
    ensures NodeOk(log, FinishNode(nd))
  {
    if nd.staged.None? {
      return;
    }
    var e, nd' := nd.staged.value, FinishNode(nd);
    assert nd'.store == nd.db.rows;
    assert e.key in nd.db.rows && nd.db.rows[e.key] == e;
    forall h | h in nd'.held ensures EntryOk(log, h) && h.key in nd'.store && Dominates(nd'.store[h.key].context, h.context) {
      if h in nd.held && h.key == e.key {
        DominatesTransitive(e.context, nd.store[h.key].context, h.context);
      }
    }
  }

  lemma PublishKeeps(s: System, n: NodeId, peer: NodeId, e: Entry)
    requires Inv(s)
    ensures Inv(DoPublish(s, n, peer, e))
  {
    if Up(s, n) && e in s.nodes[n].held {
      var nd := s.nodes[n].(slots := s.nodes[n].slots[(peer, e.key) := e]);
      assert NodeOk(s.log, nd);
      Replaced(s, n, nd);
    }
  }

  lemma ShipKeeps(s: System, n: NodeId, peer: NodeId, key: Key)
    requires Inv(s)
    ensures Inv(DoShip(s, n, peer, key))
  {
    if Up(s, n) && (peer, key) in s.nodes[n].slots {
      var nd := s.nodes[n].(slots := s.nodes[n].slots - {(peer, key)});
      assert NodeOk(s.log, nd);
      Replaced(s, n, nd);
    }
  }

  lemma ObserveKeeps(s: System, n: NodeId, e: Entry)
    requires Inv(s)
    ensures Inv(DoObserve(s, n, e))
  {
    if MayCommit(s, n) && e in s.nodes[n].held {
      ObservedNode(s.log, s.nodes[n], e);
      Replaced(s, n, ObserveNode(s.nodes[n], e));
    }
  }

  lemma ObservedNode(log: Log, nd: NodeState, e: Entry)
    requires NodeOk(log, nd) && Idle(nd) && e in nd.held
    ensures NodeOk(log, ObserveNode(nd, e))
  {
    var clock := Merge(nd.clock, e.context);
    MergeIsJoin(nd.clock, e.context, nd.clock);
    DominatesGet(clock, nd.clock);
    if nd.durable {
      DominatesTransitive(clock, nd.clock, nd.db.clock);
      VouchedObserved(nd.db, nd.clock, e);
    }
  }

  lemma RespondKeeps(s: System, n: NodeId, e: Entry)
    requires Inv(s)
    ensures Inv(DoRespond(s, n, e))
  {
    if MayRespond(s, n, e) {
      RespondedNode(s.log, s.nodes[n], e);
      Replaced(s, n, RespondNode(s.nodes[n], e));
    }
  }

  lemma RespondedNode(log: Log, nd: NodeState, e: Entry)
    requires NodeOk(log, nd) && Idle(nd) && e in nd.held
    ensures NodeOk(log, RespondNode(nd, e))
  {
    if nd.durable {
      VouchedObserved(nd.db, nd.clock, e);
    }
  }

  lemma VouchedObserved(db: Database, v: VersionVector, e: Entry)
    requires Vouched(db, v) && e.key in db.rows && Dominates(db.rows[e.key].context, e.context)
    ensures Vouched(db, Merge(v, e.context))
  {
  }

  /** Joining a finite set of rows one by one reaches the restored frontier. */
  lemma {:induction false} RestoredExists(db: Database)
    ensures exists v: VersionVector :: IsRestored(db, v)
    decreases |db.rows|
  {
    if db.rows == map[] {
      assert Vouched(db, db.clock);
      assert IsRestored(db, db.clock);
    } else {
      var k :| k in db.rows;
      var rest := Database(db.clock, db.rows - {k});
      RestoredExists(rest);
      var v: VersionVector :| IsRestored(rest, v);
      VouchedGrowsRows(rest, db, v);
      VouchedJoin(db, v, k);
      var w := Merge(v, db.rows[k].context);
      MergeIsJoin(v, db.rows[k].context, w);
      DominatesTransitive(w, v, db.clock);
      forall j | j in db.rows ensures Dominates(w, db.rows[j].context) {
        if j != k {
          assert Dominates(v, rest.rows[j].context);
          DominatesTransitive(w, v, db.rows[j].context);
        }
      }
      assert IsRestored(db, w);
    }
  }

  lemma VouchedGrowsRows(rest: Database, db: Database, v: VersionVector)
    requires rest.clock == db.clock && Vouched(rest, v)
    requires forall j | j in rest.rows :: j in db.rows && rest.rows[j] == db.rows[j]
    ensures Vouched(db, v)
  {
  }

  lemma RestartedNode(log: Log, nd: NodeState, incarnation: nat)
    requires NodeOk(log, nd) && !nd.up && nd.durable
    ensures NodeOk(log, RestartNode(nd, incarnation))
  {
  }

  /** An actor nobody has used yet has no mutation in the log. */
  lemma {:induction false} TopUnborn(log: Log, a: Actor)
    requires forall m | m in log :: m.dot.actor != a
    ensures Top(log, a) == 0
  {
    if log != [] {
      assert log[|log| - 1] in log;
      TopUnborn(log[..|log| - 1], a);
    }
  }

  lemma RestartKeeps(s: System, n: NodeId, incarnation: nat)
    requires Inv(s)
    ensures Inv(DoRestart(s, n, incarnation))
  {
    var s' := DoRestart(s, n, incarnation);
    if n in s.nodes && !s.nodes[n].up {
      var nd := s.nodes[n];
      if nd.durable {
        RestartedNode(s.log, nd, incarnation);
        RestoredExists(nd.db);
        assert s'.born == s.born;
        Replaced(s, n, RestartNode(nd, incarnation));
      } else if nd.actor.(incarnation := incarnation) !in s.born {
        TopUnborn(s.log, nd.actor.(incarnation := incarnation));
        assert NodeOk(s.log, RestartNode(nd, incarnation));
      }
    }
  }

  lemma BootKeeps(s: System, n: NodeId, durable: bool, incarnation: nat)
    requires Inv(s)
    ensures Inv(DoBoot(s, n, durable, incarnation))
  {
    if n !in s.nodes && Actor(n, incarnation) !in s.born {
      TopUnborn(s.log, Actor(n, incarnation));
      var nd := DoBoot(s, n, durable, incarnation).nodes[n];
      assert NodeOk(s.log, nd);
    }
  }

  lemma CrashKeeps(s: System, n: NodeId)
    requires Inv(s)
    ensures Inv(DoCrash(s, n))
  {
    if Up(s, n) {
      assert NodeOk(s.log, CrashNode(s.nodes[n]));
      Replaced(s, n, CrashNode(s.nodes[n]));
    }
  }

  lemma RevealKeeps(s: System, n: NodeId)
    requires Inv(s)
    ensures Inv(DoReveal(s, n))
  {
    if MayCommit(s, n) {
      var nd := s.nodes[n];
      assert NodeOk(s.log, nd.(issued := nd.issued + {nd.clock}));
      Replaced(s, n, nd.(issued := nd.issued + {nd.clock}));
    }
  }

  lemma SendKeeps(s: System, n: NodeId, key: Key)
    requires Inv(s)
    ensures Inv(DoSend(s, n, key))
  {
  }

  lemma HoldKeeps(s: System, n: NodeId, key: Key)
    requires Inv(s)
    ensures Inv(DoHold(s, n, key))
  {
    if Up(s, n) {
      HoldingNode(s.log, s.nodes[n], key);
      Replaced(s, n, HoldNode(s.nodes[n], key));
    }
  }

  lemma HoldingNode(log: Log, nd: NodeState, key: Key)
    requires NodeOk(log, nd)
    ensures NodeOk(log, HoldNode(nd, key))
  {
  }

  /** Steps that commit something, against steps that only pass it on or lose it. */
  predicate Commits(step: Step) {
    step.Boot? || step.Mutate? || step.Receive? || step.RaiseContext? || step.Finish?
  }

  lemma CommitStepKeeps(s: System, step: Step)
    requires Inv(s) && Commits(step)
    ensures Inv(Do(s, step))
  {
    match step
    case Boot(n, durable, incarnation) => BootKeeps(s, n, durable, incarnation);
    case Mutate(n, key, op, token) => MutateKeeps(s, n, key, op, token);
    case Receive(n, entry) => ReceiveKeeps(s, n, entry);
    case RaiseContext(n, key, context) => RaiseContextKeeps(s, n, key, context);
    case Finish(n) => FinishKeeps(s, n);
  }

  lemma OtherStepKeeps(s: System, step: Step)
    requires Inv(s) && !Commits(step)
    ensures Inv(Do(s, step))
  {
    match step
    case Send(n, key) => SendKeeps(s, n, key);
    case Hold(n, key) => HoldKeeps(s, n, key);
    case Publish(n, peer, entry) => PublishKeeps(s, n, peer, entry);
    case Ship(n, peer, key) => ShipKeeps(s, n, peer, key);
    case Observe(n, entry) => ObserveKeeps(s, n, entry);
    case Respond(n, entry) => RespondKeeps(s, n, entry);
    case Reveal(n) => RevealKeeps(s, n);
    case Crash(n) => CrashKeeps(s, n);
    case Restart(n, incarnation) => RestartKeeps(s, n, incarnation);
  }

  lemma StepKeeps(s: System, step: Step)
    requires Inv(s)
    ensures Inv(Do(s, step))
  {
    if Commits(step) {
      CommitStepKeeps(s, step);
    } else {
      OtherStepKeeps(s, step);
    }
  }

  /** Every reachable state is good, whatever was lost, repeated, reordered or crashed. */
  lemma {:induction false} RunKeeps(steps: seq<Step>)
    ensures Inv(Run(steps))
  {
    if steps != [] {
      RunKeeps(steps[..|steps| - 1]);
      StepKeeps(Run(steps[..|steps| - 1]), steps[|steps| - 1]);
    }
  }

  // ---- What follows for every run ----

  /** Every place an entry can be: in flight, in a store, a database, an outbox slot or a request's hands. */
  ghost predicate Somewhere(s: System, e: Entry) {
    || e in s.net
    || (exists n, k :: n in s.nodes && k in s.nodes[n].store && s.nodes[n].store[k] == e)
    || (exists n, k :: n in s.nodes && s.nodes[n].durable && k in s.nodes[n].db.rows && s.nodes[n].db.rows[k] == e)
    || (exists n, p :: n in s.nodes && p in s.nodes[n].slots && s.nodes[n].slots[p] == e)
    || (exists n :: n in s.nodes && e in s.nodes[n].held)
  }

  lemma SomewhereOk(steps: seq<Step>, e: Entry)
    requires Somewhere(Run(steps), e)
    ensures LogOk(Run(steps).log) && EntryOk(Run(steps).log, e)
  {
    RunKeeps(steps);
  }

  /**
   In every run, wherever two entries of one key are: they merge unless their types
   differ, merging does not depend on order or repetition, equal versions mean equal
   states, and a dominating version already contains the other.
   */
  lemma ReachableEntriesAgree(steps: seq<Step>, l: Entry, r: Entry)
    requires Somewhere(Run(steps), l) && Somewhere(Run(steps), r) && l.key == r.key
    ensures MergeEntries(l, r).Ok? <==> l.Type() == r.Type()
    ensures l.Type() != r.Type() ==> MergeEntries(l, r) == Err(TypeMismatch)
    ensures l.Type() == r.Type() ==>
              && MergeEntries(l, r) == MergeEntries(r, l)
              && MergeEntries(l, l) == Ok(l)
              && (l.version == r.version ==> l.state == r.state)
              && (Dominates(l.version, r.version) ==> MergeEntries(r, l).value.state == l.state)
  {
    SomewhereOk(steps, l);
    SomewhereOk(steps, r);
    var log := Run(steps).log;
    MergeOk(log, l, r);
    if l.Type() == r.Type() {
      MergeIsSemilattice(log, l, r, r);
      if Dominates(l.version, r.version) {
        DominatingAbsorbs(log, l, r);
      }
    }
  }

  /** In every run, merging the entries of one key and type is total, associative, commutative and idempotent. */
  lemma ReachableMergeIsSemilattice(steps: seq<Step>, a: Entry, b: Entry, c: Entry)
    requires Somewhere(Run(steps), a) && Somewhere(Run(steps), b) && Somewhere(Run(steps), c)
    requires a.key == b.key == c.key && a.Type() == b.Type() == c.Type()
    ensures MergeEntries(a, a) == Ok(a) && MergeEntries(a, b) == MergeEntries(b, a)
    ensures MergeEntries(a, b).Ok? && MergeEntries(b, c).Ok?
    ensures MergeEntries(MergeEntries(a, b).value, c) == MergeEntries(a, MergeEntries(b, c).value)
  {
    SomewhereOk(steps, a);
    SomewhereOk(steps, b);
    SomewhereOk(steps, c);
    MergeIsSemilattice(Run(steps).log, a, b, c);
  }

  /** No dot names two committed mutations, whatever was rolled back, skipped or restarted. */
  lemma DotsNeverReused(steps: seq<Step>, i: nat, j: nat)
    requires i < j < |Run(steps).log|
    ensures Run(steps).log[i].dot != Run(steps).log[j].dot
  {
    RunKeeps(steps);
  }

  /** What a client reads from an entry found anywhere is what the covered mutations say. */
  lemma ReachableMeaning(steps: seq<Step>, e: Entry)
    requires Somewhere(Run(steps), e)
    ensures var log := Run(steps).log;
            match e.state
            case GCounter(c) => Total(c) == CoveredTotal(log, e.key, Plain, e.version)
            case PNCounter(p, n) =>
              Total(p) - Total(n) == CoveredTotal(log, e.key, Plus, e.version) - CoveredTotal(log, e.key, Minus, e.version)
            case ORSet(_, _) => forall x :: x in Elements(e.state) <==> Present(log, e.key, x, e.version)
            case MVRegister(values, _) =>
              && (forall m | m in log ::
                    m.dot in Visible(e.state) <==>
                      && IsWrite(m, e.key) && Covers(e.version, m.dot)
                      && !exists w :: w in log && w != m && Covers(e.version, w.dot) && Overwrites(w, m, e.key))
              && (forall d | d in Visible(e.state) ::
                    exists m | m in log :: WroteText(m, e.key, e.version, d, values[d]))
  {
    SomewhereOk(steps, e);
    var log := Run(steps).log;
    match e.state
    case GCounter(_) =>
      CounterMeaning(log, e.key, Plain, e.version);
    case PNCounter(_, _) =>
      CounterMeaning(log, e.key, Plus, e.version);
      CounterMeaning(log, e.key, Minus, e.version);
    case ORSet(_, _) =>
      forall x ensures x in Elements(e.state) <==> Present(log, e.key, x, e.version) {
        ORSetMeaning(log, e.key, e.version, x);
      }
    case MVRegister(_, _) =>
      forall m | m in log
        ensures m.dot in Visible(e.state) <==>
                  && IsWrite(m, e.key) && Covers(e.version, m.dot)
                  && !exists w :: w in log && w != m && Covers(e.version, w.dot) && Overwrites(w, m, e.key)
      {
        MVRegisterMeaning(log, e.key, e.version, m);
      }
      forall d | d in Visible(e.state)
        ensures exists m | m in log :: WroteText(m, e.key, e.version, d, e.state.values[d])
      {
        VisibleOnlyLogged(log, e.key, e.version, d);
      }
  }

  /** In every run, an accepted request changes what its node shows exactly as its name says, and no other key. */
  lemma MutationTakesEffect(steps: seq<Step>, n: NodeId, key: Key, r: Request, token: VersionVector)
    requires MayCommit(Run(steps), n) && Validate(r).Ok?
    requires key in Run(steps).nodes[n].store ==> Run(steps).nodes[n].store[key].Type() == r.crdtType
    ensures var nd := Run(steps).nodes[n];
            var m := Recorded(nd.store, nd.clock, nd.actor, key, Validate(r).value, token);
            var after := DoFinish(DoMutate(Run(steps), n, key, Validate(r).value, token), n);
            && after.log == Run(steps).log + [m] && n in after.nodes && key in after.nodes[n].store
            && after.nodes[n].store == nd.store[key := after.nodes[n].store[key]]
            && after.nodes[n].store[key].Type() == r.crdtType
            && Effect(r, StateOf(nd.store, key, r.crdtType), after.nodes[n].store[key].state, m.dot)
  {
    RunKeeps(steps);
    NodeMutationTakesEffect(Run(steps).log, Run(steps).nodes[n], key, r, token);
    var nd := Run(steps).nodes[n];
    CommittedStore(nd, PlanMutation(nd.store, nd.clock, nd.actor, key, Validate(r).value, token).value);
  }

  lemma CommittedStore(nd: NodeState, p: Plan)
    requires Idle(nd)
    ensures FinishNode(Commit(nd, p)).store == nd.store[p.entry.key := p.entry]
  {
  }

  lemma NodeMutationTakesEffect(log: Log, nd: NodeState, key: Key, r: Request, token: VersionVector)
    requires LogOk(log) && NodeOk(log, nd) && Idle(nd) && Validate(r).Ok?
    requires PlanMutation(nd.store, nd.clock, nd.actor, key, Validate(r).value, token).Ok?
    ensures var m := Recorded(nd.store, nd.clock, nd.actor, key, Validate(r).value, token);
            Effect(r, StateOf(nd.store, key, r.crdtType),
                   PlanMutation(nd.store, nd.clock, nd.actor, key, Validate(r).value, token).value.entry.state, m.dot)
  {
    var m := Recorded(nd.store, nd.clock, nd.actor, key, Validate(r).value, token);
    OwnCoveredStore(log, nd);
    AllocationAdvances(nd.clock, nd.actor, Merge(ContextOf(nd.store, key), token));
    StoredNewTo(log, nd.store, key, r.crdtType, m.dot);
    RequestEffect(r, StateOf(nd.store, key, r.crdtType), m.dot);
  }

  lemma StoredNewTo(log: Log, store: Entries, key: Key, ty: CrdtType, d: Dot)
    requires LogOk(log) && StoreOk(log, store) && Top(log, d.actor) < d.counter
    requires key in store ==> store[key].Type() == ty
    ensures NewTo(StateOf(store, key, ty), d)
  {
    if key in store {
      InterpNewTo(log, key, ty, store[key].version, d);
    }
  }

  // ---- Crash and recovery ----

  /** Steps only add to the log and to what a node has issued. */
  ghost predicate Grown(s: System, s': System, n: NodeId) {
    && s.log <= s'.log
    && (n in s.nodes ==> n in s'.nodes && s.nodes[n].issued <= s'.nodes[n].issued
                         && s'.nodes[n].durable == s.nodes[n].durable
                         && (s.nodes[n].durable ==> s'.nodes[n].actor == s.nodes[n].actor))
  }

  lemma StepGrows(s: System, step: Step, n: NodeId)
    ensures Grown(s, Do(s, step), n)
  {
    if step.Restart? && step.n in s.nodes {
      RestoredExists(s.nodes[step.n].db);
    }
  }

  /** What was true of entries and issued tokens stays true. */
  ghost predicate Follows(s: System, s': System) {
    (forall e :: EntryOk(s.log, e) ==> EntryOk(s'.log, e)) && forall n :: Grown(s, s', n)
  }

  lemma MutateFollows(s: System, n: NodeId, key: Key, op: Op, token: VersionVector)
    requires Inv(s)
    ensures Follows(s, DoMutate(s, n, key, op, token))
  {
    var s' := DoMutate(s, n, key, op, token);
    forall e | EntryOk(s.log, e) ensures EntryOk(s'.log, e) {
      MutateEntryFrame(s, n, key, op, token, e);
    }
    forall k ensures Grown(s, s', k) {
      MutateGrows(s, n, key, op, token, k);
    }
  }

  lemma MutateGrows(s: System, n: NodeId, key: Key, op: Op, token: VersionVector, k: NodeId)
    ensures Grown(s, DoMutate(s, n, key, op, token), k)
  {
  }

  lemma MutateEntryFrame(s: System, n: NodeId, key: Key, op: Op, token: VersionVector, e: Entry)
    requires Inv(s) && EntryOk(s.log, e)
    ensures EntryOk(DoMutate(s, n, key, op, token).log, e)
  {
    if DoMutate(s, n, key, op, token).log != s.log {
      var nd := s.nodes[n];
      OwnCoveredStore(s.log, nd);
      PlanMutationOk(s.log, nd.store, nd.clock, nd.actor, key, op, token);
      EntryFrame(s.log, Recorded(nd.store, nd.clock, nd.actor, key, op, token), e);
    }
  }

  lemma HoldFollows(s: System, n: NodeId, key: Key)
    ensures Follows(s, DoHold(s, n, key))
  {
  }

  lemma RespondFollows(s: System, n: NodeId, e: Entry)
    ensures Follows(s, DoRespond(s, n, e))
  {
  }

  lemma StepFollows(s: System, step: Step)
    requires Inv(s)
    ensures Follows(s, Do(s, step))
  {
    if step.Mutate? {
      MutateFollows(s, step.n, step.key, step.op, step.token);
    } else {
      assert Do(s, step).log == s.log;
      forall n ensures Grown(s, Do(s, step), n) {
        StepGrows(s, step, n);
      }
    }
  }

  lemma {:induction false} RunGrows(steps: seq<Step>, i: nat, n: NodeId)
    requires i <= |steps|
    ensures Grown(Run(steps[..i]), Run(steps), n)
  {
    if i == |steps| {
      assert steps[..i] == steps;
    } else {
      var k := |steps| - 1;
      RunGrows(steps[..k], i, n);
      assert steps[..k][..i] == steps[..i];
      StepGrows(Run(steps[..k]), steps[k], n);
    }
  }

  /**
   A durable node that crashes at any point and restarts holds every mutation it had
   committed, and its clock dominates every token it ever sent out and every dot it ever used.
   */
  lemma RecoveryLosesNothing(steps: seq<Step>, i: nat, n: NodeId, incarnation: nat)
    requires i <= |steps| && n in Run(steps[..i]).nodes && Run(steps[..i]).nodes[n].durable
    ensures var before, after := Run(steps[..i]), DoRestart(DoCrash(Run(steps), n), n, incarnation);
            n in after.nodes && Recovered(before.log, before.nodes[n], after.nodes[n])
  {
    RunKeeps(steps);
    RunGrows(steps, i, n);
    RecoveredSystem(Run(steps), n, incarnation);
  }

  lemma RecoveredSystem(s: System, n: NodeId, incarnation: nat)
    requires Inv(s) && n in s.nodes && s.nodes[n].durable
    ensures var nd, s' := s.nodes[n], DoRestart(DoCrash(s, n), n, incarnation);
            && n in s'.nodes && Recovered(s.log, nd, s'.nodes[n])
  {
    CrashKeeps(s, n);
    RestartKeeps(DoCrash(s, n), n, incarnation);
    RecoveredNode(DoCrash(s, n), n, incarnation);
  }

  /** nd' has everything nd had committed, and has seen everything nd had sent out. */
  ghost predicate Recovered(log: Log, nd: NodeState, nd': NodeState) {
    && nd'.up && nd'.actor == nd.actor
    && (forall t | t in nd.issued :: Dominates(nd'.clock, t))
    && (forall m | m in log && m.dot.actor == nd.actor ::
          && Covers(nd'.clock, m.dot)
          && m.key in nd'.store && Covers(nd'.store[m.key].version, m.dot))
  }

  lemma RecoveredNode(s: System, n: NodeId, incarnation: nat)
    requires Inv(s) && Inv(DoRestart(s, n, incarnation))
    requires n in s.nodes && !s.nodes[n].up && s.nodes[n].durable
    ensures Recovered(s.log, s.nodes[n], DoRestart(s, n, incarnation).nodes[n])
  {
    var nd, nd' := s.nodes[n], DoRestart(s, n, incarnation).nodes[n];
    RestoredExists(nd.db);
    assert IsRestored(nd.db, nd'.clock);
    forall t | t in nd.issued ensures Dominates(nd'.clock, t) {
      VouchedDominated(nd.db, t, nd'.clock);
    }
    DominatesGet(nd'.clock, nd.db.clock);
    forall m | m in s.log && m.dot.actor == nd.actor ensures Covers(nd'.clock, m.dot) {
      TopCovers(s.log, m);
    }
  }

  // ---- Contexts only grow while a node is up ----

  /** The newest committed context of a key, in memory or still on its way there. */
  function LatestContext(nd: NodeState, key: Key): VersionVector {
    if nd.staged.Some? && nd.staged.value.key == key then nd.staged.value.context else ContextOf(nd.store, key)
  }

  lemma CommitContexts(nd: NodeState, p: Plan, key: Key)
    requires Idle(nd) && Dominates(p.entry.context, ContextOf(nd.store, p.entry.key))
    ensures Dominates(LatestContext(Commit(nd, p), key), LatestContext(nd, key))
    ensures LatestContext(Commit(nd, p), p.entry.key) == p.entry.context
  {
  }

  lemma MutateContexts(s: System, n: NodeId, key: Key, op: Op, token: VersionVector, k: Key)
    requires n in s.nodes
    ensures var s' := DoMutate(s, n, key, op, token);
            n in s'.nodes && Dominates(LatestContext(s'.nodes[n], k), LatestContext(s.nodes[n], k))
  {
    if DoMutate(s, n, key, op, token) != s {
      var nd := s.nodes[n];
      MutationContext(nd.store, nd.clock, nd.actor, key, op, token);
      CommitContexts(nd, PlanMutation(nd.store, nd.clock, nd.actor, key, op, token).value, k);
    }
  }

  lemma ReceiveContexts(s: System, n: NodeId, entry: Entry, k: Key)
    requires Inv(s) && n in s.nodes
    ensures var s' := DoReceive(s, n, entry);
            n in s'.nodes && Dominates(LatestContext(s'.nodes[n], k), LatestContext(s.nodes[n], k))
  {
    if DoReceive(s, n, entry) != s {
      var nd := s.nodes[n];
      ReceivedPlan(s.log, nd, entry);
      CommitContexts(nd, Observed(nd, PlanMerge(nd.store, nd.clock, entry).value), k);
    }
  }

  lemma RaiseContexts(s: System, n: NodeId, key: Key, context: VersionVector, k: Key)
    requires Inv(s) && n in s.nodes
    ensures var s' := DoRaiseContext(s, n, key, context);
            && n in s'.nodes && Dominates(LatestContext(s'.nodes[n], k), LatestContext(s.nodes[n], k))
            && (MayCommit(s, n) && key in s.nodes[n].store ==> Dominates(LatestContext(s'.nodes[n], key), context))
  {
    var nd := s.nodes[n];
    if MayCommit(s, n) && key in nd.store {
      assert NodeOk(s.log, nd);
      RaisedContexts(nd, key, context, k);
    }
  }

  lemma RaisedContexts(nd: NodeState, key: Key, context: VersionVector, k: Key)
    requires Idle(nd) && Filed(nd.store) && key in nd.store
    ensures var nd' := Commit(nd, Observed(nd, PlanMetadata(nd.store, nd.clock, key, context).value));
            Dominates(LatestContext(nd', k), LatestContext(nd, k)) && Dominates(LatestContext(nd', key), context)
  {
    var p := Observed(nd, PlanMetadata(nd.store, nd.clock, key, context).value);
    MergeIsJoin(nd.store[key].context, context, context);
    CommitContexts(nd, p, k);
    CommitContexts(nd, p, key);
  }

  lemma StepContexts(s: System, step: Step, n: NodeId, k: Key)
    requires Inv(s) && Up(s, n) && Up(Do(s, step), n)
    ensures Dominates(LatestContext(Do(s, step).nodes[n], k), LatestContext(s.nodes[n], k))
  {
    if step.Mutate? && step.n == n {
      MutateContexts(s, n, step.key, step.op, step.token, k);
    } else if step.Receive? && step.n == n {
      ReceiveContexts(s, n, step.entry, k);
    } else if step.RaiseContext? && step.n == n {
      RaiseContexts(s, n, step.key, step.context, k);
    } else {
      OtherContexts(s, step, n, k);
    }
  }

  lemma OtherContexts(s: System, step: Step, n: NodeId, k: Key)
    requires Up(s, n) && Up(Do(s, step), n)
    requires (step.Mutate? || step.Receive? || step.RaiseContext?) ==> step.n != n
    ensures LatestContext(Do(s, step).nodes[n], k) == LatestContext(s.nodes[n], k)
  {
  }

  lemma RunSnoc(steps: seq<Step>, i: nat)
    requires i < |steps|
    ensures Run(steps[..i + 1]) == Do(Run(steps[..i]), steps[i])
  {
    assert steps[..i + 1][..i] == steps[..i];
  }

  ghost predicate StaysUp(steps: seq<Step>, i: nat, n: NodeId) {
    forall j | i <= j <= |steps| :: Up(Run(steps[..j]), n)
  }

  /** The same, for a node that may not be there. */
  function ContextAt(s: System, n: NodeId, k: Key): VersionVector {
    if n in s.nodes then LatestContext(s.nodes[n], k) else map[]
  }

  lemma ContextsGrowAt(steps: seq<Step>, j: nat, n: NodeId, k: Key)
    requires j < |steps| && Up(Run(steps[..j]), n) && Up(Run(steps[..j + 1]), n)
    ensures Dominates(ContextAt(Run(steps[..j + 1]), n, k), ContextAt(Run(steps[..j]), n, k))
  {
    RunKeeps(steps[..j]);
    RunSnoc(steps, j);
    StepContexts(Run(steps[..j]), steps[j], n, k);
  }

  /** Whatever else happens, a key's context at a node that stays up never shrinks. */
  lemma {:induction false} ContextsNeverShrink(steps: seq<Step>, i: nat, n: NodeId, k: Key)
    requires i <= |steps| && StaysUp(steps, i, n)
    ensures Dominates(ContextAt(Run(steps), n, k), ContextAt(Run(steps[..i]), n, k))
    decreases |steps| - i
  {
    if i == |steps| {
      assert steps[..i] == steps;
    } else {
      ContextsGrowAt(steps, i, n, k);
      ContextsNeverShrink(steps, i + 1, n, k);
      DominatesTransitive(ContextAt(Run(steps), n, k), ContextAt(Run(steps[..i + 1]), n, k), ContextAt(Run(steps[..i]), n, k));
    }
  }

  /**
   However a repair is interleaved with other commits, once it has raised a context the
   entry's context dominates it from then on, so the check that follows a repair succeeds.
   */
  lemma RaisedContextStays(steps: seq<Step>, i: nat, n: NodeId, key: Key, context: VersionVector)
    requires i < |steps| && steps[i] == RaiseContext(n, key, context) && StaysUp(steps, i, n)
    requires MayCommit(Run(steps[..i]), n) && key in Run(steps[..i]).nodes[n].store
    ensures Dominates(ContextAt(Run(steps), n, key), context)
    ensures MayCommit(Run(steps), n) ==> Dominates(ContextOf(Run(steps).nodes[n].store, key), context)
  {
    RaisedAt(steps, i, n, key, context);
    ContextsNeverShrink(steps, i + 1, n, key);
    DominatesTransitive(ContextAt(Run(steps), n, key), ContextAt(Run(steps[..i + 1]), n, key), context);
  }

  lemma RaisedAt(steps: seq<Step>, i: nat, n: NodeId, key: Key, context: VersionVector)
    requires i < |steps| && steps[i] == RaiseContext(n, key, context)
    requires MayCommit(Run(steps[..i]), n) && key in Run(steps[..i]).nodes[n].store
    ensures Dominates(ContextAt(Run(steps[..i + 1]), n, key), context)
  {
    RunKeeps(steps[..i]);
    RaiseContexts(Run(steps[..i]), n, key, context, key);
    RunSnoc(steps, i);
  }

  // ---- A durable node's clock has seen everything it holds and has sent ----

  /** The clock of the last commit, in memory or still on its way there. */
  function LatestClock(nd: NodeState): VersionVector {
    if nd.staged.Some? then nd.db.clock else nd.clock
  }

  ghost predicate ClockOk(nd: NodeState) {
    nd.durable && nd.up ==>
      && (forall k | k in nd.db.rows :: Dominates(LatestClock(nd), nd.db.rows[k].context))
      && (forall t | t in nd.issued :: Dominates(nd.clock, t))
  }

  ghost predicate ClocksOk(s: System) {
    forall n | n in s.nodes :: ClockOk(s.nodes[n])
  }

  lemma CommitClock(nd: NodeState, p: Plan)
    requires ClockOk(nd) && Idle(nd) && Dominates(p.frontier, nd.clock) && Dominates(p.frontier, p.entry.context)
    ensures ClockOk(Commit(nd, p))
  {
    if nd.durable {
      var nd' := Commit(nd, p);
      forall k | k in nd'.db.rows ensures Dominates(LatestClock(nd'), nd'.db.rows[k].context) {
        if k != p.entry.key {
          DominatesTransitive(p.frontier, nd.clock, nd.db.rows[k].context);
        }
      }
    }
  }

  lemma MutateClock(s: System, n: NodeId, key: Key, op: Op, token: VersionVector)
    requires ClocksOk(s)
    ensures ClocksOk(DoMutate(s, n, key, op, token))
  {
    if DoMutate(s, n, key, op, token) != s {
      var nd := s.nodes[n];
      MutationContext(nd.store, nd.clock, nd.actor, key, op, token);
      MutationContextIsFrontier(nd.store, nd.clock, nd.actor, key, op, token);
      CommitClock(nd, PlanMutation(nd.store, nd.clock, nd.actor, key, op, token).value);
    }
  }

  lemma ObservedClock(nd: NodeState, p: Plan)
    requires ClockOk(nd) && Idle(nd) && Dominates(p.frontier, nd.clock) && Dominates(p.frontier, p.entry.context)
    ensures ClockOk(Commit(nd, Observed(nd, p)))
  {
    if nd.durable {
      CommitClock(nd, p);
    }
  }

  lemma ReceiveClock(s: System, n: NodeId, entry: Entry)
    requires ClocksOk(s)
    ensures ClocksOk(DoReceive(s, n, entry))
  {
    if DoReceive(s, n, entry) != s {
      var nd := s.nodes[n];
      MergeObserves(nd.store, nd.clock, entry);
      ObservedClock(nd, PlanMerge(nd.store, nd.clock, entry).value);
    }
  }

  lemma RaiseClock(s: System, n: NodeId, key: Key, context: VersionVector)
    requires ClocksOk(s)
    ensures ClocksOk(DoRaiseContext(s, n, key, context))
  {
    if DoRaiseContext(s, n, key, context) != s {
      var nd := s.nodes[n];
      MetadataObserves(nd.store, nd.clock, key, context);
      ObservedClock(nd, PlanMetadata(nd.store, nd.clock, key, context).value);
    }
  }

  lemma FinishClock(s: System, n: NodeId)
    requires ClocksOk(s) && Inv(s)
    ensures ClocksOk(DoFinish(s, n))
  {
    if Up(s, n) && s.nodes[n].durable && s.nodes[n].staged.Some? {
      FinishedClock(s.log, s.nodes[n]);
    }
  }

  lemma FinishedClock(log: Log, nd: NodeState)
    requires NodeOk(log, nd) && ClockOk(nd) && nd.up && nd.durable && nd.staged.Some?
    ensures ClockOk(FinishNode(nd))
  {
    forall t | t in nd.issued ensures Dominates(nd.db.clock, t) {
      DominatesTransitive(nd.db.clock, nd.clock, t);
    }
  }

  lemma ObserveClock(s: System, n: NodeId, e: Entry)
    requires ClocksOk(s)
    ensures ClocksOk(DoObserve(s, n, e))
  {
    if MayCommit(s, n) && e in s.nodes[n].held {
      GrownClock(s.nodes[n], e);
    }
  }

  lemma GrownClock(nd: NodeState, e: Entry)
    requires ClockOk(nd) && Idle(nd)
    ensures ClockOk(ObserveNode(nd, e))
  {
    var clock := Merge(nd.clock, e.context);
    MergeIsJoin(nd.clock, e.context, clock);
    if nd.durable {
      forall k | k in nd.db.rows ensures Dominates(clock, nd.db.rows[k].context) {
        DominatesTransitive(clock, nd.clock, nd.db.rows[k].context);
      }
      forall t | t in nd.issued ensures Dominates(clock, t) {
        DominatesTransitive(clock, nd.clock, t);
      }
    }
  }

  /** A response's token is the clock at that moment. */
  lemma ReplyIsClock(nd: NodeState, e: Entry)
    requires Dominates(nd.clock, e.context)
    ensures ReplyToken(nd, e) == nd.clock
  {
    MergeAbsorbs(nd.clock, e.context);
  }

  lemma RespondClock(s: System, n: NodeId, e: Entry)
    requires ClocksOk(s)
    ensures ClocksOk(DoRespond(s, n, e))
  {
    if MayRespond(s, n, e) {
      ReplyIsClock(s.nodes[n], e);
    }
  }

  lemma RestartClock(s: System, n: NodeId, incarnation: nat)
    requires ClocksOk(s) && Inv(s)
    ensures ClocksOk(DoRestart(s, n, incarnation))
  {
    if n in s.nodes && !s.nodes[n].up && s.nodes[n].durable {
      RestartedClock(s.log, s.nodes[n], incarnation);
    }
  }

  lemma RestartedClock(log: Log, nd: NodeState, incarnation: nat)
    requires NodeOk(log, nd) && !nd.up && nd.durable
    ensures ClockOk(RestartNode(nd, incarnation))
  {
    RestoredExists(nd.db);
    var nd' := RestartNode(nd, incarnation);
    assert IsRestored(nd.db, nd'.clock);
    forall t | t in nd.issued ensures Dominates(nd'.clock, t) {
      VouchedDominated(nd.db, t, nd'.clock);
    }
  }

  lemma OtherClock(s: System, step: Step)
    requires ClocksOk(s) && (step.Boot? || step.Send? || step.Hold? || step.Publish? || step.Ship? || step.Reveal? || step.Crash?)
    ensures ClocksOk(Do(s, step))
  {
  }

  lemma StepClock(s: System, step: Step)
    requires ClocksOk(s) && Inv(s)
    ensures ClocksOk(Do(s, step))
  {
    match step
    case Mutate(n, key, op, token) => MutateClock(s, n, key, op, token);
    case Receive(n, entry) => ReceiveClock(s, n, entry);
    case RaiseContext(n, key, context) => RaiseClock(s, n, key, context);
    case Finish(n) => FinishClock(s, n);
    case Observe(n, entry) => ObserveClock(s, n, entry);
    case Respond(n, entry) => RespondClock(s, n, entry);
    case Restart(n, incarnation) => RestartClock(s, n, incarnation);
    case _ => OtherClock(s, step);
  }

  lemma {:induction false} RunClocks(steps: seq<Step>)
    ensures ClocksOk(Run(steps))
  {
    if steps != [] {
      var before := steps[..|steps| - 1];
      RunClocks(before);
      RunKeeps(before);
      StepClock(Run(before), steps[|steps| - 1]);
    }
  }

  /**
   In every run, the clock of a durable node that is not in the middle of a commit dominates
   the context of every entry it stores and every token it ever sent out.
   */
  lemma ClockHasSeen(steps: seq<Step>, n: NodeId)
    requires MayCommit(Run(steps), n) && Run(steps).nodes[n].durable
    ensures var nd := Run(steps).nodes[n];
            && (forall k | k in nd.store :: Dominates(nd.clock, nd.store[k].context))
            && (forall t | t in nd.issued :: Dominates(nd.clock, t))
  {
    RunClocks(steps);
    RunKeeps(steps);
    IdleClock(Run(steps).log, Run(steps).nodes[n]);
  }

  lemma IdleClock(log: Log, nd: NodeState)
    requires NodeOk(log, nd) && ClockOk(nd) && Idle(nd) && nd.durable
    ensures forall k | k in nd.store :: Dominates(nd.clock, nd.store[k].context)
  {
  }

  /** In every run, what a write stores has seen the clock of its node, and becomes that clock. */
  lemma WriteSeesClock(steps: seq<Step>, n: NodeId, key: Key, op: Op, token: VersionVector)
    requires MayCommit(Run(steps), n)
    requires key in Run(steps).nodes[n].store ==> Run(steps).nodes[n].store[key].Type() == op.Type()
    ensures var nd := Run(steps).nodes[n];
            var after := DoFinish(DoMutate(Run(steps), n, key, op, token), n);
            && n in after.nodes && key in after.nodes[n].store
            && Dominates(after.nodes[n].store[key].context, nd.clock)
            && Dominates(after.nodes[n].store[key].context, token)
            && after.nodes[n].clock == after.nodes[n].store[key].context
  {
    var nd := Run(steps).nodes[n];
    MutationContext(nd.store, nd.clock, nd.actor, key, op, token);
    MutationContextIsFrontier(nd.store, nd.clock, nd.actor, key, op, token);
    CommittedStore(nd, PlanMutation(nd.store, nd.clock, nd.actor, key, op, token).value);
  }

  // ---- Replication brings a write to its peer ----

  /** Published, shipped and received without interruption, an entry is merged by the peer. */
  function Replicated(s: System, n: NodeId, peer: NodeId, e: Entry): System {
    DoFinish(DoReceive(DoShip(DoPublish(s, n, peer, e), n, peer, e.key), peer, e), peer)
  }

  /** Then the peer's entry is the merge, and has the version and context of both; a durable peer's clock has seen it. */
  lemma ReplicationDelivers(steps: seq<Step>, n: NodeId, peer: NodeId, e: Entry)
    requires Up(Run(steps), n) && e in Run(steps).nodes[n].held && MayCommit(Run(steps), peer) && n != peer
    requires e.key in Run(steps).nodes[peer].store ==> Run(steps).nodes[peer].store[e.key].Type() == e.Type()
    ensures var before, after := Run(steps).nodes[peer], Replicated(Run(steps), n, peer, e).nodes;
            && peer in after && e.key in after[peer].store
            && MergeInto(before.store, e) == Ok(after[peer].store[e.key])
            && Dominates(after[peer].store[e.key].version, e.version) && Dominates(after[peer].store[e.key].context, e.context)
            && Dominates(after[peer].store[e.key].version, VersionOf(before.store, e.key))
            && after[peer].clock == if before.durable then Merge(before.clock, after[peer].store[e.key].context) else before.clock
  {
    RunKeeps(steps);
    var s := Run(steps);
    assert NodeOk(s.log, s.nodes[n]) && NodeOk(s.log, s.nodes[peer]);
    Shipped(s, n, peer, e);
    ReceivedAt(DoShip(DoPublish(s, n, peer, e), n, peer, e.key), peer, e, s.log);
  }

  lemma Shipped(s: System, n: NodeId, peer: NodeId, e: Entry)
    requires Up(s, n) && e in s.nodes[n].held && peer in s.nodes && n != peer
    ensures var shipped := DoShip(DoPublish(s, n, peer, e), n, peer, e.key);
            e in shipped.net && peer in shipped.nodes && shipped.nodes[peer] == s.nodes[peer]
  {
  }

  lemma ReceivedAt(s: System, peer: NodeId, e: Entry, log: Log)
    requires MayCommit(s, peer) && e in s.net && NodeOk(log, s.nodes[peer]) && EntryOk(log, e)
    requires e.key in s.nodes[peer].store ==> s.nodes[peer].store[e.key].Type() == e.Type()
    ensures var before, after := s.nodes[peer], DoFinish(DoReceive(s, peer, e), peer).nodes;
            && peer in after && e.key in after[peer].store
            && MergeInto(before.store, e) == Ok(after[peer].store[e.key])
            && Dominates(after[peer].store[e.key].version, e.version) && Dominates(after[peer].store[e.key].context, e.context)
            && Dominates(after[peer].store[e.key].version, VersionOf(before.store, e.key))
            && after[peer].clock == if before.durable then Merge(before.clock, after[peer].store[e.key].context) else before.clock
  {
    var nd := s.nodes[peer];
    ReceivedMerge(log, nd, e);
    var p := Observed(nd, PlanMerge(nd.store, nd.clock, e).value);
    CommittedStore(nd, p);
    assert DoFinish(DoReceive(s, peer, e), peer).nodes[peer] == FinishNode(Commit(nd, p));
  }

  lemma ReceivedMerge(log: Log, nd: NodeState, e: Entry)
    requires NodeOk(log, nd) && EntryOk(log, e) && (e.key in nd.store ==> nd.store[e.key].Type() == e.Type())
    ensures var m := MergeInto(nd.store, e);
            && m.Ok? && PlanMerge(nd.store, nd.clock, e).Ok?
            && Dominates(m.value.version, e.version) && Dominates(m.value.context, e.context)
            && Dominates(m.value.version, VersionOf(nd.store, e.key))
  {
    if e.key in nd.store {
      MergeOk(log, nd.store[e.key], e);
      MergeIsJoin(nd.store[e.key].version, e.version, e.version);
      MergeIsJoin(nd.store[e.key].context, e.context, e.context);
    }
  }
}
