/**
 Membership tables exchanging join, ping, ping-request and gossip records
 (src/distsys/cluster/service.py, failure_detector.py, gossip.py).

 The network is the set of every record ever sent: messages may be lost, repeated, delayed and
 reordered. A merge of several records is several deliveries in a row. Nodes may crash and
 start again, possibly at another address, with an incarnation above any they used before.
 */
module MembershipNetwork {
  import opened Causal
  import opened Order
  import opened Membership
  import opened MemberMerge
  import MembershipRuns

  /** Which incarnations nodes have given themselves, the highest of them, and their address then. */
  datatype History = History(own: map<NodeId, Positive>, book: map<(NodeId, Positive), Address>)

  datatype Net = Net(
    tables: map<NodeId, Table>,    // running nodes
    boot: map<NodeId, Member>,     // the record a node joins with
    sent: set<Member>,
    past: History)

  datatype Step =
    | Boot(self: Member, suspicion: real, retention: real)
    | Crash(n: NodeId)
    | SendJoin(n: NodeId)
    | SendSnapshot(n: NodeId)
    | Deliver(n: NodeId, record: Member, now: real)
    | MarkSuspect(n: NodeId, target: NodeId, now: real)
    | Sweep(n: NodeId, now: real)

  ghost predicate AllValid(tables: map<NodeId, Table>) {
    forall n | n in tables :: Valid(tables[n]) && tables[n].local == n
  }

  /** The node now has this record of itself. */
  function Noted(past: History, self: Member): History {
    History(past.own[self.nodeId := self.incarnation],
            past.book[(self.nodeId, self.incarnation) := self.address])
  }

  predicate Bootable(s: Net, self: Member, suspicion: real, retention: real) {
    && self.nodeId !in s.tables && GoodTimeouts(suspicion, retention) && self.status.Alive?
    && (self.nodeId in s.past.own ==> self.incarnation > s.past.own[self.nodeId])
  }

  function DoBoot(s: Net, self: Member, suspicion: real, retention: real): Net {
    var n := self.nodeId;
    if !Bootable(s, self, suspicion, retention) then s
    else Net(s.tables[n := Table(n, suspicion, retention, map[n := self], map[], map[], 1)],
             s.boot[n := self], s.sent, Noted(s.past, self))
  }

  function DoDeliver(s: Net, n: NodeId, record: Member, now: real): Net
    requires n in s.tables ==> s.tables[n].local == n && n in s.tables[n].members
  {
    if n !in s.tables || record !in s.sent then s
    else
      var t := MergeOne(s.tables[n], record, now);
      s.(tables := s.tables[n := t], past := Noted(s.past, t.members[n]))
  }

  function DoCrash(s: Net, n: NodeId): Net {
    s.(tables := s.tables - {n})
  }

  function DoJoin(s: Net, n: NodeId): Net {
    if n in s.boot then s.(sent := s.sent + {s.boot[n]}) else s
  }

  function DoSnapshot(s: Net, n: NodeId): Net {
    if n in s.tables then s.(sent := s.sent + s.tables[n].members.Values) else s
  }

  function Replace(s: Net, n: NodeId, t: Table): Net {
    s.(tables := s.tables[n := t])
  }

  ghost function DoMark(s: Net, n: NodeId, target: NodeId, now: real): Net
    requires AllValid(s.tables)
  {
    if n in s.tables then Replace(s, n, Marked(s.tables[n], target, now)) else s
  }

  function DoSweep(s: Net, n: NodeId, now: real): Net {
    if n in s.tables then Replace(s, n, Advanced(s.tables[n], now)) else s
  }

  ghost function Do(s: Net, step: Step): Net
    requires AllValid(s.tables)
  {
    match step
    case Boot(self, suspicion, retention) => DoBoot(s, self, suspicion, retention)
    case Crash(n) => DoCrash(s, n)
    case SendJoin(n) => DoJoin(s, n)
    case SendSnapshot(n) => DoSnapshot(s, n)
    case Deliver(n, record, now) => DoDeliver(s, n, record, now)
    case MarkSuspect(n, target, now) => DoMark(s, n, target, now)
    case Sweep(n, now) => DoSweep(s, n, now)
  }

  const Silent := Net(map[], map[], {}, History(map[], map[]))

  ghost function Run(steps: seq<Step>): (s: Net)
    ensures AllValid(s.tables)
  {
    if steps == [] then Silent
    else
      var before := Run(steps[..|steps| - 1]);
      StepValid(before, steps[|steps| - 1]);
      Do(before, steps[|steps| - 1])
  }

  lemma ReplaceValid(tables: map<NodeId, Table>, n: NodeId, t: Table)
    requires AllValid(tables) && Valid(t) && t.local == n
    ensures AllValid(tables[n := t])
  {
  }

  lemma StepValid(s: Net, step: Step)
    requires AllValid(s.tables)
    ensures AllValid(Do(s, step).tables)
  {
    match step
    case Boot(self, suspicion, retention) => BootValid(s, self, suspicion, retention);
    case Deliver(n, record, now) => DeliverValid(s, n, record, now);
    case MarkSuspect(n, target, now) =>
      if n in s.tables { ReplaceValid(s.tables, n, Marked(s.tables[n], target, now)); }
    case Sweep(n, now) =>
      if n in s.tables {
        MembershipRuns.AdvancedValid(s.tables[n], now);
        ReplaceValid(s.tables, n, Advanced(s.tables[n], now));
      }
    case _ =>
  }

  lemma BootValid(s: Net, self: Member, suspicion: real, retention: real)
    requires AllValid(s.tables)
    ensures AllValid(DoBoot(s, self, suspicion, retention).tables)
  {
  }

  lemma DeliverValid(s: Net, n: NodeId, record: Member, now: real)
    requires AllValid(s.tables)
    ensures AllValid(DoDeliver(s, n, record, now).tables)
  {
    if n in s.tables {
      MergeOneValid(s.tables[n], record, now);
      ReplaceValid(s.tables, n, MergeOne(s.tables[n], record, now));
    }
  }

  // ---- No record is ahead of the node it is about ----

  /** The record's node has had this incarnation, at this address. */
  predicate Genuine(past: History, r: Member) {
    && r.nodeId in past.own && r.incarnation <= past.own[r.nodeId]
    && (r.nodeId, r.incarnation) in past.book && past.book[(r.nodeId, r.incarnation)] == r.address
  }

  ghost predicate AllGenuine(past: History, members: Members) {
    forall k | k in members :: Genuine(past, members[k])
  }

  /** The node's own record shows its highest incarnation; all its records are genuine. */
  ghost predicate TableOk(past: History, n: NodeId, t: Table) {
    Valid(t) && t.local == n && n in past.own && past.own[n] == t.members[n].incarnation && AllGenuine(past, t.members)
  }

  ghost predicate TablesOk(past: History, tables: map<NodeId, Table>) {
    forall n | n in tables :: TableOk(past, n, tables[n])
  }

  predicate BooksOk(past: History) {
    forall key | key in past.book :: key.0 in past.own && key.1 <= past.own[key.0]
  }

  ghost predicate Inv(s: Net) {
    && TablesOk(s.past, s.tables) && AllGenuine(s.past, s.boot) && BooksOk(s.past)
    && forall r | r in s.sent :: Genuine(s.past, r)
  }

  /** The histories differ at most in what n did, and nothing is forgotten. */
  predicate Grown(h: History, g: History, n: NodeId) {
    && (forall k | k in h.own :: k in g.own && h.own[k] <= g.own[k] && (k != n ==> g.own[k] == h.own[k]))
    && (forall key | key in h.book :: key in g.book && g.book[key] == h.book[key])
  }

  lemma GenuineGrows(h: History, g: History, n: NodeId, r: Member)
    requires Grown(h, g, n) && Genuine(h, r)
    ensures Genuine(g, r)
  {
  }

  lemma AllGenuineGrows(h: History, g: History, n: NodeId, members: Members)
    requires Grown(h, g, n) && AllGenuine(h, members)
    ensures AllGenuine(g, members)
  {
  }

  lemma TablesGrow(h: History, g: History, n: NodeId, tables: map<NodeId, Table>, t: Table)
    requires Grown(h, g, n) && TablesOk(h, tables) && TableOk(g, n, t)
    ensures TablesOk(g, tables[n := t])
  {
  }

  /** A new or raised incarnation of n enters the history without disturbing it. */
  lemma NotedGrows(past: History, self: Member)
    requires BooksOk(past)
    requires (self.nodeId in past.own ==> self.incarnation > past.own[self.nodeId]) || Genuine(past, self)
    requires self.nodeId in past.own ==> self.incarnation >= past.own[self.nodeId]
    ensures Grown(past, Noted(past, self), self.nodeId) && BooksOk(Noted(past, self)) && Genuine(Noted(past, self), self)
  {
  }

  lemma SentGrows(s: Net, g: History, n: NodeId)
    requires Inv(s) && Grown(s.past, g, n)
    ensures forall r | r in s.sent :: Genuine(g, r)
  {
  }

  lemma NewTable(past: History, self: Member, suspicion: real, retention: real)
    requires GoodTimeouts(suspicion, retention) && self.status.Alive? && Genuine(past, self)
    requires past.own[self.nodeId] == self.incarnation
    ensures TableOk(past, self.nodeId, Table(self.nodeId, suspicion, retention, map[self.nodeId := self], map[], map[], 1))
  {
  }

  lemma BootKeeps(s: Net, self: Member, suspicion: real, retention: real)
    requires Inv(s)
    ensures Inv(DoBoot(s, self, suspicion, retention))
  {
    if Bootable(s, self, suspicion, retention) {
      var n, g := self.nodeId, Noted(s.past, self);
      NotedGrows(s.past, self);
      NewTable(g, self, suspicion, retention);
      TablesGrow(s.past, g, n, s.tables, Table(n, suspicion, retention, map[n := self], map[], map[], 1));
      AllGenuineGrows(s.past, g, n, s.boot);
      SentGrows(s, g, n);
    }
  }

  /** A merge leaves the local incarnation alone or raises it by exactly one, at the same address. */
  lemma LocalAfterMerge(past: History, n: NodeId, t: Table, record: Member, now: real)
    requires TableOk(past, n, t) && Genuine(past, record)
    ensures n in MergeOne(t, record, now).members
    ensures var m, m' := t.members[n], MergeOne(t, record, now).members[n];
            && m' == m.(incarnation := m'.incarnation)
            && m'.incarnation == m.incarnation
               + if record.nodeId == n && !record.status.Alive? && record.incarnation == m.incarnation then 1 else 0
  {
  }

  lemma OthersAfterMerge(past: History, n: NodeId, t: Table, record: Member, now: real, k: NodeId)
    requires TableOk(past, n, t) && Genuine(past, record) && k != n && k in MergeOne(t, record, now).members
    ensures Genuine(past, MergeOne(t, record, now).members[k])
  {
  }

  lemma MergedTable(past: History, n: NodeId, t: Table, record: Member, now: real)
    requires TableOk(past, n, t) && Genuine(past, record) && BooksOk(past)
    ensures var t' := MergeOne(t, record, now);
            && n in t'.members && t'.members[n].nodeId == n
            && var g := Noted(past, t'.members[n]);
               Grown(past, g, n) && BooksOk(g) && TableOk(g, n, t')
  {
    var t' := MergeOne(t, record, now);
    MergeOneValid(t, record, now);
    LocalAfterMerge(past, n, t, record, now);
    var g := Noted(past, t'.members[n]);
    assert Genuine(past, t.members[n]);
    NotedGrows(past, t'.members[n]);
    forall k | k in t'.members ensures Genuine(g, t'.members[k]) {
      if k != n {
        OthersAfterMerge(past, n, t, record, now, k);
        GenuineGrows(past, g, n, t'.members[k]);
      }
    }
  }

  lemma DeliverKeeps(s: Net, n: NodeId, record: Member, now: real)
    requires Inv(s) && AllValid(s.tables)
    ensures Inv(DoDeliver(s, n, record, now))
  {
    if n in s.tables && record in s.sent {
      MergedTable(s.past, n, s.tables[n], record, now);
      var t := MergeOne(s.tables[n], record, now);
      var g := Noted(s.past, t.members[n]);
      TablesGrow(s.past, g, n, s.tables, t);
      AllGenuineGrows(s.past, g, n, s.boot);
      SentGrows(s, g, n);
    }
  }

  /** Marking and sweeping change statuses or drop records, never incarnations or addresses. */
  predicate Restated(before: Members, after: Members) {
    forall k | k in after :: k in before && after[k] == before[k].(status := after[k].status)
  }

  lemma ReplaceKeeps(s: Net, n: NodeId, t: Table)
    requires Inv(s) && n in s.tables && Valid(t) && t.local == n && Restated(s.tables[n].members, t.members)
    ensures Inv(Replace(s, n, t))
  {
  }

  lemma SnapshotKeeps(s: Net, n: NodeId)
    requires Inv(s)
    ensures Inv(DoSnapshot(s, n))
  {
  }

  lemma JoinKeeps(s: Net, n: NodeId)
    requires Inv(s)
    ensures Inv(DoJoin(s, n))
  {
  }

  lemma CrashKeeps(s: Net, n: NodeId)
    requires Inv(s)
    ensures Inv(DoCrash(s, n))
  {
  }

  lemma MarkKeeps(s: Net, n: NodeId, target: NodeId, now: real)
    requires Inv(s) && AllValid(s.tables)
    ensures Inv(DoMark(s, n, target, now))
  {
    if n in s.tables {
      ReplaceKeeps(s, n, Marked(s.tables[n], target, now));
    }
  }

  lemma SweepKeeps(s: Net, n: NodeId, now: real)
    requires Inv(s) && AllValid(s.tables)
    ensures Inv(DoSweep(s, n, now))
  {
    if n in s.tables {
      MembershipRuns.AdvancedValid(s.tables[n], now);
      ReplaceKeeps(s, n, Advanced(s.tables[n], now));
    }
  }

  lemma StepKeeps(s: Net, step: Step)
    requires Inv(s) && AllValid(s.tables)
    ensures Inv(Do(s, step))
  {
    match step
    case Boot(self, suspicion, retention) => BootKeeps(s, self, suspicion, retention);
    case Crash(n) => CrashKeeps(s, n);
    case SendJoin(n) => JoinKeeps(s, n);
    case SendSnapshot(n) => SnapshotKeeps(s, n);
    case Deliver(n, record, now) => DeliverKeeps(s, n, record, now);
    case MarkSuspect(n, target, now) => MarkKeeps(s, n, target, now);
    case Sweep(n, now) => SweepKeeps(s, n, now);
  }

  lemma {:induction false} RunKeeps(steps: seq<Step>)
    ensures Inv(Run(steps)) && AllValid(Run(steps).tables)
  {
    if steps != [] {
      RunKeeps(steps[..|steps| - 1]);
      StepKeeps(Run(steps[..|steps| - 1]), steps[|steps| - 1]);
    }
  }

  // ---- What holds in every reachable network ----

  /** The record stands in some table, some message, or some node's join request. */
  ghost predicate Somewhere(s: Net, r: Member) {
    || r in s.sent
    || (exists n | n in s.tables :: r.nodeId in s.tables[n].members && s.tables[n].members[r.nodeId] == r)
    || (r.nodeId in s.boot && s.boot[r.nodeId] == r)
  }

  lemma OwnIsHighest(s: Net, r: Member)
    requires Inv(s) && Somewhere(s, r) && r.nodeId in s.tables
    ensures r.nodeId in s.tables[r.nodeId].members
    ensures r.incarnation <= s.tables[r.nodeId].members[r.nodeId].incarnation
  {
  }

  /** No table and no message holds an incarnation of a running node above the node's own. */
  lemma NeverAhead(steps: seq<Step>, r: Member)
    requires Somewhere(Run(steps), r) && r.nodeId in Run(steps).tables
    ensures r.nodeId in Run(steps).tables[r.nodeId].members
    ensures r.incarnation <= Run(steps).tables[r.nodeId].members[r.nodeId].incarnation
  {
    RunKeeps(steps);
    OwnIsHighest(Run(steps), r);
  }

  /** An accusation the node still has to answer: against its current incarnation or, if that could be, a later one. */
  predicate Accuses(s: Net, accusation: Member) {
    var n := accusation.nodeId;
    && n in s.tables && accusation in s.sent && !accusation.status.Alive?
    && n in s.tables[n].members && accusation.incarnation >= s.tables[n].members[n].incarnation
  }

  lemma RefutedAhead(s: Net, accusation: Member, now: real, r: Member)
    requires Inv(s) && AllValid(s.tables) && Accuses(s, accusation) && Somewhere(s, r) && r.nodeId == accusation.nodeId
    ensures var t := DoDeliver(s, accusation.nodeId, accusation, now).tables[accusation.nodeId];
            Has(t.members, r.nodeId, Alive) && Outranks(t.members[r.nodeId], r)
  {
  }

  /** Refuting an accusation puts a node ahead of every record about it that exists at that moment. */
  lemma RefutationOutranks(steps: seq<Step>, accusation: Member, now: real, r: Member)
    requires Accuses(Run(steps), accusation) && Somewhere(Run(steps), r) && r.nodeId == accusation.nodeId
    ensures var tables := Run(steps + [Deliver(accusation.nodeId, accusation, now)]).tables;
            && r.nodeId in tables && Has(tables[r.nodeId].members, r.nodeId, Alive)
            && Outranks(tables[r.nodeId].members[r.nodeId], r)
  {
    var next := steps + [Deliver(accusation.nodeId, accusation, now)];
    assert next[..|next| - 1] == steps;
    RunKeeps(steps);
    RefutedAhead(Run(steps), accusation, now, r);
  }

  /** What one running node tells another, the other knows at least as well; about itself it answers that it is alive. */
  lemma GossipInforms(steps: seq<Step>, a: NodeId, b: NodeId, k: NodeId, now: real)
    requires a in Run(steps).tables && b in Run(steps).tables && k in Run(steps).tables[a].members
    ensures var told := Run(steps).tables[a].members[k];
            var tables := Run(steps + [SendSnapshot(a), Deliver(b, told, now)]).tables;
            && b in tables && k in tables[b].members && AtLeast(tables[b].members[k], told)
            && (k == b ==> Has(tables[b].members, b, Alive))
  {
    RunKeeps(steps);
    var s := Run(steps);
    var told := s.tables[a].members[k];
    RunTwo(steps, SendSnapshot(a), Deliver(b, told, now));
    SnapshotInforms(s, a, b, k, now);
  }

  lemma RunTwo(steps: seq<Step>, x: Step, y: Step)
    ensures AllValid(Do(Run(steps), x).tables)
    ensures Run(steps + [x, y]) == Do(Do(Run(steps), x), y)
  {
    var one, two := steps + [x], steps + [x, y];
    assert one[..|one| - 1] == steps && two[..|two| - 1] == one;
    assert Run(one) == Do(Run(steps), x);
  }

  lemma SnapshotInforms(s: Net, a: NodeId, b: NodeId, k: NodeId, now: real)
    requires Inv(s) && AllValid(s.tables) && a in s.tables && b in s.tables && k in s.tables[a].members
    ensures var told := s.tables[a].members[k];
            var members := DoDeliver(DoSnapshot(s, a), b, told, now).tables[b].members;
            && k in members && AtLeast(members[k], told) && (k == b ==> Has(members, b, Alive))
  {
    var told := s.tables[a].members[k];
    assert told in s.tables[a].members.Values;
    assert TableOk(s.past, a, s.tables[a]) && TableOk(s.past, b, s.tables[b]);
    DeliveryInforms(DoSnapshot(s, a), b, told, now);
  }

  lemma DeliveryInforms(s: Net, b: NodeId, told: Member, now: real)
    requires AllValid(s.tables) && b in s.tables && told in s.sent
    requires told.nodeId == b && told.status.Alive? ==> told.incarnation <= s.tables[b].members[b].incarnation
    ensures var members := DoDeliver(s, b, told, now).tables[b].members;
            && told.nodeId in members && AtLeast(members[told.nodeId], told)
            && (told.nodeId == b ==> Has(members, b, Alive))
  {
  }

  lemma SentOneAddress(s: Net, records: set<Member>)
    requires Inv(s) && records <= s.sent
    ensures OneAddress(records)
  {
  }

  /** In a reachable network, what a node makes of a set of messages does not depend on their order or repetition. */
  lemma ReachableMergesAgree(steps: seq<Step>, n: NodeId, x: seq<Member>, y: seq<Member>)
    requires n in Run(steps).tables && ToSet(x) == ToSet(y) && ToSet(x) <= Run(steps).sent
    ensures var t := Run(steps).tables[n];
            && n in t.members && AcceptAll(n, t.members, x) == AcceptAll(n, t.members, y)
  {
    RunKeeps(steps);
    var s := Run(steps);
    assert TableOk(s.past, n, s.tables[n]);
    SentOneAddress(s, ToSet(x));
    OneAddressSettles(n, s.tables[n].members, ToSet(x));
    OrderIndependent(n, s.tables[n].members, x, y);
  }

  // ---- A direct probe ----

  predicate IdLess(a: NodeId, b: NodeId) {
    Less(a, b)
  }

  lemma IdLessTotal()
    ensures StrictTotal(IdLess)
  {
    forall a: NodeId, b: NodeId ensures !IdLess(a, a) && (a == b || IdLess(a, b) || IdLess(b, a)) {
      LessTotal(a, b);
    }
    forall a: NodeId, b: NodeId, c: NodeId | IdLess(a, b) && IdLess(b, c) ensures IdLess(a, c) {
      LessTransitive(a, b, c);
    }
  }

  /** snapshot: every record once, in order of the ids they are filed under. */
  ghost function Snapshot(members: Members): (r: seq<Member>)
    ensures ToSet(r) == members.Values && |r| == |members|
    ensures (forall n | n in members :: members[n].nodeId == n) ==>
            forall i, j | 0 <= i < j < |r| :: Less(r[i].nodeId, r[j].nodeId)
  {
    IdLessTotal();
    var ids := Sorted(members.Keys, IdLess);
    var r := seq(|ids|, i requires 0 <= i < |ids| => assert ids[i] in ids; members[ids[i]]);
    SnapshotComplete(members, ids, r);
    r
  }

  lemma SnapshotComplete(members: Members, ids: seq<NodeId>, r: seq<Member>)
    requires forall id :: id in ids <==> id in members
    requires |r| == |ids| && forall i | 0 <= i < |ids| :: ids[i] in members && r[i] == members[ids[i]]
    ensures ToSet(r) == members.Values
  {
  }

  /**
   An uninterrupted ping carries the suspicion to the target, which refutes it, and the
   answer makes the prober hold the target alive at an incarnation above the suspected one.
   */
  lemma ProbeClearsSuspicion(prober: Table, target: Table, pinged: seq<real>, acked: seq<real>)
    requires Valid(prober) && Valid(target) && Has(prober.members, target.local, Suspect)
    requires |pinged| == |Snapshot(prober.members)|
    requires |acked| == |Snapshot(MergeAll(target, Snapshot(prober.members), pinged).members)|
    ensures var ack := Snapshot(MergeAll(target, Snapshot(prober.members), pinged).members);
            var after := MergeAll(prober, ack, acked).members;
            && Has(after, target.local, Alive)
            && after[target.local].incarnation > prober.members[target.local].incarnation
  {
    var n := target.local;
    var gossip := Snapshot(prober.members);
    var answered := MergeAll(target, gossip, pinged).members;
    MergeAllMembers(target, gossip, pinged);
    AcceptAllAt(n, target.members, gossip, n);
    assert prober.members[n] in prober.members.Values;
    assert prober.members[n] in About(ToSet(gossip), n);
    assert answered[n].incarnation > prober.members[n].incarnation && answered[n].status.Alive?;

    var ack := Snapshot(answered);
    MergeAllMembers(prober, ack, acked);
    AcceptAllAt(prober.local, prober.members, ack, n);
    AnswerElected(prober, answered, ack, n, AcceptAll(prober.local, prober.members, ack));
  }

  lemma AnswerElected(prober: Table, answered: Members, ack: seq<Member>, n: NodeId, after: Members)
    requires Valid(prober) && n != prober.local && n in prober.members && Has(answered, n, Alive)
    requires ToSet(ack) == answered.Values && forall k | k in answered :: answered[k].nodeId == k
    requires answered[n].incarnation > prober.members[n].incarnation
    requires MergedAt(prober.local, prober.members, ToSet(ack), after, n)
    ensures Has(after, n, Alive) && after[n].incarnation > prober.members[n].incarnation
  {
    var pool := Pool(prober.members, ToSet(ack), n);
    assert answered[n] in answered.Values;
    assert answered[n] in pool;
    var q :| q in pool && q.incarnation == after[n].incarnation && q.status == after[n].status;
    assert AtLeast(after[n], answered[n]);
    assert q == answered[n] by {
      assert q in ToSet(ack);
      var k :| k in answered && answered[k] == q;
    }
  }
}
