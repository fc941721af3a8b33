/**
 One node's view of the cluster: SWIM-style records merged by incarnation and severity, local
 refutation, suspicion and tombstone timers (src/distsys/cluster/membership.py, member.py).

 Clock readings are parameters. The class updates its four fields in place; a Table is the
 value of those fields, and the functions on tables say what each operation does to it.
 */
module Membership {
  import opened Outcomes
  import opened Causal
  import opened Order

  datatype Status = Alive | Suspect | Dead {
    function Severity(): nat {
      match this case Alive => 1 case Suspect => 2 case Dead => 3
    }
  }

  type Host = h: string | h != "" witness "h"
  type Port = p: nat | 1 <= p <= 65535 witness 1

  datatype Address = Address(host: Host, port: Port)
  datatype Member = Member(nodeId: NodeId, address: Address, status: Status, incarnation: Positive)

  type Members = map<NodeId, Member>
  type Timers = map<NodeId, real>

  /** The constructor's limits: a positive suspicion timeout and a longer retention of the dead. */
  predicate GoodTimeouts(suspicion: real, retention: real) {
    0.0 < suspicion < retention
  }

  datatype Table = Table(
    local: NodeId, suspicion: real, retention: real,
    members: Members, suspectedAt: Timers, deadAt: Timers, version: nat)

  predicate Has(members: Members, n: NodeId, status: Status) {
    n in members && members[n].status == status
  }

  /** Records are filed under their own id, the local node is alive, and timers match statuses exactly. */
  ghost predicate Valid(t: Table) {
    && GoodTimeouts(t.suspicion, t.retention)
    && (forall n | n in t.members :: t.members[n].nodeId == n)
    && Has(t.members, t.local, Alive)
    && (forall n :: n in t.suspectedAt <==> Has(t.members, n, Suspect))
    && (forall n :: n in t.deadAt <==> Has(t.members, n, Dead))
  }

  // ---- merge ----

  function SetDefault(timers: Timers, n: NodeId, now: real): Timers {
    if n in timers then timers else timers[n := now]
  }

  /** Files the record and starts, keeps or drops its timers (_record_timer_state). */
  function Store(t: Table, m: Member, now: real): Table {
    var n := m.nodeId;
    t.(members := t.members[n := m],
       suspectedAt := if m.status.Suspect? then SetDefault(t.suspectedAt, n, now) else t.suspectedAt - {n},
       deadAt := if m.status.Dead? then SetDefault(t.deadAt, n, now) else t.deadAt - {n})
  }

  /** The record that replaces the current one, if the incoming one wins. */
  function Accepted(local: NodeId, members: Members, incoming: Member): Option<Member>
    requires local in members
  {
    var n := incoming.nodeId;
    if n == local then
      if !incoming.status.Alive? && incoming.incarnation >= members[n].incarnation
      then Some(members[n].(status := Alive, incarnation := incoming.incarnation + 1))
      else None
    else if n !in members || incoming.incarnation > members[n].incarnation then Some(incoming)
    else if incoming.incarnation == members[n].incarnation && incoming.status.Severity() > members[n].status.Severity()
    then Some(members[n].(status := incoming.status))
    else None
  }

  function MergeOne(t: Table, incoming: Member, now: real): Table
    requires t.local in t.members
  {
    match Accepted(t.local, t.members, incoming)
    case None => t
    case Some(m) => Store(t, m, now)
  }

  /** merge: the clock is read once per record. */
  function MergeAll(t: Table, records: seq<Member>, readings: seq<real>): (r: Table)
    requires Valid(t) && |readings| == |records|
    ensures Valid(r) && r.local == t.local && r.version == t.version
    ensures r.suspicion == t.suspicion && r.retention == t.retention
  {
    if records == [] then t
    else
      var i := |records| - 1;
      var before := MergeAll(t, records[..i], readings[..i]);
      MergeOneValid(before, records[i], readings[i]);
      MergeOne(before, records[i], readings[i])
  }

  lemma MergeOneValid(t: Table, incoming: Member, now: real)
    requires Valid(t)
    ensures Valid(MergeOne(t, incoming, now))
  {
  }

  lemma StoreValid(t: Table, m: Member, now: real)
    requires Valid(t) && (m.nodeId == t.local ==> m.status.Alive?)
    ensures Valid(Store(t, m, now))
  {
  }

  /** merge: the version moves when, and only when, the member table changed. */
  function Merged(t: Table, records: seq<Member>, readings: seq<real>): (r: Table)
    requires Valid(t) && |readings| == |records|
    ensures Valid(r) && r.local == t.local
  {
    var r := MergeAll(t, records, readings);
    if r.members == t.members then r else r.(version := t.version + 1)
  }

  // ---- mark_suspect ----

  predicate Suspectable(t: Table, n: NodeId) {
    n != t.local && Has(t.members, n, Alive)
  }

  function Marked(t: Table, n: NodeId, now: real): (r: Table)
    requires Valid(t)
    ensures Valid(r) && r.local == t.local
  {
    if !Suspectable(t, n) then t
    else
      var m := t.members[n].(status := Suspect);
      StoreValid(t, m, now);
      Store(t, m, now).(version := t.version + 1)
  }

  // ---- advance_timeouts_and_purge ----

  predicate Overdue(t: Table, n: NodeId, now: real) {
    n in t.suspectedAt && Has(t.members, n, Suspect) && now - t.suspectedAt[n] >= t.suspicion
  }

  /** One turn of the first loop: an overdue suspect dies now; a timer without a suspect is dropped. */
  function ExpireOne(t: Table, n: NodeId, now: real): Table {
    if n !in t.suspectedAt then t
    else if !Has(t.members, n, Suspect) then t.(suspectedAt := t.suspectedAt - {n})
    else if now - t.suspectedAt[n] < t.suspicion then t
    else t.(members := t.members[n := t.members[n].(status := Dead)],
            suspectedAt := t.suspectedAt - {n}, deadAt := t.deadAt[n := now])
  }

  function ExpireAll(t: Table, list: seq<NodeId>, now: real): Table {
    if list == [] then t else ExpireOne(ExpireAll(t, list[..|list| - 1], now), list[|list| - 1], now)
  }

  predicate Purgeable(t: Table, n: NodeId, now: real) {
    n in t.deadAt && n != t.local && Has(t.members, n, Dead) && now - t.deadAt[n] >= t.retention
  }

  /** One turn of the second loop: a tombstone past retention is dropped; so is a timer without one. */
  function PurgeOne(t: Table, n: NodeId, now: real): Table {
    if n !in t.deadAt || n == t.local then t
    else if !Has(t.members, n, Dead) then t.(deadAt := t.deadAt - {n})
    else if now - t.deadAt[n] < t.retention then t
    else t.(members := t.members - {n}, deadAt := t.deadAt - {n})
  }

  function PurgeAll(t: Table, list: seq<NodeId>, now: real): Table {
    if list == [] then t else PurgeOne(PurgeAll(t, list[..|list| - 1], now), list[|list| - 1], now)
  }

  /** advance_timeouts_and_purge: overdue suspects die now, older tombstones past retention go. */
  function Advanced(t: Table, now: real): Table {
    var members := map n | n in t.members && !Purgeable(t, n, now) ::
                     if Overdue(t, n, now) then t.members[n].(status := Dead) else t.members[n];
    t.(members := members,
       suspectedAt := map n | n in t.suspectedAt && !Overdue(t, n, now) :: t.suspectedAt[n],
       deadAt := map n | n in members && members[n].status.Dead? && (n in t.deadAt || Overdue(t, n, now)) ::
                   if Overdue(t, n, now) then now else t.deadAt[n],
       version := if members == t.members then t.version else t.version + 1)
  }

  class MembershipTable {
    const local: NodeId
    const suspicion: real
    const retention: real
    var members: Members
    var suspectedAt: Timers
    var deadAt: Timers
    var version: nat

    ghost function View(): Table
      reads this
    {
      Table(local, suspicion, retention, members, suspectedAt, deadAt, version)
    }

    /** The service always starts with its own record alive; then, and only then, the table is in order. */
    constructor (m: Member, suspicion: real, retention: real)
      requires GoodTimeouts(suspicion, retention)
      ensures Valid(View()) <==> m.status.Alive?
      ensures View() == Table(m.nodeId, suspicion, retention, map[m.nodeId := m], map[], map[], 1)
    {
      this.local, this.suspicion, this.retention := m.nodeId, suspicion, retention;
      members, suspectedAt, deadAt, version := map[m.nodeId := m], map[], map[], 1;
    }

    method RecordTimerState(m: Member, now: real)
      requires m.nodeId in members && members[m.nodeId] == m
      modifies this`suspectedAt, this`deadAt
      ensures View() == Store(old(View()), m, now)
    {
      var n := m.nodeId;
      assert members[n := m] == members;
      match m.status
      case Alive =>
        suspectedAt, deadAt := suspectedAt - {n}, deadAt - {n};
      case Suspect =>
        if n !in suspectedAt {
          suspectedAt := suspectedAt[n := now];
        }
        deadAt := deadAt - {n};
      case Dead =>
        suspectedAt := suspectedAt - {n};
        if n !in deadAt {
          deadAt := deadAt[n := now];
        }
    }

    method MergeOneLocked(incoming: Member, now: real) returns (changed: bool)
      requires Valid(View())
      modifies this`members, this`suspectedAt, this`deadAt
      ensures View() == MergeOne(old(View()), incoming, now)
      ensures changed == Accepted(local, old(members), incoming).Some?
    {
      var n := incoming.nodeId;
      if n == local {
        var current := members[n];
        if !incoming.status.Alive? && incoming.incarnation >= current.incarnation {
          var refuted := current.(status := Alive, incarnation := incoming.incarnation + 1);
          members := members[n := refuted];
          RecordTimerState(refuted, now);
          return true;
        }
        return false;
      }
      if n !in members {
        members := members[n := incoming];
        RecordTimerState(incoming, now);
        return true;
      }
      var current := members[n];
      if incoming.incarnation < current.incarnation {
        return false;
      }
      if incoming.incarnation > current.incarnation {
        members := members[n := incoming];
        RecordTimerState(incoming, now);
        return true;
      }
      if incoming.status.Severity() > current.status.Severity() {
        var updated := current.(status := incoming.status);
        members := members[n := updated];
        RecordTimerState(updated, now);
        return true;
      }
      return false;
    }

    method Merge(records: seq<Member>, readings: seq<real>) returns (changed: bool)
      requires Valid(View()) && |readings| == |records|
      modifies this
      ensures View() == Merged(old(View()), records, readings)
      ensures changed <==> members != old(members)
    {
      changed := MergeLoop(records, readings);
      if changed {
        version := version + 1;
      }
    }

    method MergeLoop(records: seq<Member>, readings: seq<real>) returns (changed: bool)
      requires Valid(View()) && |readings| == |records|
      modifies this`members, this`suspectedAt, this`deadAt
      ensures View() == MergeAll(old(View()), records, readings)
      ensures changed <==> members != old(members)
    {
      changed := false;
      ghost var start := View();
      for i := 0 to |records|
        invariant View() == MergeAll(start, records[..i], readings[..i])
        invariant changed <==> members != start.members
        invariant RanksGrow(start.members, members)
      {
        MergeAllSnoc(start, records, readings, i);
        ghost var before := View();
        var accepted := MergeOneLocked(records[i], readings[i]);
        MergeOneRanks(before, records[i], readings[i]);
        RanksChain(start.members, before.members, members);
        changed := accepted || changed;
      }
      assert records[..|records|] == records && readings[..|readings|] == readings;
    }

    method MarkSuspect(n: NodeId, now: real) returns (changed: bool)
      requires Valid(View())
      modifies this
      ensures View() == Marked(old(View()), n, now)
      ensures changed <==> Suspectable(old(View()), n)
    {
      if n !in members || n == local {
        return false;
      }
      if members[n].status != Alive {
        return false;
      }
      var updated := members[n].(status := Suspect);
      members := members[n := updated];
      RecordTimerState(updated, now);
      version := version + 1;
      return true;
    }

    method AdvanceTimeoutsAndPurge(now: real) returns (changed: bool)
      requires Valid(View())
      modifies this
      ensures View() == Advanced(old(View()), now)
      ensures changed <==> members != old(members)
    {
      var suspects := Listed(suspectedAt);
      var expired := Expire(suspects, now);
      var tombstones := Listed(deadAt);
      var purged := Purge(tombstones, now);
      AdvanceIs(old(View()), suspects, tombstones, now);
      changed := expired || purged;
      if changed {
        version := version + 1;
      }
    }

    method Expire(suspects: seq<NodeId>, now: real) returns (changed: bool)
      modifies this`members, this`suspectedAt, this`deadAt
      ensures View() == ExpireAll(old(View()), suspects, now)
      ensures changed <==> members != old(members)
    {
      changed := false;
      for i := 0 to |suspects|
        invariant View() == ExpireAll(old(View()), suspects[..i], now)
        invariant changed <==> members != old(members)
        invariant RanksGrow(old(members), members)
      {
        assert suspects[..i + 1][..i] == suspects[..i];
        ghost var before := members;
        var n := suspects[i];
        if n in suspectedAt {
          if n !in members || members[n].status != Suspect {
            suspectedAt := suspectedAt - {n};
          } else if now - suspectedAt[n] >= suspicion {
            members := members[n := members[n].(status := Dead)];
            suspectedAt := suspectedAt - {n};
            deadAt := deadAt[n := now];
            changed := true;
            assert before[n] != members[n];
          }
        }
        RanksChain(old(members), before, members);
      }
      assert suspects[..|suspects|] == suspects;
    }

    method Purge(tombstones: seq<NodeId>, now: real) returns (changed: bool)
      modifies this`members, this`deadAt
      ensures View() == PurgeAll(old(View()), tombstones, now)
      ensures changed <==> members != old(members)
    {
      changed := false;
      for i := 0 to |tombstones|
        invariant View() == PurgeAll(old(View()), tombstones[..i], now)
        invariant changed <==> members != old(members)
        invariant members.Keys <= old(members.Keys) && (members.Keys == old(members.Keys) ==> members == old(members))
      {
        assert tombstones[..i + 1][..i] == tombstones[..i];
        var n := tombstones[i];
        if n in deadAt && n != local {
          if n !in members || members[n].status != Dead {
            deadAt := deadAt - {n};
          } else if now - deadAt[n] >= retention {
            members := members - {n};
            deadAt := deadAt - {n};
            changed := true;
            assert n in old(members.Keys) && n !in members.Keys;
          }
        }
      }
      assert tombstones[..|tombstones|] == tombstones;
    }
  }

  /** list(timers): the keys, each once, in some order. */
  method Listed(timers: Timers) returns (list: seq<NodeId>)
    ensures Distinct(list) && forall n :: Lists(list, timers, n)
  {
    list := [];
    var todo := timers.Keys;
    while todo != {}
      invariant Distinct(list) && forall n :: n in timers <==> (n in list || n in todo)
      invariant forall n | n in list :: n !in todo
    {
      var n :| n in todo;
      list, todo := list + [n], todo - {n};
    }
  }

  lemma MergeAllSnoc(t: Table, records: seq<Member>, readings: seq<real>, i: nat)
    requires Valid(t) && |readings| == |records| && i < |records|
    ensures MergeAll(t, records[..i + 1], readings[..i + 1])
         == MergeOne(MergeAll(t, records[..i], readings[..i]), records[i], readings[i])
  {
    assert records[..i + 1][..i] == records[..i] && readings[..i + 1][..i] == readings[..i];
  }

  // ---- The two loops against Advanced, one node at a time ----

  predicate SameRecord(a: Members, b: Members, n: NodeId) {
    if n in a then n in b && a[n] == b[n] else n !in b
  }

  predicate SameTimer(a: Timers, b: Timers, n: NodeId) {
    if n in a then n in b && a[n] == b[n] else n !in b
  }

  predicate SameLimits(t: Table, r: Table) {
    r.local == t.local && r.suspicion == t.suspicion && r.retention == t.retention && r.version == t.version
  }

  predicate SameAt(t: Table, r: Table, n: NodeId) {
    SameRecord(t.members, r.members, n) && SameTimer(t.suspectedAt, r.suspectedAt, n) && SameTimer(t.deadAt, r.deadAt, n)
  }

  lemma ExpireOneElsewhere(t: Table, q: NodeId, n: NodeId, now: real)
    ensures SameLimits(t, ExpireOne(t, q, now))
    ensures n != q ==> SameAt(t, ExpireOne(t, q, now), n)
  {
  }

  /** Turns for other nodes do not matter, so a listed node gets exactly its own turn. */
  lemma {:induction false} ExpireAllAt(t: Table, list: seq<NodeId>, n: NodeId, now: real)
    requires Distinct(list)
    ensures var r := ExpireAll(t, list, now);
            SameLimits(t, r) && SameAt(if n in list then ExpireOne(t, n, now) else t, r, n)
  {
    if list != [] {
      var i := |list| - 1;
      assert list == list[..i] + [list[i]];
      ExpireAllAt(t, list[..i], n, now);
      ExpireOneElsewhere(ExpireAll(t, list[..i], now), list[i], n, now);
    }
  }

  lemma PurgeOneElsewhere(t: Table, q: NodeId, n: NodeId, now: real)
    ensures SameLimits(t, PurgeOne(t, q, now))
    ensures n != q ==> SameAt(t, PurgeOne(t, q, now), n)
  {
  }

  lemma {:induction false} PurgeAllAt(t: Table, list: seq<NodeId>, n: NodeId, now: real)
    requires Distinct(list)
    ensures var r := PurgeAll(t, list, now);
            SameLimits(t, r) && SameAt(if n in list then PurgeOne(t, n, now) else t, r, n)
  {
    if list != [] {
      var i := |list| - 1;
      assert list == list[..i] + [list[i]];
      PurgeAllAt(t, list[..i], n, now);
      PurgeOneElsewhere(PurgeAll(t, list[..i], now), list[i], n, now);
    }
  }

  predicate Lists(list: seq<NodeId>, timers: Timers, n: NodeId) {
    n in list <==> n in timers
  }

  lemma AdvanceIsAt(t: Table, suspects: seq<NodeId>, tombstones: seq<NodeId>, n: NodeId, now: real)
    requires Valid(t) && Distinct(suspects) && Lists(suspects, t.suspectedAt, n)
    requires Distinct(tombstones) && Lists(tombstones, ExpireAll(t, suspects, now).deadAt, n)
    ensures var e := ExpireAll(t, suspects, now);
            var r := PurgeAll(e, tombstones, now);
            && SameLimits(t, r) && SameAt(Advanced(t, now), r, n)
            && (SameRecord(t.members, r.members, n) <==> SameRecord(t.members, e.members, n) && SameRecord(e.members, r.members, n))
  {
    var e := ExpireAll(t, suspects, now);
    ExpireAllAt(t, suspects, n, now);
    PurgeAllAt(e, tombstones, n, now);
    AdvanceOneAt(t, e, PurgeAll(e, tombstones, now), n, now);
  }

  /** Its own turn in each loop gives a node what Advanced says. */
  lemma AdvanceOneAt(t: Table, e: Table, r: Table, n: NodeId, now: real)
    requires Valid(t) && SameLimits(t, e) && SameLimits(e, r)
    requires SameAt(if n in t.suspectedAt then ExpireOne(t, n, now) else t, e, n)
    requires SameAt(if n in e.deadAt then PurgeOne(e, n, now) else e, r, n)
    ensures SameAt(Advanced(t, now), r, n)
    ensures SameRecord(t.members, r.members, n) <==> SameRecord(t.members, e.members, n) && SameRecord(e.members, r.members, n)
  {
    assert n in t.suspectedAt <==> Has(t.members, n, Suspect);
    assert n in t.deadAt <==> Has(t.members, n, Dead);
  }

  lemma SameMembers(a: Members, b: Members)
    ensures (forall n :: SameRecord(a, b, n)) <==> a == b
  {
    if forall n :: SameRecord(a, b, n) {
      assert forall n :: n in a <==> n in b by {
        forall n ensures n in a <==> n in b { assert SameRecord(a, b, n); }
      }
      assert forall n | n in a :: a[n] == b[n] by {
        forall n | n in a ensures a[n] == b[n] { assert SameRecord(a, b, n); }
      }
    }
  }

  lemma SameTimers(a: Timers, b: Timers)
    requires forall n :: SameTimer(a, b, n)
    ensures a == b
  {
    forall n ensures n in a <==> n in b { assert SameTimer(a, b, n); }
    forall n | n in a ensures a[n] == b[n] { assert SameTimer(a, b, n); }
  }

  lemma SameEverywhere(a: Table, b: Table)
    requires forall n :: SameAt(a, b, n)
    ensures a.members == b.members && a.suspectedAt == b.suspectedAt && a.deadAt == b.deadAt
  {
    forall n ensures SameRecord(a.members, b.members, n) { assert SameAt(a, b, n); }
    forall n ensures SameTimer(a.suspectedAt, b.suspectedAt, n) { assert SameAt(a, b, n); }
    forall n ensures SameTimer(a.deadAt, b.deadAt, n) { assert SameAt(a, b, n); }
    SameMembers(a.members, b.members);
    SameTimers(a.suspectedAt, b.suspectedAt);
    SameTimers(a.deadAt, b.deadAt);
  }

  /** A change in either loop is a change overall: nothing the first did is undone by the second. */
  lemma ChangedOverall(t: Members, e: Members, r: Members)
    requires forall n :: SameRecord(t, r, n) <==> SameRecord(t, e, n) && SameRecord(e, r, n)
    ensures r == t <==> e == t && r == e
  {
    SameMembers(t, r);
    SameMembers(t, e);
    SameMembers(e, r);
  }

  lemma AdvanceIs(t: Table, suspects: seq<NodeId>, tombstones: seq<NodeId>, now: real)
    requires Valid(t) && Distinct(suspects) && forall n :: Lists(suspects, t.suspectedAt, n)
    requires Distinct(tombstones) && forall n :: Lists(tombstones, ExpireAll(t, suspects, now).deadAt, n)
    ensures var e := ExpireAll(t, suspects, now);
            var r := PurgeAll(e, tombstones, now);
            && Advanced(t, now) == r.(version := if r.members == t.members then t.version else t.version + 1)
            && (r.members == t.members <==> e.members == t.members && r.members == e.members)
  {
    var e := ExpireAll(t, suspects, now);
    var r := PurgeAll(e, tombstones, now);
    var a := Advanced(t, now);
    assert SameLimits(t, r) by { AdvanceIsAt(t, suspects, tombstones, t.local, now); }
    assert a.members == r.members && a.suspectedAt == r.suspectedAt && a.deadAt == r.deadAt by {
      forall n ensures SameAt(a, r, n) { AdvanceIsAt(t, suspects, tombstones, n, now); }
      SameEverywhere(a, r);
    }
    assert r.members == t.members <==> e.members == t.members && r.members == e.members by {
      forall n ensures SameRecord(t.members, r.members, n) <==> SameRecord(t.members, e.members, n) && SameRecord(e.members, r.members, n) {
        AdvanceIsAt(t, suspects, tombstones, n, now);
      }
      ChangedOverall(t.members, e.members, r.members);
    }
  }

  // ---- Ranks: incarnation first, then severity ----

  predicate Outranks(a: Member, b: Member) {
    a.incarnation > b.incarnation || (a.incarnation == b.incarnation && a.status.Severity() > b.status.Severity())
  }

  /** Every record stays or is outranked by its successor. */
  predicate RanksGrow(before: Members, after: Members) {
    && before.Keys <= after.Keys
    && forall n | n in before :: after[n] == before[n] || Outranks(after[n], before[n])
  }

  lemma RanksChain(a: Members, b: Members, c: Members)
    requires RanksGrow(a, b) && RanksGrow(b, c)
    ensures RanksGrow(a, c)
    ensures a == c ==> a == b
  {
  }

  lemma MergeOneRanks(t: Table, incoming: Member, now: real)
    requires Valid(t)
    ensures var r := MergeOne(t, incoming, now);
            RanksGrow(t.members, r.members) && (r.members != t.members <==> Accepted(t.local, t.members, incoming).Some?)
  {
  }
}
