/**
 What merging membership records amounts to, whatever the order, grouping and repetition in
 which they arrive (src/distsys/cluster/membership.py, _merge_one_locked and merge).
 */
module MemberMerge {
  import opened Outcomes
  import opened Causal
  import opened Order
  import opened Membership

  ghost predicate Filed(local: NodeId, members: Members) {
    Has(members, local, Alive) && forall n | n in members :: members[n].nodeId == n
  }

  /** The member table after merging one record; timers play no part in it. */
  function AcceptInto(local: NodeId, members: Members, incoming: Member): (r: Members)
    requires local in members
    ensures local in r
  {
    match Accepted(local, members, incoming)
    case None => members
    case Some(m) => members[m.nodeId := m]
  }

  function AcceptAll(local: NodeId, members: Members, records: seq<Member>): (r: Members)
    requires local in members
    ensures local in r
  {
    if records == [] then members
    else AcceptInto(local, AcceptAll(local, members, records[..|records| - 1]), records[|records| - 1])
  }

  lemma {:induction false} MergeAllMembers(t: Table, records: seq<Member>, readings: seq<real>)
    requires Valid(t) && |readings| == |records|
    ensures MergeAll(t, records, readings).members == AcceptAll(t.local, t.members, records)
  {
    if records != [] {
      var i := |records| - 1;
      MergeAllMembers(t, records[..i], readings[..i]);
    }
  }

  lemma {:induction false} AcceptAllConcat(local: NodeId, members: Members, a: seq<Member>, b: seq<Member>)
    requires local in members
    ensures AcceptAll(local, members, a + b) == AcceptAll(local, AcceptAll(local, members, a), b)
  {
    if b == [] {
      assert a + b == a;
    } else {
      var i := |b| - 1;
      assert (a + b)[..|a + b| - 1] == a + b[..i];
      AcceptAllConcat(local, members, a, b[..i]);
    }
  }

  // ---- What the result is, without reference to an order ----

  function About(records: set<Member>, n: NodeId): set<Member> {
    set r | r in records && r.nodeId == n
  }

  /** The record held for a node together with the incoming ones about it. */
  function Pool(members: Members, records: set<Member>, n: NodeId): set<Member> {
    About(records, n) + if n in members then {members[n]} else {}
  }

  predicate AtLeast(a: Member, b: Member) {
    a.incarnation > b.incarnation || (a.incarnation == b.incarnation && a.status.Severity() >= b.status.Severity())
  }

  /**
   The elected record has the highest incarnation and, there, the highest severity. Its address
   was announced for that incarnation, and stays if the incarnation does.
   */
  predicate Elected(pool: set<Member>, current: Option<Member>, m: Member) {
    && (forall q | q in pool :: AtLeast(m, q))
    && (exists q | q in pool :: q.incarnation == m.incarnation && q.status == m.status)
    && (exists q | q in pool :: q.incarnation == m.incarnation && q.address == m.address)
    && (current.Some? && current.value.incarnation == m.incarnation ==> m.address == current.value.address)
  }

  /** The local record outlives every accusation, by exactly one incarnation above the latest that mattered. */
  predicate Refutes(current: Member, accusers: set<Member>, m: Member) {
    && m == current.(incarnation := m.incarnation)
    && m.incarnation >= current.incarnation
    && (forall q | q in accusers && !q.status.Alive? :: m.incarnation > q.incarnation)
    && (m.incarnation == current.incarnation || exists q | q in accusers :: !q.status.Alive? && m.incarnation == q.incarnation + 1)
  }

  function Current(members: Members, n: NodeId): Option<Member> {
    if n in members then Some(members[n]) else None
  }

  ghost predicate MergedAt(local: NodeId, members: Members, records: set<Member>, result: Members, n: NodeId)
    requires local in members
  {
    if n == local then
      n in result && Refutes(members[local], About(records, local), result[n])
    else if Pool(members, records, n) == {} then
      n !in result
    else
      n in result && result[n].nodeId == n && Elected(Pool(members, records, n), Current(members, n), result[n])
  }

  lemma AcceptIntoAt(local: NodeId, members: Members, records: set<Member>, before: Members, r: Member, n: NodeId)
    requires Filed(local, members) && Filed(local, before) && MergedAt(local, members, records, before, n)
    ensures MergedAt(local, members, records + {r}, AcceptInto(local, before, r), n)
  {
    var after := AcceptInto(local, before, r);
    if r.nodeId != n {
      assert About(records + {r}, n) == About(records, n);
      assert Pool(members, records + {r}, n) == Pool(members, records, n);
    } else if n == local {
      assert About(records + {r}, n) == About(records, n) + {r};
      RefutesMore(members[n], About(records, n), before[n], r, after[n]);
    } else {
      assert Pool(members, records + {r}, n) == Pool(members, records, n) + {r};
      if n in before {
        ElectedMore(Pool(members, records, n), Current(members, n), before[n], r, after[n]);
      } else {
        assert Pool(members, records, n) == {} && n !in members;
        assert r in {r} && after[n] == r;
      }
    }
  }

  lemma RefutesMore(current: Member, accusers: set<Member>, m: Member, r: Member, m': Member)
    requires Refutes(current, accusers, m) && current.status.Alive?
    requires m' == if !r.status.Alive? && r.incarnation >= m.incarnation
                   then m.(status := Alive, incarnation := r.incarnation + 1) else m
    ensures Refutes(current, accusers + {r}, m')
  {
  }

  lemma ElectedMore(pool: set<Member>, current: Option<Member>, m: Member, r: Member, m': Member)
    requires Elected(pool, current, m) && (current.Some? ==> current.value in pool)
    requires m' == if r.incarnation > m.incarnation then r
                   else if r.incarnation == m.incarnation && r.status.Severity() > m.status.Severity() then m.(status := r.status)
                   else m
    ensures Elected(pool + {r}, current, m')
  {
  }

  lemma AcceptIntoFiled(local: NodeId, members: Members, r: Member)
    requires Filed(local, members)
    ensures Filed(local, AcceptInto(local, members, r))
  {
  }

  /** Merging any records gives, for every node, a record that fits this description. */
  lemma {:induction false} AcceptAllAt(local: NodeId, members: Members, records: seq<Member>, n: NodeId)
    requires Filed(local, members)
    ensures Filed(local, AcceptAll(local, members, records))
    ensures MergedAt(local, members, ToSet(records), AcceptAll(local, members, records), n)
  {
    if records == [] {
      StartsMerged(local, members, n);
      assert ToSet(records) == {};
    } else {
      var i := |records| - 1;
      var before := AcceptAll(local, members, records[..i]);
      AcceptAllAt(local, members, records[..i], n);
      AcceptIntoFiled(local, before, records[i]);
      AcceptIntoAt(local, members, ToSet(records[..i]), before, records[i], n);
      assert records == records[..i] + [records[i]];
      assert ToSet(records) == ToSet(records[..i]) + {records[i]};
    }
  }

  lemma StartsMerged(local: NodeId, members: Members, n: NodeId)
    requires Filed(local, members)
    ensures MergedAt(local, members, {}, members, n)
  {
  }

  // ---- When the order cannot matter ----

  /**
   Two addresses announced for one incarnation of a node compete only if that incarnation is
   the node's highest and the table does not already hold it.
   */
  predicate Competing(members: Members, records: set<Member>, a: Member, b: Member) {
    && a in records && b in records && a.nodeId == b.nodeId && a.incarnation == b.incarnation && a.address != b.address
    && (forall q | q in About(records, a.nodeId) :: q.incarnation <= a.incarnation)
    && (a.nodeId in members ==> members[a.nodeId].incarnation < a.incarnation)
  }

  ghost predicate Settled(local: NodeId, members: Members, records: set<Member>) {
    forall a: Member, b: Member :: a.nodeId != local ==> !Competing(members, records, a, b)
  }

  lemma MergedUnique(local: NodeId, members: Members, records: set<Member>, x: Members, y: Members, n: NodeId)
    requires Filed(local, members) && Settled(local, members, records)
    requires MergedAt(local, members, records, x, n) && MergedAt(local, members, records, y, n)
    ensures SameRecord(x, y, n)
  {
    if n != local && n in x {
      var pool := Pool(members, records, n);
      ElectedRank(pool, Current(members, n), x[n], y[n]);
      if !(n in members && members[n].incarnation == x[n].incarnation) {
        var a :| a in pool && a.incarnation == x[n].incarnation && a.address == x[n].address;
        var b :| b in pool && b.incarnation == y[n].incarnation && b.address == y[n].address;
        assert !Competing(members, records, a, b);
        assert forall q | q in About(records, n) :: q in pool && AtLeast(x[n], q);
        assert n in members ==> members[n] in pool;
        assert a.address == b.address;
      }
    }
  }

  lemma ElectedRank(pool: set<Member>, current: Option<Member>, a: Member, b: Member)
    requires Elected(pool, current, a) && Elected(pool, current, b)
    ensures a.incarnation == b.incarnation && a.status == b.status
  {
  }

  /** Order, grouping and duplication do not matter once no two addresses compete. */
  lemma OrderIndependent(local: NodeId, members: Members, x: seq<Member>, y: seq<Member>)
    requires Filed(local, members) && ToSet(x) == ToSet(y) && Settled(local, members, ToSet(x))
    ensures AcceptAll(local, members, x) == AcceptAll(local, members, y)
  {
    forall n ensures SameRecord(AcceptAll(local, members, x), AcceptAll(local, members, y), n) {
      AcceptAllAt(local, members, x, n);
      AcceptAllAt(local, members, y, n);
      MergedUnique(local, members, ToSet(x), AcceptAll(local, members, x), AcceptAll(local, members, y), n);
    }
    SameMembers(AcceptAll(local, members, x), AcceptAll(local, members, y));
  }

  /** Whichever of two competing records comes first fixes the address for good. */
  lemma FirstAddressWins(local: NodeId, members: Members, records: seq<Member>, a: Member, b: Member)
    requires Filed(local, members) && a.nodeId != local && Competing(members, ToSet(records), a, b)
    ensures var r := AcceptAll(local, members, [a] + records);
            a.nodeId in r && r[a.nodeId].address == a.address
  {
    var n := a.nodeId;
    var first := AcceptAll(local, members, [a]);
    assert [a][..|[a]| - 1] == [];
    assert AcceptAll(local, members, []) == members;
    assert first == AcceptInto(local, members, a) && first[n] == a;
    AcceptAllConcat(local, members, [a], records);
    AcceptIntoFiled(local, members, a);
    AcceptAllAt(local, first, records, n);
    var pool := Pool(first, ToSet(records), n);
    var m := AcceptAll(local, first, records)[n];
    assert a in pool && AtLeast(m, a);
    var q :| q in pool && q.incarnation == m.incarnation && q.status == m.status;
    assert q.incarnation <= a.incarnation;
  }

  /** The member table is independent of order and repetition exactly when no two addresses compete. */
  lemma OrderIndependentIff(local: NodeId, members: Members, records: seq<Member>)
    requires Filed(local, members)
    ensures Settled(local, members, ToSet(records)) <==>
            forall x, y | ToSet(x) == ToSet(records) && ToSet(y) == ToSet(records) ::
              AcceptAll(local, members, x) == AcceptAll(local, members, y)
  {
    var all := ToSet(records);
    if Settled(local, members, all) {
      forall x, y | ToSet(x) == all && ToSet(y) == all
        ensures AcceptAll(local, members, x) == AcceptAll(local, members, y)
      {
        OrderIndependent(local, members, x, y);
      }
    } else {
      var a: Member, b: Member :| a.nodeId != local && Competing(members, all, a, b);
      assert Competing(members, all, b, a);
      FirstAddressWins(local, members, records, a, b);
      FirstAddressWins(local, members, records, b, a);
      assert ToSet([a] + records) == all && ToSet([b] + records) == all;
      assert AcceptAll(local, members, [a] + records) != AcceptAll(local, members, [b] + records);
    }
  }

  /** One address per node and incarnation, the ordinary case, leaves nothing to compete. */
  predicate OneAddress(records: set<Member>) {
    forall a, b | a in records && b in records :: a.nodeId == b.nodeId && a.incarnation == b.incarnation ==> a.address == b.address
  }

  lemma OneAddressSettles(local: NodeId, members: Members, records: set<Member>)
    requires OneAddress(records)
    ensures Settled(local, members, records)
  {
  }
}
