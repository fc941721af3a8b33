/**
 Suspicion and tombstone timers over whole runs of one membership table: time passes, records
 arrive, probes fail, timeouts are swept (src/distsys/cluster/membership.py).
 */
module MembershipRuns {
  import opened Causal
  import opened Membership
  import opened MemberMerge

  datatype Timed = Timed(now: real, table: Table)

  datatype Step =
    | Tick(elapsed: real)
    | Receive(record: Member)
    | Mark(target: NodeId)
    | Advance

  function Do(s: Timed, step: Step): (r: Timed)
    requires Valid(s.table)
    ensures Valid(r.table)
  {
    match step
    case Tick(elapsed) => if elapsed > 0.0 then s.(now := s.now + elapsed) else s
    case Receive(record) => MergeOneValid(s.table, record, s.now); s.(table := MergeOne(s.table, record, s.now))
    case Mark(target) => s.(table := Marked(s.table, target, s.now))
    case Advance => AdvancedValid(s.table, s.now); s.(table := Advanced(s.table, s.now))
  }

  lemma AdvancedValid(t: Table, now: real)
    requires Valid(t)
    ensures Valid(Advanced(t, now))
  {
    var r := Advanced(t, now);
    forall n ensures n in r.suspectedAt <==> Has(r.members, n, Suspect) {
      assert n in t.suspectedAt <==> Has(t.members, n, Suspect);
    }
    forall n ensures n in r.deadAt <==> Has(r.members, n, Dead) {
      assert n in t.deadAt <==> Has(t.members, n, Dead);
    }
  }

  function Run(start: Timed, steps: seq<Step>): (r: Timed)
    requires Valid(start.table)
    ensures Valid(r.table)
  {
    if steps == [] then start else Do(Run(start, steps[..|steps| - 1]), steps[|steps| - 1])
  }

  /** A new table knows only its own, living, node. */
  ghost predicate Fresh(s: Timed) {
    Valid(s.table) && s.table.members.Keys == {s.table.local}
  }

  // ---- Timers tell since when a status has lasted ----

  function TimersOf(t: Table, status: Status): Timers {
    match status
    case Alive => map[]
    case Suspect => t.suspectedAt
    case Dead => t.deadAt
  }

  /** A timer survives every step that keeps the status, and is set to the current time by one that brings it. */
  lemma StepTimer(s: Timed, step: Step, n: NodeId, status: Status)
    requires Valid(s.table) && status != Alive && Has(Do(s, step).table.members, n, status)
    ensures var r := Do(s, step);
            && n in TimersOf(r.table, status)
            && (if Has(s.table.members, n, status) then
                  n in TimersOf(s.table, status) && TimersOf(r.table, status)[n] == TimersOf(s.table, status)[n]
                else TimersOf(r.table, status)[n] == r.now)
  {
    assert n in s.table.suspectedAt <==> Has(s.table.members, n, Suspect);
    assert n in s.table.deadAt <==> Has(s.table.members, n, Dead);
  }

  predicate HasAt(start: Timed, steps: seq<Step>, i: nat, n: NodeId, status: Status)
    requires Valid(start.table) && i <= |steps|
  {
    Has(Run(start, steps[..i]).table.members, n, status)
  }

  /** The node has had the status in every state from the j-th on, and not in the one before. */
  ghost predicate Since(start: Timed, steps: seq<Step>, n: NodeId, status: Status, j: nat)
    requires Valid(start.table)
  {
    && 0 < j <= |steps| && !HasAt(start, steps, j - 1, n, status)
    && forall i | j <= i <= |steps| :: HasAt(start, steps, i, n, status)
  }

  lemma SinceExtends(start: Timed, steps: seq<Step>, step: Step, n: NodeId, status: Status, j: nat)
    requires Valid(start.table) && Since(start, steps, n, status, j) && Has(Run(start, steps + [step]).table.members, n, status)
    ensures Since(start, steps + [step], n, status, j)
  {
    var all := steps + [step];
    forall i | j <= i <= |all| ensures HasAt(start, all, i, n, status) {
      if i <= |steps| {
        assert all[..i] == steps[..i] && HasAt(start, steps, i, n, status);
      } else {
        assert all[..i] == all;
      }
    }
    assert all[..j - 1] == steps[..j - 1];
  }

  /** In every run from a fresh table, a timer shows when its status last began, unbroken since. */
  lemma {:induction false} TimerIsStart(start: Timed, steps: seq<Step>, n: NodeId, status: Status) returns (j: nat)
    requires Fresh(start) && status != Alive && Has(Run(start, steps).table.members, n, status)
    ensures Since(start, steps, n, status, j)
    ensures n in TimersOf(Run(start, steps).table, status)
    ensures TimersOf(Run(start, steps).table, status)[n] == Run(start, steps[..j]).now
  {
    assert steps != [];
    var before, step := steps[..|steps| - 1], steps[|steps| - 1];
    assert steps == before + [step];
    StepTimer(Run(start, before), step, n, status);
    if Has(Run(start, before).table.members, n, status) {
      j := TimerIsStart(start, before, n, status);
      SinceExtends(start, before, step, n, status, j);
      assert steps[..j] == before[..j];
    } else {
      j := |steps|;
      assert steps[..j] == steps && steps[..j - 1] == before;
      assert Since(start, steps, n, status, j);
    }
  }

  lemma SinceUnique(start: Timed, steps: seq<Step>, n: NodeId, status: Status, j: nat, k: nat)
    requires Valid(start.table) && Since(start, steps, n, status, j) && Since(start, steps, n, status, k)
    ensures j == k
  {
  }

  lemma TimerValue(start: Timed, steps: seq<Step>, n: NodeId, status: Status, j: nat)
    requires Fresh(start) && status != Alive && Since(start, steps, n, status, j)
    ensures n in TimersOf(Run(start, steps).table, status)
    ensures TimersOf(Run(start, steps).table, status)[n] == Run(start, steps[..j]).now
  {
    assert steps[..|steps|] == steps && HasAt(start, steps, |steps|, n, status);
    var k := TimerIsStart(start, steps, n, status);
    SinceUnique(start, steps, n, status, j, k);
  }

  /** A sweep declares a suspect dead exactly when it has been SUSPECT without a break for the suspicion timeout. */
  lemma DeathByTimeout(start: Timed, steps: seq<Step>, n: NodeId, j: nat)
    requires Fresh(start) && Since(start, steps, n, Suspect, j)
    ensures var s := Run(start, steps);
            var swept := Do(s, Advance).table.members;
            && n in s.table.members && n in swept
            && swept[n] == (if s.now - Run(start, steps[..j]).now >= s.table.suspicion
                            then s.table.members[n].(status := Dead) else s.table.members[n])
  {
    TimerValue(start, steps, n, Suspect, j);
  }

  /** A sweep forgets a dead member exactly when it has been DEAD without a break for the retention time. */
  lemma PurgeByRetention(start: Timed, steps: seq<Step>, n: NodeId, j: nat)
    requires Fresh(start) && Since(start, steps, n, Dead, j)
    ensures var s := Run(start, steps);
            n in Do(s, Advance).table.members <==> s.now - Run(start, steps[..j]).now < s.table.retention
  {
    TimerValue(start, steps, n, Dead, j);
    assert Run(start, steps).table.local != n;
  }

  // ---- What makes a member suspect, and what makes it dead ----

  /** A failed probe turns a remote ALIVE member SUSPECT, as it was otherwise, and does nothing else. */
  lemma MarkSuspects(s: Timed, n: NodeId)
    requires Valid(s.table)
    ensures var before, after := s.table, Do(s, Mark(n)).table;
            if n != before.local && Has(before.members, n, Alive) then
              && Has(after.members, n, Suspect)
              && after.members[n].incarnation == before.members[n].incarnation
              && after.members[n].address == before.members[n].address && after.members[n].nodeId == n
              && after.members.Keys == before.members.Keys
              && (forall k | k in before.members && k != n :: after.members[k] == before.members[k])
              && n in after.suspectedAt && after.suspectedAt[n] == s.now
              && after.version == before.version + 1
            else after == before
  {
  }

  /** One step kills only by a DEAD record about the member, or by a sweep that finds it overdue. */
  lemma StepKills(s: Timed, step: Step, n: NodeId)
    requires Valid(s.table) && !Has(s.table.members, n, Dead) && Has(Do(s, step).table.members, n, Dead)
    ensures || (step.Receive? && step.record.nodeId == n && step.record.status.Dead? && n != s.table.local)
            || (step.Advance? && Has(s.table.members, n, Suspect) && Overdue(s.table, n, s.now))
  {
  }

  /**
   In every run, a member that becomes DEAD was named by a received DEAD record, or was swept
   after being SUSPECT without a break for the suspicion timeout. Returns since when.
   */
  lemma DeathHasCause(start: Timed, steps: seq<Step>, step: Step, n: NodeId) returns (j: nat)
    requires Fresh(start)
    requires !Has(Run(start, steps).table.members, n, Dead) && Has(Do(Run(start, steps), step).table.members, n, Dead)
    ensures || (step.Receive? && step.record.nodeId == n && step.record.status.Dead?)
            || (step.Advance? && Since(start, steps, n, Suspect, j)
                && Run(start, steps).now - Run(start, steps[..j]).now >= Run(start, steps).table.suspicion)
  {
    j := 0;
    StepKills(Run(start, steps), step, n);
    if step.Advance? {
      j := TimerIsStart(start, steps, n, Suspect);
    }
  }

  /** Nothing but a sweep removes a record, and a sweep removes only what it finds purgeable. */
  lemma OnlyPurgeRemoves(s: Timed, step: Step, n: NodeId)
    requires Valid(s.table) && n in s.table.members
    ensures n !in Do(s, step).table.members <==> step.Advance? && Purgeable(s.table, n, s.now)
  {
  }

  // ---- Incarnation and severity never decrease ----

  lemma StepRanks(s: Timed, step: Step, n: NodeId)
    requires Valid(s.table) && n in s.table.members && n in Do(s, step).table.members
    ensures AtLeast(Do(s, step).table.members[n], s.table.members[n])
    ensures step.Receive? && step.record.nodeId == n && n != s.table.local ==> AtLeast(Do(s, step).table.members[n], step.record)
  {
  }

  ghost predicate Kept(s: Timed, steps: seq<Step>, n: NodeId)
    requires Valid(s.table)
  {
    forall i | 0 <= i <= |steps| :: n in Run(s, steps[..i]).table.members
  }

  lemma KeptPrefix(s: Timed, steps: seq<Step>, n: NodeId)
    requires Valid(s.table) && Kept(s, steps, n) && steps != []
    ensures Kept(s, steps[..|steps| - 1], n) && n in Run(s, steps).table.members
  {
    var before := steps[..|steps| - 1];
    forall i | 0 <= i <= |before| ensures n in Run(s, before[..i]).table.members {
      assert before[..i] == steps[..i];
    }
    assert steps[..|steps|] == steps;
  }

  /** While a record is never purged, its incarnation and, within one, its severity only grow. */
  lemma {:induction false} RanksNeverDrop(s: Timed, steps: seq<Step>, n: NodeId)
    requires Valid(s.table) && n in s.table.members && Kept(s, steps, n)
    ensures n in Run(s, steps).table.members && AtLeast(Run(s, steps).table.members[n], s.table.members[n])
  {
    if steps != [] {
      KeptPrefix(s, steps, n);
      var before := steps[..|steps| - 1];
      RanksNeverDrop(s, before, n);
      assert before[..|before|] == before;
      StepRanks(Run(s, before), steps[|steps| - 1], n);
    }
  }

  // ---- Tombstones ----

  lemma StepTombstone(s: Timed, step: Step, n: NodeId)
    requires Valid(s.table) && Has(s.table.members, n, Dead) && n in Do(s, step).table.members
    requires step.Receive? && step.record.nodeId == n ==> step.record.incarnation <= s.table.members[n].incarnation
    ensures Do(s, step).table.members[n] == s.table.members[n]
  {
  }

  /** While a tombstone is held, no record of an equal or lower incarnation brings the member back. */
  lemma {:induction false} TombstoneHolds(s: Timed, steps: seq<Step>, n: NodeId)
    requires Valid(s.table) && Has(s.table.members, n, Dead) && Kept(s, steps, n)
    requires forall i | 0 <= i < |steps| ::
               steps[i].Receive? && steps[i].record.nodeId == n ==> steps[i].record.incarnation <= s.table.members[n].incarnation
    ensures n in Run(s, steps).table.members && Run(s, steps).table.members[n] == s.table.members[n]
  {
    if steps != [] {
      KeptPrefix(s, steps, n);
      var before := steps[..|steps| - 1];
      TombstoneHolds(s, before, n);
      StepTombstone(Run(s, before), steps[|steps| - 1], n);
    }
  }

  /** Once the tombstone is purged an old ALIVE record is believed again; before, it is not. */
  lemma RevivalNeedsPurge(s: Timed, record: Member)
    requires Valid(s.table) && Has(s.table.members, record.nodeId, Dead) && record.status.Alive?
    requires record.incarnation <= s.table.members[record.nodeId].incarnation
    ensures Has(Do(Do(s, Advance), Receive(record)).table.members, record.nodeId, Alive)
            <==> Purgeable(s.table, record.nodeId, s.now)
  {
  }

  /** A SUSPECT record that is received, after some time without other news, outlives a sweep. */
  predicate Outlives(s: Timed, record: Member, elapsed: real)
    requires Valid(s.table)
  {
    var swept := Do(Do(Do(s, Receive(record)), Tick(elapsed)), Advance).table.members;
    record.nodeId in swept && swept[record.nodeId] == record
  }

  /** A SUSPECT record the table accepts as a new incarnation. */
  predicate NewlySuspect(s: Timed, record: Member) {
    && record.status.Suspect? && record.nodeId != s.table.local
    && (record.nodeId in s.table.members ==> record.incarnation > s.table.members[record.nodeId].incarnation)
  }

  lemma OutlivesUntil(s: Timed, record: Member, elapsed: real)
    requires Valid(s.table) && NewlySuspect(s, record) && elapsed >= 0.0
    ensures var n := record.nodeId;
            var since := if n in s.table.suspectedAt then s.table.suspectedAt[n] else s.now;
            Outlives(s, record, elapsed) <==> s.now + elapsed - since < s.table.suspicion
  {
  }

  /**
   A SUSPECT record of a higher incarnation inherits a running timer instead of starting its
   own. It is given the full suspicion timeout exactly when no timer had been running for the
   node before this moment.
   */
  lemma SuspicionInherited(s: Timed, record: Member)
    requires Valid(s.table) && NewlySuspect(s, record)
    ensures (forall elapsed: real | 0.0 <= elapsed < s.table.suspicion :: Outlives(s, record, elapsed)) <==>
            (record.nodeId in s.table.suspectedAt ==> s.table.suspectedAt[record.nodeId] >= s.now)
  {
    var n, t := record.nodeId, s.table;
    forall elapsed: real | 0.0 <= elapsed < t.suspicion
      ensures Outlives(s, record, elapsed) <==>
              s.now + elapsed - (if n in t.suspectedAt then t.suspectedAt[n] else s.now) < t.suspicion
    {
      OutlivesUntil(s, record, elapsed);
    }
    if n in t.suspectedAt && t.suspectedAt[n] < s.now {
      var head := s.now - t.suspectedAt[n];
      var elapsed := if head < t.suspicion then t.suspicion - head else 0.0;
      assert !Outlives(s, record, elapsed);
    }
  }

  /** Half-way through the old timer the new incarnation survives for now, and is killed after half its time. */
  lemma KilledHalfway() returns (s: Timed, record: Member)
    ensures Valid(s.table) && NewlySuspect(s, record) && !Overdue(s.table, record.nodeId, s.now)
    ensures Outlives(s, record, 0.0) && !Outlives(s, record, s.table.suspicion / 2.0)
  {
    var address := Address("h", 1);
    var a, b := Member("a", address, Alive, 1), Member("b", address, Suspect, 1);
    record := b.(incarnation := 2);
    s := Timed(1.0, Table("a", 2.0, 3.0, map["a" := a, "b" := b], map["b" := 0.0], map[], 1));
    assert Valid(s.table);
    OutlivesUntil(s, record, 0.0);
    OutlivesUntil(s, record, 1.0);
  }
}
