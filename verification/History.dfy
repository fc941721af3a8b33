/**
 What a version vector means.

 The commit log records every mutation ever committed anywhere, in commit order, with its
 dot and the state version the mutated entry had before it. Interp reads off the log the
 CRDT state that a given state version stands for: each covered mutation contributes once,
 and a remove or write acts on exactly what it had observed.
 */
module History {
  import opened Outcomes
  import opened Causal
  import opened Crdt

  datatype Mutation = Mutation(key: string, op: Op, dot: Dot, observed: VersionVector)

  type Log = seq<Mutation>

  /** The largest counter the log holds for an actor. */
  function Top(log: Log, a: Actor): nat {
    if log == [] then 0 else
      var m := log[|log| - 1];
      if m.dot.actor == a then Max(Top(log[..|log| - 1], a), m.dot.counter) else Top(log[..|log| - 1], a)
  }

  /** The vector speaks only of dots that were committed. */
  ghost predicate Bounded(log: Log, v: VersionVector) {
    forall a :: Get(v, a) <= Top(log, a)
  }

  /** Every actor's dots strictly increase along the log, and nobody observed the future. */
  ghost predicate LogOk(log: Log) {
    && (forall i, j | 0 <= i < j < |log| && log[i].dot.actor == log[j].dot.actor ::
          log[i].dot.counter < log[j].dot.counter)
    && (forall i | 0 <= i < |log| :: Bounded(log[..i], log[i].observed))
  }

  predicate On(m: Mutation, key: string, ty: CrdtType) {
    m.key == key && m.op.Type() == ty
  }

  // ---- Counters ----

  datatype Side = Plain | Plus | Minus

  function Amount(op: Op, side: Side): nat {
    match (op, side)
    case (Increment(n), Plain) => n
    case (PNIncrement(n), Plus) => n
    case (PNDecrement(n), Minus) => n
    case _ => 0
  }

  /** The amount one actor's covered mutations of a key add to one side of the counter. */
  function Sum(log: Log, key: string, side: Side, a: Actor, v: VersionVector): nat {
    if log == [] then 0 else
      var m := log[|log| - 1];
      Sum(log[..|log| - 1], key, side, a, v) +
      if m.key == key && m.dot.actor == a && Covers(v, m.dot) then Amount(m.op, side) else 0
  }

  function Components(log: Log, key: string, side: Side, v: VersionVector): (c: Counts)
    ensures forall a :: Get(c, a) == if a in v then Sum(log, key, side, a, v) else 0
  {
    map a | a in v && Sum(log, key, side, a, v) > 0 :: Sum(log, key, side, a, v)
  }

  // ---- Observed-remove set ----

  predicate IsAdd(m: Mutation, key: string, e: string) {
    m.key == key && m.op == Add(e)
  }

  /** r removes the element that x added, and had seen x. */
  predicate Kills(r: Mutation, x: Mutation, key: string) {
    && x.key == key && r.key == key
    && x.op.Add? && r.op == Remove(x.op.element)
    && Covers(r.observed, x.dot)
  }

  function AddDots(log: Log, key: string, e: string, v: VersionVector): set<Dot> {
    set m | m in log && IsAdd(m, key, e) && Covers(v, m.dot) :: m.dot
  }

  function Added(log: Log, key: string, v: VersionVector): map<string, set<Dot>> {
    map e | e in (set m | m in log && m.op.Add? :: m.op.element) && AddDots(log, key, e, v) != {} ::
      AddDots(log, key, e, v)
  }

  function Killed(log: Log, key: string, v: VersionVector): set<Dot> {
    set r, x | r in log && x in log && Covers(v, r.dot) && Kills(r, x, key) :: x.dot
  }

  // ---- Multi-value register ----

  predicate IsWrite(m: Mutation, key: string) {
    m.key == key && m.op.Write?
  }

  predicate Overwrites(w: Mutation, x: Mutation, key: string) {
    IsWrite(w, key) && IsWrite(x, key) && Covers(w.observed, x.dot)
  }

  function Writes(log: Log, key: string, v: VersionVector): set<Dot> {
    set m | m in log && IsWrite(m, key) && Covers(v, m.dot) :: m.dot
  }

  function Overwritten(log: Log, key: string, v: VersionVector): set<Dot> {
    set w, x | w in log && x in log && Covers(v, w.dot) && Overwrites(w, x, key) :: x.dot
  }

  /** The text written under a dot. */
  function TextAt(log: Log, d: Dot): string {
    if log == [] then "" else
      var m := log[|log| - 1];
      if m.dot == d && m.op.Write? then m.op.json else TextAt(log[..|log| - 1], d)
  }

  /** The state that version v of a key stands for. */
  function Interp(log: Log, key: string, ty: CrdtType, v: VersionVector): (s: State)
    ensures s.Type() == ty
  {
    match ty
    case GCounterType => GCounter(Components(log, key, Plain, v))
    case PNCounterType => PNCounter(Components(log, key, Plus, v), Components(log, key, Minus, v))
    case ORSetType => ORSet(Added(log, key, v), Killed(log, key, v))
    case MVRegisterType =>
      MVRegister(map d | d in Writes(log, key, v) :: TextAt(log, d), Overwritten(log, key, v))
  }

  // ---- The log and its dots ----

  lemma {:induction false} TopCovers(log: Log, m: Mutation)
    requires m in log
    ensures m.dot.counter <= Top(log, m.dot.actor)
  {
    var n := |log| - 1;
    assert log == log[..n] + [log[n]];
    if m != log[n] {
      TopCovers(log[..n], m);
    }
  }

  lemma TopSnoc(log: Log, m: Mutation, a: Actor)
    ensures Top(log + [m], a) == if m.dot.actor == a then Max(Top(log, a), m.dot.counter) else Top(log, a)
  {
  }

  /** No dot identifies two different committed mutations. */
  lemma DotsUnique(log: Log, m: Mutation, x: Mutation)
    requires LogOk(log)
    requires m in log && x in log && m.dot == x.dot
    ensures m == x
  {
  }

  lemma {:induction false} TopPrefix(log: Log, i: nat, a: Actor)
    requires i <= |log|
    ensures Top(log[..i], a) <= Top(log, a)
  {
    if i < |log| {
      TopPrefix(log[..|log| - 1], i, a);
      assert log[..|log| - 1][..i] == log[..i];
    } else {
      assert log[..i] == log;
    }
  }

  lemma ObservedBounded(log: Log, m: Mutation)
    requires LogOk(log) && m in log
    ensures Bounded(log, m.observed)
    ensures !Covers(m.observed, m.dot)
  {
    var i :| 0 <= i < |log| && log[i] == m;
    forall a ensures Get(m.observed, a) <= Top(log, a) {
      TopPrefix(log, i, a);
    }
    TopBelow(log[..i], m.dot);
  }

  /** The counters an actor used earlier are all below a later dot's. */
  lemma {:induction false} TopBelow(log: Log, d: Dot)
    requires forall m | m in log && m.dot.actor == d.actor :: m.dot.counter < d.counter
    ensures Top(log, d.actor) < d.counter
  {
    if log != [] {
      assert log[|log| - 1] in log;
      TopBelow(log[..|log| - 1], d);
    }
  }

  lemma BoundedSnoc(log: Log, m: Mutation, v: VersionVector)
    requires Bounded(log, v)
    ensures Bounded(log + [m], v)
  {
  }

  /** Appending a mutation whose dot is above all of its actor's dots keeps the log in order. */
  lemma LogSnoc(log: Log, m: Mutation)
    requires LogOk(log) && Bounded(log, m.observed)
    requires Top(log, m.dot.actor) < m.dot.counter
    ensures LogOk(log + [m])
  {
    var log' := log + [m];
    forall i | 0 <= i < |log'| ensures Bounded(log'[..i], log'[i].observed) {
      assert log'[..i] == log[..i];
      assert log[..|log|] == log;
    }
    forall i, j | 0 <= i < j < |log'| && log'[i].dot.actor == log'[j].dot.actor
      ensures log'[i].dot.counter < log'[j].dot.counter
    {
      if j == |log| {
        TopCovers(log, log[i]);
      }
    }
  }

  /** A dot above everything the log holds is covered by no vector that speaks of the log. */
  lemma FreshUncovered(log: Log, v: VersionVector, d: Dot)
    requires Bounded(log, v) && Top(log, d.actor) < d.counter
    ensures !Covers(v, d)
  {
  }

  // ---- Joining two versions merges their states ----

  lemma {:induction false} SumMonotone(log: Log, key: string, side: Side, a: Actor, u: VersionVector, v: VersionVector)
    requires Get(u, a) <= Get(v, a)
    ensures Sum(log, key, side, a, u) <= Sum(log, key, side, a, v)
    ensures Get(u, a) == Get(v, a) ==> Sum(log, key, side, a, u) == Sum(log, key, side, a, v)
  {
    if log != [] {
      SumMonotone(log[..|log| - 1], key, side, a, u, v);
    }
  }

  lemma {:induction false} SumUncovered(log: Log, key: string, side: Side, a: Actor, v: VersionVector)
    requires a !in v
    ensures Sum(log, key, side, a, v) == 0
  {
    if log != [] {
      SumUncovered(log[..|log| - 1], key, side, a, v);
    }
  }

  lemma ComponentsGet(log: Log, key: string, side: Side, v: VersionVector, a: Actor)
    ensures Get(Components(log, key, side, v), a) == Sum(log, key, side, a, v)
  {
  }

  lemma ComponentsJoin(log: Log, key: string, side: Side, u: VersionVector, v: VersionVector)
    ensures Components(log, key, side, Merge(u, v))
         == Merge(Components(log, key, side, u), Components(log, key, side, v))
  {
    var w := Merge(u, v);
    forall a
      ensures Get(Components(log, key, side, w), a)
           == Get(Merge(Components(log, key, side, u), Components(log, key, side, v)), a)
    {
      ComponentsGet(log, key, side, u, a);
      ComponentsGet(log, key, side, v, a);
      ComponentsGet(log, key, side, w, a);
      if Get(u, a) <= Get(v, a) {
        SumMonotone(log, key, side, a, u, v);
        SumMonotone(log, key, side, a, v, w);
      } else {
        SumMonotone(log, key, side, a, v, u);
        SumMonotone(log, key, side, a, u, w);
      }
    }
    GetExtensional(Components(log, key, side, w),
                   Merge(Components(log, key, side, u), Components(log, key, side, v)));
  }

  lemma CoversJoin(u: VersionVector, v: VersionVector, d: Dot)
    ensures Covers(Merge(u, v), d) <==> Covers(u, d) || Covers(v, d)
  {
  }

  lemma AddDotsJoin(log: Log, key: string, e: string, u: VersionVector, v: VersionVector)
    ensures AddDots(log, key, e, Merge(u, v)) == AddDots(log, key, e, u) + AddDots(log, key, e, v)
  {
  }

  lemma AddedDotsOf(log: Log, key: string, v: VersionVector, e: string)
    ensures DotsOf(Added(log, key, v), e) == AddDots(log, key, e, v)
    ensures e in Added(log, key, v) <==> AddDots(log, key, e, v) != {}
  {
  }

  lemma AddedJoin(log: Log, key: string, u: VersionVector, v: VersionVector)
    ensures Added(log, key, Merge(u, v)) == MergeAdds(Added(log, key, u), Added(log, key, v))
  {
    var l, r := Added(log, key, Merge(u, v)), MergeAdds(Added(log, key, u), Added(log, key, v));
    forall e ensures (e in l.Keys <==> e in r.Keys) && DotsOf(l, e) == DotsOf(r, e) {
      AddDotsJoin(log, key, e, u, v);
      AddedDotsOf(log, key, u, e);
      AddedDotsOf(log, key, v, e);
      AddedDotsOf(log, key, Merge(u, v), e);
    }
    AddsExtensional(l, r);
  }

  lemma KilledJoin(log: Log, key: string, u: VersionVector, v: VersionVector)
    ensures Killed(log, key, Merge(u, v)) == Killed(log, key, u) + Killed(log, key, v)
  {
  }

  lemma RegisterJoin(log: Log, key: string, u: VersionVector, v: VersionVector)
    ensures Writes(log, key, Merge(u, v)) == Writes(log, key, u) + Writes(log, key, v)
    ensures Overwritten(log, key, Merge(u, v)) == Overwritten(log, key, u) + Overwritten(log, key, v)
  {
    forall m | m in log ensures Covers(Merge(u, v), m.dot) <==> Covers(u, m.dot) || Covers(v, m.dot) {
      CoversJoin(u, v, m.dot);
    }
  }

  /**
   Merging is joining versions: the states of two versions always merge, and into exactly
   the state of the joined version. In particular the register never sees one dot with two values.
   */
  lemma InterpJoin(log: Log, key: string, ty: CrdtType, u: VersionVector, v: VersionVector)
    ensures MergeStates(Interp(log, key, ty, u), Interp(log, key, ty, v)) == Ok(Interp(log, key, ty, Merge(u, v)))
  {
    match ty
    case GCounterType =>
      ComponentsJoin(log, key, Plain, u, v);
    case PNCounterType =>
      ComponentsJoin(log, key, Plus, u, v);
      ComponentsJoin(log, key, Minus, u, v);
    case ORSetType =>
      AddedJoin(log, key, u, v);
      KilledJoin(log, key, u, v);
    case MVRegisterType =>
      RegisterJoin(log, key, u, v);
      var l, r := Interp(log, key, ty, u), Interp(log, key, ty, v);
      assert !Clash(l.values, r.values);
      assert l.values + r.values == Interp(log, key, ty, Merge(u, v)).values;
  }

  // ---- The state of a version does not change as the log grows ----

  function TypeOfSide(side: Side): CrdtType {
    if side == Plain then GCounterType else PNCounterType
  }

  /** Two vectors cover the same mutations of a key. */
  ghost predicate SameCover(log: Log, key: string, ty: CrdtType, u: VersionVector, v: VersionVector) {
    forall m | m in log && On(m, key, ty) :: Covers(u, m.dot) <==> Covers(v, m.dot)
  }

  lemma {:induction false} SumSame(log: Log, key: string, side: Side, a: Actor, u: VersionVector, v: VersionVector)
    requires SameCover(log, key, TypeOfSide(side), u, v)
    ensures Sum(log, key, side, a, u) == Sum(log, key, side, a, v)
  {
    if log != [] {
      assert log[|log| - 1] in log;
      SumSame(log[..|log| - 1], key, side, a, u, v);
    }
  }

  lemma ComponentsSame(log: Log, key: string, side: Side, u: VersionVector, v: VersionVector)
    requires SameCover(log, key, TypeOfSide(side), u, v)
    ensures Components(log, key, side, u) == Components(log, key, side, v)
  {
    forall a ensures Get(Components(log, key, side, u), a) == Get(Components(log, key, side, v), a) {
      ComponentsGet(log, key, side, u, a);
      ComponentsGet(log, key, side, v, a);
      SumSame(log, key, side, a, u, v);
    }
    GetExtensional(Components(log, key, side, u), Components(log, key, side, v));
  }

  lemma AddedSame(log: Log, key: string, u: VersionVector, v: VersionVector)
    requires SameCover(log, key, ORSetType, u, v)
    ensures Added(log, key, u) == Added(log, key, v)
  {
    forall e ensures AddDots(log, key, e, u) == AddDots(log, key, e, v) {
    }
  }

  /** The state of a version depends only on which mutations of the key it covers. */
  lemma InterpSame(log: Log, key: string, ty: CrdtType, u: VersionVector, v: VersionVector)
    requires SameCover(log, key, ty, u, v)
    ensures Interp(log, key, ty, u) == Interp(log, key, ty, v)
  {
    match ty
    case GCounterType =>
      ComponentsSame(log, key, Plain, u, v);
    case PNCounterType =>
      ComponentsSame(log, key, Plus, u, v);
      ComponentsSame(log, key, Minus, u, v);
    case ORSetType =>
      AddedSame(log, key, u, v);
      assert Killed(log, key, u) == Killed(log, key, v);
    case MVRegisterType =>
      assert Writes(log, key, u) == Writes(log, key, v);
      assert Overwritten(log, key, u) == Overwritten(log, key, v);
  }

  lemma SumSnoc(log: Log, m: Mutation, key: string, side: Side, a: Actor, v: VersionVector)
    ensures Sum(log + [m], key, side, a, v) == Sum(log, key, side, a, v) +
            if m.key == key && m.dot.actor == a && Covers(v, m.dot) then Amount(m.op, side) else 0
  {
  }

  lemma ComponentsSnoc(log: Log, m: Mutation, key: string, side: Side, v: VersionVector)
    ensures Components(log + [m], key, side, v) ==
            if m.key == key && Covers(v, m.dot) && Amount(m.op, side) > 0
            then Bump(Components(log, key, side, v), m.dot.actor, Amount(m.op, side))
            else Components(log, key, side, v)
  {
    var l := Components(log + [m], key, side, v);
    var c := Components(log, key, side, v);
    var r := if m.key == key && Covers(v, m.dot) && Amount(m.op, side) > 0
             then Bump(c, m.dot.actor, Amount(m.op, side)) else c;
    forall a ensures Get(l, a) == Get(r, a) {
      ComponentsGet(log + [m], key, side, v, a);
      ComponentsGet(log, key, side, v, a);
      SumSnoc(log, m, key, side, a, v);
    }
    GetExtensional(l, r);
  }

  lemma AddedFrame(log: Log, m: Mutation, key: string, v: VersionVector)
    requires !Covers(v, m.dot)
    ensures Added(log + [m], key, v) == Added(log, key, v)
  {
    forall e ensures DotsOf(Added(log + [m], key, v), e) == DotsOf(Added(log, key, v), e)
             ensures e in Added(log + [m], key, v).Keys <==> e in Added(log, key, v).Keys {
      AddedDotsOf(log + [m], key, v, e);
      AddedDotsOf(log, key, v, e);
      assert AddDots(log + [m], key, e, v) == AddDots(log, key, e, v);
    }
    AddsExtensional(Added(log + [m], key, v), Added(log, key, v));
  }

  /** m is new: its dot is above all of its actor's, so nothing in the log has seen it. */
  ghost predicate Fresh(log: Log, m: Mutation) {
    Top(log, m.dot.actor) < m.dot.counter
  }

  lemma NobodySawFresh(log: Log, m: Mutation, r: Mutation)
    requires LogOk(log) && Fresh(log, m) && r in log
    ensures !Covers(r.observed, m.dot) && r.dot != m.dot
  {
    ObservedBounded(log, r);
    TopCovers(log, r);
  }

  lemma KilledFrame(log: Log, m: Mutation, key: string, v: VersionVector)
    requires LogOk(log) && Fresh(log, m) && !Covers(v, m.dot)
    ensures Killed(log + [m], key, v) == Killed(log, key, v)
  {
    forall r | r in log ensures !Covers(r.observed, m.dot) {
      NobodySawFresh(log, m, r);
    }
  }

  lemma OverwrittenFrame(log: Log, m: Mutation, key: string, v: VersionVector)
    requires LogOk(log) && Fresh(log, m) && !Covers(v, m.dot)
    ensures Overwritten(log + [m], key, v) == Overwritten(log, key, v)
  {
    forall r | r in log ensures !Covers(r.observed, m.dot) {
      NobodySawFresh(log, m, r);
    }
  }

  lemma TextsSnoc(log: Log, m: Mutation, key: string, v: VersionVector)
    requires LogOk(log) && Fresh(log, m)
    ensures forall d | d in Writes(log, key, v) :: d != m.dot && TextAt(log + [m], d) == TextAt(log, d)
  {
    assert (log + [m])[..|log|] == log;
    forall d | d in Writes(log, key, v) ensures d != m.dot {
      var r :| r in log && IsWrite(r, key) && Covers(v, r.dot) && r.dot == d;
      NobodySawFresh(log, m, r);
    }
  }

  lemma RegisterFrame(log: Log, m: Mutation, key: string, v: VersionVector)
    requires LogOk(log) && Fresh(log, m) && !Covers(v, m.dot)
    ensures Interp(log + [m], key, MVRegisterType, v) == Interp(log, key, MVRegisterType, v)
  {
    WritesFrame(log, m, key, v);
    OverwrittenFrame(log, m, key, v);
    TextsSnoc(log, m, key, v);
  }

  lemma WritesFrame(log: Log, m: Mutation, key: string, v: VersionVector)
    requires !Covers(v, m.dot)
    ensures Writes(log + [m], key, v) == Writes(log, key, v)
  {
  }

  /** A new mutation leaves the meaning of every version already in existence as it was. */
  lemma InterpFrame(log: Log, m: Mutation, key: string, ty: CrdtType, v: VersionVector)
    requires LogOk(log) && Fresh(log, m) && Bounded(log, v)
    ensures Interp(log + [m], key, ty, v) == Interp(log, key, ty, v)
  {
    FreshUncovered(log, v, m.dot);
    match ty
    case GCounterType =>
      ComponentsSnoc(log, m, key, Plain, v);
    case PNCounterType =>
      ComponentsSnoc(log, m, key, Plus, v);
      ComponentsSnoc(log, m, key, Minus, v);
    case ORSetType =>
      AddedFrame(log, m, key, v);
      KilledFrame(log, m, key, v);
    case MVRegisterType =>
      RegisterFrame(log, m, key, v);
  }

  // ---- One mutation ----

  lemma AddedApply(log: Log, m: Mutation, v: VersionVector)
    requires m.op.Add? && Covers(v, m.dot)
    ensures var adds := Added(log, m.key, v); var e := m.op.element;
            Added(log + [m], m.key, v) == adds[e := DotsOf(adds, e) + {m.dot}]
  {
    var adds, e := Added(log, m.key, v), m.op.element;
    var l, r := Added(log + [m], m.key, v), adds[e := DotsOf(adds, e) + {m.dot}];
    forall f ensures (f in l.Keys <==> f in r.Keys) && DotsOf(l, f) == DotsOf(r, f) {
      AddedDotsOf(log + [m], m.key, v, f);
      AddedDotsOf(log, m.key, v, f);
      assert AddDots(log + [m], m.key, f, v)
          == AddDots(log, m.key, f, v) + if f == e then {m.dot} else {};
    }
    AddsExtensional(l, r);
  }

  lemma AddedNoAdd(log: Log, m: Mutation, key: string, v: VersionVector)
    requires !m.op.Add?
    ensures Added(log + [m], key, v) == Added(log, key, v)
  {
    var l, r := Added(log + [m], key, v), Added(log, key, v);
    forall f ensures (f in l.Keys <==> f in r.Keys) && DotsOf(l, f) == DotsOf(r, f) {
      AddedDotsOf(log + [m], key, v, f);
      AddedDotsOf(log, key, v, f);
      assert AddDots(log + [m], key, f, v) == AddDots(log, key, f, v);
    }
    AddsExtensional(l, r);
  }

  lemma KilledOnly(log: Log, m: Mutation, v: VersionVector, d: Dot)
    requires LogOk(log) && Fresh(log, m)
    requires !Covers(m.observed, m.dot)
    requires SameCover(log, m.key, ORSetType, v, m.observed)
    requires d in Killed(log + [m], m.key, v)
    ensures d in Killed(log, m.key, v) || (m.op.Remove? && d in AddDots(log, m.key, m.op.element, v))
  {
    var r, x :| r in log + [m] && x in log + [m] && Covers(v, r.dot) && Kills(r, x, m.key) && x.dot == d;
    if r == m {
      KilledByNew(log, m, v, x);
    } else {
      assert r in log;
      NobodySawFresh(log, m, r);
      assert x != m && x in log;
    }
  }

  lemma KilledByNew(log: Log, m: Mutation, v: VersionVector, x: Mutation)
    requires x in log + [m] && Kills(m, x, m.key) && SameCover(log, m.key, ORSetType, v, m.observed)
    ensures m.op.Remove? && x.dot in AddDots(log, m.key, m.op.element, v)
  {
    assert x != m && x in log && On(x, m.key, ORSetType) && Covers(v, x.dot);
  }

  lemma KilledAll(log: Log, m: Mutation, v: VersionVector, d: Dot)
    requires Covers(v, m.dot) && SameCover(log, m.key, ORSetType, v, m.observed)
    requires d in Killed(log, m.key, v) || (m.op.Remove? && d in AddDots(log, m.key, m.op.element, v))
    ensures d in Killed(log + [m], m.key, v)
  {
  }

  lemma KilledApply(log: Log, m: Mutation, v: VersionVector)
    requires LogOk(log) && Fresh(log, m) && Covers(v, m.dot)
    requires !Covers(m.observed, m.dot)
    requires SameCover(log, m.key, ORSetType, v, m.observed)
    ensures Killed(log + [m], m.key, v) ==
            Killed(log, m.key, v) + if m.op.Remove? then AddDots(log, m.key, m.op.element, v) else {}
  {
    var l := Killed(log + [m], m.key, v);
    var r := Killed(log, m.key, v) + if m.op.Remove? then AddDots(log, m.key, m.op.element, v) else {};
    forall d ensures d in l <==> d in r {
      if d in l {
        KilledOnly(log, m, v, d);
      } else if d in r {
        KilledAll(log, m, v, d);
      }
    }
  }

  lemma RemoveApplied(s: State, t: State, op: Op, d: Dot)
    requires s.ORSet? && t.ORSet? && op.Remove?
    requires t.adds == s.adds && t.removed == s.removed + DotsOf(s.adds, op.element)
    ensures t == Apply(s, op, d)
  {
  }

  lemma RemoveApply(log: Log, m: Mutation, v: VersionVector)
    requires LogOk(log) && Fresh(log, m) && m.op.Remove? && Covers(v, m.dot)
    requires !Covers(m.observed, m.dot)
    requires SameCover(log, m.key, ORSetType, v, m.observed)
    ensures Interp(log + [m], m.key, ORSetType, v) == Apply(Interp(log, m.key, ORSetType, v), m.op, m.dot)
  {
    AddedNoAdd(log, m, m.key, v);
    KilledApply(log, m, v);
    AddedDotsOf(log, m.key, v, m.op.element);
    RemoveApplied(Interp(log, m.key, ORSetType, v), Interp(log + [m], m.key, ORSetType, v), m.op, m.dot);
  }

  lemma OverwrittenOnly(log: Log, m: Mutation, v: VersionVector, d: Dot)
    requires LogOk(log) && Fresh(log, m) && m.op.Write?
    requires !Covers(m.observed, m.dot)
    requires SameCover(log, m.key, MVRegisterType, v, m.observed)
    requires d in Overwritten(log + [m], m.key, v)
    ensures d in Overwritten(log, m.key, v) || d in Writes(log, m.key, v)
  {
    var r, x :| r in log + [m] && x in log + [m] && Covers(v, r.dot) && Overwrites(r, x, m.key) && x.dot == d;
    if r == m {
      OverwrittenByNew(log, m, v, x);
    } else {
      assert r in log;
      NobodySawFresh(log, m, r);
      assert x != m && x in log;
    }
  }

  lemma OverwrittenByNew(log: Log, m: Mutation, v: VersionVector, x: Mutation)
    requires m.op.Write? && x in log + [m] && Overwrites(m, x, m.key) && !Covers(m.observed, m.dot)
    requires SameCover(log, m.key, MVRegisterType, v, m.observed)
    ensures x.dot in Writes(log, m.key, v)
  {
  }

  lemma OverwrittenAll(log: Log, m: Mutation, v: VersionVector, d: Dot)
    requires m.op.Write? && Covers(v, m.dot)
    requires SameCover(log, m.key, MVRegisterType, v, m.observed)
    requires d in Overwritten(log, m.key, v) || d in Writes(log, m.key, v)
    ensures d in Overwritten(log + [m], m.key, v)
  {
  }

  lemma OverwrittenApply(log: Log, m: Mutation, v: VersionVector)
    requires LogOk(log) && Fresh(log, m) && m.op.Write? && Covers(v, m.dot)
    requires !Covers(m.observed, m.dot)
    requires SameCover(log, m.key, MVRegisterType, v, m.observed)
    ensures Overwritten(log + [m], m.key, v) == Overwritten(log, m.key, v) + Writes(log, m.key, v)
  {
    var l, r := Overwritten(log + [m], m.key, v), Overwritten(log, m.key, v) + Writes(log, m.key, v);
    forall d ensures d in l <==> d in r {
      if d in l {
        OverwrittenOnly(log, m, v, d);
      } else if d in r {
        OverwrittenAll(log, m, v, d);
      }
    }
  }

  lemma WritesApply(log: Log, m: Mutation, v: VersionVector)
    requires LogOk(log) && Fresh(log, m) && m.op.Write? && Covers(v, m.dot)
    ensures Interp(log + [m], m.key, MVRegisterType, v).values
         == Interp(log, m.key, MVRegisterType, v).values[m.dot := m.op.json]
  {
  }

  lemma RegisterApplied(s: State, t: State, op: Op, d: Dot)
    requires s.MVRegister? && t.MVRegister? && op.Write?
    requires t.values == s.values[d := op.json] && t.superseded == s.superseded + s.values.Keys
    ensures t == Apply(s, op, d)
  {
  }

  lemma WriteApply(log: Log, m: Mutation, v: VersionVector)
    requires LogOk(log) && Fresh(log, m) && m.op.Write? && Covers(v, m.dot)
    requires !Covers(m.observed, m.dot)
    requires SameCover(log, m.key, MVRegisterType, v, m.observed)
    ensures Interp(log + [m], m.key, MVRegisterType, v) == Apply(Interp(log, m.key, MVRegisterType, v), m.op, m.dot)
  {
    WritesApply(log, m, v);
    OverwrittenApply(log, m, v);
    RegisterApplied(Interp(log, m.key, MVRegisterType, v), Interp(log + [m], m.key, MVRegisterType, v), m.op, m.dot);
  }

  /**
   Committing a mutation and advancing the version by its dot is applying the operation to
   the state, provided the version covers everything the actor did to the key before.
   */
  lemma InterpApply(log: Log, m: Mutation, v: VersionVector)
    requires LogOk(log) && Fresh(log, m) && Bounded(log, m.observed)
    requires v == WithDot(m.observed, m.dot)
    requires forall x | x in log && On(x, m.key, m.op.Type()) && x.dot.actor == m.dot.actor ::
               Covers(m.observed, x.dot)
    ensures Interp(log + [m], m.key, m.op.Type(), v)
         == Apply(Interp(log, m.key, m.op.Type(), m.observed), m.op, m.dot)
  {
    var ty := m.op.Type();
    FreshUncovered(log, m.observed, m.dot);
    assert SameCover(log, m.key, ty, v, m.observed);
    InterpSame(log, m.key, ty, v, m.observed);
    InterpApplyCovered(log, m, v);
  }

  lemma CounterApply(log: Log, m: Mutation, v: VersionVector)
    requires m.op.Increment? || m.op.PNIncrement? || m.op.PNDecrement?
    requires Covers(v, m.dot)
    ensures Interp(log + [m], m.key, m.op.Type(), v) == Apply(Interp(log, m.key, m.op.Type(), v), m.op, m.dot)
  {
    if m.op.Increment? {
      ComponentsSnoc(log, m, m.key, Plain, v);
    } else {
      PNApply(log, m, v);
    }
  }

  lemma PNApply(log: Log, m: Mutation, v: VersionVector)
    requires (m.op.PNIncrement? || m.op.PNDecrement?) && Covers(v, m.dot)
    ensures Interp(log + [m], m.key, PNCounterType, v) == Apply(Interp(log, m.key, PNCounterType, v), m.op, m.dot)
  {
    ComponentsSnoc(log, m, m.key, Plus, v);
    ComponentsSnoc(log, m, m.key, Minus, v);
  }

  lemma AddApply(log: Log, m: Mutation, v: VersionVector)
    requires LogOk(log) && Fresh(log, m) && m.op.Add? && Covers(v, m.dot)
    requires !Covers(m.observed, m.dot)
    requires SameCover(log, m.key, ORSetType, v, m.observed)
    ensures Interp(log + [m], m.key, ORSetType, v) == Apply(Interp(log, m.key, ORSetType, v), m.op, m.dot)
  {
    AddedApply(log, m, v);
    KilledApply(log, m, v);
  }

  lemma InterpApplyCovered(log: Log, m: Mutation, v: VersionVector)
    requires LogOk(log) && Fresh(log, m) && Covers(v, m.dot) && !Covers(m.observed, m.dot)
    requires SameCover(log, m.key, m.op.Type(), v, m.observed)
    ensures Interp(log + [m], m.key, m.op.Type(), v) == Apply(Interp(log, m.key, m.op.Type(), v), m.op, m.dot)
  {
    match m.op
    case Add(_) => AddApply(log, m, v);
    case Remove(_) => RemoveApply(log, m, v);
    case Write(_) => WriteApply(log, m, v);
    case _ => CounterApply(log, m, v);
  }

  lemma {:induction false} InterpEmpty(log: Log, key: string, ty: CrdtType)
    ensures Interp(log, key, ty, map[]) == Empty(ty)
  {
  }

  // ---- What the client sees, said without reference to the CRDT states ----

  /** Some covered add of the element was seen by no covered remove of it. */
  ghost predicate Present(log: Log, key: string, e: string, v: VersionVector) {
    exists x :: x in log && IsAdd(x, key, e) && Covers(v, x.dot) &&
      !exists r :: r in log && Covers(v, r.dot) && Kills(r, x, key)
  }

  lemma KilledMeaning(log: Log, key: string, v: VersionVector, x: Mutation)
    requires LogOk(log) && x in log && x.op.Add? && x.key == key
    ensures x.dot in Killed(log, key, v) <==> exists r :: r in log && Covers(v, r.dot) && Kills(r, x, key)
  {
  }

  lemma ORSetMeaning(log: Log, key: string, v: VersionVector, e: string)
    requires LogOk(log)
    ensures e in Elements(Interp(log, key, ORSetType, v)) <==> Present(log, key, e, v)
  {
    var s := Interp(log, key, ORSetType, v);
    AddedDotsOf(log, key, v, e);
    if e in Elements(s) {
      var d :| d in s.adds[e] - s.removed;
      var x :| x in log && IsAdd(x, key, e) && Covers(v, x.dot) && x.dot == d;
      KilledMeaning(log, key, v, x);
    }
    if Present(log, key, e, v) {
      var x :| x in log && IsAdd(x, key, e) && Covers(v, x.dot) &&
        !exists r :: r in log && Covers(v, r.dot) && Kills(r, x, key);
      KilledMeaning(log, key, v, x);
      assert x.dot in AddDots(log, key, e, v);
      assert x.dot in s.adds[e] - s.removed;
    }
  }

  lemma {:induction false} TextAtWrite(log: Log, m: Mutation)
    requires LogOk(log) && m in log && m.op.Write?
    ensures TextAt(log, m.dot) == m.op.json
  {
    var n := |log| - 1;
    assert log == log[..n] + [log[n]];
    if log[n].dot == m.dot {
      DotsUnique(log, m, log[n]);
    } else {
      LogPrefix(log);
      TextAtWrite(log[..n], m);
    }
  }

  lemma LogPrefix(log: Log)
    requires LogOk(log) && log != []
    ensures LogOk(log[..|log| - 1])
  {
    var p := log[..|log| - 1];
    forall i | 0 <= i < |p| ensures Bounded(p[..i], p[i].observed) {
      assert p[..i] == log[..i];
    }
  }

  /** A register shows exactly the covered writes that no other covered write had seen, with their texts. */
  lemma MVRegisterMeaning(log: Log, key: string, v: VersionVector, m: Mutation)
    requires LogOk(log) && m in log
    ensures m.dot in Visible(Interp(log, key, MVRegisterType, v)) <==>
            && IsWrite(m, key) && Covers(v, m.dot)
            && !exists w :: w in log && w != m && Covers(v, w.dot) && Overwrites(w, m, key)
    ensures m.dot in Visible(Interp(log, key, MVRegisterType, v)) ==>
            Interp(log, key, MVRegisterType, v).values[m.dot] == m.op.json
  {
    var s := Interp(log, key, MVRegisterType, v);
    ObservedBounded(log, m);
    if m.dot in s.values {
      var x :| x in log && IsWrite(x, key) && Covers(v, x.dot) && x.dot == m.dot;
      DotsUnique(log, x, m);
      TextAtWrite(log, m);
    }
    if m.dot in s.superseded {
      var w, x :| w in log && x in log && Covers(v, w.dot) && Overwrites(w, x, key) && x.dot == m.dot;
      DotsUnique(log, x, m);
    }
  }

  /** A covered write of the key under this dot, with this text. */
  predicate WroteText(m: Mutation, key: string, v: VersionVector, d: Dot, text: string) {
    IsWrite(m, key) && Covers(v, m.dot) && m.dot == d && m.op.json == text
  }

  /** Every value a register shows was written, under its dot and with its text, by a logged and covered write. */
  lemma VisibleOnlyLogged(log: Log, key: string, v: VersionVector, d: Dot)
    requires LogOk(log) && d in Visible(Interp(log, key, MVRegisterType, v))
    ensures exists m | m in log :: WroteText(m, key, v, d, Interp(log, key, MVRegisterType, v).values[d])
  {
    var m :| m in log && IsWrite(m, key) && Covers(v, m.dot) && m.dot == d;
    MVRegisterMeaning(log, key, v, m);
    assert WroteText(m, key, v, d, Interp(log, key, MVRegisterType, v).values[d]);
  }

  /** The covered amounts of one side, over all actors, each mutation counted once. */
  function CoveredTotal(log: Log, key: string, side: Side, v: VersionVector): nat {
    if log == [] then 0 else
      var m := log[|log| - 1];
      CoveredTotal(log[..|log| - 1], key, side, v) +
      if m.key == key && Covers(v, m.dot) then Amount(m.op, side) else 0
  }

  /** A counter's value is the sum of the covered increments (less the covered decrements). */
  lemma {:induction false} CounterMeaning(log: Log, key: string, side: Side, v: VersionVector)
    ensures Total(Components(log, key, side, v)) == CoveredTotal(log, key, side, v)
  {
    if log == [] {
      assert Components(log, key, side, v) == map[];
    } else {
      var n := |log| - 1;
      CounterMeaning(log[..n], key, side, v);
      assert log == log[..n] + [log[n]];
      ComponentsSnoc(log[..n], log[n], key, side, v);
      if Amount(log[n].op, side) > 0 {
        TotalBump(Components(log[..n], key, side, v), log[n].dot.actor, Amount(log[n].op, side));
      }
    }
  }

  /** The meaning of a version has never heard of a dot above the log. */
  lemma InterpNewTo(log: Log, key: string, ty: CrdtType, v: VersionVector, d: Dot)
    requires LogOk(log) && Top(log, d.actor) < d.counter
    ensures NewTo(Interp(log, key, ty, v), d)
  {
    forall m | m in log ensures m.dot != d {
      TopCovers(log, m);
    }
    AddedSeparate(log, key, v);
  }

  lemma AddedSeparate(log: Log, key: string, v: VersionVector)
    requires LogOk(log)
    ensures SeparateDots(Added(log, key, v))
  {
    var adds := Added(log, key, v);
    forall x, y, d | x in adds && y in adds && x != y && d in adds[x] ensures d !in adds[y] {
      var m :| m in log && IsAdd(m, key, x) && m.dot == d;
      forall n | n in log && IsAdd(n, key, y) ensures n.dot != d {
        DotsDiffer(log, m, n);
      }
    }
  }

  lemma DotsDiffer(log: Log, m: Mutation, n: Mutation)
    requires LogOk(log) && m in log && n in log && m != n
    ensures m.dot != n.dot
  {
  }
}
