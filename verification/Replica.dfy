/**
 What every stored entry means: its state is the one its version stands for in the commit log.
 From that follow the facts anti-entropy relies on when it compares versions instead of states.
 */
module Replica {
  import opened Outcomes
  import opened Causal
  import opened Crdt
  import opened Storage
  import opened History

  /** The covered mutations of the key contain everything each of them had observed. */
  ghost predicate Closed(log: Log, key: string, ty: CrdtType, v: VersionVector) {
    forall m | m in log && On(m, key, ty) && Covers(v, m.dot) :: Dominates(v, m.observed)
  }

  ghost predicate EntryOk(log: Log, e: Entry) {
    && e.state == Interp(log, e.key, e.Type(), e.version)
    && Bounded(log, e.version)
    && Closed(log, e.key, e.Type(), e.version)
    && Dominates(e.context, e.version)
  }

  lemma EntryFrame(log: Log, m: Mutation, e: Entry)
    requires LogOk(log) && Fresh(log, m) && EntryOk(log, e)
    ensures EntryOk(log + [m], e)
  {
    InterpFrame(log, m, e.key, e.Type(), e.version);
    BoundedSnoc(log, m, e.version);
    FreshUncovered(log, e.version, m.dot);
  }

  /** The context plays no part in what an entry's state means. */
  lemma ContextFree(log: Log, e: Entry, context: VersionVector)
    requires EntryOk(log, e) && Dominates(context, e.context)
    ensures EntryOk(log, e.(context := context))
  {
  }

  lemma ClosedJoin(log: Log, key: string, ty: CrdtType, u: VersionVector, v: VersionVector)
    requires Closed(log, key, ty, u) && Closed(log, key, ty, v)
    ensures Closed(log, key, ty, Merge(u, v))
  {
  }

  /**
   Merging two good entries of one key and type always succeeds, in particular no register
   ever finds one dot under two values, and the result is again a good entry.
   */
  lemma MergeOk(log: Log, l: Entry, r: Entry)
    requires EntryOk(log, l) && EntryOk(log, r) && l.key == r.key
    ensures l.Type() == r.Type() <==> MergeEntries(l, r).Ok?
    ensures l.Type() == r.Type() ==> EntryOk(log, MergeEntries(l, r).value)
  {
    if l.Type() == r.Type() {
      var m := Entry(l.key, Interp(log, l.key, l.Type(), Merge(l.version, r.version)),
                     Merge(l.version, r.version), Merge(l.context, r.context));
      InterpJoin(log, l.key, l.Type(), l.version, r.version);
      assert MergeEntries(l, r) == Ok(m);
      ClosedJoin(log, l.key, l.Type(), l.version, r.version);
      MergeIsJoin(l.version, r.version, m.context);
      MergeIsJoin(l.context, r.context, l.context);
      DominatesTransitive(m.context, l.context, l.version);
      DominatesTransitive(m.context, r.context, r.version);
    }
  }

  /** Equal versions mean equal states: a digest may stand for the state it summarises. */
  lemma VersionDeterminesState(log: Log, l: Entry, r: Entry)
    requires EntryOk(log, l) && EntryOk(log, r) && l.key == r.key && l.Type() == r.Type()
    requires l.version == r.version
    ensures l.state == r.state
  {
  }

  /** A dominating version already contains the other's state. */
  lemma DominatingAbsorbs(log: Log, l: Entry, r: Entry)
    requires EntryOk(log, l) && EntryOk(log, r) && l.key == r.key && l.Type() == r.Type()
    requires Dominates(l.version, r.version)
    ensures MergeEntries(l, r) == Ok(l.(context := Merge(l.context, r.context)))
    ensures MergeEntries(r, l) == Ok(l.(context := Merge(l.context, r.context)))
  {
    InterpJoin(log, l.key, l.Type(), l.version, r.version);
    InterpJoin(log, l.key, l.Type(), r.version, l.version);
    MergeAbsorbs(l.version, r.version);
    MergeLaws(l.version, r.version, l.version);
    MergeLaws(l.context, r.context, l.context);
  }

  lemma MergeValue(log: Log, l: Entry, r: Entry)
    requires EntryOk(log, l) && EntryOk(log, r) && l.key == r.key && l.Type() == r.Type()
    ensures MergeEntries(l, r) == Ok(Entry(l.key, Interp(log, l.key, l.Type(), Merge(l.version, r.version)),
                                           Merge(l.version, r.version), Merge(l.context, r.context)))
  {
    InterpJoin(log, l.key, l.Type(), l.version, r.version);
  }

  /** On good entries, merging is commutative, associative and idempotent. */
  lemma MergeIsSemilattice(log: Log, a: Entry, b: Entry, c: Entry)
    requires EntryOk(log, a) && EntryOk(log, b) && EntryOk(log, c)
    requires a.key == b.key == c.key && a.Type() == b.Type() == c.Type()
    ensures MergeEntries(a, b) == MergeEntries(b, a)
    ensures MergeEntries(a, a) == Ok(a)
    ensures MergeEntries(a, b).Ok? && MergeEntries(b, c).Ok?
    ensures MergeEntries(MergeEntries(a, b).value, c) == MergeEntries(a, MergeEntries(b, c).value)
  {
    MergeValue(log, a, b);
    MergeValue(log, b, a);
    MergeValue(log, a, a);
    MergeValue(log, b, c);
    MergeOk(log, a, b);
    MergeOk(log, b, c);
    MergeValue(log, MergeEntries(a, b).value, c);
    MergeValue(log, a, MergeEntries(b, c).value);
    MergeLaws(a.version, b.version, c.version);
    MergeLaws(a.context, b.context, c.context);
  }

  /** What has been merged in once changes nothing the second time. */
  lemma JoinAbsorbs(log: Log, l: Entry, r: Entry)
    requires EntryOk(log, l) && EntryOk(log, r) && l.key == r.key && l.Type() == r.Type()
    ensures MergeEntries(l, r).Ok? && MergeEntries(r, l) == MergeEntries(l, r)
    ensures MergeEntries(r, MergeEntries(l, r).value) == MergeEntries(l, r)
  {
    MergeIsSemilattice(log, r, r, l);
    MergeIsSemilattice(log, l, r, r);
  }
}
