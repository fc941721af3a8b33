/**
 The bounded, coalescing replication outbox (src/distsys/replication/outbox.py).

 The class performs the operations; the functions say what each does to the pending map
 and the ready queue; the step system proves what holds in every interleaving.
 */
module Outbox {
  import opened Outcomes
  import opened Causal
  import opened Storage
  import opened Order

  /** A peer and a key: at most one state per pair waits to be sent. */
  datatype Target = Target(peer: NodeId, key: Key)

  datatype Pending = Pending(
    generation: nat, state: Option<Entry>, queued: bool, inFlight: bool, reservations: nat)

  const Blank := Pending(0, None, false, false, 0)

  datatype Box = Box(capacity: nat, pending: map<Target, Pending>, ready: seq<Target>)

  // ---- reserve ----

  function Slot(pending: map<Target, Pending>, p: Target): Pending {
    if p in pending then pending[p] else Blank
  }

  function Raised(c: Pending): Pending {
    c.(reservations := c.reservations + 1)
  }

  function ReservedMap(pending: map<Target, Pending>, pairs: set<Target>): map<Target, Pending> {
    map p | p in pending.Keys + pairs :: if p in pairs then Raised(Slot(pending, p)) else pending[p]
  }

  /** All pairs are reserved, or none. */
  function Reserve(b: Box, pairs: seq<Target>): Result<Box> {
    if |b.pending| + |ToSet(pairs) - b.pending.Keys| > b.capacity then Err(Backpressure)
    else Ok(b.(pending := ReservedMap(b.pending, ToSet(pairs))))
  }

  // ---- cancel ----

  function Lowered(c: Pending): Pending {
    if c.reservations > 0 then c.(reservations := c.reservations - 1) else c
  }

  predicate Idle(c: Pending) {
    c.reservations == 0 && c.state.None? && !c.queued && !c.inFlight
  }

  function CancelledMap(pending: map<Target, Pending>, pairs: set<Target>): map<Target, Pending> {
    map p | p in pending && !(p in pairs && Idle(Lowered(pending[p]))) :: if p in pairs then Lowered(pending[p]) else pending[p]
  }

  function Cancel(b: Box, pairs: seq<Target>): Box {
    b.(pending := CancelledMap(b.pending, ToSet(pairs)))
  }

  // ---- publish ----

  function Published(c: Pending, state: Entry): Pending
    requires c.reservations > 0
  {
    c.(generation := c.generation + 1, state := Some(state), reservations := c.reservations - 1,
       queued := c.queued || !c.inFlight)
  }

  predicate Wakes(c: Pending) {
    !c.queued && !c.inFlight
  }

  /** What publish has done after some of the pairs; ready is touched only if all succeed. */
  datatype Publication = Publication(pending: map<Target, Pending>, toQueue: seq<Target>, failed: bool)

  function PublishOne(x: Publication, p: Target, states: map<Key, Entry>): Publication {
    if x.failed then x
    else if p.key !in states || p !in x.pending || x.pending[p].reservations < 1 then x.(failed := true)
    else Publication(x.pending[p := Published(x.pending[p], states[p.key])],
                     if Wakes(x.pending[p]) then x.toQueue + [p] else x.toQueue, false)
  }

  function PublishAll(x: Publication, pairs: seq<Target>, states: map<Key, Entry>): Publication {
    if pairs == [] then x
    else PublishOne(PublishAll(x, pairs[..|pairs| - 1], states), pairs[|pairs| - 1], states)
  }

  /** The pair has a state to send and a reservation to use up. */
  predicate Publishable(b: Box, p: Target, states: map<Key, Entry>) {
    p.key in states && p in b.pending && b.pending[p].reservations > 0
  }

  function Publish(b: Box, pairs: seq<Target>, states: map<Key, Entry>): Publication {
    PublishAll(Publication(b.pending, [], false), pairs, states)
  }

  /** The outbox after publish, whether it raised or not. */
  function AfterPublish(b: Box, pairs: seq<Target>, states: map<Key, Entry>): Box {
    var x := Publish(b, pairs, states);
    b.(pending := x.pending, ready := b.ready + if x.failed then [] else x.toQueue)
  }

  // ---- next_ready, complete, abandon ----

  predicate Claimable(b: Box, p: Target) {
    p in b.pending && b.pending[p].state.Some? && !b.pending[p].inFlight
  }

  function Claim(b: Box, p: Target): Box {
    if !Claimable(b, p) then b
    else b.(pending := b.pending[p := b.pending[p].(queued := false, inFlight := true)])
  }

  /** complete and abandon do the same: drop what was sent, or queue what came meanwhile. */
  function Settle(b: Box, p: Target, sent: nat): Box {
    if p !in b.pending then b
    else
      var c := b.pending[p].(inFlight := false);
      if c.generation == sent then
        if c.reservations == 0 then b.(pending := b.pending - {p})
        else b.(pending := b.pending[p := c.(state := None, queued := false)])
      else if !c.queued then
        b.(pending := b.pending[p := c.(queued := true)], ready := b.ready + [p])
      else b.(pending := b.pending[p := c])
  }

  class ReplicationOutbox {
    var capacity: nat
    var pending: map<Target, Pending>
    var ready: seq<Target>

    ghost function View(): Box
      reads this
    {
      Box(capacity, pending, ready)
    }

    constructor (capacity: nat)
      requires capacity >= 1
      ensures View() == Box(capacity, map[], [])
    {
      this.capacity, pending, ready := capacity, map[], [];
    }

    method ReservePairs(pairs: seq<Target>) returns (r: Result<seq<Target>>)
      modifies this
      ensures r.Ok? <==> Reserve(old(View()), pairs).Ok?
      ensures r.Ok? ==> Distinct(r.value) && ToSet(r.value) == ToSet(pairs) && Reserve(old(View()), pairs) == Ok(View())
      ensures r.Err? ==> r == Err(Backpressure) && View() == old(View())
    {
      var unique := Deduplicated(pairs);
      var created := CountNew(pending.Keys, unique);
      if |pending| + created > capacity {
        return Err(Backpressure);
      }
      pending := AddReservations(pending, unique);
      return Ok(unique);
    }

    method CancelReservation(pairs: seq<Target>)
      requires Distinct(pairs)
      modifies this
      ensures View() == Cancel(old(View()), pairs)
    {
      for i := 0 to |pairs|
        invariant capacity == old(capacity) && ready == old(ready)
        invariant pending == CancelledMap(old(pending), ToSet(pairs[..i]))
      {
        var p := pairs[i];
        PrefixSet(pairs, i);
        CancelledSnoc(old(pending), ToSet(pairs[..i]), p);
        if p in pending {
          if pending[p].reservations > 0 {
            pending := pending[p := pending[p].(reservations := pending[p].reservations - 1)];
          }
          if Idle(pending[p]) {
            pending := pending - {p};
          }
        }
      }
      assert pairs[..|pairs|] == pairs;
    }

    /** The first pair that cannot be published raises; earlier pairs stay changed, the queue does not. */
    method PublishStates(pairs: seq<Target>, states: map<Key, Entry>) returns (ok: bool)
      modifies this
      ensures ok == !Publish(old(View()), pairs, states).failed && View() == AfterPublish(old(View()), pairs, states)
    {
      var toQueue := [];
      for i := 0 to |pairs|
        invariant capacity == old(capacity) && ready == old(ready)
        invariant Publish(old(View()), pairs[..i], states) == Publication(pending, toQueue, false)
      {
        assert pairs[..i + 1][..i] == pairs[..i];
        var p := pairs[i];
        if p.key !in states || p !in pending || pending[p].reservations < 1 {
          PublishStops(Publication(old(pending), [], false), pairs, states, i + 1);
          return false;
        }
        if !pending[p].queued && !pending[p].inFlight {
          toQueue := toQueue + [p];
        }
        pending := pending[p := Published(pending[p], states[p.key])];
      }
      assert pairs[..|pairs|] == pairs;
      ready := ready + toQueue;
      return true;
    }

    /** next_ready after a pair was taken from the queue; None means the loop goes on to the next pair. */
    method ClaimPair(p: Target) returns (item: Option<(nat, Entry)>)
      modifies this
      ensures View() == Claim(old(View()), p)
      ensures item == if Claimable(old(View()), p) then Some((old(pending[p].generation), old(pending[p].state.value))) else None
    {
      if p !in pending || pending[p].state.None? || pending[p].inFlight {
        return None;
      }
      var c := pending[p];
      pending := pending[p := c.(queued := false, inFlight := true)];
      return Some((c.generation, c.state.value));
    }

    method Complete(p: Target, sent: nat)
      modifies this
      ensures View() == Settle(old(View()), p, sent)
    {
      if p !in pending {
        return;
      }
      var c := pending[p].(inFlight := false);
      pending := pending[p := c];
      if c.generation == sent {
        if c.reservations == 0 {
          pending := pending - {p};
          assert pending == old(pending) - {p};
        } else {
          pending := pending[p := c.(state := None, queued := false)];
        }
      } else if !c.queued {
        pending := pending[p := c.(queued := true)];
        ready := ready + [p];
      }
    }
  }

  /** tuple(dict.fromkeys(pairs)): the first occurrence of each pair. */
  method Deduplicated(pairs: seq<Target>) returns (unique: seq<Target>)
    ensures Distinct(unique) && ToSet(unique) == ToSet(pairs)
  {
    unique := [];
    for i := 0 to |pairs|
      invariant Distinct(unique) && ToSet(unique) == ToSet(pairs[..i])
    {
      ToSetSnoc(pairs, i);
      if pairs[i] !in unique {
        unique := unique + [pairs[i]];
        ToSetSnoc(unique, |unique| - 1);
        assert unique[..|unique|] == unique;
      }
    }
    assert pairs[..|pairs|] == pairs;
  }

  lemma PrefixSet(s: seq<Target>, i: nat)
    requires Distinct(s) && i < |s|
    ensures ToSet(s[..i + 1]) == ToSet(s[..i]) + {s[i]} && s[i] !in ToSet(s[..i])
  {
    ToSetSnoc(s, i);
  }

  /** How many of the pairs would be new to the outbox. */
  method CountNew(known: set<Target>, unique: seq<Target>) returns (n: nat)
    requires Distinct(unique)
    ensures n == |ToSet(unique) - known|
  {
    n := 0;
    for i := 0 to |unique|
      invariant n == |ToSet(unique[..i]) - known|
    {
      PrefixSet(unique, i);
      ghost var seen := ToSet(unique[..i]);
      if unique[i] !in known {
        assert (seen + {unique[i]}) - known == (seen - known) + {unique[i]};
        n := n + 1;
      } else {
        assert (seen + {unique[i]}) - known == seen - known;
      }
    }
    assert unique[..|unique|] == unique;
  }

  /** The two loops of reserve that create missing slots and count the reservation. */
  method AddReservations(pending: map<Target, Pending>, unique: seq<Target>) returns (result: map<Target, Pending>)
    requires Distinct(unique)
    ensures result == ReservedMap(pending, ToSet(unique))
  {
    result := pending;
    for i := 0 to |unique|
      invariant result == ReservedMap(pending, ToSet(unique[..i]))
    {
      var p := unique[i];
      PrefixSet(unique, i);
      ReservedSnoc(pending, ToSet(unique[..i]), p);
      if p !in result {
        result := result[p := Blank];
      }
      result := result[p := result[p].(reservations := result[p].reservations + 1)];
    }
    assert unique[..|unique|] == unique;
  }

  lemma CancelledSnoc(pending: map<Target, Pending>, s: set<Target>, p: Target)
    requires p !in s
    ensures var m := CancelledMap(pending, s);
            CancelledMap(pending, s + {p}) ==
            if p !in m then m else if Idle(Lowered(m[p])) then m - {p} else m[p := Lowered(m[p])]
  {
  }

  lemma ReservedSnoc(pending: map<Target, Pending>, s: set<Target>, p: Target)
    requires p !in s
    ensures var m := ReservedMap(pending, s); ReservedMap(pending, s + {p}) == m[p := Raised(Slot(m, p))]
  {
  }

  lemma {:induction false} PublishStops(x: Publication, pairs: seq<Target>, states: map<Key, Entry>, i: nat)
    requires i <= |pairs| && PublishAll(x, pairs[..i], states).failed
    ensures PublishAll(x, pairs, states) == PublishAll(x, pairs[..i], states)
  {
    if i < |pairs| {
      assert pairs[..|pairs| - 1][..i] == pairs[..i];
      PublishStops(x, pairs[..|pairs| - 1], states, i);
    } else {
      assert pairs[..i] == pairs;
    }
  }

  // ---- What reserve does ----

  /** A reservation is granted exactly when all pairs, old and new, fit; each named pair gains one, the others none. */
  lemma ReserveIff(b: Box, pairs: seq<Target>, p: Target)
    ensures Reserve(b, pairs).Ok? <==> |b.pending.Keys + ToSet(pairs)| <= b.capacity
    ensures Reserve(b, pairs).Ok? ==>
            var b' := Reserve(b, pairs).value;
            && b'.pending.Keys == b.pending.Keys + ToSet(pairs) && b'.ready == b.ready
            && (p in pairs || p in b.pending ==>
                b'.pending[p] == Slot(b.pending, p).(reservations := Slot(b.pending, p).reservations + if p in pairs then 1 else 0))
  {
    var a, c := b.pending.Keys, ToSet(pairs);
    assert a + c == a + (c - a);
    assert |a + (c - a)| == |a| + |c - a|;
  }

  // ---- What publish does to each pair ----

  /** Exactly the pairs in done are published, and exactly the sleeping ones among them are to be queued. */
  predicate PublishedAt(b: Box, done: set<Target>, states: map<Key, Entry>, x: Publication, p: Target) {
    && !x.failed && x.pending.Keys == b.pending.Keys
    && (p in done ==> Publishable(b, p, states) && x.pending[p] == Published(b.pending[p], states[p.key]))
    && (p !in done && p in b.pending ==> x.pending[p] == b.pending[p])
    && multiset(x.toQueue)[p] == if p in done && Wakes(Slot(b.pending, p)) then 1 else 0
  }

  lemma PublishedNext(b: Box, done: set<Target>, states: map<Key, Entry>, x: Publication, q: Target, p: Target)
    requires PublishedAt(b, done, states, x, p) && PublishedAt(b, done, states, x, q)
    requires q !in done
    ensures PublishOne(x, q, states).failed <==> !Publishable(b, q, states)
    ensures Publishable(b, q, states) ==> PublishedAt(b, done + {q}, states, PublishOne(x, q, states), p)
  {
  }

  /** When every pair is publishable, publish succeeds and treats each exactly once. */
  lemma {:induction false} PublishAt(b: Box, pairs: seq<Target>, states: map<Key, Entry>, p: Target)
    requires Distinct(pairs) && forall q | q in ToSet(pairs) :: Publishable(b, q, states)
    ensures PublishedAt(b, ToSet(pairs), states, Publish(b, pairs, states), p)
  {
    if pairs != [] {
      var n := |pairs| - 1;
      var q := pairs[n];
      PrefixSet(pairs, n);
      assert pairs[..n + 1] == pairs;
      PublishAt(b, pairs[..n], states, p);
      PublishAt(b, pairs[..n], states, q);
      PublishedNext(b, ToSet(pairs[..n]), states, Publish(b, pairs[..n], states), q, p);
    }
  }

  /** publish raises exactly when some pair lacks a state or a reservation of its own. */
  lemma {:induction false} PublishFails(b: Box, pairs: seq<Target>, states: map<Key, Entry>)
    requires Distinct(pairs)
    ensures Publish(b, pairs, states).failed <==> exists p | p in ToSet(pairs) :: !Publishable(b, p, states)
  {
    if pairs != [] {
      var n := |pairs| - 1;
      var q := pairs[n];
      PrefixSet(pairs, n);
      assert pairs[..n + 1] == pairs;
      PublishFails(b, pairs[..n], states);
      if !Publish(b, pairs[..n], states).failed {
        PublishAt(b, pairs[..n], states, q);
        PublishedNext(b, ToSet(pairs[..n]), states, Publish(b, pairs[..n], states), q, q);
      }
    }
  }

  // ---- What a publish that raises leaves behind ----

  /** Marked as queued by the call, although the queue has not been touched. */
  predicate Stranded(b: Box, b': Box, p: Target) {
    && b'.ready == b.ready && p in b'.pending && b'.pending[p].queued
    && !(p in b.pending && b.pending[p].queued)
  }

  lemma FailedPublish(b: Box, pairs: seq<Target>, states: map<Key, Entry>, j: nat)
    requires Distinct(pairs) && j < |pairs| && !Publishable(b, pairs[j], states)
    requires forall q | q in ToSet(pairs[..j]) :: Publishable(b, q, states)
    ensures Publish(b, pairs, states) == Publish(b, pairs[..j], states).(failed := true)
  {
    PrefixSet(pairs, j);
    PublishAt(b, pairs[..j], states, pairs[j]);
    PublishedNext(b, ToSet(pairs[..j]), states, Publish(b, pairs[..j], states), pairs[j], pairs[j]);
    assert pairs[..j + 1][..j] == pairs[..j];
    PublishStops(Publication(b.pending, [], false), pairs, states, j + 1);
  }

  /** A publish that raises at pair j strands exactly the sleeping pairs before j. */
  lemma FailedPublishStrands(b: Box, pairs: seq<Target>, states: map<Key, Entry>, j: nat, p: Target)
    requires Distinct(pairs) && j < |pairs| && !Publishable(b, pairs[j], states)
    requires forall q | q in ToSet(pairs[..j]) :: Publishable(b, q, states)
    ensures Publish(b, pairs, states).failed
    ensures Stranded(b, AfterPublish(b, pairs, states), p) <==> p in ToSet(pairs[..j]) && Wakes(Slot(b.pending, p))
  {
    FailedPublish(b, pairs, states, j);
    PublishAt(b, pairs[..j], states, p);
  }

  /** Marked as queued, in nobody's hands, and not in the queue. */
  predicate Stuck(b: Box, p: Target) {
    p in b.pending && b.pending[p].queued && !b.pending[p].inFlight && p !in b.ready
  }

  lemma {:induction false} PublishKeepsStuck(x: Publication, pairs: seq<Target>, states: map<Key, Entry>, p: Target)
    requires p in x.pending && x.pending[p].queued && !x.pending[p].inFlight && p !in x.toQueue
    ensures var y := PublishAll(x, pairs, states);
            p in y.pending && y.pending[p].queued && !y.pending[p].inFlight && p !in y.toQueue
  {
    if pairs != [] {
      PublishKeepsStuck(x, pairs[..|pairs| - 1], states, p);
    }
  }

  lemma StuckThroughReservations(b: Box, p: Target, pairs: seq<Target>)
    requires Stuck(b, p)
    ensures Reserve(b, pairs).Ok? ==> Stuck(Reserve(b, pairs).value, p)
    ensures Stuck(Cancel(b, pairs), p)
  {
  }

  lemma StuckThroughPublish(b: Box, p: Target, pairs: seq<Target>, states: map<Key, Entry>)
    requires Stuck(b, p)
    ensures Stuck(AfterPublish(b, pairs, states), p)
  {
    PublishKeepsStuck(Publication(b.pending, [], false), pairs, states, p);
  }

  lemma StuckThroughWork(b: Box, p: Target, q: Target, sent: nat)
    requires Stuck(b, p) && q != p
    ensures Stuck(Claim(b, q), p) && Stuck(Settle(b, q, sent), p)
  {
  }

  /**
   Nothing the outbox does afterwards frees a stuck pair: not a reservation, a cancellation or
   a publish, whether it raises or not, nor work on any other pair. Workers take pairs from
   the queue alone, so the pair's states are never sent again.
   */
  lemma StuckForGood(b: Box, p: Target, pairs: seq<Target>, states: map<Key, Entry>, q: Target, sent: nat)
    requires Stuck(b, p)
    ensures Reserve(b, pairs).Ok? ==> Stuck(Reserve(b, pairs).value, p)
    ensures Stuck(Cancel(b, pairs), p) && Stuck(AfterPublish(b, pairs, states), p)
    ensures q != p ==> Stuck(Claim(b, q), p) && Stuck(Settle(b, q, sent), p)
    ensures b.ready != [] ==> b.ready[0] != p && Stuck(b.(ready := b.ready[1..]), p)
  {
    StuckThroughReservations(b, p, pairs);
    StuckThroughPublish(b, p, pairs, states);
    if q != p {
      StuckThroughWork(b, p, q, sent);
    }
  }

  /** One uninterrupted turn of a worker: take the head of the queue, send it, complete it. */
  function Work(b: Box): Box
    requires b.ready != []
  {
    var p := b.ready[0];
    var taken := Claim(b.(ready := b.ready[1..]), p);
    if p in taken.pending then Settle(taken, p, taken.pending[p].generation) else taken
  }

  lemma ReserveTwo(p: Target, q: Target)
    requires p != q
    ensures Reserve(Box(2, map[], []), [p, q]) == Ok(Box(2, map[p := Raised(Blank), q := Raised(Blank)], []))
  {
    var none: map<Target, Pending> := map[];
    assert ToSet([p, q]) == {p, q} && {p, q} - none.Keys == {p, q} && |{p, q}| == 2 && |none| == 0;
    assert ReservedMap(none, {p, q}) == map[p := Raised(Blank), q := Raised(Blank)];
  }

  lemma ReserveAgain(b: Box, p: Target)
    requires p in b.pending && |b.pending| <= b.capacity
    ensures Reserve(b, [p]) == Ok(b.(pending := b.pending[p := Raised(b.pending[p])]))
  {
    assert ToSet([p]) == {p} && {p} - b.pending.Keys == {};
    assert ReservedMap(b.pending, {p}) == b.pending[p := Raised(b.pending[p])];
  }

  /** A worker's turn on a published pair: it stays, without a state, only if someone has reserved it. */
  lemma WorkOne(b: Box)
    requires b.ready != [] && Claimable(b, b.ready[0])
    ensures var p, rest := b.ready[0], b.(ready := b.ready[1..]);
            Work(b) == if b.pending[p].reservations == 0 then rest.(pending := b.pending - {p})
                       else rest.(pending := b.pending[p := b.pending[p].(state := None, queued := false, inFlight := false)])
  {
  }

  lemma PublishTwo(b: Box, p: Target, q: Target, states: map<Key, Entry>)
    requires p != q && Publishable(b, p, states) && Publishable(b, q, states) && Wakes(b.pending[p]) && Wakes(b.pending[q])
    ensures AfterPublish(b, [p, q], states) ==
            b.(pending := b.pending[p := Published(b.pending[p], states[p.key])][q := Published(b.pending[q], states[q.key])],
               ready := b.ready + [p, q])
  {
    var s := [p, q];
    assert s[..1] == [p] && s[..1][..0] == [];
    var x := Publication(b.pending, [], false);
    assert PublishAll(x, s[..1], states) == PublishOne(x, p, states);
  }

  /**
   Two writers reserve p, the first also q. The first publishes and a worker sends both. Then
   the first publishes its reservation again: it spends the other's on p, raises at q, and p
   is stuck.
   */
  lemma PublishedTwiceStrands(p: Target, q: Target, e: Entry) returns (first: Box, both: Box, sent: Box)
    requires p != q && p.key == q.key
    ensures Reserve(Box(2, map[], []), [p, q]) == Ok(first) && Reserve(first, [p]) == Ok(both)
    ensures var published := AfterPublish(both, [p, q], map[p.key := e]);
            published.ready == [p, q] && Work(published).ready == [q] && Work(Work(published)) == sent
    ensures Publish(sent, [p, q], map[p.key := e]).failed
    ensures Stuck(AfterPublish(sent, [p, q], map[p.key := e]), p)
  {
    ReserveTwo(p, q);
    first := Reserve(Box(2, map[], []), [p, q]).value;
    assert first.pending.Keys == {p, q};
    ReserveAgain(first, p);
    both := Reserve(first, [p]).value;
    sent := SentBoth(both, p, q, e);
    SecondPublish(sent, p, q, e);
  }

  lemma SentBoth(b: Box, p: Target, q: Target, e: Entry) returns (sent: Box)
    requires p != q && p.key == q.key
    requires b == Box(2, map[p := Raised(Raised(Blank)), q := Raised(Blank)], [])
    ensures var published := AfterPublish(b, [p, q], map[p.key := e]);
            published.ready == [p, q] && Work(published).ready == [q] && Work(Work(published)) == sent
    ensures sent == Box(2, map[p := Pending(1, None, false, false, 1)], [])
  {
    PublishTwo(b, p, q, map[p.key := e]);
    var published := AfterPublish(b, [p, q], map[p.key := e]);
    WorkOne(published);
    WorkOne(Work(published));
    sent := Box(2, map[p := Pending(1, None, false, false, 1)], []);
  }

  lemma SecondPublish(b: Box, p: Target, q: Target, e: Entry)
    requires p != q && p.key == q.key && b == Box(2, map[p := Pending(1, None, false, false, 1)], [])
    ensures Publish(b, [p, q], map[p.key := e]).failed
    ensures Stuck(AfterPublish(b, [p, q], map[p.key := e]), p)
  {
    var pairs, states := [p, q], map[p.key := e];
    assert pairs[..1] == [p] && ToSet([p]) == {p};
    FailedPublish(b, pairs, states, 1);
    PublishAt(b, pairs[..1], states, p);
  }
}
