/**
 Every interleaving of outbox operations in which each reservation is published or
 cancelled once and each handed-out item is completed or abandoned once.

 Taking a pair from the ready queue and claiming it are two steps, so other operations may
 come in between. The world also remembers, for each pair, what was published and which of
 it was handed out.
 */
module OutboxRuns {
  import opened Outcomes
  import opened Storage
  import opened Order
  import opened Outbox

  datatype Item = Item(generation: nat, state: Entry)

  datatype World = World(
    box: Box,
    live: map<nat, seq<Target>>,          // reservations not yet published or cancelled
    popped: multiset<Target>,             // taken from the ready queue, not yet claimed
    held: map<Target, Item>,              // handed to a worker, not yet completed
    published: map<Target, seq<Entry>>,
    taken: map<Target, seq<nat>>)         // indices into published, in hand-out order

  datatype Step =
    | ReserveStep(id: nat, pairs: seq<Target>)
    | CancelStep(id: nat)
    | PublishStep(id: nat, states: map<Key, Entry>)
    | PopStep
    | ClaimStep(p: Target)
    | CompleteStep(p: Target)

  function Past(published: map<Target, seq<Entry>>, p: Target): seq<Entry> {
    if p in published then published[p] else []
  }

  function Taken(taken: map<Target, seq<nat>>, p: Target): seq<nat> {
    if p in taken then taken[p] else []
  }

  function Appended(published: map<Target, seq<Entry>>, pairs: seq<Target>, states: map<Key, Entry>): map<Target, seq<Entry>>
    requires forall p | p in pairs :: p.key in states
  {
    map p | p in published.Keys + ToSet(pairs) ::
      if p in pairs then Past(published, p) + [states[p.key]] else published[p]
  }

  function DoReserve(w: World, id: nat, pairs: seq<Target>): World {
    if id in w.live || !Distinct(pairs) then w
    else
      match Reserve(w.box, pairs)
      case Err(_) => w
      case Ok(b) => w.(box := b, live := w.live[id := pairs])
  }

  function DoCancel(w: World, id: nat): World {
    if id !in w.live then w
    else w.(box := Cancel(w.box, w.live[id]), live := w.live - {id})
  }

  /** publish_write passes one state for the one key all pairs share; without it there is no publish. */
  function DoPublish(w: World, id: nat, states: map<Key, Entry>): World {
    if id !in w.live || exists p :: p in w.live[id] && p.key !in states then w
    else
      var x := Publish(w.box, w.live[id], states);
      w.(box := AfterPublish(w.box, w.live[id], states),
         live := w.live - {id},
         published := if x.failed then w.published else Appended(w.published, w.live[id], states))
  }

  function DoPop(w: World): World {
    if w.box.ready == [] then w
    else w.(box := w.box.(ready := w.box.ready[1..]), popped := w.popped + multiset{w.box.ready[0]})
  }

  function DoClaim(w: World, p: Target): World {
    if p !in w.popped then w
    else if !Claimable(w.box, p) then w.(popped := w.popped - multiset{p})
    else w.(popped := w.popped - multiset{p}, box := Claim(w.box, p),
            held := w.held[p := Item(w.box.pending[p].generation, w.box.pending[p].state.value)],
            taken := w.taken[p := Taken(w.taken, p) + if Past(w.published, p) == [] then [] else [|Past(w.published, p)| - 1]])
  }

  function DoComplete(w: World, p: Target): World {
    if p !in w.held then w
    else w.(box := Settle(w.box, p, w.held[p].generation), held := w.held - {p})
  }

  function Do(w: World, step: Step): World {
    match step
    case ReserveStep(id, pairs) => DoReserve(w, id, pairs)
    case CancelStep(id) => DoCancel(w, id)
    case PublishStep(id, states) => DoPublish(w, id, states)
    case PopStep => DoPop(w)
    case ClaimStep(p) => DoClaim(w, p)
    case CompleteStep(p) => DoComplete(w, p)
  }

  function Start(capacity: nat): World {
    World(Box(capacity, map[], []), map[], multiset{}, map[], map[], map[])
  }

  function Run(capacity: nat, steps: seq<Step>): World {
    if steps == [] then Start(capacity) else Do(Run(capacity, steps[..|steps| - 1]), steps[|steps| - 1])
  }

  // ---- What holds of each pair ----

  /** The outstanding reservations that name the pair. */
  function Naming(live: map<nat, seq<Target>>, p: Target): set<nat> {
    set id | id in live && p in live[id]
  }

  /** How often the pair waits to be claimed. */
  function Waiting(w: World, p: Target): nat {
    multiset(w.box.ready)[p] + w.popped[p]
  }

  predicate Increasing(s: seq<nat>, bound: nat) {
    (forall i | 0 <= i < |s| :: s[i] < bound) && forall i, j | 0 <= i < j < |s| :: s[i] < s[j]
  }

  /** The last published state has been handed out. */
  predicate Drained(past: seq<Entry>, taken: seq<nat>) {
    past == [] || (taken != [] && taken[|taken| - 1] == |past| - 1)
  }

  /** Something newer than the last hand-out is waiting. */
  predicate Behind(past: seq<Entry>, taken: seq<nat>) {
    past != [] && (taken == [] || taken[|taken| - 1] < |past| - 1)
  }

  /** The held item against the generation counter: their distance is the number of newer states. */
  predicate Flying(c: Pending, item: Item, past: seq<Entry>, taken: seq<nat>) {
    && taken != [] && taken[|taken| - 1] < |past|
    && item.generation <= c.generation
    && item.state == past[taken[|taken| - 1]]
    && taken[|taken| - 1] + (c.generation - item.generation) == |past| - 1
  }

  predicate SlotOk(w: World, p: Target, c: Pending) {
    var past, taken := Past(w.published, p), Taken(w.taken, p);
    && c.reservations == |Naming(w.live, p)|
    && Waiting(w, p) == (if c.queued then 1 else 0)
    && !(c.queued && c.inFlight)
    && (c.inFlight <==> p in w.held)
    && (c.state.Some? <==> c.queued || c.inFlight)
    && (c.reservations > 0 || c.queued || c.inFlight)
    && (c.state.Some? ==> past != [] && c.state.value == past[|past| - 1])
    && (c.state.None? ==> Drained(past, taken))
    && (c.queued ==> Behind(past, taken))
    && (c.inFlight ==> p in w.held && Flying(c, w.held[p], past, taken))
  }

  predicate PairOk(w: World, p: Target) {
    && Increasing(Taken(w.taken, p), |Past(w.published, p)|)
    && (if p in w.box.pending then SlotOk(w, p, w.box.pending[p])
        else && Naming(w.live, p) == {} && Waiting(w, p) == 0 && p !in w.held
             && Drained(Past(w.published, p), Taken(w.taken, p)))
  }

  ghost predicate Inv(w: World) {
    && |w.box.pending| <= w.box.capacity
    && (forall id | id in w.live :: Distinct(w.live[id]))
    && (forall p :: PairOk(w, p))
  }

  // ---- Counting reservations ----

  lemma NamingAdd(live: map<nat, seq<Target>>, id: nat, pairs: seq<Target>, p: Target)
    requires id !in live
    ensures |Naming(live[id := pairs], p)| == |Naming(live, p)| + if p in pairs then 1 else 0
    ensures p !in pairs ==> Naming(live[id := pairs], p) == Naming(live, p)
  {
    if p in pairs {
      assert Naming(live[id := pairs], p) == Naming(live, p) + {id};
    } else {
      assert Naming(live[id := pairs], p) == Naming(live, p);
    }
  }

  lemma NamingRemove(live: map<nat, seq<Target>>, id: nat, p: Target)
    requires id in live
    ensures |Naming(live - {id}, p)| == |Naming(live, p)| - if p in live[id] then 1 else 0
    ensures p !in live[id] ==> Naming(live - {id}, p) == Naming(live, p)
    ensures p in live[id] ==> |Naming(live, p)| > 0
  {
    if p in live[id] {
      assert Naming(live - {id}, p) == Naming(live, p) - {id};
      assert id in Naming(live, p);
    } else {
      assert Naming(live - {id}, p) == Naming(live, p);
    }
  }

  // ---- Each step keeps the invariant ----

  lemma ReserveKeepsPair(w: World, id: nat, pairs: seq<Target>, p: Target)
    requires PairOk(w, p)
    ensures PairOk(DoReserve(w, id, pairs), p)
  {
    var w' := DoReserve(w, id, pairs);
    if w' != w {
      NamingAdd(w.live, id, pairs, p);
      if p in pairs {
        assert p in w'.box.pending;
      }
    }
  }

  lemma ReserveCapacity(w: World, id: nat, pairs: seq<Target>)
    requires |w.box.pending| <= w.box.capacity
    ensures |DoReserve(w, id, pairs).box.pending| <= w.box.capacity
  {
    var w' := DoReserve(w, id, pairs);
    if w' != w {
      var a, b := w.box.pending.Keys, ToSet(pairs);
      assert w'.box.pending.Keys == a + (b - a);
      assert |a + (b - a)| == |a| + |b - a|;
    }
  }

  lemma CancelKeepsPair(w: World, id: nat, p: Target)
    requires PairOk(w, p)
    ensures PairOk(DoCancel(w, id), p)
  {
    if id in w.live {
      NamingRemove(w.live, id, p);
    }
  }

  lemma SmallerMap(a: map<Target, Pending>, b: map<Target, Pending>)
    requires a.Keys <= b.Keys
    ensures |a| <= |b|
  {
    assert |b.Keys| == |a.Keys| + |b.Keys - a.Keys| by {
      assert b.Keys == a.Keys + (b.Keys - a.Keys);
    }
  }

  /** In a good world every live reservation can be published. */
  lemma LivePublishable(w: World, id: nat, states: map<Key, Entry>, p: Target)
    requires PairOk(w, p) && id in w.live && p in w.live[id] && p.key in states
    ensures Publishable(w.box, p, states)
  {
    assert id in Naming(w.live, p);
  }

  lemma AllPublishable(w: World, id: nat, states: map<Key, Entry>)
    requires Inv(w) && id in w.live && forall q | q in w.live[id] :: q.key in states
    ensures forall q | q in ToSet(w.live[id]) :: Publishable(w.box, q, states)
  {
    forall q | q in ToSet(w.live[id]) ensures Publishable(w.box, q, states) {
      assert PairOk(w, q);
      LivePublishable(w, id, states, q);
    }
  }

  lemma PublishKeepsPair(w: World, id: nat, states: map<Key, Entry>, p: Target)
    requires Inv(w)
    ensures PairOk(DoPublish(w, id, states), p)
  {
    assert PairOk(w, p);
    if id in w.live && forall q | q in w.live[id] :: q.key in states {
      var pairs := w.live[id];
      var w' := DoPublish(w, id, states);
      AllPublishable(w, id, states);
      PublishedBox(w.box, pairs, states, p);
      assert w'.box == AfterPublish(w.box, pairs, states);
      NamingRemove(w.live, id, p);
      PublishedPair(w, w', pairs, states, p);
    }
  }

  lemma PublishedBox(b: Box, pairs: seq<Target>, states: map<Key, Entry>, p: Target)
    requires Distinct(pairs) && forall q | q in ToSet(pairs) :: Publishable(b, q, states)
    ensures !Publish(b, pairs, states).failed
    ensures var b' := AfterPublish(b, pairs, states);
            && b'.pending.Keys == b.pending.Keys
            && (p in pairs ==> Publishable(b, p, states) && b'.pending[p] == Published(b.pending[p], states[p.key]))
            && (p !in pairs && p in b.pending ==> b'.pending[p] == b.pending[p])
            && multiset(b'.ready)[p] == multiset(b.ready)[p] + if p in pairs && Wakes(Slot(b.pending, p)) then 1 else 0
  {
    PublishAt(b, pairs, states, p);
  }

  lemma PublishedPair(w: World, w': World, pairs: seq<Target>, states: map<Key, Entry>, p: Target)
    requires PairOk(w, p) && w'.held == w.held && w'.taken == w.taken && w'.popped == w.popped
    requires forall q | q in pairs :: q.key in states
    requires w'.published == Appended(w.published, pairs, states)
    requires w'.box.pending.Keys == w.box.pending.Keys
    requires p in pairs ==> p in w.box.pending && w.box.pending[p].reservations > 0
    requires p in pairs ==> w'.box.pending[p] == Published(w.box.pending[p], states[p.key])
    requires p !in pairs && p in w.box.pending ==> w'.box.pending[p] == w.box.pending[p]
    requires multiset(w'.box.ready)[p] ==
             multiset(w.box.ready)[p] + if p in pairs && Wakes(Slot(w.box.pending, p)) then 1 else 0
    requires |Naming(w'.live, p)| == |Naming(w.live, p)| - if p in pairs then 1 else 0
    requires p !in pairs ==> Naming(w'.live, p) == Naming(w.live, p)
    ensures PairOk(w', p)
  {
    var past, past' := Past(w.published, p), Past(w'.published, p);
    assert past' == if p in pairs then past + [states[p.key]] else past;
  }

  lemma PopKeepsPair(w: World, p: Target)
    requires PairOk(w, p)
    ensures PairOk(DoPop(w), p)
  {
    if w.box.ready != [] {
      assert w.box.ready == [w.box.ready[0]] + w.box.ready[1..];
      assert Waiting(DoPop(w), p) == Waiting(w, p);
    }
  }

  lemma ClaimKeepsPair(w: World, q: Target, p: Target)
    requires Inv(w)
    ensures PairOk(DoClaim(w, q), p)
  {
    assert PairOk(w, p) && PairOk(w, q);
    if q in w.popped && p == q {
      ClaimedPair(w, p);
    }
  }

  lemma ClaimedPair(w: World, p: Target)
    requires PairOk(w, p) && p in w.popped
    ensures Claimable(w.box, p)
    ensures PairOk(DoClaim(w, p), p)
  {
    assert Waiting(w, p) > 0;
    var w' := DoClaim(w, p);
    var past, taken := Past(w.published, p), Taken(w.taken, p);
    assert w.box.pending[p].queued && Behind(past, taken);
    assert Taken(w'.taken, p) == taken + [|past| - 1];
    IncreasingSnoc(taken, |past|);
  }

  lemma IncreasingSnoc(taken: seq<nat>, bound: nat)
    requires Increasing(taken, bound) && bound > 0 && (taken == [] || taken[|taken| - 1] < bound - 1)
    ensures Increasing(taken + [bound - 1], bound)
  {
  }

  lemma CompleteKeepsPair(w: World, q: Target, p: Target)
    requires PairOk(w, p) && PairOk(w, q)
    ensures PairOk(DoComplete(w, q), p)
  {
    if q in w.held {
      if p == q {
        CompletedPair(w, p);
      } else {
        assert multiset(w.box.ready + [q])[p] == multiset(w.box.ready)[p];
      }
    }
  }

  lemma CompletedPair(w: World, p: Target)
    requires PairOk(w, p) && p in w.held
    ensures PairOk(DoComplete(w, p), p)
  {
  }

  lemma StepKeepsPair(w: World, step: Step, p: Target)
    requires Inv(w)
    ensures PairOk(Do(w, step), p)
  {
    assert PairOk(w, p);
    match step
    case ReserveStep(id, pairs) => ReserveKeepsPair(w, id, pairs, p);
    case CancelStep(id) => CancelKeepsPair(w, id, p);
    case PublishStep(id, states) => PublishKeepsPair(w, id, states, p);
    case PopStep => PopKeepsPair(w, p);
    case ClaimStep(q) => ClaimKeepsPair(w, q, p);
    case CompleteStep(q) => assert PairOk(w, q); CompleteKeepsPair(w, q, p);
  }

  lemma StepKeeps(w: World, step: Step)
    requires Inv(w)
    ensures Inv(Do(w, step)) && Do(w, step).box.capacity == w.box.capacity
  {
    forall p ensures PairOk(Do(w, step), p) {
      StepKeepsPair(w, step, p);
    }
    StepCapacity(w, step);
    StepReservations(w, step);
  }

  lemma StepReservations(w: World, step: Step)
    requires forall id | id in w.live :: Distinct(w.live[id])
    ensures Do(w, step).box.capacity == w.box.capacity
    ensures forall id | id in Do(w, step).live :: Distinct(Do(w, step).live[id])
  {
    match step
    case ReserveStep(id, pairs) => ReserveReservations(w, id, pairs);
    case PublishStep(id, states) => PublishReservations(w, id, states);
    case _ =>
  }

  lemma ReserveReservations(w: World, id: nat, pairs: seq<Target>)
    requires forall i | i in w.live :: Distinct(w.live[i])
    ensures DoReserve(w, id, pairs).box.capacity == w.box.capacity
    ensures forall i | i in DoReserve(w, id, pairs).live :: Distinct(DoReserve(w, id, pairs).live[i])
  {
  }

  lemma PublishReservations(w: World, id: nat, states: map<Key, Entry>)
    requires forall i | i in w.live :: Distinct(w.live[i])
    ensures DoPublish(w, id, states).box.capacity == w.box.capacity
    ensures forall i | i in DoPublish(w, id, states).live :: Distinct(DoPublish(w, id, states).live[i])
  {
  }

  lemma StepCapacity(w: World, step: Step)
    requires Inv(w)
    ensures |Do(w, step).box.pending| <= Do(w, step).box.capacity
  {
    match step
    case ReserveStep(id, pairs) => ReserveCapacity(w, id, pairs);
    case PublishStep(id, states) => PublishCapacity(w, id, states);
    case _ => SmallerMap(Do(w, step).box.pending, w.box.pending);
  }

  lemma PublishCapacity(w: World, id: nat, states: map<Key, Entry>)
    requires Inv(w)
    ensures |DoPublish(w, id, states).box.pending| <= w.box.capacity
  {
    if id in w.live && forall q | q in w.live[id] :: q.key in states {
      AllPublishable(w, id, states);
      if w.live[id] != [] {
        PublishAt(w.box, w.live[id], states, w.live[id][0]);
      }
      SmallerMap(DoPublish(w, id, states).box.pending, w.box.pending);
    }
  }

  lemma {:induction false} RunKeeps(capacity: nat, steps: seq<Step>)
    ensures Inv(Run(capacity, steps)) && Run(capacity, steps).box.capacity == capacity
  {
    if steps != [] {
      RunKeeps(capacity, steps[..|steps| - 1]);
      StepKeeps(Run(capacity, steps[..|steps| - 1]), steps[|steps| - 1]);
    }
  }

  // ---- What the invariant says of every interleaving ----

  /** One worker per pair: while a pair is held it is neither queued nor waiting, so it cannot be claimed again. */
  lemma HeldByOneWorker(capacity: nat, steps: seq<Step>, p: Target)
    requires p in Run(capacity, steps).held
    ensures var w := Run(capacity, steps);
            && p in w.box.pending && w.box.pending[p].inFlight && !w.box.pending[p].queued
            && p !in w.popped && p !in w.box.ready && DoClaim(w, p) == w
  {
    RunKeeps(capacity, steps);
    assert PairOk(Run(capacity, steps), p);
    assert Waiting(Run(capacity, steps), p) == 0;
  }

  /** A queued pair sits in the queue, or between queue and claim, exactly once; every other pair never. */
  lemma QueuedOnce(capacity: nat, steps: seq<Step>, p: Target)
    ensures var w := Run(capacity, steps);
            Waiting(w, p) == if p in w.box.pending && w.box.pending[p].queued then 1 else 0
  {
    RunKeeps(capacity, steps);
    assert PairOk(Run(capacity, steps), p);
  }

  /** Capacity is never exceeded and never leaks: a pair is pending exactly while reserved, waiting or held. */
  lemma NoLeak(capacity: nat, steps: seq<Step>, p: Target)
    ensures var w := Run(capacity, steps);
            && |w.box.pending| <= capacity
            && (p in w.box.pending <==> Naming(w.live, p) != {} || Waiting(w, p) > 0 || p in w.held)
            && (p in w.box.pending ==> w.box.pending[p].reservations == |Naming(w.live, p)|)
  {
    RunKeeps(capacity, steps);
    var w := Run(capacity, steps);
    assert PairOk(w, p);
    if p in w.box.pending {
      assert SlotOk(w, p, w.box.pending[p]);
    }
  }

  // ---- First in, first out ----

  /** The pairs of the list that sleep, in the order of the list. */
  function Sleeping(b: Box, pairs: seq<Target>): seq<Target> {
    if pairs == [] then []
    else
      var p := pairs[|pairs| - 1];
      Sleeping(b, pairs[..|pairs| - 1]) + if Wakes(Slot(b.pending, p)) then [p] else []
  }

  lemma {:induction false} QueuedInOrder(b: Box, pairs: seq<Target>, states: map<Key, Entry>)
    requires Distinct(pairs) && forall q | q in ToSet(pairs) :: Publishable(b, q, states)
    ensures Publish(b, pairs, states).toQueue == Sleeping(b, pairs)
  {
    if pairs != [] {
      var n := |pairs| - 1;
      PrefixSet(pairs, n);
      assert pairs[..n + 1] == pairs;
      QueuedInOrder(b, pairs[..n], states);
      PublishAt(b, pairs[..n], states, pairs[n]);
    }
  }

  /** A step brings into the queue the sleeping pairs it publishes, or the pair whose worker returns to newer state. */
  function Entering(w: World, step: Step): seq<Target> {
    match step
    case PublishStep(id, states) =>
      if id in w.live && forall p | p in w.live[id] :: p.key in states then Sleeping(w.box, w.live[id]) else []
    case CompleteStep(p) =>
      if p in w.held && p in w.box.pending && w.box.pending[p].generation > w.held[p].generation then [p] else []
    case _ => []
  }

  /** Only taking from the queue removes a pair from it. */
  function Leaving(w: World, step: Step): seq<Target> {
    if step.PopStep? && w.box.ready != [] then [w.box.ready[0]] else []
  }

  lemma PublishQueue(w: World, id: nat, states: map<Key, Entry>)
    requires Inv(w)
    ensures DoPublish(w, id, states).box.ready == w.box.ready + Entering(w, PublishStep(id, states))
  {
    if id in w.live && forall p | p in w.live[id] :: p.key in states {
      AllPublishable(w, id, states);
      QueuedInOrder(w.box, w.live[id], states);
      PublishFails(w.box, w.live[id], states);
    }
  }

  lemma CompleteQueue(w: World, p: Target)
    requires PairOk(w, p)
    ensures DoComplete(w, p).box.ready == w.box.ready + Entering(w, CompleteStep(p))
  {
  }

  /** The queue after a step: what leaves was its head, what enters joins at its end. */
  lemma StepQueue(w: World, step: Step)
    requires Inv(w)
    ensures Leaving(w, step) + Do(w, step).box.ready == w.box.ready + Entering(w, step)
  {
    match step
    case PublishStep(id, states) => PublishQueue(w, id, states);
    case CompleteStep(p) => assert PairOk(w, p); CompleteQueue(w, p);
    case _ =>
  }

  function Entered(capacity: nat, steps: seq<Step>): seq<Target> {
    if steps == [] then []
    else
      var before := steps[..|steps| - 1];
      Entered(capacity, before) + Entering(Run(capacity, before), steps[|steps| - 1])
  }

  function Left(capacity: nat, steps: seq<Step>): seq<Target> {
    if steps == [] then []
    else
      var before := steps[..|steps| - 1];
      Left(capacity, before) + Leaving(Run(capacity, before), steps[|steps| - 1])
  }

  /** Pairs leave the queue in the order in which they entered it, and the queue holds those that have not left. */
  lemma {:induction false} FirstInFirstOut(capacity: nat, steps: seq<Step>)
    ensures Left(capacity, steps) + Run(capacity, steps).box.ready == Entered(capacity, steps)
  {
    if steps != [] {
      var before, last := steps[..|steps| - 1], steps[|steps| - 1];
      FirstInFirstOut(capacity, before);
      RunKeeps(capacity, before);
      var w := Run(capacity, before);
      StepQueue(w, last);
      Regroup(Left(capacity, before), Leaving(w, last), Do(w, last).box.ready, w.box.ready, Entering(w, last));
    }
  }

  lemma Regroup(left: seq<Target>, leaving: seq<Target>, after: seq<Target>, ready: seq<Target>, entering: seq<Target>)
    requires leaving + after == ready + entering
    ensures (left + leaving) + after == (left + ready) + entering
  {
    assert (left + leaving) + after == left + (leaving + after);
  }

  /** Publishing a reservation that is still outstanding never raises. */
  lemma LivePublishSucceeds(capacity: nat, steps: seq<Step>, id: nat, states: map<Key, Entry>)
    requires id in Run(capacity, steps).live
    requires forall p | p in Run(capacity, steps).live[id] :: p.key in states
    ensures !Publish(Run(capacity, steps).box, Run(capacity, steps).live[id], states).failed
  {
    RunKeeps(capacity, steps);
    var w := Run(capacity, steps);
    AllPublishable(w, id, states);
    PublishFails(w.box, w.live[id], states);
  }

  /** What a worker holds is the state it was last handed, one that was really published for the pair. */
  lemma HeldWasPublished(capacity: nat, steps: seq<Step>, p: Target)
    requires p in Run(capacity, steps).held
    ensures var w := Run(capacity, steps);
            var past, taken := Past(w.published, p), Taken(w.taken, p);
            taken != [] && taken[|taken| - 1] < |past| && w.held[p].state == past[taken[|taken| - 1]]
  {
    RunKeeps(capacity, steps);
    assert PairOk(Run(capacity, steps), p);
  }

  /**
   The states handed out for a pair are a strictly increasing subsequence of those published
   for it, and once nothing of the pair waits or is held the last one published was handed out.
   */
  lemma HandedOutInOrder(capacity: nat, steps: seq<Step>, p: Target)
    ensures var w := Run(capacity, steps);
            var past, taken := Past(w.published, p), Taken(w.taken, p);
            && Increasing(taken, |past|)
            && (Waiting(w, p) == 0 && p !in w.held ==> Drained(past, taken))
            && (Waiting(w, p) > 0 ==> Behind(past, taken) && p in w.box.pending && w.box.pending[p].state == Some(past[|past| - 1]))
  {
    RunKeeps(capacity, steps);
    assert PairOk(Run(capacity, steps), p);
  }
}
