/**
 Tokens and contexts do not speak about data.

 A context says what its holder has heard of, on any key; the state is described by the
 version alone. Causal repair raises a context by the frontiers of peers, so a read may
 succeed, with a context that dominates the session token, on an entry that lacks the
 session's own write and what the session has read before.

 The run: a holds the first increment of k and c has received it. A client increments k at a,
 reads it there, and increments j at b. Then it reads k at c. The repair reaches b alone,
 which has no k but knows the token, and c serves the first increment.
 */
module StaleRead {
  import opened Outcomes
  import opened Causal
  import opened Crdt
  import opened Storage
  import opened History
  import opened Node
  import opened Protocol
  import S = Sessions
  import R = SessionRuns

  const A := Actor("a", 1)
  const B := Actor("b", 1)
  const C := Actor("c", 1)
  const One: Op := Increment(1)

  const First := Entry("k", GCounter(map[A := 1]), map[A := 1], map[A := 1])
  const Second := Entry("k", GCounter(map[A := 2]), map[A := 2], map[A := 2])
  const Other := Entry("j", GCounter(map[B := 1]), map[B := 1], map[A := 2, B := 1])
  const Stale := First.(context := map[A := 2, B := 1])

  const Early := Mutation("k", One, Dot(A, 1), map[])
  const Own := Mutation("k", One, Dot(A, 2), map[A := 1])
  const Unrelated := Mutation("j", One, Dot(B, 1), map[])

  /** The client's token after its first write, and after its second. */
  const T1: VersionVector := map[A := 2]
  const T2: VersionVector := map[A := 2, B := 1]

  function At(actor: Actor, store: Entries, clock: VersionVector, held: set<Entry>, issued: set<VersionVector>): NodeState {
    NodeState(actor, false, true, store, clock, Database(map[], map[]), None, held, map[], issued)
  }

  function New(actor: Actor): NodeState {
    At(actor, map[], map[], {}, {})
  }

  const Everyone := {A, B, C}

  function Three(a: NodeState, b: NodeState, c: NodeState): map<NodeId, NodeState> {
    map["a" := a, "b" := b, "c" := c]
  }

  lemma Updated(a: NodeState, b: NodeState, c: NodeState, x: NodeState)
    ensures Three(a, b, c)["a" := x] == Three(x, b, c)
    ensures Three(a, b, c)["b" := x] == Three(a, x, c)
    ensures Three(a, b, c)["c" := x] == Three(a, b, x)
  {
  }

  lemma Mutated(s: System, n: NodeId, key: Key, op: Op, token: VersionVector, p: Plan, m: Mutation, nd: NodeState)
    requires MayCommit(s, n) && Commit(s.nodes[n], p) == nd
    requires PlanMutation(s.nodes[n].store, s.nodes[n].clock, s.nodes[n].actor, key, op, token) == Ok(p)
    requires Recorded(s.nodes[n].store, s.nodes[n].clock, s.nodes[n].actor, key, op, token) == m
    ensures DoMutate(s, n, key, op, token) == s.(log := s.log + [m], nodes := s.nodes[n := nd])
  {
  }

  lemma PlanFirst()
    ensures PlanMutation(map[], map[], A, "k", One, map[]) == Ok(Plan(First, map[A := 1]))
    ensures Recorded(map[], map[], A, "k", One, map[]) == Early
  {
    var p := PlanMutation(map[], map[], A, "k", One, map[]).value;
    assert Merge(map[], map[]) == map[];
    assert p.frontier == map[A := 1];
    assert Merge(map[], map[A := 1]) == map[A := 1];
    assert p.entry.context == map[A := 1];
    assert p.entry.version == map[A := 1];
    assert p.entry.state == First.state;
  }

  lemma SecondAllocated()
    ensures Merge(map[A := 1], map[]) == map[A := 1] && Merge(map[A := 1], map[A := 1]) == map[A := 1]
    ensures NextFrontier(map[A := 1], A, map[A := 1]) == map[A := 2]
    ensures Merge(map[A := 1], map[A := 2]) == map[A := 2]
  {
  }

  lemma PlanSecond()
    ensures PlanMutation(map["k" := First], map[A := 1], A, "k", One, map[]) == Ok(Plan(Second, map[A := 2]))
    ensures Recorded(map["k" := First], map[A := 1], A, "k", One, map[]) == Own
  {
    SecondAllocated();
    var p := PlanMutation(map["k" := First], map[A := 1], A, "k", One, map[]).value;
    assert p.frontier == map[A := 2];
    assert p.entry.context == map[A := 2];
    assert p.entry.version == map[A := 2];
    assert p.entry.state == Second.state;
  }

  lemma OtherAllocated()
    ensures Merge(map[], map[A := 2]) == map[A := 2]
    ensures NextFrontier(map[], B, map[A := 2]) == map[A := 2, B := 1]
    ensures Merge(map[A := 2], map[A := 2, B := 1]) == map[A := 2, B := 1]
  {
  }

  lemma PlanOther()
    ensures PlanMutation(map[], map[], B, "j", One, map[A := 2]) == Ok(Plan(Other, map[A := 2, B := 1]))
    ensures Recorded(map[], map[], B, "j", One, map[A := 2]) == Unrelated
  {
    OtherAllocated();
    var p := PlanMutation(map[], map[], B, "j", One, map[A := 2]).value;
    assert p.frontier == map[A := 2, B := 1];
    assert p.entry.context == map[A := 2, B := 1];
    assert p.entry.version == map[B := 1];
    assert p.entry.state == Other.state;
  }

  const A1 := At(A, map["k" := First], map[A := 1], {First}, {})
  const A2 := At(A, map["k" := Second], T1, {First, Second}, {})
  const A3 := At(A, map["k" := Second], T1, {First, Second}, {T1})
  const B1 := At(B, map["j" := Other], T2, {Other}, {})
  const B2 := At(B, map["j" := Other], T2, {Other}, {T2})
  const C1 := At(C, map["k" := First], map[], {First}, {})
  const C2 := At(C, map["k" := Stale], map[], {First, Stale}, {})
  const C3 := At(C, map["k" := Stale], T2, {First, Stale}, {})
  const C4 := At(C, map["k" := Stale], T2, {First, Stale}, {T2})

  // ---- What the nodes do ----

  lemma FirstWrite()
    ensures DoMutate(System([], Three(New(A), New(B), New(C)), {}, Everyone), "a", "k", One, map[])
         == System([Early], Three(A1, New(B), New(C)), {}, Everyone)
  {
    PlanFirst();
    assert Commit(New(A), Plan(First, map[A := 1])) == A1;
    Updated(New(A), New(B), New(C), A1);
    assert [] + [Early] == [Early];
  }

  lemma FirstSent()
    ensures DoSend(System([Early], Three(A1, New(B), New(C)), {}, Everyone), "a", "k")
         == System([Early], Three(A1, New(B), New(C)), {First}, Everyone)
  {
  }

  lemma FirstReplicated()
    ensures DoReceive(System([Early], Three(A1, New(B), New(C)), {First}, Everyone), "c", First)
         == System([Early], Three(A1, New(B), C1), {First}, Everyone)
  {
    var p := PlanMerge(New(C).store, New(C).clock, First);
    assert p.Ok? && p.value.entry == First;
    assert Commit(New(C), Observed(New(C), p.value)) == C1;
    Updated(A1, New(B), New(C), C1);
  }

  lemma OwnWrite()
    ensures DoMutate(System([Early], Three(A1, New(B), C1), {First}, Everyone), "a", "k", One, map[])
         == System([Early, Own], Three(A2, New(B), C1), {First}, Everyone)
  {
    PlanSecond();
    Mutated(System([Early], Three(A1, New(B), C1), {First}, Everyone), "a", "k", One, map[], Plan(Second, T1), Own, A2);
    Updated(A1, New(B), C1, A2);
    assert [Early] + [Own] == [Early, Own];
  }

  lemma OwnReplies()
    ensures Merge(T1, T1) == T1
    ensures DoRespond(System([Early, Own], Three(A2, New(B), C1), {First}, Everyone), "a", Second)
         == System([Early, Own], Three(A3, New(B), C1), {First}, Everyone)
    ensures DoRespond(System([Early, Own], Three(A3, New(B), C1), {First}, Everyone), "a", Second)
         == System([Early, Own], Three(A3, New(B), C1), {First}, Everyone)
  {
    assert Merge(T1, T1) == T1;
    assert RespondNode(A2, Second) == A3 && RespondNode(A3, Second) == A3;
    Updated(A2, New(B), C1, A3);
    Updated(A3, New(B), C1, A3);
  }

  lemma OwnHeld()
    ensures DoHold(System([Early, Own], Three(A3, New(B), C1), {First}, Everyone), "a", "k")
         == System([Early, Own], Three(A3, New(B), C1), {First}, Everyone)
  {
    assert HoldNode(A3, "k") == A3;
    Updated(A3, New(B), C1, A3);
  }

  lemma UnrelatedWrite()
    ensures DoMutate(System([Early, Own], Three(A3, New(B), C1), {First}, Everyone), "b", "j", One, T1)
         == System([Early, Own, Unrelated], Three(A3, B1, C1), {First}, Everyone)
  {
    PlanOther();
    assert Commit(New(B), Plan(Other, T2)) == B1;
    Updated(A3, New(B), C1, B1);
    assert [Early, Own] + [Unrelated] == [Early, Own, Unrelated];
  }

  function Final(b: NodeState, c: NodeState): System {
    System([Early, Own, Unrelated], Three(A3, b, c), {First}, Everyone)
  }

  lemma UnrelatedReplies()
    ensures DoRespond(Final(B1, C1), "b", Other) == Final(B2, C1)
  {
    assert Merge(T2, T2) == T2;
    assert RespondNode(B1, Other) == B2;
    Updated(A3, B1, C1, B2);
  }

  lemma RepairedNode()
    ensures PlanMetadata(C1.store, C1.clock, "k", T2).Some?
    ensures Commit(C1, Observed(C1, PlanMetadata(C1.store, C1.clock, "k", T2).value)) == C2
  {
    assert Merge(map[A := 1], T2) == T2;
    var p := PlanMetadata(C1.store, C1.clock, "k", T2).value;
    assert p.entry == Stale;
    assert C1.store["k" := Stale] == map["k" := Stale];
  }

  lemma Repair()
    ensures DoRaiseContext(Final(B2, C1), "c", "k", T2) == Final(B2, C2)
  {
    RepairedNode();
    Updated(A3, B2, C1, C2);
  }

  lemma StaleTaken()
    ensures DoHold(Final(B2, C2), "c", "k") == Final(B2, C2)
    ensures DoObserve(Final(B2, C2), "c", Stale) == Final(B2, C3)
  {
    assert Merge(map[], T2) == T2;
    assert HoldNode(C2, "k") == C2 && ObserveNode(C2, Stale) == C3;
    Updated(A3, B2, C2, C2);
    Updated(A3, B2, C2, C3);
  }

  lemma StaleServed()
    ensures Merge(T2, T2) == T2 && DoRespond(Final(B2, C3), "c", Stale) == Final(B2, C4)
  {
    assert Merge(T2, T2) == T2;
    assert RespondNode(C3, Stale) == C4;
    Updated(A3, B2, C3, C4);
  }

  /** What causal repair makes of c's two answers: a cannot be reached, b has no entry but knows the token. */
  lemma RepairRaises()
    ensures S.Ensure(map["k" := First], "k", T2, [S.Failed, S.Fetched(None, T2)])
         == S.Repaired(map["k" := Stale], Ok(T2))
  {
    var answers: seq<S.Fetch> := [S.Failed, S.Fetched(None, T2)];
    assert answers[..1] == [S.Failed] && answers[..1][..0] == [];
    assert S.Absorb(map["k" := First], answers[..1]) == Ok(map["k" := First]);
    assert S.Absorb(map["k" := First], answers) == Ok(map["k" := First]);
    assert S.Known(map[A := 1], answers[..1]) == map[A := 1];
    assert S.Known(map[A := 1], answers) == Merge(map[A := 1], T2) == T2;
  }

  // ---- What the client does ----

  /** Any run can take one more step. */
  lemma Extend(steps: seq<R.Step>, step: R.Step) returns (more: seq<R.Step>)
    ensures R.Run(more) == R.Do(R.Run(steps), step)
    ensures |more| == |steps| + 1 && more[..|steps|] == steps && more[|steps|] == step
  {
    more := steps + [step];
    assert more[..|steps|] == steps;
  }

  /** One more step of the nodes. */
  lemma Inside(steps: seq<R.Step>, step: Step) returns (more: seq<R.Step>)
    ensures R.Run(more) == R.Run(steps).(sys := Do(R.Run(steps).sys, step))
  {
    more := Extend(steps, R.Internal(step));
  }

  lemma Booted() returns (steps: seq<R.Step>)
    ensures R.Run(steps) == R.World(System([], Three(New(A), New(B), New(C)), {}, Everyone), map[], map[])
  {
    steps := Inside([], Boot("a", false, 1));
    steps := Inside(steps, Boot("b", false, 1));
    steps := Inside(steps, Boot("c", false, 1));
  }

  lemma Increased() returns (steps: seq<R.Step>)
    ensures R.Run(steps) == R.World(System([Early], Three(A1, New(B), New(C)), {}, Everyone), map[], map[])
  {
    steps := Booted();
    steps := Inside(steps, Mutate("a", "k", One, map[]));
    FirstWrite();
  }

  lemma Sent() returns (steps: seq<R.Step>)
    ensures R.Run(steps) == R.World(System([Early], Three(A1, New(B), New(C)), {First}, Everyone), map[], map[])
  {
    steps := Increased();
    steps := Inside(steps, Send("a", "k"));
    FirstSent();
  }

  lemma SetUp() returns (steps: seq<R.Step>)
    ensures R.Run(steps) == R.World(System([Early], Three(A1, New(B), C1), {First}, Everyone), map[], map[])
  {
    steps := Sent();
    steps := Inside(steps, Receive("c", First));
    FirstReplicated();
  }

  const Wrote := R.Call(0, "a", "k", Some(One), map[], Some(Second), Some(T1), true)
  const Saw := R.Call(0, "a", "k", None, T1, Some(Second), Some(T1), true)
  const Next := R.Call(0, "b", "j", Some(One), T1, Some(Other), Some(T2), true)
  const Reread := R.Call(0, "c", "k", None, T2, Some(Stale), Some(T2), false)

  function Asked(c: R.Call): R.Call {
    c.(answer := None, reply := None, heard := false)
  }

  /** The node settles on the call's answer: it commits the write, or takes the entry that has seen the token. */
  ghost predicate Takes(s: System, c: R.Call, next: System) {
    if c.op.Some? then
      && MayCommit(s, c.node) && next == DoMutate(s, c.node, c.key, c.op.value, c.token)
      && var nd := s.nodes[c.node];
         c.answer == match PlanMutation(nd.store, nd.clock, nd.actor, c.key, c.op.value, c.token)
                     case Ok(p) => Some(p.entry)
                     case Err(_) => None
    else
      && Up(s, c.node) && c.key in s.nodes[c.node].store && next == DoHold(s, c.node, c.key)
      && c.answer == Some(s.nodes[c.node].store[c.key]) && Dominates(s.nodes[c.node].store[c.key].context, c.token)
  }

  /** The node sends the call's reply. */
  ghost predicate Replies(s: System, c: R.Call, next: System) {
    && c.answer.Some? && MayRespond(s, c.node, c.answer.value)
    && c.reply == Some(ReplyToken(s.nodes[c.node], c.answer.value)) && next == DoRespond(s, c.node, c.answer.value)
  }

  function Taken(c: R.Call): R.Call {
    c.(reply := None, heard := false)
  }

  lemma SendIs(w: R.World, id: nat, c: R.Call)
    requires id !in w.calls && c.token == Merge(R.SessionOf(w, c.client), map[])
    ensures R.Do(w, R.Send(id, c.client, c.node, c.key, c.op, map[])) == w.(calls := w.calls[id := Asked(c)])
  {
  }

  function TakeStep(id: nat, c: R.Call): R.Step {
    if c.op.Some? then R.Write(id) else R.Check(id)
  }

  lemma TakeIs(w: R.World, id: nat, c: R.Call, next: System)
    requires id in w.calls && w.calls[id] == Asked(c) && c.answer.Some? && Takes(w.sys, c, next)
    ensures R.Do(w, TakeStep(id, c)) == R.World(next, w.sessions, w.calls[id := Taken(c)])
  {
  }

  lemma ReplyIs(w: R.World, id: nat, c: R.Call, next: System)
    requires id in w.calls && w.calls[id] == Taken(c) && Replies(w.sys, c, next)
    ensures R.Do(w, R.Reply(id)) == R.World(next, w.sessions, w.calls[id := c.(heard := false)])
  {
  }

  lemma HearIs(w: R.World, id: nat, c: R.Call)
    requires id in w.calls && w.calls[id] == c.(heard := false) && c.reply.Some? && c.heard
    ensures R.Do(w, R.Hear(id))
            == w.(sessions := w.sessions[c.client := Merge(R.SessionOf(w, c.client), c.reply.value)], calls := w.calls[id := c])
  {
  }

  /** The client sends a request and the node settles on its answer. */
  lemma Asks(steps: seq<R.Step>, w: R.World, id: nat, c: R.Call, taken: System) returns (more: seq<R.Step>)
    requires w == R.Run(steps) && id !in w.calls && c.answer.Some?
    requires c.token == Merge(R.SessionOf(w, c.client), map[]) && Takes(w.sys, c, taken)
    ensures R.Run(more) == R.World(taken, w.sessions, w.calls[id := Taken(c)])
  {
    SendIs(w, id, c);
    TakeIs(w.(calls := w.calls[id := Asked(c)]), id, c, taken);
    Calls(w.calls, id, Asked(c), Taken(c));
    more := Extend(steps, R.Send(id, c.client, c.node, c.key, c.op, map[]));
    more := Extend(more, TakeStep(id, c));
  }

  /** The node replies and the client hears it. */
  lemma Gets(steps: seq<R.Step>, w: R.World, id: nat, c: R.Call, replied: System, session: VersionVector) returns (more: seq<R.Step>)
    requires w == R.Run(steps) && id in w.calls && w.calls[id] == Taken(c) && c.reply.Some? && c.heard
    requires Replies(w.sys, c, replied) && session == Merge(R.SessionOf(w, c.client), c.reply.value)
    ensures R.Run(more) == R.World(replied, w.sessions[c.client := session], w.calls[id := c])
  {
    ReplyIs(w, id, c, replied);
    Calls(w.calls, id, c.(heard := false), c);
    HearIs(R.World(replied, w.sessions, w.calls[id := c.(heard := false)]), id, c);
    more := Extend(steps, R.Reply(id));
    more := Extend(more, R.Hear(id));
  }

  lemma Calls(calls: map<nat, R.Call>, id: nat, c: R.Call, d: R.Call)
    ensures calls[id := c][id := d] == calls[id := d]
  {
  }

  const Base := System([Early], Three(A1, New(B), C1), {First}, Everyone)
  const Mine := System([Early, Own], Three(A2, New(B), C1), {First}, Everyone)
  const Told := System([Early, Own], Three(A3, New(B), C1), {First}, Everyone)

  lemma Tokens()
    ensures Merge(map[], map[]) == map[] && Merge(map[], T1) == T1 && Merge(T1, map[]) == T1 && Merge(T1, T1) == T1
  {
  }

  lemma MoreTokens()
    ensures Merge(T1, T2) == T2 && Merge(T2, map[]) == T2 && Merge(T2, T2) == T2 && Merge(map[], T2) == T2
  {
    assert Dominates(T2, T1);
    MergeAbsorbs(T2, T1);
    MergeLaws(T2, T1, T2);
    MergeAbsorbs(T2, map[]);
    MergeLaws(T2, map[], T2);
  }

  /** A write is taken when the node's plan is the answer. */
  lemma TakesPlan(s: System, nd: NodeState, c: R.Call, p: Plan, next: System)
    requires c.op.Some? && c.node in s.nodes && s.nodes[c.node] == nd && Idle(nd) && c.answer == Some(p.entry)
    requires PlanMutation(nd.store, nd.clock, nd.actor, c.key, c.op.value, c.token) == Ok(p)
    requires DoMutate(s, c.node, c.key, c.op.value, c.token) == next
    ensures Takes(s, c, next)
  {
  }

  lemma WroteTaken()
    ensures Takes(Base, Wrote, Mine)
  {
    WrotePlan();
    OwnWrite();
    TakesPlan(Base, A1, Wrote, Plan(Second, T1), Mine);
  }

  lemma WrotePlan()
    ensures "a" in Base.nodes && Base.nodes["a"] == A1
    ensures PlanMutation(A1.store, A1.clock, A1.actor, Wrote.key, Wrote.op.value, Wrote.token) == Ok(Plan(Second, T1))
  {
    PlanSecond();
  }

  lemma WroteAsked() returns (steps: seq<R.Step>)
    ensures R.Run(steps) == R.World(Mine, map[], map[0 := Taken(Wrote)])
  {
    steps := SetUp();
    WroteTaken();
    Tokens();
    steps := Asks(steps, R.World(Base, map[], map[]), 0, Wrote, Mine);
  }

  lemma ClientWrote() returns (steps: seq<R.Step>)
    ensures R.Run(steps) == R.World(Told, map[0 := T1], map[0 := Wrote])
  {
    steps := WroteAsked();
    OwnReplies();
    Tokens();
    steps := Gets(steps, R.World(Mine, map[], map[0 := Taken(Wrote)]), 0, Wrote, Told, T1);
    Calls(map[], 0, Taken(Wrote), Wrote);
  }

  lemma SawAsked() returns (steps: seq<R.Step>)
    ensures R.Run(steps) == R.World(Told, map[0 := T1], map[0 := Wrote, 1 := Taken(Saw)])
  {
    steps := ClientWrote();
    OwnHeld();
    Tokens();
    steps := Asks(steps, R.World(Told, map[0 := T1], map[0 := Wrote]), 1, Saw, Told);
  }

  lemma ClientSaw() returns (steps: seq<R.Step>)
    ensures R.Run(steps) == R.World(Told, map[0 := T1], map[0 := Wrote, 1 := Saw])
  {
    steps := SawAsked();
    OwnReplies();
    Tokens();
    steps := Gets(steps, R.World(Told, map[0 := T1], map[0 := Wrote, 1 := Taken(Saw)]), 1, Saw, Told, T1);
    Calls(map[0 := Wrote], 1, Taken(Saw), Saw);
    assert map[0 := T1][0 := T1] == map[0 := T1];
  }

  lemma NextTaken()
    ensures Takes(Told, Next, Final(B1, C1))
  {
    PlanOther();
    UnrelatedWrite();
    assert Told.nodes["b"] == New(B);
    TakesPlan(Told, New(B), Next, Plan(Other, T2), Final(B1, C1));
  }

  lemma NotYet(c: R.Call, d: R.Call)
    ensures 2 !in map[0 := c, 1 := d]
  {
  }

  lemma NextAsked() returns (steps: seq<R.Step>)
    ensures R.Run(steps) == R.World(Final(B1, C1), map[0 := T1], map[0 := Wrote, 1 := Saw, 2 := Taken(Next)])
  {
    steps := ClientSaw();
    var w := R.World(Told, map[0 := T1], map[0 := Wrote, 1 := Saw]);
    assert Next.token == Merge(R.SessionOf(w, 0), map[]) by {
      Tokens();
    }
    NextTaken();
    NotYet(Wrote, Saw);
    steps := Asks(steps, w, 2, Next, Final(B1, C1));
  }

  const Heard: map<nat, R.Call> := map[0 := Wrote, 1 := Saw, 2 := Next]

  lemma ClientWentOn() returns (steps: seq<R.Step>)
    ensures R.Run(steps) == R.World(Final(B2, C1), map[0 := T2], Heard)
  {
    steps := NextAsked();
    UnrelatedReplies();
    MoreTokens();
    steps := Gets(steps, R.World(Final(B1, C1), map[0 := T1], map[0 := Wrote, 1 := Saw, 2 := Taken(Next)]), 2, Next, Final(B2, C1), T2);
    Calls(map[0 := Wrote, 1 := Saw], 2, Taken(Next), Next);
    assert map[0 := T1][0 := T2] == map[0 := T2];
  }

  lemma RereadServed()
    ensures Takes(Final(B2, C2), Reread, Final(B2, C2)) && Replies(Final(B2, C3), Reread, Final(B2, C4))
  {
    StaleTaken();
    StaleServed();
  }

  /** The last request: sent to c, repaired there, and answered. */
  lemma ClientReread(steps: seq<R.Step>) returns (all: seq<R.Step>)
    requires R.Run(steps) == R.World(Final(B2, C1), map[0 := T2], Heard)
    ensures |steps| + 1 <= |all| && all[..|steps|] == steps
    ensures R.Run(all[..|steps| + 1]) == R.World(Final(B2, C1), map[0 := T2], Heard[3 := Asked(Reread)])
    ensures R.Run(all) == R.World(Final(B2, C4), map[0 := T2], Heard[3 := Reread])
  {
    MoreTokens();
    SendIs(R.World(Final(B2, C1), map[0 := T2], Heard), 3, Reread);
    var sent := Extend(steps, R.Send(3, 0, "c", "k", None, map[]));
    var repaired := Repaired(sent);
    all := Answered(repaired);
    assert all[..|sent|] == sent && sent[..|steps|] == steps;
  }

  lemma Repaired(steps: seq<R.Step>) returns (more: seq<R.Step>)
    requires R.Run(steps) == R.World(Final(B2, C1), map[0 := T2], Heard[3 := Asked(Reread)])
    ensures R.Run(more) == R.World(Final(B2, C2), map[0 := T2], Heard[3 := Asked(Reread)])
    ensures |more| == |steps| + 1 && more[..|steps|] == steps
  {
    Repair();
    more := Extend(steps, R.Internal(RaiseContext("c", "k", T2)));
  }

  lemma Looked(steps: seq<R.Step>) returns (more: seq<R.Step>)
    requires R.Run(steps) == R.World(Final(B2, C2), map[0 := T2], Heard[3 := Asked(Reread)])
    ensures R.Run(more) == R.World(Final(B2, C3), map[0 := T2], Heard[3 := Taken(Reread)])
    ensures |more| == |steps| + 2 && more[..|steps|] == steps
  {
    RereadServed();
    TakeIs(R.Run(steps), 3, Reread, Final(B2, C2));
    var taken := Extend(steps, R.Check(3));
    Calls(Heard, 3, Asked(Reread), Taken(Reread));
    StaleTaken();
    more := Extend(taken, R.Internal(Observe("c", Stale)));
    assert more[..|steps|] == taken[..|steps|];
  }

  lemma Answered(steps: seq<R.Step>) returns (more: seq<R.Step>)
    requires R.Run(steps) == R.World(Final(B2, C2), map[0 := T2], Heard[3 := Asked(Reread)])
    ensures R.Run(more) == R.World(Final(B2, C4), map[0 := T2], Heard[3 := Reread])
    ensures |more| == |steps| + 3 && more[..|steps|] == steps
  {
    var looked := Looked(steps);
    RereadServed();
    ReplyIs(R.Run(looked), 3, Reread, Final(B2, C4));
    more := Extend(looked, R.Reply(3));
    Calls(Heard, 3, Taken(Reread), Reread);
    assert more[..|steps|] == looked[..|steps|];
  }

  /** The client has heard of its write of k and of its read of k, which showed that write. */
  ghost predicate HeardBoth(w: R.World) {
    && 0 in w.calls && w.calls[0] == Wrote && 1 in w.calls && w.calls[1] == Saw && 3 !in w.calls
    && Own in w.sys.log && Covers(Saw.answer.value.version, Own.dot)
  }

  /**
   Its last request has reached c; b has no k, its frontier is the token, and it has issued
   that token. With no answer from a and this one from b, repair succeeds.
   */
  ghost predicate Arrived(w: R.World) {
    && 3 in w.calls && w.calls[3] == Asked(Reread) && "b" in w.sys.nodes && "c" in w.sys.nodes
    && "k" !in w.sys.nodes["b"].store && w.sys.nodes["b"].clock == Reread.token && Reread.token in w.sys.nodes["b"].issued
    && S.Ensure(w.sys.nodes["c"].store, "k", Reread.token, [S.Failed, S.Fetched(None, w.sys.nodes["b"].clock)])
       == S.Repaired(map["k" := Stale], Ok(T2))
  }

  /** It has been answered with an entry that has seen the token, but neither the write nor what was read. */
  ghost predicate ServedStale(w: R.World) {
    && 3 in w.calls && w.calls[3] == Reread && Reread.client == Wrote.client == Saw.client
    && Dominates(Reread.answer.value.context, Reread.token)
    && !Covers(Reread.answer.value.version, Own.dot)
    && !Dominates(Reread.answer.value.version, Saw.answer.value.version)
  }

  lemma IsHeardBoth(w: R.World)
    requires w == R.World(Final(B2, C1), map[0 := T2], Heard)
    ensures HeardBoth(w)
  {
    AtThree();
  }

  lemma IsArrived(w: R.World)
    requires w == R.World(Final(B2, C1), map[0 := T2], Heard[3 := Asked(Reread)])
    ensures Arrived(w)
  {
    AtThree();
    RepairRaises();
  }

  lemma IsServedStale(w: R.World)
    requires w == R.World(Final(B2, C4), map[0 := T2], Heard[3 := Reread])
    ensures ServedStale(w)
  {
  }

  /**
   Read-your-writes and monotonic reads can fail: at index i of the run the client has heard
   of its write of k and of a read that showed it; its next request, a read of k, is answered
   after a successful repair with an entry that shows neither.
   */
  lemma OwnWriteCanBeMissing() returns (steps: seq<R.Step>, i: nat)
    ensures i + 1 <= |steps|
    ensures HeardBoth(R.Run(steps[..i])) && Arrived(R.Run(steps[..i + 1])) && ServedStale(R.Run(steps))
  {
    var before := ClientWentOn();
    i := |before|;
    steps := ClientReread(before);
    IsHeardBoth(R.Run(before));
    IsArrived(R.Run(steps[..i + 1]));
    IsServedStale(R.Run(steps));
  }

  lemma AtThree()
    ensures Three(A3, B2, C1)["b"] == B2 && Three(A3, B2, C1)["c"] == C1
    ensures Own in [Early, Own, Unrelated]
  {
    assert [Early, Own, Unrelated][1] == Own;
  }
}
