/**
 Client sessions over every run of the replication protocol (the request paths of
 src/distsys/crdt_service.py, the token handling of src/distsys/crdt_client.py).

 A request is several steps, and anything may happen in between: other requests, replication,
 repairs, crashes and restarts, at durable and volatile nodes. A read takes an entry from the
 store only after the code's own check of the entry's context against the token; a write
 commits with the token. A client may have several requests under way, at any nodes, and may
 lose answers or receive them late. Forwarding only decides which node serves a request.
 */
module SessionRuns {
  import opened Outcomes
  import opened Causal
  import opened Crdt
  import opened Storage
  import opened History
  import opened Replica
  import opened Node
  import opened Sessions
  import P = Protocol

  /** One request of a client and how far it has come. */
  datatype Call = Call(
    client: nat, node: NodeId, key: Key,
    op: Option<Op>,                 // None for a read
    token: VersionVector,           // sent with the request
    answer: Option<Entry>,          // the entry read or written
    reply: Option<VersionVector>,   // the token sent back
    heard: bool)                    // the client has received it

  datatype World = World(sys: P.System, sessions: map<nat, VersionVector>, calls: map<nat, Call>)

  /** CrdtClient.causal_token. */
  function SessionOf(w: World, client: nat): VersionVector {
    if client in w.sessions then w.sessions[client] else map[]
  }

  datatype Step =
    | Internal(step: P.Step)
    | Send(id: nat, client: nat, node: NodeId, key: Key, op: Option<Op>, explicit: VersionVector)
    | Check(id: nat)
    | Write(id: nat)
    | Reply(id: nat)
    | Hear(id: nat)

  /** The client sends its session token, merged with an explicit one if there is any. */
  function DoSend(w: World, id: nat, client: nat, node: NodeId, key: Key, op: Option<Op>, explicit: VersionVector): World {
    if id in w.calls then w
    else w.(calls := w.calls[id := Call(client, node, key, op, Merge(SessionOf(w, client), explicit), None, None, false)])
  }

  /** _ensure_causal, before or after a repair: the stored entry is taken if it has seen the token. */
  predicate Passes(w: World, c: Call) {
    && c.op.None? && c.answer.None? && P.Up(w.sys, c.node) && c.key in w.sys.nodes[c.node].store
    && Dominates(w.sys.nodes[c.node].store[c.key].context, c.token)
  }

  function DoCheck(w: World, id: nat): World {
    if id !in w.calls || !Passes(w, w.calls[id]) then w
    else
      var c := w.calls[id];
      w.(sys := P.DoHold(w.sys, c.node, c.key),
         calls := w.calls[id := c.(answer := Some(w.sys.nodes[c.node].store[c.key]))])
  }

  function PlanOf(w: World, c: Call): Result<Plan>
    requires c.op.Some? && c.node in w.sys.nodes
  {
    var nd := w.sys.nodes[c.node];
    PlanMutation(nd.store, nd.clock, nd.actor, c.key, c.op.value, c.token)
  }

  predicate Writable(w: World, c: Call) {
    c.op.Some? && c.answer.None? && P.MayCommit(w.sys, c.node) && PlanOf(w, c).Ok?
  }

  /** The critical section of mutate, with the request's token. */
  function DoWrite(w: World, id: nat): World {
    if id !in w.calls || !Writable(w, w.calls[id]) then w
    else
      var c := w.calls[id];
      w.(sys := P.DoMutate(w.sys, c.node, c.key, c.op.value, c.token),
         calls := w.calls[id := c.(answer := Some(PlanOf(w, c).value.entry))])
  }

  predicate Answerable(w: World, c: Call) {
    c.answer.Some? && c.reply.None? && P.MayRespond(w.sys, c.node, c.answer.value)
  }

  /** _success: the response goes out with the node's frontier as its token. */
  function DoReply(w: World, id: nat): World {
    if id !in w.calls || !Answerable(w, w.calls[id]) then w
    else
      var c := w.calls[id];
      w.(sys := P.DoRespond(w.sys, c.node, c.answer.value),
         calls := w.calls[id := c.(reply := Some(P.ReplyToken(w.sys.nodes[c.node], c.answer.value)))])
  }

  /** The client merges the token of a response into its session. */
  function DoHear(w: World, id: nat): World {
    if id !in w.calls || w.calls[id].reply.None? then w
    else
      var c := w.calls[id];
      w.(sessions := w.sessions[c.client := Merge(SessionOf(w, c.client), c.reply.value)],
         calls := w.calls[id := c.(heard := true)])
  }

  ghost function Do(w: World, step: Step): World {
    match step
    case Internal(step) => w.(sys := P.Do(w.sys, step))
    case Send(id, client, node, key, op, explicit) => DoSend(w, id, client, node, key, op, explicit)
    case Check(id) => DoCheck(w, id)
    case Write(id) => DoWrite(w, id)
    case Reply(id) => DoReply(w, id)
    case Hear(id) => DoHear(w, id)
  }

  const Start := World(P.Initial, map[], map[])

  ghost function Run(steps: seq<Step>): World {
    if steps == [] then Start else Do(Run(steps[..|steps| - 1]), steps[|steps| - 1])
  }

  // ---- What holds of every request ----

  /** The write has been committed and the entry contains it. */
  ghost predicate Committed(log: Log, key: Key, op: Op, e: Entry) {
    exists m | m in log :: m.key == key && m.op == op && Covers(e.version, m.dot)
  }

  ghost predicate AnswerOk(log: Log, c: Call, e: Entry) {
    && e.key == c.key && EntryOk(log, e) && Dominates(e.context, c.token)
    && (c.op.Some? ==> Committed(log, c.key, c.op.value, e))
  }

  ghost predicate ReplyOk(sys: P.System, c: Call, e: Entry, token: VersionVector) {
    Served(c.token, Response(e, token)) && c.node in sys.nodes && token in sys.nodes[c.node].issued
  }

  ghost predicate CallOk(w: World, c: Call) {
    && (c.answer.Some? ==> AnswerOk(w.sys.log, c, c.answer.value))
    && (c.reply.Some? ==> c.answer.Some? && ReplyOk(w.sys, c, c.answer.value, c.reply.value))
    && (c.heard ==> c.reply.Some? && Dominates(SessionOf(w, c.client), c.reply.value))
  }

  ghost predicate Inv(w: World) {
    P.Inv(w.sys) && forall id | id in w.calls :: CallOk(w, w.calls[id])
  }

  // ---- Each step keeps it ----

  lemma CallFrame(w: World, next: P.System, c: Call)
    requires P.Follows(w.sys, next) && CallOk(w, c)
    ensures CallOk(w.(sys := next), c)
  {
    assert P.Grown(w.sys, next, c.node);
    if c.answer.Some? && c.op.Some? {
      CommittedStays(w.sys.log, next.log, c.key, c.op.value, c.answer.value);
    }
  }

  lemma CommittedStays(log: Log, more: Log, key: Key, op: Op, e: Entry)
    requires log <= more && Committed(log, key, op, e)
    ensures Committed(more, key, op, e)
  {
    var m :| m in log && m.key == key && m.op == op && Covers(e.version, m.dot);
    assert m in more;
  }

  lemma NodesKeep(w: World, next: P.System)
    requires Inv(w) && P.Inv(next) && P.Follows(w.sys, next)
    ensures Inv(w.(sys := next))
  {
    forall id | id in w.calls ensures CallOk(w.(sys := next), w.calls[id]) {
      CallFrame(w, next, w.calls[id]);
    }
  }

  lemma Updated(w: World, id: nat, c: Call)
    requires Inv(w) && CallOk(w, c)
    ensures Inv(w.(calls := w.calls[id := c]))
  {
    var w' := w.(calls := w.calls[id := c]);
    forall i | i in w'.calls ensures CallOk(w', w'.calls[i]) {
      assert CallOk(w, w'.calls[i]);
    }
  }

  lemma CheckedAnswer(s: P.System, c: Call)
    requires P.Inv(s) && c.op.None? && c.node in s.nodes && c.key in s.nodes[c.node].store
    requires Dominates(s.nodes[c.node].store[c.key].context, c.token)
    ensures AnswerOk(s.log, c, s.nodes[c.node].store[c.key])
  {
    assert P.NodeOk(s.log, s.nodes[c.node]);
  }

  lemma CheckKeeps(w: World, id: nat)
    requires Inv(w)
    ensures Inv(DoCheck(w, id))
  {
    if id in w.calls && Passes(w, w.calls[id]) {
      var c := w.calls[id];
      var next := P.DoHold(w.sys, c.node, c.key);
      P.HoldKeeps(w.sys, c.node, c.key);
      P.HoldFollows(w.sys, c.node, c.key);
      NodesKeep(w, next);
      CheckedAnswer(w.sys, c);
      CheckedCall(w, next, c);
      Updated(w.(sys := next), id, c.(answer := Some(w.sys.nodes[c.node].store[c.key])));
    }
  }

  lemma CheckedCall(w: World, next: P.System, c: Call)
    requires next.log == w.sys.log && CallOk(w, c) && c.answer.None?
    requires c.node in w.sys.nodes && c.key in w.sys.nodes[c.node].store && AnswerOk(w.sys.log, c, w.sys.nodes[c.node].store[c.key])
    ensures CallOk(w.(sys := next), c.(answer := Some(w.sys.nodes[c.node].store[c.key])))
  {
  }

  lemma WriteKeeps(w: World, id: nat)
    requires Inv(w)
    ensures Inv(DoWrite(w, id))
  {
    if id in w.calls && Writable(w, w.calls[id]) {
      var c := w.calls[id];
      var next := P.DoMutate(w.sys, c.node, c.key, c.op.value, c.token);
      P.MutateKeeps(w.sys, c.node, c.key, c.op.value, c.token);
      P.MutateFollows(w.sys, c.node, c.key, c.op.value, c.token);
      NodesKeep(w, next);
      WriteLog(w.sys, c);
      WrittenAnswer(w.sys.log, w.sys.nodes[c.node], c);
      WrittenCall(w, next, c, PlanOf(w, c).value.entry);
      Updated(w.(sys := next), id, c.(answer := Some(PlanOf(w, c).value.entry)));
    }
  }

  lemma WrittenCall(w: World, next: P.System, c: Call, e: Entry)
    requires CallOk(w, c) && c.answer.None? && AnswerOk(next.log, c, e)
    ensures CallOk(w.(sys := next), c.(answer := Some(e)))
  {
  }

  lemma WriteLog(s: P.System, c: Call)
    requires P.MayCommit(s, c.node) && c.op.Some?
    requires var nd := s.nodes[c.node]; PlanMutation(nd.store, nd.clock, nd.actor, c.key, c.op.value, c.token).Ok?
    ensures var nd := s.nodes[c.node];
            P.DoMutate(s, c.node, c.key, c.op.value, c.token).log
            == s.log + [Recorded(nd.store, nd.clock, nd.actor, c.key, c.op.value, c.token)]
  {
  }

  /** The entry a write produces has seen the token and contains the write. */
  lemma WrittenAnswer(log: Log, nd: P.NodeState, c: Call)
    requires LogOk(log) && P.NodeOk(log, nd) && P.Idle(nd) && c.op.Some?
    requires PlanMutation(nd.store, nd.clock, nd.actor, c.key, c.op.value, c.token).Ok?
    ensures AnswerOk(log + [Recorded(nd.store, nd.clock, nd.actor, c.key, c.op.value, c.token)], c,
                     PlanMutation(nd.store, nd.clock, nd.actor, c.key, c.op.value, c.token).value.entry)
  {
    P.OwnCoveredStore(log, nd);
    P.PlanMutationOk(log, nd.store, nd.clock, nd.actor, c.key, c.op.value, c.token);
    MutationContext(nd.store, nd.clock, nd.actor, c.key, c.op.value, c.token);
    var m := Recorded(nd.store, nd.clock, nd.actor, c.key, c.op.value, c.token);
    ContainsWrite(log, m, VersionOf(nd.store, c.key),
                  PlanMutation(nd.store, nd.clock, nd.actor, c.key, c.op.value, c.token).value.entry, c.key);
  }

  lemma ContainsWrite(log: Log, m: Mutation, v: VersionVector, e: Entry, key: Key)
    requires m.key == key && e.version == WithDot(v, m.dot)
    ensures Committed(log + [m], key, m.op, e)
  {
    WithDotGrows(v, m.dot);
    assert m in log + [m];
  }

  lemma RepliedOk(s: P.System, c: Call, e: Entry)
    requires P.MayRespond(s, c.node, e) && Dominates(e.context, c.token)
    ensures ReplyOk(P.DoRespond(s, c.node, e), c, e, P.ReplyToken(s.nodes[c.node], e))
  {
    Acknowledged(c.token, s.nodes[c.node].clock, Response(e, P.ReplyToken(s.nodes[c.node], e)));
  }

  lemma ReplyKeeps(w: World, id: nat)
    requires Inv(w)
    ensures Inv(DoReply(w, id))
  {
    if id in w.calls && Answerable(w, w.calls[id]) {
      var c := w.calls[id];
      var e := c.answer.value;
      var next := P.DoRespond(w.sys, c.node, e);
      P.RespondKeeps(w.sys, c.node, e);
      P.RespondFollows(w.sys, c.node, e);
      NodesKeep(w, next);
      RepliedOk(w.sys, c, e);
      CallFrame(w, next, c);
      RepliedCall(w.(sys := next), c, P.ReplyToken(w.sys.nodes[c.node], e));
      Updated(w.(sys := next), id, c.(reply := Some(P.ReplyToken(w.sys.nodes[c.node], e))));
    }
  }

  lemma RepliedCall(w: World, c: Call, token: VersionVector)
    requires CallOk(w, c) && c.answer.Some? && c.reply.None? && ReplyOk(w.sys, c, c.answer.value, token)
    ensures CallOk(w, c.(reply := Some(token)))
  {
  }

  lemma HearKeeps(w: World, id: nat)
    requires Inv(w)
    ensures Inv(DoHear(w, id))
  {
    if id in w.calls && w.calls[id].reply.Some? {
      var w', c := DoHear(w, id), w.calls[id];
      assert CallOk(w, c);
      MergeIsJoin(SessionOf(w, c.client), c.reply.value, c.reply.value);
      forall i | i in w'.calls ensures CallOk(w', w'.calls[i]) {
        HeardFrame(w, w', id, i);
      }
    }
  }

  lemma HeardFrame(w: World, w': World, id: nat, i: nat)
    requires id in w.calls && w.calls[id].reply.Some? && w' == DoHear(w, id) && i in w.calls && CallOk(w, w.calls[i])
    ensures CallOk(w', w'.calls[i])
  {
    var c := w.calls[id];
    MergeIsJoin(SessionOf(w, c.client), c.reply.value, c.reply.value);
    var session := Merge(SessionOf(w, c.client), c.reply.value);
    HeardLater(w, w.calls[i], c.client, session);
    assert w'.sessions == w.sessions[c.client := session];
    assert w'.calls[i] == if i == id then c.(heard := true) else w.calls[i];
  }

  /** A session that has grown has still heard what it had heard. */
  lemma HeardLater(w: World, c: Call, client: nat, session: VersionVector)
    requires CallOk(w, c) && Dominates(session, SessionOf(w, client))
    ensures CallOk(w.(sessions := w.sessions[client := session]), c)
  {
    if c.heard && c.client == client {
      DominatesTransitive(session, SessionOf(w, client), c.reply.value);
    }
  }

  lemma StepKeeps(w: World, step: Step)
    requires Inv(w)
    ensures Inv(Do(w, step))
  {
    match step
    case Internal(step) =>
      P.StepKeeps(w.sys, step);
      P.StepFollows(w.sys, step);
      NodesKeep(w, P.Do(w.sys, step));
    case Send(id, client, node, key, op, explicit) =>
      if id !in w.calls {
        Updated(w, id, Call(client, node, key, op, Merge(SessionOf(w, client), explicit), None, None, false));
      }
    case Check(id) => CheckKeeps(w, id);
    case Write(id) => WriteKeeps(w, id);
    case Reply(id) => ReplyKeeps(w, id);
    case Hear(id) => HearKeeps(w, id);
  }

  lemma {:induction false} RunKeeps(steps: seq<Step>)
    ensures Inv(Run(steps))
    decreases |steps|
  {
    if steps != [] {
      var last := |steps| - 1;
      RunKeeps(steps[..last]);
      StepKeeps(Run(steps[..last]), steps[last]);
    }
  }

  /** What the nodes do in such a run is a run of the protocol, so everything proved there holds here. */
  lemma {:induction false} SystemIsRun(steps: seq<Step>) returns (inner: seq<P.Step>)
    ensures P.Run(inner) == Run(steps).sys
  {
    inner := [];
    if steps != [] {
      var last := |steps| - 1;
      inner := SystemIsRun(steps[..last]);
      var more := InnerStep(Run(steps[..last]), steps[last]);
      if more.Some? {
        var next := inner + [more.value];
        assert next[..|inner|] == inner;
        inner := next;
      }
    }
  }

  lemma InnerStep(w: World, step: Step) returns (inner: Option<P.Step>)
    ensures Do(w, step).sys == if inner.Some? then P.Do(w.sys, inner.value) else w.sys
  {
    inner := None;
    match step
    case Internal(s) => inner := Some(s);
    case Check(id) =>
      if id in w.calls && Passes(w, w.calls[id]) { inner := Some(P.Hold(w.calls[id].node, w.calls[id].key)); }
    case Write(id) =>
      if id in w.calls && Writable(w, w.calls[id]) {
        var c := w.calls[id];
        inner := Some(P.Mutate(c.node, c.key, c.op.value, c.token));
      }
    case Reply(id) =>
      if id in w.calls && Answerable(w, w.calls[id]) {
        inner := Some(P.Respond(w.calls[id].node, w.calls[id].answer.value));
      }
    case _ =>
  }

  // ---- What sessions may rely on ----

  /**
   In every run, every response: its entry is the meaning of its version, has seen the
   request's token and, for a write, contains the write; its token has seen both, and is one
   the node has issued, which recovery therefore respects.
   */
  lemma EveryResponseServed(steps: seq<Step>, id: nat)
    requires id in Run(steps).calls && Run(steps).calls[id].reply.Some?
    ensures var w := Run(steps);
            var c := w.calls[id];
            && c.answer.Some? && AnswerOk(w.sys.log, c, c.answer.value)
            && Served(c.token, Response(c.answer.value, c.reply.value))
            && c.node in w.sys.nodes && c.reply.value in w.sys.nodes[c.node].issued
  {
    RunKeeps(steps);
    assert CallOk(Run(steps), Run(steps).calls[id]);
  }

  lemma StepSession(w: World, step: Step, client: nat)
    ensures Dominates(SessionOf(Do(w, step), client), SessionOf(w, client))
  {
    if step.Hear? && step.id in w.calls && w.calls[step.id].reply.Some? {
      var c := w.calls[step.id];
      MergeIsJoin(SessionOf(w, c.client), c.reply.value, c.reply.value);
    }
  }

  /** A session's token never shrinks. */
  lemma {:induction false} SessionGrows(steps: seq<Step>, i: nat, client: nat)
    requires i <= |steps|
    ensures Dominates(SessionOf(Run(steps), client), SessionOf(Run(steps[..i]), client))
  {
    if i == |steps| {
      assert steps[..i] == steps;
    } else {
      var last := |steps| - 1;
      SessionGrows(steps[..last], i, client);
      assert steps[..last][..i] == steps[..i];
      StepSession(Run(steps[..last]), steps[last], client);
      DominatesTransitive(SessionOf(Run(steps), client), SessionOf(Run(steps[..last]), client), SessionOf(Run(steps[..i]), client));
    }
  }

  /** What a request was, and what has been settled about it, does not change any more. */
  predicate Continues(c: Call, c': Call) {
    && c'.client == c.client && c'.token == c.token
    && (c.answer.Some? ==> c'.answer == c.answer) && (c.reply.Some? ==> c'.reply == c.reply) && (c.heard ==> c'.heard)
  }

  lemma StepContinues(w: World, step: Step, id: nat)
    requires id in w.calls
    ensures id in Do(w, step).calls && Continues(w.calls[id], Do(w, step).calls[id])
  {
    match step
    case Check(k) => CheckContinues(w, k, id);
    case Write(k) => WriteContinues(w, k, id);
    case Reply(k) => ReplyContinues(w, k, id);
    case _ =>
  }

  lemma CheckContinues(w: World, k: nat, id: nat)
    requires id in w.calls
    ensures id in DoCheck(w, k).calls && Continues(w.calls[id], DoCheck(w, k).calls[id])
  {
  }

  lemma WriteContinues(w: World, k: nat, id: nat)
    requires id in w.calls
    ensures id in DoWrite(w, k).calls && Continues(w.calls[id], DoWrite(w, k).calls[id])
  {
  }

  lemma ReplyContinues(w: World, k: nat, id: nat)
    requires id in w.calls
    ensures id in DoReply(w, k).calls && Continues(w.calls[id], DoReply(w, k).calls[id])
  {
  }

  lemma NewCall(w: World, step: Step, id: nat)
    requires id !in w.calls && id in Do(w, step).calls
    ensures step.Send? && step.id == id
    ensures var c := Do(w, step).calls[id];
            && c.client == step.client && c.node == step.node && c.key == step.key && c.op == step.op
            && Dominates(c.token, SessionOf(w, c.client)) && Dominates(c.token, step.explicit)
            && forall a :: Get(c.token, a) == Max(Get(SessionOf(w, c.client), a), Get(step.explicit, a))
  {
    MergeIsJoin(SessionOf(w, step.client), step.explicit, SessionOf(w, step.client));
  }

  /** A request carries everything its session had heard when it was sent. */
  lemma {:induction false} RequestCarriesSession(steps: seq<Step>, i: nat, id: nat)
    requires i <= |steps| && id !in Run(steps[..i]).calls && id in Run(steps).calls
    ensures var c := Run(steps).calls[id]; Dominates(c.token, SessionOf(Run(steps[..i]), c.client))
  {
    assert steps[..|steps|] == steps;
    var last := |steps| - 1;
    assert steps[..last][..i] == steps[..i];
    if id in Run(steps[..last]).calls {
      RequestCarriesSession(steps[..last], i, id);
      StepContinues(Run(steps[..last]), steps[last], id);
    } else {
      JustSent(steps[..last], steps[last], i, id);
    }
  }

  lemma JustSent(steps: seq<Step>, step: Step, i: nat, id: nat)
    requires i <= |steps| && id !in Run(steps).calls && id in Do(Run(steps), step).calls
    ensures var c := Do(Run(steps), step).calls[id]; Dominates(c.token, SessionOf(Run(steps[..i]), c.client))
  {
    var c := Do(Run(steps), step).calls[id];
    NewCall(Run(steps), step, id);
    SessionGrows(steps, i, c.client);
    DominatesTransitive(c.token, SessionOf(Run(steps), c.client), SessionOf(Run(steps[..i]), c.client));
  }

  /**
   In every run, for every client and whichever nodes serve it: a response to a request sent
   after an earlier response was heard has a token, and shows an entry with a context, that
   dominate the earlier token and the session token of that time.
   */
  lemma SessionMonotone(steps: seq<Step>, i: nat, earlier: nat, later: nat)
    requires i <= |steps|
    requires earlier in Run(steps[..i]).calls && Run(steps[..i]).calls[earlier].heard
    requires later !in Run(steps[..i]).calls && later in Run(steps).calls
    requires Run(steps).calls[later].reply.Some? && Run(steps).calls[later].client == Run(steps[..i]).calls[earlier].client
    ensures var before := Run(steps[..i]).calls[earlier];
            var c := Run(steps).calls[later];
            && c.answer.Some? && before.reply.Some?
            && Dominates(c.reply.value, before.reply.value) && Dominates(c.answer.value.context, before.reply.value)
            && Dominates(c.reply.value, SessionOf(Run(steps[..i]), c.client))
            && Dominates(c.answer.value.context, SessionOf(Run(steps[..i]), c.client))
  {
    RunKeeps(steps[..i]);
    RunKeeps(steps);
    var w, c := Run(steps[..i]), Run(steps).calls[later];
    assert CallOk(w, w.calls[earlier]) && CallOk(Run(steps), c);
    RequestCarriesSession(steps, i, later);
    CarriedOn(c.answer.value.context, c.reply.value, c.token, SessionOf(w, c.client), w.calls[earlier].reply.value);
  }

  lemma CarriedOn(context: VersionVector, reply: VersionVector, token: VersionVector, session: VersionVector, earlier: VersionVector)
    requires Dominates(context, token) && Dominates(reply, token) && Dominates(token, session) && Dominates(session, earlier)
    ensures Dominates(context, session) && Dominates(reply, session) && Dominates(context, earlier) && Dominates(reply, earlier)
  {
    DominatesTransitive(context, token, session);
    DominatesTransitive(reply, token, session);
    DominatesTransitive(context, session, earlier);
    DominatesTransitive(reply, session, earlier);
  }

  // ---- Exactly what tokens contain ----

  /** The token sent back is the node's clock at that moment, which has seen the entry. */
  lemma ReplyCarriesClock(w: World, id: nat)
    requires id in w.calls && Answerable(w, w.calls[id])
    ensures id in DoReply(w, id).calls
    ensures DoReply(w, id).calls[id].reply == Some(w.sys.nodes[w.calls[id].node].clock)
  {
    P.ReplyIsClock(w.sys.nodes[w.calls[id].node], w.calls[id].answer.value);
  }

  /** The client has heard this response, and it reaches the counter. */
  predicate Reaches(c: Call, client: nat, a: Actor, n: nat) {
    c.client == client && c.heard && c.reply.Some? && n <= Get(c.reply.value, a)
  }

  ghost predicate HeardUpTo(w: World, client: nat, a: Actor, n: nat) {
    exists id | id in w.calls :: Reaches(w.calls[id], client, a, n)
  }

  lemma StepReaches(w: World, step: Step, client: nat, a: Actor, n: nat)
    requires HeardUpTo(w, client, a, n)
    ensures HeardUpTo(Do(w, step), client, a, n)
  {
    var id :| id in w.calls && Reaches(w.calls[id], client, a, n);
    StepContinues(w, step, id);
    assert Reaches(Do(w, step).calls[id], client, a, n);
  }

  lemma StepHears(w: World, step: Step, client: nat, a: Actor, n: nat)
    requires n <= Get(SessionOf(Do(w, step), client), a) && !(n <= Get(SessionOf(w, client), a))
    ensures HeardUpTo(Do(w, step), client, a, n)
  {
    assert step.Hear? && step.id in w.calls && w.calls[step.id].reply.Some?;
    assert Reaches(Do(w, step).calls[step.id], client, a, n);
  }

  lemma {:induction false} SessionVouched(steps: seq<Step>, client: nat, a: Actor, n: nat)
    requires 0 < n <= Get(SessionOf(Run(steps), client), a)
    ensures HeardUpTo(Run(steps), client, a, n)
  {
    assert steps != [];
    var before, step := steps[..|steps| - 1], steps[|steps| - 1];
    if n <= Get(SessionOf(Run(before), client), a) {
      SessionVouched(before, client, a, n);
      StepReaches(Run(before), step, client, a, n);
    } else {
      StepHears(Run(before), step, client, a, n);
    }
  }

  /** In every run, a session's token is exactly the join of the tokens it has heard. */
  lemma SessionIsWhatWasHeard(steps: seq<Step>, client: nat, a: Actor, n: nat)
    requires n > 0
    ensures n <= Get(SessionOf(Run(steps), client), a) <==> HeardUpTo(Run(steps), client, a, n)
  {
    var w := Run(steps);
    if n <= Get(SessionOf(w, client), a) {
      SessionVouched(steps, client, a, n);
    }
    if HeardUpTo(w, client, a, n) {
      var id :| id in w.calls && Reaches(w.calls[id], client, a, n);
      RunKeeps(steps);
      assert CallOk(w, w.calls[id]);
      DominatesGet(SessionOf(w, client), w.calls[id].reply.value);
    }
  }
}
