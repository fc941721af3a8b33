/**
 Causal repair and the request paths of one node (src/distsys/replication/causal_repair.py,
 src/distsys/crdt_service.py), each run from beginning to end. What survives interleaving with
 other requests, replication and crashes is proved in SessionRuns.
 */
module Sessions {
  import opened Outcomes
  import opened Causal
  import opened Crdt
  import opened Storage
  import opened History
  import opened Replica
  import opened Node

  // ---- Causal repair ----

  /** One peer's answer to a fetch: it failed, or it sent its entry (if any) and its clock frontier. */
  datatype Fetch = Failed | Fetched(entry: Option<Entry>, frontier: VersionVector)

  predicate Concerns(fetches: seq<Fetch>, key: Key) {
    forall f | f in fetches && f.Fetched? && f.entry.Some? :: f.entry.value.key == key
  }

  function Absorbed(entries: Entries, f: Fetch): Result<Entries> {
    if f.Failed? || f.entry.None? then Ok(entries)
    else
      match MergeInto(entries, f.entry.value)
      case Ok(m) => Ok(entries[m.key := m])
      case Err(e) => Err(e)
  }

  /** The store after merging the fetched entries in turn. */
  function Absorb(entries: Entries, fetches: seq<Fetch>): Result<Entries> {
    if fetches == [] then Ok(entries)
    else
      match Absorb(entries, fetches[..|fetches| - 1])
      case Ok(s) => Absorbed(s, fetches[|fetches| - 1])
      case Err(e) => Err(e)
  }

  /** The store as it stands when merging stops, at the end or at the first conflict. */
  function Settled(entries: Entries, fetches: seq<Fetch>): Entries {
    match Absorb(entries, fetches)
    case Ok(s) => s
    case Err(_) => if fetches == [] then entries else Settled(entries, fetches[..|fetches| - 1])
  }

  function KnownNext(k: VersionVector, f: Fetch): VersionVector {
    if f.Failed? then k
    else if f.entry.None? then Merge(k, f.frontier)
    else Merge(Merge(k, f.frontier), f.entry.value.context)
  }

  /** Everything the peers claim to have seen, on top of v. */
  function Known(v: VersionVector, fetches: seq<Fetch>): VersionVector {
    if fetches == [] then v else KnownNext(Known(v, fetches[..|fetches| - 1]), fetches[|fetches| - 1])
  }

  lemma {:induction false} AbsorbStops(entries: Entries, fetches: seq<Fetch>, i: nat)
    requires i <= |fetches| && Absorb(entries, fetches[..i]).Err?
    ensures Absorb(entries, fetches) == Absorb(entries, fetches[..i])
    ensures Settled(entries, fetches) == Settled(entries, fetches[..i])
  {
    if i < |fetches| {
      assert fetches[..|fetches| - 1][..i] == fetches[..i];
      AbsorbStops(entries, fetches[..|fetches| - 1], i);
    } else {
      assert fetches[..i] == fetches;
    }
  }

  /** The stores differ at most at the key. */
  ghost predicate OnlyAt(s: Entries, t: Entries, key: Key) {
    forall k | k != key :: (k in s <==> k in t) && (k in s ==> s[k] == t[k])
  }

  /** A stored context never exceeds what the local entry and the peers together know. */
  lemma {:induction false} AbsorbWithinKnown(entries: Entries, key: Key, fetches: seq<Fetch>)
    requires Filed(entries) && Concerns(fetches, key) && Absorb(entries, fetches).Ok?
    ensures var s := Absorb(entries, fetches).value;
            && Filed(s) && OnlyAt(entries, s, key)
            && Dominates(Known(ContextOf(entries, key), fetches), ContextOf(s, key))
  {
    if fetches != [] {
      var n := |fetches| - 1;
      AbsorbWithinKnown(entries, key, fetches[..n]);
      assert fetches[n] in fetches;
      var s := Absorb(entries, fetches[..n]).value;
      var k := Known(ContextOf(entries, key), fetches[..n]);
      if fetches[n].Fetched? && fetches[n].entry.Some? {
        AbsorbedWithin(s, fetches[n], k);
      } else if fetches[n].Fetched? {
        MergeIsJoin(k, fetches[n].frontier, k);
        DominatesTransitive(KnownNext(k, fetches[n]), k, ContextOf(s, key));
      }
    }
  }

  lemma AbsorbedWithin(s: Entries, f: Fetch, k: VersionVector)
    requires f.Fetched? && f.entry.Some? && MergeInto(s, f.entry.value).Ok?
    requires Dominates(k, ContextOf(s, f.entry.value.key))
    ensures Dominates(KnownNext(k, f), MergeInto(s, f.entry.value).value.context)
  {
  }

  /** What ensure leaves in the store, and what it answers. */
  datatype Repaired = Repaired(entries: Entries, answer: Result<VersionVector>)

  /**
   CausalRepairService.ensure as a function. Without remote replicas, or when the peers do
   not know the required frontier, it fails; otherwise the entry's context is raised to
   everything the peers claim to have seen.
   */
  function Ensure(entries: Entries, key: Key, required: VersionVector, fetches: seq<Fetch>): Repaired {
    var local := ContextOf(entries, key);
    if Dominates(local, required) then Repaired(entries, Ok(local))
    else if fetches == [] then Repaired(entries, Err(CausalUnavailable))
    else
      match Absorb(entries, fetches)
      case Err(e) => Repaired(Settled(entries, fetches), Err(e))
      case Ok(s) =>
        var known := Known(local, fetches);
        Repaired(if key in s then s[key := s[key].(context := known)] else s,
                 if Dominates(known, required) then Ok(known) else Err(CausalUnavailable))
  }

  /** The loop over the peers' answers; a type conflict aborts it with the merges done so far in place. */
  method AbsorbAnswers(store: CrdtStore, key: Key, fetches: seq<Fetch>) returns (r: Result<VersionVector>)
    requires store.Valid() && Concerns(fetches, key)
    modifies store
    ensures store.Valid()
    ensures store.entries == Settled(old(store.entries), fetches)
    ensures r.Ok? ==> Absorb(old(store.entries), fetches) == Ok(store.entries)
                      && r.value == Known(old(ContextOf(store.entries, key)), fetches)
    ensures r.Err? ==> Absorb(old(store.entries), fetches) == Err(r.error)
  {
    ghost var before := store.entries;
    var local := ContextOf(store.entries, key);
    var merged := local;
    for i := 0 to |fetches|
      invariant store.Valid()
      invariant Absorb(before, fetches[..i]) == Ok(store.entries)
      invariant merged == Known(local, fetches[..i])
    {
      assert fetches[..i + 1][..i] == fetches[..i];
      var f := fetches[i];
      if f.Fetched? {
        merged := Merge(merged, f.frontier);
        if f.entry.Some? {
          AbsorbWithinKnown(before, key, fetches[..i]);
          MergeIsJoin(Known(local, fetches[..i]), f.frontier, merged);
          DominatesTransitive(merged, Known(local, fetches[..i]), ContextOf(store.entries, key));
          assert f in fetches;
          ghost var current := store.entries;
          var done := store.MergeEntry(f.entry.value);
          if done.Err? {
            AbsorbStops(before, fetches, i + 1);
            return Err(done.error);
          }
          MergedContext(current, f.entry.value, merged);
          merged := Merge(merged, done.value.context);
        }
      }
    }
    assert fetches[..|fetches|] == fetches;
    return Ok(merged);
  }

  /** CausalRepairService.ensure. */
  method EnsureCausal(store: CrdtStore, key: Key, required: VersionVector, fetches: seq<Fetch>)
    returns (r: Result<VersionVector>)
    requires store.Valid() && Concerns(fetches, key)
    modifies store
    ensures store.Valid()
    ensures Repaired(store.entries, r) == Ensure(old(store.entries), key, required, fetches)
  {
    var local := ContextOf(store.entries, key);
    if Dominates(local, required) {
      return Ok(local);
    }
    if fetches == [] {
      return Err(CausalUnavailable);
    }
    ghost var before := store.entries;
    var answers := AbsorbAnswers(store, key, fetches);
    if answers.Err? {
      return Err(answers.error);
    }
    var merged := answers.value;
    AbsorbWithinKnown(before, key, fetches);
    if key in store.entries {
      var context := store.entries[key].context;
      MergeAbsorbs(merged, context);
      merged := Merge(merged, context);
      if context != merged {
        MergeLaws(context, merged, context);
        var raised := store.MergeMetadata(key, merged);
        merged := raised.value.context;
      }
    }
    if !Dominates(merged, required) {
      return Err(CausalUnavailable);
    }
    return Ok(merged);
  }

  /** Merging the stored entry's whole context adds no more than merging the fetched one's. */
  lemma MergedContext(s: Entries, e: Entry, merged: VersionVector)
    requires Dominates(merged, ContextOf(s, e.key)) && MergeInto(s, e).Ok?
    ensures Merge(merged, MergeInto(s, e).value.context) == Merge(merged, e.context)
  {
    if e.key in s {
      MergeLaws(merged, s[e.key].context, e.context);
      MergeAbsorbs(merged, s[e.key].context);
    }
  }

  /** A satisfied repair leaves other keys alone and an entry that has seen what was required. */
  lemma RepairSatisfies(entries: Entries, key: Key, required: VersionVector, fetches: seq<Fetch>)
    requires Filed(entries) && Concerns(fetches, key)
    requires Ensure(entries, key, required, fetches).answer.Ok?
    ensures var r := Ensure(entries, key, required, fetches);
            && OnlyAt(entries, r.entries, key)
            && Dominates(r.answer.value, required)
            && (key in r.entries ==> r.entries[key].context == r.answer.value)
            && Dominates(ContextOf(r.entries, key), ContextOf(entries, key))
  {
    if !Dominates(ContextOf(entries, key), required) {
      AbsorbWithinKnown(entries, key, fetches);
      KnownGrows(ContextOf(entries, key), fetches);
      if key in entries {
        AbsorbKeeps(entries, key, fetches);
      }
    }
  }

  lemma {:induction false} KnownGrows(v: VersionVector, fetches: seq<Fetch>)
    ensures Dominates(Known(v, fetches), v)
  {
    if fetches != [] {
      var n := |fetches| - 1;
      KnownGrows(v, fetches[..n]);
      var k, f := Known(v, fetches[..n]), fetches[n];
      if f.Fetched? {
        MergeIsJoin(k, f.frontier, k);
        if f.entry.Some? {
          MergeIsJoin(Merge(k, f.frontier), f.entry.value.context, k);
          DominatesTransitive(KnownNext(k, f), Merge(k, f.frontier), k);
        }
        DominatesTransitive(KnownNext(k, f), k, v);
      }
    }
  }

  lemma {:induction false} AbsorbKeeps(entries: Entries, key: Key, fetches: seq<Fetch>)
    requires Absorb(entries, fetches).Ok? && key in entries
    ensures key in Absorb(entries, fetches).value
  {
    if fetches != [] {
      AbsorbKeeps(entries, key, fetches[..|fetches| - 1]);
    }
  }

  // ---- When a repair succeeds ----

  /** The answer claims the counter, in the peer's frontier or in its entry's context. */
  predicate Claims(f: Fetch, a: Actor, n: nat) {
    f.Fetched? && (n <= Get(f.frontier, a) || (f.entry.Some? && n <= Get(f.entry.value.context, a)))
  }

  /** The counter stands in the local context or in some answer. */
  ghost predicate Reached(local: VersionVector, fetches: seq<Fetch>, a: Actor, n: nat) {
    n <= Get(local, a) || exists f :: f in fetches && Claims(f, a, n)
  }

  lemma ClaimsSnoc(fetches: seq<Fetch>, i: nat, a: Actor, n: nat)
    requires i + 1 == |fetches|
    ensures (exists f :: f in fetches && Claims(f, a, n)) <==> (exists f :: f in fetches[..i] && Claims(f, a, n)) || Claims(fetches[i], a, n)
  {
    assert fetches == fetches[..i] + [fetches[i]];
    assert fetches[i] in fetches;
  }

  /** What the peers are taken to know is exactly what the local context and their answers contain. */
  lemma {:induction false} KnownReached(local: VersionVector, fetches: seq<Fetch>, a: Actor, n: nat)
    ensures n <= Get(Known(local, fetches), a) <==> Reached(local, fetches, a, n)
  {
    if fetches != [] {
      var i := |fetches| - 1;
      KnownReached(local, fetches[..i], a, n);
      ClaimsSnoc(fetches, i, a, n);
    }
  }

  ghost predicate AllReached(local: VersionVector, fetches: seq<Fetch>, required: VersionVector) {
    forall a | a in required :: Reached(local, fetches, a, required[a])
  }

  lemma KnownDominates(local: VersionVector, fetches: seq<Fetch>, required: VersionVector)
    ensures Dominates(Known(local, fetches), required) <==> AllReached(local, fetches, required)
  {
    forall a | a in required
      ensures required[a] <= Get(Known(local, fetches), a) <==> Reached(local, fetches, a, required[a])
    {
      KnownReached(local, fetches, a, required[a]);
    }
  }

  /** The vector holds exactly the counters reached. */
  ghost predicate HoldsReached(v: VersionVector, local: VersionVector, fetches: seq<Fetch>) {
    forall a, n: nat :: n <= Get(v, a) <==> Reached(local, fetches, a, n)
  }

  /**
   A repair succeeds exactly when the local context suffices, or there were peers to ask, their
   entries could be merged, and every required counter stands in the local context, in some
   peer's frontier or in some peer's entry. Whether or not that was enough, the stored context
   is then raised to exactly the counters so reached.
   */
  lemma RepairSucceedsIff(entries: Entries, key: Key, required: VersionVector, fetches: seq<Fetch>)
    ensures var r, local := Ensure(entries, key, required, fetches), ContextOf(entries, key);
            && (r.answer.Ok? <==>
                  || Dominates(local, required)
                  || (fetches != [] && Absorb(entries, fetches).Ok? && AllReached(local, fetches, required)))
            && (!Dominates(local, required) && fetches != [] && Absorb(entries, fetches).Ok? ==>
                  && (r.answer.Ok? ==> HoldsReached(r.answer.value, local, fetches))
                  && (r.answer.Err? ==> r.answer == Err(CausalUnavailable))
                  && (key in r.entries ==> HoldsReached(r.entries[key].context, local, fetches)))
  {
    var local := ContextOf(entries, key);
    KnownDominates(local, fetches, required);
    forall a, n: nat ensures n <= Get(Known(local, fetches), a) <==> Reached(local, fetches, a, n) {
      KnownReached(local, fetches, a, n);
    }
  }

  /** All entries of the key, here and in the answers, have one CRDT type. */
  predicate OneType(entries: Entries, key: Key, fetches: seq<Fetch>) {
    && (forall f | f in fetches && f.Fetched? && f.entry.Some? && key in entries :: f.entry.value.Type() == entries[key].Type())
    && (forall f, g | f in fetches && g in fetches && f.Fetched? && g.Fetched? && f.entry.Some? && g.entry.Some? ::
          f.entry.value.Type() == g.entry.value.Type())
  }

  ghost predicate GoodAnswers(log: Log, entries: Entries, key: Key, fetches: seq<Fetch>) {
    && Concerns(fetches, key) && Filed(entries) && (key in entries ==> EntryOk(log, entries[key]))
    && forall f | f in fetches && f.Fetched? && f.entry.Some? :: EntryOk(log, f.entry.value)
  }

  /** The store after some merges: its entry of the key is good, and its type is that of all entries so far. */
  lemma {:induction false} AbsorbType(log: Log, entries: Entries, key: Key, fetches: seq<Fetch>)
    requires GoodAnswers(log, entries, key, fetches)
    ensures Absorb(entries, fetches).Ok? <==> OneType(entries, key, fetches)
    ensures Absorb(entries, fetches).Ok? ==>
              var s := Absorb(entries, fetches).value;
              && (key in s ==> s[key].key == key && EntryOk(log, s[key]))
              && (key in entries ==> key in s && s[key].Type() == entries[key].Type())
              && (forall f | f in fetches && f.Fetched? && f.entry.Some? :: key in s && s[key].Type() == f.entry.value.Type())
              && (key in s ==> key in entries || exists f :: f in fetches && f.Fetched? && f.entry.Some?)
  {
    if fetches != [] {
      var i := |fetches| - 1;
      assert fetches == fetches[..i] + [fetches[i]];
      AbsorbType(log, entries, key, fetches[..i]);
      assert fetches[i] in fetches;
      if Absorb(entries, fetches[..i]).Ok? {
        AbsorbNextType(log, Absorb(entries, fetches[..i]).value, key, fetches[i]);
      }
    }
  }

  lemma AbsorbNextType(log: Log, s: Entries, key: Key, f: Fetch)
    requires key in s ==> s[key].key == key && EntryOk(log, s[key])
    requires f.Fetched? && f.entry.Some? ==> f.entry.value.key == key && EntryOk(log, f.entry.value)
    ensures Absorbed(s, f).Ok? <==> (f.Fetched? && f.entry.Some? && key in s ==> s[key].Type() == f.entry.value.Type())
    ensures Absorbed(s, f).Ok? && f.Fetched? && f.entry.Some? ==>
              var t := Absorbed(s, f).value;
              key in t && t[key].key == key && EntryOk(log, t[key]) && t[key].Type() == f.entry.value.Type()
  {
    if f.Fetched? && f.entry.Some? && key in s {
      MergeOk(log, s[key], f.entry.value);
    }
  }

  /** The answer brings an entry whose version covers the dot. */
  predicate Brings(f: Fetch, d: Dot) {
    f.Fetched? && f.entry.Some? && Covers(f.entry.value.version, d)
  }

  lemma BringsSnoc(fetches: seq<Fetch>, n: nat, d: Dot)
    requires n + 1 == |fetches|
    ensures (exists f :: f in fetches && Brings(f, d)) <==> (exists f :: f in fetches[..n] && Brings(f, d)) || Brings(fetches[n], d)
  {
    assert fetches == fetches[..n] + [fetches[n]];
    assert fetches[n] in fetches;
  }

  lemma AbsorbedCovers(s: Entries, key: Key, f: Fetch, d: Dot)
    requires Absorbed(s, f).Ok? && (f.Fetched? && f.entry.Some? ==> f.entry.value.key == key)
    ensures Covers(VersionOf(Absorbed(s, f).value, key), d) <==> Covers(VersionOf(s, key), d) || Brings(f, d)
  {
    if f.Fetched? && f.entry.Some? && key in s {
      CoversJoin(s[key].version, f.entry.value.version, d);
    }
  }

  lemma {:induction false} AbsorbCovers(entries: Entries, key: Key, fetches: seq<Fetch>, d: Dot)
    requires Concerns(fetches, key) && Absorb(entries, fetches).Ok?
    ensures Covers(VersionOf(Absorb(entries, fetches).value, key), d) <==>
            Covers(VersionOf(entries, key), d) || exists f :: f in fetches && Brings(f, d)
  {
    if fetches != [] {
      var n := |fetches| - 1;
      AbsorbCovers(entries, key, fetches[..n], d);
      assert fetches[n] in fetches;
      AbsorbedCovers(Absorb(entries, fetches[..n]).value, key, fetches[n], d);
      BringsSnoc(fetches, n, d);
    }
  }

  /**
   When a repaired read shows a given write: exactly when the local entry or the entry of a
   replica that answered contains it. Neither the token nor the frontiers have a say.
   */
  lemma RepairDelivers(entries: Entries, key: Key, required: VersionVector, fetches: seq<Fetch>, d: Dot)
    requires Concerns(fetches, key) && !Dominates(ContextOf(entries, key), required)
    requires Ensure(entries, key, required, fetches).answer.Ok?
    ensures Covers(VersionOf(Ensure(entries, key, required, fetches).entries, key), d) <==>
            Covers(VersionOf(entries, key), d) || exists f :: f in fetches && Brings(f, d)
  {
    AbsorbCovers(entries, key, fetches, d);
  }

  // ---- Serving requests ----

  /** A successful response: the entry read or written, and the token sent back. */
  datatype Response = Response(entry: Entry, token: VersionVector)

  /** The guarantee of one request: the entry has seen the request's token, the new token has seen both. */
  predicate Served(token: VersionVector, r: Response) {
    Dominates(r.entry.context, token) && Dominates(r.token, r.entry.context) && Dominates(r.token, token)
  }

  /** The store a request goes on with, and the entry it finds there; None means the key is genuinely new. */
  datatype Prepared = Prepared(entries: Entries, answer: Result<Option<Entry>>)

  /**
   _ensure_causal as a function. An entry that has seen the token is used as it is; a missing
   one may be created if the node has seen the token and either the request may create it or
   there is nobody to ask; everything else needs a repair.
   */
  function PreparedFor(entries: Entries, frontier: VersionVector, key: Key, token: VersionVector,
                       fetches: seq<Fetch>, requireExisting: bool): Prepared {
    if key in entries && Dominates(entries[key].context, token) then Prepared(entries, Ok(Some(entries[key])))
    else if key !in entries && (!requireExisting || fetches == []) && Dominates(frontier, token) then Prepared(entries, Ok(None))
    else
      var r := Ensure(entries, key, token, fetches);
      Prepared(r.entries,
               match r.answer
               case Err(e) => Err(e)
               case Ok(_) => Ok(if key in r.entries then Some(r.entries[key]) else None))
  }

  /**
   A request is prepared exactly when the stored entry has seen the token, or the key may be
   created by a node that has, or a repair succeeds; and a key is reported new only by a node
   that has seen the token or has heard all of it from its peers.
   */
  lemma PreparedIff(entries: Entries, frontier: VersionVector, key: Key, token: VersionVector,
                    fetches: seq<Fetch>, requireExisting: bool)
    requires Filed(entries) && Concerns(fetches, key)
    ensures var p, local := PreparedFor(entries, frontier, key, token, fetches, requireExisting), ContextOf(entries, key);
            && (p.answer.Ok? <==>
                  || (key !in entries && (!requireExisting || fetches == []) && Dominates(frontier, token))
                  || Dominates(local, token)
                  || (fetches != [] && Absorb(entries, fetches).Ok? && AllReached(local, fetches, token)))
            && (p.answer.Ok? && p.answer.value.Some? ==> Dominates(p.answer.value.value.context, token))
            && (p.answer == Ok(None) ==> key !in entries && (Dominates(frontier, token) || AllReached(local, fetches, token)))
  {
    RepairSucceedsIff(entries, key, token, fetches);
    if Ensure(entries, key, token, fetches).answer.Ok? {
      RepairSatisfies(entries, key, token, fetches);
    }
    if key in entries && Absorb(entries, fetches).Ok? {
      AbsorbKeeps(entries, key, fetches);
    }
  }

  /**
   Exactly which writes the entry served to a request shows: those the local entry had and, if
   its context made the request ask the peers, those in the entries of the peers that answered.
   */
  lemma ReadDelivers(entries: Entries, frontier: VersionVector, key: Key, token: VersionVector,
                     fetches: seq<Fetch>, requireExisting: bool, d: Dot)
    requires Concerns(fetches, key)
    requires PreparedFor(entries, frontier, key, token, fetches, requireExisting).answer.Ok?
    requires PreparedFor(entries, frontier, key, token, fetches, requireExisting).answer.value.Some?
    ensures var e := PreparedFor(entries, frontier, key, token, fetches, requireExisting).answer.value.value;
            Covers(e.version, d) <==>
              || Covers(VersionOf(entries, key), d)
              || (!Dominates(ContextOf(entries, key), token) && exists f :: f in fetches && Brings(f, d))
  {
    if !Dominates(ContextOf(entries, key), token) {
      RepairDelivers(entries, key, token, fetches, d);
    }
  }

  /** The request paths of a node without a database. fetches are the answers of the remote replicas, if asked. */
  class CrdtService {
    const store: CrdtStore
    const clock: CausalClock

    ghost predicate Valid()
      reads this, store, clock
    {
      store.Valid() && !clock.locked
    }

    constructor (store: CrdtStore, clock: CausalClock)
      requires store.Valid() && !clock.locked
      ensures this.store == store && this.clock == clock && Valid()
    {
      this.store, this.clock := store, clock;
    }

    /** _ensure_causal: an entry that has seen the token, or none when the key is genuinely new. */
    method Prepare(key: Key, token: VersionVector, fetches: seq<Fetch>, requireExisting: bool)
      returns (r: Result<Option<Entry>>)
      requires Valid() && Concerns(fetches, key)
      modifies store
      ensures Valid()
      ensures Prepared(store.entries, r) == PreparedFor(old(store.entries), clock.frontier, key, token, fetches, requireExisting)
      ensures r.Ok? && r.value.Some? ==>
                key in store.entries && r.value.value == store.entries[key] && Dominates(r.value.value.context, token)
      ensures r.Ok? && r.value.None? ==> key !in store.entries
      ensures r.Ok? ==> OnlyAt(old(store.entries), store.entries, key)
      ensures r.Ok? ==> Dominates(ContextOf(store.entries, key), old(ContextOf(store.entries, key)))
    {
      if key in store.entries {
        if Dominates(store.entries[key].context, token) {
          return Ok(Some(store.entries[key]));
        }
      } else {
        if token == map[] && !requireExisting {
          return Ok(None);
        }
        if !requireExisting && Dominates(clock.frontier, token) {
          return Ok(None);
        }
        if fetches == [] && Dominates(clock.frontier, token) {
          return Ok(None);
        }
      }
      ghost var before := store.entries;
      var repaired := EnsureCausal(store, key, token, fetches);
      if repaired.Err? {
        return Err(repaired.error);
      }
      RepairSatisfies(before, key, token, fetches);
      if key in store.entries {
        return Ok(Some(store.entries[key]));
      }
      return Ok(None);
    }

    method Succeed(entry: Entry) returns (r: Response)
      requires Valid()
      modifies clock
      ensures Valid() && r.entry == entry
      ensures r.token == clock.frontier == Merge(old(clock.frontier), entry.context)
    {
      clock.Observe(entry.context);
      MergeIsJoin(old(clock.frontier), entry.context, entry.context);
      MergeAbsorbs(clock.frontier, entry.context);
      r := Response(entry, Merge(clock.frontier, entry.context));
    }

    method Read(key: Key, token: VersionVector, fetches: seq<Fetch>) returns (r: Result<Response>)
      requires Valid() && Concerns(fetches, key)
      modifies store, clock
      ensures Valid()
      ensures r.Ok? ==> Served(token, r.value) && Dominates(r.value.token, old(clock.frontier))
      ensures var p := PreparedFor(old(store.entries), old(clock.frontier), key, token, fetches, true);
              if key !in old(store.entries) && token == map[] then r == Err(KeyNotFound) && store.entries == old(store.entries)
              else && store.entries == p.entries
                   && match p.answer
                      case Err(e) => r == Err(e)
                      case Ok(None) => r == Err(KeyNotFound)
                      case Ok(Some(e)) => r.Ok? && r.value.entry == e
      ensures clock.frontier == if r.Ok? then Merge(old(clock.frontier), r.value.entry.context) else old(clock.frontier)
    {
      if key !in store.entries && token == map[] {
        return Err(KeyNotFound);
      }
      var found := Prepare(key, token, fetches, true);
      if found.Err? {
        return Err(found.error);
      }
      if found.value.None? {
        return Err(KeyNotFound);
      }
      var entry := found.value.value;
      var response := Succeed(entry);
      Acknowledged(token, old(clock.frontier), response);
      return Ok(response);
    }

    /** The critical section of mutate: allocate, validate, apply, replace, advance the clock. */
    method CommitMutation(key: Key, request: Request, token: VersionVector) returns (r: Result<Entry>)
      requires Valid()
      modifies store, clock
      ensures Valid()
      ensures r.Ok? <==> Validate(request).Ok?
                         && PlanMutation(old(store.entries), old(clock.frontier), clock.actor, key, Validate(request).value, token).Ok?
      ensures r.Ok? ==>
                var plan := PlanMutation(old(store.entries), old(clock.frontier), clock.actor, key, Validate(request).value, token);
                && plan.Ok? && r.value == plan.value.entry
                && store.entries == old(store.entries)[key := plan.value.entry] && clock.frontier == plan.value.frontier
      ensures r.Err? ==> store.entries == old(store.entries) && clock.frontier == old(clock.frontier)
    {
      if key in store.entries && store.entries[key].Type() != request.crdtType {
        return Err(TypeMismatch);
      }
      var observed := Merge(ContextOf(store.entries, key), token);
      var dot, frontier := clock.StageAllocation(observed);
      var op := Validate(request);
      if op.Err? {
        clock.Release(frontier, false);
        return Err(op.error);
      }
      var state := Apply(StateOf(store.entries, key, request.crdtType), op.value, dot);
      var context := WithDot(Merge(observed, frontier), dot);
      var next := Entry(key, state, WithDot(VersionOf(store.entries, key), dot), context);
      r := store.Replace(next, Some(next.Type()));
      clock.Release(frontier, true);
    }

    method Mutate(key: Key, request: Request, token: VersionVector, fetches: seq<Fetch>) returns (r: Result<Response>)
      requires Valid() && Concerns(fetches, key)
      modifies store, clock
      ensures Valid()
      ensures r.Ok? ==> Served(token, r.value) && Dominates(r.value.token, old(clock.frontier))
      ensures var p := PreparedFor(old(store.entries), old(clock.frontier), key, token, fetches, request.operation == "remove");
              && (r.Ok? <==>
                    && p.answer.Ok? && Validate(request).Ok?
                    && PlanMutation(p.entries, old(clock.frontier), clock.actor, key, Validate(request).value, token).Ok?)
              && if r.Err? then store.entries == p.entries && clock.frontier == old(clock.frontier)
                 else
                   var plan := PlanMutation(p.entries, old(clock.frontier), clock.actor, key, Validate(request).value, token);
                   && r.value.entry == plan.value.entry
                   && store.entries == p.entries[key := plan.value.entry]
                   && clock.frontier == Merge(plan.value.frontier, plan.value.entry.context)
    {
      var found := Prepare(key, token, fetches, request.operation == "remove");
      if found.Err? {
        return Err(found.error);
      }
      ghost var entries, frontier := store.entries, clock.frontier;
      var next := CommitMutation(key, request, token);
      if next.Err? {
        return Err(next.error);
      }
      MutationContext(entries, frontier, clock.actor, key, Validate(request).value, token);
      ghost var advanced := clock.frontier;
      var response := Succeed(next.value);
      Acknowledged(token, advanced, response);
      DominatesTransitive(response.token, advanced, frontier);
      return Ok(response);
    }
  }

  lemma Acknowledged(token: VersionVector, frontier: VersionVector, r: Response)
    requires Dominates(r.entry.context, token) && r.token == Merge(frontier, r.entry.context)
    ensures Served(token, r) && Dominates(r.token, frontier)
  {
  }
}
