/**
 Digest-driven anti-entropy between two replicas (src/distsys/replication/digest.py,
 src/distsys/replication/anti_entropy.py, the digest handler of src/distsys/crdt_service.py
 and the adapter in src/distsys/replication/peer_client.py).

 A round is described key by key; the method below performs it over whole stores.
 */
module AntiEntropy {
  import opened Outcomes
  import opened Causal
  import opened Crdt
  import opened Storage
  import opened History
  import opened Replica
  import opened Order

  datatype Digest = Digest(key: Key, ty: CrdtType, version: VersionVector, context: VersionVector)

  function DigestOf(e: Entry): Digest {
    Digest(e.key, e.Type(), e.version, e.context)
  }

  datatype DigestRelation = Same | LocalAhead | RemoteAhead | Diverged | MetadataOnly

  function CompareDigests(l: Digest, r: Digest): Result<DigestRelation> {
    if l.key != r.key || l.ty != r.ty then Err(InvalidValue)
    else
      match Relate(l.version, r.version)
      case Equal => Ok(if l.context == r.context then Same else MetadataOnly)
      case After => Ok(LocalAhead)
      case Before => Ok(RemoteAhead)
      case Concurrent => Ok(Diverged)
  }

  function At(entries: Entries, k: Key): Option<Entry> {
    if k in entries then Some(entries[k]) else None
  }

  /** The digest handler: equal versions let the sender's context in, without any state. */
  function Noticed(r: Option<Entry>, d: Digest): Option<Entry> {
    if r.Some? && r.value.Type() == d.ty && r.value.version == d.version
    then Some(r.value.(context := Merge(r.value.context, d.context))) else r
  }

  function MergeTo(o: Option<Entry>, e: Entry): Result<Entry> {
    if o.None? then Ok(e) else MergeEntries(o.value, e)
  }

  /** One key at both replicas, and whether anything was transferred for it. */
  datatype Pair = Pair(local: Option<Entry>, remote: Option<Entry>, repaired: bool)

  function Fetch(l: Option<Entry>, r: Entry): Result<Pair> {
    match MergeTo(l, r)
    case Ok(m) => Ok(Pair(Some(m), Some(r), true))
    case Err(e) => Err(e)
  }

  function Push(l: Entry, r: Option<Entry>): Result<Pair> {
    match MergeTo(r, l)
    case Ok(m) => Ok(Pair(Some(l), Some(m), true))
    case Err(e) => Err(e)
  }

  /** What the loop does for a key that both digests list. */
  function Reconcile(l: Entry, r: Entry): Result<Pair> {
    match CompareDigests(DigestOf(l), DigestOf(r))
    case Err(e) => Err(e)
    case Ok(Same) => Ok(Pair(Some(l), Some(r), false))
    case Ok(MetadataOnly) =>
      var context := Merge(l.context, r.context);
      var l' := l.(context := Merge(l.context, context));
      Ok(Pair(Some(l'), Noticed(Some(r), DigestOf(l').(context := context)), true))
    case Ok(LocalAhead) => Push(l, Some(r))
    case Ok(RemoteAhead) => Fetch(Some(l), r)
    case Ok(Diverged) =>
      match Fetch(Some(l), r)
      case Err(e) => Err(e)
      case Ok(p) => Push(p.local.value, Some(r))
  }

  /** A key after the digests have been exchanged; listed and shown say which digests mention it. */
  function Settle(l: Option<Entry>, r: Option<Entry>, listed: bool, shown: bool): Result<Pair>
    requires listed ==> l.Some?
    requires shown ==> r.Some?
    requires listed || shown
  {
    if !listed then Fetch(l, r.value)
    else if !shown then Push(l.value, r)
    else Reconcile(l.value, r.value)
  }

  /** A whole round for one key: the digest exchange, then the repair. */
  function Round(l: Option<Entry>, r: Option<Entry>, listed: bool, shown: bool): Result<Pair>
    requires listed ==> l.Some?
    requires shown ==> r.Some?
    requires listed || shown
  {
    Settle(l, if listed then Noticed(r, DigestOf(l.value)) else r, listed, shown)
  }

  /** A round in which both digests list every key their replica has. */
  function FullRound(l: Option<Entry>, r: Option<Entry>): Result<Pair>
    requires l.Some? || r.Some?
  {
    Round(l, r, l.Some?, r.Some?)
  }

  // ---- One, two and three rounds ----

  /** The two copies of a key at good replicas. */
  ghost predicate GoodPair(log: Log, l: Option<Entry>, r: Option<Entry>) {
    && (l.Some? || r.Some?)
    && (l.Some? ==> EntryOk(log, l.value)) && (r.Some? ==> EntryOk(log, r.value))
    && (l.Some? && r.Some? ==> l.value.key == r.value.key && l.value.Type() == r.value.Type())
  }

  /** The join of what the two replicas hold. */
  function Join(l: Option<Entry>, r: Option<Entry>): Result<Entry>
    requires l.Some? || r.Some?
  {
    if l.None? then Ok(r.value) else MergeTo(r, l.value)
  }

  /** The round for equal versions, states aside: both contexts become the join. */
  lemma MetadataRound(l: Entry, r: Entry)
    requires l.key == r.key && l.state == r.state && l.version == r.version
    ensures var j := l.(context := Merge(l.context, r.context));
            FullRound(Some(l), Some(r)) == Ok(Pair(Some(j), Some(j), !Dominates(l.context, r.context)))
  {
    var c := Merge(l.context, r.context);
    MergeLaws(l.context, r.context, r.context);
    MergeLaws(l.context, l.context, r.context);
    MergeLaws(c, c, c);
    MergeAbsorbs(l.context, r.context);
    DominatesAntisymmetric(l.version, r.version);
    MetadataSettles(l, l.(context := c), c);
  }

  /** Once the remote context is the join, the local one is raised to it unless it is there already. */
  lemma MetadataSettles(l: Entry, r: Entry, c: VersionVector)
    requires l.key == r.key && l.state == r.state && Relate(l.version, r.version) == Equal
    requires l.version == r.version && r.context == c && Merge(l.context, c) == c && Merge(c, c) == c
    ensures Reconcile(l, r) == Ok(Pair(Some(l.(context := c)), Some(l.(context := c)), l.context != c))
  {
  }

  lemma JoinEqual(log: Log, l: Entry, r: Entry)
    requires GoodPair(log, Some(l), Some(r)) && l.version == r.version
    ensures l.state == r.state
    ensures Join(Some(l), Some(r)) == Ok(l.(context := Merge(l.context, r.context)))
  {
    DominatesAntisymmetric(l.version, r.version);
    DominatingAbsorbs(log, l, r);
  }

  lemma Unnoticed(l: Entry, r: Entry)
    requires l.version != r.version
    ensures Noticed(Some(r), DigestOf(l)) == Some(r)
  {
  }

  /** Different versions, one ahead: the entry ahead travels, in whichever direction. */
  lemma AheadTravels(l: Entry, r: Entry, m: Entry)
    requires l.key == r.key && l.Type() == r.Type()
    requires l.version != r.version && Dominates(l.version, r.version)
    requires MergeEntries(r, l) == Ok(m)
    ensures FullRound(Some(l), Some(r)) == Ok(Pair(Some(l), Some(m), true))
    ensures FullRound(Some(r), Some(l)) == Ok(Pair(Some(m), Some(l), true))
  {
    Unnoticed(l, r);
    Unnoticed(r, l);
    DominatesAntisymmetric(l.version, r.version);
  }

  lemma AheadRound(log: Log, l: Entry, r: Entry)
    requires GoodPair(log, Some(l), Some(r)) && l.version != r.version && Dominates(l.version, r.version)
    ensures FullRound(Some(l), Some(r)) == Ok(Pair(Some(l), Some(l.(context := Merge(l.context, r.context))), true))
    ensures FullRound(Some(r), Some(l)) == Ok(Pair(Some(l.(context := Merge(l.context, r.context))), Some(l), true))
    ensures Join(Some(l), Some(r)) == Join(Some(r), Some(l)) == Ok(l.(context := Merge(l.context, r.context)))
  {
    DominatingAbsorbs(log, l, r);
    AheadTravels(l, r, l.(context := Merge(l.context, r.context)));
  }

  /** Diverged versions: the merge is made here and sent back. */
  lemma BothTravel(l: Entry, r: Entry, j: Entry)
    requires l.key == r.key && l.Type() == r.Type()
    requires !Dominates(l.version, r.version) && !Dominates(r.version, l.version)
    requires MergeEntries(l, r) == Ok(j) && MergeEntries(r, j) == Ok(j)
    ensures FullRound(Some(l), Some(r)) == Ok(Pair(Some(j), Some(j), true))
  {
  }

  lemma DivergedRound(log: Log, l: Entry, r: Entry)
    requires GoodPair(log, Some(l), Some(r))
    requires !Dominates(l.version, r.version) && !Dominates(r.version, l.version)
    ensures Join(Some(l), Some(r)).Ok?
    ensures var j := Join(Some(l), Some(r)).value;
            FullRound(Some(l), Some(r)) == Ok(Pair(Some(j), Some(j), true))
  {
    JoinAbsorbs(log, l, r);
    BothTravel(l, r, MergeEntries(l, r).value);
  }

  /** The entry both replicas are heading for. */
  ghost predicate Converging(p: Pair, j: Entry) {
    && p.local.Some? && p.remote.Some?
    && p.local.value.key == p.remote.value.key == j.key
    && p.local.value.state == p.remote.value.state == j.state
    && p.local.value.version == p.remote.value.version == j.version
    && Merge(p.local.value.context, p.remote.value.context) == j.context
  }

  /** One round: both replicas hold the join, state and version. */
  lemma FirstRound(log: Log, l: Option<Entry>, r: Option<Entry>)
    requires GoodPair(log, l, r)
    ensures Join(l, r).Ok? && EntryOk(log, Join(l, r).value)
    ensures FullRound(l, r).Ok? && Converging(FullRound(l, r).value, Join(l, r).value)
    ensures GoodPair(log, FullRound(l, r).value.local, FullRound(l, r).value.remote)
  {
    if l.None? || r.None? {
      var e := if l.None? then r.value else l.value;
      MergeLaws(e.context, e.context, e.context);
      assert Noticed(None, DigestOf(e)) == None;
    } else {
      var a, b := l.value, r.value;
      MergeOk(log, b, a);
      var c := Merge(a.context, b.context);
      MergeLaws(a.context, b.context, c);
      MergeIsJoin(a.context, b.context, c);
      MergeAbsorbs(c, a.context);
      MergeAbsorbs(c, b.context);
      if a.version == b.version {
        JoinEqual(log, a, b);
        MetadataRound(a, b);
        MergeLaws(c, c, c);
        ContextFree(log, a, c);
      } else if Dominates(a.version, b.version) {
        AheadRound(log, a, b);
        MergeLaws(a.context, c, c);
        ContextFree(log, a, c);
      } else if Dominates(b.version, a.version) {
        AheadRound(log, b, a);
        MergeLaws(c, b.context, c);
        ContextFree(log, b, c);
      } else {
        DivergedRound(log, a, b);
        MergeLaws(c, c, c);
      }
    }
  }

  /**
   Anti-entropy converges in two rounds and then falls silent: after one both replicas
   have the joined state and version, after two the whole entries are equal, contexts
   included, and a third transfers nothing.
   */
  lemma ThreeRounds(log: Log, l: Option<Entry>, r: Option<Entry>)
    requires GoodPair(log, l, r)
    ensures Join(l, r).Ok? && FullRound(l, r).Ok?
    ensures var j, p := Join(l, r).value, FullRound(l, r).value;
            && Converging(p, j)
            && FullRound(p.local, p.remote).Ok?
            && var q := FullRound(p.local, p.remote).value;
               && q.local == Some(j) && q.remote == Some(j)
               && FullRound(q.local, q.remote) == Ok(Pair(Some(j), Some(j), false))
  {
    FirstRound(log, l, r);
    var j, p := Join(l, r).value, FullRound(l, r).value;
    MetadataRound(p.local.value, p.remote.value);
    MetadataRound(j, j);
    MergeLaws(j.context, j.context, j.context);
    MergeAbsorbs(j.context, j.context);
  }

  /** A round counts as a repair exactly when a copy was missing, versions differed or the local context lacked something. */
  lemma RoundTransfers(log: Log, l: Option<Entry>, r: Option<Entry>)
    requires GoodPair(log, l, r)
    ensures FullRound(l, r).Ok?
    ensures FullRound(l, r).value.repaired <==>
            l.None? || r.None? || l.value.version != r.value.version || !Dominates(l.value.context, r.value.context)
  {
    FirstRound(log, l, r);
    if l.Some? && r.Some? {
      var a, b := l.value, r.value;
      if a.version == b.version {
        JoinEqual(log, a, b);
        MetadataRound(a, b);
      } else if Dominates(a.version, b.version) {
        AheadRound(log, a, b);
      } else if Dominates(b.version, a.version) {
        AheadRound(log, b, a);
      } else {
        DivergedRound(log, a, b);
      }
    }
  }

  /** A type conflict raises before anything of the key is touched. */
  lemma TypeConflictRaises(l: Entry, r: Entry)
    requires l.key == r.key && l.Type() != r.Type()
    ensures FullRound(Some(l), Some(r)) == Err(InvalidValue)
  {
  }

  // ---- The round over whole stores ----

  function NoticeOne(entries: Entries, d: Digest): Entries {
    var r := Noticed(At(entries, d.key), d);
    if r.Some? then entries[d.key := r.value] else entries
  }

  function NoticeAll(entries: Entries, incoming: seq<Digest>): Entries {
    if incoming == [] then entries
    else NoticeOne(NoticeAll(entries, incoming[..|incoming| - 1]), incoming[|incoming| - 1])
  }

  /** _handle_digest on the incoming digests. */
  method HandleDigest(remote: CrdtStore, incoming: seq<Digest>)
    requires remote.Valid()
    modifies remote
    ensures remote.Valid()
    ensures remote.entries == NoticeAll(old(remote.entries), incoming)
  {
    for i := 0 to |incoming|
      invariant remote.Valid()
      invariant remote.entries == NoticeAll(old(remote.entries), incoming[..i])
    {
      assert incoming[..i + 1][..i] == incoming[..i];
      var d := incoming[i];
      if d.key in remote.entries {
        var local := remote.entries[d.key];
        if local.Type() == d.ty && local.version == d.version {
          var raised := remote.MergeMetadata(d.key, d.context);
        } else {
          assert remote.entries[d.key := local] == remote.entries;
        }
      }
    }
    assert incoming[..|incoming|] == incoming;
  }

  /** Both stores, the number of repairs, and the error that ended the round early, if any. */
  datatype Progress = Progress(local: Entries, remote: Entries, repairs: nat, error: Option<Error>)

  /** The loop body for one key; a key that has vanished from its store is skipped. */
  function SettleOne(p: Progress, k: Key, listed: bool, shown: bool): Progress {
    var l, r := At(p.local, k), At(p.remote, k);
    var li, sh := listed && l.Some?, shown && r.Some?;
    if p.error.Some? || (!li && !sh) then p
    else
      match Settle(l, r, li, sh)
      case Err(e) => p.(error := Some(e))
      case Ok(q) => p.(local := p.local[k := q.local.value], remote := p.remote[k := q.remote.value],
                       repairs := p.repairs + if q.repaired then 1 else 0)
  }

  function SettleAll(p: Progress, keys: seq<Key>, listed: seq<Key>, shown: seq<Key>): Progress {
    if keys == [] then p
    else
      var k := keys[|keys| - 1];
      SettleOne(SettleAll(p, keys[..|keys| - 1], listed, shown), k, k in listed, k in shown)
  }

  function DigestsOf(local: Entries, listed: seq<Key>): (ds: seq<Digest>)
    requires forall k | k in listed :: k in local
  {
    seq(|listed|, i requires 0 <= i < |listed| => DigestOf(local[listed[i]]))
  }

  /** A whole round over two stores: the digest exchange, then the keys in order. */
  function RoundOf(local: Entries, remote: Entries, keys: seq<Key>, listed: seq<Key>, shown: seq<Key>): Progress
    requires forall k | k in listed :: k in local
  {
    SettleAll(Progress(local, NoticeAll(remote, DigestsOf(local, listed)), 0, None), keys, listed, shown)
  }

  /** fetch_state, then merge_entry into the local store. */
  method FetchKey(local: CrdtStore, state: Entry) returns (r: Result<Entry>)
    requires local.Valid()
    modifies local
    ensures local.Valid()
    ensures r == MergeTo(old(At(local.entries, state.key)), state)
    ensures local.entries == if r.Ok? then old(local.entries)[state.key := r.value] else old(local.entries)
  {
    r := local.MergeEntry(state);
  }

  /** The body of _reconcile_digest for a key both digests list. */
  method ReconcileKey(local: CrdtStore, remote: CrdtStore, k: Key) returns (r: Result<bool>)
    requires local != remote && local.Valid() && remote.Valid()
    requires k in local.entries && k in remote.entries
    modifies local, remote
    ensures local.Valid() && remote.Valid()
    ensures var p := Reconcile(old(local.entries[k]), old(remote.entries[k]));
            match p
            case Err(e) => r == Err(e) && local.entries == old(local.entries) && remote.entries == old(remote.entries)
            case Ok(q) =>
              && r == Ok(q.repaired)
              && local.entries == old(local.entries)[k := q.local.value]
              && remote.entries == old(remote.entries)[k := q.remote.value]
  {
    var l, m := local.entries[k], remote.entries[k];
    var relation := CompareDigests(DigestOf(l), DigestOf(m));
    if relation.Err? {
      return Err(relation.error);
    }
    match relation.value
    case Same =>
      assert local.entries[k := l] == local.entries && remote.entries[k := m] == remote.entries;
      r := Ok(false);
    case MetadataOnly =>
      var context := Merge(l.context, m.context);
      var raised := local.MergeMetadata(k, context);
      HandleDigest(remote, [DigestOf(raised.value).(context := context)]);
      assert [DigestOf(raised.value).(context := context)][..0] == [];
      r := Ok(true);
    case LocalAhead =>
      var sent := FetchKey(remote, l);
      assert local.entries[k := l] == local.entries;
      r := if sent.Ok? then Ok(true) else Err(sent.error);
    case RemoteAhead =>
      var fetched := FetchKey(local, m);
      assert remote.entries[k := m] == remote.entries;
      r := if fetched.Ok? then Ok(true) else Err(fetched.error);
    case Diverged =>
      var fetched := FetchKey(local, m);
      if fetched.Err? {
        return Err(fetched.error);
      }
      NoSecondClash(l, m);
      var sent := FetchKey(remote, fetched.value);
      r := Ok(true);
  }

  /** What merged here also merges there. */
  lemma NoSecondClash(l: Entry, r: Entry)
    requires MergeEntries(l, r).Ok?
    ensures MergeEntries(r, MergeEntries(l, r).value).Ok?
  {
  }

  /** A key one replica does not mention: fetch it, or send it. */
  method OneSidedKey(local: CrdtStore, remote: CrdtStore, k: Key, listed: bool) returns (r: Result<bool>)
    requires local != remote && local.Valid() && remote.Valid()
    requires if listed then k in local.entries else k in remote.entries
    modifies local, remote
    ensures local.Valid() && remote.Valid()
    ensures var p := if listed then Push(old(local.entries[k]), old(At(remote.entries, k)))
                               else Fetch(old(At(local.entries, k)), old(remote.entries[k]));
            match p
            case Err(e) => r == Err(e) && local.entries == old(local.entries) && remote.entries == old(remote.entries)
            case Ok(q) =>
              && r == Ok(q.repaired)
              && local.entries == old(local.entries)[k := q.local.value]
              && remote.entries == old(remote.entries)[k := q.remote.value]
  {
    var done;
    if listed {
      assert local.entries[k := local.entries[k]] == local.entries;
      done := FetchKey(remote, local.entries[k]);
    } else {
      assert remote.entries[k := remote.entries[k]] == remote.entries;
      done := FetchKey(local, remote.entries[k]);
    }
    r := if done.Ok? then Ok(true) else Err(done.error);
  }

  /** One pass of the loop of _reconcile_digest. */
  method SettleKey(local: CrdtStore, remote: CrdtStore, k: Key, listed: bool, shown: bool) returns (r: Result<bool>)
    requires local != remote && local.Valid() && remote.Valid()
    modifies local, remote
    ensures local.Valid() && remote.Valid()
    ensures SettleOne(Progress(old(local.entries), old(remote.entries), 0, None), k, listed, shown)
         == Progress(local.entries, remote.entries, if r == Ok(true) then 1 else 0, if r.Ok? then None else Some(r.error))
  {
    if listed && k in local.entries && shown && k in remote.entries {
      r := ReconcileKey(local, remote, k);
    } else if listed && k in local.entries {
      r := OneSidedKey(local, remote, k, true);
    } else if shown && k in remote.entries {
      r := OneSidedKey(local, remote, k, false);
    } else {
      r := Ok(false);
    }
  }

  lemma RepairsAdd(l: Entries, r: Entries, n: nat, k: Key, listed: bool, shown: bool)
    ensures var p, q := SettleOne(Progress(l, r, n, None), k, listed, shown), SettleOne(Progress(l, r, 0, None), k, listed, shown);
            p == q.(repairs := n + q.repairs)
  {
  }

  /**
   _reconcile_digest: exchange digests, then settle the keys in order. The first error
   leaves the loop; keys before it stay settled.
   */
  method ReconcileDigest(local: CrdtStore, remote: CrdtStore, keys: seq<Key>, listed: seq<Key>, shown: seq<Key>)
    returns (repairs: nat, error: Option<Error>)
    requires local != remote && local.Valid() && remote.Valid()
    requires forall k | k in listed :: k in local.entries
    modifies local, remote
    ensures local.Valid() && remote.Valid()
    ensures Progress(local.entries, remote.entries, repairs, error)
         == RoundOf(old(local.entries), old(remote.entries), keys, listed, shown)
  {
    HandleDigest(remote, DigestsOf(local.entries, listed));
    repairs, error := 0, None;
    ghost var start := Progress(local.entries, remote.entries, 0, None);
    for i := 0 to |keys|
      invariant local.Valid() && remote.Valid()
      invariant Progress(local.entries, remote.entries, repairs, error) == SettleAll(start, keys[..i], listed, shown)
    {
      assert keys[..i + 1][..i] == keys[..i];
      if error.None? {
        RepairsAdd(local.entries, remote.entries, repairs, keys[i], keys[i] in listed, keys[i] in shown);
        var done := SettleKey(local, remote, keys[i], keys[i] in listed, keys[i] in shown);
        if done.Err? {
          error := Some(done.error);
        } else if done.value {
          repairs := repairs + 1;
        }
      }
    }
    assert keys[..|keys|] == keys;
  }

  // ---- What a round over stores does to each key ----

  lemma {:induction false} NoticeAllAt(remote: Entries, local: Entries, listed: seq<Key>, k: Key)
    requires Distinct(listed) && Filed(local) && forall j | j in listed :: j in local
    ensures At(NoticeAll(remote, DigestsOf(local, listed)), k)
         == if k in listed then Noticed(At(remote, k), DigestOf(local[k])) else At(remote, k)
  {
    if listed != [] {
      var n := |listed| - 1;
      NoticeAllAt(remote, local, listed[..n], k);
      assert DigestsOf(local, listed)[..n] == DigestsOf(local, listed[..n]);
      assert listed == listed[..n] + [listed[n]];
    }
  }

  lemma {:induction false} SettleAllError(p: Progress, keys: seq<Key>, listed: seq<Key>, shown: seq<Key>, i: nat)
    requires i <= |keys| && SettleAll(p, keys, listed, shown).error.None?
    ensures SettleAll(p, keys[..i], listed, shown).error.None?
  {
    if i < |keys| {
      assert keys[..|keys| - 1][..i] == keys[..i];
      SettleAllError(p, keys[..|keys| - 1], listed, shown, i);
    } else {
      assert keys[..i] == keys;
    }
  }

  /** Keys are settled independently of one another. */
  lemma {:induction false} SettleAllAt(p: Progress, keys: seq<Key>, listed: seq<Key>, shown: seq<Key>, k: Key)
    requires Distinct(keys) && SettleAll(p, keys, listed, shown).error.None?
    ensures var q := SettleAll(p, keys, listed, shown);
            var one := if k in keys then SettleOne(p, k, k in listed, k in shown) else p;
            && p.error.None? && one.error.None?
            && At(q.local, k) == At(one.local, k) && At(q.remote, k) == At(one.remote, k)
  {
    if keys != [] {
      var n := |keys| - 1;
      var mid := SettleAll(p, keys[..n], listed, shown);
      SettleAllAt(p, keys[..n], listed, shown, k);
      assert keys == keys[..n] + [keys[n]];
      if keys[n] == k {
        assert k !in keys[..n];
      }
      SettleOneElsewhere(mid, keys[n], keys[n] in listed, keys[n] in shown, k);
    }
  }

  /** Settling a key depends on that key's copies alone and touches no other. */
  lemma SettleOneElsewhere(p: Progress, j: Key, listed: bool, shown: bool, k: Key)
    ensures var q := SettleOne(p, j, listed, shown);
            k != j ==> At(q.local, k) == At(p.local, k) && At(q.remote, k) == At(p.remote, k)
  {
  }

  lemma SettleOneIsRound(p: Progress, remote: Option<Entry>, k: Key, listed: bool, shown: bool)
    requires p.error.None? && SettleOne(p, k, listed, shown).error.None?
    requires listed ==> k in p.local
    requires shown ==> remote.Some?
    requires listed || shown
    requires At(p.remote, k) == if listed then Noticed(remote, DigestOf(p.local[k])) else remote
    ensures var q, r := SettleOne(p, k, listed, shown), Round(At(p.local, k), remote, listed, shown);
            r.Ok? && At(q.local, k) == r.value.local && At(q.remote, k) == r.value.remote
  {
    var l, r := At(p.local, k), At(p.remote, k);
    assert Settle(l, r, listed, shown) == Round(l, remote, listed, shown);
    BothPresent(l, r, listed, shown);
  }

  lemma BothPresent(l: Option<Entry>, r: Option<Entry>, listed: bool, shown: bool)
    requires (listed ==> l.Some?) && (shown ==> r.Some?) && (listed || shown)
    requires Settle(l, r, listed, shown).Ok?
    ensures Settle(l, r, listed, shown).value.local.Some? && Settle(l, r, listed, shown).value.remote.Some?
  {
  }

  /**
   The round of two stores is, for every key the digests mention, the round of that key;
   other keys are left alone.
   */
  lemma StoresRound(local: Entries, remote: Entries, keys: seq<Key>, listed: seq<Key>, shown: seq<Key>, k: Key)
    requires Distinct(keys) && Distinct(listed) && Filed(local)
    requires forall j | j in listed :: j in local
    requires forall j | j in shown :: j in remote
    requires k in keys <==> k in listed || k in shown
    requires RoundOf(local, remote, keys, listed, shown).error.None?
    ensures var q := RoundOf(local, remote, keys, listed, shown);
            if k in keys
            then var r := Round(At(local, k), At(remote, k), k in listed, k in shown);
                 r.Ok? && At(q.local, k) == r.value.local && At(q.remote, k) == r.value.remote
            else At(q.local, k) == At(local, k) && At(q.remote, k) == At(remote, k)
  {
    var start := Progress(local, NoticeAll(remote, DigestsOf(local, listed)), 0, None);
    NoticeAllAt(remote, local, listed, k);
    SettleAllAt(start, keys, listed, shown, k);
    if k in keys {
      SettleOneIsRound(start, At(remote, k), k, k in listed, k in shown);
    }
  }

  lemma SettleSucceeds(log: Log, l: Option<Entry>, r: Option<Entry>, listed: bool, shown: bool)
    requires GoodPair(log, l, r) && (listed || shown)
    requires (listed ==> l.Some?) && (shown ==> r.Some?)
    ensures Settle(l, r, listed, shown).Ok?
  {
    if l.Some? && r.Some? {
      JoinAbsorbs(log, l.value, r.value);
      BothMerge(l.value, r.value, listed, shown);
    }
  }

  lemma BothMerge(l: Entry, r: Entry, listed: bool, shown: bool)
    requires l.key == r.key && l.Type() == r.Type() && (listed || shown)
    requires MergeEntries(l, r).Ok? && MergeEntries(r, l).Ok?
    requires MergeEntries(r, MergeEntries(l, r).value).Ok?
    ensures Settle(Some(l), Some(r), listed, shown).Ok?
  {
    if listed && shown {
      BothListed(l, r);
    } else {
      assert Fetch(Some(l), r).Ok? && Push(l, Some(r)).Ok?;
    }
  }

  lemma BothListed(l: Entry, r: Entry)
    requires l.key == r.key && l.Type() == r.Type()
    requires MergeEntries(l, r).Ok? && MergeEntries(r, l).Ok?
    requires MergeEntries(r, MergeEntries(l, r).value).Ok?
    ensures Reconcile(l, r).Ok?
  {
    var c := CompareDigests(DigestOf(l), DigestOf(r));
    match c.value
    case Same =>
    case MetadataOnly =>
    case LocalAhead =>
      assert Reconcile(l, r) == Push(l, Some(r));
    case RemoteAhead =>
      assert Reconcile(l, r) == Fetch(Some(l), r);
    case Diverged =>
      var j := MergeEntries(l, r).value;
      PushSucceeds(j, r);
      assert Fetch(Some(l), r) == Ok(Pair(Some(j), Some(r), true));
      assert Reconcile(l, r) == Push(j, Some(r));
  }

  lemma PushSucceeds(l: Entry, r: Entry)
    requires MergeEntries(r, l).Ok?
    ensures Push(l, Some(r)).Ok?
  {
  }

  lemma NoticedPair(log: Log, l: Option<Entry>, r: Option<Entry>)
    requires GoodPair(log, l, r) && l.Some?
    ensures GoodPair(log, l, Noticed(r, DigestOf(l.value)))
  {
  }

  /** Good replicas without type conflicts: the round runs to its end. */
  lemma {:induction false} RoundSucceeds(log: Log, p: Progress, keys: seq<Key>, listed: seq<Key>, shown: seq<Key>)
    requires Distinct(keys) && p.error.None?
    requires forall k | k in keys ::
               && GoodPair(log, At(p.local, k), At(p.remote, k))
               && (k in listed ==> k in p.local) && (k in shown ==> k in p.remote)
    ensures SettleAll(p, keys, listed, shown).error.None?
  {
    if keys != [] {
      var n := |keys| - 1;
      var k := keys[n];
      assert forall j | j in keys[..n] :: j in keys;
      RoundSucceeds(log, p, keys[..n], listed, shown);
      SettleAllAt(p, keys[..n], listed, shown, k);
      assert k in keys && k !in keys[..n];
      if k in listed || k in shown {
        SettleSucceeds(log, At(p.local, k), At(p.remote, k), k in listed, k in shown);
      }
    }
  }

  /** The digests mention the keys, each exactly where the key is held. */
  predicate Complete(local: Entries, remote: Entries, keys: seq<Key>, listed: seq<Key>, shown: seq<Key>) {
    && Distinct(keys) && Distinct(listed)
    && (forall k | k in listed :: k in local && k in keys)
    && (forall k | k in shown :: k in remote && k in keys)
    && (forall k | k in keys :: (k in local ==> k in listed) && (k in remote ==> k in shown))
  }

  /** The key went through its full round. */
  predicate Followed(q: Progress, local: Entries, remote: Entries, k: Key) {
    && (k in local || k in remote)
    && var r := FullRound(At(local, k), At(remote, k));
       r.Ok? && At(q.local, k) == r.value.local && At(q.remote, k) == r.value.remote
  }

  /** One complete round over two good stores is the full round of every key. */
  lemma CompleteRound(log: Log, local: Entries, remote: Entries, keys: seq<Key>, listed: seq<Key>, shown: seq<Key>)
    requires Filed(local) && Complete(local, remote, keys, listed, shown)
    requires forall k | k in keys :: GoodPair(log, At(local, k), At(remote, k))
    ensures RoundOf(local, remote, keys, listed, shown).error.None?
    ensures forall k | k in keys :: Followed(RoundOf(local, remote, keys, listed, shown), local, remote, k)
  {
    var start := Progress(local, NoticeAll(remote, DigestsOf(local, listed)), 0, None);
    forall k | k in keys ensures GoodPair(log, At(start.local, k), At(start.remote, k)) && (k in shown ==> k in start.remote) {
      NoticeAllAt(remote, local, listed, k);
      if k in listed {
        NoticedPair(log, At(local, k), At(remote, k));
      }
    }
    RoundSucceeds(log, start, keys, listed, shown);
    forall k | k in keys
      ensures Followed(RoundOf(local, remote, keys, listed, shown), local, remote, k)
    {
      StoresRound(local, remote, keys, listed, shown, k);
    }
  }

  /** A round files what it stores under the key it belongs to. */
  lemma SettleKeepsKey(l: Option<Entry>, r: Option<Entry>, listed: bool, shown: bool, k: Key)
    requires (listed ==> l.Some?) && (shown ==> r.Some?) && (listed || shown)
    requires (l.Some? ==> l.value.key == k) && (r.Some? ==> r.value.key == k)
    requires Settle(l, r, listed, shown).Ok?
    ensures var q := Settle(l, r, listed, shown).value;
            q.local.Some? && q.remote.Some? && q.local.value.key == k && q.remote.value.key == k
  {
  }

  lemma {:induction false} SettleAllFiled(p: Progress, keys: seq<Key>, listed: seq<Key>, shown: seq<Key>)
    requires Filed(p.local) && Filed(p.remote)
    ensures Filed(SettleAll(p, keys, listed, shown).local) && Filed(SettleAll(p, keys, listed, shown).remote)
  {
    if keys != [] {
      var n := |keys| - 1;
      var k := keys[n];
      SettleAllFiled(p, keys[..n], listed, shown);
      var mid := SettleAll(p, keys[..n], listed, shown);
      SettleOneFiled(mid, k, k in listed, k in shown);
    }
  }

  lemma SettleOneFiled(p: Progress, k: Key, listed: bool, shown: bool)
    requires Filed(p.local) && Filed(p.remote)
    ensures Filed(SettleOne(p, k, listed, shown).local) && Filed(SettleOne(p, k, listed, shown).remote)
  {
    var l, r := At(p.local, k), At(p.remote, k);
    var li, sh := listed && l.Some?, shown && r.Some?;
    if (li || sh) && Settle(l, r, li, sh).Ok? {
      SettleKeepsKey(l, r, li, sh, k);
    }
  }

  lemma {:induction false} NoticeAllFiled(remote: Entries, incoming: seq<Digest>)
    requires Filed(remote)
    ensures Filed(NoticeAll(remote, incoming))
  {
    if incoming != [] {
      NoticeAllFiled(remote, incoming[..|incoming| - 1]);
    }
  }

  lemma RoundFiled(local: Entries, remote: Entries, keys: seq<Key>, listed: seq<Key>, shown: seq<Key>)
    requires Filed(local) && Filed(remote) && forall k | k in listed :: k in local
    ensures Filed(RoundOf(local, remote, keys, listed, shown).local)
    ensures Filed(RoundOf(local, remote, keys, listed, shown).remote)
  {
    NoticeAllFiled(remote, DigestsOf(local, listed));
    SettleAllFiled(Progress(local, NoticeAll(remote, DigestsOf(local, listed)), 0, None), keys, listed, shown);
  }

  /** Where two good copies of a key end up. */
  ghost predicate Settled(p: Progress, local: Entries, remote: Entries, k: Key) {
    && (k in local || k in remote) && k in p.local && k in p.remote
    && Join(At(local, k), At(remote, k)).Ok?
    && Converging(Pair(At(p.local, k), At(p.remote, k), true), Join(At(local, k), At(remote, k)).value)
  }

  /** One round over two stores: state and version of every mentioned key are the join, at both replicas. */
  lemma StoresFirstRound(log: Log, local: Entries, remote: Entries, keys: seq<Key>, listed: seq<Key>, shown: seq<Key>)
    requires Filed(local) && Complete(local, remote, keys, listed, shown)
    requires forall k | k in keys :: GoodPair(log, At(local, k), At(remote, k))
    ensures var p := RoundOf(local, remote, keys, listed, shown);
            && p.error.None?
            && (forall k | k in keys :: Settled(p, local, remote, k) && GoodPair(log, At(p.local, k), At(p.remote, k)))
  {
    var p := RoundOf(local, remote, keys, listed, shown);
    CompleteRound(log, local, remote, keys, listed, shown);
    forall k | k in keys ensures Settled(p, local, remote, k) && GoodPair(log, At(p.local, k), At(p.remote, k)) {
      assert Followed(p, local, remote, k);
      FirstRound(log, At(local, k), At(remote, k));
    }
  }

  /** Two rounds: the entries themselves are equal, contexts included, and are the join. */
  lemma StoresSecondRound(log: Log, local: Entries, remote: Entries, keys: seq<Key>, listed: seq<Key>, shown: seq<Key>)
    requires Filed(local) && Filed(remote) && Complete(local, remote, keys, listed, shown)
    requires forall k | k in keys :: GoodPair(log, At(local, k), At(remote, k))
    ensures var p := RoundOf(local, remote, keys, listed, shown);
            && (forall k | k in keys :: k in p.local && k in p.remote)
            && var q := RoundOf(p.local, p.remote, keys, keys, keys);
               && q.error.None?
               && forall k | k in keys ::
                    && (k in local || k in remote)
                    && Join(At(local, k), At(remote, k)).Ok?
                    && At(q.local, k) == At(q.remote, k) == Some(Join(At(local, k), At(remote, k)).value)
  {
    var p := RoundOf(local, remote, keys, listed, shown);
    StoresFirstRound(log, local, remote, keys, listed, shown);
    RoundFiled(local, remote, keys, listed, shown);
    assert forall k | k in keys :: Settled(p, local, remote, k);
    assert Complete(p.local, p.remote, keys, keys, keys);
    CompleteRound(log, p.local, p.remote, keys, keys, keys);
    var q := RoundOf(p.local, p.remote, keys, keys, keys);
    forall k | k in keys
      ensures At(q.local, k) == At(q.remote, k) == Some(Join(At(local, k), At(remote, k)).value)
    {
      assert Settled(p, local, remote, k) && Followed(q, p.local, p.remote, k);
      MetadataRound(p.local[k], p.remote[k]);
    }
  }

  lemma {:induction false} QuietNotice(local: Entries, remote: Entries, keys: seq<Key>)
    requires Filed(local) && forall k | k in keys :: k in local && k in remote && local[k] == remote[k]
    ensures NoticeAll(remote, DigestsOf(local, keys)) == remote
  {
    if keys != [] {
      var n := |keys| - 1;
      QuietNotice(local, remote, keys[..n]);
      assert DigestsOf(local, keys)[..n] == DigestsOf(local, keys[..n]);
      var e := local[keys[n]];
      MergeLaws(e.context, e.context, e.context);
      assert remote[keys[n] := e] == remote;
    }
  }

  lemma QuietOne(p: Progress, k: Key)
    requires k in p.local && k in p.remote && p.local[k] == p.remote[k]
    ensures SettleOne(p, k, true, true) == p
  {
  }

  lemma {:induction false} QuietSettle(p: Progress, keys: seq<Key>, all: seq<Key>)
    requires forall k | k in keys :: k in all && k in p.local && k in p.remote && p.local[k] == p.remote[k]
    ensures SettleAll(p, keys, all, all) == p
  {
    if keys != [] {
      QuietSettle(p, keys[..|keys| - 1], all);
      QuietOne(p, keys[|keys| - 1]);
    }
  }

  /** From then on a round transfers nothing and changes nothing. */
  lemma StoresQuiet(local: Entries, remote: Entries, keys: seq<Key>)
    requires Filed(local) && forall k | k in keys :: k in local && k in remote && local[k] == remote[k]
    ensures RoundOf(local, remote, keys, keys, keys) == Progress(local, remote, 0, None)
  {
    QuietNotice(local, remote, keys);
    QuietSettle(Progress(local, remote, 0, None), keys, keys);
  }

  /** Both stores hold the join of what the two had for the key. */
  predicate Joined(local: Entries, remote: Entries, q: Progress, k: Key) {
    && (k in local || k in remote) && k in q.local && k in q.remote
    && Join(At(local, k), At(remote, k)) == Ok(q.local[k]) && q.remote[k] == q.local[k]
  }

  /** The three rounds of two good stores. */
  lemma StoresConverge(log: Log, local: Entries, remote: Entries, keys: seq<Key>, listed: seq<Key>, shown: seq<Key>)
    requires Filed(local) && Filed(remote) && Complete(local, remote, keys, listed, shown)
    requires forall k | k in keys :: GoodPair(log, At(local, k), At(remote, k))
    ensures var first := RoundOf(local, remote, keys, listed, shown);
            && first.error.None? && (forall k | k in keys :: Settled(first, local, remote, k))
            && (forall k | k in keys :: k in first.local && k in first.remote)
            && var second := RoundOf(first.local, first.remote, keys, keys, keys);
               && second.error.None?
               && (forall k | k in keys :: Joined(local, remote, second, k))
               && RoundOf(second.local, second.remote, keys, keys, keys) == Progress(second.local, second.remote, 0, None)
  {
    StoresFirstRound(log, local, remote, keys, listed, shown);
    StoresSecondRound(log, local, remote, keys, listed, shown);
    var first := RoundOf(local, remote, keys, listed, shown);
    var second := RoundOf(first.local, first.remote, keys, keys, keys);
    RoundFiled(local, remote, keys, listed, shown);
    RoundFiled(first.local, first.remote, keys, keys, keys);
    forall k | k in keys ensures Joined(local, remote, second, k) {
      SecondJoined(local, remote, second, k);
    }
    StoresQuiet(second.local, second.remote, keys);
  }

  lemma SecondJoined(local: Entries, remote: Entries, q: Progress, k: Key)
    requires (k in local || k in remote) && Join(At(local, k), At(remote, k)).Ok?
    requires At(q.local, k) == At(q.remote, k) == Some(Join(At(local, k), At(remote, k)).value)
    ensures Joined(local, remote, q, k)
  {
  }

  // ---- Which keys the digests mention ----

  function Prefix<T>(s: seq<T>, limit: nat): seq<T> {
    if limit < |s| then s[..limit] else s
  }

  /** The response digest: the shared keys in order, as many as the request listed but at least one. */
  ghost function Shown(remote: set<string>, requested: nat): seq<string> {
    LessIsStrictTotal();
    Prefix(Sorted(remote, Less), Max(1, requested))
  }

  /**
   The response mentions every shared key of the remote replica exactly when the requester
   listed at least as many keys as there are, or there is at most one.
   */
  lemma ShownComplete(remote: set<string>, requested: nat)
    ensures (forall k | k in remote :: k in Shown(remote, requested)) <==> |remote| <= Max(1, requested)
  {
    LessIsStrictTotal();
    var all, limit := Sorted(remote, Less), Max(1, requested);
    if limit < |all| {
      assert all[limit] in remote;
      assert all[limit] !in all[..limit];
    }
  }

  /** The keys mentioned are the smallest ones, in order; every other one is larger. */
  lemma ShownAre(remote: set<string>, requested: nat, k: string, other: string)
    ensures var shown := Shown(remote, requested);
            && Ascending(shown, Less) && |shown| == (if |remote| < Max(1, requested) then |remote| else Max(1, requested))
            && (k in shown ==> k in remote)
            && (k in shown && other in remote && other !in shown ==> Less(k, other))
  {
    LessIsStrictTotal();
    var all, shown := Sorted(remote, Less), Shown(remote, requested);
    if k in shown && other in remote && other !in shown {
      var i :| 0 <= i < |shown| && shown[i] == k;
      var j :| 0 <= j < |all| && all[j] == other;
      assert forall x | 0 <= x < |shown| :: all[x] in shown;
    }
  }
}
