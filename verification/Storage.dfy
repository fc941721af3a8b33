/**
 Stored entries, their merge, and the in-memory store
 (src/distsys/storage/models.py, src/distsys/storage/crdt_store.py).
 */
module Storage {
  import opened Outcomes
  import opened Causal
  import opened Crdt

  type Key = s: string | s != "" witness "k"

  /** The CRDT type of an entry is the type of its state; the source checks that the two agree. */
  datatype Entry = Entry(key: Key, state: State, version: VersionVector, context: VersionVector) {
    function Type(): CrdtType {
      state.Type()
    }
  }

  type Entries = map<Key, Entry>

  function MergeEntries(l: Entry, r: Entry): (m: Result<Entry>)
    ensures m.Ok? ==> m.value.key == l.key == r.key && m.value.Type() == l.Type() == r.Type()
  {
    if l.key != r.key then Err(InvalidValue)
    else if l.Type() != r.Type() then Err(TypeMismatch)
    else
      match MergeStates(l.state, r.state)
      case Ok(s) => Ok(Entry(l.key, s, Merge(l.version, r.version), Merge(l.context, r.context)))
      case Err(e) => Err(e)
  }

  /** What a store holds for the incoming entry's key once it has been merged in. */
  function MergeInto(entries: Entries, incoming: Entry): (m: Result<Entry>)
    ensures m.Ok? ==> m.value.key == incoming.key
  {
    if incoming.key in entries then MergeEntries(entries[incoming.key], incoming) else Ok(incoming)
  }

  /** Every entry is filed under its own key. */
  predicate Filed(entries: Entries) {
    forall k | k in entries :: entries[k].key == k
  }

  class CrdtStore {
    var entries: Entries

    ghost predicate Valid()
      reads this
    {
      Filed(entries)
    }

    constructor ()
      ensures Valid() && entries == map[]
    {
      entries := map[];
    }

    /** Keys never change their CRDT type. */
    method Replace(entry: Entry, expected: Option<CrdtType>) returns (r: Result<Entry>)
      requires Valid()
      modifies this
      ensures Valid()
      ensures r.Ok? <==>
                old(entry.key in entries ==>
                      entries[entry.key].Type() == entry.Type() && (expected.Some? ==> expected.value == entry.Type()))
      ensures r.Ok? ==> r.value == entry && entries == old(entries)[entry.key := entry]
      ensures r.Err? ==> r == Err(TypeMismatch) && entries == old(entries)
    {
      if entry.key in entries {
        var existing := entries[entry.key];
        if expected.Some? && existing.Type() != expected.value {
          return Err(TypeMismatch);
        }
        if existing.Type() != entry.Type() {
          return Err(TypeMismatch);
        }
      }
      entries := entries[entry.key := entry];
      return Ok(entry);
    }

    method MergeEntry(incoming: Entry) returns (r: Result<Entry>)
      requires Valid()
      modifies this
      ensures Valid()
      ensures r == MergeInto(old(entries), incoming)
      ensures entries == if r.Ok? then old(entries)[incoming.key := r.value] else old(entries)
    {
      if incoming.key !in entries {
        r := Replace(incoming, None);
      } else {
        var existing := entries[incoming.key];
        r := MergeEntries(existing, incoming);
        if r.Ok? {
          r := Replace(r.value, Some(existing.Type()));
        }
      }
    }

    /** Raises only the context; the state and its version stay as they are. */
    method MergeMetadata(key: Key, context: VersionVector) returns (r: Option<Entry>)
      requires Valid()
      modifies this
      ensures Valid()
      ensures r.Some? <==> key in old(entries)
      ensures r.Some? ==> r.value == old(entries[key].(context := Merge(entries[key].context, context)))
      ensures entries == if r.Some? then old(entries)[key := r.value] else old(entries)
    {
      if key !in entries {
        return None;
      }
      var existing := entries[key];
      var updated := existing.(context := Merge(existing.context, context));
      var done := Replace(updated, Some(existing.Type()));
      return Some(updated);
    }
  }
}
