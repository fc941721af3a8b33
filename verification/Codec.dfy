/**
 The durable encoding of entries (src/distsys/persistence/codec.py), at the level of JSON trees.

 Printing and parsing JSON text are left to the library; whether a register's stored text is
 JSON at all is a parameter. The source's sorted tuples are listed with Order.Sorted.
 */
module Codec {
  import opened Outcomes
  import opened Causal
  import opened Crdt
  import opened Storage
  import opened Order

  datatype Json =
    | Null
    | Bool(truth: bool)
    | Int(number: int)
    | Float(text: string)
    | Str(chars: string)
    | List(items: seq<Json>)
    | Object(fields: map<string, Json>)

  /** dict.get: absent fields read as None. */
  function Field(j: Json, name: string): Json
    requires j.Object?
  {
    if name in j.fields then j.fields[name] else Null
  }

  /** isinstance(j, int), which also holds of the two booleans. */
  function AsInt(j: Json): Option<int> {
    match j
    case Int(n) => Some(n)
    case Bool(b) => Some(if b then 1 else 0)
    case _ => None
  }

  predicate HasInt(j: Json, name: string) {
    j.Object? && AsInt(Field(j, name)).Some?
  }

  // ---- Actors and dots ----

  function EncodeActor(a: Actor): Json {
    Object(map["node_id" := Str(a.nodeId), "incarnation" := Int(a.incarnation)])
  }

  function DecodeActor(j: Json): Result<Actor> {
    if !j.Object? then Err(TypeMismatch)
    else if !Field(j, "node_id").Str? || !HasInt(j, "incarnation") then Err(TypeMismatch)
    else
      var id, n := Field(j, "node_id").chars, AsInt(Field(j, "incarnation")).value;
      if id == "" || n < 0 then Err(InvalidValue) else Ok(Actor(id, n))
  }

  function EncodeDot(d: Dot): Json {
    Object(map["actor" := EncodeActor(d.actor), "counter" := Int(d.counter)])
  }

  function DecodeDot(j: Json): Result<Dot> {
    if !HasInt(j, "counter") then Err(TypeMismatch)
    else
      match DecodeActor(Field(j, "actor"))
      case Err(e) => Err(e)
      case Ok(a) =>
        var n := AsInt(Field(j, "counter")).value;
        if n < 1 then Err(InvalidValue) else Ok(Dot(a, n))
  }

  lemma DotRoundTrip(d: Dot)
    ensures DecodeActor(EncodeActor(d.actor)) == Ok(d.actor)
    ensures DecodeDot(EncodeDot(d)) == Ok(d)
  {
  }

  // ---- Loops that stop at the first bad item ----

  function Fold<S>(step: (S, Json) -> Result<S>, start: S, items: seq<Json>): Result<S> {
    if items == [] then Ok(start)
    else
      match Fold(step, start, items[..|items| - 1])
      case Err(e) => Err(e)
      case Ok(s) => step(s, items[|items| - 1])
  }

  lemma FoldSnoc<S>(step: (S, Json) -> Result<S>, start: S, items: seq<Json>, i: nat)
    requires i < |items|
    ensures Fold(step, start, items[..i + 1]) ==
            match Fold(step, start, items[..i]) case Err(e) => Err(e) case Ok(s) => step(s, items[i])
  {
    assert items[..i + 1][..i] == items[..i];
  }

  lemma {:induction false} FoldStops<S>(step: (S, Json) -> Result<S>, start: S, items: seq<Json>, i: nat)
    requires i <= |items| && Fold(step, start, items[..i]).Err?
    ensures Fold(step, start, items) == Fold(step, start, items[..i])
  {
    if i < |items| {
      assert items[..|items| - 1][..i] == items[..i];
      FoldStops(step, start, items[..|items| - 1], i);
    } else {
      assert items[..i] == items;
    }
  }

  // ---- Version vectors and grow-only counters ----

  type Tally = map<Actor, int>

  /** The constructors of VersionVector and GCounter: no negative counts, zeros dropped. */
  function Normalized(t: Tally): Result<Counts> {
    if exists a :: a in t && t[a] < 0 then Err(InvalidValue)
    else Ok(map a | a in t && t[a] != 0 :: t[a])
  }

  /** One entry of a version vector; the same actor may return only with the same counter. */
  function VectorItem(t: Tally, j: Json): Result<Tally> {
    if !HasInt(j, "counter") then Err(TypeMismatch)
    else
      match DecodeActor(Field(j, "actor"))
      case Err(e) => Err(e)
      case Ok(a) =>
        var n := AsInt(Field(j, "counter")).value;
        if a in t && t[a] != n then Err(InvalidValue) else Ok(t[a := n])
  }

  /** One component of a counter; the last one of an actor counts. */
  function CounterItem(t: Tally, j: Json): Result<Tally> {
    if !HasInt(j, "value") then Err(TypeMismatch)
    else
      match DecodeActor(Field(j, "actor"))
      case Err(e) => Err(e)
      case Ok(a) => Ok(t[a := AsInt(Field(j, "value")).value])
  }

  function Tallied(step: (Tally, Json) -> Result<Tally>, j: Json): Result<Counts> {
    if !j.List? then Err(TypeMismatch)
    else
      match Fold(step, map[], j.items)
      case Err(e) => Err(e)
      case Ok(t) => Normalized(t)
  }

  function DecodeVector(j: Json): Result<VersionVector> {
    Tallied(VectorItem, j)
  }

  function DecodeCounter(j: Json): Result<Counts> {
    Tallied(CounterItem, j)
  }

  method DecodeVersionVector(j: Json) returns (r: Result<VersionVector>)
    ensures r == DecodeVector(j)
  {
    if !j.List? {
      return Err(TypeMismatch);
    }
    var entries: Tally := map[];
    for i := 0 to |j.items|
      invariant Fold(VectorItem, map[], j.items[..i]) == Ok(entries)
    {
      FoldSnoc(VectorItem, map[], j.items, i);
      var item := j.items[i];
      if !HasInt(item, "counter") {
        FoldStops(VectorItem, map[], j.items, i + 1);
        return Err(TypeMismatch);
      }
      var actor := DecodeActor(Field(item, "actor"));
      if actor.Err? {
        FoldStops(VectorItem, map[], j.items, i + 1);
        return Err(actor.error);
      }
      var counter := AsInt(Field(item, "counter")).value;
      if actor.value in entries && entries[actor.value] != counter {
        FoldStops(VectorItem, map[], j.items, i + 1);
        return Err(InvalidValue);
      }
      entries := entries[actor.value := counter];
    }
    assert j.items[..|j.items|] == j.items;
    return Normalized(entries);
  }

  method DecodeGCounter(j: Json) returns (r: Result<Counts>)
    ensures r == DecodeCounter(j)
  {
    if !j.List? {
      return Err(TypeMismatch);
    }
    var components: Tally := map[];
    for i := 0 to |j.items|
      invariant Fold(CounterItem, map[], j.items[..i]) == Ok(components)
    {
      FoldSnoc(CounterItem, map[], j.items, i);
      var item := j.items[i];
      if !HasInt(item, "value") {
        FoldStops(CounterItem, map[], j.items, i + 1);
        return Err(TypeMismatch);
      }
      var actor := DecodeActor(Field(item, "actor"));
      if actor.Err? {
        FoldStops(CounterItem, map[], j.items, i + 1);
        return Err(actor.error);
      }
      components := components[actor.value := AsInt(Field(item, "value")).value];
    }
    assert j.items[..|j.items|] == j.items;
    return Normalized(components);
  }

  predicate ActorLess(a: Actor, b: Actor) {
    Less(a.nodeId, b.nodeId) || (a.nodeId == b.nodeId && a.incarnation < b.incarnation)
  }

  lemma ActorLessTotal()
    ensures StrictTotal(ActorLess)
  {
    forall a: Actor, b: Actor ensures !ActorLess(a, a) && (a == b || ActorLess(a, b) || ActorLess(b, a)) {
      LessTotal(a.nodeId, b.nodeId);
    }
    forall a: Actor, b: Actor, c: Actor | ActorLess(a, b) && ActorLess(b, c) ensures ActorLess(a, c) {
      if Less(a.nodeId, b.nodeId) && Less(b.nodeId, c.nodeId) {
        LessTransitive(a.nodeId, b.nodeId, c.nodeId);
      }
    }
  }

  function CountItem(name: string, a: Actor, n: Positive): Json {
    Object(map["actor" := EncodeActor(a), name := Int(n)])
  }

  /** The listed components, in the listed order. */
  function CountItems(name: string, v: Counts, actors: seq<Actor>): seq<Json>
    requires forall a | a in actors :: a in v
  {
    seq(|actors|, i requires 0 <= i < |actors| => assert actors[i] in actors; CountItem(name, actors[i], v[actors[i]]))
  }

  ghost function EncodeCounts(name: string, v: Counts): Json {
    ActorLessTotal();
    List(CountItems(name, v, Sorted(v.Keys, ActorLess)))
  }

  ghost function EncodeVector(v: VersionVector): Json {
    EncodeCounts("counter", v)
  }

  ghost function EncodeCounter(v: Counts): Json {
    EncodeCounts("value", v)
  }

  function Part(v: Counts, actors: seq<Actor>): Tally {
    map a | a in v && a in actors :: v[a]
  }

  lemma ItemRoundTrip(t: Tally, a: Actor, n: Positive)
    ensures CounterItem(t, CountItem("value", a, n)) == Ok(t[a := n])
    ensures a !in t || t[a] == n ==> VectorItem(t, CountItem("counter", a, n)) == Ok(t[a := n])
  {
  }

  lemma PartSnoc(v: Counts, actors: seq<Actor>, i: nat)
    requires i < |actors| && actors[i] in v
    ensures Part(v, actors[..i + 1]) == Part(v, actors[..i])[actors[i] := v[actors[i]]]
    ensures actors[i] in Part(v, actors[..i]) ==> Part(v, actors[..i])[actors[i]] == v[actors[i]]
  {
  }

  lemma {:induction false} FoldCounts(v: Counts, actors: seq<Actor>, i: nat)
    requires i <= |actors| && forall a | a in actors :: a in v
    ensures Fold(VectorItem, map[], CountItems("counter", v, actors)[..i]) == Ok(Part(v, actors[..i]))
    ensures Fold(CounterItem, map[], CountItems("value", v, actors)[..i]) == Ok(Part(v, actors[..i]))
  {
    if i > 0 {
      FoldCounts(v, actors, i - 1);
      FoldSnoc(VectorItem, map[], CountItems("counter", v, actors), i - 1);
      FoldSnoc(CounterItem, map[], CountItems("value", v, actors), i - 1);
      PartSnoc(v, actors, i - 1);
      ItemRoundTrip(Part(v, actors[..i - 1]), actors[i - 1], v[actors[i - 1]]);
    }
  }

  lemma NormalizedCounts(v: Counts, actors: seq<Actor>)
    requires forall a :: a in actors <==> a in v
    ensures Normalized(Part(v, actors)) == Ok(v)
  {
    var t := Part(v, actors);
    assert (map a | a in t && t[a] != 0 :: t[a]) == v;
  }

  lemma CountsListed(v: Counts, actors: seq<Actor>)
    requires forall a :: a in actors <==> a in v
    ensures DecodeVector(List(CountItems("counter", v, actors))) == Ok(v)
    ensures DecodeCounter(List(CountItems("value", v, actors))) == Ok(v)
  {
    FoldCounts(v, actors, |actors|);
    assert CountItems("counter", v, actors)[..|actors|] == CountItems("counter", v, actors);
    assert CountItems("value", v, actors)[..|actors|] == CountItems("value", v, actors);
    assert actors[..|actors|] == actors;
    NormalizedCounts(v, actors);
  }

  /** Decoding an encoded vector or counter gives it back. */
  lemma CountsRoundTrip(v: Counts)
    ensures DecodeVector(EncodeVector(v)) == Ok(v)
    ensures DecodeCounter(EncodeCounter(v)) == Ok(v)
  {
    ActorLessTotal();
    CountsListed(v, Sorted(v.Keys, ActorLess));
  }

  /** The encoding is canonical: whoever lists the components in ascending order writes the same tree. */
  lemma CountsCanonical(name: string, v: Counts, actors: seq<Actor>)
    requires Ascending(actors, ActorLess) && forall a :: a in actors <==> a in v
    ensures List(CountItems(name, v, actors)) == EncodeCounts(name, v)
  {
    ActorLessTotal();
    AscendingUnique(actors, Sorted(v.Keys, ActorLess), ActorLess);
  }

  // ---- Which trees are accepted ----

  /** The tree reads as this integer; the two booleans read as 1 and 0. */
  predicate Reads(j: Json, n: int) {
    j == Int(n) || (j == Bool(true) && n == 1) || (j == Bool(false) && n == 0)
  }

  /** The actor is spelled out, whatever other fields there are. */
  lemma DecodeActorIff(j: Json, a: Actor)
    ensures DecodeActor(j) == Ok(a) <==> j.Object? && Field(j, "node_id") == Str(a.nodeId) && Reads(Field(j, "incarnation"), a.incarnation)
  {
  }

  lemma DecodeDotIff(j: Json, d: Dot)
    ensures DecodeDot(j) == Ok(d) <==> j.Object? && DecodeActor(Field(j, "actor")) == Ok(d.actor) && Reads(Field(j, "counter"), d.counter)
  {
  }

  /** An item of a list of counts: its actor and its number. */
  function Item(j: Json, name: string): Option<(Actor, int)> {
    if HasInt(j, name) && DecodeActor(Field(j, "actor")).Ok?
    then Some((DecodeActor(Field(j, "actor")).value, AsInt(Field(j, name)).value)) else None
  }

  predicate AllItems(items: seq<Json>, name: string) {
    forall i | 0 <= i < |items| :: Item(items[i], name).Some?
  }

  predicate ListedIn(items: seq<Json>, name: string, a: Actor) {
    exists i | 0 <= i < |items| :: Item(items[i], name).Some? && Item(items[i], name).value.0 == a
  }

  /** Every item has the tally's number for its actor, and every actor of the tally is listed. */
  ghost predicate Agrees(items: seq<Json>, name: string, t: Tally) {
    && AllItems(items, name)
    && (forall i | 0 <= i < |items| :: var x := Item(items[i], name).value; x.0 in t && t[x.0] == x.1)
    && (forall a | a in t :: ListedIn(items, name, a))
  }

  /** No later item names the same actor. */
  predicate LastOf(items: seq<Json>, name: string, i: nat)
    requires i < |items| && AllItems(items, name)
  {
    forall k | i < k < |items| :: Item(items[k], name).value.0 != Item(items[i], name).value.0
  }

  /** The tally has for each actor the number of its last item. */
  ghost predicate EndsAs(items: seq<Json>, name: string, t: Tally) {
    && AllItems(items, name)
    && (forall i | 0 <= i < |items| :: Item(items[i], name).value.0 in t)
    && (forall i | 0 <= i < |items| && LastOf(items, name, i) :: t[Item(items[i], name).value.0] == Item(items[i], name).value.1)
    && (forall a | a in t :: ListedIn(items, name, a))
  }

  lemma VectorItemIff(t: Tally, j: Json)
    ensures var x := Item(j, "counter");
            VectorItem(t, j).Ok? <==> x.Some? && (x.value.0 in t ==> t[x.value.0] == x.value.1)
    ensures VectorItem(t, j).Ok? ==> var x := Item(j, "counter").value; VectorItem(t, j).value == t[x.0 := x.1]
  {
  }

  lemma CounterItemIff(t: Tally, j: Json)
    ensures CounterItem(t, j).Ok? <==> Item(j, "value").Some?
    ensures CounterItem(t, j).Ok? ==> var x := Item(j, "value").value; CounterItem(t, j).value == t[x.0 := x.1]
  {
  }

  lemma AllItemsSnoc(items: seq<Json>, name: string)
    requires items != []
    ensures AllItems(items, name) <==> AllItems(items[..|items| - 1], name) && Item(items[|items| - 1], name).Some?
  {
    var before := items[..|items| - 1];
    assert forall i | 0 <= i < |before| :: before[i] == items[i];
  }

  lemma ListedSnoc(items: seq<Json>, name: string, a: Actor)
    requires items != []
    ensures var before, last := items[..|items| - 1], items[|items| - 1];
            ListedIn(items, name, a) <==> ListedIn(before, name, a) || (Item(last, name).Some? && Item(last, name).value.0 == a)
  {
    var before := items[..|items| - 1];
    assert forall i | 0 <= i < |before| :: before[i] == items[i];
  }

  lemma {:induction false} VectorFolds(items: seq<Json>)
    ensures var r := Fold(VectorItem, map[], items); r.Ok? ==> Agrees(items, "counter", r.value)
  {
    if items != [] {
      var before, last := items[..|items| - 1], items[|items| - 1];
      VectorFolds(before);
      var r := Fold(VectorItem, map[], before);
      if r.Ok? && VectorItem(r.value, last).Ok? {
        VectorItemIff(r.value, last);
        AgreesMore(items, r.value);
      }
    }
  }

  lemma AgreesMore(items: seq<Json>, t: Tally)
    requires items != [] && Agrees(items[..|items| - 1], "counter", t)
    requires Item(items[|items| - 1], "counter").Some?
    requires var x := Item(items[|items| - 1], "counter").value; x.0 in t ==> t[x.0] == x.1
    ensures var x := Item(items[|items| - 1], "counter").value; Agrees(items, "counter", t[x.0 := x.1])
  {
    var before, x := items[..|items| - 1], Item(items[|items| - 1], "counter").value;
    AllItemsSnoc(items, "counter");
    forall i | 0 <= i < |items| ensures var y := Item(items[i], "counter").value; y.0 in t[x.0 := x.1] && t[x.0 := x.1][y.0] == y.1 {
      assert i < |before| ==> items[i] == before[i];
    }
    forall a | a in t[x.0 := x.1] ensures ListedIn(items, "counter", a) {
      ListedSnoc(items, "counter", a);
    }
  }

  /** The numbers do not contradict each other: then the loop runs to its end. */
  lemma {:induction false} VectorFoldSucceeds(items: seq<Json>, numbers: Actor -> int)
    requires AllItems(items, "counter")
    requires forall i | 0 <= i < |items| :: var x := Item(items[i], "counter").value; numbers(x.0) == x.1
    ensures Fold(VectorItem, map[], items).Ok?
    ensures forall a | a in Fold(VectorItem, map[], items).value :: Fold(VectorItem, map[], items).value[a] == numbers(a)
  {
    if items != [] {
      var before, last := items[..|items| - 1], items[|items| - 1];
      assert forall i | 0 <= i < |before| :: before[i] == items[i];
      VectorFoldSucceeds(before, numbers);
      VectorItemIff(Fold(VectorItem, map[], before).value, last);
    }
  }

  /** The vector has the number of every item and no actor that is not listed. */
  ghost predicate Counted(items: seq<Json>, v: Counts) {
    && AllItems(items, "counter")
    && (forall i | 0 <= i < |items| :: var x := Item(items[i], "counter").value; Get(v, x.0) == x.1)
    && (forall a | a in v :: ListedIn(items, "counter", a))
  }

  /** Exactly the lists of consistent, non-negative entries decode to a vector, and which vector that is. */
  lemma DecodeVectorIff(j: Json, v: VersionVector)
    ensures DecodeVector(j) == Ok(v) <==> j.List? && Counted(j.items, v)
  {
    if j.List? {
      VectorFolds(j.items);
      if Counted(j.items, v) {
        VectorFoldSucceeds(j.items, a => Get(v, a));
        NormalizedIs(Fold(VectorItem, map[], j.items).value, v);
      } else if DecodeVector(j) == Ok(v) {
        NormalizedGives(Fold(VectorItem, map[], j.items).value, v);
      }
    }
  }

  lemma NormalizedIs(t: Tally, v: Counts)
    requires (forall a | a in t :: t[a] == Get(v, a)) && forall a | a in v :: a in t
    ensures Normalized(t) == Ok(v)
  {
    assert (map a | a in t && t[a] != 0 :: t[a]) == v;
  }

  lemma NormalizedGives(t: Tally, v: Counts)
    requires Normalized(t) == Ok(v)
    ensures (forall a | a in t :: t[a] == Get(v, a)) && forall a | a in v :: a in t
  {
  }

  lemma {:induction false} CounterFolds(items: seq<Json>)
    ensures Fold(CounterItem, map[], items).Ok? <==> AllItems(items, "value")
    ensures AllItems(items, "value") ==> EndsAs(items, "value", Fold(CounterItem, map[], items).value)
  {
    if items != [] {
      var before, last := items[..|items| - 1], items[|items| - 1];
      CounterFolds(before);
      if AllItems(before, "value") {
        var t := Fold(CounterItem, map[], before).value;
        CounterItemIff(t, last);
        if Item(last, "value").Some? {
          EndsMore(items, t);
        }
      }
      AllItemsSnoc(items, "value");
    }
  }

  lemma LastBefore(items: seq<Json>, i: nat)
    requires i < |items| - 1 && AllItems(items, "value") && LastOf(items, "value", i)
    ensures AllItems(items[..|items| - 1], "value") && LastOf(items[..|items| - 1], "value", i)
    ensures Item(items[|items| - 1], "value").value.0 != Item(items[i], "value").value.0
  {
    AllItemsSnoc(items, "value");
    var before := items[..|items| - 1];
    assert forall k | 0 <= k < |before| :: before[k] == items[k];
  }

  lemma EndsMore(items: seq<Json>, t: Tally)
    requires items != [] && EndsAs(items[..|items| - 1], "value", t)
    requires Item(items[|items| - 1], "value").Some?
    ensures var x := Item(items[|items| - 1], "value").value; EndsAs(items, "value", t[x.0 := x.1])
  {
    var n := |items| - 1;
    var before, x := items[..n], Item(items[n], "value").value;
    AllItemsSnoc(items, "value");
    var t' := t[x.0 := x.1];
    forall i | 0 <= i < |items| && LastOf(items, "value", i)
      ensures Item(items[i], "value").value.0 in t' && t'[Item(items[i], "value").value.0] == Item(items[i], "value").value.1
    {
      if i < n {
        LastBefore(items, i);
        assert before[i] == items[i];
      }
    }
    forall i | 0 <= i < |items| ensures Item(items[i], "value").value.0 in t' {
      assert i < n ==> items[i] == before[i];
    }
    forall a | a in t' ensures ListedIn(items, "value", a) {
      ListedSnoc(items, "value", a);
    }
  }

  /** The counter has the number of each actor's last item and no actor that is not listed. */
  ghost predicate CountedLast(items: seq<Json>, v: Counts) {
    && AllItems(items, "value")
    && (forall i | 0 <= i < |items| && LastOf(items, "value", i) ::
          var x := Item(items[i], "value").value; Get(v, x.0) == x.1)
    && (forall a | a in v :: ListedIn(items, "value", a))
  }

  lemma {:induction false} LastExists(items: seq<Json>, i: nat) returns (k: nat)
    requires i < |items| && AllItems(items, "value")
    ensures i <= k < |items| && LastOf(items, "value", k)
    ensures Item(items[k], "value").value.0 == Item(items[i], "value").value.0
    decreases |items| - i
  {
    if j: nat :| i < j < |items| && Item(items[j], "value").value.0 == Item(items[i], "value").value.0 {
      k := LastExists(items, j);
    } else {
      k := i;
    }
  }

  /** Exactly the lists of components decode to a counter whose last numbers are not negative, and which counter that is. */
  lemma DecodeCounterIff(j: Json, v: Counts)
    ensures DecodeCounter(j) == Ok(v) <==> j.List? && CountedLast(j.items, v)
  {
    if j.List? {
      CounterFolds(j.items);
      if AllItems(j.items, "value") {
        var t := Fold(CounterItem, map[], j.items).value;
        if CountedLast(j.items, v) {
          LastNumbers(j.items, t, v);
          NormalizedIs(t, v);
        } else if DecodeCounter(j) == Ok(v) {
          NormalizedGives(t, v);
        }
      }
    }
  }

  lemma LastNumbers(items: seq<Json>, t: Tally, v: Counts)
    requires EndsAs(items, "value", t) && CountedLast(items, v)
    ensures (forall a | a in t :: t[a] == Get(v, a)) && forall a | a in v :: a in t
  {
    forall a | a in t ensures t[a] == Get(v, a) {
      var i: nat :| i < |items| && Item(items[i], "value").value.0 == a;
      var k := LastExists(items, i);
    }
    forall a | a in v ensures a in t {
      var i: nat :| i < |items| && Item(items[i], "value").value.0 == a;
    }
  }

  // ---- Sets of dots ----

  predicate DotLess(a: Dot, b: Dot) {
    ActorLess(a.actor, b.actor) || (a.actor == b.actor && a.counter < b.counter)
  }

  lemma DotLessTotal()
    ensures StrictTotal(DotLess)
  {
    ActorLessTotal();
  }

  function DotItem(s: set<Dot>, j: Json): Result<set<Dot>> {
    match DecodeDot(j)
    case Err(e) => Err(e)
    case Ok(d) => Ok(s + {d})
  }

  function DecodeDots(items: seq<Json>): Result<set<Dot>> {
    Fold(DotItem, {}, items)
  }

  function DotItems(dots: seq<Dot>): seq<Json> {
    seq(|dots|, i requires 0 <= i < |dots| => EncodeDot(dots[i]))
  }

  ghost function EncodeDots(s: set<Dot>): seq<Json> {
    DotLessTotal();
    DotItems(Sorted(s, DotLess))
  }

  lemma {:induction false} FoldDots(dots: seq<Dot>, i: nat)
    requires i <= |dots|
    ensures Fold(DotItem, {}, DotItems(dots)[..i]) == Ok(ToSet(dots[..i]))
  {
    if i > 0 {
      FoldDots(dots, i - 1);
      FoldSnoc(DotItem, {}, DotItems(dots), i - 1);
      DotRoundTrip(dots[i - 1]);
      ToSetSnoc(dots, i - 1);
    } else {
      assert ToSet(dots[..i]) == {};
    }
  }

  lemma DotsListed(dots: seq<Dot>)
    ensures DecodeDots(DotItems(dots)) == Ok(ToSet(dots))
  {
    FoldDots(dots, |dots|);
    assert DotItems(dots)[..|dots|] == DotItems(dots) && dots[..|dots|] == dots;
  }

  lemma DotsRoundTrip(s: set<Dot>)
    ensures DecodeDots(EncodeDots(s)) == Ok(s)
  {
    DotLessTotal();
    var dots := Sorted(s, DotLess);
    DotsListed(dots);
    assert ToSet(dots) == s;
  }

  // ---- Observed-remove sets ----

  function AddItem(m: map<string, set<Dot>>, j: Json): Result<map<string, set<Dot>>> {
    if !j.Object? || !Field(j, "element").Str? then Err(TypeMismatch)
    else if !Field(j, "dots").List? then Err(TypeMismatch)
    else
      match DecodeDots(Field(j, "dots").items)
      case Err(e) => Err(e)
      case Ok(s) => Ok(m[Field(j, "element").chars := s])
  }

  ghost function EncodeAdd(element: string, dots: set<Dot>): Json {
    Object(map["element" := Str(element), "dots" := List(EncodeDots(dots))])
  }

  ghost function AddItems(m: map<string, set<Dot>>, elements: seq<string>): seq<Json>
    requires forall x | x in elements :: x in m
  {
    seq(|elements|, i requires 0 <= i < |elements| => assert elements[i] in elements; EncodeAdd(elements[i], m[elements[i]]))
  }

  ghost function EncodeAdds(m: map<string, set<Dot>>): seq<Json> {
    LessIsStrictTotal();
    AddItems(m, Sorted(m.Keys, Less))
  }

  lemma AddRoundTrip(m: map<string, set<Dot>>, element: string, dots: set<Dot>)
    ensures AddItem(m, EncodeAdd(element, dots)) == Ok(m[element := dots])
  {
    DotsRoundTrip(dots);
    assert Field(EncodeAdd(element, dots), "element") == Str(element);
    assert Field(EncodeAdd(element, dots), "dots") == List(EncodeDots(dots));
  }

  function AddsPart(m: map<string, set<Dot>>, elements: seq<string>): map<string, set<Dot>> {
    map x | x in m && x in elements :: m[x]
  }

  lemma {:induction false} FoldAdds(m: map<string, set<Dot>>, elements: seq<string>, i: nat)
    requires i <= |elements| && forall x | x in elements :: x in m
    ensures Fold(AddItem, map[], AddItems(m, elements)[..i]) == Ok(AddsPart(m, elements[..i]))
  {
    if i > 0 {
      FoldAdds(m, elements, i - 1);
      FoldSnoc(AddItem, map[], AddItems(m, elements), i - 1);
      AddRoundTrip(AddsPart(m, elements[..i - 1]), elements[i - 1], m[elements[i - 1]]);
      AddsPartSnoc(m, elements, i - 1);
    }
  }

  lemma AddsPartSnoc(m: map<string, set<Dot>>, elements: seq<string>, i: nat)
    requires i < |elements| && elements[i] in m
    ensures AddsPart(m, elements[..i + 1]) == AddsPart(m, elements[..i])[elements[i] := m[elements[i]]]
  {
  }

  lemma AddsListed(m: map<string, set<Dot>>, elements: seq<string>)
    requires forall x :: x in elements <==> x in m
    ensures Fold(AddItem, map[], AddItems(m, elements)) == Ok(m)
  {
    FoldAdds(m, elements, |elements|);
    assert AddItems(m, elements)[..|elements|] == AddItems(m, elements) && elements[..|elements|] == elements;
    assert AddsPart(m, elements) == m;
  }

  lemma AddsRoundTrip(m: map<string, set<Dot>>)
    ensures Fold(AddItem, map[], EncodeAdds(m)) == Ok(m)
  {
    LessIsStrictTotal();
    AddsListed(m, Sorted(m.Keys, Less));
  }

  // ---- Multi-value registers ----

  /** Whether a text parses as JSON. */
  type Checker = string -> bool

  function ValueItem(isJson: Checker, m: map<Dot, string>, j: Json): Result<map<Dot, string>> {
    if !j.Object? || !Field(j, "value_json").Str? then Err(TypeMismatch)
    else
      match DecodeDot(Field(j, "dot"))
      case Err(e) => Err(e)
      case Ok(d) =>
        var text := Field(j, "value_json").chars;
        if !isJson(text) then Err(InvalidValue) else Ok(m[d := text])
  }

  function ValueStep(isJson: Checker): (map<Dot, string>, Json) -> Result<map<Dot, string>> {
    (m, j) => ValueItem(isJson, m, j)
  }

  function EncodeValue(d: Dot, text: string): Json {
    Object(map["dot" := EncodeDot(d), "value_json" := Str(text)])
  }

  function ValueItems(m: map<Dot, string>, dots: seq<Dot>): seq<Json>
    requires forall d | d in dots :: d in m
  {
    seq(|dots|, i requires 0 <= i < |dots| => assert dots[i] in dots; EncodeValue(dots[i], m[dots[i]]))
  }

  ghost function EncodeValues(m: map<Dot, string>): seq<Json> {
    DotLessTotal();
    ValueItems(m, Sorted(m.Keys, DotLess))
  }

  lemma ValueRoundTrip(isJson: Checker, m: map<Dot, string>, d: Dot, text: string)
    ensures ValueItem(isJson, m, EncodeValue(d, text)) == if isJson(text) then Ok(m[d := text]) else Err(InvalidValue)
  {
  }

  function ValuesPart(m: map<Dot, string>, dots: seq<Dot>): map<Dot, string> {
    map d | d in m && d in dots :: m[d]
  }

  predicate AllJson(isJson: Checker, m: map<Dot, string>) {
    forall d | d in m :: isJson(m[d])
  }

  lemma {:induction false} FoldValues(isJson: Checker, m: map<Dot, string>, dots: seq<Dot>, i: nat)
    requires i <= |dots| && forall d | d in dots :: d in m
    ensures Fold(ValueStep(isJson), map[], ValueItems(m, dots)[..i]) ==
            if AllJson(isJson, ValuesPart(m, dots[..i])) then Ok(ValuesPart(m, dots[..i])) else Err(InvalidValue)
  {
    if i > 0 {
      FoldValues(isJson, m, dots, i - 1);
      FoldSnoc(ValueStep(isJson), map[], ValueItems(m, dots), i - 1);
      var before := ValuesPart(m, dots[..i - 1]);
      ValueRoundTrip(isJson, before, dots[i - 1], m[dots[i - 1]]);
      ValuesPartSnoc(m, dots, i - 1);
      AllJsonMore(isJson, m, before, dots[i - 1]);
    }
  }

  lemma ValuesPartSnoc(m: map<Dot, string>, dots: seq<Dot>, i: nat)
    requires i < |dots| && dots[i] in m
    ensures ValuesPart(m, dots[..i + 1]) == ValuesPart(m, dots[..i])[dots[i] := m[dots[i]]]
  {
  }

  lemma AllJsonMore(isJson: Checker, m: map<Dot, string>, part: map<Dot, string>, d: Dot)
    requires d in m && (forall x | x in part :: x in m && part[x] == m[x])
    ensures AllJson(isJson, part[d := m[d]]) <==> AllJson(isJson, part) && isJson(m[d])
  {
    if AllJson(isJson, part[d := m[d]]) {
      assert part[d := m[d]][d] == m[d];
      forall x | x in part ensures isJson(part[x]) {
        assert part[d := m[d]][x] == part[x];
      }
    }
  }

  lemma ValuesListed(isJson: Checker, m: map<Dot, string>, dots: seq<Dot>)
    requires forall d :: d in dots <==> d in m
    ensures Fold(ValueStep(isJson), map[], ValueItems(m, dots)) == if AllJson(isJson, m) then Ok(m) else Err(InvalidValue)
  {
    FoldValues(isJson, m, dots, |dots|);
    assert ValueItems(m, dots)[..|dots|] == ValueItems(m, dots) && dots[..|dots|] == dots;
    assert ValuesPart(m, dots) == m;
  }

  lemma ValuesRoundTrip(isJson: Checker, m: map<Dot, string>)
    ensures Fold(ValueStep(isJson), map[], EncodeValues(m)) == if AllJson(isJson, m) then Ok(m) else Err(InvalidValue)
  {
    DotLessTotal();
    ValuesListed(isJson, m, Sorted(m.Keys, DotLess));
  }

  // ---- States and entries ----

  ghost function EncodeState(s: State): Json {
    match s
    case GCounter(v) => Object(map["components" := EncodeCounter(v)])
    case PNCounter(p, n) => Object(map["positive" := EncodeCounter(p), "negative" := EncodeCounter(n)])
    case ORSet(adds, removed) =>
      Object(map["adds" := List(EncodeAdds(adds)), "removed" := List(EncodeDots(removed))])
    case MVRegister(values, superseded) =>
      Object(map["values" := List(EncodeValues(values)), "superseded" := List(EncodeDots(superseded))])
  }

  function Pair<A, B, C>(a: Result<A>, b: Result<B>, make: (A, B) -> C): Result<C> {
    match a
    case Err(e) => Err(e)
    case Ok(x) => match b case Err(e) => Err(e) case Ok(y) => Ok(make(x, y))
  }

  function DecodeState(isJson: Checker, j: Json, ty: CrdtType): (r: Result<State>)
    ensures r.Ok? ==> r.value.Type() == ty
  {
    if !j.Object? then Err(TypeMismatch)
    else
      match ty
      case GCounterType =>
        (match DecodeCounter(Field(j, "components")) case Err(e) => Err(e) case Ok(v) => Ok(GCounter(v)))
      case PNCounterType =>
        Pair(DecodeCounter(Field(j, "positive")), DecodeCounter(Field(j, "negative")), (p, n) => PNCounter(p, n))
      case ORSetType =>
        if !Field(j, "adds").List? || !Field(j, "removed").List? then Err(InvalidValue)
        else Pair(Fold(AddItem, map[], Field(j, "adds").items), DecodeDots(Field(j, "removed").items), (a, r) => ORSet(a, r))
      case MVRegisterType =>
        if !Field(j, "values").List? || !Field(j, "superseded").List? then Err(InvalidValue)
        else Pair(Fold(ValueStep(isJson), map[], Field(j, "values").items), DecodeDots(Field(j, "superseded").items),
                  (v, s) => MVRegister(v, s))
  }

  /** A register's stored texts must parse; the other types hold no text. */
  predicate Readable(isJson: Checker, s: State) {
    s.MVRegister? ==> AllJson(isJson, s.values)
  }

  lemma CounterStates(isJson: Checker, p: Counts, n: Counts)
    ensures DecodeState(isJson, EncodeState(GCounter(p)), GCounterType) == Ok(GCounter(p))
    ensures DecodeState(isJson, EncodeState(PNCounter(p, n)), PNCounterType) == Ok(PNCounter(p, n))
  {
    CountsRoundTrip(p);
    CountsRoundTrip(n);
    var g, q := EncodeState(GCounter(p)), EncodeState(PNCounter(p, n));
    assert Field(g, "components") == EncodeCounter(p);
    assert Field(q, "positive") == EncodeCounter(p) && Field(q, "negative") == EncodeCounter(n);
  }

  lemma TwoFields(a: string, x: Json, b: string, y: Json)
    requires a != b
    ensures Field(Object(map[a := x, b := y]), a) == x && Field(Object(map[a := x, b := y]), b) == y
  {
  }

  lemma ORSetDecodes(isJson: Checker, j: Json, adds: map<string, set<Dot>>, removed: set<Dot>)
    requires j.Object? && Field(j, "adds").List? && Field(j, "removed").List?
    requires Fold(AddItem, map[], Field(j, "adds").items) == Ok(adds) && DecodeDots(Field(j, "removed").items) == Ok(removed)
    ensures DecodeState(isJson, j, ORSetType) == Ok(ORSet(adds, removed))
  {
  }

  lemma ORSetState(isJson: Checker, adds: map<string, set<Dot>>, removed: set<Dot>)
    ensures DecodeState(isJson, EncodeState(ORSet(adds, removed)), ORSetType) == Ok(ORSet(adds, removed))
  {
    AddsRoundTrip(adds);
    DotsRoundTrip(removed);
    TwoFields("adds", List(EncodeAdds(adds)), "removed", List(EncodeDots(removed)));
    ORSetDecodes(isJson, EncodeState(ORSet(adds, removed)), adds, removed);
  }

  lemma RegisterDecodes(isJson: Checker, j: Json, values: Result<map<Dot, string>>, superseded: set<Dot>)
    requires j.Object? && Field(j, "values").List? && Field(j, "superseded").List?
    requires Fold(ValueStep(isJson), map[], Field(j, "values").items) == values
    requires DecodeDots(Field(j, "superseded").items) == Ok(superseded)
    ensures DecodeState(isJson, j, MVRegisterType) ==
            match values case Ok(v) => Ok(MVRegister(v, superseded)) case Err(e) => Err(e)
  {
  }

  lemma RegisterState(isJson: Checker, values: map<Dot, string>, superseded: set<Dot>)
    ensures DecodeState(isJson, EncodeState(MVRegister(values, superseded)), MVRegisterType) ==
            if AllJson(isJson, values) then Ok(MVRegister(values, superseded)) else Err(InvalidValue)
  {
    ValuesRoundTrip(isJson, values);
    DotsRoundTrip(superseded);
    TwoFields("values", List(EncodeValues(values)), "superseded", List(EncodeDots(superseded)));
    RegisterDecodes(isJson, EncodeState(MVRegister(values, superseded)),
                    if AllJson(isJson, values) then Ok(values) else Err(InvalidValue), superseded);
  }

  /** Every state comes back, except a register that stores something other than JSON. */
  lemma StateRoundTrip(isJson: Checker, s: State)
    ensures DecodeState(isJson, EncodeState(s), s.Type()) == if Readable(isJson, s) then Ok(s) else Err(InvalidValue)
  {
    match s
    case GCounter(v) => CounterStates(isJson, v, v);
    case PNCounter(p, n) => CounterStates(isJson, p, n);
    case ORSet(adds, removed) => ORSetState(isJson, adds, removed);
    case MVRegister(values, superseded) => RegisterState(isJson, values, superseded);
  }

  /** A database row, its three JSON columns already parsed. */
  datatype Row = Row(key: string, crdtType: string, state: Json, version: Json, context: Json)

  function TypeName(ty: CrdtType): string {
    match ty
    case GCounterType => "gcounter"
    case PNCounterType => "pncounter"
    case ORSetType => "orset"
    case MVRegisterType => "mvregister"
  }

  function TypeNamed(name: string): Option<CrdtType> {
    if name == "gcounter" then Some(GCounterType)
    else if name == "pncounter" then Some(PNCounterType)
    else if name == "orset" then Some(ORSetType)
    else if name == "mvregister" then Some(MVRegisterType)
    else None
  }

  ghost function EncodeEntry(e: Entry): Row {
    Row(e.key, TypeName(e.Type()), EncodeState(e.state), EncodeVector(e.version), EncodeVector(e.context))
  }

  function DecodeEntry(isJson: Checker, row: Row): Result<Entry> {
    match TypeNamed(row.crdtType)
    case None => Err(InvalidValue)
    case Some(ty) =>
      match DecodeState(isJson, row.state, ty)
      case Err(e) => Err(e)
      case Ok(s) =>
        match DecodeVector(row.version)
        case Err(e) => Err(e)
        case Ok(v) =>
          match DecodeVector(row.context)
          case Err(e) => Err(e)
          case Ok(c) => if row.key == "" then Err(InvalidValue) else Ok(Entry(row.key, s, v, c))
  }

  lemma TypeNames(ty: CrdtType)
    ensures TypeNamed(TypeName(ty)) == Some(ty)
  {
  }

  lemma RowDecodes(isJson: Checker, row: Row, e: Entry)
    requires row.key == e.key && TypeNamed(row.crdtType) == Some(e.Type())
    requires DecodeVector(row.version) == Ok(e.version) && DecodeVector(row.context) == Ok(e.context)
    ensures DecodeState(isJson, row.state, e.Type()) == Ok(e.state) ==> DecodeEntry(isJson, row) == Ok(e)
    ensures DecodeState(isJson, row.state, e.Type()) == Err(InvalidValue) ==> DecodeEntry(isJson, row) == Err(InvalidValue)
  {
  }

  /** Decoding an encoded entry gives the same entry, for all four types and both vectors. */
  lemma EntryRoundTrip(isJson: Checker, e: Entry)
    ensures DecodeEntry(isJson, EncodeEntry(e)) == if Readable(isJson, e.state) then Ok(e) else Err(InvalidValue)
  {
    StateRoundTrip(isJson, e.state);
    CountsRoundTrip(e.version);
    CountsRoundTrip(e.context);
    TypeNames(e.Type());
    var row := EncodeEntry(e);
    assert row.crdtType == TypeName(e.Type());
    RowDecodes(isJson, row, e);
  }

  // ---- What the stored trees look like ----

  /** The tree is an object with exactly these fields. */
  predicate Fields(j: Json, names: set<string>) {
    j.Object? && j.fields.Keys == names
  }

  predicate ActorTree(j: Json, a: Actor) {
    && Fields(j, {"node_id", "incarnation"})
    && j.fields["node_id"] == Str(a.nodeId) && j.fields["incarnation"] == Int(a.incarnation)
  }

  predicate DotTree(j: Json, d: Dot) {
    Fields(j, {"actor", "counter"}) && ActorTree(j.fields["actor"], d.actor) && j.fields["counter"] == Int(d.counter)
  }

  predicate CountTree(j: Json, name: string, a: Actor, n: int) {
    Fields(j, {"actor", name}) && name != "actor" && ActorTree(j.fields["actor"], a) && j.fields[name] == Int(n)
  }

  /** All of the set, in ascending order. */
  ghost predicate Listing<T(!new)>(s: seq<T>, xs: set<T>, less: (T, T) -> bool) {
    Ascending(s, less) && forall x :: x in s <==> x in xs
  }

  ghost predicate CountsInOrder(items: seq<Json>, name: string, v: Counts, actors: seq<Actor>) {
    && Listing(actors, v.Keys, ActorLess) && |actors| == |items|
    && forall i | 0 <= i < |actors| :: actors[i] in v && CountTree(items[i], name, actors[i], v[actors[i]])
  }

  /** A list of one object for each actor that counts, in the order of actors. */
  ghost predicate CountsTree(j: Json, name: string, v: Counts) {
    j.List? && exists actors :: CountsInOrder(j.items, name, v, actors)
  }

  ghost predicate DotsInOrder(items: seq<Json>, s: set<Dot>, dots: seq<Dot>) {
    && Listing(dots, s, DotLess) && |dots| == |items|
    && forall i | 0 <= i < |dots| :: DotTree(items[i], dots[i])
  }

  /** A list of the dots, in their order. */
  ghost predicate DotsTree(j: Json, s: set<Dot>) {
    j.List? && exists dots :: DotsInOrder(j.items, s, dots)
  }

  ghost predicate AddTree(j: Json, element: string, dots: set<Dot>) {
    && Fields(j, {"element", "dots"})
    && j.fields["element"] == Str(element) && DotsTree(j.fields["dots"], dots)
  }

  ghost predicate AddsInOrder(items: seq<Json>, m: map<string, set<Dot>>, elements: seq<string>) {
    && Listing(elements, m.Keys, Less) && |elements| == |items|
    && forall i | 0 <= i < |elements| :: elements[i] in m && AddTree(items[i], elements[i], m[elements[i]])
  }

  /** A list of one object for each element, in the order of elements. */
  ghost predicate AddsTree(j: Json, m: map<string, set<Dot>>) {
    j.List? && exists elements :: AddsInOrder(j.items, m, elements)
  }

  predicate ValueTree(j: Json, d: Dot, text: string) {
    Fields(j, {"dot", "value_json"}) && DotTree(j.fields["dot"], d) && j.fields["value_json"] == Str(text)
  }

  ghost predicate ValuesInOrder(items: seq<Json>, m: map<Dot, string>, dots: seq<Dot>) {
    && Listing(dots, m.Keys, DotLess) && |dots| == |items|
    && forall i | 0 <= i < |dots| :: dots[i] in m && ValueTree(items[i], dots[i], m[dots[i]])
  }

  /** A list of one object for each assignment, in the order of dots. */
  ghost predicate ValuesTree(j: Json, m: map<Dot, string>) {
    j.List? && exists dots :: ValuesInOrder(j.items, m, dots)
  }

  ghost predicate StateTree(j: Json, s: State) {
    match s
    case GCounter(v) => Fields(j, {"components"}) && CountsTree(j.fields["components"], "value", v)
    case PNCounter(p, n) =>
      && Fields(j, {"positive", "negative"})
      && CountsTree(j.fields["positive"], "value", p) && CountsTree(j.fields["negative"], "value", n)
    case ORSet(adds, removed) =>
      Fields(j, {"adds", "removed"}) && AddsTree(j.fields["adds"], adds) && DotsTree(j.fields["removed"], removed)
    case MVRegister(values, superseded) =>
      && Fields(j, {"values", "superseded"})
      && ValuesTree(j.fields["values"], values) && DotsTree(j.fields["superseded"], superseded)
  }

  lemma DotIsTree(d: Dot)
    ensures ActorTree(EncodeActor(d.actor), d.actor) && DotTree(EncodeDot(d), d)
  {
  }

  lemma CountIsTree(name: string, a: Actor, n: Positive)
    requires name != "actor"
    ensures CountTree(CountItem(name, a, n), name, a, n)
  {
    assert CountItem(name, a, n).fields["actor"] == EncodeActor(a);
  }

  lemma CountsAreTree(name: string, v: Counts)
    requires name != "actor"
    ensures CountsTree(EncodeCounts(name, v), name, v)
  {
    ActorLessTotal();
    var actors := Sorted(v.Keys, ActorLess);
    var items := CountItems(name, v, actors);
    forall i | 0 <= i < |actors| ensures actors[i] in v && CountTree(items[i], name, actors[i], v[actors[i]]) {
      assert actors[i] in actors;
      CountIsTree(name, actors[i], v[actors[i]]);
    }
    assert CountsInOrder(items, name, v, actors);
  }

  lemma DotsAreTree(s: set<Dot>)
    ensures DotsTree(List(EncodeDots(s)), s)
  {
    DotLessTotal();
    var dots := Sorted(s, DotLess);
    forall i | 0 <= i < |dots| ensures DotTree(DotItems(dots)[i], dots[i]) {
      DotIsTree(dots[i]);
    }
    assert DotsInOrder(DotItems(dots), s, dots);
  }

  lemma AddIsTree(element: string, dots: set<Dot>)
    ensures AddTree(EncodeAdd(element, dots), element, dots)
  {
    DotsAreTree(dots);
    assert EncodeAdd(element, dots).fields["dots"] == List(EncodeDots(dots));
  }

  lemma AddsAreTree(m: map<string, set<Dot>>)
    ensures AddsTree(List(EncodeAdds(m)), m)
  {
    LessIsStrictTotal();
    var elements := Sorted(m.Keys, Less);
    var items := AddItems(m, elements);
    forall i | 0 <= i < |elements| ensures elements[i] in m && AddTree(items[i], elements[i], m[elements[i]]) {
      assert elements[i] in elements;
      AddIsTree(elements[i], m[elements[i]]);
    }
    assert AddsInOrder(items, m, elements);
  }

  lemma ValueIsTree(d: Dot, text: string)
    ensures ValueTree(EncodeValue(d, text), d, text)
  {
    DotIsTree(d);
    assert EncodeValue(d, text).fields["dot"] == EncodeDot(d);
  }

  lemma ValuesAreTree(m: map<Dot, string>)
    ensures ValuesTree(List(EncodeValues(m)), m)
  {
    DotLessTotal();
    var dots := Sorted(m.Keys, DotLess);
    var items := ValueItems(m, dots);
    forall i | 0 <= i < |dots| ensures dots[i] in m && ValueTree(items[i], dots[i], m[dots[i]]) {
      assert dots[i] in dots;
      ValueIsTree(dots[i], m[dots[i]]);
    }
    assert ValuesInOrder(items, m, dots);
  }

  lemma TwoNames(a: string, x: Json, b: string, y: Json)
    requires a != b
    ensures var j := Object(map[a := x, b := y]); Fields(j, {a, b}) && j.fields[a] == x && j.fields[b] == y
  {
  }

  lemma GCounterTree(x: Json, v: Counts)
    requires CountsTree(x, "value", v)
    ensures StateTree(Object(map["components" := x]), GCounter(v))
  {
    assert Object(map["components" := x]).fields["components"] == x;
  }

  lemma GCounterFields(v: Counts)
    ensures StateTree(EncodeState(GCounter(v)), GCounter(v))
  {
    CountsAreTree("value", v);
    GCounterTree(EncodeCounter(v), v);
  }

  lemma PNCounterTree(x: Json, y: Json, p: Counts, n: Counts)
    requires CountsTree(x, "value", p) && CountsTree(y, "value", n)
    ensures StateTree(Object(map["positive" := x, "negative" := y]), PNCounter(p, n))
  {
    TwoNames("positive", x, "negative", y);
  }

  lemma PNCounterFields(p: Counts, n: Counts)
    ensures StateTree(EncodeState(PNCounter(p, n)), PNCounter(p, n))
  {
    CountsAreTree("value", p);
    CountsAreTree("value", n);
    PNCounterTree(EncodeCounter(p), EncodeCounter(n), p, n);
  }

  lemma ORSetFields(adds: map<string, set<Dot>>, removed: set<Dot>)
    ensures StateTree(EncodeState(ORSet(adds, removed)), ORSet(adds, removed))
  {
    AddsAreTree(adds);
    DotsAreTree(removed);
    TwoNames("adds", List(EncodeAdds(adds)), "removed", List(EncodeDots(removed)));
  }

  lemma RegisterFields(values: map<Dot, string>, superseded: set<Dot>)
    ensures StateTree(EncodeState(MVRegister(values, superseded)), MVRegister(values, superseded))
  {
    ValuesAreTree(values);
    DotsAreTree(superseded);
    TwoNames("values", List(EncodeValues(values)), "superseded", List(EncodeDots(superseded)));
  }

  /** The fields of a stored state, for each of the four types, down to the leaves. */
  lemma StateFields(s: State)
    ensures StateTree(EncodeState(s), s)
  {
    match s
    case GCounter(v) => GCounterFields(v);
    case PNCounter(p, n) => PNCounterFields(p, n);
    case ORSet(adds, removed) => ORSetFields(adds, removed);
    case MVRegister(values, superseded) => RegisterFields(values, superseded);
  }

  /** The columns of a stored entry. */
  lemma EntryColumns(e: Entry)
    ensures var row := EncodeEntry(e);
            && row.key == e.key && StateTree(row.state, e.state)
            && row.crdtType == (match e.state
                                case GCounter(_) => "gcounter"
                                case PNCounter(_, _) => "pncounter"
                                case ORSet(_, _) => "orset"
                                case MVRegister(_, _) => "mvregister")
            && CountsTree(row.version, "counter", e.version) && CountsTree(row.context, "counter", e.context)
  {
    StateFields(e.state);
    CountsAreTree("counter", e.version);
    CountsAreTree("counter", e.context);
  }

  /** Different entries are stored differently. */
  lemma EncodingInjective(a: Entry, b: Entry)
    requires EncodeEntry(a) == EncodeEntry(b)
    ensures a == b
  {
    EntryRoundTrip(_ => true, a);
    EntryRoundTrip(_ => true, b);
  }
}
