/**
 The four state-based CRDTs and the mutations clients may ask for
 (src/distsys/crdt, the dispatch of src/distsys/crdt_service.py).
 */
module Crdt {
  import opened Outcomes
  import opened Causal

  datatype CrdtType = GCounterType | PNCounterType | ORSetType | MVRegisterType

  datatype State =
    | GCounter(components: Counts)
    | PNCounter(positive: Counts, negative: Counts)
    | ORSet(adds: map<string, set<Dot>>, removed: set<Dot>)
    | MVRegister(values: map<Dot, string>, superseded: set<Dot>)
  {
    function Type(): CrdtType {
      match this
      case GCounter(_) => GCounterType
      case PNCounter(_, _) => PNCounterType
      case ORSet(_, _) => ORSetType
      case MVRegister(_, _) => MVRegisterType
    }
  }

  function Empty(ty: CrdtType): (s: State)
    ensures s.Type() == ty
  {
    match ty
    case GCounterType => GCounter(map[])
    case PNCounterType => PNCounter(map[], map[])
    case ORSetType => ORSet(map[], {})
    case MVRegisterType => MVRegister(map[], {})
  }

  /** A validated mutation. Write carries the canonical JSON text of the value. */
  datatype Op =
    | Increment(amount: Positive)
    | PNIncrement(amount: Positive)
    | PNDecrement(amount: Positive)
    | Add(element: string)
    | Remove(element: string)
    | Write(json: string)
  {
    function Type(): CrdtType {
      match this
      case Increment(_) => GCounterType
      case PNIncrement(_) => PNCounterType
      case PNDecrement(_) => PNCounterType
      case Add(_) => ORSetType
      case Remove(_) => ORSetType
      case Write(_) => MVRegisterType
    }
  }

  /** What arrives from a client: text is present when the value is a string, json is its canonical JSON. */
  datatype Request = Request(crdtType: CrdtType, operation: string, amount: int, text: Option<string>, json: string)

  /** The validation inside _apply_mutation; every rejection is a ValueError. */
  function Validate(r: Request): (op: Result<Op>)
    ensures op.Ok? ==> op.value.Type() == r.crdtType
  {
    match r.crdtType
    case GCounterType =>
      if r.operation == "increment" && r.amount >= 1 then Ok(Increment(r.amount)) else Err(InvalidValue)
    case PNCounterType =>
      if r.operation == "increment" && r.amount >= 1 then Ok(PNIncrement(r.amount))
      else if r.operation == "decrement" && r.amount >= 1 then Ok(PNDecrement(r.amount))
      else Err(InvalidValue)
    case ORSetType =>
      if r.text.None? then Err(InvalidValue)
      else if r.operation == "add" then Ok(Add(r.text.value))
      else if r.operation == "remove" then Ok(Remove(r.text.value))
      else Err(InvalidValue)
    case MVRegisterType =>
      if r.operation == "write" then Ok(Write(r.json)) else Err(InvalidValue)
  }

  function Bump(c: Counts, a: Actor, amount: Positive): Counts {
    c[a := Get(c, a) + amount]
  }

  function DotsOf(adds: map<string, set<Dot>>, e: string): set<Dot> {
    if e in adds then adds[e] else {}
  }

  /** The state after one mutation with a freshly allocated dot. */
  function Apply(s: State, op: Op, d: Dot): (t: State)
    requires s.Type() == op.Type()
    ensures t.Type() == s.Type()
  {
    match op
    case Increment(n) => GCounter(Bump(s.components, d.actor, n))
    case PNIncrement(n) => PNCounter(Bump(s.positive, d.actor, n), s.negative)
    case PNDecrement(n) => PNCounter(s.positive, Bump(s.negative, d.actor, n))
    case Add(e) => ORSet(s.adds[e := DotsOf(s.adds, e) + {d}], s.removed)
    case Remove(e) => ORSet(s.adds, s.removed + (DotsOf(s.adds, e) - s.removed))
    case Write(json) => MVRegister(s.values[d := json], s.superseded + (s.values.Keys - s.superseded))
  }

  // ---- Merging ----

  predicate Clash(l: map<Dot, string>, r: map<Dot, string>) {
    exists d :: d in l && d in r && l[d] != r[d]
  }

  function MergeAdds(l: map<string, set<Dot>>, r: map<string, set<Dot>>): map<string, set<Dot>> {
    map e | e in l.Keys + r.Keys :: DotsOf(l, e) + DotsOf(r, e)
  }

  lemma AddsExtensional(l: map<string, set<Dot>>, r: map<string, set<Dot>>)
    requires l.Keys == r.Keys
    requires forall e | e in l.Keys :: DotsOf(l, e) == DotsOf(r, e)
    ensures l == r
  {
  }

  /** _merge_state: refuses two types, and two register values under one dot. */
  function MergeStates(l: State, r: State): (m: Result<State>)
    ensures m.Ok? ==> m.value.Type() == l.Type() == r.Type()
  {
    match (l, r)
    case (GCounter(a), GCounter(b)) => Ok(GCounter(Merge(a, b)))
    case (PNCounter(p, n), PNCounter(q, k)) => Ok(PNCounter(Merge(p, q), Merge(n, k)))
    case (ORSet(a, x), ORSet(b, y)) => Ok(ORSet(MergeAdds(a, b), x + y))
    case (MVRegister(a, x), MVRegister(b, y)) =>
      if Clash(a, b) then Err(InvalidValue) else Ok(MVRegister(a + b, x + y))
    case _ => Err(TypeMismatch)
  }

  /** ORSet.merge: fold the other set's additions into a copy of this one's. */
  method MergeORSets(l: State, r: State) returns (m: State)
    requires l.ORSet? && r.ORSet?
    ensures MergeStates(l, r) == Ok(m)
  {
    var adds := l.adds;
    var pending := r.adds.Keys;
    while pending != {}
      invariant pending <= r.adds.Keys
      invariant adds.Keys == l.adds.Keys + (r.adds.Keys - pending)
      invariant forall e | e in adds ::
                  adds[e] == if e in pending then l.adds[e] else DotsOf(l.adds, e) + DotsOf(r.adds, e)
    {
      var e :| e in pending;
      pending := pending - {e};
      adds := adds[e := DotsOf(adds, e) + r.adds[e]];
    }
    AddsExtensional(adds, MergeAdds(l.adds, r.adds));
    m := ORSet(adds, l.removed + r.removed);
  }

  /** MVRegister.merge: copy the other register's values, refusing a dot that names two of them. */
  method MergeRegisters(l: State, r: State) returns (m: Result<State>)
    requires l.MVRegister? && r.MVRegister?
    ensures m == MergeStates(l, r)
  {
    var values := l.values;
    var pending := r.values.Keys;
    while pending != {}
      invariant pending <= r.values.Keys
      invariant values == l.values + (map d | d in r.values.Keys - pending :: r.values[d])
      invariant forall d | d in r.values.Keys - pending && d in l.values :: l.values[d] == r.values[d]
    {
      var d :| d in pending;
      if d in values && values[d] != r.values[d] {
        assert d in l.values && l.values[d] != r.values[d];
        return Err(InvalidValue);
      }
      pending := pending - {d};
      values := values[d := r.values[d]];
    }
    assert (map d | d in r.values.Keys - {} :: r.values[d]) == r.values;
    m := Ok(MVRegister(values, l.superseded + r.superseded));
  }

  // ---- What a client sees ----

  ghost function Total(c: Counts): nat {
    if c == map[] then 0 else
      var a :| a in c;
      c[a] + Total(c - {a})
  }

  function Elements(s: State): set<string>
    requires s.ORSet?
  {
    set e | e in s.adds && s.adds[e] - s.removed != {}
  }

  function Visible(s: State): set<Dot>
    requires s.MVRegister?
  {
    s.values.Keys - s.superseded
  }

  lemma {:induction false} TotalSplit(c: Counts, a: Actor)
    requires a in c
    ensures Total(c) == c[a] + Total(c - {a})
    decreases |c|
  {
    var b :| b in c && Total(c) == c[b] + Total(c - {b});
    if a != b {
      TotalSplit(c - {b}, a);
      TotalSplit(c - {a}, b);
      assert (c - {b}) - {a} == (c - {a}) - {b};
    }
  }

  lemma TotalBump(c: Counts, a: Actor, amount: Positive)
    ensures Total(Bump(c, a, amount)) == Total(c) + amount
  {
    var b := Bump(c, a, amount);
    TotalSplit(b, a);
    assert b - {a} == c - {a};
    if a in c {
      TotalSplit(c, a);
    } else {
      assert c - {a} == c;
    }
  }

  /** The operations each type knows, and what they need. */
  predicate Acceptable(r: Request) {
    match r.crdtType
    case GCounterType => r.operation == "increment" && r.amount >= 1
    case PNCounterType => (r.operation == "increment" || r.operation == "decrement") && r.amount >= 1
    case ORSetType => (r.operation == "add" || r.operation == "remove") && r.text.Some?
    case MVRegisterType => r.operation == "write"
  }

  /** What a request with a fresh dot does to what a client sees. */
  ghost predicate Effect(r: Request, s: State, t: State, d: Dot)
    requires s.Type() == t.Type() == r.crdtType
  {
    match s
    case GCounter(c) => Total(t.components) == Total(c) + r.amount
    case PNCounter(p, n) =>
      Total(t.positive) - Total(t.negative) ==
      Total(p) - Total(n) + (if r.operation == "increment" then r.amount else -r.amount)
    case ORSet(_, _) =>
      r.text.Some? && Elements(t) == if r.operation == "add" then Elements(s) + {r.text.value} else Elements(s) - {r.text.value}
    case MVRegister(_, _) => Visible(t) == {d} && t.values[d] == r.json
  }

  /** No dot stands for two elements. */
  predicate SeparateDots(adds: map<string, set<Dot>>) {
    forall x, y | x in adds && y in adds && x != y :: adds[x] !! adds[y]
  }

  /** The state has never heard of the dot, and its own dots name one addition each. */
  predicate NewTo(s: State, d: Dot) {
    && (s.ORSet? ==> SeparateDots(s.adds) && d !in s.removed)
    && (s.MVRegister? ==> d !in s.values && d !in s.superseded)
  }

  /** A request is accepted exactly when its operation fits its type, and then does what its name says. */
  lemma RequestEffect(r: Request, s: State, d: Dot)
    requires s.Type() == r.crdtType && NewTo(s, d)
    ensures Validate(r).Ok? <==> Acceptable(r)
    ensures Validate(r).Ok? ==> Effect(r, s, Apply(s, Validate(r).value, d), d)
  {
    if Validate(r).Ok? {
      var op := Validate(r).value;
      match op
      case Increment(n) => TotalBump(s.components, d.actor, n);
      case PNIncrement(n) => TotalBump(s.positive, d.actor, n);
      case PNDecrement(n) => TotalBump(s.negative, d.actor, n);
      case Add(e) => AddEffect(s, e, d);
      case Remove(e) => RemoveEffect(s, e, d);
      case Write(_) =>
    }
  }

  lemma AddEffect(s: State, e: string, d: Dot)
    requires s.ORSet? && d !in s.removed
    ensures Elements(Apply(s, Add(e), d)) == Elements(s) + {e}
  {
    var t := Apply(s, Add(e), d);
    assert d in t.adds[e] - t.removed;
    forall x ensures x in Elements(t) <==> x in Elements(s) + {e} {
      if x == e {
        assert x in Elements(t);
      }
    }
  }

  lemma RemoveEffect(s: State, e: string, d: Dot)
    requires s.ORSet? && SeparateDots(s.adds)
    ensures Elements(Apply(s, Remove(e), d)) == Elements(s) - {e}
  {
    var t := Apply(s, Remove(e), d);
    forall x ensures x in Elements(t) <==> x in Elements(s) - {e} {
      if x in s.adds && x != e {
        assert s.adds[x] - t.removed == s.adds[x] - s.removed;
      }
    }
  }
}
