/**
 The consistent-hash ring and replica placement (src/distsys/cluster/consistent_hash.py,
 src/distsys/replication/replica_selector.py).

 SHA-256 is a parameter: nothing is assumed of it, so positions may collide.
 */
module Ring {
  import opened Outcomes
  import opened Causal
  import opened Order
  import opened Membership

  type Hash = string -> nat

  datatype Point = Point(position: nat, owner: Member)

  function Digits(n: nat): string {
    if n < 10 then [n as char + '0'] else Digits(n / 10) + [(n % 10) as char + '0']
  }

  /** The i-th virtual node of a member. */
  function Virtual(hash: Hash, m: Member, i: nat): Point {
    Point(hash(m.nodeId + "#" + Digits(i)), m)
  }

  // ---- What the labels are ----

  /** A decimal numeral without superfluous zeros. */
  predicate Decimal(s: string) {
    s != "" && AllDigits(s) && (|s| > 1 ==> s[0] != '0')
  }

  predicate AllDigits(s: string) {
    forall i | 0 <= i < |s| :: '0' <= s[i] <= '9'
  }

  /** Reading a numeral from left to right. */
  function ValueFrom(acc: nat, s: string): nat
    requires AllDigits(s)
    decreases s
  {
    if s == "" then acc else ValueFrom(acc * 10 + (s[0] - '0') as nat, s[1..])
  }

  function Value(s: string): nat
    requires AllDigits(s)
  {
    ValueFrom(0, s)
  }

  lemma {:induction false} ValueSnoc(acc: nat, s: string, c: char)
    requires AllDigits(s) && '0' <= c <= '9'
    ensures AllDigits(s + [c]) && ValueFrom(acc, s + [c]) == ValueFrom(acc, s) * 10 + (c - '0') as nat
    decreases s
  {
    if s == "" {
      assert s + [c] == [c] && [c][1..] == "";
    } else {
      assert (s + [c])[1..] == s[1..] + [c];
      ValueSnoc(acc * 10 + (s[0] - '0') as nat, s[1..], c);
    }
  }

  lemma {:induction false} ValueGrows(acc: nat, s: string)
    requires AllDigits(s)
    ensures ValueFrom(acc, s) >= acc
    decreases s
  {
    if s != "" {
      ValueGrows(acc * 10 + (s[0] - '0') as nat, s[1..]);
    }
  }

  lemma {:induction false} DigitsValue(n: nat)
    ensures Decimal(Digits(n)) && Value(Digits(n)) == n && (n > 0 ==> Digits(n)[0] != '0')
  {
    if n < 10 {
      var c := n as char + '0';
      assert [c][1..] == "" && (c - '0') as nat == n;
      assert ValueFrom(0, [c]) == ValueFrom(0 * 10 + n, [c][1..]);
    } else {
      DigitsValue(n / 10);
      ValueSnoc(0, Digits(n / 10), (n % 10) as char + '0');
    }
  }

  /** A numeral is determined by its value. */
  lemma {:induction false} DecimalUnique(s: string, t: string)
    requires Decimal(s) && Decimal(t) && Value(s) == Value(t)
    ensures s == t
  {
    var a, c := s[..|s| - 1], s[|s| - 1];
    var b, d := t[..|t| - 1], t[|t| - 1];
    assert s == a + [c] && t == b + [d];
    ValueSnoc(0, a, c);
    ValueSnoc(0, b, d);
    assert Value(a) == Value(b) && c == d;
    LeadingPositive(a, s);
    LeadingPositive(b, t);
    if a != "" && b != "" {
      DecimalUnique(a, b);
    }
  }

  lemma LeadingPositive(a: string, s: string)
    requires Decimal(s) && a == s[..|s| - 1]
    ensures AllDigits(a) && (a != "" ==> Decimal(a) && Value(a) > 0) && (a == "" ==> Value(a) == 0)
  {
    if a != "" {
      assert a[0] == s[0];
      ValueGrows((a[0] - '0') as nat, a[1..]);
    }
  }

  /** The i-th virtual node stands at the hash of the node id, a '#' and the decimal numeral of i. */
  lemma VirtualLabel(hash: Hash, m: Member, i: nat, numeral: string)
    requires Decimal(numeral) && Value(numeral) == i
    ensures Virtual(hash, m, i) == Point(hash(m.nodeId + "#" + numeral), m)
  {
    DigitsValue(i);
    DecimalUnique(numeral, Digits(i));
  }

  function Label(id: string, i: nat): string {
    id + "#" + Digits(i)
  }

  /** Labels of different virtual nodes differ, even if node ids contain '#' themselves. */
  lemma LabelsDiffer(a: string, i: nat, b: string, j: nat)
    requires Label(a, i) == Label(b, j)
    ensures a == b && i == j
  {
    DigitsValue(i);
    DigitsValue(j);
    LastMark(a, Digits(i), b, Digits(j));
  }

  lemma LastMark(a: string, d: string, b: string, e: string)
    requires AllDigits(d) && AllDigits(e) && a + "#" + d == b + "#" + e
    ensures a == b && d == e
  {
    var s := a + "#" + d;
    assert s[|a|] == '#' && s[|b|] == '#';
    assert forall i | |a| < i < |s| :: s[i] == d[i - |a| - 1];
    assert forall i | |b| < i < |s| :: s[i] == e[i - |b| - 1];
    assert |a| == |b|;
    assert a == s[..|a|] && b == s[..|a|] && d == s[|a| + 1..] && e == s[|a| + 1..];
  }

  ghost predicate Injective(hash: Hash) {
    forall x, y :: hash(x) == hash(y) ==> x == y
  }

  /** A virtual node is a member and an index below the number of virtual nodes. */
  ghost function Slots(members: set<Member>, replicas: nat): set<(Member, nat)> {
    set m, i: nat | m in members && i < replicas :: (m, i)
  }

  ghost function Column(members: set<Member>, i: nat): set<(Member, nat)> {
    set m | m in members :: (m, i)
  }

  lemma {:induction false} CountColumn(members: set<Member>, i: nat)
    ensures |Column(members, i)| == |members|
    decreases |members|
  {
    if members == {} {
      assert Column(members, i) == {};
    } else {
      var x :| x in members;
      CountColumn(members - {x}, i);
      assert Column(members, i) == Column(members - {x}, i) + {(x, i)};
    }
  }

  lemma {:induction false} CountSlots(members: set<Member>, replicas: nat)
    ensures |Slots(members, replicas)| == replicas * |members|
  {
    if replicas == 0 {
      assert Slots(members, 0) == {};
    } else {
      var i: nat := replicas - 1;
      CountSlots(members, i);
      CountColumn(members, i);
      AddColumn(members, i);
      SizeOfUnion(Slots(members, i), Column(members, i));
      OneMore(i, |members|);
    }
  }

  lemma AddColumn(members: set<Member>, i: nat)
    ensures Slots(members, i + 1) == Slots(members, i) + Column(members, i)
    ensures Slots(members, i) !! Column(members, i)
  {
  }

  lemma SizeOfUnion<T>(p: set<T>, q: set<T>)
    requires p !! q
    ensures |p + q| == |p| + |q|
  {
  }

  lemma OneMore(a: nat, b: nat)
    ensures (a + 1) * b == a * b + b
  {
  }

  ghost function Image<T(!new)>(f: T -> nat, xs: set<T>): set<nat> {
    set x | x in xs :: f(x)
  }

  lemma {:induction false} ImageSize<T(!new)>(f: T -> nat, xs: set<T>)
    requires forall x, y | x in xs && y in xs && f(x) == f(y) :: x == y
    ensures |Image(f, xs)| == |xs|
    decreases |xs|
  {
    if xs == {} {
      assert Image(f, xs) == {};
    } else {
      var x :| x in xs;
      ImageSize(f, xs - {x});
      assert Image(f, xs) == Image(f, xs - {x}) + {f(x)};
    }
  }

  lemma SamePosition(hash: Hash, m: Member, i: nat, n: Member, j: nat)
    requires Injective(hash) && Virtual(hash, m, i).position == Virtual(hash, n, j).position
    ensures m.nodeId == n.nodeId && i == j
  {
    LabelsDiffer(m.nodeId, i, n.nodeId, j);
  }

  /** Without hash collisions the ring has one position for every virtual node of every living member. */
  lemma RingSize(hash: Hash, replicas: nat, members: set<Member>, points: seq<Point>)
    requires Injective(hash) && DistinctIds(members) && IsRing(hash, replicas, members, points)
    ensures |set p | p in points :: p.position| == replicas * |members|
  {
    var slots := Slots(members, replicas);
    var at := (x: (Member, nat)) => Virtual(hash, x.0, x.1).position;
    forall x, y | x in slots && y in slots && at(x) == at(y) ensures x == y {
      SamePosition(hash, x.0, x.1, y.0, y.1);
    }
    ImageSize(at, slots);
    CountSlots(members, replicas);
    PositionsTaken(hash, replicas, members, points, at);
  }

  lemma PositionsTaken(hash: Hash, replicas: nat, members: set<Member>, points: seq<Point>, at: ((Member, nat)) -> nat)
    requires IsRing(hash, replicas, members, points)
    requires forall x: (Member, nat) :: at(x) == Virtual(hash, x.0, x.1).position
    ensures (set p | p in points :: p.position) == Image(at, Slots(members, replicas))
  {
    var positions := set p | p in points :: p.position;
    forall x | x in Slots(members, replicas) ensures at(x) in positions {
      assert OwnedBy(hash, replicas, members, Virtual(hash, x.0, x.1));
    }
    forall p | p in points ensures p.position in Image(at, Slots(members, replicas)) {
      assert OwnedBy(hash, replicas, members, p);
      var i: nat :| i < replicas && p == Virtual(hash, p.owner, i);
      assert (p.owner, i) in Slots(members, replicas) && at((p.owner, i)) == p.position;
    }
  }

  // ---- rebuild ----

  /** The sort key: position, then node id. */
  predicate KeyLess(p: Point, q: Point) {
    p.position < q.position || (p.position == q.position && Less(p.owner.nodeId, q.owner.nodeId))
  }

  predicate InOrder(points: seq<Point>) {
    forall i, j | 0 <= i < j < |points| :: !KeyLess(points[j], points[i])
  }

  function Living(members: seq<Member>): set<Member> {
    set m | m in members && m.status.Alive?
  }

  predicate OwnedBy(hash: Hash, replicas: nat, members: set<Member>, p: Point) {
    p.owner in members && exists i | 0 <= i < replicas :: p == Virtual(hash, p.owner, i)
  }

  /** The points are, in order, the virtual nodes of the members. */
  ghost predicate IsRing(hash: Hash, replicas: nat, members: set<Member>, points: seq<Point>) {
    InOrder(points) && forall p :: p in points <==> OwnedBy(hash, replicas, members, p)
  }

  // ---- candidates ----

  function Owners(points: seq<Point>): seq<Member> {
    seq(|points|, i requires 0 <= i < |points| => points[i].owner)
  }

  predicate Seen(members: seq<Member>, n: NodeId) {
    exists i | 0 <= i < |members| :: members[i].nodeId == n
  }

  /** The first member met of each node id. */
  function FirstSeen(owners: seq<Member>): seq<Member> {
    if owners == [] then []
    else
      var rest := FirstSeen(owners[..|owners| - 1]);
      var m := owners[|owners| - 1];
      if Seen(rest, m.nodeId) then rest else rest + [m]
  }

  /** All points, clockwise from the one at index start. */
  function Turned<T>(s: seq<T>, start: nat): seq<T>
    requires start <= |s|
  {
    s[start..] + s[..start]
  }

  /** Where a key at position k enters the ring: after every smaller position. */
  predicate Splits(positions: seq<nat>, k: nat, start: nat) {
    && start <= |positions|
    && (forall i | 0 <= i < start :: positions[i] < k)
    && (forall i | start <= i < |positions| :: positions[i] >= k)
  }

  /** Node ids identify members, as they do in a membership table. */
  predicate DistinctIds(members: set<Member>) {
    forall a, b | a in members && b in members && a.nodeId == b.nodeId :: a == b
  }

  class ConsistentHashRing {
    const virtualNodes: Positive
    var positions: seq<nat>
    var owners: seq<Member>

    predicate Paired(points: seq<Point>)
      reads this
    {
      && |positions| == |owners| == |points|
      && forall i | 0 <= i < |points| :: points[i] == Point(positions[i], owners[i])
    }

    constructor (virtualNodes: Positive)
      ensures this.virtualNodes == virtualNodes && Paired([])
    {
      this.virtualNodes := virtualNodes;
      positions, owners := [], [];
    }

    method Rebuild(hash: Hash, members: seq<Member>) returns (ghost points: seq<Point>)
      modifies this
      ensures Paired(points) && IsRing(hash, virtualNodes, Living(members), points)
    {
      var unsorted := PointsOf(hash, virtualNodes, members);
      var sorted := SortPoints(unsorted);
      positions := seq(|sorted|, i requires 0 <= i < |sorted| => sorted[i].position);
      owners := Owners(sorted);
      points := sorted;
      SameElements(unsorted, sorted);
    }

    method Candidates(hash: Hash, key: string, ghost members: set<Member>, ghost points: seq<Point>)
      returns (r: Result<seq<Member>>)
      requires Paired(points) && IsRing(hash, virtualNodes, members, points) && DistinctIds(members)
      ensures r.Err? <==> members == {}
      ensures r.Err? ==> r == Err(NoRoute)
      ensures r.Ok? ==> IsCandidates(hash, virtualNodes, members, hash(key), r.value)
    {
      RingEmpty(hash, virtualNodes, members, points);
      if positions == [] {
        return Err(NoRoute);
      }
      var start := BisectLeft(positions, hash(key));
      var result := Walk(owners, start);
      assert owners == Owners(points);
      CandidatesAre(hash, virtualNodes, members, points, hash(key), start);
      return Ok(result);
    }
  }

  /** The loop of candidates: once around the ring, keeping each node id's first owner. */
  method Walk(owners: seq<Member>, start: nat) returns (result: seq<Member>)
    requires start <= |owners|
    ensures result == FirstSeen(Turned(owners, start))
  {
    result := [];
    var seen: set<NodeId> := {};
    ghost var turned := Turned(owners, start);
    for offset := 0 to |owners|
      invariant result == FirstSeen(turned[..offset])
      invariant forall n :: n in seen <==> Seen(result, n)
    {
      TurnedAt(owners, start, offset);
      assert turned[..offset + 1][..offset] == turned[..offset];
      var m := owners[(start + offset) % |owners|];
      if m.nodeId !in seen {
        SeenSnoc(result, m);
        seen := seen + {m.nodeId};
        result := result + [m];
      }
    }
    assert turned[..|owners|] == turned;
  }

  lemma Wrap(i: nat, n: nat)
    requires i < 2 * n
    ensures i % n == if i < n then i else i - n
  {
  }

  lemma TurnedAt<T>(s: seq<T>, start: nat, offset: nat)
    requires start <= |s| && offset < |s|
    ensures Turned(s, start)[offset] == s[(start + offset) % |s|]
  {
    Wrap(start + offset, |s|);
  }

  lemma SeenSnoc(members: seq<Member>, m: Member)
    ensures forall n :: Seen(members + [m], n) <==> Seen(members, n) || n == m.nodeId
  {
    forall n ensures Seen(members + [m], n) <==> Seen(members, n) || n == m.nodeId {
      var all := members + [m];
      assert all[|members|] == m;
      if Seen(members, n) {
        var i :| 0 <= i < |members| && members[i].nodeId == n;
        assert all[i].nodeId == n;
      }
    }
  }

  /** The two loops of rebuild: every virtual node of every living member. */
  method PointsOf(hash: Hash, replicas: nat, members: seq<Member>) returns (points: seq<Point>)
    ensures forall p :: p in points <==> OwnedBy(hash, replicas, Living(members), p)
  {
    points := [];
    for i := 0 to |members|
      invariant forall p :: p in points <==> OwnedBy(hash, replicas, Living(members[..i]), p)
    {
      var m := members[i];
      ghost var before := points;
      assert Living(members[..i + 1]) == Living(members[..i]) + if m.status.Alive? then {m} else {} by {
        assert members[..i + 1] == members[..i] + [m];
      }
      if m.status.Alive? {
        for index := 0 to replicas
          invariant forall p :: p in points <==> p in before || (exists j | 0 <= j < index :: p == Virtual(hash, m, j))
        {
          points := points + [Virtual(hash, m, index)];
        }
        forall p ensures p in points <==> OwnedBy(hash, replicas, Living(members[..i + 1]), p) {
        }
      }
    }
    assert members[..|members|] == members;
  }

  // ---- Sorting ----

  method SortPoints(points: seq<Point>) returns (sorted: seq<Point>)
    ensures InOrder(sorted) && multiset(sorted) == multiset(points)
  {
    sorted := [];
    for i := 0 to |points|
      invariant InOrder(sorted) && multiset(sorted) == multiset(points[..i])
    {
      assert points[..i + 1] == points[..i] + [points[i]];
      sorted := InsertPoint(sorted, points[i]);
    }
    assert points[..|points|] == points;
  }

  method InsertPoint(sorted: seq<Point>, p: Point) returns (r: seq<Point>)
    requires InOrder(sorted)
    ensures InOrder(r) && multiset(r) == multiset(sorted) + multiset{p}
  {
    var i := |sorted|;
    while i > 0 && KeyLess(p, sorted[i - 1])
      invariant 0 <= i <= |sorted|
      invariant forall j | i <= j < |sorted| :: KeyLess(p, sorted[j])
    {
      i := i - 1;
    }
    r := sorted[..i] + [p] + sorted[i..];
    assert sorted == sorted[..i] + sorted[i..];
    InsertedInOrder(sorted, i, p);
  }

  lemma KeyOrder(p: Point, q: Point, r: Point)
    ensures !KeyLess(p, p)
    ensures KeyLess(p, q) ==> !KeyLess(q, p)
    ensures !KeyLess(q, p) && !KeyLess(r, q) ==> !KeyLess(r, p)
  {
    LessTotal(p.owner.nodeId, q.owner.nodeId);
    LessTotal(q.owner.nodeId, r.owner.nodeId);
    LessTotal(p.owner.nodeId, r.owner.nodeId);
    if Less(p.owner.nodeId, q.owner.nodeId) && Less(q.owner.nodeId, p.owner.nodeId) {
      LessTransitive(p.owner.nodeId, q.owner.nodeId, p.owner.nodeId);
    }
    if Less(r.owner.nodeId, p.owner.nodeId) && Less(p.owner.nodeId, q.owner.nodeId) {
      LessTransitive(r.owner.nodeId, p.owner.nodeId, q.owner.nodeId);
    }
  }

  lemma InsertedInOrder(sorted: seq<Point>, i: nat, p: Point)
    requires InOrder(sorted) && i <= |sorted|
    requires forall j | i <= j < |sorted| :: KeyLess(p, sorted[j])
    requires i > 0 ==> !KeyLess(p, sorted[i - 1])
    ensures InOrder(sorted[..i] + [p] + sorted[i..])
  {
    var r := sorted[..i] + [p] + sorted[i..];
    forall a, b | 0 <= a < b < |r| ensures !KeyLess(r[b], r[a]) {
      if a == i {
        KeyOrder(p, r[b], r[b]);
      } else if b == i {
        KeyOrder(r[a], sorted[i - 1], p);
      }
    }
  }

  lemma SameElements(a: seq<Point>, b: seq<Point>)
    requires multiset(a) == multiset(b)
    ensures forall p :: p in a <==> p in b
  {
    forall p ensures p in a <==> p in b {
      assert p in a <==> p in multiset(a);
      assert p in b <==> p in multiset(b);
    }
  }

  /** bisect.bisect_left. */
  method BisectLeft(positions: seq<nat>, k: nat) returns (start: nat)
    requires forall i, j | 0 <= i < j < |positions| :: positions[i] <= positions[j]
    ensures Splits(positions, k, start)
  {
    var lo, hi := 0, |positions|;
    while lo < hi
      invariant 0 <= lo <= hi <= |positions|
      invariant forall i | 0 <= i < lo :: positions[i] < k
      invariant forall i | hi <= i < |positions| :: positions[i] >= k
    {
      var mid := (lo + hi) / 2;
      if positions[mid] < k {
        lo := mid + 1;
      } else {
        hi := mid;
      }
    }
    start := lo;
  }

  // ---- Which members come, and in what order ----

  /** Clockwise from position k: points not yet passed first, then position, then node id. */
  predicate Before(k: nat, p: Point, q: Point) {
    if (p.position < k) != (q.position < k) then q.position < k else KeyLess(p, q)
  }

  /** Some virtual node of a is met before every virtual node of b. */
  predicate Precedes(hash: Hash, replicas: nat, k: nat, a: Member, b: Member) {
    exists i | 0 <= i < replicas :: MetFirst(hash, replicas, k, Virtual(hash, a, i), b)
  }

  predicate MetFirst(hash: Hash, replicas: nat, k: nat, p: Point, b: Member) {
    forall j | 0 <= j < replicas :: Before(k, p, Virtual(hash, b, j))
  }

  lemma BeforeOrder(k: nat, p: Point, q: Point, r: Point)
    ensures !Before(k, p, p)
    ensures Before(k, p, q) && Before(k, q, r) ==> Before(k, p, r)
  {
    KeyOrder(p, q, r);
    if Less(p.owner.nodeId, q.owner.nodeId) && Less(q.owner.nodeId, r.owner.nodeId) {
      LessTransitive(p.owner.nodeId, q.owner.nodeId, r.owner.nodeId);
    }
  }

  lemma PrecedesOrder(hash: Hash, replicas: nat, k: nat)
    ensures StrictOrder((a, b) => Precedes(hash, replicas, k, a, b))
  {
    forall a: Member ensures !Precedes(hash, replicas, k, a, a) {
      if i :| 0 <= i < replicas && MetFirst(hash, replicas, k, Virtual(hash, a, i), a) {
        BeforeOrder(k, Virtual(hash, a, i), Virtual(hash, a, i), Virtual(hash, a, i));
      }
    }
    forall a: Member, b: Member, c: Member | Precedes(hash, replicas, k, a, b) && Precedes(hash, replicas, k, b, c)
      ensures Precedes(hash, replicas, k, a, c)
    {
      var i :| 0 <= i < replicas && MetFirst(hash, replicas, k, Virtual(hash, a, i), b);
      var j :| 0 <= j < replicas && MetFirst(hash, replicas, k, Virtual(hash, b, j), c);
      forall l | 0 <= l < replicas ensures Before(k, Virtual(hash, a, i), Virtual(hash, c, l)) {
        BeforeOrder(k, Virtual(hash, a, i), Virtual(hash, b, j), Virtual(hash, c, l));
      }
      assert MetFirst(hash, replicas, k, Virtual(hash, a, i), c);
    }
  }

  /** Turning the sorted points to the key's entry sorts them clockwise. */
  lemma TurnedClockwise(points: seq<Point>, k: nat, start: nat, a: nat, b: nat)
    requires InOrder(points) && start <= |points| && a < b < |points|
    requires forall i | 0 <= i < start :: points[i].position < k
    requires forall i | start <= i < |points| :: points[i].position >= k
    ensures !Before(k, Turned(points, start)[b], Turned(points, start)[a])
  {
  }

  /** The index at which a node id is first met. */
  ghost predicate FirstAt(owners: seq<Member>, m: Member, i: nat) {
    i < |owners| && owners[i] == m && forall j | 0 <= j < i :: owners[j].nodeId != m.nodeId
  }

  /** Every listed member was met first at some index, and the list follows those indices. */
  lemma {:induction false} FirstSeenAt(owners: seq<Member>, m: Member) returns (i: nat)
    requires m in FirstSeen(owners)
    ensures FirstAt(owners, m, i)
  {
    var n := |owners| - 1;
    var rest := FirstSeen(owners[..n]);
    if m in rest {
      i := FirstSeenAt(owners[..n], m);
    } else {
      i := n;
      SeenAll(owners[..n], m.nodeId);
    }
  }

  lemma {:induction false} SeenAll(owners: seq<Member>, n: NodeId)
    ensures Seen(FirstSeen(owners), n) <==> Seen(owners, n)
  {
    if owners != [] {
      var i := |owners| - 1;
      SeenAll(owners[..i], n);
      SeenSnoc(owners[..i], owners[i]);
      SeenSnoc(FirstSeen(owners[..i]), owners[i]);
      assert owners == owners[..i] + [owners[i]];
    }
  }

  lemma {:induction false} FirstSeenOrder(owners: seq<Member>, a: nat, b: nat, i: nat, j: nat)
    requires a < b < |FirstSeen(owners)|
    requires FirstAt(owners, FirstSeen(owners)[a], i) && FirstAt(owners, FirstSeen(owners)[b], j)
    ensures i < j && FirstSeen(owners)[a].nodeId != FirstSeen(owners)[b].nodeId
  {
    var n := |owners| - 1;
    var rest := FirstSeen(owners[..n]);
    var i' := FirstSeenAt(owners[..n], rest[a]);
    assert i == i';
    if b < |rest| {
      var j' := FirstSeenAt(owners[..n], rest[b]);
      assert j == j';
      FirstSeenOrder(owners[..n], a, b, i, j);
    } else {
      assert owners[n] == FirstSeen(owners)[b];
      assert rest[a].nodeId != owners[n].nodeId;
      SeenAll(owners[..n], owners[n].nodeId);
    }
  }

  /** The candidates of a key: every member once, in the order in which the ring meets them. */
  ghost predicate IsCandidates(hash: Hash, replicas: nat, members: set<Member>, k: nat, c: seq<Member>) {
    (forall m :: m in c <==> m in members) && Ascending(c, (a, b) => Precedes(hash, replicas, k, a, b))
  }

  lemma RingEmpty(hash: Hash, replicas: Positive, members: set<Member>, points: seq<Point>)
    requires IsRing(hash, replicas, members, points)
    ensures points == [] <==> members == {}
  {
    if points != [] {
      assert points[0] in points;
    }
    if m :| m in members {
      assert OwnedBy(hash, replicas, members, Virtual(hash, m, 0));
    }
  }

  lemma TurnedIndex(points: seq<Point>, start: nat, p: Point) returns (i: nat)
    requires start <= |points| && p in points
    ensures i < |points| && Turned(points, start)[i] == p
  {
    var j :| 0 <= j < |points| && points[j] == p;
    i := if start <= j then j - start else j + |points| - start;
  }

  lemma TurnedOwners(points: seq<Point>, start: nat)
    requires start <= |points|
    ensures Turned(Owners(points), start) == Owners(Turned(points, start))
  {
  }

  lemma CandidateElements(hash: Hash, replicas: Positive, members: set<Member>, points: seq<Point>, start: nat, m: Member)
    requires IsRing(hash, replicas, members, points) && DistinctIds(members) && start <= |points|
    ensures m in FirstSeen(Owners(Turned(points, start))) <==> m in members
  {
    var turned := Turned(points, start);
    var owners := Owners(turned);
    if m in FirstSeen(owners) {
      var i := FirstSeenAt(owners, m);
      assert turned[i] in points;
    }
    if m in members {
      assert OwnedBy(hash, replicas, members, Virtual(hash, m, 0));
      var i := TurnedIndex(points, start, Virtual(hash, m, 0));
      assert owners[i].nodeId == m.nodeId;
      SeenAll(owners, m.nodeId);
      var c := FirstSeen(owners);
      var j :| 0 <= j < |c| && c[j].nodeId == m.nodeId;
      var l := FirstSeenAt(owners, c[j]);
      assert turned[l] in points;
    }
  }

  lemma CandidateOrder(hash: Hash, replicas: Positive, members: set<Member>, points: seq<Point>, k: nat, start: nat, a: nat, b: nat)
    requires IsRing(hash, replicas, members, points) && DistinctIds(members) && start <= |points|
    requires forall i | 0 <= i < start :: points[i].position < k
    requires forall i | start <= i < |points| :: points[i].position >= k
    requires a < b < |FirstSeen(Owners(Turned(points, start)))|
    ensures var c := FirstSeen(Owners(Turned(points, start)));
            Precedes(hash, replicas, k, c[a], c[b])
  {
    var turned := Turned(points, start);
    var owners := Owners(turned);
    var c := FirstSeen(owners);
    var i := FirstSeenAt(owners, c[a]);
    var j := FirstSeenAt(owners, c[b]);
    FirstSeenOrder(owners, a, b, i, j);
    CandidateElements(hash, replicas, members, points, start, c[b]);
    assert turned[i] in points;
    var x :| 0 <= x < replicas && turned[i] == Virtual(hash, c[a], x);
    forall y | 0 <= y < replicas ensures Before(k, turned[i], Virtual(hash, c[b], y)) {
      var q := Virtual(hash, c[b], y);
      assert OwnedBy(hash, replicas, members, q);
      var l := TurnedIndex(points, start, q);
      assert owners[l] == c[b];
      TurnedClockwise(points, k, start, i, l);
      BeforeTotal(k, turned[i], q);
    }
    assert MetFirst(hash, replicas, k, Virtual(hash, c[a], x), c[b]);
  }

  lemma BeforeTotal(k: nat, p: Point, q: Point)
    requires p.owner.nodeId != q.owner.nodeId
    ensures Before(k, p, q) || Before(k, q, p)
  {
    LessTotal(p.owner.nodeId, q.owner.nodeId);
  }

  lemma CandidatesAre(hash: Hash, replicas: Positive, members: set<Member>, points: seq<Point>, k: nat, start: nat)
    requires IsRing(hash, replicas, members, points) && DistinctIds(members) && start <= |points|
    requires forall i | 0 <= i < start :: points[i].position < k
    requires forall i | start <= i < |points| :: points[i].position >= k
    ensures IsCandidates(hash, replicas, members, k, FirstSeen(Turned(Owners(points), start)))
  {
    TurnedOwners(points, start);
    var c := FirstSeen(Owners(Turned(points, start)));
    forall m ensures m in c <==> m in members {
      CandidateElements(hash, replicas, members, points, start, m);
    }
    forall a, b | 0 <= a < b < |c| ensures Precedes(hash, replicas, k, c[a], c[b]) {
      CandidateOrder(hash, replicas, members, points, k, start, a, b);
    }
  }

  // ---- Independence and minimal disruption ----

  /** The candidates depend only on who is alive, not on the order in which the ring was built. */
  lemma CandidatesUnique(hash: Hash, replicas: nat, members: set<Member>, k: nat, c: seq<Member>, d: seq<Member>)
    requires IsCandidates(hash, replicas, members, k, c) && IsCandidates(hash, replicas, members, k, d)
    ensures c == d && |c| == |members|
  {
    PrecedesOrder(hash, replicas, k);
    AscendingUnique(c, d, (a, b) => Precedes(hash, replicas, k, a, b));
    NoRepeatCount(c, members, (a, b) => Precedes(hash, replicas, k, a, b));
  }

  lemma {:induction false} NoRepeatCount(c: seq<Member>, members: set<Member>, less: (Member, Member) -> bool)
    requires StrictOrder(less) && Ascending(c, less) && forall m :: m in c <==> m in members
    ensures |c| == |members|
  {
    if c != [] {
      forall m ensures m in c[1..] <==> m in members - {c[0]} {
        TailMember(c, less, m);
      }
      NoRepeatCount(c[1..], members - {c[0]}, less);
    } else {
      assert members == {};
    }
  }

  /** Removing a member deletes it from every key's candidate list and changes nothing else. */
  lemma RemovalDeletes(hash: Hash, replicas: nat, members: set<Member>, x: Member, k: nat, c: seq<Member>, d: seq<Member>)
    returns (p: nat)
    requires x in members
    requires IsCandidates(hash, replicas, members, k, c) && IsCandidates(hash, replicas, members - {x}, k, d)
    ensures p < |c| && c[p] == x && d == c[..p] + c[p + 1..]
  {
    p :| 0 <= p < |c| && c[p] == x;
    var e := c[..p] + c[p + 1..];
    PrecedesOrder(hash, replicas, k);
    forall m ensures m in e <==> m in members - {x} {
      DeletedElements(c, p, (a, b) => Precedes(hash, replicas, k, a, b), m);
    }
    assert Ascending(e, (a, b) => Precedes(hash, replicas, k, a, b));
    CandidatesUnique(hash, replicas, members - {x}, k, d, e);
  }

  lemma DeletedElements(c: seq<Member>, p: nat, less: (Member, Member) -> bool, m: Member)
    requires StrictOrder(less) && Ascending(c, less) && p < |c|
    ensures m in c[..p] + c[p + 1..] <==> m in c && m != c[p]
  {
  }

  /** ReplicaSelector.replicas: the first candidates. */
  function Replicas(c: seq<Member>, factor: Positive): seq<Member> {
    if |c| <= factor then c else c[..factor]
  }

  /** The replicas are the first candidates, as many as the factor asks for and the cluster has. */
  lemma ReplicasAre(hash: Hash, replicas: nat, members: set<Member>, k: nat, c: seq<Member>, factor: Positive)
    requires IsCandidates(hash, replicas, members, k, c)
    ensures Replicas(c, factor) <= c
    ensures |Replicas(c, factor)| == if factor <= |members| then factor else |members|
  {
    CandidatesUnique(hash, replicas, members, k, c, c);
  }

  /** A replica set loses only the removed member and gains at most the next candidate; other sets stay. */
  lemma ReplicasAfterRemoval(hash: Hash, replicas: nat, members: set<Member>, x: Member, k: nat,
                             c: seq<Member>, d: seq<Member>, factor: Positive)
    requires x in members
    requires IsCandidates(hash, replicas, members, k, c) && IsCandidates(hash, replicas, members - {x}, k, d)
    ensures x !in Replicas(c, factor) ==> Replicas(d, factor) == Replicas(c, factor)
    ensures x in Replicas(c, factor) ==> exists p | 0 <= p < |Replicas(c, factor)| ::
              && Replicas(c, factor)[p] == x
              && Replicas(d, factor) == Replicas(c, factor)[..p] + Replicas(c, factor)[p + 1..]
                                        + if factor < |c| then [c[factor]] else []
  {
    var p := RemovalDeletes(hash, replicas, members, x, k, c, d);
    var r := Replicas(c, factor);
    if p < |r| {
      assert r[p] == x;
      if factor < |c| {
        assert d[..factor] == r[..p] + r[p + 1..] + [c[factor]];
      }
    } else {
      assert x !in r by {
        if i :| 0 <= i < |r| && r[i] == x {
          PrecedesOrder(hash, replicas, k);
        }
      }
    }
  }
}
