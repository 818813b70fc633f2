/** The least-recently-used map and what it keeps. */
module LruCache {
  import opened OrderedSets
  import opened Wrappers

  /* ---------- one access ---------- */

  /** get: a hit moves the key to the end. */
  function Touch<K(==,!new)>(order: seq<K>, k: K): seq<K> {
    if k in order then Without(order, k) + [k] else order
  }

  /** get, then set on a miss, as ProfileRepository.profile does.  A full map drops its first key. */
  function Access<K(==,!new)>(order: seq<K>, cap: int, k: K): seq<K> {
    if k in order then Touch(order, k) else FifoAdd(order, cap, k)
  }

  function Run<K(==,!new)>(cap: int, trace: seq<K>): seq<K>
    decreases |trace|
  {
    if trace == [] then [] else Access(Run(cap, trace[..|trace| - 1]), cap, trace[|trace| - 1])
  }

  /** A map created with no room at all still keeps one entry. */
  function Room(cap: int): nat { if cap < 1 then 1 else cap }

  /* ---------- recency, independently of any cache ---------- */

  /** The distinct keys of a trace by their last access, the least recent first. */
  function Recency<K(==,!new)>(trace: seq<K>): seq<K>
    decreases |trace|
  {
    if trace == [] then []
    else
      var last := trace[|trace| - 1];
      Without(Recency(trace[..|trace| - 1]), last) + [last]
  }

  function LastAccess<K(==)>(trace: seq<K>, k: K): (i: nat)
    requires k in trace
    ensures i < |trace| && trace[i] == k && forall m :: i < m < |trace| ==> trace[m] != k
    decreases |trace|
  {
    var n := |trace| - 1;
    if trace[n] == k then n
    else
      assert trace == trace[..n] + [trace[n]];
      LastAccess(trace[..n], k)
  }

  ghost predicate OrderedByLastAccess<K(!new)>(order: seq<K>, trace: seq<K>) {
    && (forall k :: k in order <==> k in trace)
    && Increasing(order, trace)
  }

  ghost predicate Increasing<K(!new)>(order: seq<K>, trace: seq<K>) {
    && (forall k :: k in order ==> k in trace)
    && (forall i, j :: 0 <= i < j < |order| ==> LastAccess(trace, order[i]) < LastAccess(trace, order[j]))
  }

  lemma IncreasingAfter<K(!new)>(x: K, rest: seq<K>, trace: seq<K>)
    requires Increasing(rest, trace) && x in trace
    requires forall j :: 0 <= j < |rest| ==> LastAccess(trace, x) < LastAccess(trace, rest[j])
    ensures Increasing([x] + rest, trace)
  {
    hide LastAccess;
    forall k | k in [x] + rest ensures k in trace {
      assert k == x || k in rest;
    }
    var order := [x] + rest;
    forall i, j | 0 <= i < j < |order| ensures LastAccess(trace, order[i]) < LastAccess(trace, order[j]) {
      assert order[j] == rest[j - 1];
      if i > 0 { assert order[i] == rest[i - 1]; }
    }
  }

  lemma IncreasingTail<K(!new)>(order: seq<K>, trace: seq<K>)
    requires Increasing(order, trace) && order != []
    ensures Increasing(order[1..], trace) && order[0] in trace
    ensures forall y :: y in order[1..] ==> y in trace && LastAccess(trace, order[0]) < LastAccess(trace, y)
  {
    hide LastAccess;
    forall y | y in order[1..] ensures y in trace && LastAccess(trace, order[0]) < LastAccess(trace, y) {
      var m :| 0 <= m < |order[1..]| && order[1..][m] == y;
      assert order[m + 1] == y;
    }
  }

  lemma {:induction false} WithoutIncreasing<K(!new)>(order: seq<K>, k: K, trace: seq<K>)
    requires Increasing(order, trace)
    ensures Increasing(Without(order, k), trace)
    decreases |order|
  {
    hide LastAccess, Increasing;
    if order == [] {
    } else {
      IncreasingTail(order, trace);
      WithoutIncreasing(order[1..], k, trace);
      if order[0] != k { IncreasingAfter(order[0], Without(order[1..], k), trace); }
    }
  }

  /** `Recency` means what it says. */
  lemma {:induction false} RecencyIsOrdered<K(!new)>(trace: seq<K>)
    ensures OrderedByLastAccess(Recency(trace), trace)
    decreases |trace|
  {
    if trace == [] {
    } else {
      var n := |trace| - 1;
      var before, k := trace[..n], trace[n];
      assert trace == before + [k];
      RecencyIsOrdered(before);
      var rest := Without(Recency(before), k);
      WithoutIncreasing(Recency(before), k, before);
      forall x | x in rest ensures x in trace && LastAccess(trace, x) == LastAccess(before, x) < n {
        assert x in before;
      }
      assert LastAccess(trace, k) == n;
      assert Recency(trace) == rest + [k];
    }
  }

  /* ---------- the cache keeps the most recent keys ---------- */

  function LastN<K>(s: seq<K>, n: nat): seq<K> { if |s| <= n then s else s[|s| - n..] }

  lemma {:induction false} WithoutConcat<K(!new)>(a: seq<K>, b: seq<K>, k: K)
    ensures Without(a + b, k) == Without(a, k) + Without(b, k)
  {
    if a == [] {
      assert a + b == b;
    } else {
      assert (a + b)[1..] == a[1..] + b;
      WithoutConcat(a[1..], b, k);
    }
  }

  lemma {:induction false} WithoutSize<K(!new)>(s: seq<K>, k: K)
    requires forall i, j :: 0 <= i < j < |s| ==> s[i] != s[j]
    ensures |Without(s, k)| == if k in s then |s| - 1 else |s|
  {
    if s == [] {
    } else {
      WithoutSize(s[1..], k);
    }
  }

  lemma HitKeepsLastN<K(!new)>(a: seq<K>, b: seq<K>, cap: int, k: K)
    requires Distinct(a + b) && k in b && (|b| == Room(cap) || (a == [] && |b| <= Room(cap)))
    ensures Access(b, cap, k) == LastN(Without(a + b, k) + [k], Room(cap))
  {
    hide Without, Distinct;
    DistinctParts(a, b, k);
    WithoutConcat(a, b, k);
    WithoutSize(b, k);
    assert Without(a + b, k) + [k] == a + (Without(b, k) + [k]);
    LastNOfConcat(a, Without(b, k) + [k], Room(cap));
  }

  lemma MissKeepsLastN<K(!new)>(a: seq<K>, b: seq<K>, cap: int, k: K)
    requires Distinct(a + b) && k !in b && (|b| == Room(cap) || (a == [] && |b| <= Room(cap)))
    ensures Access(b, cap, k) == LastN(Without(a + b, k) + [k], Room(cap))
  {
    hide Distinct, Without;
    WithoutConcat(a, b, k);
    assert Without(a + b, k) + [k] == Without(a, k) + (b + [k]);
    if |b| < Room(cap) {
      assert Without(a, k) == [];
    }
    LastNOfConcat(Without(a, k), b + [k], Room(cap));
    MissShape(b, cap, k);
  }

  lemma MissShape<K(!new)>(b: seq<K>, cap: int, k: K)
    requires k !in b && |b| <= Room(cap)
    ensures Access(b, cap, k) == if |b| < Room(cap) then b + [k] else (b + [k])[1..]
  {
  }

  lemma AccessKeepsLastN<K(!new)>(r: seq<K>, cap: int, k: K)
    requires Distinct(r)
    ensures Access(LastN(r, Room(cap)), cap, k) == LastN(Without(r, k) + [k], Room(cap))
  {
    hide Without, Access;
    var n := Room(cap);
    var cut := if |r| <= n then 0 else |r| - n;
    assert r == r[..cut] + r[cut..] && r[cut..] == LastN(r, n);
    if k in r[cut..] { HitKeepsLastN(r[..cut], r[cut..], cap, k); } else { MissKeepsLastN(r[..cut], r[cut..], cap, k); }
  }

  lemma DistinctParts<K(!new)>(a: seq<K>, b: seq<K>, k: K)
    requires Distinct(a + b) && k in b
    ensures k !in a
    ensures forall i, j :: 0 <= i < j < |b| ==> b[i] != b[j]
  {
    var j :| 0 <= j < |b| && b[j] == k;
    assert (a + b)[|a| + j] == k;
    assert forall i :: 0 <= i < |a| ==> (a + b)[i] == a[i];
    assert forall i :: 0 <= i < |b| ==> (a + b)[|a| + i] == b[i];
  }

  lemma LastNOfConcat<K>(x: seq<K>, y: seq<K>, n: nat)
    requires |y| >= n || x == []
    ensures LastN(x + y, n) == if |y| <= n then y else y[|y| - n..]
  {
  }

  lemma {:induction false} RecencyDistinct<K(!new)>(trace: seq<K>)
    ensures Distinct(Recency(trace))
    decreases |trace|
  {
    if trace == [] {
    } else {
      RecencyDistinct(trace[..|trace| - 1]);
      WithoutDistinct(Recency(trace[..|trace| - 1]), trace[|trace| - 1]);
    }
  }

  /** After any accesses the map holds the most recently accessed keys, as many as it has room for, in
      recency order. */
  lemma {:induction false} KeepsMostRecent<K(!new)>(cap: int, trace: seq<K>)
    ensures Run(cap, trace) == LastN(Recency(trace), Room(cap))
    decreases |trace|
  {
    if trace == [] {
    } else {
      var before := trace[..|trace| - 1];
      KeepsMostRecent(cap, before);
      RecencyDistinct(before);
      AccessKeepsLastN(Recency(before), cap, trace[|trace| - 1]);
    }
  }

  /** A key is in the map exactly if it was accessed, and fewer different keys than there is room for have
      been accessed since. */
  lemma CachedIff<K(!new)>(cap: int, trace: seq<K>, k: K)
    ensures k in Run(cap, trace) <==> k in trace && |Members(trace[LastAccess(trace, k) + 1..])| < Room(cap)
  {
    hide Run, Recency, Room, LastAccess, Increasing, Distinct, Members;
    KeepsMostRecent(cap, trace);
    RecencyIsOrdered(trace);
    RecencyDistinct(trace);
    var r, n := Recency(trace), Room(cap);
    if k in trace {
      var i :| 0 <= i < |r| && r[i] == k;
      AccessedSince(trace, r, i);
      InLastN(r, n, i);
    } else {
      assert forall x :: x in LastN(r, n) ==> x in r;
    }
  }

  lemma InLastN<K(!new)>(r: seq<K>, n: nat, i: nat)
    requires Distinct(r) && i < |r|
    ensures r[i] in LastN(r, n) <==> |r| - i - 1 < n
  {
  }

  lemma AccessedSince<K(!new)>(trace: seq<K>, r: seq<K>, i: nat)
    requires OrderedByLastAccess(r, trace) && Distinct(r) && i < |r|
    ensures r[i] in trace && |Members(trace[LastAccess(trace, r[i]) + 1..])| == |r| - i - 1
  {
    hide OrderedByLastAccess, LastAccess, Members;
    InTrace(trace, r, i);
    var at := LastAccess(trace, r[i]);
    var since, later := trace[at + 1..], r[i + 1..];
    forall m | 0 <= m < |since| ensures since[m] in later {
      LaterInRecency(trace, r, i, at + 1 + m);
    }
    forall m | 0 <= m < |later| ensures later[m] in since {
      LaterInTrace(trace, r, i, i + 1 + m);
    }
    SameMembers(since, later);
    DistinctSuffix(r, i + 1);
    DistinctSize(later);
  }

  lemma DistinctSuffix<K>(r: seq<K>, i: nat)
    requires Distinct(r) && i <= |r|
    ensures Distinct(r[i..])
  {
  }

  lemma InTrace<K(!new)>(trace: seq<K>, r: seq<K>, i: nat)
    requires OrderedByLastAccess(r, trace) && i < |r|
    ensures r[i] in trace
  {
  }

  lemma SameMembers<K>(a: seq<K>, b: seq<K>)
    requires (forall m :: 0 <= m < |a| ==> a[m] in b) && (forall m :: 0 <= m < |b| ==> b[m] in a)
    ensures Members(a) == Members(b)
  {
  }

  lemma LaterInTrace<K(!new)>(trace: seq<K>, r: seq<K>, i: nat, j: nat)
    requires OrderedByLastAccess(r, trace) && i < j < |r|
    ensures r[i] in trace && r[j] in trace[LastAccess(trace, r[i]) + 1..]
  {
  }

  lemma LaterInRecency<K(!new)>(trace: seq<K>, r: seq<K>, i: nat, m: nat)
    requires OrderedByLastAccess(r, trace) && i < |r| && r[i] in trace && LastAccess(trace, r[i]) < m < |trace|
    ensures trace[m] in r[i + 1..]
  {
    hide LastAccess;
    var x := trace[m];
    assert x in r;
    var j :| 0 <= j < |r| && r[j] == x;
    assert LastAccess(trace, x) >= m;
    assert j > i;
    assert r[i + 1..][j - i - 1] == x;
  }

  /* ---------- the map ---------- */

  /** Values are objects, so a stored value is never mistaken for a missing one. */
  class LRUMap<K(==,!new), V> {
    const cap: int
    var order: seq<K>
    var values: map<K, V>

    ghost predicate Valid()
      reads this
    {
      Distinct(order) && forall k :: k in values <==> k in order
    }

    constructor (cap: int)
      ensures Valid() && order == [] && values == map[] && this.cap == cap
    {
      this.cap := cap;
      order, values := [], map[];
    }

    method Peek(k: K) returns (r: Option<V>)
      requires Valid()
      ensures r == if k in values then Some(values[k]) else None
    {
      r := if k in values then Some(values[k]) else None;
    }

    method Get(k: K) returns (r: Option<V>)
      requires Valid()
      modifies this`order
      ensures Valid() && order == Touch(old(order), k)
      ensures r == if k in values then Some(values[k]) else None
    {
      if k !in values {
        return None;
      }
      WithoutDistinct(order, k);
      order := Without(order, k);
      order := order + [k];
      r := Some(values[k]);
    }

    method Set(k: K, v: V)
      requires Valid()
      modifies this
      ensures Valid() && order == FifoAdd(old(order), cap, k)
      ensures k in values && values[k] == v
      ensures forall x :: x in values && x != k ==> x in old(values) && values[x] == old(values)[x]
    {
      if |order| >= cap && order != [] {
        values := values - {order[0]};
        order := order[1..];
      }
      values := values[k := v];
      order := Add(order, k);
    }

    /** The access pattern of the profile cache. */
    method GetOrSet(k: K, fallback: V) returns (v: V)
      requires Valid()
      modifies this
      ensures Valid() && order == Access(old(order), cap, k)
      ensures v == if k in old(values) then old(values)[k] else fallback
      ensures k in values && values[k] == v
    {
      var hit := Get(k);
      if hit.Some? {
        v := hit.value;
      } else {
        Set(k, fallback);
        v := fallback;
      }
    }
  }
}
