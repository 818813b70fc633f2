/** Sets that remember insertion order, as JavaScript's Set and the keys of its Map do, and the
    first-in-first-out bound put on them. */
module OrderedSets {

  ghost predicate Distinct<T>(s: seq<T>) {
    forall i, j :: 0 <= i < j < |s| ==> s[i] != s[j]
  }

  ghost function Members<T>(s: seq<T>): set<T> { set x | x in s }

  /** Removes x, keeping the order of the rest. */
  function Without<T(==,!new)>(s: seq<T>, x: T): (r: seq<T>)
    ensures forall y :: y in r <==> y in s && y != x
    ensures |r| <= |s| && (x !in s ==> r == s)
  {
    if s == [] then []
    else if s[0] == x then Without(s[1..], x)
    else [s[0]] + Without(s[1..], x)
  }

  /** Of distinct elements just one goes, and the others close up around it in their order. */
  lemma {:induction false} WithoutAt<T(!new)>(s: seq<T>, i: nat)
    requires Distinct(s) && i < |s|
    ensures Without(s, s[i]) == s[..i] + s[i + 1..]
  {
    if i == 0 {
      assert s[0] !in s[1..];
    } else {
      WithoutAt(s[1..], i - 1);
      assert s[0] != s[i] && s[1..][i - 1] == s[i];
      assert [s[0]] + (s[1..][..i - 1] + s[1..][i..]) == s[..i] + s[i + 1..];
    }
  }

  lemma {:induction false} WithoutDistinct<T(!new)>(s: seq<T>, x: T)
    requires Distinct(s)
    ensures Distinct(Without(s, x))
  {
    if s == [] {
    } else {
      WithoutDistinct(s[1..], x);
      assert s[0] !in s[1..];
    }
  }

  /** Adding an element that is present keeps its place. */
  function Add<T(==,!new)>(s: seq<T>, x: T): (r: seq<T>)
    ensures forall y :: y in r <==> y in s || y == x
    ensures s <= r && |r| <= |s| + 1 && (r == s <==> x in s)
    ensures Distinct(s) ==> Distinct(r)
  {
    if x in s then s else s + [x]
  }

  /** A full set drops its oldest element first, even when x is already present. */
  function FifoAdd<T(==,!new)>(s: seq<T>, cap: int, x: T): seq<T> {
    Add(if |s| >= cap && s != [] then s[1..] else s, x)
  }

  /** A set with room keeps its elements; a full one loses the oldest, unless that is the one added, and keeps the
      others in their order.  The added element comes last if it was not kept. */
  lemma FifoAddKeepsNewest<T(!new)>(s: seq<T>, cap: int, x: T)
    requires Distinct(s)
    ensures var r := FifoAdd(s, cap, x);
            && Distinct(r) && x in r && (forall y :: y in r ==> y in s || y == x)
            && (s == [] || |s| < cap ==> s <= r)
            && (s != [] && |s| >= cap ==> s[1..] <= r && (s[0] in r <==> s[0] == x))
            && (cap >= 1 && |s| <= cap ==> |r| <= cap)
  {
    if s != [] { assert s[0] !in s[1..] && Distinct(s[1..]); }
  }

  lemma {:induction false} DistinctSize<T>(s: seq<T>)
    requires Distinct(s)
    ensures |Members(s)| == |s|
  {
    if s == [] {
    } else {
      DistinctSize(s[1..]);
      assert Members(s) == {s[0]} + Members(s[1..]);
      assert s[0] !in s[1..];
    }
  }

  lemma {:induction false} SubsetSize<T>(a: set<T>, b: set<T>)
    requires a <= b
    ensures |a| <= |b|
    decreases |b|
  {
    if x :| x in a {
      SubsetSize(a - {x}, b - {x});
    }
  }

  /** Distinct elements taken from a small set, not including x, leave room for x. */
  lemma RoomFor<T>(s: seq<T>, x: T, all: set<T>, cap: int)
    requires Distinct(s) && x !in s && Members(s) + {x} <= all && |all| <= cap
    ensures |s| < cap
  {
    DistinctSize(s);
    SubsetSize(Members(s) + {x}, all);
  }
}
