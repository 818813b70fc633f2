/** The counting semaphore whose permits are given back by abort signals.  A ticket is one call of acquire
    with a signal that is not aborted yet; tickets are numbered in order of arrival. */
module Semaphore {

  datatype Ticket =
    | Holding          // acquired at once; its abort releases
    | Released
    | Waiting
    | Rejected         // aborted while waiting
    | Promoted         // resolved by a release; its abort does nothing more
    | Finished         // promoted, and aborted since

  /** `promotions` records who was resolved by a release, in order. */
  datatype State = State(count: int, waiting: seq<nat>, tickets: seq<Ticket>, promotions: seq<nat>)

  datatype Action = Acquire | Abort(t: nat)

  function Init(cap: int): State { State(cap, [], [], []) }

  function Position(s: seq<nat>, t: nat): (i: nat)
    requires t in s
    ensures i < |s| && s[i] == t
  {
    if s[0] == t then 0 else 1 + Position(s[1..], t)
  }

  function Delete(s: seq<nat>, t: nat): seq<nat> {
    if t in s then s[..Position(s, t)] + s[Position(s, t) + 1..] else s
  }

  /** releaseFirstInQueue. */
  function Release(s: State): State {
    if s.waiting == [] then s.(count := s.count + 1)
    else if s.waiting[0] >= |s.tickets| then s
    else
      s.(waiting := s.waiting[1..], tickets := s.tickets[s.waiting[0] := Promoted],
         promotions := s.promotions + [s.waiting[0]])
  }

  function Step(s: State, a: Action): State {
    match a
    case Acquire =>
      if s.count > 0 then s.(count := s.count - 1, tickets := s.tickets + [Holding])
      else s.(waiting := s.waiting + [|s.tickets|], tickets := s.tickets + [Waiting])
    case Abort(t) =>
      if t >= |s.tickets| then s
      else
        match s.tickets[t]
        case Holding => Release(s.(tickets := s.tickets[t := Released]))
        case Waiting => s.(waiting := Delete(s.waiting, t), tickets := s.tickets[t := Rejected])
        case Promoted => s.(tickets := s.tickets[t := Finished])
        case _ => s
  }

  function Run(s: State, actions: seq<Action>): State
    decreases |actions|
  {
    if actions == [] then s else Run(Step(s, actions[0]), actions[1..])
  }

  /* ---------- conservation ---------- */

  /** Permits held for good or until the abort: direct holders, and everyone ever promoted. */
  predicate Charged(x: Ticket) { x == Holding || x == Promoted || x == Finished }

  predicate Live(x: Ticket) { x == Holding || x == Promoted }

  function CountWhere(xs: seq<Ticket>, p: Ticket -> bool): nat {
    if xs == [] then 0 else (if p(xs[0]) then 1 else 0) + CountWhere(xs[1..], p)
  }

  lemma {:induction false} CountUpdate(xs: seq<Ticket>, i: nat, x: Ticket, p: Ticket -> bool)
    requires i < |xs|
    ensures CountWhere(xs[i := x], p) == CountWhere(xs, p) - (if p(xs[i]) then 1 else 0) + (if p(x) then 1 else 0)
  {
    if i > 0 {
      assert xs[i := x][1..] == xs[1..][i - 1 := x];
      CountUpdate(xs[1..], i - 1, x, p);
    } else {
      assert xs[i := x][1..] == xs[1..];
    }
  }

  lemma {:induction false} CountAppend(xs: seq<Ticket>, x: Ticket, p: Ticket -> bool)
    ensures CountWhere(xs + [x], p) == CountWhere(xs, p) + (if p(x) then 1 else 0)
  {
    if xs == [] {
      assert xs + [x] == [x] && [x][1..] == [];
    } else {
      assert (xs + [x])[1..] == xs[1..] + [x];
      CountAppend(xs[1..], x, p);
    }
  }

  lemma {:induction false} CountMonotone(xs: seq<Ticket>, p: Ticket -> bool, q: Ticket -> bool)
    requires forall x :: p(x) ==> q(x)
    ensures CountWhere(xs, p) <= CountWhere(xs, q)
  {
    if xs == [] {
    } else {
      CountMonotone(xs[1..], p, q);
    }
  }

  ghost predicate Ascending(s: seq<nat>) {
    forall i, j :: 0 <= i < j < |s| ==> s[i] < s[j]
  }

  /** The queue holds the waiting tickets in order of arrival; who was promoted came before them. */
  ghost predicate QueueInv(waiting: seq<nat>, tickets: seq<Ticket>, promotions: seq<nat>) {
    && Ascending(waiting) && Ascending(promotions)
    && (forall t :: t in waiting <==> 0 <= t < |tickets| && tickets[t] == Waiting)
    && (forall i, j :: 0 <= i < |promotions| && 0 <= j < |waiting| ==> promotions[i] < waiting[j])
    && (forall i :: 0 <= i < |promotions| ==> promotions[i] < |tickets|)
  }

  predicate Direct(x: Ticket) { x == Holding }

  ghost predicate Inv(s: State, cap: int) {
    && s.count + CountWhere(s.tickets, Charged) == cap
    && |s.promotions| + CountWhere(s.tickets, Direct) == CountWhere(s.tickets, Charged)
    && (s.waiting != [] ==> s.count <= 0)
    && (cap >= 0 ==> s.count >= 0)
    && QueueInv(s.waiting, s.tickets, s.promotions)
  }

  lemma ChangeTicket(s: State, t: nat, x: Ticket)
    requires t < |s.tickets|
    ensures var n := s.tickets[t := x];
            && CountWhere(n, Charged) == CountWhere(s.tickets, Charged)
                 - (if Charged(s.tickets[t]) then 1 else 0) + (if Charged(x) then 1 else 0)
            && CountWhere(n, Direct) == CountWhere(s.tickets, Direct)
                 - (if Direct(s.tickets[t]) then 1 else 0) + (if Direct(x) then 1 else 0)
  {
    CountUpdate(s.tickets, t, x, Charged);
    CountUpdate(s.tickets, t, x, Direct);
  }

  lemma AcquireKeepsInv(s: State, cap: int)
    requires Inv(s, cap)
    ensures Inv(Step(s, Acquire), cap)
  {
    var t := Step(s, Acquire);
    var x := if s.count > 0 then Holding else Waiting;
    CountAppend(s.tickets, x, Charged);
    CountAppend(s.tickets, x, Direct);
    JoinQueue(s, x);
    hide CountWhere, QueueInv;
  }

  lemma JoinQueue(s: State, x: Ticket)
    requires QueueInv(s.waiting, s.tickets, s.promotions) && (x == Holding || x == Waiting)
    ensures QueueInv(if x == Waiting then s.waiting + [|s.tickets|] else s.waiting, s.tickets + [x], s.promotions)
  {
    var n := |s.tickets|;
    var waiting := if x == Waiting then s.waiting + [n] else s.waiting;
    BelowSize(s.waiting, s.tickets, s.promotions);
    assert Ascending(waiting) && forall i, j :: 0 <= i < |s.promotions| && 0 <= j < |waiting| ==> s.promotions[i] < waiting[j];
    assert forall t :: t in waiting <==> t in s.waiting || (t == n && x == Waiting);
    assert forall t :: 0 <= t < n ==> (s.tickets + [x])[t] == s.tickets[t];
  }

  lemma BelowSize(waiting: seq<nat>, tickets: seq<Ticket>, promotions: seq<nat>)
    requires QueueInv(waiting, tickets, promotions)
    ensures forall i :: 0 <= i < |waiting| ==> waiting[i] < |tickets|
  {
    assert forall i :: 0 <= i < |waiting| ==> waiting[i] in waiting;
  }

  lemma ReleaseKeepsQueue(s: State, t: nat)
    requires QueueInv(s.waiting, s.tickets, s.promotions) && t < |s.tickets| && s.tickets[t] == Holding
    ensures var r := Release(s.(tickets := s.tickets[t := Released]));
            QueueInv(r.waiting, r.tickets, r.promotions)
  {
    HolderKeepsQueue(s.waiting, s.tickets, s.promotions, t);
    if s.waiting != [] { FirstKeepsQueue(s.waiting, s.tickets[t := Released], s.promotions); }
    hide QueueInv;
  }

  lemma HolderKeepsQueue(waiting: seq<nat>, tickets: seq<Ticket>, promotions: seq<nat>, t: nat)
    requires QueueInv(waiting, tickets, promotions) && t < |tickets| && tickets[t] == Holding
    ensures QueueInv(waiting, tickets[t := Released], promotions)
  {
  }

  /** The first in the queue is promoted. */
  lemma FirstKeepsQueue(waiting: seq<nat>, tickets: seq<Ticket>, promotions: seq<nat>)
    requires QueueInv(waiting, tickets, promotions) && waiting != []
    ensures waiting[0] < |tickets|
    ensures QueueInv(waiting[1..], tickets[waiting[0] := Promoted], promotions + [waiting[0]])
  {
    var w := waiting[0];
    assert w in waiting;
    assert waiting == [w] + waiting[1..];
    assert forall x :: x in waiting[1..] <==> x in waiting && x != w by {
      assert forall i :: 1 <= i < |waiting| ==> waiting[i] > w;
    }
  }

  lemma DeleteShape(s: seq<nat>, t: nat)
    requires Ascending(s)
    ensures Ascending(Delete(s, t)) && forall x :: x in Delete(s, t) <==> x in s && x != t
  {
    if t in s {
      var i := Position(s, t);
      assert s == s[..i] + [t] + s[i + 1..];
      assert forall j :: 0 <= j < |s| && j != i ==> s[j] != t;
    }
  }

  lemma RejectKeepsQueue(s: State, t: nat)
    requires QueueInv(s.waiting, s.tickets, s.promotions) && t < |s.tickets| && s.tickets[t] == Waiting
    ensures QueueInv(Delete(s.waiting, t), s.tickets[t := Rejected], s.promotions)
  {
    DeleteShape(s.waiting, t);
    hide Delete;
    var rest := Delete(s.waiting, t);
    forall i, j | 0 <= i < |s.promotions| && 0 <= j < |rest| ensures s.promotions[i] < rest[j] {
      assert rest[j] in s.waiting;
    }
  }

  lemma AbortKeepsInv(s: State, cap: int, t: nat)
    requires Inv(s, cap) && t < |s.tickets|
    ensures Inv(Step(s, Abort(t)), cap)
  {
    match s.tickets[t] {
      case Holding =>
        var r := s.(tickets := s.tickets[t := Released]);
        ChangeTicket(s, t, Released);
        ReleaseKeepsQueue(s, t);
        if s.waiting != [] {
          var w := s.waiting[0];
          assert w in s.waiting && w != t;
          ChangeTicket(r, w, Promoted);
        }
      case Waiting =>
        ChangeTicket(s, t, Rejected);
        RejectKeepsQueue(s, t);
        assert t in s.waiting;
      case Promoted =>
        ChangeTicket(s, t, Finished);
      case _ =>
    }
  }

  lemma {:induction false} RunKeepsInv(s: State, cap: int, actions: seq<Action>)
    requires Inv(s, cap)
    ensures Inv(Run(s, actions), cap)
    decreases |actions|
  {
    if actions == [] {
    } else {
      match actions[0] {
        case Acquire => AcquireKeepsInv(s, cap);
        case Abort(t) => if t < |s.tickets| { AbortKeepsInv(s, cap, t); }
      }
      RunKeepsInv(Step(s, actions[0]), cap, actions[1..]);
    }
  }

  lemma Reachable(cap: int, actions: seq<Action>)
    ensures Inv(Run(Init(cap), actions), cap)
  {
    RunKeepsInv(Init(cap), cap, actions);
  }

  /* ---------- theorems ---------- */

  /** Free permits, direct holders and everyone ever promoted always add up to the capacity. */
  lemma PermitsAreConserved(cap: int, actions: seq<Action>)
    ensures var s := Run(Init(cap), actions);
            s.count + CountWhere(s.tickets, Direct) + |s.promotions| == cap
  {
    Reachable(cap, actions);
  }

  /** Hence no more than the capacity is ever in use at once, and nobody waits while a permit is free. */
  lemma HoldersWithinCapacity(cap: nat, actions: seq<Action>)
    ensures var s := Run(Init(cap), actions);
            CountWhere(s.tickets, Live) <= cap && (s.waiting != [] ==> s.count == 0)
  {
    Reachable(cap, actions);
    CountMonotone(Run(Init(cap), actions).tickets, Live, Charged);
  }

  /** Waiting tickets are promoted in order of arrival, never past one that is still waiting. */
  lemma PromotedInArrivalOrder(cap: int, actions: seq<Action>)
    ensures var s := Run(Init(cap), actions);
            && Ascending(s.promotions) && Ascending(s.waiting)
            && forall p, w :: p in s.promotions && w in s.waiting ==> p < w
  {
    Reachable(cap, actions);
  }

  /** A call of acquire gets a free permit at once, or queues up behind everybody. */
  lemma AcquireEffect(cap: int, actions: seq<Action>)
    ensures var s := Run(Init(cap), actions);
            var r := Step(s, Acquire);
            && r.promotions == s.promotions
            && (s.count > 0 ==>
                  r.count == s.count - 1 && r.tickets == s.tickets + [Holding] && r.waiting == s.waiting == [])
            && (s.count <= 0 ==>
                  r.count == s.count && r.tickets == s.tickets + [Waiting] && r.waiting == s.waiting + [|s.tickets|])
  {
    Reachable(cap, actions);
  }

  /** After its abort a caller neither holds a permit nor waits.  A permit it was given at once goes to the caller
      that has waited longest, or is free again if nobody waits; one it was promoted to is gone; and one that was
      still waiting leaves the others waiting in their order. */
  lemma AbortEffect(cap: int, actions: seq<Action>, t: nat)
    requires t < |Run(Init(cap), actions).tickets|
    ensures var s := Run(Init(cap), actions);
            var r := Step(s, Abort(t));
            && |r.tickets| == |s.tickets| && !Live(r.tickets[t]) && r.tickets[t] != Waiting && t !in r.waiting
            && match s.tickets[t]
               case Holding =>
                 if s.waiting == [] then r == s.(count := s.count + 1, tickets := s.tickets[t := Released])
                 else
                   && s.waiting[0] < |s.tickets|
                   && r == s.(waiting := s.waiting[1..], tickets := s.tickets[t := Released][s.waiting[0] := Promoted],
                              promotions := s.promotions + [s.waiting[0]])
               case Waiting =>
                 && r == s.(tickets := s.tickets[t := Rejected], waiting := r.waiting)
                 && Ascending(r.waiting) && forall w :: w in r.waiting <==> w in s.waiting && w != t
               case Promoted => r == s.(tickets := s.tickets[t := Finished])
               case _ => r == s
  {
    var s := Run(Init(cap), actions);
    Reachable(cap, actions);
    assert s.waiting != [] ==> s.waiting[0] in s.waiting;
    DeleteShape(s.waiting, t);
    hide Run, CountWhere, Delete;
  }

  /** When every caller has aborted, all permits are free again exactly if nobody was ever promoted: the
      permit handed to a waiting caller is never given back. */
  lemma AllReturnedIffNonePromoted(cap: int, actions: seq<Action>)
    requires forall x :: x in Run(Init(cap), actions).tickets ==> !Live(x)
    ensures var s := Run(Init(cap), actions);
            s.count == cap <==> s.promotions == []
  {
    var s := Run(Init(cap), actions);
    Reachable(cap, actions);
    NoneWhere(s.tickets, Direct);
  }

  lemma {:induction false} PromotionsStay(s: State, actions: seq<Action>)
    ensures |Run(s, actions).promotions| >= |s.promotions|
    decreases |actions|
  {
    if actions == [] {
    } else {
      PromotionsStay(Step(s, actions[0]), actions[1..]);
    }
  }

  lemma {:induction false} RunConcat(s: State, a: seq<Action>, b: seq<Action>)
    ensures Run(s, a + b) == Run(Run(s, a), b)
    decreases |a|
  {
    if a == [] {
      assert a + b == b;
    } else {
      assert (a + b)[0] == a[0] && (a + b)[1..] == a[1..] + b;
      RunConcat(Step(s, a[0]), a[1..], b);
    }
  }

  /** How a semaphore of one permit is used up: a second caller waits, and is promoted when the first aborts.
      After both have aborted nobody holds the permit, and nobody ever gets it again. */
  lemma LostPermitExists(later: seq<Action>)
    ensures var s := Run(Init(1), [Acquire, Acquire, Abort(0), Abort(1)]);
            && s.tickets == [Released, Finished]
            && Run(Init(1), [Acquire, Acquire, Abort(0), Abort(1)] + later).count == 0
  {
    var actions := [Acquire, Acquire, Abort(0), Abort(1)];
    var s1 := State(0, [], [Holding], []);
    var s2 := State(0, [1], [Holding, Waiting], []);
    var s3 := State(0, [], [Released, Promoted], [1]);
    var s4 := State(0, [], [Released, Finished], [1]);
    assert Step(Init(1), Acquire) == s1 && Step(s1, Acquire) == s2 && Step(s2, Abort(0)) == s3 && Step(s3, Abort(1)) == s4;
    assert Run(Init(1), actions) == Run(s1, [Acquire, Abort(0), Abort(1)]) == Run(s2, [Abort(0), Abort(1)])
        == Run(s3, [Abort(1)]) == Run(s4, []);
    hide Step, CountWhere;
    RunConcat(Init(1), actions, later);
    PromotionsStay(s4, later);
    PermitsAreConserved(1, actions + later);
    Reachable(1, actions + later);
  }

  lemma {:induction false} NoneWhere(xs: seq<Ticket>, p: Ticket -> bool)
    requires forall x :: x in xs ==> !p(x)
    ensures CountWhere(xs, p) == 0
  {
    if xs == [] {
    } else {
      NoneWhere(xs[1..], p);
    }
  }

  /* ---------- the class ---------- */

  class Semaphor {
    var count: int
    var waiting: seq<nat>
    ghost var tickets: seq<Ticket>
    ghost var promotions: seq<nat>

    ghost function Model(): State
      reads this
    {
      State(count, waiting, tickets, promotions)
    }

    ghost predicate Valid()
      reads this
    {
      QueueInv(waiting, tickets, promotions)
    }

    constructor (cap: int)
      ensures Valid() && Model() == Init(cap)
    {
      count, waiting, tickets, promotions := cap, [], [], [];
    }

    /** `ticket` stands for the caller's promise; true: resolved at once. */
    method Acquire(ticket: nat) returns (granted: bool)
      requires Valid() && ticket == |tickets|
      modifies this
      ensures Valid() && Model() == Step(old(Model()), Action.Acquire)
      ensures granted <==> old(count) > 0
    {
      ghost var x := if count > 0 then Holding else Waiting;
      JoinQueue(Model(), x);
      tickets := tickets + [x];
      if count > 0 {
        count := count - 1;
        return true;
      }
      waiting := waiting + [ticket];
      return false;
    }

    /** The abort listener of a direct holder. */
    method AbortHolder(ghost t: nat)
      requires Valid() && t < |tickets| && tickets[t] == Holding
      modifies this
      ensures Valid() && Model() == Step(old(Model()), Abort(t))
    {
      ReleaseKeepsQueue(Model(), t);
      assert waiting != [] ==> waiting[0] in waiting;
      tickets := tickets[t := Released];
      ReleaseFirstInQueue();
    }

    method ReleaseFirstInQueue()
      requires waiting != [] ==> waiting[0] < |tickets|
      modifies this
      ensures Model() == Release(old(Model()))
    {
      if |waiting| == 0 {
        count := count + 1;
        return;
      }
      tickets := tickets[waiting[0] := Promoted];
      promotions := promotions + [waiting[0]];
      waiting := waiting[1..];
    }

    /** The abort listener of a caller that had to wait: harmless if it has been promoted meanwhile. */
    method AbortWaiter(t: nat)
      requires Valid() && t < |tickets| && (tickets[t] == Waiting || tickets[t] == Promoted)
      modifies this
      ensures Valid() && Model() == Step(old(Model()), Abort(t))
      ensures count == old(count)
    {
      if tickets[t] == Waiting { RejectKeepsQueue(Model(), t); }
      assert t in waiting <==> tickets[t] == Waiting;
      waiting := Delete(waiting, t);
      tickets := tickets[t := if tickets[t] == Waiting then Rejected else Finished];
    }
  }
}
