/** What becomes of the shared watcher's rooms over whole runs: closes that never happen or find no room, rooms
    collected under a subscriber, closed rooms handed out, and shutdowns that return. */
module EventWatcherOutcomes {
  import opened EventWatcherProtocol

  /** After one failed Watch, or one iteration that ended unexpectedly, no Close of the room ever gets past the
      wait group again. */
  lemma FailureBlocksClose(actions: seq<Action>, later: seq<Action>, i: nat)
    requires i < |Run(INIT, actions).shared| && Run(INIT, actions).shared[i].failures > 0
    ensures !Enabled(Run(Run(INIT, actions), later), CloseRoom(i))
  {
    hide Run;
    Reachable(actions);
    RunKeepsInv(Run(INIT, actions), later);
    RunAges(Run(INIT, actions), later);
    assert Balanced(Run(Run(INIT, actions), later).shared[i]);
  }

  /** A Close that gets past the wait group crashes exactly if the room was never started, and then nobody has
      even tried. */
  lemma CloseCrashesIffNeverTried(actions: seq<Action>, i: nat)
    requires Enabled(Run(INIT, actions), CloseRoom(i))
    ensures var s := Run(INIT, actions);
            var x := s.shared[i];
            && (Apply(s, CloseRoom(i)).crashed <==> !x.watching)
            && (!x.watching ==> !x.starting && x.failures == 0 && x.cursors == 0)
            && (x.watching ==>
                  Apply(s, CloseRoom(i)) ==
                    s.(shared := s.shared[i := if x.draining then x.(draining := false, roomClosed := true)
                                               else x.(closers := x.closers - 1, roomClosed := true)]))
  {
    Reachable(actions);
    var s := Run(INIT, actions);
    assert Balanced(s.shared[i]);
    if !s.shared[i].watching { UnwatchedHasNone(s, i); }
  }

  /** The shortest failure. */
  lemma FailedWatchExists(key: Key, later: seq<Action>)
    ensures var t := Run(INIT, [Admit(key), Lookup(0)] + [Begin(0), Watched(0, false)]);
            && |t.shared| == 1 && t.shared[0].failures == 1 && t.rooms == map[key := 0]
            && !Enabled(Run(t, later), CloseRoom(0))
  {
    var trace := [Admit(key), Lookup(0)] + [Begin(0), Watched(0, false)];
    var x := NewShared(key);
    var s1 := INIT.(clients := [Client(key, Admitted)]);
    assert Step(INIT, Admit(key)) == s1;
    var s2 := INIT.(shared := [x], rooms := map[key := 0], clients := [Client(key, Holding(0))]);
    assert Step(s1, Lookup(0)) == s2;
    var s3 := s2.(shared := [x.(starting := true, iterators := 1)], clients := [Client(key, Starting(0))]);
    assert Step(s2, Begin(0)) == s3;
    var s4 := s2.(shared := [x.(iterators := 1, failures := 1)], clients := [Client(key, Gone)]);
    assert Step(s3, Watched(0, false)) == s4;
    hide Step, Run;
    RunConcat(INIT, [Admit(key), Lookup(0)], [Begin(0), Watched(0, false)]);
    TwoSteps(INIT, Admit(key), Lookup(0));
    TwoSteps(s2, Begin(0), Watched(0, false));
    FailureBlocksClose(trace, later, 0);
  }

  /** A room somebody has tried to start. */
  predicate Tried(x: Shared) { x.watching || x.starting || x.failures > 0 }

  predicate TriedAt(s: State, i: nat) { i < |s.shared| && Tried(s.shared[i]) }

  lemma StepKeepsTried(s: State, i: nat, a: Action)
    requires TriedAt(s, i)
    ensures TriedAt(Step(s, a), i)
  {
  }

  lemma {:induction false} RunKeepsTried(s: State, i: nat, later: seq<Action>)
    requires TriedAt(s, i)
    ensures TriedAt(Run(s, later), i)
    decreases |later|
  {
    hide Step, TriedAt;
    if later == [] {
    } else {
      StepKeepsTried(s, i, later[0]);
      RunKeepsTried(Step(s, later[0]), i, later[1..]);
    }
  }

  /** A Close of the room gets past the wait group, and meets a nil room. */
  predicate ClosesNil(s: State, i: nat) { Enabled(s, CloseRoom(i)) && Step(s, CloseRoom(i)).crashed }

  /** A goroutine about to close a room can still get past the wait group exactly if the room has not failed,
      and can still crash exactly if nobody has tried to start the room. */
  lemma CloseOutcomesIff(actions: seq<Action>, i: nat)
    requires var s := Run(INIT, actions); !s.crashed && i < |s.shared| && Closing(s.shared[i])
    ensures var s := Run(INIT, actions);
            && ((exists later :: Enabled(Run(s, later), CloseRoom(i))) <==> s.shared[i].failures == 0)
            && ((exists later :: ClosesNil(Run(s, later), i)) <==> !Tried(s.shared[i]))
  {
    var s := Run(INIT, actions);
    Reachable(actions);
    RunKeepsStarts(INIT, actions);
    assert Balanced(s.shared[i]);
    hide Run, Inv, StartsHaveClients;
    if s.shared[i].failures == 0 {
      CloseGetsPast(s, i);
    } else {
      forall later ensures !Enabled(Run(s, later), CloseRoom(i)) { FailureBlocksClose(actions, later, i); }
    }
    RunNothing(s);
    if !Tried(s.shared[i]) {
      assert ClosesNil(Run(s, []), i);
    } else {
      forall later ensures !ClosesNil(Run(s, later), i) {
        RunKeepsTried(s, i, later);
        RunKeepsInv(s, later);
        TriedDoesNotCrash(Run(s, later), i);
      }
    }
  }

  lemma TriedDoesNotCrash(s: State, i: nat)
    requires Inv(s) && TriedAt(s, i)
    ensures !ClosesNil(s, i)
  {
    assert Balanced(s.shared[i]);
  }

  /** The start and the iteration in progress end as they should. */
  lemma CloseGetsPast(s: State, i: nat)
    requires Inv(s) && StartsHaveClients(s) && !s.crashed
    requires i < |s.shared| && Closing(s.shared[i]) && s.shared[i].failures == 0
    ensures exists later :: Enabled(Run(s, later), CloseRoom(i))
  {
    assert Balanced(s.shared[i]);
    if s.shared[i].starting {
      var c :| At(s, c, Starting(i));
      StartSucceeds(s, c, i);
      var t := Step(s, Watched(c, true));
      hide Run, Step, Enabled, Inv;
      IterationFinishes(t, i);
      RunCons(s, Watched(c, true), [IterationEnds(i, true)]);
      assert Enabled(Run(s, [Watched(c, true)] + [IterationEnds(i, true)]), CloseRoom(i));
    } else if s.shared[i].iterating {
      IterationFinishes(s, i);
    } else {
      RunNothing(s);
      assert Enabled(Run(s, []), CloseRoom(i));
    }
  }

  lemma IterationFinishes(s: State, i: nat)
    requires !s.crashed && i < |s.shared| && Closing(s.shared[i]) && s.shared[i].iterating && s.shared[i].iterators == 1
    ensures Enabled(Run(s, [IterationEnds(i, true)]), CloseRoom(i))
  {
    assert Enabled(Step(s, IterationEnds(i, true)), CloseRoom(i));
    OneStep(s, IterationEnds(i, true));
  }

  lemma StartSucceeds(s: State, c: nat, i: nat)
    requires !s.crashed && i < |s.shared| && Closing(s.shared[i]) && s.shared[i].iterators == 1 && At(s, c, Starting(i))
    ensures var t := Step(s, Watched(c, true));
            && !t.crashed && |t.shared| == |s.shared| && Closing(t.shared[i])
            && t.shared[i].iterating && t.shared[i].iterators == 1
  {
  }

  /* ---------- collecting ---------- */

  /** Some client has a cursor on the room. */
  ghost predicate InUse(s: State, i: nat) { exists c :: At(s, c, Subscribed(i)) }

  lemma UsedIffSubscribed(s: State, i: nat)
    requires Inv(s) && i < |s.shared|
    ensures s.shared[i].cursors > 0 <==> InUse(s, i)
    ensures s.shared[i].cursors >= 0 && (InUse(s, i) ==> s.shared[i].watching)
  {
    NoSubscribers(s.clients, i);
    if Subscribers(s.clients, i) > 0 {
      var c :| 0 <= c < |s.clients| && On(s.clients[c], i);
      assert At(s, c, Subscribed(i));
    }
    if InUse(s, i) {
      var c: nat :| At(s, c, Subscribed(i));
      assert On(s.clients[c], i) && ClientInv(s.shared, s.clients[c]);
    }
  }

  /** From every reachable state before the shutdown, a collection makes candidates of exactly the registered rooms
      no client has a cursor on, and changes nothing else. */
  lemma CollectSparesUsed(actions: seq<Action>)
    requires Enabled(Run(INIT, actions), Collect)
    ensures var s := Run(INIT, actions);
            var t := Apply(s, Collect);
            && !s.shuttingDown && t == s.(candidates := t.candidates)
            && forall i :: i in t.candidates <==> i < |s.shared| && i in s.rooms.Values && !InUse(s, i)
  {
    var s := Run(INIT, actions);
    Reachable(actions);
    hide Run;
    forall i: nat | i < |s.shared| ensures Unused(s.shared[i]) <==> !InUse(s, i) { UsedIffSubscribed(s, i); }
    CollectPicks(s);
  }

  lemma CollectPicks(s: State)
    requires Inv(s) && Enabled(s, Collect)
    ensures var t := Apply(s, Collect);
            && t == s.(candidates := t.candidates)
            && forall i :: i in t.candidates <==> i < |s.shared| && i in s.rooms.Values && Unused(s.shared[i])
  {
    hide Unused, ClientsInv, Counted, Balanced, InUse;
    var t := Apply(s, Collect);
    forall i: nat ensures i in t.candidates <==> i < |s.shared| && i in s.rooms.Values && Unused(s.shared[i]) {
      if i < |s.shared| && i in s.rooms.Values && Unused(s.shared[i]) {
        var k :| k in s.rooms && s.rooms[k] == i;
        assert s.rooms[k] in t.candidates;
      }
    }
  }

  /** From every reachable state, a candidate that a client has a cursor on by now is only crossed off; any other
      gets one closing goroutine, and the id it has by now leaves the registry. */
  lemma SweepSparesUsed(actions: seq<Action>, i: nat)
    requires Enabled(Run(INIT, actions), SweepOne(i))
    ensures var s := Run(INIT, actions);
            var t := Apply(s, SweepOne(i));
            var x := s.shared[i];
            && t == s.(candidates := s.candidates - {i}, shared := t.shared, rooms := t.rooms)
            && t.shared == (if InUse(s, i) then s.shared else s.shared[i := x.(closers := x.closers + 1)])
            && t.rooms == (if InUse(s, i) then s.rooms else s.rooms - {if x.watching then x.key else NIL})
  {
    Reachable(actions);
    UsedIffSubscribed(Run(INIT, actions), i);
    hide Run, Inv, InUse;
  }

  /** Until the shutdown, what the collector has picked is registered. */
  ghost predicate CandidatesRegistered(s: State) {
    !s.shuttingDown ==> forall i :: i in s.candidates ==>
      i < |s.shared| && s.shared[i].key in s.rooms && s.rooms[s.shared[i].key] == i
  }

  /** Nobody watches the room with the nil id. */
  predicate NoNilKey(actions: seq<Action>) { Admit(NIL) !in actions }

  ghost predicate Keyed(s: State) {
    (forall c :: 0 <= c < |s.clients| ==> s.clients[c].key != NIL) && NIL !in s.rooms
  }

  lemma StepKeepsCandidates(s: State, a: Action)
    requires Inv(s) && CandidatesRegistered(s) && Keyed(s) && a != Admit(NIL)
    ensures CandidatesRegistered(Step(s, a)) && Keyed(Step(s, a))
  {
    hide Inv, CandidatesRegistered, Keyed, Apply;
    if Enabled(s, a) {
      if OfClient(a) || a.Admit? { ClientsKeepCandidates(s, a); } else { RoomsKeepCandidates(s, a); }
    }
  }

  lemma ClientsKeepCandidates(s: State, a: Action)
    requires Inv(s) && CandidatesRegistered(s) && Keyed(s) && a != Admit(NIL) && Enabled(s, a) && (OfClient(a) || a.Admit?)
    ensures CandidatesRegistered(Apply(s, a)) && Keyed(Apply(s, a))
  {
    hide Inv;
  }

  lemma RoomsKeepCandidates(s: State, a: Action)
    requires Inv(s) && CandidatesRegistered(s) && Keyed(s) && Enabled(s, a) && !OfClient(a) && !a.Admit?
    ensures CandidatesRegistered(Apply(s, a)) && Keyed(Apply(s, a))
  {
    hide Counted, ClientsInv, Balanced, Subscribers;
  }

  lemma {:induction false} RunKeepsCandidates(s: State, actions: seq<Action>)
    requires Inv(s) && CandidatesRegistered(s) && Keyed(s) && NoNilKey(actions)
    ensures CandidatesRegistered(Run(s, actions)) && Keyed(Run(s, actions))
    decreases |actions|
  {
    hide Step, Inv, CandidatesRegistered, Keyed;
    if actions == [] {
    } else {
      StepKeepsCandidates(s, actions[0]);
      RunKeepsInv(s, [actions[0]]);
      RunCons(s, actions[0], []);
      assert [actions[0]] + [] == [actions[0]];
      RunKeepsCandidates(Step(s, actions[0]), actions[1..]);
    }
  }

  ghost predicate Attached(s: State, i: nat) {
    exists c :: 0 <= c < |s.clients| && s.clients[c].phase in {Holding(i), Starting(i), Ready(i), Subscribed(i)}
  }

  ghost predicate Abandoned(s: State, i: nat) {
    i < |s.shared| && i !in s.rooms.Values && !Attached(s, i) && s.shared[i].cursors == 0
  }

  lemma StepKeepsAbandoned(s: State, i: nat, a: Action)
    requires Abandoned(s, i) && Inv(s)
    ensures Abandoned(Step(s, a), i)
  {
    hide *;
    assert Step(s, a) == if Enabled(s, a) then Apply(s, a) else s by { StepIs(s, a); }
    if Enabled(s, a) {
      if OfClient(a) || a.Admit? { ClientsLeaveAbandoned(s, i, a); } else { RoomsLeaveAbandoned(s, i, a); }
    }
  }

  lemma StepIs(s: State, a: Action)
    ensures Step(s, a) == if Enabled(s, a) then Apply(s, a) else s
  {
  }

  lemma RoomsLeaveAbandoned(s: State, i: nat, a: Action)
    requires Abandoned(s, i) && Inv(s) && Enabled(s, a) && !OfClient(a) && !a.Admit?
    ensures Abandoned(Apply(s, a), i)
  {
    hide Inv, Apply;
    RoomStepShape(s, a);
    var t := Apply(s, a);
    forall k | k in t.rooms ensures t.rooms[k] != i {
      assert s.rooms[k] in s.rooms.Values;
    }
  }

  lemma ClientsLeaveAbandoned(s: State, i: nat, a: Action)
    requires Abandoned(s, i) && Enabled(s, a) && (OfClient(a) || a.Admit?)
    ensures Abandoned(Apply(s, a), i)
  {
    var t := Apply(s, a);
    forall c | 0 <= c < |t.clients| ensures t.clients[c].phase !in {Holding(i), Starting(i), Ready(i), Subscribed(i)} {
      assert c < |s.clients| ==> s.clients[c].phase !in {Holding(i), Starting(i), Ready(i), Subscribed(i)};
      assert a.Lookup? && s.clients[a.c].key in s.rooms ==> s.rooms[s.clients[a.c].key] in s.rooms.Values;
    }
    forall k | k in t.rooms ensures t.rooms[k] != i {
      assert k in s.rooms ==> s.rooms[k] in s.rooms.Values;
    }
  }

  lemma {:induction false} AbandonedStaysUnused(s: State, i: nat, later: seq<Action>)
    requires Abandoned(s, i) && Inv(s)
    ensures Abandoned(Run(s, later), i)
    decreases |later|
  {
    hide Step, Inv, Abandoned;
    if later == [] {
    } else {
      StepKeepsAbandoned(s, i, later[0]);
      RunKeepsInv(s, [later[0]]);
      RunCons(s, later[0], []);
      assert [later[0]] + [] == [later[0]];
      AbandonedStaysUnused(Step(s, later[0]), i, later[1..]);
    }
  }

  /** A client that has looked the room up and is about to open a cursor on it. */
  ghost predicate Waiting(s: State, i: nat) {
    exists c :: 0 <= c < |s.clients| && s.clients[c].phase in {Holding(i), Ready(i)}
  }

  ghost predicate UsedAt(s: State, i: nat) { i < |s.shared| && s.shared[i].cursors > 0 }

  /** The collector unregisters and closes an unused room, and it may come to be used all the same: exactly if
      some client is between looking it up and opening its cursor.  Before a shutdown the room was registered. */
  lemma CollectedUnderSubscriberIff(actions: seq<Action>, i: nat)
    requires Enabled(Run(INIT, actions), SweepOne(i))
    requires var x := Run(INIT, actions).shared[i]; x.watching && x.cursors == 0
    ensures var s := Run(INIT, actions);
            var t := Apply(s, SweepOne(i));
            && (NoNilKey(actions) && !s.shuttingDown ==> s.shared[i].key in s.rooms && s.rooms[s.shared[i].key] == i)
            && t.rooms == s.rooms - {s.shared[i].key} && i !in t.rooms.Values
            && t.shared[i] == s.shared[i].(closers := s.shared[i].closers + 1)
            && ((exists later :: UsedAt(Run(t, later), i)) <==> Waiting(s, i))
  {
    var s := Run(INIT, actions);
    Reachable(actions);
    if NoNilKey(actions) { RunKeepsCandidates(INIT, actions); }
    hide Run;
    SweptIsUnregistered(s, i);
    var t := Apply(s, SweepOne(i));
    if Waiting(s, i) {
      WaitingSubscribes(t, i);
    } else {
      NobodyAttached(s, i);
      forall later ensures !UsedAt(Run(t, later), i) {
        AbandonedStaysUnused(t, i, later);
      }
    }
  }

  lemma SweptIsUnregistered(s: State, i: nat)
    requires Inv(s) && Enabled(s, SweepOne(i))
    requires s.shared[i].watching && s.shared[i].cursors == 0
    ensures var t := Apply(s, SweepOne(i));
            && Inv(t) && t.clients == s.clients
            && t.rooms == s.rooms - {s.shared[i].key} && i !in t.rooms.Values && !t.crashed
            && t.shared == s.shared[i := s.shared[i].(closers := s.shared[i].closers + 1)]
  {
    StepKeepsInv(s, SweepOne(i));
    hide ClientsInv, Counted, Balanced;
  }

  lemma NobodyAttached(s: State, i: nat)
    requires Inv(s) && i < |s.shared| && s.shared[i].watching && s.shared[i].cursors == 0 && !Waiting(s, i)
    ensures !Attached(s, i)
  {
    NoSubscribers(s.clients, i);
    assert Balanced(s.shared[i]);
    forall c | 0 <= c < |s.clients| ensures s.clients[c].phase !in {Holding(i), Starting(i), Ready(i), Subscribed(i)} {
      assert ClientInv(s.shared, s.clients[c]);
    }
  }

  lemma WaitingSubscribes(s: State, i: nat)
    requires Waiting(s, i) && i < |s.shared| && s.shared[i].watching && !s.shared[i].starting && !s.crashed
    requires s.shared[i].cursors == 0
    ensures exists later :: UsedAt(Run(s, later), i)
  {
    var c :| 0 <= c < |s.clients| && s.clients[c].phase in {Holding(i), Ready(i)};
    var t := SetPhase(s, c, Ready(i));
    assert UsedAt(Step(t, Subscribe(c)), i);
    RunCons(t, Subscribe(c), []);
    assert [Subscribe(c)] + [] == [Subscribe(c)];
    if s.clients[c].phase == Holding(i) {
      assert Step(s, Begin(c)) == t;
      RunCons(s, Begin(c), [Subscribe(c)]);
      assert UsedAt(Run(s, [Begin(c)] + [Subscribe(c)]), i);
    } else {
      assert t.clients == s.clients && t == s;
      assert UsedAt(Run(s, [Subscribe(c)]), i);
    }
  }

  predicate At(s: State, c: nat, p: Phase) { c < |s.clients| && s.clients[c].phase == p }

  /** A started room stays registered when its iteration ends, and is not started again: whoever asks for its key
      is given a cursor on it, and on a closed room exactly if the iteration has ended. */
  lemma WatchReturnsClosedRoom(actions: seq<Action>, c: nat)
    requires var s := Run(INIT, actions);
             && Enabled(s, Lookup(c)) && s.clients[c].key in s.rooms
             && var i := s.rooms[s.clients[c].key]; i < |s.shared| && s.shared[i].watching
    ensures var s := Run(INIT, actions);
            var i := s.rooms[s.clients[c].key];
            var t := Run(s, [Lookup(c), Begin(c), Subscribe(c)]);
            && At(t, c, Subscribed(i)) && i < |t.shared|
            && (t.shared[i].roomClosed <==> !s.shared[i].iterating)
  {
    var s := Run(INIT, actions);
    Reachable(actions);
    var i := s.rooms[s.clients[c].key];
    assert Balanced(s.shared[i]);
    hide Inv;
    ThreeSteps(s, Lookup(c), Begin(c), Subscribe(c));
    var s1 := Step(s, Lookup(c));
    assert s1 == SetPhase(s, c, Holding(i));
    var s2 := Step(s1, Begin(c));
    assert At(s2, c, Ready(i)) && s2.shared == s.shared;
    var t := Step(s2, Subscribe(c));
    assert At(t, c, Subscribed(i)) && t.shared[i].roomClosed == s.shared[i].roomClosed;
  }

  lemma ThreeSteps(s: State, a: Action, b: Action, c: Action)
    ensures Run(s, [a, b, c]) == Step(Step(Step(s, a), b), c)
  {
    hide Step;
    RunCons(s, a, [b, c]);
    RunCons(Step(s, a), b, [c]);
    RunCons(Step(Step(s, a), b), c, []);
    assert [a] + [b, c] == [a, b, c] && [b] + [c] == [b, c] && [c] + [] == [c];
  }

  /** A cursor is opened on the client's room, and counted until it is closed; then the client is done. */
  lemma SubscriptionEffect(actions: seq<Action>, a: Action)
    requires Enabled(Run(INIT, actions), a) && (a.Subscribe? || a.Unsubscribe?)
    ensures var s := Run(INIT, actions);
            var t := Apply(s, a);
            var i := s.clients[a.c].phase.i;
            && i < |s.shared|
            && t.clients == s.clients[a.c := s.clients[a.c].(phase := if a.Subscribe? then Subscribed(i) else Gone)]
            && t.shared == s.shared[i := s.shared[i].(cursors := s.shared[i].cursors + (if a.Subscribe? then 1 else -1))]
            && t == s.(clients := t.clients, shared := t.shared)
  {
  }

  /* ---------- shutting down ---------- */

  /** The shutdown hands every registered room to one closing goroutine, empties the registry, and keeps the
      watcher's mutex. */
  lemma ShutdownHandsOver(s: State)
    requires Enabled(s, Shutdown)
    ensures var t := Apply(s, Shutdown);
            && t == s.(shuttingDown := true, lock := Draining, rooms := map[], shared := t.shared)
            && |t.shared| == |s.shared|
            && forall i: nat :: i < |s.shared| ==>
                 t.shared[i] == s.shared[i].(draining := s.shared[i].draining || i in s.rooms.Values)
  {
  }

  /** And from then on nobody is admitted. */
  lemma {:induction false} ShutdownAdmitsNobody(s: State, later: seq<Action>)
    requires s.shuttingDown
    ensures Run(s, later).shuttingDown && |Run(s, later).clients| == |s.clients|
    decreases |later|
  {
    hide Step;
    if later == [] {
    } else {
      StepAdmitsNobody(s, later[0]);
      ShutdownAdmitsNobody(Step(s, later[0]), later[1..]);
    }
  }

  lemma StepAdmitsNobody(s: State, a: Action)
    requires s.shuttingDown
    ensures Step(s, a).shuttingDown && |Step(s, a).clients| == |s.clients|
  {
  }

  ghost predicate Blocked(s: State, i: nat) {
    s.lock == Draining && i < |s.shared| && s.shared[i].draining && s.shared[i].failures > 0
  }

  lemma StepKeepsBlocked(s: State, i: nat, a: Action)
    requires Inv(s) && Blocked(s, i)
    ensures Blocked(Step(s, a), i)
  {
    assert Balanced(s.shared[i]);
    hide ClientsInv, Counted, Subscribers, Registered;
  }

  lemma {:induction false} BlockedForEver(s: State, i: nat, later: seq<Action>)
    requires Inv(s) && Blocked(s, i)
    ensures Run(s, later).lock == Draining
    decreases |later|
  {
    hide Step, Inv;
    if later == [] {
    } else {
      StepKeepsBlocked(s, i, later[0]);
      RunKeepsInv(s, [later[0]]);
      RunCons(s, later[0], []);
      assert [later[0]] + [] == [later[0]];
      BlockedForEver(Step(s, later[0]), i, later[1..]);
    }
  }

  /** The shutdown is under way, and every room it waits for has been started and has not failed. */
  ghost predicate CanDrain(s: State) {
    && Inv(s) && s.lock == Draining && !s.crashed
    && forall i :: 0 <= i < |s.shared| && s.shared[i].draining ==> s.shared[i].watching && s.shared[i].failures == 0
  }

  function DrainRoom(i: nat): seq<Action> { [IterationEnds(i, true), CloseRoom(i)] }

  /** Lets the iterators of the first n rooms end where the shutdown waits for them, and the closes pass. */
  function DrainAll(shared: seq<Shared>, n: nat): seq<Action>
    requires n <= |shared|
  {
    if n == 0 then []
    else DrainAll(shared, n - 1) + (if shared[n - 1].draining then DrainRoom(n - 1) else [])
  }

  lemma DrainStep(s: State, i: nat, a: Action)
    requires CanDrain(s) && i < |s.shared| && (a == IterationEnds(i, true) || (a == CloseRoom(i) && s.shared[i].draining))
    ensures var t := Step(s, a);
            && CanDrain(t) && |t.shared| == |s.shared|
            && (forall j :: 0 <= j < |s.shared| && j != i ==> t.shared[j] == s.shared[j])
            && (a.IterationEnds? ==> t.shared[i].draining == s.shared[i].draining && !t.shared[i].iterating)
            && (a.CloseRoom? ==> (s.shared[i].iterators == 0 ==> !t.shared[i].draining))
  {
    if Enabled(s, a) { StepKeepsInv(s, a); }
    hide Inv;
  }

  lemma RoomDrains(s: State, i: nat)
    requires CanDrain(s) && i < |s.shared| && s.shared[i].draining
    ensures var t := Run(s, DrainRoom(i));
            && CanDrain(t) && |t.shared| == |s.shared| && !t.shared[i].draining
            && (forall j :: 0 <= j < |s.shared| && j != i ==> t.shared[j] == s.shared[j])
  {
    hide Step, CanDrain;
    var s1 := Step(s, IterationEnds(i, true));
    DrainStep(s, i, IterationEnds(i, true));
    DrainStep(s1, i, CloseRoom(i));
    IdleIterators(s1, i);
    RunCons(s, IterationEnds(i, true), [CloseRoom(i)]);
    RunCons(s1, CloseRoom(i), []);
    assert [CloseRoom(i)] + [] == [CloseRoom(i)];
    assert [IterationEnds(i, true)] + [CloseRoom(i)] == DrainRoom(i);
  }

  lemma IdleIterators(s: State, i: nat)
    requires CanDrain(s) && i < |s.shared| && s.shared[i].draining && !s.shared[i].iterating
    ensures s.shared[i].iterators == 0
  {
  }

  lemma RunNothing(s: State)
    ensures Run(s, []) == s
  {
  }

  lemma {:induction false} RoomsDrain(s: State, n: nat)
    requires CanDrain(s) && n <= |s.shared|
    ensures var t := Run(s, DrainAll(s.shared, n));
            && CanDrain(t) && |t.shared| == |s.shared|
            && (forall i :: 0 <= i < n ==> !t.shared[i].draining)
            && (forall i :: n <= i < |s.shared| ==> t.shared[i] == s.shared[i])
  {
    hide Step, Run, CanDrain, DrainRoom;
    RunNothing(s);
    if n == 0 {
    } else {
      RoomsDrain(s, n - 1);
      var t := Run(s, DrainAll(s.shared, n - 1));
      RunConcat(s, DrainAll(s.shared, n - 1), if s.shared[n - 1].draining then DrainRoom(n - 1) else []);
      if s.shared[n - 1].draining { RoomDrains(t, n - 1); } else { RunNothing(t); }
    }
  }

  /** Somebody who has looked the room up has still to ask whether it is started, or is starting it. */
  ghost predicate Startable(s: State, i: nat) {
    exists c :: At(s, c, Holding(i)) || At(s, c, Starting(i))
  }

  /** A start in progress has its client. */
  ghost predicate StartsHaveClients(s: State) {
    forall i :: 0 <= i < |s.shared| && s.shared[i].starting ==> exists c :: At(s, c, Starting(i))
  }

  lemma ClientStepKeepsStarts(s: State, a: Action)
    requires StartsHaveClients(s) && Enabled(s, a) && OfClient(a)
    ensures StartsHaveClients(Apply(s, a))
  {
    var t := Apply(s, a);
    forall i | 0 <= i < |t.shared| && t.shared[i].starting ensures exists c :: At(t, c, Starting(i)) {
      if a.Begin? && At(t, a.c, Starting(i)) {
      } else {
        var c :| At(s, c, Starting(i));
        assert At(t, c, Starting(i));
      }
    }
  }

  lemma StepKeepsStarts(s: State, a: Action)
    requires Inv(s) && StartsHaveClients(s) && Enabled(s, a)
    ensures StartsHaveClients(Apply(s, a))
  {
    hide Inv, Apply, StartsHaveClients;
    if OfClient(a) {
      ClientStepKeepsStarts(s, a);
    } else {
      var t := Apply(s, a);
      assert |t.shared| == |s.shared| && s.clients <= t.clients
             && forall i :: 0 <= i < |s.shared| ==> t.shared[i].starting == s.shared[i].starting by {
        if a.Admit? { AdmitShape(s, a.key); } else { RoomStepShape(s, a); }
      }
      ClientsStay(s, t);
    }
  }

  lemma AdmitShape(s: State, key: Key)
    requires Enabled(s, Admit(key))
    ensures Apply(s, Admit(key)) == s.(clients := s.clients + [Client(key, Admitted)])
  {
  }

  lemma ClientsStay(s: State, t: State)
    requires StartsHaveClients(s) && |t.shared| == |s.shared|
    requires s.clients <= t.clients
    requires forall i :: 0 <= i < |s.shared| ==> t.shared[i].starting == s.shared[i].starting
    ensures StartsHaveClients(t)
  {
    forall i | 0 <= i < |t.shared| && t.shared[i].starting ensures exists c :: At(t, c, Starting(i)) {
      var c :| At(s, c, Starting(i));
      assert At(t, c, Starting(i));
    }
  }

  lemma {:induction false} RunKeepsStarts(s: State, actions: seq<Action>)
    requires Inv(s) && StartsHaveClients(s)
    ensures StartsHaveClients(Run(s, actions))
    decreases |actions|
  {
    hide Inv, StartsHaveClients, Apply, Enabled;
    if actions == [] {
    } else {
      if Enabled(s, actions[0]) { StepKeepsInv(s, actions[0]); StepKeepsStarts(s, actions[0]); }
      RunKeepsStarts(Step(s, actions[0]), actions[1..]);
    }
  }

  /** No room the shutdown waits for has failed, and each is started or can be. */
  ghost predicate CanStart(s: State) {
    && Inv(s) && StartsHaveClients(s) && s.lock == Draining && !s.crashed
    && forall i :: 0 <= i < |s.shared| && s.shared[i].draining ==>
         s.shared[i].failures == 0 && (s.shared[i].watching || Startable(s, i))
  }

  /** The first n rooms the shutdown waits for are started. */
  ghost predicate StartedUpTo(s: State, t: State, n: nat) {
    && CanStart(t) && |t.shared| == |s.shared|
    && forall i :: 0 <= i < n && i < |t.shared| && t.shared[i].draining ==> t.shared[i].watching
  }

  /** A client of a room that has not been started takes its next step, and Watch succeeds. */
  lemma StarterMoves(s: State, c: nat, a: Action, n: nat)
    requires StartedUpTo(s, s, n) && (a == Begin(c) || a == Watched(c, true)) && Enabled(s, a)
    requires !s.shared[s.clients[c].phase.i].watching
    ensures var i := s.clients[c].phase.i;
            var t := Step(s, a);
            && StartedUpTo(s, t, n) && c < |t.clients|
            && (if a.Begin? then At(t, c, Starting(i)) && Enabled(t, Watched(c, true)) && !t.shared[i].watching
                else t.shared[i].watching)
  {
    var i := s.clients[c].phase.i;
    var t := Step(s, a);
    StepKeepsInv(s, a);
    StepKeepsStarts(s, a);
    hide Inv, StartsHaveClients;
    if a.Begin? { assert At(t, c, Starting(i)); }
    forall j | 0 <= j < |t.shared| && t.shared[j].draining && j != i && !t.shared[j].watching ensures Startable(t, j) {
      var d :| At(s, d, Holding(j)) || At(s, d, Starting(j));
      assert At(t, d, Holding(j)) || At(t, d, Starting(j));
    }
  }

  lemma RoomStarts(s: State, n: nat)
    requires StartedUpTo(s, s, n) && n < |s.shared|
    ensures exists later :: StartedUpTo(s, Run(s, later), n + 1)
  {
    if !s.shared[n].draining || s.shared[n].watching {
      RunNothing(s);
      assert StartedUpTo(s, Run(s, []), n + 1);
    } else if s.shared[n].starting {
      var c :| At(s, c, Starting(n));
      StartEnds(s, c, n);
      OneStep(s, Watched(c, true));
      assert StartedUpTo(s, Run(s, [Watched(c, true)]), n + 1);
    } else {
      NotStarting(s, n);
      var c :| At(s, c, Holding(n));
      HolderStarts(s, c, n);
      assert StartedUpTo(s, Run(s, [Begin(c), Watched(c, true)]), n + 1);
    }
  }

  lemma StartEnds(s: State, c: nat, n: nat)
    requires StartedUpTo(s, s, n) && n < |s.shared| && At(s, c, Starting(n)) && !s.shared[n].watching
    ensures StartedUpTo(s, Step(s, Watched(c, true)), n + 1)
  {
    StarterMoves(s, c, Watched(c, true), n);
    hide Step, CanStart;
  }

  lemma HolderStarts(s: State, c: nat, n: nat)
    requires StartedUpTo(s, s, n) && n < |s.shared| && At(s, c, Holding(n)) && !s.shared[n].watching && !s.shared[n].starting
    ensures StartedUpTo(s, Run(s, [Begin(c), Watched(c, true)]), n + 1)
  {
    assert Enabled(s, Begin(c));
    hide Enabled, Step, Run, CanStart;
    var t := Step(s, Begin(c));
    StarterMoves(s, c, Begin(c), n);
    StartEnds(t, c, n);
    TwoSteps(s, Begin(c), Watched(c, true));
  }

  lemma NotStarting(s: State, i: nat)
    requires Inv(s) && i < |s.shared| && !s.shared[i].starting
    ensures forall c :: !At(s, c, Starting(i))
  {
    forall c: nat | c < |s.clients| ensures !At(s, c, Starting(i)) { assert ClientInv(s.shared, s.clients[c]); }
  }

  lemma OneStep(s: State, a: Action)
    ensures Run(s, [a]) == Step(s, a)
  {
    RunCons(s, a, []);
    assert [a] + [] == [a];
  }

  lemma TwoSteps(s: State, a: Action, b: Action)
    ensures Run(s, [a, b]) == Step(Step(s, a), b)
  {
    hide Step;
    RunCons(s, a, [b]);
    OneStep(Step(s, a), b);
    assert [a] + [b] == [a, b];
  }

  lemma {:induction false} RoomsStart(s: State, n: nat)
    requires CanStart(s) && n <= |s.shared|
    ensures exists later :: StartedUpTo(s, Run(s, later), n)
  {
    hide Step, Run, CanStart;
    if n == 0 {
      RunNothing(s);
      assert StartedUpTo(s, Run(s, []), 0);
    } else {
      RoomsStart(s, n - 1);
      var first :| StartedUpTo(s, Run(s, first), n - 1);
      var t := Run(s, first);
      RoomStarts(t, n - 1);
      var second :| StartedUpTo(t, Run(t, second), n);
      RunConcat(s, first, second);
      assert StartedUpTo(s, Run(s, first + second), n);
    }
  }

  /** A room the shutdown waits for, whose Close will meet a nil room, or never pass. */
  ghost predicate Forsaken(s: State, i: nat) {
    && s.lock == Draining
    && (s.crashed || (i < |s.shared| && s.shared[i].draining && !s.shared[i].watching && !Startable(s, i)))
  }

  lemma StepKeepsForsaken(s: State, i: nat, a: Action)
    requires Forsaken(s, i)
    ensures Forsaken(Step(s, a), i)
  {
    if Enabled(s, a) {
      var t := Apply(s, a);
      if !t.crashed {
        assert OfClient(a) ==> !At(s, a.c, Holding(i)) && !At(s, a.c, Starting(i));
        forall c: nat ensures !At(t, c, Holding(i)) && !At(t, c, Starting(i)) {
          assert !At(s, c, Holding(i)) && !At(s, c, Starting(i));
        }
      }
    }
  }

  lemma {:induction false} ForsakenForEver(s: State, i: nat, later: seq<Action>)
    requires Forsaken(s, i)
    ensures Run(s, later).lock == Draining
    decreases |later|
  {
    if later == [] {
    } else {
      StepKeepsForsaken(s, i, later[0]);
      ForsakenForEver(Step(s, later[0]), i, later[1..]);
    }
  }

  /** A shutdown under way can return exactly if none of the rooms it waits for has failed, and each has been
      started or has a client that may still start it; otherwise the watcher's mutex is held for ever. */
  lemma ShutdownReturnsIff(actions: seq<Action>)
    requires Run(INIT, actions).lock == Draining && !Run(INIT, actions).crashed
    ensures var s := Run(INIT, actions);
            (exists later :: Run(s, later).lock == Free) <==>
              forall i :: 0 <= i < |s.shared| && s.shared[i].draining ==>
                s.shared[i].failures == 0 && (s.shared[i].watching || Startable(s, i))
  {
    var s := Run(INIT, actions);
    Reachable(actions);
    RunKeepsStarts(INIT, actions);
    hide Run, Step, Inv, StartsHaveClients;
    if forall i :: 0 <= i < |s.shared| && s.shared[i].draining ==>
         s.shared[i].failures == 0 && (s.shared[i].watching || Startable(s, i)) {
      RoomsStart(s, |s.shared|);
      var first :| StartedUpTo(s, Run(s, first), |s.shared|);
      DrainedReturns(Run(s, first));
      var second :| Run(Run(s, first), second).lock == Free;
      RunConcat(s, first, second);
      assert Run(s, first + second).lock == Free;
    } else {
      var i :| 0 <= i < |s.shared| && s.shared[i].draining
               && (s.shared[i].failures != 0 || (!s.shared[i].watching && !Startable(s, i)));
      forall later ensures Run(s, later).lock == Draining {
        if s.shared[i].failures != 0 { BlockedForEver(s, i, later); } else { ForsakenForEver(s, i, later); }
      }
    }
  }

  lemma DrainedReturns(s: State)
    requires CanDrain(s)
    ensures exists later :: Run(s, later).lock == Free
  {
    var all := DrainAll(s.shared, |s.shared|);
    RoomsDrain(s, |s.shared|);
    var t := Run(s, all);
    RunConcat(s, all, [ShutdownReturns]);
    RunCons(t, ShutdownReturns, []);
    assert [ShutdownReturns] + [] == [ShutdownReturns];
    assert Run(s, all + [ShutdownReturns]).lock == Free;
  }

  /* ---------- a room nobody has started yet ---------- */

  /** Such a room counts as unused and has no id yet: sweeping it leaves it registered, and its Close finds a
      nil room.  This is how: the collection falls between the lookup and the start. */
  lemma UnstartedRoomCrashes(key: Key)
    requires key != NIL
    ensures var t := Run(INIT, [Admit(key), Lookup(0), Collect] + [BeginSweep, SweepOne(0), CloseRoom(0)]);
            t.crashed && key in t.rooms
  {
    hide Step, Run;
    LookedUpAndPicked(key);
    ThreeSteps(INIT, Admit(key), Lookup(0), Collect);
    RunConcat(INIT, [Admit(key), Lookup(0), Collect], [BeginSweep, SweepOne(0), CloseRoom(0)]);
    SweptUnstarted(Picked(key), key);
  }

  function Picked(key: Key): State {
    INIT.(shared := [NewShared(key)], rooms := map[key := 0], clients := [Client(key, Holding(0))], candidates := {0})
  }

  lemma LookedUpAndPicked(key: Key)
    ensures Step(Step(Step(INIT, Admit(key)), Lookup(0)), Collect) == Picked(key)
  {
    var s1 := INIT.(clients := [Client(key, Admitted)]);
    assert Step(INIT, Admit(key)) == s1;
    var s2 := Picked(key).(candidates := {});
    assert Step(s1, Lookup(0)) == s2;
    CollectsTheOnlyRoom(s2, key);
  }

  lemma CollectsTheOnlyRoom(s: State, key: Key)
    requires s == Picked(key).(candidates := {})
    ensures Step(s, Collect) == Picked(key)
  {
    var picked := set k | k in s.rooms && s.rooms[k] < |s.shared| && Unused(s.shared[s.rooms[k]]) :: s.rooms[k];
    assert picked == {0} by { assert key in s.rooms; }
  }

  lemma SweptUnstarted(s: State, key: Key)
    requires key != NIL && key in s.rooms && s.shared == [NewShared(key)] && s.candidates == {0}
    requires s.lock == Free && !s.crashed
    ensures var t := Run(s, [BeginSweep, SweepOne(0), CloseRoom(0)]); t.crashed && key in t.rooms
  {
  }
}
