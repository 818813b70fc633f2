/** The tracker runtime: each region protected by the runtime's or an entry's mutex is one step, and the
    steps of any number of starts, stops, collections and closing goroutines interleave freely. */
module TrackerProtocol {
  import opened Wrappers

  /** Room and role. */
  type Key = nat

  datatype Status = Init | Live | Closing | Closed | Failed

  /** `tracker` is the number of the tracker the entry holds, in order of creation. */
  datatype Entry = Entry(key: Key, status: Status, tracker: Option<nat>, expireAt: int)

  /** A tracker ever created: the entry it was created for, and how often it has been closed. */
  datatype Made = Made(owner: nat, closes: nat)

  /** `index` is the map of entries by key; entries that were collected stay in `entries`.  `starting` and
      `closers` are the goroutines that wait for an entry's lock, by entry.  `leaked` counts the starts that
      returned and left nobody behind to call Done. */
  datatype State = State(entries: seq<Entry>, index: map<Key, nat>, made: seq<Made>, waitGroup: int,
                         starting: multiset<nat>, closers: multiset<nat>, leaked: nat,
                         shuttingDown: bool, mutexHeld: bool, crashed: bool)

  const INIT := State([], map[], [], 0, multiset{}, multiset{}, 0, false, false, false)

  datatype Action =
    | Register(key: Key, expireAt: int)     // StartTracker, under the runtime's mutex
    | Enter(e: nat, created: bool)          // StartTracker, under the entry's mutex
    | Stop(key: Key)                        // StopTracker, under the runtime's mutex
    | BeginClose(e: nat) | EndClose(e: nat) // a goroutine of closeTrackers
    | Collect(now: int)                     // a garbage collection
    | Shutdown

  predicate Active(x: Entry) { x.status == Live || x.status == Closing }

  predicate Collectable(s: State, k: Key, now: int)
    requires k in s.index
  {
    s.index[k] < |s.entries| &&
    (s.entries[s.index[k]].status == Failed || s.entries[s.index[k]].expireAt <= now)
  }

  /** The entry's mutex is held only while its tracker is being closed. */
  predicate Enabled(s: State, a: Action) {
    !s.crashed &&
    match a
    case Register(k, _) => !s.mutexHeld && !s.shuttingDown && (k in s.index ==> s.index[k] < |s.entries|)
    case Enter(e, _) => e in s.starting && e < |s.entries| && s.entries[e].status != Closing
    case Stop(k) => !s.mutexHeld && !s.shuttingDown
    case BeginClose(e) => e in s.closers && e < |s.entries| && s.entries[e].status != Closing
    case EndClose(e) => e < |s.entries| && s.entries[e].status == Closing
                        && s.entries[e].tracker.Some? && s.entries[e].tracker.value < |s.made|
    case Collect(_) => !s.mutexHeld && !s.shuttingDown
    case Shutdown => !s.mutexHeld && !s.shuttingDown
  }

  function SetEntry(s: State, e: nat, x: Entry): State
    requires e < |s.entries|
  {
    s.(entries := s.entries[e := x])
  }

  function Apply(s: State, a: Action): State
    requires Enabled(s, a)
  {
    match a
    case Register(k, expireAt) =>
      var e := if k in s.index then s.index[k] else |s.entries|;
      s.(entries := if k in s.index then s.entries[e := s.entries[e].(expireAt := expireAt)]
                    else s.entries + [Entry(k, Init, None, expireAt)],
         index := s.index[k := e], waitGroup := s.waitGroup + 1, starting := s.starting + multiset{e})
    case Enter(e, created) =>
      var t := s.(starting := s.starting - multiset{e});
      if s.entries[e].status == Live then t.(leaked := s.leaked + 1)
      else if !created then
        SetEntry(t, e, s.entries[e].(status := Failed)).(leaked := s.leaked + 1)
      else
        SetEntry(t, e, s.entries[e].(status := Live, tracker := Some(|s.made|))).(made := s.made + [Made(e, 0)])
    case Stop(k) =>
      // Not found returns without releasing the mutex.
      if k in s.index then s.(closers := s.closers + multiset{s.index[k]}) else s.(mutexHeld := true)
    case BeginClose(e) =>
      var t := s.(closers := s.closers - multiset{e});
      (match s.entries[e].status
       case Init => t.(crashed := true)  // the tracker is still nil
       case Live => SetEntry(t, e, s.entries[e].(status := Closing))
       case _ => t)
    case EndClose(e) =>
      var k := s.entries[e].tracker.value;
      SetEntry(s, e, s.entries[e].(status := Closed)).(
        made := s.made[k := s.made[k].(closes := s.made[k].closes + 1)], waitGroup := s.waitGroup - 1)
    case Collect(now) =>
      var gone := set k | k in s.index && Collectable(s, k, now);
      s.(index := s.index - gone, closers := s.closers + multiset(set k | k in gone :: s.index[k]))
    case Shutdown =>
      s.(shuttingDown := true, closers := s.closers + multiset(set k | k in s.index :: s.index[k]))
  }

  function Step(s: State, a: Action): State {
    if Enabled(s, a) then Apply(s, a) else s
  }

  function Run(s: State, actions: seq<Action>): State
    decreases |actions|
  {
    if actions == [] then s else Run(Step(s, actions[0]), actions[1..])
  }

  lemma {:induction false} RunConcat(s: State, a: seq<Action>, b: seq<Action>)
    ensures Run(s, a + b) == Run(Run(s, a), b)
    decreases |a|
  {
    if a == [] {
      assert a + b == b;
    } else {
      assert (a + b)[0] == a[0] && (a + b)[1..] == a[1..] + b;
      RunConcat(Step(s, a[0]), a[1..], b);
    }
  }

  lemma RunCons(s: State, a: Action, rest: seq<Action>)
    ensures Run(s, [a] + rest) == Run(Step(s, a), rest)
  {
  }

  /* ---------- invariant ---------- */

  function CountActive(xs: seq<Entry>): nat {
    if xs == [] then 0 else (if Active(xs[0]) then 1 else 0) + CountActive(xs[1..])
  }

  lemma {:induction false} CountActiveUpdate(xs: seq<Entry>, i: nat, x: Entry)
    requires i < |xs|
    ensures CountActive(xs[i := x]) == CountActive(xs) - (if Active(xs[i]) then 1 else 0) + (if Active(x) then 1 else 0)
  {
    if i > 0 {
      assert xs[i := x][1..] == xs[1..][i - 1 := x];
      CountActiveUpdate(xs[1..], i - 1, x);
    } else {
      assert xs[i := x][1..] == xs[1..];
    }
  }

  lemma {:induction false} CountActiveAppend(xs: seq<Entry>, x: Entry)
    ensures CountActive(xs + [x]) == CountActive(xs) + (if Active(x) then 1 else 0)
  {
    if xs == [] {
      assert xs + [x] == [x] && [x][1..] == [];
    } else {
      assert (xs + [x])[1..] == xs[1..] + [x];
      CountActiveAppend(xs[1..], x);
    }
  }

  lemma {:induction false} NoneActive(xs: seq<Entry>)
    ensures CountActive(xs) == 0 <==> forall e :: 0 <= e < |xs| ==> !Active(xs[e])
  {
    if xs == [] {
    } else {
      NoneActive(xs[1..]);
      assert forall e :: 1 <= e < |xs| ==> xs[e] == xs[1..][e - 1];
      assert xs[1..] != [] ==> xs[1..][0] == xs[1];
      assert (forall e :: 0 <= e < |xs| ==> !Active(xs[e])) <==>
             (!Active(xs[0]) && forall e :: 0 <= e < |xs[1..]| ==> !Active(xs[1..][e])) by {
        assert forall e :: 0 <= e < |xs[1..]| ==> xs[1..][e] == xs[e + 1];
      }
    }
  }

  /** An entry holds an open tracker exactly while it is active. */
  ghost predicate EntryInv(e: nat, x: Entry, made: seq<Made>) {
    && (Active(x) ==> x.tracker.Some?)
    && (x.status == Init ==> x.tracker == None)
    && (x.tracker.Some? ==>
          && x.tracker.value < |made| && made[x.tracker.value] == Made(e, if Active(x) then 0 else 1))
  }

  /** A tracker is closed at most once, and an open one is the one its entry holds. */
  ghost predicate MadeInv(t: nat, m: Made, entries: seq<Entry>) {
    && m.closes <= 1
    && (m.closes == 0 ==> m.owner < |entries| && Active(entries[m.owner]) && entries[m.owner].tracker == Some(t))
  }

  ghost predicate TrackersInv(entries: seq<Entry>, made: seq<Made>) {
    && (forall e :: 0 <= e < |entries| ==> EntryInv(e, entries[e], made))
    && (forall t :: 0 <= t < |made| ==> MadeInv(t, made[t], entries))
  }

  ghost predicate IndexInv(s: State) {
    && (forall e :: e in s.starting || e in s.closers ==> e < |s.entries|)
    && (forall k :: k in s.index ==> s.index[k] < |s.entries| && s.entries[s.index[k]].key == k)
  }

  ghost predicate Inv(s: State) {
    && s.waitGroup == |s.starting| + CountActive(s.entries) + s.leaked
    && IndexInv(s) && TrackersInv(s.entries, s.made)
  }

  lemma RegisterKeepsInv(s: State, k: Key, expireAt: int)
    requires Inv(s) && Enabled(s, Register(k, expireAt))
    ensures Inv(Apply(s, Register(k, expireAt)))
  {
    var t := Apply(s, Register(k, expireAt));
    var e := t.index[k];
    if k in s.index {
      CountActiveUpdate(s.entries, e, t.entries[e]);
    } else {
      CountActiveAppend(s.entries, t.entries[e]);
    }
    assert TrackersInv(t.entries, t.made) by {
      forall i | 0 <= i < |t.made| ensures MadeInv(i, t.made[i], t.entries) {
        assert MadeInv(i, s.made[i], s.entries);
      }
    }
  }

  lemma EnterKeepsInv(s: State, e: nat, created: bool)
    requires Inv(s) && Enabled(s, Enter(e, created))
    ensures Inv(Apply(s, Enter(e, created)))
  {
    hide TrackersInv, CountActive;
    var t := Apply(s, Enter(e, created));
    assert IndexInv(t) by { hide Active; }
    hide IndexInv;
    CountActiveUpdate(s.entries, e, t.entries[e]);
    if s.entries[e].status == Live {
      assert t.entries == s.entries;
    } else if created {
      CreateKeepsTrackers(s.entries, s.made, e);
    } else {
      ChangeKeepsTrackers(s.entries, s.made, e, Failed);
    }
  }

  lemma CreateKeepsTrackers(entries: seq<Entry>, made: seq<Made>, e: nat)
    requires TrackersInv(entries, made) && e < |entries| && !Active(entries[e])
    ensures TrackersInv(entries[e := entries[e].(status := Live, tracker := Some(|made|))], made + [Made(e, 0)])
  {
  }

  /** A change of status that neither opens nor closes a tracker. */
  lemma ChangeKeepsTrackers(entries: seq<Entry>, made: seq<Made>, e: nat, to: Status)
    requires TrackersInv(entries, made) && e < |entries| && to != Init
    requires Active(entries[e]) <==> Active(entries[e].(status := to))
    ensures TrackersInv(entries[e := entries[e].(status := to)], made)
  {
  }

  lemma BeginCloseShape(s: State, e: nat)
    requires Enabled(s, BeginClose(e))
    ensures var t := Apply(s, BeginClose(e));
            && t.made == s.made && t.index == s.index && t.starting == s.starting
            && t.waitGroup == s.waitGroup && t.leaked == s.leaked && t.closers == s.closers - multiset{e}
            && t.entries == if s.entries[e].status == Live then s.entries[e := s.entries[e].(status := Closing)] else s.entries
  {
  }

  lemma BeginCloseKeepsInv(s: State, e: nat)
    requires Inv(s) && Enabled(s, BeginClose(e))
    ensures Inv(Apply(s, BeginClose(e)))
  {
    hide TrackersInv, Apply;
    BeginCloseShape(s, e);
    if s.entries[e].status == Live {
      CountActiveUpdate(s.entries, e, s.entries[e].(status := Closing));
      ChangeKeepsTrackers(s.entries, s.made, e, Closing);
    }
  }

  lemma EndCloseKeepsInv(s: State, e: nat)
    requires Inv(s) && Enabled(s, EndClose(e))
    ensures Inv(Apply(s, EndClose(e)))
  {
    var t := Apply(s, EndClose(e));
    CountActiveUpdate(s.entries, e, t.entries[e]);
    assert EntryInv(e, s.entries[e], s.made);
    assert TrackersInv(t.entries, t.made) by { EndCloseKeepsTrackers(s.entries, s.made, e); }
    hide TrackersInv;
  }

  lemma EndCloseKeepsTrackers(entries: seq<Entry>, made: seq<Made>, e: nat)
    requires TrackersInv(entries, made)
    requires e < |entries| && entries[e].status == Closing && entries[e].tracker.Some? && entries[e].tracker.value < |made|
    ensures var k := entries[e].tracker.value;
            TrackersInv(entries[e := entries[e].(status := Closed)], made[k := made[k].(closes := made[k].closes + 1)])
  {
  }

  lemma SpawnKeepsInv(s: State, a: Action)
    requires Inv(s) && Enabled(s, a) && (a.Stop? || a.Collect? || a.Shutdown?)
    ensures Inv(Apply(s, a))
  {
  }

  lemma StepKeepsInv(s: State, a: Action)
    requires Inv(s) && Enabled(s, a)
    ensures Inv(Apply(s, a))
  {
    hide *;
    match a {
      case Register(k, x) => RegisterKeepsInv(s, k, x);
      case Enter(e, created) => EnterKeepsInv(s, e, created);
      case BeginClose(e) => BeginCloseKeepsInv(s, e);
      case EndClose(e) => EndCloseKeepsInv(s, e);
      case _ => SpawnKeepsInv(s, a);
    }
  }

  lemma {:induction false} RunKeepsInv(s: State, actions: seq<Action>)
    requires Inv(s)
    ensures Inv(Run(s, actions))
    decreases |actions|
  {
    if actions == [] {
    } else {
      if Enabled(s, actions[0]) { StepKeepsInv(s, actions[0]); }
      RunKeepsInv(Step(s, actions[0]), actions[1..]);
    }
  }

  lemma Reachable(actions: seq<Action>)
    ensures Inv(Run(INIT, actions))
  {
    RunKeepsInv(INIT, actions);
  }

  /* ---------- theorems ---------- */

  /** The counter is exactly the starts on their way, the entries whose tracker is open, and the leaks;
      in particular Done is never called too often. */
  lemma WaitGroupIsConserved(actions: seq<Action>)
    ensures var s := Run(INIT, actions);
            s.waitGroup == |s.starting| + CountActive(s.entries) + s.leaked && s.waitGroup >= 0
  {
    Reachable(actions);
  }

  /** When Wait returns, nobody is starting a tracker and every tracker ever created has been closed,
      exactly once. */
  lemma WaitMeansAllClosed(actions: seq<Action>)
    requires Run(INIT, actions).waitGroup == 0
    ensures var s := Run(INIT, actions);
            && |s.starting| == 0
            && (forall e :: 0 <= e < |s.entries| ==> !Active(s.entries[e]))
            && (forall t :: 0 <= t < |s.made| ==> s.made[t].closes == 1)
  {
    var s := Run(INIT, actions);
    Reachable(actions);
    NoneActive(s.entries);
    forall t | 0 <= t < |s.made| ensures s.made[t].closes == 1 {
      assert MadeInv(t, s.made[t], s.entries);
    }
  }

  /** No step closes a tracker a second time, a start replaces the tracker an entry holds only after it has been
      closed, and while it is being closed neither a start nor another closer gets at the entry. */
  lemma TrackersAreNotLost(actions: seq<Action>, a: Action)
    requires Enabled(Run(INIT, actions), a)
    ensures var s := Run(INIT, actions);
            && (a.EndClose? ==> s.made[s.entries[a.e].tracker.value].closes == 0)
            && (a.Enter? || a.BeginClose? ==> s.entries[a.e].status != Closing)
            && (a.Enter? && s.entries[a.e].tracker.Some? && Apply(s, a).entries[a.e].tracker != s.entries[a.e].tracker ==>
                  var t := s.entries[a.e].tracker.value; t < |s.made| && s.made[t].closes == 1)
  {
    var s := Run(INIT, actions);
    Reachable(actions);
    if a.EndClose? || a.Enter? { assert EntryInv(a.e, s.entries[a.e], s.made); }
  }

  lemma {:induction false} LeaksAccumulate(s: State, actions: seq<Action>)
    ensures Run(s, actions).leaked >= s.leaked
    decreases |actions|
  {
    if actions == [] {
    } else {
      LeaksAccumulate(Step(s, actions[0]), actions[1..]);
    }
  }

  /** With no start pending and no tracker open, Wait can return exactly if every start so far created a
      tracker; one that found a live tracker or failed blocks the shutdown for good. */
  lemma WaitReturnsIffNothingLeaked(actions: seq<Action>, later: seq<Action>)
    ensures var s := Run(INIT, actions);
            && (|s.starting| == 0 && CountActive(s.entries) == 0 ==> (s.waitGroup == 0 <==> s.leaked == 0))
            && (s.leaked > 0 ==> Run(INIT, actions + later).waitGroup > 0)
  {
    Reachable(actions);
    Reachable(actions + later);
    RunConcat(INIT, actions, later);
    LeaksAccumulate(Run(INIT, actions), later);
  }

  /** One run that leaks: a second start of a live tracker. */
  lemma LeakExists(k: Key)
    ensures Run(INIT, [Register(k, 0), Enter(0, true)] + [Register(k, 0), Enter(0, true)]).leaked == 1
  {
    var s1 := INIT.(entries := [Entry(k, Init, None, 0)], index := map[k := 0], waitGroup := 1, starting := multiset{0});
    assert Step(INIT, Register(k, 0)) == s1;
    var s2 := INIT.(entries := [Entry(k, Live, Some(0), 0)], index := map[k := 0], made := [Made(0, 0)], waitGroup := 1);
    assert Step(s1, Enter(0, true)) == s2;
    var s3 := s2.(waitGroup := 2, starting := multiset{0});
    assert Step(s2, Register(k, 0)) == s3;
    assert Step(s3, Enter(0, true)).leaked == 1;
    hide Step;
    RunConcat(INIT, [Register(k, 0), Enter(0, true)], [Register(k, 0), Enter(0, true)]);
    TwoSteps(INIT, Register(k, 0), Enter(0, true));
    TwoSteps(s2, Register(k, 0), Enter(0, true));
  }

  /** After StopTracker has missed once, the runtime's mutex is never released: nothing can be registered,
      stopped or collected any more, and the shutdown cannot begin. */
  lemma {:induction false} MissedStopBlocksRuntime(s: State, later: seq<Action>)
    requires s.mutexHeld
    ensures var t := Run(s, later);
            t.mutexHeld && t.index == s.index && t.shuttingDown == s.shuttingDown && |t.entries| == |s.entries|
    decreases |later|
  {
    if later == [] {
    } else {
      MissedStopBlocksRuntime(Step(s, later[0]), later[1..]);
    }
  }

  /** Somebody waits to close the entry, or can still be sent to: it is in the map, and the map still open. */
  predicate Closable(s: State, e: nat) {
    e in s.closers || (!s.mutexHeld && !s.shuttingDown && e in s.index.Values)
  }

  /** A live entry nobody will close. */
  predicate Orphan(s: State, e: nat) {
    e < |s.entries| && s.entries[e].status == Live && !Closable(s, e)
  }

  /** Nothing ever closes an orphan, so the shutdown waits for it for ever. */
  lemma {:induction false} OrphanStaysLive(s: State, e: nat, later: seq<Action>)
    requires Inv(s) && Orphan(s, e)
    ensures Orphan(Run(s, later), e) && Run(s, later).waitGroup > 0
    decreases |later|
  {
    if later == [] {
      NoneActive(s.entries);
    } else {
      var a := later[0];
      if Enabled(s, a) { StepKeepsInv(s, a); OrphanStep(s, e, a); }
      OrphanStaysLive(Step(s, a), e, later[1..]);
    }
  }

  lemma OrphanStep(s: State, e: nat, a: Action)
    requires Orphan(s, e) && Enabled(s, a)
    ensures Orphan(Apply(s, a), e)
  {
    hide *;
    match a {
      case Register(_, _) => OrphanRegister(s, e, a);
      case Enter(_, _) => OrphanEnter(s, e, a);
      case BeginClose(_) => OrphanBeginClose(s, e, a);
      case EndClose(_) => OrphanEndClose(s, e, a);
      case _ => OrphanSpawn(s, e, a);
    }
  }

  lemma OrphanSpawn(s: State, e: nat, a: Action)
    requires Orphan(s, e) && Enabled(s, a) && (a.Stop? || a.Collect? || a.Shutdown?)
    ensures Orphan(Apply(s, a), e)
  {
    assert forall k :: k in s.index ==> s.index[k] in s.index.Values;
  }

  lemma OrphanRegister(s: State, e: nat, a: Action)
    requires Orphan(s, e) && Enabled(s, a) && a.Register?
    ensures Orphan(Apply(s, a), e)
  {
    assert forall k :: k in s.index ==> s.index[k] in s.index.Values;
  }

  lemma OrphanEnter(s: State, e: nat, a: Action)
    requires Orphan(s, e) && Enabled(s, a) && a.Enter?
    ensures Orphan(Apply(s, a), e)
  {
  }

  lemma OrphanBeginClose(s: State, e: nat, a: Action)
    requires Orphan(s, e) && Enabled(s, a) && a.BeginClose?
    ensures Orphan(Apply(s, a), e)
  {
    assert a.e != e;
  }

  lemma OrphanEndClose(s: State, e: nat, a: Action)
    requires Orphan(s, e) && Enabled(s, a) && a.EndClose?
    ensures Orphan(Apply(s, a), e)
  {
    assert a.e != e;
  }

  /** The entry's tracker has been closed. */
  predicate ClosedIn(s: State, e: nat) { e < |s.entries| && s.entries[e].status == Closed }

  /** From every reachable state, a live entry can still be closed exactly if it is closable. */
  lemma LiveEntryClosesIff(actions: seq<Action>, e: nat)
    requires var s := Run(INIT, actions); !s.crashed && e < |s.entries| && s.entries[e].status == Live
    ensures var s := Run(INIT, actions);
            (exists later :: ClosedIn(Run(s, later), e)) <==> Closable(s, e)
  {
    var s := Run(INIT, actions);
    Reachable(actions);
    hide Run;
    if !Closable(s, e) {
      forall later ensures !ClosedIn(Run(s, later), e) { OrphanStaysLive(s, e, later); }
    } else if e in s.closers {
      CloserCloses(s, e);
    } else {
      StepKeepsInv(s, Shutdown);
      ShutdownHandsOut(s, e);
      CloserCloses(Step(s, Shutdown), e);
      RunCons(s, Shutdown, [BeginClose(e), EndClose(e)]);
    }
  }

  lemma CloserCloses(s: State, e: nat)
    requires Inv(s) && !s.crashed && e < |s.entries| && s.entries[e].status == Live && e in s.closers
    ensures ClosedIn(Run(s, [BeginClose(e), EndClose(e)]), e)
  {
    LiveIsTakenUp(s, e);
    ClosingEnds(Step(s, BeginClose(e)), e);
    hide *;
    TwoSteps(s, BeginClose(e), EndClose(e));
  }

  lemma LiveIsTakenUp(s: State, e: nat)
    requires Inv(s) && !s.crashed && e < |s.entries| && s.entries[e].status == Live && e in s.closers
    ensures var t := Step(s, BeginClose(e)); Inv(t) && !t.crashed && e < |t.entries| && t.entries[e].status == Closing
  {
    StepKeepsInv(s, BeginClose(e));
    hide Inv;
  }

  lemma ClosingEnds(s: State, e: nat)
    requires Inv(s) && !s.crashed && e < |s.entries| && s.entries[e].status == Closing
    ensures ClosedIn(Step(s, EndClose(e)), e)
  {
    assert EntryInv(e, s.entries[e], s.made);
    hide Inv;
  }

  lemma ShutdownHandsOut(s: State, e: nat)
    requires !s.crashed && !s.mutexHeld && !s.shuttingDown && e in s.index.Values
    ensures Enabled(s, Shutdown)
    ensures var t := Step(s, Shutdown); t == Apply(s, Shutdown) && t.entries == s.entries && e in t.closers && !t.crashed
  {
    var k :| k in s.index && s.index[k] == e;
    assert e in (set j | j in s.index :: s.index[j]);
  }

  lemma TwoSteps(s: State, a: Action, b: Action)
    ensures Run(s, [a, b]) == Step(Step(s, a), b)
  {
    hide Step;
    RunCons(s, a, [b]);
    RunCons(Step(s, a), b, []);
    assert [a] + [b] == [a, b] && [b] + [] == [b];
  }

  lemma ThreeSteps(s: State, a: Action, b: Action, c: Action)
    ensures Run(s, [a, b, c]) == Step(Step(Step(s, a), b), c)
  {
    hide Step;
    RunCons(s, a, [b, c]);
    TwoSteps(Step(s, a), b, c);
    assert [a] + [b, c] == [a, b, c];
  }

  /* ---------- when the shutdown completes ---------- */

  /** An entry is still being initialised only while a start waits for its lock. */
  ghost predicate InitPending(s: State) {
    forall e :: 0 <= e < |s.entries| && s.entries[e].status == Init ==> e in s.starting
  }

  lemma {:induction false} RunKeepsInitPending(s: State, actions: seq<Action>)
    requires InitPending(s)
    ensures InitPending(Run(s, actions))
    decreases |actions|
  {
    if actions == [] {
    } else {
      StepKeepsInitPending(s, actions[0]);
      RunKeepsInitPending(Step(s, actions[0]), actions[1..]);
    }
  }

  lemma StepKeepsInitPending(s: State, a: Action)
    requires InitPending(s)
    ensures InitPending(Step(s, a))
  {
    if Enabled(s, a) {
      if a.Register? || a.Enter? { StartKeepsInitPending(s, a); } else { CloseKeepsInitPending(s, a); }
    }
    hide Apply, InitPending;
  }

  lemma StartKeepsInitPending(s: State, a: Action)
    requires InitPending(s) && Enabled(s, a) && (a.Register? || a.Enter?)
    ensures InitPending(Apply(s, a))
  {
  }

  lemma CloseKeepsInitPending(s: State, a: Action)
    requires InitPending(s) && Enabled(s, a) && !a.Register? && !a.Enter?
    ensures InitPending(Apply(s, a))
  {
    hide InitPending, NoNewInit, Apply, Enabled;
    if a.BeginClose? || a.EndClose? { GoroutineMakesNoInit(s, a); } else { SpawnMakesNoInit(s, a); }
    StillPending(s, Apply(s, a));
  }

  ghost predicate NoNewInit(s: State, t: State) {
    && t.starting == s.starting && |t.entries| == |s.entries|
    && forall e :: 0 <= e < |s.entries| && t.entries[e].status == Init ==> s.entries[e].status == Init
  }

  lemma GoroutineMakesNoInit(s: State, a: Action)
    requires Enabled(s, a) && (a.BeginClose? || a.EndClose?)
    ensures NoNewInit(s, Apply(s, a))
  {
  }

  lemma SpawnMakesNoInit(s: State, a: Action)
    requires Enabled(s, a) && (a.Stop? || a.Collect? || a.Shutdown?)
    ensures NoNewInit(s, Apply(s, a))
  {
    hide Collectable;
  }

  lemma StillPending(s: State, t: State)
    requires InitPending(s) && NoNewInit(s, t)
    ensures InitPending(t)
  {
  }

  /** The goroutines that are to close the entry are enough for the starts it has still to come and for the
      tracker it may hold already. */
  predicate Covered(s: State, e: nat) {
    e < |s.entries| ==> s.starting[e] + (if s.entries[e].status == Live then 1 else 0) <= s.closers[e]
  }

  /** From here the shutdown can be completed. */
  ghost predicate Draining(s: State) {
    Inv(s) && s.shuttingDown && !s.crashed && s.leaked == 0 && forall e :: Covered(s, e)
  }

  /** What to do next: finish a close, take up a live entry, or let a start enter. */
  ghost function NextStep(s: State): Action {
    if exists e :: Enabled(s, EndClose(e)) then
      var e :| Enabled(s, EndClose(e)); EndClose(e)
    else if exists e: nat :: Enabled(s, BeginClose(e)) && s.entries[e].status == Live then
      var e: nat :| Enabled(s, BeginClose(e)) && s.entries[e].status == Live; BeginClose(e)
    else if exists e :: Enabled(s, Enter(e, true)) then
      var e :| Enabled(s, Enter(e, true)); Enter(e, true)
    else Shutdown
  }

  /** While the counter is not zero there is something to do. */
  lemma NextStepIsEnabled(s: State)
    requires Draining(s) && s.waitGroup > 0
    ensures var a := NextStep(s);
            && Enabled(s, a) && (a.EndClose? || a.Enter? || a.BeginClose?)
            && (a.Enter? ==> a.created && s.entries[a.e].status != Live)
            && (a.BeginClose? ==> s.entries[a.e].status == Live)
  {
    if CountActive(s.entries) > 0 {
      NoneActive(s.entries);
      var e :| 0 <= e < |s.entries| && Active(s.entries[e]);
      assert Covered(s, e) && EntryInv(e, s.entries[e], s.made);
      assert Enabled(s, EndClose(e)) || Enabled(s, BeginClose(e));
    } else {
      var e :| e in s.starting;
      NoneActive(s.entries);
      assert Enabled(s, Enter(e, true));
    }
  }

  lemma DrainStep(s: State, a: Action)
    requires Draining(s) && Enabled(s, a)
    requires a.EndClose? || (a.Enter? && a.created && s.entries[a.e].status != Live)
             || (a.BeginClose? && s.entries[a.e].status == Live)
    ensures Draining(Step(s, a))
    ensures var t := Step(s, a);
            && |t.starting| == |s.starting| - (if a.Enter? then 1 else 0)
            && |t.closers| == |s.closers| - (if a.BeginClose? then 1 else 0)
            && (a.EndClose? ==> CountActive(t.entries) < CountActive(s.entries))
  {
    StepKeepsInv(s, a);
    var t := Step(s, a);
    forall e ensures Covered(t, e) { assert Covered(s, e); }
    if a.EndClose? { CountActiveUpdate(s.entries, a.e, t.entries[a.e]); }
    hide Inv, Covered;
  }

  /** The schedule that lets every start enter and every goroutine finish. */
  lemma {:induction false} DrainCompletes(s: State)
    requires Draining(s)
    ensures exists later :: Run(s, later).waitGroup == 0
    decreases |s.starting|, |s.closers|, CountActive(s.entries)
  {
    if s.waitGroup == 0 {
      assert Run(s, []).waitGroup == 0;
    } else {
      var a := NextStep(s);
      NextStepIsEnabled(s);
      DrainStep(s, a);
      DrainCompletes(Step(s, a));
      var later :| Run(Step(s, a), later).waitGroup == 0;
      RunCons(s, a, later);
      assert Run(s, [a] + later).waitGroup == 0;
    }
  }

  ghost predicate Deficient(s: State, e: nat) {
    s.shuttingDown && (s.leaked > 0 || !Covered(s, e))
  }

  /** Too few goroutines for an entry: every step of the shutdown leaves it so, or leaks. */
  lemma DeficitStays(s: State, e: nat, a: Action)
    requires Deficient(s, e) && Enabled(s, a)
    ensures Deficient(Apply(s, a), e)
  {
    hide *;
    assert s.shuttingDown by { DeficientShutdown(s, e); }
    assert a.Enter? || a.BeginClose? || a.EndClose? by { OnlyGoroutinesMove(s, a); }
    if a.Enter? { EnterKeepsDeficit(s, e, a); } else { CloseKeepsDeficit(s, e, a); }
  }

  lemma DeficientShutdown(s: State, e: nat)
    requires Deficient(s, e)
    ensures s.shuttingDown
  {
  }

  lemma OnlyGoroutinesMove(s: State, a: Action)
    requires s.shuttingDown && Enabled(s, a)
    ensures a.Enter? || a.BeginClose? || a.EndClose?
  {
  }

  lemma EnterKeepsDeficit(s: State, e: nat, a: Action)
    requires Deficient(s, e) && Enabled(s, a) && a.Enter?
    ensures Deficient(Apply(s, a), e)
  {
  }

  lemma CloseKeepsDeficit(s: State, e: nat, a: Action)
    requires Deficient(s, e) && Enabled(s, a) && (a.BeginClose? || a.EndClose?)
    ensures Deficient(Apply(s, a), e)
  {
  }

  lemma {:induction false} DeficitBlocks(s: State, e: nat, later: seq<Action>)
    requires Inv(s) && Deficient(s, e)
    ensures Run(s, later).waitGroup > 0
    decreases |later|
  {
    hide Inv, Deficient, Enabled, Apply;
    if later == [] {
      DeficitCounts(s, e);
    } else {
      if Enabled(s, later[0]) { StepKeepsInv(s, later[0]); DeficitStays(s, e, later[0]); }
      DeficitBlocks(Step(s, later[0]), e, later[1..]);
    }
  }

  lemma DeficitCounts(s: State, e: nat)
    requires Inv(s) && Deficient(s, e)
    ensures s.waitGroup > 0
  {
    NoneActive(s.entries);
    assert e in s.starting ==> |s.starting| > 0;
  }

  /** Once the shutdown has begun, Wait can still return exactly if nothing has leaked and every entry has a
      closing goroutine for each start still waiting for its lock and one more if it is live. */
  lemma ShutdownCompletesIff(actions: seq<Action>)
    requires Run(INIT, actions).shuttingDown && !Run(INIT, actions).crashed
    ensures var s := Run(INIT, actions);
            (exists later :: Run(s, later).waitGroup == 0) <==> s.leaked == 0 && forall e :: Covered(s, e)
  {
    var s := Run(INIT, actions);
    Reachable(actions);
    if s.leaked == 0 && forall e :: Covered(s, e) {
      DrainCompletes(s);
    } else {
      var e: nat :| s.leaked > 0 || !Covered(s, e);
      assert Deficient(s, e);
      forall later ensures Run(s, later).waitGroup > 0 {
        DeficitBlocks(s, e, later);
      }
    }
  }

  /* ---------- what a collection takes ---------- */

  /** A collection leaves in the map exactly the keys whose entry has not failed and is still to expire.  The
      entry of each key it takes gains one closing goroutine, and nothing else changes. */
  lemma CollectTakes(actions: seq<Action>, now: int)
    requires Enabled(Run(INIT, actions), Collect(now))
    ensures var s := Run(INIT, actions);
            var t := Apply(s, Collect(now));
            && t == s.(index := t.index, closers := t.closers)
            && (forall k :: k in t.index ==> k in s.index && t.index[k] == s.index[k])
            && (forall k :: k in s.index ==>
                  && s.index[k] < |s.entries|
                  && (k in t.index <==> s.entries[s.index[k]].status != Failed && now < s.entries[s.index[k]].expireAt))
            && (forall e :: 0 <= e < |s.entries| ==>
                  t.closers[e] == s.closers[e] + (if exists k :: k in s.index && k !in t.index && s.index[k] == e then 1 else 0))
  {
    var s := Run(INIT, actions);
    Reachable(actions);
    hide Run;
    TakenHaveClosers(s, now);
  }

  lemma TakenHaveClosers(s: State, now: int)
    requires Enabled(s, Collect(now))
    ensures var t := Apply(s, Collect(now));
            forall e: nat :: t.closers[e] ==
              s.closers[e] + (if exists k :: k in s.index && k !in t.index && s.index[k] == e then 1 else 0)
  {
    var t := Apply(s, Collect(now));
    var gone := set k | k in s.index && Collectable(s, k, now);
    var taken := set k | k in gone :: s.index[k];
    assert t.closers == s.closers + multiset(taken) && t.index == s.index - gone;
    forall e: nat ensures t.closers[e] ==
        s.closers[e] + (if exists k :: k in s.index && k !in t.index && s.index[k] == e then 1 else 0) {
      assert e in taken <==> exists k :: k in s.index && k !in t.index && s.index[k] == e;
    }
  }

  /** The shutdown gives each entry in the map one closing goroutine, and begins. */
  lemma ShutdownHandsOutAll(s: State)
    requires Enabled(s, Shutdown)
    ensures var t := Apply(s, Shutdown);
            && t == s.(shuttingDown := true, closers := t.closers)
            && forall e: nat :: t.closers[e] == s.closers[e] + (if e in s.index.Values then 1 else 0)
  {
    var t := Apply(s, Shutdown);
    var all := set k | k in s.index :: s.index[k];
    assert t.closers == s.closers + multiset(all);
    forall e: nat ensures e in all <==> e in s.index.Values { }
  }

  /* ---------- what every start came to ---------- */

  /** How many steps of a schedule were performed and are of a kind. */
  function Performed(s: State, actions: seq<Action>, kind: (State, Action) -> bool): nat
    decreases |actions|
  {
    if actions == [] then 0
    else
      (if Enabled(s, actions[0]) && kind(s, actions[0]) then 1 else 0)
      + Performed(Step(s, actions[0]), actions[1..], kind)
  }

  predicate Registering(s: State, a: Action) { a.Register? }

  predicate Entering(s: State, a: Action) { a.Enter? }

  predicate Ending(s: State, a: Action) { a.EndClose? }

  /** The start finds its entry live, or its tracker cannot be created. */
  predicate Fruitless(s: State, a: Action) {
    a.Enter? && a.e < |s.entries| && (s.entries[a.e].status == Live || !a.created)
  }

  /** A stop of a key that is not in the map. */
  predicate Missing(s: State, a: Action) { a.Stop? && a.key !in s.index }

  /** What a step does to the counters. */
  ghost predicate Accounts(s: State, a: Action, t: State) {
    && |t.starting| == |s.starting| + (if a.Register? then 1 else 0) - (if a.Enter? then 1 else 0)
    && t.leaked == s.leaked + (if Fruitless(s, a) then 1 else 0)
    && |t.made| == |s.made| + (if a.Enter? && !Fruitless(s, a) then 1 else 0)
    && t.waitGroup == s.waitGroup + (if a.Register? then 1 else 0) - (if a.EndClose? then 1 else 0)
    && (t.mutexHeld <==> s.mutexHeld || Missing(s, a))
  }

  lemma StepAccounts(s: State, a: Action)
    requires Enabled(s, a)
    ensures Accounts(s, a, Apply(s, a))
  {
    hide *;
    if a.Register? || a.Enter? { StartAccounts(s, a); } else { CloseAccounts(s, a); }
  }

  lemma StartAccounts(s: State, a: Action)
    requires Enabled(s, a) && (a.Register? || a.Enter?)
    ensures Accounts(s, a, Apply(s, a))
  {
  }

  lemma CloseAccounts(s: State, a: Action)
    requires Enabled(s, a) && !a.Register? && !a.Enter?
    ensures Accounts(s, a, Apply(s, a))
  {
  }

  lemma {:induction false} RunAccounts(s: State, actions: seq<Action>)
    ensures var t := Run(s, actions);
            && |t.starting| + Performed(s, actions, Entering) == |s.starting| + Performed(s, actions, Registering)
            && t.leaked == s.leaked + Performed(s, actions, Fruitless)
            && |t.made| + t.leaked == |s.made| + s.leaked + Performed(s, actions, Entering)
            && t.waitGroup == s.waitGroup + Performed(s, actions, Registering) - Performed(s, actions, Ending)
            && (t.mutexHeld <==> s.mutexHeld || Performed(s, actions, Missing) > 0)
    decreases |actions|
  {
    hide Apply, Enabled;
    if actions == [] {
    } else {
      if Enabled(s, actions[0]) { StepAccounts(s, actions[0]); }
      RunAccounts(Step(s, actions[0]), actions[1..]);
    }
  }

  /** Over every schedule: each registration is still waiting for its entry or has entered, each start that
      entered has made a tracker or leaked, and those that leaked are exactly the ones that found the entry live
      or could not create a tracker. */
  lemma LeakedAreFruitlessStarts(actions: seq<Action>)
    ensures var s := Run(INIT, actions);
            && Performed(INIT, actions, Registering) == |s.starting| + Performed(INIT, actions, Entering)
            && Performed(INIT, actions, Entering) == |s.made| + s.leaked
            && s.leaked == Performed(INIT, actions, Fruitless)
            && s.waitGroup == Performed(INIT, actions, Registering) - Performed(INIT, actions, Ending)
  {
    RunAccounts(INIT, actions);
  }

  /** The runtime's mutex is held for good exactly if some stop has missed. */
  lemma MutexHeldIffMissed(actions: seq<Action>)
    ensures Run(INIT, actions).mutexHeld <==> Performed(INIT, actions, Missing) > 0
  {
    RunAccounts(INIT, actions);
  }

  /* ---------- when a closing goroutine meets a nil tracker ---------- */

  /** Steps that neither make nor hand out entries, except that the shutdown may begin. */
  predicate Quiet(a: Action) { !a.Register? && !a.Stop? && !a.Collect? }

  /** The entry has not been entered, and has a closing goroutine or would get one from the shutdown. */
  predicate Doomed(s: State, e: nat) {
    e < |s.entries| && s.entries[e].status == Init && Closable(s, e)
  }

  lemma QuietKeepsSpared(s: State, a: Action)
    requires IndexInv(s) && !s.crashed && (forall e :: !Doomed(s, e)) && Quiet(a)
    ensures !Step(s, a).crashed && forall e :: !Doomed(Step(s, a), e)
  {
    hide Apply, Enabled, Doomed, IndexInv;
    if Enabled(s, a) {
      forall e ensures !Apply(s, a).crashed && !Doomed(Apply(s, a), e) {
        match a {
          case Enter(_, _) => EnterSpares(s, e, a);
          case BeginClose(_) => BeginCloseSpares(s, e, a);
          case EndClose(_) => EndCloseSpares(s, e, a);
          case Shutdown => ShutdownSpares(s, e);
          case _ =>
        }
      }
      assert !Doomed(Apply(s, a), 0);
    }
  }

  lemma EnterSpares(s: State, e: nat, a: Action)
    requires Enabled(s, a) && a.Enter? && !Doomed(s, e)
    ensures !Apply(s, a).crashed && !Doomed(Apply(s, a), e)
  {
  }

  lemma BeginCloseSpares(s: State, e: nat, a: Action)
    requires Enabled(s, a) && a.BeginClose? && !Doomed(s, e) && !Doomed(s, a.e)
    ensures !Apply(s, a).crashed && !Doomed(Apply(s, a), e)
  {
  }

  lemma EndCloseSpares(s: State, e: nat, a: Action)
    requires Enabled(s, a) && a.EndClose? && !Doomed(s, e)
    ensures !Apply(s, a).crashed && !Doomed(Apply(s, a), e)
  {
  }

  lemma ShutdownSpares(s: State, e: nat)
    requires IndexInv(s) && Enabled(s, Shutdown) && !Doomed(s, e)
    ensures !Apply(s, Shutdown).crashed && !Doomed(Apply(s, Shutdown), e)
  {
    var handed := set k | k in s.index :: s.index[k];
    assert e in handed ==> e in s.index.Values;
  }

  lemma {:induction false} SparedNeverCrash(s: State, later: seq<Action>)
    requires Inv(s) && !s.crashed && (forall e :: !Doomed(s, e)) && (forall a :: a in later ==> Quiet(a))
    ensures !Run(s, later).crashed
    decreases |later|
  {
    hide Step, Inv, Doomed;
    if later == [] {
    } else {
      InvIndex(s);
      QuietKeepsSpared(s, later[0]);
      RunKeepsInv(s, [later[0]]);
      RunCons(s, later[0], []);
      assert [later[0]] + [] == [later[0]];
      SparedNeverCrash(Step(s, later[0]), later[1..]);
    }
  }

  lemma InvIndex(s: State)
    requires Inv(s)
    ensures IndexInv(s)
  {
  }

  lemma DoomedCrashes(s: State, e: nat)
    requires Doomed(s, e) && !s.crashed
    ensures exists later :: (forall a :: a in later ==> Quiet(a)) && Run(s, later).crashed
  {
    hide Step, Run;
    if e in s.closers {
      CloserCrashes(s, e);
      assert forall a :: a in [BeginClose(e)] ==> Quiet(a);
    } else {
      ShutdownHandsOut(s, e);
      CloserCrashes(Step(s, Shutdown), e);
      RunCons(s, Shutdown, [BeginClose(e)]);
      assert forall a :: a in [Shutdown] + [BeginClose(e)] ==> Quiet(a);
    }
  }

  lemma CloserCrashes(s: State, e: nat)
    requires !s.crashed && e < |s.entries| && s.entries[e].status == Init && e in s.closers
    ensures Run(s, [BeginClose(e)]).crashed
  {
    RunCons(s, BeginClose(e), []);
    assert [BeginClose(e)] + [] == [BeginClose(e)];
  }

  /** From any reachable state, and without a new start, stop or collection, some schedule crashes exactly if an
      entry that nobody has entered has a closing goroutine, or would get one if the shutdown began.  The start
      that made such an entry is still waiting for its lock: the goroutine only has to get it first. */
  lemma CrashReachableIff(actions: seq<Action>)
    requires !Run(INIT, actions).crashed
    ensures var s := Run(INIT, actions);
            && ((exists later :: (forall a :: a in later ==> Quiet(a)) && Run(s, later).crashed) <==> exists e :: Doomed(s, e))
            && (forall e :: Doomed(s, e) ==> e in s.starting)
  {
    var s := Run(INIT, actions);
    Reachable(actions);
    RunKeepsInitPending(INIT, actions);
    if e :| Doomed(s, e) {
      DoomedCrashes(s, e);
    } else {
      forall later | (forall a :: a in later ==> Quiet(a)) ensures !Run(s, later).crashed {
        SparedNeverCrash(s, later);
      }
    }
  }

  /** A closing goroutine crashes exactly if it gets an entry's lock before the start that made the entry, which
      is then still waiting for it. */
  lemma CrashIffNeverEntered(actions: seq<Action>, e: nat)
    requires Enabled(Run(INIT, actions), BeginClose(e))
    ensures var s := Run(INIT, actions);
            && (Apply(s, BeginClose(e)).crashed <==> s.entries[e].status == Init)
            && (s.entries[e].status == Init ==> e in s.starting)
  {
    RunKeepsInitPending(INIT, actions);
  }

  /** The shortest such run: a start, a stop of the same tracker, and the closing goroutine before the start. */
  lemma CrashExists(k: Key)
    ensures Run(INIT, [Register(k, 0), Stop(k), BeginClose(0)]).crashed
  {
    var s1 := INIT.(entries := [Entry(k, Init, None, 0)], index := map[k := 0], waitGroup := 1, starting := multiset{0});
    assert Step(INIT, Register(k, 0)) == s1;
    var s2 := s1.(closers := multiset{0});
    assert Step(s1, Stop(k)) == s2;
    assert Step(s2, BeginClose(0)).crashed;
    ThreeSteps(INIT, Register(k, 0), Stop(k), BeginClose(0));
  }

  /** And the shortest that holds the mutex for good: a stop before any start. */
  lemma HeldMutexExists(k: Key, later: seq<Action>)
    ensures Run(INIT, [Stop(k)] + later).mutexHeld
  {
    RunCons(INIT, Stop(k), later);
    MissedStopBlocksRuntime(Step(INIT, Stop(k)), later);
  }

  /** How an orphan arises: the entry is stopped, a second start takes it from the map, a collection removes
      it, and the collection's goroutine gets the lock first, finding it closed already. */
  lemma OrphanExists(k: Key)
    ensures Orphan(Run(INIT, [Register(k, 0), Enter(0, true), Stop(k), BeginClose(0), EndClose(0)]
                           + [Register(k, 0), Collect(1), BeginClose(0), Enter(0, true)]), 0)
  {
    RunConcat(INIT, [Register(k, 0), Enter(0, true), Stop(k), BeginClose(0), EndClose(0)],
              [Register(k, 0), Collect(1), BeginClose(0), Enter(0, true)]);
    StoppedOnce(k);
    ReusedThenCollected(k);
  }

  function Stopped(k: Key): State {
    INIT.(entries := [Entry(k, Closed, Some(0), 0)], index := map[k := 0], made := [Made(0, 1)])
  }

  lemma StoppedOnce(k: Key)
    ensures Run(INIT, [Register(k, 0), Enter(0, true), Stop(k), BeginClose(0), EndClose(0)]) == Stopped(k)
  {
    var s1 := INIT.(entries := [Entry(k, Init, None, 0)], index := map[k := 0], waitGroup := 1, starting := multiset{0});
    assert Step(INIT, Register(k, 0)) == s1;
    var s2 := INIT.(entries := [Entry(k, Live, Some(0), 0)], index := map[k := 0], made := [Made(0, 0)], waitGroup := 1);
    assert Step(s1, Enter(0, true)) == s2;
    var s3 := s2.(closers := multiset{0});
    assert Step(s2, Stop(k)) == s3;
    var s4 := s2.(entries := [Entry(k, Closing, Some(0), 0)]);
    assert Step(s3, BeginClose(0)) == s4;
    assert Step(s4, EndClose(0)) == Stopped(k);
    hide Step;
    RunCons(s4, EndClose(0), []);
    RunCons(s3, BeginClose(0), [EndClose(0)]);
    RunCons(s2, Stop(k), [BeginClose(0), EndClose(0)]);
    RunCons(s1, Enter(0, true), [Stop(k), BeginClose(0), EndClose(0)]);
    RunCons(INIT, Register(k, 0), [Enter(0, true), Stop(k), BeginClose(0), EndClose(0)]);
  }

  lemma ReusedThenCollected(k: Key)
    ensures Orphan(Run(Stopped(k), [Register(k, 0), Collect(1), BeginClose(0), Enter(0, true)]), 0)
  {
    var s5 := Stopped(k);
    var s6 := s5.(waitGroup := 1, starting := multiset{0});
    assert Step(s5, Register(k, 0)) == s6;
    var s7 := s6.(index := map[], closers := multiset{0});
    assert Step(s6, Collect(1)) == s7 by {
      var gone := set j | j in s6.index && Collectable(s6, j, 1);
      assert gone == {k} && (set j | j in gone :: s6.index[j]) == {0};
      assert multiset({0}) == multiset{0};
    }
    var s8 := s7.(closers := multiset{});
    assert Step(s7, BeginClose(0)) == s8;
    assert Orphan(Step(s8, Enter(0, true)), 0);
    hide Step;
    RunCons(s8, Enter(0, true), []);
    RunCons(s7, BeginClose(0), [Enter(0, true)]);
    RunCons(s6, Collect(1), [BeginClose(0), Enter(0, true)]);
    RunCons(s5, Register(k, 0), [Collect(1), BeginClose(0), Enter(0, true)]);
  }

  /* ---------- reachable steps, for the implementation ---------- */

  function Reach(trace: seq<Action>): State { Run(INIT, trace) }

  lemma ReachStep(trace: seq<Action>, a: Action)
    ensures Reach(trace + [a]) == Step(Reach(trace), a)
  {
    RunConcat(INIT, trace, [a]);
    RunCons(Reach(trace), a, []);
  }

  lemma ReachIndex(trace: seq<Action>)
    ensures IndexInv(Reach(trace))
  {
    Reachable(trace);
  }

  lemma ReachClosing(trace: seq<Action>, e: nat)
    requires e < |Reach(trace).entries| && Reach(trace).entries[e].status == Closing
    ensures Enabled(Reach(trace), EndClose(e)) || Reach(trace).crashed
  {
    Reachable(trace);
    assert EntryInv(e, Reach(trace).entries[e], Reach(trace).made);
  }

  lemma RegisterShape(trace: seq<Action>, k: Key, expireAt: int)
    requires var m := Reach(trace); !m.crashed && !m.mutexHeld && !m.shuttingDown
    ensures var m := Reach(trace);
            var t := Reach(trace + [Register(k, expireAt)]);
            && t.waitGroup == m.waitGroup + 1 && t.shuttingDown == m.shuttingDown
            && (k in m.index ==>
                  && m.index[k] < |m.entries| && m.entries[m.index[k]].key == k && t.index == m.index
                  && t.entries == m.entries[m.index[k] := m.entries[m.index[k]].(expireAt := expireAt)])
            && (k !in m.index ==>
                  && t.index == m.index[k := |m.entries|]
                  && t.entries == m.entries + [Entry(k, Init, None, expireAt)])
  {
    ReachIndex(trace);
    ReachStep(trace, Register(k, expireAt));
  }

  lemma EnterShape(trace: seq<Action>, e: nat, created: bool)
    requires Enabled(Reach(trace), Enter(e, created))
    ensures var m := Reach(trace);
            var t := Reach(trace + [Enter(e, created)]);
            && t.index == m.index && t.waitGroup == m.waitGroup && t.shuttingDown == m.shuttingDown
            && t.entries == if m.entries[e].status == Live then m.entries
                            else if !created then m.entries[e := m.entries[e].(status := Failed)]
                            else m.entries[e := m.entries[e].(status := Live, tracker := Some(|m.made|))]
  {
    ReachStep(trace, Enter(e, created));
  }

  lemma ReachBeginClose(trace: seq<Action>, e: nat)
    requires Enabled(Reach(trace), BeginClose(e))
    ensures var m := Reach(trace);
            var t := Reach(trace + [BeginClose(e)]);
            && t.index == m.index && t.waitGroup == m.waitGroup && t.shuttingDown == m.shuttingDown
            && t.entries == (if m.entries[e].status == Live then m.entries[e := m.entries[e].(status := Closing)] else m.entries)
            && (t.crashed <==> m.entries[e].status == Init)
            && (m.entries[e].status == Live ==> Enabled(t, EndClose(e)))
  {
    ReachStep(trace, BeginClose(e));
    BeginCloseShape(Reach(trace), e);
    if Reach(trace).entries[e].status == Live { ReachClosing(trace + [BeginClose(e)], e); }
    hide Reach;
  }

  lemma CollectShape(trace: seq<Action>, now: int, gone: set<Key>)
    requires var m := Reach(trace); !m.crashed && !m.mutexHeld && !m.shuttingDown
    requires forall k :: k in gone <==>
               && k in Reach(trace).index && Reach(trace).index[k] < |Reach(trace).entries|
               && var x := Reach(trace).entries[Reach(trace).index[k]]; x.status == Failed || x.expireAt <= now
    ensures var m := Reach(trace);
            var t := Reach(trace + [Collect(now)]);
            && t.entries == m.entries && t.index == m.index - gone
            && t.waitGroup == m.waitGroup && t.shuttingDown == m.shuttingDown
  {
    var m := Reach(trace);
    ReachStep(trace, Collect(now));
    assert (set k | k in m.index && Collectable(m, k, now)) == gone;
  }
}
