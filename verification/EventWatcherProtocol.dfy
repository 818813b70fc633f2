/** The shared watcher: which rooms are registered, who subscribes to them, and when they are collected.  Each
    region protected by the watcher's or a shared room's mutex is one step, except that a sweep takes one room
    at a time; subscribers, the collector, the iterators and the closing goroutines interleave freely.  What a
    room does with its events is the event room protocol. */
module EventWatcherProtocol {

  type Key = nat

  const NIL: Key := 0  // uuid.Nil, the id of a room that has not been started

  /** `watching`: the room exists.  `starting`: somebody is inside Watch, holding the room's mutex.  `iterators`
      is the wait group, and `failures` counts the additions to it nobody will take back.  `closers` are the
      collector's goroutines inside Close, `draining` the one of the shutdown. */
  datatype Shared = Shared(key: Key, watching: bool, starting: bool, iterating: bool, iterators: int, failures: nat,
                           cursors: int, closers: nat, draining: bool, roomClosed: bool)

  /** A call of Watch, and then the cursor it returned. */
  datatype Phase = Admitted | Holding(i: nat) | Starting(i: nat) | Ready(i: nat) | Subscribed(i: nat) | Gone

  datatype Client = Client(key: Key, phase: Phase)

  /** Who holds the watcher's mutex between steps: a sweep, or the shutdown until its rooms are closed. */
  datatype Lock = Free | Sweeping | Draining

  /** `shared` lists every room ever created; `rooms` maps the keys to the registered ones. */
  datatype State = State(shared: seq<Shared>, rooms: map<Key, nat>, clients: seq<Client>, candidates: set<nat>,
                         lock: Lock, shuttingDown: bool, crashed: bool)

  const INIT := State([], map[], [], {}, Free, false, false)

  datatype Action =
    | Admit(key: Key)                // Watch: not shutting down
    | Lookup(c: nat)                 // getOrCreate
    | Begin(c: nat)                  // GetOrStart: there is a room, or Watch is called
    | Watched(c: nat, ok: bool)      // and returns
    | Subscribe(c: nat) | Unsubscribe(c: nat)
    | IterationEnds(i: nat, expected: bool)
    | Collect | BeginSweep | SweepOne(i: nat) | EndSweep
    | Shutdown | ShutdownReturns
    | CloseRoom(i: nat)              // a Close, once the wait group lets it pass

  function NewShared(key: Key): Shared { Shared(key, false, false, false, 0, 0, 0, 0, false, false) }

  predicate Unused(x: Shared) { !x.watching || x.cursors == 0 }

  /** sharedRoom.ID. */
  function IdOf(x: Shared): Key { if x.watching then x.key else NIL }

  predicate Closing(x: Shared) { x.closers > 0 || x.draining }

  /** The client's room exists. */
  predicate Target(s: State, c: nat) {
    && c < |s.clients|
    && match s.clients[c].phase
       case Admitted => false
       case Gone => false
       case p => p.i < |s.shared|
  }

  predicate Enabled(s: State, a: Action) {
    && !s.crashed
    && match a
       case Admit(_) => !s.shuttingDown
       case Lookup(c) => s.lock == Free && c < |s.clients| && s.clients[c].phase == Admitted
       case Begin(c) => Target(s, c) && s.clients[c].phase.Holding? && !s.shared[s.clients[c].phase.i].starting
       case Watched(c, _) => Target(s, c) && s.clients[c].phase.Starting?
       case Subscribe(c) => Target(s, c) && s.clients[c].phase.Ready?
       case Unsubscribe(c) => Target(s, c) && s.clients[c].phase.Subscribed?
       case IterationEnds(i, _) => i < |s.shared| && s.shared[i].iterating
       case Collect => s.lock == Free && !s.shuttingDown
       case BeginSweep => s.lock == Free && s.candidates != {}
       case SweepOne(i) => s.lock == Sweeping && i in s.candidates && i < |s.shared|
       case EndSweep => s.lock == Sweeping && s.candidates == {}
       case Shutdown => s.lock == Free
       case ShutdownReturns => s.lock == Draining && forall i :: 0 <= i < |s.shared| ==> !s.shared[i].draining
       case CloseRoom(i) => i < |s.shared| && Closing(s.shared[i]) && s.shared[i].iterators == 0
  }

  function SetPhase(s: State, c: nat, p: Phase): State
    requires c < |s.clients|
  {
    s.(clients := s.clients[c := s.clients[c].(phase := p)])
  }

  function SetShared(s: State, i: nat, x: Shared): State
    requires i < |s.shared|
  {
    s.(shared := s.shared[i := x])
  }

  /** The shutdown's goroutines. */
  function Drained(shared: seq<Shared>, which: set<nat>): (r: seq<Shared>)
    ensures |r| == |shared|
    ensures forall i :: 0 <= i < |shared| ==> r[i] == if i in which then shared[i].(draining := true) else shared[i]
  {
    seq(|shared|, i requires 0 <= i < |shared| => if i in which then shared[i].(draining := true) else shared[i])
  }

  function Apply(s: State, a: Action): State
    requires Enabled(s, a)
  {
    match a
    case Admit(key) => s.(clients := s.clients + [Client(key, Admitted)])
    case Lookup(c) =>
      var key := s.clients[c].key;
      if key in s.rooms then SetPhase(s, c, Holding(s.rooms[key]))
      else
        SetPhase(s, c, Holding(|s.shared|)).(shared := s.shared + [NewShared(key)], rooms := s.rooms[key := |s.shared|])
    case Begin(c) =>
      var i := s.clients[c].phase.i;
      if s.shared[i].watching then SetPhase(s, c, Ready(i))
      else SetPhase(SetShared(s, i, s.shared[i].(starting := true, iterators := s.shared[i].iterators + 1)), c, Starting(i))
    case Watched(c, ok) =>
      var i := s.clients[c].phase.i;
      var x := s.shared[i].(starting := false);
      if ok then SetPhase(SetShared(s, i, x.(watching := true, iterating := true)), c, Ready(i))
      else SetPhase(SetShared(s, i, x.(failures := x.failures + 1)), c, Gone)
    case Subscribe(c) =>
      var i := s.clients[c].phase.i;
      SetPhase(SetShared(s, i, s.shared[i].(cursors := s.shared[i].cursors + 1)), c, Subscribed(i))
    case Unsubscribe(c) =>
      var i := s.clients[c].phase.i;
      SetPhase(SetShared(s, i, s.shared[i].(cursors := s.shared[i].cursors - 1)), c, Gone)
    case IterationEnds(i, expected) =>
      // Room.Next has closed the room; an unexpected error leaves the loop without Done.
      var x := s.shared[i].(iterating := false, roomClosed := true);
      SetShared(s, i, if expected then x.(iterators := x.iterators - 1) else x.(failures := x.failures + 1))
    case Collect =>
      s.(candidates := set k | k in s.rooms && s.rooms[k] < |s.shared| && Unused(s.shared[s.rooms[k]]) :: s.rooms[k])
    case BeginSweep => s.(lock := Sweeping)
    case SweepOne(i) =>
      var t := s.(candidates := s.candidates - {i});
      if !Unused(s.shared[i]) then t
      else
        SetShared(t, i, s.shared[i].(closers := s.shared[i].closers + 1)).(rooms := s.rooms - {IdOf(s.shared[i])})
    case EndSweep => s.(lock := Free)
    case Shutdown =>
      s.(shuttingDown := true, lock := Draining, rooms := map[], shared := Drained(s.shared, s.rooms.Values))
    case ShutdownReturns => s.(lock := Free)
    case CloseRoom(i) =>
      var x := s.shared[i];
      if !x.watching then s.(crashed := true)  // the room is still nil
      else SetShared(s, i, if x.draining then x.(draining := false, roomClosed := true)
                           else x.(closers := x.closers - 1, roomClosed := true))
  }

  function Step(s: State, a: Action): State {
    if Enabled(s, a) then Apply(s, a) else s
  }

  function Run(s: State, actions: seq<Action>): State
    decreases |actions|
  {
    if actions == [] then s else Run(Step(s, actions[0]), actions[1..])
  }

  lemma RunCons(s: State, a: Action, rest: seq<Action>)
    ensures Run(s, [a] + rest) == Run(Step(s, a), rest)
  {
  }

  lemma {:induction false} RunConcat(s: State, a: seq<Action>, b: seq<Action>)
    ensures Run(s, a + b) == Run(Run(s, a), b)
    decreases |a|
  {
    if a == [] {
      assert a + b == b;
    } else {
      assert (a + b)[0] == a[0] && (a + b)[1..] == a[1..] + b;
      RunConcat(Step(s, a[0]), a[1..], b);
    }
  }

  /* ---------- invariant ---------- */

  predicate On(k: Client, i: nat) { k.phase == Subscribed(i) }

  function Subscribers(ks: seq<Client>, i: nat): nat {
    if ks == [] then 0 else (if On(ks[0], i) then 1 else 0) + Subscribers(ks[1..], i)
  }

  lemma {:induction false} SubscribersUpdate(ks: seq<Client>, c: nat, k: Client, i: nat)
    requires c < |ks|
    ensures Subscribers(ks[c := k], i) == Subscribers(ks, i) - (if On(ks[c], i) then 1 else 0) + (if On(k, i) then 1 else 0)
  {
    if c > 0 {
      assert ks[c := k][1..] == ks[1..][c - 1 := k];
      SubscribersUpdate(ks[1..], c - 1, k, i);
    } else {
      assert ks[c := k][1..] == ks[1..];
    }
  }

  lemma {:induction false} SubscribersAppend(ks: seq<Client>, k: Client, i: nat)
    ensures Subscribers(ks + [k], i) == Subscribers(ks, i) + (if On(k, i) then 1 else 0)
  {
    if ks == [] {
      assert ks + [k] == [k] && [k][1..] == [];
    } else {
      assert (ks + [k])[1..] == ks[1..] + [k];
      SubscribersAppend(ks[1..], k, i);
    }
  }

  lemma {:induction false} NoSubscribers(ks: seq<Client>, i: nat)
    ensures Subscribers(ks, i) == 0 <==> forall c :: 0 <= c < |ks| ==> !On(ks[c], i)
  {
    if ks == [] {
    } else {
      NoSubscribers(ks[1..], i);
      assert forall c :: 0 <= c < |ks[1..]| ==> ks[1..][c] == ks[c + 1];
      assert forall c :: 1 <= c < |ks| ==> ks[c] == ks[1..][c - 1];
    }
  }

  /** The wait group counts the start in progress, the iteration in progress and the failures. */
  predicate Balanced(x: Shared) {
    && x.iterators == x.failures + (if x.starting then 1 else 0) + (if x.iterating then 1 else 0)
    && !(x.watching && x.starting) && (x.iterating ==> x.watching)
    && (x.roomClosed <==> x.watching && !x.iterating)
  }

  ghost predicate ClientInv(shared: seq<Shared>, k: Client) {
    match k.phase
    case Admitted => true
    case Gone => true
    case Holding(i) => i < |shared| && shared[i].key == k.key
    case Starting(i) => i < |shared| && shared[i].key == k.key && shared[i].starting
    case Ready(i) => i < |shared| && shared[i].key == k.key && shared[i].watching
    case Subscribed(i) => i < |shared| && shared[i].key == k.key && shared[i].watching
  }

  /** Only one client is inside Watch for a room. */
  ghost predicate ClientsInv(shared: seq<Shared>, clients: seq<Client>) {
    && (forall c :: 0 <= c < |clients| ==> ClientInv(shared, clients[c]))
    && (forall c, d :: 0 <= c < d < |clients| && clients[c].phase.Starting? ==> clients[d].phase != clients[c].phase)
  }

  ghost predicate Counted(shared: seq<Shared>, clients: seq<Client>) {
    forall i :: 0 <= i < |shared| ==> shared[i].cursors == Subscribers(clients, i)
  }

  ghost predicate Registered(shared: seq<Shared>, rooms: map<Key, nat>) {
    forall k :: k in rooms ==> rooms[k] < |shared| && shared[rooms[k]].key == k
  }

  ghost predicate Inv(s: State) {
    && (forall i :: 0 <= i < |s.shared| ==> Balanced(s.shared[i]))
    && ClientsInv(s.shared, s.clients) && Counted(s.shared, s.clients) && Registered(s.shared, s.rooms)
  }

  predicate OfClient(a: Action) {
    a.Lookup? || a.Begin? || a.Watched? || a.Subscribe? || a.Unsubscribe?
  }

  lemma LookupKeepsInv(s: State, c: nat)
    requires Inv(s) && Enabled(s, Lookup(c))
    ensures Inv(Apply(s, Lookup(c)))
  {
    var t := Apply(s, Lookup(c));
    forall i | 0 <= i < |t.shared| ensures t.shared[i].cursors == Subscribers(t.clients, i) {
      SubscribersUpdate(s.clients, c, t.clients[c], i);
      if i == |s.shared| { FreshRoomHasNone(s.shared, s.clients, i); }
    }
    assert forall d :: 0 <= d < |s.clients| ==> ClientInv(s.shared, s.clients[d]);
  }

  lemma FreshRoomHasNone(shared: seq<Shared>, clients: seq<Client>, i: nat)
    requires ClientsInv(shared, clients) && i >= |shared|
    ensures Subscribers(clients, i) == 0
  {
  }

  /** A cursor is counted for exactly as long as its client is subscribed. */
  lemma ClientStepCursors(s: State, a: Action)
    requires Enabled(s, a) && OfClient(a) && !a.Lookup?
    ensures var t := Apply(s, a);
            && |t.shared| == |s.shared| && |t.clients| == |s.clients| && t.clients == s.clients[a.c := t.clients[a.c]]
            && forall i :: 0 <= i < |s.shared| ==>
                 t.shared[i].cursors == s.shared[i].cursors - (if On(s.clients[a.c], i) then 1 else 0)
                                                           + (if On(t.clients[a.c], i) then 1 else 0)
  {
  }

  lemma ClientStepCounts(s: State, a: Action)
    requires Inv(s) && Enabled(s, a) && OfClient(a) && !a.Lookup?
    ensures var t := Apply(s, a); Counted(t.shared, t.clients)
  {
    hide Apply, Subscribers, ClientsInv, Registered, Balanced, On;
    ClientStepCursors(s, a);
    var t := Apply(s, a);
    forall i | 0 <= i < |t.shared| ensures t.shared[i].cursors == Subscribers(t.clients, i) {
      SubscribersUpdate(s.clients, a.c, t.clients[a.c], i);
    }
  }

  /** One client moves, and its room changes no more than the other clients can bear. */
  ghost predicate Bearable(s: State, t: State, c: nat, i: nat)
    requires c < |s.clients| && i < |s.shared|
  {
    && |t.clients| == |s.clients| && |t.shared| == |s.shared|
    && t.clients == s.clients[c := t.clients[c]] && t.shared == s.shared[i := t.shared[i]]
    && t.clients[c].key == s.clients[c].key && t.shared[i].key == s.shared[i].key
    && (s.shared[i].watching ==> t.shared[i].watching)
    && (s.shared[i].starting && !t.shared[i].starting ==> s.clients[c].phase == Starting(i))
    && ClientInv(t.shared, t.clients[c])
    && (t.clients[c].phase.Starting? ==> t.clients[c].phase == Starting(i) && !s.shared[i].starting)
  }

  lemma ClientStepIsBearable(s: State, a: Action)
    requires Enabled(s, a) && OfClient(a) && !a.Lookup? && ClientInv(s.shared, s.clients[a.c])
    ensures Bearable(s, Apply(s, a), a.c, s.clients[a.c].phase.i)
  {
  }

  lemma ClientStepKeepsClients(s: State, a: Action)
    requires Inv(s) && Enabled(s, a) && OfClient(a) && !a.Lookup?
    ensures var t := Apply(s, a); ClientsInv(t.shared, t.clients)
  {
    hide Counted, Registered, Subscribers, Apply, Balanced;
    assert ClientInv(s.shared, s.clients[a.c]);
    ClientStepIsBearable(s, a);
    OthersBear(s, Apply(s, a), a.c, s.clients[a.c].phase.i);
  }

  lemma OthersBear(s: State, t: State, c: nat, i: nat)
    requires c < |s.clients| && i < |s.shared| && Bearable(s, t, c, i) && ClientsInv(s.shared, s.clients)
    ensures ClientsInv(t.shared, t.clients)
  {
    forall d | 0 <= d < |t.clients| ensures ClientInv(t.shared, t.clients[d]) {
      assert ClientInv(s.shared, s.clients[d]);
      assert d != c && s.clients[c].phase.Starting? ==> s.clients[d].phase != s.clients[c].phase;
    }
    forall d | 0 <= d < |t.clients| && d != c && t.clients[c].phase.Starting? ensures t.clients[d].phase != t.clients[c].phase {
      assert ClientInv(s.shared, s.clients[d]);
    }
  }

  lemma ClientStepKeepsBalance(s: State, a: Action)
    requires Inv(s) && Enabled(s, a) && OfClient(a) && !a.Lookup?
    ensures var t := Apply(s, a);
            && Registered(t.shared, t.rooms) && forall i :: 0 <= i < |t.shared| ==> Balanced(t.shared[i])
  {
    assert ClientInv(s.shared, s.clients[a.c]);
    var i := s.clients[a.c].phase.i;
    assert Balanced(s.shared[i]);
    ClientStepBalances(s, a);
    hide Counted, ClientsInv, Subscribers, Balanced, Apply, Enabled;
  }

  lemma ClientStepBalances(s: State, a: Action)
    requires Enabled(s, a) && OfClient(a) && !a.Lookup?
    requires ClientInv(s.shared, s.clients[a.c]) && Balanced(s.shared[s.clients[a.c].phase.i])
    ensures var i := s.clients[a.c].phase.i;
            var t := Apply(s, a);
            && |t.shared| == |s.shared| && t.shared == s.shared[i := t.shared[i]] && t.rooms == s.rooms
            && Balanced(t.shared[i]) && t.shared[i].key == s.shared[i].key
  {
  }

  lemma ClientStepKeepsInv(s: State, a: Action)
    requires Inv(s) && Enabled(s, a) && OfClient(a)
    ensures Inv(Apply(s, a))
  {
    hide Apply, Counted, ClientsInv, Registered, Balanced;
    if a.Lookup? {
      LookupKeepsInv(s, a.c);
    } else {
      ClientStepCounts(s, a);
      ClientStepKeepsClients(s, a);
      ClientStepKeepsBalance(s, a);
    }
  }

  lemma AdmitKeepsInv(s: State, key: Key)
    requires Inv(s) && Enabled(s, Admit(key))
    ensures Inv(Apply(s, Admit(key)))
  {
    var t := Apply(s, Admit(key));
    forall i | 0 <= i < |t.shared| ensures t.shared[i].cursors == Subscribers(t.clients, i) {
      SubscribersAppend(s.clients, Client(key, Admitted), i);
    }
    forall d | 0 <= d < |t.clients| ensures ClientInv(t.shared, t.clients[d]) {
      assert d < |s.clients| ==> ClientInv(s.shared, s.clients[d]);
    }
  }

  /** The steps that leave the clients alone leave alone what they rely on. */
  lemma RoomStepShape(s: State, a: Action)
    requires Inv(s) && Enabled(s, a) && !OfClient(a) && !a.Admit?
    ensures var t := Apply(s, a);
            && t.clients == s.clients && |t.shared| == |s.shared| && t.rooms.Keys <= s.rooms.Keys
            && (forall k :: k in t.rooms ==> t.rooms[k] == s.rooms[k])
            && (forall i :: 0 <= i < |s.shared| ==> Bears(s.shared[i], t.shared[i]))
  {
    hide ClientsInv, Counted, Subscribers, Registered, Balanced, Bears;
    assert forall i :: 0 <= i < |s.shared| ==> Balanced(s.shared[i]);
    forall i | 0 <= i < |s.shared| ensures Bears(s.shared[i], Apply(s, a).shared[i]) {
      OneRoomBears(s, a, i);
    }
  }

  /** What the clients rely on. */
  predicate Bears(x: Shared, y: Shared) {
    && Balanced(y) && y.key == x.key && y.cursors == x.cursors && y.starting == x.starting && y.watching == x.watching
  }

  lemma OneRoomBears(s: State, a: Action, i: nat)
    requires Enabled(s, a) && !OfClient(a) && !a.Admit? && i < |s.shared| && Balanced(s.shared[i])
    ensures i < |Apply(s, a).shared| && Bears(s.shared[i], Apply(s, a).shared[i])
  {
  }

  lemma RoomStepKeepsInv(s: State, a: Action)
    requires Inv(s) && Enabled(s, a) && !OfClient(a)
    ensures Inv(Apply(s, a))
  {
    hide Apply, Balanced, Subscribers;
    if a.Admit? {
      AdmitKeepsInv(s, a.key);
    } else {
      RoomStepShape(s, a);
      var t := Apply(s, a);
      forall d | 0 <= d < |t.clients| ensures ClientInv(t.shared, t.clients[d]) {
        assert ClientInv(s.shared, s.clients[d]);
      }
    }
  }

  lemma StepKeepsInv(s: State, a: Action)
    requires Inv(s) && Enabled(s, a)
    ensures Inv(Apply(s, a))
  {
    hide *;
    if OfClient(a) { ClientStepKeepsInv(s, a); } else { RoomStepKeepsInv(s, a); }
  }

  lemma {:induction false} RunKeepsInv(s: State, actions: seq<Action>)
    requires Inv(s)
    ensures Inv(Run(s, actions))
    decreases |actions|
  {
    if actions == [] {
    } else {
      if Enabled(s, actions[0]) { StepKeepsInv(s, actions[0]); }
      RunKeepsInv(Step(s, actions[0]), actions[1..]);
    }
  }

  lemma Reachable(actions: seq<Action>)
    ensures Inv(Run(INIT, actions))
  {
    RunKeepsInv(INIT, actions);
  }

  /* ---------- theorems ---------- */

  /** The wait group of a room is exactly its start and its iteration in progress and its failures, its counter
      is exactly the open cursors, and no two keys share a room. */
  lemma CountersAreExact(actions: seq<Action>, i: nat)
    requires i < |Run(INIT, actions).shared|
    ensures var s := Run(INIT, actions);
            var x := s.shared[i];
            && x.iterators == x.failures + (if x.starting then 1 else 0) + (if x.iterating then 1 else 0)
            && x.cursors == Subscribers(s.clients, i) && x.cursors >= 0
            && (x.roomClosed <==> x.watching && !x.iterating)
            && (forall k, l :: k in s.rooms && l in s.rooms && s.rooms[k] == s.rooms[l] ==> k == l)
  {
    Reachable(actions);
    assert Balanced(Run(INIT, actions).shared[i]);
  }

  lemma UnwatchedHasNone(s: State, i: nat)
    requires Inv(s) && i < |s.shared| && !s.shared[i].watching
    ensures s.shared[i].cursors == 0
  {
    forall c | 0 <= c < |s.clients| ensures !On(s.clients[c], i) { assert ClientInv(s.shared, s.clients[c]); }
    NoSubscribers(s.clients, i);
  }

  /** Rooms are never dropped, a start that worked is for good, and failures add up. */
  ghost predicate Ages(s: State, t: State) {
    && |s.shared| <= |t.shared|
    && forall i :: 0 <= i < |s.shared| ==>
         && t.shared[i].key == s.shared[i].key && t.shared[i].failures >= s.shared[i].failures
         && (s.shared[i].watching ==> t.shared[i].watching) && (s.shared[i].roomClosed ==> t.shared[i].roomClosed)
  }

  lemma ClientStepAges(s: State, a: Action)
    requires Enabled(s, a) && (OfClient(a) || a.Admit?)
    ensures Ages(s, Apply(s, a))
  {
  }

  lemma RoomStepAges(s: State, a: Action)
    requires Enabled(s, a) && !OfClient(a) && !a.Admit?
    ensures Ages(s, Apply(s, a))
  {
  }

  lemma StepAges(s: State, a: Action)
    ensures Ages(s, Step(s, a))
  {
    hide Apply;
    if Enabled(s, a) {
      if OfClient(a) || a.Admit? { ClientStepAges(s, a); } else { RoomStepAges(s, a); }
    }
  }

  lemma {:induction false} RunAges(s: State, actions: seq<Action>)
    ensures Ages(s, Run(s, actions))
    decreases |actions|
  {
    hide Step;
    if actions == [] {
    } else {
      StepAges(s, actions[0]);
      RunAges(Step(s, actions[0]), actions[1..]);
    }
  }
}
