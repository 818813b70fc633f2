/** The shared watcher and its rooms as heap objects.  A method is what its goroutine does between taking and
    releasing one mutex; `trace` lists the protocol steps done so far. */
module EventWatcher {
  import opened EventWatcherProtocol

  /* ---------- reachable steps ---------- */

  function Reach(trace: seq<Action>): State { Run(INIT, trace) }

  lemma ReachStep(trace: seq<Action>, a: Action)
    ensures Reach(trace + [a]) == Step(Reach(trace), a)
  {
    RunConcat(INIT, trace, [a]);
    RunCons(Reach(trace), a, []);
    assert [a] + [] == [a];
  }

  /** What a step relies on. */
  lemma ReachRooms(trace: seq<Action>)
    ensures Registered(Reach(trace).shared, Reach(trace).rooms)
    ensures forall i :: 0 <= i < |Reach(trace).shared| ==> Balanced(Reach(trace).shared[i])
  {
    Reachable(trace);
  }

  /** What a collection picks, named by the rooms' positions. */
  lemma CollectShape(trace: seq<Action>, picked: set<nat>)
    requires Enabled(Reach(trace), Collect)
    requires var m := Reach(trace);
             forall i :: i in picked <==>
               i < |m.shared| && i in m.rooms.Values && (m.shared[i].watching ==> m.shared[i].cursors == 0)
    ensures Reach(trace + [Collect]) == Reach(trace).(candidates := picked)
  {
    ReachStep(trace, Collect);
    ReachRooms(trace);
    var m := Reach(trace);
    assert (set k | k in m.rooms && m.rooms[k] < |m.shared| && Unused(m.shared[m.rooms[k]]) :: m.rooms[k]) == picked;
  }

  /** Candidates are rooms. */
  ghost predicate CandidatesExist(s: State) {
    forall i :: i in s.candidates ==> i < |s.shared|
  }

  lemma StepKeepsCandidateRange(s: State, a: Action)
    requires CandidatesExist(s)
    ensures CandidatesExist(Step(s, a))
  {
  }

  lemma {:induction false} RunKeepsCandidateRange(s: State, actions: seq<Action>)
    requires CandidatesExist(s)
    ensures CandidatesExist(Run(s, actions))
    decreases |actions|
  {
    hide Step, CandidatesExist;
    if actions == [] {
    } else {
      StepKeepsCandidateRange(s, actions[0]);
      RunKeepsCandidateRange(Step(s, actions[0]), actions[1..]);
    }
  }

  lemma ReachCandidates(trace: seq<Action>)
    ensures CandidatesExist(Reach(trace))
  {
    RunKeepsCandidateRange(INIT, trace);
  }

  lemma CreateShape(trace: seq<Action>, c: nat)
    requires Enabled(Reach(trace), Lookup(c)) && Reach(trace).clients[c].key !in Reach(trace).rooms
    ensures var m := Reach(trace);
            var t := Reach(trace + [Lookup(c)]);
            var key := m.clients[c].key;
            && c < |t.clients| && t.clients[c] == Client(key, Holding(|m.shared|))
            && t.shared == m.shared + [NewShared(key)] && t.rooms == m.rooms[key := |m.shared|]
            && t.shuttingDown == m.shuttingDown
  {
    ReachStep(trace, Lookup(c));
  }

  lemma BeginShape(trace: seq<Action>, c: nat)
    requires Enabled(Reach(trace), Action.Begin(c))
    ensures var m := Reach(trace);
            var i := m.clients[c].phase.i;
            var t := Reach(trace + [Action.Begin(c)]);
            && t.rooms == m.rooms && t.shuttingDown == m.shuttingDown
            && t.shared == if m.shared[i].watching then m.shared
                           else m.shared[i := m.shared[i].(starting := true, iterators := m.shared[i].iterators + 1)]
  {
    ReachStep(trace, Action.Begin(c));
  }

  lemma SweepShape(trace: seq<Action>, i: nat)
    requires Enabled(Reach(trace), SweepOne(i))
    ensures var m := Reach(trace);
            var t := Reach(trace + [SweepOne(i)]);
            && i < |m.shared| && t.candidates == m.candidates - {i} && t.lock == Sweeping && !t.crashed
            && t.shuttingDown == m.shuttingDown
            && (if m.shared[i].watching ==> m.shared[i].cursors == 0 then
                  && t.shared == m.shared[i := m.shared[i].(closers := m.shared[i].closers + 1)]
                  && t.rooms == m.rooms - {if m.shared[i].watching then m.shared[i].key else NIL}
                else t.shared == m.shared && t.rooms == m.rooms)
  {
    ReachStep(trace, SweepOne(i));
  }

  /* ---------- the objects ---------- */

  class SharedRoom {
    var roomID: Key
    var watching: bool  // the room exists
    var iterators: int  // the wait group
    var cursors: int    // the room's open cursors
    var roomClosed: bool

    constructor ()
      ensures roomID == NIL && !watching && iterators == 0 && cursors == 0 && !roomClosed
    {
      roomID, watching, iterators, cursors, roomClosed := NIL, false, 0, 0, false;
    }

    function OpenedCursors(): int
      reads this
    {
      if !watching then 0 else cursors
    }

    ghost predicate Tracks(x: Shared)
      reads this
    {
      && roomID == IdOf(x) && watching == x.watching && iterators == x.iterators && cursors == x.cursors
      && roomClosed == x.roomClosed
    }
  }

  class Watcher {
    var rooms: map<Key, SharedRoom>
    var shuttingDown: bool
    ghost var shared: seq<SharedRoom>
    ghost var trace: seq<Action>

    ghost function Model(): State
      reads this
    {
      Reach(trace)
    }

    static ghost predicate RoomsTrack(shared: seq<SharedRoom>, ms: seq<Shared>)
      reads shared
    {
      && |shared| == |ms|
      && (forall i, j :: 0 <= i < j < |shared| ==> shared[i] != shared[j])
      && (forall i :: 0 <= i < |shared| ==> shared[i].Tracks(ms[i]))
    }

    static ghost predicate RegistryTracks(rooms: map<Key, SharedRoom>, shared: seq<SharedRoom>, index: map<Key, nat>) {
      && rooms.Keys == index.Keys
      && forall k :: k in index ==> index[k] < |shared| && rooms[k] == shared[index[k]]
    }

    ghost predicate Valid()
      reads this, shared
    {
      var m := Model();
      RoomsTrack(shared, m.shared) && RegistryTracks(rooms, shared, m.rooms) && shuttingDown == m.shuttingDown
    }

    constructor ()
      ensures Valid() && trace == []
    {
      rooms, shuttingDown := map[], false;
      shared, trace := [], [];
    }

    /** What a room reports is the number of clients that have a cursor on it. */
    lemma OpenedAreSubscribers(i: nat)
      requires Valid() && i < |shared|
      ensures shared[i].OpenedCursors() == Subscribers(Model().clients, i)
    {
      Reachable(trace);
      assert shared[i].Tracks(Model().shared[i]);
      if !shared[i].watching { UnwatchedHasNone(Model(), i); }
    }

    /** The client has the room in hand. */
    ghost predicate Holds(c: nat, room: SharedRoom)
      reads this
    {
      var m := Model();
      Target(m, c) && m.clients[c].phase.Holding? && m.clients[c].phase.i < |shared| && shared[m.clients[c].phase.i] == room
    }

    /** getOrCreate. */
    method GetOrCreate(key: Key, ghost c: nat) returns (room: SharedRoom)
      requires Valid() && Enabled(Model(), Lookup(c)) && Model().clients[c].key == key
      modifies this
      ensures Valid() && trace == old(trace) + [Lookup(c)] && Holds(c, room)
      ensures key in rooms && rooms[key] == room
      ensures key in old(rooms) ==> rooms == old(rooms) && shared == old(shared)
      ensures key !in old(rooms) ==> fresh(room) && shared == old(shared) + [room]
    {
      if key in rooms {
        ReachStep(trace, Lookup(c));
        hide Reach;
        trace := trace + [Lookup(c)];
        return rooms[key];
      }
      room := Create(key, c);
    }

    method Create(key: Key, ghost c: nat) returns (room: SharedRoom)
      requires Valid() && Enabled(Model(), Lookup(c)) && Model().clients[c].key == key && key !in rooms
      modifies this
      ensures Valid() && trace == old(trace) + [Lookup(c)] && Holds(c, room)
      ensures rooms == old(rooms)[key := room] && fresh(room) && shared == old(shared) + [room]
    {
      hide Reach, Enabled;
      CreateShape(trace, c);
      trace := trace + [Lookup(c)];
      room := new SharedRoom();
      shared := shared + [room];
      rooms := rooms[key := room];
    }

    /** GetOrStart up to the call of Watch; true: there is a room already. */
    method Begin(room: SharedRoom, ghost c: nat) returns (started: bool)
      requires Valid() && Enabled(Model(), Action.Begin(c)) && shared[Model().clients[c].phase.i] == room
      modifies this`trace, room`iterators
      ensures Valid() && trace == old(trace) + [Action.Begin(c)]
      ensures started <==> room.watching
      ensures room.iterators == old(room.iterators) + if started then 0 else 1
    {
      BeginShape(trace, c);
      hide Reach, Step, Enabled;
      trace := trace + [Action.Begin(c)];
      if room.watching {
        return true;
      }
      room.iterators := room.iterators + 1;
      return false;
    }

    /** The rest of GetOrStart: a failure leaves the wait group raised. */
    method Watched(room: SharedRoom, key: Key, ghost c: nat, ok: bool)
      requires Valid() && Enabled(Model(), Action.Watched(c, ok)) && shared[Model().clients[c].phase.i] == room
      requires Model().shared[Model().clients[c].phase.i].key == key
      modifies this`trace, room`watching, room`roomID
      ensures Valid() && trace == old(trace) + [Action.Watched(c, ok)]
      ensures ok ==> room.watching && room.roomID == key
    {
      ReachStep(trace, Action.Watched(c, ok));
      ReachRooms(trace);
      assert Balanced(Model().shared[Model().clients[c].phase.i]);
      hide Reach;
      trace := trace + [Action.Watched(c, ok)];
      if ok {
        room.roomID, room.watching := key, true;
      }
    }

    /** The first half of a collection. */
    method Collect() returns (candidates: seq<SharedRoom>)
      requires Valid() && Enabled(Model(), Action.Collect)
      modifies this`trace
      ensures Valid() && trace == old(trace) + [Action.Collect]
      ensures Picked(candidates)
      ensures forall i :: i in Model().candidates <==> 0 <= i < |shared| && shared[i] in candidates
    {
      candidates := PickUnused();
      TrackCollect(candidates);
    }

    ghost method TrackCollect(candidates: seq<SharedRoom>)
      requires Valid() && Enabled(Model(), Action.Collect) && Picked(candidates)
      modifies this`trace
      ensures Valid() && trace == old(trace) + [Action.Collect]
      ensures forall i :: i in Model().candidates <==> 0 <= i < |shared| && shared[i] in candidates
    {
      hide Reach, Picked;
      ghost var picked := set i | 0 <= i < |shared| && shared[i] in candidates;
      RegisteredRooms(picked, candidates);
      CollectShape(trace, picked);
      trace := trace + [Action.Collect];
    }

    /** The registered rooms without open cursors, each once. */
    ghost predicate Picked(candidates: seq<SharedRoom>)
      reads this, rooms.Values
    {
      && (forall i, j :: 0 <= i < j < |candidates| ==> candidates[i] != candidates[j])
      && (forall room :: room in candidates ==> room in rooms.Values && (room.watching ==> room.cursors == 0))
      && (forall room :: room in rooms.Values && (room.watching ==> room.cursors == 0) ==> room in candidates)
    }

    method PickUnused() returns (candidates: seq<SharedRoom>)
      ensures Picked(candidates)
    {
      candidates := [];
      var left := rooms.Values;
      while left != {}
        invariant left <= rooms.Values
        invariant forall i, j :: 0 <= i < j < |candidates| ==> candidates[i] != candidates[j]
        invariant forall room :: room in candidates <==>
                    room in rooms.Values && room !in left && (room.watching ==> room.cursors == 0)
        decreases |left|
      {
        var room :| room in left;
        left := left - {room};
        if room.OpenedCursors() == 0 {
          candidates := candidates + [room];
        }
      }
    }

    ghost method RegisteredRooms(picked: set<nat>, candidates: seq<SharedRoom>)
      requires Valid()
      requires forall i :: i in picked <==> 0 <= i < |shared| && shared[i] in candidates
      requires Picked(candidates)
      ensures var m := Model();
              forall i :: i in picked <==>
                i < |m.shared| && i in m.rooms.Values && (m.shared[i].watching ==> m.shared[i].cursors == 0)
    {
      var m := Model();
      forall i: nat | i < |shared| ensures shared[i] in rooms.Values <==> i in m.rooms.Values {
        if shared[i] in rooms.Values {
          var k :| k in rooms && rooms[k] == shared[i];
          assert m.rooms[k] == i;
        }
        if i in m.rooms.Values {
          var k :| k in m.rooms && m.rooms[k] == i;
          assert rooms[k] == shared[i];
        }
      }
      assert forall i :: 0 <= i < |shared| ==> shared[i].Tracks(m.shared[i]);
    }

    /** One candidate of the sweep; true: the room is to be closed. */
    method SweepRoom(room: SharedRoom, ghost i: nat) returns (close: bool)
      requires Valid() && i < |shared| && shared[i] == room && Enabled(Model(), SweepOne(i))
      modifies this`rooms, this`trace
      ensures Valid() && trace == old(trace) + [SweepOne(i)]
      ensures Model().candidates == old(Model().candidates) - {i} && Model().lock == Sweeping && !Model().crashed
      ensures close <==> (room.watching ==> room.cursors == 0)
      ensures rooms == if close then old(rooms) - {room.roomID} else old(rooms)
    {
      hide Reach, Enabled;
      SweepShape(trace, i);
      assert room.Tracks(Model().shared[i]);
      trace := trace + [SweepOne(i)];
      if room.OpenedCursors() != 0 {
        return false;
      }
      rooms := rooms - {room.roomID};
      return true;
    }

    /** What is left of the candidates. */
    ghost predicate AreCandidates(left: seq<SharedRoom>)
      reads this
    {
      && (forall j :: 0 <= j < |left| ==> left[j] in shared)
      && (forall i, j :: 0 <= i < j < |left| ==> left[i] != left[j])
      && (forall i :: i in Model().candidates <==> 0 <= i < |shared| && shared[i] in left)
    }

    ghost predicate InSweep()
      reads this
    {
      Model().lock == Sweeping && !Model().crashed
    }

    static ghost function Ids(rooms: seq<SharedRoom>): set<Key>
      reads rooms
    {
      set room | room in rooms :: room.roomID
    }

    static lemma NoIds()
      ensures Ids([]) == {}
    {
    }

    static lemma IdsAppend(rooms: seq<SharedRoom>, room: SharedRoom)
      ensures Ids(rooms + [room]) == Ids(rooms) + {room.roomID}
    {
    }

    /** The second half: under the mutex, the candidates that are still unused leave the registry and are handed
        to closing goroutines, in order. */
    method Sweep(candidates: seq<SharedRoom>) returns (toClose: seq<SharedRoom>)
      requires Valid() && AreCandidates(candidates) && Enabled(Model(), BeginSweep)
      modifies this`rooms, this`trace
      ensures Valid() && Model().candidates == {} && Model().lock == Free
      ensures forall room :: room in toClose <==> room in candidates && (room.watching ==> room.cursors == 0)
      ensures rooms == old(rooms) - Ids(toClose)
    {
      hide Reach, Valid, AreCandidates, InSweep, Ids;
      ghost var before := rooms;
      TakeLock(candidates);
      toClose := [];
      NoIds();
      assert candidates[0..] == candidates;
      var j := 0;
      while j < |candidates|
        invariant 0 <= j <= |candidates| && Valid() && InSweep() && AreCandidates(candidates[j..])
        invariant forall room :: room in toClose <==> room in candidates[..j] && (room.watching ==> room.cursors == 0)
        invariant rooms == before - Ids(toClose)
      {
        assert candidates[j..] == [candidates[j]] + candidates[j + 1..];
        assert candidates[..j + 1] == candidates[..j] + [candidates[j]];
        var close := SweepNext(candidates[j..]);
        if close {
          IdsAppend(toClose, candidates[j]);
          toClose := toClose + [candidates[j]];
        }
        j := j + 1;
      }
      assert candidates[..j] == candidates && candidates[j..] == [];
      ReleaseLock();
    }

    method SweepNext(left: seq<SharedRoom>) returns (close: bool)
      requires Valid() && InSweep() && left != [] && AreCandidates(left)
      modifies this`rooms, this`trace
      ensures Valid() && InSweep() && AreCandidates(left[1..])
      ensures close <==> (left[0].watching ==> left[0].cursors == 0)
      ensures rooms == if close then old(rooms) - {left[0].roomID} else old(rooms)
    {
      ghost var i :| 0 <= i < |shared| && shared[i] == left[0];
      assert left == [left[0]] + left[1..];
      assert forall k: nat :: k < |shared| && shared[k] == left[0] ==> k == i;
      close := SweepRoom(left[0], i);
    }

    ghost method TakeLock(candidates: seq<SharedRoom>)
      requires Valid() && AreCandidates(candidates) && Enabled(Model(), BeginSweep)
      modifies this`trace
      ensures Valid() && InSweep() && AreCandidates(candidates)
    {
      ReachStep(trace, BeginSweep);
      hide Reach;
      trace := trace + [BeginSweep];
    }

    ghost method ReleaseLock()
      requires Valid() && InSweep() && AreCandidates([])
      modifies this`trace
      ensures Valid() && Model().candidates == {} && Model().lock == Free
    {
      ReachStep(trace, EndSweep);
      ReachCandidates(trace);
      hide Reach;
      assert Model().candidates == {};
      trace := trace + [EndSweep];
    }

    /** Every registered room gets a closing goroutine, and nobody finds a room any more; the mutex stays locked
        until they are done. */
    method Shutdown() returns (toClose: set<SharedRoom>)
      requires Valid() && Enabled(Model(), Action.Shutdown)
      modifies this`rooms, this`shuttingDown, this`trace
      ensures Valid() && trace == old(trace) + [Action.Shutdown]
      ensures shuttingDown && rooms == map[] && toClose == old(rooms).Values
    {
      ReachStep(trace, Action.Shutdown);
      hide Reach;
      trace := trace + [Action.Shutdown];
      toClose := rooms.Values;
      shuttingDown := true;
      rooms := map[];
    }

    /** The iteration goroutine leaves its loop: Room.Next has closed the room, and Done is called unless the
        error was unexpected. */
    method EndIteration(room: SharedRoom, ghost i: nat, expected: bool)
      requires Valid() && i < |shared| && shared[i] == room && Enabled(Model(), IterationEnds(i, expected))
      modifies this`trace, room`iterators, room`roomClosed
      ensures Valid() && trace == old(trace) + [IterationEnds(i, expected)]
      ensures room.roomClosed && room.iterators == old(room.iterators) - if expected then 1 else 0
    {
      ReachStep(trace, IterationEnds(i, expected));
      hide Reach;
      trace := trace + [IterationEnds(i, expected)];
      room.roomClosed := true;
      if expected {
        room.iterators := room.iterators - 1;
      }
    }

    /** Close, after the wait group has let it pass; the room must have been started. */
    method CloseShared(room: SharedRoom, ghost i: nat)
      requires Valid() && i < |shared| && shared[i] == room && Enabled(Model(), CloseRoom(i))
      requires room.watching
      modifies this`trace, room`roomClosed
      ensures Valid() && trace == old(trace) + [CloseRoom(i)] && room.roomClosed && !Model().crashed
    {
      ReachStep(trace, CloseRoom(i));
      hide Reach;
      assert room.Tracks(Model().shared[i]);
      trace := trace + [CloseRoom(i)];
      room.roomClosed := true;
    }
  }
}
