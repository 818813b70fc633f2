/** The runtime and its entries as heap objects.  A method is what its goroutine does between taking and
    releasing one mutex; `trace` lists the protocol steps done so far. */
module TrackerRuntime {
  import opened TrackerProtocol
  import opened Wrappers

  datatype Lookup = ErrClosed | ErrNotFound | Found(entry: TrackerEntry)

  /** What a closing goroutine finds under the entry's lock. */
  datatype CloseStart = NilTracker | ToClose | LeftAlone

  class TrackerEntry {
    const key: Key
    var status: Status
    var tracker: Option<nat>
    var expireAt: int

    constructor (key: Key, expireAt: int)
      ensures this.key == key && status == Init && tracker == None && this.expireAt == expireAt
    {
      this.key, this.expireAt := key, expireAt;
      status, tracker := Init, None;
    }
  }

  class Runtime {
    var trackers: map<Key, TrackerEntry>
    var trackersClosed: int
    var shuttingDown: bool
    ghost var entries: seq<TrackerEntry>
    ghost var trace: seq<Action>

    ghost function Model(): State
      reads this
    {
      Reach(trace)
    }

    static ghost predicate EntriesTrack(entries: seq<TrackerEntry>, ms: seq<Entry>)
      reads entries
    {
      && |entries| == |ms|
      && (forall i, j :: 0 <= i < j < |entries| ==> entries[i] != entries[j])
      && (forall i :: 0 <= i < |entries| ==>
            && entries[i].key == ms[i].key && entries[i].status == ms[i].status
            && entries[i].tracker == ms[i].tracker && entries[i].expireAt == ms[i].expireAt)
    }

    static ghost predicate IndexTracks(trackers: map<Key, TrackerEntry>, entries: seq<TrackerEntry>, index: map<Key, nat>)
    {
      && trackers.Keys == index.Keys
      && forall k :: k in index ==> index[k] < |entries| && trackers[k] == entries[index[k]]
    }

    ghost predicate Valid()
      reads this, entries
    {
      var m := Model();
      && EntriesTrack(entries, m.entries) && IndexTracks(trackers, entries, m.index)
      && trackersClosed == m.waitGroup && shuttingDown == m.shuttingDown
    }

    constructor ()
      ensures Valid() && trace == []
    {
      trackers, trackersClosed, shuttingDown := map[], 0, false;
      entries, trace := [], [];
    }

    /** StartTracker up to the release of the runtime's mutex; None: the runtime is stopping. */
    method Register(key: Key, expireAt: int) returns (r: Option<TrackerEntry>)
      requires Valid() && !Model().mutexHeld && !Model().crashed
      modifies this, entries
      ensures Valid()
      ensures r.None? <==> old(shuttingDown)
      ensures trace == if r.None? then old(trace) else old(trace) + [Action.Register(key, expireAt)]
      ensures r.Some? ==> key in trackers && trackers[key] == r.value && r.value.key == key
    {
      if shuttingDown {
        return None;
      }
      var entry: TrackerEntry;
      if key in trackers {
        entry := Reuse(key, expireAt);
      } else {
        entry := Insert(key, expireAt);
      }
      r := Some(entry);
    }

    method Reuse(key: Key, expireAt: int) returns (entry: TrackerEntry)
      requires Valid() && !Model().mutexHeld && !Model().crashed && !shuttingDown && key in trackers
      modifies this`trackersClosed, this`trace, entries`expireAt
      ensures Valid() && trace == old(trace) + [Action.Register(key, expireAt)]
      ensures trackers[key] == entry && entry.key == key
    {
      RegisterShape(trace, key, expireAt);
      hide Reach;
      entry := trackers[key];
      entry.expireAt := expireAt;
      trackersClosed := trackersClosed + 1;
      trace := trace + [Action.Register(key, expireAt)];
    }

    method Insert(key: Key, expireAt: int) returns (entry: TrackerEntry)
      requires Valid() && !Model().mutexHeld && !Model().crashed && !shuttingDown && key !in trackers
      modifies this
      ensures Valid() && trace == old(trace) + [Action.Register(key, expireAt)]
      ensures key in trackers && trackers[key] == entry && entry.key == key
    {
      RegisterShape(trace, key, expireAt);
      hide Reach, Enabled, Collectable;
      assert key !in Model().index;
      entry := new TrackerEntry(key, expireAt);
      entries := entries + [entry];
      trackers := trackers[key := entry];
      trackersClosed := trackersClosed + 1;
      trace := trace + [Action.Register(key, expireAt)];
    }

    /** The rest of StartTracker, under the entry's mutex; `made` is the outcome of newTracker, numbered in
        order of creation.  Returns whether a live tracker existed. */
    method Enter(entry: TrackerEntry, ghost e: nat, made: Option<nat>) returns (alreadyExists: bool)
      requires Valid() && e < |entries| && entries[e] == entry
      requires Enabled(Model(), Action.Enter(e, made.Some?))
      requires made.Some? ==> made.value == |Model().made|
      modifies this`trace, entry
      ensures Valid() && trace == old(trace) + [Action.Enter(e, made.Some?)]
      ensures alreadyExists <==> old(entry.status) == Live
      ensures !alreadyExists && made.Some? ==> entry.status == Live && entry.tracker == made
    {
      EnterShape(trace, e, made.Some?);
      hide Reach;
      trace := trace + [Action.Enter(e, made.Some?)];
      if entry.status == Live {
        return true;
      }
      if made.None? {
        entry.status := Failed;
        return false;
      }
      entry.tracker := made;
      entry.status := Live;
      return false;
    }

    /** StopTracker's lookup.  Not found leaves the mutex locked. */
    method Stop(key: Key) returns (r: Lookup)
      requires Valid() && !Model().mutexHeld && !Model().crashed
      modifies this`trace
      ensures Valid()
      ensures trace == if shuttingDown then old(trace) else old(trace) + [Action.Stop(key)]
      ensures r == if shuttingDown then ErrClosed else if key in trackers then Found(trackers[key]) else ErrNotFound
      ensures Model().mutexHeld <==> r == ErrNotFound
    {
      if shuttingDown {
        return ErrClosed;
      }
      ReachStep(trace, Action.Stop(key));
      trace := trace + [Action.Stop(key)];
      r := if key in trackers then Found(trackers[key]) else ErrNotFound;
    }

    /** First half of a closing goroutine: an entry nobody has entered has a nil tracker, and closing that
        panics. */
    method BeginClose(entry: TrackerEntry, ghost e: nat) returns (start: CloseStart)
      requires Valid() && e < |entries| && entries[e] == entry && Enabled(Model(), Action.BeginClose(e))
      modifies this`trace, entry`status
      ensures Valid() && trace == old(trace) + [Action.BeginClose(e)]
      ensures start == match old(entry.status) case Init => NilTracker case Live => ToClose case _ => LeftAlone
      ensures start == ToClose ==> entry.status == Closing && Enabled(Model(), Action.EndClose(e))
      ensures start != ToClose ==> entry.status == old(entry.status)
      ensures Model().crashed <==> start == NilTracker
    {
      ReachBeginClose(trace, e);
      hide Reach, Step;
      trace := trace + [Action.BeginClose(e)];
      match entry.status {
        case Init =>
          start := NilTracker;
        case Live =>
          entry.status := Closing;
          start := ToClose;
        case _ =>
          start := LeftAlone;
      }
    }

    /** Second half: the tracker has been closed, whether or not that reported an error. */
    method EndClose(entry: TrackerEntry, ghost e: nat)
      requires Valid() && e < |entries| && entries[e] == entry && Enabled(Model(), Action.EndClose(e))
      modifies this`trace, this`trackersClosed, entry`status
      ensures Valid() && trace == old(trace) + [Action.EndClose(e)]
      ensures entry.status == Closed && trackersClosed == old(trackersClosed) - 1
    {
      ReachStep(trace, Action.EndClose(e));
      trace := trace + [Action.EndClose(e)];
      entry.status := Closed;
      trackersClosed := trackersClosed - 1;
    }

    /** One round of the collector: takes the failed and the expired entries out of the map and hands them
        to closing goroutines. */
    method Collect(now: int) returns (toClose: map<Key, TrackerEntry>)
      requires Valid() && !Model().mutexHeld && !Model().crashed && !shuttingDown
      modifies this`trackers, this`trace
      ensures Valid() && trace == old(trace) + [Action.Collect(now)]
      ensures trackers == old(trackers) - toClose.Keys
      ensures forall k :: k in toClose <==>
                k in old(trackers) && (old(trackers)[k].status == Failed || old(trackers)[k].expireAt <= now)
      ensures forall k :: k in toClose ==> toClose[k] == old(trackers)[k]
    {
      hide Reach, EntriesTrack, IndexTracks, Collectable;
      ghost var m := Model();
      EntriesOfKeys(trackers, entries, m);
      toClose := TakeExpired(now);
      CollectShape(trace, now, toClose.Keys);
      StillIndexed(old(trackers), entries, m.index, toClose.Keys);
      trace := trace + [Action.Collect(now)];
    }

    static lemma EntriesOfKeys(trackers: map<Key, TrackerEntry>, entries: seq<TrackerEntry>, m: State)
      requires EntriesTrack(entries, m.entries) && IndexTracks(trackers, entries, m.index)
      ensures forall k :: k in trackers <==> k in m.index
      ensures forall k :: k in m.index ==>
                && m.index[k] < |m.entries|
                && trackers[k].status == m.entries[m.index[k]].status && trackers[k].expireAt == m.entries[m.index[k]].expireAt
    {
    }

    static lemma StillIndexed(trackers: map<Key, TrackerEntry>, entries: seq<TrackerEntry>, index: map<Key, nat>,
                              gone: set<Key>)
      requires IndexTracks(trackers, entries, index)
      ensures IndexTracks(trackers - gone, entries, index - gone)
    {
    }

    method TakeExpired(now: int) returns (toClose: map<Key, TrackerEntry>)
      modifies this`trackers
      ensures trackers == old(trackers) - toClose.Keys
      ensures forall k :: k in toClose <==>
                k in old(trackers) && (old(trackers)[k].status == Failed || old(trackers)[k].expireAt <= now)
      ensures forall k :: k in toClose ==> toClose[k] == old(trackers)[k]
    {
      ghost var before := trackers;
      toClose := map[];
      var keys := trackers.Keys;
      while keys != {}
        invariant keys <= before.Keys
        invariant forall k :: k in toClose <==>
                    k in before && k !in keys && (before[k].status == Failed || before[k].expireAt <= now)
        invariant forall k :: k in trackers <==> k in before && k !in toClose
        invariant forall k :: k in toClose ==> toClose[k] == before[k]
        invariant forall k :: k in trackers ==> trackers[k] == before[k]
        decreases |keys|
      {
        var key :| key in keys;
        keys := keys - {key};
        var entry := trackers[key];
        if entry.status != Failed && now < entry.expireAt {
          continue;
        }
        toClose := toClose[key := entry];
        trackers := trackers - {key};
      }
    }

    /** The context is done: no more starts, and every entry in the map gets a closing goroutine. */
    method Shutdown()
      requires Valid() && !Model().mutexHeld && !Model().crashed && !shuttingDown
      modifies this`shuttingDown, this`trace
      ensures Valid() && shuttingDown && trace == old(trace) + [Action.Shutdown]
    {
      ReachStep(trace, Action.Shutdown);
      shuttingDown := true;
      trace := trace + [Action.Shutdown];
    }
  }
}
