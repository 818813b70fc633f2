/** The stored recordings of all rooms and the unique indexes on them: a room has at most one active
    recording, at most one recording without the active flag, and one recording for a key. */
module RecordStore {

  type Id = nat
  type Room = nat

  const NIL := 0  // uuid.Nil

  /** A recording started without a key is keyed by its own id. */
  datatype Key = NoKey | Named(name: string) | OfId(id: Id)

  datatype Recording = Recording(id: Id, room: Room, key: Key, active: bool)

  /** Two documents that no index allows beside each other. */
  predicate Clash(a: Recording, b: Recording) {
    a.id == b.id || (a.room == b.room && (a.active == b.active || a.key == b.key))
  }

  ghost predicate Indexed(s: seq<Recording>) {
    forall i, j :: 0 <= i < j < |s| ==> !Clash(s[i], s[j])
  }

  lemma NoClash(s: seq<Recording>, i: nat, j: nat)
    requires Indexed(s) && i < |s| && j < |s|
    ensures i != j ==> !Clash(s[i], s[j])
  {
  }

  /* ---------- FetchOrStart ---------- */

  datatype Outcome = Invalid | Duplicate | Fetched(recording: Recording) | Started(recording: Recording)

  predicate Wanted(r: Recording, room: Room, key: Key) {
    r.active && r.room == room && (key != NoKey ==> r.key == key)
  }

  /** The first document at or after i that satisfies the filter. */
  function FindWanted(s: seq<Recording>, room: Room, key: Key, i: nat): (k: nat)
    requires i <= |s|
    ensures i <= k <= |s| && (k < |s| ==> Wanted(s[k], room, key))
    ensures forall j :: i <= j < k ==> !Wanted(s[j], room, key)
    decreases |s| - i
  {
    if i == |s| || Wanted(s[i], room, key) then i else FindWanted(s, room, key, i + 1)
  }

  function NewRecording(id: Id, room: Room, key: Key): Recording {
    Recording(id, room, if key == NoKey then OfId(id) else key, true)
  }

  predicate ClashesWithAny(s: seq<Recording>, r: Recording) {
    exists i :: 0 <= i < |s| && Clash(s[i], r)
  }

  function StartOutcome(s: seq<Recording>, id: Id, room: Room, key: Key): Outcome {
    if id == NIL || room == NIL then Invalid
    else
      var k := FindWanted(s, room, key, 0);
      if k < |s| then Fetched(s[k])
      else if ClashesWithAny(s, NewRecording(id, room, key)) then Duplicate
      else Started(NewRecording(id, room, key))
  }

  function AfterStart(s: seq<Recording>, o: Outcome): seq<Recording> {
    if o.Started? then s + [o.recording] else s
  }

  ghost predicate HasActive(s: seq<Recording>, room: Room) {
    exists i :: 0 <= i < |s| && s[i].room == room && s[i].active
  }

  ghost predicate HasStopped(s: seq<Recording>, room: Room) {
    exists i :: 0 <= i < |s| && s[i].room == room && !s[i].active
  }

  ghost predicate UsesKey(s: seq<Recording>, room: Room, key: Key) {
    exists i :: 0 <= i < |s| && s[i].room == room && s[i].key == key
  }

  ghost predicate UsesId(s: seq<Recording>, id: Id) {
    exists i :: 0 <= i < |s| && s[i].id == id
  }

  /** A start without an id or a room is refused.  Any other fetches the room's active recording, exactly if there
      is one with the key asked for, or with any key if none was; it starts a new one exactly if the room has no
      active one and neither the id nor the key, which is the id if none was asked for, has been used. */
  lemma StartedIff(s: seq<Recording>, id: Id, room: Room, key: Key)
    requires Indexed(s)
    ensures var o := StartOutcome(s, id, room, key);
            var named := if key == NoKey then OfId(id) else key;
            && (o == Invalid <==> id == NIL || room == NIL)
            && (o.Fetched? <==>
                  && id != NIL && room != NIL
                  && exists i :: 0 <= i < |s| && s[i].room == room && s[i].active && (key == NoKey || s[i].key == key))
            && (o.Fetched? ==> o.recording in s && o.recording.room == room && o.recording.active)
            && (o.Started? <==> id != NIL && room != NIL && !HasActive(s, room) && !UsesKey(s, room, named) && !UsesId(s, id))
            && (o.Started? ==> o.recording == Recording(id, room, named, true))
            && AfterStart(s, o) == (if o.Started? then s + [o.recording] else s)
            && Indexed(AfterStart(s, o))
  {
    if id != NIL && room != NIL {
      var k := FindWanted(s, room, key, 0);
      WantedIffActive(s, room, key, k);
      if k == |s| { ClashesIff(s, id, room, key); }
    }
  }

  lemma WantedIffActive(s: seq<Recording>, room: Room, key: Key, k: nat)
    requires k == FindWanted(s, room, key, 0)
    ensures k < |s| <==> exists i :: 0 <= i < |s| && s[i].room == room && s[i].active && (key == NoKey || s[i].key == key)
    ensures k < |s| ==> HasActive(s, room) && s[k].room == room && s[k].active
  {
    assert k < |s| ==> Wanted(s[k], room, key);
    assert forall i :: 0 <= i < k ==> !Wanted(s[i], room, key);
  }

  lemma ClashesIff(s: seq<Recording>, id: Id, room: Room, key: Key)
    ensures var r := NewRecording(id, room, key);
            && r == Recording(id, room, if key == NoKey then OfId(id) else key, true)
            && (ClashesWithAny(s, r) <==> HasActive(s, room) || UsesKey(s, room, r.key) || UsesId(s, id))
            && (Indexed(s) && !ClashesWithAny(s, r) ==> Indexed(s + [r]))
  {
  }

  /* ---------- Stop ---------- */

  /** An empty field does not restrict. */
  datatype Lookup = Lookup(id: Id, room: Room, key: Key)

  /** What Stop changes: the documents found, if they are active. */
  predicate Stops(l: Lookup, r: Recording) {
    && r.active
    && (l.id != NIL ==> r.id == l.id) && (l.room != NIL ==> r.room == l.room) && (l.key != NoKey ==> r.key == l.key)
  }

  /** Without its active flag, document i would clash with another one. */
  predicate Blocked(s: seq<Recording>, i: nat)
    requires i < |s|
  {
    exists j :: 0 <= j < |s| && j != i && Clash(s[j], s[i].(active := false))
  }

  datatype StopResult = StopResult(records: seq<Recording>, modified: nat, ok: bool)

  /** UpdateMany: one document after the other, up to the first that an index refuses. */
  function StopFrom(s: seq<Recording>, l: Lookup, i: nat): (r: StopResult)
    requires i <= |s|
    ensures |r.records| == |s|
    decreases |s| - i
  {
    if i == |s| then StopResult(s, 0, true)
    else if !Stops(l, s[i]) then StopFrom(s, l, i + 1)
    else if Blocked(s, i) then StopResult(s, 0, false)
    else
      var rest := StopFrom(s[i := s[i].(active := false)], l, i + 1);
      rest.(modified := rest.modified + 1)
  }

  lemma StopOneKeepsIndexes(s: seq<Recording>, i: nat)
    requires Indexed(s) && i < |s| && !Blocked(s, i)
    ensures Indexed(s[i := s[i].(active := false)])
  {
  }

  /** A document is refused exactly if its room has a stopped recording already. */
  lemma BlockedIff(s: seq<Recording>, i: nat)
    requires Indexed(s) && i < |s| && s[i].active
    ensures Blocked(s, i) <==> HasStopped(s, s[i].room)
  {
  }

  /** Some document that Stop is asked to change lies in a room that has a stopped recording. */
  ghost predicate Refused(s: seq<Recording>, l: Lookup, i: nat) {
    exists j :: i <= j < |s| && Stops(l, s[j]) && HasStopped(s, s[j].room)
  }

  /** Only the looked-up active documents change, and only by losing the flag. */
  ghost predicate StoppedFrom(s: seq<Recording>, t: seq<Recording>, l: Lookup, i: nat) {
    && |t| == |s|
    && forall j :: 0 <= j < |s| ==> t[j] == s[j] || (i <= j && Stops(l, s[j]) && t[j] == s[j].(active := false))
  }

  ghost function Changed(s: seq<Recording>, t: seq<Recording>): set<nat> {
    set j: nat | j < |s| && j < |t| && t[j] != s[j]
  }

  /** What updating the documents from i on amounts to. */
  ghost predicate StopEffect(s: seq<Recording>, r: StopResult, l: Lookup, i: nat) {
    && r.modified == |Changed(s, r.records)|
    && Indexed(r.records) && StoppedFrom(s, r.records, l, i)
    && (r.ok <==> !Refused(s, l, i))
    && (r.ok ==> forall j :: i <= j < |s| && Stops(l, s[j]) ==> !r.records[j].active)
  }

  lemma SkipEffect(s: seq<Recording>, r: StopResult, l: Lookup, i: nat)
    requires i < |s| && !Stops(l, s[i]) && StopEffect(s, r, l, i + 1)
    ensures StopEffect(s, r, l, i)
  {
  }

  lemma RefusalEffect(s: seq<Recording>, l: Lookup, i: nat)
    requires Indexed(s) && i < |s| && Stops(l, s[i]) && HasStopped(s, s[i].room)
    ensures StopEffect(s, StopResult(s, 0, false), l, i)
  {
    assert Changed(s, s) == {};
  }

  lemma StopOneEffect(s: seq<Recording>, r: StopResult, l: Lookup, i: nat)
    requires Indexed(s) && i < |s| && Stops(l, s[i]) && !HasStopped(s, s[i].room)
    requires StopEffect(s[i := s[i].(active := false)], r, l, i + 1)
    ensures StopEffect(s, r.(modified := r.modified + 1), l, i)
  {
    StopsActive(l, s[i]);
    hide Indexed, Refused, Stops, HasStopped;
    RefusedAfterOne(s, l, i);
    var t := s[i := s[i].(active := false)];
    assert forall j :: 0 <= j < |s| && j != i ==> t[j] == s[j];
    assert r.records[i] == t[i];
    ChangedAfterOne(s, r.records, i);
    hide Changed;
  }

  lemma ChangedAfterOne(s: seq<Recording>, r: seq<Recording>, i: nat)
    requires i < |s| == |r| && s[i].active && r[i] == s[i].(active := false)
    ensures |Changed(s, r)| == |Changed(s[i := r[i]], r)| + 1
  {
    assert Changed(s, r) == Changed(s[i := r[i]], r) + {i} && i !in Changed(s[i := r[i]], r);
  }

  lemma StopFromEffect(s: seq<Recording>, l: Lookup, i: nat)
    requires Indexed(s) && i <= |s|
    ensures var r := StopFrom(s, l, i);
            && Indexed(r.records) && StoppedFrom(s, r.records, l, i)
            && (r.ok <==> !Refused(s, l, i))
            && (r.ok ==> forall j :: i <= j < |s| && Stops(l, s[j]) ==> !r.records[j].active)
  {
    StopFromHasEffect(s, l, i);
  }

  /** An active document the lookup finds: an empty field finds all. */
  ghost function Found(s: seq<Recording>, l: Lookup): set<nat> {
    set j: nat | j < |s| && s[j].active && (l.id == NIL || s[j].id == l.id) && (l.room == NIL || s[j].room == l.room)
                 && (l.key == NoKey || s[j].key == l.key)
  }

  /** The answer counts the documents changed, by losing the flag.  When it is no error these are exactly the active
      ones the lookup finds, so that none is counted exactly if there is none; an error means that one of
      them lies in a room with a stopped recording. */
  lemma StopAnswers(s: seq<Recording>, l: Lookup)
    requires Indexed(s)
    ensures var r := StopFrom(s, l, 0);
            && |r.records| == |s| && r.modified == |set j: nat | j < |s| && r.records[j] != s[j]|
            && (forall j: nat :: j < |s| && r.records[j] != s[j] ==> j in Found(s, l) && r.records[j] == s[j].(active := false))
            && (r.ok <==> forall j :: j in Found(s, l) ==> !HasStopped(s, s[j].room))
            && (r.ok ==> r.modified == |Found(s, l)| && forall j :: j in Found(s, l) ==> r.records[j] == s[j].(active := false))
  {
    var r := StopFrom(s, l, 0);
    StopFromHasEffect(s, l, 0);
    assert Changed(s, r.records) == set j: nat | j < |s| && r.records[j] != s[j];
    forall j: nat | j < |s| ensures j in Found(s, l) <==> Stops(l, s[j]) { }
    hide Indexed, HasStopped, Stops, Found;
    StopsActives(s, l);
    if r.ok { assert Changed(s, r.records) == Found(s, l); }
  }

  lemma StopsActives(s: seq<Recording>, l: Lookup)
    ensures forall j: nat :: j < |s| && Stops(l, s[j]) ==> s[j].active
    ensures forall j :: j in Found(s, l) ==> j < |s|
  {
  }

  lemma {:induction false} StopFromHasEffect(s: seq<Recording>, l: Lookup, i: nat)
    requires Indexed(s) && i <= |s|
    ensures StopEffect(s, StopFrom(s, l, i), l, i)
    decreases |s| - i
  {
    hide Indexed, Refused, Stops, Blocked, HasStopped, StopEffect;
    if i == |s| {
      NothingLeft(s, l);
    } else if !Stops(l, s[i]) {
      StopFromHasEffect(s, l, i + 1);
      SkipEffect(s, StopFrom(s, l, i + 1), l, i);
    } else {
      StopsActive(l, s[i]);
      BlockedIff(s, i);
      if Blocked(s, i) {
        RefusalEffect(s, l, i);
      } else {
        var t := s[i := s[i].(active := false)];
        var rest := StopFrom(t, l, i + 1);
        StopOneKeepsIndexes(s, i);
        StopFromHasEffect(t, l, i + 1);
        StopOneEffect(s, rest, l, i);
      }
    }
  }

  lemma NothingLeft(s: seq<Recording>, l: Lookup)
    requires Indexed(s)
    ensures StopEffect(s, StopResult(s, 0, true), l, |s|)
  {
    assert Changed(s, s) == {};
  }

  lemma StopsActive(l: Lookup, r: Recording)
    requires Stops(l, r)
    ensures r.active
  {
  }

  lemma RefusedAfterOne(s: seq<Recording>, l: Lookup, i: nat)
    requires Indexed(s) && i < |s| && Stops(l, s[i]) && !HasStopped(s, s[i].room)
    ensures Refused(s[i := s[i].(active := false)], l, i + 1) <==> Refused(s, l, i)
  {
    var t := s[i := s[i].(active := false)];
    forall j | i < j < |s| && Stops(l, s[j])
      ensures t[j] == s[j] && (HasStopped(t, s[j].room) <==> HasStopped(s, s[j].room))
    {
      NoClash(s, i, j);
      if HasStopped(s, s[j].room) {
        var m :| 0 <= m < |s| && s[m].room == s[j].room && !s[m].active;
        assert t[m] == s[m];
      }
    }
    if Refused(s, l, i) {
      var j :| i <= j < |s| && Stops(l, s[j]) && HasStopped(s, s[j].room);
      assert Stops(l, t[j]) && HasStopped(t, t[j].room);
    }
  }

  /* ---------- runs ---------- */

  datatype Action = Start(id: Id, room: Room, key: Key) | Stop(lookup: Lookup)

  function Step(s: seq<Recording>, a: Action): seq<Recording> {
    match a
    case Start(id, room, key) => AfterStart(s, StartOutcome(s, id, room, key))
    case Stop(l) => StopFrom(s, l, 0).records
  }

  function Run(s: seq<Recording>, actions: seq<Action>): seq<Recording>
    decreases |actions|
  {
    if actions == [] then s else Run(Step(s, actions[0]), actions[1..])
  }

  /** Recordings stay, and a stopped one stays as it is. */
  ghost predicate Evolves(s: seq<Recording>, t: seq<Recording>) {
    && |s| <= |t|
    && forall i :: 0 <= i < |s| ==> t[i] == s[i] || (s[i].active && t[i] == s[i].(active := false))
  }

  lemma StepKeepsIndexes(s: seq<Recording>, a: Action)
    requires Indexed(s)
    ensures Indexed(Step(s, a)) && Evolves(s, Step(s, a))
  {
    if a.Stop? { StopFromEffect(s, a.lookup, 0); }
  }

  lemma {:induction false} RunKeepsIndexes(s: seq<Recording>, actions: seq<Action>)
    requires Indexed(s)
    ensures Indexed(Run(s, actions)) && Evolves(s, Run(s, actions))
    decreases |actions|
  {
    if actions == [] {
    } else {
      StepKeepsIndexes(s, actions[0]);
      RunKeepsIndexes(Step(s, actions[0]), actions[1..]);
    }
  }

  /** A room finishes one recording and no more: after the first stop, whatever is started in the room later
      is active for ever, and every attempt to stop it fails. */
  lemma RoomFinishesOneRecording(s: seq<Recording>, actions: seq<Action>, i: nat, j: nat, l: Lookup)
    requires Indexed(s) && i < |s| && !s[i].active
    requires j < |Run(s, actions)| && j != i && Run(s, actions)[j].room == s[i].room
    ensures var t := Run(s, actions);
            && t[j].active && (Stops(l, t[j]) ==> !StopFrom(t, l, 0).ok)
  {
    RunKeepsIndexes(s, actions);
    var t := Run(s, actions);
    assert t[i] == s[i];
    NoClash(t, i, j);
    StopFromEffect(t, l, 0);
    assert HasStopped(t, t[j].room);
  }

  /** How that comes about: a second recording is started in a room after the first was stopped. */
  lemma UnstoppableRecordingExists(room: Room, one: string, two: string, later: seq<Action>, l: Lookup)
    requires room != NIL && one != two
    ensures var first := Recording(1, room, Named(one), false);
            var second := Recording(2, room, Named(two), true);
            var s := Run([], [Start(1, room, Named(one)), Stop(Lookup(1, room, NoKey)), Start(2, room, Named(two))]);
            && s == [first, second]
            && var t := Run(s, later);
               |t| >= 2 && t[1] == second && (Stops(l, second) ==> !StopFrom(t, l, 0).ok)
  {
    var first := Recording(1, room, Named(one), false);
    var second := Recording(2, room, Named(two), true);
    var s := [first, second];
    SecondIsStarted(room, one, two);
    RunKeepsIndexes(s, later);
    RoomFinishesOneRecording(s, later, 0, 1, l);
  }

  lemma SecondIsStarted(room: Room, one: string, two: string)
    requires room != NIL && one != two
    ensures Run([], [Start(1, room, Named(one)), Stop(Lookup(1, room, NoKey)), Start(2, room, Named(two))]) ==
            [Recording(1, room, Named(one), false), Recording(2, room, Named(two), true)]
  {
    var started := Recording(1, room, Named(one), true);
    var first := Recording(1, room, Named(one), false);
    var second := Recording(2, room, Named(two), true);
    var l := Lookup(1, room, NoKey);
    assert Step([], Start(1, room, Named(one))) == [started];
    assert Step([started], Stop(l)) == [first] by {
      assert [started][0 := first] == [first];
      assert StopFrom([first], l, 1) == StopResult([first], 0, true);
    }
    assert Step([first], Start(2, room, Named(two))) == [first, second] by {
      assert FindWanted([first], room, Named(two), 0) == 1;
    }
    hide Step;
    var rest := [Stop(l), Start(2, room, Named(two))];
    assert [Start(1, room, Named(one)), Stop(l), Start(2, room, Named(two))][1..] == rest;
    assert Run([started], rest) == Run([first], [Start(2, room, Named(two))]) == Run([first, second], []);
  }

  /* ---------- a room with one key ---------- */

  datatype Status = Missing | Active | Stopped

  ghost predicate OnlyKey(s: seq<Recording>, room: Room, key: Key) {
    forall i :: 0 <= i < |s| && s[i].room == room ==> s[i].key == key
  }

  /** The recording of a room in which only one key is used. */
  ghost function StatusOf(s: seq<Recording>, room: Room): Status {
    if HasActive(s, room) then Active else if HasStopped(s, room) then Stopped else Missing
  }

  /** Such a room goes from missing to active to stopped: starting is refused once the recording is stopped,
      stopping succeeds exactly on an active one. */
  lemma OneKeyLifecycle(s: seq<Recording>, id: Id, room: Room, key: Key)
    requires Indexed(s) && OnlyKey(s, room, key) && key != NoKey && id != NIL && room != NIL
    requires forall i :: 0 <= i < |s| ==> s[i].id != id && s[i].key != OfId(id)
    ensures var o := StartOutcome(s, id, room, key);
            var r := StopFrom(s, Lookup(NIL, room, key), 0);
            && (o.Started? <==> StatusOf(s, room) == Missing)
            && (o.Fetched? <==> StatusOf(s, room) == Active)
            && (o == Duplicate <==> StatusOf(s, room) == Stopped)
            && OnlyKey(AfterStart(s, o), room, key) && OnlyKey(r.records, room, key)
            && StatusOf(AfterStart(s, o), room) == (if o.Started? then Active else StatusOf(s, room))
            && r.ok && StatusOf(r.records, room) == (if StatusOf(s, room) == Active then Stopped else StatusOf(s, room))
  {
    var l := Lookup(NIL, room, key);
    StartedIff(s, id, room, key);
    StopFromEffect(s, l, 0);
    OneKeyOneRecording(s, room, key);
    StartChangesStatus(s, StartOutcome(s, id, room, key), room);
    StopChangesStatus(s, StopFrom(s, l, 0).records, room, key);
  }

  lemma OneKeyOneRecording(s: seq<Recording>, room: Room, key: Key)
    requires Indexed(s) && OnlyKey(s, room, key)
    ensures forall i, j :: 0 <= i < |s| && 0 <= j < |s| && s[i].room == room && s[j].room == room ==> i == j
    ensures !(HasActive(s, room) && HasStopped(s, room))
  {
  }

  lemma StartChangesStatus(s: seq<Recording>, o: Outcome, room: Room)
    requires o.Started? ==> o.recording.room == room && o.recording.active
    ensures StatusOf(AfterStart(s, o), room) == if o.Started? then Active else StatusOf(s, room)
  {
    if o.Started? { assert AfterStart(s, o)[|s|] == o.recording; }
  }

  lemma StopChangesStatus(s: seq<Recording>, t: seq<Recording>, room: Room, key: Key)
    requires Indexed(s) && OnlyKey(s, room, key) && room != NIL && key != NoKey
    requires StoppedFrom(s, t, Lookup(NIL, room, key), 0)
    requires forall j :: 0 <= j < |s| && Stops(Lookup(NIL, room, key), s[j]) ==> !t[j].active
    ensures StatusOf(t, room) == if StatusOf(s, room) == Active then Stopped else StatusOf(s, room)
  {
  }

  /* ---------- the repository ---------- */

  class Records {
    var records: seq<Recording>

    ghost predicate Valid()
      reads this
    {
      Indexed(records)
    }

    constructor ()
      ensures Valid() && records == []
    {
      records := [];
    }

    method Fetch(room: Room, key: Key) returns (k: nat)
      ensures k == FindWanted(records, room, key, 0)
    {
      k := 0;
      while k < |records| && !Wanted(records[k], room, key)
        invariant k <= |records| && FindWanted(records, room, key, 0) == FindWanted(records, room, key, k)
      {
        k := k + 1;
      }
    }

    method Clashes(r: Recording, except: nat) returns (found: bool)
      ensures found <==> exists i :: 0 <= i < |records| && i != except && Clash(records[i], r)
    {
      for i := 0 to |records|
        invariant forall j :: 0 <= j < i && j != except ==> !Clash(records[j], r)
      {
        if i != except && Clash(records[i], r) {
          return true;
        }
      }
      return false;
    }

    method FetchOrStart(id: Id, room: Room, key: Key) returns (o: Outcome)
      requires Valid()
      modifies this
      ensures Valid() && records == Step(old(records), Start(id, room, key))
      ensures o == StartOutcome(old(records), id, room, key)
    {
      StepKeepsIndexes(records, Start(id, room, key));
      if id == NIL || room == NIL {
        return Invalid;
      }
      var k := Fetch(room, key);
      if k < |records| {
        return Fetched(records[k]);
      }
      var r := Recording(id, room, if key == NoKey then OfId(id) else key, true);
      var clash := Clashes(r, |records|);
      if clash {
        return Duplicate;
      }
      records := records + [r];
      o := Started(r);
    }

    method Stop(l: Lookup) returns (modified: nat, ok: bool)
      requires Valid()
      modifies this
      ensures Valid() && records == Step(old(records), Action.Stop(l))
      ensures StopResult(records, modified, ok) == StopFrom(old(records), l, 0)
    {
      StepKeepsIndexes(records, Action.Stop(l));
      ghost var all := StopFrom(records, l, 0);
      modified := 0;
      var i := 0;
      while i < |records|
        invariant i <= |records|
        invariant all == (var r := StopFrom(records, l, i); r.(modified := r.modified + modified))
      {
        if Stops(l, records[i]) {
          var blocked := Clashes(records[i].(active := false), i);
          if blocked {
            return modified, false;
          }
          records := records[i := records[i].(active := false)];
          modified := modified + 1;
        }
        i := i + 1;
      }
      ok := true;
    }
  }
}
