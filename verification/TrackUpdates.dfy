/** Recordings and the update jobs that arrive for their tracks at least once, in any order. */
module TrackUpdates {
  import opened OrderedSets

  type Id = nat

  datatype Kind = RecordingStarted | RecordingFinished | ProcessingStarted | ProcessingFinished

  /** A stored recording; `active` is the flag that Stop unsets. */
  datatype Recording = Recording(active: bool, stopped: bool, lists: Lists)

  datatype Lists = Lists(recordingStarted: seq<Id>, recordingFinished: seq<Id>,
                         processingStarted: seq<Id>, processingFinished: seq<Id>)
  {
    function Of(k: Kind): seq<Id> {
      match k
      case RecordingStarted => recordingStarted
      case RecordingFinished => recordingFinished
      case ProcessingStarted => processingStarted
      case ProcessingFinished => processingFinished
    }

    /** $addToSet. */
    function AddTo(k: Kind, id: Id): (r: Lists)
      ensures forall j, x :: x in r.Of(j) <==> x in Of(j) || (j == k && x == id)
    {
      match k
      case RecordingStarted => this.(recordingStarted := Add(recordingStarted, id))
      case RecordingFinished => this.(recordingFinished := Add(recordingFinished, id))
      case ProcessingStarted => this.(processingStarted := Add(processingStarted, id))
      case ProcessingFinished => this.(processingFinished := Add(processingFinished, id))
    }
  }

  const NEW := Recording(true, false, Lists([], [], [], []))

  predicate Processed(l: Lists) {
    forall id :: id in l.recordingStarted ==> id in l.processingFinished
  }

  predicate Ready(r: Recording) { r.stopped && Processed(r.lists) }

  /** Records.IsReady. */
  method IsReady(l: Lists) returns (ready: bool)
    ensures ready <==> Processed(l)
  {
    if |l.recordingStarted| == 0 {
      return true;
    }
    var finished: set<Id> := {};
    for i := 0 to |l.processingFinished|
      invariant forall id :: id in finished <==> id in l.processingFinished[..i]
    {
      finished := finished + {l.processingFinished[i]};
      assert l.processingFinished[..i + 1] == l.processingFinished[..i] + [l.processingFinished[i]];
    }
    assert l.processingFinished[..|l.processingFinished|] == l.processingFinished;
    for i := 0 to |l.recordingStarted|
      invariant forall j :: 0 <= j < i ==> l.recordingStarted[j] in l.processingFinished
    {
      if l.recordingStarted[i] !in finished {
        return false;
      }
    }
    return true;
  }

  /* ---------- steps ---------- */

  /** `emitted`: the recordings RecordingReady was emitted for, in order. */
  datatype State = State(records: map<Id, Recording>, emitted: seq<Id>)

  /** Starts and stops are the ones that go through.  `sent`: whether the emitter would succeed. */
  datatype Action =
    | Start(rec: Id)
    | Stop(rec: Id)
    | Deliver(rec: Id, kind: Kind, id: Id, sent: bool)

  function Step(s: State, a: Action): State {
    match a
    case Start(r) => if r in s.records then s else s.(records := s.records[r := NEW])
    case Stop(r) =>
      if r in s.records && s.records[r].active then
        s.(records := s.records[r := s.records[r].(active := false, stopped := true)])
      else s
    case Deliver(r, k, id, sent) =>
      if r !in s.records then s
      else
        var updated := s.records[r].(lists := s.records[r].lists.AddTo(k, id));
        var t := s.(records := s.records[r := updated]);
        if Ready(updated) && sent then t.(emitted := s.emitted + [r]) else t
  }

  function Run(s: State, actions: seq<Action>): State
    decreases |actions|
  {
    if actions == [] then s else Step(Run(s, actions[..|actions| - 1]), actions[|actions| - 1])
  }

  lemma RunSnoc(s: State, actions: seq<Action>, a: Action)
    ensures Run(s, actions + [a]) == Step(Run(s, actions), a)
  {
  }

  /** Every action concerns its own recording.  A start makes a new one unless it is there; only a delivery emits,
      and at most once. */
  lemma StepFrame(s: State, a: Action)
    ensures var t := Step(s, a);
            && (forall r :: r != a.rec ==> (r in t.records <==> r in s.records))
            && (forall r :: r != a.rec && r in s.records ==> t.records[r] == s.records[r])
            && (a.Start? ==> t.records == if a.rec in s.records then s.records else s.records[a.rec := NEW])
            && (t.emitted == s.emitted || (a.Deliver? && t.emitted == s.emitted + [a.rec]))
  {
  }

  /* ---------- convergence ---------- */

  ghost predicate Delivered(actions: seq<Action>, rec: Id, k: Kind, id: Id) {
    exists sent :: Deliver(rec, k, id, sent) in actions
  }

  ghost predicate Listed(r: Recording, k: Kind, id: Id) { id in r.lists.Of(k) }

  /** The lists are the delivered ids, whatever the order and however often. */
  lemma {:induction false} ListsAreDelivered(s: State, actions: seq<Action>, rec: Id)
    requires rec in s.records
    ensures rec in Run(s, actions).records
    ensures forall k, id :: Listed(Run(s, actions).records[rec], k, id) <==>
                              Listed(s.records[rec], k, id) || Delivered(actions, rec, k, id)
    decreases |actions|
  {
    if actions == [] {
    } else {
      var before, a := actions[..|actions| - 1], actions[|actions| - 1];
      assert actions == before + [a];
      ListsAreDelivered(s, before, rec);
      forall k, id ensures Delivered(actions, rec, k, id) <==>
                             Delivered(before, rec, k, id) || (a.Deliver? && a.rec == rec && a.kind == k && a.id == id) {
        if a.Deliver? && a.rec == rec && a.kind == k && a.id == id { assert Deliver(rec, k, id, a.sent) in actions; }
        if Delivered(before, rec, k, id) {
          var sent :| Deliver(rec, k, id, sent) in before;
          assert Deliver(rec, k, id, sent) in actions;
        }
      }
    }
  }

  /** Any two runs that deliver the same updates agree on all four sets. */
  lemma UpdatesConverge(s: State, one: seq<Action>, other: seq<Action>, rec: Id, k: Kind)
    requires rec in s.records
    requires forall id :: Delivered(one, rec, k, id) <==> Delivered(other, rec, k, id)
    ensures rec in Run(s, one).records && rec in Run(s, other).records
    ensures Members(Run(s, one).records[rec].lists.Of(k)) == Members(Run(s, other).records[rec].lists.Of(k))
  {
    ListsAreDelivered(s, one, rec);
    ListsAreDelivered(s, other, rec);
    hide Run, Delivered;
    forall id ensures id in Run(s, one).records[rec].lists.Of(k) <==> id in Run(s, other).records[rec].lists.Of(k) {
      assert Listed(Run(s, one).records[rec], k, id) <==> Listed(Run(s, other).records[rec], k, id);
    }
  }

  /* ---------- when RecordingReady is emitted ---------- */

  /** A recording stays once it is there, and stays stopped. */
  lemma {:induction false} StoppedStays(s: State, actions: seq<Action>, rec: Id)
    requires rec in s.records
    ensures rec in Run(s, actions).records
    ensures s.records[rec].stopped ==> Run(s, actions).records[rec].stopped
    ensures s.records[rec].active && !s.records[rec].stopped ==>
              (Run(s, actions).records[rec].stopped <==> Stop(rec) in actions)
              && (Run(s, actions).records[rec].active <==> Stop(rec) !in actions)
    decreases |actions|
  {
    if actions == [] {
    } else {
      var before := actions[..|actions| - 1];
      assert actions == before + [actions[|actions| - 1]];
      StoppedStays(s, before, rec);
    }
  }

  /** Every track delivered as started has been delivered as processed. */
  ghost predicate AllProcessed(actions: seq<Action>, rec: Id) {
    forall id :: Delivered(actions, rec, RecordingStarted, id) ==> Delivered(actions, rec, ProcessingFinished, id)
  }

  /** The delivery at position i finds the recording stopped and completes it, and the emitter succeeds. */
  ghost predicate Completes(actions: seq<Action>, rec: Id, i: int) {
    && 0 <= i < |actions| && actions[i].Deliver? && actions[i].rec == rec && actions[i].sent
    && Stop(rec) in actions[..i] && AllProcessed(actions[..i + 1], rec)
  }

  ghost predicate New(s: State, rec: Id) {
    rec in s.records && s.records[rec] == NEW && rec !in s.emitted
  }

  lemma ProcessedIffDelivered(s: State, actions: seq<Action>, rec: Id)
    requires New(s, rec)
    ensures rec in Run(s, actions).records
    ensures Processed(Run(s, actions).records[rec].lists) <==> AllProcessed(actions, rec)
  {
    ListsAreDelivered(s, actions, rec);
    var l := Run(s, actions).records[rec].lists;
    forall id ensures id in l.recordingStarted <==> Delivered(actions, rec, RecordingStarted, id) {
      assert Listed(Run(s, actions).records[rec], RecordingStarted, id) <==> Delivered(actions, rec, RecordingStarted, id);
    }
    forall id ensures id in l.processingFinished <==> Delivered(actions, rec, ProcessingFinished, id) {
      assert Listed(Run(s, actions).records[rec], ProcessingFinished, id) <==> Delivered(actions, rec, ProcessingFinished, id);
    }
  }

  lemma StepEmits(s: State, rec: Id, before: seq<Action>, a: Action)
    requires New(s, rec)
    ensures rec in Run(s, before + [a]).emitted <==>
              rec in Run(s, before).emitted || Completes(before + [a], rec, |before|)
  {
    var actions := before + [a];
    RunSnoc(s, before, a);
    ProcessedIffDelivered(s, before, rec);
    ProcessedIffDelivered(s, actions, rec);
    StoppedStays(s, before, rec);
    assert actions[..|before| + 1] == actions && actions[..|before|] == before;
    hide Run, AllProcessed, Processed;
    var r := Run(s, before).records[rec];
    assert r.stopped <==> Stop(rec) in before;
  }

  lemma CompletesInPrefix(before: seq<Action>, a: Action, rec: Id, i: int)
    requires i < |before|
    ensures Completes(before + [a], rec, i) <==> Completes(before, rec, i)
  {
    if 0 <= i {
      assert (before + [a])[..i] == before[..i] && (before + [a])[..i + 1] == before[..i + 1];
    }
  }

  /** RecordingReady is emitted for a recording exactly if some update is delivered after the stop, by which
      time every started track has been processed. */
  lemma {:induction false} EmittedIff(s: State, rec: Id, actions: seq<Action>)
    requires New(s, rec)
    ensures rec in Run(s, actions).emitted <==> exists i :: Completes(actions, rec, i)
    decreases |actions|
  {
    if actions == [] {
    } else {
      var before, a := actions[..|actions| - 1], actions[|actions| - 1];
      assert actions == before + [a];
      EmittedIff(s, rec, before);
      StepEmits(s, rec, before, a);
      hide Run, Completes;
      forall i | i < |before| ensures Completes(actions, rec, i) <==> Completes(before, rec, i) {
        CompletesInPrefix(before, a, rec, i);
      }
      forall i | i >= |before| && i != |before| ensures !Completes(actions, rec, i) && !Completes(before, rec, i) {
        OutOfRange(actions, rec, i);
        OutOfRange(before, rec, i);
      }
      OutOfRange(before, rec, |before|);
    }
  }

  lemma OutOfRange(actions: seq<Action>, rec: Id, i: int)
    requires i >= |actions|
    ensures !Completes(actions, rec, i)
  {
  }

  /** So a run whose last update comes after the stop, with every track processed, does emit it. */
  lemma EmittedIfUpdatedAfterStop(s: State, rec: Id, before: seq<Action>, kind: Kind, id: Id)
    requires New(s, rec) && Stop(rec) in before
    requires AllProcessed(before + [Deliver(rec, kind, id, true)], rec)
    ensures rec in Run(s, before + [Deliver(rec, kind, id, true)]).emitted
  {
    var actions := before + [Deliver(rec, kind, id, true)];
    EmittedIff(s, rec, actions);
    assert actions[..|before|] == before && actions[..|before| + 1] == actions;
    assert Completes(actions, rec, |before|);
  }

  /** And a run in which every update comes before the stop never does, however complete the tracks are. */
  lemma NotEmittedIfStoppedLast(s: State, rec: Id, updates: seq<Action>)
    requires New(s, rec) && Stop(rec) !in updates
    ensures rec !in Run(s, updates + [Stop(rec)]).emitted
  {
    var actions := updates + [Stop(rec)];
    EmittedIff(s, rec, actions);
    forall i ensures !Completes(actions, rec, i) {
      if 0 <= i < |actions| {
        assert actions[..i] <= updates;
        assert forall x :: x in actions[..i] ==> x in updates;
      }
    }
  }

  /* ---------- the handler ---------- */

  datatype Disposition = Deleted | Retried

  class Recordings {
    var records: map<Id, Recording>
    var emitted: seq<Id>

    ghost function Model(): State
      reads this
    {
      State(records, emitted)
    }

    constructor ()
      ensures Model() == State(map[], [])
    {
      records, emitted := map[], [];
    }

    /** The handler of update jobs. */
    method UpdateRecordingTrack(rec: Id, kind: Kind, id: Id, sent: bool) returns (d: Disposition)
      modifies this
      ensures Model() == Step(old(Model()), Deliver(rec, kind, id, sent))
      ensures d == Retried <==> rec !in old(records) || (Ready(records[rec]) && !sent)
      ensures |emitted| > |old(emitted)| ==> d == Deleted
    {
      if rec !in records {
        return Retried;
      }
      var updated := records[rec].(lists := records[rec].lists.AddTo(kind, id));
      records := records[rec := updated];
      var ready := false;
      if updated.stopped {
        ready := IsReady(updated.lists);
      }
      if ready {
        if !sent {
          return Retried;
        }
        emitted := emitted + [rec];
      }
      d := Deleted;
    }
  }
}
