/** Starting and stopping a talk's recording through jobs that are delivered at least once: every database
    operation, emission and remote call is one step, and any number of workers interleave freely.  A talk
    has its own room, and its recording is keyed by the talk. */
module TalkPipeline {

  type Talk = nat

  datatype TalkState = LIVE | RECORDING | ENDED

  datatype RecordState = Active | Stopped

  datatype JobKind = StartJob | StopJob

  /** How far a worker has got.  `inserted`: this worker's upsert created the recording. */
  datatype Stage =
    | Upserting | StartingTracker(inserted: bool) | EmittingStop(inserted: bool) | MarkingRecording
    | StoppingRecord | StoppingTracker | EmittingStopped | MarkingEnded
    | Done

  datatype Worker = Worker(talk: Talk, stage: Stage)

  /** `jobs`: every job ever put; any of them may be delivered again at any time.  `histories`: the states each
      talk has been in.  `dropped`: talks whose recording was created by a worker that gave up before it had
      put the stop job; `emitted`: those whose creator put it; `userStops`: those a user's stop job was put for.
      `stops`: talks whose tracker was asked to stop, and whether it stopped or was not there any more. */
  datatype State = State(histories: map<Talk, seq<TalkState>>, records: map<Talk, RecordState>,
                         jobs: set<(JobKind, Talk)>, requests: set<(JobKind, Talk)>,
                         workers: seq<Worker>, dropped: set<Talk>, emitted: set<Talk>, userStops: set<Talk>,
                         stops: map<Talk, bool>)

  const INIT := State(map[], map[], {}, {}, [], {}, {}, {}, map[])

  datatype Action =
    | CreateTalk(talk: Talk)
    | Request(kind: JobKind, talk: Talk)  // the user's call reads the talk's state
    | PutJob(kind: JobKind, talk: Talk)   // and then emits
    | Deliver(kind: JobKind, talk: Talk)
    | Work(w: nat, ok: bool)              // the worker's next operation; not ok: it fails, and the job is retried

  function Current(s: State, t: Talk): TalkState
    requires t in s.histories && s.histories[t] != []
  {
    s.histories[t][|s.histories[t]| - 1]
  }

  predicate HasStopped(records: map<Talk, RecordState>, t: Talk) { t in records && records[t] == Stopped }

  /** UpdateOne with StateIn: no document in the expected state, no change. */
  function Transition(s: State, t: Talk, from: TalkState, to: TalkState): State {
    if t in s.histories && s.histories[t] != [] && Current(s, t) == from then
      s.(histories := s.histories[t := s.histories[t] + [to]])
    else s
  }

  function SetStage(s: State, w: nat, stage: Stage): State
    requires w < |s.workers|
  {
    s.(workers := s.workers[w := s.workers[w].(stage := stage)])
  }

  function Drop(s: State, t: Talk, inserted: bool): State {
    if inserted then s.(dropped := s.dropped + {t}) else s
  }

  /** startRecording, one operation. */
  function StartWork(s: State, w: nat, ok: bool): State
    requires w < |s.workers|
  {
    var t := s.workers[w].talk;
    match s.workers[w].stage
    case Upserting =>
      // A stopped recording has the same key, and the insert fails as a duplicate.
      if !ok || HasStopped(s.records, t) then SetStage(s, w, Done)
      else if t in s.records then SetStage(s, w, StartingTracker(false))
      else SetStage(s.(records := s.records[t := Active]), w, StartingTracker(true))
    case StartingTracker(inserted) =>
      if ok then SetStage(s, w, EmittingStop(inserted)) else SetStage(Drop(s, t, inserted), w, Done)
    case EmittingStop(inserted) =>
      if !inserted then SetStage(s, w, MarkingRecording)
      else if ok then SetStage(s.(jobs := s.jobs + {(StopJob, t)}, emitted := s.emitted + {t}), w, MarkingRecording)
      else SetStage(Drop(s, t, inserted), w, Done)
    case MarkingRecording => SetStage(if ok then Transition(s, t, LIVE, RECORDING) else s, w, Done)
    case _ => s
  }

  /** stopRecording, one operation. */
  function StopWork(s: State, w: nat, ok: bool): State
    requires w < |s.workers|
  {
    var t := s.workers[w].talk;
    match s.workers[w].stage
    case StoppingRecord =>
      if !ok then SetStage(s, w, Done)
      else if t in s.records && s.records[t] == Active then
        SetStage(s.(records := s.records[t := Stopped]), w, StoppingTracker)
      else SetStage(s, w, MarkingEnded)  // not found: probably stopped already
    case StoppingTracker => SetStage(s.(stops := s.stops[t := ok]), w, if ok then EmittingStopped else Done)
    case EmittingStopped => SetStage(s, w, if ok then MarkingEnded else Done)
    case MarkingEnded => SetStage(if ok then Transition(s, t, RECORDING, ENDED) else s, w, Done)
    case _ => s
  }

  predicate Stopping(stage: Stage) { stage in {StoppingRecord, StoppingTracker, EmittingStopped, MarkingEnded} }

  function WorkStep(s: State, w: nat, ok: bool): State
    requires w < |s.workers|
  {
    if Stopping(s.workers[w].stage) then StopWork(s, w, ok) else StartWork(s, w, ok)
  }

  function Expected(k: JobKind): TalkState { if k == StartJob then LIVE else RECORDING }

  function FirstStage(k: JobKind): Stage { if k == StartJob then Upserting else StoppingRecord }

  function Step(s: State, a: Action): State {
    match a
    case CreateTalk(t) => if t in s.histories then s else s.(histories := s.histories[t := [LIVE]])
    case Request(k, t) =>
      if t in s.histories && s.histories[t] != [] && Current(s, t) == Expected(k) then
        s.(requests := s.requests + {(k, t)})
      else s
    case PutJob(k, t) =>
      if (k, t) !in s.requests then s
      else s.(jobs := s.jobs + {(k, t)}, userStops := if k == StopJob then s.userStops + {t} else s.userStops)
    case Deliver(k, t) => if (k, t) in s.jobs then s.(workers := s.workers + [Worker(t, FirstStage(k))]) else s
    case Work(w, ok) => if w < |s.workers| then WorkStep(s, w, ok) else s
  }

  function Run(s: State, actions: seq<Action>): State
    decreases |actions|
  {
    if actions == [] then s else Run(Step(s, actions[0]), actions[1..])
  }

  /* ---------- invariant ---------- */

  /** What must be true of the recording for a worker to be where it is. */
  ghost predicate WorkerInv(s: State, x: Worker) {
    match x.stage
    case StartingTracker(_) => x.talk in s.records
    case EmittingStop(_) => x.talk in s.records
    case MarkingRecording => x.talk in s.records
    case StoppingRecord => x.talk in s.records
    case StoppingTracker => x.talk in s.records && s.records[x.talk] == Stopped
    case EmittingStopped => x.talk in s.records && s.records[x.talk] == Stopped
    case MarkingEnded => x.talk in s.records && s.records[x.talk] == Stopped
    case _ => true
  }

  ghost predicate TalkInv(s: State, t: Talk)
    requires t in s.histories
  {
    var h := s.histories[t];
    && (h == [LIVE] || h == [LIVE, RECORDING] || h == [LIVE, RECORDING, ENDED])
    && (|h| >= 2 ==> t in s.records)
    && (|h| == 3 ==> s.records[t] == Stopped)
  }

  /** The worker has created the recording and is on the way to put its stop job. */
  predicate Creating(stage: Stage) { stage == StartingTracker(true) || stage == EmittingStop(true) }

  ghost predicate Inserting(workers: seq<Worker>, t: Talk) {
    exists w :: 0 <= w < |workers| && workers[w].talk == t && Creating(workers[w].stage)
  }

  /** A recording has one creator, which is on the way to put the stop job, has put it, or has given up. */
  ghost predicate OriginInv(recorded: set<Talk>, workers: seq<Worker>, dropped: set<Talk>, emitted: set<Talk>) {
    && (forall t :: t in recorded <==> t in dropped || t in emitted || Inserting(workers, t))
    && dropped !! emitted
    && (forall w :: 0 <= w < |workers| && Creating(workers[w].stage) ==>
          workers[w].talk !in dropped && workers[w].talk !in emitted)
    && (forall v, w :: 0 <= v < w < |workers| && Creating(workers[v].stage) && Creating(workers[w].stage) ==>
          workers[v].talk != workers[w].talk)
  }

  /** A stop job comes from the creator of the recording or from the user. */
  ghost predicate SourceInv(s: State) {
    && OriginInv(s.records.Keys, s.workers, s.dropped, s.emitted)
    && forall t :: (StopJob, t) in s.jobs <==> t in s.emitted || t in s.userStops
  }

  ghost predicate StoppingNow(workers: seq<Worker>, t: Talk) {
    exists w :: 0 <= w < |workers| && workers[w] == Worker(t, StoppingTracker)
  }

  /** A stopped recording's tracker was asked to stop, or one worker is about to ask. */
  ghost predicate TrackerStopInv(records: map<Talk, RecordState>, workers: seq<Worker>, stops: map<Talk, bool>) {
    && (forall t :: HasStopped(records, t) <==> t in stops || StoppingNow(workers, t))
    && (forall v, w :: 0 <= v < w < |workers| && workers[v].stage == StoppingTracker == workers[w].stage ==>
          workers[v].talk != workers[w].talk)
    && (forall w :: 0 <= w < |workers| && workers[w].stage == StoppingTracker ==> workers[w].talk !in stops)
  }

  ghost predicate TalksInv(s: State) {
    forall t :: t in s.histories ==> TalkInv(s, t)
  }

  ghost predicate WorkersInv(s: State) {
    forall w :: 0 <= w < |s.workers| ==> WorkerInv(s, s.workers[w])
  }

  ghost predicate JobsInv(s: State) {
    forall t :: (StopJob, t) in s.jobs || (StopJob, t) in s.requests ==> t in s.records
  }

  ghost predicate Inv(s: State) {
    && TalksInv(s) && WorkersInv(s) && JobsInv(s) && SourceInv(s)
    && TrackerStopInv(s.records, s.workers, s.stops)
  }

  lemma OtherKeepsTalks(s: State, a: Action)
    requires TalksInv(s) && WorkersInv(s) && JobsInv(s) && !a.Work?
    ensures var r := Step(s, a); TalksInv(r) && WorkersInv(r) && JobsInv(r)
  {
  }

  lemma OtherKeepsSource(s: State, a: Action)
    requires SourceInv(s) && !a.Work?
    ensures SourceInv(Step(s, a))
  {
    hide OriginInv;
    if a.Deliver? && (a.kind, a.talk) in s.jobs {
      OriginOfMore(s.records.Keys, s.workers, s.dropped, s.emitted, Worker(a.talk, FirstStage(a.kind)));
    }
  }

  lemma OriginOfMore(recorded: set<Talk>, workers: seq<Worker>, dropped: set<Talk>, emitted: set<Talk>, x: Worker)
    requires OriginInv(recorded, workers, dropped, emitted) && !Creating(x.stage)
    ensures OriginInv(recorded, workers + [x], dropped, emitted)
  {
    forall t ensures Inserting(workers + [x], t) <==> Inserting(workers, t) {
      if Inserting(workers, t) {
        var w :| 0 <= w < |workers| && workers[w].talk == t && Creating(workers[w].stage);
        assert (workers + [x])[w] == workers[w];
      }
    }
  }

  /** What a worker's step does to the recordings and to where their stop jobs come from. */
  ghost predicate Sources(s: State, r: State, w: nat)
    requires w < |s.workers|
  {
    var x := s.workers[w];
    && |r.workers| == |s.workers| && r.workers == s.workers[w := Worker(x.talk, r.workers[w].stage)]
    && r.userStops == s.userStops
    && if Creating(x.stage) == Creating(r.workers[w].stage) then
         r.records.Keys == s.records.Keys && r.dropped == s.dropped && r.emitted == s.emitted && r.jobs == s.jobs
       else if Creating(x.stage) then
         && r.records.Keys == s.records.Keys
         && ((r.dropped == s.dropped + {x.talk} && r.emitted == s.emitted && r.jobs == s.jobs)
             || (r.dropped == s.dropped && r.emitted == s.emitted + {x.talk} && r.jobs == s.jobs + {(StopJob, x.talk)}))
       else
         && x.talk !in s.records && r.records.Keys == s.records.Keys + {x.talk}
         && r.dropped == s.dropped && r.emitted == s.emitted && r.jobs == s.jobs
  }

  lemma UpsertSources(s: State, w: nat, ok: bool)
    requires w < |s.workers| && s.workers[w].stage == Upserting
    ensures Sources(s, StartWork(s, w, ok), w)
  {
  }

  lemma EmitSources(s: State, w: nat, ok: bool)
    requires w < |s.workers| && (s.workers[w].stage.StartingTracker? || s.workers[w].stage.EmittingStop?)
    ensures Sources(s, StartWork(s, w, ok), w)
  {
  }

  lemma MarkSources(s: State, w: nat, ok: bool)
    requires w < |s.workers| && s.workers[w].stage in {MarkingRecording, Done}
    ensures Sources(s, StartWork(s, w, ok), w)
  {
  }

  lemma StartSources(s: State, w: nat, ok: bool)
    requires w < |s.workers| && !Stopping(s.workers[w].stage)
    ensures Sources(s, StartWork(s, w, ok), w)
  {
    hide Sources, StartWork;
    match s.workers[w].stage {
      case Upserting => UpsertSources(s, w, ok);
      case StartingTracker(_) => EmitSources(s, w, ok);
      case EmittingStop(_) => EmitSources(s, w, ok);
      case _ => MarkSources(s, w, ok);
    }
  }

  lemma StopSources(s: State, w: nat, ok: bool)
    requires w < |s.workers| && Stopping(s.workers[w].stage)
    ensures Sources(s, StopWork(s, w, ok), w)
  {
  }

  lemma WorkKeepsSource(s: State, w: nat, ok: bool)
    requires SourceInv(s) && w < |s.workers|
    ensures SourceInv(WorkStep(s, w, ok))
  {
    hide StartWork, StopWork, OriginInv, Creating;
    var r := WorkStep(s, w, ok);
    if Stopping(s.workers[w].stage) { StopSources(s, w, ok); } else { StartSources(s, w, ok); }
    OriginAfter(s, r, w);
  }

  lemma OriginAfter(s: State, r: State, w: nat)
    requires w < |s.workers| && Sources(s, r, w) && OriginInv(s.records.Keys, s.workers, s.dropped, s.emitted)
    ensures OriginInv(r.records.Keys, r.workers, r.dropped, r.emitted)
  {
    hide Creating, OriginInv;
    if Creating(s.workers[w].stage) == Creating(r.workers[w].stage) {
      OriginMoved(s.records.Keys, s.workers, s.dropped, s.emitted, w, r.workers[w].stage);
    } else if Creating(s.workers[w].stage) {
      OriginSettled(s.records.Keys, s.workers, s.dropped, s.emitted, w, r.workers[w].stage);
    } else {
      OriginCreated(s.records.Keys, s.workers, s.dropped, s.emitted, w, r.workers[w].stage);
    }
  }

  lemma InsertingElsewhere(workers: seq<Worker>, w: nat, x: Worker, t: Talk)
    requires w < |workers| && Inserting(workers, t) && (workers[w].talk != t || !Creating(workers[w].stage))
    ensures Inserting(workers[w := x], t)
  {
    var v :| 0 <= v < |workers| && workers[v].talk == t && Creating(workers[v].stage);
    assert workers[w := x][v] == workers[v];
  }

  lemma OriginMoved(recorded: set<Talk>, workers: seq<Worker>, dropped: set<Talk>, emitted: set<Talk>, w: nat,
                    stage: Stage)
    requires OriginInv(recorded, workers, dropped, emitted) && w < |workers|
    requires Creating(workers[w].stage) == Creating(stage)
    ensures OriginInv(recorded, workers[w := Worker(workers[w].talk, stage)], dropped, emitted)
  {
    hide Creating;
    var next := workers[w := Worker(workers[w].talk, stage)];
    forall t ensures Inserting(next, t) <==> Inserting(workers, t) {
      if Inserting(workers, t) {
        var v :| 0 <= v < |workers| && workers[v].talk == t && Creating(workers[v].stage);
        assert next[v].talk == t && Creating(next[v].stage);
      }
      if Inserting(next, t) {
        var v :| 0 <= v < |next| && next[v].talk == t && Creating(next[v].stage);
        assert workers[v].talk == t && Creating(workers[v].stage);
      }
    }
  }

  lemma OriginCreated(recorded: set<Talk>, workers: seq<Worker>, dropped: set<Talk>, emitted: set<Talk>, w: nat,
                      stage: Stage)
    requires OriginInv(recorded, workers, dropped, emitted) && w < |workers|
    requires !Creating(workers[w].stage) && Creating(stage) && workers[w].talk !in recorded
    ensures OriginInv(recorded + {workers[w].talk}, workers[w := Worker(workers[w].talk, stage)], dropped, emitted)
  {
    hide Creating;
    var mine := workers[w].talk;
    var next := workers[w := Worker(mine, stage)];
    assert Inserting(next, mine) by { assert next[w].talk == mine; }
    forall t | t != mine ensures Inserting(next, t) <==> Inserting(workers, t) {
      if Inserting(workers, t) { InsertingElsewhere(workers, w, next[w], t); }
    }
    forall v | 0 <= v < |workers| && Creating(workers[v].stage) ensures workers[v].talk != mine {
      assert Inserting(workers, workers[v].talk);
    }
  }

  lemma OriginSettled(recorded: set<Talk>, workers: seq<Worker>, dropped: set<Talk>, emitted: set<Talk>, w: nat,
                      stage: Stage)
    requires OriginInv(recorded, workers, dropped, emitted) && w < |workers|
    requires Creating(workers[w].stage) && !Creating(stage)
    ensures var t, next := workers[w].talk, workers[w := Worker(workers[w].talk, stage)];
            OriginInv(recorded, next, dropped + {t}, emitted) && OriginInv(recorded, next, dropped, emitted + {t})
  {
    hide Creating;
    var mine := workers[w].talk;
    var next := workers[w := Worker(mine, stage)];
    assert mine in recorded by { assert Inserting(workers, mine); }
    forall t | t != mine ensures Inserting(next, t) <==> Inserting(workers, t) {
      if Inserting(workers, t) { InsertingElsewhere(workers, w, next[w], t); }
    }
    assert !Inserting(next, mine);
  }

  /** Recordings stay, and stay stopped. */
  ghost predicate RecordsStay(s: State, r: State) {
    forall t :: t in s.records ==> t in r.records && (s.records[t] == Stopped ==> r.records[t] == Stopped)
  }

  /** One operation of a worker: the worker is where its recording allows it, and no other worker moves. */
  ghost predicate WorkerMoves(s: State, r: State, w: nat)
    requires w < |s.workers|
  {
    && RecordsStay(s, r) && r.requests == s.requests
    && |r.workers| == |s.workers| && r.workers == s.workers[w := r.workers[w]] && WorkerInv(r, r.workers[w])
    && (forall t :: (StopJob, t) in r.jobs ==> (StopJob, t) in s.jobs || t in r.records)
  }

  lemma StartMoves(s: State, w: nat, ok: bool)
    requires w < |s.workers| && WorkerInv(s, s.workers[w]) && !Stopping(s.workers[w].stage)
    ensures WorkerMoves(s, StartWork(s, w, ok), w)
  {
  }

  lemma StopMoves(s: State, w: nat, ok: bool)
    requires w < |s.workers| && WorkerInv(s, s.workers[w]) && Stopping(s.workers[w].stage)
    ensures WorkerMoves(s, StopWork(s, w, ok), w)
  {
  }

  lemma WorkKeepsWorkers(s: State, w: nat, ok: bool)
    requires WorkersInv(s) && JobsInv(s) && w < |s.workers|
    ensures var r := WorkStep(s, w, ok); WorkersInv(r) && JobsInv(r)
  {
    hide StartWork, StopWork;
    var r := WorkStep(s, w, ok);
    if Stopping(s.workers[w].stage) { StopMoves(s, w, ok); } else { StartMoves(s, w, ok); }
    forall v | 0 <= v < |r.workers| ensures WorkerInv(r, r.workers[v]) {
      assert WorkerInv(s, s.workers[v]);
    }
  }

  lemma StartKeepsTalks(s: State, w: nat, ok: bool)
    requires TalksInv(s) && w < |s.workers| && WorkerInv(s, s.workers[w]) && !Stopping(s.workers[w].stage)
    ensures TalksInv(StartWork(s, w, ok))
  {
    var r := StartWork(s, w, ok);
    forall t | t in r.histories ensures TalkInv(r, t) { assert TalkInv(s, t); }
  }

  lemma StopKeepsTalks(s: State, w: nat, ok: bool)
    requires TalksInv(s) && w < |s.workers| && WorkerInv(s, s.workers[w]) && Stopping(s.workers[w].stage)
    ensures TalksInv(StopWork(s, w, ok))
  {
    var r := StopWork(s, w, ok);
    forall t | t in r.histories ensures TalkInv(r, t) { assert TalkInv(s, t); }
  }

  lemma WorkKeepsTalks(s: State, w: nat, ok: bool)
    requires TalksInv(s) && WorkersInv(s) && w < |s.workers|
    ensures TalksInv(WorkStep(s, w, ok))
  {
    hide StartWork, StopWork, TalksInv, WorkerInv;
    if Stopping(s.workers[w].stage) { StopKeepsTalks(s, w, ok); } else { StartKeepsTalks(s, w, ok); }
  }

  lemma WorkKeepsTrackerStops(s: State, w: nat, ok: bool)
    requires TrackerStopInv(s.records, s.workers, s.stops) && w < |s.workers|
    ensures var r := WorkStep(s, w, ok); TrackerStopInv(r.records, r.workers, r.stops)
  {
    WorkShape(s, w, ok);
    var r := WorkStep(s, w, ok);
    var t := s.workers[w].talk;
    hide WorkStep, TrackerStopInv, HasStopped;
    if s.workers[w].stage == StoppingTracker {
      AskedKeepsStops(s.records, s.workers, s.stops, w, r.workers[w].stage, ok);
    } else if r.workers[w].stage == StoppingTracker {
      StoppedKeepsStops(s.records, s.workers, s.stops, w);
    } else {
      MovedKeepsStops(s.records, r.records, s.workers, s.stops, w, r.workers[w].stage);
    }
  }

  /** What a worker's step does to its stage, the stopped recordings and the stop requests. */
  ghost predicate Shape(s: State, r: State, w: nat, ok: bool)
    requires w < |s.workers|
  {
    var x := s.workers[w];
    && |r.workers| == |s.workers| && r.workers == s.workers[w := Worker(x.talk, r.workers[w].stage)]
    && (if x.stage == StoppingTracker then
          r.workers[w].stage != StoppingTracker && r.records == s.records && r.stops == s.stops[x.talk := ok]
        else if r.workers[w].stage == StoppingTracker then
          && x.talk in s.records && s.records[x.talk] == Active
          && r.records == s.records[x.talk := Stopped] && r.stops == s.stops
        else r.stops == s.stops && forall t :: HasStopped(r.records, t) <==> HasStopped(s.records, t))
  }

  lemma UpsertShape(s: State, w: nat, ok: bool)
    requires w < |s.workers| && s.workers[w].stage == Upserting
    ensures Shape(s, StartWork(s, w, ok), w, ok)
  {
  }

  lemma StartShape(s: State, w: nat, ok: bool)
    requires w < |s.workers| && !Stopping(s.workers[w].stage)
    ensures Shape(s, StartWork(s, w, ok), w, ok)
  {
    if s.workers[w].stage == Upserting {
      hide StartWork, Shape;
      UpsertShape(s, w, ok);
    }
  }

  lemma StopShape(s: State, w: nat, ok: bool)
    requires w < |s.workers| && Stopping(s.workers[w].stage)
    ensures Shape(s, StopWork(s, w, ok), w, ok)
  {
  }

  lemma WorkShape(s: State, w: nat, ok: bool)
    requires w < |s.workers|
    ensures Shape(s, WorkStep(s, w, ok), w, ok)
  {
    hide Shape, StartWork, StopWork;
    if Stopping(s.workers[w].stage) { StopShape(s, w, ok); } else { StartShape(s, w, ok); }
  }

  lemma MovedKeepsStops(records: map<Talk, RecordState>, records': map<Talk, RecordState>, workers: seq<Worker>,
                        stops: map<Talk, bool>, w: nat, stage: Stage)
    requires TrackerStopInv(records, workers, stops) && w < |workers|
    requires workers[w].stage != StoppingTracker && stage != StoppingTracker
    requires forall t :: HasStopped(records', t) <==> HasStopped(records, t)
    ensures TrackerStopInv(records', workers[w := Worker(workers[w].talk, stage)], stops)
  {
    hide HasStopped;
    var next := workers[w := Worker(workers[w].talk, stage)];
    forall t ensures StoppingNow(next, t) <==> StoppingNow(workers, t) {
      if StoppingNow(workers, t) {
        var v :| 0 <= v < |workers| && workers[v] == Worker(t, StoppingTracker);
        assert next[v] == workers[v];
      }
    }
  }

  lemma AskedKeepsStops(records: map<Talk, RecordState>, workers: seq<Worker>, stops: map<Talk, bool>, w: nat,
                        stage: Stage, ok: bool)
    requires TrackerStopInv(records, workers, stops) && w < |workers|
    requires workers[w].stage == StoppingTracker && stage != StoppingTracker
    ensures TrackerStopInv(records, workers[w := Worker(workers[w].talk, stage)], stops[workers[w].talk := ok])
  {
    hide HasStopped;
    var next := workers[w := Worker(workers[w].talk, stage)];
    assert HasStopped(records, workers[w].talk);
    forall t | t != workers[w].talk ensures StoppingNow(next, t) <==> StoppingNow(workers, t) {
      if StoppingNow(workers, t) {
        var v :| 0 <= v < |workers| && workers[v] == Worker(t, StoppingTracker);
        assert next[v] == workers[v];
      }
    }
  }

  lemma StoppedKeepsStops(records: map<Talk, RecordState>, workers: seq<Worker>, stops: map<Talk, bool>, w: nat)
    requires TrackerStopInv(records, workers, stops) && w < |workers|
    requires workers[w].talk in records && records[workers[w].talk] == Active
    ensures var t := workers[w].talk;
            TrackerStopInv(records[t := Stopped], workers[w := Worker(t, StoppingTracker)], stops)
  {
    var mine := workers[w].talk;
    var next := workers[w := Worker(mine, StoppingTracker)];
    assert !HasStopped(records, mine);
    forall t | t != mine ensures StoppingNow(next, t) <==> StoppingNow(workers, t) {
      if StoppingNow(workers, t) {
        var v :| 0 <= v < |workers| && workers[v] == Worker(t, StoppingTracker);
        assert next[v] == workers[v];
      }
    }
    assert next[w] == Worker(mine, StoppingTracker);
    assert forall v :: 0 <= v < |workers| && workers[v].stage == StoppingTracker ==> workers[v].talk != mine by {
      forall v | 0 <= v < |workers| && workers[v].stage == StoppingTracker ensures workers[v].talk != mine {
        assert workers[v] == Worker(workers[v].talk, StoppingTracker);
        assert StoppingNow(workers, workers[v].talk);
      }
    }
  }

  lemma OtherKeepsTrackerStops(s: State, a: Action)
    requires TrackerStopInv(s.records, s.workers, s.stops) && !a.Work?
    ensures var r := Step(s, a); TrackerStopInv(r.records, r.workers, r.stops)
  {
    var r := Step(s, a);
    assert r.records == s.records && r.stops == s.stops;
    forall t ensures StoppingNow(r.workers, t) <==> StoppingNow(s.workers, t) {
      if StoppingNow(s.workers, t) {
        var v :| 0 <= v < |s.workers| && s.workers[v] == Worker(t, StoppingTracker);
        assert r.workers[v] == s.workers[v];
      }
    }
  }

  lemma StepKeepsInv(s: State, a: Action)
    requires Inv(s)
    ensures Inv(Step(s, a))
  {
    hide TalksInv, WorkersInv, JobsInv, SourceInv, TrackerStopInv, WorkStep;
    if a.Work? {
      if a.w < |s.workers| {
        WorkKeepsTalks(s, a.w, a.ok);
        WorkKeepsWorkers(s, a.w, a.ok);
        WorkKeepsSource(s, a.w, a.ok);
        WorkKeepsTrackerStops(s, a.w, a.ok);
      }
    } else {
      OtherKeepsTrackerStops(s, a);
      OtherKeepsSource(s, a);
      OtherKeepsTalks(s, a);
    }
  }

  lemma {:induction false} RunKeepsInv(s: State, actions: seq<Action>)
    requires Inv(s)
    ensures Inv(Run(s, actions))
    decreases |actions|
  {
    if actions == [] {
    } else {
      StepKeepsInv(s, actions[0]);
      RunKeepsInv(Step(s, actions[0]), actions[1..]);
    }
  }

  /* ---------- theorems ---------- */

  /** Over every interleaving of duplicated, delayed and retried jobs, a talk only ever moves along LIVE,
      RECORDING, ENDED, each at most once; past LIVE it has a recording, and it has ended only once that
      recording was stopped. */
  lemma TalksMoveForward(actions: seq<Action>, t: Talk)
    requires t in Run(INIT, actions).histories
    ensures var s := Run(INIT, actions);
            && s.histories[t] <= [LIVE, RECORDING, ENDED] && s.histories[t] != []
            && (Current(s, t) != LIVE ==> t in s.records)
            && (Current(s, t) == ENDED ==> s.records[t] == Stopped)
  {
    RunKeepsInv(INIT, actions);
    assert TalkInv(Run(INIT, actions), t);
  }

  /** Histories only grow. */
  lemma {:induction false} HistoriesGrow(s: State, actions: seq<Action>, t: Talk)
    requires t in s.histories
    ensures t in Run(s, actions).histories && s.histories[t] <= Run(s, actions).histories[t]
    decreases |actions|
  {
    hide Step;
    if actions == [] {
    } else {
      StepGrowsHistory(s, actions[0], t);
      HistoriesGrow(Step(s, actions[0]), actions[1..], t);
    }
  }

  ghost predicate Grown(s: State, r: State, t: Talk)
    requires t in s.histories
  {
    t in r.histories && s.histories[t] <= r.histories[t]
  }

  lemma StartWorkGrows(s: State, w: nat, ok: bool, t: Talk)
    requires t in s.histories && w < |s.workers|
    ensures Grown(s, StartWork(s, w, ok), t)
  {
  }

  lemma StopWorkGrows(s: State, w: nat, ok: bool, t: Talk)
    requires t in s.histories && w < |s.workers|
    ensures Grown(s, StopWork(s, w, ok), t)
  {
  }

  lemma StepGrowsHistory(s: State, a: Action, t: Talk)
    requires t in s.histories
    ensures t in Step(s, a).histories && s.histories[t] <= Step(s, a).histories[t]
  {
    hide StartWork, StopWork;
    if a.Work? && a.w < |s.workers| {
      StartWorkGrows(s, a.w, a.ok, t);
      StopWorkGrows(s, a.w, a.ok, t);
    }
  }

  /** The user's call goes through only in the state it is meant for, and puts a job only after that. */
  lemma RequestIff(s: State, k: JobKind, t: Talk)
    ensures var r := Step(s, Request(k, t));
            && r == s.(requests := r.requests)
            && r.requests == s.requests +
                 (if t in s.histories && s.histories[t] != []
                     && s.histories[t][|s.histories[t]| - 1] == (if k == StartJob then LIVE else RECORDING)
                  then {(k, t)} else {})
  {
  }

  ghost predicate AskedFor(s: State) {
    && (forall t: Talk :: (StartJob, t) in s.jobs ==> (StartJob, t) in s.requests)
    && (forall k, t: Talk :: (k, t) in s.requests ==> t in s.histories)
  }

  lemma WorkKeepsAsked(s: State, w: nat, ok: bool)
    requires AskedFor(s) && w < |s.workers|
    ensures AskedFor(WorkStep(s, w, ok))
  {
    var r := WorkStep(s, w, ok);
    assert r.requests == s.requests && s.histories.Keys == r.histories.Keys;
  }

  /** Over every run, a start job was asked for, for a talk that exists. */
  lemma {:induction false} JobsAreAskedFor(s: State, actions: seq<Action>)
    requires AskedFor(s)
    ensures AskedFor(Run(s, actions))
    decreases |actions|
  {
    if actions == [] {
    } else {
      if actions[0].Work? && actions[0].w < |s.workers| { WorkKeepsAsked(s, actions[0].w, actions[0].ok); }
      hide WorkStep, Run;
      assert AskedFor(Step(s, actions[0]));
      JobsAreAskedFor(Step(s, actions[0]), actions[1..]);
      RunCons(s, actions[0], actions[1..]);
      assert [actions[0]] + actions[1..] == actions;
    }
  }

  /** An operation that fails leaves talks, recordings and jobs as they are, and its job is to be tried again.  Only a
      failed stop of the tracker is remembered, and that the creator of a recording has given up. */
  lemma FailedOperation(s: State, w: nat)
    requires w < |s.workers| && s.workers[w].stage !in {Done, EmittingStop(false)}
    ensures var r := Step(s, Work(w, false));
            var x := s.workers[w];
            && r == s.(workers := s.workers[w := Worker(x.talk, Done)], dropped := r.dropped, stops := r.stops)
            && r.dropped == (if Creating(x.stage) then s.dropped + {x.talk} else s.dropped)
            && r.stops == (if x.stage == StoppingTracker then s.stops[x.talk := false] else s.stops)
  {
  }

  /** Once no worker is between creating the recording and emitting, a recording lacks its stop job exactly if
      the worker that created it gave up in between and no stop job of the user has been put either. */
  lemma RecordingsHaveStopJobs(actions: seq<Action>, t: Talk)
    requires t in Run(INIT, actions).records && !Inserting(Run(INIT, actions).workers, t)
    ensures var s := Run(INIT, actions);
            (StopJob, t) !in s.jobs <==> t in s.dropped && t !in s.userStops
  {
    RunKeepsInv(INIT, actions);
  }

  /** However often jobs are delivered, the tracker of a recording is asked to stop at most once: what came of
      it is never overwritten.  A job retried because the tracker did not stop finds the recording stopped,
      and leaves the tracker alone. */
  lemma TrackerStopIsAskedOnce(actions: seq<Action>, later: seq<Action>, t: Talk)
    requires t in Run(INIT, actions).stops
    ensures t in Run(INIT, actions + later).stops
    ensures Run(INIT, actions + later).stops[t] == Run(INIT, actions).stops[t]
  {
    RunKeepsInv(INIT, actions);
    RunConcat(INIT, actions, later);
    StopsAreFinal(Run(INIT, actions), later, t);
  }

  lemma {:induction false} StopsAreFinal(s: State, actions: seq<Action>, t: Talk)
    requires Inv(s) && t in s.stops
    ensures t in Run(s, actions).stops && Run(s, actions).stops[t] == s.stops[t]
    decreases |actions|
  {
    if actions == [] {
    } else {
      StepKeepsInv(s, actions[0]);
      StepKeepsStop(s, actions[0], t);
      hide Step, Inv;
      StopsAreFinal(Step(s, actions[0]), actions[1..], t);
    }
  }

  lemma StepKeepsStop(s: State, a: Action, t: Talk)
    requires TrackerStopInv(s.records, s.workers, s.stops) && t in s.stops
    ensures t in Step(s, a).stops && Step(s, a).stops[t] == s.stops[t]
  {
    if a.Work? && a.w < |s.workers| { WorkShape(s, a.w, a.ok); }
    hide WorkStep;
  }

  /** A talk that has ended had its tracker asked to stop, unless a worker is still about to. */
  lemma EndedTalksAskedTheTracker(actions: seq<Action>, t: Talk)
    requires t in Run(INIT, actions).histories && Run(INIT, actions).histories[t] == [LIVE, RECORDING, ENDED]
    ensures t in Run(INIT, actions).stops || StoppingNow(Run(INIT, actions).workers, t)
  {
    RunKeepsInv(INIT, actions);
    assert TalkInv(Run(INIT, actions), t) && HasStopped(Run(INIT, actions).records, t);
  }

  /** A start job delivered to a live talk, with every operation succeeding and nobody in between, gets the
      talk recorded exactly if its recording has not been stopped; a recording it creates has its stop job. */
  lemma StartJobRecordsIff(s: State, t: Talk)
    requires (StartJob, t) in s.jobs && t in s.histories && s.histories[t] == [LIVE]
    ensures var w := |s.workers|;
            var r := Run(s, [Deliver(StartJob, t), Work(w, true), Work(w, true), Work(w, true), Work(w, true)]);
            && t in r.histories
            && (r.histories[t] == [LIVE, RECORDING] <==> !HasStopped(s.records, t))
            && (!HasStopped(s.records, t) ==> t in r.records && (t in s.records || (StopJob, t) in r.jobs))
            && (HasStopped(s.records, t) ==> r.histories == s.histories && r.records == s.records)
  {
    var w := |s.workers|;
    var a := Work(w, true);
    var s0 := Step(s, Deliver(StartJob, t));
    var s1 := Step(s0, a);
    RunCons(s, Deliver(StartJob, t), [a, a, a, a]);
    assert [Deliver(StartJob, t)] + [a, a, a, a] == [Deliver(StartJob, t), a, a, a, a];
    FourSteps(s0, a, a, a, a);
    if HasStopped(s.records, t) {
      assert s1.workers[w] == Worker(t, Done);
      DoneStays(s1, w);
    } else {
      StartsTracking(s0, w, t);
    }
  }

  lemma StartsTracking(s: State, w: nat, t: Talk)
    requires w < |s.workers| && s.workers[w] == Worker(t, Upserting) && !HasStopped(s.records, t)
    requires t in s.histories && s.histories[t] == [LIVE]
    ensures var a := Work(w, true);
            var r := Step(Step(Step(Step(s, a), a), a), a);
            && t in r.histories && r.histories[t] == [LIVE, RECORDING]
            && t in r.records && (t in s.records || (StopJob, t) in r.jobs)
  {
    var a := Work(w, true);
    var new_ := t !in s.records;
    var s1 := Step(s, a);
    assert s1.workers[w] == Worker(t, StartingTracker(new_)) && t in s1.records && s1.histories == s.histories;
    TracksAndMarks(s1, w, t, new_);
  }

  lemma TracksAndMarks(s: State, w: nat, t: Talk, inserted: bool)
    requires w < |s.workers| && s.workers[w] == Worker(t, StartingTracker(inserted))
    requires t in s.histories && s.histories[t] == [LIVE]
    ensures var a := Work(w, true);
            var r := Step(Step(Step(s, a), a), a);
            && t in r.histories && r.histories[t] == [LIVE, RECORDING]
            && r.records == s.records && (inserted ==> (StopJob, t) in r.jobs)
  {
    var a := Work(w, true);
    var s1 := Step(s, a);
    assert s1 == SetStage(s, w, EmittingStop(inserted));
    var s2 := Step(s1, a);
    assert s2.workers[w] == Worker(t, MarkingRecording) && s2.histories == s.histories && s2.records == s.records;
    assert [LIVE] + [RECORDING] == [LIVE, RECORDING];
  }

  /** A stop job delivered to a talk being recorded, with every operation succeeding, ends the talk. */
  lemma StopJobEndsTalk(s: State, t: Talk)
    requires Inv(s) && (StopJob, t) in s.jobs && t in s.histories && s.histories[t] == [LIVE, RECORDING]
    ensures var w := |s.workers|;
            var r := Run(s, [Deliver(StopJob, t), Work(w, true), Work(w, true), Work(w, true), Work(w, true)]);
            t in r.histories && r.histories[t] == [LIVE, RECORDING, ENDED] && HasStopped(r.records, t)
  {
    var w := |s.workers|;
    var a := Work(w, true);
    assert TalkInv(s, t);
    var s0 := Step(s, Deliver(StopJob, t));
    RunCons(s, Deliver(StopJob, t), [a, a, a, a]);
    assert [Deliver(StopJob, t)] + [a, a, a, a] == [Deliver(StopJob, t), a, a, a, a];
    FourSteps(s0, a, a, a, a);
    StopsAndMarks(s0, w, t);
  }

  lemma StopsAndMarks(s: State, w: nat, t: Talk)
    requires w < |s.workers| && s.workers[w] == Worker(t, StoppingRecord) && t in s.records
    requires t in s.histories && s.histories[t] == [LIVE, RECORDING]
    ensures var a := Work(w, true);
            var r := Step(Step(Step(Step(s, a), a), a), a);
            t in r.histories && r.histories[t] == [LIVE, RECORDING, ENDED] && HasStopped(r.records, t)
  {
    var a := Work(w, true);
    var s1 := Step(s, a);
    assert HasStopped(s1.records, t) && s1.histories == s.histories && s1.workers[w].talk == t;
    EndsFrom(s1, w, t);
  }

  /** A worker that has found or made the recording stopped ends the talk. */
  lemma EndsFrom(s: State, w: nat, t: Talk)
    requires w < |s.workers| && s.workers[w].talk == t && HasStopped(s.records, t)
    requires s.workers[w].stage in {StoppingTracker, EmittingStopped, MarkingEnded}
    requires t in s.histories && s.histories[t] == [LIVE, RECORDING]
    ensures var a := Work(w, true);
            var r := Step(Step(Step(s, a), a), a);
            t in r.histories && r.histories[t] == [LIVE, RECORDING, ENDED] && HasStopped(r.records, t)
  {
    var a := Work(w, true);
    var s1 := Step(s, a);
    var s2 := Step(s1, a);
    EndingMoves(s, w, t);
    EndingMoves(s1, w, t);
    EndingMoves(s2, w, t);
    hide Step;
    DoneStays(s1, w);
    DoneStays(s2, w);
  }

  lemma EndingMoves(s: State, w: nat, t: Talk)
    ensures var r := Step(s, Work(w, true));
            w < |s.workers| && s.workers[w].talk == t && t in s.histories && s.histories[t] == [LIVE, RECORDING] ==>
              && w < |r.workers| && r.workers[w].talk == t && t in r.histories
              && (s.workers[w].stage == StoppingTracker ==>
                    r.workers[w].stage == EmittingStopped && r.histories == s.histories && r.records == s.records)
              && (s.workers[w].stage == EmittingStopped ==>
                    r.workers[w].stage == MarkingEnded && r.histories == s.histories && r.records == s.records)
              && (s.workers[w].stage == MarkingEnded ==>
                    r.workers[w].stage == Done && r.histories[t] == [LIVE, RECORDING, ENDED] && r.records == s.records)
  {
    assert [LIVE, RECORDING] + [ENDED] == [LIVE, RECORDING, ENDED];
  }

  /** A talk left live with its recording stopped, and no worker about to mark it as recording. */
  ghost predicate Stranded(s: State, t: Talk) {
    && t in s.histories && s.histories[t] == [LIVE] && HasStopped(s.records, t)
    && forall w :: 0 <= w < |s.workers| && s.workers[w].talk == t ==>
         Stopping(s.workers[w].stage) || s.workers[w].stage in {Upserting, Done}
  }

  lemma StrandedStartWork(s: State, t: Talk, w: nat, ok: bool)
    requires Stranded(s, t) && w < |s.workers| && !Stopping(s.workers[w].stage)
    ensures Stranded(StartWork(s, w, ok), t)
  {
    assert s.workers[w].talk == t ==> s.workers[w].stage in {Upserting, Done};
  }

  lemma StrandedStopWork(s: State, t: Talk, w: nat, ok: bool)
    requires Stranded(s, t) && w < |s.workers| && Stopping(s.workers[w].stage)
    ensures Stranded(StopWork(s, w, ok), t)
  {
  }

  lemma StrandedStep(s: State, t: Talk, a: Action)
    requires Stranded(s, t)
    ensures Stranded(Step(s, a), t)
  {
    hide StartWork, StopWork;
    if a.Work? && a.w < |s.workers| {
      if Stopping(s.workers[a.w].stage) { StrandedStopWork(s, t, a.w, a.ok); } else { StrandedStartWork(s, t, a.w, a.ok); }
    }
  }

  /** Such a talk is never recorded again, whoever asks: the key of its recording is taken. */
  lemma {:induction false} StrandedStaysLive(s: State, t: Talk, actions: seq<Action>)
    requires Stranded(s, t)
    ensures Stranded(Run(s, actions), t)
    decreases |actions|
  {
    if actions == [] {
    } else {
      StrandedStep(s, t, actions[0]);
      StrandedStaysLive(Step(s, actions[0]), t, actions[1..]);
    }
  }

  predicate HasBeenRecorded(s: State, t: Talk) { t in s.histories && RECORDING in s.histories[t] }

  /** From every reachable state, a talk that is still live can be recorded exactly if it is not stranded. */
  lemma LiveTalkRecordsIff(actions: seq<Action>, t: Talk)
    requires t in Run(INIT, actions).histories && Run(INIT, actions).histories[t] == [LIVE]
    ensures var s := Run(INIT, actions);
            (exists later :: HasBeenRecorded(Run(s, later), t)) <==> !Stranded(s, t)
  {
    var s := Run(INIT, actions);
    hide Run, Step;
    if Stranded(s, t) {
      forall later ensures !HasBeenRecorded(Run(s, later), t) { StrandedStaysLive(s, t, later); }
    } else if HasStopped(s.records, t) {
      var w :| 0 <= w < |s.workers| && s.workers[w].talk == t
               && !(Stopping(s.workers[w].stage) || s.workers[w].stage in {Upserting, Done});
      MarksFrom(s, w, t);
      assert HasBeenRecorded(Run(s, [Work(w, true), Work(w, true), Work(w, true)]), t);
    } else {
      UserStarts(s, t);
    }
  }

  /** The user's start, delivered undisturbed. */
  lemma UserStarts(s: State, t: Talk)
    requires t in s.histories && s.histories[t] == [LIVE] && !HasStopped(s.records, t)
    ensures exists later :: HasBeenRecorded(Run(s, later), t)
  {
    var a := Work(|s.workers|, true);
    var first := [Request(StartJob, t), PutJob(StartJob, t)];
    var r := Step(Step(s, Request(StartJob, t)), PutJob(StartJob, t));
    assert (StartJob, t) in r.jobs && r.histories == s.histories && r.records == s.records && r.workers == s.workers;
    hide Run, Step;
    FourSteps(s, Request(StartJob, t), PutJob(StartJob, t), a, a);
    StartJobRecordsIff(r, t);
    RunConcat(s, first, [Deliver(StartJob, t), a, a, a, a]);
    assert HasBeenRecorded(Run(s, first + [Deliver(StartJob, t), a, a, a, a]), t);
  }

  /** A worker past the upsert marks the talk. */
  lemma MarksFrom(s: State, w: nat, t: Talk)
    requires w < |s.workers| && s.workers[w].talk == t && t in s.histories && s.histories[t] == [LIVE]
    requires !Stopping(s.workers[w].stage) && s.workers[w].stage !in {Upserting, Done}
    ensures var a := Work(w, true); HasBeenRecorded(Run(s, [a, a, a]), t)
  {
    var a := Work(w, true);
    var s1 := Step(s, a);
    var s2 := Step(s1, a);
    MarkingMoves(s, w, t);
    MarkingMoves(s1, w, t);
    MarkingMoves(s2, w, t);
    FourSteps(s, a, a, a, a);
    hide Step, Run;
    DoneStays(s1, w);
    DoneStays(s2, w);
  }

  lemma MarkingMoves(s: State, w: nat, t: Talk)
    ensures var r := Step(s, Work(w, true));
            w < |s.workers| && s.workers[w].talk == t && t in s.histories && s.histories[t] == [LIVE] ==>
              && w < |r.workers| && r.workers[w].talk == t && t in r.histories
              && (s.workers[w].stage.StartingTracker? ==> r.workers[w].stage.EmittingStop? && r.histories == s.histories)
              && (s.workers[w].stage.EmittingStop? ==> r.workers[w].stage == MarkingRecording && r.histories == s.histories)
              && (s.workers[w].stage == MarkingRecording ==>
                    r.workers[w].stage == Done && r.histories[t] == [LIVE, RECORDING])
  {
    assert [LIVE] + [RECORDING] == [LIVE, RECORDING];
  }

  /** A talk being recorded with no stop job, and nobody on the way to emit one or to stop the recording. */
  ghost predicate Stuck(s: State, t: Talk) {
    && t in s.histories && s.histories[t] == [LIVE, RECORDING]
    && t in s.records && s.records[t] == Active
    && (StopJob, t) !in s.jobs
    && forall w :: 0 <= w < |s.workers| && s.workers[w].talk == t ==>
         s.workers[w].stage in {Upserting, StartingTracker(false), EmittingStop(false), MarkingRecording, Done}
  }

  lemma StuckStartWork(s: State, t: Talk, w: nat, ok: bool)
    requires Stuck(s, t) && w < |s.workers| && !Stopping(s.workers[w].stage)
    ensures Stuck(StartWork(s, w, ok), t)
  {
    assert s.workers[w].talk == t ==>
             s.workers[w].stage in {Upserting, StartingTracker(false), EmittingStop(false), MarkingRecording, Done};
  }

  lemma StuckStopWork(s: State, t: Talk, w: nat, ok: bool)
    requires Stuck(s, t) && w < |s.workers| && Stopping(s.workers[w].stage)
    ensures Stuck(StopWork(s, w, ok), t)
  {
    assert s.workers[w].talk != t;
  }

  lemma StuckStep(s: State, t: Talk, a: Action)
    requires Stuck(s, t) && a != PutJob(StopJob, t)
    ensures Stuck(Step(s, a), t)
  {
    hide StartWork, StopWork;
    if a.Work? && a.w < |s.workers| {
      if Stopping(s.workers[a.w].stage) { StuckStopWork(s, t, a.w, a.ok); } else { StuckStartWork(s, t, a.w, a.ok); }
    }
  }

  /** It stays that way until the user asks for the stop: no job, however often delivered, ends the talk. */
  lemma {:induction false} StuckUntilUserStops(s: State, t: Talk, actions: seq<Action>)
    requires Stuck(s, t) && PutJob(StopJob, t) !in actions
    ensures Stuck(Run(s, actions), t)
    decreases |actions|
  {
    if actions == [] {
    } else {
      StuckStep(s, t, actions[0]);
      StuckUntilUserStops(Step(s, actions[0]), t, actions[1..]);
    }
  }

  /** Whoever is stopping a recording, or has stopped it, was sent by a stop job. */
  ghost predicate StopsHaveJobs(s: State) {
    && (forall t: Talk :: HasStopped(s.records, t) ==> (StopJob, t) in s.jobs)
    && (forall w :: 0 <= w < |s.workers| && Stopping(s.workers[w].stage) ==> (StopJob, s.workers[w].talk) in s.jobs)
  }

  lemma StartKeepsStopJobs(s: State, w: nat, ok: bool)
    requires StopsHaveJobs(s) && w < |s.workers| && !Stopping(s.workers[w].stage)
    ensures StopsHaveJobs(StartWork(s, w, ok))
  {
    StartShape(s, w, ok);
    StartStopsNothing(s, w, ok);
    hide StartWork, HasStopped;
  }

  lemma StartStopsNothing(s: State, w: nat, ok: bool)
    requires w < |s.workers| && !Stopping(s.workers[w].stage)
    ensures var r := StartWork(s, w, ok); s.jobs <= r.jobs && w < |r.workers| && !Stopping(r.workers[w].stage)
  {
    hide HasStopped;
    match s.workers[w].stage {
      case Upserting =>
      case MarkingRecording =>
      case _ => hide Transition;
    }
  }

  lemma StopKeepsStopJobs(s: State, w: nat, ok: bool)
    requires StopsHaveJobs(s) && w < |s.workers| && Stopping(s.workers[w].stage)
    ensures StopsHaveJobs(StopWork(s, w, ok))
  {
  }

  lemma StepKeepsStopJobs(s: State, a: Action)
    requires StopsHaveJobs(s)
    ensures StopsHaveJobs(Step(s, a))
  {
    hide StartWork, StopWork;
    if a.Work? && a.w < |s.workers| {
      hide StopsHaveJobs;
      if Stopping(s.workers[a.w].stage) { StopKeepsStopJobs(s, a.w, a.ok); } else { StartKeepsStopJobs(s, a.w, a.ok); }
    }
  }

  lemma {:induction false} RunKeepsStopJobs(s: State, actions: seq<Action>)
    requires StopsHaveJobs(s)
    ensures StopsHaveJobs(Run(s, actions))
    decreases |actions|
  {
    hide Step, StopsHaveJobs;
    if actions == [] {
    } else {
      StepKeepsStopJobs(s, actions[0]);
      RunKeepsStopJobs(Step(s, actions[0]), actions[1..]);
    }
  }

  predicate HasEnded(s: State, t: Talk) { t in s.histories && ENDED in s.histories[t] }

  /** The talk ends without a stop job of the user. */
  predicate EndsUnasked(s: State, later: seq<Action>, t: Talk) {
    PutJob(StopJob, t) !in later && HasEnded(Run(s, later), t)
  }

  /** From every reachable state, a talk being recorded can still end; and it can end without the user asking
      exactly if it is not stuck. */
  lemma RecordedTalkEndsIff(actions: seq<Action>, t: Talk)
    requires t in Run(INIT, actions).histories && Run(INIT, actions).histories[t] == [LIVE, RECORDING]
    ensures var s := Run(INIT, actions);
            && ((exists later :: EndsUnasked(s, later, t)) <==> !Stuck(s, t))
            && (exists later :: HasEnded(Run(s, later), t))
  {
    var s := Run(INIT, actions);
    RunKeepsInv(INIT, actions);
    RunKeepsStopJobs(INIT, actions);
    hide *;
    UserEnds(s, t);
    if Stuck(s, t) {
      forall later ensures !EndsUnasked(s, later, t) { StuckDoesNotEnd(s, t, later); }
    } else {
      EndsByJob(s, t);
    }
  }

  lemma StuckDoesNotEnd(s: State, t: Talk, later: seq<Action>)
    requires Stuck(s, t)
    ensures !EndsUnasked(s, later, t)
  {
    hide Run;
    if PutJob(StopJob, t) !in later { StuckUntilUserStops(s, t, later); }
  }

  lemma EndsByJob(s: State, t: Talk)
    requires Inv(s) && StopsHaveJobs(s) && t in s.histories && s.histories[t] == [LIVE, RECORDING] && !Stuck(s, t)
    ensures exists later :: EndsUnasked(s, later, t)
  {
    assert TalkInv(s, t);
    hide Inv, Run, Step, EndsUnasked;
    if (StopJob, t) in s.jobs {
      RunNothing(s);
      JobEnds(s, t, []);
    } else {
      var w :| 0 <= w < |s.workers| && s.workers[w].talk == t && s.workers[w].stage !in
                 {Upserting, StartingTracker(false), EmittingStop(false), MarkingRecording, Done};
      CreatorEmits(s, w, t);
      JobEnds(s, t, [Work(w, true), Work(w, true)]);
    }
  }

  /** The tracker of the talk's recording was asked to stop, and did. */
  predicate TrackerStopped(s: State, t: Talk) { t in s.stops && s.stops[t] }

  /** From every reachable state, the tracker of a talk past LIVE can still be stopped exactly if it has not been
      asked and failed to: a failed stop is for good, and nothing else stands in the way. */
  lemma TrackerStopsIff(actions: seq<Action>, t: Talk)
    requires t in Run(INIT, actions).histories && |Run(INIT, actions).histories[t]| >= 2
    ensures var s := Run(INIT, actions);
            (exists later :: TrackerStopped(Run(s, later), t)) <==> (t in s.stops ==> s.stops[t])
  {
    var s := Run(INIT, actions);
    RunKeepsInv(INIT, actions);
    hide Run, Step;
    assert TalkInv(s, t);
    if t in s.stops {
      if s.stops[t] {
        RunNothing(s);
        assert TrackerStopped(Run(s, []), t);
      } else {
        forall later ensures !TrackerStopped(Run(s, later), t) { StopsAreFinal(s, later, t); }
      }
    } else if HasStopped(s.records, t) {
      var w :| 0 <= w < |s.workers| && s.workers[w] == Worker(t, StoppingTracker);
      WorkerAsks(s, w, t, []);
    } else {
      hide Inv;
      UserAsks(s, t);
      UserSends(s, t);
      var w := |s.workers|;
      WorkerAsks(s, w, t, [Request(StopJob, t), PutJob(StopJob, t)] + [Deliver(StopJob, t), Work(w, true)]);
    }
  }

  lemma WorkerAsks(s: State, w: nat, t: Talk, first: seq<Action>)
    requires var r := Run(s, first); w < |r.workers| && r.workers[w] == Worker(t, StoppingTracker)
    ensures exists later :: TrackerStopped(Run(s, later), t)
  {
    hide Step, Run;
    TrackerStops(Run(s, first), w, t);
    FourSteps(Run(s, first), Work(w, true), Work(w, true), Work(w, true), Work(w, true));
    RunConcat(s, first, [Work(w, true)]);
    assert TrackerStopped(Run(s, first + [Work(w, true)]), t);
  }

  lemma TrackerStops(s: State, w: nat, t: Talk)
    requires w < |s.workers| && s.workers[w] == Worker(t, StoppingTracker)
    ensures TrackerStopped(Step(s, Work(w, true)), t)
  {
  }

  lemma UserSends(s: State, t: Talk)
    requires t in s.histories && s.histories[t] == [LIVE, RECORDING] && t in s.records && s.records[t] == Active
    ensures var w := |s.workers|;
            var r := Run(s, [Request(StopJob, t), PutJob(StopJob, t)] + [Deliver(StopJob, t), Work(w, true)]);
            w < |r.workers| && r.workers[w] == Worker(t, StoppingTracker)
  {
    var w := |s.workers|;
    var r := Step(Step(s, Request(StopJob, t)), PutJob(StopJob, t));
    UserAsks(s, t);
    SentStops(r, t);
    hide Step, Run;
    FourSteps(s, Request(StopJob, t), PutJob(StopJob, t), Work(w, true), Work(w, true));
    RunConcat(s, [Request(StopJob, t), PutJob(StopJob, t)], [Deliver(StopJob, t), Work(w, true)]);
    FourSteps(r, Deliver(StopJob, t), Work(w, true), Work(w, true), Work(w, true));
  }

  lemma SentStops(s: State, t: Talk)
    requires (StopJob, t) in s.jobs && t in s.records && s.records[t] == Active
    ensures var w := |s.workers|;
            var r := Step(Step(s, Deliver(StopJob, t)), Work(w, true));
            w < |r.workers| && r.workers[w] == Worker(t, StoppingTracker)
  {
  }

  lemma RunNothing(s: State)
    ensures Run(s, []) == s
  {
  }

  function Delivery(s: State, t: Talk): seq<Action> {
    var a := Work(|s.workers|, true);
    [Deliver(StopJob, t), a, a, a, a]
  }

  /** After some steps that put the stop job and leave the talk as it is, its delivery ends the talk. */
  lemma DeliveryEnds(s: State, t: Talk, first: seq<Action>)
    requires Inv(s)
    requires var r := Run(s, first); (StopJob, t) in r.jobs && t in r.histories && r.histories[t] == [LIVE, RECORDING]
    ensures HasEnded(Run(s, first + Delivery(Run(s, first), t)), t)
  {
    RunKeepsInv(s, first);
    hide Run, Inv;
    StopJobEndsTalk(Run(s, first), t);
    RunConcat(s, first, Delivery(Run(s, first), t));
  }

  lemma JobEnds(s: State, t: Talk, first: seq<Action>)
    requires Inv(s) && PutJob(StopJob, t) !in first
    requires var r := Run(s, first); (StopJob, t) in r.jobs && t in r.histories && r.histories[t] == [LIVE, RECORDING]
    ensures exists later :: EndsUnasked(s, later, t)
  {
    hide Run, Inv;
    DeliveryEnds(s, t, first);
    assert EndsUnasked(s, first + Delivery(Run(s, first), t), t);
  }

  lemma CreatorEmits(s: State, w: nat, t: Talk)
    requires w < |s.workers| && s.workers[w].talk == t && Creating(s.workers[w].stage)
    requires t in s.histories && s.histories[t] == [LIVE, RECORDING]
    ensures var r := Run(s, [Work(w, true), Work(w, true)]);
            (StopJob, t) in r.jobs && t in r.histories && r.histories[t] == [LIVE, RECORDING]
  {
    var a := Work(w, true);
    CreatingMoves(s, w, t);
    CreatingMoves(Step(s, a), w, t);
    hide Run, Step;
    FourSteps(s, a, a, a, a);
  }

  lemma CreatingMoves(s: State, w: nat, t: Talk)
    ensures var r := Step(s, Work(w, true));
            w < |s.workers| && s.workers[w].talk == t && t in s.histories && s.histories[t] == [LIVE, RECORDING] ==>
              && w < |r.workers| && r.workers[w].talk == t
              && (s.workers[w].stage == StartingTracker(true) ==>
                    r.workers[w].stage == EmittingStop(true) && r.histories == s.histories)
              && (s.workers[w].stage == EmittingStop(true) ==>
                    r.workers[w].stage == MarkingRecording && r.histories == s.histories && (StopJob, t) in r.jobs)
              && (s.workers[w].stage == MarkingRecording ==> r.histories == s.histories && r.jobs == s.jobs)
  {
  }

  lemma UserAsks(s: State, t: Talk)
    requires t in s.histories && s.histories[t] == [LIVE, RECORDING]
    ensures var r := Step(Step(s, Request(StopJob, t)), PutJob(StopJob, t));
            && (StopJob, t) in r.jobs && r.histories == s.histories
            && r.records == s.records && r.workers == s.workers
  {
  }

  lemma UserEnds(s: State, t: Talk)
    requires Inv(s) && t in s.histories && s.histories[t] == [LIVE, RECORDING]
    ensures exists later :: HasEnded(Run(s, later), t)
  {
    hide Step, Run, Inv;
    var first := [Request(StopJob, t), PutJob(StopJob, t)];
    UserAsks(s, t);
    FourSteps(s, Request(StopJob, t), PutJob(StopJob, t), Work(0, true), Work(0, true));
    DeliveryEnds(s, t, first);
    assert HasEnded(Run(s, first + Delivery(Run(s, first), t)), t);
  }

  lemma RunCons(s: State, a: Action, rest: seq<Action>)
    ensures Run(s, [a] + rest) == Run(Step(s, a), rest)
  {
  }

  lemma {:induction false} RunConcat(s: State, a: seq<Action>, b: seq<Action>)
    ensures Run(s, a + b) == Run(Run(s, a), b)
    decreases |a|
  {
    if a == [] {
      assert a + b == b;
    } else {
      assert (a + b)[0] == a[0] && (a + b)[1..] == a[1..] + b;
      RunConcat(Step(s, a[0]), a[1..], b);
    }
  }

  /** How it comes about: the first delivery creates the recording and fails to start the tracker; the second
      finds the recording and so does not emit the stop job. */
  lemma StuckExists(t: Talk)
    ensures Stuck(Run(INIT, [CreateTalk(t), Request(StartJob, t), PutJob(StartJob, t), Deliver(StartJob, t)]
                          + [Work(0, true), Work(0, false), Deliver(StartJob, t)]
                          + [Work(1, true), Work(1, true), Work(1, true), Work(1, true)]), t)
  {
    var a := [CreateTalk(t), Request(StartJob, t), PutJob(StartJob, t), Deliver(StartJob, t)];
    var b := [Work(0, true), Work(0, false), Deliver(StartJob, t)];
    var c := [Work(1, true), Work(1, true), Work(1, true), Work(1, true)];
    RunConcat(INIT, a + b, c);
    RunConcat(INIT, a, b);
    QueuedOnce(t);
    FailsAfterUpsert(t);
    SecondDelivery(t);
  }

  function Queued(t: Talk): State {
    State(map[t := [LIVE]], map[], {(StartJob, t)}, {(StartJob, t)}, [Worker(t, Upserting)], {}, {}, {}, map[])
  }

  /** How a talk gets stranded: the start job puts the stop job and then fails to mark the talk; the stop job
      is delivered before the start job is tried again. */
  lemma StrandedExists(t: Talk)
    ensures Stranded(Run(INIT, [CreateTalk(t), Request(StartJob, t), PutJob(StartJob, t), Deliver(StartJob, t)]
                             + [Work(0, true), Work(0, true), Work(0, true), Work(0, false)]
                             + [Deliver(StopJob, t)] + [Work(1, true), Work(1, true), Work(1, true), Work(1, true)]), t)
  {
    var a := [CreateTalk(t), Request(StartJob, t), PutJob(StartJob, t), Deliver(StartJob, t)];
    var b := [Work(0, true), Work(0, true), Work(0, true), Work(0, false)];
    var c := [Work(1, true), Work(1, true), Work(1, true), Work(1, true)];
    RunConcat(INIT, a + b + [Deliver(StopJob, t)], c);
    RunConcat(INIT, a + b, [Deliver(StopJob, t)]);
    RunConcat(INIT, a, b);
    QueuedOnce(t);
    FailsToMark(t);
    StoppedWhileLive(t);
  }

  function Unmarked(t: Talk): State {
    Queued(t).(records := map[t := Active], jobs := {(StartJob, t), (StopJob, t)}, emitted := {t},
               workers := [Worker(t, Done)])
  }

  lemma FailsToMark(t: Talk)
    ensures Run(Queued(t), [Work(0, true), Work(0, true), Work(0, true), Work(0, false)]) == Unmarked(t)
  {
    var s0 := Queued(t);
    var s1 := s0.(records := map[t := Active], workers := [Worker(t, StartingTracker(true))]);
    assert Step(s0, Work(0, true)) == s1;
    var s2 := s1.(workers := [Worker(t, EmittingStop(true))]);
    assert Step(s1, Work(0, true)) == s2;
    var s3 := s2.(jobs := {(StartJob, t), (StopJob, t)}, emitted := {t}, workers := [Worker(t, MarkingRecording)]);
    assert Step(s2, Work(0, true)) == s3;
    assert Step(s3, Work(0, false)) == Unmarked(t);
    FourSteps(s0, Work(0, true), Work(0, true), Work(0, true), Work(0, false));
  }

  lemma StoppedWhileLive(t: Talk)
    ensures Stranded(Run(Run(Unmarked(t), [Deliver(StopJob, t)]), [Work(1, true), Work(1, true), Work(1, true), Work(1, true)]), t)
  {
    var s0 := Unmarked(t);
    var s1 := s0.(workers := [Worker(t, Done), Worker(t, StoppingRecord)]);
    assert Step(s0, Deliver(StopJob, t)) == s1;
    RunCons(s0, Deliver(StopJob, t), []);
    assert [Deliver(StopJob, t)] + [] == [Deliver(StopJob, t)];
    var s2 := s1.(records := map[t := Stopped], workers := [Worker(t, Done), Worker(t, StoppingTracker)]);
    assert Step(s1, Work(1, true)) == s2;
    var s3 := s2.(stops := map[t := true], workers := [Worker(t, Done), Worker(t, EmittingStopped)]);
    assert Step(s2, Work(1, true)) == s3;
    var s4 := s3.(workers := [Worker(t, Done), Worker(t, MarkingEnded)]);
    assert Step(s3, Work(1, true)) == s4;
    var s5 := s4.(workers := [Worker(t, Done), Worker(t, Done)]);
    assert Step(s4, Work(1, true)) == s5;
    FourSteps(s1, Work(1, true), Work(1, true), Work(1, true), Work(1, true));
  }

  /** How a talk ends with its tracker running: the tracker fails to stop, and the job that is tried again finds
      the recording stopped. */
  lemma UnstoppedTrackerExists(t: Talk)
    ensures var s := Run(INIT, [CreateTalk(t), Request(StartJob, t), PutJob(StartJob, t), Deliver(StartJob, t)]
                             + [Work(0, true), Work(0, true), Work(0, true), Work(0, true)]
                             + [Deliver(StopJob, t), Work(1, true), Work(1, false)]
                             + [Deliver(StopJob, t), Work(2, true), Work(2, true)]);
            && t in s.histories && s.histories[t] == [LIVE, RECORDING, ENDED]
            && t in s.stops && !s.stops[t]
            && forall later :: t in Run(s, later).stops && !Run(s, later).stops[t]
  {
    var a := [CreateTalk(t), Request(StartJob, t), PutJob(StartJob, t), Deliver(StartJob, t)];
    var b := [Work(0, true), Work(0, true), Work(0, true), Work(0, true)];
    var c := [Deliver(StopJob, t), Work(1, true), Work(1, false)];
    var d := [Deliver(StopJob, t), Work(2, true), Work(2, true)];
    RunConcat(INIT, a + b + c, d);
    RunConcat(INIT, a + b, c);
    RunConcat(INIT, a, b);
    QueuedOnce(t);
    RecordedOnce(t);
    TrackerFails(t);
    EndsOnRetry(t);
    RunKeepsInv(INIT, a + b + c + d);
    forall later ensures var r := Run(Run(INIT, a + b + c + d), later); t in r.stops && !r.stops[t] {
      StopsAreFinal(Run(INIT, a + b + c + d), later, t);
    }
  }

  function Recorded(t: Talk): State {
    Queued(t).(histories := map[t := [LIVE, RECORDING]], records := map[t := Active],
               jobs := {(StartJob, t), (StopJob, t)}, emitted := {t}, workers := [Worker(t, Done)])
  }

  function Unstopped(t: Talk): State {
    Recorded(t).(records := map[t := Stopped], stops := map[t := false], workers := [Worker(t, Done), Worker(t, Done)])
  }

  lemma RecordedOnce(t: Talk)
    ensures Run(Queued(t), [Work(0, true), Work(0, true), Work(0, true), Work(0, true)]) == Recorded(t)
  {
    var s0 := Queued(t);
    var s1 := s0.(records := map[t := Active], workers := [Worker(t, StartingTracker(true))]);
    assert Step(s0, Work(0, true)) == s1;
    var s2 := s1.(workers := [Worker(t, EmittingStop(true))]);
    assert Step(s1, Work(0, true)) == s2;
    var s3 := s2.(jobs := {(StartJob, t), (StopJob, t)}, emitted := {t}, workers := [Worker(t, MarkingRecording)]);
    assert Step(s2, Work(0, true)) == s3;
    assert [LIVE] + [RECORDING] == [LIVE, RECORDING];
    assert Step(s3, Work(0, true)) == Recorded(t);
    FourSteps(s0, Work(0, true), Work(0, true), Work(0, true), Work(0, true));
  }

  lemma TrackerFails(t: Talk)
    ensures Run(Recorded(t), [Deliver(StopJob, t), Work(1, true), Work(1, false)]) == Unstopped(t)
  {
    var s0 := Recorded(t);
    var s1 := s0.(workers := [Worker(t, Done), Worker(t, StoppingRecord)]);
    assert Step(s0, Deliver(StopJob, t)) == s1;
    var s2 := s1.(records := map[t := Stopped], workers := [Worker(t, Done), Worker(t, StoppingTracker)]);
    assert Step(s1, Work(1, true)) == s2;
    assert Step(s2, Work(1, false)) == Unstopped(t);
    FourSteps(s0, Deliver(StopJob, t), Work(1, true), Work(1, false), Work(1, false));
  }

  lemma EndsOnRetry(t: Talk)
    ensures Run(Unstopped(t), [Deliver(StopJob, t), Work(2, true), Work(2, true)]) ==
            Unstopped(t).(histories := map[t := [LIVE, RECORDING, ENDED]],
                          workers := [Worker(t, Done), Worker(t, Done), Worker(t, Done)])
  {
    var s0 := Unstopped(t);
    var s1 := s0.(workers := [Worker(t, Done), Worker(t, Done), Worker(t, StoppingRecord)]);
    assert Step(s0, Deliver(StopJob, t)) == s1;
    var s2 := s1.(workers := [Worker(t, Done), Worker(t, Done), Worker(t, MarkingEnded)]);
    assert Step(s1, Work(2, true)) == s2;
    assert [LIVE, RECORDING] + [ENDED] == [LIVE, RECORDING, ENDED];
    assert Step(s2, Work(2, true)) == s2.(histories := map[t := [LIVE, RECORDING, ENDED]],
                                          workers := [Worker(t, Done), Worker(t, Done), Worker(t, Done)]);
    FourSteps(s0, Deliver(StopJob, t), Work(2, true), Work(2, true), Work(2, true));
  }

  function HalfStarted(t: Talk): State {
    State(map[t := [LIVE]], map[t := Active], {(StartJob, t)}, {(StartJob, t)},
          [Worker(t, Done), Worker(t, Upserting)], {t}, {}, {}, map[])
  }

  lemma QueuedOnce(t: Talk)
    ensures Run(INIT, [CreateTalk(t), Request(StartJob, t), PutJob(StartJob, t), Deliver(StartJob, t)]) == Queued(t)
  {
    var s1 := INIT.(histories := map[t := [LIVE]]);
    assert Step(INIT, CreateTalk(t)) == s1;
    var s2 := s1.(requests := {(StartJob, t)});
    assert Step(s1, Request(StartJob, t)) == s2;
    var s3 := s2.(jobs := {(StartJob, t)});
    assert Step(s2, PutJob(StartJob, t)) == s3;
    assert Step(s3, Deliver(StartJob, t)) == Queued(t);
    RunCons(s3, Deliver(StartJob, t), []);
    RunCons(s2, PutJob(StartJob, t), [Deliver(StartJob, t)]);
    RunCons(s1, Request(StartJob, t), [PutJob(StartJob, t), Deliver(StartJob, t)]);
    RunCons(INIT, CreateTalk(t), [Request(StartJob, t), PutJob(StartJob, t), Deliver(StartJob, t)]);
  }

  lemma FailsAfterUpsert(t: Talk)
    ensures Run(Queued(t), [Work(0, true), Work(0, false), Deliver(StartJob, t)]) == HalfStarted(t)
  {
    var s0 := Queued(t);
    var s1 := s0.(records := map[t := Active], workers := [Worker(t, StartingTracker(true))]);
    assert Step(s0, Work(0, true)) == s1;
    var s2 := s1.(workers := [Worker(t, Done)], dropped := {t});
    assert Step(s1, Work(0, false)) == s2;
    assert Step(s2, Deliver(StartJob, t)) == HalfStarted(t);
    RunCons(s2, Deliver(StartJob, t), []);
    RunCons(s1, Work(0, false), [Deliver(StartJob, t)]);
    RunCons(s0, Work(0, true), [Work(0, false), Deliver(StartJob, t)]);
  }

  lemma SecondDelivery(t: Talk)
    ensures Stuck(Run(HalfStarted(t), [Work(1, true), Work(1, true), Work(1, true), Work(1, true)]), t)
  {
  }

  /* ---------- the handlers ---------- */

  datatype Disposition = Deleted | Retried

  /** The stores the handlers work on.  A handler's `ok` flags say which of its remote operations succeed. */
  class Stores {
    var histories: map<Talk, seq<TalkState>>
    var records: map<Talk, RecordState>
    var jobs: set<(JobKind, Talk)>
    ghost var requests: set<(JobKind, Talk)>
    ghost var workers: seq<Worker>
    ghost var dropped: set<Talk>
    ghost var emitted: set<Talk>
    ghost var userStops: set<Talk>
    ghost var stops: map<Talk, bool>

    ghost function Model(): State
      reads this
    {
      State(histories, records, jobs, requests, workers, dropped, emitted, userStops, stops)
    }

    /** UpdateOne with StateIn; false: not found. */
    method UpdateState(t: Talk, from: TalkState, to: TalkState) returns (found: bool)
      modifies this`histories
      ensures Model() == Transition(old(Model()), t, from, to)
    {
      found := t in histories && histories[t] != [] && histories[t][|histories[t]| - 1] == from;
      if found {
        histories := histories[t := histories[t] + [to]];
      }
    }

    /** The worker at hand is the last one. */
    ghost predicate AtStage(t: Talk, stage: Stage)
      reads this
    {
      workers != [] && workers[|workers| - 1] == Worker(t, stage)
    }

    ghost function AfterWork(ok: bool): State
      requires workers != []
      reads this
    {
      Step(Model(), Work(|workers| - 1, ok))
    }

    ghost method Advance(r: State)
      requires r.histories == histories && r.records == records && r.jobs == jobs && r.requests == requests
      requires r.userStops == userStops
      modifies this`workers, this`dropped, this`emitted, this`stops
      ensures Model() == r
    {
      workers, dropped, emitted, stops := r.workers, r.dropped, r.emitted, r.stops;
    }

    /** The FetchOrStart of the remote StartRecording. */
    method Upsert(t: Talk, ok: bool) returns (failed: bool, inserted: bool)
      requires AtStage(t, Upserting)
      modifies this
      ensures Model() == old(AfterWork(ok)) && |workers| == |old(workers)|
      ensures AtStage(t, if failed then Done else StartingTracker(inserted))
      ensures failed <==> !ok || HasStopped(old(records), t)
      ensures inserted <==> !failed && t !in old(records)
    {
      ghost var r := AfterWork(ok);
      failed := !ok || (t in records && records[t] == Stopped);
      inserted := !failed && t !in records;
      if inserted {
        records := records[t := Active];
      }
      Advance(r);
    }

    method StartTracker(t: Talk, ghost inserted: bool, ok: bool)
      requires AtStage(t, StartingTracker(inserted))
      modifies this
      ensures Model() == old(AfterWork(ok)) && |workers| == |old(workers)|
      ensures AtStage(t, if ok then EmittingStop(inserted) else Done)
    {
      Advance(AfterWork(ok));
    }

    /** Only the worker that created the recording puts the job that stops it. */
    method EmitStop(t: Talk, inserted: bool, ok: bool) returns (failed: bool)
      requires AtStage(t, EmittingStop(inserted))
      modifies this
      ensures Model() == old(AfterWork(ok)) && |workers| == |old(workers)|
      ensures failed <==> inserted && !ok
      ensures AtStage(t, if failed then Done else MarkingRecording)
    {
      ghost var r := AfterWork(ok);
      failed := inserted && !ok;
      if inserted && ok {
        jobs := jobs + {(StopJob, t)};
      }
      Advance(r);
    }

    /** The remote StopRecording up to the stored recording; not found goes on as if it had been stopped. */
    method StopRecord(t: Talk, ok: bool) returns (found: bool)
      requires AtStage(t, StoppingRecord)
      modifies this
      ensures Model() == old(AfterWork(ok)) && |workers| == |old(workers)|
      ensures found <==> ok && t in old(records) && old(records)[t] == Active
      ensures AtStage(t, if !ok then Done else if found then StoppingTracker else MarkingEnded)
    {
      ghost var r := AfterWork(ok);
      found := ok && t in records && records[t] == Active;
      if found {
        records := records[t := Stopped];
      }
      Advance(r);
    }

    method StopTracker(t: Talk, ok: bool)
      requires AtStage(t, StoppingTracker)
      modifies this
      ensures Model() == old(AfterWork(ok)) && |workers| == |old(workers)|
      ensures AtStage(t, if ok then EmittingStopped else Done)
    {
      Advance(AfterWork(ok));
    }

    /** The room's event that the recording has stopped. */
    method EmitStopped(t: Talk, ok: bool)
      requires AtStage(t, EmittingStopped)
      modifies this
      ensures Model() == old(AfterWork(ok)) && |workers| == |old(workers)|
      ensures AtStage(t, if ok then MarkingEnded else Done)
    {
      Advance(AfterWork(ok));
    }

    /** The conditional update of the talk. */
    method Mark(t: Talk, from: TalkState, to: TalkState, ok: bool) returns (d: Disposition)
      requires (from == LIVE && to == RECORDING && AtStage(t, MarkingRecording))
            || (from == RECORDING && to == ENDED && AtStage(t, MarkingEnded))
      modifies this
      ensures Model() == old(AfterWork(ok)) && |workers| == |old(workers)|
      ensures AtStage(t, Done) && (d == Retried <==> !ok)
    {
      ghost var r := AfterWork(ok);
      if !ok {
        Advance(r);
        return Retried;
      }
      var found := UpdateState(t, from, to);
      Advance(r);
      return Deleted;
    }

    ghost method TakeJob(k: JobKind, t: Talk)
      requires (k, t) in jobs
      modifies this`workers
      ensures Model() == Step(old(Model()), Deliver(k, t))
      ensures |workers| == |old(workers)| + 1 && AtStage(t, FirstStage(k))
    {
      workers := workers + [Worker(t, FirstStage(k))];
    }

    /** startRecording on one delivery, undisturbed by others. */
    method StartRecording(t: Talk, upserted: bool, tracking: bool, emitting: bool, updated: bool) returns (d: Disposition)
      requires (StartJob, t) in jobs
      modifies this
      ensures var w := |old(workers)|;
              Model() == Run(Step(old(Model()), Deliver(StartJob, t)),
                             [Work(w, upserted), Work(w, tracking), Work(w, emitting), Work(w, updated)])
      ensures d == Deleted <==>
                upserted && !HasStopped(old(records), t) && tracking && (emitting || t in old(records)) && updated
    {
      hide Step, Run;
      ghost var w := |workers|;
      TakeJob(StartJob, t);
      FourSteps(Model(), Work(w, upserted), Work(w, tracking), Work(w, emitting), Work(w, updated));
      var failed, inserted := Upsert(t, upserted);
      DoneStays(Model(), w);
      if failed {
        return Retried;
      }
      StartTracker(t, inserted, tracking);
      DoneStays(Model(), w);
      if !tracking {
        return Retried;
      }
      failed := EmitStop(t, inserted, emitting);
      DoneStays(Model(), w);
      if failed {
        return Retried;
      }
      d := Mark(t, LIVE, RECORDING, updated);
    }

    /** stopRecording on one delivery, undisturbed by others. */
    method StopRecording(t: Talk, stopped: bool, untracked: bool, emitting: bool, updated: bool) returns (d: Disposition)
      requires (StopJob, t) in jobs
      modifies this
      ensures var w := |old(workers)|;
              var found := stopped && t in old(records) && old(records)[t] == Active;
              Model() == Run(Step(old(Model()), Deliver(StopJob, t)),
                             if found then [Work(w, stopped), Work(w, untracked), Work(w, emitting), Work(w, updated)]
                             else [Work(w, stopped), Work(w, updated)])
              && (d == Deleted <==> stopped && (found ==> untracked && emitting) && updated)
    {
      hide Step, Run;
      ghost var w := |workers|;
      TakeJob(StopJob, t);
      FourSteps(Model(), Work(w, stopped), Work(w, untracked), Work(w, emitting), Work(w, updated));
      FourSteps(Model(), Work(w, stopped), Work(w, updated), Work(w, updated), Work(w, updated));
      var found := StopRecord(t, stopped);
      DoneStays(Model(), w);
      if !stopped {
        return Retried;
      }
      if found {
        StopTracker(t, untracked);
        DoneStays(Model(), w);
        if !untracked {
          return Retried;
        }
        EmitStopped(t, emitting);
        DoneStays(Model(), w);
        if !emitting {
          return Retried;
        }
      }
      d := Mark(t, RECORDING, ENDED, updated);
    }
  }

  lemma DoneStays(s: State, w: nat)
    ensures w < |s.workers| && s.workers[w].stage == Done ==> forall ok :: Step(s, Work(w, ok)) == s
  {
  }

  lemma FourSteps(s: State, a: Action, b: Action, c: Action, d: Action)
    ensures Run(s, [a]) == Step(s, a) && Run(s, [a, b]) == Step(Step(s, a), b)
    ensures Run(s, [a, b, c]) == Step(Step(Step(s, a), b), c)
    ensures Run(s, [a, b, c, d]) == Step(Step(Step(Step(s, a), b), c), d)
  {
    hide Step;
    forall x, y ensures Run(x, [y]) == Step(x, y) { RunCons(x, y, []); }
    RunCons(s, a, [b]);
    RunCons(s, a, [b, c]);
    RunCons(Step(s, a), b, [c]);
    RunCons(s, a, [b, c, d]);
    RunCons(Step(s, a), b, [c, d]);
    RunCons(Step(Step(s, a), b), c, [d]);
  }
}
