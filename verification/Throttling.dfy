/** The throttler: calls made while it is busy share one promise and get one trailing run.  The function is
    asynchronous, and is taken not to throw; the throttler is not closed. */
module Throttling {
  import opened Wrappers

  /** A call either started a run itself, or was handed a promise.  `after` is the number of runs that had
      started when it was made. */
  datatype Call = Direct(run: nat, after: nat) | Deferred(promise: nat, after: nat)

  /** Promise i is resolved with the result of run `promises[i]`; the last one is the current promise, and
      `running` is the one that the run in progress will resolve. */
  datatype State = State(ready: bool, again: bool, running: Option<nat>, timer: bool, started: nat,
                         promises: seq<Option<nat>>, calls: seq<Call>)

  const INIT := State(true, false, None, false, 0, [None], [])

  datatype Action = Do | FuncReturns | TimerFires

  predicate Enabled(s: State, a: Action) {
    match a
    case Do => s.promises != []
    case FuncReturns => s.running.Some? && s.running.value < |s.promises|
    case TimerFires => s.timer && s.promises != []
  }

  /** The body of do() up to the await. */
  function StartRun(s: State): State
    requires s.promises != []
  {
    s.(ready := false, running := Some(|s.promises| - 1), promises := s.promises + [None], started := s.started + 1)
  }

  function Apply(s: State, a: Action): State
    requires Enabled(s, a)
  {
    match a
    case Do =>
      if !s.ready then s.(again := true, calls := s.calls + [Deferred(|s.promises| - 1, s.started)])
      else StartRun(s).(calls := s.calls + [Direct(s.started + 1, s.started)])
    case FuncReturns =>
      s.(promises := s.promises[s.running.value := Some(s.started)], running := None, timer := true)
    case TimerFires =>
      var t := s.(timer := false, ready := true);
      if s.again then StartRun(t.(again := false)) else t
  }

  function Step(s: State, a: Action): State {
    if Enabled(s, a) then Apply(s, a) else s
  }

  function Run(s: State, actions: seq<Action>): State
    decreases |actions|
  {
    if actions == [] then s else Run(Step(s, actions[0]), actions[1..])
  }

  lemma {:induction false} RunConcat(s: State, a: seq<Action>, b: seq<Action>)
    ensures Run(s, a + b) == Run(Run(s, a), b)
    decreases |a|
  {
    if a == [] {
      assert a + b == b;
    } else {
      assert (a + b)[0] == a[0] && (a + b)[1..] == a[1..] + b;
      RunConcat(Step(s, a[0]), a[1..], b);
    }
  }

  /* ---------- invariant ---------- */

  function Finished(s: State): int { s.started - (if s.running.Some? then 1 else 0) }

  ghost predicate CallInv(s: State, c: Call) {
    match c
    case Direct(run, after) => run == after + 1 <= s.started
    case Deferred(promise, after) => promise == after && 1 <= after <= s.started && (promise == s.started ==> s.again)
  }

  /** Somebody has been promised the run after the last one started. */
  ghost predicate Awaited(s: State) {
    exists c :: 0 <= c < |s.calls| && s.calls[c] == Deferred(s.started, s.started)
  }

  ghost predicate Inv(s: State) {
    && |s.promises| == s.started + 1
    && (s.running.Some? ==> s.started >= 1 && s.running.value == s.started - 1)
    && (s.ready <==> s.running == None && !s.timer)
    && !(s.running.Some? && s.timer) && (s.timer ==> s.started >= 1)
    && (s.again ==> !s.ready) && (s.again <==> Awaited(s))
    && (forall i :: 0 <= i < |s.promises| ==> s.promises[i] == if i < Finished(s) then Some(i + 1) else None)
    && (forall c :: 0 <= c < |s.calls| ==> CallInv(s, s.calls[c]))
  }

  lemma StepKeepsInv(s: State, a: Action)
    requires Inv(s) && Enabled(s, a)
    ensures Inv(Apply(s, a))
  {
    var t := Apply(s, a);
    if a.Do? {
      assert t.calls[|s.calls|] == if s.ready then Direct(s.started + 1, s.started) else Deferred(s.started, s.started);
    }
    assert forall c :: 0 <= c < |s.calls| ==> t.calls[c] == s.calls[c] && CallInv(s, s.calls[c]);
  }

  lemma {:induction false} RunKeepsInv(s: State, actions: seq<Action>)
    requires Inv(s)
    ensures Inv(Run(s, actions)) && |s.calls| <= |Run(s, actions).calls|
    ensures forall c :: 0 <= c < |s.calls| ==> Run(s, actions).calls[c] == s.calls[c]
    decreases |actions|
  {
    if actions == [] {
    } else {
      if Enabled(s, actions[0]) { StepKeepsInv(s, actions[0]); }
      RunKeepsInv(Step(s, actions[0]), actions[1..]);
    }
  }

  /* ---------- theorems ---------- */

  /** A run starts only when no other is in progress. */
  lemma RunsNeverOverlap(actions: seq<Action>, a: Action)
    requires Enabled(Run(INIT, actions), a)
    ensures var s := Run(INIT, actions);
            Apply(s, a).started > s.started ==> s.running == None && Apply(s, a).started == s.started + 1
  {
    RunKeepsInv(INIT, actions);
  }

  /** A call starts a run exactly if none is in progress and the timer is not set; otherwise it is promised the
      run after the last one started.  The timer starts a trailing run exactly if somebody was promised it, and
      leaves the throttler ready otherwise; the function's return starts none, and sets the timer. */
  lemma StartsIff(actions: seq<Action>, a: Action)
    requires Enabled(Run(INIT, actions), a)
    ensures var s := Run(INIT, actions);
            var t := Apply(s, a);
            && (a.Do? ==>
                  if s.running == None && !s.timer then
                    t.started == s.started + 1 && t.running.Some? && t.calls == s.calls + [Direct(t.started, s.started)]
                  else
                    t.started == s.started && t.running == s.running && t.calls == s.calls + [Deferred(s.started, s.started)])
            && (a.TimerFires? ==>
                  && !t.timer && t.calls == s.calls
                  && if exists c :: 0 <= c < |s.calls| && s.calls[c] == Deferred(s.started, s.started) then
                       t.started == s.started + 1 && t.running.Some? && !t.ready
                     else t.started == s.started && t.running == None && t.ready)
            && (a.FuncReturns? ==> t.started == s.started && t.running == None && t.timer && t.calls == s.calls)
  {
    RunKeepsInv(INIT, actions);
    assert Awaited(Run(INIT, actions)) <==> Run(INIT, actions).again;
    hide Run;
  }

  /** The run whose result a call gets, if it has got one. */
  function ResolvedBy(s: State, c: nat): Option<nat>
    requires c < |s.calls|
  {
    match s.calls[c]
    case Direct(run, _) => if run <= Finished(s) then Some(run) else None
    case Deferred(promise, _) => if promise < |s.promises| then s.promises[promise] else None
  }

  /** Every call is answered, if at all, by the first run that starts at or after it. */
  lemma AnsweredByLaterRun(actions: seq<Action>, c: nat)
    requires c < |Run(INIT, actions).calls|
    ensures var s := Run(INIT, actions);
            && ResolvedBy(s, c) in {None, Some(s.calls[c].after + 1)}
            && (ResolvedBy(s, c).Some? <==> s.calls[c].after < Finished(s))
  {
    var s := Run(INIT, actions);
    RunKeepsInv(INIT, actions);
    assert CallInv(s, s.calls[c]);
  }

  /** No trailing request is lost: let the function return, the timer fire and the function return again, and
      every call made so far has its answer, though nobody calls again. */
  lemma NoCallIsLost(actions: seq<Action>, c: nat)
    requires c < |Run(INIT, actions).calls|
    ensures var t := Run(INIT, actions + [FuncReturns, TimerFires, FuncReturns]);
            c < |t.calls| && ResolvedBy(t, c) == Some(t.calls[c].after + 1)
  {
    var s := Run(INIT, actions);
    var drain := [FuncReturns, TimerFires, FuncReturns];
    RunKeepsInv(INIT, actions);
    RunConcat(INIT, actions, drain);
    RunKeepsInv(s, drain);
    AnsweredByLaterRun(actions + drain, c);
    assert CallInv(s, s.calls[c]);
    var s1 := Step(s, FuncReturns);
    var s2 := Step(s1, TimerFires);
    var s3 := Step(s2, FuncReturns);
    assert Run(s, drain) == s3 by {
      assert drain[1..] == [TimerFires, FuncReturns] && drain[1..][1..] == [FuncReturns] && [FuncReturns][1..] == [];
      assert Run(s1, [TimerFires, FuncReturns]) == Run(s2, [FuncReturns]) == Run(s3, []);
    }
    assert s.calls[c].after < Finished(s3);
  }

  /* ---------- the class ---------- */

  class Throttler {
    var isReady: bool
    var doAfterReady: bool
    var promise: nat           // the current promise
    var prevResolve: Option<nat>  // the promise the run in progress resolves
    var timeout: bool
    var resolved: seq<Option<nat>>
    ghost var started: nat
    ghost var calls: seq<Call>

    ghost function Model(): State
      reads this
    {
      State(isReady, doAfterReady, prevResolve, timeout, started, resolved, calls)
    }

    ghost predicate Valid()
      reads this
    {
      Inv(Model()) && promise == |resolved| - 1
    }

    constructor ()
      ensures Valid() && Model() == INIT
    {
      isReady, doAfterReady, promise, prevResolve, timeout := true, false, 0, None, false;
      resolved, started, calls := [None], 0, [];
    }

    /** do(), up to the point where it awaits the function; the result is the promise of a deferred call. */
    method Do() returns (r: Option<nat>)
      requires Valid()
      modifies this
      ensures Valid() && Model() == Apply(old(Model()), Action.Do)
      ensures r.Some? <==> !old(isReady)
      ensures r.Some? ==> calls == old(calls) + [Deferred(r.value, old(started))]
    {
      StepKeepsInv(Model(), Action.Do);
      if !isReady {
        doAfterReady := true;
        calls := calls + [Deferred(promise, started)];
        return Some(promise);
      }
      calls := calls + [Direct(started + 1, started)];
      Begin();
      return None;
    }

    method Begin()
      requires resolved != [] && promise == |resolved| - 1
      modifies this
      ensures Model() == StartRun(old(Model())) && promise == |resolved| - 1
    {
      isReady := false;
      prevResolve := Some(promise);
      resolved := resolved + [None];
      promise := |resolved| - 1;
      started := started + 1;
    }

    /** The function has returned t, here the number of its run: resolve the previous promise and set the
        timer. */
    method AfterFunc(t: nat)
      requires Valid() && prevResolve.Some? && t == started
      modifies this
      ensures Valid() && Model() == Apply(old(Model()), FuncReturns)
    {
      StepKeepsInv(Model(), FuncReturns);
      resolved := resolved[prevResolve.value := Some(t)];
      prevResolve := None;
      timeout := true;
    }

    /** The timer's callback: one trailing run if anybody asked for it. */
    method OnTimer()
      requires Valid() && timeout
      modifies this
      ensures Valid() && Model() == Apply(old(Model()), TimerFires)
    {
      StepKeepsInv(Model(), TimerFires);
      timeout := false;
      isReady := true;
      if doAfterReady {
        doAfterReady := false;
        Begin();
      }
    }
  }
}
