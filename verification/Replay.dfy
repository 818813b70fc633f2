/** Replaying a recording: events are fetched in pages, buffered, and put into the aggregators when due. */
module Replay {
  import opened Wrappers

  datatype Event = Event(id: nat, createdAt: int)

  /** A fetch in flight: what its iterator delivers from where, and whether that iterator is still the current
      one. */
  datatype Fetch = Fetch(stream: seq<Event>, from: nat, size: nat, current: bool)

  /** `stream` is what an iterator of the loaded recording delivers, `position` how much of it the current one
      has delivered, `pages` how often it was asked, and `seen` what the aggregators have been given since they
      were last reset. */
  datatype State = State(stream: seq<Event>, batch: seq<Event>, putFrom: nat, iterating: bool, position: nat, pages: nat,
                         inFlight: Option<Fetch>, seen: seq<Event>)

  const INIT := State([], [], 0, false, 0, 0, None, [])

  datatype Action =
    | FetchBegins(size: nat) | FetchEnds
    | Tick(until: int)
    | SeekBack                   // rewind to an earlier position, or after stop
    | Load(stream: seq<Event>)   // another recording, with its own cursor

  /** How many events are due. */
  function Due(events: seq<Event>, until: int): (n: nat)
    ensures n <= |events|
  {
    if events == [] || events[0].createdAt > until then 0 else 1 + Due(events[1..], until)
  }

  function Slice(stream: seq<Event>, from: nat, size: nat): seq<Event> {
    if from >= |stream| then []
    else if from + size >= |stream| then stream[from..] else stream[from..from + size]
  }

  predicate Enabled(s: State, a: Action) {
    && s.putFrom <= |s.batch|
    && match a
       case FetchBegins(_) => s.inFlight == None  // the throttler runs one fetch at a time
       case FetchEnds => s.inFlight.Some?
       case _ => true
  }

  function ResetState(s: State): State { s.(seen := [], putFrom := 0) }

  function ResetEventFetching(s: State): State {
    s.(iterating := false, position := 0, pages := 0, batch := [],
       inFlight := if s.inFlight.Some? then Some(s.inFlight.value.(current := false)) else None)
  }

  function Fetched(f: Fetch): seq<Event> { Slice(f.stream, f.from, f.size) }

  function Apply(s: State, a: Action): State
    requires Enabled(s, a)
  {
    match a
    case FetchBegins(size) =>
      s.(iterating := true, pages := s.pages + 1, inFlight := Some(Fetch(s.stream, s.position, size, true)))
    case FetchEnds =>
      var f := s.inFlight.value;
      var fetched := Fetched(f);
      var t := s.(inFlight := None, position := if f.current then f.from + |fetched| else s.position);
      if fetched == [] then t else t.(batch := s.batch[s.putFrom..] + fetched, putFrom := 0)
    case Tick(until) =>
      var n := Due(s.batch[s.putFrom..], until);
      s.(seen := s.seen + s.batch[s.putFrom..s.putFrom + n], putFrom := s.putFrom + n)
    case SeekBack =>
      var t := ResetState(s);
      if s.iterating && s.pages > 1 then ResetEventFetching(t) else t
    case Load(stream) => ResetEventFetching(ResetState(s)).(stream := stream)
  }

  /** The step drops the iterator. */
  predicate Drops(s: State, a: Action) { a.Load? || (a.SeekBack? && s.pages > 1) }

  /** No fetch is in flight when its iterator is dropped. */
  predicate Disciplined(s: State, a: Action) { Drops(s, a) ==> s.inFlight == None }

  function Step(s: State, a: Action): State {
    if Enabled(s, a) && Disciplined(s, a) then Apply(s, a) else s
  }

  function Run(s: State, actions: seq<Action>): State
    decreases |actions|
  {
    if actions == [] then s else Run(Step(s, actions[0]), actions[1..])
  }

  lemma {:induction false} RunConcat(s: State, a: seq<Action>, b: seq<Action>)
    ensures Run(s, a + b) == Run(Run(s, a), b)
    decreases |a|
  {
    if a == [] {
      assert a + b == b;
    } else {
      assert (a + b)[0] == a[0] && (a + b)[1..] == a[1..] + b;
      RunConcat(Step(s, a[0]), a[1..], b);
    }
  }

  /* ---------- conservation ---------- */

  /** What was put since the last reset, followed by what is still buffered, is what was fetched. */
  ghost predicate Conserved(s: State) {
    s.putFrom <= |s.batch| && s.position <= |s.stream| && s.seen + s.batch[s.putFrom..] == s.stream[..s.position]
  }

  ghost predicate Inv(s: State) {
    && Conserved(s)
    && (s.inFlight.Some? ==>
          var f := s.inFlight.value; f.current && f.from == s.position && f.stream == s.stream)
    // Up to the end of the second fetch the buffer holds everything fetched, put or not.
    && (s.pages <= 1 || (s.pages == 2 && s.inFlight.Some?) ==> s.batch == s.stream[..s.position])
    && (s.pages == 0 || (s.pages == 1 && s.inFlight.Some?) ==> s.position == 0)
    && (s.inFlight.Some? ==> s.pages >= 1 && s.iterating)
    && (s.iterating <==> s.pages >= 1)
  }

  lemma FetchKeepsInv(s: State)
    requires Inv(s) && Enabled(s, FetchEnds)
    ensures Inv(Apply(s, FetchEnds))
  {
    hide Due, Slice, Conserved;
    FetchKeepsConserved(s);
    FetchKeepsBuffer(s);
  }

  lemma FetchKeepsConserved(s: State)
    requires Conserved(s) && s.inFlight.Some?
    requires var f := s.inFlight.value; f.current && f.from == s.position && f.stream == s.stream
    ensures Conserved(Apply(s, FetchEnds))
  {
    hide Due, Slice;
    var f := s.inFlight.value;
    SliceContinues(s.stream, f.from, f.size);
    var fetched := Fetched(f);
    var tail := s.batch[s.putFrom..];
    assert s.seen + (tail + fetched) == (s.seen + tail) + fetched;
    assert (tail + fetched)[0..] == tail + fetched;
  }

  /** The first two pages: nothing has been cut off the buffer yet when the first arrives. */
  lemma FetchKeepsBuffer(s: State)
    requires Inv(s) && Enabled(s, FetchEnds)
    ensures var t := Apply(s, FetchEnds);
            s.pages <= 1 ==> t.batch == t.stream[..t.position]
  {
    hide Due, Slice;
    var f := s.inFlight.value;
    SliceContinues(s.stream, f.from, f.size);
    if s.pages <= 1 {
      assert s.batch == [] && s.position == 0 && s.putFrom == 0;
      assert s.stream[..0] == [];
    }
  }

  lemma SliceContinues(stream: seq<Event>, from: nat, size: nat)
    requires from <= |stream|
    ensures var page := Slice(stream, from, size);
            from + |page| <= |stream| && stream[..from] + page == stream[..from + |page|]
  {
  }

  lemma TickKeepsInv(s: State, until: int)
    requires Inv(s) && Enabled(s, Tick(until))
    ensures Inv(Apply(s, Tick(until)))
  {
    hide Due;
    var n := Due(s.batch[s.putFrom..], until);
    assert s.batch[s.putFrom..] == s.batch[s.putFrom..s.putFrom + n] + s.batch[s.putFrom + n..];
  }

  lemma OtherKeepsInv(s: State, a: Action)
    requires Inv(s) && Enabled(s, a) && Disciplined(s, a) && !a.FetchEnds? && !a.Tick?
    ensures Inv(Apply(s, a))
  {
  }

  lemma StepKeepsInv(s: State, a: Action)
    requires Inv(s) && Enabled(s, a) && Disciplined(s, a)
    ensures Inv(Apply(s, a))
  {
    hide *;
    match a {
      case FetchEnds => FetchKeepsInv(s);
      case Tick(until) => TickKeepsInv(s, until);
      case _ => OtherKeepsInv(s, a);
    }
  }

  lemma {:induction false} RunKeepsInv(s: State, actions: seq<Action>)
    requires Inv(s)
    ensures Inv(Run(s, actions))
    decreases |actions|
  {
    if actions == [] {
    } else {
      if Enabled(s, actions[0]) && Disciplined(s, actions[0]) { StepKeepsInv(s, actions[0]); }
      RunKeepsInv(Step(s, actions[0]), actions[1..]);
    }
  }

  /** Over every run of fetches, ticks, seeks and loads, nothing fetched is lost, repeated or reordered. */
  lemma EventsAreConserved(actions: seq<Action>)
    ensures Conserved(Run(INIT, actions))
  {
    RunKeepsInv(INIT, actions);
  }

  /** With a fetch in flight, a seek back or a load breaks conservation exactly if it drops the iterator, which a
      seek back does from the second page on, and the fetch brings anything. */
  lemma StaleFetchBreaksIff(actions: seq<Action>, a: Action)
    requires Run(INIT, actions).inFlight.Some? && (a.SeekBack? || a.Load?)
    ensures var s := Run(INIT, actions);
            && Enabled(s, a)
            && var stale := Apply(s, a);
            && Enabled(stale, FetchEnds)
            && (Conserved(Apply(stale, FetchEnds)) <==> !Drops(s, a) || Fetched(s.inFlight.value) == [])
  {
    RunKeepsInv(INIT, actions);
    ResetBreaksIff(Run(INIT, actions), a);
  }

  lemma ResetBreaksIff(s: State, a: Action)
    requires Inv(s) && s.inFlight.Some? && (a.SeekBack? || a.Load?)
    ensures var t := Apply(Apply(s, a), FetchEnds);
            Conserved(t) <==> !Drops(s, a) || Fetched(s.inFlight.value) == []
  {
    hide Slice, Due;
    var stale := Apply(s, a);
    if Drops(s, a) {
      var fetched := Fetched(s.inFlight.value);
      assert stale.batch == [] && stale.seen == [] && stale.position == 0 && stale.putFrom == 0;
      var t := Apply(stale, FetchEnds);
      assert t.position == 0 && t.stream[..0] == [];
      if fetched != [] { assert t.batch == [] + fetched && t.batch[0..] == fetched; }
    } else {
      OtherKeepsInv(s, a);
      FetchKeepsInv(stale);
    }
  }

  /** Such a seek: the second page is on its way when the iterator is dropped. */
  lemma StaleSeekExists(e: Event, f: Event)
    ensures var s := Run(INIT, [Load([e, f]), FetchBegins(1), FetchEnds] + [FetchBegins(1)]);
            && s.inFlight.Some? && Drops(s, SeekBack) && Fetched(s.inFlight.value) == [f]
            && Enabled(s, SeekBack) && Enabled(Apply(s, SeekBack), FetchEnds)
            && !Conserved(Apply(Apply(s, SeekBack), FetchEnds))
  {
    var loaded := INIT.(stream := [e, f]);
    var first := loaded.(iterating := true, pages := 1, inFlight := Some(Fetch([e, f], 0, 1, true)));
    var got := loaded.(iterating := true, pages := 1, position := 1, batch := [e]);
    var second := got.(pages := 2, inFlight := Some(Fetch([e, f], 1, 1, true)));
    assert Step(INIT, Load([e, f])) == loaded;
    assert Step(loaded, FetchBegins(1)) == first;
    assert Step(first, FetchEnds) == got by { assert Slice([e, f], 0, 1) == [e]; }
    assert Step(got, FetchBegins(1)) == second;
    RunConcat(INIT, [Load([e, f]), FetchBegins(1), FetchEnds], [FetchBegins(1)]);
    assert Run(INIT, [Load([e, f]), FetchBegins(1), FetchEnds]) == got by {
      hide Step;
      assert Run(INIT, [Load([e, f]), FetchBegins(1), FetchEnds]) == Run(loaded, [FetchBegins(1), FetchEnds])
          == Run(first, [FetchEnds]) == Run(got, []);
    }
    assert Run(got, [FetchBegins(1)]) == Run(second, []);
    StaleFetchBreaksIff([Load([e, f]), FetchBegins(1), FetchEnds] + [FetchBegins(1)], SeekBack);
  }

  /* ---------- ticks ---------- */

  ghost predicate SortedByTime(events: seq<Event>) {
    forall i, j :: 0 <= i < j < |events| ==> events[i].createdAt <= events[j].createdAt
  }

  /** Due counts exactly the leading events that are due. */
  lemma {:induction false} DueCounts(events: seq<Event>, until: int)
    ensures var n := Due(events, until);
            && (forall i :: 0 <= i < n ==> events[i].createdAt <= until)
            && (n < |events| ==> events[n].createdAt > until)
  {
    if events != [] && events[0].createdAt <= until {
      DueCounts(events[1..], until);
      assert forall i :: 1 <= i < |events| ==> events[i] == events[1..][i - 1];
    }
  }

  /** The events of a list up to a time, in order. */
  function UpTo(events: seq<Event>, until: int): seq<Event> {
    if events == [] then []
    else (if events[0].createdAt <= until then [events[0]] else []) + UpTo(events[1..], until)
  }

  lemma {:induction false} UpToSplits(a: seq<Event>, b: seq<Event>, until: int)
    requires forall i :: 0 <= i < |a| ==> a[i].createdAt <= until
    requires forall i :: 0 <= i < |b| ==> b[i].createdAt > until
    ensures UpTo(a + b, until) == a
    decreases |a| + |b|
  {
    if a != [] {
      assert (a + b)[1..] == a[1..] + b;
      UpToSplits(a[1..], b, until);
    } else if b != [] {
      assert a + b == b;
      UpToSplits([], b[1..], until);
      assert [] + b[1..] == b[1..];
    }
  }

  /** On a sorted stream, a tick that does not go back leaves the aggregators having seen exactly the fetched
      events up to then, once each and in order. */
  lemma TickDeliversDueEvents(actions: seq<Action>, until: int)
    requires SortedByTime(Run(INIT, actions).stream)
    requires forall i :: 0 <= i < |Run(INIT, actions).seen| ==> Run(INIT, actions).seen[i].createdAt <= until
    ensures var s := Run(INIT, actions);
            && Enabled(s, Tick(until)) && s.position <= |s.stream|
            && Apply(s, Tick(until)).seen == UpTo(s.stream[..s.position], until)
  {
    RunKeepsInv(INIT, actions);
    TickDelivers(Run(INIT, actions), until);
  }

  lemma TickDelivers(s: State, until: int)
    requires Conserved(s) && SortedByTime(s.stream)
    requires forall i :: 0 <= i < |s.seen| ==> s.seen[i].createdAt <= until
    ensures Apply(s, Tick(until)).seen == UpTo(s.stream[..s.position], until)
  {
    hide Due, UpTo;
    var rest := s.batch[s.putFrom..];
    var n := Due(rest, until);
    DueCounts(rest, until);
    assert s.batch[s.putFrom..s.putFrom + n] == rest[..n];
    assert s.stream[..s.position] == (s.seen + rest[..n]) + rest[n..] by { assert rest == rest[..n] + rest[n..]; }
    SortedPart(s.seen + rest[..n], rest[n..], s.stream, s.position);
    UpToSplits(s.seen + rest[..n], rest[n..], until);
  }

  /** In a sorted list, no later event is earlier than the first of the rest. */
  lemma SortedPart(a: seq<Event>, b: seq<Event>, stream: seq<Event>, k: nat)
    requires SortedByTime(stream) && k <= |stream| && stream[..k] == a + b
    ensures forall i :: 0 <= i < |b| ==> b[0].createdAt <= b[i].createdAt
  {
    forall i | 0 <= i < |b| ensures b[0].createdAt <= b[i].createdAt {
      assert stream[|a|] == stream[..k][|a|] == b[0] && stream[|a| + i] == stream[..k][|a| + i] == b[i];
    }
  }

  /** A seek back takes everything from the aggregators.  Up to the first page all that was fetched is still in the
      buffer and is put again; from the second page on the fetching starts over.  Either way a tick at the new
      position shows exactly the fetched events up to then. */
  lemma SeekBackShowsUpTo(actions: seq<Action>, until: int)
    ensures var s := Run(INIT, actions);
            && Enabled(s, SeekBack)
            && var t := Apply(s, SeekBack);
               && t.seen == [] && t.putFrom == 0 && t.stream == s.stream
               && (s.pages <= 1 ==> t == s.(seen := [], putFrom := 0))
               && (s.pages > 1 ==> t.batch == [] && !t.iterating && t.pages == 0 && t.position == 0)
               && (t.inFlight.Some? <==> s.inFlight.Some?)
               && t.position <= |t.stream|
               && (SortedByTime(s.stream) ==> Apply(t, Tick(until)).seen == UpTo(s.stream[..t.position], until))
  {
    RunKeepsInv(INIT, actions);
    var s := Run(INIT, actions);
    hide Run, UpTo, Due;
    var t := Apply(s, SeekBack);
    if s.pages <= 1 {
      assert [] + t.batch[0..] == t.batch;
    } else {
      assert t.stream[..0] == [];
    }
    if SortedByTime(s.stream) { TickDelivers(t, until); }
  }

  /** Another recording: nothing of the old one is shown, buffered or fetched any more. */
  lemma LoadStartsOver(actions: seq<Action>, stream: seq<Event>)
    ensures var s := Run(INIT, actions);
            && Enabled(s, Load(stream))
            && Apply(s, Load(stream)) ==
                 INIT.(stream := stream,
                       inFlight := if s.inFlight.Some? then Some(s.inFlight.value.(current := false)) else None)
  {
    RunKeepsInv(INIT, actions);
  }

  /* ---------- page after page ---------- */

  function Min(a: nat, b: nat): nat { if a <= b then a else b }

  function Page(size: nat): seq<Action> { [FetchBegins(size), FetchEnds] }

  /** A page fetched undisturbed is the next part of the stream; it is empty exactly at the end. */
  lemma FetchTakesNextPage(actions: seq<Action>, size: nat)
    requires Run(INIT, actions).inFlight == None
    ensures var s := Run(INIT, actions);
            var t := Run(s, Page(size));
            && Inv(t) && t.seen == s.seen && t.stream == s.stream && t.inFlight == None
            && t.position == Min(s.position + size, |s.stream|)
            && (size > 0 ==> (t.position == s.position <==> s.position == |s.stream|))
  {
    RunKeepsInv(INIT, actions);
    FetchFrom(Run(INIT, actions), size);
  }

  lemma FetchFrom(s: State, size: nat)
    requires Inv(s) && s.inFlight == None
    ensures var t := Run(s, Page(size));
            && Inv(t) && t.seen == s.seen && t.stream == s.stream && t.inFlight == None
            && s.position <= |s.stream| && t.position == Min(s.position + size, |s.stream|)
  {
    var b := Apply(s, FetchBegins(size));
    BeginShape(s, size);
    EndShape(b);
    RunTwo(s, FetchBegins(size), FetchEnds);
    hide *;
    FetchKeepsInv(b);
  }

  lemma BeginShape(s: State, size: nat)
    requires Inv(s) && s.inFlight == None
    ensures var b := Step(s, FetchBegins(size));
            && b == Apply(s, FetchBegins(size)) && Inv(b) && Enabled(b, FetchEnds) && b.seen == s.seen
            && b.stream == s.stream
            && b.inFlight == Some(Fetch(s.stream, s.position, size, true)) && s.position <= |s.stream|
  {
  }

  lemma EndShape(b: State)
    requires Enabled(b, FetchEnds) && b.inFlight.value.current && b.inFlight.value.from <= |b.inFlight.value.stream|
    ensures var t := Step(b, FetchEnds);
            var f := b.inFlight.value;
            && t == Apply(b, FetchEnds) && t.seen == b.seen && t.stream == b.stream && t.inFlight == None
            && t.position == Min(f.from + f.size, |f.stream|)
  {
  }

  lemma RunTwo(s: State, a: Action, b: Action)
    ensures Run(s, [a, b]) == Step(Step(s, a), b)
  {
    hide Step;
    assert [a, b][1..] == [b] && [b][1..] == [];
    assert Run(Step(s, a), [b]) == Run(Step(Step(s, a), b), []);
  }

  function Pages(size: nat, n: nat): seq<Action> {
    if n == 0 then [] else Pages(size, n - 1) + Page(size)
  }

  /** Pages of any size reach the end of the stream. */
  lemma {:induction false} PagesAdvance(s: State, size: nat, n: nat)
    requires Inv(s) && s.inFlight == None && size > 0
    ensures var t := Run(s, Pages(size, n));
            && Inv(t) && t.seen == s.seen && t.stream == s.stream && t.inFlight == None
            && t.position >= Min(s.position + n, |s.stream|)
  {
    hide Inv, Step, Page;
    if n == 0 {
    } else {
      PagesAdvance(s, size, n - 1);
      var t := Run(s, Pages(size, n - 1));
      RunConcat(s, Pages(size, n - 1), Page(size));
      FetchFrom(t, size);
    }
  }

  /** From any state with no fetch in flight: fetched page after page, the stream ends, with an empty page exactly
      there; and then one tick past the last event has given the aggregators the whole stream. */
  lemma WholeStreamIsDelivered(actions: seq<Action>, size: nat, n: nat, until: int)
    requires Run(INIT, actions).inFlight == None && size > 0
    requires forall i :: 0 <= i < |Run(INIT, actions).stream| ==> Run(INIT, actions).stream[i].createdAt <= until
    ensures var s := Run(INIT, actions);
            var t := Run(s, Pages(size, n));
            && Enabled(t, FetchBegins(size)) && Enabled(t, Tick(until))
            && (n >= |s.stream| ==> Fetched(Apply(t, FetchBegins(size)).inFlight.value) == [])
            && (Fetched(Apply(t, FetchBegins(size)).inFlight.value) == [] ==> Apply(t, Tick(until)).seen == s.stream)
  {
    RunKeepsInv(INIT, actions);
    var s := Run(INIT, actions);
    PagesAdvance(s, size, n);
    hide Run;
    var t := Run(s, Pages(size, n));
    assert t.position <= |t.stream| && t.putFrom <= |t.batch|;
    EmptyAtEnd(t.stream, t.position, size);
    if t.position == |t.stream| { TickDrains(t, until); }
  }

  lemma EmptyAtEnd(stream: seq<Event>, from: nat, size: nat)
    requires size > 0 && from <= |stream|
    ensures Slice(stream, from, size) == [] <==> from == |stream|
  {
  }

  lemma TickDrains(t: State, until: int)
    requires Conserved(t) && t.position == |t.stream|
    requires forall i :: 0 <= i < |t.stream| ==> t.stream[i].createdAt <= until
    ensures Apply(t, Tick(until)).seen == t.stream
  {
    var rest := t.batch[t.putFrom..];
    DueCounts(rest, until);
    hide Due;
    assert t.stream[..t.position] == t.stream;
    assert forall i :: 0 <= i < |rest| ==> t.stream[|t.seen| + i] == rest[i];
    assert Due(rest, until) == |rest|;
    assert t.batch[t.putFrom..t.putFrom + |rest|] == rest;
  }

  /* ---------- the room ---------- */

  class ReplayRoom {
    var eventBatch: seq<Event>
    var putFromIndex: nat
    var hasIterator: bool
    var pages: nat
    ghost var stream: seq<Event>
    ghost var position: nat
    ghost var inFlight: Option<Fetch>
    var aggregated: seq<Event>  // what the aggregators have been given

    ghost function Model(): State
      reads this
    {
      State(stream, eventBatch, putFromIndex, hasIterator, position, pages, inFlight, aggregated)
    }

    constructor ()
      ensures Model() == INIT
    {
      eventBatch, putFromIndex, hasIterator, pages, aggregated := [], 0, false, 0, [];
      stream, position, inFlight := [], 0, None;
    }

    /** fetchEventsFunc up to the await. */
    method BeginFetch(ghost size: nat)
      requires Enabled(Model(), FetchBegins(size))
      modifies this
      ensures Model() == Apply(old(Model()), FetchBegins(size))
    {
      if !hasIterator {
        hasIterator := true;
      }
      pages := pages + 1;
      inFlight := Some(Fetch(stream, position, size, true));
    }

    /** fetchEventsFunc from there on. */
    method EndFetch(fetched: seq<Event>)
      requires Enabled(Model(), FetchEnds)
      requires fetched == Fetched(inFlight.value)
      modifies this
      ensures Model() == Apply(old(Model()), FetchEnds)
    {
      if inFlight.value.current { position := inFlight.value.from + |fetched|; }
      inFlight := None;
      if |fetched| == 0 {
        return;
      }
      eventBatch := eventBatch[putFromIndex..] + fetched;
      putFromIndex := 0;
    }

    /** Returns when the next event is due, or 0. */
    method PutEventsUntil(stopAt: int) returns (nextAt: int)
      requires putFromIndex <= |eventBatch|
      modifies this`putFromIndex, this`aggregated
      ensures Model() == Apply(old(Model()), Tick(stopAt))
      ensures if putFromIndex < |eventBatch| then nextAt == eventBatch[putFromIndex].createdAt > stopAt else nextAt == 0
    {
      ghost var first, rest := putFromIndex, eventBatch[putFromIndex..];
      DueCounts(rest, stopAt);
      hide Due;
      var i := putFromIndex;
      while i < |eventBatch|
        invariant first <= i <= |eventBatch| && putFromIndex == i && i - first <= Due(rest, stopAt)
        invariant aggregated == old(aggregated) + eventBatch[first..i]
      {
        var ev := eventBatch[i];
        assert ev == rest[i - first];
        if ev.createdAt > stopAt {
          assert Due(rest, stopAt) == i - first;
          return ev.createdAt;
        }
        assert eventBatch[first..i + 1] == eventBatch[first..i] + [ev];
        aggregated := aggregated + [ev];
        putFromIndex := putFromIndex + 1;
        i := i + 1;
      }
      assert Due(rest, stopAt) == i - first;
      nextAt := 0;
    }

    method Reset()
      modifies this`aggregated, this`putFromIndex
      ensures Model() == ResetState(old(Model()))
    {
      aggregated := [];
      putFromIndex := 0;
    }

    method ResetFetching()
      modifies this
      ensures Model() == ResetEventFetching(old(Model()))
    {
      hasIterator, pages, eventBatch := false, 0, [];
      position := 0;
      inFlight := if inFlight.Some? then Some(inFlight.value.(current := false)) else None;
    }

    /** The resetting part of load. */
    method LoadRecording(ghost events: seq<Event>)
      requires putFromIndex <= |eventBatch|
      modifies this
      ensures Model() == Apply(old(Model()), Load(events))
    {
      Reset();
      ResetFetching();
      stream := events;
    }

    /** The resetting half of rewind. */
    method Rewind(backward: bool)
      requires putFromIndex <= |eventBatch|
      modifies this
      ensures Model() == if backward then Apply(old(Model()), SeekBack) else old(Model())
    {
      if backward {
        Reset();
        if hasIterator && pages > 1 {
          ResetFetching();
        }
      }
    }
  }
}
