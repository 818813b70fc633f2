/** The shared event room as a protocol: every write to memory that another goroutine can read
    without the room lock is one step, and steps of the room and of its cursors interleave freely.

    A node is named by its position in creation order, so `next` of node i is node i + 1 as soon as
    that node is linked.  Node 0 is the empty seed. */
module EventRoomProtocol {

  datatype Event = Event(id: nat, createdAt: int)

  const SEED := Event(0, 0)

  /** `signalled`: the hasNext channel is closed. */
  datatype Node = Node(event: Event, signalled: bool, evicted: bool)

  /** Where a cursor's call of Next stands: not called, waiting in the select, or past the second
      eviction check and about to read the next pointer. */
  datatype Phase = Idle | Blocked | Reading

  datatype Outcome = NoCall | Returned(event: Event) | CursorClosed | Cancelled

  /** `at` is the node the cursor points to; `start` and `seen` record the subscription point and the
      events returned so far. */
  datatype Cursor = Cursor(start: nat, at: nat, phase: Phase, closed: bool, seen: seq<Event>, last: Outcome)

  /** How far the holder of the room lock has got. */
  datatype Writer = Free | Linked | Signalled | Evicting(at: nat) | AllEvicted

  /** `iterating`: the shared room's goroutine is in its loop over Room.Next, which it leaves on any error. */
  datatype State = State(nodes: seq<Node>, head: nat, tail: nat, len: int, cap: int, writer: Writer,
                         closed: bool, iterating: bool, openedCursors: int, cursors: seq<Cursor>, panicked: bool)

  datatype Action =
    | Link(event: Event) | Signal | Trim
    | UpstreamFails | OwnerCloses | EvictNext | Reset
    | Open
    | Check(c: nat) | Wake(c: nat) | WakeClosed(c: nat) | WakeCancelled(c: nat) | Read(c: nat) | Close(c: nat)

  function Init(cap: int): State {
    State([Node(SEED, false, false)], 0, 0, 0, cap, Free, false, true, 0, [], false)
  }

  /** The events appended so far. */
  function History(s: State): seq<Event>
    requires s.nodes != []
  {
    seq(|s.nodes| - 1, i requires 0 <= i < |s.nodes| - 1 => s.nodes[i + 1].event)
  }

  /** Effective capacity: a negative limit behaves like zero. */
  function Capacity(s: State): nat { if s.cap < 0 then 0 else s.cap }

  /* ---------- steps ---------- */

  predicate Enabled(s: State, a: Action) {
    && !s.panicked && s.head < |s.nodes| && s.tail < |s.nodes|
    && match a
       case Link(_) => s.writer == Free
       case Signal => s.writer == Linked
       case Trim => s.writer == Signalled
       case UpstreamFails => s.writer == Free
       case OwnerCloses => s.writer == Free
       case EvictNext => s.writer.Evicting? && s.writer.at < |s.nodes|
       case Reset => s.writer == AllEvicted
       case Open => s.writer == Free
       case Check(c) => c < |s.cursors| && s.cursors[c].phase == Idle && s.cursors[c].at < |s.nodes|
       case Wake(c) => c < |s.cursors| && s.cursors[c].phase == Blocked && s.cursors[c].at < |s.nodes|
                       && s.nodes[s.cursors[c].at].signalled
       case WakeClosed(c) => c < |s.cursors| && s.cursors[c].phase == Blocked && s.cursors[c].closed
       case WakeCancelled(c) => c < |s.cursors| && s.cursors[c].phase == Blocked
       case Read(c) => c < |s.cursors| && s.cursors[c].phase == Reading
       case Close(c) => c < |s.cursors|
  }

  /** Closing a channel twice panics. */
  function SignalNode(s: State, i: nat): State
    requires i < |s.nodes|
  {
    if s.nodes[i].signalled then s.(panicked := true)
    else s.(nodes := s.nodes[i := s.nodes[i].(signalled := true)])
  }

  function EvictNode(s: State, i: nat): State
    requires i < |s.nodes|
  {
    s.(nodes := s.nodes[i := s.nodes[i].(evicted := true)])
  }

  /** closeOnce of the room. */
  function StartClose(s: State): State {
    if s.closed then s else s.(writer := Evicting(s.tail))
  }

  /** closeOnce of a cursor: the counter drops the first time only. */
  function Retire(s: State, c: nat, k: Cursor): State
    requires c < |s.cursors|
  {
    s.(cursors := s.cursors[c := k.(closed := true)],
       openedCursors := s.openedCursors - (if s.cursors[c].closed then 0 else 1))
  }

  /** Next returns an error after closing its cursor. */
  function Fail(s: State, c: nat, why: Outcome): State
    requires c < |s.cursors|
  {
    Retire(s, c, s.cursors[c].(phase := Idle, last := why))
  }

  function SetPhase(s: State, c: nat, p: Phase): State
    requires c < |s.cursors|
  {
    s.(cursors := s.cursors[c := s.cursors[c].(phase := p)])
  }

  function Apply(s: State, a: Action): State
    requires Enabled(s, a)
  {
    match a
    case Link(ev) => s.(nodes := s.nodes + [Node(ev, false, false)], writer := Linked)
    case Signal =>
      var t := SignalNode(s, s.head);
      if t.panicked then t else t.(head := |s.nodes| - 1, writer := Signalled)
    case Trim =>
      if s.len + 1 <= s.cap then s.(len := s.len + 1, writer := Free)
      else EvictNode(s, s.tail).(tail := s.tail + 1, writer := Free)
    case UpstreamFails => StartClose(s).(iterating := false)
    case OwnerCloses => StartClose(s)
    case EvictNext =>
      var i := s.writer.at;
      EvictNode(s, i).(writer := if i + 1 < |s.nodes| then Evicting(i + 1) else AllEvicted)
    case Reset =>
      var t := SignalNode(s, s.head);
      if t.panicked then t else t.(closed := true, writer := Free)
    case Open =>
      s.(cursors := s.cursors + [Cursor(s.head, s.head, Idle, false, [], NoCall)], openedCursors := s.openedCursors + 1)
    case Check(c) =>
      if s.nodes[s.cursors[c].at].evicted then Fail(s, c, CursorClosed) else SetPhase(s, c, Blocked)
    case Wake(c) =>
      if s.nodes[s.cursors[c].at].evicted then Fail(s, c, CursorClosed) else SetPhase(s, c, Reading)
    case WakeClosed(c) => Fail(s, c, CursorClosed)
    case WakeCancelled(c) => Fail(s, c, Cancelled)
    case Read(c) =>
      var k := s.cursors[c];
      if k.at + 1 < |s.nodes| then
        var ev := s.nodes[k.at + 1].event;
        s.(cursors := s.cursors[c := k.(at := k.at + 1, phase := Idle, seen := k.seen + [ev], last := Returned(ev))])
      else Fail(s, c, CursorClosed)
    case Close(c) => Retire(s, c, s.cursors[c])
  }

  /** A scheduled step that is not enabled does nothing, so every list of actions is an interleaving. */
  function Step(s: State, a: Action): State {
    if Enabled(s, a) then Apply(s, a) else s
  }

  function Run(s: State, actions: seq<Action>): State
    decreases |actions|
  {
    if actions == [] then s else Run(Step(s, actions[0]), actions[1..])
  }

  lemma {:induction false} RunConcat(s: State, a: seq<Action>, b: seq<Action>)
    ensures Run(s, a + b) == Run(Run(s, a), b)
    decreases |a|
  {
    if a == [] {
      assert a + b == b;
    } else {
      assert (a + b)[0] == a[0] && (a + b)[1..] == a[1..] + b;
      RunConcat(Step(s, a[0]), a[1..], b);
    }
  }

  lemma RunCons(s: State, a: Action, rest: seq<Action>)
    ensures Run(s, [a] + rest) == Run(Step(s, a), rest)
  {
  }

  lemma ThreeSteps(s: State, a: Action, b: Action, c: Action)
    ensures Run(s, [a, b, c]) == Step(Step(Step(s, a), b), c)
  {
    hide Step;
    RunCons(s, a, [b, c]);
    RunCons(Step(s, a), b, [c]);
    RunCons(Step(Step(s, a), b), c, []);
    assert [a] + [b, c] == [a, b, c] && [b] + [c] == [b, c] && [c] + [] == [c];
  }

  /* ---------- invariant ---------- */

  function CountOpen(cs: seq<Cursor>): nat {
    if cs == [] then 0 else (if cs[0].closed then 0 else 1) + CountOpen(cs[1..])
  }

  lemma {:induction false} CountOpenUpdate(cs: seq<Cursor>, i: nat, k: Cursor)
    requires i < |cs|
    ensures CountOpen(cs[i := k]) == CountOpen(cs) - (if cs[i].closed then 0 else 1) + (if k.closed then 0 else 1)
  {
    if i > 0 {
      assert cs[i := k][1..] == cs[1..][i - 1 := k];
      CountOpenUpdate(cs[1..], i - 1, k);
    } else {
      assert cs[i := k][1..] == cs[1..];
    }
  }

  lemma {:induction false} CountOpenAppend(cs: seq<Cursor>, k: Cursor)
    ensures CountOpen(cs + [k]) == CountOpen(cs) + (if k.closed then 0 else 1)
  {
    if cs == [] {
      assert cs + [k] == [k] && [k][1..] == [];
    } else {
      assert (cs + [k])[1..] == cs[1..] + [k];
      CountOpenAppend(cs[1..], k);
    }
  }

  /** Nodes below this position are evicted while the room is open or being closed. */
  function EvictedBelow(s: State): nat {
    match s.writer
    case Evicting(i) => i
    case AllEvicted => s.head + 1
    case _ => if s.closed then s.head + 1 else s.tail
  }

  /** Shape of the list: what the holder of the lock relies on. */
  ghost predicate ListInv(s: State) {
    && (s.panicked ==> s.closed && s.writer == Linked)
    && |s.nodes| > 0 && s.head < |s.nodes| && s.tail <= s.head
    && s.head + (if s.writer == Linked then 2 else 1) == |s.nodes|
    && s.tail + s.len + (if s.writer == Signalled then 1 else 0) == s.head
    && 0 <= s.len <= Capacity(s)
    && (s.tail > 0 ==> s.len == Capacity(s))
    && (s.closed ==> s.writer == Free || s.writer == Linked)
    && (s.writer.Evicting? ==> s.tail <= s.writer.at < |s.nodes|)
    && (forall i :: 0 <= i < |s.nodes| ==> (s.nodes[i].signalled <==> i < s.head || (s.closed && i == s.head)))
    && (forall i :: 0 <= i < |s.nodes| ==> (s.nodes[i].evicted <==> i < EvictedBelow(s)))
  }

  /** A cursor has returned exactly the events between its subscription point and its node. */
  ghost predicate CursorInv(nodes: seq<Node>, head: nat, k: Cursor) {
    && k.start <= k.at <= head < |nodes|
    && |k.seen| == k.at - k.start
    && (forall j :: 0 <= j < |k.seen| ==> k.seen[j] == nodes[k.start + 1 + j].event)
    && (k.phase == Reading ==> k.at < head)
  }

  ghost predicate Inv(s: State) {
    && ListInv(s)
    && s.openedCursors == CountOpen(s.cursors)
    && (forall c :: 0 <= c < |s.cursors| ==> CursorInv(s.nodes, s.head, s.cursors[c]))
  }

  predicate OfRoom(a: Action) {
    a.Link? || a.Signal? || a.Trim? || a.UpstreamFails? || a.OwnerCloses? || a.EvictNext? || a.Reset?
  }

  /** Events never change and nodes are never dropped. */
  ghost predicate Extends(nodes: seq<Node>, nodes': seq<Node>) {
    |nodes| <= |nodes'| && forall i :: 0 <= i < |nodes| ==> nodes'[i].event == nodes[i].event
  }

  lemma RoomStepExtends(s: State, a: Action)
    requires Enabled(s, a) && OfRoom(a)
    ensures var t := Apply(s, a);
            Extends(s.nodes, t.nodes) && t.cursors == s.cursors && t.openedCursors == s.openedCursors
  {
  }

  lemma AppendStepKeepsListInv(s: State, a: Action)
    requires ListInv(s) && Enabled(s, a) && (a.Link? || a.Signal? || a.Trim?)
    ensures ListInv(Apply(s, a))
  {
  }

  lemma CloseStepKeepsListInv(s: State, a: Action)
    requires ListInv(s) && Enabled(s, a) && OfRoom(a) && !a.Link? && !a.Signal? && !a.Trim?
    ensures ListInv(Apply(s, a))
  {
  }

  lemma RoomStepKeepsInv(s: State, a: Action)
    requires Inv(s) && Enabled(s, a) && OfRoom(a)
    ensures Inv(Apply(s, a))
  {
    var t := Apply(s, a);
    assert ListInv(t) by {
      if a.Link? || a.Signal? || a.Trim? { AppendStepKeepsListInv(s, a); } else { CloseStepKeepsListInv(s, a); }
    }
    RoomStepExtends(s, a);
    forall c | 0 <= c < |t.cursors| ensures CursorInv(t.nodes, t.head, t.cursors[c]) {
      assert CursorInv(s.nodes, s.head, s.cursors[c]);
    }
  }

  /** Only cursor c and the counter differ. */
  ghost predicate CursorMoved(s: State, t: State, c: nat) {
    && c < |s.cursors| == |t.cursors|
    && t == s.(cursors := t.cursors, openedCursors := t.openedCursors)
    && t.cursors == s.cursors[c := t.cursors[c]]
    && t.openedCursors == s.openedCursors - (if t.cursors[c].closed && !s.cursors[c].closed then 1 else 0)
    && (s.cursors[c].closed ==> t.cursors[c].closed)
    && t.cursors[c].start == s.cursors[c].start && s.cursors[c].seen <= t.cursors[c].seen
  }

  /** A cursor's step touches that cursor and the counter only. */
  lemma CursorStepFrame(s: State, a: Action)
    requires Enabled(s, a) && !OfRoom(a) && !a.Open?
    ensures CursorMoved(s, Apply(s, a), a.c)
  {
    if a.Read? {
      ReadFrame(s, a.c);
      hide Apply, CursorMoved;
    } else {
      FailFrame(s, a.c, CursorClosed);
      FailFrame(s, a.c, Cancelled);
      hide Fail, CursorMoved;
      if a.Check? || a.Wake? || a.Close? { PhaseFrame(s, a); }
    }
  }

  lemma ReadFrame(s: State, c: nat)
    requires Enabled(s, Read(c))
    ensures CursorMoved(s, Apply(s, Read(c)), c)
  {
  }

  lemma FailFrame(s: State, c: nat, why: Outcome)
    requires c < |s.cursors|
    ensures CursorMoved(s, Fail(s, c, why), c)
  {
  }

  lemma PhaseFrame(s: State, a: Action)
    requires Enabled(s, a) && (a.Check? || a.Wake? || a.Close?)
    ensures CursorMoved(s, Apply(s, a), a.c)
  {
  }

  /** Waking on an unevicted node means a successor is linked: the link is set before the signal, and a
      close evicts every node before its reset signals the last one. */
  lemma WokenNodeIsLinked(s: State, i: nat)
    requires ListInv(s) && i < |s.nodes| && s.nodes[i].signalled && !s.nodes[i].evicted
    ensures i < s.head && i + 1 < |s.nodes|
  {
  }

  lemma ReadKeepsCursorInv(s: State, c: nat)
    requires c < |s.cursors| && CursorInv(s.nodes, s.head, s.cursors[c]) && Enabled(s, Read(c))
    ensures CursorInv(s.nodes, s.head, Apply(s, Read(c)).cursors[c])
  {
  }

  lemma CursorStepKeepsCursorInv(s: State, a: Action)
    requires Enabled(s, a) && !OfRoom(a) && !a.Open? && CursorInv(s.nodes, s.head, s.cursors[a.c])
    requires a.Wake? && !s.nodes[s.cursors[a.c].at].evicted ==> s.cursors[a.c].at < s.head
    ensures CursorInv(s.nodes, s.head, Apply(s, a).cursors[a.c])
  {
    if a.Read? {
      ReadKeepsCursorInv(s, a.c);
    } else {
      var k := s.cursors[a.c];
      var k' := Apply(s, a).cursors[a.c];
      assert k' == k.(phase := k'.phase, closed := k'.closed, last := k'.last);
    }
  }

  lemma CursorStepKeepsInv(s: State, a: Action)
    requires Inv(s) && Enabled(s, a) && !OfRoom(a)
    ensures Inv(Apply(s, a))
  {
    var t := Apply(s, a);
    if a.Open? {
      CountOpenAppend(s.cursors, t.cursors[|s.cursors|]);
    } else {
      CursorStepFrame(s, a);
      assert CursorInv(s.nodes, s.head, s.cursors[a.c]);
      if a.Wake? && !s.nodes[s.cursors[a.c].at].evicted { WokenNodeIsLinked(s, s.cursors[a.c].at); }
      CursorStepKeepsCursorInv(s, a);
      CountOpenUpdate(s.cursors, a.c, t.cursors[a.c]);
    }
  }

  lemma StepKeepsInv(s: State, a: Action)
    requires Inv(s) && Enabled(s, a)
    ensures Inv(Apply(s, a))
  {
    hide *;
    if OfRoom(a) { RoomStepKeepsInv(s, a); } else { CursorStepKeepsInv(s, a); }
  }

  lemma {:induction false} RunKeepsInv(s: State, actions: seq<Action>)
    requires Inv(s)
    ensures Inv(Run(s, actions))
    decreases |actions|
  {
    hide Inv, Apply, Enabled;
    if actions == [] {
    } else {
      if Enabled(s, actions[0]) { StepKeepsInv(s, actions[0]); }
      RunKeepsInv(Step(s, actions[0]), actions[1..]);
    }
  }

  lemma Reachable(cap: int, actions: seq<Action>)
    ensures Inv(Run(Init(cap), actions))
  {
    RunKeepsInv(Init(cap), actions);
  }

  /* ---------- theorems ---------- */

  ghost predicate Grows(s: State, t: State) {
    && Extends(s.nodes, t.nodes)
    && |s.cursors| <= |t.cursors|
    && forall c :: 0 <= c < |s.cursors| ==>
         s.cursors[c].start == t.cursors[c].start && s.cursors[c].seen <= t.cursors[c].seen
  }

  lemma StepGrows(s: State, a: Action)
    requires Enabled(s, a)
    ensures Grows(s, Apply(s, a))
  {
    if OfRoom(a) {
      RoomStepExtends(s, a);
    } else if !a.Open? {
      CursorStepFrame(s, a);
    }
  }

  /** History only grows, and a cursor's subscription point is fixed once it is opened. */
  lemma {:induction false} RunGrows(s: State, actions: seq<Action>)
    ensures Grows(s, Run(s, actions))
    decreases |actions|
  {
    if actions == [] {
    } else {
      if Enabled(s, actions[0]) { StepGrows(s, actions[0]); }
      RunGrows(Step(s, actions[0]), actions[1..]);
    }
  }

  /** Whatever happened before and happens after a cursor is opened, the events it has returned are the
      events appended since then, up to some point: no gap, no repeat, no reordering.  The steps after
      may evict the cursor's node between the check and the read, close the cursor or the room. */
  lemma CursorReadsSlice(cap: int, before: seq<Action>, after: seq<Action>)
    requires Enabled(Run(Init(cap), before), Open)
    ensures var s := Run(Init(cap), before);
            var t := Run(Init(cap), before + [Open] + after);
            var c := |s.cursors|;
            && Inv(s) && Inv(t) && c < |t.cursors|
            && History(s) <= History(t)
            && |History(s)| + |t.cursors[c].seen| <= |History(t)|
            && t.cursors[c].seen == History(t)[|History(s)|..|History(s)| + |t.cursors[c].seen|]
  {
    var s := Run(Init(cap), before);
    Reachable(cap, before);
    OpenStep(s);
    var u := Step(s, Open);
    RunConcat(Init(cap), before, [Open]);
    RunCons(s, Open, []);
    assert [Open] + [] == [Open] && Run(u, []) == u;
    RunConcat(Init(cap), before + [Open], after);
    RunKeepsInv(u, after);
    RunGrows(u, after);
    hide *;
    SliceSinceOpen(s, u, Run(u, after));
  }

  lemma OpenStep(s: State)
    requires Inv(s) && Enabled(s, Open)
    ensures var u := Step(s, Open);
            && Inv(u) && |u.cursors| == |s.cursors| + 1 && u.cursors[|s.cursors|].start == s.head
            && u.nodes == s.nodes && s.head + 1 == |s.nodes|
  {
    StepKeepsInv(s, Open);
  }

  /** A cursor of t opened in s has read the events after s up to its node. */
  lemma SliceSinceOpen(s: State, u: State, t: State)
    requires Inv(t) && Grows(u, t) && u.nodes == s.nodes && s.head + 1 == |s.nodes|
    requires |u.cursors| == |s.cursors| + 1 && u.cursors[|s.cursors|].start == s.head
    ensures var c := |s.cursors|;
            && t.nodes != [] && c < |t.cursors| && History(s) <= History(t)
            && |History(s)| + |t.cursors[c].seen| <= |History(t)|
            && t.cursors[c].seen == History(t)[|History(s)|..|History(s)| + |t.cursors[c].seen|]
  {
    assert CursorInv(t.nodes, t.head, t.cursors[|s.cursors|]);
  }

  /** Between two appends the list from tail to head has min(n, capacity) edges, exactly its nodes are
      not evicted, and a cursor's node is evicted iff the cursor has more unread events than fit. */
  lemma WindowIsBounded(cap: int, actions: seq<Action>)
    ensures var s := Run(Init(cap), actions);
            s.nodes != [] && (
            s.writer == Free && !s.closed ==>
              var n := |History(s)|;
              && s.head == n && s.head - s.tail == s.len
              && s.len == (if n <= Capacity(s) then n else Capacity(s))
              && (forall i :: 0 <= i < |s.nodes| ==> (!s.nodes[i].evicted <==> s.tail <= i <= s.head))
              && (forall c :: 0 <= c < |s.cursors| ==>
                    && s.cursors[c].at < |s.nodes|
                    && (s.nodes[s.cursors[c].at].evicted <==> n - s.cursors[c].at > Capacity(s))))
  {
    Reachable(cap, actions);
    var s := Run(Init(cap), actions);
    forall c | 0 <= c < |s.cursors| ensures s.cursors[c].at < |s.nodes| {
      assert CursorInv(s.nodes, s.head, s.cursors[c]);
    }
  }

  /** The call of Next ended with ErrCursorClosed and closed its cursor. */
  predicate FailsClosed(before: Cursor, after: Cursor) {
    after.phase == Idle && after.last == CursorClosed && after.closed && after.seen == before.seen
  }

  /** What an undisturbed call of Next does on an open room: it fails at once if more events are unread than
      fit, delivers the oldest unread event if there is one, and otherwise blocks. */
  lemma NextDeliversOldestUnread(cap: int, actions: seq<Action>, c: nat)
    requires var s := Run(Init(cap), actions);
             s.writer == Free && !s.closed && c < |s.cursors| && s.cursors[c].phase == Idle
    ensures var s := Run(Init(cap), actions);
            var k := s.cursors[c];
            && s.nodes != [] && k.at <= |History(s)| && Enabled(s, Check(c))
            && var unread := |History(s)| - k.at;
               var t := Apply(s, Check(c));
               if unread > Capacity(s) then FailsClosed(k, t.cursors[c])
               else if unread == 0 then t.cursors[c] == k.(phase := Blocked) && !Enabled(t, Wake(c))
               else
                 && var r := Run(s, [Check(c), Wake(c), Read(c)]);
                    c < |r.cursors| && r.cursors[c].seen == k.seen + [History(s)[k.at]]
                    && r.cursors[c].last == Returned(History(s)[k.at]) && r.cursors[c].closed == k.closed
  {
    hide Run, Step, Apply, Enabled, Init, Inv, ListInv, CursorInv, FailsClosed, Delivered;
    var s := Run(Init(cap), actions);
    Reachable(cap, actions);
    OpenRoomShape(s, c);
    var k := s.cursors[c];
    UnreadIsInWindow(s, k);
    CheckOutcome(s, c);
    var unread := |History(s)| - k.at;
    if 0 < unread <= Capacity(s) {
      NextOnLinkedNode(s, c);
      DeliveredShape(s, c);
    }
  }

  lemma OpenRoomShape(s: State, c: nat)
    requires Inv(s) && s.writer == Free && !s.closed && c < |s.cursors|
    ensures ListInv(s) && CursorInv(s.nodes, s.head, s.cursors[c]) && !s.panicked
    ensures s.head < |s.nodes| && s.tail < |s.nodes| && s.cursors[c].at < |s.nodes|
    ensures s.head + 1 == |s.nodes| && s.cursors[c].at <= s.head
  {
  }

  lemma CheckOutcome(s: State, c: nat)
    requires !s.panicked && s.head < |s.nodes| && s.tail < |s.nodes| && c < |s.cursors|
    requires s.cursors[c].phase == Idle && s.cursors[c].at < |s.nodes|
    ensures Enabled(s, Check(c))
    ensures var k := s.cursors[c];
            var t := Apply(s, Check(c));
            && c < |t.cursors|
            && if s.nodes[k.at].evicted then FailsClosed(k, t.cursors[c])
               else t.cursors[c] == k.(phase := Blocked) && (Enabled(t, Wake(c)) <==> s.nodes[k.at].signalled)
  {
  }

  lemma DeliveredShape(s: State, c: nat)
    requires c < |s.cursors| && s.cursors[c].at + 1 < |s.nodes|
    ensures var r := Delivered(s, c);
            var k := s.cursors[c];
            var ev := s.nodes[k.at + 1].event;
            && c < |r.cursors| && r.cursors[c].seen == k.seen + [ev]
            && r.cursors[c].last == Returned(ev) && r.cursors[c].closed == k.closed
  {
  }

  lemma UnreadIsInWindow(s: State, k: Cursor)
    requires ListInv(s) && s.writer == Free && !s.closed && CursorInv(s.nodes, s.head, k)
    ensures var unread := |History(s)| - k.at;
            && 0 <= unread && (s.nodes[k.at].evicted <==> unread > Capacity(s))
            && (s.nodes[k.at].signalled <==> unread > 0) && (unread > 0 ==> History(s)[k.at] == s.nodes[k.at + 1].event)
  {
  }

  lemma NextOnLinkedNode(s: State, c: nat)
    requires !s.panicked && s.head < |s.nodes| && s.tail < |s.nodes| && c < |s.cursors|
    requires var k := s.cursors[c];
             k.phase == Idle && k.at + 1 < |s.nodes| && !s.nodes[k.at].evicted && s.nodes[k.at].signalled
    ensures Run(s, [Check(c), Wake(c), Read(c)]) == Delivered(s, c)
  {
    hide Step, Delivered;
    CheckStep(s, c);
    WakeStep(SetPhase(s, c, Blocked), c);
    ReadStep(s, c);
    SetPhaseTwice(s, c, Blocked, Reading);
    ThreeSteps(s, Check(c), Wake(c), Read(c));
  }

  /** The cursor has moved to the next node and returned its event. */
  function Delivered(s: State, c: nat): State
    requires c < |s.cursors| && s.cursors[c].at + 1 < |s.nodes|
  {
    var k := s.cursors[c];
    var ev := s.nodes[k.at + 1].event;
    s.(cursors := s.cursors[c := k.(at := k.at + 1, phase := Idle, seen := k.seen + [ev], last := Returned(ev))])
  }

  lemma SetPhaseTwice(s: State, c: nat, p: Phase, q: Phase)
    requires c < |s.cursors|
    ensures SetPhase(SetPhase(s, c, p), c, q) == SetPhase(s, c, q)
  {
    assert s.cursors[c := s.cursors[c].(phase := p)][c := s.cursors[c].(phase := q)]
        == s.cursors[c := s.cursors[c].(phase := q)];
  }

  lemma CheckStep(s: State, c: nat)
    requires Enabled(s, Check(c)) && !s.nodes[s.cursors[c].at].evicted
    ensures Step(s, Check(c)) == SetPhase(s, c, Blocked)
  {
  }

  lemma WakeStep(s: State, c: nat)
    requires Enabled(s, Wake(c)) && !s.nodes[s.cursors[c].at].evicted
    ensures Step(s, Wake(c)) == SetPhase(s, c, Reading)
  {
  }

  lemma ReadStep(s: State, c: nat)
    requires !s.panicked && s.head < |s.nodes| && s.tail < |s.nodes|
    requires c < |s.cursors| && s.cursors[c].at + 1 < |s.nodes|
    ensures Step(SetPhase(s, c, Reading), Read(c)) == Delivered(s, c)
  {
    var t := Step(SetPhase(s, c, Reading), Read(c));
    assert t.cursors == Delivered(s, c).cursors;
  }

  /** How the shared room uses its room: only the iterator calls Room.Next, until it fails, and the owner closes
      the room after the iterator has left its loop. */
  predicate Discipline(s: State, a: Action) {
    && (a.Link? || a.UpstreamFails? ==> s.iterating)
    && (a.OwnerCloses? ==> !s.iterating)
  }

  predicate Obeys(s: State, actions: seq<Action>)
    decreases |actions|
  {
    actions != [] ==>
      (Enabled(s, actions[0]) ==> Discipline(s, actions[0])) && Obeys(Step(s, actions[0]), actions[1..])
  }

  ghost predicate Orderly(s: State) {
    && !s.panicked && (s.closed ==> s.writer == Free && !s.iterating)
    && (s.iterating ==> !s.writer.Evicting? && s.writer != AllEvicted)
  }

  lemma DisciplineKeepsOrder(s: State, a: Action)
    requires ListInv(s) && Orderly(s) && Enabled(s, a) && Discipline(s, a)
    ensures Orderly(Apply(s, a))
  {
    if OfRoom(a) {
    } else if !a.Open? {
      CursorStepFrame(s, a);
    }
  }

  lemma {:induction false} ObeyingKeepsOrder(s: State, actions: seq<Action>)
    requires Inv(s) && Orderly(s) && Obeys(s, actions)
    ensures Orderly(Run(s, actions))
    decreases |actions|
  {
    hide Apply, Enabled, Discipline, Orderly, ListInv;
    if actions == [] {
    } else {
      var a := actions[0];
      if Enabled(s, a) {
        DisciplineKeepsOrder(s, a);
        StepKeepsInv(s, a);
      }
      ObeyingKeepsOrder(Step(s, a), actions[1..]);
    }
  }

  /** The counter the garbage collector reads is always exact.  A channel is closed twice only by an append to a
      room that is closed already, and never by a schedule that keeps the shared room's discipline. */
  lemma NeverPanicsAndCountsCursors(cap: int, actions: seq<Action>)
    ensures var s := Run(Init(cap), actions);
            && s.openedCursors == CountOpen(s.cursors)
            && (s.panicked ==> s.closed && s.writer == Linked)
            && (Obeys(Init(cap), actions) ==> !s.panicked)
  {
    Reachable(cap, actions);
    if Obeys(Init(cap), actions) { ObeyingKeepsOrder(Init(cap), actions); }
  }

  /** An append panics, when it comes to its signal, exactly if the room has been closed. */
  lemma BareAppendPanicsIffClosed(cap: int, actions: seq<Action>, ev: Event)
    requires Enabled(Run(Init(cap), actions), Link(ev))
    ensures var s := Run(Init(cap), actions);
            var linked := Apply(s, Link(ev));
            Enabled(linked, Signal) && (Apply(linked, Signal).panicked <==> s.closed)
  {
    Reachable(cap, actions);
    var s := Run(Init(cap), actions);
    assert s.nodes[s.head].signalled <==> s.closed;
    assert (s.nodes + [Node(ev, false, false)])[s.head] == s.nodes[s.head];
  }

  function Repeat(a: Action, n: nat): seq<Action> { seq(n, _ => a) }

  /** Finishing a close: the remaining evictions, then the reset. */
  lemma {:induction false} EvictionFinishes(s: State)
    requires Inv(s) && s.writer.Evicting?
    ensures var n := |s.nodes| - s.writer.at;
            n > 0 &&
            var t := Run(s, Repeat(EvictNext, n) + [Reset]);
            t.closed && t.writer == Free && t.cursors == s.cursors
    decreases |s.nodes| - s.writer.at
  {
    hide Step, Run, Inv;
    EvictStep(s);
    var n := |s.nodes| - s.writer.at;
    var t := Step(s, EvictNext);
    var rest := Repeat(EvictNext, n - 1) + [Reset];
    assert Repeat(EvictNext, n) + [Reset] == [EvictNext] + rest;
    RunCons(s, EvictNext, rest);
    if t.writer.Evicting? {
      EvictionFinishes(t);
    } else {
      assert rest == [Reset];
      ResetFinishes(t);
    }
  }

  lemma EvictStep(s: State)
    requires Inv(s) && s.writer.Evicting?
    ensures var t := Step(s, EvictNext);
            && s.writer.at < |s.nodes| && Inv(t) && |t.nodes| == |s.nodes| && t.cursors == s.cursors
            && t.writer == if s.writer.at + 1 < |s.nodes| then Evicting(s.writer.at + 1) else AllEvicted
  {
    RoomStepKeepsInv(s, EvictNext);
  }

  lemma ResetFinishes(s: State)
    requires Inv(s) && s.writer == AllEvicted
    ensures var t := Run(s, [Reset]);
            t.closed && t.writer == Free && t.cursors == s.cursors
  {
    RunCons(s, Reset, []);
    assert [Reset] + [] == [Reset];
  }

  /** The room's fields, apart from its cursors. */
  predicate SameRoom(s: State, t: State) {
    t == s.(cursors := t.cursors, openedCursors := t.openedCursors)
  }

  /** The steps of the lock holder in a schedule. */
  function RoomSteps(actions: seq<Action>): seq<Action> {
    if actions == [] then []
    else (if OfRoom(actions[0]) then [actions[0]] else []) + RoomSteps(actions[1..])
  }

  lemma RoomStepIgnoresCursors(s: State, t: State, a: Action)
    requires SameRoom(s, t) && OfRoom(a)
    ensures SameRoom(Step(s, a), Step(t, a))
  {
    assert Enabled(s, a) <==> Enabled(t, a) by { hide Apply; }
    if Enabled(s, a) {
      hide Enabled;
      if a.Link? || a.Signal? || a.Trim? { AppendIgnoresCursors(s, t, a); } else { CloseIgnoresCursors(s, t, a); }
      hide Apply;
    }
  }

  lemma AppendIgnoresCursors(s: State, t: State, a: Action)
    requires SameRoom(s, t) && Enabled(s, a) && Enabled(t, a) && (a.Link? || a.Signal? || a.Trim?)
    ensures SameRoom(Apply(s, a), Apply(t, a))
  {
  }

  lemma CloseIgnoresCursors(s: State, t: State, a: Action)
    requires SameRoom(s, t) && Enabled(s, a) && Enabled(t, a) && OfRoom(a) && !a.Link? && !a.Signal? && !a.Trim?
    ensures SameRoom(Apply(s, a), Apply(t, a))
  {
  }

  lemma CursorStepKeepsRoom(s: State, a: Action)
    requires !OfRoom(a)
    ensures SameRoom(s, Step(s, a))
  {
    if Enabled(s, a) && !a.Open? { CursorStepFrame(s, a); }
  }

  /** Whatever cursors are opened, read and closed in between, the room goes through what the lock holder does
      to it. */
  lemma {:induction false} CursorsDoNotDisturbRoom(s: State, t: State, actions: seq<Action>)
    requires SameRoom(s, t)
    ensures SameRoom(Run(s, actions), Run(t, RoomSteps(actions)))
    decreases |actions|
  {
    hide Step, OfRoom;
    if actions == [] {
    } else {
      var a := actions[0];
      var rest := RoomSteps(actions[1..]);
      if OfRoom(a) {
        RoomStepIgnoresCursors(s, t, a);
        CursorsDoNotDisturbRoom(Step(s, a), Step(t, a), actions[1..]);
        assert ([a] + rest)[1..] == rest;
      } else {
        CursorStepKeepsRoom(s, a);
        CursorsDoNotDisturbRoom(Step(s, a), t, actions[1..]);
        assert [] + rest == rest;
      }
    }
  }

  predicate ClosingStep(a: Action) { a == UpstreamFails || a == OwnerCloses }

  /** Once the upstream cursor fails or the owner closes the room, the close completes in as many steps of the
      lock holder as there are nodes, whatever the cursors do in between. */
  lemma CloseTerminates(cap: int, actions: seq<Action>, first: Action, schedule: seq<Action>)
    requires ClosingStep(first) && Enabled(Run(Init(cap), actions), first)
    requires var s := Run(Init(cap), actions);
             s.tail < |s.nodes| ==> RoomSteps(schedule) == [first] + Repeat(EvictNext, |s.nodes| - s.tail) + [Reset]
    ensures var s := Run(Init(cap), actions);
            && s.tail < |s.nodes|
            && Run(s, schedule).closed && Run(s, schedule).writer == Free
  {
    hide Run, Step, RoomSteps, Init, Enabled, Inv;
    var s := Run(Init(cap), actions);
    Reachable(cap, actions);
    CloseFinishes(s, first);
    CursorsDoNotDisturbRoom(s, s, schedule);
  }

  lemma CloseFinishes(s: State, first: Action)
    requires Inv(s) && ClosingStep(first) && Enabled(s, first)
    ensures s.tail < |s.nodes|
    ensures var t := Run(s, [first] + Repeat(EvictNext, |s.nodes| - s.tail) + [Reset]);
            t.closed && t.writer == Free
  {
    hide Step, Run, Inv;
    CloseStarts(s, first);
    var n := |s.nodes| - s.tail;
    var t := Step(s, first);
    var rest := Repeat(EvictNext, n) + [Reset];
    assert [first] + Repeat(EvictNext, n) + [Reset] == [first] + rest;
    RunCons(s, first, rest);
    if s.closed { NothingToEvict(t, rest); } else { EvictionFinishes(t); }
  }

  lemma CloseStarts(s: State, first: Action)
    requires Inv(s) && ClosingStep(first) && Enabled(s, first)
    ensures var t := Step(s, first);
            && Inv(t) && s.tail < |s.nodes| && |t.nodes| == |s.nodes|
            && t.writer == (if s.closed then Free else Evicting(s.tail)) && t.closed == s.closed
  {
    RoomStepKeepsInv(s, first);
  }

  lemma {:induction false} NothingToEvict(s: State, actions: seq<Action>)
    requires s.writer == Free && forall i :: 0 <= i < |actions| ==> actions[i] == EvictNext || actions[i] == Reset
    ensures Run(s, actions) == s
    decreases |actions|
  {
    if actions == [] {
    } else {
      assert Step(s, actions[0]) == s;
      NothingToEvict(s, actions[1..]);
    }
  }

  /** A closed room stays closed. */
  lemma {:induction false} ClosedStaysClosed(s: State, actions: seq<Action>)
    requires s.closed
    ensures Run(s, actions).closed
    decreases |actions|
  {
    hide Step;
    if actions == [] {
    } else {
      StepKeepsClosed(s, actions[0]);
      ClosedStaysClosed(Step(s, actions[0]), actions[1..]);
    }
  }

  lemma StepKeepsClosed(s: State, a: Action)
    requires s.closed
    ensures Step(s, a).closed
  {
  }

  /** After the room has closed, on every cursor, opened before or after: a fresh Next fails at its
      first check; a blocked Next can wake, and fails however the select chooses to wake it; a Next
      that was past both checks still delivers the event it was promised.  Only a late append, which
      panics, ends this. */
  lemma CloseWakesEveryone(cap: int, actions: seq<Action>, later: seq<Action>, c: nat)
    requires Run(Init(cap), actions).closed
    requires c < |Run(Init(cap), actions + later).cursors|
    ensures var s := Run(Init(cap), actions + later);
            && s.closed && s.head < |s.nodes|
            && (forall i :: 0 <= i <= s.head ==> s.nodes[i].evicted && s.nodes[i].signalled)
            && s.cursors[c].at <= s.head
            && (!s.panicked ==> FailsNext(s, c))
  {
    RunConcat(Init(cap), actions, later);
    Reachable(cap, actions);
    Reachable(cap, actions + later);
    ClosedStaysClosed(Run(Init(cap), actions), later);
    hide *;
    ClosedRoomFailsNext(Run(Init(cap), actions + later), c);
  }

  ghost predicate FailsNext(s: State, c: nat)
    requires c < |s.cursors| && s.nodes != []
  {
    var k := s.cursors[c];
    && (k.phase == Idle ==> Enabled(s, Check(c)) && FailsClosed(k, Apply(s, Check(c)).cursors[c]))
    && (k.phase == Blocked ==> Enabled(s, Wake(c)) && FailsClosed(k, Apply(s, Wake(c)).cursors[c]))
    && (k.phase == Reading ==>
          && Enabled(s, Read(c)) && k.at < |History(s)|
          && Apply(s, Read(c)).cursors[c].last == Returned(History(s)[k.at]))
  }

  lemma ClosedRoomFailsNext(s: State, c: nat)
    requires Inv(s) && s.closed && c < |s.cursors|
    ensures s.head < |s.nodes| && s.cursors[c].at <= s.head
    ensures forall i :: 0 <= i <= s.head ==> s.nodes[i].evicted && s.nodes[i].signalled
    ensures !s.panicked ==> FailsNext(s, c)
  {
    assert CursorInv(s.nodes, s.head, s.cursors[c]);
  }

  /* ---------- what a call returns ---------- */

  /** The call of cursor k has ended with an error, which closes the cursor. */
  predicate EndsWith(k: Cursor, after: Cursor, why: Outcome) {
    after == k.(phase := Idle, last := why, closed := true)
  }

  /** From every reachable state, open room or closed: a call finds its node evicted and fails, or blocks; a blocked
      call that its context wakes fails with the context's error, one that its own closed channel wakes with
      ErrCursorClosed, and one that hasNext wakes with ErrCursorClosed if its node has been evicted meanwhile, or
      else goes on to read; and a reading call delivers the event behind its node and moves there.  A failed call
      closes the cursor, which lowers the counter unless it was closed before; nothing else changes. */
  lemma CallOutcomes(cap: int, actions: seq<Action>, c: nat, a: Action)
    requires Enabled(Run(Init(cap), actions), a) && a in {Check(c), Wake(c), WakeClosed(c), WakeCancelled(c), Read(c)}
    ensures var s := Run(Init(cap), actions);
            var t := Apply(s, a);
            && c < |s.cursors| == |t.cursors|
            && var k := s.cursors[c];
               var after := t.cursors[c];
               && k.at < |s.nodes|
               && t == s.(cursors := s.cursors[c := after],
                          openedCursors := s.openedCursors - (if after.closed && !k.closed then 1 else 0))
               && (a == Check(c) ==>
                     if s.nodes[k.at].evicted then EndsWith(k, after, CursorClosed) else after == k.(phase := Blocked))
               && (a == Wake(c) ==> s.nodes[k.at].signalled)
               && (a == Wake(c) ==>
                     if s.nodes[k.at].evicted then EndsWith(k, after, CursorClosed) else after == k.(phase := Reading))
               && (a == WakeClosed(c) ==> k.closed && EndsWith(k, after, CursorClosed))
               && (a == WakeCancelled(c) ==> EndsWith(k, after, Cancelled))
               && (a == Read(c) ==>
                     && k.at + 1 < |s.nodes|
                     && var ev := s.nodes[k.at + 1].event;
                        after == k.(phase := Idle, at := k.at + 1, seen := k.seen + [ev], last := Returned(ev)))
  {
    var s := Run(Init(cap), actions);
    Reachable(cap, actions);
    assert CursorInv(s.nodes, s.head, s.cursors[c]);
    hide Run, Inv;
  }

  /* ---------- reachable steps, spelled out for the implementation ---------- */

  /** The state after a list of steps from a new room. */
  function Reach(cap: int, trace: seq<Action>): State { Run(Init(cap), trace) }

  lemma ReachStep(cap: int, trace: seq<Action>, a: Action)
    ensures Reach(cap, trace + [a]) == Step(Reach(cap, trace), a)
  {
    RunConcat(Init(cap), trace, [a]);
    assert Run(Reach(cap, trace), [a]) == Run(Step(Reach(cap, trace), a), []);
  }

  /** Everything a step can rely on that is not visible in the fields themselves. */
  lemma ReachShape(cap: int, trace: seq<Action>)
    ensures var m := Reach(cap, trace);
            && m.cap == cap && m.tail <= m.head < |m.nodes|
            && (m.writer != Linked ==> !m.panicked)
            && (m.writer != Linked ==> m.head + 1 == |m.nodes| && (m.nodes[m.head].signalled <==> m.closed))
            && (m.closed ==> m.writer == Free || m.writer == Linked)
            && (m.writer == Signalled ==> m.tail < m.head)
            && (m.writer.Evicting? ==> m.writer.at < |m.nodes|)
            && (m.writer == AllEvicted ==> !m.closed && m.nodes[m.head].evicted)
    decreases |trace|
  {
    Reachable(cap, trace);
    RunKeepsCap(Init(cap), trace);
  }

  lemma {:induction false} RunKeepsCap(s: State, actions: seq<Action>)
    ensures Run(s, actions).cap == s.cap
    decreases |actions|
  {
    if actions == [] {
    } else {
      RunKeepsCap(Step(s, actions[0]), actions[1..]);
    }
  }

  lemma ReachCursor(cap: int, trace: seq<Action>, c: nat)
    requires c < |Reach(cap, trace).cursors|
    ensures var m := Reach(cap, trace);
            var k := m.cursors[c];
            k.at < |m.nodes| && (k.phase == Reading ==> k.at + 1 < |m.nodes|)
  {
    Reachable(cap, trace);
    assert CursorInv(Reach(cap, trace).nodes, Reach(cap, trace).head, Reach(cap, trace).cursors[c]);
  }

  lemma AppendShape(cap: int, trace: seq<Action>, ev: Event)
    requires Reach(cap, trace).writer == Free && !Reach(cap, trace).closed
    ensures var m := Reach(cap, trace);
            && m.head + 1 == |m.nodes| && !m.nodes[m.head].signalled
            && Reach(cap, trace + [Link(ev), Signal]) ==
                 m.(nodes := m.nodes[m.head := m.nodes[m.head].(signalled := true)] + [Node(ev, false, false)],
                    head := m.head + 1, writer := Signalled)
  {
    var m := Reach(cap, trace);
    ReachShape(cap, trace);
    ReachStep(cap, trace, Link(ev));
    ReachStep(cap, trace + [Link(ev)], Signal);
    assert trace + [Link(ev)] + [Signal] == trace + [Link(ev), Signal];
    var t := Step(m, Link(ev));
    assert t.nodes[m.head := t.nodes[m.head].(signalled := true)]
        == m.nodes[m.head := m.nodes[m.head].(signalled := true)] + [Node(ev, false, false)];
  }

  lemma TrimShape(cap: int, trace: seq<Action>)
    requires Reach(cap, trace).writer == Signalled
    ensures var m := Reach(cap, trace);
            && m.tail + 1 < |m.nodes|
            && Reach(cap, trace + [Trim]) ==
                 if m.len + 1 <= cap then m.(len := m.len + 1, writer := Free)
                 else m.(nodes := m.nodes[m.tail := m.nodes[m.tail].(evicted := true)], tail := m.tail + 1, writer := Free)
  {
    ReachShape(cap, trace);
    ReachStep(cap, trace, Trim);
  }

  lemma StartCloseShape(cap: int, trace: seq<Action>, first: Action)
    requires Reach(cap, trace).writer == Free && ClosingStep(first)
    ensures var m := Reach(cap, trace);
            && m.tail < |m.nodes|
            && Reach(cap, trace + [first]) ==
                 m.(iterating := m.iterating && first == OwnerCloses, writer := if m.closed then Free else Evicting(m.tail))
  {
    ReachShape(cap, trace);
    ReachStep(cap, trace, first);
  }

  lemma EvictShape(cap: int, trace: seq<Action>, i: nat)
    requires Reach(cap, trace).writer == Evicting(i)
    ensures var m := Reach(cap, trace);
            && i < |m.nodes|
            && Reach(cap, trace + [EvictNext]) ==
                 m.(nodes := m.nodes[i := m.nodes[i].(evicted := true)],
                    writer := if i + 1 < |m.nodes| then Evicting(i + 1) else AllEvicted)
  {
    ReachShape(cap, trace);
    ReachStep(cap, trace, EvictNext);
  }

  lemma ResetShape(cap: int, trace: seq<Action>)
    requires Reach(cap, trace).writer == AllEvicted
    ensures var m := Reach(cap, trace);
            && m.head < |m.nodes| && !m.nodes[m.head].signalled && m.nodes[m.head].evicted
            && Reach(cap, trace + [Reset]) ==
                 m.(nodes := m.nodes[m.head := m.nodes[m.head].(signalled := true)], closed := true, writer := Free)
  {
    ReachShape(cap, trace);
    ReachStep(cap, trace, Reset);
  }

  lemma OpenShape(cap: int, trace: seq<Action>)
    requires Reach(cap, trace).writer == Free
    ensures var m := Reach(cap, trace);
            && m.head < |m.nodes|
            && Reach(cap, trace + [Open]) ==
                 m.(cursors := m.cursors + [Cursor(m.head, m.head, Idle, false, [], NoCall)],
                    openedCursors := m.openedCursors + 1)
  {
    ReachShape(cap, trace);
    ReachStep(cap, trace, Open);
  }

  lemma CheckShape(cap: int, trace: seq<Action>, c: nat)
    requires !Reach(cap, trace).panicked
    requires c < |Reach(cap, trace).cursors| && Reach(cap, trace).cursors[c].phase == Idle
    ensures var m := Reach(cap, trace);
            && m.cursors[c].at < |m.nodes|
            && Reach(cap, trace + [Check(c)]) ==
                 (var k := m.cursors[c];
                  if m.nodes[k.at].evicted then
                    m.(cursors := m.cursors[c := k.(phase := Idle, last := CursorClosed, closed := true)],
                       openedCursors := m.openedCursors - (if k.closed then 0 else 1))
                  else m.(cursors := m.cursors[c := k.(phase := Blocked)]))
  {
    ReachShape(cap, trace);
    ReachCursor(cap, trace, c);
    ReachStep(cap, trace, Check(c));
  }

  lemma WakeShape(cap: int, trace: seq<Action>, c: nat, a: Action)
    requires !Reach(cap, trace).panicked
    requires c < |Reach(cap, trace).cursors| && Reach(cap, trace).cursors[c].phase == Blocked
    requires var m := Reach(cap, trace);
             || (a == Wake(c) && m.cursors[c].at < |m.nodes| && m.nodes[m.cursors[c].at].signalled)
             || (a == WakeClosed(c) && m.cursors[c].closed)
             || a == WakeCancelled(c)
    ensures var m := Reach(cap, trace);
            && m.cursors[c].at < |m.nodes|
            && Reach(cap, trace + [a]) ==
                 (var k := m.cursors[c];
                  if a.Wake? && !m.nodes[k.at].evicted then m.(cursors := m.cursors[c := k.(phase := Reading)])
                  else
                    m.(cursors := m.cursors[c := k.(phase := Idle, closed := true,
                                                    last := if a.WakeCancelled? then Cancelled else CursorClosed)],
                       openedCursors := m.openedCursors - (if k.closed then 0 else 1)))
  {
    ReachShape(cap, trace);
    ReachCursor(cap, trace, c);
    ReachStep(cap, trace, a);
  }

  lemma ReadShape(cap: int, trace: seq<Action>, c: nat)
    requires !Reach(cap, trace).panicked
    requires c < |Reach(cap, trace).cursors| && Reach(cap, trace).cursors[c].phase == Reading
    ensures var m := Reach(cap, trace);
            var k := m.cursors[c];
            && k.at + 1 < |m.nodes|
            && var ev := m.nodes[k.at + 1].event;
               Reach(cap, trace + [Read(c)]) ==
                 m.(cursors := m.cursors[c := k.(at := k.at + 1, phase := Idle, seen := k.seen + [ev], last := Returned(ev))])
  {
    ReachShape(cap, trace);
    ReachCursor(cap, trace, c);
    ReachStep(cap, trace, Read(c));
  }

  lemma CloseShape(cap: int, trace: seq<Action>, c: nat)
    requires !Reach(cap, trace).panicked
    requires c < |Reach(cap, trace).cursors|
    ensures var m := Reach(cap, trace);
            Reach(cap, trace + [Close(c)]) ==
              m.(cursors := m.cursors[c := m.cursors[c].(closed := true)],
                 openedCursors := m.openedCursors - (if m.cursors[c].closed then 0 else 1))
  {
    ReachShape(cap, trace);
    ReachStep(cap, trace, Close(c));
  }
}
