/** The room, its nodes and its cursors as heap objects.  `model` is the protocol state the objects stand
    for; every method moves it by exactly the protocol steps its body performs. */
module EventRoom {
  import opened EventRoomProtocol
  import opened Wrappers

  /** What the upstream cursor's Next gave the room. */
  datatype Upstream = Received(event: Event) | Failed

  /** Which case of the select fired. */
  datatype Selected = HasNext | CursorChannelClosed | ContextDone

  class EventNode {
    var hasNext: bool  // the channel has been closed
    var next: EventNode?
    var evicted: bool
    const event: Event

    constructor (event: Event)
      ensures this.event == event && !hasNext && next == null && !evicted
    {
      this.event := event;
      hasNext, next, evicted := false, null, false;
    }

    /** Cursors read these fields without the room lock, so this holds after every single write. */
    ghost predicate Published()
      reads this
    {
      hasNext ==> next != null || evicted
    }

    /** The link, which readers do not look at before the signal. */
    method LinkNext(node: EventNode)
      requires !hasNext
      modifies this`next
      ensures next == node && Published()
    {
      next := node;
    }

    /** The signal, which must find the link in place.  Closing a closed channel panics. */
    method SignalNext()
      requires !hasNext && next != null
      modifies this`hasNext
      ensures hasNext && Published()
    {
      hasNext := true;
    }

    method SetNext(event: Event) returns (node: EventNode)
      requires !hasNext
      modifies this`next, this`hasNext
      ensures fresh(node) && node.event == event && !node.hasNext && node.next == null && !node.evicted
      ensures hasNext && next == node && Published()
    {
      node := new EventNode(event);
      LinkNext(node);
      SignalNext();
    }

    method ResetNext()
      requires !hasNext && evicted
      modifies this`hasNext
      ensures hasNext && Published()
    {
      hasNext := true;
    }

    method Evict()
      modifies this`evicted
      ensures evicted
    {
      evicted := true;
    }
  }

  class Room {
    var head: EventNode
    var tail: EventNode
    var openedCursors: int
    var len: int
    const cap: int
    var closeDone: bool
    ghost var nodes: seq<EventNode>
    ghost var cursors: seq<SharedCursor>
    ghost var trace: seq<Action>

    /** The protocol state these objects stand for. */
    ghost function Model(): State
      reads this
    {
      Reach(cap, trace)
    }

    /** The objects are in the state `Model()`, possibly in the middle of a locked region. */
    ghost predicate Tracks()
      reads this, nodes, cursors
    {
      var m := Model();
      && !m.panicked && |nodes| == |m.nodes| && m.head < |nodes| && m.tail < |nodes|
      && NodesTrack(nodes, m.nodes)
      && head == nodes[m.head] && tail == nodes[m.tail]
      && len == m.len && closeDone == m.closed && openedCursors == m.openedCursors
      && |cursors| == |m.cursors|
      && CursorsTrack(this, cursors, nodes, m.cursors)
    }

    static ghost predicate NodesTrack(nodes: seq<EventNode>, ms: seq<Node>)
      requires |nodes| == |ms|
      reads nodes
    {
      && (forall i, j :: 0 <= i < j < |nodes| ==> nodes[i] != nodes[j])
      && (forall i :: 0 <= i < |nodes| ==>
            && nodes[i].event == ms[i].event && nodes[i].hasNext == ms[i].signalled
            && nodes[i].evicted == ms[i].evicted)
      && (forall i {:trigger nodes[i].next} :: 0 <= i < |nodes| ==> nodes[i].next == NodeAfter(nodes, i))
    }

    static ghost function NodeAfter(nodes: seq<EventNode>, i: int): EventNode?
      requires 0 <= i < |nodes|
    {
      if i + 1 < |nodes| then nodes[i + 1] else null
    }

    static ghost predicate CursorsTrack(room: Room, cursors: seq<SharedCursor>, nodes: seq<EventNode>, ms: seq<Cursor>)
      requires |cursors| == |ms|
      reads cursors
    {
      forall c :: 0 <= c < |cursors| ==>
        && cursors[c].room == room && cursors[c].index == c
        && ms[c].at < |nodes| && cursors[c].node == nodes[ms[c].at] && cursors[c].closed == ms[c].closed
    }

    static lemma CursorsOnLongerList(room: Room, cursors: seq<SharedCursor>, nodes: seq<EventNode>, node: EventNode,
                                     ms: seq<Cursor>)
      requires |cursors| == |ms| && CursorsTrack(room, cursors, nodes, ms)
      ensures CursorsTrack(room, cursors, nodes + [node], ms)
    {
    }

    ghost predicate Valid()
      reads this, nodes, cursors
    {
      Tracks() && Model().writer == Free
    }

    constructor (cap: int)
      ensures Valid() && fresh(nodes) && cursors == []
      ensures this.cap == cap && trace == []
    {
      var seed := new EventNode(SEED);
      head, tail, openedCursors, len, closeDone := seed, seed, 0, 0, false;
      this.cap := cap;
      nodes, cursors, trace := [seed], [], [];
    }

    /** Appends what upstream delivered and trims the list, or closes the room when upstream failed.  Appending to
        a closed room panics, hence the precondition. */
    method Next(upstream: Upstream) returns (r: Upstream)
      requires Valid() && (upstream.Received? ==> !closeDone)
      modifies this, nodes
      ensures Valid() && r == upstream && cursors == old(cursors)
      ensures upstream.Received? ==>
                && trace == old(trace) + [Link(upstream.event), Signal] + [Trim]
                && |nodes| == |old(nodes)| + 1 && nodes[..|old(nodes)|] == old(nodes) && fresh(nodes[|old(nodes)|])
      ensures upstream.Failed? ==>
                nodes == old(nodes) && closeDone && trace == old(trace) + CloseSteps(UpstreamFails, old(closeDone), old(Live()))
    {
      match upstream {
        case Failed =>
          CloseLocked(UpstreamFails);
        case Received(ev) =>
          Append(ev);
          TrimList();
      }
      r := upstream;
    }

    method Append(ev: Event)
      requires Valid() && !closeDone
      modifies this, nodes
      ensures Tracks() && Model().writer == Signalled && cursors == old(cursors)
      ensures trace == old(trace) + [Link(ev), Signal]
      ensures |nodes| == |old(nodes)| + 1 && nodes[..|old(nodes)|] == old(nodes) && fresh(nodes[|old(nodes)|])
    {
      hide Reach, NodesTrack, CursorsTrack;
      AppendShape(cap, trace, ev);
      var node := LinkHead(ev);
      nodes := nodes + [node];
      head := node;
      trace := trace + [Link(ev), Signal];
    }

    /** The nodes after a node has been linked behind the head and signalled. */
    static ghost function LinkedBehind(ms: seq<Node>, ev: Event): seq<Node>
      requires ms != []
    {
      ms[|ms| - 1 := ms[|ms| - 1].(signalled := true)] + [Node(ev, false, false)]
    }

    method LinkHead(ev: Event) returns (node: EventNode)
      requires Valid() && !closeDone
      modifies head`next, head`hasNext
      ensures fresh(node) && Model().nodes != []
      ensures |nodes| == |Model().nodes| && |cursors| == |Model().cursors|
      ensures NodesTrack(nodes + [node], LinkedBehind(Model().nodes, ev))
      ensures CursorsTrack(this, cursors, nodes + [node], Model().cursors)
    {
      hide Reach, CursorsTrack;
      ReachShape(cap, trace);
      node := head.SetNext(ev);
      CursorsOnLongerList(this, cursors, nodes, node, Model().cursors);
    }

    method TrimList()
      requires Tracks() && Model().writer == Signalled
      modifies this`len, this`tail, this`trace, tail`evicted
      ensures Valid()
      ensures trace == old(trace) + [Trim]
    {
      if len + 1 <= cap {
        TrimShape(cap, trace);
        trace := trace + [Trim];
        len := len + 1;
      } else {
        DropTail();
      }
    }

    method DropTail()
      requires Tracks() && Model().writer == Signalled && cap < len + 1
      modifies this`tail, this`trace, tail`evicted
      ensures Valid() && trace == old(trace) + [Trim]
    {
      hide Reach;
      TrimShape(cap, trace);
      trace := trace + [Trim];
      tail.Evict();
      tail := tail.next;
    }

    /** The protocol steps of a whole close: only its first step the second time. */
    static ghost function CloseSteps(first: Action, alreadyClosed: bool, live: nat): seq<Action> {
      if alreadyClosed then [first] else [first] + Repeat(EvictNext, live) + [Reset]
    }

    /** The nodes from tail to head. */
    ghost function Live(): nat
      requires Tracks()
      reads this, nodes, cursors
    {
      |nodes| - Model().tail
    }

    method CloseLocked(ghost first: Action)
      requires Valid() && ClosingStep(first)
      modifies this`closeDone, this`trace, nodes`evicted, head`hasNext
      ensures Valid() && closeDone
      ensures trace == old(trace) + CloseSteps(first, old(closeDone), old(Live()))
    {
      hide Reach, Tracks;
      ghost var start, live := trace, Live();
      StartTracked(first);
      if !closeDone {
        EvictList();
        FinishClose();
        assert trace == start + [first] + Repeat(EvictNext, live) + [Reset];
        assert trace == start + ([first] + Repeat(EvictNext, live) + [Reset]);
      }
    }

    ghost method StartTracked(first: Action)
      requires Valid() && ClosingStep(first)
      modifies this`trace
      ensures Tracks() && trace == old(trace) + [first]
      ensures Model().writer == (if closeDone then Free else Evicting(Model().tail)) && Model().tail == old(Model().tail)
    {
      hide Reach;
      StartCloseShape(cap, trace, first);
      trace := trace + [first];
    }

    /** The loop of close: from the tail along the next pointers. */
    method EvictList()
      requires Tracks() && Model().writer == Evicting(Model().tail)
      modifies this`trace, nodes`evicted
      ensures Tracks() && Model().writer == AllEvicted
      ensures trace == old(trace) + Repeat(EvictNext, old(Live()))
    {
      hide Reach, NodesTrack, CursorsTrack;
      ghost var first := Model().tail;
      ghost var i := first;
      var node: EventNode? := tail;
      while node != null
        invariant first <= i <= |nodes|
        invariant node == (if i < |nodes| then nodes[i] else null)
        invariant Tracks() && Model().writer == if i < |nodes| then Evicting(i) else AllEvicted
        invariant trace == old(trace) + Repeat(EvictNext, i - first)
        decreases |nodes| - i
      {
        EvictTracked(node, i);
        node, i := node.next, i + 1;
        assert Repeat(EvictNext, i - first) == Repeat(EvictNext, i - 1 - first) + [EvictNext];
      }
    }

    method EvictTracked(node: EventNode, ghost i: nat)
      requires Tracks() && Model().writer == Evicting(i) && i < |nodes| && node == nodes[i]
      modifies this`trace, node`evicted
      ensures Tracks() && node.next == NodeAfter(nodes, i)
      ensures Model().writer == if i + 1 < |nodes| then Evicting(i + 1) else AllEvicted
      ensures trace == old(trace) + [EvictNext]
    {
      hide Reach;
      EvictShape(cap, trace, i);
      node.Evict();
      trace := trace + [EvictNext];
    }

    method FinishClose()
      requires Tracks() && Model().writer == AllEvicted
      modifies this`closeDone, this`trace, head`hasNext
      ensures Valid() && closeDone
      ensures trace == old(trace) + [Reset]
    {
      hide Reach;
      ResetShape(cap, trace);
      head.ResetNext();
      closeDone := true;
      trace := trace + [Reset];
    }

    /** The exported Close, at any time. */
    method Close()
      requires Valid()
      modifies this`closeDone, this`trace, nodes`evicted, head`hasNext
      ensures Valid() && closeDone
      ensures trace == old(trace) + CloseSteps(OwnerCloses, old(closeDone), old(Live()))
    {
      CloseLocked(OwnerCloses);
    }

    method OpenCursor() returns (c: SharedCursor)
      requires Valid()
      modifies this
      ensures Valid() && fresh(c) && nodes == old(nodes) && cursors == old(cursors) + [c]
      ensures c.room == this && trace == old(trace) + [Open]
    {
      hide Reach;
      OpenShape(cap, trace);
      c := new SharedCursor(head, this, |cursors|);
      openedCursors := openedCursors + 1;
      cursors := cursors + [c];
      trace := trace + [Open];
    }
  }

  class SharedCursor {
    var node: EventNode
    var closed: bool  // the closed channel, and closeOnce
    const room: Room  // holds the shared counter
    ghost const index: nat

    constructor (node: EventNode, room: Room, ghost index: nat)
      ensures this.node == node && !closed && this.room == room && this.index == index
    {
      this.node, this.closed, this.room, this.index := node, false, room, index;
    }

    /** The cursor belongs to its room; the room may be inside a locked region. */
    ghost predicate Attached()
      reads this, room, room.nodes, room.cursors
    {
      room.Tracks() && index < |room.cursors| && room.cursors[index] == this
    }

    ghost function Position(): Cursor
      requires Attached()
      reads this, room, room.nodes, room.cursors
    {
      room.Model().cursors[index]
    }

    method CloseOnce()
      modifies this`closed, room`openedCursors
      ensures closed
      ensures room.openedCursors == old(room.openedCursors) - (if old(closed) then 0 else 1)
    {
      if !closed {
        closed := true;
        room.openedCursors := room.openedCursors - 1;
      }
    }

    method Close()
      requires Attached()
      modifies this, room`openedCursors, room`trace
      ensures Attached() && room.trace == old(room.trace) + [Action.Close(index)]
    {
      hide Reach;
      CloseShape(room.cap, room.trace, index);
      CloseOnce();
      room.trace := room.trace + [Action.Close(index)];
    }

    /** The call fails: the cursor closes. */
    method FailCall(ghost a: Action, ghost why: Outcome)
      requires Attached()
      requires var m := room.Model();
               var k := Position();
               Reach(room.cap, room.trace + [a]) ==
                 m.(cursors := m.cursors[index := k.(phase := Idle, last := why, closed := true)],
                    openedCursors := m.openedCursors - (if k.closed then 0 else 1))
      modifies this`closed, room`openedCursors, room`trace
      ensures Attached() && room.trace == old(room.trace) + [a]
      ensures closed && Position() == old(Position()).(phase := Idle, last := why, closed := true)
    {
      hide Reach;
      CloseOnce();
      room.trace := room.trace + [a];
    }

    /** The call goes on. */
    ghost method Proceed(a: Action, phase: Phase)
      requires Attached()
      requires var m := room.Model();
               Reach(room.cap, room.trace + [a]) == m.(cursors := m.cursors[index := Position().(phase := phase)])
      modifies room`trace
      ensures Attached() && room.trace == old(room.trace) + [a]
      ensures Position() == old(Position()).(phase := phase)
    {
      hide Reach;
      room.trace := room.trace + [a];
    }

    /** First part of Next, up to the select. */
    method NextCheck() returns (failed: Option<Outcome>)
      requires Attached() && Position().phase == Idle
      modifies this, room`openedCursors, room`trace
      ensures Attached() && room.trace == old(room.trace) + [Check(index)]
      ensures failed == if node.evicted then Some(CursorClosed) else None
      ensures Position().phase == if failed.Some? then Idle else Blocked
      ensures failed.Some? ==> closed && Position().last == failed.value
    {
      CheckShape(room.cap, room.trace, index);
      NodeTracks();
      hide Reach, Attached;
      if node.evicted {
        FailCall(Check(index), CursorClosed);
        return Some(CursorClosed);
      }
      Proceed(Check(index), Blocked);
      failed := None;
    }

    /** The node's flag is the one of the protocol's node. */
    lemma NodeTracks()
      requires Attached()
      ensures var m := room.Model();
              && Position().at < |m.nodes| && node.evicted == m.nodes[Position().at].evicted
              && node.hasNext == m.nodes[Position().at].signalled && closed == Position().closed
    {
      hide Reach;
    }

    static ghost function WakeAction(fired: Selected, c: nat): Action {
      match fired
      case HasNext => Wake(c)
      case CursorChannelClosed => WakeClosed(c)
      case ContextDone => WakeCancelled(c)
    }

    /** The select has fired; on hasNext the eviction flag is checked again. */
    method NextWake(fired: Selected) returns (failed: Option<Outcome>)
      requires Attached() && Position().phase == Blocked
      requires (fired == HasNext ==> node.hasNext) && (fired == CursorChannelClosed ==> closed)
      modifies this, room`openedCursors, room`trace
      ensures Attached() && room.trace == old(room.trace) + [WakeAction(fired, index)]
      ensures failed == match fired
                        case HasNext => if node.evicted then Some(CursorClosed) else None
                        case CursorChannelClosed => Some(CursorClosed)
                        case ContextDone => Some(Cancelled)
      ensures Position().phase == if failed.Some? then Idle else Reading
      ensures failed.Some? ==> closed && Position().last == failed.value
    {
      NodeTracks();
      WakeShape(room.cap, room.trace, index, WakeAction(fired, index));
      hide Reach, Attached;
      match fired {
        case HasNext =>
          if node.evicted {
            FailCall(Wake(index), CursorClosed);
            failed := Some(CursorClosed);
          } else {
            Proceed(Wake(index), Reading);
            failed := None;
          }
        case CursorChannelClosed =>
          FailCall(WakeClosed(index), CursorClosed);
          failed := Some(CursorClosed);
        case ContextDone =>
          FailCall(WakeCancelled(index), Cancelled);
          failed := Some(Cancelled);
      }
    }

    /** The rest of Next: advances to the next node and returns its event, evicted or not. */
    method NextRead() returns (r: Option<Event>)
      requires Attached() && Position().phase == Reading
      modifies this, room`openedCursors, room`trace
      ensures Attached() && room.trace == old(room.trace) + [Read(index)]
      ensures r.Some? && Position().at == old(Position().at) + 1
      ensures Position().seen == old(Position().seen) + [r.value] && Position().last == Returned(r.value)
    {
      hide Reach;
      ReadShape(room.cap, room.trace, index);
      r := None;
      if node.next == null {
        assert false;  // unreachable: the signal came after the link
      } else {
        node := node.next;
        r := Some(node.event);
      }
      room.trace := room.trace + [Read(index)];
    }
  }
}
