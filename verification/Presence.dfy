/** Who is in the room, from join and leave events that may arrive in any order. */
module Presence {
  import opened OrderedSets
  import opened Wrappers

  type User = string
  type Session = string

  const MAX_SESSIONS_PER_PEER := 10
  const MAX_GHOST_SESSIONS := 100
  const CLAP_TIMEOUT_MS := 7000

  /** A reaction without a clap part carries `clap == None`; other payloads are ignored. */
  datatype Event =
    | Join(user: User, session: Session)
    | Leave(user: User, session: Session)
    | Reaction(user: User, clap: Option<bool>, createdAt: int)
    | Other

  /** `users` and `clapUsers` are the key orders of the two maps. */
  datatype State = State(users: seq<User>, sessions: map<User, seq<Session>>,
                         clapUsers: seq<User>, claps: map<User, Option<int>>, ghosts: seq<Session>)

  const EMPTY := State([], map[], [], map[], [])

  /** Bounds of the two maps the aggregator is given. */
  datatype Caps = Caps(peers: int, statuses: int)

  ghost predicate Valid(s: State) {
    && Distinct(s.users) && Distinct(s.clapUsers) && Distinct(s.ghosts)
    && (forall u :: u in s.sessions <==> u in s.users)
    && (forall u :: u in s.claps <==> u in s.clapUsers)
    && (forall u :: u in s.sessions ==> Distinct(s.sessions[u]) && s.sessions[u] != [])
  }

  function Drop<V>(m: map<User, V>, u: User): map<User, V> { m - {u} }

  /** Map.set on a bounded map: a full map forgets its oldest key. */
  function Evicted<V>(m: map<User, V>, order: seq<User>, cap: int): map<User, V> {
    if |order| >= cap && order != [] then Drop(m, order[0]) else m
  }

  function JoinStep(s: State, caps: Caps, u: User, session: Session): State {
    if session in s.ghosts then s
    else if u in s.sessions then
      s.(sessions := s.sessions[u := FifoAdd(s.sessions[u], MAX_SESSIONS_PER_PEER, session)])
    else
      s.(users := FifoAdd(s.users, caps.peers, u),
         sessions := Evicted(s.sessions, s.users, caps.peers)[u := FifoAdd([], MAX_SESSIONS_PER_PEER, session)])
  }

  function LeaveStep(s: State, u: User, session: Session): State {
    if u !in s.sessions || session !in s.sessions[u] then
      s.(ghosts := FifoAdd(s.ghosts, MAX_GHOST_SESSIONS, session))
    else
      var rest := Without(s.sessions[u], session);
      if rest == [] then
        s.(users := Without(s.users, u), sessions := Drop(s.sessions, u),
           clapUsers := Without(s.clapUsers, u), claps := Drop(s.claps, u))
      else s.(sessions := s.sessions[u := rest])
  }

  function ReactStep(s: State, caps: Caps, u: User, clap: Option<bool>, at: int): State {
    if u !in s.sessions then s
    else
      var t := if u in s.claps then s
               else s.(clapUsers := FifoAdd(s.clapUsers, caps.statuses, u),
                       claps := Evicted(s.claps, s.clapUsers, caps.statuses)[u := None]);
      if clap == None then t
      else t.(claps := t.claps[u := if clap.value then Some(at) else None])
  }

  function Step(s: State, caps: Caps, e: Event): State {
    match e
    case Join(u, session) => JoinStep(s, caps, u, session)
    case Leave(u, session) => LeaveStep(s, u, session)
    case Reaction(u, clap, at) => ReactStep(s, caps, u, clap, at)
    case Other => s
  }

  function Run(s: State, caps: Caps, events: seq<Event>): State
    decreases |events|
  {
    if events == [] then s else Step(Run(s, caps, events[..|events| - 1]), caps, events[|events| - 1])
  }

  /** reset clears the two maps, and keeps the ghosts. */
  function Reset(s: State): State { EMPTY.(ghosts := s.ghosts) }

  ghost predicate Shows(s: State, u: User, session: Session) {
    u in s.sessions && session in s.sessions[u]
  }

  /** There is room for what the event adds to the sessions, the users or the ghosts. */
  ghost predicate Fits(s: State, caps: Caps, e: Event) {
    match e
    case Join(u, session) =>
      session !in s.ghosts ==>
        if u in s.sessions then |s.sessions[u]| < MAX_SESSIONS_PER_PEER else |s.users| < caps.peers
    case Leave(u, session) => !Shows(s, u, session) ==> |s.ghosts| < MAX_GHOST_SESSIONS
    case _ => true
  }

  /** At no step of the run a collection is full when something is added to it. */
  ghost predicate EvictsNothing(s: State, caps: Caps, events: seq<Event>) {
    forall k :: 0 <= k < |events| ==> Fits(Run(s, caps, events[..k]), caps, events[k])
  }

  /* ---------- what one event does ---------- */

  lemma JoinEffect(s: State, caps: Caps, u: User, x: Session)
    requires Valid(s) && !Shows(s, u, x) && Fits(s, caps, Join(u, x))
    ensures var t := JoinStep(s, caps, u, x);
            && Valid(t) && t.ghosts == s.ghosts && t.clapUsers == s.clapUsers
            && (forall v :: v in t.users <==> v in s.users || (v == u && x !in s.ghosts))
            && (forall v, y :: Shows(t, v, y) <==> Shows(s, v, y) || (v == u && y == x && x !in s.ghosts))
  {
  }

  /** The same with or without room.  A ghost session is skipped.  A user in the room keeps at most ten sessions, and
      a user who was not is added behind the others; in a full room the user who came first goes, with all
      sessions. */
  lemma JoinExactly(s: State, caps: Caps, u: User, x: Session)
    requires Valid(s)
    ensures var t := JoinStep(s, caps, u, x);
            && Valid(t)
            && (x in s.ghosts ==> t == s)
            && (x !in s.ghosts && u in s.users ==> t == s.(sessions := s.sessions[u := FifoAdd(s.sessions[u], 10, x)]))
            && (x !in s.ghosts && u !in s.users ==>
                  && t == s.(users := FifoAdd(s.users, caps.peers, u), sessions := t.sessions)
                  && u in t.sessions && t.sessions[u] == [x]
                  && forall v :: v in t.sessions && v != u ==> v in s.sessions && t.sessions[v] == s.sessions[v])
  {
    if x !in s.ghosts {
      if u in s.sessions {
        FifoAddKeepsNewest(s.sessions[u], MAX_SESSIONS_PER_PEER, x);
        hide FifoAdd, Evicted;
      } else {
        JoinNew(s, caps, u, x);
        hide FifoAdd, Evicted, JoinStep, Valid;
      }
    }
  }

  lemma JoinNew(s: State, caps: Caps, u: User, x: Session)
    requires Valid(s) && x !in s.ghosts && u !in s.sessions
    ensures var t := JoinStep(s, caps, u, x);
            && Valid(t) && u !in s.users
            && t == s.(users := FifoAdd(s.users, caps.peers, u), sessions := t.sessions)
            && u in t.sessions && t.sessions[u] == [x]
            && forall v :: v in t.sessions && v != u ==> v in s.sessions && t.sessions[v] == s.sessions[v]
  {
    hide FifoAdd, Evicted;
    FirstSession(x);
    SetInBoundedMap(s.sessions, s.users, caps.peers, u, [x]);
  }

  lemma FirstSession(x: Session)
    ensures FifoAdd([], MAX_SESSIONS_PER_PEER, x) == [x]
  {
  }

  lemma FifoMembers(users: seq<User>, cap: int, u: User)
    requires Distinct(users) && u !in users
    ensures forall v :: v in FifoAdd(users, cap, u) <==>
              v == u || (v in users && !(|users| >= cap && users != [] && v == users[0]))
  {
    if users != [] { assert users == [users[0]] + users[1..]; }
  }

  lemma LeaveEffect(s: State, u: User, x: Session)
    requires Valid(s)
    ensures var t := LeaveStep(s, u, x);
            && Valid(t)
            && (forall v, y :: Shows(t, v, y) <==> Shows(s, v, y) && !(v == u && y == x))
            && (forall v :: v in t.users ==> v in s.users)
            && (forall v :: v in t.clapUsers ==> v in s.clapUsers && (v in s.users ==> v in t.users))
            && (forall v :: v in s.claps && (v in t.users || v != u) ==> v in t.claps && t.claps[v] == s.claps[v])
            && t.ghosts == (if Shows(s, u, x) then s.ghosts else FifoAdd(s.ghosts, 100, x))
            && (t.users == s.users || t.users == Without(s.users, u))
            && (t.clapUsers == s.clapUsers || t.clapUsers == Without(s.clapUsers, u))
            && (forall v :: v in t.sessions && v != u ==> v in s.sessions && t.sessions[v] == s.sessions[v])
            && (u in t.sessions ==> u in s.sessions && t.sessions[u] == Without(s.sessions[u], x))
  {
    if Shows(s, u, x) {
      WithoutDistinct(s.sessions[u], x);
      WithoutDistinct(s.users, u);
      WithoutDistinct(s.clapUsers, u);
    } else if |s.ghosts| >= MAX_GHOST_SESSIONS {
      assert Distinct(s.ghosts[1..]);
    }
  }

  lemma ReactEffect(s: State, caps: Caps, u: User, clap: Option<bool>, at: int)
    requires Valid(s)
    ensures var t := ReactStep(s, caps, u, clap, at);
            && Valid(t) && t.users == s.users && t.sessions == s.sessions && t.ghosts == s.ghosts
            && (u !in s.users ==> t == s)
            && (forall v :: v in t.clapUsers ==> v in s.clapUsers || v == u)
            && (forall v :: v in t.claps && v != u ==> v in s.claps && t.claps[v] == s.claps[v])
            && (forall v :: v in s.claps && v !in t.claps ==> u !in s.claps && v == s.clapUsers[0])
            && (u in s.users ==>
                  && u in t.claps && t.clapUsers == (if u in s.claps then s.clapUsers else FifoAdd(s.clapUsers, caps.statuses, u))
                  && t.claps[u] == match clap
                                   case Some(starts) => if starts then Some(at) else None
                                   case None => if u in s.claps then s.claps[u] else None)
  {
    if u in s.sessions && u !in s.claps {
      SetInBoundedMap(s.claps, s.clapUsers, caps.statuses, u, None);
      hide FifoAdd, Evicted;
    }
  }

  /** Adding a key to a bounded map and to the order of its keys. */
  lemma SetInBoundedMap<V>(m: map<User, V>, order: seq<User>, cap: int, u: User, value: V)
    requires Distinct(order) && u !in m && forall v :: v in m <==> v in order
    ensures var keys := FifoAdd(order, cap, u);
            var t := Evicted(m, order, cap)[u := value];
            && Distinct(keys) && (forall v :: v in keys ==> v in order || v == u)
            && (forall v :: v in t <==> v in keys)
            && (forall v :: v in t && v != u ==> v in m && t[v] == m[v])
            && (forall v :: v in m && v !in t ==> v == order[0])
  {
    FifoAddKeepsNewest(order, cap, u);
    FifoMembers(order, cap, u);
    hide FifoAdd;
  }

  /* ---------- what the result should be ---------- */

  predicate OfPresence(e: Event) { e.Join? || e.Leave? }

  /** At most one join and one leave for a session, both for the same user. */
  ghost predicate Consistent(m: multiset<Event>) {
    && (forall e :: e in m && OfPresence(e) ==> m[e] == 1)
    && (forall e, f :: e in m && f in m && OfPresence(e) && OfPresence(f) && e.session == f.session ==> e.user == f.user)
  }

  ghost function LeftSessions(m: multiset<Event>): set<Session> {
    set e | e in m && e.Leave? :: e.session
  }

  ghost function JoinedSessions(m: multiset<Event>, u: User): set<Session> {
    set e | e in m && e.Join? && e.user == u :: e.session
  }

  ghost function JoinedUsers(m: multiset<Event>): set<User> {
    set e | e in m && e.Join? :: e.user
  }

  /** So few sessions and users, over all events together, that no collection can ever be full. */
  ghost predicate WithinCaps(m: multiset<Event>, caps: Caps) {
    && |LeftSessions(m)| <= MAX_GHOST_SESSIONS
    && |JoinedUsers(m)| <= caps.peers
    && forall u :: |JoinedSessions(m, u)| <= MAX_SESSIONS_PER_PEER
  }

  /** The sessions that joined and never left. */
  ghost predicate Present(m: multiset<Event>, u: User, session: Session) {
    Join(u, session) in m && Leave(u, session) !in m
  }

  /* ---------- invariant along a run ---------- */

  /** Over a prefix p of all events, from ghosts left over by an earlier run of the same events. */
  ghost predicate Tracks(s: State, p: multiset<Event>, old_: set<Session>, all: multiset<Event>) {
    Valid(s) && ShowsTrack(s, p, old_) && UsersTrack(s, all) && GhostsTrack(s.ghosts, p, old_, all)
  }

  ghost predicate ShowsTrack(s: State, p: multiset<Event>, old_: set<Session>) {
    forall u, session :: Shows(s, u, session) <==> Present(p, u, session) && session !in old_
  }

  ghost predicate UsersTrack(s: State, all: multiset<Event>) {
    && (forall u :: u in s.users ==> u in JoinedUsers(all))
    && (forall u :: u in s.clapUsers ==> u in s.users)
  }

  ghost predicate GhostsTrack(ghosts: seq<Session>, p: multiset<Event>, old_: set<Session>, all: multiset<Event>) {
    && old_ <= Members(ghosts) <= old_ + LeftSessions(p)
    && Members(ghosts) <= LeftSessions(all)
    && (forall u, x :: Leave(u, x) in p && Join(u, x) !in p ==> x in ghosts)
  }

  /** A run over these events may start with the ghosts of an earlier one. */
  ghost predicate Starts(old_: set<Session>, all: multiset<Event>) {
    Consistent(all) && old_ <= LeftSessions(all)
  }

  /** The next event is a new one. */
  ghost predicate Next(p: multiset<Event>, e: Event, all: multiset<Event>) {
    e !in p && e in all && p <= all
  }

  /** A session that leaves now has not left before, whoever it belonged to. */
  lemma NotLeftYet(p: multiset<Event>, u: User, x: Session, all: multiset<Event>)
    requires Consistent(all) && Next(p, Leave(u, x), all)
    ensures x !in LeftSessions(p)
  {
  }

  /** A session that joins now has left before exactly if its own user's leave was seen. */
  lemma LeftBeforeJoining(p: multiset<Event>, u: User, x: Session, all: multiset<Event>)
    requires Consistent(all) && Next(p, Join(u, x), all)
    ensures x in LeftSessions(p) <==> Leave(u, x) in p
  {
  }

  lemma JoinTracks(s: State, p: multiset<Event>, u: User, x: Session, old_: set<Session>, all: multiset<Event>, caps: Caps)
    requires Starts(old_, all) && Tracks(s, p, old_, all) && Next(p, Join(u, x), all)
    requires Fits(s, caps, Join(u, x))
    ensures Tracks(JoinStep(s, caps, u, x), p + multiset{Join(u, x)}, old_, all)
  {
    var e, t := Join(u, x), JoinStep(s, caps, u, x);
    var q := p + multiset{e};
    assert !Shows(s, u, x);
    JoinEffect(s, caps, u, x);
    assert x in s.ghosts <==> x in old_ || Leave(u, x) in p by { GhostBeforeJoin(s.ghosts, p, u, x, old_, all); }
    assert GhostsTrack(t.ghosts, q, old_, all) by { GhostsAfterJoin(s.ghosts, p, e, old_, all); }
    assert UsersTrack(t, all) by { assert e.user in JoinedUsers(all); }
    hide Next, JoinStep, Valid, Shows, GhostsTrack, UsersTrack, Starts;
    PresentAfterJoin(p, u, x);
  }

  lemma PresentAfterJoin(p: multiset<Event>, u: User, x: Session)
    ensures forall v, y :: Present(p + multiset{Join(u, x)}, v, y) <==>
                             Present(p, v, y) || (v == u && y == x && Leave(u, x) !in p)
  {
  }

  /** A join is skipped exactly if the session's leave was seen before it. */
  lemma GhostBeforeJoin(g: seq<Session>, p: multiset<Event>, u: User, x: Session, old_: set<Session>, all: multiset<Event>)
    requires Consistent(all) && GhostsTrack(g, p, old_, all) && Next(p, Join(u, x), all)
    ensures x in g <==> x in old_ || Leave(u, x) in p
  {
    LeftBeforeJoining(p, u, x, all);
    assert x in g <==> x in Members(g);
  }

  lemma GhostsAfterJoin(g: seq<Session>, p: multiset<Event>, e: Event, old_: set<Session>, all: multiset<Event>)
    requires GhostsTrack(g, p, old_, all) && !e.Leave?
    ensures GhostsTrack(g, p + multiset{e}, old_, all)
  {
  }

  lemma LeaveGhosts(g: seq<Session>, x: Session)
    requires |g| < MAX_GHOST_SESSIONS
    ensures Members(FifoAdd(g, MAX_GHOST_SESSIONS, x)) == Members(g) + {x}
  {
  }

  lemma LeaveTracks(s: State, p: multiset<Event>, u: User, x: Session, old_: set<Session>, all: multiset<Event>, caps: Caps)
    requires Starts(old_, all) && Tracks(s, p, old_, all) && Next(p, Leave(u, x), all)
    requires Fits(s, caps, Leave(u, x))
    ensures Tracks(LeaveStep(s, u, x), p + multiset{Leave(u, x)}, old_, all)
  {
    var e, t := Leave(u, x), LeaveStep(s, u, x);
    var q := p + multiset{e};
    LeaveEffect(s, u, x);
    if !Shows(s, u, x) { LeaveGhosts(s.ghosts, x); }
    assert Shows(s, u, x) ==> Join(u, x) in p;
    assert GhostsTrack(t.ghosts, q, old_, all) by { GhostsAfterLeave(s.ghosts, t.ghosts, p, u, x, old_, all); }
    assert UsersTrack(t, all) by { UsersAfterLeave(s, u, x, all); }
    hide LeaveStep, Valid, Shows, FifoAdd, GhostsTrack, UsersTrack, Starts;
    PresentAfterLeave(p, u, x);
  }

  lemma PresentAfterLeave(p: multiset<Event>, u: User, x: Session)
    ensures forall v, y :: Present(p + multiset{Leave(u, x)}, v, y) <==> Present(p, v, y) && !(v == u && y == x)
  {
  }

  lemma UsersAfterLeave(s: State, u: User, x: Session, all: multiset<Event>)
    requires Valid(s) && UsersTrack(s, all)
    ensures UsersTrack(LeaveStep(s, u, x), all)
  {
  }

  lemma GhostsAfterLeave(g: seq<Session>, g': seq<Session>, p: multiset<Event>, u: User, x: Session,
                         old_: set<Session>, all: multiset<Event>)
    requires GhostsTrack(g, p, old_, all) && Next(p, Leave(u, x), all)
    requires g' == g || Members(g') == Members(g) + {x}
    requires g' == g ==> Join(u, x) in p || x in g
    ensures GhostsTrack(g', p + multiset{Leave(u, x)}, old_, all)
  {
    var e := Leave(u, x);
    var q := p + multiset{e};
    assert LeftSessions(q) == LeftSessions(p) + {x};
    assert e.session in LeftSessions(all);
    assert forall y :: y in g' <==> y in Members(g');
    assert forall y :: y in g <==> y in Members(g);
  }

  lemma OtherTracks(s: State, p: multiset<Event>, e: Event, old_: set<Session>, all: multiset<Event>, caps: Caps)
    requires !OfPresence(e) && Tracks(s, p, old_, all)
    ensures Tracks(Step(s, caps, e), p + multiset{e}, old_, all)
  {
    var q := p + multiset{e};
    GhostsAfterJoin(s.ghosts, p, e, old_, all);
    assert forall v, y :: Present(q, v, y) <==> Present(p, v, y);
    OtherEffect(s, caps, e);
    hide Step, Valid, Shows;
  }

  lemma OtherEffect(s: State, caps: Caps, e: Event)
    requires !OfPresence(e) && Valid(s)
    ensures var t := Step(s, caps, e);
            && Valid(t) && t.users == s.users && t.sessions == s.sessions && t.ghosts == s.ghosts
            && (e.Other? ==> t == s)
            && forall v, y :: Shows(t, v, y) <==> Shows(s, v, y)
  {
    hide ReactStep, Valid;
    if e.Reaction? { ReactEffect(s, caps, e.user, e.clap, e.createdAt); }
  }

  lemma EvictsNothingBefore(s: State, caps: Caps, events: seq<Event>, n: nat)
    requires EvictsNothing(s, caps, events) && n < |events|
    ensures EvictsNothing(s, caps, events[..n]) && Fits(Run(s, caps, events[..n]), caps, events[n])
  {
    assert forall k :: 0 <= k < n ==> events[..n][..k] == events[..k];
  }

  lemma NextOfAll(before: seq<Event>, e: Event, all: multiset<Event>)
    requires multiset(before + [e]) <= all
    ensures multiset(before) <= all && (OfPresence(e) && Consistent(all) ==> Next(multiset(before), e, all))
  {
    assert multiset(before + [e]) == multiset(before) + multiset{e};
    if OfPresence(e) && Consistent(all) {
      assert e in multiset(before) + multiset{e};
      assert all[e] == 1;
    }
  }

  lemma StepTracks(s: State, p: multiset<Event>, e: Event, old_: set<Session>, all: multiset<Event>, caps: Caps)
    requires Starts(old_, all) && Tracks(s, p, old_, all) && Fits(s, caps, e)
    requires OfPresence(e) && Consistent(all) ==> Next(p, e, all)
    ensures Tracks(Step(s, caps, e), p + multiset{e}, old_, all)
  {
    hide Tracks, Fits, JoinStep, LeaveStep, ReactStep;
    match e {
      case Join(u, x) => JoinTracks(s, p, u, x, old_, all, caps);
      case Leave(u, x) => LeaveTracks(s, p, u, x, old_, all, caps);
      case _ => OtherTracks(s, p, e, old_, all, caps);
    }
  }

  lemma {:induction false} RunTracks(s: State, events: seq<Event>, old_: set<Session>, all: multiset<Event>, caps: Caps)
    requires Starts(old_, all) && Tracks(s, multiset{}, old_, all) && multiset(events) <= all
    requires EvictsNothing(s, caps, events)
    ensures Tracks(Run(s, caps, events), multiset(events), old_, all)
    decreases |events|
  {
    hide Tracks, Starts, Fits, EvictsNothing, Step;
    if events == [] {
    } else {
      var n := |events| - 1;
      var before, e := events[..n], events[n];
      assert events == before + [e];
      NextOfAll(before, e, all);
      EvictsNothingBefore(s, caps, events, n);
      RunTracks(s, before, old_, all, caps);
      StepTracks(Run(s, caps, before), multiset(before), e, old_, all, caps);
      assert multiset(events) == multiset(before) + multiset{e};
    }
  }

  /* ---------- theorems ---------- */

  /** Exactly the sessions that joined and never left are shown, a user is shown iff one of theirs is, and
      only shown users have a status. */
  ghost predicate Correct(s: State, m: multiset<Event>) {
    && (forall u, session :: Shows(s, u, session) <==> Present(m, u, session))
    && (forall u :: u in s.users <==> exists session :: Present(m, u, session))
    && (forall u :: u in s.clapUsers ==> u in s.users)
  }

  lemma TracksIsCorrect(s: State, old_: set<Session>, all: multiset<Event>)
    requires Starts(old_, all) && Tracks(s, all, old_, all)
    ensures Correct(s, all)
  {
    assert forall u, session :: Present(all, u, session) ==> session !in old_ by {
      forall u, session | session in old_ ensures !Present(all, u, session) {
        var f :| f in all && f.Leave? && f.session == session;
        if Join(u, session) in all { assert f.user == u && f == Leave(u, session); }
      }
    }
    forall u ensures u in s.users <==> exists session :: Present(all, u, session) {
      if u in s.users { assert Shows(s, u, s.sessions[u][0]); }
      assert forall session :: Present(all, u, session) ==> Shows(s, u, session);
    }
  }

  lemma EmptyTracks(all: multiset<Event>)
    requires Consistent(all)
    ensures Starts({}, all) && Tracks(EMPTY, multiset{}, {}, all)
  {
  }

  /** Events in any order: as long as no run evicts anything, the result depends on which events there were, not
      on their order. */
  lemma PresenceIsOrderIndependent(events: seq<Event>, shuffled: seq<Event>, caps: Caps)
    requires multiset(events) == multiset(shuffled) && Consistent(multiset(events))
    requires EvictsNothing(EMPTY, caps, events) && EvictsNothing(EMPTY, caps, shuffled)
    ensures Correct(Run(EMPTY, caps, events), multiset(events))
    ensures Correct(Run(EMPTY, caps, shuffled), multiset(events))
  {
    var all := multiset(events);
    RunTracks(EMPTY, events, {}, all, caps);
    RunTracks(EMPTY, shuffled, {}, all, caps);
    TracksIsCorrect(Run(EMPTY, caps, events), {}, all);
    TracksIsCorrect(Run(EMPTY, caps, shuffled), {}, all);
  }

  lemma ResetTracks(s: State, all: multiset<Event>)
    requires Tracks(s, all, {}, all)
    ensures Members(s.ghosts) <= LeftSessions(all)
    ensures Tracks(Reset(s), multiset{}, Members(s.ghosts), all)
  {
  }

  /** A replay after reset starts from the ghosts of the first run, and still ends in the same presence if
      neither run evicts anything. */
  lemma ReplayAfterReset(events: seq<Event>, again: seq<Event>, caps: Caps)
    requires multiset(events) == multiset(again) && Consistent(multiset(events))
    requires EvictsNothing(EMPTY, caps, events)
    requires EvictsNothing(Reset(Run(EMPTY, caps, events)), caps, again)
    ensures Correct(Run(Reset(Run(EMPTY, caps, events)), caps, again), multiset(events))
  {
    hide Tracks, Starts, Consistent, EvictsNothing, Correct, Reset;
    var all := multiset(events);
    EmptyTracks(all);
    RunTracks(EMPTY, events, {}, all, caps);
    ReplayTracks(Run(EMPTY, caps, events), again, all, caps);
  }

  lemma ReplayTracks(s: State, again: seq<Event>, all: multiset<Event>, caps: Caps)
    requires Consistent(all) && multiset(again) == all && Tracks(s, all, {}, all)
    requires EvictsNothing(Reset(s), caps, again)
    ensures Correct(Run(Reset(s), caps, again), all)
  {
    hide Tracks, Reset;
    var old_ := Members(s.ghosts);
    ResetTracks(s, all);
    RunTracks(Reset(s), again, old_, all, caps);
    TracksIsCorrect(Run(Reset(s), caps, again), old_, all);
  }

  /* ---------- a bound on the totals ---------- */

  lemma JoinFits(s: State, p: multiset<Event>, u: User, x: Session, old_: set<Session>, all: multiset<Event>, caps: Caps)
    requires WithinCaps(all, caps) && Tracks(s, p, old_, all) && Next(p, Join(u, x), all)
    ensures Fits(s, caps, Join(u, x))
  {
    if u in s.sessions {
      var had := s.sessions[u];
      forall y | y in had + [x] ensures y in JoinedSessions(all, u) {
        if y in had { assert Shows(s, u, y); }
        assert Join(u, y) in all;
      }
      assert Members(had) + {x} <= JoinedSessions(all, u);
      assert x !in had by { assert !Shows(s, u, x); }
      RoomFor(had, x, JoinedSessions(all, u), MAX_SESSIONS_PER_PEER);
    } else {
      assert Join(u, x).user in JoinedUsers(all);
      RoomFor(s.users, u, JoinedUsers(all), caps.peers);
    }
  }

  lemma LeaveFits(s: State, p: multiset<Event>, u: User, x: Session, old_: set<Session>, all: multiset<Event>, caps: Caps)
    requires Starts(old_, all) && WithinCaps(all, caps) && (old_ != {} ==> |LeftSessions(all)| < MAX_GHOST_SESSIONS)
    requires Tracks(s, p, old_, all) && Next(p, Leave(u, x), all)
    ensures Fits(s, caps, Leave(u, x))
  {
    var g := s.ghosts;
    assert Leave(u, x).session in LeftSessions(all);
    if x in g {
      NotLeftYet(p, u, x, all);
      assert x in Members(g) && x in old_;
      DistinctSize(g);
      SubsetSize(Members(g), LeftSessions(all));
    } else {
      RoomFor(g, x, LeftSessions(all), MAX_GHOST_SESSIONS);
    }
  }

  /** Few sessions and users in all, and a spare ghost place if there are ghosts already: nothing is evicted. */
  lemma {:induction false} SmallRoomsEvictNothing(s: State, events: seq<Event>, old_: set<Session>, all: multiset<Event>,
                                                  caps: Caps)
    requires Starts(old_, all) && WithinCaps(all, caps) && (old_ != {} ==> |LeftSessions(all)| < MAX_GHOST_SESSIONS)
    requires Tracks(s, multiset{}, old_, all) && multiset(events) <= all
    ensures EvictsNothing(s, caps, events)
    decreases |events|
  {
    hide Run, Fits, WithinCaps, Starts, Tracks, LeftSessions;
    if events == [] {
    } else {
      var before, e := events[..|events| - 1], events[|events| - 1];
      assert events == before + [e];
      NextOfAll(before, e, all);
      SmallRoomsEvictNothing(s, before, old_, all, caps);
      RunTracks(s, before, old_, all, caps);
      NextFits(Run(s, caps, before), multiset(before), e, old_, all, caps);
      EvictsNothingThen(s, caps, before, e);
    }
  }

  lemma NextFits(s: State, p: multiset<Event>, e: Event, old_: set<Session>, all: multiset<Event>, caps: Caps)
    requires Starts(old_, all) && WithinCaps(all, caps) && (old_ != {} ==> |LeftSessions(all)| < MAX_GHOST_SESSIONS)
    requires Tracks(s, p, old_, all) && (OfPresence(e) && Consistent(all) ==> Next(p, e, all))
    ensures Fits(s, caps, e)
  {
    match e {
      case Join(u, x) => JoinFits(s, p, u, x, old_, all, caps);
      case Leave(u, x) => LeaveFits(s, p, u, x, old_, all, caps);
      case _ =>
    }
  }

  lemma EvictsNothingThen(s: State, caps: Caps, before: seq<Event>, e: Event)
    requires EvictsNothing(s, caps, before) && Fits(Run(s, caps, before), caps, e)
    ensures EvictsNothing(s, caps, before + [e])
  {
    hide Fits, Run;
    var events := before + [e];
    assert forall k :: 0 <= k <= |before| ==> events[..k] == before[..k];
    assert before[..|before|] == before;
  }

  /** So with few sessions and users in all every order gives the right presence, and so does a replay after a
      reset with one ghost place to spare. */
  lemma PresenceWithinCaps(events: seq<Event>, shuffled: seq<Event>, caps: Caps)
    requires multiset(events) == multiset(shuffled)
    requires Consistent(multiset(events)) && WithinCaps(multiset(events), caps)
    ensures Correct(Run(EMPTY, caps, events), multiset(events))
    ensures Correct(Run(EMPTY, caps, shuffled), multiset(events))
    ensures |LeftSessions(multiset(events))| < MAX_GHOST_SESSIONS ==>
              Correct(Run(Reset(Run(EMPTY, caps, events)), caps, shuffled), multiset(events))
  {
    var all := multiset(events);
    SmallRoomsEvictNothing(EMPTY, events, {}, all, caps);
    SmallRoomsEvictNothing(EMPTY, shuffled, {}, all, caps);
    PresenceIsOrderIndependent(events, shuffled, caps);
    if |LeftSessions(all)| < MAX_GHOST_SESSIONS {
      var s := Run(EMPTY, caps, events);
      RunTracks(EMPTY, events, {}, all, caps);
      ResetTracks(s, all);
      SmallRoomsEvictNothing(Reset(s), shuffled, Members(s.ghosts), all, caps);
      ReplayAfterReset(events, shuffled, caps);
    }
  }

  /* ---------- the aggregator ---------- */

  /** The statuses that outlive setTime. */
  function Fresh(s: State, time: int, u: User): bool {
    u in s.claps && s.claps[u].Some? && time <= s.claps[u].value + CLAP_TIMEOUT_MS
  }

  /** Those of a list of users, in their order. */
  ghost function Outliving(s: State, time: int, us: seq<User>): seq<User> {
    if us == [] then []
    else Outliving(s, time, us[..|us| - 1]) + (if Fresh(s, time, us[|us| - 1]) then [us[|us| - 1]] else [])
  }

  lemma {:induction false} OutlivingMembers(s: State, time: int, us: seq<User>)
    ensures forall u :: u in Outliving(s, time, us) <==> u in us && Fresh(s, time, u)
  {
    if us == [] {
    } else {
      OutlivingMembers(s, time, us[..|us| - 1]);
      assert us == us[..|us| - 1] + [us[|us| - 1]];
    }
  }

  /** One round of the loop in setTime. */
  lemma OneMoreOutlives(s: State, time: int, all: seq<User>, i: nat)
    requires Distinct(all) && i < |all| && Distinct(Outliving(s, time, all[..i]) + all[i..])
    ensures var now := Outliving(s, time, all[..i]) + all[i..];
            Outliving(s, time, all[..i + 1]) + all[i + 1..] ==
              if Fresh(s, time, all[i]) then now else Without(now, all[i])
  {
    var kept := Outliving(s, time, all[..i]);
    assert all[..i + 1][..i] == all[..i] && all[i..] == [all[i]] + all[i + 1..];
    WithoutAt(kept + all[i..], |kept|);
    assert kept + [all[i]] + all[i + 1..] == kept + all[i..];
  }

  class PeerAggregator {
    const caps: Caps
    var users: seq<User>
    var sessions: map<User, seq<Session>>
    var clapUsers: seq<User>
    var claps: map<User, Option<int>>
    var ghosts: seq<Session>

    ghost function Model(): State
      reads this
    {
      State(users, sessions, clapUsers, claps, ghosts)
    }

    constructor (caps: Caps)
      ensures Model() == EMPTY && Valid(EMPTY) && this.caps == caps
    {
      this.caps := caps;
      users, sessions, clapUsers, claps, ghosts := [], map[], [], map[], [];
    }

    method Put(e: Event)
      modifies this
      ensures Model() == Step(old(Model()), caps, e)
    {
      match e {
        case Join(u, session) =>
          OnJoin(u, session);
        case Leave(u, session) =>
          OnLeave(u, session);
        case Reaction(u, clap, at) =>
          if u in sessions {
            if u !in claps {
              if |clapUsers| >= caps.statuses && clapUsers != [] {
                claps := claps - {clapUsers[0]};
              }
              clapUsers := FifoAdd(clapUsers, caps.statuses, u);
              claps := claps[u := None];
            }
            if clap.Some? {
              claps := claps[u := if clap.value then Some(at) else None];
            }
          }
        case Other =>
      }
    }

    method OnJoin(u: User, session: Session)
      modifies this
      ensures Model() == JoinStep(old(Model()), caps, u, session)
    {
      if session in ghosts {
        return;
      }
      if u in sessions {
        sessions := sessions[u := FifoAdd(sessions[u], MAX_SESSIONS_PER_PEER, session)];
        return;
      }
      var own := FifoAdd([], MAX_SESSIONS_PER_PEER, session);
      if |users| >= caps.peers && users != [] {
        sessions := sessions - {users[0]};
      }
      users := FifoAdd(users, caps.peers, u);
      sessions := sessions[u := own];
    }

    method OnLeave(u: User, session: Session)
      modifies this
      ensures Model() == LeaveStep(old(Model()), u, session)
    {
      if u !in sessions || session !in sessions[u] {
        ghosts := FifoAdd(ghosts, MAX_GHOST_SESSIONS, session);
        return;
      }
      var rest := Without(sessions[u], session);
      if |rest| == 0 {
        users, sessions := Without(users, u), sessions - {u};
        clapUsers, claps := Without(clapUsers, u), claps - {u};
      } else {
        sessions := sessions[u := rest];
      }
    }

    /** Drops the claps that have timed out and the statuses left empty; nothing else changes. */
    method SetTime(time: int)
      requires Valid(Model())
      modifies this`clapUsers, this`claps
      ensures Valid(Model())
      ensures clapUsers == Outliving(old(Model()), time, old(clapUsers))
      ensures forall u :: u in clapUsers <==>
                u in old(claps) && old(claps)[u].Some? && time <= old(claps)[u].value + 7000
      ensures forall u :: u in claps ==> u in old(claps) && claps[u] == old(claps)[u]
    {
      hide Without, Outliving, Fresh;
      var i := 0;
      var all := clapUsers;
      ghost var before := Model();
      NobodyOutlives(before, time);
      assert all[..0] == [] && [] + all[0..] == all;
      while i < |all|
        invariant 0 <= i <= |all| && all == before.clapUsers && Distinct(all)
        invariant Distinct(clapUsers) && forall u :: u in claps <==> u in clapUsers
        invariant clapUsers == Outliving(before, time, all[..i]) + all[i..]
        invariant forall u :: u in claps ==> u in before.claps && claps[u] == before.claps[u]
      {
        StillThere(before, time, all, i);
        OneMoreOutlives(before, time, all, i);
        SameFresh(Model(), before, time, all[i]);
        Expire(all[i], time);
        i := i + 1;
      }
      assert all[..|all|] == all && all[|all|..] == [];
      OutlivingMembers(before, time, all);
      FreshIs(before, time);
    }

    static lemma StillThere(s: State, time: int, all: seq<User>, i: nat)
      requires i < |all|
      ensures all[i] in Outliving(s, time, all[..i]) + all[i..]
    {
      assert (Outliving(s, time, all[..i]) + all[i..])[|Outliving(s, time, all[..i])|] == all[i];
    }

    static lemma NobodyOutlives(s: State, time: int)
      ensures Outliving(s, time, []) == []
    {
    }

    static lemma SameFresh(s: State, t: State, time: int, u: User)
      requires u in s.claps && u in t.claps && s.claps[u] == t.claps[u]
      ensures Fresh(s, time, u) <==> Fresh(t, time, u)
    {
    }

    static lemma FreshIs(s: State, time: int)
      ensures forall u :: Fresh(s, time, u) <==> u in s.claps && s.claps[u].Some? && time <= s.claps[u].value + 7000
    {
    }

    /** One status of the loop in setTime. */
    method Expire(u: User, time: int)
      requires Distinct(clapUsers) && u in claps && forall v :: v in claps <==> v in clapUsers
      modifies this`clapUsers, this`claps
      ensures Distinct(clapUsers) && forall v :: v in claps <==> v in clapUsers
      ensures claps == if Fresh(old(Model()), time, u) then old(claps) else old(claps) - {u}
      ensures clapUsers == if Fresh(old(Model()), time, u) then old(clapUsers) else Without(old(clapUsers), u)
    {
      if claps[u].Some? && time > claps[u].value + CLAP_TIMEOUT_MS {
        claps := claps[u := None];
      }
      if claps[u] == None {
        WithoutDistinct(clapUsers, u);
        clapUsers, claps := Without(clapUsers, u), claps - {u};
      }
    }

    method Clear()
      modifies this
      ensures Model() == Reset(old(Model()))
      ensures users == [] && sessions == map[] && clapUsers == [] && claps == map[] && ghosts == old(ghosts)
    {
      users, sessions := [], map[];
      clapUsers, claps := [], map[];
    }
  }
}
