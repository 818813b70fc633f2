/** Keyset pagination of events and confas: the filter, the sort, the limit and the next cursor together. */
module Pagination {
  import opened Wrappers

  const NIL := 0                      // uuid.Nil; other ids compare as numbers, as Mongo compares them
  const ZERO_TIME := -62135596800000  // time.Time{} in milliseconds
  const EVENT_BATCH_LIMIT := 3000
  const CONFA_BATCH_LIMIT := 100
  const CONFA_FETCH_LIMIT := 500

  /** `scope` is the room of an event or the owner of a confa. */
  datatype Doc = Doc(id: nat, createdAt: int, scope: nat, handle: string)

  datatype From = From(id: nat, createdAt: int)

  datatype Lookup = Lookup(id: nat, handle: string, scope: nat, limit: int, from: From, asc: bool)

  const START := From(NIL, ZERO_TIME)

  predicate Less(a: Doc, b: Doc) {
    a.createdAt < b.createdAt || (a.createdAt == b.createdAt && a.id < b.id)
  }

  /** Comes earlier in a listing. */
  predicate Precedes(a: Doc, b: Doc, asc: bool) { if asc then Less(a, b) else Less(b, a) }

  predicate Beyond(x: int, y: int, asc: bool) { if asc then x > y else x < y }

  /** mongoFilter; event lookups have no handle. */
  predicate Matches(l: Lookup, d: Doc) {
    && (l.scope != NIL ==> d.scope == l.scope)
    && if l.id != NIL then d.id == l.id
       else if l.handle != "" then d.handle == l.handle
       else if l.from.createdAt != ZERO_TIME && l.from.id != NIL then
         || Beyond(d.createdAt, l.from.createdAt, l.asc)
         || (d.createdAt == l.from.createdAt && Beyond(d.id, l.from.id, l.asc))
       else if l.from.createdAt != ZERO_TIME then Beyond(d.createdAt, l.from.createdAt, l.asc)
       else if l.from.id != NIL then Beyond(d.id, l.from.id, l.asc)
       else true
  }

  /** Ids are unique, and neither ids nor times are zero. */
  ghost predicate Collection(docs: set<Doc>) {
    && (forall d :: d in docs ==> d.id != NIL && d.createdAt != ZERO_TIME)
    && (forall a, b :: a in docs && b in docs && a.id == b.id ==> a == b)
  }

  ghost function MatchSet(docs: set<Doc>, l: Lookup): (r: set<Doc>)
    ensures Collection(docs) ==> Collection(r)
  {
    set d | d in docs && Matches(l, d)
  }

  /* ---------- sorting ---------- */

  ghost predicate Sorted(s: seq<Doc>, asc: bool) {
    forall i, j :: 0 <= i < j < |s| ==> Precedes(s[i], s[j], asc)
  }

  ghost function Members(s: seq<Doc>): set<Doc> { set d | d in s }

  lemma NoMembers(s: seq<Doc>)
    ensures Members(s) == {} <==> s == []
  {
    if s != [] { assert s[0] in Members(s); }
  }

  ghost predicate IsFirst(m: Doc, docs: set<Doc>, asc: bool) {
    m in docs && forall d :: d in docs && d != m ==> Precedes(m, d, asc)
  }

  lemma {:induction false} FirstExists(docs: set<Doc>, asc: bool)
    requires Collection(docs) && docs != {}
    ensures exists m :: IsFirst(m, docs, asc)
    decreases |docs|
  {
    var x :| x in docs;
    var rest := docs - {x};
    if rest == {} {
      assert docs == {x};
      assert IsFirst(x, docs, asc);
    } else {
      FirstExists(rest, asc);
      var y :| IsFirst(y, rest, asc);
      assert x.id != y.id;
      var m := if Precedes(x, y, asc) then x else y;
      forall d | d in docs && d != m ensures Precedes(m, d, asc) {
        assert d == x || d == y || (d in rest && Precedes(y, d, asc));
      }
      assert IsFirst(m, docs, asc);
    }
  }

  /** The documents in the order Find returns them: sorted by createdAt, then _id. */
  ghost function Listing(docs: set<Doc>, asc: bool): (s: seq<Doc>)
    requires Collection(docs)
    ensures Sorted(s, asc) && Members(s) == docs
    decreases |docs|
  {
    if docs == {} then []
    else
      FirstExists(docs, asc);
      var m :| IsFirst(m, docs, asc);
      var rest := Listing(docs - {m}, asc);
      PrependKeepsSorted(m, rest, asc);
      [m] + rest
  }

  lemma PrependKeepsSorted(m: Doc, rest: seq<Doc>, asc: bool)
    requires Sorted(rest, asc) && forall d :: d in Members(rest) ==> Precedes(m, d, asc)
    ensures Sorted([m] + rest, asc) && Members([m] + rest) == {m} + Members(rest)
  {
  }

  /** There is only one way to sort a collection. */
  lemma {:induction false} SortedIsUnique(a: seq<Doc>, b: seq<Doc>, asc: bool)
    requires Sorted(a, asc) && Sorted(b, asc) && Members(a) == Members(b)
    ensures a == b
    decreases |a|
  {
    NoMembers(a);
    NoMembers(b);
    if a == [] {
    } else {
      assert a[0] in Members(a) && b[0] in Members(b);
      assert a[0] == b[0];
      TailMembers(a, asc);
      TailMembers(b, asc);
      SortedIsUnique(a[1..], b[1..], asc);
    }
  }

  lemma TailMembers(s: seq<Doc>, asc: bool)
    requires Sorted(s, asc) && s != []
    ensures Members(s[1..]) == Members(s) - {s[0]}
  {
  }

  /* ---------- one page ---------- */

  /** Find's limit: zero is no limit. */
  function Take<T>(s: seq<T>, limit: nat): seq<T> {
    if limit == 0 || limit >= |s| then s else s[..limit]
  }

  ghost function Find(docs: set<Doc>, l: Lookup): seq<Doc>
    requires Collection(docs) && l.limit >= 0
  {
    Take(Listing(MatchSet(docs, l), l.asc), l.limit)
  }

  /** The two resolvers differ in their limits and in when they offer a next cursor. */
  datatype Api = Events | Confas

  /** The limit of the query behind a request. */
  function QueryLimit(api: Api, requested: int): (n: nat)
    ensures api == Events ==> n == if 0 <= requested <= 3000 then requested else 3000
    ensures api == Confas ==> n == if 1 <= requested <= 100 then requested else 100
  {
    match api
    case Events => if requested < 0 || requested > EVENT_BATCH_LIMIT then EVENT_BATCH_LIMIT else requested
    case Confas => if requested <= 0 || requested > CONFA_BATCH_LIMIT then CONFA_BATCH_LIMIT else requested
  }

  /** confa.Mongo.Fetch clamps once more; a resolver's limit passes unchanged. */
  function FetchLimit(limit: int): int {
    if limit > CONFA_FETCH_LIMIT || limit == 0 then CONFA_FETCH_LIMIT else limit
  }

  lemma ResolverLimitPassesFetch(requested: int)
    ensures FetchLimit(QueryLimit(Confas, requested)) == QueryLimit(Confas, requested)
    ensures FetchLimit(requested) == if requested == 0 || requested > 500 then 500 else requested
  {
  }

  predicate OffersNext(api: Api, limit: nat, page: seq<Doc>) {
    match api
    case Events => page != []
    case Confas => page != [] && |page| == limit
  }

  function CursorOf(d: Doc): From { From(d.id, d.createdAt) }

  /** The response loop of the two resolvers. */
  method Respond(api: Api, limit: nat, found: seq<Doc>) returns (items: seq<Doc>, next: Option<From>)
    ensures items == found
    ensures next == if OffersNext(api, limit, found) then Some(CursorOf(found[|found| - 1])) else None
  {
    items := [];
    for i := 0 to |found|
      invariant items == found[..i]
    {
      items := items + [found[i]];
    }
    next := None;
    if |items| != 0 && (api == Events || |items| == limit) {
      var last := items[|items| - 1];
      next := Some(CursorOf(last));
    }
  }

  /* ---------- what a lookup finds ---------- */

  predicate InScope(l: Lookup, d: Doc) { l.scope != NIL ==> d.scope == l.scope }

  /** A lookup by id finds that document or nothing, whatever else it asks for. */
  lemma LookupById(docs: set<Doc>, l: Lookup)
    requires Collection(docs) && l.id != NIL && l.limit >= 0
    ensures forall d :: d in Find(docs, l) <==> d in docs && d.id == l.id && InScope(l, d)
    ensures |Find(docs, l)| <= 1
  {
    hide Listing;
    var found := MatchSet(docs, l);
    forall d ensures d in found <==> d in docs && d.id == l.id && InScope(l, d) { }
    if d :| d in found {
      assert found == {d};
      SortedIsUnique(Listing(found, l.asc), [d], l.asc);
    } else {
      NoMembers(Listing(found, l.asc));
    }
  }

  /** Any other lookup starts from all documents of the scope, from those with its handle, or from those that its
      cursor precedes: by time and id if it has both, by the one it has otherwise. */
  lemma LookupFinds(docs: set<Doc>, l: Lookup)
    requires Collection(docs) && l.id == NIL
    ensures forall d :: d in MatchSet(docs, l) <==>
              && d in docs && InScope(l, d)
              && (l.handle != "" ==> d.handle == l.handle)
              && (l.handle == "" && l.from.createdAt != ZERO_TIME && l.from.id == NIL ==>
                    if l.asc then d.createdAt > l.from.createdAt else d.createdAt < l.from.createdAt)
              && (l.handle == "" && l.from.createdAt != ZERO_TIME && l.from.id != NIL ==>
                    Precedes(Doc(l.from.id, l.from.createdAt, d.scope, ""), d, l.asc))
              && (l.handle == "" && l.from.createdAt == ZERO_TIME && l.from.id != NIL ==>
                    if l.asc then d.id > l.from.id else d.id < l.from.id)
  {
  }

  /* ---------- following the cursors ---------- */

  /** A lookup of a collection of pages: no id or handle, and no id without a time. */
  predicate Pageable(l: Lookup) {
    && l.limit >= 0 && l.id == NIL && l.handle == ""
    && (l.from.id != NIL ==> l.from.createdAt != ZERO_TIME)
  }

  function After(l: Lookup, d: Doc): Lookup { l.(from := CursorOf(d)) }

  /** The next cursor cuts the listing exactly behind the document it names. */
  lemma CursorCutsListing(docs: set<Doc>, l: Lookup, k: nat)
    requires Collection(docs) && Pageable(l)
    requires k < |Listing(MatchSet(docs, l), l.asc)|
    ensures var s := Listing(MatchSet(docs, l), l.asc);
            Listing(MatchSet(docs, After(l, s[k])), l.asc) == s[k + 1..]
  {
    hide Listing;
    var all := MatchSet(docs, l);
    var s := Listing(all, l.asc);
    var rest := MatchSet(docs, After(l, s[k]));
    assert s[k] in Members(s);
    assert Members(s[k + 1..]) == rest by {
      forall d ensures d in s[k + 1..] <==> d in rest {
        if d in rest {
          MatchesIsUpwardClosed(l, s[k], d);
          assert d in Members(s);
          var i :| 0 <= i < |s| && s[i] == d;
          assert Precedes(s[k], d, l.asc);
          assert i > k;
          assert s[k + 1..][i - k - 1] == d;
        }
        if d in s[k + 1..] {
          var i :| 0 <= i < |s[k + 1..]| && s[k + 1..][i] == d;
          assert s[k + 1 + i] == d && d in Members(s);
        }
      }
    }
    SortedIsUnique(Listing(rest, l.asc), s[k + 1..], l.asc);
  }

  lemma MatchesIsUpwardClosed(l: Lookup, a: Doc, d: Doc)
    requires Pageable(l) && Matches(l, a) && a.id != NIL && a.createdAt != ZERO_TIME && Matches(After(l, a), d)
    ensures Matches(l, d) && Precedes(a, d, l.asc)
  {
  }

  lemma ListingSize(docs: set<Doc>, asc: bool)
    requires Collection(docs)
    ensures |Listing(docs, asc)| == |docs|
  {
    SortedSize(Listing(docs, asc), asc);
  }

  lemma {:induction false} SortedSize(s: seq<Doc>, asc: bool)
    requires Sorted(s, asc)
    ensures |Members(s)| == |s|
  {
    if s == [] {
    } else {
      TailMembers(s, asc);
      assert s[0] in Members(s);
      SortedSize(s[1..], asc);
    }
  }

  lemma LastOfPage(docs: set<Doc>, l: Lookup)
    requires Collection(docs) && l.limit >= 0 && Find(docs, l) != []
    ensures var page := Find(docs, l);
            var s := Listing(MatchSet(docs, l), l.asc);
            && 0 < |page| <= |s| && page == s[..|page|] && page[|page| - 1] == s[|page| - 1]
            && page[|page| - 1] in docs
  {
    hide Listing;
    var page := Find(docs, l);
    var s := Listing(MatchSet(docs, l), l.asc);
    assert s[|page| - 1] in Members(s);
  }

  lemma PageShrinksMatches(docs: set<Doc>, l: Lookup)
    requires Collection(docs) && Pageable(l) && Find(docs, l) != []
    ensures var page := Find(docs, l);
            && Pageable(After(l, page[|page| - 1]))
            && |MatchSet(docs, After(l, page[|page| - 1]))| == |MatchSet(docs, l)| - |page|
  {
    var page := Find(docs, l);
    LastOfPage(docs, l);
    CursorCutsListing(docs, l, |page| - 1);
    ListingSize(MatchSet(docs, l), l.asc);
    ListingSize(MatchSet(docs, After(l, page[|page| - 1])), l.asc);
  }

  /** All pages, from the first one on: each next cursor is sent back with the same direction. */
  ghost function FollowPages(api: Api, docs: set<Doc>, l: Lookup): seq<Doc>
    requires Collection(docs) && Pageable(l)
    decreases |MatchSet(docs, l)|
  {
    var page := Find(docs, l);
    if OffersNext(api, l.limit, page) then
      PageShrinksMatches(docs, l);
      page + FollowPages(api, docs, After(l, page[|page| - 1]))
    else page
  }

  /** One page and its next cursor split the listing in two. */
  lemma PageSplitsListing(api: Api, docs: set<Doc>, l: Lookup)
    requires Collection(docs) && Pageable(l) && OffersNext(api, l.limit, Find(docs, l))
    ensures var page := Find(docs, l);
            var rest := After(l, page[|page| - 1]);
            && Pageable(rest) && rest.limit == l.limit && rest.asc == l.asc
            && |MatchSet(docs, rest)| < |MatchSet(docs, l)|
            && Listing(MatchSet(docs, l), l.asc) == page + Listing(MatchSet(docs, rest), l.asc)
  {
    hide *;
    PageableLimit(l);
    OffersSomething(api, l.limit, Find(docs, l));
    var k := |Find(docs, l)|;
    LastOfPage(docs, l);
    PageShrinksMatches(docs, l);
    var s := Listing(MatchSet(docs, l), l.asc);
    AfterKeeps(l, s[k - 1]);
    CursorCutsListing(docs, l, k - 1);
    assert s == s[..k] + s[k..];
  }

  lemma PageableLimit(l: Lookup)
    requires Pageable(l)
    ensures l.limit >= 0
  {
  }

  lemma OffersSomething(api: Api, limit: nat, page: seq<Doc>)
    requires OffersNext(api, limit, page)
    ensures page != []
  {
  }

  lemma AfterKeeps(l: Lookup, d: Doc)
    ensures After(l, d).limit == l.limit && After(l, d).asc == l.asc
  {
  }

  /** The pages together are the whole listing, each document once and in order. */
  lemma {:induction false} PagesAreListing(api: Api, docs: set<Doc>, l: Lookup)
    requires Collection(docs) && Pageable(l)
    requires l.limit == 0 ==> api == Events
    ensures FollowPages(api, docs, l) == Listing(MatchSet(docs, l), l.asc)
    decreases |MatchSet(docs, l)|
  {
    hide *;
    PageableLimit(l);
    var page := Find(docs, l);
    if OffersNext(api, l.limit, page) {
      FollowUnfolds(api, docs, l);
      PageSplitsListing(api, docs, l);
      PagesAreListing(api, docs, After(l, page[|page| - 1]));
    } else {
      FollowEnds(api, docs, l);
    }
  }

  lemma FollowUnfolds(api: Api, docs: set<Doc>, l: Lookup)
    requires Collection(docs) && Pageable(l) && OffersNext(api, l.limit, Find(docs, l))
    ensures var page := Find(docs, l);
            && page != [] && Pageable(After(l, page[|page| - 1]))
            && FollowPages(api, docs, l) == page + FollowPages(api, docs, After(l, page[|page| - 1]))
  {
    PageShrinksMatches(docs, l);
  }

  lemma FollowEnds(api: Api, docs: set<Doc>, l: Lookup)
    requires Collection(docs) && Pageable(l) && !OffersNext(api, l.limit, Find(docs, l))
    requires l.limit == 0 ==> api == Events
    ensures FollowPages(api, docs, l) == Listing(MatchSet(docs, l), l.asc)
  {
  }

  /** Without a next cursor, the page was everything there was. */
  lemma LastPageIsRest(api: Api, limit: nat, s: seq<Doc>)
    requires !OffersNext(api, limit, Take(s, limit)) && (limit == 0 ==> api == Events)
    ensures Take(s, limit) == s
  {
  }

  function Request(api: Api, scope: nat, requested: int, asc: bool): Lookup {
    Lookup(NIL, "", scope, QueryLimit(api, requested), START, asc)
  }

  /** For either resolver, any requested limit and either direction, following the cursors lists exactly the
      documents of the scope. */
  lemma PagesEnumerate(api: Api, docs: set<Doc>, scope: nat, requested: int, asc: bool)
    requires Collection(docs)
    ensures var pages := FollowPages(api, docs, Request(api, scope, requested, asc));
            && Sorted(pages, asc)
            && Members(pages) == set d | d in docs && (scope == NIL || d.scope == scope)
            && |pages| == |set d | d in docs && (scope == NIL || d.scope == scope)|
  {
    var l := Request(api, scope, requested, asc);
    PagesAreListing(api, docs, l);
    ListingSize(MatchSet(docs, l), asc);
    assert MatchSet(docs, l) == set d | d in docs && (scope == NIL || d.scope == scope);
  }

  /* ---------- cursors sent back as they come ---------- */

  /** The resolvers' next cursor does not carry the direction, so a client that sends it back unchanged turns
      to descending order after the first page. */
  ghost function FollowVerbatim(api: Api, docs: set<Doc>, l: Lookup): seq<Doc>
    requires Collection(docs) && Pageable(l)
  {
    var page := Find(docs, l);
    if OffersNext(api, l.limit, page) then
      LastOfPage(docs, l);
      page + FollowPages(api, docs, After(l, page[|page| - 1]).(asc := false))
    else page
  }

  /** The lookup of everything in the scope. */
  function Unbounded(l: Lookup): Lookup { l.(from := START) }

  /** Then the pages are the listing exactly if the direction was descending anyway, no second page is asked for,
      or the scope has a single document; whatever cursor the first page was asked for with. */
  lemma VerbatimCursorsIff(api: Api, docs: set<Doc>, l: Lookup)
    requires Collection(docs) && Pageable(l) && (l.limit == 0 ==> api == Events)
    ensures FollowVerbatim(api, docs, l) == Listing(MatchSet(docs, l), l.asc) <==>
              || !l.asc
              || MatchSet(docs, l) == {} || (api == Confas && |MatchSet(docs, l)| < l.limit)
              || |MatchSet(docs, Unbounded(l))| == 1
  {
    hide *;
    PageableLimit(l);
    NextIsOffered(api, docs, l);
    if !OffersNext(api, l.limit, Find(docs, l)) {
      VerbatimEnds(api, docs, l);
    } else {
      VerbatimUnfolds(api, docs, l);
      if l.asc {
        VerbatimAscending(docs, l, |Find(docs, l)| - 1);
      } else {
        PageSplitsListing(api, docs, l);
      }
    }
  }

  lemma NextIsOffered(api: Api, docs: set<Doc>, l: Lookup)
    requires Collection(docs) && Pageable(l) && (l.limit == 0 ==> api == Events)
    ensures OffersNext(api, l.limit, Find(docs, l)) <==>
              MatchSet(docs, l) != {} && (api == Confas ==> |MatchSet(docs, l)| >= l.limit)
  {
    hide Listing;
    ListingSize(MatchSet(docs, l), l.asc);
    NoMembers(Listing(MatchSet(docs, l), l.asc));
  }

  lemma VerbatimEnds(api: Api, docs: set<Doc>, l: Lookup)
    requires Collection(docs) && Pageable(l) && !OffersNext(api, l.limit, Find(docs, l))
    requires l.limit == 0 ==> api == Events
    ensures FollowVerbatim(api, docs, l) == Listing(MatchSet(docs, l), l.asc)
  {
  }

  lemma VerbatimUnfolds(api: Api, docs: set<Doc>, l: Lookup)
    requires Collection(docs) && Pageable(l) && OffersNext(api, l.limit, Find(docs, l))
    requires l.limit == 0 ==> api == Events
    ensures var page := Find(docs, l);
            var s := Listing(MatchSet(docs, l), l.asc);
            && 0 < |page| <= |s| && page == s[..|page|]
            && FollowVerbatim(api, docs, l) ==
                 page + Listing(MatchSet(docs, After(l, s[|page| - 1]).(asc := false)), false)
            && (!l.asc ==> After(l, s[|page| - 1]).(asc := false) == After(l, page[|page| - 1]))
  {
    hide *;
    PageableLimit(l);
    OffersSomething(api, l.limit, Find(docs, l));
    LastOfPage(docs, l);
    var back := After(l, Find(docs, l)[|Find(docs, l)| - 1]).(asc := false);
    VerbatimTail(api, docs, l);
    PagesAreListing(api, docs, back);
  }

  lemma VerbatimTail(api: Api, docs: set<Doc>, l: Lookup)
    requires Collection(docs) && Pageable(l) && OffersNext(api, l.limit, Find(docs, l)) && Find(docs, l) != []
    ensures var page := Find(docs, l);
            var back := After(l, page[|page| - 1]).(asc := false);
            && Pageable(back) && back.limit == l.limit && !back.asc
            && FollowVerbatim(api, docs, l) == page + FollowPages(api, docs, back)
            && (!l.asc ==> back == After(l, page[|page| - 1]))
  {
    LastOfPage(docs, l);
    hide Listing, MatchSet, Find;
  }

  /** Turning back after document k of an ascending listing. */
  lemma VerbatimAscending(docs: set<Doc>, l: Lookup, k: nat)
    requires Collection(docs) && Pageable(l) && l.asc && k < |Listing(MatchSet(docs, l), true)|
    ensures var s := Listing(MatchSet(docs, l), true);
            s[..k + 1] + Listing(MatchSet(docs, After(l, s[k]).(asc := false)), false) == s <==>
              |MatchSet(docs, Unbounded(l))| == 1
  {
    hide Listing, MatchSet;
    var s := Listing(MatchSet(docs, l), true);
    var tail := Listing(MatchSet(docs, After(l, s[k]).(asc := false)), false);
    TurnsBack(docs, l, k);
    NoMembers(tail);
    if |MatchSet(docs, Unbounded(l))| == 1 {
      OneDocument(docs, l, k);
      assert s[..k + 1] + tail == s;
    } else if s[..k + 1] + tail == s {
      OnlyOne(docs, l, k);
    }
  }

  /** The documents of the scope before one of them. */
  ghost function Before(docs: set<Doc>, l: Lookup, m: Doc): set<Doc> {
    set d | d in MatchSet(docs, Unbounded(l)) && Less(d, m)
  }

  /** Turning back leads through every document of the scope before it. */
  lemma TurnsBack(docs: set<Doc>, l: Lookup, k: nat)
    requires Collection(docs) && Pageable(l) && l.asc && k < |Listing(MatchSet(docs, l), true)|
    ensures var s := Listing(MatchSet(docs, l), true);
            && s[k] in MatchSet(docs, l) && s[k] in MatchSet(docs, Unbounded(l))
            && Members(Listing(MatchSet(docs, After(l, s[k]).(asc := false)), false)) == Before(docs, l, s[k])
  {
    hide Listing;
    var s := Listing(MatchSet(docs, l), true);
    assert s[k] in Members(s);
  }

  /** Nothing before document k, and nothing after it. */
  lemma OnlyOne(docs: set<Doc>, l: Lookup, k: nat)
    requires Collection(docs) && Pageable(l) && l.asc && k + 1 == |Listing(MatchSet(docs, l), true)|
    requires Before(docs, l, Listing(MatchSet(docs, l), true)[k]) == {}
    ensures |MatchSet(docs, Unbounded(l))| == 1
  {
    hide Listing;
    var s := Listing(MatchSet(docs, l), true);
    assert s[k] in Members(s);
    forall d | d in Members(s) ensures !Less(s[k], d) {
      var i :| 0 <= i < |s| && s[i] == d;
      assert i < k ==> Precedes(s[i], s[k], true);
    }
    forall d | d in MatchSet(docs, Unbounded(l)) ensures d == s[k] {
      assert Less(s[k], d) ==> Matches(l, d);
      assert !Less(d, s[k]) by { assert d !in Before(docs, l, s[k]); }
    }
    assert MatchSet(docs, Unbounded(l)) == {s[k]};
  }

  lemma OneDocument(docs: set<Doc>, l: Lookup, k: nat)
    requires Collection(docs) && Pageable(l) && l.asc && k < |Listing(MatchSet(docs, l), true)|
    requires |MatchSet(docs, Unbounded(l))| == 1
    ensures var s := Listing(MatchSet(docs, l), true);
            s == [s[k]] && Listing(MatchSet(docs, After(l, s[k]).(asc := false)), false) == []
  {
    hide Listing;
    var s := Listing(MatchSet(docs, l), true);
    TurnsBack(docs, l, k);
    NoMembers(Listing(MatchSet(docs, After(l, s[k]).(asc := false)), false));
    forall d | d in MatchSet(docs, Unbounded(l)) ensures d == s[k] { SameMember(MatchSet(docs, Unbounded(l)), d, s[k]); }
    forall d | d in MatchSet(docs, l) ensures d == s[k] { assert d in MatchSet(docs, Unbounded(l)); }
    assert MatchSet(docs, l) == {s[k]};
    ListingSize(MatchSet(docs, l), true);
  }

  lemma SameMember(docs: set<Doc>, a: Doc, b: Doc)
    requires |docs| == 1 && a in docs && b in docs
    ensures a == b
  {
    assert |docs - {a}| == 0;
  }

  /* ---------- the client's iterator ---------- */

  datatype Cursor = Cursor(from: From, asc: bool)

  /** What EventIterator.next asks for; the server reads a missing cursor as START, descending. */
  function LookupFor(scope: nat, requested: int, c: Option<Cursor>): Lookup {
    Lookup(NIL, "", scope, QueryLimit(Events, requested), if c.Some? then c.value.from else START, c.Some? && c.value.asc)
  }

  /** The response's next cursor replaces the iterator's, direction included; an empty page has none. */
  function NextCursor(page: seq<Doc>): Option<Cursor> {
    if page == [] then None else Some(Cursor(CursorOf(page[|page| - 1]), false))
  }

  predicate CursorIsPageable(c: Option<Cursor>) {
    c.Some? && c.value.from.id != NIL ==> c.value.from.createdAt != ZERO_TIME
  }

  lemma NextCallShrinks(docs: set<Doc>, scope: nat, requested: int, c: Option<Cursor>)
    requires Collection(docs) && CursorIsPageable(c)
    ensures var l := LookupFor(scope, requested, c);
            var page := Find(docs, l);
            page != [] ==>
              && CursorIsPageable(NextCursor(page)) && Pageable(l)
              && LookupFor(scope, requested, NextCursor(page)) == After(l, page[|page| - 1]).(asc := false)
              && (!l.asc ==> |MatchSet(docs, LookupFor(scope, requested, NextCursor(page)))| < |MatchSet(docs, l)|)
  {
    var l := LookupFor(scope, requested, c);
    var page := Find(docs, l);
    if page != [] {
      assert Pageable(l);
      hide Find, Listing, MatchSet, Pageable;
      LastOfPage(docs, l);
      PageShrinksMatches(docs, l);
    }
  }

  /** What the iterator's calls return, up to the first empty page. */
  ghost function Iterate(docs: set<Doc>, scope: nat, requested: int, c: Option<Cursor>): seq<Doc>
    requires Collection(docs) && CursorIsPageable(c)
    decreases if LookupFor(scope, requested, c).asc then 1 else 0, |MatchSet(docs, LookupFor(scope, requested, c))|
  {
    var page := Find(docs, LookupFor(scope, requested, c));
    NextCallShrinks(docs, scope, requested, c);
    if page == [] then [] else page + Iterate(docs, scope, requested, NextCursor(page))
  }

  /** Once it asks in descending order, the iterator follows the pages. */
  lemma {:induction false} IterateDescends(docs: set<Doc>, scope: nat, requested: int, c: Option<Cursor>)
    requires Collection(docs) && CursorIsPageable(c) && !LookupFor(scope, requested, c).asc
    ensures Iterate(docs, scope, requested, c) == FollowPages(Events, docs, LookupFor(scope, requested, c))
    decreases |MatchSet(docs, LookupFor(scope, requested, c))|
  {
    var l := LookupFor(scope, requested, c);
    var page := Find(docs, l);
    assert Pageable(l);
    hide Find, Listing, MatchSet, Pageable;
    NextCallShrinks(docs, scope, requested, c);
    if page == [] {
    } else {
      IterateDescends(docs, scope, requested, NextCursor(page));
    }
  }

  /** The replay's iterator starts in ascending order from a time: it lists the events from there on exactly if
      there is none, or the scope has a single one. */
  lemma IteratorListsIff(docs: set<Doc>, scope: nat, requested: int, c: Cursor)
    requires Collection(docs) && CursorIsPageable(Some(c))
    ensures var l := LookupFor(scope, requested, Some(c));
            l == Lookup(NIL, "", scope, if 0 <= requested <= 3000 then requested else 3000, c.from, c.asc)
    ensures var l := LookupFor(scope, requested, Some(c));
            Iterate(docs, scope, requested, Some(c)) == Listing(MatchSet(docs, l), c.asc) <==>
              !c.asc || MatchSet(docs, l) == {} || |MatchSet(docs, Unbounded(l))| == 1
  {
    var l := LookupFor(scope, requested, Some(c));
    var page := Find(docs, l);
    assert Pageable(l);
    hide Find, Listing, MatchSet, Pageable, FollowPages;
    NextCallShrinks(docs, scope, requested, Some(c));
    if page != [] { IterateDescends(docs, scope, requested, NextCursor(page)); }
    VerbatimCursorsIff(Events, docs, l);
  }

  /** An iterator does not stay exhausted: the call after an empty page starts again with the newest document of
      the scope, if there is one. */
  lemma ExhaustedIteratorRestarts(docs: set<Doc>, scope: nat, requested: int)
    requires Collection(docs)
    ensures var again := Find(docs, LookupFor(scope, requested, NextCursor([])));
            var all := set d | d in docs && (scope == NIL || d.scope == scope);
            && (again == [] <==> all == {})
            && (again != [] ==> IsFirst(again[0], all, false))
  {
  }

  /* ---------- a cursor with an id only ---------- */

  /** The cursor's time is optional: a first cursor may name an id and no time. */
  predicate IdOnly(l: Lookup) {
    l.limit >= 0 && l.id == NIL && l.handle == "" && l.from.id != NIL && l.from.createdAt == ZERO_TIME
  }

  /** All pages: the first one filtered by id, the others behind the next cursor, which has a time. */
  ghost function FollowIdOnly(api: Api, docs: set<Doc>, l: Lookup): seq<Doc>
    requires Collection(docs) && IdOnly(l)
  {
    var page := Find(docs, l);
    if OffersNext(api, l.limit, page) then
      LastOfPage(docs, l);
      page + FollowPages(api, docs, After(l, page[|page| - 1]))
    else page
  }

  /** The time filter of the second page admits nothing that the id filter of the first had excluded. */
  ghost predicate FiltersAgree(docs: set<Doc>, l: Lookup, last: Doc) {
    forall d :: d in docs && InScope(l, d) && Precedes(last, d, l.asc) ==> Beyond(d.id, l.from.id, l.asc)
  }

  /** Then the pages are the listing of the first filter exactly if there is one page, or every document of the
      scope that comes after that page also satisfies the id filter. */
  lemma IdOnlyCursorIff(api: Api, docs: set<Doc>, l: Lookup)
    requires Collection(docs) && IdOnly(l) && (l.limit == 0 ==> api == Events)
    ensures var page := Find(docs, l);
            FollowIdOnly(api, docs, l) == Listing(MatchSet(docs, l), l.asc) <==>
              (OffersNext(api, l.limit, page) ==> FiltersAgree(docs, l, page[|page| - 1]))
  {
    hide Listing, Matches, FiltersAgree, FollowPages, MatchSet;
    var page := Find(docs, l);
    if OffersNext(api, l.limit, page) {
      LastOfPage(docs, l);
      var rest := After(l, page[|page| - 1]);
      PagesAreListing(api, docs, rest);
      IdOnlyTail(docs, l, |page| - 1);
      var s := Listing(MatchSet(docs, l), l.asc);
      assert s == page + s[|page|..];
      SameTail(page, Listing(MatchSet(docs, rest), l.asc), s[|page|..]);
    } else {
      LastPageIsRest(api, l.limit, Listing(MatchSet(docs, l), l.asc));
    }
  }

  lemma SameTail(page: seq<Doc>, a: seq<Doc>, b: seq<Doc>)
    ensures page + a == page + b <==> a == b
  {
    if page + a == page + b { assert a == (page + a)[|page|..] == (page + b)[|page|..] == b; }
  }

  /** What comes after document k, through the cursor and in the listing. */
  lemma IdOnlyTail(docs: set<Doc>, l: Lookup, k: nat)
    requires Collection(docs) && IdOnly(l) && k < |Listing(MatchSet(docs, l), l.asc)|
    ensures var s := Listing(MatchSet(docs, l), l.asc);
            Listing(MatchSet(docs, After(l, s[k])), l.asc) == s[k + 1..] <==> FiltersAgree(docs, l, s[k])
  {
    hide Listing;
    var s := Listing(MatchSet(docs, l), l.asc);
    var rest := MatchSet(docs, After(l, s[k]));
    assert s[k] in Members(s);
    forall d ensures d in s[k + 1..] <==> d in docs && Matches(l, d) && Precedes(s[k], d, l.asc) {
      if d in docs && Matches(l, d) && Precedes(s[k], d, l.asc) {
        assert d in Members(s);
        var i :| 0 <= i < |s| && s[i] == d;
        assert i > k;
        assert s[k + 1..][i - k - 1] == d;
      }
      if d in s[k + 1..] {
        var i :| 0 <= i < |s[k + 1..]| && s[k + 1..][i] == d;
        assert s[k + 1 + i] == d && d in Members(s);
      }
    }
    assert forall d :: d in rest <==> d in docs && InScope(l, d) && Precedes(s[k], d, l.asc);
    if FiltersAgree(docs, l, s[k]) {
      assert Members(s[k + 1..]) == rest;
      SortedIsUnique(Listing(rest, l.asc), s[k + 1..], l.asc);
    } else {
      var d :| d in docs && InScope(l, d) && Precedes(s[k], d, l.asc) && !Beyond(d.id, l.from.id, l.asc);
      assert d in Members(Listing(rest, l.asc)) && d !in s[k + 1..];
    }
  }

  /** A collection where it goes wrong: the second page returns a document the first filter had excluded. */
  lemma IdOnlyCursorChangesFilter(scope: nat)
    requires scope != NIL
    ensures var a, b := Doc(2, 10, scope, ""), Doc(1, 20, scope, "");
            var docs := {a, b};
            var l := Lookup(NIL, "", scope, 1, From(1, ZERO_TIME), true);
            && Collection(docs) && MatchSet(docs, l) == {a} && Find(docs, l) == [a]
            && Find(docs, After(l, a)) == [b]
            && FollowIdOnly(Events, docs, l) == [a, b] != Listing(MatchSet(docs, l), true)
  {
    var a, b := Doc(2, 10, scope, ""), Doc(1, 20, scope, "");
    var docs := {a, b};
    var l := Lookup(NIL, "", scope, 1, From(1, ZERO_TIME), true);
    assert MatchSet(docs, l) == {a} && MatchSet(docs, After(l, a)) == {b};
    hide Matches, Listing;
    ListingOfOne(a, true);
    ListingOfOne(b, true);
    PagesAreListing(Events, docs, After(l, a));
    assert [a] + [b] == [a, b];
  }

  lemma ListingOfOne(d: Doc, asc: bool)
    requires Collection({d})
    ensures Listing({d}, asc) == [d]
  {
    SortedIsUnique(Listing({d}, asc), [d], asc);
  }
}
