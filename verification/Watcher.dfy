/** The snapshot cache of kings and lings: a fetched state is stored and handed on only when its revision
    differs from the cached one. It is stored under the mutex and handed on after that, so calls that overlap
    can hand on in another order than they stored. */
module WatcherCache {
  import opened Basics
  import opened CouncilState
  import opened Runs
  import opened Freshness

  predicate Replaces(cached: Option<State>, response: Option<State>) {
    response.Some? && (cached.None? || cached.value.revision != response.value.revision)
  }

  /** The cache after a response; a failed fetch is no response. */
  function Cache(cached: Option<State>, response: Option<State>): Option<State> {
    if Replaces(cached, response) then response else cached
  }

  class Watcher {
    var state: Option<State>
    /** The snapshot that the peer acts on: the one handed on last. */
    var current: Option<State>
    /** Every snapshot stored so far, and which of them have been handed on, in that order. */
    ghost var stored: seq<State>
    ghost var handed: seq<nat>

    ghost predicate Valid()
      reads this
    {
      && state == (if stored == [] then None else Some(Last(stored)))
      && (forall i :: 0 <= i < |handed| ==> handed[i] < |stored|)
      && (forall i, j :: 0 <= i < j < |handed| ==> handed[i] != handed[j])
      && current == if handed == [] then None else Some(stored[Last(handed)])
    }

    constructor ()
      ensures Valid() && state.None? && current.None? && stored == [] && handed == []
    {
      state, current, stored, handed := None, None, [], [];
    }

    /** What doFetchState does under the mutex. */
    method Store(response: Option<State>) returns (next: Option<State>, ghost ticket: nat)
      requires Valid()
      modifies this`state, this`stored
      ensures Valid() && state == Cache(old(state), response)
      ensures next == if Replaces(old(state), response) then response else None
      ensures stored == old(stored) + if next.Some? then [next.value] else []
      ensures next.Some? ==> ticket == |old(stored)| && ticket !in handed
    {
      next, ticket := None, |stored|;
      if response.None? {
        return;
      }
      var newState := response.value;
      if state.None? || state.value.revision != newState.revision {
        state := Some(newState);
        stored := stored + [newState];
        next := Some(newState);
      }
    }

    /** The call of onChange, after the mutex was given up. */
    method HandOn(snapshot: State, ghost ticket: nat)
      requires Valid() && ticket < |stored| && stored[ticket] == snapshot && ticket !in handed
      modifies this`current, this`handed
      ensures Valid() && current == Some(snapshot) && handed == old(handed) + [ticket]
    {
      current := Some(snapshot);
      handed := handed + [ticket];
    }

    /** A whole call, when no other comes in between. */
    method DoFetchState(response: Option<State>)
      requires Valid()
      modifies this
      ensures Valid() && state == Cache(old(state), response)
      ensures if Replaces(old(state), response)
        then
          && current == response && stored == old(stored) + [response.value]
          && handed == old(handed) + [|old(stored)|]
        else current == old(current) && stored == old(stored) && handed == old(handed)
    {
      var next; ghost var ticket;
      next, ticket := Store(response);
      if next.Some? {
        HandOn(next.value, ticket);
      }
    }
  }

  /** A fetch fails, or returns the council state at some index of the run. */
  datatype Fetch = Failed | Got(at: nat)

  function Response(ss: seq<Sys>, f: Fetch): Option<State>
    requires f.Got? ==> f.at < |ss|
  {
    match f
    case Failed => None
    case Got(at) => Some(ss[at].council)
  }

  predicate InRun(ss: seq<Sys>, fetches: seq<Fetch>) {
    forall i :: 0 <= i < |fetches| && fetches[i].Got? ==> fetches[i].at < |ss|
  }

  /** What a later response brings is not older. */
  predicate InOrder(fetches: seq<Fetch>) {
    forall i, j :: 0 <= i < j < |fetches| && fetches[i].Got? && fetches[j].Got? ==> fetches[i].at <= fetches[j].at
  }

  function CacheAfter(ss: seq<Sys>, fetches: seq<Fetch>): Option<State>
    requires InRun(ss, fetches)
  {
    if fetches == [] then None
    else Cache(CacheAfter(ss, Front(fetches)), Response(ss, Last(fetches)))
  }

  /** The snapshots stored by these fetches. */
  function Stored(ss: seq<Sys>, fetches: seq<Fetch>): (stored: seq<State>)
    requires InRun(ss, fetches)
    ensures CacheAfter(ss, fetches) == if stored == [] then None else Some(Last(stored))
  {
    if fetches == [] then []
    else
      var response := Response(ss, Last(fetches));
      Stored(ss, Front(fetches)) + if Replaces(CacheAfter(ss, Front(fetches)), response) then [response.value] else []
  }

  lemma {:induction false} CacheIsFetched(ss: seq<Sys>, fetches: seq<Fetch>) returns (i: nat)
    requires InRun(ss, fetches) && CacheAfter(ss, fetches).Some?
    ensures i < |fetches| && fetches[i].Got? && CacheAfter(ss, fetches) == Some(ss[fetches[i].at].council)
  {
    if CacheAfter(ss, fetches) == Response(ss, Last(fetches)) {
      i := |fetches| - 1;
    } else {
      i := CacheIsFetched(ss, Front(fetches));
    }
  }

  /** Every snapshot stored is a state of the run. */
  lemma {:induction false} StoredFromRun(ss: seq<Sys>, fetches: seq<Fetch>, n: nat) returns (at: nat)
    requires InRun(ss, fetches) && n < |Stored(ss, fetches)|
    ensures at < |ss| && Stored(ss, fetches)[n] == ss[at].council
  {
    if n < |Stored(ss, Front(fetches))| {
      at := StoredFromRun(ss, Front(fetches), n);
    } else {
      at := Last(fetches).at;
    }
  }

  /** Skipping equal revisions loses nothing, in whatever order the responses come in: after every successful
      fetch of a run whose changes are all counted, the cache holds the council's state at that fetch,
      heartbeats aside. */
  lemma CacheAgrees(ss: seq<Sys>, ls: seq<Label>, fetches: seq<Fetch>)
    requires CountedRun(ss, ls) && InRun(ss, fetches) && fetches != [] && Last(fetches).Got?
    ensures CacheAfter(ss, fetches).Some?
    ensures SameButBeat(CacheAfter(ss, fetches).value, ss[Last(fetches).at].council)
  {
    hide IsRun, SameButBeat, LosesCount;
    var at := Last(fetches).at;
    var cached := CacheAfter(ss, Front(fetches));
    if cached.None? || cached.value.revision != ss[at].council.revision {
      SameRefl(ss[at].council);
    } else {
      var i := CacheIsFetched(ss, Front(fetches));
      StatesAgree(ss, ls, Front(fetches)[i].at, at);
    }
  }

  /** Whichever came first, two states of the run with equal revisions agree. */
  lemma StatesAgree(ss: seq<Sys>, ls: seq<Label>, i: nat, j: nat)
    requires CountedRun(ss, ls) && i < |ss| && j < |ss| && ss[i].council.revision == ss[j].council.revision
    ensures SameButBeat(ss[i].council, ss[j].council)
  {
    hide IsRun, SameButBeat, LosesCount;
    if i <= j {
      EqualRevisions(ss, ls, i, j);
    } else {
      EqualRevisions(ss, ls, j, i);
      SameSymmetric(ss[j].council, ss[i].council);
    }
  }

  lemma SameSymmetric(a: State, b: State)
    ensures SameButBeat(a, b) ==> SameButBeat(b, a)
  {
  }

  // ---------------------------------------------------------------- going back

  /** The cached revision is that of the last successful fetch. */
  lemma {:induction false} CachedRevision(ss: seq<Sys>, fetches: seq<Fetch>, i: nat)
    requires InRun(ss, fetches) && i < |fetches| && fetches[i].Got?
    requires forall j :: i < j < |fetches| ==> fetches[j].Failed?
    ensures CacheAfter(ss, fetches).Some?
    ensures CacheAfter(ss, fetches).value.revision == ss[fetches[i].at].council.revision
  {
    if i < |fetches| - 1 {
      CachedRevision(ss, Front(fetches), i);
    }
  }

  lemma {:induction false} LastGot(ss: seq<Sys>, fetches: seq<Fetch>) returns (i: nat)
    requires InRun(ss, fetches) && CacheAfter(ss, fetches).Some?
    ensures i < |fetches| && fetches[i].Got? && forall j :: i < j < |fetches| ==> fetches[j].Failed?
  {
    if Last(fetches).Got? {
      i := |fetches| - 1;
    } else {
      i := LastGot(ss, Front(fetches));
    }
  }

  /** The cache after the first m fetches is not older than after the first n. */
  predicate NotOlder(ss: seq<Sys>, fetches: seq<Fetch>, n: nat, m: nat)
    requires InRun(ss, fetches) && n <= m <= |fetches|
  {
    var before, after := CacheAfter(ss, fetches[..n]), CacheAfter(ss, fetches[..m]);
    before.Some? ==> after.Some? && before.value.revision <= after.value.revision
  }

  ghost predicate NeverGoesBack(ss: seq<Sys>, fetches: seq<Fetch>)
    requires InRun(ss, fetches)
  {
    forall n, m :: 0 <= n <= m <= |fetches| ==> NotOlder(ss, fetches, n, m)
  }

  /** What the fetches got, in the order in which their responses came in, never falls. */
  predicate RevisionsInOrder(ss: seq<Sys>, fetches: seq<Fetch>)
    requires InRun(ss, fetches)
  {
    forall i, j :: 0 <= i < j < |fetches| && fetches[i].Got? && fetches[j].Got? ==>
      ss[fetches[i].at].council.revision <= ss[fetches[j].at].council.revision
  }

  lemma InOrderNotOlder(ss: seq<Sys>, fetches: seq<Fetch>, n: nat, m: nat)
    requires InRun(ss, fetches) && n <= m <= |fetches| && RevisionsInOrder(ss, fetches)
    ensures NotOlder(ss, fetches, n, m)
  {
    hide CacheAfter;
    if CacheAfter(ss, fetches[..n]).Some? {
      var i := LastGot(ss, fetches[..n]);
      CachedRevision(ss, fetches[..n], i);
      var j := LastGotFrom(fetches[..m], i);
      CachedRevision(ss, fetches[..m], j);
    }
  }

  /** The last successful fetch, when there is one at i. */
  lemma {:induction false} LastGotFrom(fetches: seq<Fetch>, i: nat) returns (j: nat)
    requires i < |fetches| && fetches[i].Got?
    ensures i <= j < |fetches| && fetches[j].Got? && forall k :: j < k < |fetches| ==> fetches[k].Failed?
  {
    if Last(fetches).Got? {
      j := |fetches| - 1;
    } else {
      j := LastGotFrom(Front(fetches), i);
    }
  }

  /** The cache goes back to a lower revision, at some prefix of the fetches, exactly when some fetch got a
      lower revision than one whose response came in before. */
  lemma GoesBackIff(ss: seq<Sys>, fetches: seq<Fetch>)
    requires InRun(ss, fetches)
    ensures NeverGoesBack(ss, fetches) <==> RevisionsInOrder(ss, fetches)
  {
    hide CacheAfter;
    if RevisionsInOrder(ss, fetches) {
      forall n, m | 0 <= n <= m <= |fetches| ensures NotOlder(ss, fetches, n, m) {
        InOrderNotOlder(ss, fetches, n, m);
      }
    } else {
      var i, j :| 0 <= i < j < |fetches| && fetches[i].Got? && fetches[j].Got? &&
        ss[fetches[i].at].council.revision > ss[fetches[j].at].council.revision;
      CachedRevision(ss, fetches[..i + 1], i);
      CachedRevision(ss, fetches[..j + 1], j);
      assert !NotOlder(ss, fetches, i + 1, j + 1);
    }
  }

  /** Responses that come in in the order of the states they bring never make the cache go back, in any run. */
  lemma InOrderNeverGoesBack(ss: seq<Sys>, ls: seq<Label>, fetches: seq<Fetch>)
    requires IsRun(ss, ls) && InRun(ss, fetches) && InOrder(fetches)
    ensures NeverGoesBack(ss, fetches)
  {
    hide IsRun, NeverGoesBack;
    forall i, j | 0 <= i < j < |fetches| && fetches[i].Got? && fetches[j].Got?
      ensures ss[fetches[i].at].council.revision <= ss[fetches[j].at].council.revision
    {
      RevisionNeverFalls(ss, ls, fetches[i].at, fetches[j].at);
    }
    GoesBackIff(ss, fetches);
  }

  // ---------------------------------------------------------------- handing on

  /** Calls as they interleave: a response is dealt with under the mutex, and later, if it was stored, the
      snapshot is handed on. Parts of a peer that take a snapshot at different moments are each such a schedule. */
  datatype WatchStep = Respond(fetch: Fetch) | HandOn(store: nat)

  function Responses(steps: seq<WatchStep>): seq<Fetch> {
    if steps == [] then []
    else match Last(steps)
      case Respond(f) => Responses(Front(steps)) + [f]
      case HandOn(_) => Responses(Front(steps))
  }

  function HandOns(steps: seq<WatchStep>): seq<nat> {
    if steps == [] then []
    else match Last(steps)
      case Respond(_) => HandOns(Front(steps))
      case HandOn(i) => HandOns(Front(steps)) + [i]
  }

  /** Each snapshot is handed on at most once, and after it was stored. */
  ghost predicate Schedule(ss: seq<Sys>, steps: seq<WatchStep>)
    ensures Schedule(ss, steps) ==> InRun(ss, Responses(steps))
    ensures Schedule(ss, steps) ==> forall i :: i in HandOns(steps) ==> i < |Stored(ss, Responses(steps))|
  {
    steps == [] || (
      && Schedule(ss, Front(steps))
      && match Last(steps)
         case Respond(f) =>
           assert Front(Responses(Front(steps)) + [f]) == Responses(Front(steps));
           f.Got? ==> f.at < |ss|
         case HandOn(i) => i < |Stored(ss, Responses(Front(steps)))| && i !in HandOns(Front(steps)))
  }

  /** The snapshots in the order in which they were handed on. */
  ghost function HandedOn(ss: seq<Sys>, steps: seq<WatchStep>): seq<State>
    requires Schedule(ss, steps)
  {
    var stored, handed := Stored(ss, Responses(steps)), HandOns(steps);
    seq(|handed|, n requires 0 <= n < |handed| => assert handed[n] in handed; stored[handed[n]])
  }

  /** No call is between its store and its hand-on. */
  ghost predicate NothingPending(ss: seq<Sys>, steps: seq<WatchStep>)
    requires Schedule(ss, steps)
  {
    forall i: nat :: i < |Stored(ss, Responses(steps))| ==> i in HandOns(steps)
  }

  /** The snapshot stored last was handed on last. */
  ghost predicate LastStoreLast(ss: seq<Sys>, steps: seq<WatchStep>)
    requires Schedule(ss, steps)
  {
    HandOns(steps) != [] && Last(HandOns(steps)) == |Stored(ss, Responses(steps))| - 1
  }

  /** The i-th response is the last one of a successful fetch. */
  predicate LastFetched(ss: seq<Sys>, fetches: seq<Fetch>, i: nat) {
    && i < |fetches| && fetches[i].Got? && fetches[i].at < |ss|
    && forall j :: i < j < |fetches| ==> fetches[j].Failed?
  }

  lemma CacheSince(ss: seq<Sys>, ls: seq<Label>, fetches: seq<Fetch>, i: nat)
    requires CountedRun(ss, ls) && InRun(ss, fetches) && LastFetched(ss, fetches, i)
    ensures CacheAfter(ss, fetches).Some? && SameButBeat(CacheAfter(ss, fetches).value, ss[fetches[i].at].council)
  {
    hide IsRun, SameButBeat, LosesCount;
    CachedRevision(ss, fetches, i);
    var at := CacheIsFetched(ss, fetches);
    StatesAgree(ss, ls, fetches[at].at, fetches[i].at);
  }

  /** Once nothing is pending, the snapshot that the peer acts on is the council's state at the last successful
      fetch, heartbeats aside, exactly when its revision is the cached one. */
  lemma CurrentAgreesIff(ss: seq<Sys>, ls: seq<Label>, steps: seq<WatchStep>, i: nat)
    requires CountedRun(ss, ls) && Schedule(ss, steps) && NothingPending(ss, steps)
    requires LastFetched(ss, Responses(steps), i)
    ensures HandedOn(ss, steps) != [] && CacheAfter(ss, Responses(steps)).Some?
    ensures SameButBeat(Last(HandedOn(ss, steps)), ss[Responses(steps)[i].at].council) <==>
      Last(HandedOn(ss, steps)).revision == CacheAfter(ss, Responses(steps)).value.revision
  {
    hide IsRun, LosesCount, SameKings, SameLings, Schedule, CacheAfter;
    var fetches, stored := Responses(steps), Stored(ss, Responses(steps));
    CacheSince(ss, ls, fetches, i);
    assert |stored| - 1 in HandOns(steps);
    var last := Last(HandOns(steps));
    assert last in HandOns(steps);
    var at := StoredFromRun(ss, fetches, last);
    if ss[at].council.revision == ss[fetches[i].at].council.revision {
      StatesAgree(ss, ls, at, fetches[i].at);
    }
  }

  lemma {:induction false} StoredIncrease(ss: seq<Sys>, fetches: seq<Fetch>, i: nat, j: nat)
    requires InRun(ss, fetches) && RevisionsInOrder(ss, fetches) && i < j < |Stored(ss, fetches)|
    ensures Stored(ss, fetches)[i].revision < Stored(ss, fetches)[j].revision
  {
    var front := Front(fetches);
    assert forall k :: 0 <= k < |front| ==> front[k] == fetches[k];
    if j < |Stored(ss, front)| {
      StoredIncrease(ss, front, i, j);
    } else {
      var k := LastGot(ss, front);
      CachedRevision(ss, front, k);
      assert fetches[k].Got? && Last(fetches).Got?;
      if i < j - 1 {
        StoredIncrease(ss, front, i, j - 1);
      }
    }
  }

  /** When responses come in in order, that is exactly when the snapshot stored last was handed on last. */
  lemma LastHandOnDecides(ss: seq<Sys>, ls: seq<Label>, steps: seq<WatchStep>, i: nat)
    requires CountedRun(ss, ls) && Schedule(ss, steps) && NothingPending(ss, steps)
    requires LastFetched(ss, Responses(steps), i) && RevisionsInOrder(ss, Responses(steps))
    ensures HandedOn(ss, steps) != []
    ensures SameButBeat(Last(HandedOn(ss, steps)), ss[Responses(steps)[i].at].council) <==> LastStoreLast(ss, steps)
  {
    hide IsRun, LosesCount, SameButBeat, Schedule, NothingPending, RevisionsInOrder;
    CurrentAgreesIff(ss, ls, steps, i);
    var stored, last := Stored(ss, Responses(steps)), Last(HandOns(steps));
    assert last in HandOns(steps);
    if last < |stored| - 1 {
      StoredIncrease(ss, Responses(steps), last, |stored| - 1);
    }
  }

  /** In whatever order responses come in, it suffices. */
  lemma LastStoreAgrees(ss: seq<Sys>, ls: seq<Label>, steps: seq<WatchStep>, i: nat)
    requires CountedRun(ss, ls) && Schedule(ss, steps) && LastStoreLast(ss, steps)
    requires LastFetched(ss, Responses(steps), i)
    ensures HandedOn(ss, steps) != [] && SameButBeat(Last(HandedOn(ss, steps)), ss[Responses(steps)[i].at].council)
  {
    hide IsRun, LosesCount, SameButBeat, Schedule;
    CacheSince(ss, ls, Responses(steps), i);
  }

  /** No call starts before the one before it has handed on. */
  ghost predicate OneCallAtATime(ss: seq<Sys>, steps: seq<WatchStep>)
    requires Schedule(ss, steps)
  {
    steps == [] || (
      && OneCallAtATime(ss, Front(steps))
      && (Last(steps).Respond? ==> NothingPending(ss, Front(steps))))
  }

  lemma {:induction false} HandsOnInTurn(ss: seq<Sys>, steps: seq<WatchStep>)
    requires Schedule(ss, steps) && OneCallAtATime(ss, steps)
    ensures forall n :: 0 <= n < |HandOns(steps)| ==> HandOns(steps)[n] == n
    ensures |Stored(ss, Responses(steps))| <= |HandOns(steps)| + 1
  {
    if steps != [] {
      var front := Front(steps);
      HandsOnInTurn(ss, front);
      var stored, handed := Stored(ss, Responses(front)), HandOns(front);
      match Last(steps)
      case Respond(f) =>
        assert Front(Responses(steps)) == Responses(front);
        if |handed| < |stored| {
          assert |handed| as nat in handed;
        }
      case HandOn(i) =>
        if i < |handed| {
          assert handed[i] in handed;
        }
    }
  }

  /** So when calls of doFetchState do not overlap, the peer acts on the council's state at the last successful
      fetch, heartbeats aside, whenever no call is going on. */
  lemma OneCallAgrees(ss: seq<Sys>, ls: seq<Label>, steps: seq<WatchStep>, i: nat)
    requires CountedRun(ss, ls) && Schedule(ss, steps) && OneCallAtATime(ss, steps) && NothingPending(ss, steps)
    requires LastFetched(ss, Responses(steps), i)
    ensures LastStoreLast(ss, steps)
    ensures HandedOn(ss, steps) != [] && SameButBeat(Last(HandedOn(ss, steps)), ss[Responses(steps)[i].at].council)
  {
    hide IsRun, LosesCount, SameButBeat, Schedule;
    HandsOnInTurn(ss, steps);
    CurrentAgreesIff(ss, ls, steps, i);
    var stored, handed := Stored(ss, Responses(steps)), HandOns(steps);
    assert |stored| - 1 in handed && Last(handed) in handed;
    LastStoreAgrees(ss, ls, steps, i);
  }
}
