/** Peers that act on what their watcher hands on: what they do is what the council's own state asks for. */
module Reactions {
  import opened Basics
  import opened CouncilState
  import opened Placement
  import opened Registry
  import opened Runs
  import opened Freshness
  import opened WatcherCache
  import K = KingReaction
  import L = LingReaction

  // ---------------------------------------------------------------- skipped snapshots

  /** A king's tunnel server is told the same tokens and ports, and its king reports the same services. */
  predicate SameForKing(a: State, b: State, bindPort: int, host: string, servers: K.Servers, configs: seq<int>) {
    && K.Tokens(a.services, a.lings, bindPort, host) == K.Tokens(b.services, b.lings, bindPort, host)
    && K.DesiredPorts(a.services, a.lings, bindPort, host) == K.DesiredPorts(b.services, b.lings, bindPort, host)
    && K.ReadyIDs(a.services, a.lings, servers, configs, host) ==
      K.ReadyIDs(b.services, b.lings, servers, configs, host)
  }

  /** A ling groups the same tunnels, reports the same services and gives its proxies the same targets. */
  ghost predicate SameForLing(
      a: State, b: State, lingID: string, tunnels: map<string, string>, name: string, location: Option<string>)
  {
    var indexA, indexB := L.IndexKings(a.kings), L.IndexKings(b.kings);
    && (forall groups ::
         L.Grouped(groups, a.services, lingID, tunnels, indexA) ==
           L.Grouped(groups, b.services, lingID, tunnels, indexB))
    && L.LocalAddrs(a.services, lingID, tunnels, indexA) == L.LocalAddrs(b.services, lingID, tunnels, indexB)
    && L.LingReadyIDs(a.services, lingID, tunnels) == L.LingReadyIDs(b.services, lingID, tunnels)
    && L.Targets(a.services, name, indexA, location) == L.Targets(b.services, name, indexB, location)
  }

  lemma SameStatesSameReactions(
      a: State, b: State, bindPort: int, host: string, servers: K.Servers, configs: seq<int>, lingID: string,
      tunnels: map<string, string>, name: string, location: Option<string>)
    requires SameButBeat(a, b)
    ensures SameForKing(a, b, bindPort, host, servers, configs) && SameForLing(a, b, lingID, tunnels, name, location)
  {
    hide L.IndexKings, L.Grouped, L.LocalAddrs, L.LingReadyIDs, L.Targets;
    K.KingIgnoresBeats(a.services, a.lings, b.lings, bindPort, host, servers, configs);
    L.LingIgnoresBeats(a.kings, b.kings);
  }

  /** In a run whose changes are all counted, once the snapshot stored last has been handed on last, every reaction
      to it equals the reaction to the council's state at the last successful fetch, although equal revisions were
      skipped. Calls that do not overlap get there whenever none is going on (OneCallAgrees). */
  lemma SkippingLosesNothing(
      ss: seq<Sys>, ls: seq<Label>, steps: seq<WatchStep>, i: nat, bindPort: int, host: string, servers: K.Servers,
      configs: seq<int>, lingID: string, tunnels: map<string, string>, name: string, location: Option<string>)
    requires CountedRun(ss, ls) && Schedule(ss, steps) && LastStoreLast(ss, steps)
    requires LastFetched(ss, Responses(steps), i)
    ensures HandedOn(ss, steps) != []
    ensures
      var taken, council := Last(HandedOn(ss, steps)), ss[Responses(steps)[i].at].council;
      && SameForKing(taken, council, bindPort, host, servers, configs)
      && SameForLing(taken, council, lingID, tunnels, name, location)
  {
    hide IsRun, Schedule, SameForKing, SameForLing, SameButBeat, LosesCount;
    LastStoreAgrees(ss, ls, steps, i);
    SameStatesSameReactions(
      Last(HandedOn(ss, steps)), ss[Responses(steps)[i].at].council, bindPort, host, servers, configs, lingID, tunnels,
      name, location);
  }

  // ---------------------------------------------------------------- listeners along a run

  function DesiredBy(st: State, bindPort: int, host: string): map<int, string> {
    K.DesiredPorts(st.services, st.lings, bindPort, host)
  }

  function DesiredAlong(snapshots: seq<State>, bindPort: int, host: string): seq<map<int, string>> {
    seq(|snapshots|, i requires 0 <= i < |snapshots| => DesiredBy(snapshots[i], bindPort, host))
  }

  /** Some port of the tunnel is one service's before and another's after. */
  predicate PortPasses(a: State, b: State, bindPort: int, host: string) {
    exists i, j :: 0 <= i < |a.services| && 0 <= j < |b.services| && Passes(a, b, i, j, bindPort, host)
  }

  predicate Passes(a: State, b: State, i: nat, j: nat, bindPort: int, host: string)
    requires i < |a.services| && j < |b.services|
  {
    var s, t := a.services[i], b.services[j];
    && K.Assigned(s, a.lings, bindPort, host) && K.Assigned(t, b.lings, bindPort, host)
    && s.remotePort == t.remotePort && s.serviceID != t.serviceID
  }

  lemma HandoverIsPassing(a: State, b: State, issuedA: set<string>, issuedB: set<string>, bindPort: int, host: string)
    requires Core(a, issuedA) && Core(b, issuedB)
    ensures K.Handover(DesiredBy(a, bindPort, host), DesiredBy(b, bindPort, host)) <==> PortPasses(a, b, bindPort, host)
  {
    hide K.LingShuttingDown, K.DesiredPorts, Hosted;
    var before, after := DesiredBy(a, bindPort, host), DesiredBy(b, bindPort, host);
    if K.Handover(before, after) {
      var p :| p in before && p in after && before[p] != after[p];
      var i := K.PortOfAssigned(a.services, a.lings, bindPort, host, p);
      var j := K.PortOfAssigned(b.services, b.lings, bindPort, host, p);
      assert Passes(a, b, i, j, bindPort, host);
    }
    if i, j :| 0 <= i < |a.services| && 0 <= j < |b.services| && Passes(a, b, i, j, bindPort, host) {
      K.AssignedIsListed(a.services, a.lings, bindPort, host, i);
      K.AssignedIsListed(b.services, b.lings, bindPort, host, j);
      var p := a.services[i].remotePort.value;
      assert p in before && p in after && before[p] != after[p];
    }
  }

  ghost predicate NoPortPasses(snapshots: seq<State>, bindPort: int, host: string) {
    forall n :: 0 < n < |snapshots| ==> !PortPasses(snapshots[n - 1], snapshots[n], bindPort, host)
  }

  /** Whatever a watcher fetches along a run of the council, in whatever order snapshots are stored and handed on:
      if the king finishes with one before it takes the next, and all listens succeed, then the listeners of a
      tunnel serve the services their ports are assigned to after every snapshot, if and only if no port is one
      service's in one snapshot handed on and another's in the next. KingReaction.ListeningIff is about reactions
      that overlap. */
  lemma ListenersFollowCouncil(ss: seq<Sys>, ls: seq<Label>, steps: seq<WatchStep>, bindPort: int, host: string)
    requires IsRun(ss, ls) && Schedule(ss, steps)
    ensures
      var snapshots := HandedOn(ss, steps);
      K.Follows(DesiredAlong(snapshots, bindPort, host)) <==> NoPortPasses(snapshots, bindPort, host)
  {
    hide IsRun, K.Follows, K.Handover, PortPasses, Stored, DesiredBy, Core, Schedule;
    var snapshots := HandedOn(ss, steps);
    var desired := DesiredAlong(snapshots, bindPort, host);
    K.ListenersFollow(desired);
    forall n | 0 < n < |snapshots|
      ensures K.Handover(desired[n - 1], desired[n]) <==> PortPasses(snapshots[n - 1], snapshots[n], bindPort, host)
    {
      var i := HandedFromRun(ss, steps, n - 1);
      var j := HandedFromRun(ss, steps, n);
      PortExclusivity(ss, ls, i);
      PortExclusivity(ss, ls, j);
      HandoverIsPassing(snapshots[n - 1], snapshots[n], ss[i].issued, ss[j].issued, bindPort, host);
    }
  }

  /** Every snapshot handed on is a state the council was in. */
  lemma HandedFromRun(ss: seq<Sys>, steps: seq<WatchStep>, n: nat) returns (at: nat)
    requires Schedule(ss, steps) && n < |HandedOn(ss, steps)|
    ensures at < |ss| && HandedOn(ss, steps)[n] == ss[at].council
  {
    hide Schedule;
    assert HandOns(steps)[n] in HandOns(steps);
    at := StoredFromRun(ss, Responses(steps), HandOns(steps)[n]);
  }
}
