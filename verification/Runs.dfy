/** The council as a transition system: handlers interleave at their broadcasts, the cleaner and the
    clock step in between. The theorems hold in every state of every run. */
module Runs {
  import opened CouncilState
  import opened Provisioner
  import opened Placement
  import opened Cleaner
  import opened Handlers
  import opened Registry

  datatype Sys = Sys(council: State, threads: seq<Thread>, clock: int, issued: set<string>)

  datatype Label =
    | ArriveKing(king: PutKing)
    | ArriveLing(ling: PutLing)
    | Run(t: nat, env: Env)
    | Clean
    | Tick(now: int)

  predicate Enabled(s: Sys, l: Label) {
    l.Run? ==>
      l.t < |s.threads| && !s.threads[l.t].Finished? && l.env.clock == s.clock && l.env.newID !in s.issued
  }

  function Next(s: Sys, l: Label): Sys
    requires Enabled(s, l)
  {
    match l
    case ArriveKing(req) => s.(threads := s.threads + [StartKing(req)])
    case ArriveLing(req) => s.(threads := s.threads + [StartLing(req)])
    case Run(t, env) =>
      var p := Segment(s.council, s.threads[t], env);
      s.(council := p.After(), threads := s.threads[t := p.next], issued := s.issued + {env.newID})
    case Clean => s.(council := CleanPass(s.council, s.clock - STALE_THRESHOLD_MILLIS))
    case Tick(now) => s.(clock := now)
  }

  /** A run: states, and the labels of the steps between them. */
  ghost predicate IsRun(ss: seq<Sys>, ls: seq<Label>) {
    && |ss| == |ls| + 1
    && ss[0].council == EMPTY && ss[0].threads == [] && ss[0].issued == {}
    && forall i :: 0 <= i < |ls| ==> Enabled(ss[i], ls[i]) && ss[i + 1] == Next(ss[i], ls[i])
  }

  // ---------------------------------------------------------------- what holds in every state

  lemma NextKeepsCore(s: Sys, l: Label)
    requires Enabled(s, l) && Core(s.council, s.issued)
    ensures Core(Next(s, l).council, Next(s, l).issued)
    ensures Settled(s.council) && KingsUnique(Next(s, l).council.kings) ==> Settled(Next(s, l).council)
  {
    hide Segment, Settled, Core, CleanPass;
    match l
    case Run(t, env) => SegmentKeeps(s.council, s.threads[t], env, s.issued);
    case Clean => CleanKeepsCore(s.council, s.clock - STALE_THRESHOLD_MILLIS, s.issued);
    case _ =>
  }

  lemma CleanKeepsCore(st: State, threshold: int, issued: set<string>)
    requires Core(st, issued)
    ensures Core(CleanPass(st, threshold), issued)
    ensures Settled(st) ==> Settled(CleanPass(st, threshold))
  {
    hide Tidy, DistinctIDs, DistinctNames, DistinctLings, DistinctKings, InRanges, Live, Hosted;
    CleanKeeps(st, threshold);
    CleanRestores(st, threshold);
    var r := CleanPass(st, threshold);
    forall i | 0 <= i < |r.services| ensures r.services[i].serviceID in issued {
      assert r.services[i] in st.services;
    }
  }

  /** In every reachable state: host, bind port and remote port of a service are all set or all absent, no
      two services share (host, bindPort, remotePort), every placed service has a king entry at its address,
      and service IDs, (name, ling) pairs, ling IDs and king (ports, host) pairs are registered once. */
  lemma {:induction false} PortExclusivity(ss: seq<Sys>, ls: seq<Label>, n: nat)
    requires IsRun(ss, ls) && n < |ss|
    ensures Core(ss[n].council, ss[n].issued)
  {
    hide Next, Enabled;
    if n > 0 {
      PortExclusivity(ss, ls, n - 1);
      NextKeepsCore(ss[n - 1], ls[n - 1]);
    }
  }

  lemma {:induction false} SettledEverywhere(ss: seq<Sys>, ls: seq<Label>, n: nat)
    requires IsRun(ss, ls) && n < |ss|
    requires forall i :: 0 <= i <= n ==> KingsUnique(ss[i].council.kings)
    ensures Settled(ss[n].council)
  {
    hide Next, Enabled, Core, KingsUnique;
    if n > 0 {
      SettledEverywhere(ss, ls, n - 1);
      PortExclusivity(ss, ls, n - 1);
      NextKeepsCore(ss[n - 1], ls[n - 1]);
    }
  }

  /** The king a service is placed on: at its address, not shutting down, with its port in range. */
  predicate PlacedOn(s: Service, k: King) {
    OnKing(s, k) && !k.shuttingDown && s.remotePort.Some? && InRange(k, s.remotePort.value)
  }

  ghost predicate RangesDisjoint(kings: seq<King>) {
    forall i, j, p :: 0 <= i < j < |kings| && kings[i].host == kings[j].host && InRange(kings[i], p) ==>
      !InRange(kings[j], p)
  }

  /** While no two kings share an address, every placed service has exactly one king, a live one with the
      service's port in its range; if ranges on one host are disjoint, no two services share (host, remotePort). */
  lemma PlacementIntegrity(ss: seq<Sys>, ls: seq<Label>, n: nat)
    requires IsRun(ss, ls) && n < |ss|
    requires forall i :: 0 <= i <= n ==> KingsUnique(ss[i].council.kings)
    ensures
      var st := ss[n].council;
      && (forall s :: s in st.services && s.bindPort.Some? ==>
           exists k :: k in st.kings && PlacedOn(s, k) && forall h :: h in st.kings && OnKing(s, h) ==> h == k)
      && (RangesDisjoint(st.kings) ==>
           forall i, j :: 0 <= i < j < |st.services| ==>
             var s, t := st.services[i], st.services[j];
             s.bindPort.Some? && t.bindPort.Some? ==> s.host != t.host || s.remotePort != t.remotePort)
  {
    hide Next, Enabled, InRange, RangesDisjoint;
    var st := ss[n].council;
    PortExclusivity(ss, ls, n);
    SettledEverywhere(ss, ls, n);
    forall i | 0 <= i < |st.services| && st.services[i].bindPort.Some?
      ensures exists k ::
        && k in st.kings && PlacedOn(st.services[i], k)
        && forall h :: h in st.kings && OnKing(st.services[i], h) ==> h == k
    {
      var k := TheKing(st, i, ss[n].issued);
    }
    if RangesDisjoint(st.kings) {
      forall i, j | 0 <= i < j < |st.services| && st.services[i].bindPort.Some? && st.services[j].bindPort.Some?
        ensures st.services[i].host != st.services[j].host || st.services[i].remotePort != st.services[j].remotePort
      {
        RemotePortsDiffer(st, i, j, ss[n].issued);
      }
    }
  }

  lemma TheKing(st: State, i: nat, issued: set<string>) returns (k: King)
    requires Core(st, issued) && Settled(st) && KingsUnique(st.kings) && i < |st.services| &&
      st.services[i].bindPort.Some?
    ensures k in st.kings && PlacedOn(st.services[i], k)
    ensures forall h :: h in st.kings && OnKing(st.services[i], h) ==> h == k
  {
    hide InRange, Tidy;
    k :| k in st.kings && OnKing(st.services[i], k);
    assert !OnShuttingDown(st.kings, st.services[i]);
    forall h | h in st.kings && OnKing(st.services[i], h) ensures h == k {
      assert SameAddress(h, k);
    }
  }

  lemma RemotePortsDiffer(st: State, i: nat, j: nat, issued: set<string>)
    requires Core(st, issued) && Settled(st) && KingsUnique(st.kings) && RangesDisjoint(st.kings)
    requires i < j < |st.services| && st.services[i].bindPort.Some? && st.services[j].bindPort.Some?
    ensures st.services[i].host != st.services[j].host || st.services[i].remotePort != st.services[j].remotePort
  {
    hide InRange, DistinctIDs, DistinctNames, DistinctLings, DistinctKings, InRanges, Live, Hosted;
    var k := TheKing(st, i, issued);
    var h := TheKing(st, j, issued);
    if k == h {
      assert !SamePlace(st.services[i], st.services[j]);
    } else {
      var a :| 0 <= a < |st.kings| && st.kings[a] == k;
      var b :| 0 <= b < |st.kings| && st.kings[b] == h;
    }
  }
}
